/**
 Merging one step's block result into a running accumulator over the rows
 the step's mode selects (the `update_out_and_lse` call with or without
 `slice_`, `dq += ...`, `dk[:, :-1] += ...`).

 The online-softmax arithmetic itself is not modelled: a row of the
 accumulator is the multiset of positions merged into it so far, and merging
 adds multisets. This keeps exactly what the log-sum-exp identity makes
 the combination depend on: which partial results went in, how many times
 each, and not in which order.
 */
module Merge {
  import opened Outcomes

  type Rows = seq<multiset<nat>>

  /** What a block placed at row offset `lo` contributes to row i (nothing outside the slice). */
  function Contribution(block: Rows, lo: nat, i: nat): multiset<nat>
  {
    if lo <= i < lo + |block| then block[i - lo] else multiset{}
  }

  /** Adds `block` into rows [lo, lo + |block|) of `acc`; all other rows pass through. */
  function AddRows(acc: Rows, block: Rows, lo: nat): (r: Rows)
    ensures |r| == |acc|
  {
    seq(|acc|, i requires 0 <= i < |acc| => acc[i] + Contribution(block, lo, i))
  }

  /** The rows of a first merge into an empty accumulator of n rows. */
  function Place(block: Rows, lo: nat, n: nat): (r: Rows)
    ensures |r| == n
  {
    seq(n, i requires 0 <= i < n => Contribution(block, lo, i))
  }

  /** A running accumulator: None before the first merge. */
  type Acc = Option<Rows>

  /** The rows an accumulator currently holds; an absent accumulator holds nothing yet. */
  function Current(acc: Acc, n: nat): Rows
  {
    if acc.None? then seq(n, _ => multiset{}) else acc.value
  }

  /** One merge: the first one takes the block as the accumulator, later ones add into it. */
  function Update(acc: Acc, block: Rows, lo: nat, n: nat): Acc
  {
    match acc
    case None => Some(Place(block, lo, n))
    case Some(rows) => Some(AddRows(rows, block, lo))
  }

  /** Shape of an accumulator that is either absent or holds n rows. */
  ghost predicate Sized(acc: Acc, n: nat)
  {
    acc.Some? ==> |acc.value| == n
  }

  /**
   A merge adds the block's contribution to every row of the slice and leaves
   every row outside it as it was.
   */
  lemma UpdateRow(acc: Acc, block: Rows, lo: nat, n: nat, i: nat)
    requires Sized(acc, n) && i < n
    ensures Update(acc, block, lo, n).Some?
    ensures |Update(acc, block, lo, n).value| == n
    ensures Update(acc, block, lo, n).value[i] == Current(acc, n)[i] + Contribution(block, lo, i)
    ensures !(lo <= i < lo + |block|) ==> Update(acc, block, lo, n).value[i] == Current(acc, n)[i]
  {
  }

  /**
   Merge order does not matter: two blocks merged in either order give the same
   accumulator (the log-sum-exp combination is associative and commutative).
   */
  lemma UpdateCommutes(acc: Acc, b1: Rows, lo1: nat, b2: Rows, lo2: nat, n: nat)
    requires Sized(acc, n)
    ensures Update(Update(acc, b1, lo1, n), b2, lo2, n) == Update(Update(acc, b2, lo2, n), b1, lo1, n)
  {
    UpdateSize(acc, b1, lo1, n);
    UpdateSize(acc, b2, lo2, n);
    var x := Update(Update(acc, b1, lo1, n), b2, lo2, n).value;
    var y := Update(Update(acc, b2, lo2, n), b1, lo1, n).value;
    forall i | 0 <= i < n
      ensures x[i] == y[i]
    {
      UpdateRow(acc, b1, lo1, n, i);
      UpdateRow(acc, b2, lo2, n, i);
      UpdateRow(Update(acc, b1, lo1, n), b2, lo2, n, i);
      UpdateRow(Update(acc, b2, lo2, n), b1, lo1, n, i);
    }
    assert x == y;
  }

  /** A merge always yields an accumulator of n rows. */
  lemma UpdateSize(acc: Acc, block: Rows, lo: nat, n: nat)
    requires Sized(acc, n)
    ensures Update(acc, block, lo, n).Some? && Sized(Update(acc, block, lo, n), n)
  {
  }

  /** A sequence of merges, as (block, first row) pairs in the order they are made. */
  function MergeAll(acc: Acc, blocks: seq<(Rows, nat)>, n: nat): Acc
    decreases |blocks|
  {
    if |blocks| == 0 then acc else MergeAll(Update(acc, blocks[0].0, blocks[0].1, n), blocks[1..], n)
  }

  /** The sum, over a sequence of blocks, of what each one contributes to row i. */
  function TotalContribution(blocks: seq<(Rows, nat)>, i: nat): multiset<nat>
    decreases |blocks|
  {
    if |blocks| == 0 then multiset{} else Contribution(blocks[0].0, blocks[0].1, i) + TotalContribution(blocks[1..], i)
  }

  /**
   However many merges are made, row i ends as what it held plus the sum of
   every block's contribution to it: a merged result depends on which blocks
   went in and how often, and on nothing else.
   */
  lemma {:induction false} MergeAllRow(acc: Acc, blocks: seq<(Rows, nat)>, n: nat, i: nat)
    requires Sized(acc, n) && i < n
    ensures Sized(MergeAll(acc, blocks, n), n)
    ensures Current(MergeAll(acc, blocks, n), n)[i] == Current(acc, n)[i] + TotalContribution(blocks, i)
    decreases |blocks|
  {
    if |blocks| > 0 {
      var next := Update(acc, blocks[0].0, blocks[0].1, n);
      UpdateSize(acc, blocks[0].0, blocks[0].1, n);
      UpdateRow(acc, blocks[0].0, blocks[0].1, n, i);
      MergeAllRow(next, blocks[1..], n, i);
    }
  }
}
