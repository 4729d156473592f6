/**
 The striped causal schedule: at ring step s rank r decides whether the
 K/V shard it holds is seen by its queries in Full mode (whole blocks,
 causal inside the block) or in Shifted mode (query rows [1, n) against
 K/V rows [0, n-1), causal inside that sub-block).
 */
module Schedule {
  import opened Ring
  import opened Striping

  datatype Mode = Full | Shifted

  /** The forward driver's choice: Full when step <= rank. */
  function ForwardMode(r: nat, s: nat): Mode
  {
    if s <= r then Full else Shifted
  }

  /** The backward driver's flag `shift_causal = step > rank`. */
  function BackwardShift(r: nat, s: nat): bool
  {
    s > r
  }

  /** The mode the backward driver applies, read off its flag. */
  function BackwardMode(r: nat, s: nat): Mode
  {
    if BackwardShift(r, s) then Shifted else Full
  }

  /** Forward and backward pair the same blocks at every (rank, step). */
  lemma ModesAgree(r: nat, s: nat)
    ensures BackwardShift(r, s) <==> ForwardMode(r, s) == Shifted
    ensures BackwardMode(r, s) == ForwardMode(r, s)
  {
  }

  /** Step 0 is Full on every rank, so the first merge covers every row. */
  lemma FirstStepIsFull(r: nat)
    ensures ForwardMode(r, 0) == Full && !BackwardShift(r, 0)
  {
  }

  /** A rank is in Full mode exactly when the shard it holds is owned by a rank at or before it. */
  lemma ModeBySource(p: nat, r: nat, s: nat)
    requires r < p && s < p
    ensures ForwardMode(r, s) == Full <==> Source(p, r, s) <= r
  {
  }

  /** Python's `x[1:]` along the sequence axis. */
  function DropFirst<T>(xs: seq<T>): (ys: seq<T>)
    ensures |ys| == if |xs| == 0 then 0 else |xs| - 1
  {
    if |xs| == 0 then [] else xs[1..]
  }

  /** Python's `x[:-1]` along the sequence axis. */
  function DropLast<T>(xs: seq<T>): (ys: seq<T>)
    ensures |ys| == if |xs| == 0 then 0 else |xs| - 1
  {
    if |xs| == 0 then [] else xs[..|xs| - 1]
  }

  /** The query-side argument the kernel is given (q, dout, out, lse, dq buffer). */
  function QuerySlice<T>(m: Mode, xs: seq<T>): seq<T>
  {
    if m == Full then xs else DropFirst(xs)
  }

  /** The K/V-side argument the kernel is given (k, v, dk buffer, dv buffer). */
  function KeySlice<T>(m: Mode, xs: seq<T>): seq<T>
  {
    if m == Full then xs else DropLast(xs)
  }

  /** The first query row the mode's slice starts at (the `slice(1, None)` of the merge). */
  function QueryLo(m: Mode): nat
  {
    if m == Full then 0 else 1
  }

  /** The number of rows of either side of the sliced (square) block. */
  function BlockLen(m: Mode, n: nat): nat
  {
    if m == Full || n == 0 then n else n - 1
  }

  /** Slicing a query stripe gives the stripe of rows [QueryLo, QueryLo + BlockLen). */
  lemma QuerySliceOfStripe(p: nat, r: nat, n: nat, m: Mode)
    ensures QuerySlice(m, Stripe(p, r, 0, n)) == Stripe(p, r, QueryLo(m), QueryLo(m) + BlockLen(m, n))
  {
    if m == Shifted && n > 0 {
      StripeSlice(p, r, 0, n, 1, n);
    }
  }

  /** Slicing a K/V stripe gives the stripe of rows [0, BlockLen). */
  lemma KeySliceOfStripe(p: nat, o: nat, n: nat, m: Mode)
    ensures KeySlice(m, Stripe(p, o, 0, n)) == Stripe(p, o, 0, BlockLen(m, n))
  {
    if m == Shifted && n > 0 {
      StripeSlice(p, o, 0, n, 0, n - 1);
    }
  }

  /**
   The (local query row, local K/V row) pairs that interact at a step in mode
   `m` with shards of n rows: the causal pairs (a, b), b <= a, of the sliced
   square block, shifted back to the unsliced row numbers.
   */
  function StepPairs(m: Mode, n: nat): set<(nat, nat)>
  {
    set pr | pr in BlockPairs(BlockLen(m, n)) :: Unslice(m, pr)
  }

  /** The pairs a causal kernel forms inside a square block of `len` rows. */
  function BlockPairs(len: nat): set<(nat, nat)>
  {
    set a: nat, b: nat | b <= a < len :: (a, b)
  }

  /** A pair of sliced-block rows, numbered as rows of the unsliced shards. */
  function Unslice(m: Mode, pr: (nat, nat)): (nat, nat)
  {
    (QueryLo(m) + pr.0, pr.1)
  }

  /** Full pairs every query row with the K/V rows at or before it; Shifted with those strictly before it. */
  lemma StepPairsShape(m: Mode, n: nat, i: nat, j: nat)
    ensures (i, j) in StepPairs(m, n) <==>
              i < n && (if m == Full then j <= i else j < i)
  {
    if i < n && (if m == Full then j <= i else j < i) {
      var pr: (nat, nat) := (i - QueryLo(m), j);
      assert pr in BlockPairs(BlockLen(m, n));
      assert Unslice(m, pr) == (i, j);
    }
  }

  /**
   Under striping the schedule is exactly the global causal mask: on rank r at
   step s, local query i meets local key j of the held shard iff key j's global
   position is at or before query i's.
   */
  lemma {:induction false} StepPairsAreCausal(p: nat, n: nat, r: nat, s: nat, i: nat, j: nat)
    requires r < p && s < p && i < n && j < n
    ensures (i, j) in StepPairs(ForwardMode(r, s), n)
        <==> Pos(p, Source(p, r, s), j) <= Pos(p, r, i)
  {
    StepPairsShape(ForwardMode(r, s), n, i, j);
    StripedCausal(p, r, Source(p, r, s), i, j);
  }

  /** The interactions of one step as (K/V owner, query row, K/V row) triples. */
  function StepTriples(p: nat, n: nat, r: nat, s: nat): set<(nat, nat, nat)>
    requires r < p && s < p
  {
    set pr | pr in StepPairs(ForwardMode(r, s), n) :: (Source(p, r, s), pr.0, pr.1)
  }

  /** All interactions rank r has in steps [0, k), counted with multiplicity. */
  function Coverage(p: nat, n: nat, r: nat, k: nat): multiset<(nat, nat, nat)>
    requires r < p && k <= p
  {
    if k == 0 then multiset{} else Coverage(p, n, r, k - 1) + multiset(StepTriples(p, n, r, k - 1))
  }

  lemma StepTriplesMember(p: nat, n: nat, r: nat, s: nat, o: nat, i: nat, j: nat)
    requires r < p && s < p
    ensures (o, i, j) in StepTriples(p, n, r, s)
        <==> o == Source(p, r, s) && (i, j) in StepPairs(ForwardMode(r, s), n)
  {
    if o == Source(p, r, s) && (i, j) in StepPairs(ForwardMode(r, s), n) {
      var pr := (i, j);
      assert pr in StepPairs(ForwardMode(r, s), n);
    }
  }

  /** After k steps, a triple has been covered once if it is causal and its shard arrived, else never. */
  lemma {:induction false} CoverageCount(p: nat, n: nat, r: nat, k: nat, o: nat, i: nat, j: nat)
    requires r < p && k <= p && o < p
    ensures Coverage(p, n, r, k)[(o, i, j)]
         == if i < n && j < n && Pos(p, o, j) <= Pos(p, r, i) && Source(p, r, o) < k then 1 else 0
  {
    if k > 0 {
      CoverageCount(p, n, r, k - 1, o, i, j);
      StepTriplesMember(p, n, r, k - 1, o, i, j);
      SourceInvolution(p, r, o);
      SourceInvolution(p, r, k - 1);
      if i < n && j < n {
        StepPairsAreCausal(p, n, r, k - 1, i, j);
      } else {
        StepPairsShape(ForwardMode(r, k - 1), n, i, j);
      }
    }
  }

  /**
   Over the p steps of one call, every causal (query, key) pair of rank r is
   covered exactly once and no other pair is covered.
   */
  lemma {:induction false} CoverageExactlyOnce(p: nat, n: nat, r: nat, o: nat, i: nat, j: nat)
    requires r < p
    ensures Coverage(p, n, r, p)[(o, i, j)]
         == if o < p && i < n && j < n && Pos(p, o, j) <= Pos(p, r, i) then 1 else 0
  {
    if o < p {
      CoverageCount(p, n, r, p, o, i, j);
    } else {
      CoverageNeverForeign(p, n, r, p, o, i, j);
    }
  }

  /** No step covers a shard whose owner is not a rank of the ring. */
  lemma {:induction false} CoverageNeverForeign(p: nat, n: nat, r: nat, k: nat, o: nat, i: nat, j: nat)
    requires r < p && k <= p && o >= p
    ensures Coverage(p, n, r, k)[(o, i, j)] == 0
  {
    if k > 0 {
      CoverageNeverForeign(p, n, r, k - 1, o, i, j);
      StepTriplesMember(p, n, r, k - 1, o, i, j);
    }
  }

  /** With a single rank the whole call is one Full causal block. */
  lemma SingleRankIsOneFullBlock(n: nat)
    ensures ForwardMode(0, 0) == Full
    ensures Coverage(1, n, 0, 1) == multiset(StepTriples(1, n, 0, 0))
    ensures forall i: nat, j: nat :: (0, i, j) in StepTriples(1, n, 0, 0) <==> j <= i < n
  {
    forall i: nat, j: nat
      ensures (0, i, j) in StepTriples(1, n, 0, 0) <==> j <= i < n
    {
      StepTriplesMember(1, n, 0, 0, 0, i, j);
      StepPairsShape(Full, n, i, j);
    }
  }
}
