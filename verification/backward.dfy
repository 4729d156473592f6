/**
 The backward driver (`stripe_flash_attn_backward`) run on every rank of the
 ring at once. Two independent ring channels are in use: the K/V channel
 replays the forward rotation, and the gradient channel carries each shard's
 dK/dV accumulator one hop per step, so that it gathers one contribution per
 rank and ends, after the final wait, at the shard's owner.

 A dq row is the multiset of global key positions whose gradient terms it
 summed (like an out row in the forward pass); a dk row is the multiset of
 global query positions whose terms it summed. dv is computed, sliced, added
 and sent exactly like dk, so one accumulator stands for the pair.
 */
module Backward {
  import opened Outcomes
  import opened Ring
  import opened Striping
  import opened Schedule
  import opened Kernel
  import opened Merge
  import Forward

  /**
   A travelling dK/dV accumulator: its rows, and which (rank, shard) pairs
   added a contribution to it.
   */
  datatype KvGrad = KvGrad(rows: Rows, contribs: multiset<(nat, nat)>)

  /** The state of all p ranks between two steps; `sent` is what each rank last put on the gradient channel. */
  datatype BwdRing = BwdRing(kv: seq<nat>, dq: seq<Acc>, sent: seq<Option<KvGrad>>)

  ghost predicate WellFormed(p: nat, n: nat, st: BwdRing)
  {
    && p > 0
    && |st.kv| == p && |st.dq| == p && |st.sent| == p
    && (forall r :: 0 <= r < p ==> st.kv[r] < p)
    && (forall r :: 0 <= r < p ==> Sized(st.dq[r], n))
  }

  /** The dk (and dv) rows one kernel call produces on rank r against the shard of owner o. */
  function DkBlock(p: nat, n: nat, r: nat, o: nat, m: Mode): Rows
  {
    CausalCols(QuerySlice(m, Stripe(p, r, 0, n)), KeySlice(m, Stripe(p, o, 0, n)))
  }

  /**
   The accumulator rank r sends on at step s: on the first step (no dq yet)
   the step's own block, later the accumulator received from the previous
   rank with the block added at rows [0, len) of the mode's K/V slice.
   */
  function RankGrad(p: nat, n: nat, r: nat, o: nat, s: nat, first: bool, received: Option<KvGrad>): KvGrad
  {
    var block := DkBlock(p, n, r, o, BackwardMode(r, s));
    var base := if first then None else received;
    var rows := Update(if base.None? then None else Some(base.value.rows), block, 0, n);
    KvGrad(rows.value, (if base.None? then multiset{} else base.value.contribs) + multiset{(r, o)})
  }

  /** What rank r merges into dq at step s. */
  function RankDq(p: nat, n: nat, r: nat, o: nat, s: nat, dq: Acc): Acc
  {
    var m := BackwardMode(r, s);
    Update(dq, Forward.StepBlock(p, n, r, o, m), QueryLo(m), n)
  }

  /**
   One ring step on every rank: compute with the held shard, add into dq,
   take the accumulator received on the gradient channel, add into it,
   rotate K/V unless it is the last step, and send the accumulator on.
   */
  function Step(p: nat, n: nat, st: BwdRing, s: nat): (st': BwdRing)
    requires WellFormed(p, n, st) && s < p
    ensures WellFormed(p, n, st')
  {
    var received := Shift(st.sent);
    var dq' := seq(p, r requires 0 <= r < p => RankDq(p, n, r, st.kv[r], s, st.dq[r]));
    var sent' := seq(p, r requires 0 <= r < p =>
                       Some(RankGrad(p, n, r, st.kv[r], s, st.dq[r].None?, received[r])));
    assert forall r :: 0 <= r < p ==> Sized(dq'[r], n) by {
      forall r | 0 <= r < p
        ensures Sized(dq'[r], n)
      {
        var m := BackwardMode(r, s);
        UpdateSize(st.dq[r], Forward.StepBlock(p, n, r, st.kv[r], m), QueryLo(m), n);
      }
    }
    BwdRing(if s + 1 != p then Shift(st.kv) else st.kv, dq', sent')
  }

  function Init(p: nat, n: nat): (st: BwdRing)
    requires p > 0
    ensures WellFormed(p, n, st)
  {
    BwdRing(seq(p, r => r), seq(p, _ => None), seq(p, _ => None))
  }

  function Run(p: nat, n: nat, k: nat): (st: BwdRing)
    requires 0 < p && k <= p
    ensures WellFormed(p, n, st)
  {
    if k == 0 then Init(p, n) else Step(p, n, Run(p, n, k - 1), k - 1)
  }

  /** What one rank returns: its dq rows and the dK/dV accumulator the final wait delivered. */
  datatype Grads = Grads(dq: Rows, dkv: Option<KvGrad>)

  /** The backward call: refuses non-causal attention, else runs p steps and a final gradient wait. */
  function StripeBackward(p: nat, n: nat, causal: bool): Result<seq<Grads>, CallError>
    requires p > 0
  {
    if !causal then Err(NonCausal)
    else
      var st := Run(p, n, p);
      var delivered := Shift(st.sent);
      Ok(seq(p, r requires 0 <= r < p => Grads(Current(st.dq[r], n), delivered[r])))
  }

  /** How often query q should be in row j of an accumulator for the shard of owner o after k steps. */
  function DkExpected(p: nat, n: nat, o: nat, j: nat, q: nat, k: nat): nat
    requires p > 0 && o < p
  {
    if Pos(p, o, j) <= q && q / p < n && Source(p, q % p, o) < k then 1 else 0
  }

  /** How often (x, y) should be among an accumulator's contributors: once per rank that held shard o so far. */
  function ContribExpected(p: nat, o: nat, x: nat, y: nat, k: nat): nat
    requires o < p
  {
    if x < p && y == o && Source(p, x, o) < k then 1 else 0
  }

  /** The dq rows are the forward's out rows: the same pairs meet in the same modes. */
  lemma DqStepIsForwardStep(p: nat, n: nat, r: nat, o: nat, s: nat, dq: Acc)
    ensures RankDq(p, n, r, o, s, dq) == Forward.RankStep(p, n, r, o, s, dq)
  {
    ModesAgree(r, s);
  }

  lemma DkBlockShape(p: nat, n: nat, r: nat, o: nat, m: Mode)
    ensures |DkBlock(p, n, r, o, m)| == BlockLen(m, n)
  {
  }

  /** K/V row b of the sliced block gathers query rows [QueryLo + b, n) of rank r. */
  lemma DkBlockRow(p: nat, n: nat, r: nat, o: nat, m: Mode, b: nat)
    requires b < BlockLen(m, n)
    ensures DkBlock(p, n, r, o, m)[b] == multiset(Stripe(p, r, QueryLo(m) + b, n))
  {
    var lo, len := QueryLo(m), BlockLen(m, n);
    QuerySliceOfStripe(p, r, n, m);
    KeySliceOfStripe(p, o, n, m);
    assert lo + len == n;
    var qs := Stripe(p, r, lo, n);
    assert DkBlock(p, n, r, o, m) == CausalCols(qs, Stripe(p, o, 0, len));
    assert DkBlock(p, n, r, o, m)[b] == multiset(qs[b..]);
    StripeSlice(p, r, lo, n, b, len);
    assert qs[b..] == qs[b..len];
  }

  /**
   One step adds to K/V row j of the held shard exactly the queries of rank r
   that see it under the global causal mask; in Shifted mode nothing reaches
   the last row.
   */
  lemma {:induction false} DkContribution(p: nat, n: nat, r: nat, s: nat, j: nat, q: nat)
    requires r < p && s < p && j < n
    ensures Contribution(DkBlock(p, n, r, Source(p, r, s), BackwardMode(r, s)), 0, j)[q]
         == if q % p == r && Pos(p, Source(p, r, s), j) <= q && q / p < n then 1 else 0
  {
    var m := BackwardMode(r, s);
    if j < BlockLen(m, n) {
      DkContributionInSlice(p, n, r, s, j, q);
    } else {
      DkContributionOutsideSlice(p, n, r, s, j, q);
    }
  }

  lemma {:induction false} DkContributionInSlice(p: nat, n: nat, r: nat, s: nat, j: nat, q: nat)
    requires r < p && s < p && j < BlockLen(BackwardMode(r, s), n)
    ensures Contribution(DkBlock(p, n, r, Source(p, r, s), BackwardMode(r, s)), 0, j)[q]
         == if q % p == r && Pos(p, Source(p, r, s), j) <= q && q / p < n then 1 else 0
  {
    var o := Source(p, r, s);
    var m := BackwardMode(r, s);
    DkBlockShape(p, n, r, o, m);
    DkBlockRow(p, n, r, o, m, j);
    ModesAgree(r, s);
    assert Contribution(DkBlock(p, n, r, o, m), 0, j) == multiset(Stripe(p, r, QueryLo(m) + j, n));
    SeeingQueries(p, r, o, j, QueryLo(m), n, q);
  }

  /**
   The queries of rank r in local rows [j + lo, n) are exactly its queries that
   see key row j of owner o, lo being 0 when o <= r and 1 otherwise.
   */
  lemma {:induction false} SeeingQueries(p: nat, r: nat, o: nat, j: nat, lo: nat, n: nat, q: nat)
    requires r < p && o < p && lo + j <= n
    requires lo == if o <= r then 0 else 1
    ensures multiset(Stripe(p, r, lo + j, n))[q]
         == if q % p == r && Pos(p, o, j) <= q && q / p < n then 1 else 0
  {
    StripeCount(p, r, lo + j, n, q);
    if q % p == r {
      PosOfSplit(p, q);
      assert Pos(p, r, q / p) == q;
      StripedCausal(p, r, o, q / p, j);
      assert (Pos(p, o, j) <= q) == (lo + j <= q / p);
    }
  }

  /** Only a Shifted step leaves a K/V row out: the last one, which no query of rank r sees. */
  lemma {:induction false} DkContributionOutsideSlice(p: nat, n: nat, r: nat, s: nat, j: nat, q: nat)
    requires r < p && s < p && BlockLen(BackwardMode(r, s), n) <= j < n
    ensures Contribution(DkBlock(p, n, r, Source(p, r, s), BackwardMode(r, s)), 0, j)[q] == 0
    ensures !(q % p == r && Pos(p, Source(p, r, s), j) <= q && q / p < n)
  {
    var o := Source(p, r, s);
    var m := BackwardMode(r, s);
    DkBlockShape(p, n, r, o, m);
    assert m == Shifted && j == n - 1;
    assert o > r;
    if q % p == r && q / p < n {
      PosOfSplit(p, q);
      StripedCausal(p, r, o, q / p, j);
    }
  }

  /** The per-rank invariant after k steps. */
  ghost predicate RankInv(p: nat, n: nat, r: nat, kv: nat, dq: Acc, sent: Option<KvGrad>, k: nat)
    requires r < p && k <= p
  {
    && Forward.RankInv(p, n, r, kv, dq, k)
    && (k == 0 <==> dq.None?)
    && (k == 0 ==> sent.None?)
    && (k > 0 ==> sent.Some? && GradInv(p, n, Source(p, r, k - 1), sent.value, k))
  }

  /** An accumulator for the shard of owner o, k steps into its journey. */
  ghost predicate GradInv(p: nat, n: nat, o: nat, g: KvGrad, k: nat)
    requires o < p
  {
    && |g.rows| == n
    && (forall x: nat, y: nat :: g.contribs[(x, y)] == ContribExpected(p, o, x, y, k))
    && (forall j: nat, q: nat :: j < n ==> g.rows[j][q] == DkExpected(p, n, o, j, q, k))
  }

  /** Rank r's addition to the accumulator at step s completes the invariant for s + 1 steps. */
  lemma {:induction false} RankGradInv(p: nat, n: nat, r: nat, s: nat, received: Option<KvGrad>)
    requires r < p && s < p
    requires s == 0 || (received.Some? && GradInv(p, n, Source(p, r, s), received.value, s))
    ensures GradInv(p, n, Source(p, r, s), RankGrad(p, n, r, Source(p, r, s), s, s == 0, received), s + 1)
  {
    var o := Source(p, r, s);
    var m := BackwardMode(r, s);
    var block := DkBlock(p, n, r, o, m);
    var base: Option<Rows> := if s == 0 then None else Some(received.value.rows);
    var g := RankGrad(p, n, r, o, s, s == 0, received);
    UpdateSize(base, block, 0, n);
    SourceInvolution(p, r, s);
    forall x: nat, y: nat
      ensures g.contribs[(x, y)] == ContribExpected(p, o, x, y, s + 1)
    {
      if x < p && y == o {
        SourceInjectiveInRank(p, x, r, o);
      }
    }
    forall j: nat, q: nat | j < n
      ensures g.rows[j][q] == DkExpected(p, n, o, j, q, s + 1)
    {
      UpdateRow(base, block, 0, n, j);
      DkContribution(p, n, r, s, j, q);
      if q / p < n {
        SourceInjectiveInRank(p, q % p, r, o);
      }
    }
  }

  lemma {:induction false} RunInv(p: nat, n: nat, k: nat)
    requires 0 < p && k <= p
    ensures forall r :: 0 <= r < p ==>
              RankInv(p, n, r, Run(p, n, k).kv[r], Run(p, n, k).dq[r], Run(p, n, k).sent[r], k)
  {
    if k == 0 {
      RotatedIsSource(p, 0);
      assert Run(p, n, 0).kv == Rotated(p, 0);
    } else {
      RunInv(p, n, k - 1);
      StepAllInv(p, n, Run(p, n, k - 1), k - 1);
    }
  }

  /** One step preserves the invariant on every rank. */
  lemma StepAllInv(p: nat, n: nat, st: BwdRing, s: nat)
    requires WellFormed(p, n, st) && s < p
    requires forall x :: 0 <= x < p ==> RankInv(p, n, x, st.kv[x], st.dq[x], st.sent[x], s)
    ensures forall r :: 0 <= r < p ==>
              RankInv(p, n, r, Step(p, n, st, s).kv[r], Step(p, n, st, s).dq[r], Step(p, n, st, s).sent[r], s + 1)
  {
    var st' := Step(p, n, st, s);
    forall r | 0 <= r < p
      ensures RankInv(p, n, r, st'.kv[r], st'.dq[r], st'.sent[r], s + 1)
    {
      StepInv(p, n, st, s, r);
    }
  }

  /** One step preserves the per-rank invariant (the received accumulator is for the shard now held). */
  lemma {:induction false} StepInv(p: nat, n: nat, st: BwdRing, s: nat, r: nat)
    requires WellFormed(p, n, st) && s < p && r < p
    requires forall x :: 0 <= x < p ==> RankInv(p, n, x, st.kv[x], st.dq[x], st.sent[x], s)
    ensures RankInv(p, n, r, Step(p, n, st, s).kv[r], Step(p, n, st, s).dq[r], Step(p, n, st, s).sent[r], s + 1)
  {
    var st' := Step(p, n, st, s);
    var k := s + 1;
    var o := st.kv[r];
    DqStepInv(p, n, st.dq[r], r, s);
    assert st'.dq[r] == RankDq(p, n, r, o, s, st.dq[r]);
    if s + 1 != p {
      SourceOfPrev(p, r, s);
      assert st'.kv[r] == st.kv[Prev(p, r)];
    }
    var received := Shift(st.sent)[r];
    assert st'.sent[r] == Some(RankGrad(p, n, r, o, s, s == 0, received));
    if s > 0 {
      SourceOfPrev(p, r, s - 1);
      assert received == st.sent[Prev(p, r)];
    }
    RankGradInv(p, n, r, s, received);
  }

  /** dq follows the forward invariant step for step. */
  lemma {:induction false} DqStepInv(p: nat, n: nat, dq: Acc, r: nat, s: nat)
    requires r < p && s < p && Sized(dq, n)
    requires forall i, g :: 0 <= i < n ==> Current(dq, n)[i][g] == Forward.Expected(p, r, i, g, s)
    ensures Sized(RankDq(p, n, r, Source(p, r, s), s, dq), n)
    ensures RankDq(p, n, r, Source(p, r, s), s, dq).Some?
    ensures forall i, g :: 0 <= i < n ==>
              Current(RankDq(p, n, r, Source(p, r, s), s, dq), n)[i][g] == Forward.Expected(p, r, i, g, s + 1)
  {
    var o := Source(p, r, s);
    var m := BackwardMode(r, s);
    var block := Forward.StepBlock(p, n, r, o, m);
    ModesAgree(r, s);
    UpdateSize(dq, block, QueryLo(m), n);
    forall i, g | 0 <= i < n
      ensures Current(RankDq(p, n, r, o, s, dq), n)[i][g] == Forward.Expected(p, r, i, g, s + 1)
    {
      UpdateRow(dq, block, QueryLo(m), n, i);
      Forward.StepContribution(p, n, r, s, i, g);
    }
  }

  /**
   The backward result is exact and lands at the right owner: after p steps
   and the final wait, rank r holds dq rows over exactly its causal keys, and
   the dK/dV accumulator for its OWN shard, to which every rank contributed
   exactly once and whose row j gathered every query of the whole sequence at
   or after key position j*p + r exactly once.
   */
  lemma {:induction false} BackwardIsGlobalCausal(p: nat, n: nat)
    requires p > 0
    ensures StripeBackward(p, n, true).Ok?
    ensures |StripeBackward(p, n, true).value| == p
    ensures forall r :: 0 <= r < p ==>
              |StripeBackward(p, n, true).value[r].dq| == n
              && StripeBackward(p, n, true).value[r].dkv.Some?
              && |StripeBackward(p, n, true).value[r].dkv.value.rows| == n
    ensures forall r, i, g: nat :: 0 <= r < p && 0 <= i < n ==>
              StripeBackward(p, n, true).value[r].dq[i][g] == if g <= Pos(p, r, i) then 1 else 0
    ensures forall r, x: nat, y: nat :: 0 <= r < p ==>
              StripeBackward(p, n, true).value[r].dkv.value.contribs[(x, y)] == if x < p && y == r then 1 else 0
    ensures forall r, j: nat, q: nat :: 0 <= r < p && j < n ==>
              StripeBackward(p, n, true).value[r].dkv.value.rows[j][q]
              == if Pos(p, r, j) <= q && q / p < n then 1 else 0
  {
    forall r | 0 <= r < p
      ensures |StripeBackward(p, n, true).value[r].dq| == n
      ensures StripeBackward(p, n, true).value[r].dkv.Some?
      ensures |StripeBackward(p, n, true).value[r].dkv.value.rows| == n
      ensures forall i, g: nat :: 0 <= i < n ==>
                StripeBackward(p, n, true).value[r].dq[i][g] == if g <= Pos(p, r, i) then 1 else 0
      ensures forall x: nat, y: nat :: StripeBackward(p, n, true).value[r].dkv.value.contribs[(x, y)]
                == if x < p && y == r then 1 else 0
      ensures forall j: nat, q: nat :: j < n ==>
                StripeBackward(p, n, true).value[r].dkv.value.rows[j][q]
                == if Pos(p, r, j) <= q && q / p < n then 1 else 0
    {
      RankResult(p, n, r);
      var g := StripeBackward(p, n, true).value[r].dkv.value;
      forall x: nat, y: nat
        ensures g.contribs[(x, y)] == if x < p && y == r then 1 else 0
      {
        assert g.contribs[(x, y)] == ContribExpected(p, r, x, y, p);
      }
      forall j: nat, q: nat | j < n
        ensures g.rows[j][q] == if Pos(p, r, j) <= q && q / p < n then 1 else 0
      {
        assert g.rows[j][q] == DkExpected(p, n, r, j, q, p);
      }
    }
  }

  /** The per-rank half of BackwardIsGlobalCausal. */
  lemma {:induction false} RankResult(p: nat, n: nat, r: nat)
    requires r < p
    ensures StripeBackward(p, n, true).Ok? && |StripeBackward(p, n, true).value| == p
    ensures |StripeBackward(p, n, true).value[r].dq| == n
    ensures forall i, g: nat :: 0 <= i < n ==>
              StripeBackward(p, n, true).value[r].dq[i][g] == if g <= Pos(p, r, i) then 1 else 0
    ensures StripeBackward(p, n, true).value[r].dkv.Some?
    ensures GradInv(p, n, r, StripeBackward(p, n, true).value[r].dkv.value, p)
  {
    RunInv(p, n, p);
    var st := Run(p, n, p);
    var pr := Prev(p, r);
    assert StripeBackward(p, n, true).value[r] == Grads(Current(st.dq[r], n), st.sent[pr]);
    // The accumulator the final wait delivers to r is the one for r's own shard.
    assert Source(p, pr, p - 1) == r;
    forall i, g: nat | 0 <= i < n
      ensures Current(st.dq[r], n)[i][g] == if g <= Pos(p, r, i) then 1 else 0
    {
      assert Current(st.dq[r], n)[i][g] == Forward.Expected(p, r, i, g, p);
    }
  }

  /**
   A Shifted step never changes the last K/V row of the travelling dK/dV
   accumulator; every other row receives a non-empty contribution.
   */
  lemma {:induction false} ShiftedStepKvRows(p: nat, n: nat, r: nat, s: nat, received: KvGrad, j: nat)
    requires r < s < p && j < n && |received.rows| == n
    ensures j == n - 1 ==>
              RankGrad(p, n, r, Source(p, r, s), s, false, Some(received)).rows[j] == received.rows[j]
    ensures j < n - 1 ==>
              RankGrad(p, n, r, Source(p, r, s), s, false, Some(received)).rows[j] != received.rows[j]
  {
    var o := Source(p, r, s);
    var m := BackwardMode(r, s);
    var block := DkBlock(p, n, r, o, m);
    UpdateRow(Some(received.rows), block, 0, n, j);
    DkContribution(p, n, r, s, j, Pos(p, r, n - 1));
    PosSplit(p, r, n - 1);
    if j < n - 1 {
      // The last query row of rank r sees every K/V row but the last of a later owner's shard.
      StripedCausal(p, r, o, n - 1, j);
      assert Contribution(block, 0, j)[Pos(p, r, n - 1)] == 1;
      var g := RankGrad(p, n, r, o, s, false, Some(received));
      assert g.rows[j][Pos(p, r, n - 1)] == received.rows[j][Pos(p, r, n - 1)] + 1;
    } else {
      DkBlockShape(p, n, r, o, m);
    }
  }

  /**
   A Shifted step never changes query row 0 of dq; every other row receives a
   non-empty contribution.
   */
  lemma {:induction false} ShiftedStepDqRows(p: nat, n: nat, r: nat, s: nat, dq: Acc, i: nat)
    requires r < s < p && i < n && Sized(dq, n)
    ensures i == 0 ==> Current(RankDq(p, n, r, Source(p, r, s), s, dq), n)[0] == Current(dq, n)[0]
    ensures i > 0 ==> Current(RankDq(p, n, r, Source(p, r, s), s, dq), n)[i] != Current(dq, n)[i]
  {
    DqStepIsForwardStep(p, n, r, Source(p, r, s), s, dq);
    Forward.ShiftedStepRows(p, n, r, s, dq, i);
  }

  // ---------------------------------------- dq aliasing the scratch buffer

  /**
   A kernel call writing its dq block into a dq that IS the scratch buffer,
   followed by the in-place add of the scratch buffer to dq: the slice's rows
   become the block added to itself, the other rows keep their value.
   */
  function Overwrite(dq: Rows, block: Rows, lo: nat): (r: Rows)
    ensures |r| == |dq|
  {
    seq(|dq|, i requires 0 <= i < |dq| =>
      if lo <= i < lo + |block| then block[i - lo] + block[i - lo] else dq[i])
  }

  /**
   Rank r's dq after k >= 1 steps when `.to(torch.float32)` returns
   `block_dq_buffer` itself (lines 164, 169, 171): step 0 takes its block as
   dq, and every later kernel call overwrites dq's slice before
   `dq += block_dq_buffer` adds it to itself. The held shard is Source(p, r, s)
   at step s, as for the fresh accumulator.
   */
  function AliasedDq(p: nat, n: nat, r: nat, k: nat): (dq: Rows)
    requires r < p && 0 < k <= p
    ensures |dq| == n
  {
    var m := BackwardMode(r, k - 1);
    var block := Forward.StepBlock(p, n, r, Source(p, r, k - 1), m);
    if k == 1 then Place(block, QueryLo(m), n)
    else Overwrite(AliasedDq(p, n, r, k - 1), block, QueryLo(m))
  }

  /**
   With aliasing and two or more ranks, the last rank's dq row 0 ends with
   key 0 twice and without the rank's own key p - 1, where the causal result
   holds each of them once.
   */
  lemma AliasedDqDoubles(p: nat, n: nat)
    requires p >= 2 && n >= 1
    ensures AliasedDq(p, n, p - 1, p)[0][0] == 2
    ensures AliasedDq(p, n, p - 1, p)[0][p - 1] == 0
    ensures StripeBackward(p, n, true).value[p - 1].dq[0][0] == 1
    ensures StripeBackward(p, n, true).value[p - 1].dq[0][p - 1] == 1
  {
    var r := p - 1;
    assert BackwardMode(r, p - 1) == Full && Source(p, r, p - 1) == 0;
    var block := Forward.StepBlock(p, n, r, 0, Full);
    Forward.BlockShape(p, n, r, 0, Full);
    Forward.BlockRow(p, n, r, 0, Full, 0);
    assert Stripe(p, 0, 0, 1) == [0];
    assert block[0] == multiset{0};
    assert AliasedDq(p, n, r, p) == Overwrite(AliasedDq(p, n, r, p - 1), block, 0);
    assert AliasedDq(p, n, r, p)[0] == multiset{0} + multiset{0};
    RankResult(p, n, r);
  }
}
