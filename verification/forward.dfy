/**
 The forward driver (`stripe_flash_attn_forward`) run on every rank of the
 ring at once. Per step each rank attends its queries to the K/V shard it
 holds, sliced by the step's mode, merges the block into its running
 (out, lse) at the mode's rows, and, unless it is the last step, hands its
 K/V shard to the next rank while receiving the previous rank's.

 A row of (out, lse) is the multiset of global key positions merged into it.
 */
module Forward {
  import opened Outcomes
  import opened Ring
  import opened Striping
  import opened Schedule
  import opened Kernel
  import opened Merge

  /** The state of all p ranks between two steps. */
  datatype FwdRing = FwdRing(kv: seq<nat>, out: seq<Acc>)

  ghost predicate WellFormed(p: nat, n: nat, st: FwdRing)
  {
    && p > 0
    && |st.kv| == p && |st.out| == p
    && (forall r :: 0 <= r < p ==> st.kv[r] < p)
    && (forall r :: 0 <= r < p ==> Sized(st.out[r], n))
  }

  /** The rows one kernel call produces on rank r against the shard of owner o in mode m. */
  function StepBlock(p: nat, n: nat, r: nat, o: nat, m: Mode): Rows
  {
    CausalRows(QuerySlice(m, Stripe(p, r, 0, n)), KeySlice(m, Stripe(p, o, 0, n)))
  }

  /** What a step of rank r holding the shard of owner o merges into its running output. */
  function RankStep(p: nat, n: nat, r: nat, o: nat, s: nat, out: Acc): Acc
  {
    var m := ForwardMode(r, s);
    Update(out, StepBlock(p, n, r, o, m), QueryLo(m), n)
  }

  /** One ring step on every rank: compute with the held shard, then rotate unless it is the last step. */
  function Step(p: nat, n: nat, st: FwdRing, s: nat): (st': FwdRing)
    requires WellFormed(p, n, st) && s < p
    ensures WellFormed(p, n, st')
  {
    var out' := seq(p, r requires 0 <= r < p => RankStep(p, n, r, st.kv[r], s, st.out[r]));
    assert forall r :: 0 <= r < p ==> Sized(out'[r], n) by {
      forall r | 0 <= r < p
        ensures Sized(out'[r], n)
      {
        UpdateSize(st.out[r], StepBlock(p, n, r, st.kv[r], ForwardMode(r, s)), QueryLo(ForwardMode(r, s)), n);
      }
    }
    FwdRing(if s + 1 != p then Shift(st.kv) else st.kv, out')
  }

  /** Before step 0 every rank holds its own shard and no output. */
  function Init(p: nat, n: nat): (st: FwdRing)
    requires p > 0
    ensures WellFormed(p, n, st)
  {
    FwdRing(seq(p, r => r), seq(p, _ => None))
  }

  /** The ring after the first k steps. */
  function Run(p: nat, n: nat, k: nat): (st: FwdRing)
    requires 0 < p && k <= p
    ensures WellFormed(p, n, st)
  {
    if k == 0 then Init(p, n) else Step(p, n, Run(p, n, k - 1), k - 1)
  }

  /** The forward call: refuses non-causal attention, else runs p steps and returns each rank's out rows. */
  function StripeForward(p: nat, n: nat, causal: bool): Result<seq<Rows>, CallError>
    requires p > 0
  {
    if !causal then Err(NonCausal)
    else
      var st := Run(p, n, p);
      Ok(seq(p, r requires 0 <= r < p => Current(st.out[r], n)))
  }

  /** How often key g should be in row i of rank r after k steps: once if causal and its shard came by. */
  function Expected(p: nat, r: nat, i: nat, g: nat, k: nat): nat
    requires r < p
  {
    if g <= Pos(p, r, i) && Source(p, r, g % p) < k then 1 else 0
  }

  /**
   One step's merge on rank r adds, to local query row i, exactly the keys of
   the held shard that are causally visible to it: with the shard of
   Source(p, r, s), key g is added once iff g <= i*p + r and g is a row of that
   shard. This is where the Full/Shifted slicing meets the global causal mask.
   */
  lemma {:induction false} StepContribution(p: nat, n: nat, r: nat, s: nat, i: nat, g: nat)
    requires r < p && s < p && i < n
    ensures Contribution(StepBlock(p, n, r, Source(p, r, s), ForwardMode(r, s)), QueryLo(ForwardMode(r, s)), i)[g]
         == if g <= Pos(p, r, i) && Source(p, r, g % p) == s then 1 else 0
  {
    var m := ForwardMode(r, s);
    if QueryLo(m) <= i < QueryLo(m) + BlockLen(m, n) {
      ContributionInSlice(p, n, r, s, i, g);
    } else {
      ContributionOutsideSlice(p, n, r, s, i, g);
    }
  }

  lemma {:induction false} ContributionInSlice(p: nat, n: nat, r: nat, s: nat, i: nat, g: nat)
    requires r < p && s < p
    requires QueryLo(ForwardMode(r, s)) <= i < QueryLo(ForwardMode(r, s)) + BlockLen(ForwardMode(r, s), n)
    ensures Contribution(StepBlock(p, n, r, Source(p, r, s), ForwardMode(r, s)), QueryLo(ForwardMode(r, s)), i)[g]
         == if g <= Pos(p, r, i) && Source(p, r, g % p) == s then 1 else 0
  {
    var o := Source(p, r, s);
    var m := ForwardMode(r, s);
    var lo := QueryLo(m);
    var block := StepBlock(p, n, r, o, m);
    SourceMatchesOwner(p, r, s, g % p);
    BlockShape(p, n, r, o, m);
    BlockRow(p, n, r, o, m, i - lo);
    assert Contribution(block, lo, i) == multiset(Stripe(p, o, 0, i - lo + 1));
    VisibleKeys(p, r, o, i, lo, g);
  }

  /** Only the Shifted mode leaves a row out: query row 0, which sees no key of the held shard. */
  lemma {:induction false} ContributionOutsideSlice(p: nat, n: nat, r: nat, s: nat, i: nat, g: nat)
    requires r < p && s < p && i < n
    requires !(QueryLo(ForwardMode(r, s)) <= i < QueryLo(ForwardMode(r, s)) + BlockLen(ForwardMode(r, s), n))
    ensures Contribution(StepBlock(p, n, r, Source(p, r, s), ForwardMode(r, s)), QueryLo(ForwardMode(r, s)), i)[g] == 0
    ensures !(g <= Pos(p, r, i) && Source(p, r, g % p) == s)
  {
    var o := Source(p, r, s);
    var m := ForwardMode(r, s);
    var block := StepBlock(p, n, r, o, m);
    SourceMatchesOwner(p, r, s, g % p);
    BlockShape(p, n, r, o, m);
    assert m == Shifted && i == 0;
    assert Contribution(block, QueryLo(m), i) == multiset{};
    if g % p == o {
      assert g % p <= g;
    }
  }

  /**
   The keys of the shard of owner o that query row i of rank r sees in the sliced
   block -- rows [0, i - lo] -- are exactly its causal keys from that shard.
   */
  lemma {:induction false} VisibleKeys(p: nat, r: nat, o: nat, i: nat, lo: nat, g: nat)
    requires r < p && o < p && lo <= i
    requires lo == if o <= r then 0 else 1
    ensures multiset(Stripe(p, o, 0, i - lo + 1))[g]
         == if g <= Pos(p, r, i) && g % p == o then 1 else 0
  {
    StripeCount(p, o, 0, i - lo + 1, g);
    if g % p == o {
      PosOfSplit(p, g);
      StripedCausal(p, r, o, i, g / p);
    }
  }

  lemma BlockShape(p: nat, n: nat, r: nat, o: nat, m: Mode)
    ensures |StepBlock(p, n, r, o, m)| == BlockLen(m, n)
  {
  }

  /** Query row a of the sliced block combines K/V rows [0, a] of the held shard. */
  lemma BlockRow(p: nat, n: nat, r: nat, o: nat, m: Mode, a: nat)
    requires a < BlockLen(m, n)
    ensures StepBlock(p, n, r, o, m)[a] == multiset(Stripe(p, o, 0, a + 1))
  {
    var len := BlockLen(m, n);
    KeySliceOfStripe(p, o, n, m);
    StripeSlice(p, o, 0, len, 0, a + 1);
  }

  /** Rank r holds the shard of owner o at step s exactly when o is Source(p, r, s). */
  lemma SourceMatchesOwner(p: nat, r: nat, s: nat, o: nat)
    requires r < p && s < p && o < p
    ensures Source(p, r, o) == s <==> o == Source(p, r, s)
  {
    SourceInvolution(p, r, s);
    SourceInvolution(p, r, o);
  }

  /** The per-rank invariant after k steps. */
  ghost predicate RankInv(p: nat, n: nat, r: nat, kv: nat, out: Acc, k: nat)
    requires r < p && k <= p
  {
    && kv == Source(p, r, if k < p then k else p - 1)
    && (k > 0 ==> out.Some?)
    && Sized(out, n)
    && forall i, g :: 0 <= i < n ==> Current(out, n)[i][g] == Expected(p, r, i, g, k)
  }

  lemma {:induction false} RunInv(p: nat, n: nat, k: nat)
    requires 0 < p && k <= p
    ensures forall r :: 0 <= r < p ==> RankInv(p, n, r, Run(p, n, k).kv[r], Run(p, n, k).out[r], k)
  {
    if k == 0 {
      RotatedIsSource(p, 0);
      assert Run(p, n, 0).kv == Rotated(p, 0);
    } else {
      RunInv(p, n, k - 1);
      var st := Run(p, n, k - 1);
      var st' := Step(p, n, st, k - 1);
      forall r | 0 <= r < p
        ensures RankInv(p, n, r, st'.kv[r], st'.out[r], k)
      {
        StepInv(p, n, st, k - 1, r);
      }
    }
  }

  /** One step preserves the per-rank invariant (the shard received is the one the next step needs). */
  lemma {:induction false} StepInv(p: nat, n: nat, st: FwdRing, s: nat, r: nat)
    requires WellFormed(p, n, st) && s < p && r < p
    requires forall x :: 0 <= x < p ==> RankInv(p, n, x, st.kv[x], st.out[x], s)
    ensures RankInv(p, n, r, Step(p, n, st, s).kv[r], Step(p, n, st, s).out[r], s + 1)
  {
    var st' := Step(p, n, st, s);
    var m := ForwardMode(r, s);
    var block := StepBlock(p, n, r, st.kv[r], m);
    assert RankInv(p, n, r, st.kv[r], st.out[r], s);
    assert st'.out[r] == Update(st.out[r], block, QueryLo(m), n);
    UpdateSize(st.out[r], block, QueryLo(m), n);
    forall i, g | 0 <= i < n
      ensures Current(st'.out[r], n)[i][g] == Expected(p, r, i, g, s + 1)
    {
      UpdateRow(st.out[r], block, QueryLo(m), n, i);
      StepContribution(p, n, r, s, i, g);
    }
    if s + 1 != p {
      SourceOfPrev(p, r, s);
      assert RankInv(p, n, Prev(p, r), st.kv[Prev(p, r)], st.out[Prev(p, r)], s);
      assert st'.kv[r] == st.kv[Prev(p, r)];
    }
  }

  /**
   The forward result is exact: after the p steps, row i of rank r holds every
   global key at or before the query's global position i*p + r exactly once,
   and no other key -- the same rows a single-process causal attention over
   the reassembled sequence combines.
   */
  lemma {:induction false} ForwardIsGlobalCausal(p: nat, n: nat)
    requires p > 0
    ensures StripeForward(p, n, true).Ok?
    ensures |StripeForward(p, n, true).value| == p
    ensures forall r :: 0 <= r < p ==> |StripeForward(p, n, true).value[r]| == n
    ensures forall r, i, g: nat :: 0 <= r < p && 0 <= i < n ==>
              StripeForward(p, n, true).value[r][i][g] == if g <= Pos(p, r, i) then 1 else 0
  {
    RunInv(p, n, p);
    var st := Run(p, n, p);
    forall r, i, g: nat | 0 <= r < p && 0 <= i < n
      ensures StripeForward(p, n, true).value[r][i][g] == if g <= Pos(p, r, i) then 1 else 0
    {
      assert StripeForward(p, n, true).value[r] == Current(st.out[r], n);
      assert Current(st.out[r], n)[i][g] == Expected(p, r, i, g, p);
    }
  }

  /** With one rank the call is a single Full causal block: row i combines keys 0..i. */
  lemma {:induction false} SingleRankForward(n: nat)
    ensures forall i, g: nat :: 0 <= i < n ==> StripeForward(1, n, true).value[0][i][g] == if g <= i then 1 else 0
  {
    ForwardIsGlobalCausal(1, n);
  }

  /**
   A Shifted step never changes query row 0 of (out, lse); every other row
   receives the step's block (a non-empty one).
   */
  lemma {:induction false} ShiftedStepRows(p: nat, n: nat, r: nat, s: nat, out: Acc, i: nat)
    requires r < s < p && i < n && Sized(out, n)
    ensures i == 0 ==> Current(RankStep(p, n, r, Source(p, r, s), s, out), n)[0] == Current(out, n)[0]
    ensures i > 0 ==> Current(RankStep(p, n, r, Source(p, r, s), s, out), n)[i] != Current(out, n)[i]
  {
    var o := Source(p, r, s);
    var m := ForwardMode(r, s);
    var block := StepBlock(p, n, r, o, m);
    UpdateRow(out, block, QueryLo(m), n, i);
    if i > 0 {
      // Key row 0 of the held shard is strictly before query row i.
      var g := Pos(p, o, 0);
      StepContribution(p, n, r, s, i, g);
      PosSplit(p, o, 0);
      StripedCausal(p, r, o, i, 0);
      SourceMatchesOwner(p, r, s, o);
      assert Contribution(block, QueryLo(m), i)[g] == 1;
      assert Current(RankStep(p, n, r, o, s, out), n)[i][g] == Current(out, n)[i][g] + 1;
    }
  }
}
