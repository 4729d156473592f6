/**
 The ring channels as seen by one rank: the sequence of transfer and buffer
 events a driver performs, and the discipline every such sequence must keep.

 A transfer is posted (`send_recv`: send one buffer to the next rank, receive
 into another from the previous rank), posted transfers are started together
 (`commit`), and are finished together (`wait`). Until the wait, a receive
 buffer must not be read and neither buffer may be written; a channel cannot
 be committed twice without a wait, nor waited on without a commit; at the
 end nothing may be left in flight.

 Buffers are named by role, so two events name the same tensor exactly when
 their buffer values are equal.
 */
module Channel {
  import opened Outcomes
  import opened Schedule

  /** The two independent channels of one call: K/V rotation and dK/dV rotation. */
  datatype Chan = KvRing | GradRing

  datatype Tensor = Q | K | V | DOut | Out | Lse | DQ | DK | DV

  datatype Buf =
    | Input(t: Tensor)                          // a tensor the caller passed in
    | Scratch(t: Tensor)                        // block_dq/dk/dv_buffer, rewritten by every kernel call
    | Cast(t: Tensor)                           // a float32 copy made on the first backward step
    | Received(ch: Chan, step: nat, t: Tensor)  // a receive buffer `send_recv` allocated at a step
    | Sum(step: nat, t: Tensor)                 // the new tensor `block_dk_buffer + dk` of a Full step

  datatype Event =
    | Post(ch: Chan, send: Buf, recv: Buf)
    | Commit(ch: Chan)
    | Wait(ch: Chan)
    | Read(buf: Buf)
    | Write(buf: Buf)

  /** Buffers posted on a channel since its last wait, and whether they have been committed. */
  datatype Pending = Pending(sending: set<Buf>, receiving: set<Buf>, inFlight: bool)

  datatype ChanState = ChanState(kv: Pending, grad: Pending)

  const NoTransfer := Pending({}, {}, false)
  const Idle := ChanState(NoTransfer, NoTransfer)

  function Of(st: ChanState, ch: Chan): Pending
  {
    if ch == KvRing then st.kv else st.grad
  }

  function With(st: ChanState, ch: Chan, pd: Pending): ChanState
  {
    if ch == KvRing then st.(kv := pd) else st.(grad := pd)
  }

  /** Buffers a pending transfer of either channel will still write into. */
  function Receiving(st: ChanState): set<Buf>
  {
    st.kv.receiving + st.grad.receiving
  }

  /** Buffers owned by a pending transfer of either channel. */
  function Busy(st: ChanState): set<Buf>
  {
    st.kv.sending + st.kv.receiving + st.grad.sending + st.grad.receiving
  }

  /** One event applied to the channel state; None when the event breaks the discipline. */
  function Apply(st: ChanState, e: Event): Option<ChanState>
  {
    match e
    case Post(ch, s, r) =>
      var pd := Of(st, ch);
      if pd.inFlight || s == r || r in Busy(st) || s in Receiving(st) then None
      else Some(With(st, ch, Pending(pd.sending + {s}, pd.receiving + {r}, false)))
    case Commit(ch) =>
      var pd := Of(st, ch);
      if pd.inFlight || pd.receiving == {} then None
      else Some(With(st, ch, pd.(inFlight := true)))
    case Wait(ch) =>
      if !Of(st, ch).inFlight then None else Some(With(st, ch, NoTransfer))
    case Read(b) =>
      if b in Receiving(st) then None else Some(st)
    case Write(b) =>
      if b in Busy(st) then None else Some(st)
  }

  /** Once the discipline is broken it stays broken. */
  function Then(st: Option<ChanState>, e: Event): Option<ChanState>
  {
    if st.None? then None else Apply(st.value, e)
  }

  /** The channel state after the events `es`, starting from `st`. */
  function Run(st: Option<ChanState>, es: seq<Event>): Option<ChanState>
    decreases |es|
  {
    if |es| == 0 then st else Run(Then(st, es[0]), es[1..])
  }

  /** A rank's event sequence is safe when it keeps the discipline and ends with nothing in flight. */
  predicate Safe(es: seq<Event>)
  {
    Run(Some(Idle), es) == Some(Idle)
  }

  function Reads(bs: seq<Buf>): (es: seq<Event>)
    ensures |es| == |bs|
  {
    seq(|bs|, i requires 0 <= i < |bs| => Read(bs[i]))
  }

  function Writes(bs: seq<Buf>): (es: seq<Event>)
    ensures |es| == |bs|
  {
    seq(|bs|, i requires 0 <= i < |bs| => Write(bs[i]))
  }

  // ------------------------------------------------------ replay lemmas

  /** Replaying two sequences back to back is replaying their concatenation. */
  lemma {:induction false} RunAppend(st: Option<ChanState>, a: seq<Event>, b: seq<Event>)
    ensures Run(st, a + b) == Run(Run(st, a), b)
    decreases |a|
  {
    if |a| == 0 {
      assert a + b == b;
    } else {
      assert (a + b)[0] == a[0];
      assert (a + b)[1..] == a[1..] + b;
      assert Run(st, a + b) == Run(Then(st, a[0]), a[1..] + b);
      RunAppend(Then(st, a[0]), a[1..], b);
    }
  }

  /** No event repairs a broken discipline. */
  lemma {:induction false} RunBroken(es: seq<Event>)
    ensures Run(None, es) == None
    decreases |es|
  {
    if |es| > 0 {
      RunBroken(es[1..]);
    }
  }

  /** Reading buffers no transfer is receiving into changes nothing. */
  lemma {:induction false} RunReads(st: ChanState, bs: seq<Buf>)
    requires forall i :: 0 <= i < |bs| ==> bs[i] !in Receiving(st)
    ensures Run(Some(st), Reads(bs)) == Some(st)
    decreases |bs|
  {
    if |bs| > 0 {
      assert Reads(bs)[1..] == Reads(bs[1..]);
      RunReads(st, bs[1..]);
    }
  }

  /** Writing buffers no transfer owns changes nothing. */
  lemma {:induction false} RunWrites(st: ChanState, bs: seq<Buf>)
    requires forall i :: 0 <= i < |bs| ==> bs[i] !in Busy(st)
    ensures Run(Some(st), Writes(bs)) == Some(st)
    decreases |bs|
  {
    if |bs| > 0 {
      assert Writes(bs)[1..] == Writes(bs[1..]);
      RunWrites(st, bs[1..]);
    }
  }

  /** Posting two transfers on an idle channel and committing them puts both in flight. */
  lemma RunPostPair(st: ChanState, ch: Chan, a: Buf, ra: Buf, b: Buf, rb: Buf)
    requires Of(st, ch) == NoTransfer
    requires a != ra && b != rb && ra != rb && a != rb && b != ra
    requires ra !in Busy(st) && rb !in Busy(st) && a !in Receiving(st) && b !in Receiving(st)
    ensures Run(Some(st), [Post(ch, a, ra), Post(ch, b, rb), Commit(ch)])
         == Some(With(st, ch, Pending({a, b}, {ra, rb}, true)))
  {
    var es := [Post(ch, a, ra), Post(ch, b, rb), Commit(ch)];
    assert {} + {a} == {a} && {} + {ra} == {ra} && {a} + {b} == {a, b} && {ra} + {rb} == {ra, rb};
    var s1 := With(st, ch, Pending({a}, {ra}, false));
    var s2 := With(st, ch, Pending({a, b}, {ra, rb}, false));
    assert Then(Some(st), es[0]) == Some(s1);
    assert Then(Some(s1), es[1]) == Some(s2);
    assert Run(Some(st), es) == Run(Some(s1), es[1..]);
    assert Run(Some(s1), es[1..]) == Run(Some(s2), es[2..]);
    assert Then(Some(s2), es[2]) == Some(With(st, ch, Pending({a, b}, {ra, rb}, true)));
    assert Run(Some(s2), es[2..]) == Run(Some(With(st, ch, Pending({a, b}, {ra, rb}, true))), es[3..]);
  }

  /** Waiting on a committed channel releases all its buffers. */
  lemma RunWait(st: ChanState, ch: Chan)
    requires Of(st, ch).inFlight
    ensures Run(Some(st), [Wait(ch)]) == Some(With(st, ch, NoTransfer))
  {
  }

  /** How many times event `e` occurs in `es`. */
  function Count(es: seq<Event>, e: Event): nat
    decreases |es|
  {
    if |es| == 0 then 0 else (if es[0] == e then 1 else 0) + Count(es[1..], e)
  }

  lemma {:induction false} CountAppend(a: seq<Event>, b: seq<Event>, e: Event)
    ensures Count(a + b, e) == Count(a, e) + Count(b, e)
    decreases |a|
  {
    if |a| == 0 {
      assert a + b == b;
    } else {
      assert (a + b)[0] == a[0];
      assert (a + b)[1..] == a[1..] + b;
      CountAppend(a[1..], b, e);
    }
  }

  lemma CountSingle(x: Event, e: Event)
    ensures Count([x], e) == if x == e then 1 else 0
  {
    assert [x][1..] == [];
  }

  /** Channel events are neither reads nor writes. */
  lemma {:induction false} CountLocal(bs: seq<Buf>, e: Event)
    requires e.Post? || e.Commit? || e.Wait?
    ensures Count(Reads(bs), e) == 0 && Count(Writes(bs), e) == 0
    decreases |bs|
  {
    if |bs| > 0 {
      assert Reads(bs)[1..] == Reads(bs[1..]);
      assert Writes(bs)[1..] == Writes(bs[1..]);
      CountLocal(bs[1..], e);
    }
  }

  // ---------------------------------------------------------------- forward

  /** Lines 31-34: unless this is the last step, post k and v and commit. */
  function KvIssue(p: nat, s: nat, k: Buf, v: Buf): seq<Event>
  {
    if s + 1 != p then [Post(KvRing, k, Received(KvRing, s, K)), Post(KvRing, v, Received(KvRing, s, V)), Commit(KvRing)]
    else []
  }

  /** Lines 69-70: unless this is the last step, wait on the K/V channel. */
  function KvWait(p: nat, s: nat): seq<Event>
  {
    if s + 1 != p then [Wait(KvRing)] else []
  }

  /** The K/V channel is committed and waited on exactly at the steps other than the last. */
  lemma KvCounts(p: nat, s: nat, k: Buf, v: Buf, e: Event)
    requires e.Commit? || e.Wait?
    ensures Count(KvIssue(p, s, k, v), e) == if e == Commit(KvRing) && s + 1 != p then 1 else 0
    ensures Count(KvWait(p, s), e) == if e == Wait(KvRing) && s + 1 != p then 1 else 0
  {
    if s + 1 != p {
      var a, b, c := Post(KvRing, k, Received(KvRing, s, K)), Post(KvRing, v, Received(KvRing, s, V)), Commit(KvRing);
      assert KvIssue(p, s, k, v) == [a] + [b] + [c];
      CountAppend([a], [b], e);
      CountAppend([a] + [b], [c], e);
      CountSingle(a, e);
      CountSingle(b, e);
      CountSingle(c, e);
      CountSingle(Wait(KvRing), e);
    }
  }

  /** Lines 71-72: the k (or v) buffer held for the next step. */
  function KvNext(p: nat, s: nat, held: Buf, x: Tensor): Buf
  {
    if s + 1 != p then Received(KvRing, s, x) else held
  }

  /** Forward step s: the kernel reads q and the held k, v (in either mode the slices are views of them). */
  function FwdStep(p: nat, s: nat, k: Buf, v: Buf): seq<Event>
  {
    KvIssue(p, s, k, v) + Reads([Input(Q), k, v]) + KvWait(p, s)
  }

  /** The forward's events in steps [0, n) and the k and v buffers held after them. */
  function FwdRun(p: nat, n: nat): (seq<Event>, Buf, Buf)
  {
    if n == 0 then ([], Input(K), Input(V))
    else
      var prev := FwdRun(p, n - 1);
      (prev.0 + FwdStep(p, n - 1, prev.1, prev.2), KvNext(p, n - 1, prev.1, K), KvNext(p, n - 1, prev.2, V))
  }

  /** The events of one forward call on one rank; a non-causal call stops before any. */
  function ForwardTrace(p: nat, causal: bool): seq<Event>
  {
    if !causal then [] else FwdRun(p, p).0
  }

  /** The k (or v) buffer held before step t: the caller's, or the one received at step t - 1. */
  function HeldKv(t: nat, x: Tensor): Buf
  {
    if t == 0 then Input(x) else Received(KvRing, t - 1, x)
  }

  /** The K/V channel during step s: the two transfers issued at the step's start, or nothing on the last step. */
  function KvFlight(p: nat, s: nat): Pending
  {
    if s + 1 != p then Pending({HeldKv(s, K), HeldKv(s, V)}, {Received(KvRing, s, K), Received(KvRing, s, V)}, true)
    else NoTransfer
  }

  /** True of buffers that no K/V transfer can involve. */
  predicate OffKvRing(b: Buf)
  {
    !b.Input? && !(b.Received? && b.ch == KvRing)
  }

  /**
   Step s's K/V issue and wait around the events `mid`: whatever `mid` does to
   the rest of the channel state while the K/V transfers are in flight is what
   the whole does.
   */
  lemma KvAround(p: nat, s: nat, st: ChanState, mid: seq<Event>, st': ChanState)
    requires s < p && st.kv == NoTransfer && st'.kv == NoTransfer
    requires forall b :: b in Busy(st) ==> OffKvRing(b)
    requires Run(Some(st.(kv := KvFlight(p, s))), mid) == Some(st'.(kv := KvFlight(p, s)))
    ensures Run(Some(st), KvIssue(p, s, HeldKv(s, K), HeldKv(s, V)) + mid + KvWait(p, s)) == Some(st')
  {
    var issue := KvIssue(p, s, HeldKv(s, K), HeldKv(s, V));
    if s + 1 != p {
      RunPostPair(st, KvRing, HeldKv(s, K), Received(KvRing, s, K), HeldKv(s, V), Received(KvRing, s, V));
      RunWait(st'.(kv := KvFlight(p, s)), KvRing);
    }
    assert Run(Some(st), issue) == Some(st.(kv := KvFlight(p, s)));
    assert Run(Some(st'.(kv := KvFlight(p, s))), KvWait(p, s)) == Some(st');
    RunAppend(Some(st), issue, mid);
    RunAppend(Some(st), issue + mid, KvWait(p, s));
  }

  lemma FwdStepSafe(p: nat, s: nat)
    requires s < p
    ensures Run(Some(Idle), FwdStep(p, s, HeldKv(s, K), HeldKv(s, V))) == Some(Idle)
  {
    RunReads(Idle.(kv := KvFlight(p, s)), [Input(Q), HeldKv(s, K), HeldKv(s, V)]);
    KvAround(p, s, Idle, Reads([Input(Q), HeldKv(s, K), HeldKv(s, V)]), Idle);
  }

  lemma {:induction false} FwdRunSafe(p: nat, n: nat)
    requires n <= p
    ensures Run(Some(Idle), FwdRun(p, n).0) == Some(Idle)
    ensures n < p ==> FwdRun(p, n).1 == HeldKv(n, K) && FwdRun(p, n).2 == HeldKv(n, V)
  {
    if n > 0 {
      FwdRunSafe(p, n - 1);
      var prev := FwdRun(p, n - 1);
      FwdStepSafe(p, n - 1);
      RunAppend(Some(Idle), prev.0, FwdStep(p, n - 1, prev.1, prev.2));
    }
  }

  lemma FwdStepCounts(p: nat, s: nat, k: Buf, v: Buf, e: Event)
    requires e == Commit(KvRing) || e == Wait(KvRing)
    ensures Count(FwdStep(p, s, k, v), e) == if s + 1 != p then 1 else 0
  {
    CountLocal([Input(Q), k, v], e);
    KvCounts(p, s, k, v, e);
    var issue, rd, wt := KvIssue(p, s, k, v), Reads([Input(Q), k, v]), KvWait(p, s);
    CountAppend(issue, rd, e);
    CountAppend(issue + rd, wt, e);
  }

  lemma {:induction false} FwdRunCounts(p: nat, n: nat, e: Event)
    requires 0 < p && n <= p
    requires e == Commit(KvRing) || e == Wait(KvRing)
    ensures Count(FwdRun(p, n).0, e) == if n < p then n else n - 1
  {
    if n > 0 {
      FwdRunCounts(p, n - 1, e);
      var prev := FwdRun(p, n - 1);
      FwdStepCounts(p, n - 1, prev.1, prev.2, e);
      CountAppend(prev.0, FwdStep(p, n - 1, prev.1, prev.2), e);
    }
  }

  /**
   The forward's K/V channel keeps the discipline: p - 1 commits, each waited
   on exactly once before the next is issued and before the received k, v
   are read by the kernel; nothing is left in flight.
   */
  lemma ForwardTraceSafe(p: nat)
    requires p > 0
    ensures Safe(ForwardTrace(p, true))
    ensures Count(ForwardTrace(p, true), Commit(KvRing)) == p - 1
    ensures Count(ForwardTrace(p, true), Wait(KvRing)) == p - 1
  {
    FwdRunSafe(p, p);
    FwdRunCounts(p, p, Commit(KvRing));
    FwdRunCounts(p, p, Wait(KvRing));
  }

  // --------------------------------------------------------------- backward

  /** Lines 164-166: `.to(torch.float32)`; with `aliases` it returns the scratch buffer itself. */
  function ToFloat32(x: Tensor, aliases: bool): Buf
  {
    if aliases then Scratch(x) else Cast(x)
  }

  /** The backward's buffers after a step: K/V held, the accumulators, and the gradient receive buffers. */
  datatype BwdBufs = BwdBufs(k: Buf, v: Buf, dq: Buf, dk: Buf, dv: Buf, nextDk: Buf, nextDv: Buf)

  /** Lines 116-161: the kernel reads its inputs and rewrites the three scratch buffers. */
  function KernelBwd(k: Buf, v: Buf): seq<Event>
  {
    Reads([Input(DOut), Input(Q), k, v, Input(Out), Input(Lse)]) + Writes([Scratch(DQ), Scratch(DK), Scratch(DV)])
  }

  /** Lines 189-191: post dk and dv on the gradient channel, receiving into `rk` and `rv`, and commit. */
  function GradIssue(dk: Buf, dv: Buf, rk: Buf, rv: Buf): seq<Event>
  {
    [Post(GradRing, dk, rk), Post(GradRing, dv, rv), Commit(GradRing)]
  }

  /** Step 0's events between the K/V issue and wait: the kernel, then the float32 conversions. */
  function FirstMiddle(): seq<Event>
  {
    KernelBwd(Input(K), Input(V)) + Reads([Scratch(DQ), Scratch(DK), Scratch(DV)])
  }

  /**
   Step 0 (the `dq is None` branch): the accumulators are the step's own blocks
   converted to float32 and sent on, receiving into fresh buffers
   (`dk_comm_buffer` is still None).
   */
  function FirstStep(p: nat, aliases: bool): (seq<Event>, BwdBufs)
  {
    var dk, dv := ToFloat32(DK, aliases), ToFloat32(DV, aliases);
    (KvIssue(p, 0, Input(K), Input(V)) + FirstMiddle() + KvWait(p, 0)
       + GradIssue(dk, dv, Received(GradRing, 0, DK), Received(GradRing, 0, DV)),
     BwdBufs(KvNext(p, 0, Input(K), K), KvNext(p, 0, Input(V), V), ToFloat32(DQ, aliases),
             dk, dv, Received(GradRing, 0, DK), Received(GradRing, 0, DV)))
  }

  /** Lines 175-185: the received accumulators taken over, in place (Shifted) or into a new sum (Full). */
  function TakeOver(shifted: bool, b: BwdBufs): seq<Event>
  {
    if shifted then Reads([Scratch(DK)]) + Writes([b.nextDk]) + Reads([Scratch(DV)]) + Writes([b.nextDv])
    else Reads([Scratch(DK), b.nextDk, Scratch(DV), b.nextDv])
  }

  /** A later step's events between the K/V issue and wait. */
  function LaterMiddle(r: nat, s: nat, b: BwdBufs): seq<Event>
  {
    KernelBwd(b.k, b.v) + Reads([Scratch(DQ)]) + Writes([b.dq]) + [Wait(GradRing)] + TakeOver(BackwardShift(r, s), b)
  }

  /**
   A later step: add into dq, wait on the gradient channel, take the received
   accumulators over, rotate K/V, and send the accumulators on, receiving into
   the ones sent at the previous step (`dk_comm_buffer`, line 173).
   */
  function LaterStep(p: nat, r: nat, s: nat, b: BwdBufs): (seq<Event>, BwdBufs)
  {
    var shifted := BackwardShift(r, s);
    var dk := if shifted then b.nextDk else Sum(s, DK);
    var dv := if shifted then b.nextDv else Sum(s, DV);
    (KvIssue(p, s, b.k, b.v) + LaterMiddle(r, s, b) + KvWait(p, s) + GradIssue(dk, dv, b.dk, b.dv),
     BwdBufs(KvNext(p, s, b.k, K), KvNext(p, s, b.v, V), b.dq, dk, dv, b.dk, b.dv))
  }

  /** The backward on rank r through steps [0, n), n >= 1. */
  function BwdRun(p: nat, r: nat, n: nat, aliases: bool): (seq<Event>, BwdBufs)
    requires n >= 1
  {
    if n == 1 then FirstStep(p, aliases)
    else
      var prev := BwdRun(p, r, n - 1, aliases);
      var step := LaterStep(p, r, n - 1, prev.1);
      (prev.0 + step.0, step.1)
  }

  /** Lines 193-195: the last gradient wait, then the results are read. */
  function BwdFinish(b: BwdBufs): seq<Event>
  {
    [Wait(GradRing)] + Reads([b.dq, b.nextDk, b.nextDv])
  }

  /**
   The events of one backward call on rank r; a non-causal call stops before
   any. `aliases` says whether `.to(torch.float32)` returned the scratch
   buffers themselves, which it does when they already are float32.
   */
  function BackwardTraceAsWritten(p: nat, r: nat, causal: bool, aliases: bool): seq<Event>
  {
    if !causal || p == 0 then []
    else
      var run := BwdRun(p, r, p, aliases);
      run.0 + BwdFinish(run.1)
  }

  /** The backward whose float32 accumulators are always fresh tensors. */
  function BackwardTrace(p: nat, r: nat, causal: bool): seq<Event>
  {
    BackwardTraceAsWritten(p, r, causal, false)
  }

  /** An accumulator buffer for gradient x after t steps: a first-step copy, a first receive buffer, or an earlier sum. */
  predicate GradCopy(b: Buf, x: Tensor, t: nat)
  {
    b == Cast(x) || b == Received(GradRing, 0, x) || (b.Sum? && b.t == x && b.step < t)
  }

  /** The buffers after t steps of the backward with fresh float32 copies. */
  predicate Settled(p: nat, t: nat, b: BwdBufs)
  {
    && b.dq == Cast(DQ)
    && GradCopy(b.dk, DK, t) && GradCopy(b.nextDk, DK, t) && b.dk != b.nextDk
    && GradCopy(b.dv, DV, t) && GradCopy(b.nextDv, DV, t) && b.dv != b.nextDv
    && (t < p ==> b.k == HeldKv(t, K) && b.v == HeldKv(t, V))
  }

  /** The gradient channel between steps: dk and dv in flight, received into the ping-pong buffers. */
  function GradFlight(b: BwdBufs): ChanState
  {
    ChanState(NoTransfer, Pending({b.dk, b.dv}, {b.nextDk, b.nextDv}, true))
  }

  lemma FirstMiddleSafe(p: nat)
    ensures Run(Some(Idle.(kv := KvFlight(p, 0))), FirstMiddle()) == Some(Idle.(kv := KvFlight(p, 0)))
  {
    var stK := Idle.(kv := KvFlight(p, 0));
    RunReads(stK, [Input(DOut), Input(Q), Input(K), Input(V), Input(Out), Input(Lse)]);
    RunWrites(stK, [Scratch(DQ), Scratch(DK), Scratch(DV)]);
    RunReads(stK, [Scratch(DQ), Scratch(DK), Scratch(DV)]);
    var kr := Reads([Input(DOut), Input(Q), Input(K), Input(V), Input(Out), Input(Lse)]);
    var kw := Writes([Scratch(DQ), Scratch(DK), Scratch(DV)]);
    RunAppend(Some(stK), kr, kw);
    RunAppend(Some(stK), kr + kw, Reads([Scratch(DQ), Scratch(DK), Scratch(DV)]));
  }

  /** Step 0 up to its K/V wait leaves both channels idle. */
  lemma FirstHeadSafe(p: nat)
    requires p > 0
    ensures Run(Some(Idle), KvIssue(p, 0, Input(K), Input(V)) + FirstMiddle() + KvWait(p, 0)) == Some(Idle)
  {
    FirstMiddleSafe(p);
    KvAround(p, 0, Idle, FirstMiddle(), Idle);
  }

  lemma FirstStepSafe(p: nat, aliases: bool)
    requires p > 0
    ensures Run(Some(Idle), FirstStep(p, aliases).0) == Some(GradFlight(FirstStep(p, aliases).1))
    ensures !aliases ==> Settled(p, 1, FirstStep(p, aliases).1)
  {
    var dk, dv := ToFloat32(DK, aliases), ToFloat32(DV, aliases);
    var rk, rv := Received(GradRing, 0, DK), Received(GradRing, 0, DV);
    var head := KvIssue(p, 0, Input(K), Input(V)) + FirstMiddle() + KvWait(p, 0);
    FirstHeadSafe(p);
    RunPostPair(Idle, GradRing, dk, rk, dv, rv);
    RunAppend(Some(Idle), head, GradIssue(dk, dv, rk, rv));
  }

  /** Taking over the received accumulators touches no buffer a transfer still owns. */
  lemma TakeOverSafe(shifted: bool, b: BwdBufs, st: ChanState)
    requires b.nextDk !in Busy(st) && b.nextDv !in Busy(st)
    requires Scratch(DK) !in Receiving(st) && Scratch(DV) !in Receiving(st)
    ensures Run(Some(st), TakeOver(shifted, b)) == Some(st)
  {
    if shifted {
      var e1, e2, e3, e4 := Reads([Scratch(DK)]), Writes([b.nextDk]), Reads([Scratch(DV)]), Writes([b.nextDv]);
      RunReads(st, [Scratch(DK)]);
      RunWrites(st, [b.nextDk]);
      RunReads(st, [Scratch(DV)]);
      RunWrites(st, [b.nextDv]);
      RunAppend(Some(st), e1, e2);
      RunAppend(Some(st), e1 + e2, e3);
      RunAppend(Some(st), e1 + e2 + e3, e4);
    } else {
      RunReads(st, [Scratch(DK), b.nextDk, Scratch(DV), b.nextDv]);
    }
  }

  lemma KernelBwdSafe(st: ChanState, k: Buf, v: Buf)
    requires forall x :: x in Receiving(st) ==> x.Received? || x.Sum? || x.Cast?
    requires forall x :: x in Busy(st) ==> !x.Scratch?
    requires k !in Receiving(st) && v !in Receiving(st)
    ensures Run(Some(st), KernelBwd(k, v)) == Some(st)
  {
    RunReads(st, [Input(DOut), Input(Q), k, v, Input(Out), Input(Lse)]);
    RunWrites(st, [Scratch(DQ), Scratch(DK), Scratch(DV)]);
    RunAppend(Some(st), Reads([Input(DOut), Input(Q), k, v, Input(Out), Input(Lse)]), Writes([Scratch(DQ), Scratch(DK), Scratch(DV)]));
  }

  lemma LaterMiddleSafe(p: nat, r: nat, s: nat, b: BwdBufs)
    requires 1 <= s < p && Settled(p, s, b)
    ensures Run(Some(GradFlight(b).(kv := KvFlight(p, s))), LaterMiddle(r, s, b)) == Some(Idle.(kv := KvFlight(p, s)))
  {
    var st0 := GradFlight(b).(kv := KvFlight(p, s));
    var st1 := Idle.(kv := KvFlight(p, s));
    var a, c, d := KernelBwd(b.k, b.v), Reads([Scratch(DQ)]), Writes([b.dq]);
    KernelBwdSafe(st0, b.k, b.v);
    RunReads(st0, [Scratch(DQ)]);
    RunWrites(st0, [b.dq]);
    RunWait(st0, GradRing);
    TakeOverSafe(BackwardShift(r, s), b, st1);
    RunAppend(Some(st0), a, c);
    RunAppend(Some(st0), a + c, d);
    RunAppend(Some(st0), a + c + d, [Wait(GradRing)]);
    RunAppend(Some(st0), a + c + d + [Wait(GradRing)], TakeOver(BackwardShift(r, s), b));
  }

  lemma LaterStepSafe(p: nat, r: nat, s: nat, b: BwdBufs)
    requires 1 <= s < p && Settled(p, s, b)
    ensures Run(Some(GradFlight(b)), LaterStep(p, r, s, b).0) == Some(GradFlight(LaterStep(p, r, s, b).1))
    ensures Settled(p, s + 1, LaterStep(p, r, s, b).1)
  {
    var next := LaterStep(p, r, s, b).1;
    LaterMiddleSafe(p, r, s, b);
    KvAround(p, s, GradFlight(b), LaterMiddle(r, s, b), Idle);
    var head := KvIssue(p, s, b.k, b.v) + LaterMiddle(r, s, b) + KvWait(p, s);
    RunPostPair(Idle, GradRing, next.dk, b.dk, next.dv, b.dv);
    RunAppend(Some(GradFlight(b)), head, GradIssue(next.dk, next.dv, b.dk, b.dv));
  }

  /** The buffers and channel state of the backward after n steps, as the induction carries them. */
  ghost predicate BwdRunInv(p: nat, r: nat, n: nat)
    requires 1 <= n
  {
    var run := BwdRun(p, r, n, false);
    Run(Some(Idle), run.0) == Some(GradFlight(run.1)) && Settled(p, n, run.1)
  }

  lemma BwdRunStep(p: nat, r: nat, n: nat)
    requires 2 <= n <= p && BwdRunInv(p, r, n - 1)
    ensures BwdRunInv(p, r, n)
  {
    var prev := BwdRun(p, r, n - 1, false);
    var step := LaterStep(p, r, n - 1, prev.1);
    LaterStepSafe(p, r, n - 1, prev.1);
    RunAppend(Some(Idle), prev.0, step.0);
    assert BwdRun(p, r, n, false) == (prev.0 + step.0, step.1);
  }

  lemma {:induction false} BwdRunSafe(p: nat, r: nat, n: nat)
    requires 1 <= n <= p
    ensures BwdRunInv(p, r, n)
  {
    if n == 1 {
      FirstStepSafe(p, false);
    } else {
      BwdRunSafe(p, r, n - 1);
      BwdRunStep(p, r, n);
    }
  }

  /**
   The backward with fresh float32 accumulators keeps the discipline on both
   channels: no K/V buffer or gradient buffer is read before its wait or
   written while in flight, every gradient transfer receives into the
   accumulator sent one step earlier and never into the one it sends, and
   nothing is left in flight after the final wait.
   */
  lemma BackwardTraceSafe(p: nat, r: nat)
    requires p > 0
    ensures Safe(BackwardTrace(p, r, true))
  {
    BwdRunSafe(p, r, p);
    var run := BwdRun(p, r, p, false);
    RunWait(GradFlight(run.1), GradRing);
    RunReads(Idle, [run.1.dq, run.1.nextDk, run.1.nextDv]);
    RunAppend(Some(Idle), run.0, BwdFinish(run.1));
    RunAppend(Some(GradFlight(run.1)), [Wait(GradRing)], Reads([run.1.dq, run.1.nextDk, run.1.nextDv]));
  }

  // ----------------------------------------------------------- counting

  lemma GradIssueCounts(dk: Buf, dv: Buf, rk: Buf, rv: Buf, e: Event)
    requires e.Commit? || e.Wait?
    ensures Count(GradIssue(dk, dv, rk, rv), e) == if e == Commit(GradRing) then 1 else 0
  {
    var a, b, c := Post(GradRing, dk, rk), Post(GradRing, dv, rv), Commit(GradRing);
    assert GradIssue(dk, dv, rk, rv) == [a] + [b] + [c];
    CountAppend([a], [b], e);
    CountAppend([a] + [b], [c], e);
    CountSingle(a, e);
    CountSingle(b, e);
    CountSingle(c, e);
  }

  lemma KernelBwdCounts(k: Buf, v: Buf, e: Event)
    requires e.Commit? || e.Wait?
    ensures Count(KernelBwd(k, v), e) == 0
  {
    CountLocal([Input(DOut), Input(Q), k, v, Input(Out), Input(Lse)], e);
    CountLocal([Scratch(DQ), Scratch(DK), Scratch(DV)], e);
    CountAppend(Reads([Input(DOut), Input(Q), k, v, Input(Out), Input(Lse)]), Writes([Scratch(DQ), Scratch(DK), Scratch(DV)]), e);
  }

  lemma TakeOverCounts(shifted: bool, b: BwdBufs, e: Event)
    requires e.Commit? || e.Wait?
    ensures Count(TakeOver(shifted, b), e) == 0
  {
    if shifted {
      var e1, e2, e3, e4 := Reads([Scratch(DK)]), Writes([b.nextDk]), Reads([Scratch(DV)]), Writes([b.nextDv]);
      CountLocal([Scratch(DK)], e);
      CountLocal([b.nextDk], e);
      CountLocal([Scratch(DV)], e);
      CountLocal([b.nextDv], e);
      CountAppend(e1, e2, e);
      CountAppend(e1 + e2, e3, e);
      CountAppend(e1 + e2 + e3, e4, e);
    } else {
      CountLocal([Scratch(DK), b.nextDk, Scratch(DV), b.nextDv], e);
    }
  }

  /** How often a step issues, or waits on, channel event e: K/V on all steps but the last, gradients on every step. */
  function PerStep(p: nat, s: nat, e: Event): nat
  {
    if e == Commit(KvRing) || e == Wait(KvRing) then (if s + 1 != p then 1 else 0)
    else if e == Commit(GradRing) || (e == Wait(GradRing) && s > 0) then 1
    else 0
  }

  lemma FirstMiddleCounts(e: Event)
    requires e.Commit? || e.Wait?
    ensures Count(FirstMiddle(), e) == 0
  {
    KernelBwdCounts(Input(K), Input(V), e);
    CountLocal([Scratch(DQ), Scratch(DK), Scratch(DV)], e);
    CountAppend(KernelBwd(Input(K), Input(V)), Reads([Scratch(DQ), Scratch(DK), Scratch(DV)]), e);
  }

  lemma FirstStepCounts(p: nat, aliases: bool, e: Event)
    requires e.Commit? || e.Wait?
    ensures Count(FirstStep(p, aliases).0, e) == PerStep(p, 0, e)
  {
    var issue, mid, wt := KvIssue(p, 0, Input(K), Input(V)), FirstMiddle(), KvWait(p, 0);
    var g := GradIssue(ToFloat32(DK, aliases), ToFloat32(DV, aliases), Received(GradRing, 0, DK), Received(GradRing, 0, DV));
    KvCounts(p, 0, Input(K), Input(V), e);
    FirstMiddleCounts(e);
    GradIssueCounts(ToFloat32(DK, aliases), ToFloat32(DV, aliases), Received(GradRing, 0, DK), Received(GradRing, 0, DV), e);
    CountAppend(issue, mid, e);
    CountAppend(issue + mid, wt, e);
    CountAppend(issue + mid + wt, g, e);
    assert FirstStep(p, aliases).0 == issue + mid + wt + g;
  }

  lemma LaterMiddleCounts(r: nat, s: nat, b: BwdBufs, e: Event)
    requires e.Commit? || e.Wait?
    ensures Count(LaterMiddle(r, s, b), e) == if e == Wait(GradRing) then 1 else 0
  {
    var a, c, d, w, t := KernelBwd(b.k, b.v), Reads([Scratch(DQ)]), Writes([b.dq]), [Wait(GradRing)], TakeOver(BackwardShift(r, s), b);
    KernelBwdCounts(b.k, b.v, e);
    CountLocal([Scratch(DQ)], e);
    CountLocal([b.dq], e);
    CountSingle(Wait(GradRing), e);
    TakeOverCounts(BackwardShift(r, s), b, e);
    CountAppend(a, c, e);
    CountAppend(a + c, d, e);
    CountAppend(a + c + d, w, e);
    CountAppend(a + c + d + w, t, e);
  }

  lemma LaterStepCounts(p: nat, r: nat, s: nat, b: BwdBufs, e: Event)
    requires s > 0 && (e.Commit? || e.Wait?)
    ensures Count(LaterStep(p, r, s, b).0, e) == PerStep(p, s, e)
  {
    var next := LaterStep(p, r, s, b).1;
    var issue, mid, wt := KvIssue(p, s, b.k, b.v), LaterMiddle(r, s, b), KvWait(p, s);
    var g := GradIssue(next.dk, next.dv, b.dk, b.dv);
    KvCounts(p, s, b.k, b.v, e);
    LaterMiddleCounts(r, s, b, e);
    GradIssueCounts(next.dk, next.dv, b.dk, b.dv, e);
    CountAppend(issue, mid, e);
    CountAppend(issue + mid, wt, e);
    CountAppend(issue + mid + wt, g, e);
    assert LaterStep(p, r, s, b).0 == issue + mid + wt + g;
  }

  /** How often the first n steps together issue, or wait on, channel event e. */
  function UpTo(p: nat, n: nat, e: Event): nat
  {
    if n == 0 then 0 else UpTo(p, n - 1, e) + PerStep(p, n - 1, e)
  }

  lemma {:induction false} BwdRunCounts(p: nat, r: nat, n: nat, aliases: bool, e: Event)
    requires n >= 1 && (e.Commit? || e.Wait?)
    ensures Count(BwdRun(p, r, n, aliases).0, e) == UpTo(p, n, e)
  {
    if n == 1 {
      FirstStepCounts(p, aliases, e);
    } else {
      BwdRunCounts(p, r, n - 1, aliases, e);
      var prev := BwdRun(p, r, n - 1, aliases);
      LaterStepCounts(p, r, n - 1, prev.1, e);
      CountAppend(prev.0, LaterStep(p, r, n - 1, prev.1).0, e);
    }
  }

  /** Over steps [0, n) of a ring of p, the K/V channel is used n times before the last step and once less after it; gradients once per step. */
  lemma {:induction false} UpToValue(p: nat, n: nat)
    requires 0 < p && n <= p
    ensures UpTo(p, n, Commit(KvRing)) == UpTo(p, n, Wait(KvRing)) == if n < p then n else n - 1
    ensures UpTo(p, n, Commit(GradRing)) == n
    ensures UpTo(p, n, Wait(GradRing)) == if n == 0 then 0 else n - 1
  {
    if n > 0 {
      UpToValue(p, n - 1);
    }
  }

  /**
   One backward call commits the K/V channel p - 1 times and the gradient
   channel p times, and waits on each exactly as often as it commits it
   (the last gradient wait is the one after the loop).
   */
  lemma BackwardTraceCounts(p: nat, r: nat, aliases: bool)
    requires p > 0
    ensures Count(BackwardTraceAsWritten(p, r, true, aliases), Commit(KvRing)) == p - 1
    ensures Count(BackwardTraceAsWritten(p, r, true, aliases), Wait(KvRing)) == p - 1
    ensures Count(BackwardTraceAsWritten(p, r, true, aliases), Commit(GradRing)) == p
    ensures Count(BackwardTraceAsWritten(p, r, true, aliases), Wait(GradRing)) == p
  {
    var run := BwdRun(p, r, p, aliases);
    UpToValue(p, p);
    forall e: Event | e in {Commit(KvRing), Wait(KvRing), Commit(GradRing), Wait(GradRing)}
      ensures Count(run.0 + BwdFinish(run.1), e) == UpTo(p, p, e) + (if e == Wait(GradRing) then 1 else 0)
    {
      BwdRunCounts(p, r, p, aliases, e);
      CountSingle(Wait(GradRing), e);
      CountLocal([run.1.dq, run.1.nextDk, run.1.nextDv], e);
      CountAppend([Wait(GradRing)], Reads([run.1.dq, run.1.nextDk, run.1.nextDv]), e);
      CountAppend(run.0, BwdFinish(run.1), e);
    }
  }

  // ------------------------------------------- aliased float32 accumulators

  /** A broken prefix breaks the whole sequence. */
  lemma RunBrokenPrefix(st: Option<ChanState>, a: seq<Event>, b: seq<Event>)
    requires Run(st, a) == None
    ensures Run(st, a + b) == None
  {
    RunAppend(st, a, b);
    RunBroken(b);
  }

  /** Writing a buffer some transfer owns breaks the discipline. */
  lemma {:induction false} RunWritesHit(st: ChanState, bs: seq<Buf>, i: nat)
    requires i < |bs| && bs[i] in Busy(st)
    requires forall j :: 0 <= j < i ==> bs[j] !in Busy(st)
    ensures Run(Some(st), Writes(bs)) == None
    decreases i
  {
    assert Writes(bs)[1..] == Writes(bs[1..]);
    if i == 0 {
      RunBroken(Writes(bs)[1..]);
    } else {
      RunWritesHit(st, bs[1..], i - 1);
    }
  }

  /**
   With aliasing, the step-1 kernel rewrites `block_dk_buffer` while it is
   still being sent as step 0's dk.
   */
  lemma AliasedSecondStepBreaks(p: nat, r: nat)
    requires p >= 2
    ensures Run(Some(GradFlight(FirstStep(p, true).1)), LaterStep(p, r, 1, FirstStep(p, true).1).0) == None
  {
    var b := FirstStep(p, true).1;
    assert b.k == HeldKv(1, K) && b.v == HeldKv(1, V) && b.dk == Scratch(DK) && b.dv == Scratch(DV);
    assert b.nextDk == Received(GradRing, 0, DK) && b.nextDv == Received(GradRing, 0, DV);
    AliasedLaterBreaks(p, r, b);
  }

  /** Step 1 over aliased accumulators: the issue goes through, the kernel's write then breaks. */
  lemma AliasedLaterBreaks(p: nat, r: nat, b: BwdBufs)
    requires p >= 2
    requires b.k == HeldKv(1, K) && b.v == HeldKv(1, V) && b.dk == Scratch(DK) && b.dv == Scratch(DV)
    requires b.nextDk == Received(GradRing, 0, DK) && b.nextDv == Received(GradRing, 0, DV)
    ensures Run(Some(GradFlight(b)), LaterStep(p, r, 1, b).0) == None
  {
    var rk, rv := Received(GradRing, 0, DK), Received(GradRing, 0, DV);
    var g := GradFlight(b);
    assert g.kv == NoTransfer && g.grad == Pending({Scratch(DK), Scratch(DV)}, {rk, rv}, true);
    assert Busy(g) == {Scratch(DK), Scratch(DV), rk, rv};
    var stK := g.(kv := KvFlight(p, 1));
    assert Receiving(stK) == KvFlight(p, 1).receiving + {rk, rv};
    assert Scratch(DK) in Busy(stK);
    var issue := KvIssue(p, 1, b.k, b.v);
    var m := LaterMiddle(r, 1, b);
    KvIssueRun(p, 1, g);
    AliasedMiddleBreaks(p, r, b, stK);
    RunAppend(Some(g), issue, m);
    AfterBroken(p, r, 1, b, g);
  }

  /** A step whose issue and middle broke the discipline stays broken. */
  lemma AfterBroken(p: nat, r: nat, s: nat, b: BwdBufs, g: ChanState)
    requires Run(Some(g), KvIssue(p, s, b.k, b.v) + LaterMiddle(r, s, b)) == None
    ensures Run(Some(g), LaterStep(p, r, s, b).0) == None
  {
    var head := KvIssue(p, s, b.k, b.v) + LaterMiddle(r, s, b);
    var next := LaterStep(p, r, s, b).1;
    RunBrokenPrefix(Some(g), head, KvWait(p, s));
    RunBrokenPrefix(Some(g), head + KvWait(p, s), GradIssue(next.dk, next.dv, b.dk, b.dv));
  }

  /** Step s's K/V issue on a state whose busy buffers are off the K/V ring puts the step's transfers in flight. */
  lemma KvIssueRun(p: nat, s: nat, st: ChanState)
    requires s < p && st.kv == NoTransfer
    requires forall b :: b in Busy(st) ==> OffKvRing(b)
    ensures Run(Some(st), KvIssue(p, s, HeldKv(s, K), HeldKv(s, V))) == Some(st.(kv := KvFlight(p, s)))
  {
    if s + 1 != p {
      RunPostPair(st, KvRing, HeldKv(s, K), Received(KvRing, s, K), HeldKv(s, V), Received(KvRing, s, V));
    }
  }

  /** The step-1 kernel's write of `block_dk_buffer` hits the aliased dk in flight. */
  lemma AliasedMiddleBreaks(p: nat, r: nat, b: BwdBufs, stK: ChanState)
    requires Scratch(DK) in Busy(stK) && Scratch(DQ) !in Busy(stK)
    requires b.k !in Receiving(stK) && b.v !in Receiving(stK)
    requires forall x :: Input(x) !in Receiving(stK)
    ensures Run(Some(stK), LaterMiddle(r, 1, b)) == None
  {
    var kr := Reads([Input(DOut), Input(Q), b.k, b.v, Input(Out), Input(Lse)]);
    var kw := Writes([Scratch(DQ), Scratch(DK), Scratch(DV)]);
    RunReads(stK, [Input(DOut), Input(Q), b.k, b.v, Input(Out), Input(Lse)]);
    RunWritesHit(stK, [Scratch(DQ), Scratch(DK), Scratch(DV)], 1);
    RunAppend(Some(stK), kr, kw);
    var c, d, w, t := Reads([Scratch(DQ)]), Writes([b.dq]), [Wait(GradRing)], TakeOver(BackwardShift(r, 1), b);
    RunBrokenPrefix(Some(stK), kr + kw, c);
    RunBrokenPrefix(Some(stK), kr + kw + c, d);
    RunBrokenPrefix(Some(stK), kr + kw + c + d, w);
    RunBrokenPrefix(Some(stK), kr + kw + c + d + w, t);
  }

  lemma {:induction false} AliasedRunBreaks(p: nat, r: nat, n: nat)
    requires 2 <= n <= p
    ensures Run(Some(Idle), BwdRun(p, r, n, true).0) == None
  {
    var prev := BwdRun(p, r, n - 1, true);
    var step := LaterStep(p, r, n - 1, prev.1);
    assert BwdRun(p, r, n, true) == (prev.0 + step.0, step.1);
    if n == 2 {
      FirstStepSafe(p, true);
      AliasedSecondStepBreaks(p, r);
      RunAppend(Some(Idle), prev.0, step.0);
    } else {
      AliasedRunBreaks(p, r, n - 1);
      RunBrokenPrefix(Some(Idle), prev.0, step.0);
    }
  }

  /**
   As written, when the scratch buffers are already float32 (so that
   `.to(torch.float32)` returns them unchanged), any ring of two or more ranks
   breaks the discipline: step 1's kernel writes `block_dk_buffer` while step
   0's dk, which is that very buffer, is still in flight on the gradient
   channel.
   */
  lemma AliasedBackwardUnsafe(p: nat, r: nat)
    requires p >= 2
    ensures Run(Some(Idle), BackwardTraceAsWritten(p, r, true, true)) == None
    ensures !Safe(BackwardTraceAsWritten(p, r, true, true))
  {
    var run := BwdRun(p, r, p, true);
    AliasedRunBreaks(p, r, p);
    RunBrokenPrefix(Some(Idle), run.0, BwdFinish(run.1));
  }

  /** With one rank nothing is reused before its transfer completes, aliased or not. */
  lemma SingleRankAliasedSafe(r: nat)
    ensures Safe(BackwardTraceAsWritten(1, r, true, true))
  {
    var run := BwdRun(1, r, 1, true);
    FirstStepSafe(1, true);
    RunWait(GradFlight(run.1), GradRing);
    RunReads(Idle, [run.1.dq, run.1.nextDk, run.1.nextDv]);
    RunAppend(Some(Idle), run.0, BwdFinish(run.1));
    RunAppend(Some(GradFlight(run.1)), [Wait(GradRing)], Reads([run.1.dq, run.1.nextDk, run.1.nextDv]));
  }
}
