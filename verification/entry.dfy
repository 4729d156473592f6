/**
 The call surface. The autograd forward refuses alibi slopes (line 219)
 before the forward driver refuses non-causal attention (lines 20-22); the
 backward driver refuses non-causal attention (lines 96-98). A refused call
 touches no channel; an accepted one keeps the channel discipline.
 */
module Entry {
  import opened Outcomes
  import Merge
  import Forward
  import Backward
  import Channel

  /** A forward call's per-rank outputs, and the channel events of any one rank. */
  datatype FwdCall = FwdCall(result: Result<seq<Merge.Rows>, CallError>, events: seq<Channel.Event>)

  /** A backward call's per-rank gradients, and the channel events of rank r. */
  datatype BwdCall = BwdCall(result: Result<seq<Backward.Grads>, CallError>, events: seq<Channel.Event>)

  /** `StripeFlashAttnFunc.forward` on a ring of p ranks with n rows per rank. */
  function AttnForward(p: nat, n: nat, causal: bool, hasAlibi: bool): FwdCall
    requires p > 0
  {
    if hasAlibi then FwdCall(Err(AlibiUnsupported), [])
    else FwdCall(Forward.StripeForward(p, n, causal), Channel.ForwardTrace(p, causal))
  }

  /**
   `stripe_flash_attn_backward` as seen from rank r; `aliases` says whether
   `.to(torch.float32)` returns the scratch buffers themselves (inputs already
   float32). The result holds the gradients of fresh float32 accumulators.
   */
  function AttnBackward(p: nat, n: nat, r: nat, causal: bool, aliases: bool): BwdCall
    requires p > 0
  {
    BwdCall(Backward.StripeBackward(p, n, causal), Channel.BackwardTraceAsWritten(p, r, causal, aliases))
  }

  /**
   The forward is refused exactly when alibi slopes are given or attention is
   not causal, alibi being reported first; a refused call issues no channel
   event, and an accepted one keeps the channel discipline.
   */
  lemma ForwardPreconditions(p: nat, n: nat, causal: bool, hasAlibi: bool)
    requires p > 0
    ensures AttnForward(p, n, causal, hasAlibi).result.Err? <==> hasAlibi || !causal
    ensures hasAlibi ==> AttnForward(p, n, causal, hasAlibi).result == Err(AlibiUnsupported)
    ensures !hasAlibi && !causal ==> AttnForward(p, n, causal, hasAlibi).result == Err(NonCausal)
    ensures AttnForward(p, n, causal, hasAlibi).result.Err? ==> AttnForward(p, n, causal, hasAlibi).events == []
    ensures AttnForward(p, n, causal, hasAlibi).result.Ok? ==> Channel.Safe(AttnForward(p, n, causal, hasAlibi).events)
  {
    if !hasAlibi && causal {
      Channel.ForwardTraceSafe(p);
    }
  }

  /**
   The backward is refused exactly when attention is not causal, before any
   channel event. An accepted call keeps the channel discipline on rank r when
   the float32 accumulators are fresh tensors; when they alias the scratch
   buffers it keeps it only on a ring of one rank.
   */
  lemma BackwardPreconditions(p: nat, n: nat, r: nat, causal: bool, aliases: bool)
    requires p > 0
    ensures AttnBackward(p, n, r, causal, aliases).result.Err? <==> !causal
    ensures !causal ==> AttnBackward(p, n, r, causal, aliases).result == Err(NonCausal)
                        && AttnBackward(p, n, r, causal, aliases).events == []
    ensures causal && !aliases ==> Channel.Safe(AttnBackward(p, n, r, causal, aliases).events)
    ensures causal && aliases ==> (Channel.Safe(AttnBackward(p, n, r, causal, aliases).events) <==> p == 1)
  {
    if causal {
      if !aliases {
        Channel.BackwardTraceSafe(p, r);
      } else if p == 1 {
        Channel.SingleRankAliasedSafe(r);
      } else {
        Channel.AliasedBackwardUnsafe(p, r);
      }
    }
  }
}
