# Striped ring flash attention: the schedule, proved

This project models the core of `yunchang/ring/stripe_flash_attn.py`. That
file holds the forward and backward drivers of *striped* ring attention. A
sequence is split over the `p` ranks of a process group in stripes: local row
`i` of rank `r` is global position `i*p + r`. Each rank keeps its queries.
The K/V shards travel around the ring, one hop per step, in `p` steps: the
last step transfers nothing, so each shard makes `p-1` hops.

At step `s` rank `r` works in one of two modes:

- **Full** when `s <= r`: a whole causal block.
- **Shifted** otherwise: query rows `[1, n)` against K/V rows `[0, n-1)`, and
  the result is merged only into the matching rows.

The backward pass runs a second ring. The dK/dV accumulator of each shard
travels on it, gathers one contribution per rank, and ends at the shard's
owner.

The model abstracts the tensors away. A row of `out`/`lse`/`dq` is the
multiset of global key positions combined into it. A row of `dk`/`dv` is the
multiset of global query positions. Merging a block is multiset union.

Modules:

- `Ring`: the ring direction and which shard a rank holds at each step.
- `Striping`: the global position of a local row.
- `Schedule`: the Full/Shifted choice, the slicing, and the pairs each step forms.
- `Kernel`: which rows a causal block combines.
- `Merge`: a merge into some of the rows of an accumulator.
- `Forward`: the forward driver, run on all ranks at once.
- `Backward`: the backward driver, run on all ranks at once.
- `Channel`: the per-rank sequence of transfer and buffer events, and the
  discipline that sequence must keep.
- `Entry`: the call preconditions.

**Assumption.** The ring communicator is not part of this model. It is
assumed to send to rank `r+1` and receive from rank `r-1`, both modulo `p`.
Under that assumption rank `r` holds the shard of rank `(r - s) mod p` at
step `s` (`Ring.Source`).

## Model

| member | source | states |
|---|---|---|
| `Ring.RotatedIsSource` | yunchang/ring/stripe_flash_attn.py:69-72 | After `s` hops of K/V rotation, rank `r` holds the shard of rank `(r - s) mod p`. |
| `Ring.SourceInjective` | yunchang/ring/stripe_flash_attn.py:30-34 | Two different steps never bring the same shard to a rank, so each shard visits each rank once per call. |
| `Ring.FullRoundReturnsHome` | yunchang/ring/stripe_flash_attn.py:189-193 | After `p` hops every value is back with the rank that started it. This is consistent with the `p` sends of the gradient ring ending at each shard's owner, which `Backward.BackwardIsGlobalCausal` proves directly. |
| `Schedule.ModesAgree` | yunchang/ring/stripe_flash_attn.py:115 | The backward's `shift_causal = step > rank` is exactly the negation of the forward's Full test, so both passes pair the same blocks at every (rank, step). |
| `Schedule.FirstStepIsFull` | yunchang/ring/stripe_flash_attn.py:36-50 | Step 0 is Full on every rank, so the first merge covers every row before any Shifted step merges into a slice. |
| `Schedule.ModeBySource` | yunchang/ring/stripe_flash_attn.py:36 | A rank works in Full mode exactly when the shard it holds belongs to a rank at or before it. |
| `Schedule.QuerySliceOfStripe` | yunchang/ring/stripe_flash_attn.py:53-56 | `q[:, 1:]` of a query stripe is the stripe of rows `[1, n)`, and the Full slice is the whole stripe. |
| `Schedule.KeySliceOfStripe` | yunchang/ring/stripe_flash_attn.py:144-152 | `k[:, :-1]` of a K/V stripe is the stripe of rows `[0, n-1)`, and the Full slice is the whole stripe. |
| `Schedule.StepPairsShape` | yunchang/ring/stripe_flash_attn.py:52-67 | Full pairs query row `i` with K/V rows `j <= i`; Shifted pairs it with `j < i`. In both directions, for every row of the shard. |
| `Schedule.StepPairsAreCausal` | yunchang/ring/stripe_flash_attn.py:36-67 | At every (rank, step), local query `i` meets local key `j` of the held shard iff `j*p + src <= i*p + r`, which is the global causal mask. |
| `Schedule.CoverageExactlyOnce` | yunchang/ring/stripe_flash_attn.py:30-72 | Over the `p` steps, each causal (query, key) pair of a rank is covered exactly once. No other pair is covered, including keys of ranks outside the ring. |
| `Schedule.SingleRankIsOneFullBlock` | yunchang/ring/stripe_flash_attn.py:30-50 | With one rank the call is a single Full causal block: row `i` meets keys `0..i`. |
| `Merge.UpdateCommutes` | yunchang/ring/stripe_flash_attn.py:50-67 | Two merges made in either order give the same accumulator, so the result of `update_out_and_lse` calls does not depend on the order of the ring steps. |
| `Merge.MergeAllRow` | yunchang/ring/stripe_flash_attn.py:50-67 | After any sequence of merges, a row holds its starting value plus the sum of every block's contribution to it. |
| `Forward.StepContribution` | yunchang/ring/stripe_flash_attn.py:36-67 | One step adds to query row `i` exactly the keys of the held shard at or before `i*p + r`, each once. |
| `Forward.ForwardIsGlobalCausal` | yunchang/ring/stripe_flash_attn.py:30-76 | The forward is exact. Row `i` of rank `r` holds every global key at or before `i*p + r` exactly once and no other key, as single-process causal attention would. |
| `Forward.SingleRankForward` | yunchang/ring/stripe_flash_attn.py:36-50 | With one rank, row `i` combines exactly keys `0..i`. |
| `Forward.ShiftedStepRows` | yunchang/ring/stripe_flash_attn.py:52-67 | A Shifted step never changes query row 0 of `out`/`lse`. Every other row receives a non-empty contribution. |
| `Backward.DqStepIsForwardStep` | yunchang/ring/stripe_flash_attn.py:168-171 | The dq merge of a step is the forward's out merge of the same step: the same pairs in the same mode and the same rows. |
| `Backward.BackwardIsGlobalCausal` | yunchang/ring/stripe_flash_attn.py:109-195 | The backward is exact. dq row `i` holds each causal key once. The dK/dV that rank `r` returns is the accumulator of its own shard, with exactly one contribution per rank. Its row `j` holds every query at or after `j*p + r` once. |
| `Backward.ShiftedStepKvRows` | yunchang/ring/stripe_flash_attn.py:177-182 | A Shifted step never changes the last K/V row of the travelling dK/dV. Every other row receives a non-empty contribution. |
| `Backward.AliasedDqDoubles` | yunchang/ring/stripe_flash_attn.py:164-171 | When dq is the scratch buffer itself and `p >= 2`, the last rank's dq row 0 holds key 0 twice and lacks its own key. The causal result holds each once. |
| `Backward.ShiftedStepDqRows` | yunchang/ring/stripe_flash_attn.py:168-171 | A Shifted step never changes query row 0 of dq. Every other row receives a non-empty contribution. |
| `Channel.ForwardTraceSafe` | yunchang/ring/stripe_flash_attn.py:30-72 | The forward issues `p-1` K/V transfers and waits on each before the next is issued and before the received `k`/`v` are read. Nothing is left in flight. |
| `Channel.BackwardTraceSafe` | yunchang/ring/stripe_flash_attn.py:109-193 | With fresh float32 accumulators the backward keeps the discipline on both channels. Each gradient receive buffer is the accumulator sent one step earlier, never the one being sent, and is reused only after its wait. Nothing is left in flight. |
| `Channel.BackwardTraceCounts` | yunchang/ring/stripe_flash_attn.py:109-193 | The backward commits the K/V channel `p-1` times and the gradient channel `p` times, and waits on each channel exactly as often as it commits it. |
| `Channel.AliasedBackwardUnsafe` | yunchang/ring/stripe_flash_attn.py:164-166 | As written, if `.to(torch.float32)` returns the scratch buffers themselves, every ring of two or more ranks breaks the discipline. |
| `Channel.SingleRankAliasedSafe` | yunchang/ring/stripe_flash_attn.py:163-195 | With one rank the aliased backward still keeps the discipline: no scratch buffer is reused while in flight. |
| `Entry.ForwardPreconditions` | yunchang/ring/stripe_flash_attn.py:219 | The forward is refused exactly when alibi slopes are given or attention is not causal (lines 20-22), with alibi reported first. A refused call issues no channel event; an accepted one keeps the discipline. |
| `Entry.BackwardPreconditions` | yunchang/ring/stripe_flash_attn.py:96-98 | The backward is refused exactly when attention is not causal, before any channel event. An accepted call keeps the discipline when the float32 accumulators are fresh tensors. When they alias the scratch buffers, it keeps it only when `p = 1`. |

## Left out

- The online-softmax numerics of `update_out_and_lse` (exp/log over floats; its module is not part of this model). A merge is multiset union, which keeps which partial results are combined and how often, but no values.
- In the model, a first merge with a slice leaves the rows outside the slice empty. `update_out_and_lse` lives in another module and is not modelled, so what the program does in this case is not known. The case is never reached, because step 0 is always Full.
- The attention kernel picked by `select_flash_attn_impl` (external, floating point). It is seen only through which rows a square causal block combines. The model uses one local length `n` for the query shard and every K/V shard, so it assumes equally long shards. The drivers never check this.
- The float32 accumulation in `dq += ...`, the casts `.to(q.dtype)`, the `lse` squeeze/transpose, and the default `softmax_scale = head_dim ** -0.5`. These are float and layout details.
- The slicing of `softmax_lse` for Shifted steps (line 141). It follows the query slice and adds no schedule of its own.
- The model assumes `window_size = (-1, -1)`, i.e. no sliding window. The drivers pass `window_size` to every kernel call (lines 45, 60, 132, 156). A finite window would restrict each block in local row numbers, which the pair, coverage and exactness lemmas do not cover. `dropout_p`, `softcap` and `deterministic` change values only, not which rows are combined.
- The ring communicator and torch.distributed (asynchrony, I/O). Only the order of post, commit and wait is kept, with the ring direction as an explicit assumption.
- The autograd wrapper's saving of tensors in `ctx`, and the packed entry points `stripe_flash_attn_qkvpacked_func`, `stripe_flash_attn_kvpacked_func` and `stripe_flash_attn_func` (lines 272-362). These are view and registration glue. They default to `causal=False`, so a caller who does not pass `causal=True` is refused by the check modelled in `Entry.ForwardPreconditions`.
- Entry.AttnBackward: its result always holds the gradients of fresh accumulators. With aliasing, dq is modelled separately (`Backward.AliasedDq`). The aliased dK/dV values depend on a buffer overwritten while in flight and are not modelled.
- dK and dV follow identical code paths, so one accumulator stands for both. The event model keeps them as separate buffers.

## Findings

| source | as written | input that shows it | evidently intended | confidence | as-written member | corrected member |
|---|---|---|---|---|---|---|
| yunchang/ring/stripe_flash_attn.py:164-166 | `dq`, `dk`, `dv = block_*_buffer.to(torch.float32)`. When the scratch buffers are already float32 this returns the buffers themselves. Step 1's kernel then rewrites `block_dk_buffer` while step 0's `dk`, the same tensor, is still being sent at line 189. | `p = 2`, any rank, with a kernel variant that accepts float32 q/k/v | the accumulators are fresh tensors, independent of the scratch buffers (e.g. `.to(torch.float32, copy=True)` or `.clone()`) | low, not executed; FlashAttention kernels need fp16/bf16, so only variants that accept float32 reach it | `Channel.AliasedBackwardUnsafe` | `Channel.BackwardTraceSafe` |
| yunchang/ring/stripe_flash_attn.py:164-171 | `dq = block_dq_buffer.to(torch.float32)` aliases the scratch buffer when it is already float32. Every later kernel call overwrites dq's rows, and `dq += block_dq_buffer` adds them to themselves, so earlier steps' keys are lost and the last step's keys are doubled. | `p = 2`, `n = 1`, rank 1: dq row 0 ends as key 0 twice instead of keys 0 and 1 once each | dq is a fresh tensor | low, not executed; only kernel variants that accept float32 reach it | `Backward.AliasedDqDoubles` | `Backward.BackwardIsGlobalCausal` |
