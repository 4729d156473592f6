/** Optional values, results, and the configuration errors the attention call reports. */
module Outcomes {

  datatype Option<+T> = None | Some(value: T)

  datatype Result<+T, +E> = Ok(value: T) | Err(error: E)

  /** The two misconfigurations the drivers refuse before any ring step. */
  datatype CallError =
    | NonCausal         // causal=False: only causal attention is supported
    | AlibiUnsupported  // alibi_slopes given: positional bias is not supported
}
