/**
 The block attention kernel, which is external to the ring protocol, seen
 only through WHICH rows it combines. A block is square (every call the
 drivers make passes as many query rows as K/V rows) and causal inside:
 local query row a sees local K/V rows [0, a].

 Rows are represented by the global positions they stand for, so a result
 row is the multiset of positions that were combined into it.
 */
module Kernel {

  /**
   The forward output (and log-sum-exp) rows of a causal block, and equally
   the dq rows of its backward: query row a combines K/V rows [0, a].
   */
  function CausalRows(q: seq<nat>, k: seq<nat>): (rows: seq<multiset<nat>>)
    requires |q| == |k|
    ensures |rows| == |q|
  {
    seq(|q|, a requires 0 <= a < |q| => multiset(k[..a + 1]))
  }

  /** The dk (and dv) rows of a causal block's backward: K/V row b gathers query rows [b, len). */
  function CausalCols(q: seq<nat>, k: seq<nat>): (rows: seq<multiset<nat>>)
    requires |q| == |k|
    ensures |rows| == |k|
  {
    seq(|k|, b requires 0 <= b < |k| => multiset(q[b..]))
  }
}
