/**
 The ring topology shared by every channel of one attention call.

 The communicator that implements the ring is not part of this model; its
 direction is an explicit ASSUMPTION here: every rank sends to rank+1 and
 receives from rank-1 (both modulo the world size p). Under that assumption
 the K/V shard a rank holds at ring step s is owned by rank (r - s) mod p.
 */
module Ring {

  /** The rank that `r` receives from. */
  function Prev(p: nat, r: nat): (q: nat)
    requires r < p
    ensures q < p
  {
    if r == 0 then p - 1 else r - 1
  }

  /** One hop of a ring channel: every rank ends up with its predecessor's value. */
  function Shift<T>(xs: seq<T>): (ys: seq<T>)
    requires |xs| > 0
    ensures |ys| == |xs|
  {
    seq(|xs|, r requires 0 <= r < |xs| => xs[Prev(|xs|, r)])
  }

  /**
   The owner of the K/V shard that rank `r` holds at ring step `s`, i.e.
   (r - s) mod p written without a modulus. The same formula read backwards
   gives the step at which rank `r` holds the shard of a given owner
   (see SourceInvolution).
   */
  function Source(p: nat, r: nat, s: nat): (o: nat)
    requires r < p && s < p
    ensures o < p
  {
    if s <= r then r - s else r + p - s
  }

  /** Source(p, r, .) is its own inverse: the shard held at step s is held at step s only. */
  lemma SourceInvolution(p: nat, r: nat, s: nat)
    requires r < p && s < p
    ensures Source(p, r, Source(p, r, s)) == s
  {
  }

  /** Two different steps bring two different shards to the same rank. */
  lemma SourceInjective(p: nat, r: nat, s: nat, t: nat)
    requires r < p && s < p && t < p
    ensures Source(p, r, s) == Source(p, r, t) <==> s == t
  {
  }

  /** Two different ranks hold a given shard at two different steps. */
  lemma SourceInjectiveInRank(p: nat, x: nat, y: nat, o: nat)
    requires x < p && y < p && o < p
    ensures Source(p, x, o) == Source(p, y, o) <==> x == y
  {
  }

  /** Receiving from the predecessor advances the held shard by one step. */
  lemma SourceOfPrev(p: nat, r: nat, s: nat)
    requires r < p && s + 1 < p
    ensures Source(p, Prev(p, r), s) == Source(p, r, s + 1)
  {
  }

  /** The value of every rank after `s` hops of a channel that started with each rank's own id. */
  function Rotated(p: nat, s: nat): (ids: seq<nat>)
    requires p > 0
    ensures |ids| == p
  {
    if s == 0 then seq(p, r => r) else Shift(Rotated(p, s - 1))
  }

  /** After s hops rank r holds the shard of rank (r - s) mod p. */
  lemma {:induction false} RotatedIsSource(p: nat, s: nat)
    requires 0 < p && s < p
    ensures forall r :: 0 <= r < p ==> Rotated(p, s)[r] == Source(p, r, s)
  {
    if s > 0 {
      RotatedIsSource(p, s - 1);
      forall r | 0 <= r < p
        ensures Rotated(p, s)[r] == Source(p, r, s)
      {
        SourceOfPrev(p, r, s - 1);
      }
    }
  }

  /** After a full round of p hops every value is back at its owner. */
  lemma {:induction false} FullRoundReturnsHome(p: nat)
    requires 0 < p
    ensures Rotated(p, p) == seq(p, r => r)
  {
    RotatedIsSource(p, p - 1);
    forall r | 0 <= r < p
      ensures Rotated(p, p)[r] == r
    {
      assert Rotated(p, p)[r] == Source(p, Prev(p, r), p - 1);
    }
  }
}
