/**
 Striped partitioning of one global sequence over p ranks: local row i of
 rank `owner` is global position i*p + owner. Queries of rank r and the keys
 of the shard owned by rank o are both laid out this way.
 */
module Striping {

  /** The global position of local row `i` of the shard owned by `owner`. */
  function Pos(p: nat, owner: nat, i: nat): nat
  {
    i * p + owner
  }

  /** The global positions of local rows [lo, hi) of the shard owned by `owner`. */
  function Stripe(p: nat, owner: nat, lo: nat, hi: nat): (s: seq<nat>)
    requires lo <= hi
    ensures |s| == hi - lo
    ensures forall t :: 0 <= t < |s| ==> s[t] == Pos(p, owner, lo + t)
  {
    seq<nat>(hi - lo, t requires 0 <= t < hi - lo => Pos(p, owner, lo + t))
  }

  /** The local rows [lo, hi) of a stripe, sliced from a longer stripe. */
  lemma StripeSlice(p: nat, owner: nat, lo: nat, hi: nat, a: nat, b: nat)
    requires lo <= hi && a <= b <= hi - lo
    ensures Stripe(p, owner, lo, hi)[a..b] == Stripe(p, owner, lo + a, lo + b)
  {
  }

  lemma MulLeq(a: nat, b: nat, p: nat)
    requires a <= b
    ensures a * p <= b * p
  {
  }

  /** Every global position splits uniquely into (local row, owner). */
  lemma {:induction false} PosSplit(p: nat, owner: nat, i: nat)
    requires owner < p
    ensures Pos(p, owner, i) / p == i
    ensures Pos(p, owner, i) % p == owner
  {
    var g := Pos(p, owner, i);
    var i', o' := g / p, g % p;
    assert g == i' * p + o';
    if i' < i {
      MulLeq(i' + 1, i, p);
      assert false;
    } else if i < i' {
      MulLeq(i + 1, i', p);
      assert false;
    }
  }

  /** A global position is the position of its own local row in its owner's shard. */
  lemma PosOfSplit(p: nat, g: nat)
    requires p > 0
    ensures Pos(p, g % p, g / p) == g
  {
  }

  /**
   The off-by-one rule of striping: key row j of owner o precedes query row i
   of rank r in the global order exactly when j <= i (owner at or before the
   rank) or j < i (owner after the rank).
   */
  lemma {:induction false} StripedCausal(p: nat, r: nat, o: nat, i: nat, j: nat)
    requires r < p && o < p
    ensures Pos(p, o, j) <= Pos(p, r, i) <==> (if o <= r then j <= i else j < i)
  {
    if j <= i {
      MulLeq(j, i, p);
      if i <= j + 0 && o > r {
        assert i == j;
      } else if o > r {
        MulLeq(j + 1, i, p);
      }
    } else {
      MulLeq(i + 1, j, p);
    }
  }

  /** Each position occurs in a stripe at most once, and exactly the positions of its rows do. */
  lemma {:induction false} StripeCount(p: nat, owner: nat, lo: nat, hi: nat, g: nat)
    requires owner < p && lo <= hi
    ensures multiset(Stripe(p, owner, lo, hi))[g]
         == if g % p == owner && lo <= g / p < hi then 1 else 0
    decreases hi - lo
  {
    if lo < hi {
      var s := Stripe(p, owner, lo, hi);
      assert s == [Pos(p, owner, lo)] + Stripe(p, owner, lo + 1, hi);
      StripeCount(p, owner, lo + 1, hi, g);
      PosSplit(p, owner, lo);
      if g == Pos(p, owner, lo) {
      } else {
        if g % p == owner && g / p == lo {
          PosOfSplit(p, g);
          assert false;
        }
      }
    } else {
      assert Stripe(p, owner, lo, hi) == [];
    }
  }
}
