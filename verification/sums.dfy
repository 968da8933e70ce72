/**
 Sums of an integer-valued function over a finite set of record ids.

 The tables of the ledger are maps keyed by `nat` ids; a column total (all
 balances, the prices of a client's unpaid jobs) is a sum over a set of keys.
 `SumSet` walks the set from its smallest key so that it is deterministic, and
 the lemmas below show that the order does not matter.
 */
module Sums {

  /** Every non-empty set of naturals has a least element. */
  lemma {:induction false} HasMin(s: set<nat>)
    requires s != {}
    ensures exists m :: m in s && forall k :: k in s ==> m <= k
  {
    var x :| x in s;
    var rest := s - {x};
    assert forall k :: k in s ==> k == x || k in rest;
    if rest == {} {
      assert forall k :: k in s ==> k == x;
      assert x in s && forall k :: k in s ==> x <= k;
    } else {
      HasMin(rest);
      var m :| m in rest && forall k :: k in rest ==> m <= k;
      if x < m {
        assert forall k :: k in s ==> x <= k;
      } else {
        assert forall k :: k in s ==> m <= k;
      }
    }
  }

  /** The least key of a non-empty set. */
  function MinKey(s: set<nat>): (m: nat)
    requires s != {}
    ensures m in s
    ensures forall k :: k in s ==> m <= k
  {
    HasMin(s);
    var m :| m in s && forall k :: k in s ==> m <= k;
    m
  }

  /** The sum of `f` over the keys in `s`. */
  function SumSet(s: set<nat>, f: nat -> int): int
    decreases s
  {
    if s == {} then 0
    else
      var m := MinKey(s);
      f(m) + SumSet(s - {m}, f)
  }

  /** Any element can be taken out first: the sum does not depend on the order. */
  lemma {:induction false} SumSetRemove(s: set<nat>, f: nat -> int, x: nat)
    requires x in s
    ensures SumSet(s, f) == f(x) + SumSet(s - {x}, f)
    decreases s
  {
    var m := MinKey(s);
    if x != m {
      SumSetRemove(s - {m}, f, x);
      SumSetRemove(s - {x}, f, m);
      assert s - {m} - {x} == s - {x} - {m};
    }
  }

  /** Functions that agree on `s` have the same sum over `s`. */
  lemma {:induction false} SumSetAgree(s: set<nat>, f: nat -> int, g: nat -> int)
    requires forall k :: k in s ==> f(k) == g(k)
    ensures SumSet(s, f) == SumSet(s, g)
    decreases s
  {
    if s != {} {
      var m := MinKey(s);
      SumSetAgree(s - {m}, f, g);
    }
  }

  /** Changing `f` at one key of `s` by `d` changes the sum by exactly `d`. */
  lemma SumSetPoint(s: set<nat>, f: nat -> int, g: nat -> int, x: nat, d: int)
    requires x in s
    requires g(x) == f(x) + d
    requires forall k :: k in s && k != x ==> f(k) == g(k)
    ensures SumSet(s, g) == SumSet(s, f) + d
  {
    SumSetRemove(s, f, x);
    SumSetRemove(s, g, x);
    SumSetAgree(s - {x}, f, g);
  }

  /** A sum of non-negative terms is non-negative. */
  lemma {:induction false} SumSetNonNegative(s: set<nat>, f: nat -> int)
    requires forall k :: k in s ==> f(k) >= 0
    ensures SumSet(s, f) >= 0
    decreases s
  {
    if s != {} {
      SumSetNonNegative(s - {MinKey(s)}, f);
    }
  }
}
