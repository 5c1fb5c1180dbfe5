/** Sums of stakes over account lists and account sets. */
module Sums {
  import opened Base

  ghost predicate NoDup<T>(xs: seq<T>) {
    forall i, j :: 0 <= i < j < |xs| ==> xs[i] != xs[j]
  }

  function Elements<T(==)>(xs: seq<T>): set<T> { set x | x in xs }

  /** The sum the runtime computes: one lookup per list entry, in order. */
  function SumList(xs: seq<AccountId>, m: map<AccountId, nat>): nat {
    if xs == [] then 0 else SumList(xs[..|xs| - 1], m) + Get(m, xs[|xs| - 1], 0)
  }

  ghost function SumSet(s: set<AccountId>, m: map<AccountId, nat>): nat {
    if s == {} then 0 else
    var x :| x in s;
    Get(m, x, 0) + SumSet(s - {x}, m)
  }

  lemma {:induction false} SumSetRemove(s: set<AccountId>, m: map<AccountId, nat>, a: AccountId)
    requires a in s
    ensures SumSet(s, m) == Get(m, a, 0) + SumSet(s - {a}, m)
    decreases s
  {
    var x :| x in s && SumSet(s, m) == Get(m, x, 0) + SumSet(s - {x}, m);
    if x != a {
      SumSetRemove(s - {x}, m, a);
      SumSetRemove(s - {a}, m, x);
      assert s - {x} - {a} == s - {a} - {x};
    }
  }

  lemma {:induction false} SumSetMonotone(s: set<AccountId>, t: set<AccountId>, m: map<AccountId, nat>)
    requires s <= t
    ensures SumSet(s, m) <= SumSet(t, m)
    decreases s
  {
    if s != {} {
      var x :| x in s;
      SumSetRemove(s, m, x);
      SumSetRemove(t, m, x);
      SumSetMonotone(s - {x}, t - {x}, m);
    }
  }

  /** Accounts held by both sets are counted twice on the left and twice on the right. */
  lemma {:induction false} InclusionExclusion(s: set<AccountId>, t: set<AccountId>, m: map<AccountId, nat>)
    ensures SumSet(s, m) + SumSet(t, m) == SumSet(s + t, m) + SumSet(s * t, m)
    decreases s
  {
    if s == {} {
      assert s + t == t && s * t == {};
    } else {
      var x :| x in s;
      SumSetRemove(s, m, x);
      SumSetRemove(s + t, m, x);
      InclusionExclusion(s - {x}, t - {x}, m);
      assert s - {x} + (t - {x}) == s + t - {x};
      assert (s - {x}) * (t - {x}) == s * t - {x};
      if x in t {
        SumSetRemove(t, m, x);
        SumSetRemove(s * t, m, x);
      } else {
        assert t - {x} == t && s * t - {x} == s * t;
      }
    }
  }

  lemma {:induction false} SumListIsSumSet(xs: seq<AccountId>, m: map<AccountId, nat>)
    requires NoDup(xs)
    ensures SumList(xs, m) == SumSet(Elements(xs), m)
  {
    if xs != [] {
      var front, last := xs[..|xs| - 1], xs[|xs| - 1];
      SumListIsSumSet(front, m);
      SumSetRemove(Elements(xs), m, last);
      assert Elements(xs) - {last} == Elements(front);
    }
  }

  /** Overwriting one account's entry shifts the sum of all entries by the difference. */
  lemma SumSetUpdate(m: map<AccountId, nat>, a: AccountId, w: nat)
    ensures SumSet(m[a := w].Keys, m[a := w]) == SumSet(m.Keys - {a}, m) + w
    ensures SumSet(m.Keys - {a}, m) <= SumSet(m.Keys, m)
    ensures a !in m ==> SumSet(m.Keys - {a}, m) == SumSet(m.Keys, m)
    ensures a in m ==> SumSet(m.Keys - {a}, m) == SumSet(m.Keys, m) - m[a]
  {
    var n := m[a := w];
    assert n.Keys == m.Keys + {a};
    SumSetRemove(n.Keys, n, a);
    assert n.Keys - {a} == m.Keys - {a};
    SumSetCong(m.Keys - {a}, m, n);
    if a in m {
      SumSetRemove(m.Keys, m, a);
    } else {
      assert m.Keys - {a} == m.Keys;
    }
  }

  lemma {:induction false} SumSetCong(s: set<AccountId>, m: map<AccountId, nat>, n: map<AccountId, nat>)
    requires forall a :: a in s ==> Get(m, a, 0) == Get(n, a, 0)
    ensures SumSet(s, m) == SumSet(s, n)
    decreases s
  {
    if s != {} {
      var x :| x in s;
      SumSetRemove(s, m, x);
      SumSetRemove(s, n, x);
      SumSetCong(s - {x}, m, n);
    }
  }

  /** Accounts outside the table add nothing. */
  lemma SumSetRestrict(s: set<AccountId>, m: map<AccountId, nat>)
    ensures SumSet(s, m) <= SumSet(m.Keys, m)
  {
    InclusionExclusion(s - m.Keys, s * m.Keys, m);
    assert (s - m.Keys) + (s * m.Keys) == s && (s - m.Keys) * (s * m.Keys) == {};
    SumSetZero(s - m.Keys, m);
    SumSetMonotone(s * m.Keys, m.Keys, m);
  }

  lemma {:induction false} SumSetZero(s: set<AccountId>, m: map<AccountId, nat>)
    requires s !! m.Keys
    ensures SumSet(s, m) == 0
    decreases s
  {
    if s != {} {
      var x :| x in s;
      SumSetRemove(s, m, x);
      SumSetZero(s - {x}, m);
    }
  }

  /** A duplicate-free list drawn from a finite set is no longer than the set. */
  lemma {:induction false} NoDupBounded<T>(xs: seq<T>, s: set<T>)
    requires NoDup(xs) && Elements(xs) <= s
    ensures |xs| <= |s|
  {
    if xs != [] {
      var front, last := xs[..|xs| - 1], xs[|xs| - 1];
      assert last in Elements(xs);
      forall x | x in Elements(front) ensures x in s - {last} {
        assert x in Elements(xs);
      }
      NoDupBounded(front, s - {last});
    }
  }
}
