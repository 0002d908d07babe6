/** Sums over the values of a dictionary. Exact addition does not depend on the
    iteration order, so the order is fixed here to "least key first". */
module Sums {

  lemma Pick<T>(s: set<T>) returns (x: T)
    requires s != {}
    ensures x in s
  {
    x :| x in s;
  }

  ghost predicate IsLeast(k: int, s: set<int>) {
    k in s && forall j :: j in s ==> k <= j
  }

  lemma {:induction false} LeastExists(s: set<int>)
    requires s != {}
    ensures exists k :: IsLeast(k, s)
    decreases |s|
  {
    var x := Pick(s);
    var rest := s - {x};
    if rest == {} {
      assert s == {x};
      assert IsLeast(x, s);
    } else {
      LeastExists(rest);
      var k :| IsLeast(k, rest);
      assert s == rest + {x};
      assert IsLeast(if x < k then x else k, s);
    }
  }

  function Least(s: set<int>): (k: int)
    requires s != {}
    ensures k in s && forall j :: j in s ==> k <= j
  {
    LeastExists(s);
    assert exists k :: k in s && forall j :: j in s ==> k <= j by {
      var w :| IsLeast(w, s);
    }
    var k :| k in s && forall j :: j in s ==> k <= j;
    k
  }

  function SumBy<T>(m: map<int, T>, f: T -> real): real
    decreases |m|
  {
    if m.Keys == {} then 0.0
    else
      var k := Least(m.Keys);
      assert (m - {k}).Keys == m.Keys - {k};
      f(m[k]) + SumBy(m - {k}, f)
  }

  lemma LeastIs(k: int, s: set<int>)
    requires IsLeast(k, s)
    ensures Least(s) == k
  {
    assert Least(s) <= k && k <= Least(s);
  }

  /** Any key can be taken out first. */
  lemma {:induction false} SumExtract<T>(m: map<int, T>, f: T -> real, k: int)
    requires k in m
    ensures SumBy(m, f) == f(m[k]) + SumBy(m - {k}, f)
    decreases |m|
  {
    var l := Least(m.Keys);
    if l != k {
      var without, rest := m - {l}, m - {k};
      assert without.Keys == m.Keys - {l} && rest.Keys == m.Keys - {k};
      SumExtract(without, f, k);
      LeastIs(l, rest.Keys);
      assert rest - {l} == without - {k};
      assert SumBy(rest, f) == f(rest[l]) + SumBy(rest - {l}, f);
    }
  }

  lemma SumSplits<T>(m: map<int, T>, f: T -> real, k: int)
    ensures SumBy(m, f) == (if k in m then f(m[k]) else 0.0) + SumBy(m - {k}, f)
  {
    if k in m {
      SumExtract(m, f, k);
    } else {
      assert m - {k} == m;
    }
  }

  /** Two dictionaries that agree, key by key, have the same sum; a key that only
      one of them holds must contribute nothing. */
  lemma {:induction false} SumAgree<S, T>(m: map<int, S>, f: S -> real, n: map<int, T>, g: T -> real)
    requires m.Keys <= n.Keys
    requires forall k :: k in m ==> f(m[k]) == g(n[k])
    requires forall k :: k in n && k !in m ==> g(n[k]) == 0.0
    ensures SumBy(m, f) == SumBy(n, g)
    decreases |n|
  {
    if n.Keys != {} {
      var l := Least(n.Keys);
      assert (n - {l}).Keys == n.Keys - {l};
      if l in m {
        assert (m - {l}).Keys == m.Keys - {l};
        SumExtract(m, f, l);
        SumAgree(m - {l}, f, n - {l}, g);
      } else {
        SumAgree(m, f, n - {l}, g);
      }
    }
  }

  lemma {:induction false} SumPlus<T>(m: map<int, T>, f: T -> real, g: T -> real, h: T -> real)
    requires forall k :: k in m ==> h(m[k]) == f(m[k]) + g(m[k])
    ensures SumBy(m, h) == SumBy(m, f) + SumBy(m, g)
    decreases |m|
  {
    if m.Keys != {} {
      var l := Least(m.Keys);
      assert (m - {l}).Keys == m.Keys - {l};
      SumPlus(m - {l}, f, g, h);
    }
  }
}
