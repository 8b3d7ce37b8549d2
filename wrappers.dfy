/** Small shared vocabulary: optional values, results, and duplicate-free listings of sets
    (the shape in which the store hands back the members of a set). */
module Wrappers {

  datatype Option<+T> = None | Some(value: T) {
    function GetOr(default: T): T {
      match this
      case Some(v) => v
      case None => default
    }
  }

  datatype Result<+R, +E> = Success(value: R) | Failure(error: E)

  /** The lookup `m[k]` of a dictionary, `None` when the key is absent. */
  function Get<K, V>(m: map<K, V>, k: K): (r: Option<V>)
    ensures r.Some? <==> k in m
    ensures r.Some? ==> r.value == m[k]
  {
    if k in m then Some(m[k]) else None
  }

  /** No element occurs twice. */
  predicate NoDup<T(==)>(s: seq<T>) {
    forall i, j :: 0 <= i < j < |s| ==> s[i] != s[j]
  }

  /** Appending an element not yet listed keeps a listing duplicate-free. */
  lemma NoDupSnoc<T>(s: seq<T>, x: T)
    requires NoDup(s) && x !in s
    ensures NoDup(s + [x])
  {
    forall i, j | 0 <= i < j < |s + [x]|
      ensures (s + [x])[i] != (s + [x])[j]
    {
      if j == |s| {
        assert (s + [x])[i] == s[i];
      } else {
        assert (s + [x])[i] == s[i] && (s + [x])[j] == s[j];
      }
    }
  }

  /** A duplicate-free listing of a set is as long as the set is large. */
  lemma {:induction false} NoDupCardinality<T>(r: seq<T>, s: set<T>)
    requires NoDup(r)
    requires forall x :: x in r <==> x in s
    ensures |r| == |s|
    decreases |r|
  {
    if r != [] {
      var x := r[|r| - 1];
      var init := r[..|r| - 1];
      assert NoDup(init);
      forall y
        ensures y in init <==> y in s - {x}
      {
        if y in init {
          var k :| 0 <= k < |init| && init[k] == y;
          assert r[k] == y;
        }
        if y in r && y != x {
          var k :| 0 <= k < |r| && r[k] == y;
          assert k < |r| - 1;
          assert init[k] == y;
        }
      }
      NoDupCardinality(init, s - {x});
    } else {
      assert s == {};
    }
  }

  /** Lists the members of a set in some order, each exactly once (the store promises no order). */
  method Enumerate<T(==)>(s: set<T>) returns (r: seq<T>)
    ensures NoDup(r)
    ensures forall x :: x in r <==> x in s
  {
    r := [];
    var rest := s;
    while rest != {}
      invariant NoDup(r)
      invariant forall x :: x in r ==> x in s && x !in rest
      invariant forall x :: x in s ==> x in r || x in rest
      invariant rest <= s
      decreases rest
    {
      var x :| x in rest;
      r := r + [x];
      rest := rest - {x};
    }
  }
}
