/**
 * Python's `sorted(xs, key=key, reverse=True)`: a stable sort into
 * non-increasing key order. Elements with equal keys keep the order they
 * had in `xs` (reversal does not reverse ties in Python). Modelled as an
 * insertion sort that places each later element after every element whose
 * key is at least its own.
 */
module StableSort {

  predicate SortedDesc<T>(s: seq<T>, key: T -> real) {
    forall i, j :: 0 <= i < j < |s| ==> key(s[i]) >= key(s[j])
  }

  /** The elements of `s` whose key is `v`, in their order in `s`. */
  function Ties<T>(s: seq<T>, key: T -> real, v: real): seq<T> {
    if s == [] then []
    else (if key(s[0]) == v then [s[0]] else []) + Ties(s[1..], key, v)
  }

  /** `proj` tells the elements of `s` apart. */
  ghost predicate DistinctBy<T, K>(s: seq<T>, proj: T -> K) {
    forall i, j :: 0 <= i < j < |s| ==> proj(s[i]) != proj(s[j])
  }

  /** Inserts `x` into the non-increasing `s` after every element whose key is at least key(x). */
  function Insert<T>(x: T, s: seq<T>, key: T -> real): (r: seq<T>)
    requires SortedDesc(s, key)
    ensures |r| == |s| + 1
    ensures r[0] == x || (|s| > 0 && r[0] == s[0])
    ensures SortedDesc(r, key)
    ensures multiset(r) == multiset(s) + multiset{x}
  {
    if s == [] then [x]
    else if key(s[0]) >= key(x) then
      var rest := Insert(x, s[1..], key);
      assert s == [s[0]] + s[1..];
      SortedCons(s[0], rest, key);
      [s[0]] + rest
    else
      SortedCons(x, s, key);
      [x] + s
  }

  lemma SortedCons<T>(h: T, t: seq<T>, key: T -> real)
    requires SortedDesc(t, key) && (t != [] ==> key(h) >= key(t[0]))
    ensures SortedDesc([h] + t, key)
  {
    var r := [h] + t;
    forall i, j | 0 <= i < j < |r|
      ensures key(r[i]) >= key(r[j])
    {
      if i == 0 {
        assert key(h) >= key(t[0]) >= key(t[j - 1]);
      } else {
        assert r[i] == t[i - 1] && r[j] == t[j - 1];
      }
    }
  }

  function SortDesc<T>(s: seq<T>, key: T -> real): (r: seq<T>)
    ensures SortedDesc(r, key)
    ensures multiset(r) == multiset(s)
    ensures |r| == |s|
  {
    if s == [] then []
    else
      assert s == s[..|s| - 1] + [s[|s| - 1]];
      Insert(s[|s| - 1], SortDesc(s[..|s| - 1], key), key)
  }

  lemma {:induction false} TiesConcat<T>(a: seq<T>, b: seq<T>, key: T -> real, v: real)
    ensures Ties(a + b, key, v) == Ties(a, key, v) + Ties(b, key, v)
  {
    if a == [] {
      assert a + b == b;
    } else {
      var ab := a + b;
      assert ab[0] == a[0];
      assert ab[1..] == a[1..] + b;
      assert Ties(ab, key, v) == (if key(a[0]) == v then [a[0]] else []) + Ties(a[1..] + b, key, v);
      TiesConcat(a[1..], b, key, v);
      assert Ties(a, key, v) == (if key(a[0]) == v then [a[0]] else []) + Ties(a[1..], key, v);
    }
  }

  lemma {:induction false} NoTies<T>(s: seq<T>, key: T -> real, v: real)
    requires forall i :: 0 <= i < |s| ==> key(s[i]) != v
    ensures Ties(s, key, v) == []
  {
    if s != [] {
      NoTies(s[1..], key, v);
    }
  }

  lemma TiesCons<T>(h: T, t: seq<T>, key: T -> real, v: real)
    ensures Ties([h] + t, key, v) == (if key(h) == v then [h] else []) + Ties(t, key, v)
  {
    assert ([h] + t)[1..] == t;
  }

  lemma {:induction false} InsertTies<T>(x: T, s: seq<T>, key: T -> real, v: real)
    requires SortedDesc(s, key)
    ensures Ties(Insert(x, s, key), key, v) == Ties(s, key, v) + (if key(x) == v then [x] else [])
  {
    if s == [] {
      assert Insert(x, s, key) == [x] + s;
      TiesCons(x, s, key, v);
    } else if key(s[0]) >= key(x) {
      InsertTies(x, s[1..], key, v);
      InsertTiesPast(x, s, key, v);
    } else {
      assert Insert(x, s, key) == [x] + s;
      TiesCons(x, s, key, v);
      if key(x) == v {
        forall i | 0 <= i < |s|
          ensures key(s[i]) != v
        {
          assert key(s[0]) >= key(s[i]);
        }
        NoTies(s, key, v);
      }
    }
  }

  lemma ConcatAssoc<T>(a: seq<T>, b: seq<T>, c: seq<T>)
    ensures a + (b + c) == (a + b) + c
  {
  }

  /** The step of InsertTies where `x` goes past the head of `s`. */
  lemma InsertTiesPast<T>(x: T, s: seq<T>, key: T -> real, v: real)
    requires SortedDesc(s, key) && s != [] && key(s[0]) >= key(x)
    requires Ties(Insert(x, s[1..], key), key, v) == Ties(s[1..], key, v) + (if key(x) == v then [x] else [])
    ensures Ties(Insert(x, s, key), key, v) == Ties(s, key, v) + (if key(x) == v then [x] else [])
  {
    var tx: seq<T> := if key(x) == v then [x] else [];
    var t0: seq<T> := if key(s[0]) == v then [s[0]] else [];
    var rest := Insert(x, s[1..], key);
    assert Insert(x, s, key) == [s[0]] + rest;
    TiesCons(s[0], rest, key, v);
    assert Ties(s, key, v) == t0 + Ties(s[1..], key, v);
    ConcatAssoc(t0, Ties(s[1..], key, v), tx);
  }

  /** Stability: among equal keys the sort keeps the input order. */
  lemma {:induction false} SortDescStable<T>(s: seq<T>, key: T -> real, v: real)
    ensures Ties(SortDesc(s, key), key, v) == Ties(s, key, v)
  {
    if s != [] {
      var init, last := s[..|s| - 1], s[|s| - 1];
      var tl: seq<T> := if key(last) == v then [last] else [];
      var sortedInit := SortDesc(init, key);
      calc {
        Ties(SortDesc(s, key), key, v);
        Ties(Insert(last, sortedInit, key), key, v);
        { InsertTies(last, sortedInit, key, v); }
        Ties(sortedInit, key, v) + tl;
        { SortDescStable(init, key, v); }
        Ties(init, key, v) + tl;
        { TiesCons(last, [], key, v); assert [last] + [] == [last]; }
        Ties(init, key, v) + Ties([last], key, v);
        { TiesConcat(init, [last], key, v); }
        Ties(init + [last], key, v);
        { assert s == init + [last]; }
        Ties(s, key, v);
      }
    }
  }

  lemma {:induction false} InsertDistinctBy<T, K>(x: T, s: seq<T>, key: T -> real, proj: T -> K)
    requires SortedDesc(s, key) && DistinctBy(s, proj)
    requires forall y :: y in s ==> proj(y) != proj(x)
    ensures DistinctBy(Insert(x, s, key), proj)
  {
    if s != [] && key(s[0]) >= key(x) {
      var rest := Insert(x, s[1..], key);
      assert s == [s[0]] + s[1..];
      InsertDistinctBy(x, s[1..], key, proj);
      forall j | 0 <= j < |rest|
        ensures proj(rest[j]) != proj(s[0])
      {
        assert rest[j] in multiset(rest);
        if rest[j] != x {
          assert rest[j] in multiset(s[1..]);
          var k :| 0 <= k < |s[1..]| && s[1..][k] == rest[j];
          assert s[k + 1] == rest[j];
        }
      }
      assert Insert(x, s, key) == [s[0]] + rest;
    }
  }

  /** Sorting never makes two elements indistinguishable. */
  lemma {:induction false} SortDescDistinctBy<T, K>(s: seq<T>, key: T -> real, proj: T -> K)
    requires DistinctBy(s, proj)
    ensures DistinctBy(SortDesc(s, key), proj)
  {
    if s != [] {
      var init, last := s[..|s| - 1], s[|s| - 1];
      SortDescDistinctBy(init, key, proj);
      forall y | y in SortDesc(init, key)
        ensures proj(y) != proj(last)
      {
        assert y in multiset(SortDesc(init, key));
        var i :| 0 <= i < |init| && init[i] == y;
        assert s[i] == y;
      }
      InsertDistinctBy(last, SortDesc(init, key), key, proj);
    }
  }
}
