/**
 * Sorting query results on one string field, ascending (`sort(key, 1)`) or descending
 * (`sort(key, -1)`), and the cap applied after the sort.
 */
module Sorting {
  import opened Strings
  import opened Seqs

  /** `a` may precede `b` in a result sorted on `key`, descending when `desc`. */
  predicate Before<T>(key: T -> string, desc: bool, a: T, b: T) {
    if desc then StrLe(key(b), key(a)) else StrLe(key(a), key(b))
  }

  predicate SortedOn<T>(s: seq<T>, key: T -> string, desc: bool) {
    forall i, j :: 0 <= i < j < |s| ==> Before(key, desc, s[i], s[j])
  }

  lemma BeforeTotal<T>(key: T -> string, desc: bool, a: T, b: T)
    ensures Before(key, desc, a, b) || Before(key, desc, b, a)
  {
    StrLeTotal(key(a), key(b));
  }

  lemma BeforeTrans<T>(key: T -> string, desc: bool, a: T, b: T, c: T)
    requires Before(key, desc, a, b) && Before(key, desc, b, c)
    ensures Before(key, desc, a, c)
  {
    if desc {
      StrLeTrans(key(c), key(b), key(a));
    } else {
      StrLeTrans(key(a), key(b), key(c));
    }
  }

  /** Inserts `x` in front of the first element it may precede. */
  function Insert<T>(x: T, s: seq<T>, key: T -> string, desc: bool): (r: seq<T>)
    ensures |r| == |s| + 1
    ensures multiset(r) == multiset(s) + multiset{x}
  {
    if s == [] then [x]
    else if Before(key, desc, x, s[0]) then [x] + s
    else
      assert s == [s[0]] + s[1..];
      [s[0]] + Insert(x, s[1..], key, desc)
  }

  /** Insertion sort: stable, so equal keys keep their store order. */
  function SortOn<T>(s: seq<T>, key: T -> string, desc: bool): (r: seq<T>)
    ensures |r| == |s|
    ensures multiset(r) == multiset(s)
  {
    if s == [] then []
    else
      assert s == [s[0]] + s[1..];
      Insert(s[0], SortOn(s[1..], key, desc), key, desc)
  }

  lemma {:induction false} InsertSorted<T>(x: T, s: seq<T>, key: T -> string, desc: bool)
    requires SortedOn(s, key, desc)
    ensures SortedOn(Insert(x, s, key, desc), key, desc)
  {
    if s == [] {
    } else if Before(key, desc, x, s[0]) {
      var r := [x] + s;
      forall i, j | 0 <= i < j < |r| ensures Before(key, desc, r[i], r[j]) {
        if i == 0 && j > 1 {
          BeforeTrans(key, desc, x, s[0], s[j - 1]);
        }
      }
    } else {
      BeforeTotal(key, desc, x, s[0]);
      var t := Insert(x, s[1..], key, desc);
      InsertSorted(x, s[1..], key, desc);
      assert SortedOn(s[1..], key, desc) by {
        forall i, j | 0 <= i < j < |s[1..]| ensures Before(key, desc, s[1..][i], s[1..][j]) {
          assert s[1..][i] == s[i + 1] && s[1..][j] == s[j + 1];
        }
      }
      var r := [s[0]] + t;
      forall i, j | 0 <= i < j < |r| ensures Before(key, desc, r[i], r[j]) {
        if i == 0 {
          var y := t[j - 1];
          assert y in multiset(t);
          assert y in multiset(s[1..]) + multiset{x};
          if y != x {
            assert y in s[1..];
            var m :| 0 <= m < |s[1..]| && s[1..][m] == y;
            assert s[m + 1] == y;
          }
        }
      }
    }
  }

  lemma {:induction false} SortSorted<T>(s: seq<T>, key: T -> string, desc: bool)
    ensures SortedOn(SortOn(s, key, desc), key, desc)
  {
    if s != [] {
      SortSorted(s[1..], key, desc);
      InsertSorted(s[0], SortOn(s[1..], key, desc), key, desc);
    }
  }

  /** In a sorted sequence, every element at or past position `n` comes after those before it. */
  lemma SortedTail<T>(t: seq<T>, key: T -> string, desc: bool, n: nat, x: T)
    requires SortedOn(t, key, desc) && n <= |t| && x in t[n..]
    ensures forall i :: 0 <= i < n ==> Before(key, desc, t[i], x)
  {
    var m :| 0 <= m < |t[n..]| && t[n..][m] == x;
    assert t[n + m] == x;
  }

  /**
   * A sorted and capped result: in order, at most `MaxList` long, drawn from `s`, all of
   * `s` when it fits, and every element that did not fit comes no earlier in the order
   * than any element kept.
   */
  lemma {:induction false} SortCapSpec<T>(s: seq<T>, key: T -> string, desc: bool)
    ensures var r := Cap(SortOn(s, key, desc));
      && |r| == Min(|s|, MaxList)
      && SortedOn(r, key, desc)
      && multiset(r) <= multiset(s)
      && (|s| <= MaxList ==> multiset(r) == multiset(s))
      && (forall x :: x in multiset(s) - multiset(r) ==>
            forall i :: 0 <= i < |r| ==> Before(key, desc, r[i], x))
  {
    var t := SortOn(s, key, desc);
    SortSorted(s, key, desc);
    CapOfSorted(t, key, desc);
  }

  lemma CapOfSorted<T>(t: seq<T>, key: T -> string, desc: bool)
    requires SortedOn(t, key, desc)
    ensures var r := Cap(t);
      && SortedOn(r, key, desc)
      && multiset(r) <= multiset(t)
      && (|t| <= MaxList ==> r == t)
      && (forall x :: x in multiset(t) - multiset(r) ==>
            forall i :: 0 <= i < |r| ==> Before(key, desc, r[i], x))
  {
    var n := Min(|t|, MaxList);
    var r := t[..n];
    assert t == r + t[n..];
    assert multiset(t) == multiset(r) + multiset(t[n..]);
    forall x | x in multiset(t) - multiset(r)
      ensures forall i :: 0 <= i < |r| ==> Before(key, desc, r[i], x)
    {
      assert x in multiset(t[n..]);
      SortedTail(t, key, desc, n, x);
    }
  }

  /**
   * A filtered, sorted and capped listing of `s`: as long as the number of matches allows
   * up to `MaxList`, every element a match from `s`, in order, every match left out no
   * earlier in the order than anything kept, and every match present when they all fit.
   */
  lemma SortedListSpec<T>(s: seq<T>, p: T -> bool, key: T -> string, desc: bool)
    ensures var r := Cap(SortOn(Filter(s, p), key, desc));
      && |r| == Min(Count(s, p), MaxList)
      && multiset(r) <= multiset(s)
      && (forall i :: 0 <= i < |r| ==> r[i] in s && p(r[i]))
      && SortedOn(r, key, desc)
      && (forall k :: 0 <= k < |s| && p(s[k]) && s[k] !in r ==>
            forall i :: 0 <= i < |r| ==> Before(key, desc, r[i], s[k]))
      && (Count(s, p) <= MaxList ==> forall k :: 0 <= k < |s| && p(s[k]) ==> s[k] in r)
  {
    var f := Filter(s, p);
    var r := Cap(SortOn(f, key, desc));
    SortCapSpec(f, key, desc);
    forall i | 0 <= i < |r| ensures r[i] in s && p(r[i]) {
      assert r[i] in multiset(r);
      assert r[i] in multiset(f);
      assert r[i] in f;
      var m :| 0 <= m < |f| && f[m] == r[i];
    }
    forall k | 0 <= k < |s| && p(s[k]) && s[k] !in r
      ensures forall i :: 0 <= i < |r| ==> Before(key, desc, r[i], s[k])
    {
      assert s[k] in multiset(f);
      assert multiset(r)[s[k]] == 0;
      assert s[k] in multiset(f) - multiset(r);
    }
    if Count(s, p) <= MaxList {
      forall k | 0 <= k < |s| && p(s[k]) ensures s[k] in r {
        assert s[k] in multiset(f);
      }
    }
  }
}
