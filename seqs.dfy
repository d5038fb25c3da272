/**
 * Sequence operations that stand for the store's query primitives: a find-filter
 * (`Filter`), `count_documents` (`Count`), the first match `update_one`, `delete_one` and
 * `find_one` act on (`FirstIndex`), and `to_list(1000)` (`Cap`).
 */
module Seqs {
  import opened Wrappers

  /** The length argument of every `to_list` call. */
  const MaxList: nat := 1000

  function Min(a: nat, b: nat): nat {
    if a <= b then a else b
  }

  /** The elements satisfying `p`, in their order in `s`. */
  function Filter<T>(s: seq<T>, p: T -> bool): (r: seq<T>)
    ensures |r| <= |s|
    ensures forall i :: 0 <= i < |r| ==> r[i] in s && p(r[i])
    ensures forall i :: 0 <= i < |s| && p(s[i]) ==> s[i] in r
    ensures multiset(r) <= multiset(s)
  {
    if s == [] then []
    else
      assert s == [s[0]] + s[1..];
      if p(s[0]) then [s[0]] + Filter(s[1..], p) else Filter(s[1..], p)
  }

  /** The number of elements satisfying `p`: the store's `count_documents`. */
  function Count<T>(s: seq<T>, p: T -> bool): nat {
    |Filter(s, p)|
  }

  /** Python's `to_list(1000)`: at most the first `MaxList` results. */
  function Cap<T>(s: seq<T>): seq<T> {
    s[..Min(|s|, MaxList)]
  }

  /** The position of the first element satisfying `p`, if any. */
  function FirstIndex<T>(s: seq<T>, p: T -> bool): (r: Option<nat>)
    ensures r.Some? ==> r.value < |s| && p(s[r.value])
    ensures r.Some? ==> forall j :: 0 <= j < r.value ==> !p(s[j])
    ensures r.None? <==> forall j :: 0 <= j < |s| ==> !p(s[j])
  {
    if s == [] then None
    else if p(s[0]) then Some(0)
    else match FirstIndex(s[1..], p)
      case None => None
      case Some(i) => Some(i + 1)
  }

  /** `s` without the element at `k`. */
  function RemoveAt<T>(s: seq<T>, k: nat): seq<T>
    requires k < |s|
  {
    s[..k] + s[k + 1..]
  }

  function Indicator(b: bool): nat {
    if b then 1 else 0
  }

  lemma {:induction false} FilterConcat<T>(a: seq<T>, b: seq<T>, p: T -> bool)
    ensures Filter(a + b, p) == Filter(a, p) + Filter(b, p)
  {
    if a == [] {
      assert a + b == b;
    } else {
      var c := a + b;
      assert c[0] == a[0] && c[1..] == a[1..] + b;
      FilterConcat(a[1..], b, p);
      var fa, fb := Filter(a[1..], p), Filter(b, p);
      if p(a[0]) {
        calc {
          Filter(c, p);
          [a[0]] + Filter(a[1..] + b, p);
          [a[0]] + (fa + fb);
          ([a[0]] + fa) + fb;
        }
      } else {
        calc {
          Filter(c, p);
          Filter(a[1..] + b, p);
          fa + fb;
        }
      }
    }
  }

  /** Filtering with two predicates that agree on every element gives the same result. */
  lemma {:induction false} FilterExt<T>(s: seq<T>, p: T -> bool, q: T -> bool)
    requires forall i :: 0 <= i < |s| ==> p(s[i]) == q(s[i])
    ensures Filter(s, p) == Filter(s, q)
  {
    if s != [] {
      FilterExt(s[1..], p, q);
    }
  }

  lemma {:induction false} FilterNone<T>(s: seq<T>, p: T -> bool)
    requires forall i :: 0 <= i < |s| ==> !p(s[i])
    ensures Filter(s, p) == []
  {
    if s != [] {
      FilterNone(s[1..], p);
    }
  }

  lemma CountAppend<T>(s: seq<T>, x: T, p: T -> bool)
    ensures Count(s + [x], p) == Count(s, p) + Indicator(p(x))
  {
    FilterConcat(s, [x], p);
  }

  /** Replacing one element changes a count only by what the two elements contribute. */
  lemma CountUpdate<T>(s: seq<T>, k: nat, x: T, p: T -> bool)
    requires k < |s|
    ensures Count(s[k := x], p) + Indicator(p(s[k])) == Count(s, p) + Indicator(p(x))
  {
    assert s == s[..k] + [s[k]] + s[k + 1..];
    assert s[k := x] == s[..k] + [x] + s[k + 1..];
    FilterConcat(s[..k] + [s[k]], s[k + 1..], p);
    FilterConcat(s[..k], [s[k]], p);
    FilterConcat(s[..k] + [x], s[k + 1..], p);
    FilterConcat(s[..k], [x], p);
  }

  lemma CountRemove<T>(s: seq<T>, k: nat, p: T -> bool)
    requires k < |s|
    ensures Count(RemoveAt(s, k), p) + Indicator(p(s[k])) == Count(s, p)
  {
    assert s == s[..k] + [s[k]] + s[k + 1..];
    FilterConcat(s[..k] + [s[k]], s[k + 1..], p);
    FilterConcat(s[..k], [s[k]], p);
    FilterConcat(s[..k], s[k + 1..], p);
  }

  /**
   * A capped filter (`find(filter).to_list(1000)`) holds only matching elements of `s`,
   * and every match when no more than `MaxList` elements match.
   */
  lemma CappedFilterSpec<T>(s: seq<T>, p: T -> bool)
    ensures var r := Cap(Filter(s, p));
      && |r| == Min(Count(s, p), MaxList)
      && (forall i :: 0 <= i < |r| ==> r[i] in s && p(r[i]))
      && multiset(r) <= multiset(s)
      && (exists j :: 0 <= j <= |s| && r == Filter(s[..j], p))
      && (Count(s, p) <= MaxList ==> forall k :: 0 <= k < |s| && p(s[k]) ==> s[k] in r)
  {
    var f := Filter(s, p);
    var r := Cap(f);
    forall i | 0 <= i < |r| ensures r[i] in s && p(r[i]) {
      assert r[i] == f[i];
    }
    assert f == r + f[|r|..];
    FilterPrefixOf(s, p, |r|);
  }

  /**
   * The first `n` matches of `s` are the matches of some prefix of `s`: taking the first
   * `n` results of a filter keeps the earliest matching elements in store order.
   */
  lemma {:induction false} FilterPrefixOf<T>(s: seq<T>, p: T -> bool, n: nat)
    requires n <= |Filter(s, p)|
    ensures exists j :: 0 <= j <= |s| && Filter(s[..j], p) == Filter(s, p)[..n]
  {
    if n == 0 {
      assert Filter(s[..0], p) == Filter(s, p)[..0];
    } else {
      var t := s[1..];
      var m := if p(s[0]) then n - 1 else n;
      FilterStep(s, p);
      FilterPrefixOf(t, p, m);
      var j :| 0 <= j <= |t| && Filter(t[..j], p) == Filter(t, p)[..m];
      PrefixStep(s, p, j, m);
    }
  }

  /** One step of the filter's recursion, stated on the head and tail. */
  lemma FilterStep<T>(s: seq<T>, p: T -> bool)
    requires s != []
    ensures Filter(s, p) == (if p(s[0]) then [s[0]] + Filter(s[1..], p) else Filter(s[1..], p))
  {
  }

  /** Extending a prefix of the tail by the head extends its matches by the head's. */
  lemma PrefixStep<T>(s: seq<T>, p: T -> bool, j: nat, m: nat)
    requires s != [] && j <= |s| - 1 && m <= |Filter(s[1..], p)|
    requires Filter(s[1..][..j], p) == Filter(s[1..], p)[..m]
    ensures Filter(s[..j + 1], p) == Filter(s, p)[..(if p(s[0]) then m + 1 else m)]
  {
    var t, u := s[1..], s[..j + 1];
    var ft := Filter(t, p);
    assert u[0] == s[0] && u[1..] == t[..j];
    FilterStep(u, p);
    FilterStep(s, p);
    if p(s[0]) {
      calc {
        Filter(u, p);
        [s[0]] + Filter(t[..j], p);
        [s[0]] + ft[..m];
        { assert ([s[0]] + ft)[..m + 1] == [s[0]] + ft[..m]; }
        ([s[0]] + ft)[..m + 1];
      }
    } else {
      assert Filter(u, p) == Filter(t[..j], p);
    }
  }
}
