/**
 * Sequence operations shared by the two document collections: a filtered
 * query, the position of the first match, and Mongo's delete-one, which
 * removes the first document (in store order) that matches its filter.
 */
module Seqs {

  /** The elements of `s` that satisfy `p`, in store order. */
  function Filter<T>(s: seq<T>, p: T -> bool): (r: seq<T>)
    ensures |r| <= |s|
    ensures forall i :: 0 <= i < |r| ==> r[i] in s && p(r[i])
    ensures forall i :: 0 <= i < |s| && p(s[i]) ==> s[i] in r
  {
    if s == [] then []
    else if p(s[0]) then [s[0]] + Filter(s[1..], p)
    else Filter(s[1..], p)
  }

  /** Index of the first element satisfying `p`, or |s| when none does. */
  function FirstIndex<T>(s: seq<T>, p: T -> bool): (k: nat)
    ensures k <= |s|
    ensures k < |s| ==> p(s[k])
    ensures forall j :: 0 <= j < k ==> !p(s[j])
  {
    if s == [] then 0
    else if p(s[0]) then 0
    else 1 + FirstIndex(s[1..], p)
  }

  /** Removes the first element satisfying `p`; leaves `s` as it is when none does. */
  function RemoveFirst<T>(s: seq<T>, p: T -> bool): (r: seq<T>)
    ensures var k := FirstIndex(s, p);
      r == if k == |s| then s else s[..k] + s[k + 1..]
  {
    if s == [] then []
    else if p(s[0]) then s[1..]
    else
      var k := FirstIndex(s[1..], p);
      assert k < |s| - 1 ==> [s[0]] + (s[1..][..k] + s[1..][k + 1..]) == s[..k + 1] + s[k + 2..];
      [s[0]] + RemoveFirst(s[1..], p)
  }

  lemma {:induction false} FilterAppend<T>(a: seq<T>, b: seq<T>, p: T -> bool)
    ensures Filter(a + b, p) == Filter(a, p) + Filter(b, p)
  {
    if a == [] {
      assert a + b == b;
    } else {
      assert (a + b)[1..] == a[1..] + b;
      FilterAppend(a[1..], b, p);
    }
  }

  /** The filter keeps every matching element as many times as it occurs, and nothing else. */
  lemma {:induction false} FilterCounts<T>(s: seq<T>, p: T -> bool)
    ensures forall x :: multiset(Filter(s, p))[x] == if p(x) then multiset(s)[x] else 0
  {
    if s != [] {
      FilterCounts(s[1..], p);
      assert s == [s[0]] + s[1..];
    }
  }

  /** A filter that matches nothing in `s` yields the empty sequence, and conversely. */
  lemma FilterNone<T>(s: seq<T>, p: T -> bool)
    ensures Filter(s, p) == [] <==> forall i :: 0 <= i < |s| ==> !p(s[i])
  {
    if Filter(s, p) != [] {
      assert Filter(s, p)[0] in s;
    }
    if exists i :: 0 <= i < |s| && p(s[i]) {
      var i :| 0 <= i < |s| && p(s[i]);
      assert s[i] in Filter(s, p);
    }
  }

  /** Removing the first match removes exactly the first element of the filtered query. */
  lemma {:induction false} FilterRemoveFirst<T>(s: seq<T>, p: T -> bool)
    ensures Filter(RemoveFirst(s, p), p) == if Filter(s, p) == [] then [] else Filter(s, p)[1..]
  {
    if s != [] && !p(s[0]) {
      assert ([s[0]] + RemoveFirst(s[1..], p))[1..] == RemoveFirst(s[1..], p);
      FilterRemoveFirst(s[1..], p);
    } else if s != [] {
      assert RemoveFirst(s, p) == s[1..];
    }
  }

  /** Removing the first `p`-match leaves every element that satisfies a disjoint `q`. */
  lemma {:induction false} FilterRemoveFirstDisjoint<T>(s: seq<T>, p: T -> bool, q: T -> bool)
    requires forall x :: q(x) ==> !p(x)
    ensures Filter(RemoveFirst(s, p), q) == Filter(s, q)
  {
    if s != [] && !p(s[0]) {
      assert ([s[0]] + RemoveFirst(s[1..], p))[1..] == RemoveFirst(s[1..], p);
      FilterRemoveFirstDisjoint(s[1..], p, q);
    } else if s != [] {
      assert RemoveFirst(s, p) == s[1..];
    }
  }

  /** Replacing an element by one that, like it, fails `p` does not change the filter. */
  lemma FilterReplaceOther<T>(s: seq<T>, p: T -> bool, k: nat, x: T)
    requires k < |s| && !p(s[k]) && !p(x)
    ensures Filter(s[k := x], p) == Filter(s, p)
  {
    assert s == s[..k] + [s[k]] + s[k + 1..];
    assert s[k := x] == s[..k] + [x] + s[k + 1..];
    FilterAppend(s[..k] + [s[k]], s[k + 1..], p);
    FilterAppend(s[..k], [s[k]], p);
    FilterAppend(s[..k] + [x], s[k + 1..], p);
    FilterAppend(s[..k], [x], p);
  }

  /** Replacing the only `p`-match by another `p`-element makes it the only match. */
  lemma FilterReplaceOnly<T>(s: seq<T>, p: T -> bool, k: nat, x: T)
    requires k < |s| && p(s[k]) && p(x)
    requires forall j :: 0 <= j < |s| && j != k ==> !p(s[j])
    ensures Filter(s[k := x], p) == [x]
  {
    assert s[k := x] == s[..k] + [x] + s[k + 1..];
    FilterAppend(s[..k] + [x], s[k + 1..], p);
    FilterAppend(s[..k], [x], p);
    FilterNone(s[..k], p);
    FilterNone(s[k + 1..], p);
  }
}
