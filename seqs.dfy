/** The array built-ins the handlers and views lean on: findIndex, filter, Math.max and splice. */
module Seqs {

  /** `k` is the index of the first element of `s` satisfying `p`. */
  predicate IsFirst<T>(s: seq<T>, p: T -> bool, k: int) {
    0 <= k < |s| && p(s[k]) && forall j :: 0 <= j < k ==> !p(s[j])
  }

  /** `s.findIndex(p)`: the index of the first element satisfying `p`, or -1. */
  function FirstIndex<T>(s: seq<T>, p: T -> bool): (r: int)
    ensures -1 <= r < |s|
    ensures r == -1 <==> forall k :: 0 <= k < |s| ==> !p(s[k])
    ensures r >= 0 ==> IsFirst(s, p, r)
  {
    if |s| == 0 then -1
    else if p(s[0]) then 0
    else
      var r := FirstIndex(s[1..], p);
      if r == -1 then -1 else r + 1
  }

  /** `s.filter(p)`: the elements satisfying `p`, in their original order. */
  function Filter<T>(s: seq<T>, p: T -> bool): (r: seq<T>)
    ensures |r| <= |s|
    ensures forall k :: 0 <= k < |r| ==> p(r[k]) && r[k] in s
  {
    if |s| == 0 then []
    else if p(s[0]) then [s[0]] + Filter(s[1..], p)
    else Filter(s[1..], p)
  }

  /** Filtering distributes over concatenation: it keeps the relative order of what it keeps. */
  lemma {:induction false} FilterConcat<T>(a: seq<T>, b: seq<T>, p: T -> bool)
    ensures Filter(a + b, p) == Filter(a, p) + Filter(b, p)
  {
    if |a| == 0 {
      assert a + b == b;
    } else {
      assert (a + b)[1..] == a[1..] + b;
      FilterConcat(a[1..], b, p);
    }
  }

  /** Filtering keeps every element satisfying `p` as often as it occurs, and drops every other. */
  lemma {:induction false} FilterCount<T>(s: seq<T>, p: T -> bool, x: T)
    ensures multiset(Filter(s, p))[x] == if p(x) then multiset(s)[x] else 0
  {
    if |s| > 0 {
      assert s == [s[0]] + s[1..];
      FilterCount(s[1..], p, x);
    }
  }

  /** An element is kept exactly when it occurs in the input and satisfies `p`. */
  lemma FilterMembership<T>(s: seq<T>, p: T -> bool, x: T)
    ensures x in Filter(s, p) <==> x in s && p(x)
  {
    FilterCount(s, p, x);
    assert x in multiset(Filter(s, p)) <==> x in Filter(s, p);
  }

  /** Two filters with predicates that never hold together select at most |s| elements between them. */
  lemma {:induction false} FilterDisjointLength<T>(s: seq<T>, p: T -> bool, q: T -> bool)
    requires forall k :: 0 <= k < |s| ==> !(p(s[k]) && q(s[k]))
    ensures |Filter(s, p)| + |Filter(s, q)| <= |s|
  {
    if |s| > 0 {
      FilterDisjointLength(s[1..], p, q);
    }
  }

  /** Filters of two permutations of each other are permutations of each other. */
  lemma FilterPermutation<T>(a: seq<T>, b: seq<T>, p: T -> bool)
    requires multiset(a) == multiset(b)
    ensures multiset(Filter(a, p)) == multiset(Filter(b, p))
    ensures |Filter(a, p)| == |Filter(b, p)|
  {
    forall x ensures multiset(Filter(a, p))[x] == multiset(Filter(b, p))[x] {
      FilterCount(a, p, x);
      FilterCount(b, p, x);
    }
    assert multiset(Filter(a, p)) == multiset(Filter(b, p));
    assert |multiset(Filter(a, p))| == |multiset(Filter(b, p))|;
  }

  /** `Math.max(...xs)` for a non-empty list. */
  function MaxOf(xs: seq<int>): (r: int)
    requires |xs| > 0
    ensures r in xs
    ensures forall k :: 0 <= k < |xs| ==> xs[k] <= r
  {
    if |xs| == 1 then xs[0]
    else
      var m := MaxOf(xs[1..]);
      if xs[0] > m then xs[0] else m
  }

  /** `xs.length > 0 ? Math.max(...xs) + 1 : 1`: the id given to a new record. */
  function NextId(xs: seq<int>): (r: int)
    ensures forall k :: 0 <= k < |xs| ==> xs[k] < r
    ensures |xs| == 0 ==> r == 1
    ensures |xs| > 0 ==> r - 1 in xs
  {
    if |xs| > 0 then MaxOf(xs) + 1 else 1
  }

  /** No value occurs twice. */
  predicate Distinct(xs: seq<int>) {
    forall i, j :: 0 <= i < j < |xs| ==> xs[i] != xs[j]
  }

  /** Dropping one element keeps the values distinct, and the dropped value no longer occurs. */
  lemma DistinctRemove(xs: seq<int>, i: int)
    requires 0 <= i < |xs| && Distinct(xs)
    ensures Distinct(Remove(xs, i))
    ensures xs[i] !in Remove(xs, i)
  {
    var r := Remove(xs, i);
    forall a, b | 0 <= a < b < |r| ensures r[a] != r[b] {
      var a' := if a < i then a else a + 1;
      var b' := if b < i then b else b + 1;
      assert r[a] == xs[a'] && r[b] == xs[b'] && a' < b';
    }
  }

  /** Removing the largest of distinct values: before, the next id is one past it; after, the next
      id no longer exceeds it (while other values remain), and it equals the removed value exactly
      when the value below it remains or nothing remains of an id list that was `[1]`. */
  lemma RemoveLargestLowersNextId(xs: seq<int>, i: int)
    requires 0 <= i < |xs| && Distinct(xs)
    requires forall k :: 0 <= k < |xs| ==> xs[k] <= xs[i]
    ensures NextId(xs) == xs[i] + 1
    ensures |xs| > 1 ==> NextId(Remove(xs, i)) <= xs[i]
    ensures NextId(Remove(xs, i)) == xs[i] <==> xs[i] - 1 in Remove(xs, i) || (|xs| == 1 && xs[i] == 1)
  {
    var r := Remove(xs, i);
    DistinctRemove(xs, i);
    forall k | 0 <= k < |r| ensures r[k] < xs[i] {
      assert r[k] == xs[if k < i then k else k + 1];
    }
    if |r| > 0 {
      var n := NextId(r);
      assert n - 1 in r;
      var j :| 0 <= j < |r| && r[j] == n - 1;
      assert r[j] < xs[i];
    }
  }

  /** `s.splice(i, 1)`: drop the element at `i`, keeping the others in order. */
  function Remove<T>(s: seq<T>, i: int): (r: seq<T>)
    requires 0 <= i < |s|
    ensures |r| == |s| - 1
    ensures forall k :: 0 <= k < i ==> r[k] == s[k]
    ensures forall k :: i <= k < |r| ==> r[k] == s[k + 1]
  {
    s[..i] + s[i + 1..]
  }

  /** Removal drops exactly one occurrence of the removed element. */
  lemma RemoveMultiset<T>(s: seq<T>, i: int)
    requires 0 <= i < |s|
    ensures multiset(Remove(s, i)) + multiset{s[i]} == multiset(s)
  {
    assert s == s[..i] + [s[i]] + s[i + 1..];
  }
}
