/** Order statistics over cost vectors and the index sort that reorders the
    simplex: `np.argsort` followed by `np.take`. */
module Sorting {

  predicate Sorted(s: seq<real>)
  {
    forall i, j :: 0 <= i <= j < |s| ==> s[i] <= s[j]
  }

  /** Smallest element (a left-to-right scan). */
  function MinOf(s: seq<real>): (m: real)
    requires |s| > 0
    ensures m in s
    ensures forall i :: 0 <= i < |s| ==> m <= s[i]
  {
    if |s| == 1 then s[0]
    else
      var rest := MinOf(s[1..]);
      if s[0] <= rest then s[0] else rest
  }

  /** Largest element, as `np.max` computes it. */
  function MaxOf(s: seq<real>): (m: real)
    requires |s| > 0
    ensures m in s
    ensures forall i :: 0 <= i < |s| ==> s[i] <= m
  {
    if |s| == 1 then s[0]
    else
      var rest := MaxOf(s[1..]);
      if rest <= s[0] then s[0] else rest
  }

  /** `np.max(s) < t` holds exactly when every element is below t. */
  lemma MaxBelow(s: seq<real>, t: real)
    requires |s| > 0
    ensures MaxOf(s) < t <==> forall i :: 0 <= i < |s| ==> s[i] < t
  {
    var k := IndexOf(s, MaxOf(s));
  }

  lemma MinOfAppend(a: seq<real>, b: seq<real>)
    requires |a| > 0 && |b| > 0
    ensures MinOf(a + b) == if MinOf(a) <= MinOf(b) then MinOf(a) else MinOf(b)
  {
    var s := a + b;
    var ma, mb := MinOf(a), MinOf(b);
    var c := if ma <= mb then ma else mb;
    forall i | 0 <= i < |s|
      ensures c <= s[i]
    {
      if i < |a| {
        assert s[i] == a[i];
      } else {
        assert s[i] == b[i - |a|];
      }
    }
    var ic := if ma <= mb then IndexOf(a, ma) else |a| + IndexOf(b, mb);
    assert s[ic] == c;
    var k := IndexOf(s, MinOf(s));
    assert MinOf(s) <= s[ic] && c <= s[k];
  }

  /** A position where x occurs. */
  function IndexOf(s: seq<real>, x: real): (k: nat)
    requires x in s
    ensures k < |s| && s[k] == x
  {
    if s[0] == x then 0 else 1 + IndexOf(s[1..], x)
  }

  /** Sequences with the same elements have the same minimum. */
  lemma MinOfMultiset(a: seq<real>, b: seq<real>)
    requires |a| > 0 && multiset(a) == multiset(b)
    ensures |b| > 0 && MinOf(a) == MinOf(b)
  {
    assert a[0] in multiset(b);
    assert MinOf(a) in multiset(b) && MinOf(b) in multiset(a);
    var i, j := IndexOf(b, MinOf(a)), IndexOf(a, MinOf(b));
  }

  /** The elements of s picked at the positions listed in p: `np.take`. */
  function Take<T>(s: seq<T>, p: seq<nat>): (r: seq<T>)
    requires forall k :: 0 <= k < |p| ==> p[k] < |s|
    ensures |r| == |p|
    ensures forall k :: 0 <= k < |p| ==> r[k] == s[p[k]]
  {
    seq(|p|, k requires 0 <= k < |p| => s[p[k]])
  }

  function Range(n: nat): (r: seq<nat>)
    ensures |r| == n
    ensures forall k :: 0 <= k < n ==> r[k] == k
  {
    seq(n, k => k)
  }

  /** p lists positions of c in order of non-decreasing cost. */
  predicate SortsBy(c: seq<real>, p: seq<nat>)
  {
    && (forall k :: 0 <= k < |p| ==> p[k] < |c|)
    && (forall k, l :: 0 <= k <= l < |p| ==> c[p[k]] <= c[p[l]])
  }

  /** Inserts position i after every leading position of no greater cost. */
  function Insert(c: seq<real>, i: nat, p: seq<nat>): (r: seq<nat>)
    requires i < |c| && forall k :: 0 <= k < |p| ==> p[k] < |c|
    ensures |r| == |p| + 1 && forall k :: 0 <= k < |r| ==> r[k] < |c|
  {
    if p == [] then [i]
    else if c[p[0]] <= c[i] then [p[0]] + Insert(c, i, p[1..])
    else [i] + p
  }

  lemma {:induction false} InsertAbove(c: seq<real>, i: nat, p: seq<nat>, lb: real)
    requires i < |c| && lb <= c[i]
    requires forall k :: 0 <= k < |p| ==> p[k] < |c| && lb <= c[p[k]]
    ensures forall k :: 0 <= k < |p| + 1 ==> lb <= c[Insert(c, i, p)[k]]
  {
    if p != [] && c[p[0]] <= c[i] {
      InsertAbove(c, i, p[1..], lb);
    }
  }

  lemma {:induction false} InsertSorts(c: seq<real>, i: nat, p: seq<nat>)
    requires i < |c| && SortsBy(c, p)
    ensures SortsBy(c, Insert(c, i, p))
  {
    if p != [] && c[p[0]] <= c[i] {
      var rest := Insert(c, i, p[1..]);
      InsertSorts(c, i, p[1..]);
      InsertAbove(c, i, p[1..], c[p[0]]);
      assert Insert(c, i, p) == [p[0]] + rest;
    }
  }

  /** Positions 0..k-1 of c sorted by cost; ties keep their original order. */
  function ArgsortPrefix(c: seq<real>, k: nat): (p: seq<nat>)
    requires k <= |c|
    ensures |p| == k && SortsBy(c, p)
  {
    if k == 0 then []
    else
      var q := ArgsortPrefix(c, k - 1);
      InsertSorts(c, k - 1, q);
      Insert(c, k - 1, q)
  }

  /** `np.argsort`, with ties in their original order. */
  function Argsort(c: seq<real>): (p: seq<nat>)
    ensures |p| == |c| && SortsBy(c, p)
  {
    ArgsortPrefix(c, |c|)
  }

  lemma TakeCons<T>(s: seq<T>, a: nat, q: seq<nat>)
    requires a < |s| && forall k :: 0 <= k < |q| ==> q[k] < |s|
    ensures Take(s, [a] + q) == [s[a]] + Take(s, q)
  {
    var l, r := Take(s, [a] + q), [s[a]] + Take(s, q);
    assert |l| == |r|;
    forall k | 0 <= k < |l| ensures l[k] == r[k] {
      if k > 0 { assert ([a] + q)[k] == q[k - 1]; }
    }
  }

  lemma {:induction false} TakeInsert<T>(s: seq<T>, c: seq<real>, i: nat, p: seq<nat>)
    requires |s| == |c| && i < |c| && forall k :: 0 <= k < |p| ==> p[k] < |c|
    ensures multiset(Take(s, Insert(c, i, p))) == multiset(Take(s, p)) + multiset{s[i]}
  {
    if p == [] {
      assert Take(s, [i]) == [s[i]];
    } else if c[p[0]] <= c[i] {
      var q := Insert(c, i, p[1..]);
      TakeInsert(s, c, i, p[1..]);
      TakeCons(s, p[0], q);
      TakeCons(s, p[0], p[1..]);
      assert p == [p[0]] + p[1..];
    } else {
      TakeCons(s, i, p);
    }
  }

  lemma {:induction false} TakeArgsortPrefix<T>(s: seq<T>, c: seq<real>, k: nat)
    requires |s| == |c| && k <= |c|
    ensures multiset(Take(s, ArgsortPrefix(c, k))) == multiset(s[..k])
  {
    if k > 0 {
      var q := ArgsortPrefix(c, k - 1);
      assert ArgsortPrefix(c, k) == Insert(c, k - 1, q);
      TakeArgsortPrefix(s, c, k - 1);
      TakeInsert(s, c, k - 1, q);
      assert s[..k] == s[..k - 1] + [s[k - 1]];
      assert multiset(s[..k]) == multiset(s[..k - 1]) + multiset{s[k - 1]};
    }
  }

  /** Reordering by the argsort of c is a permutation of any sequence as
      long as c. */
  lemma ArgsortPermutes<T>(s: seq<T>, c: seq<real>)
    requires |s| == |c|
    ensures multiset(Take(s, Argsort(c))) == multiset(s)
  {
    TakeArgsortPrefix(s, c, |c|);
    assert s[..|c|] == s;
  }

  /** Reordering c by its own argsort sorts it. */
  lemma ArgsortSorts(c: seq<real>)
    ensures Sorted(Take(c, Argsort(c)))
  {
  }

  lemma {:induction false} InsertLast(c: seq<real>, i: nat, p: seq<nat>)
    requires i < |c| && SortsBy(c, p)
    requires forall k :: 0 <= k < |p| ==> c[p[k]] <= c[i]
    ensures Insert(c, i, p) == p + [i]
  {
    if p != [] {
      InsertLast(c, i, p[1..]);
      assert p == [p[0]] + p[1..];
    }
  }

  lemma {:induction false} ArgsortPrefixOfSorted(c: seq<real>, k: nat)
    requires Sorted(c) && k <= |c|
    ensures ArgsortPrefix(c, k) == Range(k)
  {
    if k > 0 {
      ArgsortPrefixOfSorted(c, k - 1);
      InsertLast(c, k - 1, Range(k - 1));
    }
  }

  /** Sorting an already sorted cost vector keeps every position in place,
      so the reordering of any companion sequence is the identity. */
  lemma ArgsortOfSorted<T>(c: seq<real>, s: seq<T>)
    requires Sorted(c) && |s| == |c|
    ensures Argsort(c) == Range(|c|)
    ensures Take(s, Argsort(c)) == s
  {
    ArgsortPrefixOfSorted(c, |c|);
  }
}
