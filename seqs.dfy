/** Sequence helpers standing for the array methods the services call:
    `findIndex`/`find`, `splice(k, 1)` and `filter`. */
module Seqs {
  import opened Wrappers

  /** `s.findIndex(p)`, with None for -1. */
  function FirstIndex<T>(s: seq<T>, p: T -> bool): (r: Option<nat>)
    ensures r.Some? ==> r.value < |s| && p(s[r.value])
    ensures r.Some? ==> forall k :: 0 <= k < r.value ==> !p(s[k])
    ensures r.None? <==> forall k :: 0 <= k < |s| ==> !p(s[k])
  {
    if s == [] then None
    else if p(s[0]) then Some(0)
    else match FirstIndex(s[1..], p)
      case None => None
      case Some(k) => Some(k + 1)
  }

  /** `copy.splice(k, 1)`: the sequence without its k-th element, the others in order. */
  function RemoveAt<T>(s: seq<T>, k: nat): (r: seq<T>)
    requires k < |s|
    ensures |r| == |s| - 1
    ensures forall j :: 0 <= j < k ==> r[j] == s[j]
    ensures forall j :: k <= j < |r| ==> r[j] == s[j + 1]
    ensures multiset(r) + multiset{s[k]} == multiset(s)
  {
    assert s == s[..k] + [s[k]] + s[k + 1..];
    s[..k] + s[k + 1..]
  }

  /** Removing the element just appended gives back the original sequence. */
  lemma RemoveAppended<T>(s: seq<T>, x: T)
    ensures RemoveAt(s + [x], |s|) == s
  {
  }

  /** `s.filter(p)`: the elements satisfying p, in their order. */
  function Filter<T>(s: seq<T>, p: T -> bool): (r: seq<T>)
    ensures |r| <= |s|
    ensures forall x :: x in r ==> x in s && p(x)
    ensures forall x :: x in s && p(x) ==> x in r
  {
    if s == [] then []
    else
      var rest := Filter(s[1..], p);
      assert s == [s[0]] + s[1..];
      (if p(s[0]) then [s[0]] else []) + rest
  }

  /** Filtering by a condition every element meets changes nothing. */
  lemma {:induction false} FilterAll<T>(s: seq<T>, p: T -> bool)
    requires forall k :: 0 <= k < |s| ==> p(s[k])
    ensures Filter(s, p) == s
  {
    if s != [] {
      FilterAll(s[1..], p);
    }
  }

  /** Keeping both the true and the false elements of a filter partitions the sequence. */
  lemma {:induction false} FilterPartition<T>(s: seq<T>, p: T -> bool)
    ensures |Filter(s, p)| + |Filter(s, x => !p(x))| == |s|
  {
    if s != [] {
      FilterPartition(s[1..], p);
    }
  }

  /** Filtering keeps each element satisfying p exactly as often as it occurs,
      and drops every other. */
  lemma {:induction false} FilterMultiset<T>(s: seq<T>, p: T -> bool)
    ensures forall x :: multiset(Filter(s, p))[x] == if p(x) then multiset(s)[x] else 0
  {
    if s != [] {
      FilterMultiset(s[1..], p);
      assert s == [s[0]] + s[1..];
    }
  }

  /** Filtering a concatenation filters each part, so the kept elements stay
      in their order. */
  lemma {:induction false} FilterAppend<T>(a: seq<T>, b: seq<T>, p: T -> bool)
    ensures Filter(a + b, p) == Filter(a, p) + Filter(b, p)
  {
    if a == [] {
      assert a + b == b;
    } else {
      assert (a + b)[0] == a[0] && (a + b)[1..] == a[1..] + b;
      FilterAppend(a[1..], b, p);
    }
  }

  /** Where a scan over rows, each with its own list of items, first meets an
      item satisfying p: the first row whose list has one, and the first such
      position in that list. */
  function LocateFirst<R, X>(rows: seq<R>, items: R -> seq<X>, p: X -> bool): (r: Option<(nat, nat)>)
    ensures r.None? <==> forall i :: 0 <= i < |rows| ==> FirstIndex(items(rows[i]), p).None?
    ensures r.Some? ==> r.value.0 < |rows|
    ensures r.Some? ==> forall i :: 0 <= i < r.value.0 ==> FirstIndex(items(rows[i]), p).None?
    ensures r.Some? ==> FirstIndex(items(rows[r.value.0]), p) == Some(r.value.1)
  {
    if rows == [] then None
    else
      var k := FirstIndex(items(rows[0]), p);
      if k.Some? then Some((0, k.value))
      else
        var rest := LocateFirst(rows[1..], items, p);
        assert forall i :: 1 <= i < |rows| ==> rows[i] == rows[1..][i - 1];
        if rest.None? then None else Some((rest.value.0 + 1, rest.value.1))
  }

  /** The location is determined by the first row with a match and the first
      match in it. */
  lemma LocateFirstAt<R, X>(rows: seq<R>, items: R -> seq<X>, p: X -> bool, i: nat, k: nat)
    requires i < |rows| && forall j :: 0 <= j < i ==> FirstIndex(items(rows[j]), p).None?
    requires FirstIndex(items(rows[i]), p) == Some(k)
    ensures LocateFirst(rows, items, p) == Some((i, k))
  {
    var loc := LocateFirst(rows, items, p);
    assert loc.Some?;
    var (i', k') := loc.value;
    assert FirstIndex(items(rows[i']), p).Some?;
    assert !(i' < i);
    assert !(i < i');
  }

  /** `s.map(f)`. */
  function Map<T, U>(s: seq<T>, f: T -> U): (r: seq<U>)
    ensures |r| == |s|
    ensures forall k :: 0 <= k < |s| ==> r[k] == f(s[k])
  {
    seq(|s|, k requires 0 <= k < |s| => f(s[k]))
  }

  /** Mapping one more element appends its image. */
  lemma MapSnoc<T, U>(s: seq<T>, i: nat, f: T -> U)
    requires i < |s|
    ensures Map(s[..i + 1], f) == Map(s[..i], f) + [f(s[i])]
  {
    assert forall k :: 0 <= k < i ==> s[..i + 1][k] == s[..i][k];
  }

  /** An element of a sequence has its image in the mapping of any permutation of it. */
  lemma {:induction false} MapOfPermutation<T, U>(s: seq<T>, t: seq<T>, f: T -> U, x: T)
    requires multiset(s) == multiset(t) && x in s
    ensures f(x) in Map(t, f)
  {
    assert x in multiset(t);
    var k :| 0 <= k < |t| && t[k] == x;
    assert Map(t, f)[k] == f(x);
  }

  /** The images of the elements a filter keeps are exactly the images of the
      elements satisfying its condition. */
  lemma MapFilterMember<T, U>(s: seq<T>, p: T -> bool, f: T -> U, x: U)
    ensures x in Map(Filter(s, p), f) <==> exists y :: y in s && p(y) && x == f(y)
  {
    var kept := Filter(s, p);
    if x in Map(kept, f) {
      var k :| 0 <= k < |kept| && Map(kept, f)[k] == x;
      assert kept[k] in kept;
    }
    if exists y :: y in s && p(y) && x == f(y) {
      var y :| y in s && p(y) && x == f(y);
      var k :| 0 <= k < |kept| && kept[k] == y;
      assert Map(kept, f)[k] == x;
    }
  }

  /** Two sequences that are permutations of each other have the same length and members. */
  lemma PermutationMembers<T>(a: seq<T>, b: seq<T>)
    requires multiset(a) == multiset(b)
    ensures |a| == |b|
    ensures forall x :: x in a <==> x in b
  {
    assert |a| == |multiset(a)| == |multiset(b)| == |b|;
    assert forall x :: x in a <==> x in multiset(a);
    assert forall x :: x in b <==> x in multiset(b);
  }
}
