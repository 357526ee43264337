/**
 * The array idioms the application uses on its collections, as functions on
 * sequences: `filter`, `map` restricted to the records with a given id, and
 * `find`.
 */
module Seqs {
  import opened Types

  /** `s.filter(p)`: the elements satisfying p, in their original order. */
  function Filter<T>(s: seq<T>, p: T -> bool): (r: seq<T>)
    ensures |r| <= |s|
    ensures forall x :: x in r ==> x in s && p(x)
    ensures forall x :: x in s && p(x) ==> x in r
  {
    if s == [] then [] else (if p(s[0]) then [s[0]] else []) + Filter(s[1..], p)
  }

  /** Filtering a concatenation filters each part: the kept elements keep their order. */
  lemma {:induction false} FilterAppend<T>(a: seq<T>, b: seq<T>, p: T -> bool)
    ensures Filter(a + b, p) == Filter(a, p) + Filter(b, p)
  {
    if a == [] {
      assert a + b == b;
    } else {
      assert (a + b)[1..] == a[1..] + b;
      FilterAppend(a[1..], b, p);
    }
  }

  /** When every element passes, filtering returns the sequence itself. */
  lemma {:induction false} FilterKeepsAll<T>(s: seq<T>, p: T -> bool)
    requires forall x :: x in s ==> p(x)
    ensures Filter(s, p) == s
  {
    if s != [] {
      FilterKeepsAll(s[1..], p);
    }
  }

  /** When no element passes, filtering returns nothing. */
  lemma {:induction false} FilterKeepsNone<T>(s: seq<T>, p: T -> bool)
    requires forall x :: x in s ==> !p(x)
    ensures Filter(s, p) == []
  {
    if s != [] {
      FilterKeepsNone(s[1..], p);
    }
  }

  /** Filtering twice by the same predicate is filtering once. */
  lemma {:induction false} FilterIdempotent<T>(s: seq<T>, p: T -> bool)
    ensures Filter(Filter(s, p), p) == Filter(s, p)
  {
    FilterKeepsAll(Filter(s, p), p);
  }

  /** Two predicates that agree on every element filter alike. */
  lemma {:induction false} FilterSamePredicate<T>(s: seq<T>, p: T -> bool, q: T -> bool)
    requires forall x :: x in s ==> p(x) == q(x)
    ensures Filter(s, p) == Filter(s, q)
  {
    if s != [] {
      FilterSamePredicate(s[1..], p, q);
    }
  }

  /** A filter and its complement split the sequence: their lengths add up. */
  lemma {:induction false} FilterPartitionLength<T>(s: seq<T>, p: T -> bool, q: T -> bool)
    requires forall x :: x in s ==> (q(x) <==> !p(x))
    ensures |Filter(s, p)| + |Filter(s, q)| == |s|
  {
    if s != [] {
      FilterPartitionLength(s[1..], p, q);
    }
  }

  /** Filtering by p and then by q is filtering by their conjunction. */
  lemma {:induction false} FilterFilter<T>(s: seq<T>, p: T -> bool, q: T -> bool, both: T -> bool)
    requires forall x :: both(x) == (p(x) && q(x))
    ensures Filter(Filter(s, p), q) == Filter(s, both)
  {
    if s != [] {
      FilterFilter(s[1..], p, q, both);
      FilterAppend(if p(s[0]) then [s[0]] else [], Filter(s[1..], p), q);
      assert [s[0]][1..] == [];
    }
  }

  /** The positions of the elements satisfying p. */
  ghost function MatchIndices<T>(s: seq<T>, p: T -> bool): set<int>
  {
    set i | 0 <= i < |s| && p(s[i])
  }

  /** A one-element sequence is kept exactly when its element passes. */
  lemma FilterSingleton<T>(x: T, p: T -> bool)
    ensures Filter([x], p) == if p(x) then [x] else []
  {
    assert [x][1..] == [];
  }

  /** Appending one element adds one position to the matches exactly when it passes. */
  lemma MatchIndicesSnoc<T>(s: seq<T>, x: T, p: T -> bool)
    ensures MatchIndices(s + [x], p) == MatchIndices(s, p) + (if p(x) then {|s|} else {})
  {
    var t := s + [x];
    assert forall i :: 0 <= i < |s| ==> t[i] == s[i];
    assert t[|s|] == x;
  }

  /** The length of a filter is the number of positions whose element passes. */
  lemma {:induction false} FilterLengthIsMatchCount<T>(s: seq<T>, p: T -> bool)
    ensures |Filter(s, p)| == |MatchIndices(s, p)|
    decreases |s|
  {
    if s == [] {
      assert MatchIndices(s, p) == {};
    } else {
      var n := |s| - 1;
      var front, x := s[..n], s[n];
      assert s == front + [x];
      FilterAppend(front, [x], p);
      FilterSingleton(x, p);
      FilterLengthIsMatchCount(front, p);
      MatchIndicesSnoc(front, x, p);
      assert n !in MatchIndices(front, p);
    }
  }

  /** A filter taken around position i: the part before, the element itself if it passes, the part after. */
  lemma FilterSplitAt<T>(s: seq<T>, p: T -> bool, i: nat)
    requires i < |s|
    ensures Filter(s, p) == Filter(s[..i], p) + (if p(s[i]) then [s[i]] else []) + Filter(s[i + 1..], p)
  {
    var before, x, after := s[..i], s[i], s[i + 1..];
    var front := before + [x];
    assert s == front + after;
    FilterAppend(front, after, p);
    FilterAppend(before, [x], p);
    FilterSingleton(x, p);
  }

  /**
   * Changing the element at one position changes the length of a filter by
   * at most one: it loses the old element if that passed and gains the new
   * one if that passes.
   */
  lemma FilterLengthChangeAt<T>(s: seq<T>, r: seq<T>, p: T -> bool, i: nat)
    requires |r| == |s| && i < |s|
    requires forall j :: 0 <= j < |s| && j != i ==> r[j] == s[j]
    ensures |Filter(r, p)| == |Filter(s, p)| - (if p(s[i]) then 1 else 0) + (if p(r[i]) then 1 else 0)
  {
    FilterSplitAt(s, p, i);
    FilterSplitAt(r, p, i);
    assert r[..i] == s[..i];
    assert r[i + 1..] == s[i + 1..];
  }

  /**
   * `s.map(x => key(x) === id ? f(x) : x)`: every record with the id is
   * rewritten by f, every other record stays where and as it was.
   */
  function UpdateWhere<T>(s: seq<T>, key: T -> string, id: string, f: T -> T): (r: seq<T>)
    ensures |r| == |s|
    ensures forall i :: 0 <= i < |s| && key(s[i]) == id ==> r[i] == f(s[i])
    ensures forall i :: 0 <= i < |s| && key(s[i]) != id ==> r[i] == s[i]
  {
    if s == [] then []
    else [if key(s[0]) == id then f(s[0]) else s[0]] + UpdateWhere(s[1..], key, id, f)
  }

  /** No element carries the id. */
  ghost predicate Fresh<T>(s: seq<T>, key: T -> string, id: string)
  {
    forall i :: 0 <= i < |s| ==> key(s[i]) != id
  }

  /** No two elements carry the same id. */
  ghost predicate UniqueKeys<T>(s: seq<T>, key: T -> string)
  {
    forall i, j :: 0 <= i < j < |s| ==> key(s[i]) != key(s[j])
  }

  /** Updating an id nobody carries changes nothing. */
  lemma UpdateAbsent<T>(s: seq<T>, key: T -> string, id: string, f: T -> T)
    requires Fresh(s, key, id)
    ensures UpdateWhere(s, key, id, f) == s
  {
  }

  /**
   * Reconciliation of a create: when the head carries an id that no other
   * element carries, updating that id rewrites only the head.
   */
  lemma UpdateFreshHead<T>(x: T, s: seq<T>, key: T -> string, id: string, f: T -> T)
    requires key(x) == id && Fresh(s, key, id)
    ensures UpdateWhere([x] + s, key, id, f) == [f(x)] + s
  {
    var r := UpdateWhere([x] + s, key, id, f);
    assert r[0] == f(x);
    forall i | 1 <= i < |r| ensures r[i] == s[i - 1] {
      assert ([x] + s)[i] == s[i - 1];
    }
  }

  /** `s.find(p)`: the first element satisfying p, if any. */
  function Find<T>(s: seq<T>, p: T -> bool): (r: Option<T>)
    ensures r.Some? ==> r.value in s && p(r.value)
    ensures r.None? <==> forall x :: x in s ==> !p(x)
    ensures r.Some? ==> exists i :: 0 <= i < |s| && s[i] == r.value && forall j :: 0 <= j < i ==> !p(s[j])
  {
    if s == [] then None
    else if p(s[0]) then Some(s[0])
    else
      var r := Find(s[1..], p);
      if r.Some? then
        assert exists i :: 0 <= i < |s| && s[i] == r.value && forall j :: 0 <= j < i ==> !p(s[j]) by {
          var k :| 0 <= k < |s[1..]| && s[1..][k] == r.value && forall j :: 0 <= j < k ==> !p(s[1..][j]);
          assert forall j :: 0 <= j < k + 1 ==> !p(s[j]) by {
            forall j | 0 <= j < k + 1 ensures !p(s[j]) {
              if j > 0 { assert s[j] == s[1..][j - 1]; }
            }
          }
        }
        r
      else
        assert forall x :: x in s ==> !p(x) by {
          forall x | x in s ensures !p(x) {
            if x != s[0] { assert x in s[1..]; }
          }
        }
        r
  }

  /** `s.findIndex(x => key(x) === id)`: the first position carrying the id, or -1. */
  function FirstIndex<T>(s: seq<T>, key: T -> string, id: string): (i: int)
    ensures -1 <= i < |s|
    ensures i == -1 <==> Fresh(s, key, id)
    ensures i >= 0 ==> key(s[i]) == id && Fresh(s[..i], key, id)
  {
    if s == [] then -1
    else if key(s[0]) == id then 0
    else
      var k := FirstIndex(s[1..], key, id);
      if k == -1 then -1
      else
        assert Fresh(s[..k + 1], key, id) by {
          forall j | 0 <= j < k + 1 ensures key(s[j]) != id {
            if j > 0 { assert s[j] == s[1..][j - 1] && s[1..][..k][j - 1] == s[1..][j - 1]; }
          }
        }
        k + 1
  }
}
