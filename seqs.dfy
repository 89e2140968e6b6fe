/** Sequence operations that the TypeScript sources use on arrays:
    `filter`, `findIndex`, `find`, `indexOf` and `splice(i, 1)`. */
module Seqs {

  datatype Option<+T> = None | Some(value: T)

  /** No element occurs twice. */
  ghost predicate NoDuplicates<T>(s: seq<T>) {
    forall i, j :: 0 <= i < j < |s| ==> s[i] != s[j]
  }

  /** `a` is obtained from `b` by deleting elements (order kept). */
  ghost predicate IsSubsequence<T>(a: seq<T>, b: seq<T>)
    decreases |b|
  {
    if b == [] then a == []
    else (a != [] && a[0] == b[0] && IsSubsequence(a[1..], b[1..])) || IsSubsequence(a, b[1..])
  }

  /** `Array.prototype.filter`: the elements satisfying `p`, in their original order. */
  function Filter<T>(s: seq<T>, p: T -> bool): (r: seq<T>)
    ensures |r| <= |s|
    ensures forall i :: 0 <= i < |r| ==> r[i] in s && p(r[i])
    ensures forall i :: 0 <= i < |s| && p(s[i]) ==> s[i] in r
    decreases |s|
  {
    if s == [] then []
    else
      var rest := Filter(s[1..], p);
      assert forall i :: 1 <= i < |s| ==> s[i] == s[1..][i - 1];
      if p(s[0]) then [s[0]] + rest else rest
  }

  lemma {:induction false} FilterIsSubsequence<T>(s: seq<T>, p: T -> bool)
    ensures IsSubsequence(Filter(s, p), s)
    decreases |s|
  {
    if s != [] {
      FilterIsSubsequence(s[1..], p);
      var rest := Filter(s[1..], p);
      if p(s[0]) {
        assert Filter(s, p) == [s[0]] + rest;
        assert ([s[0]] + rest)[1..] == rest;
      }
    }
  }

  /** Filtering twice is filtering once by the conjunction. */
  lemma {:induction false} FilterFilter<T>(s: seq<T>, p: T -> bool, q: T -> bool, both: T -> bool)
    requires forall i :: 0 <= i < |s| ==> both(s[i]) == (p(s[i]) && q(s[i]))
    ensures Filter(Filter(s, p), q) == Filter(s, both)
    decreases |s|
  {
    if s != [] {
      assert forall i :: 1 <= i < |s| ==> s[i] == s[1..][i - 1];
      FilterFilter(s[1..], p, q, both);
      var rest := Filter(s[1..], p);
      if p(s[0]) {
        assert Filter(s, p) == [s[0]] + rest;
        assert ([s[0]] + rest)[1..] == rest;
      }
    }
  }

  /** Filtering by a predicate that every element satisfies changes nothing. */
  lemma {:induction false} FilterAll<T>(s: seq<T>, p: T -> bool)
    requires forall i :: 0 <= i < |s| ==> p(s[i])
    ensures Filter(s, p) == s
    decreases |s|
  {
    if s != [] {
      FilterAll(s[1..], p);
    }
  }

  /** Filters by predicates that agree on every element give the same result. */
  lemma {:induction false} FilterCongruent<T>(s: seq<T>, p: T -> bool, q: T -> bool)
    requires forall i :: 0 <= i < |s| ==> p(s[i]) == q(s[i])
    ensures Filter(s, p) == Filter(s, q)
    decreases |s|
  {
    if s != [] {
      FilterCongruent(s[1..], p, q);
    }
  }

  /** A filter by a weaker predicate keeps at least as many elements. */
  lemma {:induction false} FilterMonotone<T>(s: seq<T>, p: T -> bool, q: T -> bool)
    requires forall i :: 0 <= i < |s| ==> p(s[i]) ==> q(s[i])
    ensures |Filter(s, p)| <= |Filter(s, q)|
    decreases |s|
  {
    if s != [] {
      FilterMonotone(s[1..], p, q);
    }
  }

  /** `Array.prototype.findIndex`: the first index whose element satisfies `p`, or -1. */
  function FindIndex<T>(s: seq<T>, p: T -> bool): (r: int)
    ensures -1 <= r < |s|
    ensures r == -1 <==> forall i :: 0 <= i < |s| ==> !p(s[i])
    ensures r >= 0 ==> p(s[r]) && forall i :: 0 <= i < r ==> !p(s[i])
    decreases |s|
  {
    if s == [] then -1
    else if p(s[0]) then 0
    else
      var k := FindIndex(s[1..], p);
      if k < 0 then -1 else k + 1
  }

  /** `Array.prototype.find`: the first element satisfying `p`, if any. */
  function Find<T>(s: seq<T>, p: T -> bool): (r: Option<T>)
    ensures r.None? <==> forall i :: 0 <= i < |s| ==> !p(s[i])
    ensures r.Some? ==> r.value in s && p(r.value)
    ensures r.Some? ==> exists k :: 0 <= k < |s| && s[k] == r.value && forall i :: 0 <= i < k ==> !p(s[i])
  {
    var k := FindIndex(s, p);
    if k < 0 then None else Some(s[k])
  }

  /** `Array.prototype.indexOf`: the first index holding `x`, or -1. */
  function IndexOf<T(==)>(s: seq<T>, x: T): (r: int)
    ensures -1 <= r < |s|
    ensures r == -1 <==> x !in s
    ensures r >= 0 ==> s[r] == x && x !in s[..r]
  {
    var k := FindIndex(s, y => y == x);
    assert k >= 0 ==> s[k] == x && forall i :: 0 <= i < k ==> s[i] != x;
    k
  }

  /** `const i = s.indexOf(x); if (i > -1) s.splice(i, 1)`: drops the first `x`. */
  function RemoveFirst<T(==)>(s: seq<T>, x: T): (r: seq<T>)
    ensures x !in s ==> r == s
    ensures x in s ==> |r| == |s| - 1
    ensures forall i :: 0 <= i < |r| ==> r[i] in s
  {
    var i := IndexOf(s, x);
    if i < 0 then s else s[..i] + s[i + 1..]
  }

  /** Filtering a concatenation filters each part. */
  lemma {:induction false} FilterConcat<T>(a: seq<T>, b: seq<T>, p: T -> bool)
    ensures Filter(a + b, p) == Filter(a, p) + Filter(b, p)
    decreases |a|
  {
    if a != [] {
      FilterConcat(a[1..], b, p);
      assert (a + b)[0] == a[0];
      assert (a + b)[1..] == a[1..] + b;
      assert Filter(a + b, p) == (if p(a[0]) then [a[0]] else []) + Filter(a[1..] + b, p);
    } else {
      assert a + b == b;
    }
  }

  /** Dropping the first `x` from a sequence without duplicates leaves
      a sequence without duplicates. */
  lemma RemoveFirstNoDuplicates<T>(s: seq<T>, x: T)
    requires NoDuplicates(s)
    ensures NoDuplicates(RemoveFirst(s, x))
  {
    var i := IndexOf(s, x);
    if i >= 0 {
      var r := s[..i] + s[i + 1..];
      forall a, b | 0 <= a < b < |r| ensures r[a] != r[b] {
        var a' := if a < i then a else a + 1;
        var b' := if b < i then b else b + 1;
        assert r[a] == s[a'] && r[b] == s[b'];
      }
    }
  }

  /** Filtering out exactly one element drops it and keeps the rest. */
  lemma FilterDropsOne<T>(pre: seq<T>, x: T, post: seq<T>, p: T -> bool)
    requires !p(x)
    requires forall k :: 0 <= k < |pre| ==> p(pre[k])
    requires forall k :: 0 <= k < |post| ==> p(post[k])
    ensures Filter(pre + [x] + post, p) == pre + post
  {
    var front := pre + [x];
    assert Filter(front, p) == pre by {
      FilterAll(pre, p);
      assert Filter([x], p) == [] by {
        assert [x][1..] == [];
      }
      FilterConcat(pre, [x], p);
      assert pre + [] == pre;
    }
    assert Filter(post, p) == post by {
      FilterAll(post, p);
    }
    FilterConcat(front, post, p);
  }

  /** In a sequence where `x` occurs at most once, dropping the first `x`
      removes every `x` and keeps the other elements in their order. */
  lemma RemoveFirstIsFilter<T>(s: seq<T>, x: T)
    requires NoDuplicates(s)
    ensures RemoveFirst(s, x) == Filter(s, y => y != x)
  {
    var i := IndexOf(s, x);
    if i < 0 {
      FilterAll(s, y => y != x);
    } else {
      var pre, post := s[..i], s[i + 1..];
      assert s == pre + [x] + post;
      forall k | 0 <= k < |post| ensures post[k] != x {
        assert post[k] == s[i + 1 + k];
      }
      FilterDropsOne(pre, x, post, y => y != x);
    }
  }

  /** In a sequence without duplicates, dropping the first `x` leaves no `x`,
      keeps every other element and keeps their relative order. */
  lemma RemoveFirstSpec<T>(s: seq<T>, x: T)
    requires NoDuplicates(s)
    ensures x !in RemoveFirst(s, x)
    ensures forall i :: 0 <= i < |s| && s[i] != x ==> s[i] in RemoveFirst(s, x)
    ensures NoDuplicates(RemoveFirst(s, x))
    ensures IsSubsequence(RemoveFirst(s, x), s)
  {
    RemoveFirstIsFilter(s, x);
    RemoveFirstNoDuplicates(s, x);
    FilterIsSubsequence(s, y => y != x);
    var r := RemoveFirst(s, x);
    assert forall i :: 0 <= i < |r| ==> r[i] != x;
  }

  /** Remove the first `x` (if any) and append `x`: `x` becomes the last element. */
  function MoveToBack<T(==)>(s: seq<T>, x: T): (r: seq<T>)
    ensures r != [] && Last(r) == x
  {
    RemoveFirst(s, x) + [x]
  }

  /** The splice that drops the first `x` and appends `x`, as an in-place
      list update does it. */
  method MoveToBackOf<T(==)>(s: seq<T>, x: T) returns (r: seq<T>)
    ensures r == MoveToBack(s, x)
  {
    r := RemoveFirstOf(s, x);
    r := r + [x];
  }

  /** The splice that drops the first `x`, found with `indexOf`. */
  method RemoveFirstOf<T(==)>(s: seq<T>, x: T) returns (r: seq<T>)
    ensures r == RemoveFirst(s, x)
  {
    r := s;
    var index := IndexOf(s, x);
    if index > -1 {
      r := s[..index] + s[index + 1..];
    }
  }

  /** In a sequence without duplicates, moving `x` to the back leaves it
      exactly once, as the last element; before it come all the other
      elements, in their previous relative order. */
  lemma MoveToBackSpec<T>(s: seq<T>, x: T)
    requires NoDuplicates(s)
    ensures var r := MoveToBack(s, x);
            x !in r[..|r| - 1] && r[..|r| - 1] == RemoveFirst(s, x)
            && IsSubsequence(r[..|r| - 1], s)
            && NoDuplicates(r)
            && (forall i :: 0 <= i < |s| ==> s[i] in r)
            && forall i :: 0 <= i < |r| ==> r[i] in s || r[i] == x
  {
    RemoveFirstSpec(s, x);
    var rest := RemoveFirst(s, x);
    var r := rest + [x];
    assert r[..|r| - 1] == rest;
    forall i, j | 0 <= i < j < |r| ensures r[i] != r[j] {
      if j == |r| - 1 {
        assert r[i] == rest[i] && rest[i] in rest;
      } else {
        assert r[i] == rest[i] && r[j] == rest[j];
      }
    }
  }

  /** After moving `x` to the back, the sequence holds exactly what it held before, and `x`. */
  lemma MoveToBackMembers<T>(s: seq<T>, x: T, y: T)
    requires NoDuplicates(s)
    ensures y in MoveToBack(s, x) <==> y in s || y == x
  {
    MoveToBackSpec(s, x);
    var r := MoveToBack(s, x);
    if y in s {
      var i :| 0 <= i < |s| && s[i] == y;
      assert s[i] in r;
    }
    if y in r {
      var i :| 0 <= i < |r| && r[i] == y;
      assert r[i] in s || r[i] == x;
    }
  }

  /** Removing `x` right after moving it to the back is removing it. */
  lemma RemoveAfterMove<T>(s: seq<T>, x: T)
    requires NoDuplicates(s)
    ensures RemoveFirst(MoveToBack(s, x), x) == RemoveFirst(s, x)
  {
    RemoveFirstSpec(s, x);
    var rest := RemoveFirst(s, x);
    assert (rest + [x])[..|rest|] == rest;
  }

  /** A sequence without duplicates has as many distinct elements as it has elements. */
  lemma {:induction false} DistinctCardinality<T>(s: seq<T>)
    requires NoDuplicates(s)
    ensures |set x | x in s| == |s|
    decreases |s|
  {
    if s != [] {
      DistinctCardinality(s[1..]);
      assert (set x | x in s) == {s[0]} + (set x | x in s[1..]);
      assert s[0] !in s[1..] by {
        forall i | 0 <= i < |s[1..]| ensures s[1..][i] != s[0] {
          assert s[1..][i] == s[i + 1];
        }
      }
    }
  }

  /** The last element of a non-empty sequence. */
  function Last<T>(s: seq<T>): T
    requires s != []
  {
    s[|s| - 1]
  }
}
