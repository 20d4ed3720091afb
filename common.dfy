/** Small value types and sequence helpers shared by every module of the model:
    an Option type, `filter`, positional map-then-drop-missing (the JavaScript
    idiom `xs.map((x, i) => ...).filter(Boolean)`), and offset/limit paging. */
module Common {

  datatype Option<T> = None | Some(value: T)

  /** `s.filter(p)`: the elements of `s` that satisfy `p`, in order. */
  function Filter<T>(s: seq<T>, p: T -> bool): (r: seq<T>)
    ensures |r| <= |s|
    ensures forall x :: x in r ==> x in s && p(x)
  {
    if s == [] then [] else (if p(s[0]) then [s[0]] else []) + Filter(s[1..], p)
  }

  /** `a` can be obtained from `b` by deleting elements: an order-preserving subsequence. */
  predicate IsSubsequence<T(==)>(a: seq<T>, b: seq<T>)
    decreases |b|
  {
    if a == [] then true
    else if b == [] then false
    else if a[0] == b[0] then IsSubsequence(a[1..], b[1..])
    else IsSubsequence(a, b[1..])
  }

  /** An element is kept exactly when it is in the list and passes the test. */
  lemma {:induction false} FilterMembers<T>(s: seq<T>, p: T -> bool, x: T)
    ensures x in Filter(s, p) <==> x in s && p(x)
  {
    if s != [] {
      FilterMembers(s[1..], p, x);
      assert s == [s[0]] + s[1..];
    }
  }

  lemma {:induction false} FilterIsSubsequence<T>(s: seq<T>, p: T -> bool)
    ensures IsSubsequence(Filter(s, p), s)
  {
    if s != [] {
      FilterIsSubsequence(s[1..], p);
      var r := Filter(s, p);
      if p(s[0]) {
        assert r[1..] == Filter(s[1..], p);
      } else {
        assert r == Filter(s[1..], p);
        SubsequenceDropHead(r, s);
      }
    }
  }

  /** A subsequence of `b[1..]` is a subsequence of `b`. */
  lemma {:induction false} SubsequenceDropHead<T>(a: seq<T>, b: seq<T>)
    requires b != [] && IsSubsequence(a, b[1..])
    ensures IsSubsequence(a, b)
    decreases |b|, 0
  {
    if a != [] && a[0] == b[0] {
      SubsequenceTail(a, b[1..]);
    }
  }

  /** Dropping the first element of a subsequence keeps it a subsequence. */
  lemma {:induction false} SubsequenceTail<T>(a: seq<T>, b: seq<T>)
    requires a != [] && IsSubsequence(a, b)
    ensures IsSubsequence(a[1..], b)
    decreases |b|, 1
  {
    assert b != [];
    if a[0] != b[0] {
      SubsequenceTail(a, b[1..]);
    }
    if a[1..] != [] {
      SubsequenceDropHead(a[1..], b);
    }
  }

  lemma {:induction false} FilterAppend<T>(a: seq<T>, b: seq<T>, p: T -> bool)
    ensures Filter(a + b, p) == Filter(a, p) + Filter(b, p)
  {
    if a != [] {
      assert (a + b)[1..] == a[1..] + b;
      FilterAppend(a[1..], b, p);
    } else {
      assert a + b == b;
    }
  }

  /** Filtering keeps everything when every element passes. */
  lemma {:induction false} FilterAll<T>(s: seq<T>, p: T -> bool)
    requires forall k :: 0 <= k < |s| ==> p(s[k])
    ensures Filter(s, p) == s
  {
    if s != [] {
      FilterAll(s[1..], p);
    }
  }

  /** Filtering keeps nothing when no element passes. */
  lemma {:induction false} FilterNoneOf<T>(s: seq<T>, p: T -> bool)
    requires forall k :: 0 <= k < |s| ==> !p(s[k])
    ensures Filter(s, p) == []
  {
    if s != [] {
      FilterNoneOf(s[1..], p);
    }
  }

  /** Filtering twice keeps exactly the elements that pass both tests:
      `both` is any test that holds exactly when `p` and `q` hold. */
  lemma {:induction false} FilterFilter<T>(s: seq<T>, p: T -> bool, q: T -> bool, both: T -> bool)
    requires forall x :: x in s ==> (both(x) <==> p(x) && q(x))
    ensures Filter(Filter(s, p), q) == Filter(s, both)
  {
    if s != [] {
      FilterFilter(s[1..], p, q, both);
      var head := if p(s[0]) then [s[0]] else [];
      FilterAppend(head, Filter(s[1..], p), q);
      if p(s[0]) {
        assert Filter(head, q) == (if q(s[0]) then [s[0]] else []) + Filter([], q);
      }
    }
  }

  /** Filtering with two predicates that agree on every element gives the same list. */
  lemma {:induction false} FilterCongruent<T>(s: seq<T>, p: T -> bool, q: T -> bool)
    requires forall x :: x in s ==> p(x) == q(x)
    ensures Filter(s, p) == Filter(s, q)
  {
    if s != [] {
      FilterCongruent(s[1..], p, q);
    }
  }

  /** The positions `i` of `s` whose element satisfies `p`, in increasing order. */
  function IndicesWhere<T>(s: seq<T>, p: T -> bool): (r: seq<nat>)
    ensures forall k :: 0 <= k < |r| ==> r[k] < |s| && p(s[r[k]])
    ensures forall j, k :: 0 <= j < k < |r| ==> r[j] < r[k]
    ensures forall i :: 0 <= i < |s| && p(s[i]) ==> i in r
    ensures |r| <= |s|
  {
    if |s| == 0 then []
    else
      var init := IndicesWhere(s[..|s| - 1], p);
      init + (if p(s[|s| - 1]) then [|s| - 1] else [])
  }

  /** No position is selected when no element satisfies `p`. */
  lemma {:induction false} IndicesWhereNone<T>(s: seq<T>, p: T -> bool)
    requires forall i :: 0 <= i < |s| ==> !p(s[i])
    ensures IndicesWhere(s, p) == []
  {
    if |s| > 0 {
      IndicesWhereNone(s[..|s| - 1], p);
    }
  }

  /** `s.map((x, i) => f(x, i))`. */
  function MapIndexed<T, U>(s: seq<T>, f: (T, nat) -> U): (r: seq<U>)
    ensures |r| == |s|
    ensures forall i :: 0 <= i < |s| ==> r[i] == f(s[i], i)
  {
    seq(|s|, i requires 0 <= i < |s| => f(s[i], i))
  }

  /** `.filter(Boolean)` over a list whose dropped entries are `null`: keep the present values. */
  function Compact<U>(s: seq<Option<U>>): seq<U>
  {
    if |s| == 0 then []
    else Compact(s[..|s| - 1]) + (if s[|s| - 1].Some? then [s[|s| - 1].value] else [])
  }

  /** A positional map that may drop entries keeps exactly the entries that
      were not dropped, each built from its ORIGINAL position, in order. */
  lemma {:induction false} CompactMapIndexed<T, U>(s: seq<T>, f: (T, nat) -> Option<U>, p: T -> bool)
    requires forall x, i :: f(x, i).Some? == p(x)
    ensures |Compact(MapIndexed(s, f))| == |IndicesWhere(s, p)|
    ensures forall k :: 0 <= k < |IndicesWhere(s, p)| ==>
              Compact(MapIndexed(s, f))[k] == f(s[IndicesWhere(s, p)[k]], IndicesWhere(s, p)[k]).value
  {
    if |s| > 0 {
      var n := |s| - 1;
      var init := s[..n];
      CompactMapIndexed(init, f, p);
      assert MapIndexed(s, f)[..n] == MapIndexed(init, f);
      var ks := IndicesWhere(s, p);
      var ki := IndicesWhere(init, p);
      assert ks == ki + (if p(s[n]) then [n] else []);
      forall k | 0 <= k < |ki|
        ensures s[ki[k]] == init[ki[k]]
      {
      }
    }
  }

  /** Processing one more element of a positional map that may drop entries
      appends that element's entry, if any: the loop form of `CompactMapIndexed`. */
  lemma CompactMapIndexedSnoc<T, U>(s: seq<T>, f: (T, nat) -> Option<U>, i: nat)
    requires i < |s|
    ensures Compact(MapIndexed(s[..i + 1], f))
         == Compact(MapIndexed(s[..i], f)) + (if f(s[i], i).Some? then [f(s[i], i).value] else [])
  {
    var longer := MapIndexed(s[..i + 1], f);
    assert longer[..i] == MapIndexed(s[..i], f);
  }

  /** SQL `OFFSET skip LIMIT limit` on a result list: drop `skip` rows, then keep at most `limit`. */
  function Page<T>(s: seq<T>, skip: nat, limit: nat): (r: seq<T>)
    ensures |r| == if skip >= |s| then 0 else if limit <= |s| - skip then limit else |s| - skip
    ensures forall k :: 0 <= k < |r| ==> r[k] == s[skip + k]
  {
    if skip >= |s| then []
    else
      var rest := s[skip..];
      if limit <= |rest| then rest[..limit] else rest
  }

  /** `s.slice(0, n)`. */
  function Take<T>(s: seq<T>, n: nat): (r: seq<T>)
    ensures |r| == if n <= |s| then n else |s|
    ensures r <= s
  {
    if n <= |s| then s[..n] else s
  }
}
