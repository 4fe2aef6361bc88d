/** Sequence helpers shared by the list operations (JavaScript's `Array.prototype.filter` and
    `findIndex`). */
module Seqs {
  import opened Wrappers

  /** `s.findIndex(p)`, with `None` for -1: the index of the first element satisfying `p`. */
  function FirstIndex<T>(s: seq<T>, p: T -> bool): (r: Option<nat>)
    ensures r.Some? ==> r.value < |s| && p(s[r.value]) && forall j | 0 <= j < r.value :: !p(s[j])
    ensures r.None? ==> forall j | 0 <= j < |s| :: !p(s[j])
  {
    if s == [] then None
    else if p(s[0]) then Some(0)
    else match FirstIndex(s[1..], p)
      case Some(i) => Some(i + 1)
      case None => None
  }

  /** `b` contains the elements of `a`, in the same order, possibly with others between them. */
  predicate IsSubsequence<T(==)>(a: seq<T>, b: seq<T>) {
    if a == [] then true
    else if b == [] then false
    else (a[0] == b[0] && IsSubsequence(a[1..], b[1..])) || IsSubsequence(a, b[1..])
  }

  /** `s.filter(keep)`: the elements satisfying `keep`, in their original order. */
  function Filter<T(!new)>(s: seq<T>, keep: T -> bool): (r: seq<T>)
    ensures |r| <= |s|
    ensures forall x :: x in r <==> x in s && keep(x)
    ensures IsSubsequence(r, s)
    ensures forall x :: multiset(r)[x] == if keep(x) then multiset(s)[x] else 0
  {
    if s == [] then []
    else
      assert s == [s[0]] + s[1..];
      if keep(s[0]) then [s[0]] + Filter(s[1..], keep)
      else Filter(s[1..], keep)
  }

  /** Filtering keeps the sequence unchanged exactly when every element is kept. */
  lemma {:induction false} FilterAllKept<T(!new)>(s: seq<T>, keep: T -> bool)
    requires forall x :: x in s ==> keep(x)
    ensures Filter(s, keep) == s
  {
    if s != [] {
      FilterAllKept(s[1..], keep);
    }
  }

  /** Filtering distributes over concatenation. */
  lemma {:induction false} FilterAppend<T(!new)>(a: seq<T>, b: seq<T>, keep: T -> bool)
    ensures Filter(a + b, keep) == Filter(a, keep) + Filter(b, keep)
  {
    if a == [] {
      assert a + b == b;
    } else {
      var x, t := a[0], a[1..];
      assert Filter(a + b, keep) == if keep(x) then [x] + Filter(t + b, keep) else Filter(t + b, keep) by {
        assert (a + b)[0] == x && (a + b)[1..] == t + b;
      }
      FilterAppend(t, b, keep);
      ConsAppend(x, keep(x), Filter(t, keep), Filter(b, keep));
    }
  }

  /** Putting an optional head in front of a concatenation is putting it in front of its left part. */
  lemma ConsAppend<T>(x: T, present: bool, u: seq<T>, v: seq<T>)
    ensures (if present then [x] + (u + v) else u + v) == (if present then [x] + u else u) + v
  {
    if present {
      assert [x] + (u + v) == ([x] + u) + v;
    }
  }
}
