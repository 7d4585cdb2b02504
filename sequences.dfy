/** Filtering and mapping of sequences, and the conditional-append loop shape the program uses. */
module Sequences {

  /** The elements of `xs` that satisfy `p`, in order (a list comprehension with a condition). */
  function Keep<T>(xs: seq<T>, p: T -> bool): seq<T>
  {
    if |xs| == 0 then []
    else if p(xs[0]) then [xs[0]] + Keep(xs[1..], p)
    else Keep(xs[1..], p)
  }

  /** `[f(x) for x in xs]`. */
  function MapSeq<T, U>(xs: seq<T>, f: T -> U): (r: seq<U>)
    ensures |r| == |xs|
    ensures forall k :: 0 <= k < |xs| ==> r[k] == f(xs[k])
  {
    seq(|xs|, k requires 0 <= k < |xs| => f(xs[k]))
  }

  /** `for x in xs: if p(x): parts.append(f(x))`. */
  function AppendEach<T, U>(parts: seq<U>, xs: seq<T>, p: T -> bool, f: T -> U): seq<U>
    decreases |xs|
  {
    if |xs| == 0 then parts
    else AppendEach(if p(xs[0]) then parts + [f(xs[0])] else parts, xs[1..], p, f)
  }

  lemma {:induction false} KeepMembers<T>(xs: seq<T>, p: T -> bool)
    ensures forall x :: x in Keep(xs, p) ==> x in xs && p(x)
    ensures forall x :: x in xs && p(x) ==> x in Keep(xs, p)
    ensures |Keep(xs, p)| <= |xs|
  {
    if |xs| > 0 {
      KeepMembers(xs[1..], p);
      assert xs == [xs[0]] + xs[1..];
    }
  }

  /** Keeping elements preserves their relative order: an increasing rank stays increasing. */
  lemma {:induction false} KeepOrdered<T>(xs: seq<T>, p: T -> bool, rank: T -> int)
    requires forall i, j :: 0 <= i < j < |xs| ==> rank(xs[i]) < rank(xs[j])
    ensures forall i, j :: 0 <= i < j < |Keep(xs, p)| ==> rank(Keep(xs, p)[i]) < rank(Keep(xs, p)[j])
  {
    if |xs| > 0 {
      var rest := Keep(xs[1..], p);
      KeepOrdered(xs[1..], p, rank);
      KeepMembers(xs[1..], p);
      if p(xs[0]) {
        forall j | 0 <= j < |rest| ensures rank(xs[0]) < rank(rest[j]) {
          var tail := xs[1..];
          assert rest[j] in Keep(tail, p);
          assert rest[j] in tail;
          var m :| 0 <= m < |tail| && tail[m] == rest[j];
          assert xs[m + 1] == rest[j];
        }
      }
    }
  }

  /** The conditional appends add `f` of exactly the elements satisfying `p`, in order. */
  lemma {:induction false} AppendEachIsKeepThenMap<T, U>(parts: seq<U>, xs: seq<T>, p: T -> bool, f: T -> U)
    ensures AppendEach(parts, xs, p, f) == parts + MapSeq(Keep(xs, p), f)
    decreases |xs|
  {
    if |xs| == 0 {
      assert parts + [] == parts;
    } else {
      var next := if p(xs[0]) then parts + [f(xs[0])] else parts;
      AppendEachIsKeepThenMap(next, xs[1..], p, f);
      if p(xs[0]) {
        assert MapSeq([xs[0]] + Keep(xs[1..], p), f) == [f(xs[0])] + MapSeq(Keep(xs[1..], p), f);
      }
    }
  }

  /** Filtering a concatenation filters each part. */
  lemma {:induction false} KeepConcat<T>(a: seq<T>, b: seq<T>, p: T -> bool)
    ensures Keep(a + b, p) == Keep(a, p) + Keep(b, p)
    decreases |a|
  {
    if |a| == 0 {
      assert a + b == b;
    } else {
      assert (a + b)[1..] == a[1..] + b;
      KeepConcat(a[1..], b, p);
    }
  }

  /** Mapping a concatenation maps each part. */
  lemma MapSeqConcat<T, U>(a: seq<T>, b: seq<T>, f: T -> U)
    ensures MapSeq(a + b, f) == MapSeq(a, f) + MapSeq(b, f)
  {
    assert forall k :: 0 <= k < |b| ==> (a + b)[|a| + k] == b[k];
  }
}
