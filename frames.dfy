/** Data frames read as sequences of rows.

    A pandas boolean-mask subset `frame[mask]` keeps the rows the mask accepts,
    in their original order; `pd.concat` appends frames; `drop_duplicates(keep=False)`
    removes every row that occurs more than once. This module gives those three
    operations one definition each, with the facts the two scripts rely on. */
module Frames {

  /** A value that may be missing (a pandas NaN or None). */
  datatype Option<+T> = None | Some(value: T) {
    function GetOr(default: T): T {
      if Some? then value else default
    }
  }

  /** The outcome of an operation that raises instead of returning. */
  datatype Result<+T, +E> = Success(value: T) | Failure(error: E)

  /** `frame[mask]`: the rows of `s` that `p` accepts, in their original order. */
  function Filter<T(!new)>(s: seq<T>, p: T -> bool): (r: seq<T>)
    ensures |r| <= |s|
    ensures forall x :: x in r <==> x in s && p(x)
  {
    if s == [] then []
    else if p(s[0]) then [s[0]] + Filter(s[1..], p)
    else Filter(s[1..], p)
  }

  /** `a` is `b` with some rows removed and the others left in their order. */
  ghost predicate IsSubsequence<T(!new)>(a: seq<T>, b: seq<T>)
    decreases |b|
  {
    a == [] || (b != [] && ((a[0] == b[0] && IsSubsequence(a[1..], b[1..])) || IsSubsequence(a, b[1..])))
  }

  /** No value occurs twice. */
  ghost predicate Distinct<T(!new)>(s: seq<T>) {
    forall i, j :: 0 <= i < j < |s| ==> s[i] != s[j]
  }

  /** A mask never reorders rows. */
  lemma {:induction false} FilterIsSubsequence<T(!new)>(s: seq<T>, p: T -> bool)
    ensures IsSubsequence(Filter(s, p), s)
  {
    if s != [] {
      FilterIsSubsequence(s[1..], p);
      var r := Filter(s, p);
      if p(s[0]) {
        assert r[0] == s[0] && r[1..] == Filter(s[1..], p);
      }
    }
  }

  /** A mask that accepts every row changes nothing. */
  lemma {:induction false} FilterAll<T(!new)>(s: seq<T>, p: T -> bool)
    requires forall x :: x in s ==> p(x)
    ensures Filter(s, p) == s
  {
    if s != [] {
      FilterAll(s[1..], p);
    }
  }

  /** A mask that rejects every row selects nothing. */
  lemma {:induction false} FilterNone<T(!new)>(s: seq<T>, p: T -> bool)
    requires forall x :: x in s ==> !p(x)
    ensures Filter(s, p) == []
  {
    if s != [] {
      FilterNone(s[1..], p);
    }
  }

  /** Two masks that agree on every row of `s` select the same rows. */
  lemma {:induction false} FilterCongruent<T(!new)>(s: seq<T>, p: T -> bool, q: T -> bool)
    requires forall x :: x in s ==> p(x) == q(x)
    ensures Filter(s, p) == Filter(s, q)
  {
    if s != [] {
      FilterCongruent(s[1..], p, q);
    }
  }

  /** Masking twice is masking once with the conjunction of the two masks. */
  lemma {:induction false} FilterFilter<T(!new)>(s: seq<T>, p: T -> bool, q: T -> bool, both: T -> bool)
    requires forall x :: x in s ==> both(x) == (p(x) && q(x))
    ensures Filter(Filter(s, p), q) == Filter(s, both)
  {
    if s != [] {
      FilterFilter(s[1..], p, q, both);
    }
  }

  /** A mask keeps every copy of an accepted row and no copy of a rejected one. */
  lemma {:induction false} FilterCount<T(!new)>(s: seq<T>, p: T -> bool, x: T)
    ensures multiset(Filter(s, p))[x] == if p(x) then multiset(s)[x] else 0
  {
    if s != [] {
      FilterCount(s[1..], p, x);
      assert s == [s[0]] + s[1..];
    }
  }

  /** A mask and its complement split a frame: every row lands in exactly one part. */
  lemma {:induction false} FilterPartition<T(!new)>(s: seq<T>, p: T -> bool, q: T -> bool)
    requires forall x :: x in s ==> q(x) == !p(x)
    ensures multiset(Filter(s, p)) + multiset(Filter(s, q)) == multiset(s)
    ensures |Filter(s, p)| + |Filter(s, q)| == |s|
  {
    if s != [] {
      FilterPartition(s[1..], p, q);
      assert s == [s[0]] + s[1..];
    }
  }

  /** The rows accepted by `either` are those of two disjoint masks taken together. */
  lemma {:induction false} FilterDisjointUnion<T(!new)>(s: seq<T>, p: T -> bool, q: T -> bool, either: T -> bool)
    requires forall x :: x in s ==> either(x) == (p(x) || q(x)) && !(p(x) && q(x))
    ensures |Filter(s, either)| == |Filter(s, p)| + |Filter(s, q)|
  {
    if s != [] {
      FilterDisjointUnion(s[1..], p, q, either);
    }
  }

  /** `pd.concat(frames)` on a non-empty list of frames: the rows of each, one frame after another. */
  function Concat<T(!new)>(frames: seq<seq<T>>): (r: seq<T>)
    ensures forall i, x :: 0 <= i < |frames| && x in frames[i] ==> x in r
    ensures forall x :: x in r ==> exists i :: 0 <= i < |frames| && x in frames[i]
  {
    if frames == [] then []
    else
      var rest := Concat(frames[1..]);
      assert forall x :: x in rest ==> exists i :: 0 <= i < |frames| && x in frames[i] by {
        forall x | x in rest
          ensures exists i :: 0 <= i < |frames| && x in frames[i]
        {
          var j :| 0 <= j < |frames[1..]| && x in frames[1..][j];
          assert x in frames[j + 1];
        }
      }
      frames[0] + rest
  }

  /** The number of copies of `x` in all the frames together. */
  function CopiesAcross<T(==,!new)>(frames: seq<seq<T>>, x: T): nat {
    if frames == [] then 0 else multiset(frames[0])[x] + CopiesAcross(frames[1..], x)
  }

  /** `pd.concat` keeps every copy: a row occurs in the result as often as in all
      the frames together. */
  lemma {:induction false} ConcatCount<T(!new)>(frames: seq<seq<T>>, x: T)
    ensures multiset(Concat(frames))[x] == CopiesAcross(frames, x)
  {
    if frames != [] {
      ConcatCount(frames[1..], x);
    }
  }

  /** `pd.concat` keeps the order of the frames: concatenating a prefix of the
      frames and then the rest is concatenating them all. */
  lemma {:induction false} ConcatSplit<T(!new)>(frames: seq<seq<T>>, k: nat)
    requires k <= |frames|
    ensures Concat(frames[..k]) + Concat(frames[k..]) == Concat(frames)
  {
    if k > 0 {
      ConcatSplit(frames[1..], k - 1);
      assert frames[..k][1..] == frames[1..][..k - 1];
      assert frames[k..] == frames[1..][k - 1..];
    }
  }

  /** `drop_duplicates(keep=False)`: a row survives only if it occurs exactly once;
      every copy of a repeated row goes, the first one included. */
  function DropAllDuplicates<T(==,!new)>(s: seq<T>): (r: seq<T>)
    ensures forall x :: x in r <==> multiset(s)[x] == 1
  {
    Filter(s, x => multiset(s)[x] == 1)
  }

  /** The survivors of `drop_duplicates(keep=False)` keep their order and are pairwise distinct. */
  lemma DropAllDuplicatesShape<T(!new)>(s: seq<T>)
    ensures IsSubsequence(DropAllDuplicates(s), s)
    ensures forall x :: multiset(DropAllDuplicates(s))[x] == if multiset(s)[x] == 1 then 1 else 0
  {
    FilterIsSubsequence(s, x => multiset(s)[x] == 1);
    forall x ensures multiset(DropAllDuplicates(s))[x] == if multiset(s)[x] == 1 then 1 else 0 {
      FilterCount(s, x => multiset(s)[x] == 1, x);
    }
  }
}
