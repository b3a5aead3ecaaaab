/** Order-preserving selection over sequences: the `Array.prototype.filter` that the task list
    uses for deletion and for search, with the reference notions it is proved against. */
module Seqs {

  /** Keeps, in order, the elements of `s` for which `keep` holds. */
  function Filter<T>(s: seq<T>, keep: T -> bool): (r: seq<T>)
    ensures |r| <= |s|
    ensures forall i :: 0 <= i < |r| ==> r[i] in s && keep(r[i])
    ensures forall i :: 0 <= i < |s| && keep(s[i]) ==> s[i] in r
  {
    if s == [] then []
    else
      var rest := Filter(s[1..], keep);
      if keep(s[0]) then [s[0]] + rest else rest
  }

  /** Number of elements of `s` for which `f` holds. */
  function Count<T>(s: seq<T>, f: T -> bool): (n: nat)
    ensures n <= |s|
  {
    if s == [] then 0 else (if f(s[0]) then 1 else 0) + Count(s[1..], f)
  }

  /** `a` can be obtained from `b` by deleting elements: either `b`'s first element is
      matched by `a`'s first one, or it is skipped. */
  predicate IsSubseq<T(==)>(a: seq<T>, b: seq<T>)
  {
    a == [] || (b != [] && ((a[0] == b[0] && IsSubseq(a[1..], b[1..])) || IsSubseq(a, b[1..])))
  }

  /** Filtering keeps the surviving elements in their original relative order, unchanged. */
  lemma {:induction false} FilterIsSubseq<T>(s: seq<T>, keep: T -> bool)
    ensures IsSubseq(Filter(s, keep), s)
  {
    if s != [] {
      FilterIsSubseq(s[1..], keep);
      var rest := Filter(s[1..], keep);
      if keep(s[0]) {
        assert Filter(s, keep) == [s[0]] + rest;
        assert ([s[0]] + rest)[1..] == rest;
      } else {
        assert Filter(s, keep) == rest;
      }
    }
  }

  /** The filtered sequence holds exactly as many elements as satisfy the predicate. */
  lemma {:induction false} FilterLength<T>(s: seq<T>, keep: T -> bool)
    ensures |Filter(s, keep)| == Count(s, keep)
  {
    if s != [] {
      FilterLength(s[1..], keep);
    }
  }

  /** Counting a predicate and its negation splits the sequence. */
  lemma {:induction false} CountComplement<T>(s: seq<T>, f: T -> bool, g: T -> bool)
    requires forall x :: g(x) == !f(x)
    ensures Count(s, g) == |s| - Count(s, f)
  {
    if s != [] {
      CountComplement(s[1..], f, g);
    }
  }

  /** A second filter with the same predicate changes nothing. */
  lemma {:induction false} FilterIdempotent<T>(s: seq<T>, keep: T -> bool)
    ensures Filter(Filter(s, keep), keep) == Filter(s, keep)
  {
    if s != [] {
      FilterIdempotent(s[1..], keep);
      var rest := Filter(s[1..], keep);
      if keep(s[0]) {
        assert ([s[0]] + rest)[1..] == rest;
      }
    }
  }

  /** A predicate that holds everywhere keeps the whole sequence. */
  lemma {:induction false} FilterKeepsAll<T>(s: seq<T>, keep: T -> bool)
    requires forall i :: 0 <= i < |s| ==> keep(s[i])
    ensures Filter(s, keep) == s
  {
    if s != [] {
      FilterKeepsAll(s[1..], keep);
    }
  }
}
