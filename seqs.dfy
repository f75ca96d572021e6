/** Filtering and summing sequences of records, as query sets and `sum(...)` do. */
module Seqs {

  /** The elements of `s` that `keep` admits, in their order in `s`. */
  function Filter<T(==,!new)>(s: seq<T>, keep: T -> bool): (r: seq<T>)
    ensures |r| <= |s|
    ensures forall x :: x in r <==> x in s && keep(x)
  {
    if s == [] then [] else (if keep(s[0]) then [s[0]] else []) + Filter(s[1..], keep)
  }

  /** The sum of `f` over `s`; 0 for an empty sequence. */
  function Sum<T>(s: seq<T>, f: T -> int): int
  {
    if s == [] then 0 else f(s[0]) + Sum(s[1..], f)
  }

  lemma {:induction false} SumAppend<T>(a: seq<T>, b: seq<T>, f: T -> int)
    ensures Sum(a + b, f) == Sum(a, f) + Sum(b, f)
  {
    if a != [] {
      assert (a + b)[0] == a[0];
      assert (a + b)[1..] == a[1..] + b;
      SumAppend(a[1..], b, f);
    } else {
      assert a + b == b;
    }
  }

  /** A sum of non-negative terms is non-negative. */
  lemma {:induction false} SumNonNegative<T>(s: seq<T>, f: T -> int)
    requires forall i :: 0 <= i < |s| ==> f(s[i]) >= 0
    ensures Sum(s, f) >= 0
  {
    if s != [] {
      SumNonNegative(s[1..], f);
    }
  }

  /** A filter that admits nothing of `s` gives the empty sequence. */
  lemma FilterNone<T(!new)>(s: seq<T>, keep: T -> bool)
    requires forall x :: x in s ==> !keep(x)
    ensures Filter(s, keep) == []
  {
  }

  /**
   * Inclusion-exclusion for two filters: counting the elements admitted by `p` and
   * those admitted by `q` counts those admitted by either once and those admitted
   * by both twice.
   */
  lemma {:induction false} FilterInclusionExclusion<T(!new)>(
    s: seq<T>, p: T -> bool, q: T -> bool, either: T -> bool, both: T -> bool, f: T -> int)
    requires forall x :: x in s ==> (either(x) <==> p(x) || q(x)) && (both(x) <==> p(x) && q(x))
    ensures Sum(Filter(s, p), f) + Sum(Filter(s, q), f) == Sum(Filter(s, either), f) + Sum(Filter(s, both), f)
  {
    if s != [] {
      var x := s[0];
      FilterInclusionExclusion(s[1..], p, q, either, both, f);
      SumAppend(if p(x) then [x] else [], Filter(s[1..], p), f);
      SumAppend(if q(x) then [x] else [], Filter(s[1..], q), f);
      SumAppend(if either(x) then [x] else [], Filter(s[1..], either), f);
      SumAppend(if both(x) then [x] else [], Filter(s[1..], both), f);
    }
  }
}
