/** Order-preserving subsequences, for the list filters of the pages. */
module Sequences {

  /** `a` is `b` with some elements dropped and the rest in their original order. */
  predicate IsSubsequence<T(==)>(a: seq<T>, b: seq<T>)
    decreases |b|
  {
    if a == [] then true
    else if b == [] then false
    else (a[0] == b[0] && IsSubsequence(a[1..], b[1..])) || IsSubsequence(a, b[1..])
  }

  /** Every sequence is a subsequence of itself. */
  lemma {:induction false} SubsequenceRefl<T>(a: seq<T>)
    ensures IsSubsequence(a, a)
    decreases |a|
  {
    if a != [] {
      SubsequenceRefl(a[1..]);
    }
  }
}
