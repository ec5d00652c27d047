/** Order-preserving subsequences. */
module Subsequence {

  /** `a` is obtained from `b` by deleting elements, keeping the order of the rest. */
  predicate IsSubsequence<T(==)>(a: seq<T>, b: seq<T>)
    decreases |b|
  {
    if a == [] then true
    else if b == [] then false
    else if a[0] == b[0] then IsSubsequence(a[1..], b[1..])
    else IsSubsequence(a, b[1..])
  }

  /** Every element of a subsequence occurs in the sequence it was taken from. */
  lemma {:induction false} SubsequenceElement<T>(a: seq<T>, b: seq<T>, i: int)
    requires IsSubsequence(a, b) && 0 <= i < |a|
    ensures a[i] in b
    decreases |b|
  {
    if a[0] == b[0] {
      if i > 0 {
        SubsequenceElement(a[1..], b[1..], i - 1);
      }
    } else {
      SubsequenceElement(a, b[1..], i);
    }
  }
}
