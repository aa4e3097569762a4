/** Order-preserving selection of elements from a sequence. */
module Sequences {

  /** `a` is obtained from `b` by deleting elements, keeping the order of the rest. */
  predicate IsSubsequence<T(==)>(a: seq<T>, b: seq<T>)
    decreases |b|
  {
    if a == [] then true
    else if b == [] then false
    else (a[0] == b[0] && IsSubsequence(a[1..], b[1..])) || IsSubsequence(a, b[1..])
  }

  lemma {:induction false} SubsequenceReflexive<T>(s: seq<T>)
    ensures IsSubsequence(s, s)
  {
    if s != [] {
      SubsequenceReflexive(s[1..]);
    }
  }

  /** Dropping a prefix keeps a subsequence. */
  lemma {:induction false} SuffixIsSubsequence<T>(a: seq<T>, b: seq<T>)
    ensures IsSubsequence(b, a + b)
  {
    if a == [] {
      assert a + b == b;
      SubsequenceReflexive(b);
    } else {
      assert (a + b)[1..] == a[1..] + b;
      SuffixIsSubsequence(a[1..], b);
    }
  }

  /** A subsequence is never longer, and each of its elements comes from the original. */
  lemma {:induction false} SubsequenceElements<T>(a: seq<T>, b: seq<T>)
    requires IsSubsequence(a, b)
    ensures |a| <= |b|
    ensures forall x :: x in a ==> x in b
  {
    if a != [] {
      if a[0] == b[0] && IsSubsequence(a[1..], b[1..]) {
        SubsequenceElements(a[1..], b[1..]);
        assert forall x :: x in a ==> x == a[0] || x in a[1..];
      } else {
        SubsequenceElements(a, b[1..]);
      }
    }
  }
}
