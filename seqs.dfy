/** Order-preservation for the lists the simulation shrinks in place. */
module Seqs {

  /** a can be obtained from b by deleting elements, keeping the order of the rest. */
  predicate Subsequence<T(==)>(a: seq<T>, b: seq<T>)
    decreases |b|
  {
    if a == [] then true
    else if b == [] then false
    else (a[0] == b[0] && Subsequence(a[1..], b[1..])) || Subsequence(a, b[1..])
  }

  /** Splicing out index |pre| of pre + [x] + post. */
  lemma SpliceOut<T>(s: seq<T>, pre: seq<T>, x: T, post: seq<T>)
    requires s == pre + [x] + post
    ensures s[|pre|] == x
    ensures s[..|pre|] + s[|pre| + 1..] == pre + post
  {
    assert s[..|pre|] == pre;
    assert s[|pre| + 1..] == post;
  }

  /** Moving the element at index i from the prefix to the processed suffix. */
  lemma StepBack<T>(s: seq<T>, i: nat)
    requires i < |s|
    ensures s[i..] == [s[i]] + s[i + 1..]
    ensures s[..i + 1] == s[..i] + [s[i]]
  {
  }
}
