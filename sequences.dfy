/** Facts about appending to a sequence, used to follow the builder's command log. */
module Sequences {
  /** Concatenation regroups. */
  lemma Regroup<T>(a: seq<T>, b: seq<T>, c: seq<T>)
    ensures a + b + c == a + (b + c)
  {
  }

  /** Appending keeps what was there. */
  lemma PrefixKept<T>(a: seq<T>, b: seq<T>)
    ensures (a + b)[..|a|] == a
  {
  }

  /** An element of `a` keeps its index in `a + b`. */
  lemma IndexKept<T>(a: seq<T>, b: seq<T>, i: nat)
    requires i < |a|
    ensures (a + b)[i] == a[i]
  {
  }

  /** What follows `a` in `a + b` is `b`. */
  lemma SuffixKept<T>(a: seq<T>, b: seq<T>)
    ensures (a + b)[|a|..] == b
  {
  }

  /** The first `n` elements of `b` sit right after `a` in `a + b`. */
  lemma SliceAfter<T>(a: seq<T>, b: seq<T>, n: nat)
    requires n <= |b|
    ensures (a + b)[|a|..|a| + n] == b[..n]
  {
  }
}
