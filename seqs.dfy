/**
 * Two facts about slicing a sequence, stated without any of the model's recursive functions so
 * that the lemmas using them need no extensionality reasoning of their own.
 */
module Seqs {
  /** A sequence is its prefix of length k followed by the rest. */
  lemma SliceJoin<T>(s: seq<T>, k: nat)
    requires k <= |s|
    ensures s[..k] + s[k..] == s
  {
  }

  /** The prefix through element i is the prefix before it with element i appended. */
  lemma SlicePush<T>(s: seq<T>, i: nat)
    requires i < |s|
    ensures s[..i + 1] == s[..i] + [s[i]]
  {
  }
}
