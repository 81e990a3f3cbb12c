/** Facts about sequences that the other modules use as single proof steps. */
module Seqs {

  /** A non-empty sequence is its front with its last element appended. */
  lemma Snoc<T>(s: seq<T>)
    requires s != []
    ensures s == s[..|s| - 1] + [s[|s| - 1]]
  {
  }

  /** A suffix of a non-empty sequence is the same suffix of its front, then its last element. */
  lemma SuffixSnoc<T>(s: seq<T>, k: nat)
    requires k < |s|
    ensures s[k..] == s[..|s| - 1][k..] + [s[|s| - 1]]
  {
  }

  /** A sequence is its prefix followed by the rest. */
  lemma SplitAt<T>(s: seq<T>, j: nat)
    requires j <= |s|
    ensures s[..j] + s[j..] == s
  {
  }

  /** An element of three sequences laid end to end comes from the one its index falls in. */
  lemma IndexThree<T>(p: seq<T>, q: seq<T>, r: seq<T>, j: nat)
    requires j < |p| + |q| + |r|
    ensures (p + q + r)[j] == if j < |p| then p[j] else if j < |p| + |q| then q[j - |p|] else r[j - |p| - |q|]
  {
  }

  /** Concatenation is associative. */
  lemma AppendAssoc<T>(a: seq<T>, b: seq<T>, c: seq<T>)
    ensures (a + b) + c == a + (b + c)
  {
  }
}
