/** Small facts about sequences shared by the layout and report proofs. */
module SeqFacts {

  /** A prefix of a concatenation that stops inside the first part is a prefix of that part. */
  lemma PrefixOfConcat<T>(a: seq<T>, b: seq<T>, n: nat)
    requires n <= |a|
    ensures (a + b)[..n] == a[..n]
  {
  }

  /** Element `i` of a concatenation comes from the first part or, past its end, from the second. */
  lemma ConcatAt<T>(a: seq<T>, b: seq<T>, i: nat)
    requires i < |a| + |b|
    ensures (a + b)[i] == if i < |a| then a[i] else b[i - |a|]
  {
  }
}
