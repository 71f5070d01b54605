/** Small facts about sequence concatenation, stated once so that the
    proofs that need them can call them without unfolding anything else. */
module SeqFacts {
  /** Splitting a non-empty sequence at its head, alone and followed by
      another sequence. */
  lemma SplitHead<T>(a: seq<T>, b: seq<T>)
    requires 0 < |a|
    ensures [a[0]] + a[1..] == a
    ensures [a[0]] + (a[1..] + b) == a + b
  {
  }

  /** Concatenation is associative. */
  lemma ConcatAssoc<T>(x: seq<T>, y: seq<T>, z: seq<T>)
    ensures x + (y + z) == (x + y) + z
  {
  }

  /** The empty sequence is a left unit of concatenation. */
  lemma EmptyConcat<T>(x: seq<T>)
    ensures [] + x == x
  {
  }
}
