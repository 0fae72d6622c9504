/** Regroupings of concatenations, stated once so that the proofs that
  * need them do not make the solver rediscover them among the unfolded
  * encodings around them. */
module Seqs {
  lemma AppendAssoc<T>(x: seq<T>, y: seq<T>, z: seq<T>)
    ensures x + (y + z) == (x + y) + z
  {
  }

  lemma ConsAppend<T>(xs: seq<T>, p: seq<T>)
    requires xs != []
    ensures [xs[0]] + (xs[1..] + p) == xs + p
  {
    assert xs == [xs[0]] + xs[1..];
  }

  lemma SplitLast<T>(xs: seq<T>)
    requires xs != []
    ensures xs == xs[..|xs| - 1] + [xs[|xs| - 1]]
  {
  }
}
