// Identities of sequence concatenation, stated once so that proofs about the
// model can use them without re-deriving them next to large definitions.

module SeqFacts {
  lemma ConsThenAppend<T>(a: seq<T>, b: seq<T>)
    requires a != []
    ensures (a + b)[0] == a[0] && (a + b)[1..] == a[1..] + b
  {
  }

  lemma HeadThenTail<T>(x: T, rest: seq<T>)
    ensures [x] + rest != [] && ([x] + rest)[0] == x && ([x] + rest)[1..] == rest
  {
  }

  lemma AppendAssociates<T>(x: seq<T>, y: seq<T>, z: seq<T>)
    ensures x + (y + z) == (x + y) + z
  {
  }

  lemma EmptyThenOne<T>(e: seq<T>, x: T)
    requires e == []
    ensures e + [x] == [x]
  {
  }

  lemma FirstThreeThenRest<T>(b: seq<T>)
    requires |b| >= 3
    ensures [b[0], b[1], b[2]] + b[3..] == b
  {
  }

  lemma RegroupAfterHead<T>(h: seq<T>, x: seq<T>, y: seq<T>, z: seq<T>, w: seq<T>)
    ensures h + x + y + z + w == h + (x + y + z + w)
  {
  }

  lemma JoinThenSplit<T>(p: seq<T>, s: seq<T>)
    ensures (p + s)[..|p|] == p && (p + s)[|p|..] == s
  {
  }

  lemma AppendFirstThenRest<T>(b: seq<T>, t: seq<T>)
    requires t != []
    ensures b + t == b + [t[0]] + t[1..]
  {
  }

  lemma AppendEmpty<T>(b: seq<T>, t: seq<T>)
    requires t == []
    ensures b + t == b
  {
  }

  lemma FirstThenRest<T>(a: seq<T>)
    requires a != []
    ensures a == [a[0]] + a[1..]
  {
  }

  lemma InitThenLast<T>(a: seq<T>)
    requires a != []
    ensures a[..|a| - 1] + [a[|a| - 1]] == a
  {
  }
}
