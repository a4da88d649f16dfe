/** Concatenation facts that the verifier wants named. */
module Sequences {

  lemma {:induction false} AppendNothing<T>(a: seq<T>)
    ensures a + [] == a
  {
  }

  lemma {:induction false} PrependNothing<T>(a: seq<T>)
    ensures [] + a == a
  {
  }

  lemma {:induction false} AppendAssociates<T>(a: seq<T>, b: seq<T>, c: seq<T>)
    ensures a + (b + c) == a + b + c
  {
  }
}
