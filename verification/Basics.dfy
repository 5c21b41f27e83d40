// Used everywhere and about nothing in particular.
module Basics {
  function Count(b: bool): nat {
    if b then 1 else 0
  }

  lemma Associate<T>(a: seq<T>, b: seq<T>, c: seq<T>)
    ensures (a + b) + c == a + (b + c)
  {
  }
}
