/** What several modules share. */
module Wrappers {
  datatype Option<+T> = None | Some(value: T)

  function RemoveAt<T>(s: seq<T>, i: nat): seq<T>
    requires i < |s|
  {
    s[..i] + s[i + 1..]
  }

  function Zeros(n: nat): seq<real> { seq(n, _ => 0.0) }

  /** Conversion of a real to an integer type: towards zero. */
  function Trunc(x: real): int { if x >= 0.0 then x.Floor else -((-x).Floor) }

  lemma Onto<T>(a: seq<T>, b: seq<T>, c: seq<T>)
    ensures a + (b + c) == (a + b) + c
  {
  }
}
