/** What every other module uses: an optional value, counting a condition, and removing from a sequence. */
module Basics {

  datatype Option<+T> = None | Some(value: T)

  /** Removes the element at index i. */
  function Without<T>(s: seq<T>, i: nat): seq<T>
    requires i < |s|
  {
    s[..i] + s[i + 1..]
  }

  lemma WithoutIn<T>(s: seq<T>, i: nat)
    requires i < |s|
    ensures s[i] in s
    ensures forall x :: x in Without(s, i) ==> x in s
  {
  }

  function One(b: bool): nat {
    if b then 1 else 0
  }
}
