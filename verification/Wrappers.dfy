// Results that may be missing.

module Wrappers {
  datatype Option<+T> = None | Some(value: T)

  // Puts elements in front of a list, if there is one.
  function Prepend<T>(s: seq<T>, rest: Option<seq<T>>): Option<seq<T>> {
    if rest.None? then None else Some(s + rest.value)
  }

  lemma PrependNothing<T>(rest: Option<seq<T>>)
    ensures Prepend([], rest) == rest
  {
    if rest.Some? {
      assert [] + rest.value == rest.value;
    }
  }

  lemma PrependTwice<T>(a: seq<T>, b: seq<T>, rest: Option<seq<T>>)
    ensures Prepend(a, Prepend(b, rest)) == Prepend(a + b, rest)
  {
    if rest.Some? {
      assert a + (b + rest.value) == a + b + rest.value;
    }
  }
}
