/**
 * Go's functional options: an option is a closure that updates a settings
 * record in place (`o(&options)`). Applying a slice of them in order is a
 * left fold over the record.
 */
module FunctionalOptions {

  /** The settings after applying `fs` to `start`, first element first. */
  function ApplyAll<T>(start: T, fs: seq<T -> T>): T
  {
    if fs == [] then start else fs[|fs| - 1](ApplyAll(start, fs[..|fs| - 1]))
  }

  /** One more option applied after a prefix is the fold of the longer prefix. */
  lemma ApplyAllStep<T>(start: T, fs: seq<T -> T>, i: nat)
    requires i < |fs|
    ensures ApplyAll(start, fs[..i + 1]) == fs[i](ApplyAll(start, fs[..i]))
  {
    assert fs[..i + 1][..i] == fs[..i];
  }

  /**
   * Applying `first` and then, on top of the result, `second` is the same
   * as applying their concatenation: options given in two batches (at
   * construction and in a later `Init`) act as one batch in that order.
   */
  lemma {:induction false} ApplyAllConcat<T>(start: T, first: seq<T -> T>, second: seq<T -> T>)
    ensures ApplyAll(ApplyAll(start, first), second) == ApplyAll(start, first + second)
  {
    if second != [] {
      var n := |second| - 1;
      ApplyAllConcat(start, first, second[..n]);
      assert (first + second)[..|first + second| - 1] == first + second[..n];
    } else {
      assert first + second == first;
    }
  }
}
