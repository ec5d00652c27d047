/**
 * JavaScript truthiness for the few values the bridge tests with `||` or `!`.
 * An optional string is falsy when it is `undefined` or empty; an optional
 * number is falsy when it is `undefined` or zero.
 */
module Truthiness {
  import opened Wrappers

  predicate TruthyString(s: Option<string>) {
    s.Some? && s.value != ""
  }

  /** The value of the JavaScript expression `s || fallback`. */
  function StringOr(s: Option<string>, fallback: string): string {
    if TruthyString(s) then s.value else fallback
  }

  predicate TruthyNumber(n: Option<int>) {
    n.Some? && n.value != 0
  }

  /** The value of the JavaScript expression `n || fallback`. */
  function NumberOr(n: Option<int>, fallback: int): int {
    if TruthyNumber(n) then n.value else fallback
  }
}
