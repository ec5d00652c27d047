/** Facts about strings as sequences of characters: occurrence and slicing. */
module Strings {

  /** `sub` occurs in `s` starting at position `k`. */
  predicate OccursAt(s: string, sub: string, k: int) {
    0 <= k && k + |sub| <= |s| && s[k..k + |sub|] == sub
  }

  /** `sub` occurs somewhere inside `s`. */
  ghost predicate Contains(s: string, sub: string) {
    exists k :: OccursAt(s, sub, k)
  }

  /** A string built around `middle` contains it. */
  lemma ContainsMiddle(prefix: string, middle: string, suffix: string)
    ensures Contains(prefix + middle + suffix, middle)
  {
    var s := prefix + middle + suffix;
    assert s[|prefix|..|prefix| + |middle|] == middle;
    assert OccursAt(s, middle, |prefix|);
  }

  /** A concatenation of five strings splits back into its parts. */
  lemma SplitFive(a: string, b: string, c: string, d: string, e: string)
    ensures var s := a + b + c + d + e;
      var i, j, k := |a| + |b|, |a| + |b| + |c|, |a| + |b| + |c| + |d|;
      && |s| == k + |e|
      && s[..|a|] == a
      && s[|a|..i] == b
      && s[i..j] == c
      && s[j..k] == d
      && s[k..] == e
  {
    var s := a + b + c + d + e;
    var i, j, k := |a| + |b|, |a| + |b| + |c|, |a| + |b| + |c| + |d|;
    assert s == (a + b + c + d) + e;
    assert s[..k] == a + b + c + d;
    assert (a + b + c + d)[..j] == a + b + c;
    assert (a + b + c)[..i] == a + b;
  }
}
