/** URL assembly by plain string concatenation, as the bridge's template literals do it. */
module Urls {

  /**
   * `${base}/${relative}`: no normalisation, so a relative path that starts
   * with a slash yields a double slash.
   */
  function Join(base: string, relative: string): (u: string)
    ensures |u| == |base| + 1 + |relative|
    ensures u[..|base|] == base
    ensures u[|base|] == '/'
    ensures u[|base| + 1..] == relative
  {
    base + "/" + relative
  }

  /** Two joined URLs coincide exactly when their parts do. */
  lemma JoinInjective(b1: string, r1: string, b2: string, r2: string)
    requires |b1| == |b2|
    ensures Join(b1, r1) == Join(b2, r2) <==> b1 == b2 && r1 == r2
  {
    if Join(b1, r1) == Join(b2, r2) {
      assert b1 == Join(b1, r1)[..|b1|];
      assert r1 == Join(b1, r1)[|b1| + 1..];
    }
  }
}
