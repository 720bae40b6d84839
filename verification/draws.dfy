/**
 * `Math.random()` is an input here: a draw is a real in [0, 1), and the
 * source's `Math.floor(Math.random() * n)` picks an index below n.
 */
module Draws {

  predicate IsDraw(x: real) {
    0.0 <= x < 1.0
  }

  predicate AllDraws(xs: seq<real>) {
    forall i :: 0 <= i < |xs| ==> IsDraw(xs[i])
  }

  /** `Math.floor(draw * n)`: an index below n. */
  function Scale(draw: real, n: nat): (k: nat)
    requires IsDraw(draw) && n > 0
    ensures k < n
    ensures k as real <= draw * n as real < k as real + 1.0
  {
    DrawTimesBelow(draw, n as real);
    (draw * n as real).Floor
  }

  /** Scaling a draw by a positive bound stays in [0, bound). */
  lemma DrawTimesBelow(d: real, m: real)
    requires IsDraw(d) && m > 0.0
    ensures 0.0 <= d * m < m
  {
  }

  /** A generated line: `characters.charAt(Math.floor(Math.random() * characters.length))` once per draw. */
  function DrawLine(alphabet: string, draws: seq<real>): (line: string)
    requires |alphabet| > 0 && AllDraws(draws)
    ensures |line| == |draws|
    ensures forall i :: 0 <= i < |line| ==> line[i] in alphabet
  {
    seq(|draws|, i requires 0 <= i < |draws| => alphabet[Scale(draws[i], |alphabet|)])
  }
}
