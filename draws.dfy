/** Values of `Math.random()` and of `Math.sqrt`, which the effects take as
    parameters, and how they scale. */
module Draws {

  /** A value `Math.random()` can return. */
  predicate IsDraw(r: real)
  {
    0.0 <= r < 1.0
  }

  /** A draw scaled by a non-negative span stays within the span. */
  lemma Scale(r: real, span: real)
    ensures IsDraw(r) && 0.0 <= span ==> 0.0 <= r * span <= span
    ensures IsDraw(r) && 0.0 < span ==> r * span < span
  {
    assert span - r * span == (1.0 - r) * span;
  }

  /** `Math.floor(r * n)`: an index drawn uniformly from `0 .. n - 1`. */
  function PickIndex(r: real, n: nat): (i: nat)
    requires IsDraw(r) && 0 < n
    ensures i < n && i as real <= r * n as real < i as real + 1.0
  {
    var span := n as real;
    Scale(r, span);
    (r * span).Floor
  }

  /** `d` is the distance `Math.sqrt(dx * dx + dy * dy)` from `(mx, my)` to `(x, y)`. */
  predicate IsDistance(d: real, mx: real, my: real, x: real, y: real)
  {
    0.0 <= d && d * d == (mx - x) * (mx - x) + (my - y) * (my - y)
  }
}
