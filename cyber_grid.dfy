/** CyberGrid.tsx: a grid that scrolls half a pixel per frame. Horizontal lines in
    the primary colour and vertical lines in the accent colour start at the
    current offset and repeat every 50 pixels; concentric circles around the
    centre do the same out to the corner distance. Every line fades with its
    distance from the origin, but never below 0.1. */
module CyberGrid {
  import Draws
  import Hex
  import ThemeContext

  const GridSize: real := 50.0
  const Speed: real := 0.5
  const MinAlpha: real := 0.1

  /** JavaScript's `a % 50` for a non-negative `a`. */
  function Rem(a: real): (r: real)
    requires 0.0 <= a
    ensures 0.0 <= r < GridSize
    ensures a < GridSize ==> r == a
    ensures GridSize <= a < 2.0 * GridSize ==> r == a - GridSize
  {
    var q := (a / GridSize).Floor;
    assert a < GridSize ==> q == 0;
    assert GridSize <= a < 2.0 * GridSize ==> q == 1;
    a - q as real * GridSize
  }

  /** `offset = (offset + speed) % gridSize` */
  function NextOffset(offset: real): (r: real)
    requires 0.0 <= offset
    ensures 0.0 <= r < GridSize
  {
    Rem(offset + Speed)
  }

  /** The offset after `k` frames, starting from 0. */
  function OffsetAfter(k: nat): (r: real)
    ensures 0.0 <= r < GridSize
  {
    if k == 0 then 0.0 else NextOffset(OffsetAfter(k - 1))
  }

  /** The offset walks 0, 0.5, …, 49.5 and starts again: after `k` frames it is
      half of `k mod 100`. */
  lemma {:induction false} OffsetCycle(k: nat)
    ensures OffsetAfter(k) == (k % 100) as real * Speed
  {
    if k > 0 {
      OffsetCycle(k - 1);
      if (k - 1) % 100 == 99 {
        assert k % 100 == 0;
      } else {
        assert k % 100 == (k - 1) % 100 + 1;
      }
    }
  }

  /** So the grid repeats every hundred frames. */
  lemma OffsetPeriod(k: nat)
    ensures OffsetAfter(k + 100) == OffsetAfter(k)
  {
    OffsetCycle(k);
    OffsetCycle(k + 100);
    assert (k + 100) % 100 == k % 100;
  }

  /** After any whole number of hundred-frame rounds the grid is back at 0. */
  lemma OffsetReturns(m: nat)
    ensures OffsetAfter(100 * m) == 0.0
  {
    OffsetCycle(100 * m);
    assert (100 * m) % 100 == 0;
  }

  /** `Math.max(0.1, 1 - progress)` */
  function Alpha(progress: real): (a: real)
    ensures a <= 1.0 || progress < 0.0
    ensures MinAlpha <= a
    ensures 0.0 <= progress <= 0.9 ==> a == 1.0 - progress
    ensures 0.9 <= progress ==> a == MinAlpha
  {
    if MinAlpha < 1.0 - progress then 1.0 - progress else MinAlpha
  }

  /** Lines further out are never brighter. */
  lemma AlphaDecreasing(p1: real, p2: real)
    requires p1 <= p2
    ensures Alpha(p2) <= Alpha(p1)
  {
  }

  /** A drawn line: its position (a `y`, an `x` or a radius) and its opacity before
      the per-family factor (0.3 for lines, 0.2 for circles). */
  datatype Line = Line(pos: real, alpha: real)

  /** For every built-in theme both grid colours parse to three bytes. */
  lemma ThemeGridColors(k: nat)
    requires k < ThemeContext.ThemeCount
    ensures var c := Hex.ParseColor(ThemeContext.InitialThemes()[k].colors.primary);
      c.r.Some? && c.g.Some? && c.b.Some? && c.r.value <= 255 && c.g.value <= 255 && c.b.value <= 255
    ensures var c := Hex.ParseColor(ThemeContext.InitialThemes()[k].colors.accent);
      c.r.Some? && c.g.Some? && c.b.Some? && c.r.value <= 255 && c.g.value <= 255 && c.b.value <= 255
  {
    var colors := ThemeContext.InitialThemes()[k].colors;
    ThemeContext.InitialColorsWellFormed(k);
    assert colors.primary[1..7] == colors.primary[1..];
    assert colors.accent[1..7] == colors.accent[1..];
    Hex.ParseColorChannels(colors.primary);
    Hex.ParseColorChannels(colors.accent);
  }

  /** The positions one drawing loop visits: `for (p = start; p < limit; p += 50)`. */
  method Ladder(start: real, limit: real) returns (ps: seq<real>)
    ensures forall k :: 0 <= k < |ps| ==> ps[k] == start + GridSize * k as real && ps[k] < limit
    ensures limit <= start + GridSize * |ps| as real
  {
    ps := [];
    var p := start;
    while p < limit
      invariant p == start + GridSize * |ps| as real
      invariant forall k :: 0 <= k < |ps| ==> ps[k] == start + GridSize * k as real && ps[k] < limit
      decreases (limit - p).Floor
    {
      ps := ps + [p];
      p := p + GridSize;
    }
  }

  /** The lines of one loop: each fades with its progress `(p + shift) / extent`. */
  function Faded(ps: seq<real>, shift: real, extent: real): (ls: seq<Line>)
    requires 0.0 <= shift && forall k :: 0 <= k < |ps| ==> 0.0 <= ps[k] < extent
    ensures |ls| == |ps|
    ensures forall k :: 0 <= k < |ls| ==> ls[k].pos == ps[k] && ls[k].alpha == Alpha((ps[k] + shift) / extent)
    ensures forall k :: 0 <= k < |ls| ==> MinAlpha <= ls[k].alpha <= 1.0
  {
    if ps == [] then []
    else
      assert 0.0 <= ps[0] < extent;
      seq(|ps|, k requires 0 <= k < |ps| => Line(ps[k], Alpha((ps[k] + shift) / extent)))
  }

  /** The scroll state of the component. */
  class Grid {
    var offset: real

    ghost predicate Valid()
      reads this
    {
      0.0 <= offset < GridSize
    }

    constructor ()
      ensures Valid() && offset == 0.0
    {
      offset := 0.0;
    }

    /** One call of `animate` on a `width` by `height` canvas whose corner lies
        `maxRadius` from the centre: the offset advances, then the horizontal
        lines, the vertical lines and the circles are laid out. */
    method Animate(width: real, height: real, maxRadius: real)
      returns (rows: seq<Line>, cols: seq<Line>, rings: seq<Line>)
      requires Valid()
      requires Draws.IsDistance(maxRadius, 0.0, 0.0, width / 2.0, height / 2.0)
      modifies this
      ensures Valid() && offset == NextOffset(old(offset))
      ensures forall k :: 0 <= k < |rows| ==>
        rows[k].pos == offset + GridSize * k as real && rows[k].pos < height
        && rows[k].alpha == Alpha((rows[k].pos + offset) / height)
      ensures height <= offset + GridSize * |rows| as real
      ensures forall k :: 0 <= k < |cols| ==>
        cols[k].pos == offset + GridSize * k as real && cols[k].pos < width
        && cols[k].alpha == Alpha(cols[k].pos / width)
      ensures width <= offset + GridSize * |cols| as real
      ensures forall k :: 0 <= k < |rings| ==>
        rings[k].pos == offset + GridSize * k as real && rings[k].pos < maxRadius
        && rings[k].alpha == Alpha(rings[k].pos / maxRadius)
      ensures maxRadius <= offset + GridSize * |rings| as real
      ensures forall k :: 0 <= k < |cols| ==> MinAlpha <= cols[k].alpha <= 1.0
      ensures forall k :: 0 <= k < |rings| ==> MinAlpha <= rings[k].alpha <= 1.0
      ensures forall k :: 0 <= k < |rows| ==> MinAlpha <= rows[k].alpha <= 1.0
    {
      offset := NextOffset(offset);
      var ys := Ladder(offset, height);
      var xs := Ladder(offset, width);
      var rs := Ladder(offset, maxRadius);
      rows := Faded(ys, offset, height);
      cols := Faded(xs, 0.0, width);
      rings := Faded(rs, 0.0, maxRadius);
    }
  }
}
