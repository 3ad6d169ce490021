/** ProfessionalBackground.tsx: fifty soft dots in the accent colour that drift up
    or down at their own speed, re-enter at the opposite edge, and are nudged half
    a pixel straight away from the pointer when it comes within 100 pixels. The
    source's `FloatingElement` interface is `Element` here. */
module ProfessionalBackground {
  import opened Wrappers
  import Draws
  import Hex
  import ThemeContext

  const ElementCount: nat := 50
  const Reach: real := 100.0
  const Nudge: real := 0.5

  /** A `FloatingElement`. */
  datatype Element = Element(x: real, y: real, size: real, speed: real, opacity: real, direction: int)

  /** The six draws of one element. */
  datatype ElementDraw = ElementDraw(rx: real, ry: real, rSize: real, rSpeed: real, rOpacity: real, rDirection: real)

  predicate IsElementDraw(d: ElementDraw)
  {
    Draws.IsDraw(d.rx) && Draws.IsDraw(d.ry) && Draws.IsDraw(d.rSize)
    && Draws.IsDraw(d.rSpeed) && Draws.IsDraw(d.rOpacity) && Draws.IsDraw(d.rDirection)
  }

  /** The ranges `createElements` draws from, and a direction of one pixel per unit
      of speed, up or down. */
  predicate InRange(e: Element)
  {
    1.0 <= e.size < 5.0 && 0.1 <= e.speed < 0.6 && 0.1 <= e.opacity < 0.6
    && (e.direction == 1 || e.direction == -1)
  }

  /** One element of `createElements`. */
  function NewElement(width: real, height: real, d: ElementDraw): (e: Element)
    requires IsElementDraw(d) && 0.0 <= width && 0.0 <= height
    ensures InRange(e)
    ensures 0.0 <= e.x <= width && 0.0 <= e.y <= height
    ensures e.direction == 1 <==> d.rDirection > 0.5
  {
    Draws.Scale(d.rx, width);
    Draws.Scale(d.ry, height);
    Element(d.rx * width, d.ry * height, d.rSize * 4.0 + 1.0, d.rSpeed * 0.5 + 0.1,
            d.rOpacity * 0.5 + 0.1, if d.rDirection > 0.5 then 1 else -1)
  }

  /** The vertical step of `draw`: move by `speed * direction`, then re-enter at 0
      past the bottom edge or at the bottom past the top edge. */
  function Fall(e: Element, height: real): (r: Element)
    ensures r.x == e.x && r.size == e.size && r.speed == e.speed
    ensures r.opacity == e.opacity && r.direction == e.direction
    ensures 0.0 <= height ==> 0.0 <= r.y <= height
    ensures var y := e.y + e.speed * e.direction as real;
      (height < y ==> r.y == 0.0)
      && (y < 0.0 && y <= height ==> r.y == height)
      && (0.0 <= y <= height ==> r.y == y)
  {
    var y := e.y + e.speed * e.direction as real;
    e.(y := if y > height then 0.0 else if y < 0.0 then height else y)
  }

  /** The pointer nudge: within 100 pixels the element moves half a pixel along
      `(cos θ, sin θ)` away from the pointer, where `θ = atan2(dy, dx)`. For
      `d > 0` those are `dx / d` and `dy / d`; `atan2(0, 0)` is 0. */
  function Push(e: Element, mx: real, my: real, d: real): (r: Element)
    ensures r.size == e.size && r.speed == e.speed && r.opacity == e.opacity && r.direction == e.direction
    ensures Reach <= d ==> r == e
    ensures d == 0.0 ==> r.x == e.x - Nudge && r.y == e.y
  {
    if d < Reach then
      var dx := mx - e.x;
      var dy := my - e.y;
      var cos := if d == 0.0 then 1.0 else dx / d;
      var sin := if d == 0.0 then 0.0 else dy / d;
      e.(x := e.x - cos * Nudge, y := e.y - sin * Nudge)
    else e
  }

  lemma ScaledSquare(a: real, k: real)
    ensures (a * k) * (a * k) == (a * a) * (k * k)
  {
  }

  /** The nudge moves the element straight away from the pointer: its distance
      grows from `d` to exactly `d + 0.5`. */
  lemma PushMovesAway(e: Element, mx: real, my: real, d: real)
    requires Draws.IsDistance(d, mx, my, e.x, e.y) && 0.0 < d < Reach
    ensures var r := Push(e, mx, my, d);
      Draws.IsDistance(d + Nudge, mx, my, r.x, r.y)
  {
    var dx := mx - e.x;
    var dy := my - e.y;
    var r := Push(e, mx, my, d);
    var k := 1.0 + Nudge / d;
    assert mx - r.x == dx * k by {
      assert mx - r.x == dx + (dx / d) * Nudge;
      assert (dx / d) * Nudge == dx * (Nudge / d);
    }
    assert my - r.y == dy * k by {
      assert my - r.y == dy + (dy / d) * Nudge;
      assert (dy / d) * Nudge == dy * (Nudge / d);
    }
    ScaledSquare(dx, k);
    ScaledSquare(dy, k);
    assert (dx * k) * (dx * k) + (dy * k) * (dy * k) == (dx * dx + dy * dy) * (k * k);
    assert d * k == d + Nudge;
    assert (d * d) * (k * k) == (d * k) * (d * k);
  }

  /** `colors.accent.replace('#', '')`: the first '#' removed. */
  function StripHash(s: string): (r: string)
    ensures '#' !in s ==> r == s
    ensures s != [] && s[0] == '#' ==> r == s[1..]
    ensures '#' in s ==> |r| == |s| - 1
  {
    if s == [] then []
    else if s[0] == '#' then s[1..]
    else [s[0]] + StripHash(s[1..])
  }

  /** The fill channels: `parseInt` of `substring(0, 2)`, `(2, 4)` and `(4, 6)` of the
      accent with its '#' removed. */
  function AccentRgb(accent: string): Hex.Rgb
  {
    var hex := StripHash(accent);
    Hex.Rgb(Hex.ParseInt(Hex.Slice(hex, 0, 2)), Hex.ParseInt(Hex.Slice(hex, 2, 4)),
            Hex.ParseInt(Hex.Slice(hex, 4, 6)))
  }

  /** For a colour that starts with '#', stripping and reading from 0 gives the
      same channels as reading the slices 1–3, 3–5 and 5–7 of the colour itself. */
  lemma AccentRgbAgreesWithParseColor(accent: string)
    requires accent != [] && accent[0] == '#'
    ensures AccentRgb(accent) == Hex.ParseColor(accent)
  {
    var hex := accent[1..];
    assert Hex.Slice(hex, 0, 2) == Hex.Slice(accent, 1, 3);
    assert Hex.Slice(hex, 2, 4) == Hex.Slice(accent, 3, 5);
    assert Hex.Slice(hex, 4, 6) == Hex.Slice(accent, 5, 7);
  }

  /** Every built-in accent colour yields three channels in [0, 255]. */
  lemma ThemeAccentChannels(k: nat)
    requires k < ThemeContext.ThemeCount
    ensures var c := AccentRgb(ThemeContext.InitialThemes()[k].colors.accent);
      c.r.Some? && c.g.Some? && c.b.Some? && c.r.value <= 255 && c.g.value <= 255 && c.b.value <= 255
  {
    var accent := ThemeContext.InitialThemes()[k].colors.accent;
    ThemeContext.InitialColorsWellFormed(k);
    assert accent[1..7] == accent[1..];
    Hex.ParseColorChannels(accent);
    AccentRgbAgreesWithParseColor(accent);
  }

  /** The canvas, the element list and the pointer of the component. */
  class Backdrop {
    var width: real
    var height: real
    var elements: seq<Element>
    var mouseX: real
    var mouseY: real

    ghost predicate Valid()
      reads this
    {
      0.0 <= width && 0.0 <= height
      && |elements| == ElementCount
      && forall i :: 0 <= i < |elements| ==> InRange(elements[i])
    }

    /** Mounting: `resizeCanvas` and then `createElements`. */
    constructor (w: real, h: real, draws: seq<ElementDraw>)
      requires 0.0 <= w && 0.0 <= h
      requires |draws| == ElementCount && forall i :: 0 <= i < |draws| ==> IsElementDraw(draws[i])
      ensures Valid() && width == w && height == h && mouseX == 0.0 && mouseY == 0.0
      ensures forall i :: 0 <= i < ElementCount ==> elements[i] == NewElement(w, h, draws[i])
    {
      width, height := w, h;
      mouseX, mouseY := 0.0, 0.0;
      elements := [];
      new;
      CreateElements(draws);
    }

    /** `createElements`: the list is replaced by fifty fresh elements. */
    method CreateElements(draws: seq<ElementDraw>)
      requires 0.0 <= width && 0.0 <= height
      requires |draws| == ElementCount && forall i :: 0 <= i < |draws| ==> IsElementDraw(draws[i])
      modifies this`elements
      ensures Valid()
      ensures forall i :: 0 <= i < ElementCount ==> elements[i] == NewElement(width, height, draws[i])
    {
      var es: seq<Element> := [];
      var i := 0;
      while i < ElementCount
        invariant 0 <= i <= ElementCount && |es| == i
        invariant forall j :: 0 <= j < i ==> es[j] == NewElement(width, height, draws[j])
      {
        es := es + [NewElement(width, height, draws[i])];
        i := i + 1;
      }
      elements := es;
    }

    /** `resizeCanvas`: the canvas follows the window; the elements stay as they are. */
    method ResizeCanvas(w: real, h: real)
      requires Valid() && 0.0 <= w && 0.0 <= h
      modifies this`width, this`height
      ensures Valid() && width == w && height == h
    {
      width, height := w, h;
    }

    /** `handleMouseMove` */
    method HandleMouseMove(x: real, y: real)
      modifies this`mouseX, this`mouseY
      ensures mouseX == x && mouseY == y
    {
      mouseX, mouseY := x, y;
    }

    /** The per-element updates of `draw`. `distances[i]` is element `i`'s distance
        to the pointer after its vertical step. */
    method Draw(distances: seq<real>)
      requires Valid() && |distances| == |elements|
      requires forall i :: 0 <= i < |elements| ==>
        var f := Fall(elements[i], height);
        Draws.IsDistance(distances[i], mouseX, mouseY, f.x, f.y)
      modifies this`elements
      ensures Valid()
      ensures forall i :: 0 <= i < |elements| ==>
        elements[i] == Push(Fall(old(elements)[i], height), mouseX, mouseY, distances[i])
      ensures forall i :: 0 <= i < |elements| ==> elements[i].direction == old(elements)[i].direction
    {
      var i := 0;
      while i < |elements|
        invariant 0 <= i <= |elements| == ElementCount
        invariant forall j :: 0 <= j < i ==>
          elements[j] == Push(Fall(old(elements)[j], height), mouseX, mouseY, distances[j])
        invariant forall j :: i <= j < |elements| ==> elements[j] == old(elements)[j]
        invariant forall j :: 0 <= j < |elements| ==> InRange(elements[j])
      {
        var f := Fall(elements[i], height);
        elements := elements[i := Push(f, mouseX, mouseY, distances[i])];
        i := i + 1;
      }
    }
  }
}
