/** ParticleField.tsx: a field of slowly drifting dots that wrap around the canvas
    edges, swell near the pointer and are joined by lines whose opacity falls
    with their length. The canvas is sized in device pixels; the particles live
    in CSS pixels (device pixels divided by the pixel ratio). The source's `Particle`
    interface is `Dot` here. */
module ParticleField {
  import opened Wrappers
  import Draws
  import Hex

  const Density: real := 15000.0
  const MaxParticles: nat := 100
  const MaxDistance: real := 100.0

  /** A `Particle`: position, per-frame step, current and resting size. */
  datatype Dot = Dot(x: real, y: real, dx: real, dy: real, size: real, originalSize: real)

  /** The six draws of one particle. */
  datatype DotDraw = DotDraw(rx: real, ry: real, rdx: real, rdy: real, rSize: real, rOriginal: real)

  predicate IsDotDraw(d: DotDraw)
  {
    Draws.IsDraw(d.rx) && Draws.IsDraw(d.ry) && Draws.IsDraw(d.rdx) && Draws.IsDraw(d.rdy)
    && Draws.IsDraw(d.rSize) && Draws.IsDraw(d.rOriginal)
  }

  /** `Math.min(Math.floor((width * height) / 15000), 100)`, and the number of
      iterations the push loop makes with it (none when it is negative). */
  function ParticleCount(width: real, height: real): (n: nat)
    ensures n <= MaxParticles
    ensures 0 <= (width * height / Density).Floor < MaxParticles ==> n == (width * height / Density).Floor
    ensures MaxParticles <= (width * height / Density).Floor ==> n == MaxParticles
    ensures (width * height / Density).Floor < 0 ==> n == 0
  {
    var c := (width * height / Density).Floor;
    var m := if c < MaxParticles then c else MaxParticles;
    if m < 0 then 0 else m
  }

  /** A full-HD window (1920 by 1080 CSS pixels) holds 100 particles, a
      1280 by 720 one 61. */
  lemma CountExamples()
    ensures ParticleCount(1920.0, 1080.0) == 100
    ensures ParticleCount(1280.0, 720.0) == 61
  {
    assert 1920.0 * 1080.0 / Density == 138.24;
    assert 1280.0 * 720.0 / Density == 61.44;
  }

  /** A larger window never holds fewer particles. */
  lemma CountMonotone(w1: real, h1: real, w2: real, h2: real)
    requires 0.0 <= w1 <= w2 && 0.0 <= h1 <= h2
    ensures ParticleCount(w1, h1) <= ParticleCount(w2, h2)
  {
    assert w1 * h1 <= w2 * h1 by {
      assert w2 * h1 - w1 * h1 == (w2 - w1) * h1;
    }
    assert w2 * h1 <= w2 * h2 by {
      assert w2 * h2 - w2 * h1 == w2 * (h2 - h1);
    }
    DensityMonotone(w1 * h1, w2 * h2);
  }

  /** Dividing by the density keeps the order of two areas. */
  lemma DensityMonotone(a: real, b: real)
    requires a <= b
    ensures a / Density <= b / Density
  {
  }

  /** One freshly initialised particle. */
  function NewDot(width: real, height: real, d: DotDraw): (p: Dot)
    requires IsDotDraw(d) && 0.0 <= width && 0.0 <= height
    ensures 0.0 <= p.x <= width && 0.0 <= p.y <= height
    ensures -0.25 <= p.dx < 0.25 && -0.25 <= p.dy < 0.25
    ensures 1.0 <= p.size < 3.0 && 1.0 <= p.originalSize < 3.0
  {
    Draws.Scale(d.rx, width);
    Draws.Scale(d.ry, height);
    Dot(d.rx * width, d.ry * height, (d.rdx - 0.5) * 0.5, (d.rdy - 0.5) * 0.5,
        d.rSize * 2.0 + 1.0, d.rOriginal * 2.0 + 1.0)
  }

  /** The two wrap checks on one axis: below 0 jumps to the far edge, beyond the
      far edge jumps to 0, in that order. */
  function Wrap(v: real, extent: real): (r: real)
    ensures 0.0 <= extent ==> 0.0 <= r <= extent
    ensures 0.0 <= v <= extent ==> r == v
    ensures v < 0.0 && 0.0 <= extent ==> r == extent
    ensures extent < v && 0.0 <= v ==> r == 0.0
  {
    var a := if v < 0.0 then extent else v;
    if a > extent then 0.0 else a
  }

  /** Move by the step, then wrap. */
  function Drift(p: Dot, width: real, height: real): (q: Dot)
    ensures q.dx == p.dx && q.dy == p.dy && q.size == p.size && q.originalSize == p.originalSize
    ensures 0.0 <= width ==> 0.0 <= q.x <= width
    ensures 0.0 <= height ==> 0.0 <= q.y <= height
  {
    p.(x := Wrap(p.x + p.dx, width), y := Wrap(p.y + p.dy, height))
  }

  /** The size near the pointer: up to twice the resting size inside 100 pixels,
      the resting size beyond. */
  function Proximity(originalSize: real, distance: real): (s: real)
    ensures MaxDistance <= distance ==> s == originalSize
    ensures 0.0 < originalSize && 0.0 <= distance < MaxDistance ==> originalSize < s <= 2.0 * originalSize
    ensures distance == 0.0 ==> s == 2.0 * originalSize
  {
    if distance < MaxDistance then originalSize * (1.0 + (MaxDistance - distance) / MaxDistance)
    else originalSize
  }

  /** The closer the pointer, the larger the particle. */
  lemma ProximityDecreasing(originalSize: real, d1: real, d2: real)
    requires 0.0 <= originalSize && 0.0 <= d1 <= d2
    ensures Proximity(originalSize, d2) <= Proximity(originalSize, d1)
    ensures 0.0 < originalSize && d1 < d2 && d1 < MaxDistance ==> Proximity(originalSize, d2) < Proximity(originalSize, d1)
  {
    var k1 := 1.0 + (MaxDistance - d1) / MaxDistance;
    var k2 := 1.0 + (MaxDistance - d2) / MaxDistance;
    if d2 < MaxDistance {
      assert k2 <= k1;
      assert originalSize * k1 - originalSize * k2 == originalSize * (k1 - k2);
    } else if d1 < MaxDistance {
      assert 1.0 < k1;
      assert originalSize * k1 - originalSize == originalSize * (k1 - 1.0);
    }
  }

  /** The whole per-particle update of `animate`, given the Euclidean distance from
      the wrapped position to the pointer. */
  function Advance(p: Dot, width: real, height: real, distance: real): (q: Dot)
    ensures q.dx == p.dx && q.dy == p.dy && q.originalSize == p.originalSize
    ensures 0.0 <= width ==> 0.0 <= q.x <= width
    ensures 0.0 <= height ==> 0.0 <= q.y <= height
    ensures 0.0 <= distance && 0.0 < p.originalSize ==> p.originalSize <= q.size <= 2.0 * p.originalSize
  {
    var m := Drift(p, width, height);
    m.(size := Proximity(m.originalSize, distance))
  }

  /** `Math.floor((1 - distance2 / 100) * 255)`: the opacity byte of a connection. */
  function AlphaByte(distance: real): (n: nat)
    requires 0.0 <= distance < MaxDistance
    ensures n <= 255
    ensures distance == 0.0 ==> n == 255
  {
    var f := 1.0 - distance / MaxDistance;
    assert 0.0 < f <= 1.0;
    (f * 255.0).Floor
  }

  /** Longer connections are never more opaque. */
  lemma AlphaByteDecreasing(d1: real, d2: real)
    requires 0.0 <= d1 <= d2 < MaxDistance
    ensures AlphaByte(d2) <= AlphaByte(d1)
  {
    assert (1.0 - d2 / MaxDistance) * 255.0 <= (1.0 - d1 / MaxDistance) * 255.0;
  }

  /** Appending a two-digit suffix to a well-formed colour gives '#' and eight hex digits. */
  lemma SuffixedColor(primary: string, suffix: string)
    requires Hex.WellFormedColor(primary) && |suffix| == 2 && Hex.AllHex(suffix)
    ensures |primary + suffix| == 9 && Hex.AllHex((primary + suffix)[1..])
  {
    assert (primary + suffix)[1..] == primary[1..] + suffix;
    Hex.AllHexAppend(primary[1..], suffix);
  }

  /** The stroke colour of a connection: the primary colour with the opacity byte
      appended as two hex digits. */
  function Stroke(primary: string, distance: real): (c: string)
    requires 0.0 <= distance < MaxDistance
    ensures |c| == |primary| + 2 && c[..|primary|] == primary
    ensures Hex.ParseInt(c[|primary|..]) == Some(AlphaByte(distance))
    ensures Hex.WellFormedColor(primary) ==> |c| == 9 && Hex.AllHex(c[1..])
  {
    var suffix := Hex.AlphaSuffix(AlphaByte(distance));
    Hex.AlphaSuffixRoundTrip(AlphaByte(distance));
    assert (primary + suffix)[|primary|..] == suffix;
    assert (primary + suffix)[..|primary|] == primary;
    if Hex.WellFormedColor(primary) then
      SuffixedColor(primary, suffix);
      primary + suffix
    else
      primary + suffix
  }

  /** The canvas and the particle list of the component. */
  class Field {
    const dpr: real
    var canvasWidth: int
    var canvasHeight: int
    var particles: seq<Dot>

    /** The drawing area in CSS pixels, `canvas.width / dpr`. */
    function Width(): real
      reads this
      requires 0.0 < dpr
    {
      canvasWidth as real / dpr
    }

    function Height(): real
      reads this
      requires 0.0 < dpr
    {
      canvasHeight as real / dpr
    }

    ghost predicate Valid()
      reads this
    {
      0.0 < dpr && 0 <= canvasWidth && 0 <= canvasHeight
      && |particles| <= MaxParticles
      && forall i :: 0 <= i < |particles| ==>
           0.0 <= particles[i].x <= Width() && 0.0 <= particles[i].y <= Height()
           && 1.0 <= particles[i].originalSize < 3.0
    }

    /** Mounting: `window.devicePixelRatio || 1`, an empty canvas and no particles. */
    constructor (ratio: real)
      requires 0.0 < ratio
      ensures Valid() && dpr == ratio && particles == []
    {
      dpr := ratio;
      canvasWidth, canvasHeight := 0, 0;
      particles := [];
    }

    /** `setCanvasSize`: the canvas takes the window size in device pixels, and the
        particles are initialised afresh. */
    method SetCanvasSize(width: real, height: real, draws: seq<DotDraw>)
      requires Valid() && 0.0 <= width && 0.0 <= height
      requires forall i :: 0 <= i < |draws| ==> IsDotDraw(draws[i])
      requires |draws| == ParticleCount((width * dpr).Floor as real / dpr, (height * dpr).Floor as real / dpr)
      modifies this
      ensures Valid()
      ensures canvasWidth == (width * dpr).Floor && canvasHeight == (height * dpr).Floor
      ensures |particles| == |draws|
      ensures forall i :: 0 <= i < |draws| ==> particles[i] == NewDot(Width(), Height(), draws[i])
    {
      assert 0.0 <= width * dpr && 0.0 <= height * dpr;
      canvasWidth := (width * dpr).Floor;
      canvasHeight := (height * dpr).Floor;
      InitParticles(draws);
    }

    /** `initParticles`: the list is replaced by `ParticleCount` new particles. */
    method InitParticles(draws: seq<DotDraw>)
      requires 0.0 < dpr && 0 <= canvasWidth && 0 <= canvasHeight
      requires forall i :: 0 <= i < |draws| ==> IsDotDraw(draws[i])
      requires |draws| == ParticleCount(Width(), Height())
      modifies this`particles
      ensures Valid()
      ensures |particles| == |draws|
      ensures forall i :: 0 <= i < |draws| ==> particles[i] == NewDot(Width(), Height(), draws[i])
    {
      var width, height := Width(), Height();
      var count := ParticleCount(width, height);
      particles := [];
      var i := 0;
      while i < count
        invariant 0 <= i <= count && |particles| == i
        invariant forall j :: 0 <= j < i ==> particles[j] == NewDot(width, height, draws[j])
      {
        particles := particles + [NewDot(width, height, draws[i])];
        i := i + 1;
      }
    }

    /** The particle pass of `animate`: each particle moves, wraps and takes its
        size from `distances[i]`, its distance to the pointer after the move. */
    method Animate(mx: real, my: real, distances: seq<real>)
      requires Valid() && |distances| == |particles|
      requires forall i :: 0 <= i < |particles| ==>
        var m := Drift(particles[i], Width(), Height());
        Draws.IsDistance(distances[i], mx, my, m.x, m.y)
      modifies this`particles
      ensures Valid()
      ensures |particles| == |old(particles)|
      ensures forall i :: 0 <= i < |particles| ==>
        particles[i] == Advance(old(particles)[i], Width(), Height(), distances[i])
      ensures forall i :: 0 <= i < |particles| ==>
        particles[i].originalSize <= particles[i].size <= 2.0 * particles[i].originalSize
    {
      var width, height := Width(), Height();
      var i := 0;
      while i < |particles|
        invariant 0 <= i <= |particles| == |old(particles)|
        invariant forall j :: 0 <= j < i ==> particles[j] == Advance(old(particles)[j], width, height, distances[j])
        invariant forall j :: i <= j < |particles| ==> particles[j] == old(particles)[j]
      {
        particles := particles[i := Advance(particles[i], width, height, distances[i])];
        i := i + 1;
      }
    }
  }
}
