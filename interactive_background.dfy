/** InteractiveBackground.tsx: eight drifting background shapes and three
    interactive targets (a data core, an energy orb and a holo shard) that bounce
    inside the canvas. A click fires a three-beam volley from the stored mouse
    position; targets close enough to that position explode into particles,
    score a point and respawn elsewhere. Particles fade each frame; beams fade only
    when `updateLasers` runs, which `animate` as written never calls. The source's `Particle` and `LaserBeam`
    interfaces are `Spark` and `Laser` here; `CyberObject` keeps its name. */
module InteractiveBackground {
  import Draws
  import Seqs

  datatype Kind = Hexagon | Circuit | Data | Energy | DataCore | EnergyOrb | HoloShard

  /** `['dataCore', 'energyOrb', 'holoShard'].includes(obj.type)` */
  predicate IsInteractive(k: Kind)
  {
    k == DataCore || k == EnergyOrb || k == HoloShard
  }

  const BackgroundKinds: seq<Kind> := [Hexagon, Circuit, Data, Energy]
  const CyberKinds: seq<Kind> := [DataCore, EnergyOrb, HoloShard]
  const BackgroundCount: nat := 8
  const CyberSize: real := 35.0
  const Margin: real := 50.0
  const HitRange: real := 3.0
  const ExplosionCount: nat := 20
  const HitBurstCount: nat := 30
  const SpreadCount: nat := 3
  const SparkFade: real := 0.02
  const LaserFade: real := 0.03
  const White: string := "#ffffff"

  /** A `CyberObject`. Rotation, hover state and pulse phase only affect drawing. */
  datatype CyberObject = CyberObject(
    x: real, y: real, size: real, kind: Kind, alpha: real,
    exploding: bool, vx: real, vy: real)

  /** A `Particle` of an explosion. */
  datatype Spark = Spark(
    x: real, y: real, vx: real, vy: real, life: real, maxLife: real,
    color: string, size: real)

  /** A `LaserBeam`. */
  datatype Laser = Laser(startX: real, startY: real, endX: real, endY: real, life: real)

  datatype Point = Point(x: real, y: real)

  /** The draws that place one background object: position, size, type, opacity. */
  datatype BackgroundDraw = BackgroundDraw(rx: real, ry: real, rSize: real, rKind: real, rAlpha: real)

  predicate IsBackgroundDraw(d: BackgroundDraw)
  {
    Draws.IsDraw(d.rx) && Draws.IsDraw(d.ry) && Draws.IsDraw(d.rSize)
    && Draws.IsDraw(d.rKind) && Draws.IsDraw(d.rAlpha)
  }

  /** The draws that place an interactive object: position and velocity. */
  datatype Placement = Placement(rx: real, ry: real, rvx: real, rvy: real)

  predicate IsPlacement(d: Placement)
  {
    Draws.IsDraw(d.rx) && Draws.IsDraw(d.ry) && Draws.IsDraw(d.rvx) && Draws.IsDraw(d.rvy)
  }

  /** One particle's launch: its velocity (the cosine and sine of its angle times
      its drawn speed) and the draw for its size. */
  datatype Kick = Kick(vx: real, vy: real, rSize: real)

  predicate AreKicks(kicks: seq<Kick>, n: nat)
  {
    |kicks| == n && forall i :: 0 <= i < |kicks| ==> Draws.IsDraw(kicks[i].rSize)
  }

  /** A draw times a span of either sign lies between 0 and the span. */
  lemma ScaleSigned(r: real, span: real)
    requires Draws.IsDraw(r)
    ensures 0.0 <= span ==> 0.0 <= r * span <= span
    ensures span < 0.0 ==> span < r * span <= 0.0
  {
    if 0.0 <= span {
      Draws.Scale(r, span);
    } else {
      Draws.Scale(r, -span);
      assert r * -span == -(r * span);
    }
  }

  /** `Math.random() * (extent - 100) + 50`: a coordinate at least 50 away from
      both edges when the canvas allows it. */
  function Place(r: real, extent: real): (v: real)
    requires Draws.IsDraw(r)
    ensures 2.0 * Margin <= extent ==> Margin <= v <= extent - Margin
    ensures extent < 2.0 * Margin ==> extent - Margin < v <= Margin
  {
    var span := extent - 100.0;
    var t := r * span;
    ScaleSigned(r, span);
    assert 0.0 <= span ==> 0.0 <= t <= span;
    assert span < 0.0 ==> span < t <= 0.0;
    t + Margin
  }

  /** `(Math.random() - 0.5) * 3` */
  function Velocity(r: real): (v: real)
    requires Draws.IsDraw(r)
    ensures -1.5 <= v < 1.5
  {
    (r - 0.5) * 3.0
  }

  /** One of the eight background objects of `generateObjects`. */
  function BackgroundObject(w: real, h: real, d: BackgroundDraw): (o: CyberObject)
    requires IsBackgroundDraw(d) && 0.0 <= w && 0.0 <= h
    ensures o.kind in BackgroundKinds && !IsInteractive(o.kind)
    ensures !o.exploding && o.vx == 0.0 && o.vy == 0.0
    ensures 0.0 <= o.x <= w && 0.0 <= o.y <= h
    ensures 20.0 <= o.size < 50.0 && 0.3 <= o.alpha < 0.6
  {
    Draws.Scale(d.rx, w);
    Draws.Scale(d.ry, h);
    Draws.Scale(d.rSize, 30.0);
    Draws.Scale(d.rAlpha, 0.3);
    var kind := BackgroundKinds[Draws.PickIndex(d.rKind, |BackgroundKinds|)];
    CyberObject(d.rx * w, d.ry * h, 20.0 + d.rSize * 30.0, kind, 0.3 + d.rAlpha * 0.3, false, 0.0, 0.0)
  }

  /** The `i`-th interactive object of `generateObjects`. */
  function CyberObjectAt(i: nat, w: real, h: real, d: Placement): (o: CyberObject)
    requires i < |CyberKinds| && IsPlacement(d)
    ensures o.kind == CyberKinds[i] && IsInteractive(o.kind)
    ensures o.size == CyberSize && o.alpha == 1.0 && !o.exploding
    ensures -1.5 <= o.vx < 1.5 && -1.5 <= o.vy < 1.5
    ensures 2.0 * Margin <= w ==> Margin <= o.x <= w - Margin
    ensures 2.0 * Margin <= h ==> Margin <= o.y <= h - Margin
  {
    CyberObject(Place(d.rx, w), Place(d.ry, h), CyberSize, CyberKinds[i % |CyberKinds|], 1.0,
                false, Velocity(d.rvx), Velocity(d.rvy))
  }

  /** The shape of the object list: eight background objects, then the data core,
      the energy orb and the holo shard, each of size 35. */
  predicate Layout(objs: seq<CyberObject>)
  {
    |objs| == BackgroundCount + |CyberKinds|
    && (forall i :: 0 <= i < BackgroundCount ==> !IsInteractive(objs[i].kind))
    && (forall i :: BackgroundCount <= i < |objs| ==>
          objs[i].kind == CyberKinds[i - BackgroundCount] && objs[i].size == CyberSize)
  }

  /** `Math.max(lo, Math.min(hi, v))` */
  function Clamp(v: real, lo: real, hi: real): (c: real)
    ensures lo <= hi ==> lo <= c <= hi
    ensures lo <= v <= hi ==> c == v
    ensures hi < lo ==> c == lo
  {
    var m := if hi < v then hi else v;
    if lo < m then m else lo
  }

  /** The velocity after the wall test: reversed when the moved coordinate is
      outside `[size, extent - size]`. */
  function Bounce(p: real, v: real, size: real, extent: real): real
  {
    if p < size || p > extent - size then -v else v
  }

  /** The movement step of `drawObject` for an interactive object: move by the
      velocity, reverse at a wall, clamp into the canvas. */
  function Move(o: CyberObject, w: real, h: real): (r: CyberObject)
    ensures r.kind == o.kind && r.size == o.size && r.alpha == o.alpha && r.exploding == o.exploding
    ensures 2.0 * o.size <= w ==> o.size <= r.x <= w - o.size
    ensures 2.0 * o.size <= h ==> o.size <= r.y <= h - o.size
    ensures w < 2.0 * o.size ==> r.x == o.size
    ensures h < 2.0 * o.size ==> r.y == o.size
    ensures o.vx != 0.0 ==> (o.size <= o.x + o.vx <= w - o.size <==> r.vx == o.vx)
    ensures o.vy != 0.0 ==> (o.size <= o.y + o.vy <= h - o.size <==> r.vy == o.vy)
    ensures r.vx == o.vx || r.vx == -o.vx
    ensures r.vy == o.vy || r.vy == -o.vy
    ensures o.size <= o.x + o.vx <= w - o.size ==> r.x == o.x + o.vx
    ensures o.size <= o.y + o.vy <= h - o.size ==> r.y == o.y + o.vy
  {
    var x := o.x + o.vx;
    var y := o.y + o.vy;
    o.(x := Clamp(x, o.size, w - o.size), y := Clamp(y, o.size, h - o.size),
       vx := Bounce(x, o.vx, o.size, w), vy := Bounce(y, o.vy, o.size, h))
  }

  /** The respawn of an exploded interactive object at a fresh place and velocity. */
  function Respawn(o: CyberObject, w: real, h: real, d: Placement): (r: CyberObject)
    requires IsPlacement(d)
    ensures r.kind == o.kind && r.size == o.size && r.alpha == o.alpha && !r.exploding
    ensures -1.5 <= r.vx < 1.5 && -1.5 <= r.vy < 1.5
    ensures 2.0 * Margin <= w ==> Margin <= r.x <= w - Margin
    ensures 2.0 * Margin <= h ==> Margin <= r.y <= h - Margin
  {
    o.(x := Place(d.rx, w), y := Place(d.ry, h), exploding := false,
       vx := Velocity(d.rvx), vy := Velocity(d.rvy))
  }

  /** The twenty particles of `createExplosionParticles`. */
  function ExplosionBurst(x: real, y: real, color: string, kicks: seq<Kick>): (b: seq<Spark>)
    requires AreKicks(kicks, ExplosionCount)
    ensures |b| == ExplosionCount
    ensures forall i :: 0 <= i < |b| ==>
      b[i].x == x && b[i].y == y && b[i].life == 1.0 && b[i].maxLife == 1.0
      && b[i].color == color && 2.0 <= b[i].size < 4.0
      && b[i].vx == kicks[i].vx && b[i].vy == kicks[i].vy
  {
    seq(ExplosionCount, i requires 0 <= i < ExplosionCount =>
      Spark(x, y, kicks[i].vx, kicks[i].vy, 1.0, 1.0, color, 2.0 + kicks[i].rSize * 2.0))
  }

  /** The thirty particles a hit pushes: alternately white and the accent colour. */
  function HitBurst(o: CyberObject, accent: string, kicks: seq<Kick>): (b: seq<Spark>)
    requires AreKicks(kicks, HitBurstCount)
    ensures |b| == HitBurstCount
    ensures forall i :: 0 <= i < |b| ==>
      b[i].x == o.x && b[i].y == o.y && b[i].life == 1.0 && b[i].maxLife == 1.0
      && (b[i].color == White <==> i % 2 == 0 || accent == White)
      && (b[i].color == accent || b[i].color == White)
      && 1.0 <= b[i].size < 3.0
      && b[i].vx == kicks[i].vx && b[i].vy == kicks[i].vy
  {
    seq(HitBurstCount, i requires 0 <= i < HitBurstCount =>
      Spark(o.x, o.y, kicks[i].vx, kicks[i].vy, 1.0, 1.0,
            if i % 2 == 0 then White else accent, 1.0 + kicks[i].rSize * 2.0))
  }

  /** The three beams of a click, all leaving the stored mouse position. */
  function Volley(mx: real, my: real, ends: seq<Point>): (v: seq<Laser>)
    requires |ends| == SpreadCount
    ensures |v| == SpreadCount
    ensures forall i :: 0 <= i < |v| ==>
      v[i].startX == mx && v[i].startY == my && v[i].life == 1.0
      && v[i].endX == ends[i].x && v[i].endY == ends[i].y
  {
    seq(SpreadCount, i requires 0 <= i < SpreadCount => Laser(mx, my, ends[i].x, ends[i].y, 1.0))
  }

  /** One step of the `updateParticles` callback. */
  function Age(p: Spark): Spark
  {
    p.(x := p.x + p.vx, y := p.y + p.vy, life := p.life - SparkFade)
  }

  predicate Glowing(p: Spark)
  {
    p.life > 0.0
  }

  /** `updateParticles`: each particle moves and fades, and the ones still alive
      stay, in order. */
  function UpdateSparks(ps: seq<Spark>): (r: seq<Spark>)
    ensures |r| <= |ps|
    ensures forall i :: 0 <= i < |r| ==> r[i].life > 0.0
  {
    if ps == [] then []
    else
      var q := Age(ps[0]);
      (if q.life > 0.0 then [q] else []) + UpdateSparks(ps[1..])
  }

  /** The pass is a filter over the aged list. */
  lemma {:induction false} UpdateSparksIsFilter(ps: seq<Spark>)
    ensures UpdateSparks(ps) == Seqs.Filter(Glowing, Seqs.Map(Age, ps))
  {
    if ps != [] {
      UpdateSparksIsFilter(ps[1..]);
      assert Seqs.Map(Age, ps)[1..] == Seqs.Map(Age, ps[1..]);
    }
  }

  /** Fading never raises a life. */
  lemma {:induction false} UpdateSparksBounded(ps: seq<Spark>, hi: real)
    requires forall i :: 0 <= i < |ps| ==> ps[i].life <= hi
    ensures forall i :: 0 <= i < |UpdateSparks(ps)| ==> UpdateSparks(ps)[i].life <= hi
  {
    if ps != [] {
      UpdateSparksBounded(ps[1..], hi);
    }
  }

  /** `k` frames of `updateParticles`. */
  function SparksAfter(ps: seq<Spark>, k: nat): seq<Spark>
  {
    if k == 0 then ps else UpdateSparks(SparksAfter(ps, k - 1))
  }

  /** A particle born with life 1 survives 49 updates and is removed by the 50th. */
  lemma {:induction false} SparkLifetime(p: Spark, k: nat)
    requires p.life == 1.0
    ensures |SparksAfter([p], k)| == if k < 50 then 1 else 0
    ensures k < 50 ==> SparksAfter([p], k)[0].life == 1.0 - SparkFade * k as real
  {
    if k > 0 {
      SparkLifetime(p, k - 1);
      var prev := SparksAfter([p], k - 1);
      if k - 1 < 50 {
        assert prev == [prev[0]];
        assert prev[1..] == [];
      } else {
        assert prev == [];
      }
    }
  }

  /** One step of the `updateLasers` callback. */
  function Dim(l: Laser): Laser
  {
    l.(life := l.life - LaserFade)
  }

  predicate Lit(l: Laser)
  {
    l.life > 0.0
  }

  /** `updateLasers`: each beam fades, and the ones still alive stay, in order. */
  function UpdateBeams(ls: seq<Laser>): (r: seq<Laser>)
    ensures |r| <= |ls|
    ensures forall i :: 0 <= i < |r| ==> r[i].life > 0.0
  {
    if ls == [] then []
    else
      var q := Dim(ls[0]);
      (if q.life > 0.0 then [q] else []) + UpdateBeams(ls[1..])
  }

  lemma {:induction false} UpdateBeamsIsFilter(ls: seq<Laser>)
    ensures UpdateBeams(ls) == Seqs.Filter(Lit, Seqs.Map(Dim, ls))
  {
    if ls != [] {
      UpdateBeamsIsFilter(ls[1..]);
      assert Seqs.Map(Dim, ls)[1..] == Seqs.Map(Dim, ls[1..]);
    }
  }

  lemma {:induction false} UpdateBeamsBounded(ls: seq<Laser>, hi: real)
    requires forall i :: 0 <= i < |ls| ==> ls[i].life <= hi
    ensures forall i :: 0 <= i < |UpdateBeams(ls)| ==> UpdateBeams(ls)[i].life <= hi
  {
    if ls != [] {
      UpdateBeamsBounded(ls[1..], hi);
    }
  }

  function BeamsAfter(ls: seq<Laser>, k: nat): seq<Laser>
  {
    if k == 0 then ls else UpdateBeams(BeamsAfter(ls, k - 1))
  }

  /** A beam fired with life 1 survives 33 updates and is removed by the 34th. */
  lemma {:induction false} LaserLifetime(l: Laser, k: nat)
    requires l.life == 1.0
    ensures |BeamsAfter([l], k)| == if k < 34 then 1 else 0
    ensures k < 34 ==> BeamsAfter([l], k)[0].life == 1.0 - LaserFade * k as real
  {
    if k > 0 {
      LaserLifetime(l, k - 1);
      var prev := BeamsAfter([l], k - 1);
      if k - 1 < 34 {
        assert prev == [prev[0]];
        assert prev[1..] == [];
      } else {
        assert prev == [];
      }
    }
  }

  /** One `updateLasers` pass takes at least 0.03 off every surviving beam. */
  lemma {:induction false} UpdateBeamsFades(ls: seq<Laser>, hi: real)
    requires forall i :: 0 <= i < |ls| ==> ls[i].life <= hi
    ensures forall i :: 0 <= i < |UpdateBeams(ls)| ==> UpdateBeams(ls)[i].life <= hi - LaserFade
  {
    if ls != [] {
      UpdateBeamsFades(ls[1..], hi);
      var q := Dim(ls[0]);
      var head := if q.life > 0.0 then [q] else [];
      var r := UpdateBeams(ls);
      forall i | 0 <= i < |r| ensures r[i].life <= hi - LaserFade {
        if i >= |head| {
          assert r[i] == UpdateBeams(ls[1..])[i - |head|];
        }
      }
    }
  }

  /** After `k` passes every beam fired with a life of at most 1 has at most
      `1 - 0.03 * k` left. */
  lemma {:induction false} BeamsAfterFade(ls: seq<Laser>, k: nat)
    requires forall i :: 0 <= i < |ls| ==> ls[i].life <= 1.0
    ensures forall i :: 0 <= i < |BeamsAfter(ls, k)| ==> BeamsAfter(ls, k)[i].life <= 1.0 - LaserFade * k as real
  {
    if k > 0 {
      BeamsAfterFade(ls, k - 1);
      UpdateBeamsFades(BeamsAfter(ls, k - 1), 1.0 - LaserFade * (k - 1) as real);
    }
  }

  /** Beams with at most 0.03 of life left all go in the next pass. */
  lemma {:induction false} UpdateBeamsClears(ls: seq<Laser>)
    requires forall i :: 0 <= i < |ls| ==> ls[i].life <= LaserFade
    ensures UpdateBeams(ls) == []
  {
    if ls != [] {
      UpdateBeamsClears(ls[1..]);
    }
  }

  /** With `updateLasers` called every frame, 34 frames clear every beam: none is
      left, however many were fired. */
  lemma BeamsGone(ls: seq<Laser>, k: nat)
    requires forall i :: 0 <= i < |ls| ==> ls[i].life <= 1.0
    requires 34 <= k
    ensures BeamsAfter(ls, k) == []
  {
    BeamsAfterFade(ls, k - 1);
    UpdateBeamsClears(BeamsAfter(ls, k - 1));
  }

  /** `distance < obj.size * 3`, with the square root squared away. */
  predicate InRange(o: CyberObject, mx: real, my: real)
  {
    var dx := o.x - mx;
    var dy := o.y - my;
    0.0 < o.size && dx * dx + dy * dy < HitRange * HitRange * o.size * o.size
  }

  /** The squared test agrees with the source's test on the Euclidean distance `d`. */
  lemma InRangeIsDistanceTest(o: CyberObject, mx: real, my: real, d: real)
    requires 0.0 <= d && d * d == (o.x - mx) * (o.x - mx) + (o.y - my) * (o.y - my)
    ensures d < HitRange * o.size <==> InRange(o, mx, my)
  {
    var s := HitRange * o.size;
    assert HitRange * HitRange * o.size * o.size == s * s;
    if 0.0 < s {
      if d < s {
        MulLess(d, s, d);
        MulLess(d, s, s);
        calc {
          d * d;
        <= s * d;
        == d * s;
        <  s * s;
        }
      } else {
        MulLess(s, d, s);
        MulLess(s, d, d);
        assert s * d == d * s;
        assert s * s <= d * d;
      }
    }
  }

  lemma MulLess(a: real, b: real, c: real)
    requires 0.0 <= a <= b && 0.0 <= c
    ensures a * c <= b * c
    ensures a < b && 0.0 < c ==> a * c < b * c
  {
    assert b * c - a * c == (b - a) * c;
  }

  /** An object a click explodes. */
  predicate Hits(o: CyberObject, mx: real, my: real)
  {
    IsInteractive(o.kind) && InRange(o, mx, my)
  }

  /** The object as the hit loop of `handleClick` leaves it. */
  function Struck(o: CyberObject, mx: real, my: real): (r: CyberObject)
    ensures r.kind == o.kind && r.size == o.size && r.x == o.x && r.y == o.y
    ensures r.exploding <==> o.exploding || Hits(o, mx, my)
  {
    if Hits(o, mx, my) then o.(exploding := true) else o
  }

  /** How many objects a click at the stored mouse position hits. */
  function HitCount(objs: seq<CyberObject>, mx: real, my: real): (n: nat)
    ensures n <= |objs|
  {
    if objs == [] then 0
    else HitCount(objs[..|objs| - 1], mx, my) + (if Hits(objs[|objs| - 1], mx, my) then 1 else 0)
  }

  /** The sparks a click adds: one burst per hit object, in object order; object
      `i` draws its burst's speeds and sizes from `kicks[i]`. */
  function Bursts(objs: seq<CyberObject>, mx: real, my: real, accent: string, kicks: seq<seq<Kick>>): (b: seq<Spark>)
    requires |objs| <= |kicks| && forall i :: 0 <= i < |kicks| ==> AreKicks(kicks[i], HitBurstCount)
    ensures |b| == HitBurstCount * HitCount(objs, mx, my)
    decreases |objs|
  {
    if objs == [] then []
    else
      var n := |objs| - 1;
      Bursts(objs[..n], mx, my, accent, kicks) + if Hits(objs[n], mx, my) then HitBurst(objs[n], accent, kicks[n]) else []
  }

  /** Every spark a click adds starts with a full life. */
  lemma {:induction false} BurstsAreFresh(objs: seq<CyberObject>, mx: real, my: real, accent: string, kicks: seq<seq<Kick>>)
    requires |objs| <= |kicks| && forall i :: 0 <= i < |kicks| ==> AreKicks(kicks[i], HitBurstCount)
    ensures forall j :: 0 <= j < |Bursts(objs, mx, my, accent, kicks)| ==> Bursts(objs, mx, my, accent, kicks)[j].life == 1.0
    decreases |objs|
  {
    if objs != [] {
      var n := |objs| - 1;
      BurstsAreFresh(objs[..n], mx, my, accent, kicks);
      var init := Bursts(objs[..n], mx, my, accent, kicks);
      var burst: seq<Spark> := if Hits(objs[n], mx, my) then HitBurst(objs[n], accent, kicks[n]) else [];
      forall j | 0 <= j < |init + burst| ensures (init + burst)[j].life == 1.0 {
        if j >= |init| {
          assert (init + burst)[j] == burst[j - |init|];
        }
      }
    }
  }

  lemma AppendAssoc<T>(a: seq<T>, b: seq<T>, c: seq<T>)
    ensures (a + b) + c == a + (b + c)
  {
  }

  /** Extending the prefix by one object adds that object's burst when it is hit. */
  lemma BurstsStep(objs: seq<CyberObject>, i: nat, mx: real, my: real, accent: string, kicks: seq<seq<Kick>>)
    requires |objs| <= |kicks| && forall i :: 0 <= i < |kicks| ==> AreKicks(kicks[i], HitBurstCount)
    requires i < |objs|
    ensures Bursts(objs[..i + 1], mx, my, accent, kicks)
         == Bursts(objs[..i], mx, my, accent, kicks) + if Hits(objs[i], mx, my) then HitBurst(objs[i], accent, kicks[i]) else []
  {
    assert objs[..i + 1][..i] == objs[..i];
  }

  /** Marking hits changes no kind and no size, so the layout is kept. */
  lemma StruckKeepsLayout(objs: seq<CyberObject>, struck: seq<CyberObject>, mx: real, my: real)
    requires Layout(objs) && |struck| == |objs|
    requires forall j :: 0 <= j < |objs| ==> struck[j] == Struck(objs[j], mx, my)
    ensures Layout(struck)
  {
    forall j | 0 <= j < |objs| ensures struck[j].kind == objs[j].kind && struck[j].size == objs[j].size {
      assert struck[j] == Struck(objs[j], mx, my);
    }
  }

  /** Extending the prefix by one object adds one exactly when that object is hit. */
  lemma HitCountStep(objs: seq<CyberObject>, i: nat, mx: real, my: real)
    requires i < |objs|
    ensures HitCount(objs[..i + 1], mx, my) == HitCount(objs[..i], mx, my) + (if Hits(objs[i], mx, my) then 1 else 0)
  {
    assert objs[..i + 1][..i] == objs[..i];
  }

  function InteractiveCount(objs: seq<CyberObject>): (n: nat)
    ensures n <= |objs|
  {
    if objs == [] then 0
    else InteractiveCount(objs[..|objs| - 1]) + (if IsInteractive(objs[|objs| - 1].kind) then 1 else 0)
  }

  lemma {:induction false} HitCountBelowInteractive(objs: seq<CyberObject>, mx: real, my: real)
    ensures HitCount(objs, mx, my) <= InteractiveCount(objs)
  {
    if objs != [] {
      HitCountBelowInteractive(objs[..|objs| - 1], mx, my);
    }
  }

  lemma {:induction false} NoInteractivePrefix(objs: seq<CyberObject>, n: nat)
    requires n <= |objs| && forall i :: 0 <= i < n ==> !IsInteractive(objs[i].kind)
    ensures InteractiveCount(objs[..n]) == 0
  {
    if n > 0 {
      assert objs[..n][..n - 1] == objs[..n - 1];
      NoInteractivePrefix(objs, n - 1);
    }
  }

  /** The generated list holds exactly three interactive objects. */
  lemma LayoutHasThreeTargets(objs: seq<CyberObject>)
    requires Layout(objs)
    ensures InteractiveCount(objs) == |CyberKinds|
  {
    NoInteractivePrefix(objs, BackgroundCount);
    assert IsInteractive(objs[8].kind) && IsInteractive(objs[9].kind) && IsInteractive(objs[10].kind);
    assert objs[..9][..8] == objs[..8] && objs[..9][8] == objs[8];
    assert InteractiveCount(objs[..9]) == 1;
    assert objs[..10][..9] == objs[..9] && objs[..10][9] == objs[9];
    assert InteractiveCount(objs[..10]) == 2;
    assert objs[..11] == objs;
    assert objs[..10] == objs[..|objs| - 1];
  }

  /** So one click scores at most three points. */
  lemma ClickScoresAtMostThree(objs: seq<CyberObject>, mx: real, my: real)
    requires Layout(objs)
    ensures HitCount(objs, mx, my) <= |CyberKinds|
  {
    HitCountBelowInteractive(objs, mx, my);
    LayoutHasThreeTargets(objs);
  }

  /** The object as `drawObject` leaves it: an interactive object moves and
      bounces, and respawns when it was exploding; a background object stays. */
  function Drawn(o: CyberObject, w: real, h: real, d: Placement): (r: CyberObject)
    requires IsPlacement(d)
    ensures r.kind == o.kind && r.size == o.size && r.alpha == o.alpha
    ensures !IsInteractive(o.kind) ==> r == o
    ensures IsInteractive(o.kind) && !o.exploding ==> r == Move(o, w, h)
    ensures IsInteractive(o.kind) ==> !r.exploding
  {
    if !IsInteractive(o.kind) then o
    else
      var m := Move(o, w, h);
      if m.exploding then Respawn(m, w, h, d) else m
  }

  /** The particles `drawObject` adds for one object: twenty at its moved position
      when it is exploding, none otherwise. */
  function DrawBurst(o: CyberObject, w: real, h: real, accent: string, kicks: seq<Kick>): (b: seq<Spark>)
    requires AreKicks(kicks, ExplosionCount)
    ensures |b| == if o.exploding then ExplosionCount else 0
  {
    var m := if IsInteractive(o.kind) then Move(o, w, h) else o;
    if m.exploding then ExplosionBurst(m.x, m.y, accent, kicks) else []
  }

  /** The particles the object passes of one frame add, in object order. */
  function FrameBursts(objs: seq<CyberObject>, w: real, h: real, accent: string, kicks: seq<seq<Kick>>): (b: seq<Spark>)
    requires |objs| <= |kicks| && forall i :: 0 <= i < |kicks| ==> AreKicks(kicks[i], ExplosionCount)
    decreases |objs|
  {
    if objs == [] then []
    else
      var n := |objs| - 1;
      FrameBursts(objs[..n], w, h, accent, kicks) + DrawBurst(objs[n], w, h, accent, kicks[n])
  }

  /** Only exploding objects add particles, twenty each, all at full life. */
  lemma {:induction false} FrameBurstsFresh(objs: seq<CyberObject>, w: real, h: real, accent: string, kicks: seq<seq<Kick>>)
    requires |objs| <= |kicks| && forall i :: 0 <= i < |kicks| ==> AreKicks(kicks[i], ExplosionCount)
    ensures (forall i :: 0 <= i < |objs| ==> !objs[i].exploding) ==> FrameBursts(objs, w, h, accent, kicks) == []
    ensures forall j :: 0 <= j < |FrameBursts(objs, w, h, accent, kicks)| ==> FrameBursts(objs, w, h, accent, kicks)[j].life == 1.0
    decreases |objs|
  {
    if objs != [] {
      var n := |objs| - 1;
      FrameBurstsFresh(objs[..n], w, h, accent, kicks);
      var init: seq<Spark> := FrameBursts(objs[..n], w, h, accent, kicks);
      var burst: seq<Spark> := DrawBurst(objs[n], w, h, accent, kicks[n]);
      forall j | 0 <= j < |init + burst| ensures (init + burst)[j].life == 1.0 {
        if j >= |init| {
          assert (init + burst)[j] == burst[j - |init|];
        }
      }
    }
  }

  /** Extending the prefix by one object adds that object's burst. */
  lemma FrameBurstsStep(objs: seq<CyberObject>, i: nat, w: real, h: real, accent: string, kicks: seq<seq<Kick>>)
    requires |objs| <= |kicks| && forall i :: 0 <= i < |kicks| ==> AreKicks(kicks[i], ExplosionCount)
    requires i < |objs|
    ensures FrameBursts(objs[..i + 1], w, h, accent, kicks)
         == FrameBursts(objs[..i], w, h, accent, kicks) + DrawBurst(objs[i], w, h, accent, kicks[i])
  {
    assert objs[..i + 1][..i] == objs[..i];
  }

  /** The component's state: the three refs, the stored mouse position, the score
      and the canvas size. */
  class Scene {
    var width: real
    var height: real
    var objects: seq<CyberObject>
    var sparks: seq<Spark>
    var lasers: seq<Laser>
    var mouseX: real
    var mouseY: real
    var score: int

    ghost predicate Valid()
      reads this
    {
      Layout(objects) && 0 <= score
      && (forall i :: 0 <= i < |sparks| ==> 0.0 < sparks[i].life <= 1.0)
      && (forall i :: 0 <= i < |lasers| ==> 0.0 < lasers[i].life <= 1.0)
    }

    /** Mounting: the canvas takes the window size and the objects are generated. */
    constructor (w: real, h: real, bg: seq<BackgroundDraw>, cy: seq<Placement>)
      requires 0.0 <= w && 0.0 <= h
      requires |bg| == BackgroundCount && forall i :: 0 <= i < |bg| ==> IsBackgroundDraw(bg[i])
      requires |cy| == |CyberKinds| && forall i :: 0 <= i < |cy| ==> IsPlacement(cy[i])
      ensures Valid()
      ensures width == w && height == h
      ensures forall i :: 0 <= i < BackgroundCount ==> objects[i] == BackgroundObject(w, h, bg[i])
      ensures forall i :: 0 <= i < |CyberKinds| ==> objects[BackgroundCount + i] == CyberObjectAt(i, w, h, cy[i])
      ensures sparks == [] && lasers == [] && score == 0 && mouseX == 0.0 && mouseY == 0.0
    {
      width, height := w, h;
      objects, sparks, lasers := [], [], [];
      mouseX, mouseY, score := 0.0, 0.0, 0;
      new;
      GenerateObjects(bg, cy);
    }

    /** `generateObjects` */
    method GenerateObjects(bg: seq<BackgroundDraw>, cy: seq<Placement>)
      requires 0.0 <= width && 0.0 <= height
      requires |bg| == BackgroundCount && forall i :: 0 <= i < |bg| ==> IsBackgroundDraw(bg[i])
      requires |cy| == |CyberKinds| && forall i :: 0 <= i < |cy| ==> IsPlacement(cy[i])
      modifies this`objects
      ensures Layout(objects)
      ensures forall i :: 0 <= i < BackgroundCount ==> objects[i] == BackgroundObject(width, height, bg[i])
      ensures forall i :: 0 <= i < |CyberKinds| ==> objects[BackgroundCount + i] == CyberObjectAt(i, width, height, cy[i])
    {
      var objs: seq<CyberObject> := [];
      var i := 0;
      while i < BackgroundCount
        invariant 0 <= i <= BackgroundCount && |objs| == i
        invariant forall j :: 0 <= j < i ==> objs[j] == BackgroundObject(width, height, bg[j])
      {
        objs := objs + [BackgroundObject(width, height, bg[i])];
        i := i + 1;
      }
      i := 0;
      while i < |CyberKinds|
        invariant 0 <= i <= |CyberKinds| && |objs| == BackgroundCount + i
        invariant forall j :: 0 <= j < BackgroundCount ==> objs[j] == BackgroundObject(width, height, bg[j])
        invariant forall j :: 0 <= j < i ==> objs[BackgroundCount + j] == CyberObjectAt(j, width, height, cy[j])
      {
        objs := objs + [CyberObjectAt(i, width, height, cy[i])];
        i := i + 1;
      }
      objects := objs;
      forall j | BackgroundCount <= j < |objects|
        ensures objects[j].kind == CyberKinds[j - BackgroundCount] && objects[j].size == CyberSize
      {
        assert objects[BackgroundCount + (j - BackgroundCount)] == CyberObjectAt(j - BackgroundCount, width, height, cy[j - BackgroundCount]);
      }
    }

    /** `resizeCanvas`, run on every window resize: the canvas takes the new
        size and nothing else changes; the next `drawObject` pass clamps the
        moving objects against it. */
    method ResizeCanvas(w: real, h: real)
      requires Valid() && 0.0 <= w && 0.0 <= h
      modifies this`width, this`height
      ensures Valid() && width == w && height == h
    {
      width, height := w, h;
    }

    /** `handleMouseMove` */
    method HandleMouseMove(x: real, y: real)
      modifies this`mouseX, this`mouseY
      ensures mouseX == x && mouseY == y
    {
      mouseX, mouseY := x, y;
    }

    /** `updateParticles` */
    method UpdateParticles()
      requires Valid()
      modifies this`sparks
      ensures Valid()
      ensures sparks == UpdateSparks(old(sparks))
    {
      UpdateSparksBounded(sparks, 1.0);
      sparks := UpdateSparks(sparks);
    }

    /** `updateLasers` */
    method UpdateLasers()
      requires Valid()
      modifies this`lasers
      ensures Valid()
      ensures lasers == UpdateBeams(old(lasers))
    {
      UpdateBeamsBounded(lasers, 1.0);
      lasers := UpdateBeams(lasers);
    }

    /** `createExplosionParticles`: twenty particles appended after the existing ones. */
    method CreateExplosionParticles(x: real, y: real, color: string, kicks: seq<Kick>)
      requires Valid() && AreKicks(kicks, ExplosionCount)
      modifies this`sparks
      ensures Valid()
      ensures sparks == old(sparks) + ExplosionBurst(x, y, color, kicks)
    {
      var burst: seq<Spark> := [];
      var i := 0;
      while i < ExplosionCount
        invariant 0 <= i <= ExplosionCount && |burst| == i
        invariant forall j :: 0 <= j < i ==> burst[j] == ExplosionBurst(x, y, color, kicks)[j]
      {
        burst := burst + [Spark(x, y, kicks[i].vx, kicks[i].vy, 1.0, 1.0, color, 2.0 + kicks[i].rSize * 2.0)];
        i := i + 1;
      }
      assert burst == ExplosionBurst(x, y, color, kicks);
      sparks := sparks + burst;
    }

    /** The state-changing part of `drawObject`: an interactive object moves and
        bounces; an exploding object bursts into particles where it stands, and an
        exploding interactive object respawns. */
    method DrawObject(i: nat, accent: string, d: Placement, kicks: seq<Kick>)
      requires Valid() && i < |objects| && IsPlacement(d) && AreKicks(kicks, ExplosionCount)
      modifies this`objects, this`sparks
      ensures Valid()
      ensures |objects| == |old(objects)|
      ensures forall j :: 0 <= j < |objects| && j != i ==> objects[j] == old(objects)[j]
      ensures objects[i] == Drawn(old(objects)[i], width, height, d)
      ensures sparks == old(sparks) + DrawBurst(old(objects)[i], width, height, accent, kicks)
    {
      var o := objects[i];
      if IsInteractive(o.kind) {
        o := Move(o, width, height);
      }
      if o.exploding {
        CreateExplosionParticles(o.x, o.y, accent, kicks);
        if IsInteractive(o.kind) {
          o := Respawn(o, width, height, d);
        }
      }
      objects := objects[i := o];
    }

    /** The thirty-particle push of one hit. */
    method PushHitBurst(o: CyberObject, accent: string, kicks: seq<Kick>)
      requires AreKicks(kicks, HitBurstCount)
      modifies this`sparks
      ensures sparks == old(sparks) + HitBurst(o, accent, kicks)
    {
      var i := 0;
      while i < HitBurstCount
        invariant 0 <= i <= HitBurstCount
        invariant sparks == old(sparks) + HitBurst(o, accent, kicks)[..i]
      {
        sparks := sparks + [Spark(o.x, o.y, kicks[i].vx, kicks[i].vy, 1.0, 1.0,
                                  if i % 2 == 0 then White else accent, 1.0 + kicks[i].rSize * 2.0)];
        assert HitBurst(o, accent, kicks)[..i + 1] == HitBurst(o, accent, kicks)[..i] + [HitBurst(o, accent, kicks)[i]];
        i := i + 1;
      }
      assert HitBurst(o, accent, kicks)[..HitBurstCount] == HitBurst(o, accent, kicks);
    }

    /** `handleClick`: three beams leave the stored mouse position; every interactive
        object within three sizes of that position (not of the click) explodes,
        scores a point and pushes thirty particles. */
    method HandleClick(ends: seq<Point>, kicks: seq<seq<Kick>>, accent: string)
      requires Valid() && |ends| == SpreadCount
      requires |kicks| == |objects| && forall i :: 0 <= i < |kicks| ==> AreKicks(kicks[i], HitBurstCount)
      modifies this`lasers, this`objects, this`sparks, this`score
      ensures Valid()
      ensures lasers == old(lasers) + Volley(mouseX, mouseY, ends)
      ensures |objects| == |old(objects)|
      ensures forall j :: 0 <= j < |objects| ==> objects[j] == Struck(old(objects)[j], mouseX, mouseY)
      ensures score == old(score) + HitCount(old(objects), mouseX, mouseY)
      ensures sparks == old(sparks) + Bursts(old(objects), mouseX, mouseY, accent, kicks)
      ensures |sparks| == |old(sparks)| + HitBurstCount * HitCount(old(objects), mouseX, mouseY)
    {
      FireVolley(ends);
      ghost var before := sparks;
      StrikeObjects(kicks, accent);
      StruckKeepsLayout(old(objects), objects, mouseX, mouseY);
      BurstsAreFresh(old(objects), mouseX, mouseY, accent, kicks);
      forall j | 0 <= j < |sparks| ensures 0.0 < sparks[j].life <= 1.0 {
        if j >= |before| {
          assert sparks[j] == Bursts(old(objects), mouseX, mouseY, accent, kicks)[j - |before|];
        }
      }
    }

    /** The spread-shot loop of a click: three lasers from the stored pointer. */
    method FireVolley(ends: seq<Point>)
      requires Valid() && |ends| == SpreadCount
      modifies this`lasers
      ensures Valid()
      ensures lasers == old(lasers) + Volley(mouseX, mouseY, ends)
    {
      var v := Volley(mouseX, mouseY, ends);
      var i := 0;
      while i < SpreadCount
        invariant 0 <= i <= SpreadCount
        invariant lasers == old(lasers) + v[..i]
      {
        lasers := lasers + [Laser(mouseX, mouseY, ends[i].x, ends[i].y, 1.0)];
        assert v[..i + 1] == v[..i] + [v[i]];
        i := i + 1;
      }
      assert v[..SpreadCount] == v;
    }

    /** One object of the hit loop: if the stored pointer is within three sizes of
        an interactive object, it is marked exploding, scores one and bursts. */
    method StrikeAt(i: nat, accent: string, kicks: seq<Kick>)
      requires i < |objects| && AreKicks(kicks, HitBurstCount)
      modifies this`objects, this`sparks, this`score
      ensures objects == old(objects)[i := Struck(old(objects)[i], mouseX, mouseY)]
      ensures score == old(score) + if Hits(old(objects)[i], mouseX, mouseY) then 1 else 0
      ensures sparks == old(sparks) + if Hits(old(objects)[i], mouseX, mouseY) then HitBurst(old(objects)[i], accent, kicks) else []
    {
      var o := objects[i];
      if Hits(o, mouseX, mouseY) {
        objects := objects[i := o.(exploding := true)];
        score := score + 1;
        PushHitBurst(o, accent, kicks);
      } else {
        assert sparks == sparks + [];
      }
    }

    /** The hit loop of a click: every interactive object within three sizes of the
        stored pointer is marked exploding, scores one and bursts into 30 sparks. */
    method StrikeObjects(kicks: seq<seq<Kick>>, accent: string)
      requires |kicks| == |objects| && forall i :: 0 <= i < |kicks| ==> AreKicks(kicks[i], HitBurstCount)
      modifies this`objects, this`sparks, this`score
      ensures |objects| == |old(objects)|
      ensures forall j :: 0 <= j < |objects| ==> objects[j] == Struck(old(objects)[j], mouseX, mouseY)
      ensures score == old(score) + HitCount(old(objects), mouseX, mouseY)
      ensures sparks == old(sparks) + Bursts(old(objects), mouseX, mouseY, accent, kicks)
    {
      ghost var objs := objects;
      ghost var before := sparks;
      var i := 0;
      while i < |objects|
        invariant 0 <= i <= |objects| == |objs|
        invariant forall j :: 0 <= j < i ==> objects[j] == Struck(objs[j], mouseX, mouseY)
        invariant forall j :: i <= j < |objects| ==> objects[j] == objs[j]
        invariant score == old(score) + HitCount(objs[..i], mouseX, mouseY)
        invariant sparks == before + Bursts(objs[..i], mouseX, mouseY, accent, kicks)
      {
        HitCountStep(objs, i, mouseX, mouseY);
        BurstsStep(objs, i, mouseX, mouseY, accent, kicks);
        ghost var done := Bursts(objs[..i], mouseX, mouseY, accent, kicks);
        StrikeAt(i, accent, kicks[i]);
        AppendAssoc(before, done, sparks[|before| + |done|..]);
        i := i + 1;
      }
      assert objs[..|objs|] == objs;
    }

    /** The two `forEach` passes of `animate`: `drawObject` on every background
        object, then on every interactive one. The layout puts the background
        objects first, so this is one pass in list order. Object `j` draws its
        respawn from `ds[j]` and its explosion from `kicks[j]`. */
    method DrawObjects(ds: seq<Placement>, kicks: seq<seq<Kick>>, accent: string)
      requires Valid()
      requires |ds| == |objects| && forall j :: 0 <= j < |ds| ==> IsPlacement(ds[j])
      requires |kicks| == |objects| && forall j :: 0 <= j < |kicks| ==> AreKicks(kicks[j], ExplosionCount)
      modifies this`objects, this`sparks
      ensures Valid()
      ensures |objects| == |old(objects)|
      ensures forall j :: 0 <= j < |objects| ==> objects[j] == Drawn(old(objects)[j], width, height, ds[j])
      ensures sparks == old(sparks) + FrameBursts(old(objects), width, height, accent, kicks)
    {
      ghost var objs := objects;
      ghost var before := sparks;
      var i := 0;
      while i < |objects|
        invariant 0 <= i <= |objects| == |objs|
        invariant Valid()
        invariant forall j :: 0 <= j < i ==> objects[j] == Drawn(objs[j], width, height, ds[j])
        invariant forall j :: i <= j < |objects| ==> objects[j] == objs[j]
        invariant sparks == before + FrameBursts(objs[..i], width, height, accent, kicks)
      {
        DrawStep(i, objs, before, ds, kicks, accent);
        i := i + 1;
      }
      assert objs[..|objs|] == objs;
    }

    /** One object of the passes: with objects before `i` drawn and those from `i`
        on untouched, drawing object `i` extends the drawn prefix by one. */
    method DrawStep(i: nat, ghost objs: seq<CyberObject>, ghost before: seq<Spark>, ds: seq<Placement>,
                    kicks: seq<seq<Kick>>, accent: string)
      requires Valid() && i < |objects| == |objs|
      requires |ds| == |objects| && forall j :: 0 <= j < |ds| ==> IsPlacement(ds[j])
      requires |kicks| == |objects| && forall j :: 0 <= j < |kicks| ==> AreKicks(kicks[j], ExplosionCount)
      requires forall j :: 0 <= j < i ==> objects[j] == Drawn(objs[j], width, height, ds[j])
      requires forall j :: i <= j < |objects| ==> objects[j] == objs[j]
      requires sparks == before + FrameBursts(objs[..i], width, height, accent, kicks)
      modifies this`objects, this`sparks
      ensures Valid() && |objects| == |objs|
      ensures forall j :: 0 <= j <= i ==> objects[j] == Drawn(objs[j], width, height, ds[j])
      ensures forall j :: i < j < |objects| ==> objects[j] == objs[j]
      ensures sparks == before + FrameBursts(objs[..i + 1], width, height, accent, kicks)
    {
      FrameBurstsStep(objs, i, width, height, accent, kicks);
      DrawObject(i, accent, ds[i], kicks[i]);
    }

    /** `animate` as written: the particles are updated and the objects drawn, but
        `updateLasers` is never called, so the beams never fade or leave. */
    method AnimateAsWritten(ds: seq<Placement>, kicks: seq<seq<Kick>>, accent: string)
      requires Valid()
      requires |ds| == |objects| && forall j :: 0 <= j < |ds| ==> IsPlacement(ds[j])
      requires |kicks| == |objects| && forall j :: 0 <= j < |kicks| ==> AreKicks(kicks[j], ExplosionCount)
      modifies this`objects, this`sparks
      ensures Valid()
      ensures lasers == old(lasers)
      ensures |objects| == |old(objects)|
      ensures forall j :: 0 <= j < |objects| ==> objects[j] == Drawn(old(objects)[j], width, height, ds[j])
      ensures sparks == UpdateSparks(old(sparks)) + FrameBursts(old(objects), width, height, accent, kicks)
    {
      UpdateParticles();
      DrawObjects(ds, kicks, accent);
    }

    /** `animate` as intended: as written, with `updateLasers` called after
        `updateParticles`, so every beam fades. */
    method Animate(ds: seq<Placement>, kicks: seq<seq<Kick>>, accent: string)
      requires Valid()
      requires |ds| == |objects| && forall j :: 0 <= j < |ds| ==> IsPlacement(ds[j])
      requires |kicks| == |objects| && forall j :: 0 <= j < |kicks| ==> AreKicks(kicks[j], ExplosionCount)
      modifies this`objects, this`sparks, this`lasers
      ensures Valid()
      ensures lasers == UpdateBeams(old(lasers))
      ensures |objects| == |old(objects)|
      ensures forall j :: 0 <= j < |objects| ==> objects[j] == Drawn(old(objects)[j], width, height, ds[j])
      ensures sparks == UpdateSparks(old(sparks)) + FrameBursts(old(objects), width, height, accent, kicks)
    {
      UpdateParticles();
      UpdateLasers();
      DrawObjects(ds, kicks, accent);
    }

    /** A click followed by 34 frames of `animate` as written: the three beams of
        the click are still there, at full life. */
    method ClickThenFramesAsWritten(ends: seq<Point>, hitKicks: seq<seq<Kick>>, ds: seq<Placement>,
                                    kicks: seq<seq<Kick>>, accent: string)
      requires Valid() && |ends| == SpreadCount
      requires |hitKicks| == |objects| && forall j :: 0 <= j < |hitKicks| ==> AreKicks(hitKicks[j], HitBurstCount)
      requires |ds| == |objects| && forall j :: 0 <= j < |ds| ==> IsPlacement(ds[j])
      requires |kicks| == |objects| && forall j :: 0 <= j < |kicks| ==> AreKicks(kicks[j], ExplosionCount)
      modifies this`objects, this`sparks, this`lasers, this`score
      ensures Valid()
      ensures lasers == old(lasers) + Volley(mouseX, mouseY, ends)
      ensures |lasers| == |old(lasers)| + SpreadCount
    {
      HandleClick(ends, hitKicks, accent);
      var frame := 0;
      while frame < 34
        invariant Valid() && |ds| == |objects| && |kicks| == |objects|
        invariant lasers == old(lasers) + Volley(mouseX, mouseY, ends)
      {
        AnimateAsWritten(ds, kicks, accent);
        frame := frame + 1;
      }
    }

    /** A click followed by 34 frames of `animate` as intended: every beam, those of
        the click and any fired before, has faded out. */
    method ClickThenFrames(ends: seq<Point>, hitKicks: seq<seq<Kick>>, ds: seq<Placement>,
                           kicks: seq<seq<Kick>>, accent: string)
      requires Valid() && |ends| == SpreadCount
      requires |hitKicks| == |objects| && forall j :: 0 <= j < |hitKicks| ==> AreKicks(hitKicks[j], HitBurstCount)
      requires |ds| == |objects| && forall j :: 0 <= j < |ds| ==> IsPlacement(ds[j])
      requires |kicks| == |objects| && forall j :: 0 <= j < |kicks| ==> AreKicks(kicks[j], ExplosionCount)
      modifies this`objects, this`sparks, this`lasers, this`score
      ensures Valid()
      ensures lasers == []
    {
      HandleClick(ends, hitKicks, accent);
      ghost var fired := lasers;
      var frame := 0;
      while frame < 34
        invariant 0 <= frame <= 34
        invariant Valid() && |ds| == |objects| && |kicks| == |objects|
        invariant lasers == BeamsAfter(fired, frame)
      {
        Animate(ds, kicks, accent);
        frame := frame + 1;
      }
      BeamsGone(fired, frame);
    }
  }
}
