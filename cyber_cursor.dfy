/** CyberCursor.tsx: every mouse move stores the pointer position and sheds a ring
    of particles there; each frame the particles drift, fade by 0.02 and are
    dropped once their life is gone. Outside the matrix style the survivors are
    filled with the theme's primary colour, read channel by channel from its
    '#rrggbb' form; matrix particles are drawn as green text, which is not
    modelled. The source's `Particle` interface is `Mote` here. */
module CyberCursor {
  import opened Wrappers
  import Draws
  import Seqs
  import Hex
  import ThemeContext

  const MatrixCount: nat := 15
  const RingCount: nat := 5
  const HexSize: real := 6.0
  const DotSize: real := 3.0
  const Fade: real := 0.02

  /** One trail particle. */
  datatype Mote = Mote(x: real, y: real, vx: real, vy: real, size: real, life: real)

  /** The cosine and sine of a particle's launch angle. */
  datatype Heading = Heading(cos: real, sin: real)

  /** `particleCount` of `addParticles`: 15 for the matrix style, 5 for any other. */
  function ParticleCount(name: string): (n: nat)
    ensures n == MatrixCount <==> name == "matrix"
    ensures n == RingCount <==> name != "matrix"
  {
    if name == "matrix" then MatrixCount else RingCount
  }

  /** A particle's size: 6 for the hex style, 3 for any other. */
  function MoteSize(name: string): (s: real)
    ensures s == HexSize <==> name == "hex"
    ensures s == DotSize <==> name != "hex"
  {
    if name == "hex" then HexSize else DotSize
  }

  /** A particle's speed: a draw in [2, 4) for the quantum style, 1 otherwise. */
  function Speed(name: string, r: real): (s: real)
    requires Draws.IsDraw(r)
    ensures name == "quantum" ==> 2.0 <= s < 4.0
    ensures name != "quantum" ==> s == 1.0
  {
    if name == "quantum" then 2.0 + r * 2.0 else 1.0
  }

  /** The particles one call of `addParticles` pushes at the pointer. */
  function Ring(x: real, y: real, name: string, hs: seq<Heading>, rs: seq<real>): (t: seq<Mote>)
    requires |hs| == |rs| == ParticleCount(name)
    requires forall i :: 0 <= i < |rs| ==> Draws.IsDraw(rs[i])
    ensures |t| == ParticleCount(name)
    ensures forall i :: 0 <= i < |t| ==>
      t[i].x == x && t[i].y == y && t[i].life == 1.0 && t[i].size == MoteSize(name)
      && t[i].vx == hs[i].cos * Speed(name, rs[i]) && t[i].vy == hs[i].sin * Speed(name, rs[i])
  {
    seq(ParticleCount(name), i requires 0 <= i < ParticleCount(name) =>
      Mote(x, y, hs[i].cos * Speed(name, rs[i]), hs[i].sin * Speed(name, rs[i]), MoteSize(name), 1.0))
  }

  /** One step of the filter callback in `animate`. */
  function Drift(m: Mote): Mote
  {
    m.(x := m.x + m.vx, y := m.y + m.vy, life := m.life - Fade)
  }

  predicate Alive(m: Mote)
  {
    m.life > 0.0
  }

  /** The filter in `animate`: each particle drifts and fades, and those whose life
      is still above 0 stay, in order. */
  function UpdateMotes(ms: seq<Mote>): (r: seq<Mote>)
    ensures |r| <= |ms|
    ensures forall i :: 0 <= i < |r| ==> r[i].life > 0.0
  {
    if ms == [] then []
    else
      var q := Drift(ms[0]);
      (if q.life <= 0.0 then [] else [q]) + UpdateMotes(ms[1..])
  }

  /** The pass is a filter over the drifted list. */
  lemma {:induction false} UpdateMotesIsFilter(ms: seq<Mote>)
    ensures UpdateMotes(ms) == Seqs.Filter(Alive, Seqs.Map(Drift, ms))
  {
    if ms != [] {
      UpdateMotesIsFilter(ms[1..]);
      assert Seqs.Map(Drift, ms)[1..] == Seqs.Map(Drift, ms[1..]);
    }
  }

  /** Fading never raises a life. */
  lemma {:induction false} UpdateMotesBounded(ms: seq<Mote>, hi: real)
    requires forall i :: 0 <= i < |ms| ==> ms[i].life <= hi
    ensures forall i :: 0 <= i < |UpdateMotes(ms)| ==> UpdateMotes(ms)[i].life <= hi
  {
    if ms != [] {
      UpdateMotesBounded(ms[1..], hi);
    }
  }

  /** Particles born in the same move fade together: a list of equal lives is kept
      whole or dropped whole. */
  lemma {:induction false} UpdateMotesAllOrNothing(ms: seq<Mote>, life: real)
    requires forall i :: 0 <= i < |ms| ==> ms[i].life == life
    ensures UpdateMotes(ms) == if life - Fade > 0.0 then Seqs.Map(Drift, ms) else []
  {
    if ms != [] {
      UpdateMotesAllOrNothing(ms[1..], life);
      assert Seqs.Map(Drift, ms)[1..] == Seqs.Map(Drift, ms[1..]);
    }
  }

  /** The `fill()` colour of a surviving particle: none for the matrix style,
      whose particles are drawn as green text (not modelled), else the primary
      colour's channels with the particle's life as opacity. */
  datatype Rgba = Rgba(rgb: Hex.Rgb, alpha: real)

  function MoteFill(name: string, primary: string, m: Mote): (f: Option<Rgba>)
    ensures f.Some? <==> name != "matrix"
    ensures f.Some? ==> f.value.alpha == m.life && f.value.rgb == Hex.ParseColor(primary)
  {
    if name == "matrix" then None else Some(Rgba(Hex.ParseColor(primary), m.life))
  }

  /** For every built-in theme the fill channels are the three bytes of its
      primary colour, each in [0, 255]. */
  lemma ThemeFillChannels(k: nat)
    requires k < ThemeContext.ThemeCount
    ensures var c := Hex.ParseColor(ThemeContext.InitialThemes()[k].colors.primary);
      c.r.Some? && c.g.Some? && c.b.Some?
      && c.r.value <= 255 && c.g.value <= 255 && c.b.value <= 255
  {
    var p := ThemeContext.InitialThemes()[k].colors.primary;
    ThemeContext.InitialColorsWellFormed(k);
    assert p[1..7] == p[1..];
    Hex.ParseColorChannels(p);
  }

  /** The component's refs: the pointer position and the particle list. */
  class Trail {
    var mouseX: real
    var mouseY: real
    var motes: seq<Mote>

    ghost predicate Valid()
      reads this
    {
      forall i :: 0 <= i < |motes| ==> 0.0 < motes[i].life <= 1.0
    }

    constructor ()
      ensures Valid() && mouseX == 0.0 && mouseY == 0.0 && motes == []
    {
      mouseX, mouseY, motes := 0.0, 0.0, [];
    }

    /** `handleMouseMove` followed by `addParticles`. */
    method HandleMouseMove(x: real, y: real, name: string, hs: seq<Heading>, rs: seq<real>)
      requires Valid()
      requires |hs| == |rs| == ParticleCount(name)
      requires forall i :: 0 <= i < |rs| ==> Draws.IsDraw(rs[i])
      modifies this
      ensures Valid()
      ensures mouseX == x && mouseY == y
      ensures motes == old(motes) + Ring(x, y, name, hs, rs)
    {
      mouseX, mouseY := x, y;
      AddParticles(name, hs, rs);
    }

    /** `addParticles`: one particle per heading, pushed at the pointer. */
    method AddParticles(name: string, hs: seq<Heading>, rs: seq<real>)
      requires Valid()
      requires |hs| == |rs| == ParticleCount(name)
      requires forall i :: 0 <= i < |rs| ==> Draws.IsDraw(rs[i])
      modifies this`motes
      ensures Valid()
      ensures motes == old(motes) + Ring(mouseX, mouseY, name, hs, rs)
    {
      var ring := Ring(mouseX, mouseY, name, hs, rs);
      var i := 0;
      while i < ParticleCount(name)
        invariant 0 <= i <= ParticleCount(name)
        invariant motes == old(motes) + ring[..i]
      {
        var speed := Speed(name, rs[i]);
        var m := Mote(mouseX, mouseY, hs[i].cos * speed, hs[i].sin * speed, MoteSize(name), 1.0);
        assert ring[i] == m;
        motes := motes + [m];
        assert ring[..i + 1] == ring[..i] + [ring[i]];
        i := i + 1;
      }
      assert ring[..|ring|] == ring;
    }

    /** The particle pass of `animate`; `fills` are the fills of the survivors,
        in drawing order. */
    method Animate(name: string, primary: string) returns (fills: seq<Option<Rgba>>)
      requires Valid()
      modifies this`motes
      ensures Valid()
      ensures motes == UpdateMotes(old(motes))
      ensures |fills| == |motes|
      ensures forall i :: 0 <= i < |fills| ==> fills[i] == MoteFill(name, primary, motes[i])
    {
      UpdateMotesBounded(motes, 1.0);
      motes := UpdateMotes(motes);
      fills := seq(|motes|, i requires 0 <= i < |motes| reads this => MoteFill(name, primary, motes[i]));
    }
  }
}
