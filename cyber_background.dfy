/** CyberBackground.tsx: a scrolling grid and a pool of short-lived particles. Each
    frame may spawn one particle with 100 units of life; a backward loop then updates
    every particle once (one unit of life each), draws it, and splices out those whose
    life has run out. */
module CyberBackground {
  import Draws
  import Seqs

  const GridSize: real := 50.0
  const Speed: real := 0.5
  const MaxLife: int := 100
  const SpawnChance: real := 0.1

  /** The `Particle` class. Size and speeds are fixed at construction. */
  class Particle {
    var x: real
    var y: real
    const size: real
    const speedX: real
    const speedY: real
    var life: int
    const maxLife: int

    /** `new Particle(x, y)`; `rSize`, `rSpeedX`, `rSpeedY` are its three draws. */
    constructor (x0: real, y0: real, rSize: real, rSpeedX: real, rSpeedY: real)
      requires Draws.IsDraw(rSize) && Draws.IsDraw(rSpeedX) && Draws.IsDraw(rSpeedY)
      ensures x == x0 && y == y0 && life == maxLife == MaxLife
      ensures size == rSize * 2.0 + 1.0 && 1.0 <= size < 3.0
      ensures speedX == (rSpeedX - 0.5) * 2.0 && -1.0 <= speedX < 1.0
      ensures speedY == (rSpeedY - 0.5) * 2.0 && -1.0 <= speedY < 1.0
    {
      x, y := x0, y0;
      size := rSize * 2.0 + 1.0;
      speedX := (rSpeedX - 0.5) * 2.0;
      speedY := (rSpeedY - 0.5) * 2.0;
      maxLife := MaxLife;
      life := MaxLife;
    }

    /** `update`: one step along the speed vector and one unit of life less. */
    method Update()
      modifies this
      ensures x == old(x) + speedX && y == old(y) + speedY
      ensures life == old(life) - 1
    {
      x := x + speedX;
      y := y + speedY;
      life := life - 1;
    }

    /** The opacity `draw` uses: the fraction of life left. */
    function Alpha(): (a: real)
      reads this
      requires maxLife > 0
      ensures 0 <= life < maxLife ==> 0.0 <= a < 1.0
    {
      Fraction(life, maxLife)
    }
  }

  /** `life / maxLife` as an exact quotient. */
  function Fraction(life: int, maxLife: int): (a: real)
    requires maxLife > 0
    ensures 0 <= life < maxLife ==> 0.0 <= a < 1.0
  {
    life as real / maxLife as real
  }

  /** The ghost view of the lives of a list of particles. */
  ghost function Lives(ps: seq<Particle>): (ls: seq<int>)
    reads ps
    ensures |ls| == |ps| && forall i {:trigger ls[i]} :: 0 <= i < |ps| ==> ls[i] == ps[i].life
  {
    if ps == [] then [] else [ps[0].life] + Lives(ps[1..])
  }

  /** The ghost views of the positions of a list of particles. */
  ghost function Xs(ps: seq<Particle>): (xs: seq<real>)
    reads ps
    ensures |xs| == |ps| && forall i {:trigger xs[i]} :: 0 <= i < |ps| ==> xs[i] == ps[i].x
  {
    if ps == [] then [] else [ps[0].x] + Xs(ps[1..])
  }

  ghost function Ys(ps: seq<Particle>): (ys: seq<real>)
    reads ps
    ensures |ys| == |ps| && forall i {:trigger ys[i]} :: 0 <= i < |ps| ==> ys[i] == ps[i].y
  {
    if ps == [] then [] else [ps[0].y] + Ys(ps[1..])
  }

  /** Midway through the backward loop, with `n` particles left to visit: those
      before `n` still have the lives `ls` and positions `(xs, ys)` they had when
      the loop began; those from `n` on have been updated once. */
  ghost predicate SweptFrom(pre: seq<Particle>, ls: seq<int>, xs: seq<real>, ys: seq<real>, n: nat)
    reads pre
    requires |ls| == |pre| && |xs| == |pre| && |ys| == |pre|
  {
    forall j :: 0 <= j < |pre| ==>
      if j < n then pre[j].life == ls[j] && pre[j].x == xs[j] && pre[j].y == ys[j]
      else pre[j].life == ls[j] - 1 && pre[j].x == xs[j] + pre[j].speedX && pre[j].y == ys[j] + pre[j].speedY
  }

  /** The lives the spawn step adds: a full life for the one particle, if any. */
  function SpawnLives(spawned: seq<Particle>): (ls: seq<int>)
    ensures |spawned| <= 1 ==> |ls| == |spawned|
  {
    if |spawned| == 1 then [MaxLife] else []
  }

  /** At most one particle spawned, with a full life: its lives are `SpawnLives`. */
  lemma SpawnedLives(spawned: seq<Particle>)
    requires |spawned| <= 1 && forall q :: q in spawned ==> q.life == MaxLife
    ensures Lives(spawned) == SpawnLives(spawned)
  {
    if spawned != [] {
      assert spawned[0] in spawned;
    }
  }

  /** A pool with at most one freshly spawned particle pushed at its end has the
      pool's lives followed by `SpawnLives`. */
  lemma PushedLives(ps: seq<Particle>, spawned: seq<Particle>)
    requires |spawned| <= 1 && forall q :: q in spawned ==> q.life == MaxLife
    ensures Lives(ps + spawned) == Lives(ps) + SpawnLives(spawned)
  {
    LivesAppend(ps, spawned);
    SpawnedLives(spawned);
  }

  /** The lives of two lists side by side. */
  lemma {:induction false} LivesAppend(ps: seq<Particle>, qs: seq<Particle>)
    ensures Lives(ps + qs) == Lives(ps) + Lives(qs)
  {
    var l := Lives(ps + qs);
    assert l == Lives(ps) + Lives(qs) by {
      assert |l| == |Lives(ps) + Lives(qs)|;
    }
  }

  function Decremented(ls: seq<int>): (r: seq<int>)
    ensures |r| == |ls| && forall i :: 0 <= i < |ls| ==> r[i] == ls[i] - 1
  {
    if ls == [] then [] else [ls[0] - 1] + Decremented(ls[1..])
  }

  /** A suffix is its first element followed by the next suffix. */
  lemma SuffixCons<T>(s: seq<T>, i: nat)
    requires i < |s|
    ensures s[i..] == [s[i]] + s[i + 1..]
  {
  }

  /** Drawing particle `n - 1` with one unit of life less extends the lives drawn so far. */
  lemma DrawnStep(ls: seq<int>, n: nat, drawn: seq<int>)
    requires 0 < n <= |ls| && drawn == Decremented(ls)[n..]
    ensures [ls[n - 1] - 1] + drawn == Decremented(ls)[n - 1..]
  {
    SuffixCons(Decremented(ls), n - 1);
  }

  /** The ends of a backward sweep: nothing done and everything done. */
  lemma SweepEnds<T>(s: seq<T>)
    ensures s[..|s|] == s && s[|s|..] == [] && s[..0] == [] && s[0..] == s
  {
  }

  predicate Alive(life: int) { life > 0 }

  /** The particles the backward loop keeps, given their lives `ls` before the loop:
      those whose life is still positive after one update. */
  ghost function Survivors(ps: seq<Particle>, ls: seq<int>): (r: seq<Particle>)
    requires |ps| == |ls|
    ensures |r| <= |ps|
  {
    if ps == [] then [] else (if Alive(ls[0] - 1) then [ps[0]] else []) + Survivors(ps[1..], ls[1..])
  }

  /** Every survivor is a particle of the pool: the pass creates none. */
  lemma {:induction false} SurvivorsFromPool(ps: seq<Particle>, ls: seq<int>)
    requires |ps| == |ls|
    ensures forall k :: 0 <= k < |Survivors(ps, ls)| ==> Survivors(ps, ls)[k] in ps
  {
    if ps != [] {
      SurvivorsFromPool(ps[1..], ls[1..]);
      var rest := Survivors(ps[1..], ls[1..]);
      var r := Survivors(ps, ls);
      forall k | 0 <= k < |r| ensures r[k] in ps {
        if !Alive(ls[0] - 1) {
          assert r[k] == rest[k];
        } else if 0 < k {
          assert r[k] == rest[k - 1];
        }
      }
    }
  }

  /** After the updates, the survivors' lives are the decremented lives that stay
      positive, in order. */
  lemma {:induction false} LivesOfSurvivors(ps: seq<Particle>, ls: seq<int>)
    requires |ps| == |ls|
    requires forall i :: 0 <= i < |ps| ==> ps[i].life == ls[i] - 1
    ensures Lives(Survivors(ps, ls)) == Seqs.Filter(Alive, Decremented(ls))
  {
    if ps != [] {
      LivesOfSurvivors(ps[1..], ls[1..]);
      assert Decremented(ls)[1..] == Decremented(ls[1..]);
      var head := if Alive(ls[0] - 1) then [ps[0]] else [];
      assert Lives(head + Survivors(ps[1..], ls[1..])) == Lives(head) + Lives(Survivors(ps[1..], ls[1..]));
    }
  }

  /** Each value is above the one before it. */
  predicate Rising(ls: seq<int>)
  {
    forall k :: 0 < k < |ls| ==> ls[k - 1] < ls[k]
  }

  /** A rising sequence of integers grows by at least one per position. */
  lemma {:induction false} RisingGrowth(ls: seq<int>, i: nat, j: nat)
    requires Rising(ls) && i <= j < |ls|
    ensures ls[i] + (j - i) <= ls[j]
    decreases j - i
  {
    if i < j {
      RisingGrowth(ls, i, j - 1);
    }
  }

  /** Rising integers within [lo, hi] number at most hi - lo + 1. */
  lemma RisingWithinIsShort(ls: seq<int>, lo: int, hi: int)
    requires lo <= hi + 1 && Rising(ls)
    requires forall i :: 0 <= i < |ls| ==> lo <= ls[i] <= hi
    ensures |ls| <= hi - lo + 1
  {
    if ls != [] {
      RisingGrowth(ls, 0, |ls| - 1);
    }
  }

  /** `offset % gridSize` for a non-negative offset: where the first grid line goes. */
  function GridStart(offset: real): (s: real)
    requires offset >= 0.0
    ensures 0.0 <= s < GridSize
    ensures offset < GridSize ==> s == offset
    ensures (offset - s) / GridSize == ((offset - s) / GridSize).Floor as real
  {
    var q := offset / GridSize;
    var f := q.Floor;
    assert offset == q * GridSize;
    offset - f as real * GridSize
  }

  /** Lives along the pool, oldest first: rising, each in [lo, hi]. */
  ghost predicate Staggered(ps: seq<Particle>, lo: int, hi: int)
    reads ps
  {
    forall i :: 0 <= i < |ps| ==>
      ps[i].maxLife == MaxLife && lo <= ps[i].life <= hi && (0 < i ==> ps[i - 1].life < ps[i].life)
  }

  /** Pushing a particle with a full life keeps the pool staggered. */
  lemma StaggeredPush(ps: seq<Particle>, p: Particle)
    requires Staggered(ps, 1, MaxLife - 1) && p.maxLife == MaxLife && p.life == MaxLife
    ensures Staggered(ps + [p], 1, MaxLife)
  {
    var qs := ps + [p];
    forall i | 0 <= i < |qs| ensures qs[i].maxLife == MaxLife && 1 <= qs[i].life <= MaxLife && (0 < i ==> qs[i - 1].life < qs[i].life) {
      if i < |ps| {
        assert qs[i] == ps[i];
      }
      if 0 < i {
        assert qs[i - 1] == ps[i - 1];
      }
    }
  }

  /** The tail of a rising sequence rises, above its head. */
  lemma RisingTail(s: seq<int>)
    requires Rising(s) && s != []
    ensures Rising(s[1..])
    ensures forall k :: 0 <= k < |s[1..]| ==> s[0] < s[1..][k]
  {
    var tl := s[1..];
    forall k | 0 < k < |tl| ensures tl[k - 1] < tl[k] {
      assert tl[k - 1] == s[k] && tl[k] == s[k + 1];
    }
    forall k | 0 <= k < |tl| ensures s[0] < tl[k] {
      RisingGrowth(s, 0, k + 1);
    }
  }

  /** A value below every element of a rising sequence can go in front of it. */
  lemma RisingCons(x: int, t: seq<int>)
    requires Rising(t) && forall k :: 0 <= k < |t| ==> x < t[k]
    ensures Rising([x] + t)
    ensures forall k :: 0 <= k < |[x] + t| ==> x <= ([x] + t)[k]
  {
    var f := [x] + t;
    forall k | 0 < k < |f| ensures f[k - 1] < f[k] {
      assert f[k] == t[k - 1];
      if 1 < k {
        assert f[k - 1] == t[k - 2];
      }
    }
  }

  /** Filtering rising integers leaves them rising, none below the first. */
  lemma {:induction false} FilterRising(p: int -> bool, s: seq<int>)
    requires Rising(s)
    ensures Rising(Seqs.Filter(p, s))
    ensures s != [] ==> forall k :: 0 <= k < |Seqs.Filter(p, s)| ==> s[0] <= Seqs.Filter(p, s)[k]
  {
    if s != [] {
      var tl := s[1..];
      RisingTail(s);
      FilterRising(p, tl);
      var ft := Seqs.Filter(p, tl);
      assert forall k :: 0 <= k < |ft| ==> s[0] < ft[k] by {
        if tl != [] {
          assert s[0] < tl[0];
        }
      }
      if p(s[0]) {
        assert Seqs.Filter(p, s) == [s[0]] + ft;
        RisingCons(s[0], ft);
      }
    }
  }

  /** Decrementing rising lives in [1, 100] and keeping the positive ones leaves
      rising lives in [1, 99]. */
  lemma FilterRisingBounded(ls: seq<int>)
    requires Rising(ls)
    requires forall i :: 0 <= i < |ls| ==> 1 <= ls[i] <= MaxLife
    ensures Rising(Seqs.Filter(Alive, Decremented(ls)))
    ensures forall k :: 0 <= k < |Seqs.Filter(Alive, Decremented(ls))| ==>
      1 <= Seqs.Filter(Alive, Decremented(ls))[k] <= MaxLife - 1
  {
    var d := Decremented(ls);
    assert Rising(d) by {
      forall k | 0 < k < |d| ensures d[k - 1] < d[k] {
        assert ls[k - 1] < ls[k];
      }
    }
    FilterRising(Alive, d);
    var f := Seqs.Filter(Alive, d);
    forall k | 0 <= k < |f| ensures 1 <= f[k] <= MaxLife - 1 {
      var m :| 0 <= m < |d| && d[m] == f[k];
    }
  }

  /** What the loop leaves once every particle is updated: the survivors are
      staggered between 1 and 99. */
  lemma SurvivorsStaggered(pre: seq<Particle>, ls: seq<int>)
    requires |pre| == |ls| && Rising(ls)
    requires forall i :: 0 <= i < |ls| ==> 1 <= ls[i] <= MaxLife
    requires forall i :: 0 <= i < |pre| ==> pre[i].life == ls[i] - 1 && pre[i].maxLife == MaxLife
    ensures Staggered(Survivors(pre, ls), 1, MaxLife - 1)
  {
    LivesOfSurvivors(pre, ls);
    FilterRisingBounded(ls);
    SurvivorsFromPool(pre, ls);
    var r := Survivors(pre, ls);
    var f := Seqs.Filter(Alive, Decremented(ls));
    forall k | 0 <= k < |r| ensures r[k].maxLife == MaxLife && 1 <= r[k].life <= MaxLife - 1 && (0 < k ==> r[k - 1].life < r[k].life) {
      assert r[k].life == Lives(r)[k] == f[k];
      var m :| 0 <= m < |pre| && pre[m] == r[k];
      if 0 < k {
        assert r[k - 1].life == Lives(r)[k - 1] == f[k - 1];
      }
    }
  }

  /** Once the loop has visited every particle, each has been updated exactly once
      and the survivors are staggered between 1 and 99. */
  lemma SweepDone(pre: seq<Particle>, ls: seq<int>, xs: seq<real>, ys: seq<real>)
    requires |ls| == |pre| && |xs| == |pre| && |ys| == |pre| && Rising(ls)
    requires forall j :: 0 <= j < |pre| ==> 1 <= ls[j] <= MaxLife && pre[j].maxLife == MaxLife
    requires SweptFrom(pre, ls, xs, ys, 0)
    ensures forall j :: 0 <= j < |pre| ==>
      pre[j].life == ls[j] - 1 && pre[j].x == xs[j] + pre[j].speedX && pre[j].y == ys[j] + pre[j].speedY
    ensures Staggered(Survivors(pre, ls), 1, MaxLife - 1)
  {
    SurvivorsStaggered(pre, ls);
  }

  /** One step of the backward loop: visiting position `i` adds `pre[i]` to the
      survivors exactly when it is still alive. */
  lemma SurvivorsStep(pre: seq<Particle>, ls: seq<int>, i: nat)
    requires |pre| == |ls| && i < |pre|
    ensures Survivors(pre[i..], ls[i..])
         == (if Alive(ls[i] - 1) then [pre[i]] else []) + Survivors(pre[i + 1..], ls[i + 1..])
  {
    assert pre[i..][1..] == pre[i + 1..] && ls[i..][1..] == ls[i + 1..];
  }

  /** The lives of a staggered list rise and stay within its bounds. */
  lemma StaggeredLives(ps: seq<Particle>, lo: int, hi: int)
    requires Staggered(ps, lo, hi)
    ensures Rising(Lives(ps))
    ensures forall i :: 0 <= i < |ps| ==> lo <= Lives(ps)[i] <= hi && ps[i].maxLife == MaxLife
  {
    var ls := Lives(ps);
    forall k | 0 < k < |ls| ensures ls[k - 1] < ls[k] {
      assert ps[k - 1].life < ps[k].life;
    }
  }

  /** Particles with different lives are different objects, so each particle of a
      list whose lives rise has one position in it. */
  lemma PositionsOf(ps: seq<Particle>, ls: seq<int>) returns (pos: map<Particle, int>)
    requires |ps| == |ls| && Rising(ls)
    requires forall j :: 0 <= j < |ps| ==> ps[j].life == ls[j]
    ensures forall j :: 0 <= j < |ps| ==> ps[j] in pos && pos[ps[j]] == j
  {
    forall a, b | 0 <= a < b < |ps| ensures ps[a] != ps[b] {
      RisingGrowth(ls, a, b);
    }
    pos := map j | 0 <= j < |ps| :: ps[j] := j;
  }

  /** What the backward loop starts from: the lives and positions of a staggered
      pool, each particle at one position, none of them visited yet. */
  lemma Snapshot(ps: seq<Particle>) returns (ls: seq<int>, xs: seq<real>, ys: seq<real>, pos: map<Particle, int>)
    requires Staggered(ps, 1, MaxLife)
    ensures ls == Lives(ps) && xs == Xs(ps) && ys == Ys(ps)
    ensures |ls| == |ps| && |xs| == |ps| && |ys| == |ps| && Rising(ls)
    ensures forall j :: 0 <= j < |ps| ==> 1 <= ls[j] <= MaxLife && ps[j].maxLife == MaxLife
    ensures forall j :: 0 <= j < |ps| ==> ps[j] in pos && pos[ps[j]] == j
    ensures SweptFrom(ps, ls, xs, ys, |ps|)
  {
    ls, xs, ys := Lives(ps), Xs(ps), Ys(ps);
    StaggeredLives(ps, 1, MaxLife);
    pos := PositionsOf(ps, ls);
  }

  /** Removing position `i` from `pre[..i + 1] + rest` leaves `pre[..i] + rest`. */
  lemma SpliceShapes<T>(pre: seq<T>, i: nat, rest: seq<T>, before: seq<T>)
    requires i < |pre| && before == pre[..i + 1] + rest
    ensures i < |before| && before[i] == pre[i]
    ensures before[..i] + before[i + 1..] == pre[..i] + rest
    ensures before == pre[..i] + ([pre[i]] + rest)
  {
    assert pre[..i + 1] == pre[..i] + [pre[i]];
    assert before[..i] == pre[..i] && before[i + 1..] == rest;
  }

  /** With `n` particles left to visit, the list holds `pre[n - 1]` at `n - 1`;
      splicing it out exactly when it is dead leaves the survivors from `n - 1` on. */
  lemma SpliceStep(pre: seq<Particle>, ls: seq<int>, n: nat, before: seq<Particle>)
    requires |pre| == |ls| && 0 < n <= |pre|
    requires before == pre[..n] + Survivors(pre[n..], ls[n..])
    ensures n - 1 < |before| && before[n - 1] == pre[n - 1]
    ensures !Alive(ls[n - 1] - 1) ==> before[..n - 1] + before[n..] == pre[..n - 1] + Survivors(pre[n - 1..], ls[n - 1..])
    ensures Alive(ls[n - 1] - 1) ==> before == pre[..n - 1] + Survivors(pre[n - 1..], ls[n - 1..])
  {
    var i := n - 1;
    var rest := Survivors(pre[n..], ls[n..]);
    SurvivorsStep(pre, ls, i);
    SpliceShapes(pre, i, rest, before);
    if !Alive(ls[i] - 1) {
      assert Survivors(pre[i..], ls[i..]) == rest;
    }
  }

  /** The closure state of the effect: the particle list and the grid offset. */
  class Scene {
    var particles: seq<Particle>
    var offset: real

    /** Between frames every particle has between 1 and 99 units of life, and a
        younger particle sits after an older one. */
    ghost predicate Valid()
      reads this, particles
    {
      offset >= 0.0 && Staggered(particles, 1, MaxLife - 1)
    }

    constructor ()
      ensures Valid() && particles == [] && offset == 0.0
    {
      particles := [];
      offset := 0.0;
    }

    /** Between frames the pool holds fewer than 100 particles. */
    lemma PoolIsBounded()
      requires Valid()
      ensures |particles| < MaxLife
    {
      RisingWithinIsShort(Lives(particles), 1, MaxLife - 1);
    }

    /** The spawn step: with probability 0.1 (draw `rSpawn`) a particle is pushed at
        `(rx * width, ry * height)`. */
    method MaybeSpawn(rSpawn: real, rx: real, ry: real, rSize: real, rSpeedX: real, rSpeedY: real, width: real, height: real)
      returns (ghost spawned: seq<Particle>)
      requires Valid()
      requires Draws.IsDraw(rx) && Draws.IsDraw(ry)
      requires Draws.IsDraw(rSize) && Draws.IsDraw(rSpeedX) && Draws.IsDraw(rSpeedY)
      requires 0.0 <= width && 0.0 <= height
      modifies this`particles
      ensures offset >= 0.0 && Staggered(particles, 1, MaxLife)
      ensures particles == old(particles) + spawned
      ensures |spawned| == (if rSpawn < SpawnChance then 1 else 0)
      ensures forall q :: q in spawned ==>
        && fresh(q) && q.life == MaxLife
        && q.x == rx * width && q.y == ry * height
        && 0.0 <= q.x <= width && 0.0 <= q.y <= height
    {
      spawned := [];
      if rSpawn < SpawnChance {
        var px, py := rx * width, ry * height;
        Draws.Scale(rx, width);
        Draws.Scale(ry, height);
        var p := new Particle(px, py, rSize, rSpeedX, rSpeedY);
        StaggeredPush(particles, p);
        particles := particles + [p];
        spawned := [p];
      }
    }

    /** One iteration of the backward loop, with `n` particles left to visit: update
        particle `n - 1`, draw it, and splice it out if its life has run out. `pre`
        is the list before the loop, `ls`, `xs` and `ys` the lives and positions it
        had then, and `pos` the position of each particle. */
    method VisitParticle(n: nat, ghost pre: seq<Particle>, ghost ls: seq<int>, ghost xs: seq<real>, ghost ys: seq<real>,
                         ghost pos: map<Particle, int>, drawn: seq<int>) returns (drawn': seq<int>)
      requires |pre| == |ls| == |xs| == |ys| && 0 < n <= |pre| && 1 <= ls[n - 1] <= MaxLife
      requires forall j :: 0 <= j < |pre| ==> pre[j] in pos && pos[pre[j]] == j
      requires particles == pre[..n] + Survivors(pre[n..], ls[n..])
      requires SweptFrom(pre, ls, xs, ys, n)
      modifies this`particles, pre[n - 1]
      ensures particles == pre[..n - 1] + Survivors(pre[n - 1..], ls[n - 1..])
      ensures SweptFrom(pre, ls, xs, ys, n - 1)
      ensures drawn' == [ls[n - 1] - 1] + drawn
    {
      SpliceStep(pre, ls, n, particles);
      var i := n - 1;
      var p := particles[i];
      p.Update();
      drawn' := [p.life] + drawn;
      if p.life <= 0 {
        particles := particles[..i] + particles[n..];
      }
    }

    /** The backward loop over the list `pre`, whose lives and positions were `ls`,
        `xs` and `ys` when it started: every particle is updated once and drawn,
        and spliced out when its life reaches 0. Returns the life each particle
        was drawn with. */
    method SweepBackward(ghost pre: seq<Particle>, ghost ls: seq<int>, ghost xs: seq<real>, ghost ys: seq<real>,
                         ghost pos: map<Particle, int>) returns (drawn: seq<int>)
      requires particles == pre && |ls| == |pre| && |xs| == |pre| && |ys| == |pre|
      requires forall j :: 0 <= j < |pre| ==> pre[j] in pos && pos[pre[j]] == j
      requires forall j :: 0 <= j < |pre| ==> 1 <= ls[j] <= MaxLife
      requires offset >= 0.0 && Rising(ls) && forall j :: 0 <= j < |pre| ==> pre[j].maxLife == MaxLife
      requires SweptFrom(pre, ls, xs, ys, |pre|)
      modifies this`particles, pre
      ensures Valid() && particles == Survivors(pre, ls)
      ensures forall j :: 0 <= j < |pre| ==>
        pre[j].life == ls[j] - 1 && pre[j].x == xs[j] + pre[j].speedX && pre[j].y == ys[j] + pre[j].speedY
      ensures drawn == Decremented(ls)
    {
      drawn := [];
      var i := |particles|;
      SweepEnds(pre);
      SweepEnds(ls);
      SweepEnds(Decremented(ls));
      while i > 0
        invariant 0 <= i <= |pre|
        invariant particles == pre[..i] + Survivors(pre[i..], ls[i..])
        invariant SweptFrom(pre, ls, xs, ys, i)
        invariant drawn == Decremented(ls)[i..]
      {
        DrawnStep(ls, i, drawn);
        drawn := VisitParticle(i, pre, ls, xs, ys, pos, drawn);
        i := i - 1;
      }
      SweepDone(pre, ls, xs, ys);
    }

    /** The update-and-splice pass of a frame: every particle loses one unit of life,
        those left with none are removed, and the survivors keep their order.
        `drawn[j]` is the life particle `j` was drawn with; its alpha is
        `Fraction(drawn[j], MaxLife)`. */
    method UpdateParticles() returns (drawn: seq<int>)
      requires offset >= 0.0 && Staggered(particles, 1, MaxLife)
      modifies this`particles, particles
      ensures Valid()
      ensures particles == Survivors(old(particles), old(Lives(particles)))
      ensures |particles| <= |old(particles)|
      ensures forall j :: 0 <= j < |old(particles)| ==>
        var p := old(particles)[j];
        p.life == old(p.life) - 1 && p.x == old(p.x) + p.speedX && p.y == old(p.y) + p.speedY
      ensures drawn == Decremented(old(Lives(particles)))
      ensures forall t :: 0 <= t < |drawn| ==> 0 <= drawn[t] < MaxLife
    {
      ghost var pre := particles;
      ghost var ls, xs, ys, pos := Snapshot(pre);
      drawn := SweepBackward(pre, ls, xs, ys, pos);
    }

    /** The particle part of a frame: one particle may spawn (`spawned`), and the
        pool, with the spawned particle at its end, goes through the
        update-and-splice pass. */
    method SpawnAndUpdate(rSpawn: real, rx: real, ry: real, rSize: real, rSpeedX: real, rSpeedY: real, width: real, height: real)
      returns (drawn: seq<int>, ghost spawned: seq<Particle>)
      requires Valid()
      requires Draws.IsDraw(rx) && Draws.IsDraw(ry)
      requires Draws.IsDraw(rSize) && Draws.IsDraw(rSpeedX) && Draws.IsDraw(rSpeedY)
      requires 0.0 <= width && 0.0 <= height
      modifies this`particles, particles
      ensures Valid()
      ensures |spawned| == (if rSpawn < SpawnChance then 1 else 0)
      ensures forall q :: q in spawned ==> fresh(q)
      ensures particles == Survivors(old(particles) + spawned, old(Lives(particles)) + SpawnLives(spawned))
      ensures drawn == Decremented(old(Lives(particles)) + SpawnLives(spawned))
    {
      ghost var before := particles;
      ghost var ls := Lives(particles);
      spawned := MaybeSpawn(rSpawn, rx, ry, rSize, rSpeedX, rSpeedY, width, height);
      PushedLives(before, spawned);
      drawn := UpdateParticles();
    }

    /** One call of `animate`: the grid is placed at `offset % gridSize`, the offset
        advances by 0.5, one particle may spawn (`spawned`), and the pool, with the
        spawned particle at its end, goes through the update-and-splice pass. */
    method Frame(rSpawn: real, rx: real, ry: real, rSize: real, rSpeedX: real, rSpeedY: real, width: real, height: real)
      returns (gridStart: real, drawn: seq<int>, ghost spawned: seq<Particle>)
      requires Valid()
      requires Draws.IsDraw(rx) && Draws.IsDraw(ry)
      requires Draws.IsDraw(rSize) && Draws.IsDraw(rSpeedX) && Draws.IsDraw(rSpeedY)
      requires 0.0 <= width && 0.0 <= height
      modifies this, particles
      ensures Valid()
      ensures gridStart == GridStart(old(offset)) && 0.0 <= gridStart < GridSize
      ensures offset == old(offset) + Speed
      ensures |spawned| == (if rSpawn < SpawnChance then 1 else 0)
      ensures forall q :: q in spawned ==> fresh(q)
      ensures particles == Survivors(old(particles) + spawned, old(Lives(particles)) + SpawnLives(spawned))
      ensures drawn == Decremented(old(Lives(particles)) + SpawnLives(spawned))
      ensures |particles| <= |old(particles)| + 1
      ensures |particles| < MaxLife
      ensures forall t :: 0 <= t < |drawn| ==> 0.0 <= Fraction(drawn[t], MaxLife) < 1.0
    {
      gridStart := GridStart(offset);
      // The particle pass touches neither the offset nor the grid, so advancing the
      // offset after it leaves the same state as the source's order.
      drawn, spawned := SpawnAndUpdate(rSpawn, rx, ry, rSize, rSpeedX, rSpeedY, width, height);
      offset := offset + Speed;
      PoolIsBounded();
    }
  }
}
