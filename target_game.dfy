/** TargetGame.tsx: a click-the-target mini-game. Targets carry ids drawn from a
    counter that is never reset; a click marks a target hit and scores 100, a
    periodic sweep removes hit targets, and the high score only ever rises. */
module TargetGame {
  import opened Wrappers
  import Seqs
  import Draws

  datatype Target = Target(x: real, y: real, size: real, id: nat, hit: bool)

  /** The container's bounding box; `None` stands for an unmounted container. */
  datatype Box = Box(width: real, height: real)

  /** The `map` in `handleTargetClick`: the target with that id becomes hit. */
  function MarkHit(ts: seq<Target>, id: nat): (r: seq<Target>)
    ensures |r| == |ts|
    ensures forall k :: 0 <= k < |ts| ==> r[k].id == ts[k].id
    ensures forall k :: 0 <= k < |ts| ==> r[k].hit == (ts[k].hit || ts[k].id == id)
    ensures forall k :: 0 <= k < |ts| ==> r[k] == ts[k].(hit := r[k].hit)
  {
    if ts == [] then []
    else [if ts[0].id == id then ts[0].(hit := true) else ts[0]] + MarkHit(ts[1..], id)
  }

  predicate Unhit(t: Target) { !t.hit }

  /** The sweep interval body: `prev.filter(target => !target.hit)`. */
  function Sweep(ts: seq<Target>): (r: seq<Target>)
    ensures forall k :: 0 <= k < |r| ==> !r[k].hit && r[k] in ts
    ensures forall k :: 0 <= k < |ts| && !ts[k].hit ==> ts[k] in r
  {
    Seqs.Filter(Unhit, ts)
  }

  function TargetId(t: Target): int { t.id }

  ghost predicate IdsIncreasing(ts: seq<Target>)
  {
    Seqs.StrictlyIncreasing(TargetId, ts)
  }

  /** Marking a target and sweeping removes that target together with the targets
      already hit, and keeps every other target, in order. */
  lemma {:induction false} SweepAfterMarkHit(ts: seq<Target>, id: nat)
    ensures Sweep(MarkHit(ts, id)) == Seqs.Filter((t: Target) => !t.hit && t.id != id, ts)
  {
    if ts != [] {
      assert MarkHit(ts, id)[1..] == MarkHit(ts[1..], id);
      SweepAfterMarkHit(ts[1..], id);
    }
  }

  /** Sweeping never reorders: the ids stay strictly increasing. */
  lemma SweepKeepsIdsIncreasing(ts: seq<Target>)
    requires IdsIncreasing(ts)
    ensures IdsIncreasing(Sweep(ts))
  {
    Seqs.FilterKeepsIncreasing(Unhit, TargetId, ts);
  }

  /** With distinct ids, a click marks at most one target. */
  lemma MarkHitTouchesOneTarget(ts: seq<Target>, id: nat, k: nat, j: nat)
    requires IdsIncreasing(ts) && k < j < |ts|
    ensures !(MarkHit(ts, id)[k].hit && !ts[k].hit && MarkHit(ts, id)[j].hit && !ts[j].hit)
  {
    assert TargetId(ts[k]) < TargetId(ts[j]);
  }

  /** The target `spawnTarget` builds inside a box, from three random draws. */
  function NewTarget(b: Box, rx: real, ry: real, rs: real, id: nat): (t: Target)
    ensures t.id == id && !t.hit
    ensures Draws.IsDraw(rx) && 50.0 <= b.width ==> 0.0 <= t.x <= b.width - 50.0
    ensures Draws.IsDraw(ry) && 50.0 <= b.height ==> 0.0 <= t.y <= b.height - 50.0
    ensures Draws.IsDraw(rs) ==> 30.0 <= t.size < 50.0
  {
    var spanX, spanY := b.width - 50.0, b.height - 50.0;
    Draws.Scale(rx, spanX);
    Draws.Scale(ry, spanY);
    Target(rx * spanX, ry * spanY, rs * 20.0 + 30.0, id, false)
  }

  function Max(a: int, b: int): int { if a >= b then a else b }

  class TargetGameState {
    var score: int
    var targets: seq<Target>
    var gameActive: bool
    var highScore: int
    var targetIdCounter: nat

    /** Ids increase along the list and are all below the counter; scores move in
        steps of 100. */
    ghost predicate Valid()
      reads this
    {
      IdsIncreasing(targets) &&
      (forall k :: 0 <= k < |targets| ==> targets[k].id < targetIdCounter) &&
      score >= 0 && score % 100 == 0 && highScore >= 0 && highScore % 100 == 0
    }

    constructor ()
      ensures Valid()
      ensures score == 0 && targets == [] && !gameActive && highScore == 0 && targetIdCounter == 0
    {
      score, targets, gameActive, highScore, targetIdCounter := 0, [], false, 0, 0;
    }

    /** `spawnTarget`; `rx`, `ry`, `rs` are the three `Math.random()` draws. */
    method SpawnTarget(container: Option<Box>, rx: real, ry: real, rs: real)
      requires Valid()
      modifies this
      ensures Valid()
      ensures container.None? ==> targets == old(targets) && targetIdCounter == old(targetIdCounter)
      ensures container.Some? ==>
        && targets == old(targets) + [NewTarget(container.value, rx, ry, rs, old(targetIdCounter))]
        && targetIdCounter == old(targetIdCounter) + 1
      ensures forall k :: 0 <= k < |old(targets)| ==> old(targets)[k].id < targetIdCounter
      ensures score == old(score) && highScore == old(highScore) && gameActive == old(gameActive)
    {
      if container.None? {
        return;
      }
      var t := NewTarget(container.value, rx, ry, rs, targetIdCounter);
      targetIdCounter := targetIdCounter + 1;
      targets := targets + [t];
    }

    /** `handleTargetClick(id)`: marks the target and adds 100 to the score. */
    method HandleTargetClick(targetId: nat)
      requires Valid()
      modifies this
      ensures Valid()
      ensures targets == MarkHit(old(targets), targetId)
      ensures score == old(score) + 100
      ensures highScore == old(highScore) && gameActive == old(gameActive) && targetIdCounter == old(targetIdCounter)
    {
      targets := MarkHit(targets, targetId);
      score := score + 100;
    }

    /** The `onClick` of the rendered target at position `k`:
        `!target.hit && handleTargetClick(target.id)`. */
    method OnTargetClick(k: nat)
      requires Valid() && k < |targets|
      modifies this
      ensures Valid()
      ensures old(targets[k].hit) ==> targets == old(targets) && score == old(score)
      ensures !old(targets[k].hit) ==>
        && |targets| == |old(targets)| && targets[k] == old(targets[k]).(hit := true)
        && (forall j :: 0 <= j < |targets| && j != k ==> targets[j] == old(targets[j]))
        && score == old(score) + 100
      ensures highScore == old(highScore) && gameActive == old(gameActive) && targetIdCounter == old(targetIdCounter)
    {
      if !targets[k].hit {
        ghost var before := targets;
        HandleTargetClick(targets[k].id);
        forall j | 0 <= j < |targets| && j != k
          ensures targets[j] == before[j]
        {
          if j < k {
            assert TargetId(before[j]) < TargetId(before[k]);
          } else {
            assert TargetId(before[k]) < TargetId(before[j]);
          }
        }
      }
    }

    /** The 100 ms interval body: hit targets are removed. */
    method SweepHits()
      requires Valid()
      modifies this
      ensures Valid()
      ensures targets == Sweep(old(targets))
      ensures score == old(score) && highScore == old(highScore) && gameActive == old(gameActive)
      ensures targetIdCounter == old(targetIdCounter)
    {
      SweepKeepsIdsIncreasing(targets);
      targets := Sweep(targets);
    }

    /** The effect on `score`: raise the high score to the score when it is exceeded. */
    method UpdateHighScore()
      requires Valid()
      modifies this`highScore
      ensures Valid()
      ensures highScore == Max(old(highScore), score)
    {
      if score > highScore {
        highScore := score;
      }
    }

    /** `startGame`: active, score 0, no targets; the id counter is not reset. */
    method StartGame()
      requires Valid()
      modifies this
      ensures Valid()
      ensures gameActive && score == 0 && targets == []
      ensures highScore == old(highScore) && targetIdCounter == old(targetIdCounter)
    {
      gameActive := true;
      score := 0;
      targets := [];
    }

    /** `stopGame`: inactive, and the high score catches up with the score. */
    method StopGame()
      requires Valid()
      modifies this
      ensures Valid()
      ensures !gameActive && highScore == Max(old(highScore), score) && highScore >= old(highScore)
      ensures score == old(score) && targets == old(targets) && targetIdCounter == old(targetIdCounter)
    {
      gameActive := false;
      if score > highScore {
        highScore := score;
      }
    }
  }
}
