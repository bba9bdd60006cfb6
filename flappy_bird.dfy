/**
 * Flappy Drone: one animation-frame tick (Euler step, boundary check,
 * spawn countdown, obstacle shift and eviction, pipe collision, pass-once
 * scoring with the gap ramp), the jump / reset actions and the best score.
 * Positions are exact reals; the canvas size, the random draw and the base
 * gap computed for the canvas size are parameters.
 */
module FlappyBird {
  import opened Arcade

  /** The drone's fixed horizontal position (its left edge). */
  const BIRD_X: real := 50.0
  /** Frames between two spawns: a spawn happens when the counter exceeds this. */
  const SPAWN_INTERVAL: nat := 180
  /** The gap shrinks by GAP_STEP for every GAP_STEP points. */
  const GAP_STEP: nat := 10

  datatype Canvas = Canvas(width: real, height: real)

  /** A pipe pair: left edge x, top of the gap gapY, and whether it has been scored. */
  datatype Obstacle = Obstacle(x: real, gapY: real, passed: bool)

  /** The sizes and speeds getResponsiveValues derives from the canvas size. */
  datatype Tuning = Tuning(birdSize: real, gravity: real, jumpStrength: real,
                           obstacleWidth: real, obstacleGap: real, obstacleSpeed: real)

  // ---------------------------------------------------------------------
  // Physics and boundaries
  // ---------------------------------------------------------------------

  /** The drone leaves the play field: below the bottom edge or above the top. */
  predicate OutOfBounds(birdY: real, birdSize: real, height: real)
    // staying in bounds means the whole drone is between the top and bottom edges
    ensures !OutOfBounds(birdY, birdSize, height) ==> 0.0 <= birdY && birdY + birdSize <= height
  {
    birdY + birdSize > height || birdY < 0.0
  }

  // ---------------------------------------------------------------------
  // Spawning
  // ---------------------------------------------------------------------

  /** Top of the gap window: 20% of the height, at least 100. */
  function MinGapY(height: real): (m: real)
    ensures m >= 100.0 && m >= 0.2 * height
  {
    Max(100.0, 0.2 * height)
  }

  /** Bottom of the gap window, never above its top even on a small canvas. */
  function MaxGapY(height: real, gap: real): (m: real)
    ensures m >= MinGapY(height)
    ensures m >= height - MinGapY(height) - gap
  {
    Max(MinGapY(height), height - MinGapY(height) - gap)
  }

  /** floor(draw * (maxGapY - minGapY + 1) + minGapY) for a draw in [0, 1). */
  function SpawnGapY(height: real, gap: real, draw: real): (y: real)
    requires 0.0 <= draw < 1.0
    ensures y == y.Floor as real
    ensures MinGapY(height) - 1.0 < y < MaxGapY(height, gap) + 1.0
  {
    var lo := MinGapY(height);
    var span := MaxGapY(height, gap) - lo + 1.0;
    var v := Scale(draw, span) + lo;
    assert v < v.Floor as real + 1.0;
    v.Floor as real
  }

  datatype Spawn = Spawn(obstacles: seq<Obstacle>, timer: nat)

  /** The spawn countdown: one more frame; past the interval, reset it and append one obstacle. */
  function Spawned(obs: seq<Obstacle>, timer: nat, canvas: Canvas, gap: real, draw: real): (r: Spawn)
    requires 0.0 <= draw < 1.0
    ensures timer <= SPAWN_INTERVAL ==> r.timer <= SPAWN_INTERVAL
    ensures |r.obstacles| == |obs| + 1 <==> timer + 1 > SPAWN_INTERVAL
    ensures r.timer == 0 <==> timer + 1 > SPAWN_INTERVAL
    ensures timer + 1 <= SPAWN_INTERVAL ==> r.obstacles == obs && r.timer == timer + 1
    ensures timer + 1 > SPAWN_INTERVAL ==>
              && r.obstacles[..|obs|] == obs
              && var o := r.obstacles[|obs|];
                 o.x == canvas.width && !o.passed
                 && MinGapY(canvas.height) - 1.0 < o.gapY < MaxGapY(canvas.height, gap) + 1.0
  {
    if timer + 1 > SPAWN_INTERVAL then
      Spawn(obs + [Obstacle(canvas.width, SpawnGapY(canvas.height, gap, draw), false)], 0)
    else
      Spawn(obs, timer + 1)
  }

  // ---------------------------------------------------------------------
  // Moving and evicting
  // ---------------------------------------------------------------------

  /** Every obstacle moved left by speed; nothing else about it changes. */
  function Advanced(obs: seq<Obstacle>, speed: real): (r: seq<Obstacle>)
    ensures |r| == |obs|
    ensures forall i :: 0 <= i < |obs| ==>
              r[i].x == obs[i].x - speed && r[i].gapY == obs[i].gapY && r[i].passed == obs[i].passed
  {
    seq(|obs|, i requires 0 <= i < |obs| => obs[i].(x := obs[i].x - speed))
  }

  /** The oldest obstacle is dropped once it is entirely left of the canvas; at most one per frame. */
  function Evicted(obs: seq<Obstacle>, width: real): (r: seq<Obstacle>)
    ensures r == obs || (|obs| > 0 && r == obs[1..])
    ensures |r| < |obs| <==> |obs| > 0 && obs[0].x + width < 0.0
  {
    if |obs| > 0 && obs[0].x + width < 0.0 then obs[1..] else obs
  }

  // ---------------------------------------------------------------------
  // Gap ramp
  // ---------------------------------------------------------------------

  /** The smallest gap: 62.5% of the base gap, at least 100. */
  function MinGap(baseGap: real): (m: real)
    ensures m >= 100.0 && m >= 0.625 * baseGap
  {
    Max(100.0, baseGap * 0.625)
  }

  /** The gap after reaching `score`: the base gap less 10 per 10 points, floored at MinGap. */
  function GapForScore(baseGap: real, score: nat): (g: real)
    ensures g >= MinGap(baseGap)
    ensures g == MinGap(baseGap) || g == baseGap - ((score / GAP_STEP) * GAP_STEP) as real
    ensures g >= baseGap - ((score / GAP_STEP) * GAP_STEP) as real
    ensures baseGap >= MinGap(baseGap) ==> g <= baseGap
  {
    Max(MinGap(baseGap), baseGap - ((score / GAP_STEP) * GAP_STEP) as real)
  }

  /** A higher score never widens the gap. */
  lemma GapNonIncreasing(baseGap: real, s1: nat, s2: nat)
    requires s1 <= s2
    ensures GapForScore(baseGap, s2) <= GapForScore(baseGap, s1)
  {
    assert s1 / GAP_STEP <= s2 / GAP_STEP;
  }

  /** Within one block of ten points the gap does not change. */
  lemma {:induction false} GapStepsEveryTen(baseGap: real, s: nat)
    ensures GapForScore(baseGap, s) == GapForScore(baseGap, (s / GAP_STEP) * GAP_STEP)
  {
    var q := s / GAP_STEP;
    assert (q * GAP_STEP) / GAP_STEP == q;
  }

  // ---------------------------------------------------------------------
  // Collision and scoring
  // ---------------------------------------------------------------------

  /** The numbers the collision loop reads: the drone's top edge and size, the pipe width, the base gap. */
  datatype Probe = Probe(birdY: real, birdSize: real, obstacleWidth: real, baseGap: real)

  /** The drone's box overlaps the top pipe or the bottom pipe of o, for the given gap. */
  predicate HitsPipe(o: Obstacle, pr: Probe, gap: real)
    // touching a pipe needs horizontal overlap, so the same obstacle cannot also be cleared
    ensures HitsPipe(o, pr, gap) ==> !Cleared(o, pr) && BIRD_X + pr.birdSize > o.x
  {
    var right := BIRD_X + pr.birdSize;
    var obsRight := o.x + pr.obstacleWidth;
    (right > o.x && BIRD_X < obsRight && pr.birdY < o.gapY)
    || (right > o.x && BIRD_X < obsRight && pr.birdY + pr.birdSize > o.gapY + gap)
  }

  /** The drone's left edge is past the obstacle's right edge. */
  predicate Cleared(o: Obstacle, pr: Probe)
  {
    BIRD_X > o.x + pr.obstacleWidth
  }

  /** The state the collision loop updates: the obstacle list, score, gap, best score, and whether it crashed. */
  datatype Sweep = Sweep(obstacles: seq<Obstacle>, score: nat, gap: real, best: nat, crashed: bool)

  /** One iteration of the collision loop, on obstacle i. */
  function Visit(s: Sweep, i: nat, pr: Probe): (r: Sweep)
    requires i < |s.obstacles|
    // the score moves by at most one point, and a crash is never undone
    ensures |r.obstacles| == |s.obstacles|
    ensures s.score <= r.score <= s.score + 1
    ensures s.crashed ==> r.crashed
  {
    var o := s.obstacles[i];
    var crashed := s.crashed || HitsPipe(o, pr, s.gap);
    if !o.passed && Cleared(o, pr) then
      var score := s.score + 1;
      Sweep(s.obstacles[i := o.(passed := true)], score, GapForScore(pr.baseGap, score),
            UpdateBest(s.best, score), crashed)
    else
      s.(crashed := crashed)
  }

  /** The collision loop after its first k iterations. */
  function SweepUpTo(s: Sweep, k: nat, pr: Probe): (r: Sweep)
    requires k <= |s.obstacles|
    ensures |r.obstacles| == |s.obstacles|
    ensures forall i :: 0 <= i < |s.obstacles| ==>
              r.obstacles[i].x == s.obstacles[i].x && r.obstacles[i].gapY == s.obstacles[i].gapY
    // an obstacle is marked passed exactly when it already was or the drone has cleared it
    ensures forall i :: 0 <= i < k ==>
              (r.obstacles[i].passed <==> s.obstacles[i].passed || Cleared(s.obstacles[i], pr))
    ensures forall i :: k <= i < |s.obstacles| ==> r.obstacles[i] == s.obstacles[i]
    ensures r.score >= s.score
    ensures s.crashed ==> r.crashed
  {
    if k == 0 then s else Visit(SweepUpTo(s, k - 1, pr), k - 1, pr)
  }

  /** The number of obstacles already scored. */
  function PassedCount(obs: seq<Obstacle>): (n: nat)
    ensures n <= |obs|
  {
    if obs == [] then 0 else (if obs[0].passed then 1 else 0) + PassedCount(obs[1..])
  }

  /** Marking one unscored obstacle as passed adds exactly one to the count. */
  lemma {:induction false} PassedCountMark(obs: seq<Obstacle>, i: nat)
    requires i < |obs| && !obs[i].passed
    ensures PassedCount(obs[i := obs[i].(passed := true)]) == PassedCount(obs) + 1
  {
    var marked := obs[i := obs[i].(passed := true)];
    if i > 0 {
      assert marked[1..] == obs[1..][i - 1 := obs[i].(passed := true)];
      PassedCountMark(obs[1..], i - 1);
    } else {
      assert marked[1..] == obs[1..];
    }
  }

  /** Each point scored in a frame is one obstacle flipped to passed: no obstacle scores twice. */
  lemma {:induction false} SweepScoresEachPassOnce(s: Sweep, k: nat, pr: Probe)
    requires k <= |s.obstacles|
    ensures var r := SweepUpTo(s, k, pr);
            r.score - s.score == PassedCount(r.obstacles) - PassedCount(s.obstacles)
  {
    if k > 0 {
      SweepScoresEachPassOnce(s, k - 1, pr);
      var t := SweepUpTo(s, k - 1, pr);
      var o := t.obstacles[k - 1];
      if !o.passed && Cleared(o, pr) {
        PassedCountMark(t.obstacles, k - 1);
      }
    }
  }

  /** After a frame that scored, the gap is the ramp's value for the new score; otherwise unchanged. */
  lemma {:induction false} SweepGapFollowsScore(s: Sweep, k: nat, pr: Probe)
    requires k <= |s.obstacles|
    ensures var r := SweepUpTo(s, k, pr);
            (r.score == s.score ==> r.gap == s.gap)
            && (r.score > s.score ==> r.gap == GapForScore(pr.baseGap, r.score))
  {
    if k > 0 {
      SweepGapFollowsScore(s, k - 1, pr);
    }
  }

  /** The best score ends at max(best, score): it is raised only by a strictly greater score. */
  lemma {:induction false} SweepBestTracksScore(s: Sweep, k: nat, pr: Probe)
    requires k <= |s.obstacles| && s.score <= s.best
    ensures var r := SweepUpTo(s, k, pr);
            r.best == UpdateBest(s.best, r.score) && r.score <= r.best
  {
    if k > 0 {
      SweepBestTracksScore(s, k - 1, pr);
    }
  }

  /** No premature scoring: an obstacle the drone has not cleared is never marked passed. */
  lemma NoPrematureScoring(s: Sweep, pr: Probe, i: nat)
    requires i < |s.obstacles| && !s.obstacles[i].passed && !Cleared(s.obstacles[i], pr)
    ensures !SweepUpTo(s, |s.obstacles|, pr).obstacles[i].passed
  {
  }

  /** Obstacle i touches the drone, measured with the gap in force when the loop reaches it. */
  predicate HitsAt(s: Sweep, i: nat, pr: Probe)
    requires i < |s.obstacles|
  {
    HitsPipe(s.obstacles[i], pr, SweepUpTo(s, i, pr).gap)
  }

  /** Some obstacle among the first k touches the drone. */
  predicate HitAmong(s: Sweep, k: nat, pr: Probe)
    requires k <= |s.obstacles|
    decreases k
  {
    k > 0 && (HitAmong(s, k - 1, pr) || HitsAt(s, k - 1, pr))
  }

  /** HitAmong names a witness: an obstacle below k whose pipes touch the drone. */
  lemma {:induction false} HitAmongWitness(s: Sweep, k: nat, pr: Probe)
    requires k <= |s.obstacles|
    ensures HitAmong(s, k, pr) <==> exists i :: 0 <= i < k && HitsAt(s, i, pr)
    decreases k
  {
    if k > 0 {
      HitAmongWitness(s, k - 1, pr);
    }
  }

  /** One iteration has crashed exactly when the loop already had or obstacle i's pipes touch the drone. */
  lemma VisitCrashes(s: Sweep, i: nat, pr: Probe)
    requires i < |s.obstacles|
    ensures Visit(s, i, pr).crashed <==> s.crashed || HitsPipe(s.obstacles[i], pr, s.gap)
  {
  }

  /** The collision loop's crash flag, step by step. */
  lemma {:induction false} SweepCrashesAmong(s: Sweep, k: nat, pr: Probe)
    requires k <= |s.obstacles|
    ensures SweepUpTo(s, k, pr).crashed <==> s.crashed || HitAmong(s, k, pr)
    decreases k
  {
    if k > 0 {
      SweepCrashesAmong(s, k - 1, pr);
      var t := SweepUpTo(s, k - 1, pr);
      VisitCrashes(t, k - 1, pr);
      assert t.obstacles[k - 1] == s.obstacles[k - 1];
    }
  }

  /**
   * The collision loop crashes exactly when the drone's box touches a pipe of
   * some visited obstacle, with that obstacle's gap measured by the gap in
   * force when the loop reaches it (the ramp may have narrowed it earlier in
   * the same frame).
   */
  lemma SweepCrashes(s: Sweep, k: nat, pr: Probe)
    requires k <= |s.obstacles|
    ensures SweepUpTo(s, k, pr).crashed <==>
              s.crashed || exists i :: 0 <= i < k && HitsAt(s, i, pr)
  {
    SweepCrashesAmong(s, k, pr);
    HitAmongWitness(s, k, pr);
  }

  /** The score only grows as the loop goes on. */
  lemma {:induction false} SweepScoreGrows(s: Sweep, i: nat, k: nat, pr: Probe)
    requires i <= k <= |s.obstacles|
    ensures SweepUpTo(s, i, pr).score <= SweepUpTo(s, k, pr).score
    decreases k
  {
    if i < k {
      SweepScoreGrows(s, i, k - 1, pr);
    }
  }

  /** In a frame that scores nothing every obstacle is measured with the gap the frame started with. */
  lemma QuietSweepCrashes(s: Sweep, k: nat, pr: Probe)
    requires k <= |s.obstacles| && SweepUpTo(s, k, pr).score == s.score
    ensures SweepUpTo(s, k, pr).crashed <==>
              s.crashed || exists i :: 0 <= i < k && HitsPipe(s.obstacles[i], pr, s.gap)
  {
    SweepCrashes(s, k, pr);
    forall i | 0 <= i < k
      ensures SweepUpTo(s, i, pr).gap == s.gap
    {
      SweepScoreGrows(s, i, k, pr);
      SweepGapFollowsScore(s, i, pr);
    }
  }

  /** What one frame after the boundary check does to the obstacles, spawn timer, score, gap and best. */
  datatype Frame = Frame(sweep: Sweep, timer: nat)

  /** Spawn, shift, evict, then sweep the collision loop over every remaining obstacle. */
  function Scrolled(obs: seq<Obstacle>, timer: nat, score: nat, gap: real, best: nat,
                    canvas: Canvas, draw: real, speed: real, pr: Probe): (f: Frame)
    requires 0.0 <= draw < 1.0
    ensures timer <= SPAWN_INTERVAL ==> f.timer <= SPAWN_INTERVAL
    ensures |f.sweep.obstacles| <= |obs| + 1
    ensures f.sweep.score >= score
  {
    var sp := Spawned(obs, timer, canvas, gap, draw);
    var lined := Evicted(Advanced(sp.obstacles, speed), pr.obstacleWidth);
    Frame(SweepUpTo(Sweep(lined, score, gap, best, false), |lined|, pr), sp.timer)
  }

  // ---------------------------------------------------------------------
  // The game object
  // ---------------------------------------------------------------------

  /** The component: the gameState ref's fields plus the status and highScore hooks. */
  class FlappyGame {
    var birdY: real
    var birdVelocity: real
    var birdSize: real
    var gravity: real
    var jumpStrength: real
    var obstacleWidth: real
    var obstacleGap: real
    var obstacleSpeed: real
    var obstacles: seq<Obstacle>
    var spawnTimer: nat
    var score: nat
    var status: Status
    var highScore: nat

    ghost predicate Valid()
      reads this
    {
      spawnTimer <= SPAWN_INTERVAL && score <= highScore
    }

    /** Mounting: the initial ref values and the stored best score. */
    constructor (tuning: Tuning, storedBest: nat)
      ensures Valid()
      ensures birdY == 300.0 && birdVelocity == 0.0 && obstacles == [] && spawnTimer == 0 && score == 0
      ensures status == Idle && highScore == storedBest
      ensures birdSize == tuning.birdSize && gravity == tuning.gravity && jumpStrength == tuning.jumpStrength
      ensures obstacleWidth == tuning.obstacleWidth && obstacleGap == tuning.obstacleGap
      ensures obstacleSpeed == tuning.obstacleSpeed
    {
      birdY := 300.0;
      birdVelocity := 0.0;
      birdSize := tuning.birdSize;
      gravity := tuning.gravity;
      jumpStrength := tuning.jumpStrength;
      obstacleWidth := tuning.obstacleWidth;
      obstacleGap := tuning.obstacleGap;
      obstacleSpeed := tuning.obstacleSpeed;
      obstacles := [];
      spawnTimer := 0;
      score := 0;
      status := Idle;
      highScore := storedBest;
    }

    /**
     * resetGame: the drone in the middle of the canvas (300 without one),
     * at rest, no obstacles, score 0, the base gap, PLAYING.
     */
    method ResetGame(canvas: Option<Canvas>, baseGap: real)
      requires Valid()
      modifies this
      ensures Valid()
      ensures birdY == (if canvas.Some? then canvas.value.height / 2.0 else 300.0)
      ensures birdVelocity == 0.0 && obstacles == [] && spawnTimer == 0 && score == 0
      ensures obstacleGap == baseGap && status == Playing && highScore == old(highScore)
      ensures birdSize == old(birdSize) && gravity == old(gravity) && jumpStrength == old(jumpStrength)
      ensures obstacleWidth == old(obstacleWidth) && obstacleSpeed == old(obstacleSpeed)
    {
      birdY := if canvas.Some? then canvas.value.height / 2.0 else 300.0;
      birdVelocity := 0.0;
      obstacles := [];
      spawnTimer := 0;
      score := 0;
      obstacleGap := baseGap;
      status := Playing;
    }

    /** jump: flap while PLAYING, start from IDLE, ignored otherwise. */
    method Jump(canvas: Option<Canvas>, baseGap: real)
      requires Valid()
      modifies this
      ensures Valid()
      ensures old(status) == Playing ==>
                birdVelocity == jumpStrength && jumpStrength == old(jumpStrength)
                && birdY == old(birdY) && obstacles == old(obstacles) && score == old(score)
                && spawnTimer == old(spawnTimer) && obstacleGap == old(obstacleGap) && status == Playing
      ensures old(status) == Idle ==>
                birdY == (if canvas.Some? then canvas.value.height / 2.0 else 300.0)
                && birdVelocity == 0.0 && obstacles == [] && spawnTimer == 0 && score == 0
                && obstacleGap == baseGap && status == Playing
      ensures old(status) != Playing && old(status) != Idle ==>
                birdVelocity == old(birdVelocity) && birdY == old(birdY) && obstacles == old(obstacles)
                && score == old(score) && spawnTimer == old(spawnTimer) && obstacleGap == old(obstacleGap)
                && status == old(status)
      // jumping never retunes the game
      ensures birdSize == old(birdSize) && gravity == old(gravity) && jumpStrength == old(jumpStrength)
      ensures obstacleWidth == old(obstacleWidth) && obstacleSpeed == old(obstacleSpeed)
      ensures highScore == old(highScore)
    {
      if status == Playing {
        birdVelocity := jumpStrength;
      } else if status == Idle {
        ResetGame(canvas, baseGap);
      }
    }

    /** updateHighScore, applied at once (the source defers it through a state setter). */
    method UpdateHighScore(currentScore: nat)
      modifies this`highScore
      ensures highScore == UpdateBest(old(highScore), currentScore)
    {
      if currentScore > highScore {
        highScore := currentScore;
      }
    }

    /**
     * update: one animation frame while PLAYING. baseGap is the gap
     * getResponsiveValues gives for the canvas size; draw is Math.random().
     */
    method Update(canvas: Canvas, baseGap: real, draw: real)
      requires Valid() && status == Playing && 0.0 <= draw < 1.0
      modifies this
      ensures Valid()
      ensures birdSize == old(birdSize) && gravity == old(gravity) && jumpStrength == old(jumpStrength)
      ensures obstacleWidth == old(obstacleWidth) && obstacleSpeed == old(obstacleSpeed)
      // Euler step: the position moves by the updated velocity
      ensures birdVelocity == old(birdVelocity) + gravity && birdY == old(birdY) + birdVelocity
      // leaving the field ends the game before anything else happens
      ensures OutOfBounds(birdY, birdSize, canvas.height) ==>
                status == GameOver && obstacles == old(obstacles) && spawnTimer == old(spawnTimer)
                && score == old(score) && obstacleGap == old(obstacleGap) && highScore == old(highScore)
      ensures !OutOfBounds(birdY, birdSize, canvas.height) ==>
                var f := Scrolled(old(obstacles), old(spawnTimer), old(score), old(obstacleGap), old(highScore),
                                  canvas, draw, obstacleSpeed, Probe(birdY, birdSize, obstacleWidth, baseGap));
                && spawnTimer == f.timer && obstacles == f.sweep.obstacles && score == f.sweep.score
                && obstacleGap == f.sweep.gap && highScore == f.sweep.best
                && status == (if f.sweep.crashed then GameOver else Playing)
    {
      // physics
      birdVelocity := birdVelocity + gravity;
      birdY := birdY + birdVelocity;

      // boundaries
      if birdY + birdSize > canvas.height || birdY < 0.0 {
        status := GameOver;
        return;
      }

      Scroll(canvas, baseGap, draw);
    }

    /** The part of update after the boundary check: spawn, move, evict, collide and score. */
    method Scroll(canvas: Canvas, baseGap: real, draw: real)
      requires score <= highScore && status == Playing && 0.0 <= draw < 1.0
      modifies this`obstacles, this`spawnTimer, this`score, this`obstacleGap, this`highScore, this`status
      ensures var f := Scrolled(old(obstacles), old(spawnTimer), old(score), old(obstacleGap), old(highScore),
                                canvas, draw, obstacleSpeed, Probe(birdY, birdSize, obstacleWidth, baseGap));
              && spawnTimer == f.timer && obstacles == f.sweep.obstacles && score == f.sweep.score
              && obstacleGap == f.sweep.gap && highScore == f.sweep.best
              && status == (if f.sweep.crashed then GameOver else Playing)
      ensures score <= highScore
    {
      ghost var sp := Spawned(obstacles, spawnTimer, canvas, obstacleGap, draw);
      SpawnTick(canvas, draw);
      MoveObstacles();

      // remove the oldest obstacle once off-screen
      if |obstacles| > 0 && obstacles[0].x + obstacleWidth < 0.0 {
        obstacles := obstacles[1..];
      }
      assert obstacles == Evicted(Advanced(sp.obstacles, obstacleSpeed), obstacleWidth);
      CollideAndScore(baseGap);
    }

    /** The spawn countdown of update: count the frame; past the interval, reset and add a pipe pair. */
    method SpawnTick(canvas: Canvas, draw: real)
      requires 0.0 <= draw < 1.0
      modifies this`obstacles, this`spawnTimer
      ensures var sp := Spawned(old(obstacles), old(spawnTimer), canvas, obstacleGap, draw);
              obstacles == sp.obstacles && spawnTimer == sp.timer
    {
      spawnTimer := spawnTimer + 1;
      if spawnTimer > SPAWN_INTERVAL {
        spawnTimer := 0;
        var margin := Max(100.0, canvas.height * 0.2);
        var minGapY := margin;
        var maxGapY := Max(minGapY, canvas.height - margin - obstacleGap);
        var gapY := (Scale(draw, maxGapY - minGapY + 1.0) + minGapY).Floor as real;
        assert gapY == SpawnGapY(canvas.height, obstacleGap, draw);
        obstacles := obstacles + [Obstacle(canvas.width, gapY, false)];
      }
    }

    /** The move loop of update: every obstacle shifts left by the speed. */
    method MoveObstacles()
      modifies this`obstacles
      ensures obstacles == Advanced(old(obstacles), obstacleSpeed)
    {
      for i := 0 to |obstacles|
        invariant |obstacles| == |old(obstacles)|
        invariant forall j :: 0 <= j < i ==>
                    obstacles[j] == old(obstacles)[j].(x := old(obstacles)[j].x - obstacleSpeed)
        invariant forall j :: i <= j < |obstacles| ==> obstacles[j] == old(obstacles)[j]
      {
        obstacles := obstacles[i := obstacles[i].(x := obstacles[i].x - obstacleSpeed)];
      }
    }

    /** One iteration of the collision loop, on obstacle i: both pipe tests, then the pass-once scoring. */
    method VisitObstacle(i: nat, baseGap: real)
      requires i < |obstacles| && (status == Playing || status == GameOver)
      modifies this`obstacles, this`score, this`obstacleGap, this`highScore, this`status
      ensures Sweep(obstacles, score, obstacleGap, highScore, status == GameOver) ==
              Visit(Sweep(old(obstacles), old(score), old(obstacleGap), old(highScore), old(status) == GameOver),
                    i, Probe(birdY, birdSize, obstacleWidth, baseGap))
      ensures status == Playing || status == GameOver
    {
      ghost var pr := Probe(birdY, birdSize, obstacleWidth, baseGap);
      ghost var crashed := status == GameOver;
      var obs := obstacles[i];
      var obsLeft := obs.x;
      var obsRight := obs.x + obstacleWidth;
      var birdRight := BIRD_X + birdSize;
      var birdBottom := birdY + birdSize;

      // top pipe
      if birdRight > obsLeft && BIRD_X < obsRight && birdY < obs.gapY {
        status := GameOver;
      }
      // bottom pipe
      if birdRight > obsLeft && BIRD_X < obsRight && birdBottom > obs.gapY + obstacleGap {
        status := GameOver;
      }
      assert (status == GameOver) == (crashed || HitsPipe(obs, pr, obstacleGap));
      // score
      if !obs.passed && BIRD_X > obsRight {
        obstacles := obstacles[i := obs.(passed := true)];
        score := score + 1;
        var reduction := (score / GAP_STEP) * GAP_STEP;
        var minGap := Max(100.0, baseGap * 0.625);
        obstacleGap := Max(minGap, baseGap - reduction as real);
        assert obstacleGap == GapForScore(baseGap, score);
        UpdateHighScore(score);
      }
    }

    /**
     * The collision loop of update: each obstacle in order is tested against
     * both pipes and scored once when cleared, which recomputes the gap and
     * offers the score to updateHighScore.
     */
    method CollideAndScore(baseGap: real)
      requires score <= highScore && status == Playing
      modifies this`obstacles, this`score, this`obstacleGap, this`highScore, this`status
      ensures var r := SweepUpTo(Sweep(old(obstacles), old(score), old(obstacleGap), old(highScore), false),
                                 |old(obstacles)|, Probe(birdY, birdSize, obstacleWidth, baseGap));
              && obstacles == r.obstacles && score == r.score && obstacleGap == r.gap && highScore == r.best
              && status == (if r.crashed then GameOver else Playing)
      ensures score <= highScore && highScore == UpdateBest(old(highScore), score)
    {
      ghost var pr := Probe(birdY, birdSize, obstacleWidth, baseGap);
      ghost var s0 := Sweep(obstacles, score, obstacleGap, highScore, false);
      for i := 0 to |obstacles|
        invariant SweepUpTo(s0, i, pr) ==
                  Sweep(obstacles, score, obstacleGap, highScore, status == GameOver)
        invariant status == Playing || status == GameOver
      {
        VisitObstacle(i, baseGap);
      }
      SweepBestTracksScore(s0, |s0.obstacles|, pr);
    }
  }
}
