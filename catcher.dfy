/**
 * Star Catcher: one animation-frame tick (spawn countdown, then a walk over
 * the falling items from the last to the first that moves each item, catches
 * it in the basket or drops it off the bottom), the one-second countdown,
 * starting a round and steering the basket. The random draws, the canvas size
 * and the pointer position are parameters; positions are exact reals.
 */
module Catcher {
  import opened Arcade

  /** Frames between two spawns: a spawn happens when the counter exceeds this. */
  const SPAWN_INTERVAL: nat := 40
  const START_LIVES: nat := 3
  /** Seconds in a round. */
  const ROUND_TIME: nat := 60
  const BASKET_WIDTH: real := 80.0
  /** Points for a star, and the penalty for a bomb. */
  const STAR_POINTS: nat := 10
  const BOMB_PENALTY: nat := 50

  datatype Kind = Good | Bad

  /** A falling item: left edge x, baseline y, star or bomb, pixels per frame. */
  datatype Item = Item(x: real, y: real, kind: Kind, speed: real)

  /** Three Math.random() draws, for the kind, the x position and the speed. */
  datatype Draw = Draw(kind: real, x: real, speed: real)

  predicate ValidDraw(d: Draw)
  {
    0.0 <= d.kind < 1.0 && 0.0 <= d.x < 1.0 && 0.0 <= d.speed < 1.0
  }

  // ---------------------------------------------------------------------
  // Spawning
  // ---------------------------------------------------------------------

  /** A new item above the top edge: a star four times in five, falling at 3 to 5 pixels per frame. */
  function NewItem(width: real, d: Draw): (it: Item)
    requires ValidDraw(d)
    ensures it.y == -50.0
    ensures it.kind == Good <==> d.kind > 0.2
    ensures 3.0 <= it.speed < 5.0
    ensures width >= 50.0 ==> 0.0 <= it.x <= width - 50.0
  {
    Item(Scale(d.x, width - 50.0), -50.0, if d.kind > 0.2 then Good else Bad, d.speed * 2.0 + 3.0)
  }

  datatype Spawn = Spawn(items: seq<Item>, timer: nat)

  /** The spawn countdown: one more frame; past the interval, reset it and append one item. */
  function Spawned(items: seq<Item>, timer: nat, width: real, d: Draw): (r: Spawn)
    requires ValidDraw(d)
    ensures timer <= SPAWN_INTERVAL ==> r.timer <= SPAWN_INTERVAL
    ensures |r.items| == |items| + 1 <==> timer + 1 > SPAWN_INTERVAL
    ensures r.timer == 0 <==> timer + 1 > SPAWN_INTERVAL
    ensures timer + 1 <= SPAWN_INTERVAL ==> r.items == items && r.timer == timer + 1
    ensures timer + 1 > SPAWN_INTERVAL ==>
              r.items[..|items|] == items && r.items[|items|] == NewItem(width, d)
  {
    if timer + 1 > SPAWN_INTERVAL then Spawn(items + [NewItem(width, d)], 0) else Spawn(items, timer + 1)
  }

  // ---------------------------------------------------------------------
  // Falling, catching, missing
  // ---------------------------------------------------------------------

  /** The item one frame further down. */
  function Moved(it: Item): (m: Item)
    ensures m.x == it.x && m.kind == it.kind && m.speed == it.speed && m.y - it.y == it.speed
  {
    it.(y := it.y + it.speed)
  }

  /** The canvas height and the basket's left edge: what the catch and miss tests read. */
  datatype Field = Field(height: real, basketX: real)

  /** The item's box overlaps the basket at the bottom of the canvas. */
  predicate Caught(it: Item, f: Field)
    // an item in the basket is still above the bottom edge, so it is never also missed
    ensures Caught(it, f) ==> !Missed(it, f)
  {
    it.y + 30.0 >= f.height - 50.0 && it.y < f.height - 10.0
    && it.x + 45.0 > f.basketX && it.x < f.basketX + BASKET_WIDTH
  }

  /** The item has fallen past the bottom edge. */
  predicate Missed(it: Item, f: Field)
  {
    it.y > f.height
  }

  /** A bomb's penalty: 50 points, but the score never drops below zero. */
  function Penalized(score: nat): (r: nat)
    ensures r <= score
    ensures r == 0 || r == score - BOMB_PENALTY
    ensures r == 0 <==> score <= BOMB_PENALTY
  {
    if score >= BOMB_PENALTY then score - BOMB_PENALTY else 0
  }

  /** The lives left after a caught bomb and whether it ended the round. */
  datatype Hit = Hit(lives: nat, over: bool)

  /** A caught bomb as the tick handles it: on the last life the round ends and lives is left as it was. */
  function BombAsWritten(lives: nat): (h: Hit)
    ensures h.over <==> lives <= 1
    ensures h.over ==> h.lives == lives
    ensures !h.over ==> h.lives == lives - 1
  {
    if lives <= 1 then Hit(lives, true) else Hit(lives - 1, false)
  }

  /** A caught bomb costs one life; losing the last one ends the round with no lives left. */
  function Bomb(lives: nat): (h: Hit)
    ensures h.over <==> lives <= 1
    ensures h.lives == if lives == 0 then 0 else lives - 1
  {
    if lives <= 1 then Hit(0, true) else Hit(lives - 1, false)
  }

  /**
   * Which bomb rule a frame applies: the one the tick carries out, or the
   * corrected one that takes the last life away.
   */
  datatype BombRule = AsWritten | Corrected

  function BombBy(rule: BombRule, lives: nat): (h: Hit)
    ensures h.over <==> lives <= 1
    ensures !h.over ==> h.lives == lives - 1
    ensures h.over ==> h.lives == if rule == Corrected then 0 else lives
  {
    match rule
    case AsWritten => BombAsWritten(lives)
    case Corrected => Bomb(lives)
  }

  /** The title of the result dialog shown at GAME_OVER. */
  datatype Verdict = TimesUp | OutOfLives

  function VerdictFor(lives: nat): (v: Verdict)
    ensures v == OutOfLives <==> lives == 0
  {
    if lives > 0 then TimesUp else OutOfLives
  }

  /** The state the item loop updates: items, score, lives, best score, and whether the round ended. */
  datatype Frame = Frame(items: seq<Item>, score: nat, lives: nat, best: nat, over: bool)

  /** One iteration of the item loop, on index i, under the given bomb rule. */
  function Visit(s: Frame, i: nat, f: Field, rule: BombRule): (r: Frame)
    requires i < |s.items|
    ensures |r.items| == |s.items| || |r.items| == |s.items| - 1
    ensures r.items[..i] == s.items[..i]
    ensures r.lives <= s.lives && (s.over ==> r.over)
  {
    var it := Moved(s.items[i]);
    var gone := s.items[..i] + s.items[i + 1..];
    assert gone[..i] == s.items[..i];
    if Caught(it, f) then
      if it.kind == Good then
        var score := s.score + STAR_POINTS;
        s.(items := gone, score := score, best := UpdateBest(s.best, score))
      else
        var h := BombBy(rule, s.lives);
        if h.over then
          // the round ends here: the bomb stays in the list, already moved
          s.(items := s.items[i := it], score := Penalized(s.score), lives := h.lives, over := true)
        else
          s.(items := gone, score := Penalized(s.score), lives := h.lives)
    else if Missed(it, f) then
      s.(items := gone)
    else
      s.(items := s.items[i := it])
  }

  /** The score of one iteration: 10 more for a caught star, the penalty for a caught bomb, otherwise unchanged. */
  lemma VisitScore(s: Frame, i: nat, f: Field, rule: BombRule)
    requires i < |s.items|
    ensures var m, r := Moved(s.items[i]), Visit(s, i, f, rule);
            r.score == if !Caught(m, f) then s.score
                       else if m.kind == Good then s.score + STAR_POINTS
                       else Penalized(s.score)
  {
  }

  /** The items after the visited one stay, in order, at the end of the list. */
  lemma VisitLeavesRest(s: Frame, i: nat, f: Field, rule: BombRule)
    requires i < |s.items|
    ensures var r := Visit(s, i, f, rule);
            |r.items| >= |s.items| - (i + 1) && r.items[|r.items| - (|s.items| - (i + 1))..] == s.items[i + 1..]
  {
    var r := Visit(s, i, f, rule);
    if |r.items| == |s.items| {
      assert r.items[i + 1..] == s.items[i + 1..];
    } else {
      assert r.items == s.items[..i] + s.items[i + 1..];
    }
  }

  /**
   * A bomb caught on the last life ends the round on the spot: it stays in
   * the list (moved), the loop stops so the items below it are left where
   * they are for this frame, and the lives counter is left alone as written
   * but emptied under the corrected rule.
   */
  lemma FatalBombStopsLoop(s: Frame, i: nat, f: Field, rule: BombRule)
    requires i < |s.items| && !s.over && s.lives <= 1
    requires Caught(Moved(s.items[i]), f) && s.items[i].kind == Bad
    ensures var r := Visit(s, i, f, rule);
            && r.over && r.score == Penalized(s.score)
            && r.lives == (if rule == Corrected then 0 else s.lives)
            && r.items == s.items[i := Moved(s.items[i])]
            && Descend(s, i + 1, f, rule) == r
  {
  }

  /**
   * The item loop run over indices i-1 down to 0, stopping at the end of the
   * round: it removes at most the items it visits, never adds one and never
   * gives a life back.
   */
  function Descend(s: Frame, i: nat, f: Field, rule: BombRule): (r: Frame)
    requires i <= |s.items|
    ensures |s.items| - i <= |r.items| <= |s.items|
    ensures r.lives <= s.lives
    decreases i
  {
    if i == 0 || s.over then s else Descend(Visit(s, i - 1, f, rule), i - 1, f, rule)
  }

  /** Descend, one iteration at a time: a visit that ends the round is where the loop stops. */
  lemma DescendStep(s: Frame, i: nat, f: Field, rule: BombRule)
    requires i < |s.items| && !s.over
    ensures var u := Visit(s, i, f, rule);
            && Descend(s, i + 1, f, rule) == Descend(u, i, f, rule)
            && (u.over ==> Descend(u, i, f, rule) == u)
  {
  }

  /** The items the loop has not reached yet stay, in order, at the end of the list, even when the round ends. */
  lemma {:induction false} DescendLeavesUnvisited(s: Frame, i: nat, f: Field, rule: BombRule)
    requires i <= |s.items|
    ensures var r := Descend(s, i, f, rule);
            r.items[|r.items| - (|s.items| - i)..] == s.items[i..]
    decreases i
  {
    if i > 0 && !s.over {
      var u := Visit(s, i - 1, f, rule);
      var r := Descend(u, i - 1, f, rule);
      DescendLeavesUnvisited(u, i - 1, f, rule);
      VisitLeavesRest(s, i - 1, f, rule);
      assert u.items[i - 1..][|u.items| - (i - 1) - (|s.items| - i)..] == s.items[i..];
    }
  }

  /** What is left of one item after its frame: nothing if caught or missed, otherwise the moved item. */
  function KeptOne(it: Item, f: Field): seq<Item>
  {
    var m := Moved(it);
    if Caught(m, f) || Missed(m, f) then [] else [m]
  }

  /** The reference filter: every item neither caught nor missed, moved, in the original order. */
  function Kept(items: seq<Item>, f: Field): (r: seq<Item>)
    ensures |r| <= |items|
    decreases |items|
  {
    if items == [] then [] else Kept(items[..|items| - 1], f) + KeptOne(items[|items| - 1], f)
  }

  /** The number of bombs among items that land in the basket this frame. */
  function BombsCaught(items: seq<Item>, f: Field): (n: nat)
    ensures n <= |items|
    decreases |items|
  {
    if items == [] then 0
    else
      var m := Moved(items[|items| - 1]);
      BombsCaught(items[..|items| - 1], f) + (if Caught(m, f) && m.kind == Bad then 1 else 0)
  }

  /** The number of stars among items that land in the basket this frame. */
  function StarsCaught(items: seq<Item>, f: Field): (n: nat)
    ensures n <= |items|
    decreases |items|
  {
    if items == [] then 0
    else
      var m := Moved(items[|items| - 1]);
      StarsCaught(items[..|items| - 1], f) + (if Caught(m, f) && m.kind == Good then 1 else 0)
  }

  /** One iteration that does not end the round replaces the visited item by what is kept of it. */
  lemma VisitKeeps(s: Frame, i: nat, f: Field, rule: BombRule)
    requires i < |s.items| && !s.over && !Visit(s, i, f, rule).over
    ensures Visit(s, i, f, rule).items == s.items[..i] + KeptOne(s.items[i], f) + s.items[i + 1..]
  {
    var m := Moved(s.items[i]);
    if Caught(m, f) || Missed(m, f) {
      assert KeptOne(s.items[i], f) == [];
    } else {
      assert KeptOne(s.items[i], f) == [m];
      assert s.items[i := m] == s.items[..i] + [m] + s.items[i + 1..];
    }
  }

  /** One step of DescendKeeps: replacing item i-1 by what is kept of it keeps the shape "filter of the walked items, then the rest". */
  lemma KeepsStep(items: seq<Item>, next: seq<Item>, i: nat, f: Field)
    requires 0 < i <= |items| && next == items[..i - 1] + KeptOne(items[i - 1], f) + items[i..]
    ensures Kept(next[..i - 1], f) + next[i - 1..] == Kept(items[..i], f) + items[i..]
  {
    var pre, k1, post := items[..i - 1], KeptOne(items[i - 1], f), items[i..];
    assert next[..i - 1] == pre && next[i - 1..] == k1 + post;
    assert Kept(items[..i], f) == Kept(pre, f) + k1 by {
      assert items[..i][..i - 1] == pre;
    }
  }

  /**
   * When the round does not end, the loop leaves exactly the reference
   * filter of the items it walked, followed by the ones it did not reach:
   * splicing from the back never disturbs an index still to be visited.
   */
  lemma {:induction false} DescendKeeps(s: Frame, i: nat, f: Field, rule: BombRule)
    requires i <= |s.items|
    ensures var r := Descend(s, i, f, rule);
            !r.over && !s.over ==> r.items == Kept(s.items[..i], f) + s.items[i..]
    decreases i
  {
    if i > 0 && !s.over {
      var u := Visit(s, i - 1, f, rule);
      DescendKeeps(u, i - 1, f, rule);
      if !u.over {
        VisitKeeps(s, i - 1, f, rule);
        KeepsStep(s.items, u.items, i, f);
      }
    }
  }

  /** Lives after one visit: a bomb on the last life ends the round, any other caught bomb costs one life. */
  lemma VisitLives(s: Frame, i: nat, f: Field, rule: BombRule)
    requires i < |s.items| && s.lives >= 1 && !s.over
    ensures var u := Visit(s, i, f, rule);
            var m := Moved(s.items[i]);
            && (u.over ==> u.lives == if rule == Corrected then 0 else 1)
            && (!u.over ==> u.lives >= 1 && u.lives + (if Caught(m, f) && m.kind == Bad then 1 else 0) == s.lives)
  {
  }

  /**
   * Lives accounting: starting with at least one life, every caught bomb
   * costs one while the round goes on. A round the loop ends was ended by a
   * bomb on the last life, which leaves one life on the counter as written
   * and none under the corrected rule.
   */
  lemma {:induction false} DescendLives(s: Frame, i: nat, f: Field, rule: BombRule)
    requires i <= |s.items| && s.lives >= 1 && !s.over
    ensures var r := Descend(s, i, f, rule);
            && (!r.over ==> r.lives >= 1 && r.lives + BombsCaught(s.items[..i], f) == s.lives)
            && (r.over ==> r.lives == if rule == Corrected then 0 else 1)
    decreases i
  {
    if i > 0 {
      var u := Visit(s, i - 1, f, rule);
      var m := Moved(s.items[i - 1]);
      var hit := if Caught(m, f) && m.kind == Bad then 1 else 0;
      VisitLives(s, i - 1, f, rule);
      assert BombsCaught(s.items[..i], f) == BombsCaught(s.items[..i - 1], f) + hit by {
        assert s.items[..i][..i - 1] == s.items[..i - 1];
      }
      if !u.over {
        DescendLives(u, i - 1, f, rule);
        assert u.items[..i - 1] == s.items[..i - 1];
      }
    }
  }

  /**
   * The dialog after a round the item loop ended: as written it says the
   * time ran out, under the corrected rule that the lives ran out.
   */
  lemma LoopVerdict(s: Frame, i: nat, f: Field, rule: BombRule)
    requires i <= |s.items| && s.lives >= 1 && !s.over
    ensures var r := Descend(s, i, f, rule);
            r.over ==> VerdictFor(r.lives) == if rule == Corrected then OutOfLives else TimesUp
  {
    DescendLives(s, i, f, rule);
  }

  /** Without a caught bomb the score rises by ten per caught star and the round goes on. */
  lemma {:induction false} DescendScore(s: Frame, i: nat, f: Field, rule: BombRule)
    requires i <= |s.items| && !s.over
    requires BombsCaught(s.items[..i], f) == 0
    ensures var r := Descend(s, i, f, rule);
            !r.over && r.score == s.score + STAR_POINTS * StarsCaught(s.items[..i], f)
    decreases i
  {
    if i > 0 {
      var u := Visit(s, i - 1, f, rule);
      assert s.items[..i][..i - 1] == s.items[..i - 1];
      DescendScore(u, i - 1, f, rule);
    }
  }

  /** The best score never falls and always covers the current score. */
  lemma {:induction false} DescendBest(s: Frame, i: nat, f: Field, rule: BombRule)
    requires i <= |s.items| && s.score <= s.best
    ensures var r := Descend(s, i, f, rule);
            r.best >= s.best && r.score <= r.best
    decreases i
  {
    if i > 0 && !s.over {
      DescendBest(Visit(s, i - 1, f, rule), i - 1, f, rule);
    }
  }

  /** As written, a fatal bomb leaves a life on the counter, so the dialog says the time ran out. */
  lemma FatalBombAsWrittenSaysTimesUp()
    ensures BombAsWritten(1).over && VerdictFor(BombAsWritten(1).lives) == TimesUp
  {
  }

  /** With the corrected rule the dialog says "out of lives" exactly when a bomb ended the round. */
  lemma FatalBombSaysOutOfLives(lives: nat)
    requires lives >= 1
    ensures Bomb(lives).over <==> VerdictFor(Bomb(lives).lives) == OutOfLives
  {
  }

  // ---------------------------------------------------------------------
  // The countdown
  // ---------------------------------------------------------------------

  /** The clock after k one-second ticks from `time`, and whether it has ended the round. */
  function Clock(time: nat, k: nat): (r: (nat, bool))
    ensures r.0 <= time
  {
    if k == 0 then (time, false)
    else if time <= 1 then (0, true)
    else Clock(time - 1, k - 1)
  }

  /** A round of `time` seconds lasts exactly `time` ticks (at least one). */
  lemma {:induction false} ClockRunsOut(time: nat, k: nat)
    ensures k < time ==> Clock(time, k) == (time - k, false)
    ensures time >= 1 && k >= time ==> Clock(time, k) == (0, true)
    decreases k
  {
    if k > 0 && time > 1 {
      ClockRunsOut(time - 1, k - 1);
    }
  }

  // ---------------------------------------------------------------------
  // The game object
  // ---------------------------------------------------------------------

  /**
   * The component: its score, status, lives, timeLeft and highScore hooks
   * and the gameState ref. `rule` picks the bomb rule its frames apply:
   * AsWritten is the tick as it stands, Corrected takes the last life away.
   */
  class CatcherGame {
    const rule: BombRule
    var score: nat
    var status: Status
    var lives: nat
    var timeLeft: nat
    var highScore: nat
    var basketX: real
    var items: seq<Item>
    var spawnTimer: nat

    ghost predicate Valid()
      reads this
    {
      && spawnTimer <= SPAWN_INTERVAL && lives <= START_LIVES && score <= highScore
      && (status == Playing ==> lives >= 1 && timeLeft >= 1)
    }

    /** Mounting: nothing started yet, the stored best score. */
    constructor (storedBest: nat, rule: BombRule)
      ensures Valid() && this.rule == rule
      ensures score == 0 && status == Idle && lives == START_LIVES && timeLeft == ROUND_TIME
      ensures highScore == storedBest && basketX == 0.0 && items == [] && spawnTimer == 0
    {
      this.rule := rule;
      score := 0;
      status := Idle;
      lives := START_LIVES;
      timeLeft := ROUND_TIME;
      highScore := storedBest;
      basketX := 0.0;
      items := [];
      spawnTimer := 0;
    }

    /** initGame (also the retry action): a fresh round. */
    method InitGame()
      requires Valid()
      modifies this
      ensures Valid()
      ensures score == 0 && lives == START_LIVES && timeLeft == ROUND_TIME && status == Playing
      ensures items == [] && spawnTimer == 0
      ensures highScore == old(highScore) && basketX == old(basketX)
    {
      score := 0;
      lives := START_LIVES;
      timeLeft := ROUND_TIME;
      status := Playing;
      items := [];
      spawnTimer := 0;
    }

    /** A press or touch starts a round from IDLE and does nothing otherwise. */
    method HandleInteractionStart()
      requires Valid()
      modifies this
      ensures Valid()
      ensures old(status) == Idle ==>
                score == 0 && lives == START_LIVES && timeLeft == ROUND_TIME && status == Playing
                && items == [] && spawnTimer == 0
      ensures old(status) != Idle ==>
                score == old(score) && lives == old(lives) && timeLeft == old(timeLeft)
                && status == old(status) && items == old(items) && spawnTimer == old(spawnTimer)
      ensures highScore == old(highScore) && basketX == old(basketX)
    {
      if status == Idle {
        InitGame();
      }
    }

    /** updateHighScore, applied at once (the source defers it through a state setter). */
    method UpdateHighScore(currentScore: nat)
      modifies this`highScore
      ensures highScore == UpdateBest(old(highScore), currentScore)
    {
      if currentScore > highScore {
        highScore := currentScore;
      }
    }

    /**
     * handleMove: the basket is centred under the pointer. rectLeft is the
     * canvas's left edge on screen, None before the canvas is mounted.
     */
    method HandleMove(clientX: real, rectLeft: Option<real>)
      modifies this`basketX
      ensures rectLeft.None? ==> basketX == old(basketX)
      ensures rectLeft.Some? ==> basketX + BASKET_WIDTH / 2.0 == clientX - rectLeft.value
    {
      if rectLeft.None? {
        return;
      }
      var x := clientX - rectLeft.value;
      basketX := x - BASKET_WIDTH / 2.0;
    }

    /** One tick of the one-second interval, which runs only while PLAYING. */
    method Countdown()
      requires Valid() && status == Playing
      modifies this`timeLeft, this`status
      ensures Valid()
      ensures (timeLeft, status == GameOver) == Clock(old(timeLeft), 1)
      ensures status == Playing || status == GameOver
    {
      if timeLeft <= 1 {
        status := GameOver;
        timeLeft := 0;
      } else {
        timeLeft := timeLeft - 1;
      }
    }

    /**
     * update: one animation frame while PLAYING, for a canvas of the given
     * size and three random draws.
     */
    method Update(width: real, height: real, d: Draw)
      requires Valid() && status == Playing && ValidDraw(d)
      modifies this
      ensures Valid()
      ensures timeLeft == old(timeLeft) && basketX == old(basketX)
      ensures var sp := Spawned(old(items), old(spawnTimer), width, d);
              var r := Descend(Frame(sp.items, old(score), old(lives), old(highScore), false), |sp.items|,
                               Field(height, basketX), rule);
              && spawnTimer == sp.timer
              && items == r.items && score == r.score && lives == r.lives && highScore == r.best
              && status == (if r.over then GameOver else Playing)
      ensures status == GameOver ==> VerdictFor(lives) == if rule == Corrected then OutOfLives else TimesUp
    {
      SpawnTick(width, d);
      FallAndCatch(height);
    }

    /** The spawn countdown of update. */
    method SpawnTick(width: real, d: Draw)
      requires ValidDraw(d)
      modifies this`items, this`spawnTimer
      ensures var sp := Spawned(old(items), old(spawnTimer), width, d);
              items == sp.items && spawnTimer == sp.timer
    {
      spawnTimer := spawnTimer + 1;
      if spawnTimer > SPAWN_INTERVAL {
        spawnTimer := 0;
        var kind := if d.kind > 0.2 then Good else Bad;
        var item := Item(Scale(d.x, width - 50.0), -50.0, kind, d.speed * 2.0 + 3.0);
        assert item == NewItem(width, d);
        items := items + [item];
      }
    }

    /**
     * The item loop of update, from the last item to the first: move, then
     * catch (star: +10 and the best score; bomb: -50 clamped at 0 and a
     * life, ending the round on the last one, as `rule` says) or drop off
     * the bottom.
     */
    method FallAndCatch(height: real)
      requires score <= highScore && lives >= 1 && status == Playing
      modifies this`items, this`score, this`lives, this`highScore, this`status
      ensures var r := Descend(Frame(old(items), old(score), old(lives), old(highScore), false), |old(items)|,
                               Field(height, basketX), rule);
              && items == r.items && score == r.score && lives == r.lives && highScore == r.best
              && status == (if r.over then GameOver else Playing)
      ensures score <= highScore && lives <= old(lives)
      ensures status == Playing ==> lives >= 1
      ensures status == GameOver ==> VerdictFor(lives) == if rule == Corrected then OutOfLives else TimesUp
    {
      ghost var f := Field(height, basketX);
      ghost var s0 := Frame(items, score, lives, highScore, false);
      ghost var r := Descend(s0, |s0.items|, f, rule);
      DescendBest(s0, |items|, f, rule);
      DescendLives(s0, |items|, f, rule);
      LoopVerdict(s0, |items|, f, rule);
      var i: nat := |items|;
      while i > 0
        invariant i <= |items|
        invariant status == Playing
        invariant r == Descend(Frame(items, score, lives, highScore, false), i, f, rule)
      {
        i := i - 1;
        ghost var before := Frame(items, score, lives, highScore, false);
        DescendStep(before, i, f, rule);
        var ended := VisitItem(i, height);
        if ended {
          return;
        }
      }
    }

    /**
     * The body of the item loop for index i. It reports whether a bomb took
     * the last life, which makes update return at once.
     */
    method VisitItem(i: nat, height: real) returns (ended: bool)
      requires i < |items| && status == Playing
      modifies this`items, this`score, this`lives, this`highScore, this`status
      ensures Frame(items, score, lives, highScore, ended)
              == Visit(Frame(old(items), old(score), old(lives), old(highScore), false), i, Field(height, basketX), rule)
      ensures status == (if ended then GameOver else Playing)
    {
      ended := false;
      var item := items[i];
      item := item.(y := item.y + item.speed);
      items := items[i := item];

      // the basket
      if item.y + 30.0 >= height - 50.0 && item.y < height - 10.0
         && item.x + 45.0 > basketX && item.x < basketX + BASKET_WIDTH {
        if item.kind == Good {
          score := score + STAR_POINTS;
          UpdateHighScore(score);
        } else {
          score := if score >= BOMB_PENALTY then score - BOMB_PENALTY else 0;
          if lives <= 1 {
            if rule == Corrected {
              lives := 0;
            }
            status := GameOver;
            ended := true;
            return;
          } else {
            lives := lives - 1;
          }
        }
        assert items[..i] + items[i + 1..] == old(items)[..i] + old(items)[i + 1..];
        items := items[..i] + items[i + 1..];
        return;
      }

      // missed
      if item.y > height {
        assert items[..i] + items[i + 1..] == old(items)[..i] + old(items)[i + 1..];
        items := items[..i] + items[i + 1..];
      }
    }
  }
}
