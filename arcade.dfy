/**
 * Definitions shared by the four games of the hub: the session status of
 * types.ts, an optional value, and the best-score rule each physics game
 * applies when its score rises.
 */
module Arcade {

  /** The session state machine: IDLE, PLAYING, GAME_OVER, VICTORY. */
  datatype Status = Idle | Playing | GameOver | Victory

  datatype Option<T> = None | Some(value: T)

  function Max(a: real, b: real): real
  {
    if a >= b then a else b
  }

  /** draw * span for a Math.random() draw in [0, 1): a point inside a non-negative span, short of its end. */
  function Scale(draw: real, span: real): (p: real)
    requires 0.0 <= draw < 1.0
    ensures span >= 0.0 ==> 0.0 <= p <= span
    ensures span > 0.0 ==> p < span
  {
    if span >= 0.0 then ScaleWithin(draw, span); draw * span else draw * span
  }

  lemma ScaleWithin(draw: real, span: real)
    requires 0.0 <= draw < 1.0 && span >= 0.0
    ensures 0.0 <= draw * span <= span
    ensures span > 0.0 ==> draw * span < span
  {
    assert span - draw * span == (1.0 - draw) * span;
  }

  /**
   * updateHighScore: the stored best is overwritten only by a score that is
   * strictly greater; otherwise it stays as it was.
   */
  function UpdateBest(best: nat, score: nat): (r: nat)
    ensures r >= best && r >= score
    ensures r == best || r == score
    ensures r != best <==> score > best
  {
    if score > best then score else best
  }
}
