/**
 * The watchdog-timer handler of shapemotion.c as a function on the game
 * state it changes: every call counts a raw tick; on the 15th the ball is
 * advanced (unless the game is won), the paddles follow the switches, and
 * the screen is flagged for redrawing.
 */
module Scheduler {
  import opened Geometry
  import opened Motion

  /** Raw ticks per logical frame: `count` runs up to this value and is reset. */
  const FrameTicks := 15

  /**
   * What the handler reads and writes: the `posNext` and velocity of the ball
   * (ml3) and of the two paddles (ml1 for player 1, ml0 for player 2), the
   * scores and `won`, `redrawScreen` and the static `count`.
   */
  datatype TickState = TickState(
    ball: Vec2, ballVel: Vec2,
    paddle1: Vec2, paddle1Vel: Vec2,
    paddle2: Vec2, paddle2Vel: Vec2,
    scores: Scores, redrawScreen: int, count: int)

  /** What stays fixed: the shape capability, the field fence, the screen centre and the three shapes. */
  datatype Setup = Setup(geo: Geometry, fence: Region, center: Vec2, ballShape: Shape, paddle1Shape: Shape, paddle2Shape: Shape)

  /** The banner the handler draws on a frame tick once the game is won. */
  datatype Banner = NoBanner | Player1Wins | Player2Wins

  /**
   * The ball as `mlAdvance(&ml3, &fieldFence, &ml1, &ml0)` sees it: the
   * parameter `ml3` is bound to player 2's paddle and is probed first, the
   * parameter `ml0` is bound to player 1's paddle and is probed second.
   */
  function BallMover(cfg: Setup, t: TickState): Mover
  {
    Mover(cfg.ballShape, t.ball, t.ballVel,
          cfg.geo.check(cfg.paddle2Shape, t.paddle2, t.ball),
          cfg.geo.check(cfg.paddle1Shape, t.paddle1, t.ball))
  }

  /** The state after `mlAdvance` on the one-element ball list. */
  function AdvanceBall(cfg: Setup, t: TickState): TickState
  {
    var st := AdvanceMover(cfg.geo, BallMover(cfg, t), t.scores, cfg.fence, cfg.center);
    t.(ball := st.newPos, ballVel := st.velocity, scores := st.scores)
  }

  /** One paddle's `posNext` after `moveUp` (if `up`) and then `moveDown` (if `down`). */
  function PaddleSteps(cfg: Setup, shape: Shape, p: Vec2, v: Vec2, up: bool, down: bool): Vec2
  {
    var afterUp := if up then MoveUpPos(cfg.geo, shape, p, v, cfg.fence) else p;
    if down then MoveDownPos(cfg.geo, shape, afterUp, v, cfg.fence) else afterUp
  }

  /** Switch bit `i` of the bitmask is set (the handler moves a paddle on a set bit). */
  predicate Bit(switches: bv16, i: nat)
    requires i < 16
  {
    switches & (1 << i) != 0
  }

  /** One call of `wdt_c_handler` with switch bitmask `switches`. */
  function Tick(cfg: Setup, t: TickState, switches: bv16): TickState
  {
    if t.count + 1 != FrameTicks then t.(count := t.count + 1)
    else
      var t1 := if t.scores.won == 1 then t else AdvanceBall(cfg, t);
      t1.(paddle1 := PaddleSteps(cfg, cfg.paddle1Shape, t1.paddle1, t1.paddle1Vel, Bit(switches, 0), Bit(switches, 1)),
          paddle2 := PaddleSteps(cfg, cfg.paddle2Shape, t1.paddle2, t1.paddle2Vel, Bit(switches, 2), Bit(switches, 3)),
          redrawScreen := 1,
          count := 0)
  }

  /** The banner drawn by that call: on a frame tick of a won game, the player with the higher score. */
  function BannerOf(t: TickState): Banner
  {
    if t.count + 1 == FrameTicks && t.scores.won == 1 then
      if t.scores.player01S > t.scores.player02S then Player1Wins else Player2Wins
    else NoBanner
  }

  /** `n` calls of the handler with the switch readings `sw[0] .. sw[n-1]`. */
  function Ticks(cfg: Setup, t: TickState, sw: seq<bv16>): TickState
  {
    if sw == [] then t else Tick(cfg, Ticks(cfg, t, sw[..|sw| - 1]), sw[|sw| - 1])
  }

  // ---------------------------------------------------------------------------
  // Properties of the handler

  /** The counter stays in `0 .. 14`, and a frame (redraw request) happens exactly when it wraps. */
  lemma CountCycles(cfg: Setup, t: TickState, switches: bv16)
    requires 0 <= t.count < FrameTicks
    ensures var r := Tick(cfg, t, switches);
            0 <= r.count < FrameTicks &&
            (r.count == 0 <==> t.count == FrameTicks - 1) &&
            (t.count == FrameTicks - 1 ==> r.redrawScreen == 1) &&
            (t.count < FrameTicks - 1 ==> r == t.(count := t.count + 1))
  {
  }

  /** The switches never change a velocity; on a frame tick nothing else changes the paddles' velocities either. */
  lemma PaddleVelocitiesConstant(cfg: Setup, t: TickState, switches: bv16)
    ensures var r := Tick(cfg, t, switches);
            r.paddle1Vel == t.paddle1Vel && r.paddle2Vel == t.paddle2Vel
  {
  }

  /** Once the game is won, a tick changes neither the ball nor the scores, and `won` stays 1. */
  lemma WonFreezesBall(cfg: Setup, t: TickState, switches: bv16)
    requires t.scores.won == 1
    ensures var r := Tick(cfg, t, switches);
            r.ball == t.ball && r.ballVel == t.ballVel && r.scores == t.scores
  {
  }

  /** A won game stays frozen for any number of further ticks. */
  lemma {:induction false} WonIsTerminal(cfg: Setup, t: TickState, sw: seq<bv16>)
    requires t.scores.won == 1
    ensures var r := Ticks(cfg, t, sw);
            r.ball == t.ball && r.ballVel == t.ballVel && r.scores == t.scores
  {
    if sw != [] {
      WonIsTerminal(cfg, t, sw[..|sw| - 1]);
      WonFreezesBall(cfg, Ticks(cfg, t, sw[..|sw| - 1]), sw[|sw| - 1]);
    }
  }

  /** The game only becomes won on a tick that starts with a score of '5', and that tick scores no goal. */
  lemma WinNeedsFive(cfg: Setup, t: TickState, switches: bv16)
    requires t.scores.won != 1
    ensures var r := Tick(cfg, t, switches);
            r.scores.won == 1 ==>
              (t.scores.player01S == ScoreFive || t.scores.player02S == ScoreFive) &&
              r.scores.player01S == t.scores.player01S && r.scores.player02S == t.scores.player02S
  {
  }

  /**
   * Holding player 1's "up" switch alone moves the paddle by `-velocity` on a
   * frame tick while the candidate stays inside the fence, and reflects it
   * back to `posNext + velocity` when it would leave.
   */
  lemma HeldUpMovesPaddle1(cfg: Setup, t: TickState)
    requires t.count == FrameTicks - 1
    ensures var r := Tick(cfg, t, 1);
            var out := OutsideOn(cfg.geo.getBounds(cfg.paddle1Shape, Sub(t.paddle1, t.paddle1Vel)), cfg.fence, 1);
            r.paddle1.x == t.paddle1.x - t.paddle1Vel.x &&
            r.paddle1.y == (if out then t.paddle1.y + t.paddle1Vel.y else t.paddle1.y - t.paddle1Vel.y) &&
            r.paddle2 == t.paddle2
  {
    assert Bit(1, 0) && !Bit(1, 1) && !Bit(1, 2) && !Bit(1, 3);
  }
}
