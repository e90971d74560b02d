/**
 * The game physics of shapemotion.c as functions on values: one step of
 * `mlAdvance` for a moving layer, the paddle steps `moveDown` and `moveUp`,
 * and the game rules they imply.
 *
 * The imperative methods in module Game are proved equal to these functions;
 * the lemmas here state what the rules mean.
 */
module Motion {
  import opened Geometry

  /** A `u_char` score counter. */
  type Byte = b: int | 0 <= b < 256

  /** The character the scores start from, `'0'`. */
  const ScoreZero: Byte := '0' as int
  /** The score that ends the game, `'5'`. */
  const ScoreFive: Byte := '5' as int

  /**
   * The new value of a `u_char` score after `s = s - 255`: the subtraction is
   * done in `int` and stored back modulo 256, so it is an increment mod 256.
   */
  function GoalScore(s: Byte): (r: Byte)
    ensures r == (s + 1) % 256
    ensures s < 255 ==> r == s + 1
  {
    (s - 255) % 256
  }

  /** The global game state `mlAdvance` updates: the two scores and `won`. */
  datatype Scores = Scores(player01S: Byte, player02S: Byte, won: int)

  /** What one axis iteration works on: `newPos`, the layer's velocity and the globals. */
  datatype Step = Step(newPos: Vec2, velocity: Vec2, scores: Scores)

  /**
   * What `mlAdvance` reads of one moving layer before it changes it: its
   * shape, `posNext`, velocity, and the two paddle probes made at the old
   * `posNext` (the first is the one tested first).
   */
  datatype Mover = Mover(shape: Shape, posNext: Vec2, velocity: Vec2, hitFirst: bool, hitSecond: bool)

  /** The branches of the priority chain evaluated for each axis. */
  datatype Branch = FenceBounce | LeftGoal | RightGoal | FirstPaddle | SecondPaddle | NoContact

  /**
   * The branch taken on axis `a` for bounds `b`. Only the fence test looks at
   * axis `a`; both goal tests look at axis 0 whatever `a` is, and the paddle
   * probes do not depend on the axis at all.
   */
  function SelectBranch(a: Axis, b: Region, fence: Region, hitFirst: bool, hitSecond: bool): Branch
  {
    if OutsideOn(b, fence, a) then FenceBounce
    else if b.topLeft.x < fence.topLeft.x then LeftGoal
    else if b.botRight.x > fence.botRight.x then RightGoal
    else if hitFirst then FirstPaddle
    else if hitSecond then SecondPaddle
    else NoContact
  }

  /** Negate `velocity[a]` and move `newPos[a]` by twice the new velocity. */
  function Bounce(a: Axis, s: Step): Step
  {
    var v := -s.velocity.At(a);
    s.(velocity := s.velocity.With(a, v), newPos := s.newPos.With(a, s.newPos.At(a) + 2 * v))
  }

  /** One iteration of the axis loop of `mlAdvance`. */
  function AdvanceAxis(a: Axis, s: Step, b: Region, fence: Region, hitFirst: bool, hitSecond: bool, center: Vec2): Step
  {
    match SelectBranch(a, b, fence, hitFirst, hitSecond)
    case FenceBounce => Bounce(a, s)
    case LeftGoal => s.(newPos := center, scores := s.scores.(player01S := GoalScore(s.scores.player01S)))
    case RightGoal => s.(newPos := center, scores := s.scores.(player02S := GoalScore(s.scores.player02S)))
    case FirstPaddle => Bounce(a, s)
    case SecondPaddle => Bounce(a, s)
    case NoContact =>
      if s.scores.player01S == ScoreFive || s.scores.player02S == ScoreFive
      then s.(scores := s.scores.(won := 1))
      else s
  }

  /**
   * One iteration of the layer loop of `mlAdvance`: the candidate
   * `posNext + velocity`, its bounds computed once, then axis 0 and axis 1
   * with those same (stale) bounds.
   * `center` is `(screenWidth/2, screenHeight/2)`.
   */
  function AdvanceMover(geo: Geometry, m: Mover, sc: Scores, fence: Region, center: Vec2): (r: Step)
    // won is never cleared
    ensures sc.won == 1 ==> r.scores.won == 1
    // won is only ever set to 1, on a step that scores no goal, when a score already is '5'
    ensures r.scores.won != sc.won ==>
              r.scores.won == 1 && (sc.player01S == ScoreFive || sc.player02S == ScoreFive) &&
              r.scores.player01S == sc.player01S && r.scores.player02S == sc.player02S
    // at most one score changes, and by one goal
    ensures r.scores.player01S == sc.player01S || r.scores.player02S == sc.player02S
    ensures r.scores.player01S in {sc.player01S, GoalScore(sc.player01S)}
    ensures r.scores.player02S in {sc.player02S, GoalScore(sc.player02S)}
  {
    var candidate := Add(m.posNext, m.velocity);
    var b := geo.getBounds(m.shape, candidate);
    var s0 := Step(candidate, m.velocity, sc);
    AdvanceAxis(1, AdvanceAxis(0, s0, b, fence, m.hitFirst, m.hitSecond, center), b, fence, m.hitFirst, m.hitSecond, center)
  }

  /** The globals after the first `n` layers of the list have been advanced. */
  function ScoresAfter(geo: Geometry, ms: seq<Mover>, sc: Scores, fence: Region, center: Vec2, n: nat): Scores
    requires n <= |ms|
  {
    if n == 0 then sc
    else AdvanceMover(geo, ms[n - 1], ScoresAfter(geo, ms, sc, fence, center, n - 1), fence, center).scores
  }

  /** The step of layer `i` of the list, which sees the globals left by layers `0 .. i-1`. */
  function StepAt(geo: Geometry, ms: seq<Mover>, sc: Scores, fence: Region, center: Vec2, i: nat): Step
    requires i < |ms|
  {
    AdvanceMover(geo, ms[i], ScoresAfter(geo, ms, sc, fence, center, i), fence, center)
  }

  /** `moveDown` for one layer: both axes move by `v`, and only the y fence is checked. */
  function MoveDownPos(geo: Geometry, shape: Shape, posNext: Vec2, v: Vec2, fence: Region): (r: Vec2)
    ensures r.x == posNext.x + v.x
    ensures r.y == if OutsideOn(geo.getBounds(shape, Add(posNext, v)), fence, 1)
                   then posNext.y - v.y else posNext.y + v.y
  {
    var candidate := Add(posNext, v);
    if OutsideOn(geo.getBounds(shape, candidate), fence, 1)
    then candidate.With(1, candidate.y + 2 * -v.y)
    else candidate
  }

  /** `moveUp` for one layer: both axes move by `-v`, and only the y fence is checked. */
  function MoveUpPos(geo: Geometry, shape: Shape, posNext: Vec2, v: Vec2, fence: Region): (r: Vec2)
    ensures r.x == posNext.x - v.x
    ensures r.y == if OutsideOn(geo.getBounds(shape, Sub(posNext, v)), fence, 1)
                   then posNext.y + v.y else posNext.y - v.y
  {
    var candidate := Sub(posNext, v);
    if OutsideOn(geo.getBounds(shape, candidate), fence, 1)
    then candidate.With(1, candidate.y + 2 * v.y)
    else candidate
  }

  // ---------------------------------------------------------------------------
  // The rules of one axis iteration

  /**
   * Fence bounce: strictly outside on axis `a` negates `velocity[a]`, moves
   * `newPos[a]` back by twice the old velocity, and leaves the other axis and
   * the scores alone, whatever the paddle probes say.
   */
  lemma FenceBounceRule(a: Axis, s: Step, b: Region, fence: Region, hitFirst: bool, hitSecond: bool, center: Vec2)
    requires OutsideOn(b, fence, a)
    ensures var r := AdvanceAxis(a, s, b, fence, hitFirst, hitSecond, center);
            r.velocity.At(a) == -s.velocity.At(a) &&
            r.newPos.At(a) == s.newPos.At(a) - 2 * s.velocity.At(a) &&
            r.velocity.At(1 - a) == s.velocity.At(1 - a) &&
            r.newPos.At(1 - a) == s.newPos.At(1 - a) &&
            r.scores == s.scores &&
            r == AdvanceAxis(a, s, b, fence, false, false, center)
  {
  }

  /** A bound that only touches a fence edge on axis `a` does not bounce there. */
  lemma TouchingEdgeDoesNotBounce(a: Axis, b: Region, fence: Region, hitFirst: bool, hitSecond: bool)
    requires fence.topLeft.At(a) <= b.topLeft.At(a) && b.botRight.At(a) <= fence.botRight.At(a)
    ensures SelectBranch(a, b, fence, hitFirst, hitSecond) != FenceBounce
  {
  }

  /** The goal branches are unreachable on axis 0: the fence test there already covers them. */
  lemma NoGoalOnAxisZero(b: Region, fence: Region, hitFirst: bool, hitSecond: bool)
    ensures SelectBranch(0, b, fence, hitFirst, hitSecond) !in {LeftGoal, RightGoal}
  {
  }

  /** Both paddle branches do the same thing, so the order of the two probes does not matter. */
  lemma PaddleOrderIrrelevant(a: Axis, s: Step, b: Region, fence: Region, hitFirst: bool, hitSecond: bool, center: Vec2)
    ensures AdvanceAxis(a, s, b, fence, hitFirst, hitSecond, center) == AdvanceAxis(a, s, b, fence, hitSecond, hitFirst, center)
  {
  }

  // ---------------------------------------------------------------------------
  // The rules of one moving layer, by where its candidate bounds lie

  /**
   * Leaving the fence on x. Axis 0 bounces; then on axis 1 either y is out too
   * and bounces (a corner reflection), or the stale x bounds make a goal fire:
   * the ball goes to the centre and exactly one score goes up, player 1's for
   * the left edge and player 2's for the right edge, with x still reversed.
   */
  lemma ExitOnX(geo: Geometry, m: Mover, sc: Scores, fence: Region, center: Vec2)
    requires OutsideOn(geo.getBounds(m.shape, Add(m.posNext, m.velocity)), fence, 0)
    ensures var b := geo.getBounds(m.shape, Add(m.posNext, m.velocity));
            var r := AdvanceMover(geo, m, sc, fence, center);
            r.velocity.x == -m.velocity.x &&
            (OutsideOn(b, fence, 1) ==>
               r.newPos == Sub(m.posNext, m.velocity) && r.velocity.y == -m.velocity.y && r.scores == sc) &&
            (!OutsideOn(b, fence, 1) ==>
               r.newPos == center && r.velocity.y == m.velocity.y &&
               r.scores == if b.topLeft.x < fence.topLeft.x
                           then sc.(player01S := GoalScore(sc.player01S))
                           else sc.(player02S := GoalScore(sc.player02S)))
  {
    var candidate := Add(m.posNext, m.velocity);
    var b := geo.getBounds(m.shape, candidate);
    var s0 := Step(candidate, m.velocity, sc);
    var s1 := AdvanceAxis(0, s0, b, fence, m.hitFirst, m.hitSecond, center);
    assert s1 == Bounce(0, s0);
    if OutsideOn(b, fence, 1) {
      assert AdvanceAxis(1, s1, b, fence, m.hitFirst, m.hitSecond, center) == Bounce(1, s1);
    }
  }

  /**
   * Leaving the fence on y only: y bounces back to `posNext.y - velocity.y`, no
   * goal is scored, and x is reversed exactly when a paddle probe hit; without
   * a hit the axis-0 iteration falls through to the win test.
   */
  lemma ExitOnYOnly(geo: Geometry, m: Mover, sc: Scores, fence: Region, center: Vec2)
    requires var b := geo.getBounds(m.shape, Add(m.posNext, m.velocity));
             !OutsideOn(b, fence, 0) && OutsideOn(b, fence, 1)
    ensures var r := AdvanceMover(geo, m, sc, fence, center);
            r.velocity.y == -m.velocity.y && r.newPos.y == m.posNext.y - m.velocity.y &&
            r.velocity.x == (if m.hitFirst || m.hitSecond then -m.velocity.x else m.velocity.x) &&
            r.newPos.x == (if m.hitFirst || m.hitSecond then m.posNext.x - m.velocity.x else m.posNext.x + m.velocity.x) &&
            r.scores.player01S == sc.player01S && r.scores.player02S == sc.player02S &&
            r.scores.won == if !(m.hitFirst || m.hitSecond) && (sc.player01S == ScoreFive || sc.player02S == ScoreFive)
                            then 1 else sc.won
  {
  }

  /**
   * Inside the fence on both axes. A paddle probe hit reverses BOTH axes (the
   * probe does not depend on the axis); otherwise the layer moves on by its
   * velocity and `won` becomes 1 when a score is '5'. No goal is scored.
   */
  lemma InsideFence(geo: Geometry, m: Mover, sc: Scores, fence: Region, center: Vec2)
    requires var b := geo.getBounds(m.shape, Add(m.posNext, m.velocity));
             !OutsideOn(b, fence, 0) && !OutsideOn(b, fence, 1)
    ensures var r := AdvanceMover(geo, m, sc, fence, center);
            if m.hitFirst || m.hitSecond then
              r.newPos == Sub(m.posNext, m.velocity) && r.velocity == Vec2(-m.velocity.x, -m.velocity.y) && r.scores == sc
            else
              r.newPos == Add(m.posNext, m.velocity) && r.velocity == m.velocity &&
              r.scores == sc.(won := if sc.player01S == ScoreFive || sc.player02S == ScoreFive then 1 else sc.won)
  {
  }

  /** Once `won` is 1, advancing a whole list never clears it. */
  lemma {:induction false} WonStaysSet(geo: Geometry, ms: seq<Mover>, sc: Scores, fence: Region, center: Vec2, n: nat)
    requires n <= |ms| && sc.won == 1
    ensures ScoresAfter(geo, ms, sc, fence, center, n).won == 1
  {
    if n > 0 {
      WonStaysSet(geo, ms, sc, fence, center, n - 1);
    }
  }

  // ---------------------------------------------------------------------------
  // The paddle steps

  /**
   * With both candidates inside the fence, `moveDown` followed by `moveUp`
   * puts `posNext` back where it was (and the other way round).
   */
  lemma DownThenUpRestores(geo: Geometry, shape: Shape, p: Vec2, v: Vec2, fence: Region)
    requires !OutsideOn(geo.getBounds(shape, Add(p, v)), fence, 1)
    requires !OutsideOn(geo.getBounds(shape, p), fence, 1)
    ensures MoveUpPos(geo, shape, MoveDownPos(geo, shape, p, v, fence), v, fence) == p
  {
    assert Sub(Add(p, v), v) == p;
  }

  lemma UpThenDownRestores(geo: Geometry, shape: Shape, p: Vec2, v: Vec2, fence: Region)
    requires !OutsideOn(geo.getBounds(shape, Sub(p, v)), fence, 1)
    requires !OutsideOn(geo.getBounds(shape, p), fence, 1)
    ensures MoveDownPos(geo, shape, MoveUpPos(geo, shape, p, v, fence), v, fence) == p
  {
    assert Add(Sub(p, v), v) == p;
  }
}
