/**
 * The objects, globals and imperative operations of shapemotion.c: the
 * layers and moving layers as classes whose fields are updated in place,
 * and `mlAdvance`, `moveDown`, `moveUp`, `movLayerDraw`, `wdt_c_handler`
 * and the main loop's redraw step as methods, each proved to do what the
 * functions of modules Motion, Render and Scheduler say.
 */
module Game {
  import opened Geometry
  import opened Motion
  import opened Render
  import opened Scheduler

  /**
   * A drawable layer. Its `next` link is not a field here: a layer stack is a
   * sequence of layers, front to back.
   */
  class Layer {
    const abShape: Shape
    var pos: Vec2
    var posLast: Vec2
    var posNext: Vec2
    const color: Color

    /** The static initialiser `{shape, pos, {0,0}, {0,0}, color, next}`. */
    constructor (abShape: Shape, pos: Vec2, color: Color)
      ensures this.abShape == abShape && this.pos == pos && this.color == color
      ensures posLast == Vec2(0, 0) && posNext == Vec2(0, 0)
    {
      this.abShape := abShape;
      this.pos := pos;
      this.posLast := Vec2(0, 0);
      this.posNext := Vec2(0, 0);
      this.color := color;
    }

    function Val(): LayerVal
      reads this
    {
      LayerVal(abShape, pos, posLast, posNext, color)
    }
  }

  /** A moving layer: a layer and its velocity; lists of them are sequences. */
  class MovLayer {
    const layer: Layer
    var velocity: Vec2

    constructor (layer: Layer, velocity: Vec2)
      ensures this.layer == layer && this.velocity == velocity
    {
      this.layer := layer;
      this.velocity := velocity;
    }
  }

  /** The layers of a list of moving layers. */
  function LayersOf(mls: seq<MovLayer>): (r: seq<Layer>)
    ensures |r| == |mls| && forall i :: 0 <= i < |mls| ==> r[i] == mls[i].layer
  {
    seq(|mls|, i requires 0 <= i < |mls| => mls[i].layer)
  }

  /** The values of a sequence of layers. */
  function Vals(ls: seq<Layer>): (r: seq<LayerVal>)
    reads set i | 0 <= i < |ls| :: ls[i]
    ensures |r| == |ls| && forall i :: 0 <= i < |ls| ==> r[i] == ls[i].Val()
  {
    seq(|ls|, i reads set i | 0 <= i < |ls| :: ls[i] requires 0 <= i < |ls| => ls[i].Val())
  }

  /** No layer occurs twice in the list. */
  predicate DistinctLayers(mls: seq<MovLayer>)
  {
    forall i, j :: 0 <= i < j < |mls| ==> mls[i].layer != mls[j].layer
  }

  /** `moving[i]`: layer `i` of `ls` is one of the layers of `mls`. */
  function MovingMask(ls: seq<Layer>, mls: seq<MovLayer>): (moving: seq<bool>)
    ensures |moving| == |ls|
  {
    seq(|ls|, i requires 0 <= i < |ls| => ls[i] in LayersOf(mls))
  }

  /** The colours of the colour palette the game uses. */
  datatype Palette = Palette(black: Color, white: Color, red: Color, green: Color, gold: Color)

  /** The game: its fixed objects and constants, and its mutable globals. */
  class Game {
    const geo: Geometry
    const screenWidth: nat
    const screenHeight: nat
    const bgColor: Color
    /** The playing field's bounds, fixed once at start-up. */
    const fieldFence: Region

    var player01S: Byte
    var player02S: Byte
    var won: int
    var redrawScreen: int
    /** The static counter of `wdt_c_handler`. */
    var count: int

    const ballLa: Layer
    const fieldLayer: Layer
    const lineLa: Layer
    const player01La: Layer
    const player02La: Layer
    /** The ball's moving layer. */
    const ml3: MovLayer
    /** Player 1's paddle. */
    const ml1: MovLayer
    /** Player 2's paddle. */
    const ml0: MovLayer

    /** `(screenWidth/2, screenHeight/2)`, where a goal puts the ball. */
    function Center(): Vec2
    {
      Vec2(screenWidth / 2, screenHeight / 2)
    }

    /** The layer stack, front to back, as linked from `player02La`. */
    function Stack(): seq<Layer>
    {
      [player02La, player01La, lineLa, fieldLayer, ballLa]
    }

    /** The moving layers point at their layers, and the five layers are distinct objects. */
    ghost predicate Linked()
    {
      ml3.layer == ballLa && ml1.layer == player01La && ml0.layer == player02La &&
      ballLa.abShape == Circle8 && player01La.abShape == Paddle && player02La.abShape == Paddle &&
      (forall i, j :: 0 <= i < j < |Stack()| ==> Stack()[i] != Stack()[j])
    }

    ghost predicate Valid()
      reads this
    {
      Linked() && 0 <= count < FrameTicks
    }

    /**
     * The start-up state: the static initialisers of the globals, layers and
     * moving layers, and the fence taken from the field layer's bounds.
     */
    constructor (geo: Geometry, screenWidth: nat, screenHeight: nat, palette: Palette)
      ensures Valid()
      ensures this.geo == geo && this.screenWidth == screenWidth && this.screenHeight == screenHeight
      ensures bgColor == palette.black
      ensures player01S == ScoreZero && player02S == ScoreZero && won == 0 && redrawScreen == 1 && count == 0
      ensures ballLa.pos == Vec2(screenWidth / 2 + 10, screenHeight / 2 + 5)
      ensures player01La.pos == Vec2(screenWidth / 2 - 48, screenHeight / 2 + 48)
      ensures player02La.pos == Vec2(screenWidth / 2 + 48, screenHeight / 2 - 48)
      ensures fieldLayer.pos == Center() && lineLa.pos == Center()
      ensures ml3.velocity == Vec2(2, 4) && ml1.velocity == Vec2(0, 3) && ml0.velocity == Vec2(0, 3)
      ensures fieldFence == geo.getBounds(FieldOutline, Center())
      ensures ballLa.color == palette.gold && fieldLayer.color == palette.white && lineLa.color == palette.white
      ensures player01La.color == palette.red && player02La.color == palette.green
      ensures lineLa.abShape == Line && fieldLayer.abShape == FieldOutline
      ensures forall i :: 0 <= i < |Stack()| ==> Stack()[i].posLast == Vec2(0, 0) && Stack()[i].posNext == Vec2(0, 0)
    {
      this.geo := geo;
      this.screenWidth := screenWidth;
      this.screenHeight := screenHeight;
      bgColor := palette.black;
      var center := Vec2(screenWidth / 2, screenHeight / 2);
      var ball := new Layer(Circle8, Vec2(screenWidth / 2 + 10, screenHeight / 2 + 5), palette.gold);
      var field := new Layer(FieldOutline, center, palette.white);
      var line := new Layer(Line, center, palette.white);
      var p1 := new Layer(Paddle, Vec2(screenWidth / 2 - 48, screenHeight / 2 + 48), palette.red);
      var p2 := new Layer(Paddle, Vec2(screenWidth / 2 + 48, screenHeight / 2 - 48), palette.green);
      ballLa, fieldLayer, lineLa, player01La, player02La := ball, field, line, p1, p2;
      ml3 := new MovLayer(ball, Vec2(2, 4));
      ml1 := new MovLayer(p1, Vec2(0, 3));
      ml0 := new MovLayer(p2, Vec2(0, 3));
      fieldFence := geo.getBounds(FieldOutline, center);
      player01S, player02S, won, redrawScreen, count := ScoreZero, ScoreZero, 0, 1, 0;
    }

    /** The globals `mlAdvance` updates. */
    function Globals(): Scores
      reads this
    {
      Scores(player01S, player02S, won)
    }

    /** What `mlAdvance` reads of `ml`, with `first` and `second` the paddles it probes, in that order. */
    function MoverOf(ml: MovLayer, first: MovLayer, second: MovLayer): Mover
      reads ml, ml.layer, first.layer, second.layer
    {
      Mover(ml.layer.abShape, ml.layer.posNext, ml.velocity,
            geo.check(first.layer.abShape, first.layer.posNext, ml.layer.posNext),
            geo.check(second.layer.abShape, second.layer.posNext, ml.layer.posNext))
    }

    function Movers(mls: seq<MovLayer>, first: MovLayer, second: MovLayer): (r: seq<Mover>)
      reads set i | 0 <= i < |mls| :: mls[i], set i | 0 <= i < |mls| :: mls[i].layer, first.layer, second.layer
      ensures |r| == |mls| && forall i :: 0 <= i < |mls| ==> r[i] == MoverOf(mls[i], first, second)
    {
      if mls == [] then [] else Movers(mls[..|mls| - 1], first, second) + [MoverOf(mls[|mls| - 1], first, second)]
    }

    /**
     * `mlAdvance(ml, fence, ml0, ml3)`: advance every layer of the list `mls`
     * inside `fence`, with `ml3` the paddle probed first and `ml0` the one
     * probed second. Only `posNext` of the listed layers, their velocities,
     * the scores and `won` change.
     */
    method MlAdvance(mls: seq<MovLayer>, fence: Region, ml0: MovLayer, ml3: MovLayer)
      requires DistinctLayers(mls)
      requires forall i :: 0 <= i < |mls| ==> mls[i].layer != ml0.layer && mls[i].layer != ml3.layer
      modifies this`player01S, this`player02S, this`won
      modifies (set ml | ml in mls)`velocity, (set ml | ml in mls :: ml.layer)`posNext
      ensures forall i :: 0 <= i < |mls| ==>
                var st := StepAt(geo, old(Movers(mls, ml3, ml0)), old(Globals()), fence, Center(), i);
                mls[i].layer.posNext == st.newPos && mls[i].velocity == st.velocity
      ensures Globals() == ScoresAfter(geo, old(Movers(mls, ml3, ml0)), old(Globals()), fence, Center(), |mls|)
      ensures forall i :: 0 <= i < |mls| ==>
                mls[i].layer.pos == old(mls[i].layer.pos) && mls[i].layer.posLast == old(mls[i].layer.posLast)
    {
      ghost var ms := Movers(mls, ml3, ml0);
      ghost var sc0 := Globals();
      ghost var sts, scs := TraceOf(ms, sc0, fence);
      AdvanceAll(mls, fence, ml0, ml3, ms, sts, scs);
    }

    /** The trace of `mlAdvance` over `ms` from globals `sc0`, layer by layer. */
    lemma TraceOf(ms: seq<Mover>, sc0: Scores, fence: Region) returns (sts: seq<Step>, scs: seq<Scores>)
      ensures Traced(ms, fence, sts, scs) && scs[0] == sc0
      ensures forall k :: 0 <= k < |ms| ==> sts[k] == StepAt(geo, ms, sc0, fence, Center(), k)
      ensures scs[|ms|] == ScoresAfter(geo, ms, sc0, fence, Center(), |ms|)
    {
      scs := seq(|ms| + 1, k requires 0 <= k <= |ms| => ScoresAfter(geo, ms, sc0, fence, Center(), k));
      sts := seq(|ms|, k requires 0 <= k < |ms| => StepAt(geo, ms, sc0, fence, Center(), k));
    }

    /**
     * `sts[k]` is the step of layer `k` of `ms` and `scs[k]` the globals it
     * starts from: the layer loop of `mlAdvance` unrolled.
     */
    ghost predicate Traced(ms: seq<Mover>, fence: Region, sts: seq<Step>, scs: seq<Scores>)
    {
      |sts| == |ms| && |scs| == |ms| + 1 &&
      forall k :: 0 <= k < |ms| ==>
        sts[k] == AdvanceMover(geo, ms[k], scs[k], fence, Center()) && scs[k + 1] == sts[k].scores
    }

    /** The layer loop of `mlAdvance`, walking the trace `sts`, `scs`. */
    method AdvanceAll(mls: seq<MovLayer>, fence: Region, ml0: MovLayer, ml3: MovLayer,
                      ghost ms: seq<Mover>, ghost sts: seq<Step>, ghost scs: seq<Scores>)
      requires DistinctLayers(mls)
      requires forall i :: 0 <= i < |mls| ==> mls[i].layer != ml0.layer && mls[i].layer != ml3.layer
      requires Traced(ms, fence, sts, scs)
      requires AdvancedUpTo(mls, ml0, ml3, ms, sts, scs, 0)
      modifies this`player01S, this`player02S, this`won
      modifies (set ml | ml in mls)`velocity, (set ml | ml in mls :: ml.layer)`posNext
      ensures AdvancedUpTo(mls, ml0, ml3, ms, sts, scs, |mls|)
    {
      var i := 0;
      while i < |mls|
        invariant 0 <= i <= |mls|
        invariant AdvancedUpTo(mls, ml0, ml3, ms, sts, scs, i)
      {
        AdvanceAt(mls, fence, ml0, ml3, ms, sts, scs, i);
        i := i + 1;
      }
    }

    /** The first `i` layers of `mls` have taken their steps of `sts`, and the rest are as they were. */
    ghost predicate AdvancedUpTo(mls: seq<MovLayer>, ml0: MovLayer, ml3: MovLayer,
                                 ms: seq<Mover>, sts: seq<Step>, scs: seq<Scores>, i: nat)
      reads this, set ml | ml in mls, set ml | ml in mls :: ml.layer, ml0.layer, ml3.layer
    {
      |ms| == |mls| && |sts| == |mls| && |scs| == |mls| + 1 && i <= |mls| &&
      Globals() == scs[i] &&
      (forall j :: 0 <= j < i ==> mls[j].layer.posNext == sts[j].newPos && mls[j].velocity == sts[j].velocity) &&
      (forall j :: i <= j < |mls| ==> MoverOf(mls[j], ml3, ml0) == ms[j])
    }

    /** The body of the layer loop of `mlAdvance`, for layer `i`. */
    method AdvanceAt(mls: seq<MovLayer>, fence: Region, ml0: MovLayer, ml3: MovLayer,
                     ghost ms: seq<Mover>, ghost sts: seq<Step>, ghost scs: seq<Scores>, i: nat)
      requires i < |mls|
      requires DistinctLayers(mls)
      requires forall i :: 0 <= i < |mls| ==> mls[i].layer != ml0.layer && mls[i].layer != ml3.layer
      requires Traced(ms, fence, sts, scs)
      requires AdvancedUpTo(mls, ml0, ml3, ms, sts, scs, i)
      modifies this`player01S, this`player02S, this`won, {mls[i]}`velocity, {mls[i].layer}`posNext
      ensures AdvancedUpTo(mls, ml0, ml3, ms, sts, scs, i + 1)
    {
      assert forall j :: 0 <= j < |mls| && j != i ==> mls[j].layer != mls[i].layer && mls[j] != mls[i];
      label before:
      AdvanceOne(mls[i], fence, ml0, ml3);
      assert forall j :: 0 <= j < |mls| && j != i ==>
               mls[j].layer.posNext == old@before(mls[j].layer.posNext) && mls[j].velocity == old@before(mls[j].velocity);
    }

    /** The axes of `mlAdvance`'s axis loop for one layer done so far: none, axis 0, or both. */
    ghost function AxesDone(n: nat, s0: Step, b: Region, fence: Region, m: Mover): Step
      requires n <= 2
    {
      if n == 0 then s0
      else if n == 1 then AdvanceAxis(0, s0, b, fence, m.hitFirst, m.hitSecond, Center())
      else AdvanceAxis(1, AxesDone(1, s0, b, fence, m), b, fence, m.hitFirst, m.hitSecond, Center())
    }

    /** One iteration of the layer loop of `mlAdvance`: the axis loop for `ml`, then its new `posNext`. */
    method AdvanceOne(ml: MovLayer, fence: Region, ml0: MovLayer, ml3: MovLayer)
      requires ml.layer != ml0.layer && ml.layer != ml3.layer
      modifies this`player01S, this`player02S, this`won, ml`velocity, ml.layer`posNext
      ensures var st := AdvanceMover(geo, old(MoverOf(ml, ml3, ml0)), old(Globals()), fence, Center());
              ml.layer.posNext == st.newPos && ml.velocity == st.velocity && Globals() == st.scores
    {
      ghost var m := MoverOf(ml, ml3, ml0);
      var newPos := Add(ml.layer.posNext, ml.velocity);
      var shapeBoundary := geo.getBounds(ml.layer.abShape, newPos);
      ghost var s0 := Step(newPos, ml.velocity, Globals());
      var axis := 0;
      while axis < 2
        invariant 0 <= axis <= 2
        invariant MoverOf(ml, ml3, ml0) == m.(velocity := ml.velocity)
        invariant Step(newPos, ml.velocity, Globals()) == AxesDone(axis, s0, shapeBoundary, fence, m)
      {
        ghost var s := Step(newPos, ml.velocity, Globals());
        if shapeBoundary.topLeft.At(axis) < fence.topLeft.At(axis) ||
           shapeBoundary.botRight.At(axis) > fence.botRight.At(axis) {
          var velocity := -ml.velocity.At(axis);
          ml.velocity := ml.velocity.With(axis, velocity);
          newPos := newPos.With(axis, newPos.At(axis) + 2 * velocity);
        } else if shapeBoundary.topLeft.x < fence.topLeft.x {
          newPos := Vec2(screenWidth / 2, screenHeight / 2);
          player01S := GoalScore(player01S);
        } else if shapeBoundary.botRight.x > fence.botRight.x {
          newPos := Vec2(screenWidth / 2, screenHeight / 2);
          player02S := GoalScore(player02S);
        } else if geo.check(ml3.layer.abShape, ml3.layer.posNext, ml.layer.posNext) {
          var velocity := -ml.velocity.At(axis);
          ml.velocity := ml.velocity.With(axis, velocity);
          newPos := newPos.With(axis, newPos.At(axis) + 2 * velocity);
        } else if geo.check(ml0.layer.abShape, ml0.layer.posNext, ml.layer.posNext) {
          var velocity := -ml.velocity.At(axis);
          ml.velocity := ml.velocity.With(axis, velocity);
          newPos := newPos.With(axis, newPos.At(axis) + 2 * velocity);
        } else {
          if player01S == ScoreFive || player02S == ScoreFive {
            won := 1;
          }
        }
        assert Step(newPos, ml.velocity, Globals())
            == AdvanceAxis(axis, s, shapeBoundary, fence, m.hitFirst, m.hitSecond, Center());
        axis := axis + 1;
      }
      ml.layer.posNext := newPos;
    }

    /** `moveDown(ml, fence)`: every listed layer's `posNext` steps by `+velocity`, reflected on y at the fence. */
    method MoveDown(mls: seq<MovLayer>, fence: Region)
      requires DistinctLayers(mls)
      modifies (set i | 0 <= i < |mls| :: mls[i].layer)`posNext
      ensures forall i :: 0 <= i < |mls| ==>
                mls[i].layer.posNext == MoveDownPos(geo, mls[i].layer.abShape, old(mls[i].layer.posNext), mls[i].velocity, fence)
      ensures forall i :: 0 <= i < |mls| ==> mls[i].velocity == old(mls[i].velocity)
    {
      var i := 0;
      while i < |mls|
        invariant 0 <= i <= |mls|
        invariant forall j :: 0 <= j < i ==>
                    mls[j].layer.posNext == MoveDownPos(geo, mls[j].layer.abShape, old(mls[j].layer.posNext), mls[j].velocity, fence)
        invariant forall j :: i <= j < |mls| ==> mls[j].layer.posNext == old(mls[j].layer.posNext)
      {
        var ml: MovLayer := mls[i];
        var newPos := Add(ml.layer.posNext, ml.velocity);
        var shapeBoundary := geo.getBounds(ml.layer.abShape, newPos);
        var axis := 1;
        while axis < 2
          invariant 1 <= axis <= 2
          invariant newPos == if axis == 1 then Add(ml.layer.posNext, ml.velocity)
                              else MoveDownPos(geo, ml.layer.abShape, ml.layer.posNext, ml.velocity, fence)
        {
          if shapeBoundary.topLeft.At(axis) < fence.topLeft.At(axis) ||
             shapeBoundary.botRight.At(axis) > fence.botRight.At(axis) {
            var velocity := -ml.velocity.At(axis);
            newPos := newPos.With(axis, newPos.At(axis) + 2 * velocity);
          }
          axis := axis + 1;
        }
        ml.layer.posNext := newPos;
        i := i + 1;
      }
    }

    /** `moveUp(ml, fence)`: every listed layer's `posNext` steps by `-velocity`, reflected on y at the fence. */
    method MoveUp(mls: seq<MovLayer>, fence: Region)
      requires DistinctLayers(mls)
      modifies (set i | 0 <= i < |mls| :: mls[i].layer)`posNext
      ensures forall i :: 0 <= i < |mls| ==>
                mls[i].layer.posNext == MoveUpPos(geo, mls[i].layer.abShape, old(mls[i].layer.posNext), mls[i].velocity, fence)
      ensures forall i :: 0 <= i < |mls| ==> mls[i].velocity == old(mls[i].velocity)
    {
      var i := 0;
      while i < |mls|
        invariant 0 <= i <= |mls|
        invariant forall j :: 0 <= j < i ==>
                    mls[j].layer.posNext == MoveUpPos(geo, mls[j].layer.abShape, old(mls[j].layer.posNext), mls[j].velocity, fence)
        invariant forall j :: i <= j < |mls| ==> mls[j].layer.posNext == old(mls[j].layer.posNext)
      {
        var ml: MovLayer := mls[i];
        var newPos := Sub(ml.layer.posNext, ml.velocity);
        var shapeBoundary := geo.getBounds(ml.layer.abShape, newPos);
        var axis := 1;
        while axis < 2
          invariant 1 <= axis <= 2
          invariant newPos == if axis == 1 then Sub(ml.layer.posNext, ml.velocity)
                              else MoveUpPos(geo, ml.layer.abShape, ml.layer.posNext, ml.velocity, fence)
        {
          if shapeBoundary.topLeft.At(axis) < fence.topLeft.At(axis) ||
             shapeBoundary.botRight.At(axis) > fence.botRight.At(axis) {
            var velocity := ml.velocity.At(axis);
            newPos := newPos.With(axis, newPos.At(axis) + 2 * velocity);
          }
          axis := axis + 1;
        }
        ml.layer.posNext := newPos;
        i := i + 1;
      }
    }

    /** The probe loop of the repaint: the colour of the first layer of `layers` containing `pixelPos`. */
    method ProbePixel(layers: seq<Layer>, pixelPos: Vec2) returns (color: Color)
      ensures color == ProbeColor(geo, Vals(layers), pixelPos, bgColor)
    {
      ghost var vs := Vals(layers);
      color := bgColor;
      var k := 0;
      while k < |layers|
        invariant 0 <= k <= |layers|
        invariant forall j :: 0 <= j < k ==> !Covers(geo, vs[j], pixelPos)
      {
        if geo.check(layers[k].abShape, layers[k].pos, pixelPos) {
          color := layers[k].color;
          ProbeFindsFirst(geo, vs, pixelPos, bgColor, k);
          return;
        }
        k := k + 1;
      }
      ProbeFallsBack(geo, vs, pixelPos, bgColor);
    }

    /** The column loop of the repaint: the colours of the pixels `(x0, row) .. (x1, row)`. */
    method PaintRow(layers: seq<Layer>, row: int, x0: int, x1: int) returns (colors: seq<Color>)
      ensures colors == Paint(geo, Vals(layers), Row(row, x0, x1), bgColor)
    {
      ghost var vs := Vals(layers);
      colors := [];
      var col := x0;
      while col <= x1
        invariant x0 <= col <= if x1 < x0 then x0 else x1 + 1
        invariant colors == Paint(geo, vs, Row(row, x0, col - 1), bgColor)
        decreases x1 + 1 - col
      {
        var pixelPos := Vec2(col, row);
        var color := ProbePixel(layers, pixelPos);
        PaintAppend(geo, vs, Row(row, x0, col - 1), [pixelPos], bgColor);
        colors := colors + [color];
        col := col + 1;
      }
    }

    /** The row loop of the repaint: the colours of every pixel of `bounds`, row by row. */
    method PaintRegion(layers: seq<Layer>, bounds: Region) returns (colors: seq<Color>)
      ensures colors == Paint(geo, Vals(layers), RegionPixels(bounds), bgColor)
    {
      ghost var vs := Vals(layers);
      var x0, x1, y0, y1 := bounds.topLeft.x, bounds.botRight.x, bounds.topLeft.y, bounds.botRight.y;
      colors := [];
      var row := y0;
      while row <= y1
        invariant y0 <= row <= if y1 < y0 then y0 else y1 + 1
        invariant colors == Paint(geo, vs, Rows(x0, x1, y0, row - 1), bgColor)
        decreases y1 + 1 - row
      {
        var rowColors := PaintRow(layers, row, x0, x1);
        PaintAppend(geo, vs, Rows(x0, x1, y0, row - 1), Row(row, x0, x1), bgColor);
        colors := colors + rowColors;
        row := row + 1;
      }
    }

    /** The swap pass of `movLayerDraw`: `posLast := pos; pos := posNext` for each moving layer. */
    method SwapPositions(movLayers: seq<MovLayer>)
      requires DistinctLayers(movLayers)
      modifies (set i | 0 <= i < |movLayers| :: movLayers[i].layer)`pos
      modifies (set i | 0 <= i < |movLayers| :: movLayers[i].layer)`posLast
      ensures forall j :: 0 <= j < |movLayers| ==> movLayers[j].layer.Val() == Swapped(old(movLayers[j].layer.Val()))
    {
      var i := 0;
      while i < |movLayers|
        invariant 0 <= i <= |movLayers|
        invariant forall j :: 0 <= j < |movLayers| ==>
                    movLayers[j].layer.Val() == if j < i then Swapped(old(movLayers[j].layer.Val())) else old(movLayers[j].layer.Val())
      {
        var l := movLayers[i].layer;
        assert forall j :: 0 <= j < |movLayers| && j != i ==> movLayers[j].layer != l;
        l.posLast := l.pos;
        l.pos := l.posNext;
        i := i + 1;
      }
    }

    /** The repaint pass of `movLayerDraw`: each moving layer's bounds, probed against the stack `layers`. */
    method Repaint(movLayers: seq<MovLayer>, layers: seq<Layer>) returns (out: seq<Color>)
      ensures out == Render.Render(geo, Vals(layers), Vals(LayersOf(movLayers)), bgColor)
    {
      ghost var vs := Vals(layers);
      ghost var mv := Vals(LayersOf(movLayers));
      out := [];
      var i := 0;
      while i < |movLayers|
        invariant 0 <= i <= |movLayers|
        invariant out == RenderPrefix(geo, vs, mv, i, bgColor)
      {
        var l := movLayers[i].layer;
        var bounds := geo.getBounds(l.abShape, l.pos);
        var colors := PaintRegion(layers, bounds);
        out := out + colors;
        i := i + 1;
      }
    }

    /**
     * `movLayerDraw(movLayers, layers)`: the swap pass, done with interrupts
     * off, then the repaint of each moving layer's bounds against `layers`.
     */
    method MovLayerDraw(movLayers: seq<MovLayer>, layers: seq<Layer>) returns (out: seq<Color>)
      requires DistinctLayers(movLayers)
      modifies (set i | 0 <= i < |movLayers| :: movLayers[i].layer)`pos
      modifies (set i | 0 <= i < |movLayers| :: movLayers[i].layer)`posLast
      ensures Vals(LayersOf(movLayers)) == SwapAll(old(Vals(LayersOf(movLayers))))
      ensures Vals(layers) == SwapSome(old(Vals(layers)), MovingMask(layers, movLayers))
      ensures out == Render.Render(geo, Vals(layers), Vals(LayersOf(movLayers)), bgColor)
    {
      SwapPositions(movLayers);
      forall j | 0 <= j < |layers|
        ensures layers[j].Val() == if layers[j] in LayersOf(movLayers) then Swapped(old(layers[j].Val())) else old(layers[j].Val())
      {
        if layers[j] in LayersOf(movLayers) {
          var k :| 0 <= k < |movLayers| && movLayers[k].layer == layers[j];
        }
      }
      out := Repaint(movLayers, layers);
    }

    /** What the handler reads and writes, as a value. */
    function Snapshot(): TickState
      reads this, ml3, ml1, ml0, ballLa, player01La, player02La
    {
      TickState(ballLa.posNext, ml3.velocity, player01La.posNext, ml1.velocity, player02La.posNext, ml0.velocity,
                Globals(), redrawScreen, count)
    }

    /** What the handler reads and never writes. */
    function Cfg(): Setup
    {
      Setup(geo, fieldFence, Center(), ballLa.abShape, player01La.abShape, player02La.abShape)
    }

    /**
     * `wdt_c_handler()` with the switch bitmask `switches` that `p2sw_read`
     * returns: the state afterwards is `Tick` of the state before, and the
     * banner drawn is `BannerOf` it.
     */
    method WdtCHandler(switches: bv16) returns (banner: Banner)
      requires Valid()
      modifies this`count, this`redrawScreen, this`player01S, this`player02S, this`won
      modifies ml3`velocity, ballLa`posNext, player01La`posNext, player02La`posNext
      ensures Valid()
      ensures Snapshot() == Tick(Cfg(), old(Snapshot()), switches)
      ensures banner == BannerOf(old(Snapshot()))
    {
      count := count + 1;
      banner := NoBanner;
      if count == FrameTicks {
        banner := AdvanceOrAnnounce();
        MovePaddles(switches);
        redrawScreen := 1;
        count := 0;
      }
    }

    /**
     * The first half of a frame tick: the winner's banner once the game is
     * won, and otherwise `mlAdvance(&ml3, &fieldFence, &ml1, &ml0)`.
     */
    method AdvanceOrAnnounce() returns (banner: Banner)
      requires Linked()
      modifies this`player01S, this`player02S, this`won, ml3`velocity, ballLa`posNext
      ensures Snapshot() == if old(won) == 1 then old(Snapshot()) else AdvanceBall(Cfg(), old(Snapshot()))
      ensures banner == if old(won) != 1 then NoBanner
                        else if old(player01S) > old(player02S) then Player1Wins else Player2Wins
    {
      banner := NoBanner;
      if won == 1 {
        if player01S > player02S {
          banner := Player1Wins;
        } else {
          banner := Player2Wins;
        }
      } else {
        assert Stack()[0] != Stack()[4] && Stack()[1] != Stack()[4];
        assert Movers([ml3], ml0, ml1)[0] == BallMover(Cfg(), Snapshot());
        MlAdvance([ml3], fieldFence, ml1, ml0);
      }
    }

    /** The second half of a frame tick: each set switch bit moves a paddle up or down. */
    method MovePaddles(switches: bv16)
      requires Linked()
      modifies player01La`posNext, player02La`posNext
      ensures var t := old(Snapshot());
              var cfg := Cfg();
              Snapshot() == t.(paddle1 := PaddleSteps(cfg, cfg.paddle1Shape, t.paddle1, t.paddle1Vel, Bit(switches, 0), Bit(switches, 1)),
                               paddle2 := PaddleSteps(cfg, cfg.paddle2Shape, t.paddle2, t.paddle2Vel, Bit(switches, 2), Bit(switches, 3)))
    {
      assert Stack()[0] != Stack()[1] && Stack()[0] != Stack()[4] && Stack()[1] != Stack()[4];
      if Bit(switches, 0) {
        MoveUp([ml1], fieldFence);
        assert [ml1][0] == ml1;
      }
      if Bit(switches, 1) {
        MoveDown([ml1], fieldFence);
        assert [ml1][0] == ml1;
      }
      if Bit(switches, 2) {
        MoveUp([ml0], fieldFence);
        assert [ml0][0] == ml0;
      }
      if Bit(switches, 3) {
        MoveDown([ml0], fieldFence);
        assert [ml0][0] == ml0;
      }
    }

    /** The values of the layer stack, front to back. */
    function StackVals(): seq<LayerVal>
      reads player02La, player01La, lineLa, fieldLayer, ballLa
    {
      [player02La.Val(), player01La.Val(), lineLa.Val(), fieldLayer.Val(), ballLa.Val()]
    }

    /** `movLayerDraw(&ml, &player02La)` for one of the three one-element moving-layer lists. */
    method DrawLayer(ml: MovLayer) returns (out: seq<Color>)
      requires Linked() && (ml == ml0 || ml == ml1 || ml == ml3)
      modifies ml.layer`pos, ml.layer`posLast
      ensures ml.layer.Val() == Swapped(old(ml.layer.Val()))
      ensures out == Render.Render(geo, StackVals(), [ml.layer.Val()], bgColor)
    {
      out := MovLayerDraw([ml], Stack());
      assert LayersOf([ml]) == [ml.layer];
      assert Vals(LayersOf([ml])) == [ml.layer.Val()];
      assert Vals(Stack()) == StackVals();
    }

    /**
     * One pass of the main loop once a redraw is due: clear `redrawScreen`,
     * then draw player 2's paddle, player 1's paddle and the ball, each
     * against the whole layer stack as the earlier draws left it.
     */
    method DrawFrame() returns (out: seq<Color>)
      requires Valid()
      modifies this`redrawScreen, ballLa`pos, ballLa`posLast, player01La`pos, player01La`posLast
      modifies player02La`pos, player02La`posLast
      ensures Valid() && redrawScreen == 0
      ensures player02La.Val() == Swapped(old(player02La.Val()))
      ensures player01La.Val() == Swapped(old(player01La.Val()))
      ensures ballLa.Val() == Swapped(old(ballLa.Val()))
      ensures var p2, p1, ln, fd, b := old(player02La.Val()), old(player01La.Val()), lineLa.Val(), fieldLayer.Val(), old(ballLa.Val());
              var s1 := [Swapped(p2), p1, ln, fd, b];
              var s2 := [Swapped(p2), Swapped(p1), ln, fd, b];
              var s3 := [Swapped(p2), Swapped(p1), ln, fd, Swapped(b)];
              out == Render.Render(geo, s1, [Swapped(p2)], bgColor) + Render.Render(geo, s2, [Swapped(p1)], bgColor)
                     + Render.Render(geo, s3, [Swapped(b)], bgColor)
    {
      assert Stack()[0] != Stack()[1] && Stack()[0] != Stack()[4] && Stack()[1] != Stack()[4];
      assert Stack()[2] != Stack()[0] && Stack()[2] != Stack()[1] && Stack()[2] != Stack()[4];
      assert Stack()[3] != Stack()[0] && Stack()[3] != Stack()[1] && Stack()[3] != Stack()[4];
      redrawScreen := 0;
      var out0 := DrawLayer(ml0);
      var out1 := DrawLayer(ml1);
      var out3 := DrawLayer(ml3);
      out := out0 + out1 + out3;
    }
  }
}
