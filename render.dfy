/**
 * What `movLayerDraw` sends to the LCD, as functions on values: the
 * position swap, the row-major pixels of a bounding region, the colour of
 * the topmost layer at a pixel, and the stream of colours for a list of
 * moving layers.
 */
module Render {
  import opened Geometry

  /** The fields of one `Layer` that drawing reads or writes. */
  datatype LayerVal = LayerVal(abShape: Shape, pos: Vec2, posLast: Vec2, posNext: Vec2, color: Color)

  /** The swap pass for one layer: `posLast := pos; pos := posNext`. */
  function Swapped(l: LayerVal): LayerVal
  {
    l.(posLast := l.pos, pos := l.posNext)
  }

  /** The swap pass over a layer stack; `moving[i]` says whether layer `i` is one of the moving layers. */
  function SwapSome(stack: seq<LayerVal>, moving: seq<bool>): (r: seq<LayerVal>)
    requires |moving| == |stack|
    ensures |r| == |stack|
    ensures forall i :: 0 <= i < |stack| ==> r[i] == if moving[i] then Swapped(stack[i]) else stack[i]
  {
    seq(|stack|, i requires 0 <= i < |stack| => if moving[i] then Swapped(stack[i]) else stack[i])
  }

  /** The swap pass over the moving layers themselves. */
  function SwapAll(ls: seq<LayerVal>): (r: seq<LayerVal>)
    ensures |r| == |ls|
    ensures forall i :: 0 <= i < |ls| ==> r[i] == Swapped(ls[i])
  {
    seq(|ls|, i requires 0 <= i < |ls| => Swapped(ls[i]))
  }

  /** Layer `l` has `px` in its shape at its current position (abShapeCheck at `pos`). */
  predicate Covers(geo: Geometry, l: LayerVal, px: Vec2)
  {
    geo.check(l.abShape, l.pos, px)
  }

  /**
   * The colour written for pixel `px`: that of the first layer of the stack
   * (front to back) whose shape covers `px`, or `bg` when none does.
   */
  function ProbeColor(geo: Geometry, stack: seq<LayerVal>, px: Vec2, bg: Color): Color
  {
    if stack == [] then bg
    else if Covers(geo, stack[0], px) then stack[0].color
    else ProbeColor(geo, stack[1..], px, bg)
  }

  /** The topmost covering layer gives the colour. */
  lemma {:induction false} ProbeFindsFirst(geo: Geometry, stack: seq<LayerVal>, px: Vec2, bg: Color, j: nat)
    requires j < |stack| && Covers(geo, stack[j], px)
    requires forall k :: 0 <= k < j ==> !Covers(geo, stack[k], px)
    ensures ProbeColor(geo, stack, px, bg) == stack[j].color
  {
    if j > 0 {
      assert !Covers(geo, stack[0], px);
      forall k | 0 <= k < j - 1 ensures !Covers(geo, stack[1..][k], px) {
        assert stack[1..][k] == stack[k + 1];
      }
      ProbeFindsFirst(geo, stack[1..], px, bg, j - 1);
    }
  }

  /** With no covering layer the background colour is written. */
  lemma {:induction false} ProbeFallsBack(geo: Geometry, stack: seq<LayerVal>, px: Vec2, bg: Color)
    requires forall k :: 0 <= k < |stack| ==> !Covers(geo, stack[k], px)
    ensures ProbeColor(geo, stack, px, bg) == bg
  {
    if stack != [] {
      assert !Covers(geo, stack[0], px);
      forall k | 0 <= k < |stack| - 1 ensures !Covers(geo, stack[1..][k], px) {
        assert stack[1..][k] == stack[k + 1];
      }
      ProbeFallsBack(geo, stack[1..], px, bg);
    }
  }

  /** The number of columns (or rows) from `lo` to `hi` inclusive. */
  function Span(lo: int, hi: int): nat
  {
    if hi < lo then 0 else hi - lo + 1
  }

  /** The pixels `(x0, y) .. (x1, y)` of one row, left to right. */
  function Row(y: int, x0: int, x1: int): (r: seq<Vec2>)
    decreases x1 - x0
    ensures |r| == Span(x0, x1)
    ensures forall k :: 0 <= k < |r| ==> r[k] == Vec2(x0 + k, y)
  {
    if x1 < x0 then [] else Row(y, x0, x1 - 1) + [Vec2(x1, y)]
  }

  /** Rows `y0 .. y1` of the columns `x0 .. x1`, top to bottom. */
  function Rows(x0: int, x1: int, y0: int, y1: int): (r: seq<Vec2>)
    decreases y1 - y0
    ensures forall k :: 0 <= k < |r| ==> x0 <= r[k].x <= x1 && y0 <= r[k].y <= y1
  {
    if y1 < y0 then [] else Rows(x0, x1, y0, y1 - 1) + Row(y1, x0, x1)
  }

  /** A region has one pixel per column and row. */
  lemma {:induction false} RowsLength(x0: int, x1: int, y0: int, y1: int)
    ensures |Rows(x0, x1, y0, y1)| == Span(x0, x1) * Span(y0, y1)
    decreases y1 - y0
  {
    if y0 <= y1 {
      RowsLength(x0, x1, y0, y1 - 1);
      assert Span(y0, y1) == Span(y0, y1 - 1) + 1;
    }
  }

  /** Every pixel of region `b`, row by row, as the nested loops of the repaint visit them. */
  function RegionPixels(b: Region): seq<Vec2>
  {
    Rows(b.topLeft.x, b.botRight.x, b.topLeft.y, b.botRight.y)
  }

  /** The colour of each pixel of `ps`, in order. */
  function Paint(geo: Geometry, stack: seq<LayerVal>, ps: seq<Vec2>, bg: Color): seq<Color>
  {
    seq(|ps|, k requires 0 <= k < |ps| => ProbeColor(geo, stack, ps[k], bg))
  }

  /** Painting two runs of pixels one after the other paints their concatenation. */
  lemma PaintAppend(geo: Geometry, stack: seq<LayerVal>, ps: seq<Vec2>, qs: seq<Vec2>, bg: Color)
    ensures Paint(geo, stack, ps + qs, bg) == Paint(geo, stack, ps, bg) + Paint(geo, stack, qs, bg)
  {
    var l := Paint(geo, stack, ps + qs, bg);
    var r := Paint(geo, stack, ps, bg) + Paint(geo, stack, qs, bg);
    forall k | 0 <= k < |l| ensures l[k] == r[k] {
      if k < |ps| {
        assert (ps + qs)[k] == ps[k];
      } else {
        assert (ps + qs)[k] == qs[k - |ps|];
      }
    }
  }

  /** The bounds of a layer at its current position (layerGetBounds). */
  function LayerBounds(geo: Geometry, l: LayerVal): Region
  {
    geo.getBounds(l.abShape, l.pos)
  }

  /** The number of pixels the repaint of layer `l` writes. */
  function Area(geo: Geometry, l: LayerVal): nat
  {
    var b := LayerBounds(geo, l);
    Span(b.topLeft.x, b.botRight.x) * Span(b.topLeft.y, b.botRight.y)
  }

  /** The total number of pixels the repaint of the first `n` of `movers` writes. */
  function TotalArea(geo: Geometry, movers: seq<LayerVal>, n: nat): nat
    requires n <= |movers|
  {
    if n == 0 then 0 else TotalArea(geo, movers, n - 1) + Area(geo, movers[n - 1])
  }

  /** The repaint of the first `n` moving layers. */
  function RenderPrefix(geo: Geometry, stack: seq<LayerVal>, movers: seq<LayerVal>, n: nat, bg: Color): seq<Color>
    requires n <= |movers|
  {
    if n == 0 then []
    else RenderPrefix(geo, stack, movers, n - 1, bg) + Paint(geo, stack, RegionPixels(LayerBounds(geo, movers[n - 1])), bg)
  }

  /**
   * The repaint pass: for each moving layer in order, the colours of every
   * pixel of its bounds, probed against the whole stack.
   */
  function Render(geo: Geometry, stack: seq<LayerVal>, movers: seq<LayerVal>, bg: Color): seq<Color>
  {
    RenderPrefix(geo, stack, movers, |movers|, bg)
  }

  // ---------------------------------------------------------------------------
  // Properties of the repaint

  /**
   * Row-major order: pixel `(x, y)` of the region with corners `(x0, y0)` and
   * `(x1, y1)` is visited at index `(y - y0) * width + (x - x0)`, where the
   * width is `x1 - x0 + 1`.
   */
  lemma {:induction false} RowMajor(x0: int, x1: int, y0: int, y1: int, x: int, y: int)
    requires x0 <= x <= x1 && y0 <= y <= y1
    ensures (y - y0) * Span(x0, x1) + (x - x0) < |Rows(x0, x1, y0, y1)|
    ensures Rows(x0, x1, y0, y1)[(y - y0) * Span(x0, x1) + (x - x0)] == Vec2(x, y)
    decreases y1 - y0
  {
    var w := Span(x0, x1);
    var prefix := Rows(x0, x1, y0, y1 - 1);
    RowsLength(x0, x1, y0, y1 - 1);
    assert Rows(x0, x1, y0, y1) == prefix + Row(y1, x0, x1);
    assert |prefix| == w * (y1 - y0) by {
      assert Span(y0, y1 - 1) == y1 - y0;
    }
    if y < y1 {
      RowMajor(x0, x1, y0, y1 - 1, x, y);
    } else {
      assert (y - y0) * w == |prefix|;
    }
  }

  /** Two layers look the same to the repaint when their shape, position and colour agree. */
  predicate SameLook(l: LayerVal, m: LayerVal)
  {
    l.abShape == m.abShape && l.pos == m.pos && l.color == m.color
  }

  predicate SameLooks(s: seq<LayerVal>, t: seq<LayerVal>)
  {
    |s| == |t| && forall i :: 0 <= i < |s| ==> SameLook(s[i], t[i])
  }

  /** The probe only reads shape, position and colour. */
  lemma {:induction false} ProbeSameLook(geo: Geometry, s: seq<LayerVal>, t: seq<LayerVal>, px: Vec2, bg: Color)
    requires SameLooks(s, t)
    ensures ProbeColor(geo, s, px, bg) == ProbeColor(geo, t, px, bg)
  {
    if s != [] {
      assert SameLooks(s[1..], t[1..]) by {
        forall i | 0 <= i < |s| - 1 ensures SameLook(s[1..][i], t[1..][i]) {
          assert SameLook(s[i + 1], t[i + 1]);
        }
      }
      ProbeSameLook(geo, s[1..], t[1..], px, bg);
    }
  }

  /** The repaint only reads the shape, position and colour of the stack and of the moving layers. */
  lemma {:induction false} RenderSameLook(geo: Geometry, s: seq<LayerVal>, t: seq<LayerVal>,
                                          ms: seq<LayerVal>, ns: seq<LayerVal>, n: nat, bg: Color)
    requires SameLooks(s, t) && SameLooks(ms, ns) && n <= |ms|
    ensures RenderPrefix(geo, s, ms, n, bg) == RenderPrefix(geo, t, ns, n, bg)
  {
    if n > 0 {
      RenderSameLook(geo, s, t, ms, ns, n - 1, bg);
      assert SameLook(ms[n - 1], ns[n - 1]);
      var ps := RegionPixels(LayerBounds(geo, ms[n - 1]));
      var p1 := Paint(geo, s, ps, bg);
      var p2 := Paint(geo, t, ps, bg);
      forall k | 0 <= k < |ps| ensures p1[k] == p2[k] {
        ProbeSameLook(geo, s, t, ps[k], bg);
      }
      assert p1 == p2;
    }
  }

  /** The repaint writes exactly one colour per pixel of the moving layers' bounds. */
  lemma {:induction false} RenderLength(geo: Geometry, stack: seq<LayerVal>, movers: seq<LayerVal>, n: nat, bg: Color)
    requires n <= |movers|
    ensures |RenderPrefix(geo, stack, movers, n, bg)| == TotalArea(geo, movers, n)
  {
    if n > 0 {
      RenderLength(geo, stack, movers, n - 1, bg);
      var b := LayerBounds(geo, movers[n - 1]);
      RowsLength(b.topLeft.x, b.botRight.x, b.topLeft.y, b.botRight.y);
    }
  }

  /**
   * Drawing twice with no change to `posNext` in between writes the same
   * colours both times: the second swap moves nothing that the repaint reads.
   */
  lemma RenderIdempotent(geo: Geometry, stack: seq<LayerVal>, moving: seq<bool>, movers: seq<LayerVal>, bg: Color)
    requires |moving| == |stack|
    ensures var once := SwapSome(stack, moving);
            var twice := SwapSome(once, moving);
            Render(geo, twice, SwapAll(SwapAll(movers)), bg) == Render(geo, once, SwapAll(movers), bg)
  {
    var once := SwapSome(stack, moving);
    RenderSameLook(geo, SwapSome(once, moving), once, SwapAll(SwapAll(movers)), SwapAll(movers), |movers|, bg);
  }
}
