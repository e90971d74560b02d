/**
 * Vectors, regions and the shape capability that the game draws with.
 *
 * The shape library (abRectGetBounds, abRectCheck, circle8, ...) is not part of
 * this model: a `Geometry` value carries its two operations as uninterpreted
 * functions, and every proof holds for any choice of them.
 */
module Geometry {

  /** An index into `Vec2.axes`: 0 is x (column), 1 is y (row). */
  type Axis = a: int | 0 <= a < 2

  /** An LCD colour word (`u_int` on the target). */
  type Color = c: int | 0 <= c < 0x1_0000

  /** A two-axis vector, used for positions and velocities. */
  datatype Vec2 = Vec2(x: int, y: int)
  {
    /** `axes[a]` */
    function At(a: Axis): int
    {
      if a == 0 then x else y
    }

    /** The vector with `axes[a]` replaced by `v`. */
    function With(a: Axis, v: int): (r: Vec2)
      ensures r.At(a) == v
      ensures r.At(1 - a) == At(1 - a)
    {
      if a == 0 then Vec2(v, y) else Vec2(x, v)
    }
  }

  /** `vec2Add` */
  function Add(p: Vec2, q: Vec2): Vec2
  {
    Vec2(p.x + q.x, p.y + q.y)
  }

  /** `vec2Sub` */
  function Sub(p: Vec2, q: Vec2): Vec2
  {
    Vec2(p.x - q.x, p.y - q.y)
  }

  /** An axis-aligned rectangle; both corners are inclusive. */
  datatype Region = Region(topLeft: Vec2, botRight: Vec2)

  /**
   * The fence test of the game loop: the bounds `b` lie strictly outside
   * `fence` on axis `a`. Touching an edge is inside.
   */
  predicate OutsideOn(b: Region, fence: Region, a: Axis)
  {
    b.topLeft.At(a) < fence.topLeft.At(a) || b.botRight.At(a) > fence.botRight.At(a)
  }

  /**
   * The four shape instances the game declares: the paddle rectangle
   * (half-size 4 by 14), the centre line (0 by 61), the field outline and the
   * library's 8-pixel circle.
   */
  datatype Shape = Paddle | Line | FieldOutline | Circle8

  /**
   * The shape capability: `getBounds(s, centre)` is the bounding region of `s`
   * drawn at `centre` (abShapeGetBounds), `check(s, centre, pixel)` says whether
   * `pixel` is part of `s` drawn at `centre` (abShapeCheck).
   */
  datatype Geometry = Geometry(getBounds: (Shape, Vec2) -> Region, check: (Shape, Vec2, Vec2) -> bool)
}
