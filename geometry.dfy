/**
 * Plane geometry used by the board generator: integer points and affine
 * maps restricted to quarter-turn rotations followed by a translation.
 *
 * With a cell size of 128 every coordinate the board uses is a multiple
 * of 64, so points are exact integer pairs.  The source builds its player
 * transforms from `Affine::rotate(k * PI / 2)`, whose floating-point sine
 * and cosine are only close to 0 and +-1; here the rotations are exact.
 */
module Geometry {

  datatype Point = Point(x: int, y: int) {
    /** `p + (dx, dy)`: the point displaced by a vector. */
    function Add(dx: int, dy: int): Point
    {
      Point(x + dx, y + dy)
    }
  }

  /** Displacements add up, and a displacement is undone by its opposite. */
  lemma AddCompose(p: Point, a: int, b: int, c: int, d: int)
    ensures p.Add(a, b).Add(c, d) == p.Add(a + c, b + d)
    ensures p.Add(a, b).Add(-a, -b) == p && p.Add(0, 0) == p
  {
  }

  /** A number of quarter turns, measured as kurbo measures angles (clockwise on the y-down screen). */
  type Quarter = t: nat | t < 4

  /**
   * Rotation by `turns` quarter turns about the origin, then translation
   * by `(tx, ty)`.  `Affine::rotate(k * PI / 2)` is `Affine(k, 0, 0)`.
   */
  datatype Affine = Affine(turns: Quarter, tx: int, ty: int) {

    /** `self.then_translate((dx, dy))`: apply this map, then shift by `(dx, dy)`. */
    function ThenTranslate(dx: int, dy: int): Affine
    {
      Affine(turns, tx + dx, ty + dy)
    }
  }

  const Identity: Affine := Affine(0, 0, 0)

  /** Rotation about the origin by `t` quarter turns: `(x, y) -> (-y, x)` applied `t` times. */
  function Rotate(t: Quarter, p: Point): Point
  {
    if t == 0 then p
    else if t == 1 then Point(-p.y, p.x)
    else if t == 2 then Point(-p.x, -p.y)
    else Point(p.y, -p.x)
  }

  function Apply(a: Affine, p: Point): Point
  {
    var q := Rotate(a.turns, p);
    Point(q.x + a.tx, q.y + a.ty)
  }

  /** Each rotation is the next power of the basic quarter turn `(x, y) -> (-y, x)`. */
  lemma RotateIsPower(t: Quarter, p: Point)
    ensures Rotate((t + 1) % 4, p) == Rotate(1, Rotate(t, p))
    ensures Rotate(0, p) == p
  {
  }

  /** Rotations compose by adding their quarter turns. */
  lemma RotateAdd(s: Quarter, t: Quarter, p: Point)
    ensures Rotate(t, Rotate(s, p)) == Rotate((s + t) % 4, p)
  {
  }

  /** `a.ThenTranslate(dx, dy)` maps every point where `a` does, shifted by `(dx, dy)`. */
  lemma ThenTranslateShifts(a: Affine, dx: int, dy: int, p: Point)
    ensures Apply(a.ThenTranslate(dx, dy), p) == Apply(a, p).Add(dx, dy)
  {
  }

  /** `true` when `p` lies in the closed axis-aligned square of side `side` whose top-left corner is `corner`. */
  predicate InSquare(p: Point, corner: Point, side: nat)
  {
    corner.x <= p.x <= corner.x + side && corner.y <= p.y <= corner.y + side
  }
}
