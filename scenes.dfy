/**
 * The vector scene the board generator produces: colours, shapes in
 * local coordinates, draw commands and the append-only scene itself.
 *
 * A scene is modelled as the ordered list of its draw commands; the
 * order of the list is the paint order (later commands paint over
 * earlier ones).  Every fill uses the non-zero winding rule, so the rule
 * is not recorded.
 */
module Scenes {
  import opened Geometry

  /** The four palette colours `css::RED`, `css::YELLOW`, `css::BLUE`, `css::GREEN`, and the white and black constants. */
  datatype Color = Red | Yellow | Blue | Green | White | Black

  /**
   * The two circle radii, `0.35 * DIM` (cell markers) and `0.6 * DIM`
   * (home markers).  They are not integers and are kept symbolic.
   */
  datatype Radius = CellRadius | PlayerRadius

  /**
   * Where a circle is centred: at an exact point, or at the centre of the
   * circle inscribed in a triangle (which involves a square root and is
   * kept symbolic).
   */
  datatype Center = At(p: Point) | Incenter(a: Point, b: Point, c: Point)

  /** A kurbo rectangle given by its two corners. */
  datatype Rect = Rect(x0: int, y0: int, x1: int, y1: int) {
    /** `Rect::center`, exact on the integer grid when both coordinate sums are even. */
    function Center(): Point
      requires (x0 + x1) % 2 == 0 && (y0 + y1) % 2 == 0
    {
      Point((x0 + x1) / 2, (y0 + y1) / 2)
    }
  }

  /** `Rect::from_origin_size(origin, (w, h))`. */
  function FromOriginSize(origin: Point, w: nat, h: nat): Rect
  {
    Rect(origin.x, origin.y, origin.x + w, origin.y + h)
  }

  /**
   * A rectangle of even width and height has an exact centre, half its
   * size away from its origin; this is where a block's marker goes.
   */
  lemma FromOriginSizeCenter(o: Point, w: nat, h: nat)
    requires w % 2 == 0 && h % 2 == 0
    ensures var r := FromOriginSize(o, w, h);
      (r.x0 + r.x1) % 2 == 0 && (r.y0 + r.y1) % 2 == 0 && r.Center() == o.Add(w / 2, h / 2)
  {
    var hw, hh := w / 2, h / 2;
    assert w == 2 * hw && h == 2 * hh;
    var r := FromOriginSize(o, w, h);
    assert r.x0 + r.x1 == 2 * (o.x + hw) && r.y0 + r.y1 == 2 * (o.y + hh);
  }

  /** One element of a kurbo `BezPath` built from straight segments. */
  datatype PathEl = MoveTo(to: Point) | LineTo(to: Point) | ClosePath

  datatype Shape =
    | RectShape(rect: Rect)
    | CircleShape(center: Center, radius: Radius)
    | TriangleShape(a: Point, b: Point, c: Point)
    | PathShape(path: seq<PathEl>)

  /** `scene.fill(Fill::NonZero, affine, brush, None, shape)` and `scene.stroke(&Stroke::new(width), affine, brush, None, path)`. */
  datatype Command =
    | FillShape(affine: Affine, brush: Color, shape: Shape)
    | StrokePath(width: nat, affine: Affine, brush: Color, path: seq<PathEl>)

  /** A vello `Scene`: an append-only list of draw commands in paint order. */
  class Scene {
    var commands: seq<Command>

    constructor ()
      ensures commands == []
    {
      commands := [];
    }

    method Fill(affine: Affine, brush: Color, shape: Shape)
      modifies this
      ensures commands == old(commands) + [FillShape(affine, brush, shape)]
    {
      commands := commands + [FillShape(affine, brush, shape)];
    }

    method Stroke(width: nat, affine: Affine, brush: Color, path: seq<PathEl>)
      modifies this
      ensures commands == old(commands) + [StrokePath(width, affine, brush, path)]
    {
      commands := commands + [StrokePath(width, affine, brush, path)];
    }
  }
}
