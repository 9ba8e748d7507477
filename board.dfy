/**
 * The board layout generator: four players, each drawn in its own local
 * coordinates as a 13-cell home run followed by the quadrant decoration,
 * and each placed on the board by a quarter-turn transform.
 *
 * The specification functions (`HomeRun`, `CellCommands`, `Decoration`,
 * `BoardScene`) give the scene with literal coordinates; the methods build
 * it step by step as the source does, by walking mutable points and
 * appending to the scene, and are proved to produce exactly that scene.
 */
module Board {
  import opened Geometry
  import opened Scenes

  /** The cell size and the sizes derived from it. */
  const Dim: int := 128
  const DimX2: int := Dim * 2
  const DimX4: int := Dim * 4
  /** The side of the square board in pixels: 17 cells of `Dim`. */
  const Dimension: int := 2176

  /** The board constant is seventeen cells wide. */
  lemma DimensionIsSeventeenCells()
    ensures Dimension == 17 * Dim
  {
  }
  /** The width of every outline stroke. */
  const StrokeWidth: nat := 5

  datatype Option<T> = None | Some(value: T)

  /** `Triangle<d>` is a right triangle inside a square of side `2 * Dim`, oriented by `d` degrees. */
  datatype CellKind = Triangle0 | Triangle90 | Triangle180 | Triangle270 | VBlock | HBlock

  /** A cell of a home run; `Cell::new` is this constructor. */
  datatype Cell = Cell(kind: CellKind, color: Color, affine: Affine, origin: Point)

  /** A player's colour and the transform that places its quadrant; `Player::new` is this constructor. */
  datatype Player = Player(color: Color, affine: Affine)

  /** `Player::COLORS`. */
  const Palette: seq<Color> := [Red, Yellow, Blue, Green]

  /** `Player::color`: palette colours are reused cyclically. */
  function PaletteColor(index: nat): Color
  {
    Palette[index % |Palette|]
  }

  /**
   * The four players, coloured `Palette[0]` to `Palette[3]`: the identity,
   * and quarter turns by 90, 180 and 270 degrees, each followed by the
   * translation that moves the turned quadrant into another corner of the
   * board (`BoardProperties.PlayerTransforms` states them in that form).
   */
  const Players: seq<Player> := [
    Player(Red, Identity),
    Player(Yellow, Affine(1, Dimension, 0)),
    Player(Blue, Affine(2, Dimension, Dimension)),
    Player(Green, Affine(3, 0, Dimension))
  ]

  // ------------------------------------------------------------------
  // Specification of the scene, with literal coordinates
  // ------------------------------------------------------------------

  /** The kinds of the 13 cells of a home run, in emission order. */
  const HomeKinds: seq<CellKind> := [
    Triangle180, VBlock, VBlock, Triangle270, Triangle90, HBlock, HBlock, Triangle180,
    VBlock, VBlock, VBlock, VBlock, VBlock
  ]

  /** The local origins of the 13 cells of a home run, in emission order. */
  const HomeOrigins: seq<Point> := [
    Point(256, 512), Point(256, 512), Point(384, 512), Point(512, 512), Point(512, 512),
    Point(512, 384), Point(512, 256), Point(768, 0),
    Point(768, 0), Point(896, 0), Point(1024, 0), Point(1152, 0), Point(1280, 0)
  ]

  /** The home run of player `i`: cell `k` has kind `HomeKinds[k]`, origin `HomeOrigins[k]` and palette colour `i + 3 + k`. */
  function HomeRun(i: nat, affine: Affine): seq<Cell>
  {
    seq(13, k requires 0 <= k < 13 => Cell(HomeKinds[k], PaletteColor(i + 3 + k), affine, HomeOrigins[k]))
  }

  /** The base shape of a cell of the given kind at origin `o`. */
  function BaseShape(kind: CellKind, o: Point): Shape
  {
    match kind
    case Triangle0 => TriangleShape(o, Point(o.x + 256, o.y), Point(o.x, o.y + 256))
    case Triangle90 => TriangleShape(o, Point(o.x + 256, o.y), Point(o.x + 256, o.y + 256))
    case Triangle180 => TriangleShape(o, Point(o.x, o.y + 256), Point(o.x - 256, o.y + 256))
    case Triangle270 => TriangleShape(o, Point(o.x + 256, o.y + 256), Point(o.x, o.y + 256))
    case VBlock => RectShape(Rect(o.x, o.y, o.x + 128, o.y + 256))
    case HBlock => RectShape(Rect(o.x, o.y, o.x + 256, o.y + 128))
  }

  /** Where a cell's white marker is centred: the middle of a block, the incentre of a triangle. */
  function MarkerCenter(kind: CellKind, o: Point): Center
  {
    match kind
    case VBlock => At(Point(o.x + 64, o.y + 128))
    case HBlock => At(Point(o.x + 128, o.y + 64))
    case Triangle0 | Triangle90 | Triangle180 | Triangle270 =>
      var t := BaseShape(kind, o); Incenter(t.a, t.b, t.c)
  }

  /** What drawing one cell emits: its base shape in its colour, then a white marker circle over it. */
  function CellCommands(cell: Cell): seq<Command>
  {
    [ FillShape(cell.affine, cell.color, BaseShape(cell.kind, cell.origin)),
      FillShape(cell.affine, White, CircleShape(MarkerCenter(cell.kind, cell.origin), CellRadius)) ]
  }

  /** What drawing a list of cells in order emits. */
  function CellsCommands(cells: seq<Cell>): (cmds: seq<Command>)
    ensures |cmds| == 2 * |cells|
  {
    if cells == [] then [] else CellsCommands(cells[..|cells| - 1]) + CellCommands(cells[|cells| - 1])
  }

  /** The four home-spawn circles, at the centres of the quadrant's 2x2 sub-squares. */
  function HomeMarkers(affine: Affine): seq<Command>
  {
    seq(4, k requires 0 <= k < 4 =>
      FillShape(affine, White, CircleShape(At(Point(128 + 256 * (k / 2), 128 + 256 * (k % 2))), PlayerRadius)))
  }

  /** The six finish-lane circles, one cell apart. */
  function LaneMarkers(affine: Affine): seq<Command>
  {
    seq(6, j requires 0 <= j < 6 =>
      FillShape(affine, White, CircleShape(At(Point(320 + 128 * j, 1088)), CellRadius)))
  }

  /** The outer L-shaped boundary of the home path. */
  const OuterBoundary: seq<PathEl> := [
    MoveTo(Point(0, 768)), LineTo(Point(256, 512)), LineTo(Point(512, 512)),
    LineTo(Point(512, 256)), LineTo(Point(768, 0)), LineTo(Point(1408, 0))
  ]

  /** The inner L-shaped boundary of the home path. */
  const InnerBoundary: seq<PathEl> := [
    MoveTo(Point(256, 768)), LineTo(Point(768, 768)), LineTo(Point(768, 256)), LineTo(Point(1408, 256))
  ]

  /** The closed arrow pointing into the centre of the board. */
  const Arrow: seq<PathEl> := [
    MoveTo(Point(256, 1024)), LineTo(Point(896, 1024)), LineTo(Point(896, 896)), LineTo(Point(1088, 1088)),
    LineTo(Point(896, 1280)), LineTo(Point(896, 1152)), LineTo(Point(256, 1152)), ClosePath
  ]

  /** The quadrant background: the `4 * Dim` square at the local origin in the player's colour. */
  function QuadrantFill(player: Player): Command
  {
    FillShape(player.affine, player.color, RectShape(Rect(0, 0, 512, 512)))
  }

  /** What drawing a player's decoration emits, in paint order. */
  function Decoration(player: Player): (cmds: seq<Command>)
    ensures |cmds| == 15
  {
    [QuadrantFill(player)]
    + HomeMarkers(player.affine)
    + [ StrokePath(StrokeWidth, player.affine, Black, OuterBoundary),
        StrokePath(StrokeWidth, player.affine, Black, InnerBoundary),
        FillShape(player.affine, player.color, PathShape(Arrow)),
        StrokePath(StrokeWidth, player.affine, Black, Arrow) ]
    + LaneMarkers(player.affine)
  }

  /**
   * The decoration in the four groups `Player::draw` emits: background, home
   * circles, the two outlines and the filled and stroked arrow, lane circles.
   */
  lemma DecorationParts(player: Player)
    ensures Decoration(player) == [QuadrantFill(player)] + HomeMarkers(player.affine) + Decoration(player)[5..9] + LaneMarkers(player.affine)
    ensures Decoration(player)[5..9]
         == [ StrokePath(StrokeWidth, player.affine, Black, OuterBoundary),
              StrokePath(StrokeWidth, player.affine, Black, InnerBoundary),
              FillShape(player.affine, player.color, PathShape(Arrow)),
              StrokePath(StrokeWidth, player.affine, Black, Arrow) ]
  {
    var d := Decoration(player);
    assert d[..5] == [QuadrantFill(player)] + HomeMarkers(player.affine);
    assert d[9..] == LaneMarkers(player.affine);
    assert d == d[..5] + d[5..9] + d[9..];
  }

  /** Everything player `i` contributes to the scene: its cells, then its decoration. */
  function PlayerCommands(i: nat): (cmds: seq<Command>)
    requires i < 4
    ensures |cmds| == 41
  {
    CellsCommands(HomeRun(i, Players[i].affine)) + Decoration(Players[i])
  }

  /** The commands of the first `n` players, in player order. */
  function BoardPrefix(n: nat): (cmds: seq<Command>)
    requires n <= |Players|
    ensures |cmds| == 41 * n
  {
    if n == 0 then [] else BoardPrefix(n - 1) + PlayerCommands(n - 1)
  }

  /** The whole scene the generator builds. */
  function BoardScene(): (cmds: seq<Command>)
    ensures |cmds| == 164
  {
    BoardPrefix(|Players|)
  }

  // ------------------------------------------------------------------
  // The generator, step by step
  // ------------------------------------------------------------------

  /** The last five cells of a run are vertical blocks, one cell apart along the top edge. */
  lemma LaneOrigins(j: nat)
    requires j < 5
    ensures HomeKinds[8 + j] == VBlock && HomeOrigins[8 + j] == Point(768 + 128 * j, 0)
  {
    if j == 0 {
    } else if j == 1 {
    } else if j == 2 {
    } else if j == 3 {
    } else {
    }
  }

  /** The cell list of `create_scene` for player `i`, built by advancing the origin and the colour index. */
  method HomeCells(i: nat, player: Player) returns (cells: seq<Cell>)
    ensures cells == HomeRun(i, player.affine)
  {
    var origin := Point(DimX2, DimX4);
    var colorIndex := i + |Palette| - 1;
    cells := [Cell(Triangle180, PaletteColor(colorIndex), player.affine, origin)];
    colorIndex := colorIndex + 1;
    cells := cells + [Cell(VBlock, PaletteColor(colorIndex), player.affine, origin)];
    origin := origin.Add(Dim, 0);
    colorIndex := colorIndex + 1;
    cells := cells + [Cell(VBlock, PaletteColor(colorIndex), player.affine, origin)];
    origin := origin.Add(Dim, 0);
    colorIndex := colorIndex + 1;
    cells := cells + [Cell(Triangle270, PaletteColor(colorIndex), player.affine, origin)];
    colorIndex := colorIndex + 1;
    cells := cells + [Cell(Triangle90, PaletteColor(colorIndex), player.affine, origin)];
    origin := origin.Add(0, -Dim);
    colorIndex := colorIndex + 1;
    cells := cells + [Cell(HBlock, PaletteColor(colorIndex), player.affine, origin)];
    origin := origin.Add(0, -Dim);
    colorIndex := colorIndex + 1;
    cells := cells + [Cell(HBlock, PaletteColor(colorIndex), player.affine, origin)];
    origin := origin.Add(DimX2, -DimX2);
    colorIndex := colorIndex + 1;
    cells := cells + [Cell(Triangle180, PaletteColor(colorIndex), player.affine, origin)];
    for j := 0 to 5
      invariant |cells| == 8 + j
      invariant origin == Point(768 + 128 * j, 0)
      invariant colorIndex == i + 10 + j
      invariant forall k :: 0 <= k < |cells| ==> cells[k] == HomeRun(i, player.affine)[k]
    {
      colorIndex := colorIndex + 1;
      LaneOrigins(j);
      cells := cells + [Cell(VBlock, PaletteColor(colorIndex), player.affine, origin)];
      origin := origin.Add(Dim, 0);
    }
  }

  /** `Cell::draw`: pick the triangle or the block for the kind, fill it, then paint the white marker. */
  method DrawCell(cell: Cell, scene: Scene)
    modifies scene
    ensures scene.commands == old(scene.commands) + CellCommands(cell)
  {
    var origin := cell.origin;
    var center := At(Point(0, 0));
    var triangle: Option<Shape> := match cell.kind
      case Triangle0 => Some(TriangleShape(origin, origin.Add(DimX2, 0), origin.Add(0, DimX2)))
      case Triangle90 => Some(TriangleShape(origin, origin.Add(DimX2, 0), origin.Add(DimX2, DimX2)))
      case Triangle180 => Some(TriangleShape(origin, origin.Add(0, DimX2), origin.Add(-DimX2, DimX2)))
      case Triangle270 => Some(TriangleShape(origin, origin.Add(DimX2, DimX2), origin.Add(0, DimX2)))
      case _ => None;
    if triangle.Some? {
      scene.Fill(cell.affine, cell.color, triangle.value);
      center := Incenter(triangle.value.a, triangle.value.b, triangle.value.c);
    }
    var block: Option<Rect> := match cell.kind
      case VBlock => Some(FromOriginSize(origin, Dim, DimX2))
      case HBlock => Some(FromOriginSize(origin, DimX2, Dim))
      case _ => None;
    if block.Some? {
      scene.Fill(cell.affine, cell.color, RectShape(block.value));
      center := At(block.value.Center());
    }
    scene.Fill(cell.affine, White, CircleShape(center, CellRadius));
  }

  /** `for cell in cells { cell.draw(&mut scene) }`. */
  method DrawCells(cells: seq<Cell>, scene: Scene)
    modifies scene
    ensures scene.commands == old(scene.commands) + CellsCommands(cells)
  {
    for k := 0 to |cells|
      invariant scene.commands == old(scene.commands) + CellsCommands(cells[..k])
    {
      assert cells[..k + 1][..k] == cells[..k];
      DrawCell(cells[k], scene);
    }
    assert cells[..|cells|] == cells;
  }

  /** The four home circles of `Player::draw`, centred on the 2x2 sub-grid of the quadrant. */
  method DrawHomeMarkers(affine: Affine, scene: Scene)
    modifies scene
    ensures scene.commands == old(scene.commands) + HomeMarkers(affine)
  {
    var p := Point(Dim, Dim);
    var centers := [p, p.Add(0, DimX2), p.Add(DimX2, 0), p.Add(DimX2, DimX2)];
    for k := 0 to |centers|
      invariant scene.commands == old(scene.commands) + HomeMarkers(affine)[..k]
    {
      assert centers[k] == Point(128 + 256 * (k / 2), 128 + 256 * (k % 2)) by {
        if k == 0 {
        } else if k == 1 {
        } else if k == 2 {
        } else {
        }
      }
      assert HomeMarkers(affine)[..k + 1] == HomeMarkers(affine)[..k] + [HomeMarkers(affine)[k]];
      scene.Fill(affine, White, CircleShape(At(centers[k]), PlayerRadius));
    }
    assert HomeMarkers(affine)[..4] == HomeMarkers(affine);
  }

  /** The outer boundary path of `Player::draw`, traced by walking a point. */
  method OuterBoundaryPath() returns (path: seq<PathEl>)
    ensures path == OuterBoundary
  {
    var p := Point(0, DimX4 + DimX2);
    path := [MoveTo(p)];
    p := p.Add(DimX2, -DimX2);
    path := path + [LineTo(p)];
    p := p.Add(DimX2, 0);
    path := path + [LineTo(p)];
    p := p.Add(0, -DimX2);
    path := path + [LineTo(p)];
    p := p.Add(DimX2, -DimX2);
    path := path + [LineTo(p)];
    p := p.Add(Dim * 5, 0);
    path := path + [LineTo(p)];
  }

  /** The inner boundary path of `Player::draw`. */
  method InnerBoundaryPath() returns (path: seq<PathEl>)
    ensures path == InnerBoundary
  {
    var p := Point(DimX2, DimX4 + DimX2);
    path := [MoveTo(p)];
    p := p.Add(DimX4, 0);
    path := path + [LineTo(p)];
    p := p.Add(0, -DimX4);
    path := path + [LineTo(p)];
    p := p.Add(Dim * 5, 0);
    path := path + [LineTo(p)];
  }

  /** The closed arrow path of `Player::draw`; its tip is reached without moving the walking point. */
  method ArrowPath() returns (path: seq<PathEl>)
    ensures path == Arrow
  {
    var p := Point(DimX2, DimX4 * 2);
    path := [MoveTo(p)];
    p := p.Add(Dim * 5, 0);
    path := path + [LineTo(p)];
    p := p.Add(0, -Dim);
    path := path + [LineTo(p)];
    path := path + [LineTo(p.Add(Dim * 3 / 2, Dim * 3 / 2))];
    p := p.Add(0, Dim * 3);
    path := path + [LineTo(p)];
    p := p.Add(0, -Dim);
    path := path + [LineTo(p)];
    p := p.Add(-Dim * 5, 0);
    path := path + [LineTo(p)];
    path := path + [ClosePath];
  }

  /** The six finish-lane circles of `Player::draw`, walking one cell to the right each time. */
  method DrawLaneMarkers(affine: Affine, scene: Scene)
    modifies scene
    ensures scene.commands == old(scene.commands) + LaneMarkers(affine)
  {
    var p := Point(Dim * 5 / 2, Dim * 17 / 2);
    for j := 0 to 6
      invariant p == Point(320 + 128 * j, 1088)
      invariant scene.commands == old(scene.commands) + LaneMarkers(affine)[..j]
    {
      assert LaneMarkers(affine)[..j + 1] == LaneMarkers(affine)[..j] + [LaneMarkers(affine)[j]];
      scene.Fill(affine, White, CircleShape(At(p), CellRadius));
      p := p.Add(Dim, 0);
    }
    assert LaneMarkers(affine)[..6] == LaneMarkers(affine);
  }

  /** The outlines and the arrow of `Player::draw`: two stroked boundaries, then the arrow filled and stroked. */
  method DrawOutlines(player: Player, scene: Scene)
    modifies scene
    ensures scene.commands == old(scene.commands) + Decoration(player)[5..9]
  {
    var affine := player.affine;
    var path := OuterBoundaryPath();
    scene.Stroke(StrokeWidth, affine, Black, path);
    path := InnerBoundaryPath();
    scene.Stroke(StrokeWidth, affine, Black, path);
    path := ArrowPath();
    scene.Fill(affine, player.color, PathShape(path));
    scene.Stroke(StrokeWidth, affine, Black, path);
  }

  /** `Player::draw`: the quadrant background, home circles, outlines, arrow and lane circles. */
  method DrawPlayer(player: Player, scene: Scene)
    modifies scene
    ensures scene.commands == old(scene.commands) + Decoration(player)
  {
    var affine := player.affine;
    scene.Fill(affine, player.color, RectShape(FromOriginSize(Point(0, 0), DimX4, DimX4)));
    DrawHomeMarkers(affine, scene);
    DrawOutlines(player, scene);
    DrawLaneMarkers(affine, scene);
    DecorationParts(player);
  }

  /** One turn of `Player::create_scene`'s loop: player `i`'s cells, then its decoration. */
  method DrawQuadrant(i: nat, scene: Scene)
    requires i < |Players|
    modifies scene
    ensures scene.commands == old(scene.commands) + PlayerCommands(i)
  {
    var player := Players[i];
    var cells := HomeCells(i, player);
    DrawCells(cells, scene);
    DrawPlayer(player, scene);
  }

  /** `Player::create_scene`: for each player, its cells and then its decoration. */
  method CreateScene() returns (scene: Scene)
    ensures fresh(scene)
    ensures scene.commands == BoardScene()
  {
    scene := new Scene();
    for i := 0 to |Players|
      invariant scene.commands == BoardPrefix(i)
    {
      DrawQuadrant(i, scene);
    }
  }
}
