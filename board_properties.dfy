/**
 * Properties of the board scene: how many commands it has and in which
 * order they paint, which transform every command uses, how the four
 * quadrants relate to each other and to the board's corners, and how
 * the palette cycles through the home runs.
 */
module BoardProperties {
  import opened Geometry
  import opened Scenes
  import opened Board

  // ------------------------------------------------------------------
  // Palette
  // ------------------------------------------------------------------

  /** The palette colour after `c`, cyclically; white and black are fixed. */
  function NextHue(c: Color): Color
  {
    match c
    case Red => Yellow
    case Yellow => Blue
    case Blue => Green
    case Green => Red
    case White => White
    case Black => Black
  }

  /** `Player::color` cycles through the four palette colours: period four, each step the next hue. */
  lemma PaletteCycle(index: nat)
    ensures PaletteColor(index) == Palette[index % 4]
    ensures PaletteColor(index) in Palette && PaletteColor(index) != White && PaletteColor(index) != Black
    ensures PaletteColor(index + 1) == NextHue(PaletteColor(index))
    ensures PaletteColor(index + 4) == PaletteColor(index)
  {
  }

  /** Cell `k` of player `i`'s run has palette colour `(i + 3 + k) % 4`. */
  lemma HomeRunColours(i: nat, affine: Affine, k: nat)
    requires k < 13
    ensures HomeRun(i, affine)[k].color == Palette[(i + 3 + k) % 4]
  {
    assert HomeRun(i, affine)[k].color == PaletteColor(i + 3 + k);
  }

  /** Consecutive cells of a run never share a colour. */
  lemma NeighbouringCellsDiffer(i: nat, affine: Affine, k: nat)
    requires k + 1 < 13
    ensures HomeRun(i, affine)[k].color != HomeRun(i, affine)[k + 1].color
  {
    assert HomeRun(i, affine)[k].color == PaletteColor(i + 3 + k);
    assert HomeRun(i, affine)[k + 1].color == PaletteColor(i + 3 + k + 1);
    PaletteCycle(i + 3 + k);
  }

  /** The palette holds four different colours. */
  lemma PaletteDistinct(a: nat, b: nat)
    requires a < 4 && b < 4 && a != b
    ensures Palette[a] != Palette[b]
  {
  }

  /** Two different players colour the same position of their runs differently. */
  lemma PlayersDifferAtEveryCell(i: nat, j: nat, a: Affine, b: Affine, k: nat)
    requires i < 4 && j < 4 && i != j && k < 13
    ensures HomeRun(i, a)[k].color != HomeRun(j, b)[k].color
  {
    HomeRunColours(i, a, k);
    HomeRunColours(j, b, k);
    assert (i + 3 + k) % 4 != (j + 3 + k) % 4;
    PaletteDistinct((i + 3 + k) % 4, (j + 3 + k) % 4);
  }

  /** Each run starts in the colour of the player before it. */
  lemma RunStartsInPreviousPlayersColour(i: nat)
    requires i < 4
    ensures HomeRun(i, Players[i].affine)[0].color == Players[(i + 3) % 4].color
  {
    HomeRunColours(i, Players[i].affine, 0);
    if i == 0 {
    } else if i == 1 {
    } else if i == 2 {
    } else {
    }
  }

  // ------------------------------------------------------------------
  // Transforms and quadrants
  // ------------------------------------------------------------------

  /** The board quarter turn: player 1's transform. */
  const BoardTurn: Affine := Affine(1, Dimension, 0)

  /** The top-left corners of the four `512 x 512` corner squares of the board, in player order. */
  const Corners: seq<Point> := [Point(0, 0), Point(1664, 0), Point(1664, 1664), Point(0, 1664)]

  /** Each player transform is `Affine::rotate(i * PI / 2)` followed by `then_translate` into its corner. */
  lemma PlayerTransforms()
    ensures Players[0].affine == Identity
    ensures Players[1].affine == Affine(1, 0, 0).ThenTranslate(Dimension, 0)
    ensures Players[2].affine == Affine(2, 0, 0).ThenTranslate(Dimension, Dimension)
    ensures Players[3].affine == Affine(3, 0, 0).ThenTranslate(0, Dimension)
    ensures BoardTurn == Affine(1, 0, 0).ThenTranslate(Dimension, 0)
  {
  }

  /** `BoardTurn` is the quarter turn of the `2176 x 2176` board about its centre. */
  lemma BoardTurnAboutCentre(p: Point)
    ensures Apply(BoardTurn, p) == Rotate(1, p.Add(-1088, -1088)).Add(1088, 1088)
    ensures Apply(BoardTurn, p) == Point(2176 - p.y, p.x)
  {
  }

  /** The player after player `i`, going round the board. */
  function NextSeat(i: nat): (j: nat)
    requires i < 4
    ensures j < 4
  {
    if i == 3 then 0 else i + 1
  }

  /** Each player's transform is the previous player's followed by the board quarter turn, cyclically. */
  lemma SuccessiveQuarterTurns(i: nat, p: Point)
    requires i < 4
    ensures Apply(Players[NextSeat(i)].affine, p) == Apply(BoardTurn, Apply(Players[i].affine, p))
  {
    if i == 0 {
    } else if i == 1 {
    } else if i == 2 {
    } else {
    }
  }

  /** A point lies in the local quadrant square exactly when player `i`'s transform puts it in the board corner `Corners[i]`. */
  lemma QuadrantLandsInCorner(i: nat, p: Point)
    requires i < 4
    ensures InSquare(p, Point(0, 0), 512) <==> InSquare(Apply(Players[i].affine, p), Corners[i], 512)
  {
  }

  /** The four corner squares are pairwise disjoint. */
  lemma CornersAreDisjoint(i: nat, j: nat, q: Point)
    requires i < 4 && j < 4 && i != j
    ensures !(InSquare(q, Corners[i], 512) && InSquare(q, Corners[j], 512))
  {
  }

  /** The local drawing stays in `[0, 1408]^2`, which every player's transform keeps on the board. */
  lemma LocalAreaStaysOnBoard(i: nat, p: Point)
    requires i < 4 && InSquare(p, Point(0, 0), 1408)
    ensures InSquare(Apply(Players[i].affine, p), Point(0, 0), Dimension)
  {
  }

  // ------------------------------------------------------------------
  // Cell geometry
  // ------------------------------------------------------------------

  /** The corner points of a shape with straight edges (none for circles and paths). */
  function Vertices(s: Shape): set<Point>
  {
    match s
    case TriangleShape(a, b, c) => {a, b, c}
    case RectShape(r) => {Point(r.x0, r.y0), Point(r.x1, r.y0), Point(r.x1, r.y1), Point(r.x0, r.y1)}
    case _ => {}
  }

  /** Player 0's first cell is the 180-degree triangle with vertices (256,512), (256,768), (0,768), drawn untransformed. */
  lemma FirstCellOfFirstPlayer()
    ensures HomeRun(0, Players[0].affine)[0] == Cell(Triangle180, Green, Identity, Point(256, 512))
    ensures CellCommands(HomeRun(0, Players[0].affine)[0])[0]
         == FillShape(Identity, Green, TriangleShape(Point(256, 512), Point(256, 768), Point(0, 768)))
  {
  }

  /**
   * The 270- and 90-degree triangles at one origin share their diagonal
   * and between them use all four corners of the `256 x 256` square at
   * that origin: together they form one square cell.
   */
  lemma TrianglePairFormsSquare(o: Point)
    ensures Vertices(BaseShape(Triangle270, o)) * Vertices(BaseShape(Triangle90, o)) == {o, o.Add(256, 256)}
    ensures Vertices(BaseShape(Triangle270, o)) + Vertices(BaseShape(Triangle90, o))
         == Vertices(RectShape(Rect(o.x, o.y, o.x + 256, o.y + 256)))
  {
    assert o != o.Add(256, 256) && o.Add(256, 0) != o.Add(0, 256);
  }

  /** A vertical block at `o` is the `128 x 256` rectangle at `o`, a horizontal one the `256 x 128` rectangle. */
  lemma BlockGeometry(o: Point)
    ensures Vertices(BaseShape(VBlock, o)) == {o, o.Add(128, 0), o.Add(128, 256), o.Add(0, 256)}
    ensures Vertices(BaseShape(HBlock, o)) == {o, o.Add(256, 0), o.Add(256, 128), o.Add(0, 128)}
    ensures MarkerCenter(VBlock, o) == At(o.Add(64, 128)) && MarkerCenter(HBlock, o) == At(o.Add(128, 64))
  {
  }

  /** Every vertex of every cell of a run lies in the local area `[0, 1408]^2`, on the 64-pixel grid. */
  lemma RunCellsInLocalArea(i: nat, affine: Affine, k: nat, v: Point)
    requires k < 13
    requires v in Vertices(BaseShape(HomeRun(i, affine)[k].kind, HomeRun(i, affine)[k].origin))
    ensures InSquare(v, Point(0, 0), 1408)
    ensures v.x % 64 == 0 && v.y % 64 == 0
  {
    if k == 0 {
    } else if k == 1 {
    } else if k == 2 {
    } else if k == 3 {
    } else if k == 4 {
    } else if k == 5 {
    } else if k == 6 {
    } else if k == 7 {
    } else {
      LaneOrigins(k - 8);
    }
  }

  /**
   * Where two quadrants meet, the first cell of player `i` (a 180-degree
   * triangle) and the last cell of the player before it (a vertical block)
   * share an edge on the board: the triangle's edge from (256, 768) to
   * (0, 768) lands on the block's edge from (1408, 256) to (1408, 0).
   */
  lemma SeamCellsShareAnEdge(i: nat)
    requires i < 4
    ensures var first := HomeRun(i, Players[i].affine)[0];
      first.affine == Players[i].affine
      && Point(256, 768) in Vertices(BaseShape(first.kind, first.origin))
      && Point(0, 768) in Vertices(BaseShape(first.kind, first.origin))
    ensures var last := HomeRun((i + 3) % 4, Players[(i + 3) % 4].affine)[12];
      last.affine == Players[(i + 3) % 4].affine
      && Point(1408, 256) in Vertices(BaseShape(last.kind, last.origin))
      && Point(1408, 0) in Vertices(BaseShape(last.kind, last.origin))
    ensures Apply(Players[i].affine, Point(256, 768)) == Apply(Players[(i + 3) % 4].affine, Point(1408, 256))
    ensures Apply(Players[i].affine, Point(0, 768)) == Apply(Players[(i + 3) % 4].affine, Point(1408, 0))
  {
    SeamCells(i, Players[i].affine, (i + 3) % 4, Players[(i + 3) % 4].affine);
    SeamEdgesMeet(i, (i + 3) % 4);
  }

  /** The first cell of any run is the triangle with the edge (256, 768)-(0, 768), the last the block with the edge (1408, 256)-(1408, 0). */
  lemma SeamCells(i: nat, a: Affine, j: nat, b: Affine)
    ensures var first := HomeRun(i, a)[0];
      first.affine == a
      && Point(256, 768) in Vertices(BaseShape(first.kind, first.origin))
      && Point(0, 768) in Vertices(BaseShape(first.kind, first.origin))
    ensures var last := HomeRun(j, b)[12];
      last.affine == b
      && Point(1408, 256) in Vertices(BaseShape(last.kind, last.origin))
      && Point(1408, 0) in Vertices(BaseShape(last.kind, last.origin))
  {
    HomeRunAt(i, a, 0);
    HomeRunAt(j, b, 12);
    assert BaseShape(Triangle180, Point(256, 512)) == TriangleShape(Point(256, 512), Point(256, 768), Point(0, 768));
    assert BaseShape(VBlock, Point(1280, 0)) == RectShape(Rect(1280, 0, 1408, 256));
  }

  /** Player `i`'s transform and that of the player before it, `j`, send the two seam edges to the same board points. */
  lemma SeamEdgesMeet(i: nat, j: nat)
    requires i < 4 && j == (i + 3) % 4
    ensures Apply(Players[i].affine, Point(256, 768)) == Apply(Players[j].affine, Point(1408, 256))
    ensures Apply(Players[i].affine, Point(0, 768)) == Apply(Players[j].affine, Point(1408, 0))
  {
    if i == 0 {
      assert j == 3;
    } else if i == 1 {
      assert j == 0;
    } else if i == 2 {
      assert j == 1;
    } else {
      assert j == 2;
    }
  }

  /** The two cells that meet at a seam between quadrants have different colours. */
  lemma SeamCellsDiffer(i: nat, a: Affine, b: Affine)
    requires i < 4
    ensures HomeRun(i, a)[0].color != HomeRun((i + 3) % 4, b)[12].color
  {
    HomeRunColours(i, a, 0);
    HomeRunColours((i + 3) % 4, b, 12);
    PaletteDistinct((i + 3) % 4, ((i + 3) % 4 + 15) % 4);
  }

  /** The points a path moves or draws a line to. */
  function PathPoints(path: seq<PathEl>): set<Point>
  {
    set k | 0 <= k < |path| && !path[k].ClosePath? :: path[k].to
  }

  /** The points that place a command: the corners of a straight-edged shape, the centre of a circle, the points of a path. */
  function Anchors(c: Command): set<Point>
  {
    match c
    case StrokePath(_, _, _, path) => PathPoints(path)
    case FillShape(_, _, s) =>
      match s
      case CircleShape(At(p), _) => {p}
      case CircleShape(Incenter(a, b, t), _) => {a, b, t}
      case PathShape(path) => PathPoints(path)
      case _ => Vertices(s)
  }

  /** Every point that places a piece of a player's decoration lies in the local area `[0, 1408]^2`. */
  lemma DecorationInLocalArea(player: Player, d: nat, v: Point)
    requires d < 15 && v in Anchors(Decoration(player)[d])
    ensures InSquare(v, Point(0, 0), 1408)
  {
    DecorationParts(player);
    if d == 0 {
      assert v in Vertices(RectShape(Rect(0, 0, 512, 512)));
    } else if d < 5 {
      var k := d - 1;
      assert Decoration(player)[d] == HomeMarkers(player.affine)[k];
      assert v == Point(128 + 256 * (k / 2), 128 + 256 * (k % 2));
    } else if d < 9 {
      var path := if d == 5 then OuterBoundary else if d == 6 then InnerBoundary else Arrow;
      assert v in PathPoints(path);
      var j :| 0 <= j < |path| && !path[j].ClosePath? && v == path[j].to;
    } else {
      var j := d - 9;
      assert Decoration(player)[d] == LaneMarkers(player.affine)[j];
      assert v == Point(320 + 128 * j, 1088);
    }
  }

  // ------------------------------------------------------------------
  // Command counts and paint order
  // ------------------------------------------------------------------

  /** Drawing a list of cells emits two commands per cell, cell by cell: base shape, then marker. */
  lemma {:induction false} CellsCommandsAt(cells: seq<Cell>, k: nat, h: nat)
    requires k < |cells| && h < 2
    ensures CellsCommands(cells)[2 * k + h] == CellCommands(cells[k])[h]
  {
    var m := |cells| - 1;
    var front := cells[..m];
    assert CellsCommands(cells) == CellsCommands(front) + CellCommands(cells[m]);
    if k < m {
      CellsCommandsAt(front, k, h);
      assert front[k] == cells[k];
    }
  }

  /** Player `i` emits 41 commands, and the first 26 are its 13 cells', two by two, in run order. */
  lemma PlayerCellCommand(i: nat, k: nat, h: nat)
    requires i < 4 && k < 13 && h < 2
    ensures |PlayerCommands(i)| == 41
    ensures PlayerCommands(i)[2 * k + h] == CellCommands(HomeRun(i, Players[i].affine)[k])[h]
  {
    var cells := CellsCommands(HomeRun(i, Players[i].affine));
    assert PlayerCommands(i) == cells + Decoration(Players[i]);
    CellsCommandsAt(HomeRun(i, Players[i].affine), k, h);
  }

  /** The last 15 of player `i`'s commands are its decoration, in order. */
  lemma PlayerDecorationCommand(i: nat, d: nat)
    requires i < 4 && d < 15
    ensures PlayerCommands(i)[26 + d] == Decoration(Players[i])[d]
  {
    var cells := CellsCommands(HomeRun(i, Players[i].affine));
    assert |cells| == 26;
    assert PlayerCommands(i) == cells + Decoration(Players[i]);
  }

  /** Among the first `n` players' commands, player `i`'s occupy the block of 41 starting at `41 * i`. */
  lemma {:induction false} BoardPrefixAt(n: nat, i: nat, m: nat)
    requires i < n <= |Players| && m < 41
    ensures BoardPrefix(n)[41 * i + m] == PlayerCommands(i)[m]
  {
    var front, last := BoardPrefix(n - 1), PlayerCommands(n - 1);
    assert BoardPrefix(n) == front + last;
    if i < n - 1 {
      BoardPrefixAt(n - 1, i, m);
    }
  }

  /**
   * The scene has 164 commands.  Player `i`'s commands occupy positions
   * `41 * i` to `41 * i + 40`: first, at `41 * i + 2 * k + h`, the base
   * shape (`h == 0`) and the marker (`h == 1`) of its cell `k`, then, at
   * `41 * i + 26 + d`, its decoration command `d`.
   */
  lemma PaintOrder(i: nat, k: nat, h: nat, d: nat)
    requires i < 4 && k < 13 && h < 2 && d < 15
    ensures |BoardScene()| == 164
    ensures BoardScene()[41 * i + 2 * k + h] == CellCommands(HomeRun(i, Players[i].affine)[k])[h]
    ensures BoardScene()[41 * i + 26 + d] == Decoration(Players[i])[d]
  {
    BoardPrefixAt(|Players|, i, 2 * k + h);
    BoardPrefixAt(|Players|, i, 26 + d);
    PlayerCellCommand(i, k, h);
    PlayerDecorationCommand(i, d);
  }

  /** The transform a command is drawn with; named so that the symmetry statements read as "the transform of command `m`" for fills and strokes alike. */
  function TransformOf(c: Command): Affine
  {
    c.affine
  }

  /** Every command a player's decoration emits uses that player's transform. */
  lemma DecorationUsesPlayersTransform(player: Player, d: nat)
    requires d < 15
    ensures TransformOf(Decoration(player)[d]) == player.affine
  {
    var a := player.affine;
    assert Decoration(player) == [QuadrantFill(player)] + HomeMarkers(a)
      + [StrokePath(StrokeWidth, a, Black, OuterBoundary), StrokePath(StrokeWidth, a, Black, InnerBoundary),
         FillShape(a, player.color, PathShape(Arrow)), StrokePath(StrokeWidth, a, Black, Arrow)]
      + LaneMarkers(a);
  }

  /** `m` splits into a cell index `k` and a half `h < 2` with `2 * k + h == m`: command `m` of a run of cells is command `h` of cell `k`. */
  lemma Halve(m: nat) returns (k: nat, h: nat)
    ensures 2 * k + h == m && h < 2
  {
    k, h := m / 2, m % 2;
  }

  /** Every command a home run emits uses the transform its cells were created with. */
  lemma RunUsesTransform(i: nat, a: Affine, m: nat)
    requires m < 26
    ensures |CellsCommands(HomeRun(i, a))| == 26
    ensures TransformOf(CellsCommands(HomeRun(i, a))[m]) == a
  {
    var k, h := Halve(m);
    CellsCommandsAt(HomeRun(i, a), k, h);
    HomeRunAffine(i, a, k);
  }

  /** Every command player `i` emits uses player `i`'s transform. */
  lemma PlayerUsesTransform(i: nat, m: nat)
    requires i < 4 && m < 41
    ensures TransformOf(PlayerCommands(i)[m]) == Players[i].affine
  {
    if m < 26 {
      PlayerRunCommand(i, m);
      RunUsesTransform(i, Players[i].affine, m);
    } else {
      PlayerDecorationCommand(i, m - 26);
      DecorationUsesPlayersTransform(Players[i], m - 26);
    }
  }

  /** Every command of the scene is drawn with the transform of the player it belongs to. */
  lemma EveryCommandUsesItsPlayersTransform(i: nat, m: nat)
    requires i < 4 && m < 41
    ensures TransformOf(BoardScene()[41 * i + m]) == Players[i].affine
  {
    BoardPrefixAt(|Players|, i, m);
    PlayerUsesTransform(i, m);
  }

  /** Cell `k` of a run, spelled out. */
  lemma HomeRunAt(i: nat, affine: Affine, k: nat)
    requires k < 13
    ensures HomeRun(i, affine)[k] == Cell(HomeKinds[k], Palette[(i + 3 + k) % 4], affine, HomeOrigins[k])
  {
    assert HomeRun(i, affine)[k] == Cell(HomeKinds[k], PaletteColor(i + 3 + k), affine, HomeOrigins[k]);
  }

  /** Every cell of a run carries the transform it was created with. */
  lemma HomeRunAffine(i: nat, affine: Affine, k: nat)
    requires k < 13
    ensures HomeRun(i, affine)[k].affine == affine
  {
  }

  // ------------------------------------------------------------------
  // Rotational symmetry
  // ------------------------------------------------------------------

  /** A command as the next player draws it: the same shape or path, drawn with transform `a` and the colour moved one hue on. */
  function Turned(c: Command, a: Affine): Command
  {
    match c
    case FillShape(_, brush, shape) => FillShape(a, NextHue(brush), shape)
    case StrokePath(w, _, brush, path) => StrokePath(w, a, NextHue(brush), path)
  }

  /** A cell moved one hue on and drawn with transform `a` draws the turned commands. */
  lemma CellCommandsTurned(c: Cell, a: Affine, h: nat)
    requires h < 2
    ensures CellCommands(c.(affine := a, color := NextHue(c.color)))[h] == Turned(CellCommands(c)[h], a)
  {
  }

  /** A player moved one hue on and drawn with transform `a` draws the turned decoration. */
  lemma DecorationTurned(p: Player, a: Affine, d: nat)
    requires d < 15
    ensures Decoration(Player(NextHue(p.color), a))[d] == Turned(Decoration(p)[d], a)
  {
    var q := Player(NextHue(p.color), a);
    var b := p.affine;
    assert Decoration(p) == [QuadrantFill(p)] + HomeMarkers(b)
      + [StrokePath(StrokeWidth, b, Black, OuterBoundary), StrokePath(StrokeWidth, b, Black, InnerBoundary),
         FillShape(b, p.color, PathShape(Arrow)), StrokePath(StrokeWidth, b, Black, Arrow)]
      + LaneMarkers(b);
    assert Decoration(q) == [QuadrantFill(q)] + HomeMarkers(a)
      + [StrokePath(StrokeWidth, a, Black, OuterBoundary), StrokePath(StrokeWidth, a, Black, InnerBoundary),
         FillShape(a, q.color, PathShape(Arrow)), StrokePath(StrokeWidth, a, Black, Arrow)]
      + LaneMarkers(a);
  }

  /** Player `i + 1` (cyclically) has the colour one hue on from player `i`'s. */
  lemma NextPlayersColour(i: nat)
    requires i < 4
    ensures Players[NextSeat(i)].color == NextHue(Players[i].color)
  {
    if i == 0 {
      assert NextSeat(i) == 1;
    } else if i == 1 {
      assert NextSeat(i) == 2;
    } else if i == 2 {
      assert NextSeat(i) == 3;
    } else {
      assert NextSeat(i) == 0;
    }
  }

  /** Shifting the player index by one (modulo 4) moves every cell of the run one hue on and changes nothing else but the transform. */
  lemma HomeRunTurned(i: nat, j: nat, a: Affine, b: Affine, k: nat)
    requires k < 13 && j % 4 == (i + 1) % 4
    ensures HomeRun(j, b)[k] == HomeRun(i, a)[k].(affine := b, color := NextHue(HomeRun(i, a)[k].color))
  {
    HomeRunAt(i, a, k);
    HomeRunAt(j, b, k);
    var x := (i + 3 + k) % 4;
    NextPaletteIndex(i, j, k);
    assert NextHue(Palette[x]) == Palette[(x + 1) % 4];
  }

  /** Moving to the next player moves every palette index of the run one step on. */
  lemma NextPaletteIndex(i: nat, j: nat, k: nat)
    requires j % 4 == (i + 1) % 4
    ensures (j + 3 + k) % 4 == ((i + 3 + k) % 4 + 1) % 4
  {
  }

  /** Command `m` of a home run drawn for player `i + 1` (cyclically) with transform `b` is command `m` of player `i`'s run, turned onto `b`. */
  lemma RunCommandsTurned(i: nat, j: nat, a: Affine, b: Affine, m: nat)
    requires i < 4 && m < 26 && j == NextSeat(i)
    ensures |CellsCommands(HomeRun(i, a))| == 26 == |CellsCommands(HomeRun(j, b))|
    ensures CellsCommands(HomeRun(j, b))[m] == Turned(CellsCommands(HomeRun(i, a))[m], b)
  {
    var k, h := Halve(m);
    CellsCommandsAt(HomeRun(i, a), k, h);
    CellsCommandsAt(HomeRun(j, b), k, h);
    HomeRunTurned(i, j, a, b, k);
    CellCommandsTurned(HomeRun(i, a)[k], b, h);
  }

  /** The first 26 of player `i`'s commands are its cells' commands. */
  lemma PlayerRunCommand(i: nat, m: nat)
    requires i < 4 && m < 26
    ensures PlayerCommands(i)[m] == CellsCommands(HomeRun(i, Players[i].affine))[m]
  {
    assert PlayerCommands(i) == CellsCommands(HomeRun(i, Players[i].affine)) + Decoration(Players[i]);
  }

  /** The cell commands of player `i + 1` (cyclically) are player `i`'s, turned. */
  lemma CellCommandsOfNextPlayer(i: nat, m: nat)
    requires i < 4 && m < 26
    ensures TurnedAt(i, m)
  {
    var j := NextSeat(i);
    PlayerRunCommand(i, m);
    PlayerRunCommand(j, m);
    RunCommandsTurned(i, j, Players[i].affine, Players[j].affine, m);
  }

  /** The decoration commands of player `i + 1` (cyclically) are player `i`'s, turned. */
  lemma DecorationOfNextPlayer(i: nat, d: nat)
    requires i < 4 && d < 15
    ensures TurnedAt(i, 26 + d)
  {
    var j := NextSeat(i);
    NextPlayersColour(i);
    PlayerDecorationCommand(i, d);
    PlayerDecorationCommand(j, d);
    assert Players[j] == Player(NextHue(Players[i].color), Players[j].affine);
    DecorationTurned(Players[i], Players[j].affine, d);
  }

  /** Command `m` of player `i + 1` (cyclically) is command `m` of player `i`, turned onto player `i + 1`'s transform. */
  ghost predicate TurnedAt(i: nat, m: nat)
    requires i < 4 && m < 41
  {
    PlayerCommands(NextSeat(i))[m] == Turned(PlayerCommands(i)[m], Players[NextSeat(i)].affine)
  }

  /** Each command of player `i + 1` (cyclically) is the same command of player `i`, turned onto player `i + 1`'s transform. */
  lemma QuadrantsAreQuarterTurns(i: nat, m: nat)
    requires i < 4 && m < 41
    ensures TurnedAt(i, m)
  {
    if m < 26 {
      CellCommandsOfNextPlayer(i, m);
    } else {
      DecorationOfNextPlayer(i, m - 26);
    }
  }

  /** Command `m` of player `i + 1` (cyclically) in the whole scene is command `m` of player `i`, turned. */
  lemma SceneCommandsTurned(i: nat, m: nat)
    requires i < 4 && m < 41
    ensures BoardScene()[41 * NextSeat(i) + m] == Turned(BoardScene()[41 * i + m], Players[NextSeat(i)].affine)
  {
    var j := NextSeat(i);
    QuadrantsAreQuarterTurns(i, m);
    assert PlayerCommands(j)[m] == Turned(PlayerCommands(i)[m], Players[j].affine);
    BoardPrefixAt(|Players|, i, m);
    BoardPrefixAt(|Players|, j, m);
  }

  /**
   * The scene is rotationally symmetric: command `m` of player `i + 1`
   * (cyclically) is command `m` of player `i` with the colour moved one
   * hue on, drawn with a transform that maps every point `p` where player
   * `i`'s transform followed by the board quarter turn does.
   */
  lemma SceneIsRotationallySymmetric(i: nat, m: nat, p: Point)
    requires i < 4 && m < 41
    ensures BoardScene()[41 * NextSeat(i) + m] == Turned(BoardScene()[41 * i + m], Players[NextSeat(i)].affine)
    ensures Apply(TransformOf(BoardScene()[41 * NextSeat(i) + m]), p)
         == Apply(BoardTurn, Apply(TransformOf(BoardScene()[41 * i + m]), p))
  {
    SceneCommandsTurned(i, m);
    EveryCommandUsesItsPlayersTransform(i, m);
    EveryCommandUsesItsPlayersTransform(NextSeat(i), m);
    SuccessiveQuarterTurns(i, p);
  }
}
