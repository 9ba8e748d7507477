# Flight board background generator — Dafny model

The `assets` program of the flight board game draws the board background
once and saves it as a PNG. It has two parts, and this project models both.

* **Board layout generator.** Four players sit in the four corners of a
  2176 x 2176 board, which is 17 cells of 128 pixels. Each player is drawn
  in its own local coordinates and then placed on the board by a transform:
  - `Player::create_scene` lays out a 13-cell home run for each player. Each
    cell's kind, origin and palette colour is chosen by walking a mutable
    origin and colour index.
  - `Cell::draw` fills each cell's triangle or block and paints a white
    marker on it.
  - `Player::draw` adds the quadrant background, four home circles, two
    outline paths, a filled and stroked arrow, and six lane circles.
  - The transforms are a quarter turn followed by a translation into a
    corner.
* **Texture readback.** The rendered texture is copied into a buffer
  whose rows are padded to a multiple of 256 bytes. The host then copies
  the first `width * 4` bytes of each row into a tightly packed RGBA
  buffer.

Module layout:

* `Geometry` — integer points; affine maps made of quarter turns and translations.
* `Scenes` — colours, shapes, draw commands, and the `Scene` class. A scene
  is an append-only list of commands kept in paint order.
* `Board` — the specification functions for the scene (`HomeRun`,
  `CellCommands`, `Decoration`, `BoardScene`). It also holds the imperative
  generator (`HomeCells`, `DrawCell`, `DrawPlayer`, `CreateScene`), which is
  proved to build exactly that scene.
* `BoardProperties` — properties of the scene:
  - colour cycling;
  - cell geometry;
  - 2 commands per cell, 26 + 15 = 41 per player, and 164 in total;
  - the transforms mapping the quadrant into the corners;
  - the board's quarter-turn symmetry.
* `Readback` — the stride computation and the row-packing loop.

The code advances the origin by one cell a second time before pushing the
270-degree triangle (`assets/src/main.rs:244`), and the model does the same.
So the 270-degree and 90-degree triangles both sit at the local origin
(512, 512). Together they tile the 256 x 256 square there
(`TrianglePairFormsSquare`).

## Model

| member | source | states |
|---|---|---|
| Geometry.AddCompose | assets/src/main.rs:236 | successive `origin += …` steps add up to one displacement by their sum, and a step is undone by its opposite |
| Geometry.RotateIsPower | assets/src/main.rs:205-216 | a rotation by `t` quarter turns is the basic quarter turn applied `t` times; zero turns is the identity |
| Geometry.RotateAdd | assets/src/main.rs:205-216 | rotations compose by adding their quarter turns modulo 4 |
| Geometry.ThenTranslateShifts | assets/src/main.rs:205-206 | `then_translate` maps every point to where the original map sends it, shifted by the translation |
| Scenes.FromOriginSizeCenter | assets/src/main.rs:424-433 | a `from_origin_size` rectangle of even width and height has its `center()` exactly half its size away from the origin, where the block marker is drawn |
| Scenes.Scene.constructor | assets/src/main.rs:200 | `Scene::new` starts with no commands |
| Scenes.Scene.Fill | assets/src/main.rs:419 | `scene.fill` appends exactly one fill command and changes nothing else |
| Scenes.Scene.Stroke | assets/src/main.rs:342 | `scene.stroke` appends exactly one stroke command and changes nothing else |
| Board.DimensionIsSeventeenCells | assets/src/main.rs:185 | the board side is seventeen cells of `Dim` |
| Board.CellsCommands | assets/src/main.rs:293-295 | drawing a list of cells emits two commands per cell |
| Board.Decoration | assets/src/main.rs:302-384 | a player's decoration is 15 commands |
| Board.DecorationParts | assets/src/main.rs:302-384 | the decoration splits into the groups `DrawPlayer` emits: the background, the 4 home circles, then the black width-5 outer and inner outlines, the arrow filled in the player colour and stroked black, then the 6 lane circles |
| Board.PlayerCommands | assets/src/main.rs:219-297 | each player contributes 41 commands |
| Board.BoardPrefix | assets/src/main.rs:219-297 | the first `n` players contribute `41 * n` commands |
| Board.BoardScene | assets/src/main.rs:199-299 | the whole scene has 164 commands |
| Board.LaneOrigins | assets/src/main.rs:283-292 | the last five cells of a run are vertical blocks at `(768 + 128 j, 0)` |
| Board.HomeCells | assets/src/main.rs:220-292 | walking the origin and the colour index builds exactly the 13-cell run `HomeRun(i, affine)`: each cell's kind, colour `Player::color(i + 3 + k)`, transform and origin |
| Board.DrawCell | assets/src/main.rs:387-442 | `Cell::draw` appends the cell's triangle or block in its colour, then a white marker at the triangle's incentre or the block's centre, and nothing else |
| Board.DrawCells | assets/src/main.rs:293-295 | drawing the cells in order appends their commands in order |
| Board.DrawHomeMarkers | assets/src/main.rs:314-328 | appends the four home circles at (128,128), (128,384), (384,128), (384,384) |
| Board.OuterBoundaryPath | assets/src/main.rs:329-341 | the walked outer boundary path is the path through (0,768), (256,512), (512,512), (512,256), (768,0), (1408,0) |
| Board.InnerBoundaryPath | assets/src/main.rs:344-352 | the walked inner boundary path is the path through (256,768), (768,768), (768,256), (1408,256) |
| Board.ArrowPath | assets/src/main.rs:355-369 | the walked arrow is the closed path whose tip (1088,1088) is reached without moving the walking point |
| Board.DrawLaneMarkers | assets/src/main.rs:373-383 | appends six lane circles at `(320 + 128 j, 1088)` |
| Board.DrawOutlines | assets/src/main.rs:329-371 | appends the two outline strokes, then the arrow filled in the player's colour and stroked |
| Board.DrawPlayer | assets/src/main.rs:302-384 | `Player::draw` appends exactly the player's 15 decoration commands |
| Board.DrawQuadrant | assets/src/main.rs:220-296 | one turn of the player loop appends exactly that player's 41 commands |
| Board.CreateScene | assets/src/main.rs:199-299 | `create_scene` returns a new scene holding exactly `BoardScene()` |
| BoardProperties.PaletteCycle | assets/src/main.rs:195-197 | `Player::color` is `COLORS[index % 4]`, never white or black; it has period 4 and each step is the next hue |
| BoardProperties.HomeRunColours | assets/src/main.rs:222-290 | cell `k` of player `i`'s run is coloured `COLORS[(i + 3 + k) % 4]` |
| BoardProperties.NeighbouringCellsDiffer | assets/src/main.rs:222-290 | consecutive cells of a run never share a colour |
| BoardProperties.SeamCellsDiffer | assets/src/main.rs:221-228 | the first cell of player `i` and the last cell of the player before it, which meet at the seam between their quadrants, never share a colour |
| BoardProperties.SeamCellsShareAnEdge | assets/src/main.rs:201-228 | on the board, the edge (256,768)-(0,768) of player `i`'s first triangle coincides with the edge (1408,256)-(1408,0) of the previous player's last block |
| BoardProperties.SeamCells | assets/src/main.rs:221-292 | every run starts with a triangle having the edge (256,768)-(0,768) and ends with a block having the edge (1408,256)-(1408,0), both drawn with the run's transform |
| BoardProperties.SeamEdgesMeet | assets/src/main.rs:201-218 | player `i`'s transform and the previous player's transform send the two seam edges to the same board points |
| BoardProperties.PaletteDistinct | assets/src/main.rs:189 | the four palette colours are pairwise different |
| BoardProperties.PlayersDifferAtEveryCell | assets/src/main.rs:219-290 | two different players colour the same cell position differently |
| BoardProperties.RunStartsInPreviousPlayersColour | assets/src/main.rs:201-228 | each run starts in the colour of the player before it, cyclically |
| BoardProperties.PlayerTransforms | assets/src/main.rs:201-218 | the player transforms are the identity and `rotate(k * PI / 2).then_translate(...)` with translations (2176,0), (2176,2176), (0,2176) |
| BoardProperties.BoardTurnAboutCentre | assets/src/main.rs:205-206 | player 1's transform is the quarter turn of the board about its centre (1088,1088) |
| BoardProperties.SuccessiveQuarterTurns | assets/src/main.rs:201-218 | each player's transform is the previous player's followed by the board quarter turn, cyclically |
| BoardProperties.QuadrantLandsInCorner | assets/src/main.rs:201-218 | a point is in the local quadrant `[0,512]^2` if and only if its image under player `i`'s transform is in corner square `i` |
| BoardProperties.CornersAreDisjoint | assets/src/main.rs:201-218 | the four corner squares do not overlap |
| BoardProperties.LocalAreaStaysOnBoard | assets/src/main.rs:185 | every transform maps the local drawing area `[0,1408]^2` into the board |
| BoardProperties.FirstCellOfFirstPlayer | assets/src/main.rs:221-228 | player 0's first cell is the green 180-degree triangle with vertices (256,512), (256,768), (0,768), untransformed |
| BoardProperties.TrianglePairFormsSquare | assets/src/main.rs:398-415 | the 270- and 90-degree triangles at one origin share their diagonal and together have the four corners of a 256 x 256 square |
| BoardProperties.BlockGeometry | assets/src/main.rs:422-434 | a vertical block is a 128 x 256 rectangle and a horizontal block a 256 x 128 one; each marker sits at the rectangle's centre |
| BoardProperties.RunCellsInLocalArea | assets/src/main.rs:221-292 | every vertex of every run cell lies in `[0,1408]^2` on the 64-pixel grid |
| BoardProperties.DecorationInLocalArea | assets/src/main.rs:302-384 | every corner, circle centre and path point of a player's decoration lies in `[0,1408]^2` |
| BoardProperties.CellsCommandsAt | assets/src/main.rs:293-295 | command `2k + h` of a drawn cell list is command `h` of cell `k` |
| BoardProperties.PlayerCellCommand | assets/src/main.rs:293-295 | a player's first 26 commands are its 13 cells' commands, two by two |
| BoardProperties.PlayerDecorationCommand | assets/src/main.rs:296 | a player's commands 26 to 40 are its decoration |
| BoardProperties.BoardPrefixAt | assets/src/main.rs:219-297 | player `i`'s commands occupy positions `41 i` to `41 i + 40` of the scene |
| BoardProperties.PaintOrder | assets/src/main.rs:219-297 | the scene has 164 commands. For each player `i`, it holds the base shape and marker of cell `k` at `41 i + 2 k + h`, then decoration command `d` at `41 i + 26 + d` |
| BoardProperties.DecorationUsesPlayersTransform | assets/src/main.rs:302-384 | every decoration command uses the player's transform |
| BoardProperties.RunUsesTransform | assets/src/main.rs:226-289 | every cell command uses the transform the run was created with |
| BoardProperties.PlayerUsesTransform | assets/src/main.rs:219-296 | every command of player `i` uses player `i`'s transform |
| BoardProperties.EveryCommandUsesItsPlayersTransform | assets/src/main.rs:219-297 | every scene command is drawn with the transform of the player it belongs to |
| BoardProperties.HomeRunAt | assets/src/main.rs:221-292 | cell `k` of a run spelled out: kind, palette colour `(i + 3 + k) % 4`, transform, origin |
| BoardProperties.HomeRunAffine | assets/src/main.rs:226 | every cell of a run carries the transform it was created with |
| BoardProperties.CellCommandsTurned | assets/src/main.rs:387-442 | recolouring a cell one hue on and changing its transform changes its commands in exactly that way |
| BoardProperties.DecorationTurned | assets/src/main.rs:302-384 | recolouring a player one hue on and changing its transform changes its decoration in exactly that way |
| BoardProperties.NextPlayersColour | assets/src/main.rs:201-217 | each player's colour is the next hue after the previous player's |
| BoardProperties.HomeRunTurned | assets/src/main.rs:222 | the next player's run is the same run with every colour one hue on and the new transform |
| BoardProperties.RunCommandsTurned | assets/src/main.rs:293-295 | the next player's cell commands are the previous player's, turned |
| BoardProperties.PlayerRunCommand | assets/src/main.rs:293-295 | a player's first 26 commands are its run's commands |
| BoardProperties.CellCommandsOfNextPlayer | assets/src/main.rs:219-295 | the next player's 26 cell commands are the previous player's, turned |
| BoardProperties.DecorationOfNextPlayer | assets/src/main.rs:296 | the next player's 15 decoration commands are the previous player's, turned |
| BoardProperties.QuadrantsAreQuarterTurns | assets/src/main.rs:219-297 | each of the next player's 41 commands is the previous player's command turned |
| BoardProperties.SceneCommandsTurned | assets/src/main.rs:199-299 | in the whole scene, command `m` of the next player is command `m` of the previous player, turned |
| BoardProperties.SceneIsRotationallySymmetric | assets/src/main.rs:199-299 | the scene is symmetric under the board quarter turn. Each of the next player's commands is the previous player's with the colour one hue on. Its transform maps every point as the previous transform followed by the quarter turn |
| Readback.NextMultipleOf | assets/src/main.rs:83 | `next_multiple_of` returns a multiple of the modulus, rounds up by less than the modulus, and leaves `n` unchanged exactly when `n` is already a multiple |
| Readback.RoundUpIsMultiple | assets/src/main.rs:83 | adding the distance to the next multiple of `m` lands on a multiple of `m` |
| Readback.MulMod | assets/src/main.rs:83 | any multiple of `m` leaves no remainder modulo `m` |
| Readback.Stride | assets/src/main.rs:83 | the stride is a multiple of 256, at least `width * 4`, less than `width * 4 + 256`, and equal to `width * 4` exactly when no padding is needed |
| Readback.Offset | assets/src/main.rs:119-120 | byte `col` of row `row` lies inside a buffer of `rows` rows, and so does the rest of that row |
| Readback.RowInside | assets/src/main.rs:119-120 | every row of a buffer ends inside it |
| Readback.ReadSliceInBuffer | assets/src/main.rs:119-120 | every slice `data[row * stride .. row * stride + width * 4]` the loop reads lies inside the `stride * height` buffer |
| Readback.AppendRow | assets/src/main.rs:118-121 | appending the first `width * 4` bytes of the next row extends the packing by that row |
| Readback.Pack | assets/src/main.rs:117-121 | the output has `width * height * 4` bytes; byte `c` of output row `r` is byte `c` of buffer row `r` |
| Readback.AllRowsCopied | assets/src/main.rs:117-121 | once every row is copied, the output is the packing of the buffer |
| Readback.DecomposeIndex | assets/src/main.rs:117-121 | every index of a buffer of `rows` rows of `pitch` bytes is the offset of some row and column |
| Readback.PackedIsUnique | assets/src/main.rs:117-121 | the packed output is determined by the buffer |
| Readback.NoPaddingIsIdentity | assets/src/main.rs:83-121 | when `width * 4` is a multiple of 256, the stride equals the row size and the packed output is the whole buffer |
| Readback.BoardRowsNeedNoPadding | assets/src/main.rs:46 | for the 2176-pixel board the stride is 8704 = 34 * 256 (no padding), and `stride * height` fits in `u32` |
| Readback.SixtyFourPixelRows | assets/src/main.rs:83 | a 64-pixel-wide texture has a 256-byte stride |

## Left out

- The GPU side is not modelled: device, renderer and texture creation; `render_to_texture`; the command encoder; `copy_texture_to_buffer`; and the queue submission. They run on the GPU. The mapped buffer they fill is an input to `Readback.Pack`.
- `map_async`, the oneshot channel and `block_on_wgpu`, with their "channel was closed" error path, are not modelled. They are asynchronous I/O.
- The program's file and process plumbing is not modelled:
  - encoding and writing `background.png`;
  - `env_logger` and `pollster`;
  - `main`'s error propagation.
  All of it is file I/O or process set-up.
- The renderer's rasterisation and antialiasing are not modelled. The model is the list of draw commands, not the pixels drawn from them.
- Floating point is made exact or symbolic:
  - Player transforms are exact quarter turns. The source's `Affine::rotate` uses `f64` sine and cosine, which are only close to 0 and ±1.
  - The radii `0.35 * DIM` and `0.6 * DIM` are not integers and are kept symbolic (`Radius`).
  - A triangle's inscribed-circle centre involves a square root and is kept symbolic (`Incenter`).
  - The stroke width `5.0` is the integer 5.
- The render's base colour, a grey-white `lerp`, is not modelled. It only affects pixels.
- The fill rule is always `Fill::NonZero`, and the optional brush transform is always `None`. Neither is recorded.
- The `Drawable` trait is not modelled as an interface. Its two implementations are the methods `Board.DrawCell` and `Board.DrawPlayer`.
- Readback.Pack: requires that `stride` and `stride * height` fit in `u32`. The source computes them in `u32` and does not handle overflow. For the board's own 2176 x 2176 size both fit (`Readback.BoardRowsNeedNoPadding`).
- Readback.Pack: the `try_into()` conversions from `u32` to `usize` and their error path are not modelled. `Vec::with_capacity` is a capacity hint only and is not modelled either.
