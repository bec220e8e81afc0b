# Mosaic engine model

This Dafny project models the mosaic engine of a small browser page. The engine fills a
full-window canvas with a tiling of triangles. Each triangle gets a random colour and
size, and neighbouring triangles point in opposite directions. The engine exists twice:
as TypeScript (`src/script.ts`) and as an older plain-JavaScript copy (`script.js`). The
two agree on everything modelled here, with three exceptions:

- `script.js` has no 2D-context check (see "Left out").
- `FigureSquare` exists only in `script.js` (script.js:65-74). It is commented out in
  `src/script.ts` (src/script.ts:61-70), and neither copy's mosaic uses it.
- The start-up flags differ. `script.js` passes the numbers `1` and `0`
  (script.js:214-215); `src/script.ts` passes the booleans `!!1` and `!!0`
  (src/script.ts:180-181). Both read as "scale noise on, stroke off".

What the model covers:

- **`Board`** (`board.dfy`, module `Mosaic`) is a class. It holds the canvas, the
  `Drawer`, its own copy of the start point, and the mutable configuration
  `{lat, scaleNoise, stroke}`.
  - Its constructor, `setConfig`, `getConfig`, `getCanvasSize`, `redraw` and `resize`
    are methods.
  - `redraw` keeps the nested inclusive `for` loops of the source as `while` loops.
    `Redraw` paints the background and works out the layout. The outer loop is in
    `DrawGrid`, the inner loop is in `DrawRow`, and the loop body is in `DrawCell`.
- **The canvas** (`canvas.dfy`, module `Canvas2D`) is an append-only log of the calls
  the engine makes on the 2D context. Pixels are not modelled.
  - Setting `fillStyle` or `strokeStyle` and then calling `fill`, `stroke` or
    `fillRect` is logged as one command that carries the colour.
  - `Drawer.toDrawFigure(figure)(…)` is the method `DrawFigure`, which has the
    closure's default arguments.
- **What one redraw draws** (`tiling.dfy`, module `Tiling`) is a set of pure functions
  that mirror the loops: `CellStamp` for one cell, `RowStamps` for one row and
  `GridStamps` for the whole grid. `RedrawLog` is the resulting log. The lemmas
  there state the stamp count, the row-major order, the positions, the rotations,
  the colours, the scales, the stroke gating, the coverage of the canvas and the
  `save`/`restore` bracketing.
- **The figures** (`figures.dfy`, module `Figures`) are `FigureTriangle` and
  `FigureSquare` as `Path2D` command lists, plus `Dot` and its `clone`.
- **The configuration merge** (`config.dfy`, module `Config`) is the function `Merge`
  and its laws. JavaScript values and truthiness are in `js.dfy`, module `Js`.

Inputs from outside the engine are parameters:

- the viewport size `window.innerWidth` / `window.innerHeight`;
- the square root of three (`sqrt3`, with `sqrt3 > 0` and `sqrt3 * sqrt3 == 3`);
- the values `Math.random` returns, as a sequence `samples`.

Row-major cell number `k` reads `samples[3k]` (the value `r` used for scale and
lightness), `samples[3k + 1]` (the hue) and `samples[3k + 2]` (the saturation), in that
order. Rotations are counted in half-turns: the source's `def * Math.PI` is `def`
half-turns.

For a 100 × 100 canvas with `lat = 60`, `xCount = ceil(100 / 30) + 1 = 5` and
`yCount = ceil(100 / 51.96…) + 1 = 3`. Both loops are inclusive, so a redraw makes
6 × 4 = 24 stamps. `Tiling.SmallCanvasExample` proves this.

## Model

| member | source | states |
|---|---|---|
| Figures.Dot.Clone | script.js:6-8 | `clone()` returns a fresh `Dot` with the same `x` and `y`, so later changes to either object do not reach the other |
| Figures.HeightSquared | src/script.ts:47 | `h = sqrt(3) / 2 * lat` satisfies `h * h == 3 * lat * lat / 4`, and `h > 0` when `lat > 0` |
| Figures.FigureTriangle | src/script.ts:46-54 | the triangle path is a closed polygon with three corners |
| Figures.TriangleIsEquilateral | src/script.ts:46-54 | all three sides have length `lat`; the base is horizontal with length `lat`; the apex lies `h` above the base and points up (least y) |
| Figures.TriangleCornersEquidistant | src/script.ts:49-51 | the three corners are equally far, `lat / sqrt(3)`, from their centroid |
| Figures.FigureSquare | script.js:65-74 | the square path is a closed polygon with four corners |
| Figures.SquareIsSquare | script.js:65-74 | the corners `(±lat/2, ±lat/2)` form a square: four sides of length `lat`, right angles at every corner, centred on the origin |
| Canvas2D.StampCommands | src/script.ts:30-41 | one call of the drawing closure logs `save` first and `fill` in the stamp's colour fifth. Then comes a `stroke` in the stroke colour exactly when one is given, and `restore` last: 7 commands with stroke and 6 without. `StampTransforms` states the three commands in between |
| Canvas2D.StampTransforms | src/script.ts:30-33 | between `save` and `fill`, a stamp translates to its point, rotates by its half-turns and scales both axes by its scale, in that order |
| Canvas2D.Drawer.Fill | src/script.ts:16-20 | `fill(color)` appends one `fillRect` over the whole canvas in that colour and nothing else |
| Canvas2D.Drawer.DrawFigure | script.js:30-52 | the closure returned by `toDrawFigure`, with defaults `scale = 1`, `rotation = 0`, `color = "#fff"`, `strokeStyle = "#000"`, appends exactly the commands of `StampCommands` for its arguments |
| Canvas2D.StampBracketed | src/script.ts:30-41 | each stamp opens one `save` and closes it with `restore` at its very end, and never nests them |
| Canvas2D.StampsLogConcat | src/script.ts:143-144 | the log of two runs of stamps is the log of the first run followed by the log of the second |
| Canvas2D.CountWhereAppend | src/script.ts:143-159 | counting commands of a kind is additive over concatenated logs |
| Canvas2D.DepthAppend | src/script.ts:30-41 | the number of open `save`s is additive over concatenated logs |
| Config.Merge | src/script.ts:99-112 | each of `lat`, `scaleNoise` and `stroke` takes the partial's value when it is defined and keeps the old one otherwise; an absent argument changes nothing |
| Config.MergeThen | src/script.ts:99-112 | two `setConfig` calls in a row equal one call with the later values winning field by field |
| Config.MergeIdempotent | src/script.ts:99-112 | applying the same partial configuration twice changes nothing more |
| Config.MergeIdentityAndOverwrite | script.js:92-105 | `null`/`undefined` and `{}` leave the configuration unchanged; a partial that defines every field replaces it whatever it was |
| Config.MergeFieldsIndependent | src/script.ts:103-111 | each field of the result depends only on that field of the old configuration and of the partial |
| Config.MergeKeepsBooleans | src/script.ts:55-59 | merging boolean flags keeps the stored flags boolean, as the `DrawConfig` type promises |
| Config.ScriptStartupConfig | script.js:212-216 | the start-up values `{lat: 60, scaleNoise: 1, stroke: 0}` are stored as the numbers given; they read as scale noise on and stroke off |
| Js.Truthy | src/script.ts:147-156 | JavaScript truthiness of a stored flag, as the `? :` tests use it: exactly `null`, `false`, `0` and `""` are falsy |
| Tiling.CellStampFacts | src/script.ts:145-157 | the drawing call `CellStamp` makes for one cell: it is turned by 0 or 1 half-turn; it has a stroke colour exactly when `stroke` is truthy; without scale noise its scale is 1; with scale noise its lightness follows from its scale, because both come from the same `r` |
| Tiling.Ceil | src/script.ts:140-141 | `Math.ceil`: the least integer at or above its argument |
| Tiling.LayoutOf | src/script.ts:137-141 | `halfL = lat / 2`, `h = sqrt(3) / 2 * lat`, and both `xCount = ceil(W / halfL) + 1` and `yCount = ceil(H / h) + 1` are at least 1 |
| Tiling.GridCoversCanvas | src/script.ts:137-152 | the last column starts at least one step `lat / 2` beyond the right edge and the last row at least one row height `h` below the bottom edge; the column two before the last and the row two before the last still start inside the canvas |
| Tiling.CellShape | src/script.ts:145-157 | per-cell step used by `GridPositionsAndRotations` and `NeighboursAlternate`: cell `(x, y)` is stamped at `(x * halfL, y * h)` with `(x + y) % 2` half-turns: 0 when `x + y` is even, π when it is odd |
| Tiling.CellStep | src/script.ts:145-157 | per-cell step used by `DrawCell` and `NthStampFacts`: the loop body for cell `(x, y)`, reading `Math.random` from position `3 * (y * (xCount + 1) + x)`, computes exactly that cell's stamp; the next cell reads three values later, and the first cell of the next row continues where the row left off |
| Tiling.RowStampsAt | src/script.ts:144 | after `n` steps the inner loop has made `n` calls, and call `x` is the one for column `x` |
| Tiling.GridStampsLength | src/script.ts:143-144 | after `m` rows the loops have made `m * (xCount + 1)` calls |
| Tiling.GridStampAt | src/script.ts:143-144 | the call for cell `(x, y)` is call number `y * (xCount + 1) + x` |
| Tiling.GridStampNumber | src/script.ts:143-144 | the grid has `(xCount + 1) * (yCount + 1)` calls, and call `k` is the one for column `k % (xCount + 1)` of row `k / (xCount + 1)` |
| Tiling.GridOrder | src/script.ts:143-144 | the whole grid has `(xCount + 1) * (yCount + 1)` calls in row-major order |
| Tiling.RedrawOrder | src/script.ts:137-144 | one `redraw` makes exactly `(xCount + 1) * (yCount + 1)` drawing calls, `y` in the outer loop and `x` in the inner loop |
| Tiling.NthStampFacts | src/script.ts:145-157 | drawing call `k` is for column `k % (xCount + 1)` of row `k / (xCount + 1)`; it has that cell's position and rotation; its scale and colour come from samples `3k`, `3k + 1` and `3k + 2`; its stroke follows `stroke` |
| Tiling.GridPositionsAndRotations | src/script.ts:145-154 | every call of a redraw is placed at `(x * lat/2, y * h)`, never offset by the board's stored point, and turned by π exactly when `x + y` is odd |
| Tiling.NeighboursAlternate | script.js:138-147 | horizontally or vertically adjacent cells have opposite orientations |
| Tiling.RedrawColoursAndScales | src/script.ts:146-148 | scale and lightness come from the same value `r`: the scale is `r * 0.3 + 0.7` with `scaleNoise` truthy and exactly 1 otherwise, and the lightness is `r * 80 + 10`; the hue and the saturation are 360 and 100 times the next two values |
| Tiling.RedrawBounds | src/script.ts:146-148 | with every random value in `[0, 1)`: a noisy scale lies in `[0.7, 1)`, a hue in `[0, 360)`, a saturation in `[0, 100)` and a lightness in `[10, 90)` |
| Tiling.RedrawStrokeGating | src/script.ts:156 | every stamp gets the stroke colour `"#000000"` when `stroke` is truthy and `null` otherwise |
| Tiling.StampCounts | src/script.ts:35-40 | one stamp contains no `fillRect`, exactly one `fill`, and one `stroke` exactly when it has a stroke colour |
| Tiling.StampsLogShape | src/script.ts:143-157 | stamps that all stroke or all do not produce 7 or 6 commands each, one `fill` each, `stroke`s accordingly, no `fillRect`, and a properly bracketed log |
| Tiling.RedrawLogShape | src/script.ts:131-159 | the log of a redraw opens with a black `fillRect` over the whole canvas, the only `fillRect` in it; then come one bracketed stamp per cell, `(xCount + 1) * (yCount + 1)` `fill`s, and as many `stroke`s when `stroke` is truthy or none when it is not |
| Tiling.SmallCanvasExample | src/script.ts:137-144 | on a 100 × 100 canvas with `lat = 60`, `xCount = 5` and `yCount = 3`, so a redraw makes 24 drawing calls |
| Mosaic.Board.constructor | src/script.ts:78-97 | the board copies the point, starts from `{lat: 50, scaleNoise: true, stroke: true}`, applies a given partial configuration, then resizes once: the canvas takes the viewport size, and the log gets the size changes followed by exactly one redraw |
| Mosaic.Board.Create | src/script.ts:80-83 | creation fails with "no 2D context" exactly when the canvas has none, and then nothing changes; otherwise it yields a new board as the constructor describes |
| Mosaic.Board.SetConfig | src/script.ts:99-112 | the new configuration is `Merge(old configuration, p)`, and nothing else changes |
| Mosaic.Board.GetConfig | src/script.ts:114-116 | returns a value equal to the current configuration; it is a value of its own, so changing it cannot change the board |
| Mosaic.Board.GetCanvasSize | src/script.ts:118-123 | returns the canvas's current width and height |
| Mosaic.Board.Redraw | src/script.ts:125-160 | appends exactly `RedrawLog` for the current configuration and canvas size: a black fill, then the stamps of the grid in row-major order; it leaves the size and the configuration unchanged |
| Mosaic.Board.DrawGrid | src/script.ts:143-159 | the outer loop appends the stamps of rows `y = 0 .. yCount` in order, each row's stamps after the previous row's |
| Mosaic.Board.DrawRow | src/script.ts:144-158 | the inner loop for row `y` appends the stamps of that row's cells `x = 0 .. xCount` in order and advances the random-value position by `3 * (xCount + 1)` |
| Mosaic.Board.DrawCell | src/script.ts:145-157 | one pass of the loop body appends exactly the stamp of cell `(x, y)` |
| Mosaic.Board.Resize | src/script.ts:162-166 | sets the canvas to the viewport size, logged as the two size changes, then performs exactly one redraw at the new size |
| Mosaic.ScriptStartup | script.js:209-216 | the start-up board on point `(100, 150)` with `{lat: 60, scaleNoise: 1, stroke: 0}` exists exactly when the canvas has a 2D context, and it stores the flags as given. The method then moves the original point to `(0, 0)`. Start-up does not do this; the move is there to check that the board kept its own copy, which stays at `(100, 150)` |

## Left out

- Page wiring is not modelled: `window.onload` beyond creating the board, `hookConfig`,
  form handling and the `Input` class. Neither are the swipe listener
  (`src/Swipe.ts`, `swipeVerticalEventListener`) and the full-screen toggle
  (`src/FullScreen.ts` `ToggleFullScreen`, `script.js` `triggerFullScreen`). They are DOM and event plumbing with no
  engine logic beyond calling `setConfig` and `redraw`.
- The constructor's `window.addEventListener("resize", …)` registration is not modelled.
  A later `resize` is the method `Resize`.
- `Drawer.drawDot` and `Drawer.clear` are not used by the mosaic and are not modelled.
- Pixels, anti-aliasing and the `Path2D` and canvas implementations are not modelled. The
  canvas is a log of the calls made on it.
- IEEE floating point is modelled as exact reals. NaN and infinities are not modelled.
  `Math.sqrt(3)` is a parameter with `sqrt3 * sqrt3 == 3`. `Math.PI` is not modelled:
  rotations are counted in half-turns.
- The `hsl(…)` colour string is not modelled. Its three numbers are kept as an `Hsl`
  colour. `"#000000"` and `"#000"` are both `BLACK`; `"#fff"` is `WHITE`.
- `Math.random` is a sequence of given values. Its distribution is not modelled. The
  redraw lemmas require enough values for the whole grid, and `RedrawBounds` requires
  them to lie in `[0, 1)`.
- Mosaic.Board.Redraw: requires `lat > 0`, which the source never checks. No caller
  passes anything else: the values are 50, 60 or the page's range input. The cases
  left out:
  - With `lat = 0`, `halfL` and `h` are 0, and the bounds become `Infinity` for a
    positive width or height, or `NaN` for a zero one. The loops never end exactly
    when the height is positive (`yCount = Infinity`). With a height of 0, `yCount`
    is `NaN` and no triangle is drawn.
  - With a negative `lat`, the bounds are finite but the geometry is inverted: the
    triangles point down and sit at negative offsets. For example, `lat = -60` on a
    100 × 100 canvas gives `xCount = -2`, so only the background is drawn.
- Mosaic.Board.Create: follows the TypeScript constructor, which throws before changing
  anything when there is no 2D context. The `script.js` constructor does not check for
  a context: it resizes the canvas and then fails inside `fill` on `null`. That
  partial-failure path is not modelled.
- Canvas2D.Drawer.DrawFigure: the stroke style is `Option<Color>`, so it is either a
  colour or `null`. An empty-string stroke style, which the source would treat as falsy,
  cannot be expressed. The engine never passes one.
- Mosaic.Board.DrawGrid, Mosaic.Board.DrawRow and Mosaic.Board.DrawCell: the source has
  one method with two nested loops. The model gives the outer loop, the inner loop and
  the loop body a method each.
  The loops, their bounds and the order of the calls are unchanged.
- Mosaic.Board.GetConfig: `structuredClone` is not modelled separately. `DrawConfig` is
  an immutable value, so every copy is independent.
- The flags `scaleNoise` and `stroke` are `null`, booleans, numbers or strings. Other
  JavaScript values (objects, `undefined` once stored) are not modelled; only their
  truthiness matters to the engine.
