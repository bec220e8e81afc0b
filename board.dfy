/** The `Board`: a canvas, a `Drawer` on its 2D context, a private copy of
    a point, and the configuration the mosaic is drawn from.

    The values `window.innerWidth`/`window.innerHeight`, the square root of
    three and the values `Math.random` returns are parameters of the
    operations that use them. */
module Mosaic {
  import opened Js
  import opened Figures
  import opened Canvas2D
  import opened Config
  import opened Tiling

  /** `new Error("Failed to get 2D context")`. */
  datatype BoardError = NoContext

  datatype Result<T> = Success(value: T) | Failure(error: BoardError)

  /** What `getCanvasSize()` returns. */
  datatype Size = Size(width: nat, height: nat)

  class Board {
    const canvas: Canvas
    const drawer: Drawer
    /** The board's own copy of the point it was created with. */
    const dot: Dot
    /** `_config`. */
    var config: DrawConfig

    /** The drawer draws on this board's canvas, which has a 2D context. */
    predicate Valid() {
      drawer.canvas == canvas && canvas.has2d
    }

    /** `new Board(canvas, dot, config)` on a canvas that has a 2D context:
        copy the point, start from the defaults, apply `config` when it is
        given, then `resize()` to a `innerWidth × innerHeight` viewport. */
    constructor (canvas: Canvas, dot: Dot, config: Option<PartialConfig>,
                 innerWidth: nat, innerHeight: nat, sqrt3: real, samples: seq<real>)
      requires canvas.has2d
      requires Merge(DEFAULT_CONFIG, config).lat > 0.0 && IsSqrt3(sqrt3)
      requires |samples| >= SamplesNeeded(Merge(DEFAULT_CONFIG, config).lat, innerWidth, innerHeight, sqrt3)
      modifies canvas
      ensures Valid() && this.canvas == canvas
      ensures this.config == Merge(DEFAULT_CONFIG, config)
      ensures fresh(this.dot) && this.dot.x == dot.x && this.dot.y == dot.y
      ensures canvas.width == innerWidth && canvas.height == innerHeight
      ensures canvas.log == old(canvas.log) + [SetWidth(innerWidth), SetHeight(innerHeight)]
                            + RedrawLog(this.config, innerWidth, innerHeight, sqrt3, samples)
    {
      this.canvas := canvas;
      drawer := new Drawer(canvas);
      var copy := dot.Clone();
      this.dot := copy;
      this.config := DEFAULT_CONFIG;
      new;
      if config.Some? {
        SetConfig(config);
      }
      Resize(innerWidth, innerHeight, sqrt3, samples);
    }

    /** The constructor's `throw` when the canvas has no 2D context: then
        nothing is created and the canvas is left as it was. */
    static method Create(canvas: Canvas, dot: Dot, config: Option<PartialConfig>,
                         innerWidth: nat, innerHeight: nat, sqrt3: real, samples: seq<real>)
      returns (r: Result<Board>)
      requires Merge(DEFAULT_CONFIG, config).lat > 0.0 && IsSqrt3(sqrt3)
      requires |samples| >= SamplesNeeded(Merge(DEFAULT_CONFIG, config).lat, innerWidth, innerHeight, sqrt3)
      modifies canvas
      ensures !canvas.has2d <==> r.Failure?
      ensures r.Failure? ==> r.error == NoContext && unchanged(canvas)
      ensures r.Success? ==>
        && fresh(r.value) && r.value.Valid() && r.value.canvas == canvas
        && r.value.config == Merge(DEFAULT_CONFIG, config)
        && fresh(r.value.dot) && r.value.dot.x == dot.x && r.value.dot.y == dot.y
        && canvas.width == innerWidth && canvas.height == innerHeight
        && canvas.log == old(canvas.log) + [SetWidth(innerWidth), SetHeight(innerHeight)]
                         + RedrawLog(r.value.config, innerWidth, innerHeight, sqrt3, samples)
    {
      if !canvas.has2d {
        return Failure(NoContext);
      }
      var b := new Board(canvas, dot, config, innerWidth, innerHeight, sqrt3, samples);
      r := Success(b);
    }

    /** `setConfig(p)`: overwrite each field `p` defines, keep the others;
        an absent `p` changes nothing. */
    method SetConfig(p: Option<PartialConfig>)
      modifies this`config
      ensures config == Merge(old(config), p)
    {
      if p.None? {
        return;
      }
      var q := p.value;
      if q.lat.Some? {
        config := config.(lat := q.lat.value);
      }
      if q.scaleNoise.Some? {
        config := config.(scaleNoise := q.scaleNoise.value);
      }
      if q.stroke.Some? {
        config := config.(stroke := q.stroke.value);
      }
    }

    /** `getConfig()`: the current configuration, as a value of its own. */
    method GetConfig() returns (c: DrawConfig)
      ensures c == config
    {
      c := config;
    }

    /** `getCanvasSize()`. */
    method GetCanvasSize() returns (s: Size)
      ensures s.width == canvas.width && s.height == canvas.height
    {
      s := Size(canvas.width, canvas.height);
    }

    /** `redraw()`: paint the canvas black, then walk the rows `y = 0 ..
        yCount` and in each the columns `x = 0 .. xCount`, stamping one
        triangle per cell. `Math.random` is read three times per cell, from
        the front of `samples`. */
    method Redraw(sqrt3: real, samples: seq<real>)
      requires Valid() && config.lat > 0.0 && IsSqrt3(sqrt3)
      requires |samples| >= SamplesNeeded(config.lat, canvas.width, canvas.height, sqrt3)
      modifies canvas`log
      ensures canvas.log == old(canvas.log) + RedrawLog(config, canvas.width, canvas.height, sqrt3, samples)
    {
      var c := GetConfig();
      var size := GetCanvasSize();
      drawer.Fill(BLACK);

      var figure := FigureTriangle(c.lat, sqrt3);
      // halfL = lat / 2, h = sqrt(3) / 2 * lat, xCount, yCount
      var l := LayoutOf(c.lat, size.width, size.height, sqrt3);
      DrawGrid(figure, c, l, samples);
      ConcatAssoc(old(canvas.log), [FillRect(BLACK, size.width, size.height)],
                  StampsLog(figure, GridStamps(c, l, samples, l.yCount + 1)));
    }

    /** The outer loop of `redraw()`: the rows `y = 0 .. yCount`, reading
        `Math.random` from the front of `samples`. */
    method DrawGrid(figure: Path, c: DrawConfig, l: Layout, samples: seq<real>)
      requires Valid() && ValidLayout(l) && |samples| >= 3 * CellCount(l)
      modifies canvas`log
      ensures canvas.log == old(canvas.log) + StampsLog(figure, GridStamps(c, l, samples, l.yCount + 1))
    {
      var next := 0;  // how many values `Math.random` has returned
      var y := 0;
      while y <= l.yCount
        invariant 0 <= y <= l.yCount + 1
        invariant next == 3 * CellIndex(l, 0, y)
        invariant canvas.log == old(canvas.log) + StampsLog(figure, GridStamps(c, l, samples, y))
      {
        next := DrawRow(figure, c, l, samples, y, next);
        StampsLogConcat(figure, GridStamps(c, l, samples, y), RowStamps(c, l, samples, y, Columns(l)));
        ConcatAssoc(old(canvas.log), StampsLog(figure, GridStamps(c, l, samples, y)),
                    StampsLog(figure, RowStamps(c, l, samples, y, Columns(l))));
        y := y + 1;
      }
    }

    /** The inner loop of `redraw()` for row `y`: the columns `x = 0 ..
        xCount`, one stamp each, reading `Math.random` from `samples[next]`
        on. Returns how many values have been read after the row. */
    method DrawRow(figure: Path, c: DrawConfig, l: Layout, samples: seq<real>, y: int, next: int)
      returns (after: int)
      requires Valid() && ValidLayout(l) && 0 <= y <= l.yCount
      requires |samples| >= 3 * CellCount(l)
      requires next == 3 * CellIndex(l, 0, y)
      modifies canvas`log
      ensures after == 3 * CellIndex(l, 0, y + 1)
      ensures canvas.log == old(canvas.log) + StampsLog(figure, RowStamps(c, l, samples, y, Columns(l)))
    {
      after := next;
      var x := 0;
      while x <= l.xCount
        invariant 0 <= x <= l.xCount + 1
        invariant after == 3 * CellIndex(l, x, y)
        invariant canvas.log == old(canvas.log) + StampsLog(figure, RowStamps(c, l, samples, y, x))
      {
        DrawCell(figure, c, l, samples, x, y, after);
        RowLogStep(figure, c, l, samples, y, x, old(canvas.log));
        after := after + 3;
        x := x + 1;
      }
      assert CellIndex(l, x, y) == CellIndex(l, 0, y + 1) by {
        assert (y + 1) * Columns(l) == y * Columns(l) + Columns(l);
      }
    }

    /** The body of the inner loop for cell `(x, y)`: read the next three
        random values from `samples[next..]`, work out the scale, rotation,
        colour and stroke, and stamp the figure at `(x * halfL, y * h)`. */
    method DrawCell(figure: Path, c: DrawConfig, l: Layout, samples: seq<real>, x: int, y: int, next: int)
      requires Valid() && ValidLayout(l) && 0 <= x <= l.xCount && 0 <= y <= l.yCount
      requires |samples| >= 3 * CellCount(l)
      requires next == 3 * CellIndex(l, x, y)
      modifies canvas`log
      ensures canvas.log == old(canvas.log) + StampCommands(figure, CellStamp(c, l, samples, x, y))
    {
      CellStep(c, l, samples, x, y, next);
      var def := (x + y) % 2;
      var r := samples[next];
      var scale := if Truthy(c.scaleNoise) then r * 0.3 + 0.7 else 1.0;
      var hue := samples[next + 1] * 360.0;
      var saturation := samples[next + 2] * 100.0;
      var color := Hsl(hue, saturation, r * 80.0 + 10.0);
      var strokeStyle := if Truthy(c.stroke) then Some(BLACK) else None;
      var p := CellAt(x, y, l.halfL, l.h);
      var at := new Dot(p.x, p.y);
      drawer.DrawFigure(figure, at, scale, def as real, color, strokeStyle);
    }

    /** `resize()`: give the canvas the viewport's size, then redraw once. */
    method Resize(innerWidth: nat, innerHeight: nat, sqrt3: real, samples: seq<real>)
      requires Valid() && config.lat > 0.0 && IsSqrt3(sqrt3)
      requires |samples| >= SamplesNeeded(config.lat, innerWidth, innerHeight, sqrt3)
      modifies canvas
      ensures canvas.width == innerWidth && canvas.height == innerHeight
      ensures canvas.log == old(canvas.log) + [SetWidth(innerWidth), SetHeight(innerHeight)]
                            + RedrawLog(config, innerWidth, innerHeight, sqrt3, samples)
    {
      canvas.width := innerWidth;
      canvas.log := canvas.log + [SetWidth(innerWidth)];
      canvas.height := innerHeight;
      canvas.log := canvas.log + [SetHeight(innerHeight)];
      Redraw(sqrt3, samples);
    }
  }

  /** The start-up sequence of `script.js`: a board on a point `(100, 150)`
      with `{lat: 60, scaleNoise: 1, stroke: 0}`. The flags are stored as
      the numbers given, and moving the original point afterwards does not
      move the board's copy. */
  method ScriptStartup(canvas: Canvas, innerWidth: nat, innerHeight: nat, sqrt3: real, samples: seq<real>)
      returns (r: Result<Board>)
    requires IsSqrt3(sqrt3)
    requires |samples| >= SamplesNeeded(60.0, innerWidth, innerHeight, sqrt3)
    modifies canvas
    ensures r.Success? <==> canvas.has2d
    ensures r.Success? ==>
      && r.value.config == DrawConfig(60.0, Number(1.0), Number(0.0))
      && r.value.dot.x == 100.0 && r.value.dot.y == 150.0
  {
    var dot := new Dot(100.0, 150.0);
    var partial := PartialConfig(Some(60.0), Some(Number(1.0)), Some(Number(0.0)));
    r := Board.Create(canvas, dot, Some(partial), innerWidth, innerHeight, sqrt3, samples);
    dot.x := 0.0;
    dot.y := 0.0;
  }
}
