/** What one `Board.redraw` draws, as functions of the configuration, the
    canvas size, the square root of three and the values `Math.random`
    returns.

    The grid has columns `x = 0 .. xCount` and rows `y = 0 .. yCount`, both
    inclusive, visited row by row. Cell number `k` in that order draws three
    random values, in this order: `r` (for scale and lightness), then the hue
    sample, then the saturation sample, so it reads `samples[3 * k]`,
    `samples[3 * k + 1]` and `samples[3 * k + 2]`. */
module Tiling {
  import opened Js
  import opened Figures
  import opened Canvas2D
  import opened Config

  /** `Math.ceil`. */
  function Ceil(q: real): (c: int)
    ensures c as real - 1.0 < q <= c as real
  {
    -((-q).Floor)
  }

  /** The grid of a redraw: the column pitch `lat / 2`, the row pitch `h`,
      and the last column and row indices (`xCount`, `yCount`). */
  datatype Layout = Layout(halfL: real, h: real, xCount: int, yCount: int)

  predicate ValidLayout(l: Layout) {
    l.halfL > 0.0 && l.h > 0.0 && l.xCount >= 0 && l.yCount >= 0
  }

  /** `xCount = Math.ceil(width / halfL) + 1`, `yCount = Math.ceil(height / h) + 1`. */
  function LayoutOf(lat: real, width: nat, height: nat, sqrt3: real): (l: Layout)
    requires lat > 0.0 && IsSqrt3(sqrt3)
    ensures ValidLayout(l) && l.xCount >= 1 && l.yCount >= 1
    ensures l.halfL == lat / 2.0 && l.h == Height(lat, sqrt3)
  {
    HeightSquared(lat, sqrt3);
    var halfL := lat / 2.0;
    var h := Height(lat, sqrt3);
    Layout(halfL, h, Ceil(width as real / halfL) + 1, Ceil(height as real / h) + 1)
  }

  function Columns(l: Layout): (n: int) {
    l.xCount + 1
  }

  /** Number of cells the two inclusive loops visit. */
  function CellCount(l: Layout): (n: int) {
    (l.xCount + 1) * (l.yCount + 1)
  }

  /** Position of cell `(x, y)` in visiting order. */
  function CellIndex(l: Layout, x: int, y: int): (k: int) {
    y * Columns(l) + x
  }

  /** How many values `Math.random` must supply for one redraw. */
  function SamplesNeeded(lat: real, width: nat, height: nat, sqrt3: real): (n: int)
    requires lat > 0.0 && IsSqrt3(sqrt3)
  {
    3 * CellCount(LayoutOf(lat, width, height, sqrt3))
  }

  lemma CellIndexBound(l: Layout, x: int, y: int)
    requires ValidLayout(l) && 0 <= x <= l.xCount && 0 <= y <= l.yCount
    ensures 0 <= CellIndex(l, x, y) < CellCount(l)
  {
    var cols := Columns(l);
    assert y * cols <= l.yCount * cols by {
      assert (l.yCount - y) * cols >= 0;
    }
    assert CellCount(l) == l.yCount * cols + cols;
  }

  /** Where cell `(x, y)` is stamped: `new Dot(x * halfL, y * h)`. */
  function CellAt(x: int, y: int, halfL: real, h: real): (p: Point) {
    Point(x as real * halfL, y as real * h)
  }

  /** The drawing call the loop body makes for cell `(x, y)`. */
  function CellStamp(c: DrawConfig, l: Layout, samples: seq<real>, x: int, y: int): (s: Stamp)
    requires ValidLayout(l) && 0 <= x <= l.xCount && 0 <= y <= l.yCount
    requires |samples| >= 3 * CellCount(l)
  {
    CellIndexBound(l, x, y);
    var k := 3 * CellIndex(l, x, y);
    var r := samples[k];
    Stamp(CellAt(x, y, l.halfL, l.h),
          if Truthy(c.scaleNoise) then r * 0.3 + 0.7 else 1.0,
          ((x + y) % 2) as real,
          Hsl(samples[k + 1] * 360.0, samples[k + 2] * 100.0, r * 80.0 + 10.0),
          if Truthy(c.stroke) then Some(BLACK) else None)
  }

  /** A cell's drawing call is upright or turned by π, has a stroke colour
      exactly when `stroke` is truthy and an HSL fill colour. Without scale
      noise its scale is 1; with scale noise its scale and lightness come
      from the same random value, so the lightness is fixed by the scale. */
  lemma CellStampFacts(c: DrawConfig, l: Layout, samples: seq<real>, x: int, y: int)
    requires ValidLayout(l) && 0 <= x <= l.xCount && 0 <= y <= l.yCount
    requires |samples| >= 3 * CellCount(l)
    ensures var s := CellStamp(c, l, samples, x, y);
      && (s.halfTurns == 0.0 || s.halfTurns == 1.0)
      && (s.stroke.Some? <==> Truthy(c.stroke))
      && s.color.Hsl?
      && (!Truthy(c.scaleNoise) ==> s.scale == 1.0)
      && (Truthy(c.scaleNoise) ==> s.color.lightness == (s.scale - 0.7) * 800.0 / 3.0 + 10.0)
  {
    assert (x + y) % 2 == 0 || (x + y) % 2 == 1;
  }

  /** The values of the loop body for cell `(x, y)`, reading the samples
      from `next = 3 * CellIndex(l, x, y)` on, are those of its stamp; the
      next cell reads from `next + 3`, and the cell after the last of a row
      is the first of the next row. */
  lemma CellStep(c: DrawConfig, l: Layout, samples: seq<real>, x: int, y: int, next: int)
    requires ValidLayout(l) && 0 <= x <= l.xCount && 0 <= y <= l.yCount
    requires |samples| >= 3 * CellCount(l)
    requires next == 3 * CellIndex(l, x, y)
    ensures 0 <= next && next + 2 < |samples|
    ensures next + 3 == 3 * CellIndex(l, x + 1, y)
    ensures x == l.xCount ==> next + 3 == 3 * CellIndex(l, 0, y + 1)
    ensures var r := samples[next];
      CellStamp(c, l, samples, x, y) ==
        Stamp(CellAt(x, y, l.halfL, l.h),
              if Truthy(c.scaleNoise) then r * 0.3 + 0.7 else 1.0,
              ((x + y) % 2) as real,
              Hsl(samples[next + 1] * 360.0, samples[next + 2] * 100.0, r * 80.0 + 10.0),
              if Truthy(c.stroke) then Some(BLACK) else None)
  {
    CellIndexBound(l, x, y);
    assert (y + 1) * Columns(l) == y * Columns(l) + Columns(l);
  }

  /** Cell `(x, y)` is stamped at `(x * halfL, y * h)`, upright when
      `x + y` is even and turned by π when it is odd. */
  lemma CellShape(c: DrawConfig, l: Layout, samples: seq<real>, x: int, y: int)
    requires ValidLayout(l) && 0 <= x <= l.xCount && 0 <= y <= l.yCount
    requires |samples| >= 3 * CellCount(l)
    ensures CellStamp(c, l, samples, x, y).at == Point(x as real * l.halfL, y as real * l.h)
    ensures CellStamp(c, l, samples, x, y).halfTurns == if (x + y) % 2 == 0 then 0.0 else 1.0
  {
    assert (x + y) % 2 == 0 || (x + y) % 2 == 1;
  }

  /** The calls of the inner loop for row `y` once it has done `n` cells. */
  function RowStamps(c: DrawConfig, l: Layout, samples: seq<real>, y: int, n: int): (row: seq<Stamp>)
    requires ValidLayout(l) && 0 <= y <= l.yCount && 0 <= n <= Columns(l)
    requires |samples| >= 3 * CellCount(l)
  {
    if n == 0 then [] else RowStamps(c, l, samples, y, n - 1) + [CellStamp(c, l, samples, n - 1, y)]
  }

  /** One more cell of row `y` appends that cell's stamp to the log. */
  lemma RowLogStep(figure: Path, c: DrawConfig, l: Layout, samples: seq<real>, y: int, x: int, before: seq<Command>)
    requires ValidLayout(l) && 0 <= y <= l.yCount && 0 <= x <= l.xCount
    requires |samples| >= 3 * CellCount(l)
    ensures before + StampsLog(figure, RowStamps(c, l, samples, y, x)) + StampCommands(figure, CellStamp(c, l, samples, x, y))
         == before + StampsLog(figure, RowStamps(c, l, samples, y, x + 1))
  {
    var row := RowStamps(c, l, samples, y, x);
    var stamp := CellStamp(c, l, samples, x, y);
    StampsLogAppend(figure, row, stamp);
    ConcatAssoc(before, StampsLog(figure, row), StampCommands(figure, stamp));
  }

  /** The calls of the outer loop once it has done `m` whole rows. */
  function GridStamps(c: DrawConfig, l: Layout, samples: seq<real>, m: int): (grid: seq<Stamp>)
    requires ValidLayout(l) && 0 <= m <= l.yCount + 1
    requires |samples| >= 3 * CellCount(l)
  {
    if m == 0 then [] else GridStamps(c, l, samples, m - 1) + RowStamps(c, l, samples, m - 1, Columns(l))
  }

  /** Every drawing call of one redraw, in order. */
  function RedrawStamps(c: DrawConfig, width: nat, height: nat, sqrt3: real, samples: seq<real>): (stamps: seq<Stamp>)
    requires c.lat > 0.0 && IsSqrt3(sqrt3)
    requires |samples| >= SamplesNeeded(c.lat, width, height, sqrt3)
  {
    var l := LayoutOf(c.lat, width, height, sqrt3);
    GridStamps(c, l, samples, l.yCount + 1)
  }

  /** Everything one redraw appends to the canvas log: a black background
      over the whole canvas, then one stamp of the triangle per cell. */
  function RedrawLog(c: DrawConfig, width: nat, height: nat, sqrt3: real, samples: seq<real>): (log: seq<Command>)
    requires c.lat > 0.0 && IsSqrt3(sqrt3)
    requires |samples| >= SamplesNeeded(c.lat, width, height, sqrt3)
  {
    [FillRect(BLACK, width, height)]
      + StampsLog(FigureTriangle(c.lat, sqrt3), RedrawStamps(c, width, height, sqrt3, samples))
  }

  // ---------------------------------------------------------------------
  // Order and number of the stamps

  lemma {:induction false} RowStampsAt(c: DrawConfig, l: Layout, samples: seq<real>, y: int, n: int)
    requires ValidLayout(l) && 0 <= y <= l.yCount && 0 <= n <= Columns(l)
    requires |samples| >= 3 * CellCount(l)
    ensures |RowStamps(c, l, samples, y, n)| == n
    ensures forall x :: 0 <= x < n ==> RowStamps(c, l, samples, y, n)[x] == CellStamp(c, l, samples, x, y)
    decreases n
  {
    if n > 0 {
      RowStampsAt(c, l, samples, y, n - 1);
    }
  }

  lemma MulMonotone(a: int, b: int, c: int)
    requires a <= b && c >= 0
    ensures a * c <= b * c
  {
    assert b * c - a * c == (b - a) * c;
  }

  lemma MulCancel(a: int, b: int, c: int)
    requires c > 0 && a * c < b * c
    ensures a < b
  {
  }

  /** Row-major arithmetic: cell `(x, y)` of a grid `cols` wide lies in the
      first `m` rows when `y < m`, and in the last of them exactly when
      `y == m - 1`. */
  lemma RowMajorIndex(cols: int, m: int, x: int, y: int)
    requires 0 <= x < cols && 0 <= y < m
    ensures 0 <= y * cols + x < m * cols
    ensures (m - 1) * cols + cols == m * cols
    ensures y < m - 1 ==> y * cols + x < (m - 1) * cols
    ensures y == m - 1 ==> y * cols + x == (m - 1) * cols + x
  {
    assert (m - 1) * cols + cols == m * cols;
    MulMonotone(0, y, cols);
    MulMonotone(y, m - 1, cols);
    if y < m - 1 {
      MulMonotone(y, m - 2, cols);
      assert (m - 2) * cols + cols == (m - 1) * cols;
    }
  }

  /** Splitting an index of a grid `cols` wide into column and row. */
  lemma RowMajorSplit(k: int, cols: int, rows: int)
    requires cols > 0 && 0 <= k < rows * cols
    ensures 0 <= k % cols < cols && 0 <= k / cols < rows
    ensures (k / cols) * cols + k % cols == k
  {
    var y := k / cols;
    assert y * cols + k % cols == k;
    assert y * cols <= k;
    MulCancel(y, rows, cols);
  }

  lemma {:induction false} GridStampsLength(c: DrawConfig, l: Layout, samples: seq<real>, m: int)
    requires ValidLayout(l) && 0 <= m <= l.yCount + 1
    requires |samples| >= 3 * CellCount(l)
    ensures |GridStamps(c, l, samples, m)| == m * Columns(l)
    decreases m
  {
    if m > 0 {
      GridStampsLength(c, l, samples, m - 1);
      RowStampsAt(c, l, samples, m - 1, Columns(l));
      assert (m - 1) * Columns(l) + Columns(l) == m * Columns(l);
    }
  }

  /** After `m` rows, the call for cell `(x, y)` of one of those rows sits
      at its row-major position. */
  lemma {:induction false} GridStampAt(c: DrawConfig, l: Layout, samples: seq<real>, m: int, x: int, y: int)
    requires ValidLayout(l) && 0 <= m <= l.yCount + 1
    requires 0 <= x <= l.xCount && 0 <= y < m
    requires |samples| >= 3 * CellCount(l)
    ensures 0 <= CellIndex(l, x, y) < |GridStamps(c, l, samples, m)|
    ensures GridStamps(c, l, samples, m)[CellIndex(l, x, y)] == CellStamp(c, l, samples, x, y)
    decreases m
  {
    var cols := Columns(l);
    GridStampsLength(c, l, samples, m - 1);
    RowStampsAt(c, l, samples, m - 1, cols);
    RowMajorIndex(cols, m, x, y);
    if y < m - 1 {
      GridStampAt(c, l, samples, m - 1, x, y);
    }
  }

  /** The call the loops make `k`-th: the one for column `k % (xCount + 1)`
      of row `k / (xCount + 1)`. */
  function NthStamp(c: DrawConfig, l: Layout, samples: seq<real>, k: int): (s: Stamp)
    requires ValidLayout(l) && |samples| >= 3 * CellCount(l)
    requires 0 <= k < CellCount(l)
  {
    assert CellCount(l) == (l.yCount + 1) * Columns(l);
    RowMajorSplit(k, Columns(l), l.yCount + 1);
    CellStamp(c, l, samples, k % Columns(l), k / Columns(l))
  }

  lemma GridStampNumber(c: DrawConfig, l: Layout, samples: seq<real>, k: int)
    requires ValidLayout(l) && |samples| >= 3 * CellCount(l)
    requires 0 <= k < CellCount(l)
    ensures |GridStamps(c, l, samples, l.yCount + 1)| == CellCount(l)
    ensures GridStamps(c, l, samples, l.yCount + 1)[k] == NthStamp(c, l, samples, k)
  {
    var cols, rows := Columns(l), l.yCount + 1;
    assert CellCount(l) == rows * cols;
    GridStampsLength(c, l, samples, rows);
    RowMajorSplit(k, cols, rows);
    var x, y := k % cols, k / cols;
    assert CellIndex(l, x, y) == k;
    GridStampAt(c, l, samples, rows, x, y);
  }

  /** All the calls of a grid, in row-major order. */
  lemma GridOrder(c: DrawConfig, l: Layout, samples: seq<real>)
    requires ValidLayout(l) && |samples| >= 3 * CellCount(l)
    ensures var stamps := GridStamps(c, l, samples, l.yCount + 1);
      && |stamps| == CellCount(l)
      && forall k :: 0 <= k < |stamps| ==> stamps[k] == NthStamp(c, l, samples, k)
  {
    GridStampNumber(c, l, samples, 0);
    forall k | 0 <= k < CellCount(l)
      ensures GridStamps(c, l, samples, l.yCount + 1)[k] == NthStamp(c, l, samples, k)
    {
      GridStampNumber(c, l, samples, k);
    }
  }

  /** Row-major order: `redraw` makes exactly `(xCount + 1) * (yCount + 1)`
      drawing calls, and call number `k` is the one for column
      `k % (xCount + 1)` of row `k / (xCount + 1)`. */
  lemma RedrawOrder(c: DrawConfig, width: nat, height: nat, sqrt3: real, samples: seq<real>)
    requires c.lat > 0.0 && IsSqrt3(sqrt3)
    requires |samples| >= SamplesNeeded(c.lat, width, height, sqrt3)
    ensures var l := LayoutOf(c.lat, width, height, sqrt3);
      var stamps := RedrawStamps(c, width, height, sqrt3, samples);
      && |stamps| == (l.xCount + 1) * (l.yCount + 1)
      && forall k :: 0 <= k < |stamps| ==> stamps[k] == NthStamp(c, l, samples, k)
  {
    GridOrder(c, LayoutOf(c.lat, width, height, sqrt3), samples);
  }

  /** What the `k`-th drawing call carries. */
  lemma NthStampFacts(c: DrawConfig, l: Layout, samples: seq<real>, k: int)
    requires ValidLayout(l) && |samples| >= 3 * CellCount(l)
    requires 0 <= k < CellCount(l)
    ensures var s, x, y := NthStamp(c, l, samples, k), k % Columns(l), k / Columns(l);
      && 0 <= x <= l.xCount && 0 <= y <= l.yCount && k == y * Columns(l) + x
      && s.at == CellAt(x, y, l.halfL, l.h)
      && s.halfTurns == (if (x + y) % 2 == 0 then 0.0 else 1.0)
      && s.scale == (if Truthy(c.scaleNoise) then samples[3 * k] * 0.3 + 0.7 else 1.0)
      && s.color == Hsl(samples[3 * k + 1] * 360.0, samples[3 * k + 2] * 100.0, samples[3 * k] * 80.0 + 10.0)
      && s.stroke == (if Truthy(c.stroke) then Some(BLACK) else None)
  {
    var cols := Columns(l);
    assert CellCount(l) == (l.yCount + 1) * cols;
    RowMajorSplit(k, cols, l.yCount + 1);
    var x, y := k % cols, k / cols;
    assert CellIndex(l, x, y) == k;
    CellStep(c, l, samples, x, y, 3 * k);
    assert (x + y) % 2 == 0 || (x + y) % 2 == 1;
  }

  // ---------------------------------------------------------------------
  // What each stamp looks like

  /** The call for cell `(x, y)`, number `y * (xCount + 1) + x` in the
      order of the loops, stamps at `(x * halfL, y * h)` (never offset by
      the board's own point); it is upright when `x + y` is even and turned
      by π when it is odd. With `l = LayoutOf(lat, …)`, `halfL` is `lat / 2`
      and `h` the triangle's height. */
  lemma GridPositionsAndRotations(c: DrawConfig, l: Layout, samples: seq<real>)
    requires ValidLayout(l) && |samples| >= 3 * CellCount(l)
    ensures var stamps := GridStamps(c, l, samples, l.yCount + 1);
      forall x, y :: 0 <= x <= l.xCount && 0 <= y <= l.yCount ==>
        && 0 <= CellIndex(l, x, y) < |stamps|
        && stamps[CellIndex(l, x, y)].at == Point(x as real * l.halfL, y as real * l.h)
        && stamps[CellIndex(l, x, y)].halfTurns == (if (x + y) % 2 == 0 then 0.0 else 1.0)
  {
    var stamps := GridStamps(c, l, samples, l.yCount + 1);
    forall x, y | 0 <= x <= l.xCount && 0 <= y <= l.yCount
      ensures 0 <= CellIndex(l, x, y) < |stamps|
      ensures stamps[CellIndex(l, x, y)].at == Point(x as real * l.halfL, y as real * l.h)
      ensures stamps[CellIndex(l, x, y)].halfTurns == (if (x + y) % 2 == 0 then 0.0 else 1.0)
    {
      GridStampAt(c, l, samples, l.yCount + 1, x, y);
      CellShape(c, l, samples, x, y);
    }
  }

  /** Neighbouring cells, side by side or one above the other, point in
      opposite directions. */
  lemma NeighboursAlternate(c: DrawConfig, l: Layout, samples: seq<real>, x: int, y: int)
    requires ValidLayout(l) && 0 <= x <= l.xCount && 0 <= y <= l.yCount
    requires |samples| >= 3 * CellCount(l)
    ensures x < l.xCount ==>
      CellStamp(c, l, samples, x, y).halfTurns + CellStamp(c, l, samples, x + 1, y).halfTurns == 1.0
    ensures y < l.yCount ==>
      CellStamp(c, l, samples, x, y).halfTurns + CellStamp(c, l, samples, x, y + 1).halfTurns == 1.0
  {
    CellShape(c, l, samples, x, y);
    if x < l.xCount {
      CellShape(c, l, samples, x + 1, y);
    }
    if y < l.yCount {
      CellShape(c, l, samples, x, y + 1);
    }
  }

  /** Scale and lightness come from the same random value `r`, the first
      of the cell's three: the scale is `r * 0.3 + 0.7` with scale noise on
      and exactly `1` with it off, the lightness is `r * 80 + 10`; hue and
      saturation are `360` and `100` times the next two values. */
  lemma RedrawColoursAndScales(c: DrawConfig, width: nat, height: nat, sqrt3: real, samples: seq<real>)
    requires c.lat > 0.0 && IsSqrt3(sqrt3)
    requires |samples| >= SamplesNeeded(c.lat, width, height, sqrt3)
    ensures var stamps := RedrawStamps(c, width, height, sqrt3, samples);
      && 3 * |stamps| <= |samples|
      && forall k :: 0 <= k < |stamps| ==>
        && stamps[k].scale == (if Truthy(c.scaleNoise) then samples[3 * k] * 0.3 + 0.7 else 1.0)
        && stamps[k].color == Hsl(samples[3 * k + 1] * 360.0, samples[3 * k + 2] * 100.0, samples[3 * k] * 80.0 + 10.0)
  {
    var l := LayoutOf(c.lat, width, height, sqrt3);
    var stamps := RedrawStamps(c, width, height, sqrt3, samples);
    RedrawOrder(c, width, height, sqrt3, samples);
    forall k | 0 <= k < |stamps|
      ensures stamps[k].scale == (if Truthy(c.scaleNoise) then samples[3 * k] * 0.3 + 0.7 else 1.0)
      ensures stamps[k].color == Hsl(samples[3 * k + 1] * 360.0, samples[3 * k + 2] * 100.0, samples[3 * k] * 80.0 + 10.0)
    {
      NthStampFacts(c, l, samples, k);
    }
  }

  /** With every random value in `[0, 1)`: a noisy scale lies in
      `[0.7, 1)`, a lightness in `[10, 90)`, a hue in `[0, 360)` and a
      saturation in `[0, 100)`. */
  lemma RedrawBounds(c: DrawConfig, width: nat, height: nat, sqrt3: real, samples: seq<real>)
    requires c.lat > 0.0 && IsSqrt3(sqrt3)
    requires |samples| >= SamplesNeeded(c.lat, width, height, sqrt3)
    requires forall i :: 0 <= i < |samples| ==> 0.0 <= samples[i] < 1.0
    ensures var stamps := RedrawStamps(c, width, height, sqrt3, samples);
      forall k :: 0 <= k < |stamps| ==>
        && (if Truthy(c.scaleNoise) then 0.7 <= stamps[k].scale < 1.0 else stamps[k].scale == 1.0)
        && stamps[k].color.Hsl?
        && 0.0 <= stamps[k].color.hue < 360.0
        && 0.0 <= stamps[k].color.saturation < 100.0
        && 10.0 <= stamps[k].color.lightness < 90.0
  {
    var stamps := RedrawStamps(c, width, height, sqrt3, samples);
    RedrawColoursAndScales(c, width, height, sqrt3, samples);
    forall k | 0 <= k < |stamps|
      ensures Truthy(c.scaleNoise) ==> 0.7 <= stamps[k].scale < 1.0
      ensures 0.0 <= stamps[k].color.hue < 360.0
      ensures 0.0 <= stamps[k].color.saturation < 100.0
      ensures 10.0 <= stamps[k].color.lightness < 90.0
    {
      var r, hue, sat := samples[3 * k], samples[3 * k + 1], samples[3 * k + 2];
      assert 0.0 <= r < 1.0 && 0.0 <= hue < 1.0 && 0.0 <= sat < 1.0;
    }
  }

  /** Every stamp gets the stroke colour `#000000` when `stroke` is truthy
      and `null` (no stroke) otherwise. */
  lemma RedrawStrokeGating(c: DrawConfig, width: nat, height: nat, sqrt3: real, samples: seq<real>)
    requires c.lat > 0.0 && IsSqrt3(sqrt3)
    requires |samples| >= SamplesNeeded(c.lat, width, height, sqrt3)
    ensures var stamps := RedrawStamps(c, width, height, sqrt3, samples);
      forall k :: 0 <= k < |stamps| ==>
        stamps[k].stroke == (if Truthy(c.stroke) then Some(BLACK) else None)
  {
    var l := LayoutOf(c.lat, width, height, sqrt3);
    var stamps := RedrawStamps(c, width, height, sqrt3, samples);
    RedrawOrder(c, width, height, sqrt3, samples);
    forall k | 0 <= k < |stamps|
      ensures stamps[k].stroke == (if Truthy(c.stroke) then Some(BLACK) else None)
    {
      NthStampFacts(c, l, samples, k);
    }
  }

  // ---------------------------------------------------------------------
  // Coverage of the canvas

  /** The grid reaches past the canvas: the last column starts at least
      half a tile beyond the right edge and the last row at least one row
      beyond the bottom edge; one column or row fewer would not reach it. */
  lemma GridCoversCanvas(lat: real, width: nat, height: nat, sqrt3: real)
    requires lat > 0.0 && IsSqrt3(sqrt3)
    ensures var l := LayoutOf(lat, width, height, sqrt3);
      && l.xCount as real * l.halfL >= width as real + l.halfL
      && (l.xCount - 2) as real * l.halfL < width as real
      && l.yCount as real * l.h >= height as real + l.h
      && (l.yCount - 2) as real * l.h < height as real
  {
    var l := LayoutOf(lat, width, height, sqrt3);
    CeilScaled(width as real, l.halfL);
    CeilScaled(height as real, l.h);
  }

  /** `(ceil(w / step) + 1) * step` is at least `w + step`, and one step
      less falls short of `w`. */
  lemma CeilScaled(w: real, step: real)
    requires step > 0.0
    ensures (Ceil(w / step) + 1) as real * step >= w + step
    ensures (Ceil(w / step) - 1) as real * step < w
  {
    var q := w / step;
    var below := (Ceil(q) - 1) as real;
    assert q * step == w;
    assert (q - below) * step > 0.0;
    assert (q - below) * step == q * step - below * step;
    assert below * step < w;
    assert (Ceil(w / step) - 1) as real == below;
    var c := Ceil(q) as real;
    assert (c - q) * step >= 0.0;
    assert (Ceil(q) + 1) as real * step == c * step + step;
  }

  // ---------------------------------------------------------------------
  // The command log

  predicate IsFillRect(cmd: Command) { cmd.FillRect? }
  predicate IsFillPath(cmd: Command) { cmd.FillPath? }
  predicate IsStrokePath(cmd: Command) { cmd.StrokePath? }

  /** The stamps of one redraw all stroke, or none does. */
  predicate UniformStroke(stamps: seq<Stamp>, stroke: bool) {
    forall i :: 0 <= i < |stamps| ==> stamps[i].stroke.Some? == stroke
  }

  lemma {:induction false} StampsLogShape(figure: Path, stamps: seq<Stamp>, stroke: bool)
    requires UniformStroke(stamps, stroke)
    ensures var log := StampsLog(figure, stamps);
      && |log| == |stamps| * (if stroke then 7 else 6)
      && CountWhere(log, IsFillRect) == 0
      && CountWhere(log, IsFillPath) == |stamps|
      && CountWhere(log, IsStrokePath) == (if stroke then |stamps| else 0)
      && Bracketed(log)
    decreases |stamps|
  {
    if stamps != [] {
      var init := stamps[..|stamps| - 1];
      var last := stamps[|stamps| - 1];
      StampsLogShape(figure, init, stroke);
      var a := StampsLog(figure, init);
      var b := StampCommands(figure, last);
      CountWhereAppend(a, b, IsFillRect);
      CountWhereAppend(a, b, IsFillPath);
      CountWhereAppend(a, b, IsStrokePath);
      StampCounts(figure, last);
      StampBracketed(figure, last);
      BracketedAppend(a, b);
    }
  }

  lemma StampCounts(figure: Path, s: Stamp)
    ensures var cmds := StampCommands(figure, s);
      && CountWhere(cmds, IsFillRect) == 0
      && CountWhere(cmds, IsFillPath) == 1
      && CountWhere(cmds, IsStrokePath) == (if s.stroke.Some? then 1 else 0)
  {
    var head := [Save, Translate(s.at.x, s.at.y), Rotate(s.halfTurns), Scale(s.scale, s.scale)];
    var fill := [FillPath(s.color, figure)];
    var stroke := if s.stroke.Some? then [StrokePath(s.stroke.value, figure)] else [];
    var cmds := StampCommands(figure, s);
    assert cmds == head + fill + stroke + [Restore];
    CountWhereAppend(head + fill + stroke, [Restore], IsFillRect);
    CountWhereAppend(head + fill, stroke, IsFillRect);
    CountWhereAppend(head, fill, IsFillRect);
    CountWhereAppend(head + fill + stroke, [Restore], IsFillPath);
    CountWhereAppend(head + fill, stroke, IsFillPath);
    CountWhereAppend(head, fill, IsFillPath);
    CountWhereAppend(head + fill + stroke, [Restore], IsStrokePath);
    CountWhereAppend(head + fill, stroke, IsStrokePath);
    CountWhereAppend(head, fill, IsStrokePath);
    NoneCounted(head, IsFillRect);
    NoneCounted(head, IsFillPath);
    NoneCounted(head, IsStrokePath);
    NoneCounted([Restore], IsFillRect);
    NoneCounted([Restore], IsFillPath);
    NoneCounted([Restore], IsStrokePath);
    NoneCounted(fill, IsFillRect);
    NoneCounted(fill, IsStrokePath);
    NoneCounted(stroke, IsFillRect);
    NoneCounted(stroke, IsFillPath);
    assert fill[..0] == [];
    assert stroke != [] ==> stroke[..0] == [];
  }

  lemma {:induction false} NoneCounted(log: seq<Command>, f: Command -> bool)
    requires forall i :: 0 <= i < |log| ==> !f(log[i])
    ensures CountWhere(log, f) == 0
    decreases |log|
  {
    if log != [] {
      NoneCounted(log[..|log| - 1], f);
    }
  }

  lemma BracketedAppend(a: seq<Command>, b: seq<Command>)
    requires Bracketed(a) && Bracketed(b)
    ensures Bracketed(a + b)
  {
    DepthAppend(a, b);
    forall i | 0 <= i <= |a + b|
      ensures 0 <= Depth((a + b)[..i]) <= 1
    {
      if i <= |a| {
        assert (a + b)[..i] == a[..i];
      } else {
        assert (a + b)[..i] == a + b[..i - |a|];
        DepthAppend(a, b[..i - |a|]);
      }
    }
  }

  /** The log of a redraw: first the black background over the whole
      canvas (the only `fillRect`), then for each of the
      `(xCount + 1) * (yCount + 1)` cells one `save`…`restore` bracket that
      always fills the triangle and strokes it exactly when `stroke` is
      truthy. */
  lemma RedrawLogShape(c: DrawConfig, width: nat, height: nat, sqrt3: real, samples: seq<real>)
    requires c.lat > 0.0 && IsSqrt3(sqrt3)
    requires |samples| >= SamplesNeeded(c.lat, width, height, sqrt3)
    ensures var l := LayoutOf(c.lat, width, height, sqrt3);
      var n := (l.xCount + 1) * (l.yCount + 1);
      var log := RedrawLog(c, width, height, sqrt3, samples);
      && log[0] == FillRect(BLACK, width, height)
      && |log| == 1 + n * (if Truthy(c.stroke) then 7 else 6)
      && CountWhere(log, IsFillRect) == 1
      && CountWhere(log, IsFillPath) == n
      && CountWhere(log, IsStrokePath) == (if Truthy(c.stroke) then n else 0)
      && Bracketed(log[1..])
  {
    var stamps := RedrawStamps(c, width, height, sqrt3, samples);
    var figure := FigureTriangle(c.lat, sqrt3);
    var head := [FillRect(BLACK, width, height)];
    RedrawOrder(c, width, height, sqrt3, samples);
    RedrawStrokeGating(c, width, height, sqrt3, samples);
    StampsLogShape(figure, stamps, Truthy(c.stroke));
    var log := RedrawLog(c, width, height, sqrt3, samples);
    assert log == head + StampsLog(figure, stamps);
    assert log[1..] == StampsLog(figure, stamps);
    CountWhereAppend(head, StampsLog(figure, stamps), IsFillRect);
    CountWhereAppend(head, StampsLog(figure, stamps), IsFillPath);
    CountWhereAppend(head, StampsLog(figure, stamps), IsStrokePath);
    assert head[..0] == [];
  }

  // ---------------------------------------------------------------------
  // A concrete case

  /** A 100 × 100 canvas with `lat = 60`: `xCount = ceil(100 / 30) + 1 = 5`
      and `yCount = ceil(100 / 51.96…) + 1 = 3`, so the inclusive loops make
      `6 * 4 = 24` drawing calls. */
  lemma SmallCanvasExample(sqrt3: real)
    requires IsSqrt3(sqrt3)
    ensures var l := LayoutOf(60.0, 100, 100, sqrt3);
      l.xCount == 5 && l.yCount == 3 && CellCount(l) == 24
  {
    var l := LayoutOf(60.0, 100, 100, sqrt3);
    // 5/3 < sqrt(3) < 10/3, since (5/3)^2 < 3 < (10/3)^2
    assert (sqrt3 - 5.0 / 3.0) * (sqrt3 + 5.0 / 3.0) == 2.0 / 9.0;
    assert (10.0 / 3.0 - sqrt3) * (10.0 / 3.0 + sqrt3) == 73.0 / 9.0;
    assert 50.0 < l.h < 100.0;
    var q := 100.0 / l.h;
    assert q * l.h == 100.0;
    assert 1.0 < q <= 2.0;
    assert Ceil(100.0 / 30.0) == 4;
  }
}
