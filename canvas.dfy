/** The drawing surface, seen as an append-only log of the commands the
    engine issues to it, and the `Drawer` that wraps it.

    Pixels are not modelled: a canvas is its pixel size, whether it can give
    out a 2D context, and the log of calls made on it. Setting the
    `fillStyle` or `strokeStyle` and then calling `fill`/`stroke`/`fillRect`
    is logged as one command carrying the style. */
module Canvas2D {
  import opened Js
  import opened Figures

  /** Colours by their numeric components: `#rrggbb`/`#rgb` literals and
      the `hsl(h, s%, l%)` strings of the tiles. */
  datatype Color =
    | Rgb(red: int, green: int, blue: int)
    | Hsl(hue: real, saturation: real, lightness: real)

  /** `"#000000"` and its short form `"#000"`. */
  const BLACK: Color := Rgb(0, 0, 0)
  /** `"#fff"`. */
  const WHITE: Color := Rgb(255, 255, 255)

  datatype Command =
    | SetWidth(width: nat)                              // canvas.width = …
    | SetHeight(height: nat)                            // canvas.height = …
    | FillRect(style: Color, width: nat, height: nat)   // fillStyle = …; fillRect(0, 0, w, h)
    | Save
    | Translate(dx: real, dy: real)
    | Rotate(halfTurns: real)                           // rotate(halfTurns * π)
    | Scale(sx: real, sy: real)
    | FillPath(style: Color, path: Path)                // fillStyle = …; fill(path)
    | StrokePath(style: Color, path: Path)              // strokeStyle = …; stroke(path)
    | Restore

  /** The arguments of one call of the closure that `toDrawFigure` returns:
      where, how large, how far turned (in multiples of π), the fill colour
      and the stroke colour (`None` for `null`). */
  datatype Stamp = Stamp(at: Point, scale: real, halfTurns: real, color: Color, stroke: Option<Color>)

  /** The commands one call of the drawing closure issues. */
  function StampCommands(figure: Path, s: Stamp): (cmds: seq<Command>)
    ensures |cmds| == if s.stroke.Some? then 7 else 6
    ensures cmds[0] == Save && cmds[|cmds| - 1] == Restore
    ensures cmds[4] == FillPath(s.color, figure)
    ensures s.stroke.Some? <==> cmds[5].StrokePath?
    ensures s.stroke.Some? ==> cmds[5] == StrokePath(s.stroke.value, figure)
  {
    [Save, Translate(s.at.x, s.at.y), Rotate(s.halfTurns), Scale(s.scale, s.scale), FillPath(s.color, figure)]
    + (if s.stroke.Some? then [StrokePath(s.stroke.value, figure)] else [])
    + [Restore]
  }

  /** Between `save` and `fill`, a stamp moves the origin to its point,
      turns by its half-turns and scales both axes by its scale, in that
      order. */
  lemma StampTransforms(figure: Path, s: Stamp)
    ensures StampCommands(figure, s)[1..4] ==
      [Translate(s.at.x, s.at.y), Rotate(s.halfTurns), Scale(s.scale, s.scale)]
  {
  }

  /** The commands of a sequence of stamps, one after the other. */
  function StampsLog(figure: Path, stamps: seq<Stamp>): (log: seq<Command>)
  {
    if stamps == [] then []
    else StampsLog(figure, stamps[..|stamps| - 1]) + StampCommands(figure, stamps[|stamps| - 1])
  }

  /** How many commands of `log` satisfy `f`. */
  function CountWhere(log: seq<Command>, f: Command -> bool): (n: nat)
  {
    if log == [] then 0
    else CountWhere(log[..|log| - 1], f) + (if f(log[|log| - 1]) then 1 else 0)
  }

  /** Number of `save`s not yet matched by a `restore`. */
  function Depth(log: seq<Command>): (d: int)
  {
    if log == [] then 0
    else Depth(log[..|log| - 1]) + (match log[|log| - 1] case Save => 1 case Restore => -1 case _ => 0)
  }

  /** Every `restore` closes an earlier `save`, no two `save`s are open at
      once, and nothing is left open at the end. */
  predicate Bracketed(log: seq<Command>) {
    && (forall i :: 0 <= i <= |log| ==> 0 <= Depth(log[..i]) <= 1)
    && Depth(log) == 0
  }

  /** An HTML canvas element together with its 2D context. */
  class Canvas {
    var width: nat
    var height: nat
    /** Whether `getContext("2d")` returns a context. */
    const has2d: bool
    /** Everything drawn so far, oldest first. */
    var log: seq<Command>

    constructor (width: nat, height: nat, has2d: bool)
      ensures this.width == width && this.height == height
      ensures this.has2d == has2d && log == []
    {
      this.width := width;
      this.height := height;
      this.has2d := has2d;
      log := [];
    }
  }

  /** `Drawer`: the engine's only access to the 2D context. */
  class Drawer {
    const canvas: Canvas

    constructor (canvas: Canvas)
      ensures this.canvas == canvas
    {
      this.canvas := canvas;
    }

    /** `fill(color)`: paint the whole canvas. */
    method Fill(color: Color)
      modifies canvas`log
      ensures canvas.log == old(canvas.log) + [FillRect(color, canvas.width, canvas.height)]
    {
      canvas.log := canvas.log + [FillRect(color, canvas.width, canvas.height)];
    }

    /** `toDrawFigure(figure)(dot, scale, rotation, color, strokeStyle)`,
        with the closure's default arguments: draw `figure` moved to `dot`,
        turned by `rotation` half-turns and scaled by `scale`, inside a
        `save`…`restore` pair; stroke it only for a stroke colour. */
    method DrawFigure(figure: Path, dot: Dot, scale: real := 1.0, rotation: real := 0.0,
                      color: Color := WHITE, strokeStyle: Option<Color> := Some(BLACK))
      modifies canvas`log
      ensures canvas.log == old(canvas.log) + StampCommands(figure, Stamp(Point(dot.x, dot.y), scale, rotation, color, strokeStyle))
    {
      canvas.log := canvas.log + [Save];
      canvas.log := canvas.log + [Translate(dot.x, dot.y)];
      canvas.log := canvas.log + [Rotate(rotation)];
      canvas.log := canvas.log + [Scale(scale, scale)];
      canvas.log := canvas.log + [FillPath(color, figure)];
      if strokeStyle.Some? {
        canvas.log := canvas.log + [StrokePath(strokeStyle.value, figure)];
      }
      canvas.log := canvas.log + [Restore];
    }
  }

  lemma StampsLogAppend(figure: Path, stamps: seq<Stamp>, s: Stamp)
    ensures StampsLog(figure, stamps + [s]) == StampsLog(figure, stamps) + StampCommands(figure, s)
  {
    assert (stamps + [s])[..|stamps|] == stamps;
  }

  /** The log of two runs of stamps is the log of the first followed by
      the log of the second. */
  lemma {:induction false} StampsLogConcat(figure: Path, a: seq<Stamp>, b: seq<Stamp>)
    ensures StampsLog(figure, a + b) == StampsLog(figure, a) + StampsLog(figure, b)
    decreases |b|
  {
    if b == [] {
      assert a + b == a;
    } else {
      var b' := b[..|b| - 1];
      assert (a + b)[..|a + b| - 1] == a + b';
      StampsLogConcat(figure, a, b');
      ConcatAssoc(StampsLog(figure, a), StampsLog(figure, b'), StampCommands(figure, b[|b| - 1]));
    }
  }

  lemma ConcatAssoc(a: seq<Command>, b: seq<Command>, c: seq<Command>)
    ensures a + b + c == a + (b + c)
  {
  }

  lemma {:induction false} CountWhereAppend(a: seq<Command>, b: seq<Command>, f: Command -> bool)
    ensures CountWhere(a + b, f) == CountWhere(a, f) + CountWhere(b, f)
    decreases |b|
  {
    if b == [] {
      assert a + b == a;
    } else {
      var b' := b[..|b| - 1];
      assert (a + b)[..|a + b| - 1] == a + b';
      CountWhereAppend(a, b', f);
    }
  }

  lemma {:induction false} DepthAppend(a: seq<Command>, b: seq<Command>)
    ensures Depth(a + b) == Depth(a) + Depth(b)
    decreases |b|
  {
    if b == [] {
      assert a + b == a;
    } else {
      var b' := b[..|b| - 1];
      assert (a + b)[..|a + b| - 1] == a + b';
      DepthAppend(a, b');
    }
  }

  /** One stamp opens exactly one `save` and closes it at its very end. */
  lemma StampBracketed(figure: Path, s: Stamp)
    ensures Bracketed(StampCommands(figure, s))
  {
    var cmds := StampCommands(figure, s);
    var n := |cmds|;
    var body := cmds[1..n - 1];
    assert cmds == [Save] + body + [Restore];
    assert Depth([Save]) == 1 by { assert [Save][..0] == []; }
    assert Depth([Restore]) == -1 by { assert [Restore][..0] == []; }
    forall i | 0 <= i <= n
      ensures Depth(cmds[..i]) == if 0 < i < n then 1 else 0
    {
      if 0 < i < n {
        assert cmds[..i] == [Save] + body[..i - 1];
        DepthAppend([Save], body[..i - 1]);
        NeutralDepth(body[..i - 1]);
      } else if i == n {
        assert cmds[..i] == ([Save] + body) + [Restore];
        DepthAppend([Save] + body, [Restore]);
        DepthAppend([Save], body);
        NeutralDepth(body);
      }
    }
    assert cmds[..n] == cmds;
  }

  /** Commands other than `save` and `restore` leave the depth alone. */
  lemma {:induction false} NeutralDepth(cmds: seq<Command>)
    requires forall c :: c in cmds ==> !c.Save? && !c.Restore?
    ensures Depth(cmds) == 0
    decreases |cmds|
  {
    if cmds != [] {
      NeutralDepth(cmds[..|cmds| - 1]);
    }
  }
}
