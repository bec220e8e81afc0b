/** Points and the figures the mosaic is made of.

    A figure is a closed `Path2D`: a `moveTo`, some `lineTo`s and a
    `closePath`, with coordinates relative to the figure's centre. The height
    of the triangle is `Math.sqrt(3) / 2 * lat`; Dafny's reals have no square
    root, so the square root of three is a parameter `sqrt3` that callers
    supply together with the fact `IsSqrt3(sqrt3)`. */
module Figures {

  /** A point of the plane, as a value. */
  datatype Point = Point(x: real, y: real)

  /** The mutable point class of the source (`new Dot(x, y)`, `dot.x`). */
  class Dot {
    var x: real
    var y: real

    constructor (x: real, y: real)
      ensures this.x == x && this.y == y
    {
      this.x := x;
      this.y := y;
    }

    /** A new point with the same coordinates: later changes to either
        object do not reach the other. */
    method Clone() returns (c: Dot)
      ensures fresh(c)
      ensures c.x == x && c.y == y
    {
      c := new Dot(x, y);
    }
  }

  /** The `Path2D` commands a figure is built from. */
  datatype PathOp = MoveTo(p: Point) | LineTo(p: Point) | ClosePath

  type Path = seq<PathOp>

  /** A path that starts with `moveTo`, continues with `lineTo`s only and
      ends with `closePath`. */
  predicate IsClosedPolygon(path: Path) {
    && |path| >= 2
    && path[0].MoveTo?
    && path[|path| - 1].ClosePath?
    && forall i :: 0 < i < |path| - 1 ==> path[i].LineTo?
  }

  /** The corners of a closed polygon, in drawing order. */
  function Vertices(path: Path): (vs: seq<Point>)
    requires IsClosedPolygon(path)
  {
    seq(|path| - 1, i requires 0 <= i < |path| - 1 => path[i].p)
  }

  /** Squared Euclidean distance. */
  function Dist2(a: Point, b: Point): (d: real) {
    (a.x - b.x) * (a.x - b.x) + (a.y - b.y) * (a.y - b.y)
  }

  /** Squared length of the side from corner `i` to the next corner, the
      last side closing back to corner 0. */
  function Side2(vs: seq<Point>, i: nat): (d: real)
    requires i < |vs|
  {
    Dist2(vs[i], vs[(i + 1) % |vs|])
  }

  /** The sides meeting at corner `(i + 1) % |vs|` are perpendicular. */
  predicate RightAngleAfter(vs: seq<Point>, i: nat)
    requires i < |vs|
  {
    var a, b, c := vs[i], vs[(i + 1) % |vs|], vs[(i + 2) % |vs|];
    (b.x - a.x) * (c.x - b.x) + (b.y - a.y) * (c.y - b.y) == 0.0
  }

  predicate IsSqrt3(s: real) {
    s > 0.0 && s * s == 3.0
  }

  /** `h = Math.sqrt(3) / 2 * lat`: the height of an equilateral triangle
      of side `lat`. */
  function Height(lat: real, sqrt3: real): (h: real) {
    sqrt3 / 2.0 * lat
  }

  lemma HeightSquared(lat: real, sqrt3: real)
    requires IsSqrt3(sqrt3)
    ensures Height(lat, sqrt3) * Height(lat, sqrt3) == 3.0 * lat * lat / 4.0
    ensures lat > 0.0 ==> Height(lat, sqrt3) > 0.0
  {
    var h := Height(lat, sqrt3);
    calc {
      h * h;
      (sqrt3 * sqrt3) * (lat * lat) / 4.0;
      3.0 * lat * lat / 4.0;
    }
  }

  /** `FigureTriangle`: apex `(0, -h/2)`, then `(lat/2, h/2)` and
      `(-lat/2, h/2)`, closed. */
  function FigureTriangle(lat: real, sqrt3: real): (path: Path)
    ensures IsClosedPolygon(path) && |Vertices(path)| == 3
  {
    var h := Height(lat, sqrt3);
    [ MoveTo(Point(0.0, h / -2.0)),
      LineTo(Point(lat / 2.0, h / 2.0)),
      LineTo(Point(lat / -2.0, h / 2.0)),
      ClosePath ]
  }

  /** `FigureSquare` (only in `script.js`, unused by the mosaic): the four
      corners `(±lat/2, ±lat/2)`, clockwise from `(lat/2, lat/2)`, closed. */
  function FigureSquare(lat: real): (path: Path)
    ensures IsClosedPolygon(path) && |Vertices(path)| == 4
  {
    var halfL := lat / 2.0;
    [ MoveTo(Point(halfL, halfL)),
      LineTo(Point(halfL, -halfL)),
      LineTo(Point(-halfL, -halfL)),
      LineTo(Point(-halfL, halfL)),
      ClosePath ]
  }

  /** The triangle is equilateral with side `lat`, points up (the apex has
      the least y, the base is horizontal) and its apex lies at distance
      `h` from the base. */
  lemma TriangleIsEquilateral(lat: real, sqrt3: real)
    requires IsSqrt3(sqrt3)
    ensures var vs := Vertices(FigureTriangle(lat, sqrt3));
      && (forall i :: 0 <= i < 3 ==> Side2(vs, i) == lat * lat)
      && vs[1].y == vs[2].y
      && vs[2].y - vs[0].y == Height(lat, sqrt3)
      && (lat > 0.0 ==> vs[0].y < vs[1].y)
      && vs[1].x - vs[2].x == lat
  {
    var vs := Vertices(FigureTriangle(lat, sqrt3));
    var h := Height(lat, sqrt3);
    HeightSquared(lat, sqrt3);
    assert vs == [Point(0.0, h / -2.0), Point(lat / 2.0, h / 2.0), Point(lat / -2.0, h / 2.0)];
    assert Side2(vs, 0) == lat * lat / 4.0 + h * h;
    assert Side2(vs, 1) == lat * lat;
    assert Side2(vs, 2) == lat * lat / 4.0 + h * h;
  }

  /** The triangle is centred on its centroid: all three corners are at the
      same distance from it. */
  lemma TriangleCornersEquidistant(lat: real, sqrt3: real)
    requires IsSqrt3(sqrt3)
    ensures var vs := Vertices(FigureTriangle(lat, sqrt3));
      var c := Point((vs[0].x + vs[1].x + vs[2].x) / 3.0, (vs[0].y + vs[1].y + vs[2].y) / 3.0);
      && Dist2(vs[0], c) == lat * lat / 3.0
      && Dist2(vs[1], c) == lat * lat / 3.0
      && Dist2(vs[2], c) == lat * lat / 3.0
  {
    var vs := Vertices(FigureTriangle(lat, sqrt3));
    var h := Height(lat, sqrt3);
    HeightSquared(lat, sqrt3);
    var c := Point(0.0, h / 6.0);
    assert c == Point((vs[0].x + vs[1].x + vs[2].x) / 3.0, (vs[0].y + vs[1].y + vs[2].y) / 3.0);
    assert Dist2(vs[0], c) == 4.0 * (h * h) / 9.0;
    assert Dist2(vs[1], c) == lat * lat / 4.0 + (h * h) / 9.0;
  }

  /** The square has four sides of length `lat`, right angles at every
      corner, and is centred on the origin. */
  lemma SquareIsSquare(lat: real)
    ensures var vs := Vertices(FigureSquare(lat));
      && (forall i :: 0 <= i < 4 ==> Side2(vs, i) == lat * lat)
      && (forall i :: 0 <= i < 4 ==> RightAngleAfter(vs, i))
      && vs[0].x + vs[1].x + vs[2].x + vs[3].x == 0.0
      && vs[0].y + vs[1].y + vs[2].y + vs[3].y == 0.0
  {
    var vs := Vertices(FigureSquare(lat));
    var halfL := lat / 2.0;
    assert vs == [Point(halfL, halfL), Point(halfL, -halfL), Point(-halfL, -halfL), Point(-halfL, halfL)];
    assert Side2(vs, 0) == lat * lat && Side2(vs, 1) == lat * lat;
    assert Side2(vs, 2) == lat * lat && Side2(vs, 3) == lat * lat;
    assert RightAngleAfter(vs, 0) && RightAngleAfter(vs, 1);
    assert RightAngleAfter(vs, 2) && RightAngleAfter(vs, 3);
  }
}
