/** Abstract records for the vector-graphics elements the renderer creates,
    holding the attributes it finally sets on them, and the five drawing
    helpers `drawCircle`, `drawRect`, `drawDiamond`, `drawLine` and
    `drawPath`. Path strings are opaque names. */
module Primitives {
  import opened Wrappers
  import opened Semantics

  datatype Color = Black | White | NoColor | Rgb(red: nat, green: nat, blue: nat)

  /** Path data: a key of the shared path templates, or one of the path
      literals the data handlers embed. */
  datatype PathData =
    | Template(key: string)
    | DataObjectPage
    | CollectionBars
    | DataArrow
    | DataStoreCylinder

  datatype Transform =
    | Identity
    | Translate(tx: real, ty: real)
    | Matrix(a: real, b: real, c: real, d: real, e: real, f: real)

  datatype Point = Point(x: int, y: int)

  /** The outline of a connection marker: a closed arrow head, an open one
      (no closing segment), or a dot. */
  datatype MarkerShape = ClosedArrow | OpenArrow | Dot

  /** A registered connection marker: its shape, colours and reference point. */
  datatype MarkerDef = MarkerDef(shape: MarkerShape, stroke: Color, fill: Color, refX: int, refY: int)

  datatype Primitive =
    | Circle(cx: real, cy: real, r: int, strokeWidth: real, stroke: Color, fill: Color, dash: Option<string>)
    | Rect(x: int, y: int, width: int, height: int, radius: int, strokeWidth: real, stroke: Color, fill: Color)
    | Polygon(points: seq<real>, strokeWidth: real, stroke: Color, fill: Color)
    | Polyline(coords: seq<int>, strokeWidth: real, stroke: Color, dash: Option<string>,
               markerStart: Option<MarkerDef>, markerEnd: Option<MarkerDef>)
    | Path(d: PathData, strokeWidth: real, stroke: Color, fill: Color, fillOpacity: real, transform: Transform)

  /** What one handler draws, in order, and which of those elements it
      returns (`None` when it returns undefined). */
  datatype Drawing = Drawing(prims: seq<Primitive>, handle: Option<nat>) {
    predicate Valid() {
      handle.Some? ==> handle.value < |prims|
    }
  }

  /** `drawCircle(p, width, height, offset)`: centred in the box, radius
      `Math.round((width + height) / 4 - offset)`. Width and height are
      integers here, so the rounding is computed exactly. */
  function DrawCircle(width: int, height: int, offset: int): (c: Primitive)
    ensures c.Circle? && c.cx * 2.0 == width as real && c.cy * 2.0 == height as real
    // the radius is the nearest integer to (width + height) / 4 - offset, halves rounded up
    ensures -2 < 4 * c.r - (width + height - 4 * offset) <= 2
    ensures c.strokeWidth == 1.0 && c.stroke == Black && c.fill == White && c.dash == None
  {
    Circle(width as real / 2.0, height as real / 2.0, (width + height - 4 * offset + 2) / 4,
           1.0, Black, White, None)
  }

  /** `drawRect(p, width, height, r, offset)`: the box shrunk by `offset`
      on every side. */
  function DrawRect(width: int, height: int, radius: int, offset: int): (r: Primitive)
    ensures r.Rect? && r.x == offset && r.y == offset && r.radius == radius
    ensures width - (r.x + r.width) == offset && height - (r.y + r.height) == offset
    ensures r.strokeWidth == 2.0 && r.stroke == Black && r.fill == White
  {
    Rect(offset, offset, width - offset * 2, height - offset * 2, radius, 2.0, Black, White)
  }

  /** `drawDiamond(p, width, height)`: the polygon through the midpoints of
      the four sides of the box. */
  function DrawDiamond(width: int, height: int): (r: Primitive)
    ensures r.Polygon? && |r.points| == 8
    ensures r.strokeWidth == 2.0 && r.stroke == Black && r.fill == White
  {
    var w, h := width as real, height as real;
    Polygon([w / 2.0, 0.0, w, h / 2.0, w / 2.0, h, 0.0, h / 2.0], 2.0, Black, White)
  }

  /** `flattenPoints(waypoints)`: the coordinates of the waypoints in
      order, x before y. */
  function FlattenPoints(waypoints: seq<Point>): (r: seq<int>)
    ensures |r| == 2 * |waypoints|
    ensures forall i :: 0 <= i < |waypoints| ==> r[2 * i..2 * i + 2] == [waypoints[i].x, waypoints[i].y]
  {
    if waypoints == [] then []
    else [waypoints[0].x, waypoints[0].y] + FlattenPoints(waypoints[1..])
  }

  /** The waypoints a flat coordinate list describes, read in pairs. */
  function PairUp(points: seq<int>): seq<Point>
    requires |points| % 2 == 0
  {
    if points == [] then [] else [Point(points[0], points[1])] + PairUp(points[2..])
  }

  /** Flattening loses nothing: the pairs read back are the waypoints. */
  lemma {:induction false} FlattenPointsRoundTrip(waypoints: seq<Point>)
    ensures PairUp(FlattenPoints(waypoints)) == waypoints
  {
    if waypoints != [] {
      FlattenPointsRoundTrip(waypoints[1..]);
      var r := FlattenPoints(waypoints);
      assert r[2..] == FlattenPoints(waypoints[1..]);
      assert [waypoints[0]] + waypoints[1..] == waypoints;
    }
  }

  /** `drawLine(p, waypoints)`: a polyline through the flattened waypoints,
      black of width 2, with no dash pattern and no markers. */
  function DrawLine(waypoints: seq<Point>): (r: Primitive)
    ensures r.Polyline? && |r.coords| % 2 == 0 && PairUp(r.coords) == waypoints
    ensures r.strokeWidth == 2.0 && r.stroke == Black
    ensures r.dash == None && r.markerStart == None && r.markerEnd == None
  {
    FlattenPointsRoundTrip(waypoints);
    Polyline(FlattenPoints(waypoints), 2.0, Black, None, None, None)
  }

  /** `drawPath(p, d, fill)`: black when `fill` is truthy, no fill
      otherwise. Every call site omits `fill`, so each path starts
      unfilled. */
  function DrawPath(d: PathData, fill: JsValue): (r: Primitive)
    ensures r.Path? && r.d == d && r.stroke == Black && r.strokeWidth == 2.0
    ensures r.fill == Black <==> Truthy(fill)
    ensures r.fill == NoColor <==> !Truthy(fill)
    ensures r.fillOpacity == 1.0 && r.transform == Identity
  {
    Path(d, 2.0, Black, if Truthy(fill) then Black else NoColor, 1.0, Identity)
  }

  /** `drawPath` reads its `fill` argument only through its truthiness:
      any two arguments that agree on it draw the same path. */
  lemma DrawPathTruthiness(d: PathData, a: JsValue, b: JsValue)
    ensures DrawPath(d, a) == DrawPath(d, b) <==> Truthy(a) == Truthy(b)
  {
  }

  /** The diamond's corners are the midpoints of the box's sides. */
  lemma DiamondMidpoints(width: int, height: int)
    ensures var p := DrawDiamond(width, height).points;
      p[0] * 2.0 == width as real && p[1] == 0.0 &&
      p[2] == width as real && p[3] * 2.0 == height as real &&
      p[4] * 2.0 == width as real && p[5] == height as real &&
      p[6] == 0.0 && p[7] * 2.0 == height as real
  {
  }

  /** The event circle of diameter 36 has radius 18 less the offset. */
  lemma EventCircleRadius(offset: int)
    ensures DrawCircle(36, 36, offset).r == 18 - offset
  {
  }
}
