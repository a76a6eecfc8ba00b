/**
 * draw_board: the name the board picture is saved under, and the shapes it
 * appends to its drawing: the outer rectangle, then for every hexagon of
 * `Hexagon.all` its outline, its decoration and its label.
 * The random draws of the decoration are a parameter, `draws(cell, k)`
 * being what the k-th segment of the cell at place `cell` drew.
 */
module BoardDrawing {
  import opened Results
  import opened TinyVectors
  import opened Shapes
  import opened BoardConfigs
  import opened Hexagons
  import opened Strings

  /** The keyword arguments of draw_board. */
  datatype BoardOptions = BoardOptions(
    withAllLabels: bool,
    withoutLabels: bool,
    withDecoration: bool,
    doRendering: bool,
    withGradient: bool,
    withOpacity: bool)

  // ---------------------------------------------------------------------
  // File name
  // ---------------------------------------------------------------------

  /** Which labels the name announces, after its `pijersi_board_`. */
  function LabelKind(o: BoardOptions): (r: string)
    ensures NoPI(r) && r != [] && r[|r| - 1] == 's'
  {
    if o.withoutLabels then "without_labels"
    else if o.withAllLabels then "with_all_labels"
    else "with_few_labels"
  }

  /** The suffixes the flags add; `without_opacity` comes without a leading "_". */
  function FlagsSuffix(o: BoardOptions): string
  {
    (if o.withDecoration then "_with_decoration" else "")
      + (if !o.withGradient then "_without_gradient" else "")
      + (if !o.withOpacity then "without_opacity" else "")
  }

  /** Everything of the name after its leading "pijersi_". */
  function BoardNameStem(o: BoardOptions): string
  {
    "board_" + LabelKind(o) + FlagsSuffix(o)
  }

  /**
   * The name built from the label mode (`pijersi_board_without_labels`,
   * `pijersi_board_with_all_labels` or `pijersi_board_with_few_labels`)
   * and the flags, before the laser replacement.
   */
  function RenderedBoardName(o: BoardOptions): string
  {
    "pijersi_" + BoardNameStem(o)
  }

  /** The file name of draw_board; for the laser, `replace('pijersi_', 'pijersi_laser_')`. */
  function BoardFileName(o: BoardOptions): (r: string)
    ensures |r| > 8 && r[..8] == "pijersi_"
    ensures (|r| >= 14 && r[..14] == "pijersi_laser_") <==> !o.doRendering
  {
    var name := RenderedBoardName(o);
    StemHasNoPI(o);
    ReplaceOnlyAtStart(BoardNameStem(o), "pijersi_", "pijersi_laser_");
    assert name[8] == 'b';
    if o.doRendering then name else Replace(name, "pijersi_", "pijersi_laser_")
  }

  /** The suffixes hold no "pi", and none starts with an "i". */
  lemma FlagsSuffixHasNoPI(o: BoardOptions)
    ensures var s := FlagsSuffix(o);
      NoPI(s) && (s != [] ==> s[0] != 'i')
  {
    var decoration := if o.withDecoration then "_with_decoration" else "";
    var gradient := if !o.withGradient then "_without_gradient" else "";
    var opacity := if !o.withOpacity then "without_opacity" else "";
    assert NoPI(decoration) && NoPI(gradient) && NoPI(opacity);
    NoPIConcat(decoration, gradient);
    NoPIConcat(decoration + gradient, opacity);
  }

  /** No "pi" after the leading "pijersi_", so the laser replacement finds only that one. */
  lemma StemHasNoPI(o: BoardOptions)
    ensures NoPI(BoardNameStem(o))
  {
    var kind, suffix := LabelKind(o), FlagsSuffix(o);
    FlagsSuffixHasNoPI(o);
    assert NoPI("board_");
    NoPIConcat("board_", kind);
    NoPIConcat("board_" + kind, suffix);
  }

  /**
   * The rendered and the laser picture share everything after their
   * prefix, which the laser replacement turns from "pijersi_" into
   * "pijersi_laser_", touching nothing else.
   */
  lemma LaserBoardFileName(o: BoardOptions)
    ensures BoardFileName(o) == (if o.doRendering then "pijersi_" else "pijersi_laser_") + BoardNameStem(o)
    ensures BoardNameStem(o.(doRendering := !o.doRendering)) == BoardNameStem(o)
  {
    StemHasNoPI(o);
    if !o.doRendering {
      ReplaceOnlyAtStart(BoardNameStem(o), "pijersi_", "pijersi_laser_");
    }
  }

  /** The last character of a join. */
  lemma LastOfJoin(a: string, b: string)
    requires a != []
    ensures (a + b)[|a + b| - 1] == if b == [] then a[|a| - 1] else b[|b| - 1]
  {
  }

  /** The end of a join, and the character just before it. */
  lemma JoinEnd(name: string, front: string, tail: string)
    requires name == front + tail && front != []
    ensures name[|name| - |tail|..] == tail && name[|name| - |tail| - 1] == front[|front| - 1]
  {
  }

  /**
   * Without opacity the name ends in "without_opacity" glued to the word
   * before it: unlike the other suffixes it brings no "_" of its own. (The
   * name is its prefix and this stem, as LaserBoardFileName states.)
   */
  lemma OpacitySuffixGlued(o: BoardOptions)
    requires !o.withOpacity
    ensures var stem := BoardNameStem(o);
      |stem| > 16 && stem[|stem| - 15..] == "without_opacity" && stem[|stem| - 16] != '_'
  {
    var decoration := if o.withDecoration then "_with_decoration" else "";
    var gradient := if !o.withGradient then "_without_gradient" else "";
    var words := "board_" + LabelKind(o);
    var front := words + (decoration + gradient);
    assert BoardNameStem(o) == front + "without_opacity";
    LastOfJoin("board_", LabelKind(o));
    LastOfJoin(words, decoration + gradient);
    if decoration != [] {
      LastOfJoin(decoration, gradient);
    } else {
      assert decoration + gradient == gradient;
    }
    JoinEnd(BoardNameStem(o), front, "without_opacity");
  }

  // ---------------------------------------------------------------------
  // The outer rectangle
  // ---------------------------------------------------------------------

  /**
   * The outer rectangle, centred on the origin, which the drawing puts
   * at its middle: the whole board in its colour, or for the laser the
   * cut line, one cut margin inside the board's edge on every side.
   */
  function BoardOuter(b: BoardConfig, doRendering: bool): (r: Shape)
    ensures r.Rectangle?
    ensures r.x + r.width / 2.0 == 0.0 && r.y + r.height / 2.0 == 0.0
    ensures doRendering ==>
      && r.width == b.boardWidth && r.height == b.boardHeight
      && r.fill == Solid(b.boardColor) && r.stroke == None && r.strokeWidth == None
    ensures !doRendering ==>
      && b.boardWidth - r.width == 2.0 * b.boardCutMargin && b.boardHeight - r.height == 2.0 * b.boardCutMargin
      && r.fill == Solid("white") && r.stroke == Some(ColorToCut1) && r.strokeWidth == Some(LineWidthToCut)
  {
    if doRendering then
      Rectangle(-b.boardWidth / 2.0, -b.boardHeight / 2.0, b.boardWidth, b.boardHeight,
                Solid(b.boardColor), None, None, None, None)
    else
      Rectangle(-b.boardWidth / 2.0 + b.boardCutMargin, -b.boardHeight / 2.0 + b.boardCutMargin,
                b.boardWidth - 2.0 * b.boardCutMargin, b.boardHeight - 2.0 * b.boardCutMargin,
                Solid("white"), None, Some(ColorToCut1), Some(LineWidthToCut), None)
  }

  // ---------------------------------------------------------------------
  // The hexagon of a cell
  // ---------------------------------------------------------------------

  /** `center + radius*cos(angle)*unit_x + radius*sin(angle)*unit_y` */
  function PolarPoint(b: BoardConfig, center: Vector, radius: real, angle: real, trig: Trig): Vector
  {
    center.Plus(b.unitX.Scaled(radius * trig.cos(angle))).Plus(b.unitY.Scaled(radius * trig.sin(angle)))
  }

  /** The radius of a drawn hexagon, `hexagon_scale*hexagon_side`. */
  function HexagonRadius(b: BoardConfig): real
    requires b.hexagonWidth != 0.0
  {
    HexagonScale(b) * b.hexagonSide
  }

  /** The angle of the k-th corner of a drawn hexagon, `(1/2 + k)*hexagon_side_angle`. */
  function CornerAngle(b: BoardConfig, k: int): real
  {
    (0.5 + k as real) * b.hexagonSideAngle
  }

  /** The corners of a drawn hexagon. */
  function HexagonVertices(b: BoardConfig, center: Vector, trig: Trig): (vs: seq<Vector>)
    requires b.hexagonWidth != 0.0
    ensures |vs| == b.hexagonVertexCount
  {
    seq(b.hexagonVertexCount, k requires 0 <= k < b.hexagonVertexCount =>
      PolarPoint(b, center, HexagonRadius(b), CornerAngle(b, k), trig))
  }

  /** `hexagon_opacity * (1 if ring % 2 == 0 else 0.5)` */
  function CellOpacity(b: BoardConfig, ring: int): real
  {
    b.hexagonOpacity * (if ring % 2 == 0 then 1.0 else 0.5)
  }

  /**
   * The rings alternate: an even ring is drawn at the board's hexagon
   * opacity, an odd one at half of it, and two rings apart look alike.
   */
  lemma OpacityAlternates(b: BoardConfig, ring: int)
    ensures CellOpacity(b, ring + 2) == CellOpacity(b, ring)
    ensures ring % 2 == 0 ==> CellOpacity(b, ring) == b.hexagonOpacity == 2.0 * CellOpacity(b, ring + 1)
    ensures ring % 2 == 1 ==> 2.0 * CellOpacity(b, ring) == b.hexagonOpacity == CellOpacity(b, ring + 1)
    ensures b.hexagonOpacity > 0.0 ==> 0.0 < CellOpacity(b, ring) <= b.hexagonOpacity
  {
  }

  /** The hexagon outline of a cell, `draw.Lines(..., close=True)`. */
  function HexagonShape(o: BoardOptions, b: BoardConfig, center: Vector, ring: int, trig: Trig): (r: Shape)
    requires b.hexagonWidth != 0.0
    ensures r.Lines? && r.closed && r.stroke == Some(b.hexagonLineColor)
    ensures r.fill.Radial? <==> o.withGradient
  {
    var opacity := CellOpacity(b, ring);
    var vertices := HexagonVertices(b, center, trig);
    if o.withGradient then
      var gradient := Radial(center.x, center.y, HexagonRadius(b),
                             [GradientStop(0.0, ColorToEngrave, opacity * 0.00),
                              GradientStop(1.0, ColorToEngrave, opacity * 1.00)]);
      Lines(vertices, gradient, None, Some(b.hexagonLineColor), Some(b.hexagonLineWidth), true)
    else
      Lines(vertices, NoFill, Some(if o.withOpacity then opacity * 0.5 else 0.0),
            Some(b.hexagonLineColor), Some(b.hexagonLineWidth), true)
  }

  /**
   * The hexagon outline is closed through the corners and filled with a
   * radial gradient that goes from transparent at the centre to the cell's
   * opacity at the corners' radius, or, without gradient, with half the
   * cell's opacity, or none at all without opacity.
   */
  lemma HexagonShapeStyle(o: BoardOptions, b: BoardConfig, center: Vector, ring: int, trig: Trig)
    requires b.hexagonWidth != 0.0
    ensures var r := HexagonShape(o, b, center, ring, trig);
      && r.Lines? && r.closed && r.points == HexagonVertices(b, center, trig)
      && r.stroke == Some(b.hexagonLineColor) && r.strokeWidth == Some(b.hexagonLineWidth)
    ensures var r := HexagonShape(o, b, center, ring, trig);
      o.withGradient ==>
        && r.fill.Radial? && Vector(r.fill.cx, r.fill.cy) == center && r.fill.r == HexagonRadius(b)
        && |r.fill.stops| == 2
        && r.fill.stops[0].offset == 0.0 && r.fill.stops[0].opacity == 0.0
        && r.fill.stops[1].offset == 1.0 && r.fill.stops[1].opacity == CellOpacity(b, ring)
        && r.fillOpacity == None
    ensures var r := HexagonShape(o, b, center, ring, trig);
      !o.withGradient ==>
        && r.fill == NoFill
        && r.fillOpacity == Some(if o.withOpacity then CellOpacity(b, ring) / 2.0 else 0.0)
  {
  }

  /** A point at `radius` along a direction whose cosine and sine lie on the unit circle is `radius` from the centre. */
  lemma PolarPointOnCircle(b: BoardConfig, center: Vector, radius: real, angle: real, trig: Trig)
    requires b.unitX == Vector(1.0, 0.0) && b.unitY == Vector(0.0, -1.0)
    requires trig.cos(angle) * trig.cos(angle) + trig.sin(angle) * trig.sin(angle) == 1.0
    ensures var d := PolarPoint(b, center, radius, angle, trig).Minus(center);
      Dot(d, d) == radius * radius
  {
    var c, s := trig.cos(angle), trig.sin(angle);
    var d := PolarPoint(b, center, radius, angle, trig).Minus(center);
    assert d == Vector(radius * c, -(radius * s));
    calc {
      Dot(d, d);
      (radius * c) * (radius * c) + (radius * s) * (radius * s);
      (radius * radius) * (c * c + s * s);
    }
  }

  /**
   * With `unit_x`, `unit_y` and the trigonometry of make_board_config,
   * every corner of a drawn hexagon lies on the circle where its gradient
   * reaches full opacity.
   */
  lemma CornersOnGradientRim(o: BoardOptions, b: BoardConfig, center: Vector, ring: int, trig: Trig, k: nat)
    requires b.hexagonWidth != 0.0 && o.withGradient
    requires b.unitX == Vector(1.0, 0.0) && b.unitY == Vector(0.0, -1.0)
    requires k < b.hexagonVertexCount
    requires var angle := CornerAngle(b, k);
      trig.cos(angle) * trig.cos(angle) + trig.sin(angle) * trig.sin(angle) == 1.0
    ensures var r := HexagonShape(o, b, center, ring, trig);
      var d := r.points[k].Minus(Vector(r.fill.cx, r.fill.cy));
      Dot(d, d) == r.fill.r * r.fill.r
  {
    PolarPointOnCircle(b, center, HexagonRadius(b), CornerAngle(b, k), trig);
  }

  // ---------------------------------------------------------------------
  // The decoration of an odd ring: random segments
  // ---------------------------------------------------------------------

  /** `segment_count` */
  const SegmentCount: nat := 500

  /** One border point's draws: `random.sample` of two corners, then `random.uniform(0, 1)`. */
  datatype BorderDraw = BorderDraw(first: nat, second: nat, p: real)

  /** One segment's draws: two border points, then `t = uniform(0, 1)` and `u = uniform(0.02, 0.05)`. */
  datatype SegmentDraw = SegmentDraw(start: BorderDraw, end: BorderDraw, t: real, u: real)

  /** What `random.sample` and `random.uniform` can return for a hexagon of `vertexCount` corners. */
  predicate WellDrawn(d: SegmentDraw, vertexCount: nat)
  {
    && d.start.first < vertexCount && d.start.second < vertexCount && d.start.first != d.start.second
    && d.end.first < vertexCount && d.end.second < vertexCount && d.end.first != d.end.second
    && 0.0 <= d.start.p <= 1.0 && 0.0 <= d.end.p <= 1.0
    && 0.0 <= d.t <= 1.0 && 0.02 <= d.u <= 0.05
  }

  /** Every draw of every cell is one the random module can make. */
  ghost predicate DrawsWellFormed(draws: (nat, nat) -> SegmentDraw, vertexCount: nat)
  {
    forall cell: nat, k: nat :: WellDrawn(draws(cell, k), vertexCount)
  }

  /** `p` of the way from `x` to `y`: `x + p*(y - x)`. */
  function Along(x: Vector, y: Vector, p: real): Vector
  {
    x.Plus(y.Minus(x).Scaled(p))
  }

  /** `vertices[0] + p*(vertices[1] - vertices[0])` for the two sampled corners. */
  function BorderPoint(vertices: seq<Vector>, d: BorderDraw): Vector
    requires d.first < |vertices| && d.second < |vertices|
  {
    Along(vertices[d.first], vertices[d.second], d.p)
  }

  /** `min(1, max(0, x))` */
  function Clamp01(x: real): real
  {
    if 1.0 <= x then 1.0 else if 0.0 >= x then 0.0 else x
  }

  /** The sub-segment `[a, b]`, `a = min(1, max(0, t - u/2))`, `b = min(1, max(0, t + u/2))`; for `u >= 0` it is ordered inside [0, 1]. */
  function SubSegment(t: real, u: real): (r: (real, real))
    ensures u >= 0.0 ==> 0.0 <= r.0 <= r.1 <= 1.0
    ensures 0.0 <= r.0 <= 1.0 && 0.0 <= r.1 <= 1.0
  {
    (Clamp01(t - u / 2.0), Clamp01(t + u / 2.0))
  }

  /** A segment of the decoration, between two border points. */
  function SegmentShape(b: BoardConfig, vertices: seq<Vector>, d: SegmentDraw): (r: Shape)
    requires WellDrawn(d, |vertices|)
    ensures r.Line? && r.stroke == Some(b.hexagonLineColor)
    ensures var p0, p1 := BorderPoint(vertices, d.start), BorderPoint(vertices, d.end);
      Between(r.start, p0, p1) && Between(r.end, p0, p1)
  {
    var p0 := BorderPoint(vertices, d.start);
    var p1 := BorderPoint(vertices, d.end);
    var ab := SubSegment(d.t, d.u);
    AlongIsBetween(p0, p1, ab.0);
    AlongIsBetween(p0, p1, ab.1);
    Line(Along(p0, p1, ab.0), Along(p0, p1, ab.1), NoFill, Some(0.0),
         Some(b.hexagonLineColor), Some(b.hexagonLineWidth), None)
  }

  /** `q` lies on the segment from `x` to `y`: a convex combination of the two. */
  ghost predicate Between(q: Vector, x: Vector, y: Vector)
  {
    exists lambda: real :: 0.0 <= lambda <= 1.0 && q == x.Scaled(1.0 - lambda).Plus(y.Scaled(lambda))
  }

  lemma AlongIsBetween(x: Vector, y: Vector, p: real)
    requires 0.0 <= p <= 1.0
    ensures Between(Along(x, y, p), x, y)
  {
    assert Along(x, y, p) == x.Scaled(1.0 - p).Plus(y.Scaled(p));
  }

  /**
   * Both ends of a segment lie between its two border points, and each
   * border point between the two corners it was drawn from.
   */
  lemma SegmentWithinChords(b: BoardConfig, vertices: seq<Vector>, d: SegmentDraw)
    requires WellDrawn(d, |vertices|)
    ensures var p0 := BorderPoint(vertices, d.start);
      var p1 := BorderPoint(vertices, d.end);
      var r := SegmentShape(b, vertices, d);
      && Between(r.start, p0, p1) && Between(r.end, p0, p1)
      && Between(p0, vertices[d.start.first], vertices[d.start.second])
      && Between(p1, vertices[d.end.first], vertices[d.end.second])
  {
    var p0 := BorderPoint(vertices, d.start);
    var p1 := BorderPoint(vertices, d.end);
    var ab := SubSegment(d.t, d.u);
    AlongIsBetween(p0, p1, ab.0);
    AlongIsBetween(p0, p1, ab.1);
    AlongIsBetween(vertices[d.start.first], vertices[d.start.second], d.start.p);
    AlongIsBetween(vertices[d.end.first], vertices[d.end.second], d.end.p);
  }

  /** The 500 segments of a cell, in the order they are drawn. */
  function SegmentShapes(b: BoardConfig, vertices: seq<Vector>, cell: nat, draws: (nat, nat) -> SegmentDraw): (r: seq<Shape>)
    requires DrawsWellFormed(draws, |vertices|)
    ensures |r| == SegmentCount
  {
    seq(SegmentCount, k requires 0 <= k < SegmentCount => SegmentShape(b, vertices, draws(cell, k)))
  }

  /** The loop of the 500 segments of a cell with an odd ring. */
  method DrawSegments(canvas: Canvas, b: BoardConfig, vertices: seq<Vector>, cell: nat,
                      draws: (nat, nat) -> SegmentDraw)
    requires DrawsWellFormed(draws, |vertices|)
    modifies canvas
    ensures canvas.shapes == old(canvas.shapes) + SegmentShapes(b, vertices, cell, draws)
  {
    ghost var all := SegmentShapes(b, vertices, cell, draws);
    for k := 0 to SegmentCount
      invariant canvas.shapes == old(canvas.shapes) + all[..k]
    {
      canvas.Append(SegmentShape(b, vertices, draws(cell, k)));
      assert all[..k + 1] == all[..k] + [all[k]];
    }
    assert all[..SegmentCount] == all;
  }

  // ---------------------------------------------------------------------
  // The decoration of an even ring: a 12-gon and its rotating hexagons
  // ---------------------------------------------------------------------

  /** `decorater_polygon_side_count` */
  const DecoratorSideCount: nat := 12

  /** `decorater_polygon_scale` */
  const DecoratorScale: real := 0.70

  /** The angle of the k-th corner of the 12-gon, `k*2*pi/12`. */
  function DecoratorAngle(trig: Trig, k: int): real
  {
    k as real * 2.0 * trig.pi / DecoratorSideCount as real
  }

  /** The corners of the 12-gon. */
  function DecoratorVertices(b: BoardConfig, center: Vector, trig: Trig): (vs: seq<Vector>)
    ensures |vs| == DecoratorSideCount
  {
    seq(DecoratorSideCount, k requires 0 <= k < DecoratorSideCount =>
      PolarPoint(b, center, DecoratorScale * b.hexagonSide, DecoratorAngle(trig, k), trig))
  }

  /** `rotating_polygon_side_count` */
  const RotatingSideCount: nat := 6

  /** The turn between two sides of a rotating hexagon, `-2*pi/6`. */
  function RotatingTurn(trig: Trig): real
  {
    -2.0 * trig.pi / RotatingSideCount as real
  }

  /** From `start`, `count` steps, each one the previous step turned by `turn`. */
  function Walk(start: Vector, step: Vector, count: nat, turn: real, trig: Trig): (vs: seq<Vector>)
    ensures |vs| == count + 1 && vs[0] == start
    ensures count > 0 ==> vs[1] == start.Plus(step)
    decreases count
  {
    if count == 0 then [start]
    else [start] + Walk(start.Plus(step), MakeRotation(step, turn, trig), count - 1, turn, trig)
  }

  /**
   * The hexagon built on the side from `v1` to `v2` of the 12-gon: six
   * steps from `v1`, the first one to `v2`, then back to `v1`.
   */
  function RotatingPolygonVertices(v1: Vector, v2: Vector, trig: Trig): (vs: seq<Vector>)
    ensures |vs| == RotatingSideCount + 2
    ensures vs[0] == v1 && vs[1] == v2 && vs[RotatingSideCount + 1] == v1
  {
    assert v1.Plus(v2.Minus(v1)) == v2;
    Walk(v1, v2.Minus(v1), RotatingSideCount, RotatingTurn(trig), trig) + [v1]
  }

  /** The square of the length of the side from `vs[k]` to `vs[k + 1]`. */
  function SideSquare(vs: seq<Vector>, k: nat): real
    requires k + 1 < |vs|
  {
    var d := vs[k + 1].Minus(vs[k]);
    Dot(d, d)
  }

  /** `step` turned `k` times by `turn`. */
  function Turned(step: Vector, k: nat, turn: real, trig: Trig): Vector
    decreases k
  {
    if k == 0 then step else Turned(MakeRotation(step, turn, trig), k - 1, turn, trig)
  }

  /** The k-th step of a walk is its first step turned k times. */
  lemma {:induction false} WalkSteps(start: Vector, step: Vector, count: nat, turn: real, trig: Trig)
    ensures forall k :: 0 <= k < count ==>
      Walk(start, step, count, turn, trig)[k + 1].Minus(Walk(start, step, count, turn, trig)[k]) == Turned(step, k, turn, trig)
    decreases count
  {
    if count > 0 {
      var next := MakeRotation(step, turn, trig);
      var vs := Walk(start, step, count, turn, trig);
      var rest := Walk(start.Plus(step), next, count - 1, turn, trig);
      assert vs == [start] + rest;
      WalkSteps(start.Plus(step), next, count - 1, turn, trig);
      assert vs[1].Minus(vs[0]) == step;
      forall k | 1 <= k < count
        ensures vs[k + 1].Minus(vs[k]) == Turned(step, k, turn, trig)
      {
        assert vs[k] == rest[k - 1] && vs[k + 1] == rest[k];
      }
    }
  }

  /** Turning by an angle whose cosine and sine lie on the unit circle keeps lengths. */
  lemma {:induction false} TurnedLength(step: Vector, k: nat, turn: real, trig: Trig)
    requires trig.cos(turn) * trig.cos(turn) + trig.sin(turn) * trig.sin(turn) == 1.0
    ensures var t := Turned(step, k, turn, trig); Dot(t, t) == Dot(step, step)
    decreases k
  {
    if k > 0 {
      TurnedLength(MakeRotation(step, turn, trig), k - 1, turn, trig);
      RotationPreservesInner(step, step, turn, trig);
    }
  }

  /** Every step of a walk is as long as its first one when the turn keeps lengths. */
  lemma WalkEquilateral(start: Vector, step: Vector, count: nat, turn: real, trig: Trig)
    requires trig.cos(turn) * trig.cos(turn) + trig.sin(turn) * trig.sin(turn) == 1.0
    ensures forall k :: 0 <= k < count ==> SideSquare(Walk(start, step, count, turn, trig), k) == Dot(step, step)
  {
    var vs := Walk(start, step, count, turn, trig);
    WalkSteps(start, step, count, turn, trig);
    forall k | 0 <= k < count
      ensures SideSquare(vs, k) == Dot(step, step)
    {
      TurnedLength(step, k, turn, trig);
    }
  }

  /**
   * With a turn whose cosine and sine lie on the unit circle, the six
   * sides of a rotating hexagon are as long as the 12-gon's side it
   * stands on.
   */
  lemma RotatingPolygonEquilateral(v1: Vector, v2: Vector, trig: Trig)
    requires var turn := RotatingTurn(trig);
      trig.cos(turn) * trig.cos(turn) + trig.sin(turn) * trig.sin(turn) == 1.0
    ensures forall k :: 0 <= k < RotatingSideCount ==>
      SideSquare(RotatingPolygonVertices(v1, v2, trig), k) == Dot(v2.Minus(v1), v2.Minus(v1))
  {
    var walk := Walk(v1, v2.Minus(v1), RotatingSideCount, RotatingTurn(trig), trig);
    WalkEquilateral(v1, v2.Minus(v1), RotatingSideCount, RotatingTurn(trig), trig);
    var vs := RotatingPolygonVertices(v1, v2, trig);
    forall k | 0 <= k < RotatingSideCount
      ensures SideSquare(vs, k) == SideSquare(walk, k)
    {
      assert vs[k] == walk[k] && vs[k + 1] == walk[k + 1];
    }
  }

  /** An unfilled outline in the hexagon's stroke. */
  function Outline(b: BoardConfig, points: seq<Vector>): Shape
  {
    Lines(points, NoFill, Some(0.0), Some(b.hexagonLineColor), Some(b.hexagonLineWidth), true)
  }

  /** The rotating hexagon on the k-th side of the 12-gon. */
  function SideHexagon(b: BoardConfig, center: Vector, trig: Trig, k: nat): Shape
    requires k < DecoratorSideCount
  {
    var vs := DecoratorVertices(b, center, trig);
    Outline(b, RotatingPolygonVertices(vs[k], vs[(k + 1) % DecoratorSideCount], trig))
  }

  /**
   * The rotating hexagon on the k-th side of the 12-gon is a closed
   * outline from its k-th corner to the next one, the last side ending at
   * the first corner, and back.
   */
  lemma SideHexagonOnSide(b: BoardConfig, center: Vector, trig: Trig, k: nat)
    requires k < DecoratorSideCount
    ensures var r := SideHexagon(b, center, trig, k);
      var vs := DecoratorVertices(b, center, trig);
      && r.Lines? && r.closed && |r.points| == RotatingSideCount + 2
      && r.points[0] == r.points[RotatingSideCount + 1] == vs[k]
      && r.points[1] == vs[if k + 1 == DecoratorSideCount then 0 else k + 1]
  {
  }

  /** The 12-gon, then one rotating hexagon on each of its sides. */
  function RingDecorationShapes(b: BoardConfig, center: Vector, trig: Trig): (r: seq<Shape>)
    ensures |r| == DecoratorSideCount + 1
  {
    [Outline(b, DecoratorVertices(b, center, trig))]
      + seq(DecoratorSideCount, k requires 0 <= k < DecoratorSideCount => SideHexagon(b, center, trig, k))
  }

  /** The 12-gon and the loop over its sides, for a cell with an even ring. */
  method DrawRingDecoration(canvas: Canvas, b: BoardConfig, center: Vector, trig: Trig)
    modifies canvas
    ensures canvas.shapes == old(canvas.shapes) + RingDecorationShapes(b, center, trig)
  {
    ghost var all := RingDecorationShapes(b, center, trig);
    var vertices := DecoratorVertices(b, center, trig);
    canvas.Append(Outline(b, vertices));
    for k := 0 to DecoratorSideCount
      invariant canvas.shapes == old(canvas.shapes) + all[..k + 1]
    {
      canvas.Append(Outline(b, RotatingPolygonVertices(vertices[k], vertices[(k + 1) % DecoratorSideCount], trig)));
      assert all[..k + 2] == all[..k + 1] + [all[k + 1]];
    }
    assert all[..DecoratorSideCount + 1] == all;
  }

  // ---------------------------------------------------------------------
  // Labels
  // ---------------------------------------------------------------------

  /**
   * Where the cell's name goes, by precedence: nowhere without labels;
   * `label_vertical_shift` off the centre with all labels; otherwise only
   * beside a West or East cell, `label_horizontal_shift` out on that side.
   */
  function LabelLocation(o: BoardOptions, b: BoardConfig, center: Vector, labelSide: LabelSide): (r: Option<Vector>)
    ensures o.withoutLabels ==> r == None
    ensures !o.withoutLabels && o.withAllLabels ==> r == Some(center.Plus(b.labelVerticalShift))
    ensures !o.withoutLabels && !o.withAllLabels ==>
      (r.Some? <==> labelSide == OnSide(West) || labelSide == OnSide(East))
  {
    if o.withoutLabels then None
    else if o.withAllLabels then Some(center.Plus(b.labelVerticalShift))
    else if labelSide == OnSide(West) then Some(center.Minus(b.labelHorizontalShift))
    else if labelSide == OnSide(East) then Some(center.Plus(b.labelHorizontalShift))
    else None
  }

  /** A West label and an East label of the same cell would sit mirrored about its centre. */
  lemma SideLabelsMirror(o: BoardOptions, b: BoardConfig, center: Vector)
    requires !o.withoutLabels && !o.withAllLabels
    ensures var west := LabelLocation(o, b, center, OnSide(West)).value;
      var east := LabelLocation(o, b, center, OnSide(East)).value;
      && west.Plus(east) == center.Scaled(2.0)
      && east.Minus(west) == b.labelHorizontalShift.Scaled(2.0)
  {
  }

  /** `draw.Text(text=name, ..., center=True, fill=label_color)` at the label's location. */
  function LabelText(b: BoardConfig, name: string, at: Vector): Shape
  {
    Text(name, b.labelFontSize, b.labelFontFamily, at.x, at.y, true, b.labelColor)
  }

  // ---------------------------------------------------------------------
  // Cells and the board
  // ---------------------------------------------------------------------

  /** The decoration of a cell: segments on an odd ring, the 12-gon pattern on an even one. */
  function CellDecoration(o: BoardOptions, b: BoardConfig, h: Hexagon, cell: nat,
                          draws: (nat, nat) -> SegmentDraw, trig: Trig): seq<Shape>
    requires b.hexagonWidth != 0.0 && DrawsWellFormed(draws, b.hexagonVertexCount)
  {
    (if o.withDecoration && h.ring % 2 == 1 then SegmentShapes(b, HexagonVertices(b, h.center, trig), cell, draws) else [])
      + (if o.withDecoration && h.ring % 2 == 0 then RingDecorationShapes(b, h.center, trig) else [])
  }

  /** The label of a cell, if it has a location. */
  function CellLabel(o: BoardOptions, b: BoardConfig, h: Hexagon): seq<Shape>
  {
    var location := LabelLocation(o, b, h.center, h.labelSide);
    if location.Some? then [LabelText(b, h.name, location.value)] else []
  }

  /** Everything one turn of the cell loop appends, in order. */
  function CellShapes(o: BoardOptions, b: BoardConfig, h: Hexagon, cell: nat,
                      draws: (nat, nat) -> SegmentDraw, trig: Trig): seq<Shape>
    requires b.hexagonWidth != 0.0 && DrawsWellFormed(draws, b.hexagonVertexCount)
  {
    [HexagonShape(o, b, h.center, h.ring, trig)] + CellDecoration(o, b, h, cell, draws, trig) + CellLabel(o, b, h)
  }

  /** The shapes of the cells of `hs`, in order. */
  function BoardShapes(o: BoardOptions, b: BoardConfig, hs: seq<Hexagon>,
                       draws: (nat, nat) -> SegmentDraw, trig: Trig): seq<Shape>
    requires b.hexagonWidth != 0.0 && DrawsWellFormed(draws, b.hexagonVertexCount)
    decreases |hs|
  {
    if hs == [] then []
    else BoardShapes(o, b, hs[..|hs| - 1], draws, trig) + CellShapes(o, b, hs[|hs| - 1], |hs| - 1, draws, trig)
  }

  /** The decoration part of one turn of the cell loop. */
  method DrawDecoration(canvas: Canvas, o: BoardOptions, b: BoardConfig, h: Hexagon, cell: nat,
                        draws: (nat, nat) -> SegmentDraw, trig: Trig)
    requires b.hexagonWidth != 0.0 && DrawsWellFormed(draws, b.hexagonVertexCount)
    modifies canvas
    ensures canvas.shapes == old(canvas.shapes) + CellDecoration(o, b, h, cell, draws, trig)
  {
    ghost var segments := if o.withDecoration && h.ring % 2 == 1
      then SegmentShapes(b, HexagonVertices(b, h.center, trig), cell, draws) else [];
    ghost var ring := if o.withDecoration && h.ring % 2 == 0 then RingDecorationShapes(b, h.center, trig) else [];
    if o.withDecoration && h.ring % 2 == 1 {
      var vertices := HexagonVertices(b, h.center, trig);
      DrawSegments(canvas, b, vertices, cell, draws);
    }
    assert canvas.shapes == old(canvas.shapes) + segments;
    ghost var middle := canvas.shapes;
    if o.withDecoration && h.ring % 2 == 0 {
      DrawRingDecoration(canvas, b, h.center, trig);
    }
    assert canvas.shapes == middle + ring;
    AppendAssoc(old(canvas.shapes), segments, ring);
  }

  /** One more cell adds its shapes at the end. */
  lemma BoardShapesStep(o: BoardOptions, b: BoardConfig, hs: seq<Hexagon>, k: nat,
                        draws: (nat, nat) -> SegmentDraw, trig: Trig)
    requires b.hexagonWidth != 0.0 && DrawsWellFormed(draws, b.hexagonVertexCount)
    requires k < |hs|
    ensures BoardShapes(o, b, hs[..k + 1], draws, trig)
      == BoardShapes(o, b, hs[..k], draws, trig) + CellShapes(o, b, hs[k], k, draws, trig)
  {
    assert hs[..k + 1][..k] == hs[..k];
  }

  /** One turn of the cell loop of draw_board. */
  method DrawCell(canvas: Canvas, o: BoardOptions, b: BoardConfig, h: Hexagon, cell: nat,
                  draws: (nat, nat) -> SegmentDraw, trig: Trig)
    requires b.hexagonWidth != 0.0 && DrawsWellFormed(draws, b.hexagonVertexCount)
    modifies canvas
    ensures canvas.shapes == old(canvas.shapes) + CellShapes(o, b, h, cell, draws, trig)
  {
    var hexagon := HexagonShape(o, b, h.center, h.ring, trig);
    canvas.Append(hexagon);
    DrawDecoration(canvas, o, b, h, cell, draws, trig);
    var location := LabelLocation(o, b, h.center, h.labelSide);
    if location.Some? {
      canvas.Append(LabelText(b, h.name, location.value));
    }
    AppendRegroup(old(canvas.shapes), [hexagon], CellDecoration(o, b, h, cell, draws, trig), CellLabel(o, b, h));
  }

  /** The frame draw_board gives its drawing: the board's size, centred on the origin. */
  ghost predicate BoardFrame(canvas: Canvas, b: BoardConfig)
  {
    && canvas.width == b.boardWidth && canvas.height == b.boardHeight
    && canvas.origin == Vector(-b.boardWidth / 2.0, -b.boardHeight / 2.0)
    && canvas.renderWidthCm == b.boardWidthCm && canvas.renderHeightCm == b.boardHeightCm
  }

  /**
   * draw_board: the outer rectangle, then every hexagon of `Hexagon.all`
   * in turn; `Hexagon.all` is still `None` before `init`, and iterating
   * over it fails.
   */
  method DrawBoard(o: BoardOptions, registry: HexagonRegistry, draws: (nat, nat) -> SegmentDraw, trig: Trig)
    returns (r: Result<Picture>)
    requires registry.board.hexagonWidth != 0.0
    requires DrawsWellFormed(draws, registry.board.hexagonVertexCount)
    ensures r.Ok? <==> registry.all.Some?
    ensures r.Err? ==> r.error == TypeError
    ensures r.Ok? ==>
      && fresh(r.value.canvas)
      && r.value.fileName == BoardFileName(o)
      && BoardFrame(r.value.canvas, registry.board)
      && r.value.canvas.shapes
         == [BoardOuter(registry.board, o.doRendering)] + BoardShapes(o, registry.board, registry.all.value, draws, trig)
  {
    var b := registry.board;
    var fileName := BoardFileName(o);
    var canvas := new Canvas(b.boardWidth, b.boardHeight, Vector(-b.boardWidth / 2.0, -b.boardHeight / 2.0),
                             b.boardWidthCm, b.boardHeightCm);
    var outer := BoardOuter(b, o.doRendering);
    canvas.Append(outer);
    if registry.all.None? {
      return Err(TypeError);
    }
    var hs := registry.all.value;
    for k := 0 to |hs|
      invariant canvas.shapes == [outer] + BoardShapes(o, b, hs[..k], draws, trig)
    {
      DrawCell(canvas, o, b, hs[k], k, draws, trig);
      BoardShapesStep(o, b, hs, k, draws, trig);
      AppendAssoc([outer], BoardShapes(o, b, hs[..k], draws, trig), CellShapes(o, b, hs[k], k, draws, trig));
    }
    assert hs[..|hs|] == hs;
    r := Ok(Picture(fileName, canvas));
  }

  // ---------------------------------------------------------------------
  // How many labels
  // ---------------------------------------------------------------------

  /** The label sides of the hexagons, in order. */
  function HexagonLabelSides(hs: seq<Hexagon>): seq<LabelSide>
  {
    seq(|hs|, k requires 0 <= k < |hs| => hs[k].labelSide)
  }

  /** After a successful `init`, `Hexagon.all` is set, so draw_board does not raise TypeError. */
  lemma InitialisedRegistryDraws(registry: HexagonRegistry)
    requires registry.Ready()
    ensures registry.all == Some(registry.allSorted)
  {
  }

  /** The segments hold no text. */
  lemma SegmentsHaveNoText(b: BoardConfig, vertices: seq<Vector>, cell: nat, draws: (nat, nat) -> SegmentDraw)
    requires DrawsWellFormed(draws, |vertices|)
    ensures TextCount(SegmentShapes(b, vertices, cell, draws)) == 0
  {
    var shapes := SegmentShapes(b, vertices, cell, draws);
    forall i | 0 <= i < |shapes|
      ensures !shapes[i].Text?
    {
      assert shapes[i] == SegmentShape(b, vertices, draws(cell, i));
    }
    NoTextCount(shapes);
  }

  /** The 12-gon pattern holds no text. */
  lemma RingHasNoText(b: BoardConfig, center: Vector, trig: Trig)
    ensures TextCount(RingDecorationShapes(b, center, trig)) == 0
  {
    var shapes := RingDecorationShapes(b, center, trig);
    forall i | 0 <= i < |shapes|
      ensures !shapes[i].Text?
    {
      if i > 0 {
        assert shapes[i] == SideHexagon(b, center, trig, i - 1);
      }
    }
    NoTextCount(shapes);
  }

  /** The hexagon and its decoration hold no text. */
  lemma DecorationHasNoText(o: BoardOptions, b: BoardConfig, h: Hexagon, cell: nat,
                            draws: (nat, nat) -> SegmentDraw, trig: Trig)
    requires b.hexagonWidth != 0.0 && DrawsWellFormed(draws, b.hexagonVertexCount)
    ensures TextCount([HexagonShape(o, b, h.center, h.ring, trig)] + CellDecoration(o, b, h, cell, draws, trig)) == 0
  {
    var segments := if o.withDecoration && h.ring % 2 == 1
      then SegmentShapes(b, HexagonVertices(b, h.center, trig), cell, draws) else [];
    var ring := if o.withDecoration && h.ring % 2 == 0 then RingDecorationShapes(b, h.center, trig) else [];
    if o.withDecoration && h.ring % 2 == 1 {
      SegmentsHaveNoText(b, HexagonVertices(b, h.center, trig), cell, draws);
    }
    if o.withDecoration && h.ring % 2 == 0 {
      RingHasNoText(b, h.center, trig);
    }
    var hexagon := [HexagonShape(o, b, h.center, h.ring, trig)];
    assert TextCount(hexagon) == 0 by {
      assert hexagon[..0] == [];
    }
    TextCountDistributes(segments, ring);
    TextCountDistributes(hexagon, segments + ring);
  }

  /** A cell contributes one text when it has a label location, and none otherwise. */
  lemma CellLabelCount(o: BoardOptions, b: BoardConfig, h: Hexagon, cell: nat,
                       draws: (nat, nat) -> SegmentDraw, trig: Trig)
    requires b.hexagonWidth != 0.0 && DrawsWellFormed(draws, b.hexagonVertexCount)
    ensures TextCount(CellShapes(o, b, h, cell, draws, trig))
      == if LabelLocation(o, b, h.center, h.labelSide).Some? then 1 else 0
  {
    var drawn := [HexagonShape(o, b, h.center, h.ring, trig)] + CellDecoration(o, b, h, cell, draws, trig);
    var labelShapes := CellLabel(o, b, h);
    DecorationHasNoText(o, b, h, cell, draws, trig);
    TextCountDistributes(drawn, labelShapes);
    if labelShapes != [] {
      assert labelShapes[..0] == [];
    }
  }

  /** The last cell adds its one text or none to those before it. */
  lemma BoardTextStep(o: BoardOptions, b: BoardConfig, hs: seq<Hexagon>,
                      draws: (nat, nat) -> SegmentDraw, trig: Trig)
    requires b.hexagonWidth != 0.0 && DrawsWellFormed(draws, b.hexagonVertexCount)
    requires hs != []
    ensures var h := hs[|hs| - 1];
      TextCount(BoardShapes(o, b, hs, draws, trig))
      == TextCount(BoardShapes(o, b, hs[..|hs| - 1], draws, trig))
         + if LabelLocation(o, b, h.center, h.labelSide).Some? then 1 else 0
  {
    var front, h := hs[..|hs| - 1], hs[|hs| - 1];
    CellLabelCount(o, b, h, |hs| - 1, draws, trig);
    TextCountDistributes(BoardShapes(o, b, front, draws, trig), CellShapes(o, b, h, |hs| - 1, draws, trig));
  }

  /** The label sides of all but the last hexagon are those of the front. */
  lemma LabelSidesStep(hs: seq<Hexagon>)
    requires hs != []
    ensures var sides := HexagonLabelSides(hs);
      sides[..|hs| - 1] == HexagonLabelSides(hs[..|hs| - 1]) && sides[|hs| - 1] == hs[|hs| - 1].labelSide
  {
  }

  /**
   * The texts on the board: none without labels, one per cell with all
   * labels, otherwise one per West or East cell.
   */
  lemma {:induction false} BoardLabelCount(o: BoardOptions, b: BoardConfig, hs: seq<Hexagon>,
                                           draws: (nat, nat) -> SegmentDraw, trig: Trig)
    requires b.hexagonWidth != 0.0 && DrawsWellFormed(draws, b.hexagonVertexCount)
    ensures TextCount(BoardShapes(o, b, hs, draws, trig)) ==
      if o.withoutLabels then 0
      else if o.withAllLabels then |hs|
      else SideLabelCount(HexagonLabelSides(hs))
    decreases |hs|
  {
    if hs != [] {
      BoardLabelCount(o, b, hs[..|hs| - 1], draws, trig);
      BoardTextStep(o, b, hs, draws, trig);
      LabelSidesStep(hs);
    }
  }

  /**
   * On the standard board of 45 cells the few-labels mode writes 14
   * names, two per row, and the all-labels mode all 45.
   */
  lemma StandardBoardLabelCount(o: BoardOptions, b: BoardConfig, hs: seq<Hexagon>,
                                draws: (nat, nat) -> SegmentDraw, trig: Trig)
    requires b.hexagonWidth != 0.0 && DrawsWellFormed(draws, b.hexagonVertexCount)
    requires |hs| == |StandardCells()|
    requires forall k :: 0 <= k < |hs| ==> MadeFrom(hs[k], StandardCells()[k], b)
    ensures TextCount(BoardShapes(o, b, hs, draws, trig)) ==
      if o.withoutLabels then 0 else if o.withAllLabels then 45 else 14
  {
    BoardLabelCount(o, b, hs, draws, trig);
    StandardCellsIncreasing();
    FourteenSideLabels();
    assert HexagonLabelSides(hs) == CellLabelSides(StandardCells());
  }
}
