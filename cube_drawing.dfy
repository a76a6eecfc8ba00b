/**
 * draw_cubes_and_support, draw_cube and the glyph functions: the name the
 * cube sheet is saved under, and the shapes appended to its drawing. First
 * comes the support rectangle. Then, for every place of the completed grid
 * that holds a cube, in row-major order: its cut square (laser support
 * only), its body (rendering only) and its glyph.
 */
module CubeDrawing {
  import opened Results
  import opened TinyVectors
  import opened Shapes
  import opened Scaling
  import opened CubeConfigs

  /** The keyword arguments of draw_cubes_and_support. */
  datatype CubesOptions = CubesOptions(doRendering: bool, drawSupport: bool, drawDecorations: bool)

  /** The three pictures draw_cubes_and_support can make. */
  datatype CubesMode = Rendered | LaserSupport | LaserDecorations

  // ---------------------------------------------------------------------
  // Which picture, and its file name
  // ---------------------------------------------------------------------

  /**
   * The assert at the top of draw_cubes_and_support and the choice of the
   * file name: a laser picture is either the support or the decorations,
   * never both and never neither.
   */
  function CubesModeOf(o: CubesOptions): (r: Result<CubesMode>)
    ensures r.Err? <==> !o.doRendering && o.drawSupport == o.drawDecorations
    ensures r.Err? ==> r.error == AssertionError
    ensures r == Ok(Rendered) <==> o.doRendering
    ensures r == Ok(LaserSupport) <==> !o.doRendering && o.drawSupport && !o.drawDecorations
    ensures r == Ok(LaserDecorations) <==> !o.doRendering && !o.drawSupport && o.drawDecorations
  {
    if o.doRendering then Ok(Rendered)
    else if o.drawSupport == o.drawDecorations then Err(AssertionError)
    else if o.drawSupport then Ok(LaserSupport)
    else Ok(LaserDecorations)
  }

  /** `file_name` of each picture. */
  function CubesFileName(m: CubesMode): (r: string)
    ensures |r| > 8 && r[..8] == "pijersi_"
    ensures LaserName(r) <==> m != Rendered
  {
    match m
    case Rendered => "pijersi_cubes"
    case LaserSupport => "pijersi_laser_cubes_support"
    case LaserDecorations => "pijersi_laser_cubes_decorations"
  }

  /** The name of a picture for the laser cutter. */
  predicate LaserName(name: string)
  {
    |name| >= 14 && name[..14] == "pijersi_laser_"
  }

  /** Each picture has its own file name, and only laser pictures are named `pijersi_laser_...`. */
  lemma CubesFileNamesDistinct(m1: CubesMode, m2: CubesMode)
    ensures CubesFileName(m1) == CubesFileName(m2) <==> m1 == m2
    ensures LaserName(CubesFileName(m1)) <==> m1 != Rendered
  {
    if m1 != Rendered {
      assert CubesFileName(m1)[..14] == "pijersi_laser_";
    }
    if m1 != m2 {
      assert |CubesFileName(m1)| != |CubesFileName(m2)|;
    }
  }

  // ---------------------------------------------------------------------
  // The support sheet
  // ---------------------------------------------------------------------

  /**
   * The outer rectangle: the whole sheet in the support colour when
   * rendering; inset by the support's cut margin and cut along its edge on
   * the laser support; the whole sheet outlined in black on the laser
   * decorations.
   */
  function SupportOuter(c: CubeConfig, m: CubesMode): (r: Shape)
    ensures r.Rectangle? && r.fillOpacity == None && r.lineJoin == None
    ensures m != LaserSupport ==>
      r.x == 0.0 && r.y == 0.0 && r.width == c.supportWidth && r.height == c.supportHeight
    ensures m == LaserSupport ==>
      && r.x == c.supportCutMargin && r.y == c.supportCutMargin
      && r.x + r.width == c.supportWidth - c.supportCutMargin
      && r.y + r.height == c.supportHeight - c.supportCutMargin
    ensures r.fill == Solid(if m == Rendered then c.supportColor else "white")
    ensures m == Rendered ==> r.stroke == None && r.strokeWidth == None
    ensures m == LaserSupport ==> r.stroke == Some(ColorToCut2) && r.strokeWidth == Some(LineWidthToCut)
    ensures m == LaserDecorations ==> r.stroke == Some("black") && r.strokeWidth == None
  {
    match m
    case Rendered =>
      Rectangle(0.0, 0.0, c.supportWidth, c.supportHeight, Solid(c.supportColor), None, None, None, None)
    case LaserSupport =>
      Rectangle(c.supportCutMargin, c.supportCutMargin,
                c.supportWidth - 2.0 * c.supportCutMargin, c.supportHeight - 2.0 * c.supportCutMargin,
                Solid("white"), None, Some(ColorToCut2), Some(LineWidthToCut), None)
    case LaserDecorations =>
      Rectangle(0.0, 0.0, c.supportWidth, c.supportHeight, Solid("white"), None, Some("black"), None, None)
  }

  /** The frame draw_cubes_and_support gives its drawing: the support's size, from the origin. */
  ghost predicate SupportFrame(canvas: Canvas, c: CubeConfig)
  {
    && canvas.width == c.supportWidth && canvas.height == c.supportHeight
    && canvas.origin == Vector(0.0, 0.0)
    && canvas.renderWidthCm == c.supportWidthCm && canvas.renderHeightCm == c.supportHeightCm
  }

  // ---------------------------------------------------------------------
  // Where the cubes go
  // ---------------------------------------------------------------------

  /** `cube_shift + index*(cube_cut_margin + cube_side + cube_shift)`: where the cubes of a column (or row) start. */
  function CubeOffset(c: CubeConfig, index: nat): real
  {
    c.cubeShift + index as real * (c.cubeCutMargin + c.cubeSide + c.cubeShift)
  }

  /** `(cube_x, cube_y)` of the place (row, col). */
  function CubeCorner(c: CubeConfig, row: nat, col: nat): (r: Vector)
    ensures row == 0 && col == 0 ==> r == Vector(c.cubeShift, c.cubeShift)
    ensures PositiveSizes(c) ==> c.cubeShift <= r.x && c.cubeShift <= r.y
  {
    OffsetAtLeastShift(c, col);
    OffsetAtLeastShift(c, row);
    Vector(CubeOffset(c, col), CubeOffset(c, row))
  }

  /** With positive sizes no cube starts before the first shift. */
  lemma OffsetAtLeastShift(c: CubeConfig, index: nat)
    ensures PositiveSizes(c) ==> CubeOffset(c, index) >= c.cubeShift
  {
    if PositiveSizes(c) {
      NonNegativeProduct(index as real, c.cubeCutMargin + c.cubeSide + c.cubeShift);
    }
  }

  /** The square cut around a cube on the laser support: half a cut margin wider on every side. */
  function CutSquare(c: CubeConfig, corner: Vector): (r: Shape)
    ensures r.Rectangle? && r.stroke == Some(ColorToCut1)
    ensures r.width == r.height == c.cubeSide + c.cubeCutMargin
    ensures r.x + r.width / 2.0 == corner.x + c.cubeSide / 2.0 && r.y + r.height / 2.0 == corner.y + c.cubeSide / 2.0
  {
    Rectangle(corner.x - c.cubeCutMargin / 2.0, corner.y - c.cubeCutMargin / 2.0,
              c.cubeSide + c.cubeCutMargin, c.cubeSide + c.cubeCutMargin,
              Solid("white"), None, Some(ColorToCut1), Some(LineWidthToCut), None)
  }

  /** The device lengths the placement needs, positive as make_cube_config makes them. */
  predicate PositiveSizes(c: CubeConfig)
  {
    c.cubeSide > 0.0 && c.cubeCutMargin > 0.0 && c.cubeShift > 0.0 && c.supportCutMargin > 0.0
  }

  /** make_cube_config's device lengths are positive. */
  lemma ScaledSizesPositive(p: CubeProfile, layout: Layout, rowCount: nat, colCount: nat)
    requires PositiveProfile(p)
    ensures PositiveSizes(ScaleCubeProfile(p, layout, rowCount, colCount))
  {
    var c := ScaleCubeProfile(p, layout, rowCount, colCount);
    assert c.cubeSide == ToDevice(p.cubeSideCm, c.supportWidthCm);
    assert c.cubeCutMargin == ToDevice(p.cubeCutMarginCm, c.supportWidthCm);
    assert c.cubeShift == ToDevice(p.cubeShiftCm, c.supportWidthCm);
    assert c.supportCutMargin == ToDevice(p.supportCutMarginCm, c.supportWidthCm);
  }

  /** A later column (or row) starts a whole number of slots after an earlier one, so at least one. */
  lemma OffsetGap(c: CubeConfig, i: nat, j: nat)
    requires PositiveSizes(c) && i < j
    ensures CubeOffset(c, j) - CubeOffset(c, i) >= c.cubeCutMargin + c.cubeSide + c.cubeShift
    ensures j == i + 1 ==> CubeOffset(c, j) - CubeOffset(c, i) == c.cubeCutMargin + c.cubeSide + c.cubeShift
  {
    var slot := c.cubeCutMargin + c.cubeSide + c.cubeShift;
    assert CubeOffset(c, j) - CubeOffset(c, i) == (j - i) as real * slot;
    NonNegativeProduct((j - i - 1) as real, slot);
    assert (j - i) as real * slot == (j - i - 1) as real * slot + slot;
  }

  /**
   * The cut squares of two different places never overlap: along the row
   * or along the column that tells them apart, one ends at least a cube
   * shift before the other starts, and exactly one when they are neighbours.
   */
  lemma CutSquaresApart(c: CubeConfig, row1: nat, col1: nat, row2: nat, col2: nat)
    requires PositiveSizes(c) && (row1, col1) != (row2, col2)
    ensures var a, b := CutSquare(c, CubeCorner(c, row1, col1)), CutSquare(c, CubeCorner(c, row2, col2));
      || a.x + a.width + c.cubeShift <= b.x || b.x + b.width + c.cubeShift <= a.x
      || a.y + a.height + c.cubeShift <= b.y || b.y + b.height + c.cubeShift <= a.y
    ensures row1 == row2 && col2 == col1 + 1 ==>
      var a, b := CutSquare(c, CubeCorner(c, row1, col1)), CutSquare(c, CubeCorner(c, row2, col2));
      b.x - (a.x + a.width) == c.cubeShift && a.y == b.y
  {
    if col1 < col2 {
      OffsetGap(c, col1, col2);
    } else if col2 < col1 {
      OffsetGap(c, col2, col1);
    } else if row1 < row2 {
      OffsetGap(c, row1, row2);
    } else {
      OffsetGap(c, row2, row1);
    }
  }

  /** A cube lies strictly inside its cut square, half a cut margin from each of its sides. */
  lemma CubeInsideCutSquare(c: CubeConfig, row: nat, col: nat)
    requires PositiveSizes(c)
    ensures var corner, a := CubeCorner(c, row, col), CutSquare(c, CubeCorner(c, row, col));
      && a.x < corner.x && corner.x + c.cubeSide < a.x + a.width
      && a.y < corner.y && corner.y + c.cubeSide < a.y + a.height
      && corner.x - a.x == a.x + a.width - (corner.x + c.cubeSide) == c.cubeCutMargin / 2.0
  {
  }

  /**
   * On a side of `length == 2*margin + count*slot + shift`, the cut square
   * of any of the `count` places ends strictly before the inner edge of the
   * support's cut margin, and starts after it when the shift is wide enough.
   */
  lemma CutSquareWithin(c: CubeConfig, count: nat, index: nat, length: real)
    requires PositiveSizes(c) && index < count
    requires length == 2.0 * c.supportCutMargin
      + count as real * (c.cubeShift + c.cubeCutMargin + c.cubeSide) + c.cubeShift
    ensures CubeOffset(c, index) - c.cubeCutMargin / 2.0 + (c.cubeSide + c.cubeCutMargin)
      < length - c.supportCutMargin
    ensures c.cubeShift - c.cubeCutMargin / 2.0 > c.supportCutMargin ==>
      CubeOffset(c, index) - c.cubeCutMargin / 2.0 > c.supportCutMargin
  {
    var slot := c.cubeShift + c.cubeCutMargin + c.cubeSide;
    NonNegativeProduct((count - 1 - index) as real, slot);
    NonNegativeProduct(index as real, slot);
    assert count as real * slot == index as real * slot + slot + (count - 1 - index) as real * slot;
  }

  /**
   * On a support that fits its grid, every cut square, the last one
   * included, ends strictly inside the support's own cut line.
   */
  lemma CutSquaresInsideSupport(c: CubeConfig, row: nat, col: nat)
    requires PositiveSizes(c) && SupportFitsGrid(c) && row < c.rowCount && col < c.colCount
    ensures var a := CutSquare(c, CubeCorner(c, row, col));
      && a.x + a.width < c.supportWidth - c.supportCutMargin
      && a.y + a.height < c.supportHeight - c.supportCutMargin
  {
    CutSquareWithin(c, c.colCount, col, c.supportWidth);
    CutSquareWithin(c, c.rowCount, row, c.supportHeight);
  }

  // ---------------------------------------------------------------------
  // A cube and its glyph
  // ---------------------------------------------------------------------

  /** `'black' if abstract_cube.color == CubeColor.BLACK else 'white'` */
  function CubeFillColor(color: CubeColor): string
  {
    if color == Black then "black" else "white"
  }

  /** The glyph's stroke: on a rendered cube the colour it is not; on a laser picture, black. */
  function GlyphStroke(doRendering: bool, color: CubeColor): (r: string)
    ensures doRendering ==> r != CubeFillColor(color) && (r == "black" || r == "white")
    ensures !doRendering ==> r == "black"
  {
    if doRendering then (if color == Black then "white" else "black") else "black"
  }

  /** The rendered cube: a filled square of the cube's side. */
  function CubeBody(c: CubeConfig, cube: Cube, corner: Vector): Shape
  {
    Rectangle(corner.x, corner.y, c.cubeSide, c.cubeSide, Solid(CubeFillColor(cube.color)), None, None, None, None)
  }

  /** draw_rock: a circle of diameter `decoration_side` at the cube's centre. */
  function RockShape(c: CubeConfig, corner: Vector, stroke: string): Shape
  {
    Circle(corner.x + c.cubeSide / 2.0, corner.y + c.cubeSide / 2.0, c.decorationSide / 2.0,
           NoFill, Some(0.0), Some(stroke), Some(c.decorationLineWidth))
  }

  /** draw_paper: a square of side `decoration_side`, set in by half of it. */
  function PaperShape(c: CubeConfig, corner: Vector, stroke: string): Shape
  {
    Rectangle(corner.x + c.decorationSide / 2.0, corner.y + c.decorationSide / 2.0,
              c.decorationSide, c.decorationSide,
              NoFill, Some(0.0), Some(stroke), Some(c.decorationLineWidth), Some("miter"))
  }

  /** Segment `k` of draw_scissors: the falling diagonal (0) or the rising one (1) of the paper square. */
  function ScissorsSegment(c: CubeConfig, corner: Vector, stroke: string, k: nat): Shape
    requires k < 2
  {
    var near, far := c.decorationSide / 2.0, c.decorationSide * 3.0 / 2.0;
    var start := if k == 0 then Vector(corner.x + near, corner.y + near) else Vector(corner.x + far, corner.y + near);
    var end := if k == 0 then Vector(corner.x + far, corner.y + far) else Vector(corner.x + near, corner.y + far);
    Line(start, end, NoFill, Some(0.0), Some(stroke), Some(c.decorationLineWidth), Some("butt"))
  }

  /** The two segments of draw_scissors, in order. */
  function ScissorsShapes(c: CubeConfig, corner: Vector, stroke: string): (r: seq<Shape>)
    ensures |r| == 2
  {
    [ScissorsSegment(c, corner, stroke, 0), ScissorsSegment(c, corner, stroke, 1)]
  }

  /** `angle_count` of draw_wise. */
  const WisePointCount: nat := 100

  /** `angle_index*2*math.pi/angle_count` */
  function WiseAngle(k: nat, trig: Trig): real
  {
    k as real * 2.0 * trig.pi / WisePointCount as real
  }

  /** `1 + angle_sinus**2`, never zero. */
  function LemniscateDenominator(s: real): (q: real)
    ensures q >= 1.0
  {
    1.0 + s * s
  }

  /**
   * The lemniscate point for a cosine `co` and a sine `s`, with draw_wise's
   * `delta_x` and `delta_y`.
   */
  function LemniscatePoint(centre: Vector, deltaX: real, deltaY: real, co: real, s: real): Vector
  {
    var q := LemniscateDenominator(s);
    Vector(centre.x + deltaX * co / q, centre.y + deltaY * co * s / q)
  }

  /** Point `k` of the lemniscate of Bernoulli draw_wise traces around the cube's centre. */
  function WisePoint(c: CubeConfig, corner: Vector, k: nat, trig: Trig): Vector
  {
    var angle := WiseAngle(k, trig);
    LemniscatePoint(Vector(corner.x + c.cubeSide / 2.0, corner.y + c.cubeSide / 2.0),
                    c.decorationSide / 2.0, c.decorationSide, trig.cos(angle), trig.sin(angle))
  }

  /** The points of `wise_data`, in order. */
  function WisePoints(c: CubeConfig, corner: Vector, trig: Trig): (r: seq<Vector>)
    ensures |r| == WisePointCount
  {
    seq(WisePointCount, k requires 0 <= k => WisePoint(c, corner, k, trig))
  }

  /** draw_wise: the closed polyline through the lemniscate's points. */
  function WiseShape(c: CubeConfig, corner: Vector, stroke: string, trig: Trig): Shape
  {
    Lines(WisePoints(c, corner, trig), NoFill, Some(0.0), Some(stroke), Some(c.decorationLineWidth), true)
  }

  /** The glyph draw_cube dispatches to by the cube's kind. */
  function Glyph(c: CubeConfig, cube: Cube, corner: Vector, doRendering: bool, trig: Trig): seq<Shape>
  {
    var stroke := GlyphStroke(doRendering, cube.color);
    match cube.kind
    case Rock => [RockShape(c, corner, stroke)]
    case Paper => [PaperShape(c, corner, stroke)]
    case Scissors => ScissorsShapes(c, corner, stroke)
    case Wise => [WiseShape(c, corner, stroke, trig)]
  }

  /** draw_cube: the body when rendering, then the glyph when rendering or drawing the decorations. */
  function CubeShapes(c: CubeConfig, cube: Cube, corner: Vector, doRendering: bool, drawDecorations: bool,
                      trig: Trig): seq<Shape>
  {
    (if doRendering then [CubeBody(c, cube, corner)] else [])
      + (if doRendering || drawDecorations then Glyph(c, cube, corner, doRendering, trig) else [])
  }

  /**
   * The glyph by kind: a ROCK is one circle, a PAPER one mitred square, a
   * SCISSORS two butt-ended lines, a WISE one closed polyline of 100
   * points; none is filled, and all are stroked alike.
   */
  lemma GlyphByKind(c: CubeConfig, cube: Cube, corner: Vector, doRendering: bool, trig: Trig)
    ensures var g := Glyph(c, cube, corner, doRendering, trig);
      && (cube.kind == Rock ==> |g| == 1 && g[0].Circle?)
      && (cube.kind == Paper ==> |g| == 1 && g[0].Rectangle? && g[0].lineJoin == Some("miter"))
      && (cube.kind == Scissors ==>
            |g| == 2 && g[0].Line? && g[1].Line? && g[0].lineCap == Some("butt") && g[1].lineCap == Some("butt"))
      && (cube.kind == Wise ==> |g| == 1 && g[0].Lines? && g[0].closed && |g[0].points| == WisePointCount)
      && forall i :: 0 <= i < |g| ==>
           && !g[i].Text? && g[i].fill == NoFill && g[i].fillOpacity == Some(0.0)
           && g[i].stroke == Some(GlyphStroke(doRendering, cube.color))
           && g[i].strokeWidth == Some(c.decorationLineWidth)
  {
  }

  /**
   * When the decoration side is half the cube's side, as make_cube_config
   * makes it, the glyphs sit in the middle of the cube: the rock's centre
   * and the paper's centre are the cube's centre, and the scissors are the
   * two diagonals of the paper square, crossing there.
   */
  lemma GlyphsCentred(c: CubeConfig, corner: Vector, stroke: string)
    requires c.decorationSide * 2.0 == c.cubeSide
    ensures var centre := Vector(corner.x + c.cubeSide / 2.0, corner.y + c.cubeSide / 2.0);
      var rock, paper := RockShape(c, corner, stroke), PaperShape(c, corner, stroke);
      && Vector(rock.cx, rock.cy) == centre
      && Vector(paper.x + paper.width / 2.0, paper.y + paper.height / 2.0) == centre
      && forall k :: 0 <= k < 2 ==>
           var s := ScissorsSegment(c, corner, stroke, k);
           && s.start.Plus(s.end).Scaled(0.5) == centre
           && {s.start.x, s.end.x} == {paper.x, paper.x + paper.width}
           && {s.start.y, s.end.y} == {paper.y, paper.y + paper.height}
  {
    var centre := Vector(corner.x + c.cubeSide / 2.0, corner.y + c.cubeSide / 2.0);
    var ds := c.decorationSide;
    forall k | 0 <= k < 2
      ensures var s := ScissorsSegment(c, corner, stroke, k); s.start.Plus(s.end).Scaled(0.5) == centre
    {
      var s := ScissorsSegment(c, corner, stroke, k);
      assert (ds / 2.0 + ds * 3.0 / 2.0) * 0.5 == c.cubeSide / 2.0;
      assert s.start.Plus(s.end).Scaled(0.5) == centre;
    }
  }

  /** make_cube_config makes the decoration side half the cube's side. */
  lemma DecorationHalfCube(sideCm: real, layout: Layout, rowCount: nat, colCount: nat)
    requires sideCm > 0.0
    ensures PositiveProfile(CubeProfileFor(sideCm))
    ensures var c := ScaleCubeProfile(CubeProfileFor(sideCm), layout, rowCount, colCount);
      c.decorationSide * 2.0 == c.cubeSide
  {
    var p := CubeProfileFor(sideCm);
    var c := ScaleCubeProfile(p, layout, rowCount, colCount);
    ToDeviceLinear(sideCm, 0.0, 0.5, c.supportWidthCm);
    assert c.decorationSide == ToDevice(0.5 * sideCm, c.supportWidthCm);
  }

  /** A number between -bound and bound stays there when divided by at least one. */
  lemma DivideByAtLeastOne(a: real, q: real, bound: real)
    requires q >= 1.0 && -bound <= a <= bound
    ensures -bound <= a / q <= bound
  {
    assert a / q * q == a;
  }

  /** On the unit circle, `co/(1 + s^2)` lies in [-1, 1] and `co*s/(1 + s^2)` in [-1/2, 1/2]. */
  lemma LemniscateBounds(co: real, s: real)
    requires co * co + s * s == 1.0
    ensures -1.0 <= co / LemniscateDenominator(s) <= 1.0
    ensures -0.5 <= co * s / LemniscateDenominator(s) <= 0.5
  {
    var q := LemniscateDenominator(s);
    assert (co - s) * (co - s) >= 0.0 && (co + s) * (co + s) >= 0.0;
    assert -0.5 <= co * s <= 0.5;
    DivideByAtLeastOne(co * s, q, 0.5);
    assert co * co <= 1.0;
    assert -1.0 <= co <= 1.0;
    DivideByAtLeastOne(co, q, 1.0);
  }

  /**
   * With a sine and cosine on the unit circle, the wise glyph stays within
   * the square of side `decoration_side` centred on the cube: the square the
   * paper glyph draws when the decoration side is half the cube's.
   */
  lemma WiseWithinSquare(c: CubeConfig, corner: Vector, k: nat, trig: Trig)
    requires c.decorationSide >= 0.0
    requires var angle := WiseAngle(k, trig);
      trig.cos(angle) * trig.cos(angle) + trig.sin(angle) * trig.sin(angle) == 1.0
    ensures var p := WisePoint(c, corner, k, trig);
      && corner.x + c.cubeSide / 2.0 - c.decorationSide / 2.0 <= p.x <= corner.x + c.cubeSide / 2.0 + c.decorationSide / 2.0
      && corner.y + c.cubeSide / 2.0 - c.decorationSide / 2.0 <= p.y <= corner.y + c.cubeSide / 2.0 + c.decorationSide / 2.0
  {
    var angle := WiseAngle(k, trig);
    LemniscateWithin(Vector(corner.x + c.cubeSide / 2.0, corner.y + c.cubeSide / 2.0),
                     c.decorationSide / 2.0, c.decorationSide, trig.cos(angle), trig.sin(angle));
  }

  /**
   * A lemniscate point of a point on the unit circle lies within `delta_x`
   * of the centre across and within `delta_y/2` of it down.
   */
  lemma LemniscateWithin(centre: Vector, deltaX: real, deltaY: real, co: real, s: real)
    requires deltaX >= 0.0 && deltaY >= 0.0 && co * co + s * s == 1.0
    ensures var p := LemniscatePoint(centre, deltaX, deltaY, co, s);
      && centre.x - deltaX <= p.x <= centre.x + deltaX
      && centre.y - deltaY / 2.0 <= p.y <= centre.y + deltaY / 2.0
  {
    LemniscateXWithin(deltaX, co, s);
    LemniscateYWithin(deltaY, co, s);
  }

  /** The offset across, `delta_x*co/(1 + s^2)`, lies within `delta_x`. */
  lemma LemniscateXWithin(deltaX: real, co: real, s: real)
    requires deltaX >= 0.0 && co * co + s * s == 1.0
    ensures -deltaX <= deltaX * co / LemniscateDenominator(s) <= deltaX
  {
    var q := LemniscateDenominator(s);
    var t := co / q;
    assert -1.0 <= t <= 1.0 by {
      LemniscateBounds(co, s);
    }
    assert -(deltaX * 1.0) <= deltaX * t <= deltaX * 1.0 by {
      ScaledWithin(deltaX, t, 1.0);
    }
    assert deltaX * co / q == deltaX * t by {
      MulDiv(deltaX, co, q);
    }
  }

  /** The offset down, `delta_y*co*s/(1 + s^2)`, lies within `delta_y/2`. */
  lemma LemniscateYWithin(deltaY: real, co: real, s: real)
    requires deltaY >= 0.0 && co * co + s * s == 1.0
    ensures -(deltaY / 2.0) <= deltaY * co * s / LemniscateDenominator(s) <= deltaY / 2.0
  {
    var q := LemniscateDenominator(s);
    var t := co * s / q;
    assert -0.5 <= t <= 0.5 by {
      LemniscateBounds(co, s);
    }
    assert -(deltaY * 0.5) <= deltaY * t <= deltaY * 0.5 by {
      ScaledWithin(deltaY, t, 0.5);
    }
    assert deltaY * co * s / q == deltaY * t by {
      MulMulDiv(deltaY, co, s, q);
    }
  }

  /** `k*a*b/q == k*(a*b/q)` */
  lemma MulMulDiv(k: real, a: real, b: real, q: real)
    requires q != 0.0
    ensures k * a * b / q == k * (a * b / q)
  {
    assert k * a * b == k * (a * b);
    MulDiv(k, a * b, q);
  }

  /** `k*a/q == k*(a/q)` */
  lemma MulDiv(k: real, a: real, q: real)
    requires q != 0.0
    ensures k * a / q == k * (a / q)
  {
    assert k * (a / q) * q == k * a;
  }

  /** `k*t` lies within `k*bound` of zero when `t` lies within `bound`, for `k >= 0`. */
  lemma ScaledWithin(k: real, t: real, bound: real)
    requires k >= 0.0 && -bound <= t <= bound
    ensures -(k * bound) <= k * t <= k * bound
  {
    assert k * (bound - t) >= 0.0 && k * (bound + t) >= 0.0;
  }

  // ---------------------------------------------------------------------
  // Drawing one cube
  // ---------------------------------------------------------------------

  /** draw_rock */
  method DrawRock(canvas: Canvas, c: CubeConfig, cube: Cube, corner: Vector, doRendering: bool)
    modifies canvas
    ensures canvas.shapes == old(canvas.shapes) + [RockShape(c, corner, GlyphStroke(doRendering, cube.color))]
  {
    canvas.Append(RockShape(c, corner, GlyphStroke(doRendering, cube.color)));
  }

  /** draw_paper */
  method DrawPaper(canvas: Canvas, c: CubeConfig, cube: Cube, corner: Vector, doRendering: bool)
    modifies canvas
    ensures canvas.shapes == old(canvas.shapes) + [PaperShape(c, corner, GlyphStroke(doRendering, cube.color))]
  {
    canvas.Append(PaperShape(c, corner, GlyphStroke(doRendering, cube.color)));
  }

  /** draw_scissors: its two segments, in turn. */
  method DrawScissors(canvas: Canvas, c: CubeConfig, cube: Cube, corner: Vector, doRendering: bool)
    modifies canvas
    ensures canvas.shapes == old(canvas.shapes) + ScissorsShapes(c, corner, GlyphStroke(doRendering, cube.color))
  {
    var stroke := GlyphStroke(doRendering, cube.color);
    for k := 0 to 2
      invariant canvas.shapes == old(canvas.shapes) + ScissorsShapes(c, corner, stroke)[..k]
    {
      canvas.Append(ScissorsSegment(c, corner, stroke, k));
      assert ScissorsShapes(c, corner, stroke)[..k + 1] == ScissorsShapes(c, corner, stroke)[..k] + [ScissorsSegment(c, corner, stroke, k)];
    }
  }

  /** draw_wise: the lemniscate's points, gathered one angle at a time, as one closed polyline. */
  method DrawWise(canvas: Canvas, c: CubeConfig, cube: Cube, corner: Vector, doRendering: bool, trig: Trig)
    modifies canvas
    ensures canvas.shapes == old(canvas.shapes) + [WiseShape(c, corner, GlyphStroke(doRendering, cube.color), trig)]
  {
    var points: seq<Vector> := [];
    for k := 0 to WisePointCount
      invariant points == WisePoints(c, corner, trig)[..k]
    {
      points := points + [WisePoint(c, corner, k, trig)];
    }
    assert points == WisePoints(c, corner, trig);
    canvas.Append(Lines(points, NoFill, Some(0.0), Some(GlyphStroke(doRendering, cube.color)),
                        Some(c.decorationLineWidth), true));
  }

  /** draw_cube */
  method DrawCube(canvas: Canvas, c: CubeConfig, cube: Cube, corner: Vector, doRendering: bool, drawDecorations: bool,
                  trig: Trig)
    modifies canvas
    ensures canvas.shapes == old(canvas.shapes) + CubeShapes(c, cube, corner, doRendering, drawDecorations, trig)
  {
    ghost var before := canvas.shapes;
    if doRendering {
      canvas.Append(CubeBody(c, cube, corner));
    }
    ghost var body := canvas.shapes;
    if doRendering || drawDecorations {
      match cube.kind
      case Rock => DrawRock(canvas, c, cube, corner, doRendering);
      case Paper => DrawPaper(canvas, c, cube, corner, doRendering);
      case Scissors => DrawScissors(canvas, c, cube, corner, doRendering);
      case Wise => DrawWise(canvas, c, cube, corner, doRendering, trig);
    }
    AppendAssoc(before, body[|before|..], canvas.shapes[|body|..]);
  }

  // ---------------------------------------------------------------------
  // The whole sheet
  // ---------------------------------------------------------------------

  /** The places (row, 0) .. (row, cols - 1) are keys of the layout. */
  predicate RowPresent(c: CubeConfig, row: nat, cols: nat)
  {
    forall col :: 0 <= col < cols ==> (row, col) in c.layout
  }

  /** Every place of the first `rows` rows of the grid is a key of the layout. */
  predicate RowsPresent(c: CubeConfig, rows: nat)
  {
    forall row: nat :: row < rows ==> RowPresent(c, row, c.colCount)
  }

  /** What the loop body draws at a place: the cut square on the laser support, then the cube, if there is one. */
  function PlaceShapes(c: CubeConfig, o: CubesOptions, row: nat, col: nat, place: Option<Cube>, trig: Trig): seq<Shape>
  {
    match place
    case None => []
    case Some(cube) =>
      (if !o.doRendering && o.drawSupport then [CutSquare(c, CubeCorner(c, row, col))] else [])
        + CubeShapes(c, cube, CubeCorner(c, row, col), o.doRendering, o.drawDecorations, trig)
  }

  /** The shapes of the first `cols` places of a row. */
  function RowShapes(c: CubeConfig, o: CubesOptions, row: nat, cols: nat, trig: Trig): seq<Shape>
    requires RowPresent(c, row, cols)
  {
    if cols == 0 then []
    else RowShapes(c, o, row, cols - 1, trig) + PlaceShapes(c, o, row, cols - 1, c.layout[(row, cols - 1)], trig)
  }

  /** The shapes of the first `rows` rows, each of `col_count` places. */
  function GridShapes(c: CubeConfig, o: CubesOptions, rows: nat, trig: Trig): seq<Shape>
    requires RowsPresent(c, rows)
  {
    if rows == 0 then []
    else GridShapes(c, o, rows - 1, trig) + RowShapes(c, o, rows - 1, c.colCount, trig)
  }

  /** One turn of the inner loop of draw_cubes_and_support, at a place that is a key of the layout. */
  method DrawPlace(canvas: Canvas, c: CubeConfig, o: CubesOptions, row: nat, col: nat, trig: Trig)
    requires (row, col) in c.layout
    modifies canvas
    ensures canvas.shapes == old(canvas.shapes) + PlaceShapes(c, o, row, col, c.layout[(row, col)], trig)
  {
    var place := c.layout[(row, col)];
    if place.Some? {
      var corner := CubeCorner(c, row, col);
      ghost var before := canvas.shapes;
      if !o.doRendering && o.drawSupport {
        canvas.Append(CutSquare(c, corner));
      }
      ghost var cut := canvas.shapes;
      DrawCube(canvas, c, place.value, corner, o.doRendering, o.drawDecorations, trig);
      AppendAssoc(before, cut[|before|..], canvas.shapes[|cut|..]);
    }
  }

  /**
   * The inner loop of draw_cubes_and_support: the places of one row, left
   * to right, until one is missing from the layout.
   */
  method DrawRow(canvas: Canvas, c: CubeConfig, o: CubesOptions, row: nat, trig: Trig) returns (complete: bool)
    modifies canvas
    ensures complete <==> RowPresent(c, row, c.colCount)
    ensures complete ==> canvas.shapes == old(canvas.shapes) + RowShapes(c, o, row, c.colCount, trig)
  {
    for col := 0 to c.colCount
      invariant RowPresent(c, row, col)
      invariant canvas.shapes == old(canvas.shapes) + RowShapes(c, o, row, col, trig)
    {
      if (row, col) !in c.layout {
        return false;
      }
      DrawPlace(canvas, c, o, row, col, trig);
      AppendAssoc(old(canvas.shapes), RowShapes(c, o, row, col, trig),
                  PlaceShapes(c, o, row, col, c.layout[(row, col)], trig));
    }
    return true;
  }

  /**
   * draw_cubes_and_support: the assert on the options, the support
   * rectangle, then every place of the `row_count` x `col_count` grid,
   * row by row. A place missing from the layout raises `KeyError`.
   */
  method DrawCubesAndSupport(c: CubeConfig, o: CubesOptions, trig: Trig) returns (r: Result<Picture>)
    ensures r.Ok? <==> CubesModeOf(o).Ok? && RowsPresent(c, c.rowCount)
    ensures r.Err? ==> (r.error == AssertionError <==> CubesModeOf(o).Err?)
    ensures r.Err? ==> (r.error == AssertionError || r.error == KeyError)
    ensures r.Ok? ==>
      && fresh(r.value.canvas)
      && r.value.fileName == CubesFileName(CubesModeOf(o).value)
      && SupportFrame(r.value.canvas, c)
      && r.value.canvas.shapes == [SupportOuter(c, CubesModeOf(o).value)] + GridShapes(c, o, c.rowCount, trig)
  {
    var mode := CubesModeOf(o);
    if mode.Err? {
      return Err(AssertionError);
    }
    var fileName := CubesFileName(mode.value);
    var canvas := new Canvas(c.supportWidth, c.supportHeight, Vector(0.0, 0.0), c.supportWidthCm, c.supportHeightCm);
    var outer := SupportOuter(c, mode.value);
    canvas.Append(outer);
    for row := 0 to c.rowCount
      invariant RowsPresent(c, row)
      invariant canvas.shapes == [outer] + GridShapes(c, o, row, trig)
    {
      var complete := DrawRow(canvas, c, o, row, trig);
      if !complete {
        assert !RowsPresent(c, c.rowCount) by {
          assert !RowPresent(c, row, c.colCount);
        }
        return Err(KeyError);
      }
      AppendAssoc([outer], GridShapes(c, o, row, trig), RowShapes(c, o, row, c.colCount, trig));
    }
    r := Ok(Picture(fileName, canvas));
  }

  // ---------------------------------------------------------------------
  // What the options decide
  // ---------------------------------------------------------------------

  /**
   * A layout completed to its whole grid, as make_cube_config leaves it,
   * has every place the drawing loop looks up, so drawing it never raises
   * KeyError.
   */
  lemma CompletedGridDrawable(c: CubeConfig)
    requires c.layout.Keys == Grid(c.rowCount, c.colCount)
    ensures RowsPresent(c, c.rowCount)
  {
    forall row: nat, col | row < c.rowCount && 0 <= col < c.colCount
      ensures (row, col) in c.layout
    {
      assert (row, col) in Grid(c.rowCount, c.colCount);
    }
  }

  /** A place draws the same shapes under any two options that pass the assert and make the same picture. */
  lemma SameModeSamePlace(c: CubeConfig, o1: CubesOptions, o2: CubesOptions, row: nat, col: nat,
                          place: Option<Cube>, trig: Trig)
    requires CubesModeOf(o1).Ok? && CubesModeOf(o1) == CubesModeOf(o2)
    ensures PlaceShapes(c, o1, row, col, place, trig) == PlaceShapes(c, o2, row, col, place, trig)
  {
    assert o1.doRendering == o2.doRendering;
    assert (o1.doRendering || o1.drawDecorations) == (o2.doRendering || o2.drawDecorations);
  }

  lemma {:induction false} SameModeSameRow(c: CubeConfig, o1: CubesOptions, o2: CubesOptions, row: nat, cols: nat,
                                           trig: Trig)
    requires CubesModeOf(o1).Ok? && CubesModeOf(o1) == CubesModeOf(o2) && RowPresent(c, row, cols)
    ensures RowShapes(c, o1, row, cols, trig) == RowShapes(c, o2, row, cols, trig)
    decreases cols
  {
    if cols > 0 {
      SameModeSameRow(c, o1, o2, row, cols - 1, trig);
      SameModeSamePlace(c, o1, o2, row, cols - 1, c.layout[(row, cols - 1)], trig);
    }
  }

  /**
   * Options that pass the assert and make the same picture draw the same
   * grid: when rendering, `draw_support` and `draw_decorations` change
   * nothing.
   */
  lemma {:induction false} SameModeSameGrid(c: CubeConfig, o1: CubesOptions, o2: CubesOptions, rows: nat, trig: Trig)
    requires CubesModeOf(o1).Ok? && CubesModeOf(o1) == CubesModeOf(o2) && RowsPresent(c, rows)
    ensures GridShapes(c, o1, rows, trig) == GridShapes(c, o2, rows, trig)
    decreases rows
  {
    if rows > 0 {
      SameModeSameGrid(c, o1, o2, rows - 1, trig);
      SameModeSameRow(c, o1, o2, rows - 1, c.colCount, trig);
    }
  }

  /** Options of a laser picture that pass the assert: the support or the decorations. */
  predicate LaserOptions(o: CubesOptions)
  {
    !o.doRendering && o.drawSupport != o.drawDecorations
  }

  /** The one stroke colour of the cube shapes of a laser picture: cut lines on the support, black on the decorations. */
  function LaserStroke(o: CubesOptions): string
  {
    if o.drawSupport then ColorToCut1 else "black"
  }

  /** Every shape of `shapes` has a stroke, and it is `color`. */
  ghost predicate AllStroked(shapes: seq<Shape>, color: string)
  {
    forall i :: 0 <= i < |shapes| ==> !shapes[i].Text? && shapes[i].stroke == Some(color)
  }

  lemma AllStrokedConcat(a: seq<Shape>, b: seq<Shape>, color: string)
    requires AllStroked(a, color) && AllStroked(b, color)
    ensures AllStroked(a + b, color)
  {
    forall i | 0 <= i < |a + b| ensures !(a + b)[i].Text? && (a + b)[i].stroke == Some(color) {
      if i >= |a| {
        assert (a + b)[i] == b[i - |a|];
      }
    }
  }

  /** On a laser picture, what a place draws is stroked with the picture's one colour. */
  lemma PlaceStroked(c: CubeConfig, o: CubesOptions, row: nat, col: nat, place: Option<Cube>, trig: Trig)
    requires LaserOptions(o)
    ensures AllStroked(PlaceShapes(c, o, row, col, place, trig), LaserStroke(o))
  {
    if place.Some? && o.drawDecorations {
      var corner := CubeCorner(c, row, col);
      GlyphByKind(c, place.value, corner, false, trig);
      assert PlaceShapes(c, o, row, col, place, trig) == Glyph(c, place.value, corner, false, trig);
    }
  }

  lemma {:induction false} RowStroked(c: CubeConfig, o: CubesOptions, row: nat, cols: nat, trig: Trig)
    requires LaserOptions(o)
    requires RowPresent(c, row, cols)
    ensures AllStroked(RowShapes(c, o, row, cols, trig), LaserStroke(o))
    decreases cols
  {
    if cols > 0 {
      RowStroked(c, o, row, cols - 1, trig);
      PlaceStroked(c, o, row, cols - 1, c.layout[(row, cols - 1)], trig);
      AllStrokedConcat(RowShapes(c, o, row, cols - 1, trig),
                       PlaceShapes(c, o, row, cols - 1, c.layout[(row, cols - 1)], trig),
                       LaserStroke(o));
    }
  }

  /**
   * A laser picture's cubes carry one stroke colour: the support sheet
   * holds only the cut squares' cut lines, and the decorations sheet only
   * black engraving, with nothing to cut.
   */
  lemma {:induction false} LaserGridStroked(c: CubeConfig, o: CubesOptions, rows: nat, trig: Trig)
    requires LaserOptions(o)
    requires RowsPresent(c, rows)
    ensures AllStroked(GridShapes(c, o, rows, trig), LaserStroke(o))
    decreases rows
  {
    if rows > 0 {
      LaserGridStroked(c, o, rows - 1, trig);
      RowStroked(c, o, rows - 1, c.colCount, trig);
      AllStrokedConcat(GridShapes(c, o, rows - 1, trig), RowShapes(c, o, rows - 1, c.colCount, trig),
                       LaserStroke(o));
    }
  }
}
