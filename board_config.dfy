/**
 * make_board_config: the board's sizes in cm, derived from the cube side,
 * their conversion to device units, and the frames and label settings the
 * drawing uses. `sqrt(3)`, `cos` and `sin` come from a `Trig` value.
 */
module BoardConfigs {
  import opened Scaling
  import opened TinyVectors
  import opened Shapes

  /** The configuration make_board_config returns. */
  datatype BoardConfig = BoardConfig(
    boardWidthCm: real,
    boardHeightCm: real,
    boardWidth: real,
    boardHeight: real,
    boardCutMargin: real,
    boardColor: string,
    hexagonWidth: real,
    hexagonSide: real,
    hexagonHeight: real,
    hexagonPadding: real,
    hexagonLineWidth: real,
    hexagonLineColor: string,
    hexagonOpacity: real,
    hexagonVertexCount: nat,
    hexagonSideAngle: real,
    origin: Vector,
    unitX: Vector,
    unitY: Vector,
    unitU: Vector,
    unitV: Vector,
    labelColor: string,
    labelFontFamily: string,
    labelFontSize: int,
    labelVerticalShift: Vector,
    labelHorizontalShift: Vector)

  const HexagonPaddingCm: real := 0.3
  const HexagonLineWidthCm: real := 0.1 / 4.0
  const MaxHorizontalHexagonCount: nat := 7
  const MaxVerticalHexagonCount: nat := 7
  const BoardCutMarginCm: real := 0.1 / 10.0
  const HexagonVertexCount: nat := 6
  const BoardColor: string := "#BF9B7A"
  const HexagonOpacity: real := 0.45
  const LabelFontFamily: string := "Helvetica"

  /**
   * Margins, then seven hexagon widths across; every other row of the seven
   * adds a side, the others a full height (`7 // 2` and `7 - 7 // 2` rows).
   */
  function BoardWidthCm(hexagonWidthCm: real): real
  {
    BoardCutMarginCm + hexagonWidthCm / 2.0 + MaxHorizontalHexagonCount as real * hexagonWidthCm
      + hexagonWidthCm / 2.0 + BoardCutMarginCm
  }

  function BoardHeightCm(hexagonSideCm: real): real
  {
    var hexagonHeightCm := 2.0 * hexagonSideCm;
    BoardCutMarginCm + hexagonSideCm
      + (MaxVerticalHexagonCount / 2) as real * hexagonSideCm
      + (MaxVerticalHexagonCount - MaxVerticalHexagonCount / 2) as real * hexagonHeightCm
      + hexagonSideCm + BoardCutMarginCm
  }

  /** make_board_config for a cube side `cubeSideCm` (the source uses 1.6). */
  function MakeBoardConfig(cubeSideCm: real, trig: Trig): (b: BoardConfig)
    requires cubeSideCm > 0.0 && trig.sqrt(3.0) > 0.0
    ensures b.boardWidth == DeviceWidth && b.boardWidthCm > 0.0 && b.boardHeightCm > 0.0
    ensures b.hexagonWidth > 0.0 && b.hexagonSide > 0.0
    ensures b.hexagonVertexCount == HexagonVertexCount
  {
    var hexagonWidthCm := 2.0 * cubeSideCm;
    var hexagonSideCm := hexagonWidthCm / trig.sqrt(3.0);
    var hexagonHeightCm := 2.0 * hexagonSideCm;
    var widthCm := BoardWidthCm(hexagonWidthCm);
    var heightCm := BoardHeightCm(hexagonSideCm);
    var hexagonSide := ToDevice(hexagonSideCm, widthCm);
    var sideAngle := 2.0 * trig.pi / HexagonVertexCount as real;
    var unitX := Vector(1.0, 0.0);
    var unitY := Vector(0.0, -1.0);
    BoardConfig(
      boardWidthCm := widthCm,
      boardHeightCm := heightCm,
      boardWidth := DeviceWidth,
      boardHeight := DeviceWidth * (heightCm / widthCm),
      boardCutMargin := ToDevice(BoardCutMarginCm, widthCm),
      boardColor := BoardColor,
      hexagonWidth := ToDevice(hexagonWidthCm, widthCm),
      hexagonSide := hexagonSide,
      hexagonHeight := ToDevice(hexagonHeightCm, widthCm),
      hexagonPadding := ToDevice(HexagonPaddingCm, widthCm),
      hexagonLineWidth := ClampLineWidth(ToDevice(HexagonLineWidthCm, widthCm)),
      hexagonLineColor := ColorToEngrave,
      hexagonOpacity := HexagonOpacity,
      hexagonVertexCount := HexagonVertexCount,
      hexagonSideAngle := sideAngle,
      origin := Origin,
      unitX := unitX,
      unitY := unitY,
      unitU := unitX,
      unitV := unitX.Scaled(trig.cos(sideAngle)).Plus(unitY.Scaled(trig.sin(sideAngle))),
      labelColor := ColorToEngrave,
      labelFontFamily := LabelFontFamily,
      labelFontSize := (ToDevice(hexagonWidthCm, widthCm) * 0.20).Floor,
      labelVerticalShift := unitY.Scaled(-0.60 * hexagonSide),
      labelHorizontalShift := unitX.Scaled(1.20 * hexagonSide))
  }

  /** `1 - hexagon_padding/hexagon_width`: the shrink applied to every drawn hexagon. */
  function HexagonScale(b: BoardConfig): real
    requires b.hexagonWidth != 0.0
  {
    1.0 - b.hexagonPadding / b.hexagonWidth
  }

  // ---------------------------------------------------------------------
  // Properties of the configuration
  // ---------------------------------------------------------------------

  /** The cm sizes: two cut margins and eight hexagon widths across, thirteen sides down. */
  lemma BoardSizesCm(hexagonWidthCm: real, hexagonSideCm: real)
    ensures BoardWidthCm(hexagonWidthCm) == 2.0 * BoardCutMarginCm + 8.0 * hexagonWidthCm
    ensures BoardHeightCm(hexagonSideCm) == 2.0 * BoardCutMarginCm + 13.0 * hexagonSideCm
  {
    assert MaxVerticalHexagonCount / 2 == 3;
  }

  /** In device units the board keeps the aspect ratio of its cm sizes. */
  lemma BoardAspect(cubeSideCm: real, trig: Trig)
    requires cubeSideCm > 0.0 && trig.sqrt(3.0) > 0.0
    ensures var b := MakeBoardConfig(cubeSideCm, trig);
      b.boardHeight / b.boardWidth == b.boardHeightCm / b.boardWidthCm
  {
  }

  /** A length of two margins and n units converts term by term. */
  lemma ConvertsTermByTerm(margin: real, unit: real, n: real, totalCm: real)
    requires totalCm > 0.0
    ensures ToDevice(2.0 * margin + n * unit, totalCm) == 2.0 * ToDevice(margin, totalCm) + n * ToDevice(unit, totalCm)
  {
    ToDeviceLinear(2.0 * margin, n * unit, 0.0, totalCm);
    ToDeviceLinear(margin, 0.0, 2.0, totalCm);
    ToDeviceLinear(unit, 0.0, n, totalCm);
  }

  /** In device units the board is still two cut margins plus eight hexagon widths across. */
  lemma BoardWidthDecomposes(cubeSideCm: real, trig: Trig)
    requires cubeSideCm > 0.0 && trig.sqrt(3.0) > 0.0
    ensures var b := MakeBoardConfig(cubeSideCm, trig);
      b.boardWidth == 2.0 * b.boardCutMargin + 8.0 * b.hexagonWidth
  {
    var b := MakeBoardConfig(cubeSideCm, trig);
    var w := 2.0 * cubeSideCm;
    BoardSizesCm(w, w / trig.sqrt(3.0));
    ToDeviceOfTotal(b.boardWidthCm);
    ConvertsTermByTerm(BoardCutMarginCm, w, 8.0, b.boardWidthCm);
  }

  /** In device units the board is still two cut margins plus thirteen hexagon sides down. */
  lemma BoardHeightDecomposes(cubeSideCm: real, trig: Trig)
    requires cubeSideCm > 0.0 && trig.sqrt(3.0) > 0.0
    ensures var b := MakeBoardConfig(cubeSideCm, trig);
      b.boardHeight == 2.0 * b.boardCutMargin + 13.0 * b.hexagonSide
  {
    var b := MakeBoardConfig(cubeSideCm, trig);
    var w := 2.0 * cubeSideCm;
    var side := w / trig.sqrt(3.0);
    BoardSizesCm(w, side);
    assert b.boardHeight == ToDevice(b.boardHeightCm, b.boardWidthCm);
    ConvertsTermByTerm(BoardCutMarginCm, side, 13.0, b.boardWidthCm);
  }

  /** A hexagon is twice its side high and `sqrt(3)` sides wide. */
  lemma HexagonProportions(cubeSideCm: real, trig: Trig)
    requires cubeSideCm > 0.0 && trig.sqrt(3.0) > 0.0
    ensures var b := MakeBoardConfig(cubeSideCm, trig);
      b.hexagonHeight == 2.0 * b.hexagonSide && b.hexagonWidth == trig.sqrt(3.0) * b.hexagonSide
  {
    var b := MakeBoardConfig(cubeSideCm, trig);
    var w := 2.0 * cubeSideCm;
    var side := w / trig.sqrt(3.0);
    ToDeviceLinear(side, 0.0, 2.0, b.boardWidthCm);
    assert trig.sqrt(3.0) * side == w;
    ToDeviceLinear(side, 0.0, trig.sqrt(3.0), b.boardWidthCm);
  }

  /** The hexagon stroke is at least one unit and never thinner than its proportional width. */
  lemma HexagonStrokeClamped(cubeSideCm: real, trig: Trig)
    requires cubeSideCm > 0.0 && trig.sqrt(3.0) > 0.0
    ensures var b := MakeBoardConfig(cubeSideCm, trig);
      b.hexagonLineWidth >= 1.0 && b.hexagonLineWidth >= ToDevice(HexagonLineWidthCm, b.boardWidthCm)
  {
  }

  /** The hexagons shrink by `1 - 0.3 / (2 * cube_side_cm)`, a value inside (0, 1) once the side exceeds 0.15 cm. */
  lemma HexagonScaleFromCubeSide(cubeSideCm: real, trig: Trig)
    requires cubeSideCm > 0.0 && trig.sqrt(3.0) > 0.0
    ensures HexagonScale(MakeBoardConfig(cubeSideCm, trig)) == 1.0 - HexagonPaddingCm / (2.0 * cubeSideCm)
    ensures 0.0 < HexagonScale(MakeBoardConfig(cubeSideCm, trig)) < 1.0 <==> cubeSideCm > 0.15
  {
    var b := MakeBoardConfig(cubeSideCm, trig);
    ToDeviceKeepsRatio(HexagonPaddingCm, 2.0 * cubeSideCm, b.boardWidthCm);
  }

  /** With the source's 1.6 cm cube side the hexagons are drawn at 29/32 of their size. */
  lemma SourceHexagonScale(trig: Trig)
    requires trig.sqrt(3.0) > 0.0
    ensures HexagonScale(MakeBoardConfig(1.6, trig)) == 29.0 / 32.0
  {
    HexagonScaleFromCubeSide(1.6, trig);
  }

  /** The board's x-y frame is orthonormal. */
  lemma OrthonormalXY(cubeSideCm: real, trig: Trig)
    requires cubeSideCm > 0.0 && trig.sqrt(3.0) > 0.0
    ensures var b := MakeBoardConfig(cubeSideCm, trig);
      Dot(b.unitX, b.unitX) == 1.0 && Dot(b.unitY, b.unitY) == 1.0 && Dot(b.unitX, b.unitY) == 0.0
  {
    var b := MakeBoardConfig(cubeSideCm, trig);
    UnitVectors(cubeSideCm, trig);
    StandardFrame(b.unitX, b.unitY);
  }

  lemma StandardFrame(x: Vector, y: Vector)
    requires x == Vector(1.0, 0.0) && y == Vector(0.0, -1.0)
    ensures Dot(x, x) == 1.0 && Dot(y, y) == 1.0 && Dot(x, y) == 0.0
  {
    assert Dot(x, x) == 1.0;
    assert Dot(y, y) == 1.0;
  }

  /**
   * `unit_v` makes with `unit_u` the angle whose cosine is cos(2*pi/6), and
   * it is a unit vector whenever that cosine and sine lie on the unit circle.
   */
  lemma UnitFrame(cubeSideCm: real, trig: Trig)
    requires cubeSideCm > 0.0 && trig.sqrt(3.0) > 0.0
    ensures var b := MakeBoardConfig(cubeSideCm, trig);
      var c := trig.cos(b.hexagonSideAngle);
      var s := trig.sin(b.hexagonSideAngle);
      && Dot(b.unitU, b.unitV) == c
      && Dot(b.unitY, b.unitV) == s
      && (c * c + s * s == 1.0 ==> Dot(b.unitV, b.unitV) == 1.0)
  {
    var b := MakeBoardConfig(cubeSideCm, trig);
    UnitVectors(cubeSideCm, trig);
    DotOfDirection(trig.cos(b.hexagonSideAngle), trig.sin(b.hexagonSideAngle));
  }

  /** The frame's vectors in coordinates: `unit_v` is (cos, -sin) of the side angle. */
  lemma UnitVectors(cubeSideCm: real, trig: Trig)
    requires cubeSideCm > 0.0 && trig.sqrt(3.0) > 0.0
    ensures var b := MakeBoardConfig(cubeSideCm, trig);
      && b.unitX == Vector(1.0, 0.0) && b.unitY == Vector(0.0, -1.0) && b.unitU == b.unitX
      && b.unitV == Vector(trig.cos(b.hexagonSideAngle), -trig.sin(b.hexagonSideAngle))
  {
  }

  lemma DotOfDirection(c: real, s: real)
    ensures var v := Vector(c, -s);
      && Dot(Vector(1.0, 0.0), v) == c && Dot(Vector(0.0, -1.0), v) == s && Dot(v, v) == c * c + s * s
  {
    var v := Vector(c, -s);
    assert Dot(Vector(1.0, 0.0), v) == c;
    assert Dot(Vector(0.0, -1.0), v) == s;
  }

  /**
   * A label sits 0.6 hexagon sides against `unit_y` (below the centre on
   * the SVG page) in the all-labels mode, or 1.2 sides along `unit_x` to the
   * side otherwise.
   */
  lemma LabelShifts(cubeSideCm: real, trig: Trig)
    requires cubeSideCm > 0.0 && trig.sqrt(3.0) > 0.0
    ensures var b := MakeBoardConfig(cubeSideCm, trig);
      && Dot(b.labelVerticalShift, b.unitY) == -0.6 * b.hexagonSide
      && Dot(b.labelVerticalShift, b.unitX) == 0.0
      && Dot(b.labelHorizontalShift, b.unitX) == 1.2 * b.hexagonSide
      && Dot(b.labelHorizontalShift, b.unitY) == 0.0
      && 0 <= b.labelFontSize && b.labelFontSize as real <= 0.2 * b.hexagonWidth < b.labelFontSize as real + 1.0
  {
  }
}
