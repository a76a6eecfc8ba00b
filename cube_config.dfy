/**
 * make_cube_config: the layout of the 28 cubes on their support sheet, its
 * completion to a full grid, and the sizes of the sheet, the cubes and their
 * decorations in device units.
 */
module CubeConfigs {
  import opened Results
  import opened Scaling

  datatype CubeKind = Rock | Paper | Scissors | Wise

  datatype CubeColor = White | Black

  datatype Cube = Cube(kind: CubeKind, color: CubeColor)

  /** A (row, column) place on the support sheet. */
  type Position = (int, int)

  /** The `layout` dict: a place holds a cube, or `None` once the grid is completed. */
  type Layout = map<Position, Option<Cube>>

  /** The 28 cubes of a game: black on rows 0 to 2, white on rows 3 to 5. */
  function SourceCubeLayout(): (r: Layout)
    ensures None !in r.Values
  {
    map[
      (0, 0) := Some(Cube(Rock, Black)), (0, 1) := Some(Cube(Rock, Black)),
      (0, 2) := Some(Cube(Rock, Black)), (0, 3) := Some(Cube(Rock, Black)),
      (0, 4) := Some(Cube(Wise, Black)), (0, 5) := Some(Cube(Wise, Black)),
      (1, 0) := Some(Cube(Paper, Black)), (1, 1) := Some(Cube(Paper, Black)),
      (1, 2) := Some(Cube(Paper, Black)), (1, 3) := Some(Cube(Paper, Black)),
      (2, 0) := Some(Cube(Scissors, Black)), (2, 1) := Some(Cube(Scissors, Black)),
      (2, 2) := Some(Cube(Scissors, Black)), (2, 3) := Some(Cube(Scissors, Black)),
      (3, 0) := Some(Cube(Scissors, White)), (3, 1) := Some(Cube(Scissors, White)),
      (3, 2) := Some(Cube(Scissors, White)), (3, 3) := Some(Cube(Scissors, White)),
      (4, 0) := Some(Cube(Paper, White)), (4, 1) := Some(Cube(Paper, White)),
      (4, 2) := Some(Cube(Paper, White)), (4, 3) := Some(Cube(Paper, White)),
      (5, 0) := Some(Cube(Rock, White)), (5, 1) := Some(Cube(Rock, White)),
      (5, 2) := Some(Cube(Rock, White)), (5, 3) := Some(Cube(Rock, White)),
      (5, 4) := Some(Cube(Wise, White)), (5, 5) := Some(Cube(Wise, White))
    ]
  }

  // ---------------------------------------------------------------------
  // Row and column counts
  // ---------------------------------------------------------------------

  /** The integers 0 .. n-1. */
  function Range(n: nat): (r: set<int>)
    ensures forall i :: i in r <==> 0 <= i < n
    ensures |r| == n
  {
    if n == 0 then {} else Range(n - 1) + {n - 1}
  }

  /** All places of a rowCount x colCount grid. */
  function Grid(rowCount: nat, colCount: nat): set<Position>
  {
    set r, c | 0 <= r < rowCount && 0 <= c < colCount :: (r, c)
  }

  /** `set([row for (row, _) in layout.keys()])` */
  function RowIndices(keys: set<Position>): set<int> { set p | p in keys :: p.0 }

  /** `set([col for (_, col) in layout.keys()])` */
  function ColIndices(keys: set<Position>): set<int> { set p | p in keys :: p.1 }

  lemma {:induction false} MinExists(s: set<int>)
    requires s != {}
    ensures exists m :: m in s && forall x :: x in s ==> m <= x
  {
    if forall y :: y !in s { assert false; }
    var x :| x in s;
    var rest := s - {x};
    if rest == {} {
      assert s == {x};
    } else {
      MinExists(rest);
      var m :| m in rest && forall y :: y in rest ==> m <= y;
      var least := if x < m then x else m;
      forall y | y in s ensures least <= y {
        if y != x { assert y in rest; }
      }
      assert least in s;
    }
  }

  lemma {:induction false} MaxExists(s: set<int>)
    requires s != {}
    ensures exists m :: m in s && forall x :: x in s ==> x <= m
  {
    if forall y :: y !in s { assert false; }
    var x :| x in s;
    var rest := s - {x};
    if rest == {} {
      assert s == {x};
    } else {
      MaxExists(rest);
      var m :| m in rest && forall y :: y in rest ==> y <= m;
      var greatest := if m < x then x else m;
      forall y | y in s ensures y <= greatest {
        if y != x { assert y in rest; }
      }
      assert greatest in s;
    }
  }

  /** `min(indices)` */
  function SetMin(s: set<int>): (m: int)
    requires s != {}
    ensures m in s && forall x :: x in s ==> m <= x
  {
    MinExists(s);
    var m :| m in s && forall x :: x in s ==> m <= x; m
  }

  /** `max(indices)` */
  function SetMax(s: set<int>): (m: int)
    requires s != {}
    ensures m in s && forall x :: x in s ==> x <= m
  {
    MaxExists(s);
    var m :| m in s && forall x :: x in s ==> x <= m; m
  }

  /** A subset of a finite set of the same size is the whole set. */
  lemma SubsetOfSameSize(a: set<int>, b: set<int>)
    requires a <= b && |a| == |b|
    ensures a == b
  {
    if a != b {
      if forall y :: y in b ==> y in a { assert false; }
      var x :| x in b && x !in a;
      var smaller := b - {x};
      assert a <= smaller;
      assert |smaller| == |b| - 1;
      SubsetCardinality(a, smaller);
    }
  }

  lemma {:induction false} SubsetCardinality(a: set<int>, b: set<int>)
    requires a <= b
    ensures |a| <= |b|
  {
    assert |b| == |a| + |b - a| by {
      assert b == a + (b - a);
    }
  }

  /**
   * The two asserts `min(indices) == 0` and `max(indices) == count - 1`
   * say exactly that the indices are 0 .. count-1.
   */
  lemma {:induction false} MinMaxMeansContiguous(s: set<int>)
    requires s != {}
    ensures SetMin(s) == 0 && SetMax(s) == |s| - 1 <==> s == Range(|s|)
  {
    if SetMin(s) == 0 && SetMax(s) == |s| - 1 {
      assert s <= Range(|s|);
      SubsetOfSameSize(s, Range(|s|));
    }
    if s == Range(|s|) {
      assert 0 in s && |s| - 1 in s;
    }
  }

  /**
   * The count of distinct row (or column) indices, after the source's
   * asserts that they run from 0 without a gap.
   */
  function AxisCount(indices: set<int>): (r: Result<nat>)
    ensures r.Ok? <==> indices != {} && indices == Range(|indices|)
    ensures r.Ok? ==> r.value == |indices| && r.value > 0
    ensures indices == {} ==> r == Err(ValueError)
    ensures r.Err? && indices != {} ==> r == Err(AssertionError)
  {
    if indices == {} then Err(ValueError)
    else
      MinMaxMeansContiguous(indices);
      if SetMin(indices) != 0 then Err(AssertionError)
      else if SetMax(indices) != |indices| - 1 then Err(AssertionError)
      else Ok(|indices|)
  }

  /**
   * The nested loop that gives every place of the grid an entry: the
   * places already in the layout keep their cube, the others get `None`.
   */
  method CompleteLayout(layout: Layout, rowCount: nat, colCount: nat) returns (full: Layout)
    ensures full.Keys == layout.Keys + Grid(rowCount, colCount)
    ensures forall p :: p in layout ==> full[p] == layout[p]
    ensures forall p :: p in full && p !in layout ==> full[p] == None
  {
    full := layout;
    for row := 0 to rowCount
      invariant full.Keys == layout.Keys + Grid(row, colCount)
      invariant forall p :: p in layout ==> full[p] == layout[p]
      invariant forall p :: p in full && p !in layout ==> full[p] == None
    {
      for col := 0 to colCount
        invariant full.Keys == layout.Keys + Grid(row, colCount) + (set c | 0 <= c < col :: (row, c))
        invariant forall p :: p in layout ==> full[p] == layout[p]
        invariant forall p :: p in full && p !in layout ==> full[p] == None
      {
        if (row, col) !in full {
          full := full[(row, col) := None];
        }
      }
      assert Grid(row + 1, colCount) == Grid(row, colCount) + (set c | 0 <= c < colCount :: (row, c));
    }
  }

  // ---------------------------------------------------------------------
  // Sizes
  // ---------------------------------------------------------------------

  /** The lengths in cm that make_cube_config starts from. */
  datatype CubeProfile = CubeProfile(
    cubeSideCm: real,
    cubeCutMarginCm: real,
    cubeShiftCm: real,
    cubeLineWidthCm: real,
    decorationLineWidthCm: real,
    decorationSideCm: real,
    supportCutMarginCm: real)

  /** The profile make_cube_config derives from `cube_side_cm`; the source uses 1.6. */
  function CubeProfileFor(cubeSideCm: real): CubeProfile
  {
    CubeProfile(
      cubeSideCm := cubeSideCm,
      cubeCutMarginCm := 0.1 / 10.0,
      cubeShiftCm := cubeSideCm,
      cubeLineWidthCm := 0.1 / 4.0,
      decorationLineWidthCm := 0.15,
      decorationSideCm := 0.5 * cubeSideCm,
      supportCutMarginCm := 0.1 / 10.0)
  }

  const SourceCubeSideCm: real := 1.6

  ghost predicate PositiveProfile(p: CubeProfile)
  {
    && p.cubeSideCm > 0.0 && p.cubeCutMarginCm > 0.0 && p.cubeShiftCm > 0.0
    && p.cubeLineWidthCm > 0.0 && p.decorationLineWidthCm > 0.0
    && p.decorationSideCm > 0.0 && p.supportCutMarginCm > 0.0
  }

  /** The configuration make_cube_config returns. */
  datatype CubeConfig = CubeConfig(
    cubeSideCm: real,
    layout: Layout,
    rowCount: nat,
    colCount: nat,
    supportWidthCm: real,
    supportHeightCm: real,
    supportColor: string,
    supportWidth: real,
    supportHeight: real,
    supportCutMargin: real,
    cubeSide: real,
    cubeCutMargin: real,
    cubeShift: real,
    cubeLineWidth: real,
    decorationLineWidth: real,
    decorationSide: real)

  /** One side of the support in cm: margins, `count` cube slots and a closing shift. */
  function SupportLengthCm(p: CubeProfile, count: nat): real
  {
    p.supportCutMarginCm + count as real * (p.cubeShiftCm + p.cubeCutMarginCm + p.cubeSideCm)
      + p.cubeShiftCm + p.supportCutMarginCm
  }

  /** The device sizes make_cube_config derives from a cm profile and the grid's counts. */
  function ScaleCubeProfile(p: CubeProfile, layout: Layout, rowCount: nat, colCount: nat): (c: CubeConfig)
    requires PositiveProfile(p)
    ensures c.supportWidth == DeviceWidth && c.supportWidthCm > 0.0 && c.supportHeightCm > 0.0
    ensures c.supportWidthCm == SupportLengthCm(p, colCount) && c.supportHeightCm == SupportLengthCm(p, rowCount)
    ensures c.layout == layout && c.rowCount == rowCount && c.colCount == colCount
    ensures c.cubeSideCm == p.cubeSideCm && c.supportColor == SupportColor
  {
    var widthCm := SupportLengthCm(p, colCount);
    var heightCm := SupportLengthCm(p, rowCount);
    SupportLengthPositive(p, colCount);
    SupportLengthPositive(p, rowCount);
    CubeConfig(
      cubeSideCm := p.cubeSideCm,
      layout := layout,
      rowCount := rowCount,
      colCount := colCount,
      supportWidthCm := widthCm,
      supportHeightCm := heightCm,
      supportColor := SupportColor,
      supportWidth := DeviceWidth,
      supportHeight := DeviceWidth * (heightCm / widthCm),
      supportCutMargin := ToDevice(p.supportCutMarginCm, widthCm),
      cubeSide := ToDevice(p.cubeSideCm, widthCm),
      cubeCutMargin := ToDevice(p.cubeCutMarginCm, widthCm),
      cubeShift := ToDevice(p.cubeShiftCm, widthCm),
      cubeLineWidth := ClampLineWidth(ToDevice(p.cubeLineWidthCm, widthCm)),
      decorationLineWidth := ClampLineWidth(ToDevice(p.decorationLineWidthCm, widthCm)),
      decorationSide := ToDevice(p.decorationSideCm, widthCm))
  }

  lemma SupportLengthPositive(p: CubeProfile, count: nat)
    requires PositiveProfile(p)
    ensures SupportLengthCm(p, count) > 0.0
  {
    var slot := p.cubeShiftCm + p.cubeCutMarginCm + p.cubeSideCm;
    assert slot > 0.0;
    NonNegativeProduct(count as real, slot);
  }

  lemma NonNegativeProduct(a: real, b: real)
    requires a >= 0.0 && b >= 0.0
    ensures a * b >= 0.0
  {
  }

  lemma ScaleMonotone(a: real, b: real, w: real)
    requires a >= b && w > 0.0
    ensures a * w >= b * w
  {
    assert a * w - b * w == (a - b) * w;
    NonNegativeProduct(a - b, w);
  }

  /**
   * Every device length keeps its proportion to the support's width, and
   * every one of them is positive.
   */
  lemma ScaledLengthsKeepProportion(p: CubeProfile, layout: Layout, rowCount: nat, colCount: nat)
    requires PositiveProfile(p)
    ensures var c := ScaleCubeProfile(p, layout, rowCount, colCount);
      && c.supportHeight / c.supportWidth == c.supportHeightCm / c.supportWidthCm
      && c.supportCutMargin / c.supportWidth == p.supportCutMarginCm / c.supportWidthCm
      && c.cubeSide / c.supportWidth == p.cubeSideCm / c.supportWidthCm
      && c.cubeCutMargin / c.supportWidth == p.cubeCutMarginCm / c.supportWidthCm
      && c.cubeShift / c.supportWidth == p.cubeShiftCm / c.supportWidthCm
      && c.decorationSide / c.supportWidth == p.decorationSideCm / c.supportWidthCm
      && c.supportHeight > 0.0 && c.supportCutMargin > 0.0 && c.cubeSide > 0.0
      && c.cubeCutMargin > 0.0 && c.cubeShift > 0.0 && c.decorationSide > 0.0
  {
    var c := ScaleCubeProfile(p, layout, rowCount, colCount);
    assert c.supportHeight == ToDevice(c.supportHeightCm, c.supportWidthCm);
  }

  /**
   * The two stroke widths are at least one device unit and never thinner
   * than the proportional conversion of their cm width.
   */
  lemma ScaledStrokesClamped(p: CubeProfile, layout: Layout, rowCount: nat, colCount: nat)
    requires PositiveProfile(p)
    ensures var c := ScaleCubeProfile(p, layout, rowCount, colCount);
      && c.cubeLineWidth >= 1.0 && c.cubeLineWidth * c.supportWidthCm >= c.supportWidth * p.cubeLineWidthCm
      && c.decorationLineWidth >= 1.0
      && c.decorationLineWidth * c.supportWidthCm >= c.supportWidth * p.decorationLineWidthCm
  {
    var c := ScaleCubeProfile(p, layout, rowCount, colCount);
    ClampedStrokeCoversLength(p.cubeLineWidthCm, c.supportWidthCm);
    ClampedStrokeCoversLength(p.decorationLineWidthCm, c.supportWidthCm);
  }

  /** A clamped stroke is never thinner than the proportional conversion of its cm width. */
  lemma ClampedStrokeCoversLength(lengthCm: real, totalCm: real)
    requires totalCm > 0.0
    ensures ClampLineWidth(ToDevice(lengthCm, totalCm)) * totalCm >= DeviceWidth * lengthCm
  {
    var k := DeviceWidth / totalCm;
    var x := ToDevice(lengthCm, totalCm);
    assert x == k * lengthCm;
    assert k * totalCm == DeviceWidth;
    assert x * totalCm == DeviceWidth * lengthCm;
    ScaleMonotone(ClampLineWidth(x), x, totalCm);
  }

  /**
   * Each side of the support is two cut margins, one slot (shift, cut
   * margin, cube) per place of the grid, and a closing shift.
   */
  predicate SupportFitsGrid(c: CubeConfig)
  {
    && c.supportWidth == 2.0 * c.supportCutMargin
         + c.colCount as real * (c.cubeShift + c.cubeCutMargin + c.cubeSide) + c.cubeShift
    && c.supportHeight == 2.0 * c.supportCutMargin
         + c.rowCount as real * (c.cubeShift + c.cubeCutMargin + c.cubeSide) + c.cubeShift
  }

  /** In device units the support still fits its grid as it does in cm. */
  lemma ScaledSupportDecomposes(p: CubeProfile, layout: Layout, rowCount: nat, colCount: nat)
    requires PositiveProfile(p)
    ensures SupportFitsGrid(ScaleCubeProfile(p, layout, rowCount, colCount))
  {
    var c := ScaleCubeProfile(p, layout, rowCount, colCount);
    DecomposeSupport(p, colCount, c.supportWidthCm);
    DecomposeSupport(p, rowCount, c.supportWidthCm);
    ToDeviceOfTotal(c.supportWidthCm);
    assert c.supportHeight == ToDevice(c.supportHeightCm, c.supportWidthCm);
  }

  /** `support_color` */
  const SupportColor: string := "#BF9B7A"

  /** A side of the support converts into margins, cube slots and a shift, term by term. */
  lemma DecomposeSupport(p: CubeProfile, count: nat, totalCm: real)
    requires PositiveProfile(p) && totalCm > 0.0
    ensures ToDevice(SupportLengthCm(p, count), totalCm)
      == 2.0 * ToDevice(p.supportCutMarginCm, totalCm)
         + count as real * (ToDevice(p.cubeShiftCm, totalCm) + ToDevice(p.cubeCutMarginCm, totalCm)
                            + ToDevice(p.cubeSideCm, totalCm))
         + ToDevice(p.cubeShiftCm, totalCm)
  {
    var k := DeviceWidth / totalCm;
    var slot := p.cubeShiftCm + p.cubeCutMarginCm + p.cubeSideCm;
    assert count as real * slot >= 0.0;
    assert forall a :: ToDevice(a, totalCm) == k * a;
    calc {
      ToDevice(SupportLengthCm(p, count), totalCm);
      k * (2.0 * p.supportCutMarginCm + count as real * slot + p.cubeShiftCm);
      2.0 * (k * p.supportCutMarginCm) + count as real * (k * slot) + k * p.cubeShiftCm;
    }
    assert k * slot == k * p.cubeShiftCm + k * p.cubeCutMarginCm + k * p.cubeSideCm;
  }

  /**
   * make_cube_config for a given layout and cm profile: the row and column
   * counts come from the layout's keys, whose asserts demand indices
   * contiguous from 0; then the grid is completed and the sizes derived.
   */
  method MakeCubeConfigFrom(layout: Layout, p: CubeProfile) returns (r: Result<CubeConfig>)
    requires PositiveProfile(p)
    ensures r.Ok? <==> AxisCount(RowIndices(layout.Keys)).Ok? && AxisCount(ColIndices(layout.Keys)).Ok?
    ensures r.Err? ==> r.error == ValueError || r.error == AssertionError
    ensures r.Ok? ==> var c := r.value;
      && c.rowCount == |RowIndices(layout.Keys)| && c.colCount == |ColIndices(layout.Keys)|
      && c.layout.Keys == Grid(c.rowCount, c.colCount)
      && (forall q :: q in layout ==> q in c.layout && c.layout[q] == layout[q])
      && (forall q :: q in c.layout && q !in layout ==> c.layout[q] == None)
      && c == ScaleCubeProfile(p, c.layout, c.rowCount, c.colCount)
  {
    var rows := AxisCount(RowIndices(layout.Keys));
    if rows.Err? {
      return Err(rows.error);
    }
    var cols := AxisCount(ColIndices(layout.Keys));
    if cols.Err? {
      return Err(cols.error);
    }
    var full := CompleteLayout(layout, rows.value, cols.value);
    forall q | q in layout
      ensures q in Grid(rows.value, cols.value)
    {
      assert q.0 in RowIndices(layout.Keys) && q.1 in ColIndices(layout.Keys);
    }
    r := Ok(ScaleCubeProfile(p, full, rows.value, cols.value));
  }

  /** Every key of the source layout lies in the 6 x 6 square. */
  lemma KeysBounded()
    ensures forall p :: p in SourceCubeLayout() ==> 0 <= p.0 < 6 && 0 <= p.1 < 6
  {
  }
  /** The source layout has a cube in every row of column 0 and every column of row 0. */
  lemma KeysCover()
    ensures forall i :: 0 <= i < 6 ==> (i, 0) in SourceCubeLayout() && (0, i) in SourceCubeLayout()
  {
  }

  /** A key set inside the n x n square that touches every row and column has indices 0 .. n-1. */
  lemma SquareIndices(keys: set<Position>, n: nat)
    requires forall p :: p in keys ==> 0 <= p.0 < n && 0 <= p.1 < n
    requires forall i :: 0 <= i < n ==> (i, 0) in keys && (0, i) in keys
    ensures RowIndices(keys) == Range(n) && ColIndices(keys) == Range(n)
  {
    forall i | i in Range(n) ensures i in RowIndices(keys) && i in ColIndices(keys) {
      assert (i, 0) in keys && (0, i) in keys;
    }
  }
  /** The source layout has 6 rows and 6 columns, each indexed from 0 without a gap. */
  lemma SourceLayoutIndices()
    ensures RowIndices(SourceCubeLayout().Keys) == Range(6)
    ensures ColIndices(SourceCubeLayout().Keys) == Range(6)
  {
    KeysBounded();
    KeysCover();
    SquareIndices(SourceCubeLayout().Keys, 6);
  }

  /** make_cube_config as the source runs it. */
  method MakeCubeConfig() returns (r: Result<CubeConfig>)
    ensures r.Ok?
    ensures r.value.rowCount == 6 && r.value.colCount == 6
    ensures r.value.layout.Keys == Grid(6, 6)
    ensures forall q :: q in SourceCubeLayout() ==> r.value.layout[q] == SourceCubeLayout()[q]
    ensures forall q :: q in r.value.layout && q !in SourceCubeLayout() ==> r.value.layout[q] == None
    ensures r.value == ScaleCubeProfile(CubeProfileFor(SourceCubeSideCm), r.value.layout, 6, 6)
  {
    SourceLayoutIndices();
    r := MakeCubeConfigFrom(SourceCubeLayout(), CubeProfileFor(SourceCubeSideCm));
  }

  /**
   * The device cube side does not scale with `cube_side_cm`: the shift
   * between cubes is tied to the side, so the sheet grows with it, and
   * going from 1.6 cm to 2.0 cm leaves the side at almost the same number
   * of device units, nowhere near the ratio 1.6 / 2.0.
   */
  lemma CubeSideNotProportional(layout: Layout)
    ensures var small := ScaleCubeProfile(CubeProfileFor(1.6), layout, 6, 6);
            var large := ScaleCubeProfile(CubeProfileFor(2.0), layout, 6, 6);
            small.cubeSide / large.cubeSide != 1.6 / 2.0
            && 0.99 < small.cubeSide / large.cubeSide < 1.0
  {
    var small := ScaleCubeProfile(CubeProfileFor(1.6), layout, 6, 6);
    var large := ScaleCubeProfile(CubeProfileFor(2.0), layout, 6, 6);
    assert small.supportWidthCm == 20.88;
    assert large.supportWidthCm == 26.08;
    assert small.cubeSide == DeviceWidth * (1.6 / 20.88);
    assert large.cubeSide == DeviceWidth * (2.0 / 26.08);
  }
}
