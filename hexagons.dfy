/**
 * The board's 45 hexagonal cells: their static table, and the class-level
 * registry of `Hexagon` that indexes them by name and by axial position,
 * lists them in name order. The row layout and the six axial neighbour
 * steps that `init` stores are constant data; here they are constants,
 * and `GetLayout` hands out the layout once `init` has run.
 */
module Hexagons {
  import opened Results
  import opened TinyVectors
  import opened BoardConfigs
  import opened Names

  datatype Side = North | South | West | East

  /**
   * The `label_side` of a cell: the table gives a side to the cells at the
   * ends of each row and leaves the others at the default `0`.
   */
  datatype LabelSide = Unset | OnSide(side: Side)

  /** An axial (u, v) position. */
  type PositionUV = (int, int)

  /** One line of the table: name, axial position, ring and label side. */
  datatype CellSpec = CellSpec(name: string, positionUV: PositionUV, ring: int, labelSide: LabelSide)

  /**
   * A row of the table: cells named by the row's letter and their column
   * number from 1 up to `count`, all at axial `v`, each one step of `u` after the one
   * before; the first labelled West, the last East, the others unset.
   */
  predicate TableRow(cells: seq<CellSpec>, letter: char, v: int, count: nat)
  {
    && |cells| == count && 2 <= count <= 9
    && forall k :: 0 <= k < count ==> RowCell(cells[k], letter, (cells[0].positionUV.0 + k, v), k, count)
  }

  /** The k-th cell of such a row, of `count` cells, at `uv`. */
  predicate RowCell(cell: CellSpec, letter: char, uv: PositionUV, k: nat, count: nat)
    requires k < count <= 9
  {
    && cell.name == [letter, ('1' as int + k) as char]
    && cell.positionUV == uv
    && cell.labelSide == (if k == 0 then OnSide(West) else if k == count - 1 then OnSide(East) else Unset)
  }

  /** Row "a" of the board. */
  function RowA(): (r: seq<CellSpec>)
    ensures TableRow(r, 'a', -3, 6)
  {
    [
      CellSpec("a1", (-1, -3), 0, OnSide(West)),
      CellSpec("a2", (0, -3), 0, Unset),
      CellSpec("a3", (1, -3), 0, Unset),
      CellSpec("a4", (2, -3), 0, Unset),
      CellSpec("a5", (3, -3), 0, Unset),
      CellSpec("a6", (4, -3), 0, OnSide(East))
    ]
  }

  /** Row "b" of the board. */
  function RowB(): (r: seq<CellSpec>)
    ensures TableRow(r, 'b', -2, 7)
  {
    [
      CellSpec("b1", (-2, -2), 0, OnSide(West)),
      CellSpec("b2", (-1, -2), 1, Unset),
      CellSpec("b3", (0, -2), 1, Unset),
      CellSpec("b4", (1, -2), 1, Unset),
      CellSpec("b5", (2, -2), 1, Unset),
      CellSpec("b6", (3, -2), 1, Unset),
      CellSpec("b7", (4, -2), 0, OnSide(East))
    ]
  }

  /** Row "c" of the board. */
  function RowC(): (r: seq<CellSpec>)
    ensures TableRow(r, 'c', -1, 6)
  {
    [
      CellSpec("c1", (-2, -1), 0, OnSide(West)),
      CellSpec("c2", (-1, -1), 1, Unset),
      CellSpec("c3", (0, -1), 2, Unset),
      CellSpec("c4", (1, -1), 2, Unset),
      CellSpec("c5", (2, -1), 1, Unset),
      CellSpec("c6", (3, -1), 0, OnSide(East))
    ]
  }

  /** Row "d" of the board. */
  function RowD(): (r: seq<CellSpec>)
    ensures TableRow(r, 'd', 0, 7)
  {
    [
      CellSpec("d1", (-3, 0), 0, OnSide(West)),
      CellSpec("d2", (-2, 0), 1, Unset),
      CellSpec("d3", (-1, 0), 2, Unset),
      CellSpec("d4", (0, 0), 3, Unset),
      CellSpec("d5", (1, 0), 2, Unset),
      CellSpec("d6", (2, 0), 1, Unset),
      CellSpec("d7", (3, 0), 0, OnSide(East))
    ]
  }

  /** Row "e" of the board. */
  function RowE(): (r: seq<CellSpec>)
    ensures TableRow(r, 'e', 1, 6)
  {
    [
      CellSpec("e1", (-3, 1), 0, OnSide(West)),
      CellSpec("e2", (-2, 1), 1, Unset),
      CellSpec("e3", (-1, 1), 2, Unset),
      CellSpec("e4", (0, 1), 2, Unset),
      CellSpec("e5", (1, 1), 1, Unset),
      CellSpec("e6", (2, 1), 0, OnSide(East))
    ]
  }

  /** Row "f" of the board. */
  function RowF(): (r: seq<CellSpec>)
    ensures TableRow(r, 'f', 2, 7)
  {
    [
      CellSpec("f1", (-4, 2), 0, OnSide(West)),
      CellSpec("f2", (-3, 2), 1, Unset),
      CellSpec("f3", (-2, 2), 1, Unset),
      CellSpec("f4", (-1, 2), 1, Unset),
      CellSpec("f5", (0, 2), 1, Unset),
      CellSpec("f6", (1, 2), 1, Unset),
      CellSpec("f7", (2, 2), 0, OnSide(East))
    ]
  }

  /** Row "g" of the board. */
  function RowG(): (r: seq<CellSpec>)
    ensures TableRow(r, 'g', 3, 6)
  {
    [
      CellSpec("g1", (-4, 3), 0, OnSide(West)),
      CellSpec("g2", (-3, 3), 0, Unset),
      CellSpec("g3", (-2, 3), 0, Unset),
      CellSpec("g4", (-1, 3), 0, Unset),
      CellSpec("g5", (0, 3), 0, Unset),
      CellSpec("g6", (1, 3), 0, OnSide(East))
    ]
  }
  /** The 45 cells in the order `__create_hexagons` builds them, row "a" to row "g". */
  function StandardCells(): (r: seq<CellSpec>)
    ensures |r| == 45
    ensures r[22].name == "d4" && r[22].positionUV == (0, 0)
  {
    RowA() + RowB() + RowC() + RowD() + RowE() + RowF() + RowG()
  }

  /** A row of `__layout`: an indentation offset and the names of the row's cells. */
  datatype LayoutRow = LayoutRow(offset: int, names: seq<string>)

  /** The names of the first `count` cells of row `letter`: the letter, then the column number. */
  function RowNames(letter: char, count: nat): seq<string>
    requires count <= 9
  {
    seq(count, k requires 0 <= k < count => [letter, ('1' as int + k) as char])
  }

  /** The names of each row, written out. */
  lemma RowNamesSpelled()
    ensures RowNames('g', 6) == ["g1", "g2", "g3", "g4", "g5", "g6"]
    ensures RowNames('f', 7) == ["f1", "f2", "f3", "f4", "f5", "f6", "f7"]
    ensures RowNames('e', 6) == ["e1", "e2", "e3", "e4", "e5", "e6"]
    ensures RowNames('d', 7) == ["d1", "d2", "d3", "d4", "d5", "d6", "d7"]
    ensures RowNames('c', 6) == ["c1", "c2", "c3", "c4", "c5", "c6"]
    ensures RowNames('b', 7) == ["b1", "b2", "b3", "b4", "b5", "b6", "b7"]
    ensures RowNames('a', 6) == ["a1", "a2", "a3", "a4", "a5", "a6"]
  {
  }

  /** `__create_layout`: the rows from "g" (top) down to "a". */
  function StandardLayout(): seq<LayoutRow>
  {
    [ LayoutRow(1, RowNames('g', 6)),
      LayoutRow(0, RowNames('f', 7)),
      LayoutRow(1, RowNames('e', 6)),
      LayoutRow(0, RowNames('d', 7)),
      LayoutRow(1, RowNames('c', 6)),
      LayoutRow(0, RowNames('b', 7)),
      LayoutRow(1, RowNames('a', 6)) ]
  }

  /** `__create_delta_u_and_v`: the six axial steps to a neighbouring cell. */
  const DeltaU: seq<int> := [1, 1, 0, -1, -1, 0]
  const DeltaV: seq<int> := [0, -1, -1, 0, 1, 1]

  /** What `__create_layout` and `__create_delta_u_and_v` leave behind. */
  predicate LayoutCreated(layout: seq<LayoutRow>, deltaU: seq<int>, deltaV: seq<int>)
  {
    layout == StandardLayout() && deltaU == DeltaU && deltaV == DeltaV
  }

  /** `origin + hexagon_width*(u*unit_u + v*unit_v)` */
  function CenterOf(board: BoardConfig, uv: PositionUV): (r: Vector)
    ensures uv == (0, 0) ==> r == board.origin
  {
    board.origin.Plus(board.unitU.Scaled(uv.0 as real).Plus(board.unitV.Scaled(uv.1 as real)).Scaled(board.hexagonWidth))
  }

  /** The names of a sequence of cells, in order. */
  function CellNames(cells: seq<CellSpec>): seq<string>
  {
    seq(|cells|, k requires 0 <= k < |cells| => cells[k].name)
  }

  /** The label sides of a sequence of cells, in order. */
  function CellLabelSides(cells: seq<CellSpec>): seq<LabelSide>
  {
    seq(|cells|, k requires 0 <= k < |cells| => cells[k].labelSide)
  }

  /** How many of the label sides are West or East. */
  function SideLabelCount(sides: seq<LabelSide>): (n: nat)
    ensures n <= |sides|
  {
    if sides == [] then 0
    else
      var last := sides[|sides| - 1];
      SideLabelCount(sides[..|sides| - 1]) + (if last == OnSide(West) || last == OnSide(East) then 1 else 0)
  }

  lemma {:induction false} SideLabelCountDistributes(a: seq<LabelSide>, b: seq<LabelSide>)
    ensures SideLabelCount(a + b) == SideLabelCount(a) + SideLabelCount(b)
    decreases |b|
  {
    if b == [] {
      assert a + b == a;
    } else {
      assert (a + b)[..|a + b| - 1] == a + b[..|b| - 1];
      SideLabelCountDistributes(a, b[..|b| - 1]);
    }
  }

  // ---------------------------------------------------------------------
  // Order and distinctness of the table
  // ---------------------------------------------------------------------

  /** Row-major order on axial positions: by v, then by u. */
  predicate PositionLess(p: PositionUV, q: PositionUV)
  {
    p.1 < q.1 || (p.1 == q.1 && p.0 < q.0)
  }

  /** A cell comes before another in both name order and position order. */
  predicate CellBefore(a: CellSpec, b: CellSpec)
  {
    NameLess(a.name, b.name) && PositionLess(a.positionUV, b.positionUV)
  }

  /** Each cell comes before the next one, and every name has two characters. */
  predicate Increasing(cells: seq<CellSpec>)
  {
    && (forall i :: 0 <= i < |cells| ==> |cells[i].name| == 2)
    && (forall i :: 0 < i < |cells| ==> CellBefore(cells[i - 1], cells[i]))
  }

  lemma {:induction false} IncreasingConcat(a: seq<CellSpec>, b: seq<CellSpec>)
    requires Increasing(a) && Increasing(b)
    requires |a| > 0 && |b| > 0 && CellBefore(a[|a| - 1], b[0])
    ensures Increasing(a + b)
  {
    var c := a + b;
    forall i | 0 < i < |c| ensures CellBefore(c[i - 1], c[i]) {
      if i < |a| {
        assert c[i - 1] == a[i - 1] && c[i] == a[i];
      } else if i == |a| {
        assert c[i - 1] == a[|a| - 1] && c[i] == b[0];
      } else {
        assert c[i - 1] == b[i - 1 - |a|] && c[i] == b[i - |a|];
      }
    }
  }

  lemma RowAIncreasing()
    ensures Increasing(RowA())
  {
  }

  lemma RowBIncreasing()
    ensures Increasing(RowB())
  {
  }

  lemma RowCIncreasing()
    ensures Increasing(RowC())
  {
  }

  lemma RowDIncreasing()
    ensures Increasing(RowD())
  {
    var r := RowD();
    assert CellBefore(r[0], r[1]) && CellBefore(r[1], r[2]) && CellBefore(r[2], r[3]);
    assert CellBefore(r[3], r[4]) && CellBefore(r[4], r[5]) && CellBefore(r[5], r[6]);
  }

  lemma RowEIncreasing()
    ensures Increasing(RowE())
  {
  }

  lemma RowFIncreasing()
    ensures Increasing(RowF())
  {
  }

  lemma RowGIncreasing()
    ensures Increasing(RowG())
  {
  }

  /** The table is listed in strictly increasing name order and position order. */
  lemma {:induction false} StandardCellsIncreasing()
    ensures Increasing(StandardCells()) && |StandardCells()| == 45
  {
    RowAIncreasing(); RowBIncreasing(); RowCIncreasing(); RowDIncreasing();
    RowEIncreasing(); RowFIncreasing(); RowGIncreasing();
    IncreasingConcat(RowA(), RowB());
    IncreasingConcat(RowA() + RowB(), RowC());
    IncreasingConcat(RowA() + RowB() + RowC(), RowD());
    IncreasingConcat(RowA() + RowB() + RowC() + RowD(), RowE());
    IncreasingConcat(RowA() + RowB() + RowC() + RowD() + RowE(), RowF());
    IncreasingConcat(RowA() + RowB() + RowC() + RowD() + RowE() + RowF(), RowG());
  }

  lemma PositionLessTransitive(p: PositionUV, q: PositionUV, r: PositionUV)
    requires PositionLess(p, q) && PositionLess(q, r)
    ensures PositionLess(p, r)
  {
  }

  /** In an increasing sequence every cell comes before every later one. */
  lemma {:induction false} IncreasingIsStrict(cells: seq<CellSpec>, i: int, j: int)
    requires Increasing(cells) && 0 <= i < j < |cells|
    ensures CellBefore(cells[i], cells[j])
    decreases j - i
  {
    if i + 1 < j {
      IncreasingIsStrict(cells, i, j - 1);
      NameLessTransitive(cells[i].name, cells[j - 1].name, cells[j].name);
      PositionLessTransitive(cells[i].positionUV, cells[j - 1].positionUV, cells[j].positionUV);
    }
  }

  /** The names of the table, in table order, are strictly sorted. */
  lemma StandardNamesSorted()
    ensures StrictlySorted(CellNames(StandardCells()))
  {
    StandardCellsIncreasing();
    var names := CellNames(StandardCells());
    forall i, j | 0 <= i < j < |names| ensures NameLess(names[i], names[j]) {
      IncreasingIsStrict(StandardCells(), i, j);
    }
  }

  // ---------------------------------------------------------------------
  // Facts about the table
  // ---------------------------------------------------------------------

  lemma {:induction false} CellLabelSidesDistribute(a: seq<CellSpec>, b: seq<CellSpec>)
    ensures CellLabelSides(a + b) == CellLabelSides(a) + CellLabelSides(b)
  {
  }

  lemma {:induction false} SideLabelsOfRows(a: seq<CellSpec>, b: seq<CellSpec>)
    ensures SideLabelCount(CellLabelSides(a + b)) == SideLabelCount(CellLabelSides(a)) + SideLabelCount(CellLabelSides(b))
  {
    CellLabelSidesDistribute(a, b);
    SideLabelCountDistributes(CellLabelSides(a), CellLabelSides(b));
  }

  /** A West label followed only by unset sides counts once. */
  lemma {:induction false} LeadingWestOnly(sides: seq<LabelSide>)
    requires |sides| >= 1 && sides[0] == OnSide(West)
    requires forall i :: 0 < i < |sides| ==> sides[i] == Unset
    ensures SideLabelCount(sides) == 1
  {
    if |sides| > 1 {
      LeadingWestOnly(sides[..|sides| - 1]);
    }
  }

  /** A row whose only label sides are West at its start and East at its end counts twice. */
  lemma RowEndsLabelled(cells: seq<CellSpec>)
    requires |cells| >= 2 && cells[0].labelSide == OnSide(West) && cells[|cells| - 1].labelSide == OnSide(East)
    requires forall i :: 0 < i < |cells| - 1 ==> cells[i].labelSide == Unset
    ensures SideLabelCount(CellLabelSides(cells)) == 2
  {
    var sides := CellLabelSides(cells);
    LeadingWestOnly(sides[..|sides| - 1]);
  }

  /** Fourteen cells of the table, two per row, have a West or East label side. */
  lemma {:induction false} FourteenSideLabels()
    ensures SideLabelCount(CellLabelSides(StandardCells())) == 14
  {
    RowEndsLabelled(RowA()); RowEndsLabelled(RowB()); RowEndsLabelled(RowC()); RowEndsLabelled(RowD());
    RowEndsLabelled(RowE()); RowEndsLabelled(RowF()); RowEndsLabelled(RowG());
    SideLabelsOfRows(RowA(), RowB());
    SideLabelsOfRows(RowA() + RowB(), RowC());
    SideLabelsOfRows(RowA() + RowB() + RowC(), RowD());
    SideLabelsOfRows(RowA() + RowB() + RowC() + RowD(), RowE());
    SideLabelsOfRows(RowA() + RowB() + RowC() + RowD() + RowE(), RowF());
    SideLabelsOfRows(RowA() + RowB() + RowC() + RowD() + RowE() + RowF(), RowG());
  }

  /** The number of axial steps from d4 at (0, 0) to a position. */
  function HexDistance(uv: PositionUV): (d: int)
    ensures d >= 0
    ensures d == 0 <==> uv == (0, 0)
  {
    var (u, v) := uv;
    var au := if u < 0 then -u else u;
    var av := if v < 0 then -v else v;
    var aw := if u + v < 0 then -(u + v) else u + v;
    (au + av + aw) / 2
  }

  /**
   * `ring` is data of the table, not the distance to the centre: a2 and b2
   * are both three steps from d4, in rings 0 and 1.
   */
  lemma RingIsNotHexDistance()
    ensures StandardCells()[1].name == "a2" && StandardCells()[7].name == "b2"
    ensures HexDistance(StandardCells()[1].positionUV) == 3 && HexDistance(StandardCells()[7].positionUV) == 3
    ensures StandardCells()[1].ring == 0 && StandardCells()[7].ring == 1
  {
    assert StandardCells()[1] == RowA()[1];
    assert StandardCells()[7] == RowB()[1];
  }

  /**
   * The layout lists the rows from "g" down to "a", each with its cells'
   * names in table order; the six-cell rows are indented by one, the
   * seven-cell rows by none.
   */
  lemma LayoutMatchesTable()
    ensures |StandardLayout()| == 7
    ensures StandardLayout()[0].names == CellNames(RowG()) && StandardLayout()[1].names == CellNames(RowF())
    ensures StandardLayout()[2].names == CellNames(RowE()) && StandardLayout()[3].names == CellNames(RowD())
    ensures StandardLayout()[4].names == CellNames(RowC()) && StandardLayout()[5].names == CellNames(RowB())
    ensures StandardLayout()[6].names == CellNames(RowA())
    ensures forall i :: 0 <= i < 7 ==>
      (|StandardLayout()[i].names| == 6 && StandardLayout()[i].offset == 1)
      || (|StandardLayout()[i].names| == 7 && StandardLayout()[i].offset == 0)
  {
    var layout := StandardLayout();
    assert layout[0].names == CellNames(RowG()) by { TableRowNames(RowG(), 'g', 3, 6); }
    assert layout[1].names == CellNames(RowF()) by { TableRowNames(RowF(), 'f', 2, 7); }
    assert layout[2].names == CellNames(RowE()) by { TableRowNames(RowE(), 'e', 1, 6); }
    assert layout[3].names == CellNames(RowD()) by { TableRowNames(RowD(), 'd', 0, 7); }
    assert layout[4].names == CellNames(RowC()) by { TableRowNames(RowC(), 'c', -1, 6); }
    assert layout[5].names == CellNames(RowB()) by { TableRowNames(RowB(), 'b', -2, 7); }
    assert layout[6].names == CellNames(RowA()) by { TableRowNames(RowA(), 'a', -3, 6); }
  }

  /** A row of the table is named as its layout row: the letter, then 1, 2, ... */
  lemma TableRowNames(cells: seq<CellSpec>, letter: char, v: int, count: nat)
    requires TableRow(cells, letter, v, count)
    ensures CellNames(cells) == RowNames(letter, count)
  {
    forall k | 0 <= k < |cells|
      ensures CellNames(cells)[k] == RowNames(letter, count)[k]
    {
    }
  }

  /** The six steps lead from d4 to its six neighbours c3, c4, d3, d5, e3 and e4, all cells of the table. */
  lemma CentreNeighbours()
    ensures |DeltaU| == 6 && |DeltaV| == 6
    ensures forall k :: 0 <= k < 6 ==> (DeltaU[k], DeltaV[k]) in {(1, 0), (1, -1), (0, -1), (-1, 0), (-1, 1), (0, 1)}
    ensures forall k :: 0 <= k < 6 ==> HexDistance((DeltaU[k], DeltaV[k])) == 1
    ensures RowD()[4].positionUV == (1, 0) && RowC()[3].positionUV == (1, -1) && RowC()[2].positionUV == (0, -1)
    ensures RowD()[2].positionUV == (-1, 0) && RowE()[2].positionUV == (-1, 1) && RowE()[3].positionUV == (0, 1)
  {
  }

  /** Moving by an axial step moves the centre by the step's image in the u-v frame. */
  lemma CenterStep(board: BoardConfig, uv: PositionUV, du: int, dv: int)
    ensures CenterOf(board, (uv.0 + du, uv.1 + dv))
      == CenterOf(board, uv).Plus(board.unitU.Scaled(du as real).Plus(board.unitV.Scaled(dv as real)).Scaled(board.hexagonWidth))
  {
    var w, U, V := board.hexagonWidth, board.unitU, board.unitV;
    var u, v := uv.0 as real, uv.1 as real;
    calc {
      ((u + du as real) * U.x + (v + dv as real) * V.x) * w;
      (u * U.x + v * V.x) * w + (du as real * U.x + dv as real * V.x) * w;
    }
    calc {
      ((u + du as real) * U.y + (v + dv as real) * V.y) * w;
      (u * U.y + v * V.y) * w + (du as real * U.y + dv as real * V.y) * w;
    }
  }

  /**
   * In a frame with `unit_u` = (1, 0) and `unit_v` = (1/2, -s), s squared
   * 3/4 (the frame make_board_config builds when cos(2*pi/6) = 1/2 and
   * sin(2*pi/6) squared is 3/4, see `UnitVectors`), each of the six steps
   * moves a centre by exactly one hexagon width: the cells tile the plane.
   */
  lemma NeighbourAtOneWidth(b: BoardConfig, s: real, uv: PositionUV, k: int)
    requires b.unitU == Vector(1.0, 0.0) && b.unitV == Vector(0.5, -s) && s * s == 0.75
    requires 0 <= k < 6
    ensures var d := CenterOf(b, (uv.0 + DeltaU[k], uv.1 + DeltaV[k])).Minus(CenterOf(b, uv));
      Dot(d, d) == b.hexagonWidth * b.hexagonWidth
  {
    StepIsUnit(b, DeltaU[k], DeltaV[k], s);
    UnitStepMovesOneWidth(b, uv, DeltaU[k], DeltaV[k]);
  }

  /** A step whose image in the u-v frame is a unit vector moves a centre by one hexagon width. */
  lemma UnitStepMovesOneWidth(b: BoardConfig, uv: PositionUV, du: int, dv: int)
    requires var step := b.unitU.Scaled(du as real).Plus(b.unitV.Scaled(dv as real)); Dot(step, step) == 1.0
    ensures var d := CenterOf(b, (uv.0 + du, uv.1 + dv)).Minus(CenterOf(b, uv));
      Dot(d, d) == b.hexagonWidth * b.hexagonWidth
  {
    var w := b.hexagonWidth;
    var step := b.unitU.Scaled(du as real).Plus(b.unitV.Scaled(dv as real));
    CenterStep(b, uv, du, dv);
    PlusThenMinus(CenterOf(b, uv), step.Scaled(w));
    DotScaledUnit(step, w);
  }

  lemma StepIsUnit(b: BoardConfig, du: int, dv: int, s: real)
    requires b.unitU == Vector(1.0, 0.0) && b.unitV == Vector(0.5, -s) && s * s == 0.75
    requires (du, dv) in {(1, 0), (1, -1), (0, -1), (-1, 0), (-1, 1), (0, 1)}
    ensures var step := b.unitU.Scaled(du as real).Plus(b.unitV.Scaled(dv as real)); Dot(step, step) == 1.0
  {
    StepCoordinates(du as real, dv as real, s);
    StepLength(du, dv, s);
  }

  lemma StepCoordinates(a: real, c: real, s: real)
    ensures Vector(1.0, 0.0).Scaled(a).Plus(Vector(0.5, -s).Scaled(c)) == Vector(a + 0.5 * c, - s * c)
  {
  }

  lemma PlusThenMinus(c: Vector, x: Vector)
    ensures c.Plus(x).Minus(c) == x
  {
  }

  lemma DotScaledUnit(x: Vector, w: real)
    requires Dot(x, x) == 1.0
    ensures Dot(x.Scaled(w), x.Scaled(w)) == w * w
  {
    calc {
      Dot(x.Scaled(w), x.Scaled(w));
      (x.x * w) * (x.x * w) + (x.y * w) * (x.y * w);
      (x.x * x.x + x.y * x.y) * (w * w);
    }
  }

  lemma StepLength(du: int, dv: int, s: real)
    requires (du, dv) in {(1, 0), (1, -1), (0, -1), (-1, 0), (-1, 1), (0, 1)} && s * s == 0.75
    ensures var step := Vector(du as real + 0.5 * dv as real, - s * dv as real); Dot(step, step) == 1.0
  {
    var a, c := du as real, dv as real;
    assert c * c == 1.0 || c == 0.0;
    calc {
      (a + 0.5 * c) * (a + 0.5 * c) + (- s * c) * (- s * c);
      a * a + a * c + 0.25 * (c * c) + (s * s) * (c * c);
      a * a + a * c + c * c;
    }
  }

  // ---------------------------------------------------------------------
  // The registry
  // ---------------------------------------------------------------------

  /**
   * One cell of the board; everything but its `index` is fixed when it is
   * created. `board` stands for the global `BOARD_CONFIG` the source reads
   * when it computes `center`.
   */
  class Hexagon {
    const name: string
    const positionUV: PositionUV
    const ring: int
    const labelSide: LabelSide
    const board: BoardConfig
    const center: Vector := CenterOf(board, positionUV)
    var index: Option<nat>

    /** The fields `Hexagon.__init__` sets. */
    constructor(name: string, positionUV: PositionUV, ring: int, labelSide: LabelSide, board: BoardConfig)
      ensures this.name == name && this.positionUV == positionUV && this.ring == ring
      ensures this.labelSide == labelSide && this.board == board
      ensures index == None
    {
      this.name := name;
      this.positionUV := positionUV;
      this.ring := ring;
      this.labelSide := labelSide;
      this.board := board;
      index := None;
    }
  }

  /** The hexagon was made from this line of the table. */
  predicate MadeFrom(h: Hexagon, cell: CellSpec, board: BoardConfig)
  {
    && h.name == cell.name && h.positionUV == cell.positionUV && h.ring == cell.ring
    && h.labelSide == cell.labelSide && h.board == board
  }

  /** The names of a sequence of hexagons, in order. */
  function HexagonNames(hs: seq<Hexagon>): (r: seq<string>)
    ensures |r| == |hs| && forall k :: 0 <= k < |hs| ==> r[k] == hs[k].name
  {
    seq(|hs|, k requires 0 <= k < |hs| => hs[k].name)
  }

  /** The hexagons a map gives to a sequence of names. */
  function Lookup(m: map<string, Hexagon>, names: seq<string>): (r: seq<Hexagon>)
    requires forall n :: n in names ==> n in m
    ensures |r| == |names| && forall k :: 0 <= k < |names| ==> r[k] == m[names[k]]
  {
    seq(|names|, k requires 0 <= k < |names| => m[names[k]])
  }

  /** Adding a new key adds its value to the map's values. */
  lemma ValuesOfUpdate<K, V>(m: map<K, V>, k: K, v: V)
    requires k !in m
    ensures m[k := v].Values == m.Values + {v}
  {
    var m' := m[k := v];
    forall x | x in m'.Values ensures x in m.Values + {v} {
      var key :| key in m' && m'[key] == x;
      if key != k {
        assert m[key] == x;
      }
    }
    forall x | x in m.Values + {v} ensures x in m'.Values {
      if x == v {
        assert m'[k] == v;
      } else {
        var key :| key in m && m[key] == x;
        assert m'[key] == x;
      }
    }
  }

  /** The set of names of a sequence of cells. */
  function NameSet(cells: seq<CellSpec>): set<string>
  {
    if cells == [] then {} else NameSet(cells[..|cells| - 1]) + {cells[|cells| - 1].name}
  }

  /** The set of positions of a sequence of cells. */
  function PositionSet(cells: seq<CellSpec>): set<PositionUV>
  {
    if cells == [] then {} else PositionSet(cells[..|cells| - 1]) + {cells[|cells| - 1].positionUV}
  }

  /** A name is in the set exactly when some cell of the sequence has it. */
  lemma {:induction false} NameSetMembers(cells: seq<CellSpec>)
    ensures forall k :: 0 <= k < |cells| ==> cells[k].name in NameSet(cells)
    ensures forall x :: x in NameSet(cells) ==> exists k :: 0 <= k < |cells| && cells[k].name == x
  {
    if cells != [] {
      var prefix := cells[..|cells| - 1];
      NameSetMembers(prefix);
      forall k | 0 <= k < |cells| - 1 ensures cells[k].name in NameSet(cells) {
        assert prefix[k] == cells[k];
      }
      forall x | x in NameSet(cells) ensures exists k :: 0 <= k < |cells| && cells[k].name == x {
        if x in NameSet(prefix) {
          var k :| 0 <= k < |prefix| && prefix[k].name == x;
          assert cells[k].name == x;
        } else {
          assert cells[|cells| - 1].name == x;
        }
      }
    }
  }

  /** A position is in the set exactly when some cell of the sequence has it. */
  lemma {:induction false} PositionSetMembers(cells: seq<CellSpec>)
    ensures forall k :: 0 <= k < |cells| ==> cells[k].positionUV in PositionSet(cells)
    ensures forall q :: q in PositionSet(cells) ==> exists k :: 0 <= k < |cells| && cells[k].positionUV == q
  {
    if cells != [] {
      var prefix := cells[..|cells| - 1];
      PositionSetMembers(prefix);
      forall k | 0 <= k < |cells| - 1 ensures cells[k].positionUV in PositionSet(cells) {
        assert prefix[k] == cells[k];
      }
      forall q | q in PositionSet(cells) ensures exists k :: 0 <= k < |cells| && cells[k].positionUV == q {
        if q in PositionSet(prefix) {
          var k :| 0 <= k < |prefix| && prefix[k].positionUV == q;
          assert cells[k].positionUV == q;
        } else {
          assert cells[|cells| - 1].positionUV == q;
        }
      }
    }
  }

  lemma SetsSnocUnfold(cells: seq<CellSpec>, c: CellSpec)
    ensures NameSet(cells + [c]) == NameSet(cells) + {c.name}
    ensures PositionSet(cells + [c]) == PositionSet(cells) + {c.positionUV}
  {
    assert (cells + [c])[..|cells|] == cells;
  }

  /** The asserts of `Hexagon.__init__` pass for `c` given the names and positions already taken. */
  predicate Passes(names: set<string>, positions: set<PositionUV>, c: CellSpec)
  {
    |c.name| == 2 && c.name !in names && c.positionUV !in positions
  }

  /**
   * The cells can be created one after the other on top of the given
   * registered names and positions: each passes the asserts of
   * `Hexagon.__init__` once the cells before it are registered.
   */
  ghost predicate Registrable(names: set<string>, positions: set<PositionUV>, cells: seq<CellSpec>)
    decreases |cells|
  {
    cells == [] ||
    (var prefix := cells[..|cells| - 1];
     Registrable(names, positions, prefix)
     && Passes(names + NameSet(prefix), positions + PositionSet(prefix), cells[|cells| - 1]))
  }

  /**
   * The same condition stated over the whole sequence: every name has two
   * characters, none is taken before, and no two cells share a name or a
   * position.
   */
  ghost predicate DistinctAndFree(names: set<string>, positions: set<PositionUV>, cells: seq<CellSpec>)
  {
    && (forall i :: 0 <= i < |cells| ==>
          |cells[i].name| == 2 && cells[i].name !in names && cells[i].positionUV !in positions)
    && (forall i, j :: 0 <= i < j < |cells| ==>
          cells[i].name != cells[j].name && cells[i].positionUV != cells[j].positionUV)
  }

  /** One more cell is registrable exactly when the earlier ones are and its own asserts pass. */
  lemma RegistrableSnoc(names: set<string>, positions: set<PositionUV>, cells: seq<CellSpec>, c: CellSpec)
    ensures Registrable(names, positions, cells + [c]) <==>
      Registrable(names, positions, cells) && Passes(names + NameSet(cells), positions + PositionSet(cells), c)
  {
    assert (cells + [c])[..|cells|] == cells;
  }

  /** The pairwise condition grows one cell at a time the same way. */
  lemma {:induction false} DistinctAndFreeSnoc(names: set<string>, positions: set<PositionUV>, cells: seq<CellSpec>, c: CellSpec)
    requires DistinctAndFree(names, positions, cells)
    ensures DistinctAndFree(names, positions, cells + [c]) <==>
      Passes(names + NameSet(cells), positions + PositionSet(cells), c)
  {
    var s := cells + [c];
    NameSetMembers(cells);
    PositionSetMembers(cells);
    if Passes(names + NameSet(cells), positions + PositionSet(cells), c) {
      forall i, j | 0 <= i < j < |s| ensures s[i].name != s[j].name && s[i].positionUV != s[j].positionUV {
        if j == |cells| {
          assert s[i] == cells[i];
        }
      }
    }
    if DistinctAndFree(names, positions, s) {
      assert s[|cells|] == c;
      forall k | 0 <= k < |cells| ensures cells[k].name != c.name && cells[k].positionUV != c.positionUV {
        assert s[k] == cells[k];
      }
    }
  }

  /** Registering one cell after the other succeeds exactly for names and positions pairwise distinct and free. */
  lemma {:induction false} RegistrableIsDistinctAndFree(names: set<string>, positions: set<PositionUV>, cells: seq<CellSpec>)
    ensures Registrable(names, positions, cells) <==> DistinctAndFree(names, positions, cells)
    decreases |cells|
  {
    if cells != [] {
      var prefix, c := cells[..|cells| - 1], cells[|cells| - 1];
      assert cells == prefix + [c];
      RegistrableIsDistinctAndFree(names, positions, prefix);
      RegistrableSnoc(names, positions, prefix, c);
      if DistinctAndFree(names, positions, prefix) {
        DistinctAndFreeSnoc(names, positions, prefix, c);
      } else {
        assert !DistinctAndFree(names, positions, cells) by {
          if DistinctAndFree(names, positions, cells) {
            assert DistinctAndFree(names, positions, prefix);
          }
        }
      }
    }
  }

  /** Every prefix of registrable cells is registrable. */
  lemma {:induction false} RegistrablePrefix(names: set<string>, positions: set<PositionUV>, cells: seq<CellSpec>, n: nat)
    requires n <= |cells|
    ensures Registrable(names, positions, cells) ==> Registrable(names, positions, cells[..n])
    decreases |cells| - n
  {
    if n < |cells| {
      RegistrablePrefix(names, positions, cells, n + 1);
      RegistrableSnoc(names, positions, cells[..n], cells[n]);
      assert cells[..n + 1] == cells[..n] + [cells[n]];
    } else {
      assert cells[..n] == cells;
    }
  }

  /** The 45 cells of the table can all be created on an empty registry. */
  lemma StandardRegistrable()
    ensures Registrable({}, {}, StandardCells())
  {
    RegistrableIsDistinctAndFree({}, {}, StandardCells());
    StandardCellsIncreasing();
    var cells := StandardCells();
    forall i, j | 0 <= i < j < |cells| ensures cells[i].name != cells[j].name && cells[i].positionUV != cells[j].positionUV {
      IncreasingIsStrict(cells, i, j);
      NameLessIrreflexive(cells[i].name);
    }
  }

  /** Both dictionaries hold the same hexagons, each under its own name and position. */
  ghost predicate Consistent(names: map<string, Hexagon>, positions: map<PositionUV, Hexagon>, board: BoardConfig)
  {
    && (forall n :: n in names ==>
          names[n].name == n && |n| == 2 && names[n].board == board)
    && (forall q :: q in positions ==> positions[q].positionUV == q)
    && names.Values == positions.Values
  }

  /**
   * The registry's class attributes agree with each other (see
   * `HexagonRegistry.Valid`).
   */
  ghost predicate RegistryInvariant(board: BoardConfig, names: map<string, Hexagon>, positions: map<PositionUV, Hexagon>,
                                    allSorted: seq<Hexagon>, all: Option<seq<Hexagon>>, initDone: bool)
    reads allSorted
  {
    && Consistent(names, positions, board)
    && (!initDone ==> allSorted == [] && all == None)
    && (initDone ==>
          && all == Some(allSorted)
          && StrictlySorted(HexagonNames(allSorted))
          && Registered(allSorted, names)
          && Indexed(allSorted))
  }

  /** Every hexagon of the sequence is the one registered under its name. */
  ghost predicate Registered(hs: seq<Hexagon>, names: map<string, Hexagon>)
  {
    forall k :: 0 <= k < |hs| ==> hs[k].name in names && names[hs[k].name] == hs[k]
  }

  /** Every hexagon's `index` is its place in the sequence. */
  ghost predicate Indexed(hs: seq<Hexagon>)
    reads hs
  {
    forall k :: 0 <= k < |hs| ==> hs[k].index == Some(k)
  }

  /** Every entry of `m0` is still in `m`, mapped to the same value. */
  ghost predicate Keeps<K, V>(m0: map<K, V>, m: map<K, V>)
  {
    forall k :: k in m0 ==> k in m && m[k] == m0[k]
  }

  /** Adding a key that is not there yet keeps every entry. */
  lemma KeepsUpdate<K, V>(m: map<K, V>, k: K, v: V)
    requires k !in m
    ensures Keeps(m, m[k := v])
  {
  }

  lemma ConsistentAfterAdd(names: map<string, Hexagon>, positions: map<PositionUV, Hexagon>, board: BoardConfig, h: Hexagon)
    requires Consistent(names, positions, board)
    requires h.name !in names && h.positionUV !in positions && |h.name| == 2
    requires h.board == board
    ensures Consistent(names[h.name := h], positions[h.positionUV := h], board)
  {
    ValuesOfUpdate(names, h.name, h);
    ValuesOfUpdate(positions, h.positionUV, h);
  }

  /**
   * The class-level state of `Hexagon`: the name and position dictionaries,
   * the sorted list and its `all` alias and the `__init_done` flag. `board`
   * is the configuration the centres come from.
   */
  class HexagonRegistry {
    const board: BoardConfig
    var nameToHexagon: map<string, Hexagon>
    var positionToHexagon: map<PositionUV, Hexagon>
    var allSorted: seq<Hexagon>
    var all: Option<seq<Hexagon>>
    var initDone: bool
    var layout: seq<LayoutRow>
    var deltaU: seq<int>
    var deltaV: seq<int>

    /**
     * The dictionaries are consistent; before `init` nothing else is set,
     * after it the sorted list is in strict name order, made of registered
     * hexagons, each indexed by its place.
     */
    ghost predicate Valid()
      reads this, allSorted
    {
      && RegistryInvariant(board, nameToHexagon, positionToHexagon, allSorted, all, initDone)
      && (!initDone ==> layout == [])
    }

    /** After a successful `init`: valid, done, and the layout and the steps created. */
    ghost predicate Ready()
      reads this, allSorted
    {
      Valid() && initDone && LayoutCreated(layout, deltaU, deltaV)
    }

    /** The invariant of a done registry, whatever the flag says yet. */
    ghost predicate Sorted()
      reads this`nameToHexagon, this`positionToHexagon, this`allSorted, this`all, allSorted
    {
      RegistryInvariant(board, nameToHexagon, positionToHexagon, allSorted, all, true)
    }

    /** The registry before `init`: hexagons may be registered, none sorted yet. */
    ghost predicate Unsorted()
      reads this
    {
      && !initDone && allSorted == [] && all == None && layout == []
      && Consistent(nameToHexagon, positionToHexagon, board)
    }

    lemma UnsortedIsValid()
      requires Unsorted()
      ensures Valid()
    {
    }

    /** The class attributes as the class statement leaves them. */
    constructor(board: BoardConfig)
      ensures Valid() && this.board == board
      ensures nameToHexagon == map[] && positionToHexagon == map[] && !initDone
    {
      this.board := board;
      nameToHexagon := map[];
      positionToHexagon := map[];
      allSorted := [];
      all := None;
      initDone := false;
      layout := [];
      deltaU := [];
      deltaV := [];
    }

    /**
     * `Hexagon(name, position_uv, ring, label_side)`: the asserts fail on a
     * taken name, a taken position or a name not two characters long, and
     * then nothing changes; otherwise both dictionaries gain the new cell.
     */
    method Register(name: string, positionUV: PositionUV, ring: int, labelSide: LabelSide)
      returns (r: Result<Hexagon>)
      requires Valid()
      modifies this
      ensures Valid()
      ensures r.Ok? <==> name !in old(nameToHexagon) && positionUV !in old(positionToHexagon) && |name| == 2
      ensures r.Err? ==> (r.error == AssertionError
        && nameToHexagon == old(nameToHexagon) && positionToHexagon == old(positionToHexagon))
      ensures r.Ok? ==> (fresh(r.value) && r.value.index == None
        && MadeFrom(r.value, CellSpec(name, positionUV, ring, labelSide), board)
        && nameToHexagon == old(nameToHexagon)[name := r.value]
        && positionToHexagon == old(positionToHexagon)[positionUV := r.value])
      ensures allSorted == old(allSorted) && all == old(all) && initDone == old(initDone)
      ensures layout == old(layout) && deltaU == old(deltaU) && deltaV == old(deltaV)
    {
      if name in nameToHexagon || positionUV in positionToHexagon || |name| != 2 {
        return Err(AssertionError);
      }
      var h := new Hexagon(name, positionUV, ring, labelSide, board);
      ConsistentAfterAdd(nameToHexagon, positionToHexagon, board, h);
      nameToHexagon := nameToHexagon[name := h];
      positionToHexagon := positionToHexagon[positionUV := h];
      r := Ok(h);
    }

    /**
     * `__create_hexagons`: `Hexagon(...)` for each line of the table in
     * turn. The first failing assert ends the run, with the earlier cells
     * registered.
     */
    method CreateHexagons(cells: seq<CellSpec>) returns (r: Result<()>, ghost made: seq<Hexagon>)
      requires Unsorted()
      modifies this
      ensures Unsorted()
      ensures r.Ok? <==> Registrable(old(nameToHexagon).Keys, old(positionToHexagon).Keys, cells)
      ensures r.Err? ==> r.error == AssertionError
      ensures Keeps(old(nameToHexagon), nameToHexagon) && Keeps(old(positionToHexagon), positionToHexagon)
      ensures r.Ok? ==> (nameToHexagon.Keys == old(nameToHexagon).Keys + NameSet(cells)
        && positionToHexagon.Keys == old(positionToHexagon).Keys + PositionSet(cells))
      ensures r.Ok? ==> Built(cells, |cells|, made, nameToHexagon, board)
      ensures r.Err? ==> StoppedAt(old(nameToHexagon).Keys, old(positionToHexagon).Keys, cells, made,
                                   nameToHexagon, positionToHexagon, board)
      ensures forall h :: h in nameToHexagon.Values ==> h in old(nameToHexagon).Values || fresh(h)
    {
      ghost var names0, positions0 := nameToHexagon.Keys, positionToHexagon.Keys;
      made := [];
      var i := 0;
      while i < |cells|
        invariant Unsorted()
        invariant Tracked(names0, positions0, cells, i, nameToHexagon.Keys, positionToHexagon.Keys)
        invariant Built(cells, i, made, nameToHexagon, board)
        invariant forall h :: h in nameToHexagon.Values ==> h in old(nameToHexagon).Values || fresh(h)
        invariant Keeps(old(nameToHexagon), nameToHexagon) && Keeps(old(positionToHexagon), positionToHexagon)
      {
        var h := RegisterNext(names0, positions0, cells, i, made);
        if h.Err? {
          r := Err(AssertionError);
          return;
        }
        made := made + [h.value];
        i := i + 1;
      }
      TrackedAll(names0, positions0, cells, nameToHexagon.Keys, positionToHexagon.Keys);
      r := Ok(());
    }

    /**
     * `__create_all_sorted_hexagons`: the registered hexagons in name order,
     * each told its place in that order, and `all` made an alias of the list.
     */
    method CreateAllSortedHexagons()
      requires Unsorted()
      modifies this, nameToHexagon.Values
      ensures unchanged(this`nameToHexagon, this`positionToHexagon, this`layout, this`deltaU, this`deltaV)
      ensures !initDone
      ensures allSorted == Lookup(nameToHexagon, SortedNames(nameToHexagon.Keys))
      ensures Sorted()
    {
      var sorted := SortAndIndex(nameToHexagon);
      allSorted := sorted;
      all := Some(allSorted);
    }

    /** `__create_layout`: the seven rows, from "g" down to "a". */
    method CreateLayout()
      modifies this`layout
      ensures layout == StandardLayout()
    {
      RowNamesSpelled();
      layout := [];
      layout := layout + [LayoutRow(1, ["g1", "g2", "g3", "g4", "g5", "g6"])];
      layout := layout + [LayoutRow(0, ["f1", "f2", "f3", "f4", "f5", "f6", "f7"])];
      layout := layout + [LayoutRow(1, ["e1", "e2", "e3", "e4", "e5", "e6"])];
      layout := layout + [LayoutRow(0, ["d1", "d2", "d3", "d4", "d5", "d6", "d7"])];
      layout := layout + [LayoutRow(1, ["c1", "c2", "c3", "c4", "c5", "c6"])];
      layout := layout + [LayoutRow(0, ["b1", "b2", "b3", "b4", "b5", "b6", "b7"])];
      layout := layout + [LayoutRow(1, ["a1", "a2", "a3", "a4", "a5", "a6"])];
    }

    /** `__create_delta_u_and_v`: the six axial steps, as signed bytes. */
    method CreateDeltaUAndV()
      modifies this`deltaU, this`deltaV
      ensures deltaU == DeltaU && deltaV == DeltaV
      ensures forall k :: 0 <= k < 6 ==> -128 <= deltaU[k] < 128 && -128 <= deltaV[k] < 128
    {
      deltaU := [1, 1, 0, -1, -1, 0];
      deltaV := [0, -1, -1, 0, 1, 1];
    }

    /**
     * `init`: the first call creates the 45 hexagons of the table, sorts
     * them, creates the layout and the steps and marks the registry done;
     * later calls change nothing. A cell whose asserts fail stops it with
     * `AssertionError`, leaving the hexagons created before it registered
     * and the registry not done. On an empty registry it succeeds and lists
     * the hexagons in table order, which is name order.
     */
    method Init() returns (r: Result<()>)
      requires Valid()
      modifies this, nameToHexagon.Values
      ensures Valid()
      ensures old(initDone) ==> r == Ok(()) && unchanged(this) && unchanged(old(nameToHexagon).Values)
      ensures !old(initDone) ==>
        (r.Ok? <==> Registrable(old(nameToHexagon).Keys, old(positionToHexagon).Keys, StandardCells()))
      ensures r.Err? ==> r.error == AssertionError && !initDone
      ensures Keeps(old(nameToHexagon), nameToHexagon) && Keeps(old(positionToHexagon), positionToHexagon)
      ensures r.Err? ==> exists made :: StoppedAt(old(nameToHexagon).Keys, old(positionToHexagon).Keys, StandardCells(), made,
                                                  nameToHexagon, positionToHexagon, board)
      ensures !old(initDone) && r.Ok? ==>
        && Ready()
        && nameToHexagon.Keys == old(nameToHexagon).Keys + NameSet(StandardCells())
        && HexagonNames(allSorted) == SortedNames(nameToHexagon.Keys)
      ensures !old(initDone) && old(nameToHexagon) == map[] ==>
        && r.Ok? && |allSorted| == |StandardCells()|
        && forall k :: 0 <= k < |allSorted| ==> MadeFrom(allSorted[k], StandardCells()[k], board) && allSorted[k].index == Some(k)
    {
      if initDone {
        return Ok(());
      }
      ghost var fromEmpty := nameToHexagon == map[];
      if fromEmpty {
        assert nameToHexagon.Keys == {} && positionToHexagon.Keys == {};
        StandardRegistrable();
      }
      var cells := StandardCells();
      ghost var made;
      r, made := InitWith(cells);
      if fromEmpty {
        StandardNamesSorted();
        SortedTableLookup(cells, nameToHexagon, made, board);
      }
    }

    /** The body of `init` under its guard, for the cells `cells`. */
    method InitWith(cells: seq<CellSpec>) returns (r: Result<()>, ghost made: seq<Hexagon>)
      requires Valid() && !initDone
      modifies this, nameToHexagon.Values
      ensures Valid()
      ensures r.Ok? <==> Registrable(old(nameToHexagon).Keys, old(positionToHexagon).Keys, cells)
      ensures r.Err? ==> r.error == AssertionError && !initDone
      ensures Keeps(old(nameToHexagon), nameToHexagon) && Keeps(old(positionToHexagon), positionToHexagon)
      ensures r.Err? ==> StoppedAt(old(nameToHexagon).Keys, old(positionToHexagon).Keys, cells, made,
                                   nameToHexagon, positionToHexagon, board)
      ensures r.Ok? ==>
        && Ready()
        && nameToHexagon.Keys == old(nameToHexagon).Keys + NameSet(cells)
        && allSorted == Lookup(nameToHexagon, SortedNames(nameToHexagon.Keys))
        && HexagonNames(allSorted) == SortedNames(nameToHexagon.Keys)
        && MadeFromCells(cells, made, nameToHexagon, board)
    {
      var created;
      created, made := CreateHexagons(cells);
      if created.Err? {
        UnsortedIsValid();
        return Err(AssertionError), made;
      }
      BuiltMadeFrom(cells, made, nameToHexagon, board);
      FinishInit();
      NamesOfLookup(nameToHexagon, SortedNames(nameToHexagon.Keys));
      r := Ok(());
    }

    /**
     * The rest of `init` once the hexagons exist: sort them, then create
     * the layout and the steps and mark the registry done.
     */
    method FinishInit()
      requires Unsorted()
      modifies this, nameToHexagon.Values
      ensures Ready()
      ensures nameToHexagon == old(nameToHexagon) && positionToHexagon == old(positionToHexagon)
      ensures allSorted == Lookup(nameToHexagon, SortedNames(nameToHexagon.Keys))
    {
      CreateAllSortedHexagons();
      CreateTables();
    }

    /** `__create_layout`, `__create_delta_u_and_v` and the flag, in that order. */
    method CreateTables()
      requires Sorted() && !initDone
      modifies this`layout, this`deltaU, this`deltaV, this`initDone
      ensures Ready()
    {
      CreateLayout();
      CreateDeltaUAndV();
      initDone := true;
    }

    /** `get`: the hexagon of that name; `KeyError` when there is none. */
    function Get(name: string): (r: Result<Hexagon>)
      requires Valid()
      reads this, allSorted
      ensures r.Ok? <==> name in nameToHexagon
      ensures r.Err? ==> r.error == KeyError
      ensures r.Ok? ==> r.value.name == name
      ensures r.Ok? ==> r.value.board == board && r.value.center == CenterOf(board, r.value.positionUV)
      ensures r.Ok? ==> r.value in positionToHexagon.Values
    {
      if name in nameToHexagon then Ok(nameToHexagon[name]) else Err(KeyError)
    }

    /** `get_all`: after `init`, the hexagons in strict name order, each indexed by its place. */
    function GetAll(): (r: seq<Hexagon>)
      requires Valid()
      reads this, allSorted
      ensures initDone ==> StrictlySorted(HexagonNames(r)) && Indexed(r)
      ensures Registered(r, nameToHexagon)
      ensures !initDone ==> r == []
    {
      allSorted
    }

    /** `get_layout`: the seven rows once `init` has run, empty before. */
    function GetLayout(): (r: seq<LayoutRow>)
      requires Valid()
      reads this, allSorted
      ensures Ready() ==> r == StandardLayout()
      ensures !initDone ==> r == []
    {
      layout
    }

    /** One turn of the loop of `__create_hexagons`: `Hexagon(...)` for `cells[i]`. */
    method RegisterNext(ghost names0: set<string>, ghost positions0: set<PositionUV>,
                        cells: seq<CellSpec>, i: nat, ghost made: seq<Hexagon>)
      returns (h: Result<Hexagon>)
      requires i < |cells| && Unsorted()
      requires Tracked(names0, positions0, cells, i, nameToHexagon.Keys, positionToHexagon.Keys)
      requires Built(cells, i, made, nameToHexagon, board)
      modifies this
      ensures Unsorted()
      ensures h.Ok? ==> fresh(h.value) && forall x :: x in nameToHexagon.Values ==> x in old(nameToHexagon).Values || x == h.value
      ensures h.Err? ==> nameToHexagon == old(nameToHexagon) && positionToHexagon == old(positionToHexagon)
      ensures h.Err? ==> !Passes(nameToHexagon.Keys, positionToHexagon.Keys, cells[i])
      ensures h.Err? ==> !Registrable(names0, positions0, cells)
      ensures h.Ok? ==> Keeps(old(nameToHexagon), nameToHexagon) && Keeps(old(positionToHexagon), positionToHexagon)
      ensures h.Ok? ==> (Tracked(names0, positions0, cells, i + 1, nameToHexagon.Keys, positionToHexagon.Keys)
        && Built(cells, i + 1, made + [h.value], nameToHexagon, board))
    {
      var c := cells[i];
      ghost var names, positions := nameToHexagon, positionToHexagon;
      UnsortedIsValid();
      TrackedStep(names0, positions0, cells, i, names.Keys, positions.Keys);
      h := Register(c.name, c.positionUV, c.ring, c.labelSide);
      if h.Err? {
        RegistrablePrefix(names0, positions0, cells, i + 1);
      } else {
        KeysOfUpdate(names, c.name, h.value);
        KeysOfUpdate(positions, c.positionUV, h.value);
        BuiltStep(cells, i, made, names, board, h.value);
        ValuesOfUpdate(names, c.name, h.value);
        KeepsUpdate(names, c.name, h.value);
        KeepsUpdate(positions, c.positionUV, h.value);
      }
    }
  }

  /**
   * The first `n` cells, created on top of the keys `names0` and
   * `positions0`, passed the asserts, and the keys are now those plus the
   * cells' own.
   */
  ghost predicate Tracked(names0: set<string>, positions0: set<PositionUV>, cells: seq<CellSpec>, n: nat,
                          names: set<string>, positions: set<PositionUV>)
  {
    && n <= |cells|
    && Registrable(names0, positions0, cells[..n])
    && names == names0 + NameSet(cells[..n])
    && positions == positions0 + PositionSet(cells[..n])
  }

  /** The next cell passes the asserts exactly when it keeps the cells registrable. */
  lemma TrackedStep(names0: set<string>, positions0: set<PositionUV>, cells: seq<CellSpec>, n: nat,
                    names: set<string>, positions: set<PositionUV>)
    requires Tracked(names0, positions0, cells, n, names, positions) && n < |cells|
    ensures Registrable(names0, positions0, cells[..n + 1]) <==> Passes(names, positions, cells[n])
    ensures Registrable(names0, positions0, cells[..n + 1]) ==>
      Tracked(names0, positions0, cells, n + 1, names + {cells[n].name}, positions + {cells[n].positionUV})
  {
    assert cells[..n + 1] == cells[..n] + [cells[n]];
    RegistrableSnoc(names0, positions0, cells[..n], cells[n]);
    SetsSnocUnfold(cells[..n], cells[n]);
  }

  /** Once all cells are created, the keys are those of the table. */
  lemma TrackedAll(names0: set<string>, positions0: set<PositionUV>, cells: seq<CellSpec>,
                   names: set<string>, positions: set<PositionUV>)
    requires Tracked(names0, positions0, cells, |cells|, names, positions)
    ensures Registrable(names0, positions0, cells)
    ensures names == names0 + NameSet(cells) && positions == positions0 + PositionSet(cells)
  {
    assert cells[..|cells|] == cells;
  }

  /**
   * A run of `Hexagon(...)` over `cells` stopped at the line after `made`:
   * the hexagons `made` of the lines before it are registered on top of
   * the old keys, and that line fails the asserts of `Hexagon.__init__`.
   */
  ghost predicate StoppedAt(names0: set<string>, positions0: set<PositionUV>, cells: seq<CellSpec>, made: seq<Hexagon>,
                            names: map<string, Hexagon>, positions: map<PositionUV, Hexagon>, board: BoardConfig)
  {
    && |made| < |cells|
    && Tracked(names0, positions0, cells, |made|, names.Keys, positions.Keys)
    && Built(cells, |made|, made, names, board)
    && !Passes(names.Keys, positions.Keys, cells[|made|])
  }

  /** The name of each of the first `n` cells leads to the hexagon made from it, in the same order. */
  ghost predicate Built(cells: seq<CellSpec>, n: nat, made: seq<Hexagon>, names: map<string, Hexagon>, board: BoardConfig)
  {
    && n <= |cells| && |made| == n
    && (forall k :: 0 <= k < n ==> cells[k].name in names && names[cells[k].name] == made[k])
    && (forall k :: 0 <= k < n ==> MadeFrom(made[k], cells[k], board))
  }

  lemma BuiltStep(cells: seq<CellSpec>, n: nat, made: seq<Hexagon>, names: map<string, Hexagon>, board: BoardConfig,
                  h: Hexagon)
    requires Built(cells, n, made, names, board) && n < |cells| && cells[n].name !in names
    requires MadeFrom(h, cells[n], board)
    ensures Built(cells, n + 1, made + [h], names[cells[n].name := h], board)
  {
  }

  /** The first loop of `__create_all_sorted_hexagons`: the hexagons of `sorted(keys)`, in that order. */
  method SortedByName(m: map<string, Hexagon>) returns (sorted: seq<Hexagon>)
    requires forall n :: n in m ==> m[n].name == n
    ensures sorted == Lookup(m, SortedNames(m.Keys))
    ensures StrictlySorted(HexagonNames(sorted)) && |sorted| == |m|
    ensures Registered(sorted, m)
  {
    var names := SortedNames(m.Keys);
    MapSize(m);
    sorted := [];
    var i := 0;
    while i < |names|
      invariant i <= |names| && |sorted| == i
      invariant forall k :: 0 <= k < i ==> sorted[k] == m[names[k]]
    {
      sorted := sorted + [m[names[i]]];
      i := i + 1;
    }
    NamesOfLookup(m, names);
  }

  /** Both loops of `__create_all_sorted_hexagons`: the hexagons in name order, each told its place. */
  method SortAndIndex(m: map<string, Hexagon>) returns (sorted: seq<Hexagon>)
    requires forall n :: n in m ==> m[n].name == n
    modifies m.Values`index
    ensures sorted == Lookup(m, SortedNames(m.Keys))
    ensures StrictlySorted(HexagonNames(sorted)) && Registered(sorted, m) && Indexed(sorted)
  {
    sorted := SortedByName(m);
    RegisteredInValues(sorted, m);
    IndexInOrder(sorted, m.Values);
  }

  /** Every hexagon registered under its name is one of the map's values. */
  lemma RegisteredInValues(hs: seq<Hexagon>, m: map<string, Hexagon>)
    requires Registered(hs, m)
    ensures forall k :: 0 <= k < |hs| ==> hs[k] in m.Values
  {
    forall k | 0 <= k < |hs| ensures hs[k] in m.Values {
      assert m[hs[k].name] == hs[k];
    }
  }

  /** A map has as many entries as keys. */
  lemma MapSize<K, V>(m: map<K, V>)
    ensures |m| == |m.Keys|
  {
  }

  /**
   * The second loop of `__create_all_sorted_hexagons`: each hexagon's
   * `index` becomes its place in the list. The names are distinct, so the
   * hexagons are too and no write undoes an earlier one.
   */
  method IndexInOrder(hs: seq<Hexagon>, ghost frame: set<Hexagon>)
    requires StrictlySorted(HexagonNames(hs))
    requires forall k :: 0 <= k < |hs| ==> hs[k] in frame
    modifies frame`index
    ensures Indexed(hs)
    ensures forall h :: h in frame && h !in hs ==> h.index == old(h.index)
  {
    var k := 0;
    while k < |hs|
      invariant k <= |hs|
      invariant forall j :: 0 <= j < k ==> hs[j].index == Some(j)
      invariant forall h :: h in frame && h !in hs[..k] ==> h.index == old(h.index)
    {
      forall j | 0 <= j < k ensures hs[j] != hs[k] {
        NameLessIrreflexive(hs[j].name);
      }
      assert hs[..k + 1] == hs[..k] + [hs[k]];
      hs[k].index := Some(k);
      k := k + 1;
    }
    assert hs[..k] == hs;
  }

  /** The hexagons looked up by name carry those names. */
  lemma NamesOfLookup(m: map<string, Hexagon>, names: seq<string>)
    requires forall n :: n in names ==> n in m
    requires forall n :: n in m ==> m[n].name == n
    ensures HexagonNames(Lookup(m, names)) == names
  {
  }

  /** The hexagon registered under each cell's name is the one made from that cell. */
  ghost predicate MadeFromCells(cells: seq<CellSpec>, made: seq<Hexagon>, names: map<string, Hexagon>, board: BoardConfig)
  {
    && |made| == |cells|
    && (forall k :: 0 <= k < |cells| ==> cells[k].name in names && names[cells[k].name] == made[k])
    && (forall k :: 0 <= k < |cells| ==> MadeFrom(made[k], cells[k], board))
  }

  lemma BuiltMadeFrom(cells: seq<CellSpec>, made: seq<Hexagon>, names: map<string, Hexagon>, board: BoardConfig)
    requires Built(cells, |cells|, made, names, board)
    ensures MadeFromCells(cells, made, names, board)
  {
  }

  /**
   * When exactly the cells of a table listed in name order were
   * registered, sorting their names gives the table's order back, and
   * looking them up gives the hexagons made from the table's lines, in order.
   */
  lemma SortedTableLookup(cells: seq<CellSpec>, m: map<string, Hexagon>, made: seq<Hexagon>, board: BoardConfig)
    requires StrictlySorted(CellNames(cells)) && m.Keys == {} + NameSet(cells)
    requires MadeFromCells(cells, made, m, board)
    ensures SortedNames(m.Keys) == CellNames(cells)
    ensures Lookup(m, SortedNames(m.Keys)) == made
  {
    TableNamesAreKeys(cells, m.Keys);
    SortedNamesOfSorted(CellNames(cells), m.Keys);
  }

  /** The names of the cells are exactly the names they register. */
  lemma TableNamesAreKeys(cells: seq<CellSpec>, keys: set<string>)
    requires keys == {} + NameSet(cells)
    ensures forall x :: x in CellNames(cells) <==> x in keys
  {
    NameSetMembers(cells);
    var names := CellNames(cells);
    forall x | x in keys
      ensures x in names
    {
      var k :| 0 <= k < |cells| && cells[k].name == x;
      assert names[k] == x;
    }
  }

  lemma KeysOfUpdate<K, V>(m: map<K, V>, k: K, v: V)
    ensures m[k := v].Keys == m.Keys + {k}
  {
  }

}
