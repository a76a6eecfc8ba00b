# pijersi-svg in Dafny

A model of `pijersi_svg/pijersi_svg.py`, the script that draws the PIJERSI
board and its cubes as SVG pictures for printing and for a laser cutter,
with the properties its drawing logic promises proved about the model.

Each part of the script becomes one or more modules:

- `TinyVectors` (`tiny_vector.dfy`): the `TinyVector` algebra over exact
  reals. Python's dispatch on the right operand (vector, number, anything
  else) is an explicit `Operand`, and the exceptions are `Result` values.
- `Scaling` (`scaling.dfy`): the conversion of centimetres to device units
  (`4096 * length_cm / width_cm`) and the `max(1, ...)` stroke clamp.
- `CubeConfigs` (`cube_config.dfy`): `make_cube_config`. This covers the
  28-cube layout, the row and column counts with their contiguity
  asserts, the nested loop that fills the grid with `None`, and the scaled
  sizes.
- `BoardConfigs` (`board_config.dfy`): the linear parts of
  `make_board_config`.
- `Hexagons` (`hexagons.dfy`): the class-level registry of `Hexagon`. It is
  a class `HexagonRegistry` holding the two dictionaries, the sorted list,
  `all`, the layout, the axial steps and the `__init_done` flag. Each
  `Hexagon` is an object whose `index` is assigned in place. The 45-cell
  table of `__create_hexagons` is data.
- `Names` (`names.dfy`): Python's string order and `sorted` of a set of
  names.
- `Strings` (`strings.dfy`): `str.replace`, as used for the laser file
  names.
- `Shapes` (`shapes.dfy`): the drawing as a `Canvas` object whose shapes
  only grow, and the shape records drawsvg would receive.
- `BoardDrawing` (`board_drawing.dfy`): `draw_board`. This covers its file
  name, outer rectangle, per-cell hexagon, opacity, gradient, random
  segments, 12-gon decoration and labels.
- `CubeDrawing` (`cube_drawing.dfy`): `draw_cubes_and_support`,
  `draw_cube` and the four glyph functions.
- `Results` (`results.dfy`): the exceptions raised.

The global `BOARD_CONFIG` and `CUBE_CONFIG` are passed as parameters (the
registry keeps its `board`). `math.sqrt`, `math.cos`, `math.sin` and
`math.pi` are the fields of a `Trig` value. Nothing is assumed about them:
a lemma that needs an identity, such as `cos^2 + sin^2 = 1`, states it as
a precondition. The values of `random.sample` and `random.uniform` are a
parameter `draws(cell, k)`, constrained to what those functions can
return.

Three behaviours of the code worth knowing:

- A cell's ring is the number written in the table. It is not the
  distance from d4: a2 and b2 are both three steps from d4 but have rings
  0 and 1 (`Hexagons.RingIsNotHexDistance`).
- The device size of a cube does not scale with `cube_side_cm`. The shift
  between cubes equals the side, so the sheet grows with it. Going from
  1.6 cm to 2.0 cm keeps the device side almost unchanged instead of
  scaling it by 1.6/2.0 (`CubeConfigs.CubeSideNotProportional`).
- Without opacity the board's name gets `without_opacity` with no `_` in
  front, glued to the word before it (`BoardDrawing.OpacitySuffixGlued`).

## Model

| member | source | states |
|---|---|---|
| TinyVectors.Item | pijersi_svg/pijersi_svg.py:93-101 | `v[key]` succeeds exactly for keys 0 and 1; any other key raises IndexError |
| TinyVectors.ItemRoundTrip | pijersi_svg/pijersi_svg.py:93-101 | components 0 and 1 read back rebuild the vector |
| TinyVectors.NegateInvolution | pijersi_svg/pijersi_svg.py:103-107 | `-(-v) == v` and `+v == v` |
| TinyVectors.Add | pijersi_svg/pijersi_svg.py:109-117 | `v + other` succeeds exactly for a vector or a number; anything else raises NotImplementedError |
| TinyVectors.Subtract | pijersi_svg/pijersi_svg.py:119-127 | `v - other` succeeds exactly for a vector or a number; anything else raises NotImplementedError |
| TinyVectors.AddThenSubtract | pijersi_svg/pijersi_svg.py:109-127 | subtracting the vector or number just added gives `v` back |
| TinyVectors.Multiply | pijersi_svg/pijersi_svg.py:129-134 | only a number may multiply a vector; otherwise NotImplementedError |
| TinyVectors.TrueDivide | pijersi_svg/pijersi_svg.py:136-141 | `v / other` succeeds exactly for a non-zero number; zero raises ZeroDivisionError, a non-number NotImplementedError |
| TinyVectors.MultiplyThenDivide | pijersi_svg/pijersi_svg.py:129-141 | dividing by the non-zero number a vector was multiplied by gives it back |
| TinyVectors.ReflectedAdd | pijersi_svg/pijersi_svg.py:143-144 | `other + v` succeeds for the same operands as `v + other` |
| TinyVectors.AddCommutes | pijersi_svg/pijersi_svg.py:109-144 | `v + w` equals the reflected `w + v` |
| TinyVectors.ReflectedMultiply | pijersi_svg/pijersi_svg.py:146-147 | `other * v` succeeds exactly for a number |
| TinyVectors.ReflectedTrueDivide | pijersi_svg/pijersi_svg.py:149-150 | the reflected dunder `v.__rtruediv__(other)`, which Python calls for `number / v`, always fails with AttributeError, because `__div__` does not exist (for a vector `other`, `other / v` runs `other.__truediv__(v)` instead) |
| TinyVectors.ReflectedSubtract | pijersi_svg/pijersi_svg.py:152-160 | `other - v` succeeds exactly for a vector or a number |
| TinyVectors.ReflectedSubtractIsNegatedSubtract | pijersi_svg/pijersi_svg.py:119-160 | `other - v` is the negation of `v - other` |
| TinyVectors.RotationPreservesInner | pijersi_svg/pijersi_svg.py:162-173 | `make_rotation` keeps inner products when `cos^2 + sin^2 = 1` |
| TinyVectors.RotationRoundTrip | pijersi_svg/pijersi_svg.py:162-165 | rotating by an angle and then by its opposite gives the vector back |
| TinyVectors.MakeRotation | pijersi_svg/pijersi_svg.py:162-165 | the rotated vector's inner product with the original is `cos(angle)*|v|^2` and their cross product `sin(angle)*|v|^2`: it is the original turned by `angle` |
| TinyVectors.Inner | pijersi_svg/pijersi_svg.py:167-173 | `inner` is defined exactly when both operands are vectors; otherwise NotImplementedError |
| TinyVectors.InnerBilinear | pijersi_svg/pijersi_svg.py:168-173 | `inner` is symmetric and linear in its first argument |
| TinyVectors.Norm | pijersi_svg/pijersi_svg.py:175-181 | `norm` is defined exactly for a vector; otherwise NotImplementedError |
| TinyVectors.NormSquared | pijersi_svg/pijersi_svg.py:175-181 | with a square-root `sqrt`, `norm(v)^2 == inner(v, v)` |
| Scaling.ToDevice | pijersi_svg/pijersi_svg.py:337-345 | a device length stands to 4096 as its cm length stands to the sheet's width in cm; positive lengths stay positive |
| Scaling.ClampLineWidth | pijersi_svg/pijersi_svg.py:347-348 | `max(1, w)` is at least 1 and at least `w`, and is one of the two |
| Scaling.ToDeviceOfTotal | pijersi_svg/pijersi_svg.py:337 | the sheet's own width converts to 4096 |
| Scaling.ToDeviceLinear | pijersi_svg/pijersi_svg.py:338-355 | the conversion is linear: sums and multiples convert term by term |
| Scaling.ToDeviceKeepsRatio | pijersi_svg/pijersi_svg.py:338-355 | two converted lengths keep the ratio of their cm lengths |
| CubeConfigs.MinMaxMeansContiguous | pijersi_svg/pijersi_svg.py:302-306 | `min == 0` and `max == count - 1` hold exactly when the indices are 0 .. count-1 |
| CubeConfigs.SourceCubeLayout | pijersi_svg/pijersi_svg.py:255-291 | every entry of the 28-cube table is a cube, never `None`; empty places only appear when the grid is completed |
| CubeConfigs.AxisCount | pijersi_svg/pijersi_svg.py:293-306 | the count succeeds exactly for non-empty indices 0 .. n-1 and is then their number; `min` of nothing raises ValueError, a gap AssertionError |
| CubeConfigs.CompleteLayout | pijersi_svg/pijersi_svg.py:308-311 | afterwards every place of the grid is a key; the original entries are unchanged and every added one is `None` |
| CubeConfigs.ScaleCubeProfile | pijersi_svg/pijersi_svg.py:313-355 | the support is 4096 wide; its cm sizes are the margins, the slots and the closing shift |
| CubeConfigs.SupportLengthPositive | pijersi_svg/pijersi_svg.py:325-333 | a side of the support is positive in cm |
| CubeConfigs.ScaledLengthsKeepProportion | pijersi_svg/pijersi_svg.py:338-355 | every device length is `4096 * len_cm / support_width_cm`, and is positive |
| CubeConfigs.ScaledStrokesClamped | pijersi_svg/pijersi_svg.py:347-352 | both stroke widths are at least 1 and never thinner than their proportional conversion |
| CubeConfigs.ClampedStrokeCoversLength | pijersi_svg/pijersi_svg.py:347-352 | a clamped stroke covers the proportional conversion of its cm width |
| CubeConfigs.DecomposeSupport | pijersi_svg/pijersi_svg.py:325-345 | a side converts into two margins, one slot per place and a shift, term by term |
| CubeConfigs.ScaledSupportDecomposes | pijersi_svg/pijersi_svg.py:325-345 | in device units each side is still `2*margin + count*(shift + cut margin + side) + shift` |
| CubeConfigs.MakeCubeConfigFrom | pijersi_svg/pijersi_svg.py:293-381 | succeeds exactly when rows and columns are contiguous from 0; the result has those counts, a completed grid with the original cubes and `None` elsewhere, and the scaled sizes |
| CubeConfigs.KeysBounded | pijersi_svg/pijersi_svg.py:257-291 | every key of the 28-cube layout lies in the 6 x 6 square |
| CubeConfigs.KeysCover | pijersi_svg/pijersi_svg.py:257-291 | every row has a cube in column 0 and every column one in row 0 |
| CubeConfigs.SquareIndices | pijersi_svg/pijersi_svg.py:293-294 | keys inside the n x n square that touch every row and column give indices 0 .. n-1 |
| CubeConfigs.SourceLayoutIndices | pijersi_svg/pijersi_svg.py:293-306 | the layout has rows and columns 0 .. 5, so the asserts pass |
| CubeConfigs.MakeCubeConfig | pijersi_svg/pijersi_svg.py:248-400 | make_cube_config succeeds with a 6 x 6 grid holding the 28 cubes and `None` elsewhere, and the sizes of a 1.6 cm cube |
| CubeConfigs.CubeSideNotProportional | pijersi_svg/pijersi_svg.py:315-345 | from 1.6 cm to 2.0 cm the device side changes by a ratio between 0.99 and 1, not by 1.6/2.0 |
| BoardConfigs.MakeBoardConfig | pijersi_svg/pijersi_svg.py:403-531 | the board is 4096 wide, positive in cm, with positive hexagon width and side and 6 corners |
| BoardConfigs.BoardSizesCm | pijersi_svg/pijersi_svg.py:427-438 | the board is two cut margins plus 8 hexagon widths across, and two cut margins plus 13 hexagon sides down |
| BoardConfigs.BoardAspect | pijersi_svg/pijersi_svg.py:442-443 | in device units the board keeps its cm aspect ratio |
| BoardConfigs.ConvertsTermByTerm | pijersi_svg/pijersi_svg.py:443-450 | a length of two margins and n units converts term by term |
| BoardConfigs.BoardWidthDecomposes | pijersi_svg/pijersi_svg.py:427-447 | in device units the width is `2*cut margin + 8*hexagon width` |
| BoardConfigs.BoardHeightDecomposes | pijersi_svg/pijersi_svg.py:433-448 | in device units the height is `2*cut margin + 13*hexagon side` |
| BoardConfigs.HexagonProportions | pijersi_svg/pijersi_svg.py:410-449 | a hexagon is twice its side high and `sqrt(3)` sides wide |
| BoardConfigs.HexagonStrokeClamped | pijersi_svg/pijersi_svg.py:481-482 | the hexagon stroke is at least 1 and at least its proportional width |
| BoardConfigs.HexagonScaleFromCubeSide | pijersi_svg/pijersi_svg.py:751 | `hexagon_scale = 1 - 0.3/(2*cube_side_cm)`, inside (0, 1) exactly when the side exceeds 0.15 cm |
| BoardConfigs.SourceHexagonScale | pijersi_svg/pijersi_svg.py:751 | with a 1.6 cm cube the hexagons are drawn at 29/32 of their size |
| BoardConfigs.OrthonormalXY | pijersi_svg/pijersi_svg.py:459-461 | the `unit_x` and `unit_y` that make_board_config builds are orthonormal |
| BoardConfigs.UnitVectors | pijersi_svg/pijersi_svg.py:459-466 | `unit_x = (1, 0)`, `unit_y = (0, -1)`, `unit_u = unit_x`, `unit_v = cos*unit_x + sin*unit_y` |
| BoardConfigs.UnitFrame | pijersi_svg/pijersi_svg.py:463-466 | `inner(unit_u, unit_v)` and `inner(unit_y, unit_v)` are the cosine and sine of the side angle; `unit_v` is a unit vector when `cos^2 + sin^2 = 1` |
| BoardConfigs.LabelShifts | pijersi_svg/pijersi_svg.py:471-473 | the vertical label shift is `0.6*side` against `unit_y`, which is below the centre on the SVG page because its y axis points down; the horizontal one `1.2*side` across; the font size is `floor(0.2*hexagon width)` |
| Names.NameLessIrreflexive | pijersi_svg/pijersi_svg.py:601 | no name is below itself in Python's string order |
| Names.NameLessTransitive | pijersi_svg/pijersi_svg.py:601 | the string order is transitive |
| Names.NameLessTotal | pijersi_svg/pijersi_svg.py:601 | two different names are ordered one way or the other |
| Names.NameLessAsymmetric | pijersi_svg/pijersi_svg.py:601 | the string order is asymmetric |
| Names.SortedNames | pijersi_svg/pijersi_svg.py:601 | `sorted(keys)` is strictly increasing, with exactly the keys as elements |
| Names.StrictlySortedUnique | pijersi_svg/pijersi_svg.py:601 | two strictly sorted sequences with the same elements are equal |
| Names.SortedNamesOfSorted | pijersi_svg/pijersi_svg.py:601 | sorting the elements of a strictly sorted sequence gives that sequence |
| Strings.ReplaceWithoutMatch | pijersi_svg/pijersi_svg.py:717 | a string with no "pi" is left unchanged |
| Strings.Replace | pijersi_svg/pijersi_svg.py:717 | replacing a pattern by itself changes nothing, and replacing it by a string of the same length keeps the length |
| Strings.ReplaceAtStart | pijersi_svg/pijersi_svg.py:717 | an occurrence at the start is replaced and the scan resumes after it |
| Strings.ReplaceOnlyAtStart | pijersi_svg/pijersi_svg.py:717 | `pattern + rest` with no "pi" in `rest` becomes `replacement + rest` |
| Shapes.Canvas.constructor | pijersi_svg/pijersi_svg.py:720-723 | a new drawing has the given frame and render size, and no shapes |
| Shapes.Canvas.Append | pijersi_svg/pijersi_svg.py:742 | `append` adds the shape at the end and keeps the rest |
| Hexagons.RowNamesSpelled | pijersi_svg/pijersi_svg.py:620-629 | the seven rows of `__layout`, spelled out |
| Hexagons.TableRowNames | pijersi_svg/pijersi_svg.py:616-691 | a row of the table, as its shape says, carries the names its `__layout` row lists |
| Hexagons.LayoutMatchesTable | pijersi_svg/pijersi_svg.py:616-629 | `__layout` lists rows g down to a with the table's names, offsets alternating 1 and 0 |
| Hexagons.RowA | pijersi_svg/pijersi_svg.py:634-640 | row a: 6 cells named a1 .. a6, all at v = -3, each one u-step after the one before; the first labelled West, the last East, the others unset |
| Hexagons.RowB | pijersi_svg/pijersi_svg.py:642-649 | row b: 7 cells named b1 .. b7, all at v = -2, each one u-step after the one before; the first labelled West, the last East, the others unset |
| Hexagons.RowC | pijersi_svg/pijersi_svg.py:651-657 | row c: 6 cells named c1 .. c6, all at v = -1, each one u-step after the one before; the first labelled West, the last East, the others unset |
| Hexagons.RowD | pijersi_svg/pijersi_svg.py:659-666 | row d: 7 cells named d1 .. d7, all at v = 0, each one u-step after the one before; the first labelled West, the last East, the others unset |
| Hexagons.RowE | pijersi_svg/pijersi_svg.py:668-674 | row e: 6 cells named e1 .. e6, all at v = 1, each one u-step after the one before; the first labelled West, the last East, the others unset |
| Hexagons.RowF | pijersi_svg/pijersi_svg.py:676-683 | row f: 7 cells named f1 .. f7, all at v = 2, each one u-step after the one before; the first labelled West, the last East, the others unset |
| Hexagons.RowG | pijersi_svg/pijersi_svg.py:685-691 | row g: 6 cells named g1 .. g6, all at v = 3, each one u-step after the one before; the first labelled West, the last East, the others unset |
| Hexagons.StandardCells | pijersi_svg/pijersi_svg.py:632-691 | the table has 45 cells, and d4, its 23rd, sits at axial (0, 0) |
| Hexagons.CenterOf | pijersi_svg/pijersi_svg.py:567-568 | the cell at axial (0, 0) is centred on the board's origin |
| Hexagons.RowAIncreasing | pijersi_svg/pijersi_svg.py:634-640 | row a increases in name and position order, with two-character names |
| Hexagons.RowBIncreasing | pijersi_svg/pijersi_svg.py:642-649 | row b increases likewise |
| Hexagons.RowCIncreasing | pijersi_svg/pijersi_svg.py:651-657 | row c increases likewise |
| Hexagons.RowDIncreasing | pijersi_svg/pijersi_svg.py:659-666 | row d increases likewise |
| Hexagons.RowEIncreasing | pijersi_svg/pijersi_svg.py:668-674 | row e increases likewise |
| Hexagons.RowFIncreasing | pijersi_svg/pijersi_svg.py:676-683 | row f increases likewise |
| Hexagons.RowGIncreasing | pijersi_svg/pijersi_svg.py:685-690 | row g increases likewise |
| Hexagons.StandardCellsIncreasing | pijersi_svg/pijersi_svg.py:632-690 | the 45 cells are listed in strictly increasing name order and position order |
| Hexagons.StandardNamesSorted | pijersi_svg/pijersi_svg.py:632-690 | the table's names in table order are strictly sorted |
| Hexagons.SideLabelCount | pijersi_svg/pijersi_svg.py:910-918 | the number of West or East label sides is at most the number of cells |
| Hexagons.FourteenSideLabels | pijersi_svg/pijersi_svg.py:632-690 | exactly 14 cells, two per row, have a West or East label side; the rest keep the default `0` |
| Hexagons.RowEndsLabelled | pijersi_svg/pijersi_svg.py:634-640 | a row labelled West at its start and East at its end counts two side labels |
| Hexagons.HexDistance | pijersi_svg/pijersi_svg.py:612-613 | the number of axial steps from d4 is never negative, and it is 0 only at d4 itself |
| Hexagons.RingIsNotHexDistance | pijersi_svg/pijersi_svg.py:636-644 | a2 and b2 are both 3 steps from d4 but have rings 0 and 1 |
| Hexagons.CentreNeighbours | pijersi_svg/pijersi_svg.py:611-613 | the six steps are the six unit axial moves, leading from d4 to c3, c4, d3, d5, e3 and e4 |
| Hexagons.CenterStep | pijersi_svg/pijersi_svg.py:565-568 | moving by an axial step moves the centre by `hexagon_width` times the step's image in the u-v frame |
| Hexagons.UnitStepMovesOneWidth | pijersi_svg/pijersi_svg.py:565-568 | a step whose image is a unit vector moves the centre by one hexagon width |
| Hexagons.StepIsUnit | pijersi_svg/pijersi_svg.py:611-613 | with `unit_v = (1/2, -sqrt(3)/2)` each of the six steps has a unit image |
| Hexagons.NeighbourAtOneWidth | pijersi_svg/pijersi_svg.py:565-613 | the six neighbours' centres are exactly one hexagon width away |
| Hexagons.Hexagon.constructor | pijersi_svg/pijersi_svg.py:556-568 | the new cell has the given name, position, ring and label side, and no index yet |
| Hexagons.RegistrableSnoc | pijersi_svg/pijersi_svg.py:551-554 | one more cell can be created exactly when the earlier ones can and its own asserts pass |
| Hexagons.RegistrableIsDistinctAndFree | pijersi_svg/pijersi_svg.py:551-563 | creating cells one after the other succeeds exactly when their names and positions are pairwise distinct, not yet taken, and the names have two characters |
| Hexagons.RegistrablePrefix | pijersi_svg/pijersi_svg.py:632-690 | every prefix of creatable cells is creatable |
| Hexagons.StandardRegistrable | pijersi_svg/pijersi_svg.py:632-690 | the 45 cells of the table can all be created on an empty registry |
| Hexagons.ConsistentAfterAdd | pijersi_svg/pijersi_svg.py:562-563 | adding a fresh cell to both dictionaries keeps them holding the same cells under their names and positions |
| Hexagons.HexagonRegistry.constructor | pijersi_svg/pijersi_svg.py:541-547 | the two dictionaries start empty and init is not done |
| Hexagons.HexagonRegistry.Register | pijersi_svg/pijersi_svg.py:549-563 | fails with AssertionError exactly when the name is taken, the position is taken or the name is not two characters long; otherwise both dictionaries gain exactly the new cell and nothing else changes |
| Hexagons.HexagonRegistry.RegisterNext | pijersi_svg/pijersi_svg.py:549-563 | one line of the table creates its cell; the dictionaries' keys track the prefix of the table created so far; on a failing assert neither dictionary changes and the line fails the asserts; otherwise every earlier entry keeps its hexagon |
| Hexagons.TrackedStep | pijersi_svg/pijersi_svg.py:551-554 | the next cell passes the asserts exactly when the prefix stays creatable |
| Hexagons.TrackedAll | pijersi_svg/pijersi_svg.py:632-690 | once every cell is created, the keys are the old ones plus the table's names and positions |
| Hexagons.HexagonRegistry.CreateHexagons | pijersi_svg/pijersi_svg.py:632-690 | succeeds exactly when the cells are creatable; the keys gain exactly the cells' names and positions, each name leading to the hexagon made from its line; every earlier entry of both dictionaries keeps its hexagon; on AssertionError the lines before the failing one are registered on top of the old keys and that line fails the asserts |
| Hexagons.SortedByName | pijersi_svg/pijersi_svg.py:601-603 | the first loop appends the hexagons of `sorted(keys)` in that order: strictly sorted by name, one per key |
| Hexagons.IndexInOrder | pijersi_svg/pijersi_svg.py:605-606 | the `enumerate` loop gives each hexagon its place as `index` and touches no other hexagon |
| Hexagons.SortAndIndex | pijersi_svg/pijersi_svg.py:600-606 | both loops: the registered hexagons in name order, strictly sorted and each registered under its name, and each one's `index` set to its place |
| Hexagons.HexagonRegistry.CreateAllSortedHexagons | pijersi_svg/pijersi_svg.py:600-608 | the sorted list is the hexagons in name order, each indexed by its place, and `all` is that list |
| Hexagons.HexagonRegistry.CreateLayout | pijersi_svg/pijersi_svg.py:616-629 | `__layout` becomes the seven rows g to a |
| Hexagons.HexagonRegistry.CreateDeltaUAndV | pijersi_svg/pijersi_svg.py:611-613 | the steps become the two six-entry tables, each entry a signed byte |
| Hexagons.HexagonRegistry.CreateTables | pijersi_svg/pijersi_svg.py:590-592 | layout, steps and the done flag, leaving the registry ready |
| Hexagons.HexagonRegistry.FinishInit | pijersi_svg/pijersi_svg.py:589-592 | sorting and the tables leave the registry ready with the hexagons in name order |
| Hexagons.HexagonRegistry.InitWith | pijersi_svg/pijersi_svg.py:587-592 | the body of `init` for a given table: succeeds exactly when the table is creatable, and then the registry is ready; earlier entries keep their hexagons; on AssertionError the lines before the failing one stay registered and the registry is not done |
| Hexagons.HexagonRegistry.Init | pijersi_svg/pijersi_svg.py:586-592 | a second call changes nothing; the first succeeds exactly when the 45 cells are creatable, raising AssertionError otherwise; from empty, `get_all` holds the 45 cells in name order with `index` 0..44; every entry present before keeps its hexagon; on AssertionError the cells before the failing line stay registered |
| Hexagons.SortedTableLookup | pijersi_svg/pijersi_svg.py:600-606 | for a table already in name order, the sorted hexagons are those of the table in table order |
| Hexagons.HexagonRegistry.Get | pijersi_svg/pijersi_svg.py:574-575 | `get(name)` is the hexagon of that name, or KeyError when there is none |
| Hexagons.HexagonRegistry.GetAll | pijersi_svg/pijersi_svg.py:578-579 | after `init`, the hexagons strictly in name order, each indexed by its place; empty before |
| Hexagons.HexagonRegistry.GetLayout | pijersi_svg/pijersi_svg.py:582-583 | the seven rows once `init` has run, empty before |
| BoardDrawing.LabelKind | pijersi_svg/pijersi_svg.py:698-705 | the label part of the name ends in "s" and contains no "pi" |
| BoardDrawing.BoardFileName | pijersi_svg/pijersi_svg.py:698-717 | the name starts with "pijersi_", and with "pijersi_laser_" exactly when the picture is for the laser |
| BoardDrawing.FlagsSuffixHasNoPI | pijersi_svg/pijersi_svg.py:707-714 | the flag suffixes contain no "pi" and none starts with "i" |
| BoardDrawing.StemHasNoPI | pijersi_svg/pijersi_svg.py:698-714 | nothing after the leading "pijersi_" contains "pi" |
| BoardDrawing.LaserBoardFileName | pijersi_svg/pijersi_svg.py:698-717 | the laser name is the rendered one with only its prefix turned into "pijersi_laser_" |
| BoardDrawing.OpacitySuffixGlued | pijersi_svg/pijersi_svg.py:713-714 | without opacity the name ends in "without_opacity" with no "_" before it |
| BoardDrawing.BoardOuter | pijersi_svg/pijersi_svg.py:726-740 | the outer rectangle is centred on the origin; rendered it is the whole board in its colour, for the laser a white cut line one cut margin inside every edge |
| BoardDrawing.HexagonVertices | pijersi_svg/pijersi_svg.py:753-765 | a drawn hexagon has `hexagon_vertex_count` corners |
| BoardDrawing.OpacityAlternates | pijersi_svg/pijersi_svg.py:770-771 | even rings get the full opacity, odd rings half of it, and rings two apart look alike |
| BoardDrawing.HexagonShape | pijersi_svg/pijersi_svg.py:773-795 | the outline is a closed polygon stroked in the hexagon line colour, filled with the radial gradient exactly when the gradient is on |
| BoardDrawing.HexagonShapeStyle | pijersi_svg/pijersi_svg.py:773-795 | the outline is closed; with gradient, transparent at the centre and at the cell's opacity at the corners' radius; otherwise half the opacity, or none without opacity |
| BoardDrawing.PolarPointOnCircle | pijersi_svg/pijersi_svg.py:757-763 | a corner is at the given radius from the centre when `cos^2 + sin^2 = 1` |
| BoardDrawing.CornersOnGradientRim | pijersi_svg/pijersi_svg.py:753-787 | every corner lies on the circle where the gradient reaches full opacity |
| BoardDrawing.SubSegment | pijersi_svg/pijersi_svg.py:810-813 | `a` and `b` lie in [0, 1], and `a <= b` when `u >= 0` |
| BoardDrawing.SegmentShape | pijersi_svg/pijersi_svg.py:803-830 | a segment is a line in the hexagon line colour whose two ends lie between the two border points drawn |
| BoardDrawing.AlongIsBetween | pijersi_svg/pijersi_svg.py:807-819 | `x + p*(y - x)` with `p` in [0, 1] is a convex combination of `x` and `y` |
| BoardDrawing.SegmentWithinChords | pijersi_svg/pijersi_svg.py:803-819 | each segment end lies between the two border points, and each border point between its two corners |
| BoardDrawing.SegmentShapes | pijersi_svg/pijersi_svg.py:800-832 | an odd-ring cell gets 500 segments |
| BoardDrawing.DrawSegments | pijersi_svg/pijersi_svg.py:799-832 | the segment loop appends exactly those 500 segments, in order |
| BoardDrawing.DecoratorVertices | pijersi_svg/pijersi_svg.py:843-860 | the decoration polygon has 12 corners |
| BoardDrawing.Walk | pijersi_svg/pijersi_svg.py:874-885 | a walk of n steps has n + 1 points, starting at the start and first moving by the first step |
| BoardDrawing.WalkSteps | pijersi_svg/pijersi_svg.py:874-885 | the k-th step of the walk is the first step turned k times |
| BoardDrawing.TurnedLength | pijersi_svg/pijersi_svg.py:881-882 | turning by an angle on the unit circle keeps a step's length |
| BoardDrawing.WalkEquilateral | pijersi_svg/pijersi_svg.py:874-885 | every step of such a walk is as long as the first |
| BoardDrawing.RotatingPolygonVertices | pijersi_svg/pijersi_svg.py:870-886 | a rotating hexagon starts at `v1`, goes to `v2`, and closes back at `v1` |
| BoardDrawing.RotatingPolygonEquilateral | pijersi_svg/pijersi_svg.py:870-886 | its six sides are as long as the 12-gon side it stands on |
| BoardDrawing.SideHexagonOnSide | pijersi_svg/pijersi_svg.py:870-901 | the k-th rotating hexagon is a closed outline on the k-th side of the 12-gon, the last side wrapping to the first corner |
| BoardDrawing.RingDecorationShapes | pijersi_svg/pijersi_svg.py:834-901 | an even-ring cell gets the 12-gon and one rotating hexagon per side: 13 shapes |
| BoardDrawing.DrawRingDecoration | pijersi_svg/pijersi_svg.py:834-901 | the decoration loop appends exactly those shapes, in order |
| BoardDrawing.LabelLocation | pijersi_svg/pijersi_svg.py:903-918 | no label without labels; else the vertical shift off the centre with all labels; else only West (centre minus the horizontal shift) or East (plus it) cells |
| BoardDrawing.SideLabelsMirror | pijersi_svg/pijersi_svg.py:910-915 | a West and an East label of the same cell are mirrored about its centre |
| BoardDrawing.DrawDecoration | pijersi_svg/pijersi_svg.py:799-901 | with decoration, odd rings get the segments and even rings the 12-gon pattern; nothing without decoration |
| BoardDrawing.DrawCell | pijersi_svg/pijersi_svg.py:746-927 | one turn of the cell loop appends the hexagon, its decoration and its label, in that order |
| BoardDrawing.BoardShapesStep | pijersi_svg/pijersi_svg.py:746-927 | one more cell appends its shapes after those of the cells before |
| BoardDrawing.DrawBoard | pijersi_svg/pijersi_svg.py:694-927 | fails with TypeError exactly when `Hexagon.all` is unset; otherwise the picture has the derived name, the board's frame, and the outer rectangle followed by every cell's shapes in order |
| BoardDrawing.InitialisedRegistryDraws | pijersi_svg/pijersi_svg.py:600-608 | after a successful `init`, `Hexagon.all` is set to the sorted list, so draw_board does not fail with TypeError |
| BoardDrawing.SegmentsHaveNoText | pijersi_svg/pijersi_svg.py:826-832 | the segments hold no text |
| BoardDrawing.RingHasNoText | pijersi_svg/pijersi_svg.py:862-901 | the 12-gon pattern holds no text |
| BoardDrawing.DecorationHasNoText | pijersi_svg/pijersi_svg.py:783-901 | a hexagon and its decoration hold no text |
| BoardDrawing.CellLabelCount | pijersi_svg/pijersi_svg.py:920-927 | a cell adds one text exactly when it has a label location |
| BoardDrawing.BoardTextStep | pijersi_svg/pijersi_svg.py:903-927 | the last cell adds its one text or none |
| BoardDrawing.BoardLabelCount | pijersi_svg/pijersi_svg.py:903-927 | the board holds no text without labels, one per cell with all labels, otherwise one per West or East cell |
| BoardDrawing.StandardBoardLabelCount | pijersi_svg/pijersi_svg.py:903-927 | on the 45-cell board: 0, 45 or 14 texts |
| CubeDrawing.CubesModeOf | pijersi_svg/pijersi_svg.py:948-959 | the assert fails exactly when a laser picture asks for both or neither of support and decorations; otherwise exactly one of the three pictures is chosen |
| CubeDrawing.CubesFileName | pijersi_svg/pijersi_svg.py:951-959 | every name starts with "pijersi_", and with "pijersi_laser_" exactly for the laser pictures |
| CubeDrawing.CubesFileNamesDistinct | pijersi_svg/pijersi_svg.py:951-959 | the three pictures have distinct names, and only the laser ones start with "pijersi_laser_" |
| CubeDrawing.SupportOuter | pijersi_svg/pijersi_svg.py:967-989 | rendered: the whole sheet in the support colour; laser support: a white rectangle one cut margin inside the edge, stroked with the second cut colour; laser decorations: the whole sheet outlined in black |
| CubeDrawing.ScaledSizesPositive | pijersi_svg/pijersi_svg.py:339-345 | the cube side, cut margin, shift and support cut margin come out positive |
| CubeDrawing.OffsetGap | pijersi_svg/pijersi_svg.py:998-1004 | a later column or row starts at least one slot later, exactly one for neighbours |
| CubeDrawing.CubeCorner | pijersi_svg/pijersi_svg.py:998-1004 | the first place sits one cube shift from the sheet's corner, and with positive sizes no place starts closer |
| CubeDrawing.CutSquare | pijersi_svg/pijersi_svg.py:1006-1013 | the cut square is a square of side `cube_side + cube_cut_margin` stroked in the first cut colour, centred on the cube |
| CubeDrawing.CutSquaresApart | pijersi_svg/pijersi_svg.py:998-1013 | cut squares of different places do not overlap: one ends at least a cube shift before the other starts, exactly one for neighbours |
| CubeDrawing.CubeInsideCutSquare | pijersi_svg/pijersi_svg.py:1006-1013 | a cube lies strictly inside its cut square, half a cut margin from each side |
| CubeDrawing.CutSquareWithin | pijersi_svg/pijersi_svg.py:998-1010 | on a side made of margins, slots and a shift, every cut square ends before the support's cut line |
| CubeDrawing.CutSquaresInsideSupport | pijersi_svg/pijersi_svg.py:998-1010 | every cut square, the last included, ends strictly inside the support's cut line |
| CubeDrawing.GlyphStroke | pijersi_svg/pijersi_svg.py:1065-1066 | rendered: white on black, black on white (never the cube's colour); laser: black |
| CubeDrawing.ScissorsShapes | pijersi_svg/pijersi_svg.py:1090-1116 | the scissors are two segments |
| CubeDrawing.LemniscateDenominator | pijersi_svg/pijersi_svg.py:1135-1137 | `1 + sin^2` is at least 1 |
| CubeDrawing.WisePoints | pijersi_svg/pijersi_svg.py:1128-1140 | the lemniscate has 100 points |
| CubeDrawing.GlyphByKind | pijersi_svg/pijersi_svg.py:1044-1054 | ROCK gives a circle, PAPER a mitred rectangle, SCISSORS two butt-ended lines, WISE a closed 100-point polyline; none filled, all with the glyph stroke and the decoration line width |
| CubeDrawing.GlyphsCentred | pijersi_svg/pijersi_svg.py:1057-1106 | with `decoration_side = cube_side/2`, rock and paper are centred on the cube, and the scissors are the paper square's diagonals crossing there |
| CubeDrawing.DecorationHalfCube | pijersi_svg/pijersi_svg.py:321 | make_cube_config makes the decoration side half the cube's side |
| CubeDrawing.LemniscateBounds | pijersi_svg/pijersi_svg.py:1135-1137 | on the unit circle `cos/(1+sin^2)` lies in [-1, 1] and `cos*sin/(1+sin^2)` in [-1/2, 1/2] |
| CubeDrawing.LemniscateXWithin | pijersi_svg/pijersi_svg.py:1135 | the x offset lies within `delta_x` |
| CubeDrawing.LemniscateYWithin | pijersi_svg/pijersi_svg.py:1136-1137 | the y offset lies within `delta_y/2` |
| CubeDrawing.LemniscateWithin | pijersi_svg/pijersi_svg.py:1123-1137 | every lemniscate point is within `delta_x` across and `delta_y/2` down of the centre |
| CubeDrawing.WiseWithinSquare | pijersi_svg/pijersi_svg.py:1119-1137 | every point of the wise glyph lies in the square of side `decoration_side` centred on the cube |
| CubeDrawing.DrawRock | pijersi_svg/pijersi_svg.py:1057-1069 | appends exactly the rock circle with the glyph stroke |
| CubeDrawing.DrawPaper | pijersi_svg/pijersi_svg.py:1072-1086 | appends exactly the paper square with the glyph stroke |
| CubeDrawing.DrawScissors | pijersi_svg/pijersi_svg.py:1089-1116 | the loop appends exactly the two scissors segments, in order |
| CubeDrawing.DrawWise | pijersi_svg/pijersi_svg.py:1119-1149 | the loop gathers the 100 points in order and appends one closed polyline |
| CubeDrawing.DrawCube | pijersi_svg/pijersi_svg.py:1033-1054 | appends the body when rendering, then the glyph when rendering or drawing decorations |
| CubeDrawing.DrawPlace | pijersi_svg/pijersi_svg.py:995-1017 | one place appends its cut square on the laser support, then its cube, if any |
| CubeDrawing.DrawRow | pijersi_svg/pijersi_svg.py:994-1017 | the inner loop completes exactly when every place of the row is a key, and then appends the row's shapes |
| CubeDrawing.DrawCubesAndSupport | pijersi_svg/pijersi_svg.py:943-1017 | fails with AssertionError exactly when the options fail the assert, with KeyError when a place is missing; otherwise the picture has its name, the support's frame, the outer rectangle and every place's shapes row by row |
| CubeDrawing.CompletedGridDrawable | pijersi_svg/pijersi_svg.py:308-311 | a layout completed to its whole grid has every place the drawing loop looks up, so drawing it never fails with KeyError |
| CubeDrawing.SameModeSamePlace | pijersi_svg/pijersi_svg.py:1006-1017 | two options choosing the same picture draw the same shapes at a place |
| CubeDrawing.SameModeSameRow | pijersi_svg/pijersi_svg.py:994-1017 | likewise for a row |
| CubeDrawing.SameModeSameGrid | pijersi_svg/pijersi_svg.py:993-1017 | likewise for the grid: when rendering, `draw_support` and `draw_decorations` change nothing |
| CubeDrawing.PlaceStroked | pijersi_svg/pijersi_svg.py:1006-1017 | on a laser picture every shape of a place carries the picture's one stroke colour |
| CubeDrawing.RowStroked | pijersi_svg/pijersi_svg.py:994-1017 | likewise for a row |
| CubeDrawing.LaserGridStroked | pijersi_svg/pijersi_svg.py:993-1017 | the laser support holds only first-colour cut lines around the cubes, the decorations sheet only black strokes |

## Left out

- Floating point: all arithmetic is on exact reals. Rounding, and `int(...)` of a float except the font size's floor, are not modelled.
- `math.sqrt`, `math.cos`, `math.sin` and `math.pi` are uninterpreted fields of `Trig`. The hexagon and 12-gon angles, `unit_v`, the rotating hexagons and the lemniscate are stated in terms of them. What needs a trigonometric identity takes it as a precondition.
- `random.sample` and `random.uniform` are replaced by the parameter `draws`. No generator is modelled.
- drawsvg is an append-only sequence of shape records. `RadialGradient` is a fill value carrying its stops. `save_svg`, `save_png`, the picture directories and the file system are left out.
- `print` logging, `print_hexagons`, `main`, the module-level `Hexagon.init()` and the configuration globals, and `pijersi_start.py` (environment set-up) are left out.
- `TinyVector.__init__`, `__str__` and `__repr__` are left out. Vectors are values built from their two components.
- `Hexagon.__str__` is left out.
- BoardDrawing.LabelLocation: a `label_side` of `None` would keep the previous cell's label location. No cell of the table has one, so the model has no `None` label side.
- BoardDrawing.DrawBoard: requires `hexagon_width != 0`, which make_board_config guarantees. It reads the registry's `all` instead of the global class attribute.
- Hexagons.HexagonRegistry: `board` stands for the global `BOARD_CONFIG` that `Hexagon.__init__` reads to compute the centre. The assert `len(position_uv) == 2` holds by the type of a position.
- CubeDrawing.DrawCubesAndSupport: the outer rectangle is chosen from the picture the options select. When the assert fails, the source stops before drawing anything, so this is the same.
- CubeDrawing.WiseWithinSquare: holds for a cosine and sine on the unit circle, which the function takes as a precondition on `Trig`.
