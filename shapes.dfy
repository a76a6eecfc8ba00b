/**
 * The drawing surface: a drawsvg `Drawing` reduced to its size, its origin,
 * its render size and the sequence of shape records appended to it, in order.
 */
module Shapes {
  import opened Results
  import opened TinyVectors

  /** Colour codes of the laser cutter. */
  const ColorToEngrave: string := "rgb(0,0,0)"
  const ColorToScore: string := "rgb(255,0,0)"
  const ColorToCut1: string := "rgb(0,0,255)"
  const ColorToCut2: string := "rgb(51,102,153)"

  /** Stroke width of a cut line, in device units. */
  const LineWidthToCut: real := 2.0

  /** One stop of a radial gradient. */
  datatype GradientStop = GradientStop(offset: real, color: string, opacity: real)

  /** What fills a shape: nothing (`fill=None`), a colour, or a radial gradient. */
  datatype Fill =
    | NoFill
    | Solid(color: string)
    | Radial(cx: real, cy: real, r: real, stops: seq<GradientStop>)

  /**
   * The drawsvg elements the program emits, with the attributes it sets;
   * an attribute the call leaves out is `None`.
   */
  datatype Shape =
    | Rectangle(x: real, y: real, width: real, height: real, fill: Fill, fillOpacity: Option<real>,
                stroke: Option<string>, strokeWidth: Option<real>, lineJoin: Option<string>)
    | Lines(points: seq<Vector>, fill: Fill, fillOpacity: Option<real>,
            stroke: Option<string>, strokeWidth: Option<real>, closed: bool)
    | Line(start: Vector, end: Vector, fill: Fill, fillOpacity: Option<real>,
           stroke: Option<string>, strokeWidth: Option<real>, lineCap: Option<string>)
    | Circle(cx: real, cy: real, r: real, fill: Fill, fillOpacity: Option<real>,
             stroke: Option<string>, strokeWidth: Option<real>)
    | Text(text: string, fontSize: int, fontFamily: string, x: real, y: real, centered: bool, color: string)

  /** The number of text shapes in a sequence of shapes. */
  function TextCount(shapes: seq<Shape>): (n: nat)
    ensures n <= |shapes|
  {
    if shapes == [] then 0
    else TextCount(shapes[..|shapes| - 1]) + (if shapes[|shapes| - 1].Text? then 1 else 0)
  }

  lemma {:induction false} TextCountDistributes(a: seq<Shape>, b: seq<Shape>)
    ensures TextCount(a + b) == TextCount(a) + TextCount(b)
    decreases |b|
  {
    if b == [] {
      assert a + b == a;
    } else {
      assert (a + b)[..|a + b| - 1] == a + b[..|b| - 1];
      TextCountDistributes(a, b[..|b| - 1]);
    }
  }

  /** A `TextCount` of zero for shapes none of which is a text. */
  lemma {:induction false} NoTextCount(shapes: seq<Shape>)
    requires forall i :: 0 <= i < |shapes| ==> !shapes[i].Text?
    ensures TextCount(shapes) == 0
    decreases |shapes|
  {
    if shapes != [] {
      NoTextCount(shapes[..|shapes| - 1]);
    }
  }

  /** Appending in two steps is appending the two parts at once. */
  lemma AppendAssoc(a: seq<Shape>, b: seq<Shape>, c: seq<Shape>)
    ensures a + b + c == a + (b + c)
  {
  }

  /** Appending in three steps is appending the three parts at once. */
  lemma AppendRegroup(a: seq<Shape>, b: seq<Shape>, c: seq<Shape>, d: seq<Shape>)
    ensures a + b + c + d == a + (b + c + d)
  {
  }

  /** A `draw.Drawing`: its frame is fixed at creation, its shapes only grow. */
  class Canvas {
    const width: real
    const height: real
    const origin: Vector
    const renderWidthCm: real
    const renderHeightCm: real
    var shapes: seq<Shape>

    /** `draw.Drawing(...)` followed by `set_render_size(...)`. */
    constructor(width: real, height: real, origin: Vector, renderWidthCm: real, renderHeightCm: real)
      ensures this.width == width && this.height == height && this.origin == origin
      ensures this.renderWidthCm == renderWidthCm && this.renderHeightCm == renderHeightCm
      ensures shapes == []
    {
      this.width := width;
      this.height := height;
      this.origin := origin;
      this.renderWidthCm := renderWidthCm;
      this.renderHeightCm := renderHeightCm;
      shapes := [];
    }

    /** `drawing.append(shape)` */
    method Append(shape: Shape)
      modifies this
      ensures shapes == old(shapes) + [shape]
    {
      shapes := shapes + [shape];
    }
  }

  /** A finished picture and the file name it is saved under. */
  datatype Picture = Picture(fileName: string, canvas: Canvas)
}
