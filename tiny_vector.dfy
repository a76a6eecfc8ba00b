/**
 * The 2D vector algebra of pijersi_svg.py (class TinyVector and the
 * functions that go with it), over exact reals.
 *
 * Python dispatches on the run-time type of the second operand: another
 * vector, an int/float, or anything else (which raises NotImplementedError).
 * `Operand` makes that choice explicit.
 */
module TinyVectors {
  import opened Results

  datatype Vector = Vector(x: real, y: real) {

    /** Component-wise sum. */
    function Plus(w: Vector): Vector { Vector(x + w.x, y + w.y) }

    /** Component-wise difference. */
    function Minus(w: Vector): Vector { Vector(x - w.x, y - w.y) }

    /** Both components multiplied by k. */
    function Scaled(k: real): Vector { Vector(x * k, y * k) }
  }

  /** `TinyVector()` with no argument. */
  const Origin := Vector(0.0, 0.0)

  /** The right-hand operand of an arithmetic dunder method. */
  datatype Operand = Vec(v: Vector) | Number(n: real) | Other

  /**
   * Mathematical functions the source takes from `math`. They are left
   * uninterpreted: whatever a lemma needs of them is stated in its requires.
   */
  datatype Trig = Trig(pi: real, sqrt: real -> real, cos: real -> real, sin: real -> real)

  /** `v[key]`: component 0 is x, component 1 is y, anything else fails. */
  function Item(v: Vector, key: int): (r: Result<real>)
    ensures r.Ok? <==> key == 0 || key == 1
    ensures r.Err? ==> r.error == IndexError
  {
    if key == 0 then Ok(v.x)
    else if key == 1 then Ok(v.y)
    else Err(IndexError)
  }

  /** `-v` */
  function Negate(v: Vector): Vector { Vector(-v.x, -v.y) }

  /** `+v`: a fresh copy. */
  function Positive(v: Vector): Vector { Vector(v.x, v.y) }

  /** `v + other`; a number is added to both components. */
  function Add(v: Vector, other: Operand): (r: Result<Vector>)
    ensures r.Ok? <==> !other.Other?
    ensures r.Err? ==> r.error == NotImplementedError
  {
    match other
    case Vec(w) => Ok(v.Plus(w))
    case Number(n) => Ok(Vector(v.x + n, v.y + n))
    case Other => Err(NotImplementedError)
  }

  /** `v - other`; a number is subtracted from both components. */
  function Subtract(v: Vector, other: Operand): (r: Result<Vector>)
    ensures r.Ok? <==> !other.Other?
    ensures r.Err? ==> r.error == NotImplementedError
  {
    match other
    case Vec(w) => Ok(v.Minus(w))
    case Number(n) => Ok(Vector(v.x - n, v.y - n))
    case Other => Err(NotImplementedError)
  }

  /** `v * other`: only a number may scale a vector. */
  function Multiply(v: Vector, other: Operand): (r: Result<Vector>)
    ensures r.Ok? <==> other.Number?
    ensures r.Err? ==> r.error == NotImplementedError
  {
    match other
    case Number(n) => Ok(v.Scaled(n))
    case _ => Err(NotImplementedError)
  }

  /** `v / other`: only by a number, and Python refuses a zero divisor. */
  function TrueDivide(v: Vector, other: Operand): (r: Result<Vector>)
    ensures r.Ok? <==> other.Number? && other.n != 0.0
    ensures r.Err? && other.Number? ==> r.error == ZeroDivisionError
    ensures r.Err? && !other.Number? ==> r.error == NotImplementedError
  {
    match other
    case Number(n) => if n == 0.0 then Err(ZeroDivisionError) else Ok(Vector(v.x / n, v.y / n))
    case _ => Err(NotImplementedError)
  }

  /** `other + v` delegates to `v + other`. */
  function ReflectedAdd(v: Vector, other: Operand): (r: Result<Vector>)
    ensures r.Ok? <==> !other.Other?
  {
    Add(v, other)
  }

  /** `other * v` delegates to `v * other`. */
  function ReflectedMultiply(v: Vector, other: Operand): (r: Result<Vector>)
    ensures r.Ok? <==> other.Number?
  {
    Multiply(v, other)
  }

  /**
   * `v.__rtruediv__(other)`, which Python calls for `number / v`: it calls
   * `self.__div__`, which TinyVector does not define, so it fails whatever
   * the operand. (For a vector `other`, `other / v` goes to
   * `other.__truediv__(v)` and never reaches this method.)
   */
  function ReflectedTrueDivide(v: Vector, other: Operand): (r: Result<Vector>)
    ensures r == Err(AttributeError)
  {
    Err(AttributeError)
  }

  /** `other - v`. */
  function ReflectedSubtract(v: Vector, other: Operand): (r: Result<Vector>)
    ensures r.Ok? <==> !other.Other?
    ensures r.Err? ==> r.error == NotImplementedError
  {
    match other
    case Vec(w) => Ok(Vector(-v.x + w.x, -v.y + w.y))
    case Number(n) => Ok(Vector(-v.x + n, -v.y + n))
    case Other => Err(NotImplementedError)
  }

  /** `TinyVector.inner(that, other)`: defined only for two vectors. */
  function Inner(that: Operand, other: Operand): (r: Result<real>)
    ensures r.Ok? <==> that.Vec? && other.Vec?
    ensures r.Err? ==> r.error == NotImplementedError
  {
    if that.Vec? && other.Vec? then Ok(Dot(that.v, other.v)) else Err(NotImplementedError)
  }

  /** The Euclidean inner product of two vectors. */
  function Dot(a: Vector, b: Vector): real { a.x * b.x + a.y * b.y }

  /** `TinyVector.norm(that)`, with `math.sqrt` taken from `trig`. */
  function Norm(that: Operand, trig: Trig): (r: Result<real>)
    ensures r.Ok? <==> that.Vec?
    ensures r.Err? ==> r.error == NotImplementedError
  {
    if that.Vec? then Ok(trig.sqrt(Dot(that.v, that.v))) else Err(NotImplementedError)
  }

  /** `v.make_rotation(angle)`: the standard rotation matrix for `angle`. */
  function MakeRotation(v: Vector, angle: real, trig: Trig): (r: Vector)
    ensures Dot(v, r) == trig.cos(angle) * Dot(v, v)
    ensures v.x * r.y - v.y * r.x == trig.sin(angle) * Dot(v, v)
  {
    var c, s := trig.cos(angle), trig.sin(angle);
    Vector(c * v.x - s * v.y, s * v.x + c * v.y)
  }

  // ---------------------------------------------------------------------
  // Properties of the algebra
  // ---------------------------------------------------------------------

  /** Reading both components back rebuilds the vector. */
  lemma ItemRoundTrip(v: Vector)
    ensures Item(v, 0).Ok? && Item(v, 1).Ok?
    ensures Vector(Item(v, 0).value, Item(v, 1).value) == v
  {
  }

  /** Negation is an involution, and `+v` is the identity. */
  lemma NegateInvolution(v: Vector)
    ensures Negate(Negate(v)) == v
    ensures Positive(v) == v
  {
  }

  /** Subtracting what was added, vector or number, gives the vector back. */
  lemma AddThenSubtract(v: Vector, other: Operand)
    requires !other.Other?
    ensures Subtract(Add(v, other).value, other) == Ok(v)
  {
  }

  /** `other - v` is the negation of `v - other`. */
  lemma ReflectedSubtractIsNegatedSubtract(v: Vector, other: Operand)
    requires !other.Other?
    ensures ReflectedSubtract(v, other) == Ok(Negate(Subtract(v, other).value))
  {
  }

  /** Vector addition commutes, so `w + v` and `v + w` agree. */
  lemma AddCommutes(v: Vector, w: Vector)
    ensures Add(v, Vec(w)) == ReflectedAdd(w, Vec(v))
  {
  }

  /** Dividing by the non-zero number a vector was multiplied by undoes it. */
  lemma MultiplyThenDivide(v: Vector, n: real)
    requires n != 0.0
    ensures TrueDivide(Multiply(v, Number(n)).value, Number(n)) == Ok(v)
  {
    var m := Multiply(v, Number(n)).value;
    assert m.x / n == v.x && m.y / n == v.y;
  }

  /** The inner product is symmetric and linear in its first argument. */
  lemma InnerBilinear(a: Vector, b: Vector, c: Vector, k: real)
    ensures Inner(Vec(a), Vec(b)) == Inner(Vec(b), Vec(a))
    ensures Inner(Vec(a.Plus(b)), Vec(c)).value == Inner(Vec(a), Vec(c)).value + Inner(Vec(b), Vec(c)).value
    ensures Inner(Vec(a.Scaled(k)), Vec(c)).value == k * Inner(Vec(a), Vec(c)).value
  {
  }

  /** A rotation by an angle whose cosine and sine lie on the unit circle keeps the inner product. */
  lemma RotationPreservesInner(v: Vector, w: Vector, angle: real, trig: Trig)
    requires trig.cos(angle) * trig.cos(angle) + trig.sin(angle) * trig.sin(angle) == 1.0
    ensures Dot(MakeRotation(v, angle, trig), MakeRotation(w, angle, trig)) == Dot(v, w)
  {
    var c, s := trig.cos(angle), trig.sin(angle);
    calc {
      Dot(MakeRotation(v, angle, trig), MakeRotation(w, angle, trig));
      (c * v.x - s * v.y) * (c * w.x - s * w.y) + (s * v.x + c * v.y) * (s * w.x + c * w.y);
      (c * c + s * s) * (v.x * w.x) + (c * c + s * s) * (v.y * w.y);
    }
  }

  /**
   * Rotating by an angle and then by its opposite gives the vector back,
   * for cosine and sine with the usual parity and unit-circle identities.
   */
  lemma RotationRoundTrip(v: Vector, angle: real, trig: Trig)
    requires trig.cos(-angle) == trig.cos(angle) && trig.sin(-angle) == -trig.sin(angle)
    requires trig.cos(angle) * trig.cos(angle) + trig.sin(angle) * trig.sin(angle) == 1.0
    ensures MakeRotation(MakeRotation(v, angle, trig), -angle, trig) == v
  {
    var c, s := trig.cos(angle), trig.sin(angle);
    var r := MakeRotation(v, angle, trig);
    calc {
      c * r.x + s * r.y;
      c * (c * v.x - s * v.y) + s * (s * v.x + c * v.y);
      (c * c + s * s) * v.x;
    }
    calc {
      -s * r.x + c * r.y;
      -s * (c * v.x - s * v.y) + c * (s * v.x + c * v.y);
      (c * c + s * s) * v.y;
    }
  }

  /** The norm, with a `sqrt` that is a square root, squares to the inner product of the vector with itself. */
  lemma NormSquared(v: Vector, trig: Trig)
    requires trig.sqrt(Dot(v, v)) * trig.sqrt(Dot(v, v)) == Dot(v, v)
    ensures Norm(Vec(v), trig).value * Norm(Vec(v), trig).value == Inner(Vec(v), Vec(v)).value
  {
  }
}
