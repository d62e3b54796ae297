/** Three-component vectors (src/math/vec.py). Components are Python floats,
    modelled as reals; every operator builds a new vector. */
module Vec {
  import opened Wrappers

  datatype Vec3 = Vec3(x: real, y: real, z: real)

  const Zero: Vec3 := Vec3(0.0, 0.0, 0.0)

  lemma MulNonNegative(x: real, y: real)
    requires x >= 0.0 && y >= 0.0
    ensures x * y >= 0.0
  {
  }

  lemma MulPositive(x: real, y: real)
    requires x > 0.0 && y > 0.0
    ensures x * y > 0.0
  {
  }

  /** `get_data()[i]`. */
  function At(v: Vec3, i: nat): real
    requires i < 3
  {
    if i == 0 then v.x else if i == 1 then v.y else v.z
  }

  /** Two vectors are equal when all three components are. */
  lemma AtExtensional(a: Vec3, b: Vec3)
    requires forall i :: 0 <= i < 3 ==> At(a, i) == At(b, i)
    ensures a == b
  {
    assert At(a, 0) == At(b, 0) && At(a, 1) == At(b, 1) && At(a, 2) == At(b, 2);
  }

  // Componentwise arithmetic between two vectors, and with a scalar on the right.
  function Add(a: Vec3, b: Vec3): Vec3 { Vec3(a.x + b.x, a.y + b.y, a.z + b.z) }
  function Sub(a: Vec3, b: Vec3): Vec3 { Vec3(a.x - b.x, a.y - b.y, a.z - b.z) }
  /** `a * b` for two vectors is the Hadamard (componentwise) product. */
  function Mul(a: Vec3, b: Vec3): Vec3 { Vec3(a.x * b.x, a.y * b.y, a.z * b.z) }
  function Scale(a: Vec3, k: real): Vec3 { Vec3(a.x * k, a.y * k, a.z * k) }
  function Shift(a: Vec3, k: real): Vec3 { Vec3(a.x + k, a.y + k, a.z + k) }
  function ShiftDown(a: Vec3, k: real): Vec3 { Vec3(a.x - k, a.y - k, a.z - k) }

  function Dot(a: Vec3, b: Vec3): real { a.x * b.x + a.y * b.y + a.z * b.z }

  /** `a.dot(a)`: the squared length. */
  function SqLength(a: Vec3): real { Dot(a, a) }

  /** The right-hand operand of an operator: Python dispatches on its runtime type. */
  datatype Operand = VecArg(v: Vec3) | IntArg(i: int) | FloatArg(f: real) | OtherArg

  /** The value an operand contributes to component `i`. */
  function OperandAt(x: Operand, i: nat): real
    requires i < 3 && !x.OtherArg?
  {
    match x
    case VecArg(v) => At(v, i)
    case IntArg(n) => n as real
    case FloatArg(f) => f
  }

  /** `a + x` (`__add__`). */
  function Plus(a: Vec3, x: Operand): (r: Result<Vec3>)
    ensures r.Err? <==> x.OtherArg?
    ensures r.Err? ==> r.error == ValueError
    ensures r.Ok? ==> forall i :: 0 <= i < 3 ==> At(r.value, i) == At(a, i) + OperandAt(x, i)
  {
    match x
    case VecArg(v) => Ok(Add(a, v))
    case IntArg(n) => Ok(Shift(a, n as real))
    case FloatArg(f) => Ok(Shift(a, f))
    case OtherArg => Err(ValueError)
  }

  /** `x + a` when `x` is not a vector (`__radd__`): Python falls back to `a + x`. */
  function RPlus(a: Vec3, x: Operand): Result<Vec3>
  {
    Plus(a, x)
  }

  /** `a - x` (`__sub__`). */
  function Minus(a: Vec3, x: Operand): (r: Result<Vec3>)
    ensures r.Err? <==> x.OtherArg?
    ensures r.Err? ==> r.error == ValueError
    ensures r.Ok? ==> forall i :: 0 <= i < 3 ==> At(r.value, i) == At(a, i) - OperandAt(x, i)
  {
    match x
    case VecArg(v) => Ok(Sub(a, v))
    case IntArg(n) => Ok(ShiftDown(a, n as real))
    case FloatArg(f) => Ok(ShiftDown(a, f))
    case OtherArg => Err(ValueError)
  }

  /** `a * x` (`__mul__`). */
  function Times(a: Vec3, x: Operand): (r: Result<Vec3>)
    ensures r.Err? <==> x.OtherArg?
    ensures r.Err? ==> r.error == ValueError
    ensures r.Ok? ==> forall i :: 0 <= i < 3 ==> At(r.value, i) == At(a, i) * OperandAt(x, i)
  {
    match x
    case VecArg(v) => Ok(Mul(a, v))
    case IntArg(n) => Ok(Scale(a, n as real))
    case FloatArg(f) => Ok(Scale(a, f))
    case OtherArg => Err(ValueError)
  }

  /** `a / x` (`__truediv__`); a zero divisor raises ZeroDivisionError. */
  function Divide(a: Vec3, x: Operand): (r: Result<Vec3>)
    ensures x.OtherArg? ==> r == Err(ValueError)
    ensures !x.OtherArg? ==> (r.Err? <==> exists i :: 0 <= i < 3 && OperandAt(x, i) == 0.0)
    ensures r.Ok? ==> forall i :: 0 <= i < 3 ==> At(r.value, i) == At(a, i) / OperandAt(x, i)
  {
    if x.OtherArg? then Err(ValueError)
    else if OperandAt(x, 0) == 0.0 || OperandAt(x, 1) == 0.0 || OperandAt(x, 2) == 0.0 then
      Err(ZeroDivisionError)
    else
      Ok(Vec3(a.x / OperandAt(x, 0), a.y / OperandAt(x, 1), a.z / OperandAt(x, 2)))
  }

  /** `-a` (`__neg__`) is `Vec(0,0,0) - a`. */
  function Neg(a: Vec3): (r: Vec3)
    ensures Minus(Zero, VecArg(a)) == Ok(r)
  {
    Sub(Zero, a)
  }

  lemma NegComponents(a: Vec3)
    ensures Neg(a) == Vec3(-a.x, -a.y, -a.z)
  {
  }

  lemma SubSelf(a: Vec3)
    ensures Minus(a, VecArg(a)) == Ok(Zero)
  {
  }

  /** `0 + v == v`: the first step of Python's `sum()` over vectors. */
  lemma ZeroRPlus(v: Vec3)
    ensures RPlus(v, IntArg(0)) == Ok(v)
  {
  }

  /** One step of `sum()`: `acc + v`, where `acc` starts as the integer 0. */
  function SumStep(acc: Operand, v: Vec3): Result<Operand>
  {
    match acc
    case VecArg(a) => Ok(VecArg(Add(a, v)))
    case IntArg(_) => (match RPlus(v, acc) case Ok(w) => Ok(VecArg(w)) case Err(e) => Err(e))
    case FloatArg(_) => (match RPlus(v, acc) case Ok(w) => Ok(VecArg(w)) case Err(e) => Err(e))
    case OtherArg => Err(TypeError)
  }

  /** `sum(vs)`: a left fold of `+` starting from the integer 0. */
  function PySum(vs: seq<Vec3>): Result<Operand>
    decreases |vs|
  {
    if vs == [] then Ok(IntArg(0))
    else
      match PySum(vs[..|vs| - 1])
      case Ok(acc) => SumStep(acc, vs[|vs| - 1])
      case Err(e) => Err(e)
  }

  /** Componentwise sum of component `i`, folded in the same order. */
  function Total(vs: seq<Vec3>, i: nat): real
    requires i < 3
    decreases |vs|
  {
    if vs == [] then 0.0 else Total(vs[..|vs| - 1], i) + At(vs[|vs| - 1], i)
  }

  /** `sum()` over a non-empty list of vectors is the componentwise sum; over
      an empty list it is the integer 0. */
  lemma {:induction false} PySumComponentwise(vs: seq<Vec3>)
    ensures vs == [] ==> PySum(vs) == Ok(IntArg(0))
    ensures vs != [] ==>
              PySum(vs).Ok? && PySum(vs).value.VecArg? &&
              forall i :: 0 <= i < 3 ==> At(PySum(vs).value.v, i) == Total(vs, i)
    decreases |vs|
  {
    if vs != [] {
      var init := vs[..|vs| - 1];
      PySumComponentwise(init);
      if init == [] {
        assert forall i :: 0 <= i < 3 ==> Total(vs, i) == At(vs[0], i);
      }
    }
  }

  /** `sum([a, b, c])` is `(a + b) + c`. */
  lemma PySumThree(a: Vec3, b: Vec3, c: Vec3)
    ensures PySum([a, b, c]) == Ok(VecArg(Add(Add(a, b), c)))
  {
    assert [a][..0] == [];
    assert Shift(a, 0 as real) == a;
    assert PySum([a]) == Ok(VecArg(a));
    assert [a, b][..1] == [a];
    assert PySum([a, b]) == Ok(VecArg(Add(a, b)));
    assert [a, b, c][..2] == [a, b];
  }

  /** A rotation about the vertical axis, given by its cosine and sine. */
  datatype Rotation = Rotation(c: real, s: real)

  predicate OnUnitCircle(r: Rotation) { r.c * r.c + r.s * r.s == 1.0 }

  /** `rotate_y(theta)` with `c = cos(theta)` and `s = sin(theta)`. */
  function RotateY(v: Vec3, r: Rotation): (w: Vec3)
    ensures w.y == v.y
  {
    Vec3(r.c * v.x + r.s * v.z, v.y, -r.s * v.x + r.c * v.z)
  }

  /** A rotation on the unit circle preserves the horizontal length. */
  lemma RotateYPreservesHorizontalLength(v: Vec3, r: Rotation)
    requires OnUnitCircle(r)
    ensures var w := RotateY(v, r); w.x * w.x + w.z * w.z == v.x * v.x + v.z * v.z
  {
    var c, s := r.c, r.s;
    calc {
      (c * v.x + s * v.z) * (c * v.x + s * v.z) + (-s * v.x + c * v.z) * (-s * v.x + c * v.z);
      (c * c + s * s) * (v.x * v.x) + (c * c + s * s) * (v.z * v.z);
      v.x * v.x + v.z * v.z;
    }
  }

  /** The angle zero (cos 0 = 1, sin 0 = 0) leaves a vector unchanged. */
  lemma RotateYIdentity(v: Vec3)
    ensures RotateY(v, Rotation(1.0, 0.0)) == v
  {
  }

  lemma DotSymmetric(a: Vec3, b: Vec3)
    ensures Dot(a, b) == Dot(b, a)
  {
  }

  lemma DotSelfNonNegative(a: Vec3)
    ensures Dot(a, a) >= 0.0
  {
    assert a.x * a.x >= 0.0 && a.y * a.y >= 0.0 && a.z * a.z >= 0.0;
  }

  lemma DivideThenScale(x: real, l: real)
    requires l != 0.0
    ensures (x / l) * l == x
  {
  }

  /** `normalize()`: `v / v.length()`, where `len` is the value `length()`
      returns, i.e. the non-negative square root of `dot(v, v)`. A zero length
      raises ZeroDivisionError; otherwise the result, stretched by the length,
      gives back `v`. */
  function Normalize(v: Vec3, len: real): (r: Result<Vec3>)
    requires len >= 0.0 && len * len == SqLength(v)
    ensures r.Err? <==> len == 0.0
    ensures r.Err? ==> r.error == ZeroDivisionError
    ensures r.Ok? ==> Scale(r.value, len) == v
  {
    var r := Divide(v, FloatArg(len));
    if len != 0.0 then
      DivideThenScale(v.x, len);
      DivideThenScale(v.y, len);
      DivideThenScale(v.z, len);
      r
    else r
  }

  /** Dot product is linear in a scaled argument. */
  lemma DotScale(a: Vec3, k: real, b: Vec3)
    ensures Dot(Scale(a, k), b) == k * Dot(a, b)
  {
  }

  /** The cross product (CGAL's `cross_product`). */
  function Cross(a: Vec3, b: Vec3): Vec3
  {
    Vec3(a.y * b.z - a.z * b.y, a.z * b.x - a.x * b.z, a.x * b.y - a.y * b.x)
  }

  lemma CrossPerpendicular(a: Vec3, b: Vec3)
    ensures Dot(Cross(a, b), a) == 0.0 && Dot(Cross(a, b), b) == 0.0
  {
    var c := Cross(a, b);
    calc {
      Dot(c, a);
      (a.y * b.z - a.z * b.y) * a.x + (a.z * b.x - a.x * b.z) * a.y + (a.x * b.y - a.y * b.x) * a.z;
      a.x * a.y * b.z - a.x * a.z * b.y + a.y * a.z * b.x - a.x * a.y * b.z + a.x * a.z * b.y - a.y * a.z * b.x;
      0.0;
    }
    calc {
      Dot(c, b);
      (a.y * b.z - a.z * b.y) * b.x + (a.z * b.x - a.x * b.z) * b.y + (a.x * b.y - a.y * b.x) * b.z;
      a.y * b.x * b.z - a.z * b.x * b.y + a.z * b.x * b.y - a.x * b.y * b.z + a.x * b.y * b.z - a.y * b.x * b.z;
      0.0;
    }
  }
}
