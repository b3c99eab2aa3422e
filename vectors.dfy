/**
  Three-component vectors over the reals and the axis enumeration that
  indexes them. The engine's single-precision `Vector3` is modelled with
  exact `real` components, so every identity below holds exactly rather
  than up to rounding.
 */
module Vectors {

  datatype Vec3 = Vec3(x: real, y: real, z: real)

  const Zero: Vec3 := Vec3(0.0, 0.0, 0.0)
  const One: Vec3 := Vec3(1.0, 1.0, 1.0)

  /** The manipulation axes; `(int)axis` gives X = 0, Y = 1, Z = 2. */
  datatype Axis = X | Y | Z | Invalid

  function Index(a: Axis): (i: nat)
    requires a != Invalid
    ensures i < 3
  {
    match a
    case X => 0
    case Y => 1
    case Z => 2
  }

  /** The vector indexer `v[i]`. */
  function Component(v: Vec3, i: nat): real
    requires i < 3
  {
    if i == 0 then v.x else if i == 1 then v.y else v.z
  }

  /** The indexed store `v[i] = c`, on a copy. */
  function WithComponent(v: Vec3, i: nat, c: real): Vec3
    requires i < 3
  {
    if i == 0 then v.(x := c) else if i == 1 then v.(y := c) else v.(z := c)
  }

  /** The unit vector along an axis: `Vector3.zero` with component `(int)a` set to 1. */
  function Basis(a: Axis): Vec3
    requires a != Invalid
  {
    WithComponent(Zero, Index(a), 1.0)
  }

  /** `s * v`, componentwise. */
  function Scale(s: real, v: Vec3): Vec3
  {
    Vec3(s * v.x, s * v.y, s * v.z)
  }

  /** `v / s`, componentwise. */
  function Div(v: Vec3, s: real): Vec3
    requires s != 0.0
  {
    Vec3(v.x / s, v.y / s, v.z / s)
  }

  lemma ComponentOfDiv(v: Vec3, s: real, i: nat)
    requires s != 0.0 && i < 3
    ensures Component(Div(v, s), i) == Component(v, i) / s
  {
  }

  /** The absolute value: non-negative, and the argument up to sign. */
  function AbsReal(a: real): (r: real)
    ensures r >= 0.0 && (r == a || r == -a)
  {
    if a < 0.0 then -a else a
  }

  /** Componentwise absolute value, the engine's `Vector3.Abs()`. */
  function Abs(v: Vec3): (r: Vec3)
    ensures r.x >= 0.0 && r.y >= 0.0 && r.z >= 0.0
    ensures (r.x == v.x || r.x == -v.x) && (r.y == v.y || r.y == -v.y) && (r.z == v.z || r.z == -v.z)
  {
    Vec3(AbsReal(v.x), AbsReal(v.y), AbsReal(v.z))
  }

  function Max(a: real, b: real): real
  {
    if a > b then a else b
  }

  /** The largest of the three components. */
  function MaxComponent(v: Vec3): (m: real)
    ensures m >= v.x && m >= v.y && m >= v.z
    ensures m == v.x || m == v.y || m == v.z
  {
    Max(v.x, Max(v.y, v.z))
  }

  /** Scaling by a non-negative factor scales the largest component by that factor. */
  lemma MaxComponentOfScale(s: real, v: Vec3)
    requires s >= 0.0
    ensures MaxComponent(Scale(s, v)) == s * MaxComponent(v)
  {
    var m := MaxComponent(v);
    assert s * v.x <= s * m && s * v.y <= s * m && s * v.z <= s * m by {
      MulMonotone(s, v.x, m);
      MulMonotone(s, v.y, m);
      MulMonotone(s, v.z, m);
    }
  }

  /** Dividing by a positive number divides the largest component by it. */
  lemma MaxComponentOfDiv(v: Vec3, s: real)
    requires s > 0.0
    ensures MaxComponent(Div(v, s)) == MaxComponent(v) / s
  {
    var m := MaxComponent(v);
    DivMonotone(v.x, m, s);
    DivMonotone(v.y, m, s);
    DivMonotone(v.z, m, s);
  }

  lemma DivMonotone(a: real, b: real, s: real)
    requires s > 0.0 && a <= b
    ensures a / s <= b / s
  {
  }

  lemma MulMonotone(s: real, a: real, b: real)
    requires s >= 0.0 && a <= b
    ensures s * a <= s * b
  {
  }
}
