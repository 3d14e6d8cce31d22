/** Three-component vectors over the reals, standing in for THREE.Vector3.
    Floating-point rounding is not modelled: every coordinate is an exact real. */
module Vectors {

  datatype Vec3 = Vec3(x: real, y: real, z: real)

  function Add(a: Vec3, b: Vec3): Vec3 {
    Vec3(a.x + b.x, a.y + b.y, a.z + b.z)
  }

  function Sub(a: Vec3, b: Vec3): Vec3 {
    Vec3(a.x - b.x, a.y - b.y, a.z - b.z)
  }

  function Scale(c: real, a: Vec3): Vec3 {
    Vec3(c * a.x, c * a.y, c * a.z)
  }

  function Dot(a: Vec3, b: Vec3): real {
    a.x * b.x + a.y * b.y + a.z * b.z
  }

  /** Vector3.crossVectors(a, b). */
  function Cross(a: Vec3, b: Vec3): Vec3 {
    Vec3(a.y * b.z - a.z * b.y, a.z * b.x - a.x * b.z, a.x * b.y - a.y * b.x)
  }

  function Abs(r: real): (a: real)
    ensures a >= 0.0 && (a == r || a == -r)
  {
    if r < 0.0 then -r else r
  }

  function Max(a: real, b: real): (m: real)
    ensures m >= a && m >= b && (m == a || m == b)
  {
    if a >= b then a else b
  }

  function Min(a: real, b: real): (m: real)
    ensures m <= a && m <= b && (m == a || m == b)
  {
    if a <= b then a else b
  }

  /** The coordinate of `v` along axis 0 (x), 1 (y) or 2 (z). */
  function Component(v: Vec3, axis: nat): real
    requires axis < 3
  {
    if axis == 0 then v.x else if axis == 1 then v.y else v.z
  }

  /** computeMaxAbsComponentIdx: the axis of the largest absolute coordinate,
      ties going to the earlier axis (x before y before z). */
  function MaxAbsComponentIdx(v: Vec3): (axis: nat)
    ensures axis < 3
    ensures axis == 0 ==> Abs(v.x) >= Abs(v.y) && Abs(v.x) >= Abs(v.z)
    ensures axis == 1 ==> Abs(v.y) > Abs(v.x) && Abs(v.y) >= Abs(v.z)
    ensures axis == 2 ==> Abs(v.z) > Abs(v.x) && Abs(v.z) > Abs(v.y)
  {
    LargestOf(Abs(v.x), Abs(v.y), Abs(v.z))
  }

  /** The body of computeMaxAbsComponentIdx on the three absolute values. */
  function LargestOf(ax: real, ay: real, az: real): nat {
    if ax >= ay && ax >= az then 0
    else if ay >= ax && ay >= az then 1
    else 2
  }

  lemma AbsScale(c: real, r: real)
    requires c > 0.0
    ensures Abs(c * r) == c * Abs(r)
  {
    if r < 0.0 { assert c * r < 0.0; } else { assert c * r >= 0.0; }
  }

  lemma ScaleCompare(c: real, a: real, b: real, sa: real, sb: real)
    requires c > 0.0 && sa == c * a && sb == c * b
    ensures sa >= sb <==> a >= b
  {
    assert sa - sb == c * (a - b);
    if a >= b { assert c * (a - b) >= 0.0; } else { assert c * (a - b) < 0.0; }
  }

  /** Scaling all three arguments by the same c > 0 does not change which
      one LargestOf selects. */
  lemma ScaledLargest(c: real, ax: real, ay: real, az: real, sx: real, sy: real, sz: real)
    requires c > 0.0
    requires sx == c * ax && sy == c * ay && sz == c * az
    ensures LargestOf(sx, sy, sz) == LargestOf(ax, ay, az)
  {
    ScaleCompare(c, ax, ay, sx, sy);
    ScaleCompare(c, ax, az, sx, sz);
    ScaleCompare(c, ay, ax, sy, sx);
    ScaleCompare(c, ay, az, sy, sz);
    LargestOfOrderOnly(sx, sy, sz, ax, ay, az);
  }

  /** LargestOf looks only at how its arguments compare. */
  lemma LargestOfOrderOnly(ax: real, ay: real, az: real, bx: real, by': real, bz: real)
    requires (ax >= ay <==> bx >= by') && (ax >= az <==> bx >= bz)
    requires (ay >= ax <==> by' >= bx) && (ay >= az <==> by' >= bz)
    ensures LargestOf(ax, ay, az) == LargestOf(bx, by', bz)
  {
  }

  /** Normalising a normal (a positive rescaling) does not change its dominant
      axis, so the raw cross product selects the same UV projection plane as
      the normalised normal would. */
  lemma MaxAbsComponentIdxScaleInvariant(c: real, v: Vec3)
    requires c > 0.0
    ensures MaxAbsComponentIdx(Scale(c, v)) == MaxAbsComponentIdx(v)
  {
    var s := Scale(c, v);
    AbsScale(c, v.x);
    AbsScale(c, v.y);
    AbsScale(c, v.z);
    ScaledLargest(c, Abs(v.x), Abs(v.y), Abs(v.z), Abs(s.x), Abs(s.y), Abs(s.z));
  }

  /** The cross product is orthogonal to both of its factors, so a quad's
      normal is orthogonal to the two edges it was computed from. */
  lemma CrossOrthogonal(a: Vec3, b: Vec3)
    ensures Dot(Cross(a, b), a) == 0.0
    ensures Dot(Cross(a, b), b) == 0.0
  {
  }
}
