/** computeUVs: texture coordinates for the frame mesh. Every vertex is
    projected onto the coordinate plane picked by the dominant axis of its
    normal, measured from the low corner of the bounding box of the profile
    points and divided by the largest box extent; on every odd side of the
    frame the two coordinates are swapped so the grain runs along the side. */
module UVMapping {
  import opened Vectors

  /** Vector3.min / Vector3.max: componentwise. */
  function MinV(a: Vec3, b: Vec3): Vec3 {
    Vec3(Min(a.x, b.x), Min(a.y, b.y), Min(a.z, b.z))
  }

  function MaxV(a: Vec3, b: Vec3): Vec3 {
    Vec3(Max(a.x, b.x), Max(a.y, b.y), Max(a.z, b.z))
  }

  /** a <= b on every axis. */
  predicate Below(a: Vec3, b: Vec3) {
    a.x <= b.x && a.y <= b.y && a.z <= b.z
  }

  /** vMin after folding vMin.min(v) over vs, left to right. */
  function Lower(vs: seq<Vec3>): (lo: Vec3)
    requires |vs| > 0
    ensures forall j :: 0 <= j < |vs| ==> Below(lo, vs[j])
    decreases |vs|
  {
    if |vs| == 1 then vs[0] else MinV(Lower(vs[..|vs| - 1]), vs[|vs| - 1])
  }

  /** vMax after folding vMax.max(v) over vs, left to right. */
  function Upper(vs: seq<Vec3>): (hi: Vec3)
    requires |vs| > 0
    ensures forall j :: 0 <= j < |vs| ==> Below(vs[j], hi)
    decreases |vs|
  {
    if |vs| == 1 then vs[0] else MaxV(Upper(vs[..|vs| - 1]), vs[|vs| - 1])
  }

  datatype Box = Box(lo: Vec3, hi: Vec3)

  predicate InBox(v: Vec3, b: Box) {
    Below(b.lo, v) && Below(v, b.hi)
  }

  /** The bounding box of computeUVs: the componentwise extremes of the
      unique vertices, or the unit box (0,0,0)-(1,1,1) when there are none
      (the fold from +-Infinity then leaves a non-finite box). */
  function BoundingBox(unique: seq<Vec3>): (b: Box)
    ensures Below(b.lo, b.hi)
    ensures forall j :: 0 <= j < |unique| ==> InBox(unique[j], b)
    ensures |unique| == 0 ==> b == Box(Vec3(0.0, 0.0, 0.0), Vec3(1.0, 1.0, 1.0))
    ensures |unique| > 0 ==> b == Box(Lower(unique), Upper(unique))
  {
    if |unique| == 0 then Box(Vec3(0.0, 0.0, 0.0), Vec3(1.0, 1.0, 1.0))
    else Box(Lower(unique), Upper(unique))
  }

  /** single_texture_repetition_size: the largest extent of the box, or 1
      when the box is a single point. */
  function RepetitionSize(b: Box): (s: real)
    requires Below(b.lo, b.hi)
    ensures s > 0.0
    ensures b.hi.x - b.lo.x <= s && b.hi.y - b.lo.y <= s && b.hi.z - b.lo.z <= s
    ensures b.lo == b.hi ==> s == 1.0
    ensures b.lo != b.hi ==> s == b.hi.x - b.lo.x || s == b.hi.y - b.lo.y || s == b.hi.z - b.lo.z
  {
    var m := Max(Max(b.hi.x - b.lo.x, b.hi.y - b.lo.y), b.hi.z - b.lo.z);
    if m == 0.0 then 1.0 else m
  }

  /** (u_coord, v_coord) before the swap, for dominant axis 0 (x), 1 (y) or 2 (z). */
  function Project(diff: Vec3, axis: nat): (real, real) {
    if axis == 0 then (diff.z, diff.y)
    else if axis == 1 then (diff.x, diff.z)
    else (diff.x, diff.y)
  }

  /** bVertical: vertex i lies on an odd side. The source computes
      Math.trunc(i / numVerticesPerSide) % 2 === 1, which never holds when
      numVerticesPerSide is zero (an infinite or NaN quotient) or negative
      (a non-positive quotient). */
  function Swapped(i: nat, numVerticesPerSide: int): (swapped: bool)
    ensures numVerticesPerSide <= 0 ==> !swapped
    ensures numVerticesPerSide > 0 ==>
              (swapped <==> i % (2 * numVerticesPerSide) >= numVerticesPerSide)
  {
    if numVerticesPerSide > 0 then
      SecondHalfOfPeriod(i, numVerticesPerSide);
      (i / numVerticesPerSide) % 2 == 1
    else false
  }

  /** Vertex i lies on an odd run of n vertices exactly when it falls in the
      second half of its period of 2n. */
  lemma SecondHalfOfPeriod(i: nat, n: int)
    requires n > 0
    ensures (i / n) % 2 == 1 <==> i % (2 * n) >= n
  {
    var q, r := i / n, i % n;
    var k, b := q / 2, q % 2;
    assert i == (2 * k + b) * n + r;
    assert i == k * (2 * n) + (b * n + r);
    assert 0 <= b * n + r < 2 * n;
    DivModOf(i, 2 * n, k, b * n + r);
  }

  /** The remainder is determined by any decomposition a == q * d + r with 0 <= r < d. */
  lemma DivModOf(a: int, d: int, q: int, r: int)
    requires d > 0 && a == q * d + r && 0 <= r < d
    ensures a % d == r
  {
    var q', r' := a / d, a % d;
    assert a == q' * d + r';
    assert (q - q') * d == r' - r;
    if q > q' {
      MulAtLeast(q - q', d);
    } else if q < q' {
      MulAtLeast(q' - q, d);
    }
  }

  lemma MulAtLeast(t: int, d: int)
    requires t >= 1 && d > 0
    ensures t * d >= d
  {
    assert t * d == (t - 1) * d + d;
    assert (t - 1) * d >= 0;
  }

  /** (u_coord, v_coord) of a vertex at v with normal n, before the swap:
      diff = (v - vMin) / scale projected along the dominant axis of n. */
  function PlaneUV(v: Vec3, n: Vec3, lo: Vec3, scale: real): (uv: (real, real))
    requires scale > 0.0
    ensures Abs(n.x) >= Abs(n.y) && Abs(n.x) >= Abs(n.z) ==>
              uv == ((v.z - lo.z) / scale, (v.y - lo.y) / scale)
    ensures Abs(n.y) > Abs(n.x) && Abs(n.y) >= Abs(n.z) ==>
              uv == ((v.x - lo.x) / scale, (v.z - lo.z) / scale)
    ensures Abs(n.z) > Abs(n.x) && Abs(n.z) > Abs(n.y) ==>
              uv == ((v.x - lo.x) / scale, (v.y - lo.y) / scale)
  {
    var diff := Vec3((v.x - lo.x) / scale, (v.y - lo.y) / scale, (v.z - lo.z) / scale);
    Project(diff, MaxAbsComponentIdx(n))
  }

  /** The texture coordinate of mesh vertex i at position v with normal n. */
  function VertexUV(v: Vec3, n: Vec3, lo: Vec3, scale: real, i: nat, numVerticesPerSide: int): (real, real)
    requires scale > 0.0
  {
    var uv := PlaneUV(v, n, lo, scale);
    if Swapped(i, numVerticesPerSide) then (uv.1, uv.0) else uv
  }

  /** The Float32Array computeUVs returns: empty when the mesh is empty or the
      normals do not match it one to one, otherwise (u, v) of each mesh
      vertex in order. */
  function UVs(unique: seq<Vec3>, mesh: seq<Vec3>, normals: seq<Vec3>, numVerticesPerSide: int): (uvs: seq<real>)
    ensures |mesh| == 0 || |mesh| != |normals| ==> uvs == []
    ensures |mesh| > 0 && |mesh| == |normals| ==> |uvs| == 2 * |mesh|
  {
    if |mesh| == 0 || |mesh| != |normals| then []
    else
      seq(2 * |mesh|, j requires 0 <= j < 2 * |mesh| => UVEntry(unique, mesh, normals, numVerticesPerSide, j))
  }

  /** Entry j of the array: u or v of mesh vertex j / 2. */
  function UVEntry(unique: seq<Vec3>, mesh: seq<Vec3>, normals: seq<Vec3>, numVerticesPerSide: int, j: nat): real
    requires j < 2 * |mesh| && j < 2 * |normals|
  {
    var uv := UVPair(unique, mesh, normals, numVerticesPerSide, j / 2);
    if j % 2 == 0 then uv.0 else uv.1
  }

  lemma Halves(i: nat)
    ensures (2 * i) / 2 == i && (2 * i) % 2 == 0
    ensures (2 * i + 1) / 2 == i && (2 * i + 1) % 2 == 1
  {
  }

  /** The pair pushed for mesh vertex i. */
  function UVPair(unique: seq<Vec3>, mesh: seq<Vec3>, normals: seq<Vec3>, numVerticesPerSide: int, i: nat): (real, real)
    requires i < |mesh| && i < |normals|
  {
    var b := BoundingBox(unique);
    VertexUV(mesh[i], normals[i], b.lo, RepetitionSize(b), i, numVerticesPerSide)
  }

  // ---------------------------------------------------------------------
  // Properties
  // ---------------------------------------------------------------------

  /** Entries 2i and 2i + 1 are the u and v of vertex i. */
  lemma UVsIndex(unique: seq<Vec3>, mesh: seq<Vec3>, normals: seq<Vec3>, numVerticesPerSide: int, i: nat)
    requires |mesh| > 0 && |mesh| == |normals| && i < |mesh|
    ensures |UVs(unique, mesh, normals, numVerticesPerSide)| == 2 * |mesh|
    ensures UVs(unique, mesh, normals, numVerticesPerSide)[2 * i] == UVPair(unique, mesh, normals, numVerticesPerSide, i).0
    ensures UVs(unique, mesh, normals, numVerticesPerSide)[2 * i + 1] == UVPair(unique, mesh, normals, numVerticesPerSide, i).1
  {
    Halves(i);
    var uvs := UVs(unique, mesh, normals, numVerticesPerSide);
    assert uvs[2 * i] == UVEntry(unique, mesh, normals, numVerticesPerSide, 2 * i);
    assert uvs[2 * i + 1] == UVEntry(unique, mesh, normals, numVerticesPerSide, 2 * i + 1);
  }

  /** The box is tight: each of its six faces touches one of the unique vertices. */
  lemma {:induction false} LowerAttained(vs: seq<Vec3>)
    requires |vs| > 0
    ensures exists j :: 0 <= j < |vs| && Lower(vs).x == vs[j].x
    ensures exists j :: 0 <= j < |vs| && Lower(vs).y == vs[j].y
    ensures exists j :: 0 <= j < |vs| && Lower(vs).z == vs[j].z
    decreases |vs|
  {
    var n := |vs|;
    if n > 1 {
      var init := vs[..n - 1];
      LowerAttained(init);
      var jx :| 0 <= jx < |init| && Lower(init).x == init[jx].x;
      var jy :| 0 <= jy < |init| && Lower(init).y == init[jy].y;
      var jz :| 0 <= jz < |init| && Lower(init).z == init[jz].z;
      var lo := Lower(vs);
      assert lo.x == vs[jx].x || lo.x == vs[n - 1].x;
      assert lo.y == vs[jy].y || lo.y == vs[n - 1].y;
      assert lo.z == vs[jz].z || lo.z == vs[n - 1].z;
    } else {
      assert Lower(vs) == vs[0];
    }
  }

  lemma {:induction false} UpperAttained(vs: seq<Vec3>)
    requires |vs| > 0
    ensures exists j :: 0 <= j < |vs| && Upper(vs).x == vs[j].x
    ensures exists j :: 0 <= j < |vs| && Upper(vs).y == vs[j].y
    ensures exists j :: 0 <= j < |vs| && Upper(vs).z == vs[j].z
    decreases |vs|
  {
    var n := |vs|;
    if n > 1 {
      var init := vs[..n - 1];
      UpperAttained(init);
      var jx :| 0 <= jx < |init| && Upper(init).x == init[jx].x;
      var jy :| 0 <= jy < |init| && Upper(init).y == init[jy].y;
      var jz :| 0 <= jz < |init| && Upper(init).z == init[jz].z;
      var hi := Upper(vs);
      assert hi.x == vs[jx].x || hi.x == vs[n - 1].x;
      assert hi.y == vs[jy].y || hi.y == vs[n - 1].y;
      assert hi.z == vs[jz].z || hi.z == vs[n - 1].z;
    } else {
      assert Upper(vs) == vs[0];
    }
  }

  /** A coordinate inside [lo, hi], with hi - lo <= s and s > 0, maps into [0, 1]. */
  lemma UnitRange(a: real, lo: real, hi: real, s: real)
    requires s > 0.0 && lo <= a <= hi && hi - lo <= s
    ensures 0.0 <= (a - lo) / s <= 1.0
  {
    var q := (a - lo) / s;
    assert q * s == a - lo;
  }

  /** Both texture coordinates of a vertex inside the bounding box lie in [0, 1]. */
  lemma PairInUnitSquare(unique: seq<Vec3>, mesh: seq<Vec3>, normals: seq<Vec3>, numVerticesPerSide: int, i: nat)
    requires i < |mesh| && i < |normals|
    requires InBox(mesh[i], BoundingBox(unique))
    ensures var uv := UVPair(unique, mesh, normals, numVerticesPerSide, i);
            0.0 <= uv.0 <= 1.0 && 0.0 <= uv.1 <= 1.0
  {
    var b := BoundingBox(unique);
    var s := RepetitionSize(b);
    var v := mesh[i];
    UnitRange(v.x, b.lo.x, b.hi.x, s);
    UnitRange(v.y, b.lo.y, b.hi.y, s);
    UnitRange(v.z, b.lo.z, b.hi.z, s);
  }

  /** Every texture coordinate of a vertex inside the bounding box lies in [0, 1]. */
  lemma UVInUnitSquare(unique: seq<Vec3>, mesh: seq<Vec3>, normals: seq<Vec3>, numVerticesPerSide: int, j: nat)
    requires |mesh| > 0 && |mesh| == |normals| && j < 2 * |mesh|
    requires InBox(mesh[j / 2], BoundingBox(unique))
    ensures 0.0 <= UVs(unique, mesh, normals, numVerticesPerSide)[j] <= 1.0
  {
    UVsIndex(unique, mesh, normals, numVerticesPerSide, j / 2);
    PairInUnitSquare(unique, mesh, normals, numVerticesPerSide, j / 2);
    assert j == 2 * (j / 2) || j == 2 * (j / 2) + 1;
  }

  /** Entries 2i and 2i + 1 are the projection of vertex i onto the plane of
      its normal's dominant axis, exchanged on odd sides. */
  lemma UVAt(unique: seq<Vec3>, mesh: seq<Vec3>, normals: seq<Vec3>, numVerticesPerSide: int, i: nat)
    requires |mesh| > 0 && |mesh| == |normals| && i < |mesh|
    ensures var b := BoundingBox(unique);
            var uvs := UVs(unique, mesh, normals, numVerticesPerSide);
            var uv := PlaneUV(mesh[i], normals[i], b.lo, RepetitionSize(b));
            && (!Swapped(i, numVerticesPerSide) ==> uvs[2 * i] == uv.0 && uvs[2 * i + 1] == uv.1)
            && (Swapped(i, numVerticesPerSide) ==> uvs[2 * i] == uv.1 && uvs[2 * i + 1] == uv.0)
  {
    UVsIndex(unique, mesh, normals, numVerticesPerSide, i);
  }

  /** Two UV arrays agree when every vertex gets the same pair. */
  lemma UVsSamePairs(unique: seq<Vec3>, mesh: seq<Vec3>, normals: seq<Vec3>,
                     unique': seq<Vec3>, mesh': seq<Vec3>, normals': seq<Vec3>, numVerticesPerSide: int)
    requires |mesh| > 0 && |mesh| == |normals| && |mesh'| == |mesh| && |normals'| == |normals|
    requires forall i :: 0 <= i < |mesh| ==>
               UVPair(unique', mesh', normals', numVerticesPerSide, i) == UVPair(unique, mesh, normals, numVerticesPerSide, i)
    ensures UVs(unique', mesh', normals', numVerticesPerSide) == UVs(unique, mesh, normals, numVerticesPerSide)
  {
    var uvs, uvs' := UVs(unique, mesh, normals, numVerticesPerSide), UVs(unique', mesh', normals', numVerticesPerSide);
    forall j | 0 <= j < 2 * |mesh|
      ensures uvs'[j] == uvs[j]
    {
      UVsIndex(unique, mesh, normals, numVerticesPerSide, j / 2);
      UVsIndex(unique', mesh', normals', numVerticesPerSide, j / 2);
      assert j == 2 * (j / 2) || j == 2 * (j / 2) + 1;
    }
  }

  /** Normalising the normals (rescaling each by its own positive factor)
      leaves every texture coordinate unchanged: only the dominant axis is used. */
  lemma UVsIgnoreNormalLength(unique: seq<Vec3>, mesh: seq<Vec3>, normals: seq<Vec3>, factors: seq<real>,
                              numVerticesPerSide: int)
    requires |factors| == |normals|
    requires forall i :: 0 <= i < |factors| ==> factors[i] > 0.0
    ensures var scaled := seq(|normals|, i requires 0 <= i < |normals| => Scale(factors[i], normals[i]));
            UVs(unique, mesh, scaled, numVerticesPerSide) == UVs(unique, mesh, normals, numVerticesPerSide)
  {
    var scaled := seq(|normals|, i requires 0 <= i < |normals| => Scale(factors[i], normals[i]));
    if |mesh| > 0 && |mesh| == |normals| {
      forall i | 0 <= i < |mesh|
        ensures UVPair(unique, mesh, scaled, numVerticesPerSide, i) == UVPair(unique, mesh, normals, numVerticesPerSide, i)
      {
        MaxAbsComponentIdxScaleInvariant(factors[i], normals[i]);
      }
      UVsSamePairs(unique, mesh, normals, unique, mesh, scaled, numVerticesPerSide);
    }
  }

  function Translate(vs: seq<Vec3>, t: Vec3): (moved: seq<Vec3>)
    ensures |moved| == |vs|
    ensures forall i :: 0 <= i < |vs| ==> moved[i] == Add(vs[i], t)
  {
    seq(|vs|, i requires 0 <= i < |vs| => Add(vs[i], t))
  }

  lemma {:induction false} LowerTranslate(vs: seq<Vec3>, t: Vec3)
    requires |vs| > 0
    ensures Lower(Translate(vs, t)) == Add(Lower(vs), t)
    ensures Upper(Translate(vs, t)) == Add(Upper(vs), t)
    decreases |vs|
  {
    var n := |vs|;
    if n > 1 {
      assert Translate(vs, t)[..n - 1] == Translate(vs[..n - 1], t);
      LowerTranslate(vs[..n - 1], t);
    }
  }

  /** Translating everything moves the box along and keeps its size. */
  lemma PairTranslation(unique: seq<Vec3>, mesh: seq<Vec3>, normals: seq<Vec3>, numVerticesPerSide: int, t: Vec3, i: nat)
    requires |unique| > 0 && i < |mesh| && i < |normals|
    ensures UVPair(Translate(unique, t), Translate(mesh, t), normals, numVerticesPerSide, i)
         == UVPair(unique, mesh, normals, numVerticesPerSide, i)
  {
    LowerTranslate(unique, t);
    var b, b' := BoundingBox(unique), BoundingBox(Translate(unique, t));
    assert b'.hi.x - b'.lo.x == b.hi.x - b.lo.x;
    assert b'.hi.y - b'.lo.y == b.hi.y - b.lo.y;
    assert b'.hi.z - b'.lo.z == b.hi.z - b.lo.z;
    assert RepetitionSize(b') == RepetitionSize(b);
    var v, v' := mesh[i], Translate(mesh, t)[i];
    assert v'.x - b'.lo.x == v.x - b.lo.x;
    assert v'.y - b'.lo.y == v.y - b.lo.y;
    assert v'.z - b'.lo.z == v.z - b.lo.z;
  }

  /** Moving the profile and the mesh together leaves the texture coordinates
      unchanged: they are measured from the low corner of the box. */
  lemma UVsTranslationInvariant(unique: seq<Vec3>, mesh: seq<Vec3>, normals: seq<Vec3>, numVerticesPerSide: int, t: Vec3)
    requires |unique| > 0
    ensures UVs(Translate(unique, t), Translate(mesh, t), normals, numVerticesPerSide)
         == UVs(unique, mesh, normals, numVerticesPerSide)
  {
    if |mesh| > 0 && |mesh| == |normals| {
      forall i | 0 <= i < |mesh|
        ensures UVPair(Translate(unique, t), Translate(mesh, t), normals, numVerticesPerSide, i)
             == UVPair(unique, mesh, normals, numVerticesPerSide, i)
      {
        PairTranslation(unique, mesh, normals, numVerticesPerSide, t, i);
      }
      UVsSamePairs(unique, mesh, normals, Translate(unique, t), Translate(mesh, t), normals, numVerticesPerSide);
    }
  }

  // ---------------------------------------------------------------------
  // The imperative computeUVs
  // ---------------------------------------------------------------------

  /** The bounding-box loops of computeUVs. Starting the fold from the first
      vertex gives the same box as starting it from +-Infinity. */
  method ComputeBoundingBox(unique: seq<Vec3>) returns (vMin: Vec3, vMax: Vec3)
    ensures Box(vMin, vMax) == BoundingBox(unique)
  {
    if |unique| == 0 {
      // no profile points: fall back to the unit box
      vMin, vMax := Vec3(0.0, 0.0, 0.0), Vec3(1.0, 1.0, 1.0);
      return;
    }
    vMin, vMax := unique[0], unique[0];
    var i := 1;
    while i < |unique|
      invariant 1 <= i <= |unique|
      invariant vMin == Lower(unique[..i]) && vMax == Upper(unique[..i])
    {
      assert unique[..i + 1][..i] == unique[..i];
      vMin := MinV(vMin, unique[i]);
      vMax := MaxV(vMax, unique[i]);
      i := i + 1;
    }
    assert unique[..i] == unique;
  }

  /** Appending the pair of vertex i extends the computed prefix of the UV array. */
  lemma UVsStep(unique: seq<Vec3>, mesh: seq<Vec3>, normals: seq<Vec3>, numVerticesPerSide: int, i: nat)
    requires |mesh| > 0 && |mesh| == |normals| && i < |mesh|
    ensures var uv := UVPair(unique, mesh, normals, numVerticesPerSide, i);
            var uvs := UVs(unique, mesh, normals, numVerticesPerSide);
            uvs[..2 * i + 2] == uvs[..2 * i] + [uv.0, uv.1]
  {
    var uv := UVPair(unique, mesh, normals, numVerticesPerSide, i);
    var uvs := UVs(unique, mesh, normals, numVerticesPerSide);
    UVsIndex(unique, mesh, normals, numVerticesPerSide, i);
    assert uvs[..2 * i + 2] == uvs[..2 * i] + [uv.0, uv.1];
  }

  /** The body of the per-vertex loop of computeUVs. */
  method VertexUVStep(v: Vec3, n: Vec3, vMin: Vec3, repetitionSize: real, i: nat, numVerticesPerSide: int)
    returns (uCoord: real, vCoord: real)
    requires repetitionSize > 0.0
    ensures (uCoord, vCoord) == VertexUV(v, n, vMin, repetitionSize, i, numVerticesPerSide)
  {
    // project along the axis the normal points most along
    var iAxis := MaxAbsComponentIdx(n);
    var diff := Vec3((v.x - vMin.x) / repetitionSize, (v.y - vMin.y) / repetitionSize, (v.z - vMin.z) / repetitionSize);
    if iAxis == 0 {
      uCoord, vCoord := diff.z, diff.y;
    } else if iAxis == 1 {
      uCoord, vCoord := diff.x, diff.z;
    } else {
      uCoord, vCoord := diff.x, diff.y;
    }
    var bVertical := numVerticesPerSide > 0 && (i / numVerticesPerSide) % 2 == 1;
    if bVertical {
      uCoord, vCoord := vCoord, uCoord;
    }
  }

  method ComputeUVs(uniqueVertices: seq<Vec3>, meshVertices: seq<Vec3>, meshNormals: seq<Vec3>,
                    numVerticesPerSide: int) returns (uvs: seq<real>)
    ensures uvs == UVs(uniqueVertices, meshVertices, meshNormals, numVerticesPerSide)
  {
    if |meshVertices| == 0 || |meshVertices| != |meshNormals| {
      // an empty mesh, or normals that do not pair up with the vertices
      return [];
    }
    var vMin, vMax := ComputeBoundingBox(uniqueVertices);
    var size := Sub(vMax, vMin);
    var repetitionSize := Max(Max(size.x, size.y), size.z);
    if repetitionSize == 0.0 {
      repetitionSize := 1.0; // a degenerate box would give a zero divisor
    }
    assert repetitionSize == RepetitionSize(BoundingBox(uniqueVertices));
    uvs := [];
    var i := 0;
    while i < |meshVertices|
      invariant 0 <= i <= |meshVertices|
      invariant uvs == UVs(uniqueVertices, meshVertices, meshNormals, numVerticesPerSide)[..2 * i]
    {
      UVsStep(uniqueVertices, meshVertices, meshNormals, numVerticesPerSide, i);
      var uCoord, vCoord := VertexUVStep(meshVertices[i], meshNormals[i], vMin, repetitionSize, i, numVerticesPerSide);
      uvs := uvs + [uCoord, vCoord];
      i := i + 1;
    }
  }
}
