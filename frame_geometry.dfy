/** The frame / passepartout mesh builder of the gallery: createFrameGeometry
    and computeUVs. A flat 4-point cross-section profile is placed at each of
    the four corners of a rectangle and swept around it into 16 flat-shaded
    quads; every vertex then gets texture coordinates by projecting it onto
    the plane picked by its normal's dominant axis. */
module FrameGeometry {
  import opened Vectors
  import opened UVMapping

  /** numFrameSides */
  const NumFrameSides: nat := 4
  /** numProfileFaces: profile points per corner (the flat profile) */
  const NumProfileFaces: nat := 4
  /** 4 corners times 4 profile points */
  const NumProfileVertices: nat := 16
  /** one quad per (side, profile face) pair */
  const NumQuads: nat := 16
  /** numVerticesPerSide = 4 * numProfileFaces */
  const NumVerticesPerSide: nat := 16

  // ---------------------------------------------------------------------
  // Profile
  // ---------------------------------------------------------------------

  /** cornersPositions[i]: the inner rectangle corners, clockwise from top-left. */
  function Corner(i: nat, hw: real, hh: real): Vec3
    requires i < 4
  {
    if i == 0 then Vec3(-hw, hh, 0.0)
    else if i == 1 then Vec3(hw, hh, 0.0)
    else if i == 2 then Vec3(hw, -hh, 0.0)
    else Vec3(-hw, -hh, 0.0)
  }

  /** signs[i]: the outward diagonal direction at corner i. */
  function SignX(i: nat): real requires i < 4 { if i == 0 || i == 3 then -1.0 else 1.0 }
  function SignY(i: nat): real requires i < 4 { if i == 0 || i == 1 then 1.0 else -1.0 }

  /** v1_outer_front: the corner pushed out by `thickness` along both axes. */
  function OuterFront(i: nat, hw: real, hh: real, thickness: real): Vec3
    requires i < 4
  {
    var c := Corner(i, hw, hh);
    Vec3(c.x + SignX(i) * thickness, c.y + SignY(i) * thickness, c.z)
  }

  /** The profile point `slot` (0 inner-front, 1 outer-front, 2 outer-back,
      3 inner-back) of corner `i`. */
  function ProfilePoint(width: real, height: real, thickness: real, depth: real, i: nat, slot: nat): (p: Vec3)
    requires i < 4 && slot < 4
    ensures slot <= 1 ==> p.z == 0.0
    ensures slot >= 2 ==> p.z == -depth
    ensures slot == 0 || slot == 3 ==>
              p.x == SignX(i) * (width * 0.5) && p.y == SignY(i) * (height * 0.5)
    ensures slot == 1 || slot == 2 ==>
              p.x == SignX(i) * (width * 0.5 + thickness) && p.y == SignY(i) * (height * 0.5 + thickness)
  {
    var hw, hh := width * 0.5, height * 0.5;
    var zOffset := Vec3(0.0, 0.0, -depth);
    if slot == 0 then Corner(i, hw, hh)
    else if slot == 1 then OuterFront(i, hw, hh, thickness)
    else if slot == 2 then Add(OuterFront(i, hw, hh, thickness), zOffset)
    else Add(Corner(i, hw, hh), zOffset)
  }

  /** profileVertices after the first loop of createFrameGeometry, built
      corner by corner: Profile(..., n) holds the points of corners 0..n-1. */
  function ProfilePrefix(width: real, height: real, thickness: real, depth: real, n: nat): (profile: seq<Vec3>)
    requires n <= 4
    ensures |profile| == 4 * n
  {
    if n == 0 then []
    else ProfilePrefix(width, height, thickness, depth, n - 1)
         + [ ProfilePoint(width, height, thickness, depth, n - 1, 0),
             ProfilePoint(width, height, thickness, depth, n - 1, 1),
             ProfilePoint(width, height, thickness, depth, n - 1, 2),
             ProfilePoint(width, height, thickness, depth, n - 1, 3) ]
  }

  function Profile(width: real, height: real, thickness: real, depth: real): (profile: seq<Vec3>)
    ensures |profile| == NumProfileVertices
  {
    ProfilePrefix(width, height, thickness, depth, 4)
  }

  /** Every corner contributes the same four points, in the same order. */
  lemma {:induction false} ProfilePrefixAt(width: real, height: real, thickness: real, depth: real, n: nat, k: nat)
    requires n <= 4 && k < 4 * n
    ensures |ProfilePrefix(width, height, thickness, depth, n)| == 4 * n
    ensures ProfilePrefix(width, height, thickness, depth, n)[k] == ProfilePoint(width, height, thickness, depth, k / 4, k % 4)
  {
    if k < 4 * (n - 1) {
      ProfilePrefixAt(width, height, thickness, depth, n - 1, k);
    }
  }

  /** The 16 profile points: per corner i, the inner corner (+-w/2, +-h/2, 0),
      the outer corner moved by signs[i] * thickness, then both at z = -depth. */
  lemma ProfileShape(width: real, height: real, thickness: real, depth: real, k: nat)
    requires k < NumProfileVertices
    ensures |Profile(width, height, thickness, depth)| == NumProfileVertices
    ensures var p := Profile(width, height, thickness, depth)[k];
            var i, slot := k / 4, k % 4;
            var c := Corner(i, width * 0.5, height * 0.5);
            && (slot == 0 ==> p == c)
            && (slot == 1 ==> p == Vec3(c.x + SignX(i) * thickness, c.y + SignY(i) * thickness, 0.0))
            && (slot == 2 ==> p == Vec3(c.x + SignX(i) * thickness, c.y + SignY(i) * thickness, -depth))
            && (slot == 3 ==> p == Vec3(c.x, c.y, -depth))
  {
    ProfilePrefixAt(width, height, thickness, depth, 4, k);
  }

  /** The first loop of createFrameGeometry. */
  method BuildProfile(width: real, height: real, thickness: real, depth: real) returns (profileVertices: seq<Vec3>)
    ensures profileVertices == Profile(width, height, thickness, depth)
    ensures |profileVertices| == NumProfileVertices
  {
    var hw := width * 0.5;
    var hh := height * 0.5;
    var zOffsetVec := Vec3(0.0, 0.0, -depth);
    profileVertices := [];
    var i := 0;
    while i < NumFrameSides
      invariant 0 <= i <= NumFrameSides
      invariant profileVertices == ProfilePrefix(width, height, thickness, depth, i)
    {
      var v0InnerFront := Corner(i, hw, hh);
      var v1OuterFront := Vec3(v0InnerFront.x + SignX(i) * thickness, v0InnerFront.y + SignY(i) * thickness, v0InnerFront.z);
      profileVertices := profileVertices + [v0InnerFront];
      profileVertices := profileVertices + [v1OuterFront];
      profileVertices := profileVertices + [Add(v1OuterFront, zOffsetVec)];
      profileVertices := profileVertices + [Add(v0InnerFront, zOffsetVec)];
      i := i + 1;
    }
  }

  // ---------------------------------------------------------------------
  // Sweep
  // ---------------------------------------------------------------------

  /** idx_p0 .. idx_p3 of the quad at (iSide, iFace): the profile indices of
      its corners, with the side and the face wrapped mod 4. */
  function Corners(iSide: nat, iFace: nat, k: nat): (idx: nat)
    requires iSide < NumFrameSides && iFace < NumProfileFaces && k < 4
    ensures idx < NumProfileVertices
  {
    var iNextSide := (iSide + 1) % 4;
    var iNextFace := (iFace + 1) % 4;
    if k == 0 then iSide * 4 + iFace
    else if k == 1 then iNextSide * 4 + iFace
    else if k == 2 then iNextSide * 4 + iNextFace
    else iSide * 4 + iNextFace
  }

  /** The face normal of quad (iSide, iFace) before normalisation:
      cross(p1 - p0, p2 - p0). */
  function QuadNormal(profile: seq<Vec3>, iSide: nat, iFace: nat): (normal: Vec3)
    requires |profile| == NumProfileVertices && iSide < NumFrameSides && iFace < NumProfileFaces
    ensures Dot(normal, Sub(profile[Corners(iSide, iFace, 1)], profile[Corners(iSide, iFace, 0)])) == 0.0
    ensures Dot(normal, Sub(profile[Corners(iSide, iFace, 2)], profile[Corners(iSide, iFace, 0)])) == 0.0
  {
    var p0 := profile[Corners(iSide, iFace, 0)];
    var p1 := profile[Corners(iSide, iFace, 1)];
    var p2 := profile[Corners(iSide, iFace, 2)];
    CrossOrthogonal(Sub(p1, p0), Sub(p2, p0));
    Cross(Sub(p1, p0), Sub(p2, p0))
  }

  /** The four vertices pushed for quad (iSide, iFace), in winding order. */
  function QuadVertices(profile: seq<Vec3>, iSide: nat, iFace: nat): seq<Vec3>
    requires |profile| == NumProfileVertices && iSide < NumFrameSides && iFace < NumProfileFaces
  {
    [profile[Corners(iSide, iFace, 0)], profile[Corners(iSide, iFace, 1)],
     profile[Corners(iSide, iFace, 2)], profile[Corners(iSide, iFace, 3)]]
  }

  /** The four copies of the shared normal pushed for quad (iSide, iFace). */
  function QuadNormals(profile: seq<Vec3>, iSide: nat, iFace: nat): seq<Vec3>
    requires |profile| == NumProfileVertices && iSide < NumFrameSides && iFace < NumProfileFaces
  {
    var normal := QuadNormal(profile, iSide, iFace);
    [normal, normal, normal, normal]
  }

  /** The two triangles (o, o+1, o+2) and (o, o+2, o+3) of the quad whose
      vertices start at offset o. */
  function QuadIndices(o: nat): seq<nat> {
    [o + 0, o + 1, o + 2] + [o + 0, o + 2, o + 3]
  }

  /** Offsets of the two triangles (0,1,2) and (0,2,3) inside a quad. */
  function TriangleCorner(t: nat): (k: nat)
    requires t < 6
    ensures k < 4
  {
    if t == 0 then 0 else if t == 1 then 1 else if t == 2 then 2
    else if t == 3 then 0 else if t == 4 then 2 else 3
  }

  /** The number of quads swept before quad (iSide, iFace). */
  function QuadsBefore(iSide: nat, iFace: nat): nat {
    iSide * 4 + iFace
  }

  /** The complete mesh of createFrameGeometry, before flattening: vertex
      4q + k, for quad q = 4 iSide + iFace, is corner k of that quad. */
  function MeshVertices(profile: seq<Vec3>): (mesh: seq<Vec3>)
    requires |profile| == NumProfileVertices
    ensures |mesh| == 4 * NumQuads
  {
    seq(4 * NumQuads, j requires 0 <= j < 4 * NumQuads => profile[Corners(j / 16, j / 4 % 4, j % 4)])
  }

  /** Every vertex carries the normal of its own quad. */
  function MeshNormals(profile: seq<Vec3>): (normals: seq<Vec3>)
    requires |profile| == NumProfileVertices
    ensures |normals| == 4 * NumQuads
  {
    seq(4 * NumQuads, j requires 0 <= j < 4 * NumQuads => QuadNormal(profile, j / 16, j / 4 % 4))
  }

  /** Index 6q + t is corner TriangleCorner(t) of quad q, that is vertex 4q + TriangleCorner(t). */
  function MeshIndices(): (indices: seq<nat>)
    ensures |indices| == 6 * NumQuads
  {
    seq(6 * NumQuads, m requires 0 <= m < 6 * NumQuads => 4 * (m / 6) + TriangleCorner(m % 6))
  }

  /** Slot 4q + k of the mesh decodes back to side, face and corner. */
  lemma SlotDecode(iSide: nat, iFace: nat, k: nat)
    requires iSide < NumFrameSides && iFace < NumProfileFaces && k < 4
    ensures var j := 4 * QuadsBefore(iSide, iFace) + k;
            j / 16 == iSide && j / 4 % 4 == iFace && j % 4 == k
  {
    var j := 4 * QuadsBefore(iSide, iFace) + k;
    assert j == 16 * iSide + 4 * iFace + k;
    assert j / 4 == 4 * iSide + iFace;
  }

  /** The vertices and normals of quad (iSide, iFace) sit at slots 4q .. 4q+3 of the mesh. */
  lemma MeshQuadAt(profile: seq<Vec3>, iSide: nat, iFace: nat, k: nat)
    requires |profile| == NumProfileVertices && iSide < NumFrameSides && iFace < NumProfileFaces && k < 4
    ensures MeshVertices(profile)[4 * QuadsBefore(iSide, iFace) + k] == profile[Corners(iSide, iFace, k)]
    ensures MeshNormals(profile)[4 * QuadsBefore(iSide, iFace) + k] == QuadNormal(profile, iSide, iFace)
  {
    SlotDecode(iSide, iFace, k);
  }

  /** Pushing quad (iSide, iFace) extends the already swept prefix of the mesh by four slots. */
  lemma MeshPrefixStep(profile: seq<Vec3>, iSide: nat, iFace: nat)
    requires |profile| == NumProfileVertices && iSide < NumFrameSides && iFace < NumProfileFaces
    ensures var n := 4 * QuadsBefore(iSide, iFace);
            && MeshVertices(profile)[..n + 4] == MeshVertices(profile)[..n] + QuadVertices(profile, iSide, iFace)
            && MeshNormals(profile)[..n + 4] == MeshNormals(profile)[..n] + QuadNormals(profile, iSide, iFace)
  {
    var n := 4 * QuadsBefore(iSide, iFace);
    var mv, mn := MeshVertices(profile), MeshNormals(profile);
    forall k | 0 <= k < 4
      ensures mv[n + k] == QuadVertices(profile, iSide, iFace)[k]
      ensures mn[n + k] == QuadNormals(profile, iSide, iFace)[k]
    {
      MeshQuadAt(profile, iSide, iFace, k);
    }
    assert mv[..n + 4] == mv[..n] + QuadVertices(profile, iSide, iFace);
    assert mn[..n + 4] == mn[..n] + QuadNormals(profile, iSide, iFace);
  }

  /** The same for the six indices of the quad starting at vertex `o` = 4q. */
  lemma IndicesPrefixStep(q: nat)
    requires q < NumQuads
    ensures MeshIndices()[..6 * q + 6] == MeshIndices()[..6 * q] + QuadIndices(4 * q)
  {
    var mi := MeshIndices();
    forall t | 0 <= t < 6
      ensures mi[6 * q + t] == QuadIndices(4 * q)[t]
    {
      assert (6 * q + t) / 6 == q && (6 * q + t) % 6 == t;
    }
    assert mi[..6 * q + 6] == mi[..6 * q] + QuadIndices(4 * q);
  }

  /** Every index addresses one of the 64 vertices, and the two triangles of
      quad q use only that quad's own vertices 4q .. 4q+3, so each triangle is
      flat-shaded with its quad's normal. */
  lemma MeshIndicesInRange(profile: seq<Vec3>)
    requires |profile| == NumProfileVertices
    ensures forall m :: 0 <= m < |MeshIndices()| ==> MeshIndices()[m] < |MeshVertices(profile)|
    ensures forall m :: 0 <= m < |MeshIndices()| ==>
              4 * (m / 6) <= MeshIndices()[m] < 4 * (m / 6) + 4
              && MeshNormals(profile)[MeshIndices()[m]] == MeshNormals(profile)[4 * (m / 6)]
  {
    forall m | 0 <= m < |MeshIndices()|
      ensures MeshIndices()[m] < |MeshVertices(profile)|
      ensures 4 * (m / 6) <= MeshIndices()[m] < 4 * (m / 6) + 4
      ensures MeshNormals(profile)[MeshIndices()[m]] == MeshNormals(profile)[4 * (m / 6)]
    {
      var q := m / 6;
      var iSide, iFace := q / 4, q % 4;
      assert q == QuadsBefore(iSide, iFace);
      MeshQuadAt(profile, iSide, iFace, 0);
      MeshQuadAt(profile, iSide, iFace, TriangleCorner(m % 6));
    }
  }

  /** Wrapping both indices mod 4 closes the swept surface: the next quad
      along the sides shares this quad's p1-p2 edge as its p0-p3 edge, and
      the next quad along the profile shares its p3-p2 edge as its p0-p1 edge. */
  lemma SweepIsClosed(iSide: nat, iFace: nat)
    requires iSide < NumFrameSides && iFace < NumProfileFaces
    ensures var s := (iSide + 1) % NumFrameSides;
            Corners(iSide, iFace, 1) == Corners(s, iFace, 0) && Corners(iSide, iFace, 2) == Corners(s, iFace, 3)
    ensures var f := (iFace + 1) % NumProfileFaces;
            Corners(iSide, iFace, 3) == Corners(iSide, f, 0) && Corners(iSide, iFace, 2) == Corners(iSide, f, 1)
  {
  }

  /** The cross product of two edges in a plane z = const is parallel to z. */
  lemma FlatNormal(p0: Vec3, p1: Vec3, p2: Vec3)
    requires p0.z == p1.z == p2.z
    ensures var n := Cross(Sub(p1, p0), Sub(p2, p0));
            n.x == 0.0 && n.y == 0.0 && n.z == (p1.x - p0.x) * (p2.y - p0.y) - (p1.y - p0.y) * (p2.x - p0.x)
  {
  }

  /** The four profile points of corner i. */
  lemma ProfileCorner(width: real, height: real, thickness: real, depth: real, i: nat)
    requires i < 4
    ensures var profile := Profile(width, height, thickness, depth);
            && profile[4 * i] == ProfilePoint(width, height, thickness, depth, i, 0)
            && profile[4 * i + 1] == ProfilePoint(width, height, thickness, depth, i, 1)
            && profile[4 * i + 2] == ProfilePoint(width, height, thickness, depth, i, 2)
            && profile[4 * i + 3] == ProfilePoint(width, height, thickness, depth, i, 3)
  {
    ProfilePrefixAt(width, height, thickness, depth, 4, 4 * i);
    ProfilePrefixAt(width, height, thickness, depth, 4, 4 * i + 1);
    ProfilePrefixAt(width, height, thickness, depth, 4, 4 * i + 2);
    ProfilePrefixAt(width, height, thickness, depth, 4, 4 * i + 3);
  }

  /** With positive sizes the front face (profile face 0) of every side looks
      towards the viewer (+z), so its texture coordinates come from (x, y). */
  lemma FrontFace(width: real, height: real, thickness: real, depth: real, iSide: nat)
    requires width > 0.0 && height > 0.0 && thickness > 0.0 && iSide < NumFrameSides
    ensures var front := QuadNormal(Profile(width, height, thickness, depth), iSide, 0);
            front.x == 0.0 && front.y == 0.0 && front.z > 0.0 && MaxAbsComponentIdx(front) == 2
  {
    var profile := Profile(width, height, thickness, depth);
    var ns := (iSide + 1) % 4;
    ProfileCorner(width, height, thickness, depth, iSide);
    ProfileCorner(width, height, thickness, depth, ns);
    FlatNormal(profile[4 * iSide], profile[4 * ns], profile[4 * ns + 1]);
    var z := QuadNormal(profile, iSide, 0).z;
    if iSide == 0 || iSide == 2 {
      assert z == width * thickness;
    } else {
      assert z == height * thickness;
    }
  }

  /** The back face (profile face 2) of every side looks away from the viewer (-z). */
  lemma BackFace(width: real, height: real, thickness: real, depth: real, iSide: nat)
    requires width > 0.0 && height > 0.0 && thickness > 0.0 && iSide < NumFrameSides
    ensures var back := QuadNormal(Profile(width, height, thickness, depth), iSide, 2);
            back.x == 0.0 && back.y == 0.0 && back.z < 0.0 && MaxAbsComponentIdx(back) == 2
  {
    var profile := Profile(width, height, thickness, depth);
    var ns := (iSide + 1) % 4;
    ProfileCorner(width, height, thickness, depth, iSide);
    ProfileCorner(width, height, thickness, depth, ns);
    FlatNormal(profile[4 * iSide + 2], profile[4 * ns + 2], profile[4 * ns + 3]);
    var z := QuadNormal(profile, iSide, 2).z;
    if iSide == 0 || iSide == 2 {
      assert z == -((width + 2.0 * thickness) * thickness);
    } else {
      assert z == -((height + 2.0 * thickness) * thickness);
    }
  }

  /** The direction pointing away from the frame's opening across side iSide:
      up for the top side, right, down, then left. */
  function Outward(iSide: nat): Vec3
    requires iSide < NumFrameSides
  {
    if iSide == 0 then Vec3(0.0, 1.0, 0.0)
    else if iSide == 1 then Vec3(1.0, 0.0, 0.0)
    else if iSide == 2 then Vec3(0.0, -1.0, 0.0)
    else Vec3(-1.0, 0.0, 0.0)
  }

  /** The direction in which side iSide runs from its corner to the next one. */
  function Along(iSide: nat): Vec3
    requires iSide < NumFrameSides
  {
    if iSide == 0 then Vec3(1.0, 0.0, 0.0)
    else if iSide == 1 then Vec3(0.0, -1.0, 0.0)
    else if iSide == 2 then Vec3(-1.0, 0.0, 0.0)
    else Vec3(0.0, 1.0, 0.0)
  }

  /** The length of the opening along side iSide: the width on the top and
      bottom sides, the height on the left and right ones. */
  function OpeningSpan(width: real, height: real, iSide: nat): real {
    if iSide % 2 == 0 then width else height
  }

  /** The area of a side face that runs `span` along the side and `depth` deep. */
  function FaceArea(span: real, depth: real): real {
    span * depth
  }

  /** A quad along side iSide whose first edge is p1 - p0 = c * Along(iSide)
      and whose third corner is p1 moved by h along z has the normal
      k = -(h * c) times Outward(iSide), which picks the y axis on the top and bottom
      sides and the x axis on the left and right ones. */
  lemma VerticalQuadNormal(p0: Vec3, p1: Vec3, h: real, c: real, k: real, iSide: nat)
    requires iSide < NumFrameSides && p0.z == p1.z && Sub(p1, p0) == Scale(c, Along(iSide))
    requires c > 0.0 && h != 0.0 && k == -(h * c)
    ensures var n := Cross(Sub(p1, p0), Sub(Add(p1, Vec3(0.0, 0.0, h)), p0));
            && n == Scale(k, Outward(iSide))
            && MaxAbsComponentIdx(n) == (if iSide % 2 == 0 then 1 else 0)
  {
  }

  /** Going round the frame, neighbouring outer front points are the outer
      edge apart. */
  lemma OuterSpan(width: real, height: real, thickness: real, depth: real, iSide: nat)
    requires iSide < NumFrameSides
    ensures var ns := (iSide + 1) % 4;
            Sub(ProfilePoint(width, height, thickness, depth, ns, 1), ProfilePoint(width, height, thickness, depth, iSide, 1))
            == Scale(OpeningSpan(width, height, iSide) + 2.0 * thickness, Along(iSide))
  {
  }

  /** Neighbouring inner back points are the opening's edge apart. */
  lemma InnerSpan(width: real, height: real, thickness: real, depth: real, iSide: nat)
    requires iSide < NumFrameSides
    ensures var ns := (iSide + 1) % 4;
            Sub(ProfilePoint(width, height, thickness, depth, ns, 3), ProfilePoint(width, height, thickness, depth, iSide, 3))
            == Scale(OpeningSpan(width, height, iSide), Along(iSide))
  {
  }

  /** The first edge of the outer face of side iSide, running the outer
      edge's length along the side in the front plane. */
  lemma OuterEdge(width: real, height: real, thickness: real, depth: real, iSide: nat) returns (o0: Vec3, o1: Vec3)
    requires iSide < NumFrameSides
    ensures o0.z == o1.z && Sub(o1, o0) == Scale(OpeningSpan(width, height, iSide) + 2.0 * thickness, Along(iSide))
    ensures QuadNormal(Profile(width, height, thickness, depth), iSide, 1)
            == Cross(Sub(o1, o0), Sub(Add(o1, Vec3(0.0, 0.0, -depth)), o0))
  {
    var ns := (iSide + 1) % 4;
    assert Corners(iSide, 1, 0) == 4 * iSide + 1 && Corners(iSide, 1, 1) == 4 * ns + 1 && Corners(iSide, 1, 2) == 4 * ns + 2;
    ProfileCorner(width, height, thickness, depth, iSide);
    ProfileCorner(width, height, thickness, depth, ns);
    OuterSpan(width, height, thickness, depth, iSide);
    o0 := ProfilePoint(width, height, thickness, depth, iSide, 1);
    o1 := ProfilePoint(width, height, thickness, depth, ns, 1);
  }

  /** The first edge of the inner face of side iSide, running the opening's
      length along the side in the back plane. */
  lemma InnerEdge(width: real, height: real, thickness: real, depth: real, iSide: nat) returns (i0: Vec3, i1: Vec3)
    requires iSide < NumFrameSides
    ensures i0.z == i1.z && Sub(i1, i0) == Scale(OpeningSpan(width, height, iSide), Along(iSide))
    ensures QuadNormal(Profile(width, height, thickness, depth), iSide, 3)
            == Cross(Sub(i1, i0), Sub(Add(i1, Vec3(0.0, 0.0, depth)), i0))
  {
    var ns := (iSide + 1) % 4;
    assert Corners(iSide, 3, 0) == 4 * iSide + 3 && Corners(iSide, 3, 1) == 4 * ns + 3 && Corners(iSide, 3, 2) == 4 * ns;
    ProfileCorner(width, height, thickness, depth, iSide);
    ProfileCorner(width, height, thickness, depth, ns);
    InnerSpan(width, height, thickness, depth, iSide);
    i0 := ProfilePoint(width, height, thickness, depth, iSide, 3);
    i1 := ProfilePoint(width, height, thickness, depth, ns, 3);
  }

  /** The outer face (profile face 1) of every side looks away from the
      opening, its normal's length the outer edge times the depth, so the
      top and bottom sides take their UVs from (x, z) and the left and right
      sides from (z, y). */
  lemma OuterFace(width: real, height: real, thickness: real, depth: real, iSide: nat)
    requires width > 0.0 && height > 0.0 && thickness > 0.0 && depth > 0.0 && iSide < NumFrameSides
    ensures var outer := QuadNormal(Profile(width, height, thickness, depth), iSide, 1);
            var edge := OpeningSpan(width, height, iSide) + 2.0 * thickness;
            && outer == Scale(FaceArea(edge, depth), Outward(iSide))
            && MaxAbsComponentIdx(outer) == (if iSide % 2 == 0 then 1 else 0)
  {
    var o0, o1 := OuterEdge(width, height, thickness, depth, iSide);
    var edge := OpeningSpan(width, height, iSide) + 2.0 * thickness;
    VerticalQuadNormal(o0, o1, -depth, edge, FaceArea(edge, depth), iSide);
  }

  /** The inner face (profile face 3) of every side looks into the opening,
      its normal's length the inner edge times the depth. */
  lemma InnerFace(width: real, height: real, thickness: real, depth: real, iSide: nat)
    requires width > 0.0 && height > 0.0 && thickness > 0.0 && depth > 0.0 && iSide < NumFrameSides
    ensures var inner := QuadNormal(Profile(width, height, thickness, depth), iSide, 3);
            var edge := OpeningSpan(width, height, iSide);
            && inner == Scale(-FaceArea(edge, depth), Outward(iSide))
            && MaxAbsComponentIdx(inner) == (if iSide % 2 == 0 then 1 else 0)
  {
    var i0, i1 := InnerEdge(width, height, thickness, depth, iSide);
    var edge := OpeningSpan(width, height, iSide);
    VerticalQuadNormal(i0, i1, depth, edge, -FaceArea(edge, depth), iSide);
  }

  /** The body of the sweep loop: push the four corners of quad (iSide, iFace)
      with their shared normal and the quad's two triangles. */
  method PushQuad(profileVertices: seq<Vec3>, iSide: nat, iFace: nat, currentVertexOffset: nat,
                  meshVertices: seq<Vec3>, normals: seq<Vec3>, indices: seq<nat>)
    returns (meshVertices': seq<Vec3>, normals': seq<Vec3>, indices': seq<nat>)
    requires |profileVertices| == NumProfileVertices && iSide < NumFrameSides && iFace < NumProfileFaces
    ensures meshVertices' == meshVertices + QuadVertices(profileVertices, iSide, iFace)
    ensures normals' == normals + QuadNormals(profileVertices, iSide, iFace)
    ensures indices' == indices + QuadIndices(currentVertexOffset)
  {
    var iNextSide := (iSide + 1) % 4;
    var iNextFace := (iFace + 1) % 4;
    var idxP0 := iSide * 4 + iFace;
    var idxP1 := iNextSide * 4 + iFace;
    var idxP2 := iNextSide * 4 + iNextFace;
    var idxP3 := iSide * 4 + iNextFace;
    var p0, p1, p2, p3 := profileVertices[idxP0], profileVertices[idxP1], profileVertices[idxP2], profileVertices[idxP3];

    // p0, p1, p2, p3 in this order fixes both the winding and the normal's sign
    meshVertices' := meshVertices + [p0, p1, p2, p3];

    // one shared normal for the four vertices (flat shading)
    var normal := Cross(Sub(p1, p0), Sub(p2, p0));
    normals' := normals + [normal, normal, normal, normal];

    indices' := indices + [currentVertexOffset + 0, currentVertexOffset + 1, currentVertexOffset + 2];
    indices' := indices' + [currentVertexOffset + 0, currentVertexOffset + 2, currentVertexOffset + 3];
  }

  /** The nested sweep loop of createFrameGeometry. */
  method SweepProfile(profileVertices: seq<Vec3>)
    returns (finalMeshVertices: seq<Vec3>, finalNormals: seq<Vec3>, finalIndices: seq<nat>)
    requires |profileVertices| == NumProfileVertices
    ensures finalMeshVertices == MeshVertices(profileVertices)
    ensures finalNormals == MeshNormals(profileVertices)
    ensures finalIndices == MeshIndices()
  {
    // numProfileFaces = profileVertices.length / numFrameSides = 16 / 4
    var numProfileFaces := NumProfileFaces;
    finalMeshVertices, finalNormals, finalIndices := [], [], [];
    var currentVertexOffset: nat := 0;
    var iSide := 0;
    while iSide < NumFrameSides
      invariant 0 <= iSide <= NumFrameSides
      invariant currentVertexOffset == 4 * QuadsBefore(iSide, 0)
      invariant finalMeshVertices == MeshVertices(profileVertices)[..currentVertexOffset]
      invariant finalNormals == MeshNormals(profileVertices)[..currentVertexOffset]
      invariant finalIndices == MeshIndices()[..6 * QuadsBefore(iSide, 0)]
    {
      var iFace := 0;
      while iFace < numProfileFaces
        invariant 0 <= iFace <= numProfileFaces
        invariant currentVertexOffset == 4 * QuadsBefore(iSide, iFace)
        invariant finalMeshVertices == MeshVertices(profileVertices)[..currentVertexOffset]
        invariant finalNormals == MeshNormals(profileVertices)[..currentVertexOffset]
        invariant finalIndices == MeshIndices()[..6 * QuadsBefore(iSide, iFace)]
      {
        MeshPrefixStep(profileVertices, iSide, iFace);
        IndicesPrefixStep(QuadsBefore(iSide, iFace));
        finalMeshVertices, finalNormals, finalIndices :=
          PushQuad(profileVertices, iSide, iFace, currentVertexOffset, finalMeshVertices, finalNormals, finalIndices);
        currentVertexOffset := currentVertexOffset + 4;
        iFace := iFace + 1;
      }
      iSide := iSide + 1;
    }
    assert finalMeshVertices == MeshVertices(profileVertices);
    assert finalNormals == MeshNormals(profileVertices);
    assert finalIndices == MeshIndices();
  }

  // ---------------------------------------------------------------------
  // Flat attribute arrays and the finished geometry
  // ---------------------------------------------------------------------

  /** [x, y, z, x, y, z, ...]: the flat form of a vertex list. */
  function Flatten(vs: seq<Vec3>): (flat: seq<real>)
    ensures |flat| == 3 * |vs|
  {
    seq(3 * |vs|, j requires 0 <= j < 3 * |vs| => Component(vs[j / 3], j % 3))
  }

  /** Regroups a flat array into vectors, three numbers at a time. */
  function Unflatten(flat: seq<real>): (vs: seq<Vec3>)
    requires |flat| % 3 == 0
    ensures |vs| == |flat| / 3
  {
    seq(|flat| / 3, i requires 0 <= i < |flat| / 3 => Vec3(flat[3 * i], flat[3 * i + 1], flat[3 * i + 2]))
  }

  /** Entries 3i, 3i+1, 3i+2 of the flat array are x, y and z of vertex i. */
  lemma FlattenAt(vs: seq<Vec3>, i: nat)
    requires i < |vs|
    ensures Flatten(vs)[3 * i] == vs[i].x
    ensures Flatten(vs)[3 * i + 1] == vs[i].y
    ensures Flatten(vs)[3 * i + 2] == vs[i].z
  {
    assert (3 * i) / 3 == i && (3 * i + 1) / 3 == i && (3 * i + 2) / 3 == i;
  }

  /** Flattening loses nothing: the vertex list can be read back. */
  lemma FlattenRoundTrip(vs: seq<Vec3>)
    ensures Unflatten(Flatten(vs)) == vs
  {
    forall i | 0 <= i < |vs|
      ensures Unflatten(Flatten(vs))[i] == vs[i]
    {
      FlattenAt(vs, i);
    }
  }

  /** The loops that copy finalMeshVerticesData / finalNormalsData into flat arrays. */
  method FlattenVectors(vs: seq<Vec3>) returns (flat: seq<real>)
    ensures flat == Flatten(vs)
  {
    flat := [];
    var i := 0;
    while i < |vs|
      invariant 0 <= i <= |vs|
      invariant flat == Flatten(vs)[..3 * i]
    {
      FlattenAt(vs, i);
      assert Flatten(vs)[..3 * i + 3] == Flatten(vs)[..3 * i] + [vs[i].x, vs[i].y, vs[i].z];
      flat := flat + [vs[i].x, vs[i].y, vs[i].z];
      i := i + 1;
    }
  }

  /** The attributes of the BufferGeometry createFrameGeometry returns. */
  datatype FrameMesh = FrameMesh(positions: seq<real>, normals: seq<real>, uvs: seq<real>, indices: seq<nat>)

  /** The geometry createFrameGeometry builds for a frame of the given size. */
  function FrameGeometryOf(width: real, height: real, thickness: real, depth: real): FrameMesh {
    var profile := Profile(width, height, thickness, depth);
    var mesh, normals := MeshVertices(profile), MeshNormals(profile);
    FrameMesh(Flatten(mesh), Flatten(normals), UVs(profile, mesh, normals, NumVerticesPerSide), MeshIndices())
  }

  method CreateFrameGeometry(width: real, height: real, thickness: real, depth: real) returns (geometry: FrameMesh)
    ensures geometry == FrameGeometryOf(width, height, thickness, depth)
  {
    var profileVertices := BuildProfile(width, height, thickness, depth);
    var finalMeshVerticesData, finalNormalsData, finalIndices := SweepProfile(profileVertices);
    var numVerticesPerSide := 4 * NumProfileFaces;
    var uvs := ComputeUVs(profileVertices, finalMeshVerticesData, finalNormalsData, numVerticesPerSide);
    var meshVerticesFlatArray := FlattenVectors(finalMeshVerticesData);
    var meshNormalsFlatArray := FlattenVectors(finalNormalsData);
    geometry := FrameMesh(meshVerticesFlatArray, meshNormalsFlatArray, uvs, finalIndices);
  }

  /** The finished frame: 64 positions and normals (3 numbers each), 64 UV
      pairs, 96 indices forming 32 triangles; every index names one of the 64
      vertices, and every texture coordinate lies in [0, 1]. */
  lemma FrameGeometryWellFormed(width: real, height: real, thickness: real, depth: real)
    ensures var g := FrameGeometryOf(width, height, thickness, depth);
            && |g.positions| == 3 * 4 * NumQuads && |g.normals| == 3 * 4 * NumQuads
            && |g.uvs| == 2 * 4 * NumQuads && |g.indices| == 6 * NumQuads
            && (forall m :: 0 <= m < |g.indices| ==> 3 * g.indices[m] < |g.positions|)
            && (forall j :: 0 <= j < |g.uvs| ==> 0.0 <= g.uvs[j] <= 1.0)
  {
    var profile := Profile(width, height, thickness, depth);
    var mesh, normals := MeshVertices(profile), MeshNormals(profile);
    MeshIndicesInRange(profile);
    forall j | 0 <= j < 2 * |mesh|
      ensures 0.0 <= UVs(profile, mesh, normals, NumVerticesPerSide)[j] <= 1.0
    {
      var i := j / 2;
      var q := i / 4;
      var iSide, iFace := q / 4, q % 4;
      assert i == 4 * QuadsBefore(iSide, iFace) + i % 4;
      MeshQuadAt(profile, iSide, iFace, i % 4);
      assert InBox(mesh[i], BoundingBox(profile));
      UVInUnitSquare(profile, mesh, normals, NumVerticesPerSide, j);
    }
  }

  /** Vertex 4q + k of the finished frame sits at corner k of quad q = 4 iSide + iFace. */
  lemma FramePositionAt(width: real, height: real, thickness: real, depth: real, iSide: nat, iFace: nat, k: nat)
    requires iSide < NumFrameSides && iFace < NumProfileFaces && k < 4
    ensures var g := FrameGeometryOf(width, height, thickness, depth);
            var p := Profile(width, height, thickness, depth)[Corners(iSide, iFace, k)];
            var j := 4 * QuadsBefore(iSide, iFace) + k;
            |g.positions| == 3 * 4 * NumQuads
            && g.positions[3 * j] == p.x && g.positions[3 * j + 1] == p.y && g.positions[3 * j + 2] == p.z
  {
    var profile := Profile(width, height, thickness, depth);
    MeshQuadAt(profile, iSide, iFace, k);
    FlattenAt(MeshVertices(profile), 4 * QuadsBefore(iSide, iFace) + k);
  }
}
