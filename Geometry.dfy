/** The advanced terrain geometry: noise-layered heights and tiled UVs written in place into the
    plane's buffers, adaptive tessellation that rebuilds position, index and UV lists triangle by
    triangle, the level-of-detail choice, and the per-frame snow line and visibility. */
module Geometry {
  import opened Common

  function Abs(x: real): (r: real)
    ensures r >= 0.0 && (r == x || r == -x)
  {
    if x < 0.0 then -x else x
  }

  /** The height of the standard terrain at (x, z): a base layer, three detail layers and a ridge
      layer, each a noise sample scaled by the height scale. */
  function Height(noise: Noise3, x: real, z: real, heightScale: real): real {
    var base := noise(x * 0.01, z * 0.01, 0.0) * heightScale;
    var detail1 := noise(x * 0.05, z * 0.05, 100.0) * heightScale * 0.3;
    var detail2 := noise(x * 0.1, z * 0.1, 200.0) * heightScale * 0.1;
    var detail3 := noise(x * 0.2, z * 0.2, 300.0) * heightScale * 0.05;
    var ridge := Abs(noise(x * 0.02, z * 0.02, 400.0)) * heightScale * 0.5;
    base + detail1 + detail2 + detail3 + ridge
  }

  /** With noise in [-1,1] the layers sum to at most 1.95 times the height scale, and the ridge
      layer never pulls the terrain below -1.45 times it. */
  lemma HeightBounds(noise: Noise3, x: real, z: real, heightScale: real)
    requires NoiseBounded(noise) && heightScale >= 0.0
    ensures -1.45 * heightScale <= Height(noise, x, z, heightScale) <= 1.95 * heightScale
  {
    var a0 := noise(x * 0.01, z * 0.01, 0.0) * heightScale;
    var a1 := noise(x * 0.05, z * 0.05, 100.0) * heightScale;
    var a2 := noise(x * 0.1, z * 0.1, 200.0) * heightScale;
    var a3 := noise(x * 0.2, z * 0.2, 300.0) * heightScale;
    var a4 := Abs(noise(x * 0.02, z * 0.02, 400.0)) * heightScale;
    Swing(noise(x * 0.01, z * 0.01, 0.0), heightScale);
    Swing(noise(x * 0.05, z * 0.05, 100.0), heightScale);
    Swing(noise(x * 0.1, z * 0.1, 200.0), heightScale);
    Swing(noise(x * 0.2, z * 0.2, 300.0), heightScale);
    MulUnit(Abs(noise(x * 0.02, z * 0.02, 400.0)), heightScale);
    assert Height(noise, x, z, heightScale) == a0 + a1 * 0.3 + a2 * 0.1 + a3 * 0.05 + a4 * 0.5;
    LayerSum(a0, a1, a2, a3, a4, heightScale);
  }

  /** The weighted sum of four layers in [-H, H] and one in [0, H]. */
  lemma LayerSum(a0: real, a1: real, a2: real, a3: real, a4: real, h: real)
    requires -h <= a0 <= h && -h <= a1 <= h && -h <= a2 <= h && -h <= a3 <= h && 0.0 <= a4 <= h
    ensures -1.45 * h <= a0 + a1 * 0.3 + a2 * 0.1 + a3 * 0.05 + a4 * 0.5 <= 1.95 * h
  {
  }

  /** Dividing by a positive number keeps the comparisons with 0 and 1 of a numerator against 0
      and the divisor. */
  lemma Ratio(a: real, b: real)
    requires b > 0.0
    ensures a / b <= 1.0 <==> a <= b
    ensures a / b >= 1.0 <==> a >= b
    ensures a / b >= 0.0 <==> a >= 0.0
  {
    var q := a / b;
    assert q * b == a;
    SignOfProduct(q, b);
    assert a - b == (q - 1.0) * b;
    SignOfProduct(q - 1.0, b);
  }

  /** A product with a positive factor has the sign of the other factor. */
  lemma SignOfProduct(u: real, v: real)
    requires v > 0.0
    ensures u > 0.0 ==> u * v > 0.0
    ensures u < 0.0 ==> u * v < 0.0
  {
  }

  /** The elevation attribute as written: (h + H) / (2H), meant to normalise a height to [0,1]. */
  function ElevationAsWritten(height: real, heightScale: real): (e: real)
    requires heightScale > 0.0
    ensures -heightScale <= height <= heightScale ==> 0.0 <= e <= 1.0
  {
    var twice := heightScale * 2.0;
    Ratio(height + heightScale, twice);
    (height + heightScale) / twice
  }

  /** The heights reach past the height scale: with every noise sample at 0.8 the terrain stands
      at 15.6 for a height scale of 10, and the elevation written for it is 1.28. */
  lemma ElevationOvershoots()
    ensures Height((a, b, c) => 0.8, 0.0, 0.0, 10.0) == 15.6
    ensures ElevationAsWritten(Height((a, b, c) => 0.8, 0.0, 0.0, 10.0), 10.0) == 1.28
  {
    var noise: Noise3 := (a, b, c) => 0.8;
    assert Abs(noise(0.0, 0.0, 400.0)) == 0.8;
  }

  /** The elevation attribute kept in [0,1]: the normalised height, clamped. */
  function Elevation(height: real, heightScale: real): (e: real)
    requires heightScale > 0.0
    ensures 0.0 <= e <= 1.0
    ensures -heightScale <= height <= heightScale ==> e == ElevationAsWritten(height, heightScale)
    ensures height >= heightScale ==> e == 1.0
    ensures height <= -heightScale ==> e == 0.0
  {
    Ratio(height + heightScale, heightScale * 2.0);
    Max(0.0, Min(1.0, ElevationAsWritten(height, heightScale)))
  }

  /** The UV loop of generateStandardTerrain: each coordinate pair is tiled four times. */
  method TileUvs(uvs: array<real>)
    requires uvs.Length % 2 == 0
    modifies uvs
    ensures forall i :: 0 <= i < uvs.Length ==> uvs[i] == old(uvs[i]) * 4.0
  {
    var i := 0;
    while i < uvs.Length
      invariant 0 <= i <= uvs.Length && i % 2 == 0
      invariant forall j :: 0 <= j < i ==> uvs[j] == old(uvs[j]) * 4.0
      invariant forall j :: i <= j < uvs.Length ==> uvs[j] == old(uvs[j])
    {
      var u, v := uvs[i], uvs[i + 1];
      uvs[i] := u * 4.0;
      uvs[i + 1] := v * 4.0;
      i := i + 2;
    }
  }

  /** The height loop: every vertex's y becomes the height field at its (x, z); x and z stay.
      The terrain passes the layered Height. */
  method LiftHeights(positions: array<real>, height: (real, real) -> real)
    requires positions.Length % 3 == 0
    modifies positions
    ensures forall k :: 0 <= k < positions.Length / 3 ==>
      && positions[3 * k] == old(positions[3 * k])
      && positions[3 * k + 2] == old(positions[3 * k + 2])
      && positions[3 * k + 1] == height(old(positions[3 * k]), old(positions[3 * k + 2]))
  {
    for k := 0 to positions.Length / 3
      invariant forall k' :: 0 <= k' < k ==>
        && positions[3 * k'] == old(positions[3 * k'])
        && positions[3 * k' + 2] == old(positions[3 * k' + 2])
        && positions[3 * k' + 1] == height(old(positions[3 * k']), old(positions[3 * k' + 2]))
      invariant forall j :: 3 * k <= j < positions.Length ==> positions[j] == old(positions[j])
    {
      LiftVertex(positions, 3 * k, height);
    }
  }

  /** The body of the height loop for the vertex whose x sits at float i. */
  method LiftVertex(positions: array<real>, i: nat, height: (real, real) -> real)
    requires i + 2 < positions.Length
    modifies positions
    ensures positions[i + 1] == height(old(positions[i]), old(positions[i + 2]))
    ensures forall j :: 0 <= j < positions.Length && j != i + 1 ==> positions[j] == old(positions[j])
  {
    var x, z := positions[i], positions[i + 2];
    positions[i + 1] := height(x, z);
  }

  /** The elevation loop: a fresh array with each vertex's elevation. */
  method Elevations(positions: array<real>, heightScale: real) returns (elevations: array<real>)
    requires positions.Length % 3 == 0 && heightScale > 0.0
    ensures fresh(elevations) && elevations.Length == positions.Length / 3
    ensures forall k :: 0 <= k < elevations.Length ==> elevations[k] == Elevation(positions[3 * k + 1], heightScale)
  {
    elevations := new real[positions.Length / 3];
    var i := 0;
    ghost var k := 0;
    while i < positions.Length
      invariant 0 <= i <= positions.Length && i == 3 * k
      invariant forall k' :: 0 <= k' < k ==> elevations[k'] == Elevation(positions[3 * k' + 1], heightScale)
    {
      var vertexIndex := i / 3;
      assert vertexIndex == k;
      WriteElevation(elevations, vertexIndex, positions[i + 1], heightScale);
      i, k := i + 3, k + 1;
    }
  }

  /** The body of the elevation loop: slot k takes the elevation of height h. */
  method WriteElevation(elevations: array<real>, k: nat, h: real, heightScale: real)
    requires k < elevations.Length && heightScale > 0.0
    modifies elevations
    ensures elevations[k] == Elevation(h, heightScale)
    ensures forall j :: 0 <= j < elevations.Length && j != k ==> elevations[j] == old(elevations[j])
  {
    elevations[k] := Elevation(h, heightScale);
  }

  /** The first half of generateStandardTerrain, in place on the plane's buffers: UVs tiled,
      heights lifted, elevations computed. */
  method ShapeTerrain(positions: array<real>, uvs: array<real>, noise: Noise3, heightScale: real)
    returns (elevations: array<real>)
    requires positions.Length % 3 == 0 && uvs.Length % 2 == 0 && heightScale > 0.0
    requires positions != uvs
    modifies positions, uvs
    ensures forall i :: 0 <= i < uvs.Length ==> uvs[i] == old(uvs[i]) * 4.0
    ensures forall k :: 0 <= k < positions.Length / 3 ==>
      && positions[3 * k] == old(positions[3 * k])
      && positions[3 * k + 2] == old(positions[3 * k + 2])
      && positions[3 * k + 1] == Height(noise, old(positions[3 * k]), old(positions[3 * k + 2]), heightScale)
    ensures fresh(elevations) && elevations.Length == positions.Length / 3
    ensures forall k :: 0 <= k < elevations.Length ==> elevations[k] == Elevation(positions[3 * k + 1], heightScale)
  {
    TileUvs(uvs);
    LiftHeights(positions, (x, z) => Height(noise, x, z, heightScale));
    elevations := Elevations(positions, heightScale);
  }

  /** The position list of a geometry read as vertices: vertex k is floats 3k, 3k+1, 3k+2. */
  function VertexAt(positions: seq<real>, k: nat): Vec3
    requires 3 * k + 2 < |positions|
  {
    Vec3(positions[3 * k], positions[3 * k + 1], positions[3 * k + 2])
  }

  /** An indexed triangle list: whole triangles whose indices name vertices of the position list. */
  predicate IndexedMesh(positions: seq<real>, indices: seq<nat>) {
    |indices| % 3 == 0 && forall i :: 0 <= i < |indices| ==> 3 * indices[i] + 2 < |positions|
  }

  datatype Triangle = Triangle(a: Vec3, b: Vec3, c: Vec3)

  function TriangleAt(positions: seq<real>, indices: seq<nat>, t: nat): Triangle
    requires IndexedMesh(positions, indices) && 3 * t + 2 < |indices|
  {
    Triangle(VertexAt(positions, indices[3 * t]), VertexAt(positions, indices[3 * t + 1]),
             VertexAt(positions, indices[3 * t + 2]))
  }

  /** calculateCurvature: the distance of the centroid's y from the mean of the corner heights,
      over 10. The centroid's y is that mean, so the curvature is always zero. */
  function Curvature(tri: Triangle): (c: real)
    ensures c == 0.0
  {
    var center := Vec3((tri.a.x + tri.b.x + tri.c.x) / 3.0, (tri.a.y + tri.b.y + tri.c.y) / 3.0,
                       (tri.a.z + tri.b.z + tri.c.z) / 3.0);
    Abs(center.y - (tri.a.y + tri.b.y + tri.c.y) / 3.0) / 10.0
  }

  /** Whether a triangle of the given area asks to be subdivided. Since the curvature test never
      fires, this is the area test alone. */
  function WantsSplit(area: real, tri: Triangle): (b: bool)
    ensures b <==> area > 2.0
  {
    area > 2.0 || Curvature(tri) > 0.5
  }

  /** The midpoint of an edge, lifted by a noise sample (seeded per edge) scaled by a tenth of the
      height scale. */
  function Midpoint(p: Vec3, q: Vec3, seed: real, noise: Noise3, heightScale: real): (m: Vec3)
    ensures m.x == (p.x + q.x) / 2.0 && m.z == (p.z + q.z) / 2.0
  {
    var mx, mz := (p.x + q.x) / 2.0, (p.z + q.z) / 2.0;
    Vec3(mx, (p.y + q.y) / 2.0 + noise(mx * 0.1, mz * 0.1, seed) * heightScale * 0.1, mz)
  }

  /** Only the height of a midpoint moves off the edge, and by at most a tenth of the height scale. */
  lemma MidpointLift(p: Vec3, q: Vec3, seed: real, noise: Noise3, heightScale: real)
    requires NoiseBounded(noise) && heightScale >= 0.0
    ensures var m := Midpoint(p, q, seed, noise, heightScale);
      -0.1 * heightScale <= m.y - (p.y + q.y) / 2.0 <= 0.1 * heightScale
  {
    var mx, mz := (p.x + q.x) / 2.0, (p.z + q.z) / 2.0;
    Swing(noise(mx * 0.1, mz * 0.1, seed), heightScale);
  }

  /** subdivideTriangle's vertices: the four triangles (v1, m1, m3), (m1, v2, m2), (m3, m2, v3)
      and (m1, m2, m3), in that order. */
  function Split(tri: Triangle, noise: Noise3, heightScale: real): (vs: seq<Vec3>)
    ensures |vs| == 12
    ensures vs[0] == tri.a && vs[4] == tri.b && vs[8] == tri.c
    ensures vs[1] == vs[3] == vs[9] && vs[5] == vs[7] == vs[10] && vs[2] == vs[6] == vs[11]
  {
    var m1 := Midpoint(tri.a, tri.b, 500.0, noise, heightScale);
    var m2 := Midpoint(tri.b, tri.c, 600.0, noise, heightScale);
    var m3 := Midpoint(tri.c, tri.a, 700.0, noise, heightScale);
    [tri.a, m1, m3, m1, tri.b, m2, m3, m2, tri.c, m1, m2, m3]
  }

  /** The vertices one input triangle contributes: its split, or its own three corners. */
  function Emit(tri: Triangle, split: bool, noise: Noise3, heightScale: real): (vs: seq<Vec3>)
    ensures |vs| == if split then 12 else 3
  {
    if split then Split(tri, noise, heightScale) else [tri.a, tri.b, tri.c]
  }

  /** The cap on subdivision: triangles are split only while fewer than this many position floats
      have been written. */
  const PositionCap: nat := 50000

  /** The vertices written for the first t triangles; area gives each triangle's area. */
  function Emitted(positions: seq<real>, indices: seq<nat>, t: nat, area: Triangle -> real, noise: Noise3,
                   heightScale: real): seq<Vec3>
    requires IndexedMesh(positions, indices) && 3 * t <= |indices|
  {
    if t == 0 then []
    else
      var prev := Emitted(positions, indices, t - 1, area, noise, heightScale);
      var tri := TriangleAt(positions, indices, t - 1);
      prev + Emit(tri, WantsSplit(area(tri), tri) && 3 * |prev| < PositionCap, noise, heightScale)
  }

  /** Each triangle writes three to twelve vertices, and the cap holds the output to fewer than
      50036 + 9t position floats however many triangles are large. */
  lemma {:induction false} EmittedBounds(positions: seq<real>, indices: seq<nat>, t: nat, area: Triangle -> real,
                                         noise: Noise3, heightScale: real)
    requires IndexedMesh(positions, indices) && 3 * t <= |indices|
    ensures var n := |Emitted(positions, indices, t, area, noise, heightScale)|;
      3 * t <= n <= 12 * t && 3 * n < PositionCap + 36 + 9 * t
  {
    if t > 0 {
      EmittedBounds(positions, indices, t - 1, area, noise, heightScale);
      EmittedStep(positions, indices, t - 1, area, noise, heightScale);
    }
  }

  /** Once the cap is reached, every later triangle is copied with its three corners. */
  lemma AfterCap(positions: seq<real>, indices: seq<nat>, t: nat, area: Triangle -> real, noise: Noise3,
                 heightScale: real)
    requires IndexedMesh(positions, indices) && 3 * (t + 1) <= |indices|
    requires 3 * |Emitted(positions, indices, t, area, noise, heightScale)| >= PositionCap
    ensures var tri := TriangleAt(positions, indices, t);
      Emitted(positions, indices, t + 1, area, noise, heightScale) ==
      Emitted(positions, indices, t, area, noise, heightScale) + [tri.a, tri.b, tri.c]
  {
  }

  /** Triangle t adds its block to what the earlier triangles wrote. */
  lemma EmittedStep(positions: seq<real>, indices: seq<nat>, t: nat, area: Triangle -> real, noise: Noise3,
                    heightScale: real)
    requires IndexedMesh(positions, indices) && 3 * (t + 1) <= |indices|
    ensures var prev := Emitted(positions, indices, t, area, noise, heightScale);
      var tri := TriangleAt(positions, indices, t);
      Emitted(positions, indices, t + 1, area, noise, heightScale) ==
      prev + Emit(tri, WantsSplit(area(tri), tri) && 3 * |prev| < PositionCap, noise, heightScale)
  {
  }

  /** The UV of a vertex: its (x, z) mapped from the terrain square to [0,1]. */
  function UvOf(v: Vec3, size: real): (real, real)
    requires size != 0.0
  {
    ((v.x + size / 2.0) / size, (v.z + size / 2.0) / size)
  }

  /** A vertex inside the terrain square gets a UV inside the unit square. */
  lemma UvInUnit(v: Vec3, size: real)
    requires size > 0.0 && -size / 2.0 <= v.x <= size / 2.0 && -size / 2.0 <= v.z <= size / 2.0
    ensures 0.0 <= UvOf(v, size).0 <= 1.0 && 0.0 <= UvOf(v, size).1 <= 1.0
  {
    Ratio(v.x + size / 2.0, size);
    Ratio(v.z + size / 2.0, size);
  }

  /** A flat position list holding the vertices vs: vertex k is floats 3k, 3k+1, 3k+2. */
  predicate Lays(positions: seq<real>, vs: seq<Vec3>) {
    |positions| == 3 * |vs| &&
    forall k :: 0 <= k < |vs| ==>
      positions[3 * k] == vs[k].x && positions[3 * k + 1] == vs[k].y && positions[3 * k + 2] == vs[k].z
  }

  /** A flat UV list holding the UVs of the vertices vs: vertex k's are floats 2k and 2k+1. */
  predicate Maps(uvs: seq<real>, vs: seq<Vec3>, size: real)
    requires size != 0.0
  {
    |uvs| == 2 * |vs| &&
    forall k :: 0 <= k < |vs| ==> uvs[2 * k] == UvOf(vs[k], size).0 && uvs[2 * k + 1] == UvOf(vs[k], size).1
  }

  lemma LaysPush(positions: seq<real>, vs: seq<Vec3>, v: Vec3)
    requires Lays(positions, vs)
    ensures Lays(positions + [v.x, v.y, v.z], vs + [v])
  {
    var ps, ws := positions + [v.x, v.y, v.z], vs + [v];
    forall k | 0 <= k < |ws|
      ensures ps[3 * k] == ws[k].x && ps[3 * k + 1] == ws[k].y && ps[3 * k + 2] == ws[k].z
    {
      if k < |vs| {
        assert ws[k] == vs[k];
      }
    }
  }

  lemma MapsPush(uvs: seq<real>, vs: seq<Vec3>, v: Vec3, size: real)
    requires size != 0.0 && Maps(uvs, vs, size)
    ensures Maps(uvs + [UvOf(v, size).0, UvOf(v, size).1], vs + [v], size)
  {
    var us, ws := uvs + [UvOf(v, size).0, UvOf(v, size).1], vs + [v];
    forall k | 0 <= k < |ws|
      ensures us[2 * k] == UvOf(ws[k], size).0 && us[2 * k + 1] == UvOf(ws[k], size).1
    {
      if k < |vs| {
        assert ws[k] == vs[k];
      }
    }
  }

  /** The indices lo, lo+1, ..., lo+n-1. */
  function Run(lo: nat, n: nat): (r: seq<nat>)
    ensures |r| == n && forall i :: 0 <= i < n ==> r[i] == lo + i
  {
    seq(n, i requires 0 <= i => lo + i)
  }

  /** The three output lists hold what the first t triangles wrote: their vertices as position
      floats and UV floats, indexed 0, 1, 2, ... in order. */
  ghost predicate Written(positions: seq<real>, indices: seq<nat>, t: nat, area: Triangle -> real, noise: Noise3,
                          heightScale: real, size: real, newPositions: seq<real>, newIndices: seq<nat>,
                          newUvs: seq<real>)
    requires IndexedMesh(positions, indices) && 3 * t <= |indices| && size != 0.0
  {
    var vs := Emitted(positions, indices, t, area, noise, heightScale);
    Lays(newPositions, vs) && Maps(newUvs, vs, size) && newIndices == Run(0, |vs|)
  }

  /** generateTessellatedTerrain's triangle loop. Each triangle of the shaped plane is either
      subdivided into four or copied; its vertices are appended with their UVs, and it is indexed
      by the next run of consecutive indices. */
  method Tessellate(positions: seq<real>, indices: seq<nat>, size: real, heightScale: real, noise: Noise3,
                    area: Triangle -> real)
    returns (newPositions: seq<real>, newIndices: seq<nat>, newUvs: seq<real>)
    requires IndexedMesh(positions, indices) && size != 0.0
    ensures Written(positions, indices, |indices| / 3, area, noise, heightScale, size, newPositions, newIndices, newUvs)
    ensures 3 * |newIndices| == |newPositions| && 3 * |newUvs| == 2 * |newPositions|
    ensures forall i :: 0 <= i < |newIndices| ==> newIndices[i] == i
  {
    newPositions, newIndices, newUvs := [], [], [];
    var count := |indices| / 3;
    for t := 0 to count
      invariant Written(positions, indices, t, area, noise, heightScale, size, newPositions, newIndices, newUvs)
    {
      newPositions, newIndices, newUvs :=
        TriangleStep(positions, indices, t, size, heightScale, noise, area, newPositions, newIndices, newUvs);
    }
    WrittenShape(positions, indices, count, area, noise, heightScale, size, newPositions, newIndices, newUvs);
  }

  /** Written output lists come in step: three position floats and two UV floats per index, and
      the indices count up from 0. */
  lemma WrittenShape(positions: seq<real>, indices: seq<nat>, t: nat, area: Triangle -> real, noise: Noise3,
                     heightScale: real, size: real, newPositions: seq<real>, newIndices: seq<nat>, newUvs: seq<real>)
    requires IndexedMesh(positions, indices) && 3 * t <= |indices| && size != 0.0
    requires Written(positions, indices, t, area, noise, heightScale, size, newPositions, newIndices, newUvs)
    ensures 3 * |newIndices| == |newPositions| && 3 * |newUvs| == 2 * |newPositions|
    ensures forall i :: 0 <= i < |newIndices| ==> newIndices[i] == i
  {
    var vs := Emitted(positions, indices, t, area, noise, heightScale);
    assert Lays(newPositions, vs) && Maps(newUvs, vs, size) && newIndices == Run(0, |vs|);
  }

  /** The loop body for triangle t: read its corners, decide whether to split it, and write it. */
  method TriangleStep(positions: seq<real>, indices: seq<nat>, t: nat, size: real, heightScale: real, noise: Noise3,
                      area: Triangle -> real, newPositions: seq<real>, newIndices: seq<nat>, newUvs: seq<real>)
    returns (positions': seq<real>, indices': seq<nat>, uvs': seq<real>)
    requires IndexedMesh(positions, indices) && size != 0.0 && 3 * (t + 1) <= |indices|
    requires Written(positions, indices, t, area, noise, heightScale, size, newPositions, newIndices, newUvs)
    ensures Written(positions, indices, t + 1, area, noise, heightScale, size, positions', indices', uvs')
  {
    ghost var vs := Emitted(positions, indices, t, area, noise, heightScale);
    var tri := TriangleAt(positions, indices, t);
    var split := WantsSplit(area(tri), tri) && |newPositions| < PositionCap;
    EmittedStep(positions, indices, t, area, noise, heightScale);
    positions', indices', uvs' := AddTriangle(tri, split, vs, newPositions, newIndices, newUvs, size, heightScale, noise);
  }

  /** One triangle's output: subdivideTriangle's four triangles or the triangle itself. Each of
      its vertices is pushed with its UV and the next index. */
  method AddTriangle(tri: Triangle, split: bool, ghost vs: seq<Vec3>, positions: seq<real>, indices: seq<nat>,
                     uvs: seq<real>, size: real, heightScale: real, noise: Noise3)
    returns (positions': seq<real>, indices': seq<nat>, uvs': seq<real>)
    requires size != 0.0 && Lays(positions, vs) && Maps(uvs, vs, size) && indices == Run(0, |vs|)
    ensures var all := vs + Emit(tri, split, noise, heightScale);
      Lays(positions', all) && Maps(uvs', all, size) && indices' == Run(0, |all|)
  {
    var block := Emit(tri, split, noise, heightScale);
    var baseIndex := |positions| / 3;
    positions', indices', uvs' := positions, indices, uvs;
    for k := 0 to |block|
      invariant Lays(positions', vs + block[..k]) && Maps(uvs', vs + block[..k], size)
      invariant indices' == Run(0, |vs| + k)
    {
      var v := block[k];
      assert vs + block[..k + 1] == (vs + block[..k]) + [v];
      LaysPush(positions', vs + block[..k], v);
      MapsPush(uvs', vs + block[..k], v, size);
      positions' := positions' + [v.x, v.y, v.z];
      uvs' := uvs' + [UvOf(v, size).0, UvOf(v, size).1];
      indices' := indices' + [baseIndex + k];
    }
    assert block[..|block|] == block;
  }

  /** The geometry the LOD system picks: the tessellated high-detail one when LOD is off, else by
      camera distance (under 30 high, under 60 medium, otherwise low). */
  datatype Detail = High | Medium | Low

  function ChooseDetail(enableLOD: bool, distance: real): (d: Detail)
    ensures !enableLOD ==> d == High
    ensures enableLOD ==> (d == High <==> distance < 30.0)
    ensures enableLOD ==> (d == Low <==> distance >= 60.0)
  {
    if !enableLOD then High
    else if distance < 30.0 then High
    else if distance < 60.0 then Medium
    else Low
  }

  /** The distance is the fixed placeholder 50. */
  const CameraDistance: real := 50.0

  /** With the fixed distance, LOD always shows the medium geometry, never the tessellated one. */
  lemma LodIsMedium()
    ensures ChooseDetail(true, CameraDistance) == Medium
  {
  }

  /** The snow line uniform: 0.8 up to progress 1, then falling by 0.2 per scene. */
  function SnowLine(progress: real): (s: real)
    ensures s <= 0.8
    ensures s == 0.8 <==> progress <= 1.0
    ensures progress <= 4.0 ==> s >= 0.2
  {
    0.8 - Max(0.0, (progress - 1.0) * 0.2)
  }

  /** The terrain's scale: fading in over the first scene, full over the second, fading out over
      the third, zero from progress 3 on. */
  function Visibility(progress: real): (v: real)
    ensures 0.0 <= v <= 1.0
    ensures v > 0.0 <==> 0.0 < progress < 3.0
    ensures v == 1.0 <==> 1.0 <= progress <= 2.0
  {
    if 0.0 <= progress < 3.0 then
      if progress < 1.0 then progress
      else if progress < 2.0 then 1.0
      else 1.0 - (progress - 2.0)
    else 0.0
  }

  class TerrainMaterial {
    var time: real
    var snowLine: real
  }

  class TerrainMesh {
    var scale: real
  }

  /** The per-frame callback (mounted is false while the mesh ref is empty): the time and snow
      line uniforms, then the mesh's uniform scale. */
  method Frame(scroll: Option<real>, mounted: bool, time: real, material: TerrainMaterial, mesh: TerrainMesh)
    requires scroll.Some? ==> ValidOffset(scroll.value)
    modifies material, mesh
    ensures scroll.None? || !mounted ==> unchanged(material, mesh)
    ensures scroll.Some? && mounted ==>
      && material.time == time && material.snowLine == SnowLine(4.0 * scroll.value)
      && mesh.scale == Visibility(4.0 * scroll.value)
  {
    if scroll.None? || !mounted {
      return;
    }
    var progress := scroll.value * 4.0;
    material.time := time;
    material.snowLine := SnowLine(progress);
    mesh.scale := Visibility(progress);
  }
}
