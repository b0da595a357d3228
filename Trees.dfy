/** Procedural trees: instances classified by noise into pine, oak and birch and sized by their
    distance from the centre, crown meshes built as index buffers over rings of vertices, and a
    frame update that sways the trees and shrinks and fades them out of the valley. */
module Trees {
  import opened Common

  datatype TreeType = Pine | Oak | Birch

  /** A tree instance; rotation and swayPhase are in units of PI. */
  datatype Instance = Instance(id: nat, position: Vec3, kind: TreeType, height: real, trunkRadius: real,
                               crownRadius: real, rotation: real, swayPhase: real, swayAmplitude: real)

  /** Math.random calls per tree: x, z, rotation, sway phase, sway amplitude. */
  const InstanceDraws: nat := 5

  /** Pine where the noise is above 0.3, oak above -0.3, birch below. */
  function TypeOf(noise: real): (t: TreeType)
    ensures t == Pine <==> noise > 0.3
    ensures t == Oak <==> -0.3 < noise <= 0.3
    ensures t == Birch <==> noise <= -0.3
  {
    if noise > 0.3 then Pine else if noise > -0.3 then Oak else Birch
  }

  function BaseHeight(t: TreeType): (h: real)
    ensures 4.0 <= h <= 8.0
    ensures t == Pine ==> h == 8.0
    ensures t == Oak ==> h == 6.0
    ensures t == Birch ==> h == 4.0
  {
    match t
    case Pine => 8.0
    case Oak => 6.0
    case Birch => 4.0
  }

  /** The crown is slimmer on a pine: 0.15 of the height, else 0.25. */
  function CrownRatio(t: TreeType): (r: real)
    ensures t == Pine <==> r == 0.15
    ensures t != Pine <==> r == 0.25
  {
    if t == Pine then 0.15 else 0.25
  }

  /** max(0.3, 1 - d / (0.6 area)): trees far from the centre are smaller, but never below 0.3. */
  function DistanceFactor(distance: real, area: real): (f: real)
    requires area > 0.0
    ensures f >= 0.3
    ensures distance >= 0.0 ==> f <= 1.0
    ensures f > 0.3 ==> f == 1.0 - distance / (area * 0.6)
  {
    Max(0.3, 1.0 - distance / (area * 0.6))
  }

  /** 0.7 + 0.6 n for the second noise sample n. */
  function NoiseFactor(noise: real): (f: real)
    requires IsUnit(noise)
    ensures 0.1 <= f <= 1.3
  {
    0.7 + noise * 0.6
  }

  /** Tree i from its draws, the two noise samples at its position, the terrain height under it
      (0 without a terrain function) and its distance from the centre. */
  function InstanceFrom(i: nat, area: real, d: seq<real>, typeNoise: real, sizeNoise: real, y: real,
                        distance: real): (t: Instance)
    requires area > 0.0 && |d| == InstanceDraws && AllDraws(d) && IsUnit(sizeNoise)
    ensures t.id == i && t.kind == TypeOf(typeNoise)
    ensures t.position == Vec3((d[0] - 0.5) * area, y, (d[1] - 0.5) * area)
    ensures t.trunkRadius == t.height * 0.05 && t.crownRadius == t.height * CrownRatio(t.kind)
    ensures 0.0 <= t.rotation < 2.0 && 0.0 <= t.swayPhase < 2.0 && 0.02 <= t.swayAmplitude < 0.05
  {
    var kind := TypeOf(typeNoise);
    var height := BaseHeight(kind) * DistanceFactor(distance, area) * NoiseFactor(sizeNoise);
    Instance(i, Vec3((d[0] - 0.5) * area, y, (d[1] - 0.5) * area), kind, height, height * 0.05,
             height * CrownRatio(kind), d[2] * 2.0, d[3] * 2.0, 0.02 + d[4] * 0.03)
  }

  /** Every tree has a positive height of at most 8 * 1.3, when its distance is non-negative. */
  lemma HeightBounded(i: nat, area: real, d: seq<real>, typeNoise: real, sizeNoise: real, y: real, distance: real)
    requires area > 0.0 && |d| == InstanceDraws && AllDraws(d) && IsUnit(sizeNoise) && distance >= 0.0
    ensures var t := InstanceFrom(i, area, d, typeNoise, sizeNoise, y, distance);
      0.0 < t.height <= 10.4 && 0.0 < t.trunkRadius < t.crownRadius
  {
    var kind := TypeOf(typeNoise);
    var b := BaseHeight(kind);
    var s := DistanceFactor(distance, area);
    var n := NoiseFactor(sizeNoise);
    var bs := b * s;
    assert 0.0 < bs <= b by { MulUnit(s, b); assert s * b == bs; }
    assert bs * n <= b * 1.3 by {
      assert bs * n <= bs * 1.3;
      assert bs * 1.3 <= b * 1.3;
    }
    assert bs * n > 0.0;
  }

  /** The treeInstances table. noise is simplex noise, root is Math.sqrt and terrain the
      optional terrain height function. */
  method BuildInstances(count: nat, area: real, draws: seq<real>, noise: Noise3,
                        terrain: Option<(real, real) -> real>, root: real -> real)
    returns (trees: seq<Instance>)
    requires area > 0.0 && |draws| == count * InstanceDraws && AllDraws(draws)
    requires forall a, b, c :: IsUnit(noise(a, b, c))
    ensures |trees| == count
    ensures forall i :: 0 <= i < count ==> trees[i] == Planted(i, area, draws, noise, terrain, root)
  {
    trees := [];
    var i := 0;
    while i < count
      invariant 0 <= i <= count && |trees| == i
      invariant forall k :: 0 <= k < i ==> trees[k] == Planted(k, area, draws, noise, terrain, root)
    {
      trees := trees + [Planted(i, area, draws, noise, terrain, root)];
      i := i + 1;
    }
  }

  /** Tree i of the table: its draws, then the noise and terrain samples at its position. */
  function Planted(i: nat, area: real, draws: seq<real>, noise: Noise3, terrain: Option<(real, real) -> real>,
                   root: real -> real): (t: Instance)
    requires area > 0.0 && (i + 1) * InstanceDraws <= |draws| && AllDraws(draws)
    requires forall a, b, c :: IsUnit(noise(a, b, c))
    ensures t.id == i
  {
    var d := draws[i * InstanceDraws .. (i + 1) * InstanceDraws];
    var x := (d[0] - 0.5) * area;
    var z := (d[1] - 0.5) * area;
    var y := if terrain.Some? then terrain.value(x, z) else 0.0;
    InstanceFrom(i, area, d, noise(x * 0.01, z * 0.01, 0.0), noise(x * 0.05, z * 0.05, 100.0), y, root(x * x + z * z))
  }

  /** A pine crown: four layers of a centre vertex and a closed ring of nine, so 40 vertices. */
  const PineLayers: nat := 4
  const PineSegments: nat := 8
  const PineVertices: nat := 40
  /** An oak or birch crown: nine rings of thirteen vertices, so 117 vertices. */
  const SphereRings: nat := 8
  const SphereSegments: nat := 12
  const SphereVertices: nat := 117

  /** The triangle of pine layer l and segment i: the layer centre and two neighbouring ring
      vertices. */
  function PineTriangle(l: nat, i: nat): (t: seq<nat>)
    ensures |t| == 3 && t[0] != t[1] && t[1] != t[2] && t[0] != t[2]
    ensures t[0] < t[1] < t[2] == 10 * l + 2 + i
  {
    [10 * l, 10 * l + 1 + i, 10 * l + 2 + i]
  }

  /** The pine index buffer after the layers below l and the first i segments of layer l. */
  function PineIndices(l: nat, i: nat): seq<nat>
    requires i <= PineSegments
    decreases l, i
  {
    if i > 0 then PineIndices(l, i - 1) + PineTriangle(l, i - 1)
    else if l > 0 then PineIndices(l - 1, PineSegments)
    else []
  }

  /** The two triangles of the sphere quad at ring r and segment s: (c, c + 13, c + 1) and
      (c + 1, c + 13, c + 14) for c = 13 r + s. */
  function SphereQuad(r: nat, s: nat): (q: seq<nat>)
    ensures |q| == 6 && q[0] != q[1] && q[1] != q[2] && q[0] != q[2]
    ensures q[3] != q[4] && q[4] != q[5] && q[3] != q[5]
    ensures forall k :: 0 <= k < 6 ==> q[k] <= 13 * r + s + 14
  {
    var current := r * 13 + s;
    var next := current + 13;
    [current, next, current + 1, current + 1, next, next + 1]
  }

  /** The sphere index buffer after the rings above r and the first s segments of ring r. */
  function SphereIndices(r: nat, s: nat): seq<nat>
    requires s <= SphereSegments
    decreases r, s
  {
    if s > 0 then SphereIndices(r, s - 1) + SphereQuad(r, s - 1)
    else if r > 0 then SphereIndices(r - 1, SphereSegments)
    else []
  }

  /** An index buffer of whole triangles, each naming three distinct vertices below the count. */
  predicate Triangulates(indices: seq<nat>, vertexCount: nat) {
    && |indices| % 3 == 0
    && (forall k :: 0 <= k < |indices| ==> indices[k] < vertexCount)
    && (forall t {:trigger indices[3 * t]} :: 0 <= t < |indices| / 3 ==>
          indices[3 * t] != indices[3 * t + 1] && indices[3 * t + 1] != indices[3 * t + 2]
          && indices[3 * t] != indices[3 * t + 2])
  }

  /** Appending a proper triangle keeps a buffer a triangulation. */
  lemma AppendTriangle(a: seq<nat>, t: seq<nat>, n: nat)
    requires Triangulates(a, n) && |t| == 3 && t[0] != t[1] && t[1] != t[2] && t[0] != t[2]
    requires t[0] < n && t[1] < n && t[2] < n
    ensures Triangulates(a + t, n)
  {
    var b := a + t;
    forall j | 0 <= j < |b| / 3
      ensures b[3 * j] != b[3 * j + 1] && b[3 * j + 1] != b[3 * j + 2] && b[3 * j] != b[3 * j + 2]
    {
      if j < |a| / 3 {
        assert b[3 * j] == a[3 * j] && b[3 * j + 1] == a[3 * j + 1] && b[3 * j + 2] == a[3 * j + 2];
      } else {
        assert 3 * j == |a|;
      }
    }
  }

  /** A larger vertex count keeps a triangulation. */
  lemma Widen(a: seq<nat>, n: nat, m: nat)
    requires Triangulates(a, n) && n <= m
    ensures Triangulates(a, m)
  {
  }

  /** The pine buffer: 24 indices per finished layer, three per segment, every triangle proper,
      and every index below the vertices pushed so far. */
  lemma {:induction false} PineIndicesValid(l: nat, i: nat)
    requires i <= PineSegments
    ensures |PineIndices(l, i)| == 24 * l + 3 * i
    ensures Triangulates(PineIndices(l, i), 10 * l + (if i == 0 then 0 else i + 2))
    decreases l, i
  {
    if i > 0 {
      PineIndicesValid(l, i - 1);
      Widen(PineIndices(l, i - 1), 10 * l + (if i - 1 == 0 then 0 else i + 1), 10 * l + i + 2);
      AppendTriangle(PineIndices(l, i - 1), PineTriangle(l, i - 1), 10 * l + i + 2);
    } else if l > 0 {
      PineIndicesValid(l - 1, PineSegments);
    }
  }

  /** The whole pine crown: 32 proper triangles over its 40 vertices. */
  lemma PineCrownValid()
    ensures |PineIndices(PineLayers, 0)| == 96
    ensures Triangulates(PineIndices(PineLayers, 0), PineVertices)
  {
    PineIndicesValid(PineLayers, 0);
  }

  /** The sphere buffer: 72 indices per finished ring, six per segment, every triangle proper,
      and every index below the vertices of the next ring. */
  lemma {:induction false} SphereIndicesValid(r: nat, s: nat)
    requires s <= SphereSegments
    ensures |SphereIndices(r, s)| == 72 * r + 6 * s
    ensures Triangulates(SphereIndices(r, s), SphereBound(r, s))
    decreases r, s
  {
    if s > 0 {
      SphereIndicesValid(r, s - 1);
      var a := SphereIndices(r, s - 1);
      var q := SphereQuad(r, s - 1);
      var n := 13 * r + s + 14;
      Widen(a, SphereBound(r, s - 1), n);
      AppendTriangle(a, q[..3], n);
      AppendTriangle(a + q[..3], q[3..], n);
      assert a + q == (a + q[..3]) + q[3..];
    } else if r > 0 {
      SphereIndicesValid(r - 1, SphereSegments);
    }
  }

  /** How many vertices the sphere buffer after (r, s) refers to: a quad reaches into the next
      ring. */
  function SphereBound(r: nat, s: nat): nat {
    if s > 0 then 13 * r + s + 14 else if r > 0 then 13 * r + 13 else 0
  }

  /** The whole oak or birch crown: 192 proper triangles over its 117 vertices. */
  lemma SphereCrownValid()
    ensures |SphereIndices(SphereRings, 0)| == 3 * 192
    ensures Triangulates(SphereIndices(SphereRings, 0), SphereVertices)
  {
    SphereIndicesValid(SphereRings, 0);
  }

  /** The height of pine layer l: the crown height lowered by a quarter per layer. */
  function LayerHeight(height: real, l: nat): real {
    height * (1.0 - l as real / 4.0)
  }

  /** The radius of pine layer l: the crown radius narrowed by a fifth per layer. */
  function LayerRadius(radius: real, l: nat): real {
    radius * (1.0 - l as real / 5.0)
  }

  /** The pine crown generator. ringCos and ringSin hold cos and sin of 2 PI i / 8 for
      i = 0 .. 8. Returns the vertices and the index buffer. */
  method PineCrown(radius: real, height: real, ringCos: seq<real>, ringSin: seq<real>)
    returns (vertices: seq<Vec3>, indices: seq<nat>)
    requires |ringCos| == PineSegments + 1 && |ringSin| == PineSegments + 1
    ensures |vertices| == PineVertices && indices == PineIndices(PineLayers, 0)
    ensures forall l :: 0 <= l < PineLayers ==> vertices[10 * l] == Vec3(0.0, LayerHeight(height, l), 0.0)
    ensures forall l, i :: 0 <= l < PineLayers && 0 <= i <= PineSegments ==>
      vertices[10 * l + 1 + i] == Vec3(ringCos[i] * LayerRadius(radius, l), LayerHeight(height, l) - height * 0.3,
                                       ringSin[i] * LayerRadius(radius, l))
  {
    vertices, indices := [], [];
    for l := 0 to PineLayers
      invariant |vertices| == 10 * l && indices == PineIndices(l, 0)
      invariant forall m :: 0 <= m < l ==> vertices[10 * m] == Vec3(0.0, LayerHeight(height, m), 0.0)
      invariant forall m, i :: 0 <= m < l && 0 <= i <= PineSegments ==>
        vertices[10 * m + 1 + i] == RingPoint(ringCos[i], ringSin[i], LayerRadius(radius, m), LayerHeight(height, m) - height * 0.3)
    {
      var before := vertices;
      vertices, indices := PineLayer(l, LayerHeight(height, l), LayerRadius(radius, l), height, ringCos, ringSin,
                                     vertices, indices);
      forall m | 0 <= m < l + 1
        ensures vertices[10 * m] == Vec3(0.0, LayerHeight(height, m), 0.0)
      {
        if m < l {
          assert vertices[10 * m] == vertices[..10 * l][10 * m] == before[10 * m];
        }
      }
      forall m, i | 0 <= m < l + 1 && 0 <= i <= PineSegments
        ensures vertices[10 * m + 1 + i] == RingPoint(ringCos[i], ringSin[i], LayerRadius(radius, m), LayerHeight(height, m) - height * 0.3)
      {
        if m < l {
          assert vertices[10 * m + 1 + i] == vertices[..10 * l][10 * m + 1 + i] == before[10 * m + 1 + i];
        }
      }
    }
  }

  /** One layer of the pine crown: its centre vertex at the layer height, its ring of 9 vertices
      0.3 of the crown height lower, and the 8 triangles of its cone. */
  method PineLayer(l: nat, layerHeight: real, layerRadius: real, height: real, ringCos: seq<real>, ringSin: seq<real>,
                   vertices0: seq<Vec3>, indices0: seq<nat>)
    returns (vertices: seq<Vec3>, indices: seq<nat>)
    requires |ringCos| == PineSegments + 1 && |ringSin| == PineSegments + 1
    requires |vertices0| == 10 * l && indices0 == PineIndices(l, 0)
    ensures |vertices| == 10 * l + 10 && vertices[..10 * l] == vertices0
    ensures vertices[10 * l] == Vec3(0.0, layerHeight, 0.0)
    ensures forall i :: 0 <= i <= PineSegments ==>
      vertices[10 * l + 1 + i] == RingPoint(ringCos[i], ringSin[i], layerRadius, layerHeight - height * 0.3)
    ensures indices == PineIndices(l + 1, 0)
  {
    var centre := |vertices0|;
    vertices := vertices0 + [Vec3(0.0, layerHeight, 0.0)];
    indices := indices0;
    for i := 0 to PineSegments + 1
      invariant |vertices| == 10 * l + 1 + i && vertices[..10 * l + 1] == vertices0 + [Vec3(0.0, layerHeight, 0.0)]
      invariant forall j :: 0 <= j < i ==>
        vertices[10 * l + 1 + j] == RingPoint(ringCos[j], ringSin[j], layerRadius, layerHeight - height * 0.3)
      invariant indices == PineIndices(l, if i < PineSegments then i else PineSegments)
    {
      vertices := vertices + [RingPoint(ringCos[i], ringSin[i], layerRadius, layerHeight - height * 0.3)];
      if i < PineSegments {
        var ringStart := centre + 1;
        indices := indices + [centre, ringStart + i, ringStart + i + 1];
      }
    }
    assert vertices[..10 * l] == (vertices0 + [Vec3(0.0, layerHeight, 0.0)])[..10 * l];
  }

  /** The point at cosine c and sine s on a circle of the given radius at height y. */
  function RingPoint(c: real, s: real, radius: real, y: real): (p: Vec3)
    ensures p.y == y
  {
    Vec3(c * radius, y, s * radius)
  }

  /** A crown vertex at cosine c and sine s of a ring of the given radius at height y, pushed
      in or out by 1 + 0.3 times the noise at (0.5 c, 0.1 y, 0.5 s). */
  function SpherePoint(c: real, s: real, ringRadius: real, y: real, noise: Noise3): (p: Vec3)
    ensures p.y == y
  {
    RingPoint(c, s, ringRadius * Irregularity(c, y, s, noise), y)
  }

  /** How far the noise pushes a crown vertex out (above 1) or in (below 1). */
  function Irregularity(c: real, y: real, s: real, noise: Noise3): real {
    1.0 + noise(c * 0.5, y * 0.1, s * 0.5) * 0.3
  }

  /** Sphere crown vertex s of ring r: on the ring of radius sin(phi) times the crown radius at
      height cos(phi) times the crown radius. */
  function SphereVertex(r: nat, s: nat, ringCos: seq<real>, ringSin: seq<real>, segCos: seq<real>, segSin: seq<real>,
                        radius: real, noise: Noise3): Vec3
    requires r < |ringCos| && r < |ringSin| && s < |segCos| && s < |segSin|
  {
    SpherePoint(segCos[s], segSin[s], ringSin[r] * radius, ringCos[r] * radius, noise)
  }

  /** The ring of sphere vertex k. */
  function RingOf(k: nat): (r: nat)
    ensures 13 * r <= k < 13 * r + 13
  {
    k / 13
  }

  /** One ring of the oak and birch crown: its 13 vertices at height y, and the quads joining it
      to the next ring unless it is the last. */
  method SphereRing(r: nat, y: real, ringRadius: real, segCos: seq<real>, segSin: seq<real>, noise: Noise3,
                    vertices0: seq<Vec3>, indices0: seq<nat>)
    returns (vertices: seq<Vec3>, indices: seq<nat>)
    requires r <= SphereRings && |segCos| == SphereSegments + 1 && |segSin| == SphereSegments + 1
    requires |vertices0| == 13 * r && indices0 == SphereIndices(r, 0)
    ensures |vertices| == 13 * r + 13 && vertices[..13 * r] == vertices0
    ensures forall k :: 13 * r <= k < |vertices| ==> vertices[k].y == y
    ensures forall s :: 0 <= s <= SphereSegments ==>
      vertices[13 * r + s] == SpherePoint(segCos[s], segSin[s], ringRadius, y, noise)
    ensures indices == if r < SphereRings then SphereIndices(r + 1, 0) else indices0
  {
    vertices, indices := vertices0, indices0;
    for s := 0 to SphereSegments + 1
      invariant |vertices| == 13 * r + s && vertices[..13 * r] == vertices0
      invariant forall j :: 0 <= j < s ==> vertices[13 * r + j] == SpherePoint(segCos[j], segSin[j], ringRadius, y, noise)
      invariant r < SphereRings ==> indices == SphereIndices(r, if s < SphereSegments then s else SphereSegments)
      invariant r == SphereRings ==> indices == indices0
      invariant forall k :: 13 * r <= k < |vertices| ==> vertices[k].y == y
    {
      vertices := vertices + [SpherePoint(segCos[s], segSin[s], ringRadius, y, noise)];
      if r < SphereRings && s < SphereSegments {
        var current := r * (SphereSegments + 1) + s;
        var next := current + SphereSegments + 1;
        QuadAt(r, s, current, next);
        indices := indices + [current, next, current + 1, current + 1, next, next + 1];
      }
    }
  }

  /** The quad the ring loop appends at ring r, segment s. */
  lemma QuadAt(r: nat, s: nat, current: nat, next: nat)
    requires current == r * (SphereSegments + 1) + s && next == current + SphereSegments + 1
    ensures [current, next, current + 1, current + 1, next, next + 1] == SphereQuad(r, s)
  {
  }

  lemma SameRing(k: nat, r: nat)
    requires 13 * r <= k < 13 * r + 13
    ensures RingOf(k) == r
  {
  }

  /** Appending ring r keeps every vertex at the height of its own ring. */
  lemma RingAdded(done: seq<Vec3>, vertices: seq<Vec3>, r: nat, ringCos: seq<real>, radius: real)
    requires r < |ringCos| && |vertices| == 13 * r + 13 && vertices[..13 * r] == done
    requires forall k :: 0 <= k < |done| ==> RingOf(k) < |ringCos| && done[k].y == ringCos[RingOf(k)] * radius
    requires forall k :: 13 * r <= k < |vertices| ==> vertices[k].y == ringCos[r] * radius
    ensures forall k :: 0 <= k < |vertices| ==> RingOf(k) < |ringCos| && vertices[k].y == ringCos[RingOf(k)] * radius
  {
    forall k | 0 <= k < |vertices|
      ensures RingOf(k) < |ringCos| && vertices[k].y == ringCos[RingOf(k)] * radius
    {
      if k < 13 * r {
        assert vertices[k] == done[k];
      } else {
        SameRing(k, r);
      }
    }
  }

  /** The oak and birch crown generator. ringCos and ringSin hold cos and sin of PI r / 8 for
      r = 0 .. 8, segCos and segSin cos and sin of 2 PI s / 12 for s = 0 .. 12. Each vertex is
      pushed out by 1 + 0.3 n for the noise n at its direction. */
  method SphereCrown(radius: real, ringCos: seq<real>, ringSin: seq<real>, segCos: seq<real>, segSin: seq<real>,
                     noise: Noise3)
    returns (vertices: seq<Vec3>, indices: seq<nat>)
    requires |ringCos| == SphereRings + 1 && |ringSin| == SphereRings + 1
    requires |segCos| == SphereSegments + 1 && |segSin| == SphereSegments + 1
    ensures |vertices| == SphereVertices && indices == SphereIndices(SphereRings, 0)
    ensures forall k :: 0 <= k < |vertices| ==> vertices[k].y == ringCos[RingOf(k)] * radius
    ensures forall r, s :: 0 <= r <= SphereRings && 0 <= s <= SphereSegments ==>
      var irregularity := Irregularity(segCos[s], ringCos[r] * radius, segSin[s], noise);
      vertices[13 * r + s].x == segCos[s] * (ringSin[r] * radius * irregularity) &&
      vertices[13 * r + s].z == segSin[s] * (ringSin[r] * radius * irregularity)
  {
    vertices, indices := [], [];
    for r := 0 to SphereRings + 1
      invariant |vertices| == 13 * r
      invariant indices == SphereIndices(if r <= SphereRings then r else SphereRings, 0)
      invariant forall k :: 0 <= k < |vertices| ==> vertices[k].y == ringCos[RingOf(k)] * radius
      invariant forall q, s :: 0 <= q < r && 0 <= s <= SphereSegments ==>
        vertices[13 * q + s] == SphereVertex(q, s, ringCos, ringSin, segCos, segSin, radius, noise)
    {
      ghost var done := vertices;
      vertices, indices := SphereRing(r, ringCos[r] * radius, ringSin[r] * radius, segCos, segSin, noise,
                                      vertices, indices);
      RingAdded(done, vertices, r, ringCos, radius);
      RingPointsAdded(done, vertices, r, ringCos, ringSin, segCos, segSin, radius, noise);
    }
    CrownShape(vertices, ringCos, ringSin, segCos, segSin, radius, noise);
  }

  /** Appending ring r keeps every earlier vertex where its ring and segment put it. */
  lemma RingPointsAdded(done: seq<Vec3>, vertices: seq<Vec3>, r: nat, ringCos: seq<real>, ringSin: seq<real>,
                        segCos: seq<real>, segSin: seq<real>, radius: real, noise: Noise3)
    requires r < |ringCos| && r < |ringSin| && |segCos| == SphereSegments + 1 && |segSin| == SphereSegments + 1
    requires |vertices| == 13 * r + 13 && vertices[..13 * r] == done
    requires forall q, s :: 0 <= q < r && 0 <= s <= SphereSegments ==>
      done[13 * q + s] == SphereVertex(q, s, ringCos, ringSin, segCos, segSin, radius, noise)
    requires forall s :: 0 <= s <= SphereSegments ==>
      vertices[13 * r + s] == SphereVertex(r, s, ringCos, ringSin, segCos, segSin, radius, noise)
    ensures forall q, s :: 0 <= q <= r && 0 <= s <= SphereSegments ==>
      vertices[13 * q + s] == SphereVertex(q, s, ringCos, ringSin, segCos, segSin, radius, noise)
  {
    forall q, s | 0 <= q <= r && 0 <= s <= SphereSegments
      ensures vertices[13 * q + s] == SphereVertex(q, s, ringCos, ringSin, segCos, segSin, radius, noise)
    {
      if q < r {
        assert vertices[13 * q + s] == vertices[..13 * r][13 * q + s] == done[13 * q + s];
      } else {
        assert vertices[13 * r + s] == SphereVertex(r, s, ringCos, ringSin, segCos, segSin, radius, noise);
      }
    }
  }

  /** A crown of sphere points has, at ring r and segment s, x and z on the ring of radius
      sin(phi) times the crown radius, scaled by the noise irregularity. */
  lemma CrownShape(vertices: seq<Vec3>, ringCos: seq<real>, ringSin: seq<real>, segCos: seq<real>, segSin: seq<real>,
                   radius: real, noise: Noise3)
    requires |ringCos| == SphereRings + 1 && |ringSin| == SphereRings + 1 && |vertices| == SphereVertices
    requires |segCos| == SphereSegments + 1 && |segSin| == SphereSegments + 1
    requires forall q, s :: 0 <= q <= SphereRings && 0 <= s <= SphereSegments ==>
      vertices[13 * q + s] == SphereVertex(q, s, ringCos, ringSin, segCos, segSin, radius, noise)
    ensures forall r, s :: 0 <= r <= SphereRings && 0 <= s <= SphereSegments ==>
      var irregularity := Irregularity(segCos[s], ringCos[r] * radius, segSin[s], noise);
      vertices[13 * r + s].x == segCos[s] * (ringSin[r] * radius * irregularity) &&
      vertices[13 * r + s].z == segSin[s] * (ringSin[r] * radius * irregularity)
  {
    forall r, s | 0 <= r <= SphereRings && 0 <= s <= SphereSegments
      ensures var irregularity := Irregularity(segCos[s], ringCos[r] * radius, segSin[s], noise);
        vertices[13 * r + s].x == segCos[s] * (ringSin[r] * radius * irregularity) &&
        vertices[13 * r + s].z == segSin[s] * (ringSin[r] * radius * irregularity)
    {
      assert vertices[13 * r + s] == SphereVertex(r, s, ringCos, ringSin, segCos, segSin, radius, noise);
    }
  }

  /** generateTreeCrown: a pine gets the layered cone crown, an oak or birch the noisy sphere; either
      way the result is a buffer of proper triangles over its own vertices. */
  method TreeCrown(kind: TreeType, radius: real, height: real, ringCos: seq<real>, ringSin: seq<real>,
                   sphereCos: seq<real>, sphereSin: seq<real>, segCos: seq<real>, segSin: seq<real>, noise: Noise3)
    returns (vertices: seq<Vec3>, indices: seq<nat>)
    requires |ringCos| == PineSegments + 1 && |ringSin| == PineSegments + 1
    requires |sphereCos| == SphereRings + 1 && |sphereSin| == SphereRings + 1
    requires |segCos| == SphereSegments + 1 && |segSin| == SphereSegments + 1
    ensures |vertices| == if kind == Pine then PineVertices else SphereVertices
    ensures |indices| == if kind == Pine then 3 * 32 else 3 * 192
    ensures Triangulates(indices, |vertices|)
  {
    if kind == Pine {
      vertices, indices := PineCrown(radius, height, ringCos, ringSin);
      PineCrownValid();
    } else {
      vertices, indices := SphereCrown(radius, sphereCos, sphereSin, segCos, segSin, noise);
      SphereCrownValid();
    }
  }

  /** max(0, 1 - 2 offset): the trees are full at the top of the page and gone by half way. */
  function Visibility(offset: real): (v: real)
    requires ValidOffset(offset)
    ensures 0.0 <= v <= 1.0
    ensures v == 0.0 <==> offset >= 0.5
    ensures v == 1.0 <==> offset == 0.0
  {
    Max(0.0, 1.0 - offset * 2.0)
  }

  /** Scrolling further never brings the trees back. */
  lemma VisibilityFalls(a: real, b: real)
    requires ValidOffset(a) && ValidOffset(b) && a <= b
    ensures Visibility(b) <= Visibility(a)
  {
  }

  /** The sway of a tree for the samples sin(0.5 t + phase) and cos(0.3 t + phase): a tilt about x
      of at most the amplitude and about z of at most half of it. */
  function Sway(t: Instance, sin: real, cos: real): (r: (real, real))
    requires IsUnit(sin) && IsUnit(cos) && t.swayAmplitude >= 0.0
    ensures -t.swayAmplitude <= r.0 <= t.swayAmplitude
    ensures -t.swayAmplitude * 0.5 <= r.1 <= t.swayAmplitude * 0.5
  {
    var a := t.swayAmplitude;
    assert -a <= sin * a <= a by { Swing(sin, a); }
    assert -a <= cos * a <= a by { Swing(cos, a); }
    (sin * a, cos * a * 0.5)
  }

  /** A material shared by all trees of one type and one part (trunk or crown). */
  class Material {
    var opacity: real
    var transparent: bool
  }

  /** The group of one tree; parts lists the material of each of its meshes, null for a part without
      one. Trees of one type share their materials. */
  class TreeGroup {
    var rotationX: real
    var rotationZ: real
    var scale: real
    const parts: seq<Material?>

    constructor (parts: seq<Material?>)
      ensures this.parts == parts && rotationX == 0.0 && rotationZ == 0.0 && scale == 1.0
    {
      this.parts := parts;
      rotationX, rotationZ, scale := 0.0, 0.0, 1.0;
    }
  }

  /** The materials reachable from some of the groups. */
  ghost function PartMaterials(groups: seq<TreeGroup>): set<Material> {
    set g, m: Material | g in groups && m in g.parts :: m
  }

  predicate Distinct(groups: seq<TreeGroup>) {
    forall i, j :: 0 <= i < j < |groups| ==> groups[i] != groups[j]
  }

  /** The inner loop over one tree's parts: every material it holds gets the visibility as its
      opacity and becomes transparent. */
  method FadeParts(parts: seq<Material?>, vis: real)
    modifies set m | m in parts
    ensures forall m :: m in parts && m != null ==> m.opacity == vis && m.transparent
  {
    for j := 0 to |parts|
      invariant forall m :: m in parts[..j] && m != null ==> m.opacity == vis && m.transparent
    {
      assert parts[..j + 1] == parts[..j] + [parts[j]];
      if parts[j] != null {
        parts[j].opacity := vis;
        parts[j].transparent := true;
      }
    }
    assert parts[..|parts|] == parts;
  }

  /** The per-frame callback (mounted is false while the group ref is empty). sinSway and cosSway
      hold each tree's sway samples. Group i belongs to instance i; groups without an instance are
      skipped. */
  method Frame(scroll: Option<real>, mounted: bool, instances: seq<Instance>, groups: seq<TreeGroup>,
               sinSway: seq<real>, cosSway: seq<real>)
    requires scroll.Some? ==> ValidOffset(scroll.value)
    requires Distinct(groups) && |sinSway| == |groups| && |cosSway| == |groups|
    requires AllUnit(sinSway) && AllUnit(cosSway)
    requires forall t :: t in instances ==> t.swayAmplitude >= 0.0
    modifies (set g | g in groups), PartMaterials(groups)
    ensures scroll.None? || !mounted ==> unchanged(set g | g in groups) && unchanged(PartMaterials(groups))
    ensures scroll.Some? && mounted ==> forall i :: 0 <= i < |groups| ==>
      if i < |instances| then
        && (groups[i].rotationX, groups[i].rotationZ) == Sway(instances[i], sinSway[i], cosSway[i])
        && groups[i].scale == Visibility(scroll.value)
      else unchanged(groups[i])
    ensures scroll.Some? && mounted ==> forall m :: m in PartMaterials(groups) ==>
      if m in PartMaterials(groups[..if |groups| < |instances| then |groups| else |instances|])
      then m.opacity == Visibility(scroll.value) && m.transparent
      else unchanged(m)
  {
    if scroll.None? || !mounted {
      return;
    }
    var vis := Visibility(scroll.value);
    for i := 0 to |groups|
      invariant forall k :: 0 <= k < |groups| ==>
        if k < i && k < |instances| then
          && (groups[k].rotationX, groups[k].rotationZ) == Sway(instances[k], sinSway[k], cosSway[k])
          && groups[k].scale == vis
        else unchanged(groups[k])
      invariant forall m :: m in PartMaterials(groups) ==>
        if m in PartMaterials(groups[..if i < |instances| then i else |instances|])
        then m.opacity == vis && m.transparent
        else unchanged(m)
    {
      if i >= |instances| {
        continue;
      }
      var g := groups[i];
      assert g in groups;
      var sway := Sway(instances[i], sinSway[i], cosSway[i]);
      g.rotationX := sway.0;
      g.rotationZ := sway.1;
      g.scale := vis;
      FadeParts(g.parts, vis);
      assert groups[..i + 1] == groups[..i] + [g];
    }
    assert groups[..|groups|] == groups;
  }
}
