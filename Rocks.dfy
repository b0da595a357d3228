/** Procedural rock formations of the mountain scene: a table of rocks sized by noise and by their
    distance from the centre and classified by height, rings of debris around the large ones, and
    a frame update that scales the formations with the scene and swaps each mesh between the
    shared base, weathered and snow materials. */
module Rocks {
  import opened Common

  datatype RockType = Cliff | Spire | Boulder | Stone

  /** A rock; the rotation is (about x, about y in units of PI, about z). */
  datatype Rock = Rock(id: nat, position: Vec3, kind: RockType, height: real, width: real, depth: real,
                       irregularity: real, rotation: Vec3, weathering: real, snowCoverage: real)

  /** Math.random calls per rock: x, z, base height, width, depth, irregularity, three rotation
      angles, weathering. */
  const RockDraws: nat := 10

  /** A cliff above 15, a stone below 8; in between a spire where the type noise exceeds 0.3,
      else a boulder. */
  function TypeOf(height: real, typeNoise: real): (t: RockType)
    ensures t == Cliff <==> height > 15.0
    ensures t == Stone <==> height < 8.0
    ensures t == Spire <==> 8.0 <= height <= 15.0 && typeNoise > 0.3
    ensures t == Boulder <==> 8.0 <= height <= 15.0 && typeNoise <= 0.3
  {
    if height > 15.0 then Cliff
    else if height < 8.0 then Stone
    else if typeNoise > 0.3 then Spire
    else Boulder
  }

  /** max(0, (h - 10) / 15): rocks above 10 carry snow, more the taller they are. */
  function SnowCoverage(height: real): (c: real)
    ensures c >= 0.0
    ensures c > 0.0 <==> height > 10.0
    ensures height > 10.0 ==> c * 15.0 == height - 10.0
  {
    Max(0.0, (height - 10.0) / 15.0)
  }

  /** Taller rocks never carry less snow. */
  lemma SnowCoverageGrows(a: real, b: real)
    requires a <= b
    ensures SnowCoverage(a) <= SnowCoverage(b)
  {
  }

  /** h (lo + r span) for a draw r: it lies in [lo h, top h] for top = lo + span, below the top
      when h > 0. */
  function Stretch(h: real, lo: real, span: real, top: real, r: real): (v: real)
    requires IsDraw(r) && span > 0.0 && top == lo + span
    ensures h >= 0.0 ==> lo * h <= v <= top * h
    ensures h > 0.0 ==> v < top * h
  {
    if h >= 0.0 then
      var s := Scaled(r, span * h);
      assert h * (lo + r * span) == lo * h + s;
      assert top * h == lo * h + span * h;
      assert h > 0.0 ==> span * h > 0.0;
      h * (lo + r * span)
    else h * (lo + r * span)
  }

  /** The height before classification: a base height drawn from [lo, hi), scaled by
      1 + 0.5 n for the height noise n and by max(0.3, 1 - d / (0.7 area)) for the distance d. */
  function Height(lo: real, hi: real, draw: real, heightNoise: real, distance: real, area: real): real
    requires area > 0.0
  {
    (lo + (hi - lo) * draw) * (1.0 + heightNoise * 0.5) * Max(0.3, 1.0 - distance / (area * 0.7))
  }

  /** With a non-negative height range, noise in [-1,1] and a non-negative distance, a rock's
      height lies between 0 and 1.5 times the top of the range. */
  lemma HeightBounded(lo: real, hi: real, draw: real, heightNoise: real, distance: real, area: real)
    requires area > 0.0 && 0.0 <= lo <= hi && IsDraw(draw) && IsUnit(heightNoise) && distance >= 0.0
    ensures 0.0 <= Height(lo, hi, draw, heightNoise, distance, area) <= hi * 1.5
  {
    var span := hi - lo;
    MulUnit(draw, span);
    assert span * draw == draw * span;
    var base := lo + span * draw;
    var n := 1.0 + heightNoise * 0.5;
    var f := Max(0.3, 1.0 - distance / (area * 0.7));
    var bn := base * n;
    NoiseFactor(base, heightNoise, hi);
    MulUnit(f, bn);
    assert Height(lo, hi, draw, heightNoise, distance, area) == f * bn;
  }

  /** A base height in [0, top] times 1 + 0.5 n, for n in [-1,1], lies in [0, 1.5 top]. */
  lemma NoiseFactor(base: real, heightNoise: real, top: real)
    requires 0.0 <= base <= top && IsUnit(heightNoise)
    ensures 0.0 <= base * (1.0 + heightNoise * 0.5) <= top * 1.5
  {
    var third := (1.0 + heightNoise * 0.5) / 1.5;
    MulUnit(third, base * 1.5);
    assert base * (1.0 + heightNoise * 0.5) == third * (base * 1.5);
  }

  /** Rock i from its draws d, the height and type noise at its position and its distance from
      the centre. */
  function RockFrom(i: nat, area: real, lo: real, hi: real, d: seq<real>, heightNoise: real, typeNoise: real,
                    distance: real): (t: Rock)
    requires area > 0.0 && |d| == RockDraws && AllDraws(d)
    ensures t.id == i && t.height == Height(lo, hi, d[2], heightNoise, distance, area)
    ensures t.kind == TypeOf(t.height, typeNoise)
    ensures t.position == Vec3((d[0] - 0.5) * area, t.height * 0.5, (d[1] - 0.5) * area)
    ensures t.snowCoverage == SnowCoverage(t.height)
    ensures t.height >= 0.0 ==> 0.6 * t.height <= t.width <= 1.4 * t.height
    ensures t.height >= 0.0 ==> 0.5 * t.height <= t.depth <= 1.2 * t.height
    ensures t.height > 0.0 ==> t.width < 1.4 * t.height && t.depth < 1.2 * t.height
    ensures 0.3 <= t.irregularity < 0.7 && 0.0 <= t.weathering < 1.0
  {
    var h := Height(lo, hi, d[2], heightNoise, distance, area);
    Rock(i, Vec3((d[0] - 0.5) * area, h * 0.5, (d[1] - 0.5) * area), TypeOf(h, typeNoise), h,
         Stretch(h, 0.6, 0.8, 1.4, d[3]), Stretch(h, 0.5, 0.7, 1.2, d[4]), 0.3 + d[5] * 0.4,
         Vec3(d[6] * 0.3, d[7] * 2.0, d[8] * 0.2), d[9], SnowCoverage(h))
  }

  /** Rock i of the table: its draws, then the noise samples and the distance at its position.
      noise is simplex noise and root Math.sqrt. */
  function Placed(i: nat, area: real, lo: real, hi: real, draws: seq<real>, noise: Noise3, root: real -> real): (t: Rock)
    requires area > 0.0 && (i + 1) * RockDraws <= |draws| && AllDraws(draws)
    ensures t.id == i
  {
    var d := draws[i * RockDraws .. (i + 1) * RockDraws];
    var x := (d[0] - 0.5) * area;
    var z := (d[1] - 0.5) * area;
    RockFrom(i, area, lo, hi, d, noise(x * 0.02, z * 0.02, 0.0), noise(x * 0.05, z * 0.05, 100.0), root(x * x + z * z))
  }

  /** The rockInstances table: exactly count rocks, rock i built from the i-th block of draws. */
  method BuildRocks(count: nat, area: real, lo: real, hi: real, draws: seq<real>, noise: Noise3, root: real -> real)
    returns (rocks: seq<Rock>)
    requires area > 0.0 && |draws| == count * RockDraws && AllDraws(draws)
    ensures |rocks| == count
    ensures forall i :: 0 <= i < count ==> rocks[i] == Placed(i, area, lo, hi, draws, noise, root)
  {
    rocks := [];
    var i := 0;
    while i < count
      invariant 0 <= i <= count && |rocks| == i
      invariant forall k :: 0 <= k < i ==> rocks[k] == Placed(k, area, lo, hi, draws, noise, root)
    {
      rocks := rocks + [Placed(i, area, lo, hi, draws, noise, root)];
      i := i + 1;
    }
  }

  /** A piece of debris; its rotation is in units of PI. */
  datatype Debris = Debris(position: Vec3, size: real, rotation: Vec3)

  /** Math.random calls per piece of debris: angle, distance, size, three rotation angles. */
  const DebrisDraws: nat := 6

  /** Rocks under 10 shed no debris; the others floor(0.3 h) pieces. */
  function DebrisCount(height: real): (n: nat)
    ensures height < 10.0 <==> n == 0
    ensures height >= 10.0 ==> n as real <= height * 0.3 < n as real + 1.0
  {
    if height < 10.0 then 0 else FloorNat(height * 0.3)
  }

  /** The distance of a piece from its rock: w (0.8 + 1.2 r) for a draw r. */
  function DebrisDistance(width: real, r: real): (v: real)
    requires IsDraw(r) && width >= 0.0
    ensures 0.8 * width <= v <= 2.0 * width
    ensures width > 0.0 ==> v < 2.0 * width
  {
    Stretch(width, 0.8, 1.2, 2.0, r)
  }

  /** s times a non-negative reach, for a cosine or sine sample s: no further than the reach. */
  function Reach(s: real, reach: real): (v: real)
    requires IsUnit(s) && reach >= 0.0
    ensures -reach <= v <= reach
  {
    Swing(s, reach);
    s * reach
  }

  /** A piece from its draws d and the cosine and sine of its angle: it rests on the ground at
      half its size, no further out than its distance. */
  function DebrisFrom(width: real, d: seq<real>, cos: real, sin: real): (p: Debris)
    requires |d| == DebrisDraws && AllDraws(d) && width >= 0.0 && IsUnit(cos) && IsUnit(sin)
    ensures 0.5 <= p.size < 2.0 && p.position.y * 2.0 == p.size
    ensures -DebrisDistance(width, d[1]) <= p.position.x <= DebrisDistance(width, d[1])
    ensures -DebrisDistance(width, d[1]) <= p.position.z <= DebrisDistance(width, d[1])
  {
    var distance := DebrisDistance(width, d[1]);
    var size := 0.5 + d[2] * 1.5;
    Debris(Vec3(Reach(cos, distance), size * 0.5, Reach(sin, distance)), size, Vec3(d[3], d[4], d[5]))
  }

  /** generateDebris: DebrisCount(h) pieces, piece i from the i-th block of draws and the cosine
      and sine of its angle. */
  method BuildDebris(rock: Rock, draws: seq<real>, cosines: seq<real>, sines: seq<real>)
    returns (debris: seq<Debris>)
    requires rock.width >= 0.0 && AllDraws(draws) && AllUnit(cosines) && AllUnit(sines)
    requires |draws| == DebrisCount(rock.height) * DebrisDraws
    requires |cosines| == DebrisCount(rock.height) && |sines| == DebrisCount(rock.height)
    ensures |debris| == DebrisCount(rock.height)
    ensures forall i :: 0 <= i < |debris| ==>
      debris[i] == DebrisFrom(rock.width, draws[i * DebrisDraws .. (i + 1) * DebrisDraws], cosines[i], sines[i])
  {
    if rock.height < 10.0 {
      return [];
    }
    var count := FloorNat(rock.height * 0.3);
    debris := [];
    for i := 0 to count
      invariant |debris| == i
      invariant forall k :: 0 <= k < i ==>
        debris[k] == DebrisFrom(rock.width, draws[k * DebrisDraws .. (k + 1) * DebrisDraws], cosines[k], sines[k])
    {
      debris := debris + [DebrisFrom(rock.width, draws[i * DebrisDraws .. (i + 1) * DebrisDraws], cosines[i], sines[i])];
    }
  }

  /** Every piece of debris lies in the square of half-side 2 w around its rock. */
  lemma DebrisNearRock(rock: Rock, debris: seq<Debris>, draws: seq<real>, cosines: seq<real>, sines: seq<real>)
    requires rock.width > 0.0 && AllDraws(draws) && AllUnit(cosines) && AllUnit(sines)
    requires |draws| == |debris| * DebrisDraws && |cosines| == |debris| && |sines| == |debris|
    requires forall i :: 0 <= i < |debris| ==>
      debris[i] == DebrisFrom(rock.width, draws[i * DebrisDraws .. (i + 1) * DebrisDraws], cosines[i], sines[i])
    ensures forall i :: 0 <= i < |debris| ==>
      -2.0 * rock.width < debris[i].position.x < 2.0 * rock.width
      && -2.0 * rock.width < debris[i].position.z < 2.0 * rock.width
  {
    forall i | 0 <= i < |debris|
      ensures -2.0 * rock.width < debris[i].position.x < 2.0 * rock.width
      ensures -2.0 * rock.width < debris[i].position.z < 2.0 * rock.width
    {
      var d := draws[i * DebrisDraws .. (i + 1) * DebrisDraws];
      assert d[1] == draws[i * DebrisDraws + 1];
      var limit := DebrisDistance(rock.width, d[1]);
      assert limit < 2.0 * rock.width;
    }
  }

  /** Visibility over progress p = 4 offset: 0 outside [1,3), 2 (p - 1) on [1,2), then
      1 - 0.5 (p - 2). The rise is not clamped, so the value reaches 1 at p = 1.5 and stays at or
      above it until p = 2. */
  function Visibility(progress: real): (v: real)
    ensures 0.0 <= v < 2.0
    ensures v > 0.0 <==> 1.0 < progress < 3.0
    ensures v >= 1.0 <==> 1.5 <= progress <= 2.0
    ensures v > 1.0 <==> 1.5 < progress < 2.0
  {
    if progress >= 1.0 && progress < 3.0 then
      if progress < 2.0 then (progress - 1.0) * 2.0 else 1.0 - (progress - 2.0) * 0.5
    else 0.0
  }

  /** max(0, 0.5 (p - 1.5)) times the rock's snow coverage. */
  function SnowIntensity(progress: real, coverage: real): (s: real)
    requires coverage >= 0.0
    ensures s >= 0.0
    ensures progress <= 1.5 || coverage == 0.0 ==> s == 0.0
  {
    var ramp := Max(0.0, (progress - 1.5) * 0.5);
    assert ramp * coverage >= 0.0;
    ramp * coverage
  }

  /** Snow only thickens as the page scrolls on. */
  lemma SnowIntensityGrows(p: real, q: real, coverage: real)
    requires coverage >= 0.0 && p <= q
    ensures SnowIntensity(p, coverage) <= SnowIntensity(q, coverage)
  {
    var a := Max(0.0, (p - 1.5) * 0.5);
    var b := Max(0.0, (q - 1.5) * 0.5);
    assert a <= b;
    assert (b - a) * coverage >= 0.0;
    assert SnowIntensity(q, coverage) - SnowIntensity(p, coverage) == (b - a) * coverage;
  }

  /** The three shared rock materials. */
  datatype Shade = BaseShade | WeatheredShade | SnowShade

  /** The material a mesh of a rock gets: snow on the main rock (mesh 0) once the snow intensity
      exceeds 0.3, else weathered when the weathering exceeds 0.7, else base. */
  function ShadeFor(meshIndex: nat, snowIntensity: real, weathering: real): (k: Shade)
    ensures k == SnowShade <==> meshIndex == 0 && snowIntensity > 0.3
    ensures k == WeatheredShade <==> !(meshIndex == 0 && snowIntensity > 0.3) && weathering > 0.7
    ensures k == BaseShade <==> !(meshIndex == 0 && snowIntensity > 0.3) && weathering <= 0.7
  {
    if snowIntensity > 0.3 && meshIndex == 0 then SnowShade
    else if weathering > 0.7 then WeatheredShade
    else BaseShade
  }

  /** Snow never shows on a rock of height 13.6 or less, whatever the scroll: its intensity stays
      at or below 0.3 until the end of the page. */
  lemma LowRocksStayBare(progress: real, height: real)
    requires 0.0 <= progress <= 4.0 && height <= 13.6
    ensures ShadeFor(0, SnowIntensity(progress, SnowCoverage(height)), 0.0) == BaseShade
  {
    var c := SnowCoverage(height);
    assert 0.0 <= c <= 0.24;
    var ramp := Max(0.0, (progress - 1.5) * 0.5);
    assert 0.0 <= ramp / 1.25 <= 1.0;
    MulUnit(ramp / 1.25, c);
    assert SnowIntensity(progress, c) == ramp * c == (ramp / 1.25) * c * 1.25;
    assert SnowIntensity(progress, c) <= 0.3;
  }

  class Material {
    var opacity: real
    var transparent: bool
  }

  /** A mesh under a rock group; material is null for a child without one. */
  class Mesh {
    var material: Material?

    constructor (material: Material?)
      ensures this.material == material
    {
      this.material := material;
    }
  }

  /** The group of one rock: its main mesh first, then its debris, moss and ice meshes. */
  class RockGroup {
    var scale: real
    const meshes: seq<Mesh>

    constructor (meshes: seq<Mesh>)
      ensures this.meshes == meshes && scale == 1.0
    {
      this.meshes := meshes;
      scale := 1.0;
    }
  }

  /** The shared material object of a shade. */
  function Pick(k: Shade, base: Material, weathered: Material, snow: Material): Material {
    match k
    case BaseShade => base
    case WeatheredShade => weathered
    case SnowShade => snow
  }

  ghost function AllMeshes(groups: seq<RockGroup>): set<Mesh> {
    set g, m | g in groups && m in g.meshes :: m
  }

  /** No group appears twice and no mesh sits under two groups or twice under one. */
  predicate Distinct(groups: seq<RockGroup>) {
    && (forall i, j :: 0 <= i < j < |groups| ==> groups[i] != groups[j])
    && (forall i, j, a, b :: 0 <= i < |groups| && 0 <= j < |groups| && 0 <= a < |groups[i].meshes|
          && 0 <= b < |groups[j].meshes| && (i, a) != (j, b)
          ==> groups[i].meshes[a] != groups[j].meshes[b])
  }

  /** The shades the first n meshes of a rock's group take, where holding is the set of meshes
      that held a material when the frame began. */
  function Touched(meshes: seq<Mesh>, holding: set<Mesh>, snowIntensity: real, weathering: real, n: nat): set<Shade>
    requires n <= |meshes|
  {
    set k | 0 <= k < n && meshes[k] in holding :: ShadeFor(k, snowIntensity, weathering)
  }

  /** The shades written during the frame by the first n groups. */
  function Written(rocks: seq<Rock>, groups: seq<RockGroup>, holding: set<Mesh>, progress: real, n: nat): set<Shade>
    requires n <= |rocks| && n <= |groups|
    requires forall i :: 0 <= i < |rocks| ==> rocks[i].snowCoverage >= 0.0
  {
    if n == 0 then {}
    else
      var r := rocks[n - 1];
      var meshes := groups[n - 1].meshes;
      Written(rocks, groups, holding, progress, n - 1) +
        Touched(meshes, holding, SnowIntensity(progress, r.snowCoverage), r.weathering, |meshes|)
  }

  /** The meshes that hold a material. */
  ghost function Holding(groups: seq<RockGroup>): set<Mesh>
    reads AllMeshes(groups)
  {
    set m | m in AllMeshes(groups) && m.material != null
  }

  /** The inner loop over one rock's meshes: each mesh holding a material is given the shared
      material of its shade, and that material then takes the visibility as its opacity. */
  method PaintMeshes(meshes: seq<Mesh>, ghost holding: set<Mesh>, snowIntensity: real, weathering: real,
                     vis: real, base: Material, weathered: Material, snow: Material)
    requires base != weathered && base != snow && weathered != snow
    requires forall j :: 0 <= j < |meshes| ==> (meshes[j] in holding <==> meshes[j].material != null)
    requires forall i, j :: 0 <= i < j < |meshes| ==> meshes[i] != meshes[j]
    modifies (set m | m in meshes), base, weathered, snow
    ensures forall j :: 0 <= j < |meshes| ==>
      meshes[j].material == if meshes[j] in holding
        then Pick(ShadeFor(j, snowIntensity, weathering), base, weathered, snow) else old(meshes[j].material)
    ensures forall s: Shade :: if s in Touched(meshes, holding, snowIntensity, weathering, |meshes|)
      then Pick(s, base, weathered, snow).opacity == vis && Pick(s, base, weathered, snow).transparent == (vis < 1.0)
      else unchanged(Pick(s, base, weathered, snow))
  {
    for k := 0 to |meshes|
      invariant forall j :: 0 <= j < |meshes| ==>
        meshes[j].material == if j < k && meshes[j] in holding
          then Pick(ShadeFor(j, snowIntensity, weathering), base, weathered, snow) else old(meshes[j].material)
      invariant forall s: Shade :: if s in Touched(meshes, holding, snowIntensity, weathering, k)
        then Pick(s, base, weathered, snow).opacity == vis && Pick(s, base, weathered, snow).transparent == (vis < 1.0)
        else unchanged(Pick(s, base, weathered, snow))
    {
      var mesh := meshes[k];
      if mesh.material != null {
        var shade := ShadeFor(k, snowIntensity, weathering);
        var m := Pick(shade, base, weathered, snow);
        mesh.material := m;
        m.opacity := vis;
        m.transparent := vis < 1.0;
        assert Touched(meshes, holding, snowIntensity, weathering, k + 1)
            == Touched(meshes, holding, snowIntensity, weathering, k) + {shade};
      } else {
        assert Touched(meshes, holding, snowIntensity, weathering, k + 1)
            == Touched(meshes, holding, snowIntensity, weathering, k);
      }
    }
  }

  /** The frame loop over the rock groups at the given progress and visibility; holding is the
      set of meshes holding a material when the frame began. */
  method PaintGroups(rocks: seq<Rock>, groups: seq<RockGroup>, ghost holding: set<Mesh>, progress: real, vis: real,
                     base: Material, weathered: Material, snow: Material)
    requires Distinct(groups) && base != weathered && base != snow && weathered != snow
    requires forall i :: 0 <= i < |rocks| ==> rocks[i].snowCoverage >= 0.0
    requires forall m :: m in AllMeshes(groups) ==> (m in holding <==> m.material != null)
    modifies (set g | g in groups), AllMeshes(groups), base, weathered, snow
    ensures forall i :: 0 <= i < |groups| ==>
      groups[i].scale == if i < |rocks| then vis else old(groups[i].scale)
    ensures forall i, k :: 0 <= i < |groups| && 0 <= k < |groups[i].meshes| ==>
      groups[i].meshes[k].material ==
        if i < |rocks| && groups[i].meshes[k] in holding
        then Pick(ShadeFor(k, SnowIntensity(progress, rocks[i].snowCoverage), rocks[i].weathering),
                  base, weathered, snow)
        else old(groups[i].meshes[k].material)
    ensures forall s: Shade ::
      if s in Written(rocks, groups, holding, progress, if |groups| < |rocks| then |groups| else |rocks|)
      then Pick(s, base, weathered, snow).opacity == vis && Pick(s, base, weathered, snow).transparent == (vis < 1.0)
      else unchanged(Pick(s, base, weathered, snow))
  {
    for i := 0 to |groups|
      invariant forall j :: 0 <= j < |groups| ==>
        groups[j].scale == if j < i && j < |rocks| then vis else old(groups[j].scale)
      invariant forall j, k :: 0 <= j < |groups| && 0 <= k < |groups[j].meshes| ==>
        groups[j].meshes[k].material ==
          if j < i && j < |rocks| && groups[j].meshes[k] in holding
          then Pick(ShadeFor(k, SnowIntensity(progress, rocks[j].snowCoverage), rocks[j].weathering),
                    base, weathered, snow)
          else old(groups[j].meshes[k].material)
      invariant forall s: Shade ::
        if s in Written(rocks, groups, holding, progress, if i < |rocks| then i else |rocks|)
        then Pick(s, base, weathered, snow).opacity == vis && Pick(s, base, weathered, snow).transparent == (vis < 1.0)
        else unchanged(Pick(s, base, weathered, snow))
    {
      if i < |rocks| {
        forall k | 0 <= k < |groups[i].meshes|
          ensures groups[i].meshes[k] in AllMeshes(groups)
          ensures groups[i].meshes[k] in holding <==> groups[i].meshes[k].material != null
        {
          var m := groups[i].meshes[k];
          assert groups[i] in groups && m in groups[i].meshes;
        }
        label Before:
        PaintGroup(rocks, groups, i, holding, progress, vis, base, weathered, snow);
        forall j, k | 0 <= j < |groups| && 0 <= k < |groups[j].meshes|
          ensures groups[j].meshes[k].material ==
            if j < i + 1 && j < |rocks| && groups[j].meshes[k] in holding
            then Pick(ShadeFor(k, SnowIntensity(progress, rocks[j].snowCoverage), rocks[j].weathering),
                      base, weathered, snow)
            else old(groups[j].meshes[k].material)
        {
          if j != i || groups[j].meshes[k] !in holding {
            assert groups[j].meshes[k].material == old@Before(groups[j].meshes[k].material);
          }
        }
        assert Written(rocks, groups, holding, progress, i + 1)
            == Written(rocks, groups, holding, progress, i) + Touched(groups[i].meshes, holding,
                 SnowIntensity(progress, rocks[i].snowCoverage), rocks[i].weathering, |groups[i].meshes|);
      }
    }
  }

  /** The body of the frame loop for group i: the group takes the visibility as its scale and
      its meshes are painted; no other group or mesh changes. */
  method PaintGroup(rocks: seq<Rock>, groups: seq<RockGroup>, i: nat, ghost holding: set<Mesh>, progress: real,
                    vis: real, base: Material, weathered: Material, snow: Material)
    requires Distinct(groups) && base != weathered && base != snow && weathered != snow
    requires i < |rocks| && i < |groups| && rocks[i].snowCoverage >= 0.0
    requires forall k :: 0 <= k < |groups[i].meshes| ==>
      (groups[i].meshes[k] in holding <==> groups[i].meshes[k].material != null)
    modifies groups[i], (set m | m in groups[i].meshes), base, weathered, snow
    ensures forall j :: 0 <= j < |groups| ==> groups[j].scale == if j == i then vis else old(groups[j].scale)
    ensures forall j, k :: 0 <= j < |groups| && 0 <= k < |groups[j].meshes| && (j != i || groups[j].meshes[k] !in holding) ==>
      groups[j].meshes[k].material == old(groups[j].meshes[k].material)
    ensures forall k :: 0 <= k < |groups[i].meshes| && groups[i].meshes[k] in holding ==>
      groups[i].meshes[k].material ==
        Pick(ShadeFor(k, SnowIntensity(progress, rocks[i].snowCoverage), rocks[i].weathering), base, weathered, snow)
    ensures forall s: Shade ::
      if s in Touched(groups[i].meshes, holding, SnowIntensity(progress, rocks[i].snowCoverage), rocks[i].weathering, |groups[i].meshes|)
      then Pick(s, base, weathered, snow).opacity == vis && Pick(s, base, weathered, snow).transparent == (vis < 1.0)
      else unchanged(Pick(s, base, weathered, snow))
  {
    var g := groups[i];
    g.scale := vis;
    var rock := rocks[i];
    var intensity := SnowIntensity(progress, rock.snowCoverage);
    forall a, b | 0 <= a < b < |g.meshes|
      ensures g.meshes[a] != g.meshes[b]
    {
      assert (i, a) != (i, b);
    }
    PaintMeshes(g.meshes, holding, intensity, rock.weathering, vis, base, weathered, snow);
    forall j, k | 0 <= j < |groups| && 0 <= k < |groups[j].meshes| && j != i
      ensures groups[j].meshes[k] !in g.meshes
    {
      forall a | 0 <= a < |g.meshes|
        ensures groups[j].meshes[k] != g.meshes[a]
      {
        assert (j, k) != (i, a);
      }
    }
  }

  /** The per-frame callback (mounted is false while the group ref is empty). Group i belongs to
      rock i; groups without a rock are skipped. Every group is scaled by the visibility at
      progress p = 4 offset, every mesh holding a material is given the shared material of its
      shade, and each shared material written takes the visibility as opacity. */
  method Frame(scroll: Option<real>, mounted: bool, rocks: seq<Rock>, groups: seq<RockGroup>,
               base: Material, weathered: Material, snow: Material)
    requires scroll.Some? ==> ValidOffset(scroll.value)
    requires Distinct(groups) && base != weathered && base != snow && weathered != snow
    requires forall i :: 0 <= i < |rocks| ==> rocks[i].snowCoverage >= 0.0
    modifies (set g | g in groups), AllMeshes(groups), base, weathered, snow
    ensures scroll.None? || !mounted ==>
      unchanged(set g | g in groups) && unchanged(AllMeshes(groups)) && unchanged(base, weathered, snow)
    ensures scroll.Some? && mounted ==> forall i :: 0 <= i < |groups| ==>
      groups[i].scale == if i < |rocks| then Visibility(scroll.value * 4.0) else old(groups[i].scale)
    ensures scroll.Some? && mounted ==> forall i, k :: 0 <= i < |groups| && 0 <= k < |groups[i].meshes| ==>
      groups[i].meshes[k].material ==
        if i < |rocks| && old(groups[i].meshes[k].material) != null
        then Pick(ShadeFor(k, SnowIntensity(scroll.value * 4.0, rocks[i].snowCoverage), rocks[i].weathering),
                  base, weathered, snow)
        else old(groups[i].meshes[k].material)
    ensures scroll.Some? && mounted ==> forall s: Shade ::
      if s in Written(rocks, groups, old(Holding(groups)), scroll.value * 4.0,
                      if |groups| < |rocks| then |groups| else |rocks|)
      then Pick(s, base, weathered, snow).opacity == Visibility(scroll.value * 4.0)
        && Pick(s, base, weathered, snow).transparent == (Visibility(scroll.value * 4.0) < 1.0)
      else unchanged(Pick(s, base, weathered, snow))
  {
    if scroll.None? || !mounted {
      return;
    }
    ghost var holding := Holding(groups);
    forall i, k | 0 <= i < |groups| && 0 <= k < |groups[i].meshes|
      ensures groups[i].meshes[k] in holding <==> groups[i].meshes[k].material != null
    {
      var m := groups[i].meshes[k];
      assert m in groups[i].meshes;
      assert m in AllMeshes(groups);
    }
    PaintGroups(rocks, groups, holding, scroll.value * 4.0, Visibility(scroll.value * 4.0), base, weathered, snow);
  }
}
