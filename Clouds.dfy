/** The cloud scene: twelve clouds of four to seven puffs drawn once at mount, and a frame
    update that fades the cloud shader, floats each cloud around its base and fades the puffs
    and light rays. */
module Clouds {
  import opened Common

  datatype CloudPart = CloudPart(position: Vec3, scale: real, opacity: real)

  /** A cloud; phase is in units of PI. */
  datatype Cloud = Cloud(id: nat, position: Vec3, parts: seq<CloudPart>, speed: real, phase: real)

  const CloudCount: nat := 12
  /** Math.random calls per puff: x, y, z, scale, opacity. */
  const PartDraws: nat := 5
  /** The most draws one cloud can take: its puff count, seven puffs, then x, y, z, speed, phase. */
  const MaxCloudDraws: nat := 1 + 7 * 5 + 5

  /** 4 + floor(4 r): four to seven puffs. */
  function PartCount(r: real): (n: nat)
    requires IsDraw(r)
    ensures 4 <= n <= 7
  {
    4 + FloorNat(r * 4.0)
  }

  predicate PartInRange(p: CloudPart) {
    && -4.0 <= p.position.x < 4.0 && -1.5 <= p.position.y < 1.5 && -4.0 <= p.position.z < 4.0
    && 1.5 <= p.scale < 3.5 && 0.6 <= p.opacity < 0.9
  }

  predicate CloudInRange(c: Cloud) {
    && 4 <= |c.parts| <= 7
    && (forall j :: 0 <= j < |c.parts| ==> PartInRange(c.parts[j]))
    && -75.0 <= c.position.x < 75.0 && 35.0 <= c.position.y < 65.0 && -75.0 <= c.position.z < 75.0
    && 0.1 <= c.speed < 0.3 && 0.0 <= c.phase < 2.0
  }

  function PartFrom(d: seq<real>): (p: CloudPart)
    requires |d| == PartDraws && AllDraws(d)
    ensures PartInRange(p)
  {
    CloudPart(Vec3((d[0] - 0.5) * 8.0, (d[1] - 0.5) * 3.0, (d[2] - 0.5) * 8.0), d[3] * 2.0 + 1.5, d[4] * 0.3 + 0.6)
  }

  /** Where the draws of the cloud starting at draw `at` end. */
  function NextAt(draws: seq<real>, at: nat): (next: nat)
    requires at < |draws| && AllDraws(draws)
    ensures at < next <= at + MaxCloudDraws
  {
    at + 1 + PartCount(draws[at]) * 5 + 5
  }

  /** Puff j of a cloud whose draws start at `at`. */
  function PartOf(draws: seq<real>, at: nat, j: nat): CloudPart
    requires AllDraws(draws) && at + 1 + (j + 1) * 5 <= |draws|
  {
    PartFrom(draws[at + 1 + j * 5 .. at + 1 + (j + 1) * 5])
  }

  /** The first n puffs of a cloud whose draws start at `at`, in draw order. */
  function Parts(draws: seq<real>, at: nat, n: nat): (ps: seq<CloudPart>)
    requires AllDraws(draws) && at + 1 + n * 5 <= |draws|
    ensures |ps| == n && forall j :: 0 <= j < n ==> PartInRange(ps[j])
  {
    if n == 0 then [] else Parts(draws, at, n - 1) + [PartOf(draws, at, n - 1)]
  }

  /** The cloud whose draws start at `at`, in call order: puff count, puffs, position, speed, phase. */
  function CloudAt(draws: seq<real>, at: nat, id: nat): (c: Cloud)
    requires AllDraws(draws) && at + MaxCloudDraws <= |draws|
    ensures CloudInRange(c) && c.id == id
  {
    var n := PartCount(draws[at]);
    var b := at + 1 + n * 5;
    Cloud(id, Vec3((draws[b] - 0.5) * 150.0, draws[b + 1] * 30.0 + 35.0, (draws[b + 2] - 0.5) * 150.0),
          Parts(draws, at, n), draws[b + 3] * 0.2 + 0.1, draws[b + 4] * 2.0)
  }

  /** Where the draws of cloud i begin: each cloud starts where the one before it ended. */
  function CloudStart(draws: seq<real>, i: nat): (at: nat)
    requires AllDraws(draws) && i * 41 <= |draws|
    ensures at <= i * 41
  {
    if i == 0 then 0 else NextAt(draws, CloudStart(draws, i - 1))
  }

  /** One iteration of the outer loop: the puff loop, then the cloud record. */
  method BuildCloud(draws: seq<real>, at: nat, id: nat) returns (cloud: Cloud)
    requires AllDraws(draws) && at + MaxCloudDraws <= |draws|
    ensures cloud == CloudAt(draws, at, id)
  {
    var n := PartCount(draws[at]);
    var parts: seq<CloudPart> := [];
    var j := 0;
    while j < n
      invariant 0 <= j <= n && |parts| == j
      invariant parts == Parts(draws, at, j)
    {
      var p := at + 1 + j * 5;
      var part := PartFrom(draws[p .. p + 5]);
      assert part == PartOf(draws, at, j);
      parts := parts + [part];
      j := j + 1;
    }
    var b := at + 1 + n * 5;
    cloud := Cloud(id, Vec3((draws[b] - 0.5) * 150.0, draws[b + 1] * 30.0 + 35.0, (draws[b + 2] - 0.5) * 150.0),
                   parts, draws[b + 3] * 0.2 + 0.1, draws[b + 4] * 2.0);
  }

  /** Clouds 0 .. |clouds| - 1 are the ones the draws describe, each starting where the last ended. */
  ghost predicate Built(draws: seq<real>, clouds: seq<Cloud>)
    requires AllDraws(draws) && |clouds| * 41 <= |draws|
  {
    forall k :: 0 <= k < |clouds| ==> clouds[k] == CloudAt(draws, CloudStart(draws, k), k)
  }

  /** One pass of the outer loop: cloud i is drawn from `at` and appended. */
  method AppendCloud(draws: seq<real>, clouds: seq<Cloud>, at: nat) returns (more: seq<Cloud>, next: nat)
    requires AllDraws(draws) && (|clouds| + 1) * 41 <= |draws|
    requires at == CloudStart(draws, |clouds|) && Built(draws, clouds)
    ensures |more| == |clouds| + 1 && next == CloudStart(draws, |more|) && Built(draws, more)
  {
    var cloud := BuildCloud(draws, at, |clouds|);
    more := clouds + [cloud];
    next := NextAt(draws, at);
  }

  /** The cloudData table: an outer loop over clouds and an inner loop over each cloud's puffs. */
  method BuildClouds(draws: seq<real>) returns (clouds: seq<Cloud>)
    requires |draws| >= 12 * 41 && AllDraws(draws)
    ensures |clouds| == CloudCount
    ensures forall i :: 0 <= i < CloudCount ==> clouds[i] == CloudAt(draws, CloudStart(draws, i), i)
  {
    clouds := [];
    var at: nat := 0;
    while |clouds| < CloudCount
      invariant |clouds| <= CloudCount && at == CloudStart(draws, |clouds|) && Built(draws, clouds)
    {
      clouds, at := AppendCloud(draws, clouds, at);
    }
  }

  /** Visibility: rises over [0.5, 0.75], falls over [0.75, 1), and is 0 at the very end. */
  function Visibility(offset: real): (v: real)
    requires ValidOffset(offset)
    ensures 0.0 <= v <= 1.0
    ensures v > 0.0 <==> 0.5 < offset < 1.0
    ensures v == 1.0 <==> offset == 0.75
  {
    if offset < 0.5 then 0.0
    else if offset < 0.75 then (offset - 0.5) * 4.0
    else if offset < 1.0 then 1.0 - (offset - 0.75) * 4.0
    else 0.0
  }

  function Density(offset: real): (d: real)
    requires ValidOffset(offset)
    ensures 0.8 <= d <= 1.2
  {
    0.8 + offset * 0.4
  }

  /** The wind direction (1, 0, 0.5 + offset): always blowing along +x, turning toward +z. */
  function Wind(offset: real): (w: Vec3)
    requires ValidOffset(offset)
    ensures w.x == 1.0 && w.y == 0.0 && 0.5 <= w.z <= 1.5
  {
    Vec3(1.0, 0.0, 0.5 + offset)
  }

  /** A cloud floats around its base by at most 5, 2 and 3 units; the samples are
      sin(t s + phase), sin(t s / 2 + phase) and cos(t s + phase) for its speed s. */
  function Float(base: Vec3, sample: Vec3): (p: Vec3)
    requires IsUnit(sample.x) && IsUnit(sample.y) && IsUnit(sample.z)
    ensures -5.0 <= p.x - base.x <= 5.0 && -2.0 <= p.y - base.y <= 2.0 && -3.0 <= p.z - base.z <= 3.0
  {
    Vec3(base.x + sample.x * 5.0, base.y + sample.y * 2.0, base.z + sample.z * 3.0)
  }

  /** A light ray's opacity: visibility * 0.3 * (0.5 + sin(2 t) * 0.5), at most 0.3 of it. */
  function RayOpacity(vis: real, sinSample: real): (r: real)
    requires 0.0 <= vis <= 1.0 && IsUnit(sinSample)
    ensures 0.0 <= r <= 0.3 * vis
  {
    var pulse := 0.5 + sinSample * 0.5;
    var scaled := vis * 0.3;
    MulUnit(pulse, scaled);
    assert pulse * scaled == scaled * pulse;
    scaled * pulse
  }

  /** The cloud shader's uniforms. */
  class CloudUniforms {
    var time: real
    var opacity: real
    var density: real
    var sunPosition: Vec3
    var cameraPosition: Vec3
    var wind: Vec3
  }

  class Material {
    var opacity: real
  }

  datatype Tag = CloudTag | LightRayTag | OtherTag

  /** A direct child of the clouds group: its tag, its own material (meshes) and the materials of
      its children (the puffs of a cloud group). */
  class Child {
    const tag: Tag
    var position: Vec3
    const material: Material?
    const parts: seq<Material>

    constructor (tag: Tag, material: Material?, parts: seq<Material>)
      ensures this.tag == tag && this.material == material && this.parts == parts
    {
      this.tag, this.material, this.parts := tag, material, parts;
    }
  }

  /** The rendered order of the group's children: two particle systems, the twelve cloud groups,
      eight light rays, thirty small puffs. */
  const LeadingChildren: nat := 2

  /** As written: a 'cloud' child at index i reads cloudData[i]. */
  function CloudOfChildAsWritten(i: nat): nat {
    i
  }

  /** The cloud groups follow the two particle systems, so child i shows cloud i - 2. */
  function CloudOfChild(i: nat): (k: Option<nat>)
    ensures k.Some? <==> i >= LeadingChildren
    ensures k.Some? ==> k.value + LeadingChildren == i
  {
    if i >= LeadingChildren then Some(i - LeadingChildren) else None
  }

  /** With the rendered layout the cloud groups sit at children 2..13. As written, cloud group j
      reads the record of cloud j + 2, and the last two groups find no record and never move or
      fade; with the corrected pairing every group reads its own record. */
  lemma AsWrittenSkipsLastClouds(j: nat)
    requires j < CloudCount
    ensures CloudOfChildAsWritten(LeadingChildren + j) < CloudCount <==> j < CloudCount - LeadingChildren
    ensures CloudOfChild(LeadingChildren + j) == Some(j)
  {
  }

  /** Where the frame as written floats cloud group child i: around the base of the record at
      index i, or nowhere (the group stays put) when there is no such record. */
  function PositionAsWritten(data: seq<Cloud>, i: nat, sample: Vec3): Option<Vec3>
    requires IsUnit(sample.x) && IsUnit(sample.y) && IsUnit(sample.z)
  {
    var k := CloudOfChildAsWritten(i);
    if k < |data| then Some(Float(data[k].position, sample)) else None
  }

  /** As written, cloud group j floats around the base position of cloud j + 2 for the first ten
      groups, and the last two are never moved. */
  lemma AsWrittenFloatsAnotherCloud(data: seq<Cloud>, j: nat, sample: Vec3)
    requires |data| == CloudCount && j < CloudCount
    requires IsUnit(sample.x) && IsUnit(sample.y) && IsUnit(sample.z)
    ensures j + LeadingChildren < CloudCount ==>
      PositionAsWritten(data, LeadingChildren + j, sample) == Some(Float(data[j + LeadingChildren].position, sample))
    ensures j + LeadingChildren >= CloudCount ==> PositionAsWritten(data, LeadingChildren + j, sample).None?
  {
  }

  /** Whether the frame moves and fades child i. */
  predicate Animated(children: seq<Child>, data: seq<Cloud>, i: nat)
    requires i < |children|
  {
    children[i].tag == CloudTag && CloudOfChild(i).Some? && CloudOfChild(i).value < |data|
  }

  /** All materials of all children are distinct objects: puffs get cloned materials and every
      ray its own. */
  predicate MaterialsDistinct(children: seq<Child>) {
    && (forall i, j :: 0 <= i < j < |children| ==> children[i] != children[j])
    && (forall i, j, a, b ::
          (0 <= i < |children| && 0 <= j < |children| && 0 <= a < |children[i].parts| &&
           0 <= b < |children[j].parts| && (i != j || a != b)) ==> children[i].parts[a] != children[j].parts[b])
    && (forall i, j, b :: 0 <= i < |children| && 0 <= j < |children| && 0 <= b < |children[j].parts|
          ==> children[i].material != children[j].parts[b])
    && (forall i, j :: 0 <= i < j < |children| && children[i].material != null ==> children[i].material != children[j].material)
  }

  function AllMaterials(children: seq<Child>): set<object> {
    (set i, a | 0 <= i < |children| && 0 <= a < |children[i].parts| :: children[i].parts[a])
    + (set i | 0 <= i < |children| && children[i].material != null :: children[i].material as object)
  }

  /** Sets every puff material of one cloud group. */
  method FadeParts(parts: seq<Material>, value: real)
    requires forall a, b :: 0 <= a < b < |parts| ==> parts[a] != parts[b]
    modifies set a | 0 <= a < |parts| :: parts[a]
    ensures forall a :: 0 <= a < |parts| ==> parts[a].opacity == value
  {
    for a := 0 to |parts|
      invariant forall k :: 0 <= k < a ==> parts[k].opacity == value
    {
      parts[a].opacity := value;
    }
  }

  /** The frame's work on child i: a cloud group floats and its puffs fade, a light ray fades;
      no other child changes. */
  method AnimateChild(children: seq<Child>, data: seq<Cloud>, floats: seq<Vec3>, raySin: real, vis: real, i: nat)
    requires i < |children| && |floats| == |children| && IsUnit(raySin) && 0.0 <= vis <= 1.0
    requires IsUnit(floats[i].x) && IsUnit(floats[i].y) && IsUnit(floats[i].z)
    requires MaterialsDistinct(children)
    requires children[i].tag == LightRayTag ==> children[i].material != null
    modifies children[i], (set a | 0 <= a < |children[i].parts| :: children[i].parts[a])
    modifies if children[i].material != null then {children[i].material} else {}
    ensures children[i].position == (if Animated(children, data, i)
      then Float(data[CloudOfChild(i).value].position, floats[i]) else old(children[i].position))
    ensures forall a :: 0 <= a < |children[i].parts| ==>
      children[i].parts[a].opacity == (if Animated(children, data, i) then vis * 0.8 else old(children[i].parts[a].opacity))
    ensures children[i].material != null ==>
      children[i].material.opacity == (if children[i].tag == LightRayTag
        then RayOpacity(vis, raySin) else old(children[i].material.opacity))
    ensures forall k :: 0 <= k < |children| && k != i ==>
      && children[k].position == old(children[k].position)
      && (forall a :: 0 <= a < |children[k].parts| ==> children[k].parts[a].opacity == old(children[k].parts[a].opacity))
      && (children[k].material != null ==> children[k].material.opacity == old(children[k].material.opacity))
  {
    var child := children[i];
    if Animated(children, data, i) {
      child.position := Float(data[CloudOfChild(i).value].position, floats[i]);
      FadeParts(child.parts, vis * 0.8);
    }
    if child.tag == LightRayTag {
      child.material.opacity := RayOpacity(vis, raySin);
    }
  }

  /** The per-frame callback on the mounted group. floats[i] are the three floating samples for
      child i, raySin is sin(2 t). */
  method Frame(scroll: Option<real>, mounted: bool, elapsed: real, camera: Vec3, data: seq<Cloud>,
               uniforms: CloudUniforms?, children: seq<Child>, floats: seq<Vec3>, raySin: real)
    requires scroll.Some? ==> ValidOffset(scroll.value)
    requires |floats| == |children| && IsUnit(raySin)
    requires forall i :: 0 <= i < |floats| ==> IsUnit(floats[i].x) && IsUnit(floats[i].y) && IsUnit(floats[i].z)
    requires MaterialsDistinct(children)
    requires forall i :: 0 <= i < |children| && children[i].tag == LightRayTag ==> children[i].material != null
    modifies uniforms, (set c | c in children), AllMaterials(children)
    ensures scroll.None? || !mounted ==>
      (uniforms != null ==> unchanged(uniforms)) && unchanged(set c | c in children) && unchanged(AllMaterials(children))
    ensures scroll.Some? && mounted && uniforms != null ==>
      && uniforms.time == elapsed && uniforms.opacity == Visibility(scroll.value)
      && uniforms.density == Density(scroll.value) && uniforms.sunPosition == Vec3(50.0, 50.0, 50.0)
      && uniforms.cameraPosition == camera && uniforms.wind == Wind(scroll.value)
    ensures scroll.Some? && mounted ==> forall i :: 0 <= i < |children| ==>
      && children[i].position == (if Animated(children, data, i)
           then Float(data[CloudOfChild(i).value].position, floats[i]) else old(children[i].position))
      && (forall a :: 0 <= a < |children[i].parts| ==>
           children[i].parts[a].opacity == (if Animated(children, data, i)
             then Visibility(scroll.value) * 0.8 else old(children[i].parts[a].opacity)))
      && (children[i].material != null ==>
           children[i].material.opacity == (if children[i].tag == LightRayTag
             then RayOpacity(Visibility(scroll.value), raySin) else old(children[i].material.opacity)))
  {
    if scroll.None? || !mounted {
      return;
    }
    var offset := scroll.value;
    var vis := Visibility(offset);
    if uniforms != null {
      uniforms.time := elapsed;
      uniforms.opacity := vis;
      uniforms.density := Density(offset);
      uniforms.sunPosition := Vec3(50.0, 50.0, 50.0);
      uniforms.cameraPosition := camera;
      uniforms.wind := Wind(offset);
    }
    for i := 0 to |children|
      invariant scroll.Some? && uniforms != null ==>
        && uniforms.time == elapsed && uniforms.opacity == vis && uniforms.density == Density(offset)
        && uniforms.sunPosition == Vec3(50.0, 50.0, 50.0) && uniforms.cameraPosition == camera
        && uniforms.wind == Wind(offset)
      invariant forall k :: 0 <= k < i ==>
        && children[k].position == (if Animated(children, data, k)
             then Float(data[CloudOfChild(k).value].position, floats[k]) else old(children[k].position))
        && (forall a :: 0 <= a < |children[k].parts| ==>
             children[k].parts[a].opacity == (if Animated(children, data, k)
               then vis * 0.8 else old(children[k].parts[a].opacity)))
        && (children[k].material != null ==>
             children[k].material.opacity == (if children[k].tag == LightRayTag
               then RayOpacity(vis, raySin) else old(children[k].material.opacity)))
      invariant forall k :: i <= k < |children| ==>
        && children[k].position == old(children[k].position)
        && (forall a :: 0 <= a < |children[k].parts| ==> children[k].parts[a].opacity == old(children[k].parts[a].opacity))
        && (children[k].material != null ==> children[k].material.opacity == old(children[k].material.opacity))
    {
      AnimateChild(children, data, floats, raySin, vis, i);
    }
  }
}
