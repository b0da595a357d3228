/** The ocean scene: wave and sun-reflection tables drawn once at mount, and a frame update
    that fades the water shader, drives its wave uniforms and pulses the reflections and foam. */
module Ocean {
  import opened Common

  /** A wave record; phase is in units of PI. */
  datatype Wave = Wave(position: Vec3, speed: real, amplitude: real, frequency: real, phase: real)

  /** A sun reflection; phase is in units of PI. */
  datatype Reflection = Reflection(position: Vec3, scale: real, phase: real)

  const WaveCount: nat := 20
  const ReflectionCount: nat := 15
  /** Math.random calls per wave: x, z, speed, amplitude, frequency, phase. */
  const WaveDraws: nat := 6
  /** Math.random calls per reflection: x, z, scale, phase. */
  const ReflectionDraws: nat := 4

  predicate WaveInRange(w: Wave) {
    && -100.0 <= w.position.x < 100.0 && w.position.y == 0.0 && -100.0 <= w.position.z < 100.0
    && 0.3 <= w.speed < 0.8 && 0.5 <= w.amplitude < 1.0 && 1.0 <= w.frequency < 3.0
    && 0.0 <= w.phase < 2.0
  }

  predicate ReflectionInRange(r: Reflection) {
    && -50.0 <= r.position.x < 50.0 && r.position.y == 0.1 && -50.0 <= r.position.z < 50.0
    && 1.0 <= r.scale < 3.0 && 0.0 <= r.phase < 2.0
  }

  function WaveFrom(d: seq<real>): (w: Wave)
    requires |d| == WaveDraws && AllDraws(d)
    ensures WaveInRange(w)
  {
    Wave(Vec3((d[0] - 0.5) * 200.0, 0.0, (d[1] - 0.5) * 200.0), d[2] * 0.5 + 0.3, d[3] * 0.5 + 0.5,
         d[4] * 2.0 + 1.0, d[5] * 2.0)
  }

  function ReflectionFrom(d: seq<real>): (r: Reflection)
    requires |d| == ReflectionDraws && AllDraws(d)
    ensures ReflectionInRange(r)
  {
    Reflection(Vec3((d[0] - 0.5) * 100.0, 0.1, (d[1] - 0.5) * 100.0), d[2] * 2.0 + 1.0, d[3] * 2.0)
  }

  /** The waveData table: entry i is built from draws 6i .. 6i + 5. */
  method BuildWaves(draws: seq<real>) returns (waves: seq<Wave>)
    requires |draws| == WaveCount * WaveDraws && AllDraws(draws)
    ensures |waves| == WaveCount
    ensures forall i :: 0 <= i < WaveCount ==>
      waves[i] == WaveFrom(draws[i * WaveDraws .. (i + 1) * WaveDraws]) && WaveInRange(waves[i])
  {
    waves := [];
    var i := 0;
    while i < WaveCount
      invariant 0 <= i <= WaveCount && |waves| == i
      invariant forall k :: 0 <= k < i ==>
        waves[k] == WaveFrom(draws[k * WaveDraws .. (k + 1) * WaveDraws]) && WaveInRange(waves[k])
    {
      waves := waves + [WaveFrom(draws[i * WaveDraws .. (i + 1) * WaveDraws])];
      i := i + 1;
    }
  }

  /** The reflectionData table: entry i is built from draws 4i .. 4i + 3. */
  method BuildReflections(draws: seq<real>) returns (reflections: seq<Reflection>)
    requires |draws| == ReflectionCount * ReflectionDraws && AllDraws(draws)
    ensures |reflections| == ReflectionCount
    ensures forall i :: 0 <= i < ReflectionCount ==>
      reflections[i] == ReflectionFrom(draws[i * ReflectionDraws .. (i + 1) * ReflectionDraws])
      && ReflectionInRange(reflections[i])
  {
    reflections := [];
    var i := 0;
    while i < ReflectionCount
      invariant 0 <= i <= ReflectionCount && |reflections| == i
      invariant forall k :: 0 <= k < i ==>
        reflections[k] == ReflectionFrom(draws[k * ReflectionDraws .. (k + 1) * ReflectionDraws])
        && ReflectionInRange(reflections[k])
    {
      reflections := reflections + [ReflectionFrom(draws[i * ReflectionDraws .. (i + 1) * ReflectionDraws])];
      i := i + 1;
    }
  }

  /** Visibility: 0 before the last quarter of the scroll, then 4 (offset - 0.75) up to 1. */
  function Visibility(offset: real): (v: real)
    requires ValidOffset(offset)
    ensures 0.0 <= v <= 1.0
    ensures v > 0.0 <==> offset > 0.75
    ensures v == 1.0 <==> offset == 1.0
  {
    if offset < 0.75 then 0.0 else (offset - 0.75) * 4.0
  }

  /** The visibility never falls as the scroll advances. */
  lemma VisibilityMonotone(a: real, b: real)
    requires ValidOffset(a) && ValidOffset(b) && a <= b
    ensures Visibility(a) <= Visibility(b)
  {
  }

  /** Wave height 1 + 2 offset and wave frequency 0.5 + 0.3 offset. */
  function WaveHeight(offset: real): (h: real)
    requires ValidOffset(offset)
    ensures 1.0 <= h <= 3.0
    ensures offset == 0.0 ==> h == 1.0
  {
    1.0 + offset * 2.0
  }

  function WaveFrequency(offset: real): (f: real)
    requires ValidOffset(offset)
    ensures 0.5 <= f <= 0.8
    ensures offset == 0.0 ==> f == 0.5
  {
    0.5 + offset * 0.3
  }

  /** A reflection pulses between 0 and 0.6 of the visibility; the sample is sin(3 t + phase). */
  function ReflectionOpacity(vis: real, sinSample: real): (r: real)
    requires 0.0 <= vis <= 1.0 && IsUnit(sinSample)
    ensures 0.0 <= r <= 0.6 * vis
  {
    var pulse := 0.5 + sinSample * 0.5;
    var scaled := vis * 0.6;
    MulUnit(pulse, scaled);
    assert scaled * pulse == pulse * scaled;
    scaled * pulse
  }

  /** A reflection breathes within 20 percent of its own scale; the sample is sin(2 t + phase). */
  function ReflectionScale(scale: real, sinSample: real): (r: real)
    requires IsUnit(sinSample)
    ensures scale >= 0.0 ==> 0.8 * scale <= r <= 1.2 * scale
  {
    var swing := sinSample * 0.2;
    if scale < 0.0 then scale * (1.0 + swing)
    else
      var w := (swing + 0.2) / 0.4;
      MulUnit(w, 0.4 * scale);
      assert scale * (1.0 + swing) == 0.8 * scale + w * (0.4 * scale);
      scale * (1.0 + swing)
  }

  /** The ocean material: its shader uniforms when it has them, else its plain opacity. */
  class OceanMaterial {
    const hasUniforms: bool
    var opacity: real
    var transparency: real
    var time: real
    var cameraPosition: Vec3
    var sunPosition: Vec3
    var waveHeight: real
    var waveFrequency: real

    constructor (hasUniforms: bool)
      ensures this.hasUniforms == hasUniforms
    {
      this.hasUniforms := hasUniforms;
    }
  }

  class Material {
    var opacity: real
  }

  datatype Tag = ReflectionTag | FoamTag | OtherTag

  /** A direct child of the ocean group: its tag, its scale and its own material. */
  class Child {
    const tag: Tag
    var scale: real
    const material: Material

    constructor (tag: Tag, material: Material)
      ensures this.tag == tag && this.material == material
    {
      this.tag, this.material := tag, material;
    }
  }

  /** The rendered order of the group's children: the rain and dust particle systems, the ocean
      surface, then the fifteen reflections, twenty-five foam patches and three islands. */
  const LeadingChildren: nat := 3

  /** As written: child i reads reflectionData[i - 1], on the reading that only the ocean
      surface precedes the reflections; index 0 reads nothing. */
  function ReflectionOfChildAsWritten(i: nat): (k: Option<nat>)
    ensures k.Some? <==> i >= 1
  {
    if i >= 1 then Some(i - 1) else None
  }

  /** Child i shows reflection i - 3: three children precede the reflections. */
  function ReflectionOfChild(i: nat): (k: Option<nat>)
    ensures k.Some? <==> i >= LeadingChildren
    ensures k.Some? ==> k.value + LeadingChildren == i
  {
    if i >= LeadingChildren then Some(i - LeadingChildren) else None
  }

  /** With the rendered layout, reflection mesh j is child 3 + j. As written it reads record
      j + 2, so it is sized and phased by another reflection's record, and the last two meshes
      find no record and never pulse; with the corrected pairing every mesh reads its own. */
  lemma AsWrittenShiftsReflections(j: nat)
    requires j < ReflectionCount
    ensures ReflectionOfChildAsWritten(LeadingChildren + j) == Some(j + 2)
    ensures ReflectionOfChildAsWritten(LeadingChildren + j).value < ReflectionCount
            <==> j < ReflectionCount - 2
    ensures ReflectionOfChild(LeadingChildren + j) == Some(j)
  {
  }

  /** The (scale, opacity) the frame as written gives reflection child i: taken from the record
      at index i - 1, or nothing when there is no such record. */
  function ReflectionAsWritten(data: seq<Reflection>, i: nat, vis: real, pulseSin: real, scaleSin: real)
    : Option<(real, real)>
    requires 0.0 <= vis <= 1.0 && IsUnit(pulseSin) && IsUnit(scaleSin)
  {
    var k := ReflectionOfChildAsWritten(i);
    if k.Some? && k.value < |data| then Some((ReflectionScale(data[k.value].scale, scaleSin), ReflectionOpacity(vis, pulseSin)))
    else None
  }

  /** As written, reflection mesh j is scaled from the record of reflection j + 2 (with that
      record's phase in its samples) for the first thirteen meshes, and the last two never pulse. */
  lemma AsWrittenPulsesAnotherRecord(data: seq<Reflection>, j: nat, vis: real, pulseSin: real, scaleSin: real)
    requires |data| == ReflectionCount && j < ReflectionCount
    requires 0.0 <= vis <= 1.0 && IsUnit(pulseSin) && IsUnit(scaleSin)
    ensures j + 2 < ReflectionCount ==>
      ReflectionAsWritten(data, LeadingChildren + j, vis, pulseSin, scaleSin)
      == Some((ReflectionScale(data[j + 2].scale, scaleSin), ReflectionOpacity(vis, pulseSin)))
    ensures j + 2 >= ReflectionCount ==> ReflectionAsWritten(data, LeadingChildren + j, vis, pulseSin, scaleSin).None?
  {
  }

  /** Whether the frame pulses child i. */
  predicate Pulsed(children: seq<Child>, data: seq<Reflection>, i: nat)
    requires i < |children|
  {
    children[i].tag == ReflectionTag && ReflectionOfChild(i).Some? && ReflectionOfChild(i).value < |data|
  }

  /** Children and their materials are distinct objects: every mesh declares its own material. */
  predicate Distinct(children: seq<Child>) {
    && (forall i, j :: 0 <= i < j < |children| ==> children[i] != children[j])
    && (forall i, j :: 0 <= i < j < |children| ==> children[i].material != children[j].material)
  }

  function Materials(children: seq<Child>): set<Material> {
    set i | 0 <= i < |children| :: children[i].material
  }

  /** Writes the ocean material: the transparency uniform and wave uniforms when it has uniforms,
      else only its opacity. */
  method ApplySurface(ocean: OceanMaterial, offset: real, vis: real, elapsed: real, camera: Vec3)
    requires ValidOffset(offset)
    modifies ocean
    ensures ocean.hasUniforms ==>
      && ocean.transparency == 0.8 * vis && ocean.opacity == old(ocean.opacity)
      && ocean.time == elapsed && ocean.cameraPosition == camera
      && ocean.sunPosition == Vec3(50.0, 50.0, 50.0)
      && ocean.waveHeight == WaveHeight(offset) && ocean.waveFrequency == WaveFrequency(offset)
    ensures !ocean.hasUniforms ==>
      && ocean.opacity == vis * 0.8 && ocean.transparency == old(ocean.transparency)
      && ocean.time == old(ocean.time) && ocean.cameraPosition == old(ocean.cameraPosition)
      && ocean.sunPosition == old(ocean.sunPosition) && ocean.waveHeight == old(ocean.waveHeight)
      && ocean.waveFrequency == old(ocean.waveFrequency)
  {
    if ocean.hasUniforms {
      ocean.transparency := 0.8 * vis;
    } else {
      ocean.opacity := vis * 0.8;
    }
    if ocean.hasUniforms {
      ocean.time := elapsed;
      ocean.cameraPosition := camera;
      ocean.sunPosition := Vec3(50.0, 50.0, 50.0);
      ocean.waveHeight := WaveHeight(offset);
      ocean.waveFrequency := WaveFrequency(offset);
    }
  }

  /** The per-frame callback on the mounted group; pulseSins[i] and scaleSins[i] are the
      samples sin(3 t + phase) and sin(2 t + phase) for the record child i reads. */
  method Frame(scroll: Option<real>, mounted: bool, elapsed: real, camera: Vec3, ocean: OceanMaterial,
               data: seq<Reflection>, children: seq<Child>, pulseSins: seq<real>, scaleSins: seq<real>)
    requires scroll.Some? ==> ValidOffset(scroll.value)
    requires |pulseSins| == |children| && |scaleSins| == |children|
    requires forall i :: 0 <= i < |children| ==> IsUnit(pulseSins[i]) && IsUnit(scaleSins[i])
    requires Distinct(children)
    modifies ocean, (set c | c in children), Materials(children)
    ensures scroll.None? || !mounted ==>
      unchanged(ocean) && unchanged(set c | c in children) && unchanged(Materials(children))
    ensures scroll.Some? && mounted ==> var vis := Visibility(scroll.value);
      && (ocean.hasUniforms ==>
           && ocean.transparency == 0.8 * vis && ocean.time == elapsed && ocean.cameraPosition == camera
           && ocean.sunPosition == Vec3(50.0, 50.0, 50.0)
           && ocean.waveHeight == WaveHeight(scroll.value) && ocean.waveFrequency == WaveFrequency(scroll.value))
      && (!ocean.hasUniforms ==> ocean.opacity == vis * 0.8)
      && forall i :: 0 <= i < |children| ==>
           && children[i].scale == (if Pulsed(children, data, i)
                then ReflectionScale(data[ReflectionOfChild(i).value].scale, scaleSins[i])
                else old(children[i].scale))
           && children[i].material.opacity ==
                (if Pulsed(children, data, i) then ReflectionOpacity(vis, pulseSins[i])
                 else if children[i].tag == FoamTag then vis * 0.4
                 else old(children[i].material.opacity))
  {
    if scroll.None? || !mounted {
      return;
    }
    var offset := scroll.value;
    var vis := Visibility(offset);
    ApplySurface(ocean, offset, vis, elapsed, camera);
    label surface:

    for i := 0 to |children|
      invariant unchanged@surface(ocean)
      invariant forall k :: 0 <= k < i ==>
        && children[k].scale == (if Pulsed(children, data, k)
             then ReflectionScale(data[ReflectionOfChild(k).value].scale, scaleSins[k])
             else old(children[k].scale))
        && children[k].material.opacity ==
             (if Pulsed(children, data, k) then ReflectionOpacity(vis, pulseSins[k])
              else if children[k].tag == FoamTag then vis * 0.4
              else old(children[k].material.opacity))
      invariant forall k :: i <= k < |children| ==>
        children[k].scale == old(children[k].scale) &&
        children[k].material.opacity == old(children[k].material.opacity)
    {
      var child := children[i];
      if child.tag == ReflectionTag {
        var r := ReflectionOfChild(i);
        if r.Some? && r.value < |data| {
          child.material.opacity := ReflectionOpacity(vis, pulseSins[i]);
          child.scale := ReflectionScale(data[r.value].scale, scaleSins[i]);
        }
      }
      if child.tag == FoamTag {
        child.material.opacity := vis * 0.4;
      }
    }
  }
}
