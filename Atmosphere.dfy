/** The sky sphere and the ground fog: shader uniforms rewritten every frame from
    progress = 4 * offset, with the same four-way scene split as post-processing. */
module Atmosphere {
  import opened Common
  import PostProcessing

  /** A colour as the integer passed to setHex. */
  type Hex = nat

  datatype Palette = Palette(horizon: Hex, zenith: Hex, atmosphere: Hex)

  function Progress(offset: real): (p: real)
    requires ValidOffset(offset)
    ensures 0.0 <= p <= 4.0
    ensures offset == 1.0 ==> p == 4.0
  {
    offset * 4.0
  }

  /** The sun moves in a ring of radius 20 around (50, ., 50) while it rises from 20 to 140;
      sinSample and cosSample are sin and cos of progress / 2. */
  function SunPosition(progress: real, sinSample: real, cosSample: real): (sun: Vec3)
    requires 0.0 <= progress <= 4.0 && IsUnit(sinSample) && IsUnit(cosSample)
    ensures 20.0 <= sun.y <= 140.0
    ensures 30.0 <= sun.x <= 70.0 && 30.0 <= sun.z <= 70.0
    ensures progress == 0.0 ==> sun.y == 20.0
  {
    Vec3(50.0 + sinSample * 20.0, 20.0 + progress * 30.0, 50.0 + cosSample * 20.0)
  }

  /** Warm morning, cooler mountains, bright daylight, sunset over the ocean. */
  function SkyPalette(progress: real): (c: Palette)
  {
    if progress < 1.0 then Palette(0xFFE4B5, 0x87CEEB, 0xF0F8FF)
    else if progress < 2.0 then Palette(0xDDA0DD, 0x4169E1, 0xE6E6FA)
    else if progress < 3.0 then Palette(0xFFFACD, 0x00BFFF, 0xF5F5F5)
    else Palette(0xFF6347, 0x191970, 0xFFE4E1)
  }

  function SkyPaletteOf(scene: PostProcessing.SceneName): Palette {
    match scene
    case Valley => Palette(0xFFE4B5, 0x87CEEB, 0xF0F8FF)
    case Mountains => Palette(0xDDA0DD, 0x4169E1, 0xE6E6FA)
    case Clouds => Palette(0xFFFACD, 0x00BFFF, 0xF5F5F5)
    case Ocean => Palette(0xFF6347, 0x191970, 0xFFE4E1)
  }

  /** The fog colour, on the same thresholds as the sky palette. */
  function FogColor(progress: real): (c: Hex)
  {
    if progress < 1.0 then 0xF5F5F5
    else if progress < 2.0 then 0xE0E0E0
    else if progress < 3.0 then 0xFFFFFF
    else 0xFFF8DC
  }

  function FogColorOf(scene: PostProcessing.SceneName): Hex {
    match scene
    case Valley => 0xF5F5F5
    case Mountains => 0xE0E0E0
    case Clouds => 0xFFFFFF
    case Ocean => 0xFFF8DC
  }

  /** The sky's "< 1, < 2, < 3, else" chain and post-processing's ">= 3, >= 2, >= 1, else" chain
      split progress identically: sky and fog colours always belong to the scene whose effect
      profile is active. */
  lemma ColoursFollowScene(progress: real)
    requires 0.0 <= progress <= 4.0
    ensures SkyPalette(progress) == SkyPaletteOf(PostProcessing.Select(progress).scene)
    ensures FogColor(progress) == FogColorOf(PostProcessing.Select(progress).scene)
  {
    if progress < 1.0 {
      assert PostProcessing.Select(progress).scene == PostProcessing.Valley;
    } else if progress < 2.0 {
      assert PostProcessing.Select(progress).scene == PostProcessing.Mountains;
    } else if progress < 3.0 {
      assert PostProcessing.Select(progress).scene == PostProcessing.Clouds;
    } else {
      assert PostProcessing.Select(progress).scene == PostProcessing.Ocean;
    }
  }

  /** Sky fog density 0.5 + 0.3 p, scattering 0.8 + 0.4 p, sun intensity 1 + 0.5 p: each grows
      linearly from its valley value. */
  function SkyFogDensity(progress: real): (r: real)
    requires 0.0 <= progress <= 4.0
    ensures 0.5 <= r <= 1.7
    ensures progress == 0.0 ==> r == 0.5
    ensures progress == 4.0 ==> r == 1.7
  {
    0.5 + progress * 0.3
  }

  /** The sky fog thickens as the story goes on: a later progress never gives a thinner sky. */
  lemma SkyFogThickens(a: real, b: real)
    requires 0.0 <= a < b <= 4.0
    ensures SkyFogDensity(a) < SkyFogDensity(b)
  {
  }

  function Scattering(progress: real): (r: real)
    requires 0.0 <= progress <= 4.0
    ensures 0.8 <= r <= 2.4
  {
    0.8 + progress * 0.4
  }

  function SunIntensity(progress: real): (r: real)
    requires 0.0 <= progress <= 4.0
    ensures 1.0 <= r <= 3.0
  {
    1.0 + progress * 0.5
  }

  /** Ground fog: fading valley fog below 1, a cloud-layer fog growing on [2,3), none elsewhere. */
  function FogOpacity(progress: real): (r: real)
    requires 0.0 <= progress <= 4.0
    ensures 0.0 <= r <= 0.3
    ensures r == 0.0 <==> (1.0 <= progress <= 2.0 || 3.0 <= progress)
    ensures progress >= 1.0 ==> r < 0.2
  {
    if progress < 1.0 then 0.3 * (1.0 - progress)
    else if progress >= 2.0 && progress < 3.0 then 0.2 * (progress - 2.0)
    else 0.0
  }

  /** The cloud-layer fog is cut off at 3: just below it the opacity approaches 0.2, at 3 it is 0. */
  lemma FogCutAtOcean(eps: real)
    requires 0.0 < eps <= 1.0
    ensures FogOpacity(3.0 - eps) == 0.2 - 0.2 * eps
    ensures FogOpacity(3.0) == 0.0
  {
  }

  function FogLayerDensity(progress: real): (r: real)
    requires 0.0 <= progress <= 4.0
    ensures 1.0 <= r <= 3.0
  {
    1.0 + progress * 0.5
  }

  /** The sky sphere's shader uniforms. */
  class SkyMaterial {
    var time: real
    var cameraPosition: Vec3
    var sunPosition: Vec3
    var colours: Palette
    var fogDensity: real
    var scattering: real
    var sunIntensity: real
  }

  /** The ground fog's shader uniforms. */
  class FogMaterial {
    var time: real
    var cameraPosition: Vec3
    var sunPosition: Vec3
    var opacity: real
    var density: real
    var colour: Hex
  }

  /** The fog plane mesh; rotationX is in units of PI. */
  class FogPlane {
    var y: real
    var rotationX: real
  }

  /** The per-frame callback. Both materials are built once at mount and always carry uniforms;
      the fog plane is null while its mesh is not mounted. sinSample and cosSample are sin and
      cos of progress / 2. */
  method Frame(scroll: Option<real>, elapsed: real, camera: Vec3, sinSample: real, cosSample: real,
               sky: SkyMaterial, fog: FogMaterial, plane: FogPlane?)
    requires scroll.Some? ==> ValidOffset(scroll.value)
    requires IsUnit(sinSample) && IsUnit(cosSample)
    modifies sky, fog, plane
    ensures scroll.None? ==> unchanged(sky, fog) && (plane != null ==> unchanged(plane))
    ensures scroll.Some? ==> var p := Progress(scroll.value);
      && sky.time == elapsed && sky.cameraPosition == camera
      && sky.sunPosition == SunPosition(p, sinSample, cosSample)
      && sky.colours == SkyPalette(p)
      && sky.fogDensity == SkyFogDensity(p) && sky.scattering == Scattering(p)
      && sky.sunIntensity == SunIntensity(p)
      && fog.time == elapsed && fog.cameraPosition == camera
      && fog.sunPosition == sky.sunPosition
      && fog.opacity == FogOpacity(p) && fog.density == FogLayerDensity(p)
      && fog.colour == FogColor(p)
    ensures scroll.Some? && plane != null ==> plane.y == -5.0 && plane.rotationX == -0.5
  {
    if scroll.None? {
      return;
    }
    var p := Progress(scroll.value);

    sky.time := elapsed;
    sky.cameraPosition := camera;
    sky.sunPosition := SunPosition(p, sinSample, cosSample);
    sky.colours := SkyPalette(p);
    sky.fogDensity := SkyFogDensity(p);
    sky.scattering := Scattering(p);
    sky.sunIntensity := SunIntensity(p);

    fog.time := elapsed;
    fog.cameraPosition := camera;
    fog.sunPosition := sky.sunPosition;
    fog.opacity := FogOpacity(p);
    fog.density := FogLayerDensity(p);
    fog.colour := FogColor(p);

    if plane != null {
      plane.y := -5.0;
      plane.rotationX := -0.5;
    }
  }
}
