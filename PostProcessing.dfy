/** Post-processing: a constant table of four effect profiles, one per scene, selected by a hard
    cut on progress = 4 * offset and written into whichever effect objects are mounted. */
module PostProcessing {
  import opened Common

  datatype SceneName = Valley | Mountains | Clouds | Ocean

  datatype Profile = Profile(
    bloomIntensity: real, luminanceThreshold: real, luminanceSmoothing: real,
    focusDistance: real, focalLength: real, bokehScale: real,
    vignetteOffset: real, darkness: real,
    chromaticX: real, chromaticY: real,
    brightness: real, contrast: real,
    hue: real, saturation: real,
    flareIntensity: real, flareSize: real,
    raysIntensity: real, raysDensity: real)

  /** The sceneEffects table; a constant, so no frame can alter it. Every profile stays inside
      the ranges its effects accept: thresholds and darkness within [0,1], colour adjustments
      within [-1,1]. */
  function Effects(scene: SceneName): (p: Profile)
    ensures 0.0 < p.bloomIntensity && 0.0 < p.bokehScale && 0.0 < p.raysDensity < 1.0
    ensures 0.0 < p.luminanceThreshold < 1.0 && 0.0 < p.luminanceSmoothing < 1.0
    ensures 0.0 <= p.vignetteOffset <= 1.0 && 0.0 <= p.darkness <= 1.0
    ensures -1.0 <= p.brightness <= 1.0 && -1.0 <= p.contrast <= 1.0
    ensures -1.0 <= p.hue <= 1.0 && -1.0 <= p.saturation <= 1.0
  {
    match scene
    case Valley => Profile(0.8, 0.9, 0.4, 0.02, 0.05, 3.0, 0.3, 0.5, 0.001, 0.001,
                           0.1, 0.1, 0.05, 0.2, 0.3, 0.08, 0.2, 0.7)
    case Mountains => Profile(1.2, 0.8, 0.5, 0.05, 0.08, 4.0, 0.2, 0.6, 0.002, 0.001,
                              0.05, 0.15, -0.02, 0.1, 0.6, 0.12, 0.4, 0.8)
    case Clouds => Profile(1.8, 0.6, 0.7, 0.1, 0.12, 6.0, 0.1, 0.4, 0.003, 0.002,
                           0.2, 0.2, 0.1, -0.1, 1.0, 0.15, 0.8, 0.9)
    case Ocean => Profile(1.5, 0.7, 0.6, 0.08, 0.1, 5.0, 0.25, 0.7, 0.001, 0.002,
                          -0.05, 0.25, -0.05, 0.3, 0.8, 0.1, 0.6, 0.85)
  }

  /** The clouds profile is the most luminous of the four: the strongest bloom, flare and god
      rays, and the lowest bloom threshold. */
  lemma CloudsMostLuminous(scene: SceneName)
    ensures Effects(scene).bloomIntensity <= Effects(Clouds).bloomIntensity
    ensures Effects(scene).flareIntensity <= Effects(Clouds).flareIntensity
    ensures Effects(scene).raysIntensity <= Effects(Clouds).raysIntensity
    ensures Effects(Clouds).luminanceThreshold <= Effects(scene).luminanceThreshold
  {
  }

  /** The lower bound of each scene's quarter on the progress axis. */
  function LowerBound(scene: SceneName): (b: real)
    ensures 0.0 <= b <= 3.0
  {
    match scene
    case Valley => 0.0
    case Mountains => 1.0
    case Clouds => 2.0
    case Ocean => 3.0
  }

  datatype Selection = Selection(scene: SceneName, sceneProgress: real)

  /** The if-chain on progress: ocean from 3, clouds from 2, mountains from 1, else valley. */
  function Select(progress: real): (s: Selection)
    requires 0.0 <= progress <= 4.0
    ensures LowerBound(s.scene) <= progress
    ensures s.sceneProgress == progress - LowerBound(s.scene)
    ensures 0.0 <= s.sceneProgress <= 1.0
    ensures s.sceneProgress == 1.0 ==> progress == 4.0
  {
    if progress >= 3.0 then Selection(Ocean, progress - 3.0)
    else if progress >= 2.0 then Selection(Clouds, progress - 2.0)
    else if progress >= 1.0 then Selection(Mountains, progress - 1.0)
    else Selection(Valley, progress)
  }

  /** The selected scene is the one whose quarter [b, b + 1) holds the progress, with the
      ocean's quarter closed at 4; so each progress has exactly one scene. */
  lemma SelectIsQuarter(progress: real, scene: SceneName)
    requires 0.0 <= progress <= 4.0
    ensures Select(progress).scene == scene <==>
      LowerBound(scene) <= progress && (progress < LowerBound(scene) + 1.0 || scene == Ocean)
  {
    match scene
    case Valley =>
    case Mountains =>
    case Clouds =>
    case Ocean =>
  }

  /** Scenes never go backwards as the scroll advances. */
  lemma SelectMonotone(p: real, q: real)
    requires 0.0 <= p <= q <= 4.0
    ensures LowerBound(Select(p).scene) <= LowerBound(Select(q).scene)
  {
  }

  /** No blending: at every boundary the written profile switches whole, and adjacent
      profiles differ (their bloom intensities differ). */
  lemma HardCut(k: nat, eps: real)
    requires 1 <= k <= 3 && 0.0 < eps <= 1.0
    ensures var before := Select(k as real - eps).scene;
            var at := Select(k as real).scene;
            LowerBound(before) == (k - 1) as real && LowerBound(at) == k as real
            && Effects(before).bloomIntensity != Effects(at).bloomIntensity
  {
    var before := Select(k as real - eps).scene;
    var at := Select(k as real).scene;
    if k == 1 {
      assert before == Valley && at == Mountains;
    } else if k == 2 {
      assert before == Mountains && at == Clouds;
    } else {
      assert before == Clouds && at == Ocean;
    }
  }

  /** Maps a normalised-device coordinate to screen space: (c + 1) / 2. */
  function ToScreen(ndc: real): (u: real)
    ensures -1.0 <= ndc <= 1.0 ==> 0.0 <= u <= 1.0
    ensures ndc == -1.0 ==> u == 0.0
    ensures ndc == 1.0 ==> u == 1.0
  {
    (ndc + 1.0) / 2.0
  }

  /** The inverse mapping, 2u - 1. */
  function FromScreen(u: real): real {
    2.0 * u - 1.0
  }

  lemma ScreenRoundTrip(ndc: real, u: real)
    ensures FromScreen(ToScreen(ndc)) == ndc
    ensures ToScreen(FromScreen(u)) == u
  {
  }

  class Bloom {
    var intensity: real
    var luminanceThreshold: real
    var luminanceSmoothing: real

    predicate Shows(e: Profile)
      reads this
    {
      intensity == e.bloomIntensity && luminanceThreshold == e.luminanceThreshold
      && luminanceSmoothing == e.luminanceSmoothing
    }

    method Apply(e: Profile)
      modifies this
      ensures Shows(e)
    {
      intensity := e.bloomIntensity;
      luminanceThreshold := e.luminanceThreshold;
      luminanceSmoothing := e.luminanceSmoothing;
    }
  }

  /** The depth-of-field effect; the profile's focusDistance is written to its target. */
  class DepthOfField {
    var target: real
    var focalLength: real
    var bokehScale: real

    predicate Shows(e: Profile)
      reads this
    {
      target == e.focusDistance && focalLength == e.focalLength && bokehScale == e.bokehScale
    }

    method Apply(e: Profile)
      modifies this
      ensures Shows(e)
    {
      target := e.focusDistance;
      focalLength := e.focalLength;
      bokehScale := e.bokehScale;
    }
  }

  class Vignette {
    var offset: real
    var darkness: real

    predicate Shows(e: Profile)
      reads this
    {
      offset == e.vignetteOffset && darkness == e.darkness
    }

    method Apply(e: Profile)
      modifies this
      ensures Shows(e)
    {
      offset := e.vignetteOffset;
      darkness := e.darkness;
    }
  }

  class Chromatic {
    var offsetX: real
    var offsetY: real

    predicate Shows(e: Profile)
      reads this
    {
      offsetX == e.chromaticX && offsetY == e.chromaticY
    }

    method Apply(e: Profile)
      modifies this
      ensures Shows(e)
    {
      offsetX, offsetY := e.chromaticX, e.chromaticY;
    }
  }

  class BrightnessContrast {
    var brightness: real
    var contrast: real

    predicate Shows(e: Profile)
      reads this
    {
      brightness == e.brightness && contrast == e.contrast
    }

    method Apply(e: Profile)
      modifies this
      ensures Shows(e)
    {
      brightness := e.brightness;
      contrast := e.contrast;
    }
  }

  class HueSaturation {
    var hue: real
    var saturation: real

    predicate Shows(e: Profile)
      reads this
    {
      hue == e.hue && saturation == e.saturation
    }

    method Apply(e: Profile)
      modifies this
      ensures Shows(e)
    {
      hue := e.hue;
      saturation := e.saturation;
    }
  }

  /** The uniforms of the two custom shader effects: uTime, uIntensity, uFlareSize (lens flare)
      or uDensity (god rays), and uSunPosition. */
  class ShaderEffect {
    var time: real
    var intensity: real
    var size: real
    var sunX: real
    var sunY: real

    predicate Shows(t: real, i: real, sz: real, sunNdcX: real, sunNdcY: real)
      reads this
    {
      time == t && intensity == i && size == sz && sunX == ToScreen(sunNdcX) && sunY == ToScreen(sunNdcY)
    }

    method Apply(t: real, i: real, sz: real, sunNdcX: real, sunNdcY: real)
      modifies this
      ensures Shows(t, i, sz, sunNdcX, sunNdcY)
    {
      time := t;
      intensity := i;
      size := sz;
      sunX, sunY := ToScreen(sunNdcX), ToScreen(sunNdcY);
    }
  }

  /** The eight effect refs; a null field is a ref that is not mounted. */
  class EffectRefs {
    var bloom: Bloom?
    var dof: DepthOfField?
    var vignette: Vignette?
    var chromatic: Chromatic?
    var brightness: BrightnessContrast?
    var hue: HueSaturation?
    var lensFlare: ShaderEffect?
    var godRays: ShaderEffect?

    /** The mounted effect objects, the only things a frame may write. */
    function Mounted(): set<object?>
      reads this
    {
      {bloom, dof, vignette, chromatic, brightness, hue, lensFlare, godRays}
    }

    /** The mounted lens and colour effects hold profile e. */
    predicate ShowsGrading(e: Profile)
      reads this, bloom, dof, vignette, chromatic, brightness, hue
    {
      && (bloom != null ==> bloom.Shows(e))
      && (dof != null ==> dof.Shows(e))
      && (vignette != null ==> vignette.Shows(e))
      && (chromatic != null ==> chromatic.Shows(e))
      && (brightness != null ==> brightness.Shows(e))
      && (hue != null ==> hue.Shows(e))
    }

    /** The mounted shader effects hold profile e, the clock time and the screen-space sun. */
    predicate ShowsLight(e: Profile, elapsed: real, sunNdcX: real, sunNdcY: real)
      reads this, lensFlare, godRays
    {
      && (lensFlare != null ==> lensFlare.Shows(elapsed, e.flareIntensity, e.flareSize, sunNdcX, sunNdcY))
      && (godRays != null ==> godRays.Shows(elapsed, e.raysIntensity, e.raysDensity, sunNdcX, sunNdcY))
    }

    constructor (bloom: Bloom?, dof: DepthOfField?, vignette: Vignette?, chromatic: Chromatic?,
                 brightness: BrightnessContrast?, hue: HueSaturation?,
                 lensFlare: ShaderEffect?, godRays: ShaderEffect?)
      ensures this.bloom == bloom && this.dof == dof && this.vignette == vignette
      ensures this.chromatic == chromatic && this.brightness == brightness && this.hue == hue
      ensures this.lensFlare == lensFlare && this.godRays == godRays
    {
      this.bloom, this.dof, this.vignette, this.chromatic := bloom, dof, vignette, chromatic;
      this.brightness, this.hue, this.lensFlare, this.godRays := brightness, hue, lensFlare, godRays;
    }

    method ApplyGrading(e: Profile)
      modifies bloom, dof, vignette, chromatic, brightness, hue
      ensures ShowsGrading(e)
    {
      if bloom != null { bloom.Apply(e); }
      if dof != null { dof.Apply(e); }
      if vignette != null { vignette.Apply(e); }
      if chromatic != null { chromatic.Apply(e); }
      if brightness != null { brightness.Apply(e); }
      if hue != null { hue.Apply(e); }
    }

    method ApplyLight(e: Profile, elapsed: real, sunNdcX: real, sunNdcY: real)
      requires lensFlare != godRays || lensFlare == null
      modifies lensFlare, godRays
      ensures ShowsLight(e, elapsed, sunNdcX, sunNdcY)
    {
      if lensFlare != null { lensFlare.Apply(elapsed, e.flareIntensity, e.flareSize, sunNdcX, sunNdcY); }
      if godRays != null { godRays.Apply(elapsed, e.raysIntensity, e.raysDensity, sunNdcX, sunNdcY); }
    }

    /** The per-frame callback. elapsed is the clock's elapsed time; (sunNdcX, sunNdcY) is the
        camera projection of the world point (50, 50, 50). Returns the selected scene. */
    method Frame(scroll: Option<real>, elapsed: real, sunNdcX: real, sunNdcY: real)
      returns (chosen: Option<Selection>)
      requires scroll.Some? ==> ValidOffset(scroll.value)
      requires lensFlare != godRays || lensFlare == null
      modifies Mounted()
      ensures scroll.None? ==> chosen.None? && unchanged(Mounted() - {null})
      ensures scroll.Some? ==> chosen == Some(Select(4.0 * scroll.value))
      ensures scroll.Some? ==> var e := Effects(Select(4.0 * scroll.value).scene);
        ShowsGrading(e) && ShowsLight(e, elapsed, sunNdcX, sunNdcY)
    {
      if scroll.None? {
        return None;
      }
      var sel := Select(scroll.value * 4.0);
      chosen := Some(sel);
      var e := Effects(sel.scene);
      ApplyGrading(e);
      ApplyLight(e, elapsed, sunNdcX, sunNdcY);
    }
  }
}
