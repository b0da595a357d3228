/** The scene's two lights: the ambient light brightens and the directional "sun" light swings
    a quarter turn over the scroll range. */
module SceneLighting {
  import opened Common

  class AmbientLight {
    var intensity: real

    constructor ()
      ensures intensity == 0.3
    {
      intensity := 0.3;
    }
  }

  class DirectionalLight {
    var position: Vec3
    var intensity: real

    constructor ()
      ensures position == Vec3(30.0, 50.0, 30.0) && intensity == 1.2
    {
      position := Vec3(30.0, 50.0, 30.0);
      intensity := 1.2;
    }
  }

  /** Ambient intensity 0.3 + 0.4 offset: from 0.3 at the valley to 0.7 at the ocean. */
  function AmbientIntensity(offset: real): (r: real)
    requires ValidOffset(offset)
    ensures 0.3 <= r <= 0.7
    ensures offset == 0.0 ==> r == 0.3
    ensures offset == 1.0 ==> r == 0.7
  {
    0.3 + offset * 0.4
  }

  /** Directional intensity 1 + 0.5 offset, in [1, 1.5]. */
  function SunIntensity(offset: real): (r: real)
    requires ValidOffset(offset)
    ensures 1.0 <= r <= 1.5
    ensures offset == 0.0 ==> r == 1.0
    ensures offset == 1.0 ==> r == 1.5
  {
    1.0 + offset * 0.5
  }

  /** The sun angle offset * PI * 0.5, in units of PI: at most a quarter turn. */
  function SunAngle(offset: real): (halfTurns: real)
    requires ValidOffset(offset)
    ensures 0.0 <= halfTurns <= 0.5
    ensures offset == 1.0 ==> halfTurns == 0.5
  {
    offset * 0.5
  }

  /** (sin a * 50, cos a * 50 + 20, 30) from samples of sin and cos of the sun angle. */
  function LightPosition(sinSample: real, cosSample: real): (p: Vec3)
    ensures p.z == 30.0
  {
    Vec3(sinSample * 50.0, cosSample * 50.0 + 20.0, 30.0)
  }

  /** When the samples are the sine and cosine of one angle, the light lies on the circle of
      radius 50 centred 20 units above the origin, in the plane z = 30. */
  lemma LightOnCircle(sinSample: real, cosSample: real)
    requires sinSample * sinSample + cosSample * cosSample == 1.0
    ensures var p := LightPosition(sinSample, cosSample);
      p.x * p.x + (p.y - 20.0) * (p.y - 20.0) == 2500.0
  {
    var p := LightPosition(sinSample, cosSample);
    assert p.x * p.x == 2500.0 * (sinSample * sinSample);
    assert (p.y - 20.0) * (p.y - 20.0) == 2500.0 * (cosSample * cosSample);
  }

  /** The per-frame callback. A null light is a ref that is not mounted; sinSample and cosSample
      are sin and cos of SunAngle(offset). */
  method Frame(scroll: Option<real>, ambient: AmbientLight?, sun: DirectionalLight?,
               sinSample: real, cosSample: real)
    requires scroll.Some? ==> ValidOffset(scroll.value)
    modifies ambient, sun
    ensures scroll.None? ==> (ambient != null ==> unchanged(ambient)) && (sun != null ==> unchanged(sun))
    ensures scroll.Some? && ambient != null ==> ambient.intensity == AmbientIntensity(scroll.value)
    ensures scroll.Some? && sun != null ==>
      && sun.position == LightPosition(sinSample, cosSample)
      && sun.intensity == SunIntensity(scroll.value)
  {
    if scroll.Some? {
      var offset := scroll.value;
      if ambient != null {
        ambient.intensity := AmbientIntensity(offset);
      }
      if sun != null {
        sun.position := LightPosition(sinSample, cosSample);
        sun.intensity := SunIntensity(offset);
      }
    }
  }
}
