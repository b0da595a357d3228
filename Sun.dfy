/** The sun element: a sphere that rises along an arc, brightens with the scroll, and a glow
    shell that pulses around it. */
module Sun {
  import opened Common

  /** The sun's arc: radius 80 around (0, 30, -50); the samples are sin and cos of the angle
      offset * PI / 2. */
  function SunPosition(sinSample: real, cosSample: real): (p: Vec3)
    requires IsUnit(sinSample) && IsUnit(cosSample)
    ensures p.z == -50.0
    ensures -80.0 <= p.x <= 80.0 && -50.0 <= p.y <= 110.0
  {
    Vec3(sinSample * 80.0, cosSample * 80.0 + 30.0, -50.0)
  }

  /** The arc keeps the sun at distance 80 from (0, 30, -50). */
  lemma SunOnArc(sinSample: real, cosSample: real)
    requires IsUnit(sinSample) && IsUnit(cosSample)
    requires sinSample * sinSample + cosSample * cosSample == 1.0
    ensures var p := SunPosition(sinSample, cosSample);
      p.x * p.x + (p.y - 30.0) * (p.y - 30.0) == 6400.0
  {
    var p := SunPosition(sinSample, cosSample);
    assert p.x * p.x == 6400.0 * (sinSample * sinSample);
    assert (p.y - 30.0) * (p.y - 30.0) == 6400.0 * (cosSample * cosSample);
  }

  /** Sun opacity 0.8 + 0.4 offset, with no clamp: it passes 1 beyond the middle of the scroll. */
  function Opacity(offset: real): (r: real)
    requires ValidOffset(offset)
    ensures 0.8 <= r <= 1.2
    ensures r > 1.0 <==> offset > 0.5
    ensures offset == 1.0 ==> r == 1.2
  {
    0.8 + offset * 0.4
  }

  /** The glow's scale 1 + 0.1 sin(2 t) and opacity 0.2 + 0.1 sin(3 t). */
  function GlowScale(sinSample: real): (r: real)
    requires IsUnit(sinSample)
    ensures 0.9 <= r <= 1.1
  {
    1.0 + sinSample * 0.1
  }

  function GlowOpacity(sinSample: real): (r: real)
    requires IsUnit(sinSample)
    ensures 0.1 <= r <= 0.3
  {
    0.2 + sinSample * 0.1
  }

  /** The sun group. */
  class SunGroup {
    var position: Vec3
  }

  /** The glow mesh; its scale is set uniformly. */
  class Glow {
    var scale: real
  }

  class Material {
    var opacity: real
  }

  /** The per-frame callback. The sun group is null while unmounted, as is the glow. The sun and
      glow materials are built once at mount. */
  method Frame(scroll: Option<real>, sun: SunGroup?, glow: Glow?, sunMaterial: Material, glowMaterial: Material,
               sinAngle: real, cosAngle: real, sin2t: real, sin3t: real)
    requires scroll.Some? ==> ValidOffset(scroll.value)
    requires IsUnit(sinAngle) && IsUnit(cosAngle) && IsUnit(sin2t) && IsUnit(sin3t)
    requires sunMaterial != glowMaterial
    modifies sun, glow, sunMaterial, glowMaterial
    ensures scroll.None? || sun == null ==>
      unchanged(sunMaterial, glowMaterial) && (sun != null ==> unchanged(sun)) && (glow != null ==> unchanged(glow))
    ensures scroll.Some? && sun != null ==>
      && sun.position == SunPosition(sinAngle, cosAngle)
      && sunMaterial.opacity == Opacity(scroll.value)
      && (glow != null ==> glow.scale == GlowScale(sin2t) && glowMaterial.opacity == GlowOpacity(sin3t))
      && (glow == null ==> unchanged(glowMaterial))
  {
    if scroll.None? || sun == null {
      return;
    }
    sun.position := SunPosition(sinAngle, cosAngle);
    sunMaterial.opacity := Opacity(scroll.value);
    if glow != null {
      glow.scale := GlowScale(sin2t);
      glowMaterial.opacity := GlowOpacity(sin3t);
    }
  }
}
