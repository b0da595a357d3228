/** The camera path: four keyframe poses, one per scene, blended piecewise-linearly by
    the scroll offset split into thirds, then approached by exponential smoothing, plus a
    small flight shake on x and y. */
module CameraController {
  import opened Common

  datatype Keyframe = Keyframe(position: Vec3, lookAt: Vec3)

  /** Valley, mountains, clouds, ocean. */
  const Scenes: seq<Keyframe> := [
    Keyframe(Vec3(0.0, 8.0, 15.0), Vec3(0.0, 0.0, -10.0)),
    Keyframe(Vec3(10.0, 25.0, 20.0), Vec3(0.0, 15.0, -20.0)),
    Keyframe(Vec3(5.0, 45.0, 10.0), Vec3(0.0, 40.0, -15.0)),
    Keyframe(Vec3(0.0, 35.0, 25.0), Vec3(0.0, 30.0, -30.0))
  ]

  const ShakeIntensity: real := 0.1

  /** Math.floor(offset * (scenes.length - 1)); unclamped, so the offset must lie in [0,1]. */
  function SceneIndex(offset: real): (i: nat)
    requires ValidOffset(offset)
    ensures i < |Scenes|
    ensures i as real <= offset * 3.0 < i as real + 1.0
    ensures i == 3 <==> offset == 1.0
  {
    FloorNat(offset * 3.0)
  }

  /** Math.min(sceneIndex + 1, scenes.length - 1). */
  function NextSceneIndex(offset: real): (j: nat)
    requires ValidOffset(offset)
    ensures j < |Scenes|
    ensures SceneIndex(offset) <= j <= SceneIndex(offset) + 1
    ensures j == SceneIndex(offset) <==> offset == 1.0
  {
    Min((SceneIndex(offset) + 1) as real, 3.0).Floor
  }

  /** (offset * 3) % 1: the blend factor inside the current third. */
  function Blend(offset: real): (t: real)
    requires ValidOffset(offset)
    ensures 0.0 <= t < 1.0
    ensures SceneIndex(offset) as real + t == offset * 3.0
  {
    Frac(offset * 3.0)
  }

  function LerpVec(a: Vec3, b: Vec3, t: real): (r: Vec3)
    requires 0.0 <= t <= 1.0
    ensures Between(r.x, a.x, b.x) && Between(r.y, a.y, b.y) && Between(r.z, a.z, b.z)
    ensures t == 0.0 ==> r == a
  {
    Vec3(Lerp(a.x, b.x, t), Lerp(a.y, b.y, t), Lerp(a.z, b.z, t))
  }

  predicate VecBetween(v: Vec3, a: Vec3, b: Vec3) {
    Between(v.x, a.x, b.x) && Between(v.y, a.y, b.y) && Between(v.z, a.z, b.z)
  }

  /** targetPosition: the pose between the current and the next keyframe. */
  function TargetPosition(offset: real): (p: Vec3)
    requires ValidOffset(offset)
    ensures VecBetween(p, Scenes[SceneIndex(offset)].position, Scenes[NextSceneIndex(offset)].position)
    ensures Blend(offset) == 0.0 ==> p == Scenes[SceneIndex(offset)].position
  {
    LerpVec(Scenes[SceneIndex(offset)].position, Scenes[NextSceneIndex(offset)].position, Blend(offset))
  }

  /** targetLookAt: the look-at point between the current and the next keyframe. */
  function TargetLookAt(offset: real): (p: Vec3)
    requires ValidOffset(offset)
    ensures VecBetween(p, Scenes[SceneIndex(offset)].lookAt, Scenes[NextSceneIndex(offset)].lookAt)
    ensures Blend(offset) == 0.0 ==> p == Scenes[SceneIndex(offset)].lookAt
  {
    LerpVec(Scenes[SceneIndex(offset)].lookAt, Scenes[NextSceneIndex(offset)].lookAt, Blend(offset))
  }

  /** One component of camera.position.lerp(target, alpha): p moves by (target - p) * alpha,
      so the remaining gap is scaled by 1 - alpha. */
  function Approach(p: real, target: real, alpha: real): (r: real)
    ensures r - target == (1.0 - alpha) * (p - target)
  {
    p + (target - p) * alpha
  }

  function Smooth(p: Vec3, target: Vec3, alpha: real): (r: Vec3)
    ensures r.x - target.x == (1.0 - alpha) * (p.x - target.x)
    ensures r.y - target.y == (1.0 - alpha) * (p.y - target.y)
    ensures r.z - target.z == (1.0 - alpha) * (p.z - target.z)
  {
    Vec3(Approach(p.x, target.x, alpha), Approach(p.y, target.y, alpha), Approach(p.z, target.z, alpha))
  }

  /** The flight shake: sin(2 t) * 0.1 on x and cos(1.5 t) * 0.1 * 0.5 on y, z untouched. */
  function Shake(p: Vec3, sinSample: real, cosSample: real): (r: Vec3)
    requires IsUnit(sinSample) && IsUnit(cosSample)
    ensures r.z == p.z
    ensures -0.1 <= r.x - p.x <= 0.1
    ensures -0.05 <= r.y - p.y <= 0.05
  {
    Vec3(p.x + sinSample * ShakeIntensity, p.y + cosSample * ShakeIntensity * 0.5, p.z)
  }

  /** At 0, 1/3, 2/3 and 1 the blend factor vanishes and the camera targets keyframe k exactly. */
  lemma KeyframeReached(k: nat)
    requires k < 4
    ensures ValidOffset(k as real / 3.0)
    ensures SceneIndex(k as real / 3.0) == k && Blend(k as real / 3.0) == 0.0
    ensures TargetPosition(k as real / 3.0) == Scenes[k].position
    ensures TargetLookAt(k as real / 3.0) == Scenes[k].lookAt
  {
    var o := k as real / 3.0;
    assert o * 3.0 == k as real;
    assert SceneIndex(o) == k;
  }

  /** Offset 0.33 is still in the valley third: index 0, next 1, blend 0.99. */
  lemma NearFirstBoundary()
    ensures SceneIndex(0.33) == 0 && NextSceneIndex(0.33) == 1
    ensures Blend(0.33) == 0.99
  {
    assert 0.33 * 3.0 == 0.99;
  }

  /** With delta = 0 the camera does not move; with 0 <= 2 delta <= 1 it moves toward the target
      without overshooting. */
  lemma SmoothStaysBetween(p: Vec3, target: Vec3, delta: real)
    requires 0.0 <= 2.0 * delta <= 1.0
    ensures delta == 0.0 ==> Smooth(p, target, 2.0 * delta) == p
    ensures VecBetween(Smooth(p, target, 2.0 * delta), p, target)
  {
    var a := 2.0 * delta;
    assert Smooth(p, target, a) == LerpVec(p, target, a);
  }

  /** (1 - alpha)^n: the share of the gap left after n frames at a fixed target. */
  function Retained(alpha: real, n: nat): real {
    if n == 0 then 1.0 else (1.0 - alpha) * Retained(alpha, n - 1)
  }

  /** One coordinate of the camera after n frames at a fixed target. */
  function ApproachFrames(p: real, target: real, alpha: real, n: nat): real {
    if n == 0 then p else Approach(ApproachFrames(p, target, alpha, n - 1), target, alpha)
  }

  /** Without shake, n frames at a fixed offset leave (1 - alpha)^n of the initial gap in every
      coordinate, so the camera settles on the keyframe pose when 0 < alpha <= 1. */
  lemma {:induction false} ApproachFramesGap(p: real, target: real, alpha: real, n: nat)
    ensures ApproachFrames(p, target, alpha, n) - target == Retained(alpha, n) * (p - target)
  {
    if n > 0 {
      var q, k := ApproachFrames(p, target, alpha, n - 1), Retained(alpha, n - 1);
      ApproachFramesGap(p, target, alpha, n - 1);
      GapStep(q, target, alpha, k, p - target);
      assert ApproachFrames(p, target, alpha, n) == Approach(q, target, alpha);
      assert Retained(alpha, n) == (1.0 - alpha) * k;
    }
  }

  /** One more frame multiplies a gap of k * d by 1 - alpha. */
  lemma GapStep(q: real, target: real, alpha: real, k: real, d: real)
    requires q - target == k * d
    ensures Approach(q, target, alpha) - target == ((1.0 - alpha) * k) * d
  {
    var s := 1.0 - alpha;
    assert Approach(q, target, alpha) - target == s * (k * d);
  }

  /** The camera object the component moves: its position and the point it was told to look at. */
  class Camera {
    var position: Vec3
    var lookingAt: Vec3

    constructor (position: Vec3)
      ensures this.position == position && lookingAt == Vec3(0.0, 0.0, 0.0)
    {
      this.position := position;
      lookingAt := Vec3(0.0, 0.0, 0.0);
    }
  }

  /** The component's two ref vectors; Frame is the body of its per-frame callback. */
  class Controller {
    var targetPosition: Vec3
    var targetLookAt: Vec3

    constructor ()
      ensures targetPosition == Vec3(0.0, 0.0, 0.0) && targetLookAt == Vec3(0.0, 0.0, 0.0)
    {
      targetPosition := Vec3(0.0, 0.0, 0.0);
      targetLookAt := Vec3(0.0, 0.0, 0.0);
    }

    /** scroll is None while the scroll hook has nothing; sinSample and cosSample are
        sin(2 t) and cos(1.5 t) of the elapsed time t. */
    method Frame(camera: Camera, scroll: Option<real>, delta: real, sinSample: real, cosSample: real)
      requires scroll.Some? ==> ValidOffset(scroll.value)
      requires IsUnit(sinSample) && IsUnit(cosSample)
      modifies this, camera
      ensures scroll.None? ==> unchanged(this) && unchanged(camera)
      ensures scroll.Some? ==>
        && targetPosition == TargetPosition(scroll.value)
        && targetLookAt == TargetLookAt(scroll.value)
        && camera.lookingAt == TargetLookAt(scroll.value)
        && camera.position == Shake(Smooth(old(camera.position), TargetPosition(scroll.value), delta * 2.0), sinSample, cosSample)
    {
      if scroll.Some? {
        var offset := scroll.value;
        targetPosition := TargetPosition(offset);
        targetLookAt := TargetLookAt(offset);
        camera.position := Smooth(camera.position, targetPosition, delta * 2.0);
        camera.lookingAt := targetLookAt;
        camera.position := Shake(camera.position, sinSample, cosSample);
      }
    }
  }
}
