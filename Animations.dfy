/** The animation system: the scene-transition patterns (fade, zoom, slide), the particle and
    spring physics steps, the wave motion, the per-frame work of the cinematic and physics modes,
    and the scene-specific dispatch on floor(progress). */
module Animations {
  import opened Common

  /** What a transition pattern returns; slideX is the position offset only slide sets. */
  datatype Transition = Transition(opacity: real, scale: real, slideX: Option<real>)

  /** Fade out over the first half of t, back in over the second. */
  function Fade(t: real): (r: Transition)
    ensures r.scale == 1.0 && r.slideX.None?
    ensures 0.0 <= t <= 1.0 ==> 0.0 <= r.opacity <= 1.0
    ensures r.opacity == 0.0 <==> t == 0.5
    ensures 0.0 <= t <= 1.0 ==> (r.opacity == 1.0 <==> t == 0.0 || t == 1.0)
  {
    Transition(if t < 0.5 then 1.0 - t * 2.0 else (t - 0.5) * 2.0, 1.0, None)
  }

  /** Grow over the first half of t, shrink back over the second. */
  function Zoom(t: real): (r: Transition)
    ensures r.opacity == 1.0 && r.slideX.None?
    ensures r.scale <= 1.5 && (r.scale == 1.5 <==> t == 0.5)
    ensures 0.0 <= t <= 1.0 ==> r.scale >= 1.0
    ensures t == 0.0 || t == 1.0 ==> r.scale == 1.0
  {
    Transition(1.0, if t < 0.5 then 1.0 + t else 2.0 - t, None)
  }

  /** Slide across: an x offset of 100 per unit of t, centred at t = 0.5. */
  function Slide(t: real): (r: Transition)
    ensures r.opacity == 1.0 && r.scale == 1.0 && r.slideX.Some?
    ensures 0.0 <= t <= 1.0 ==> -50.0 <= r.slideX.value <= 50.0
    ensures r.slideX.value == 0.0 <==> t == 0.5
  {
    Transition(1.0, 1.0, Some((t - 0.5) * 100.0))
  }

  /** sceneTransition: whatever the scenes, the fade pattern is returned. */
  function SceneTransition(progress: real, fromScene: int, toScene: int): (r: Transition)
    ensures r.scale == 1.0 && r.slideX.None?
    ensures 0.0 <= progress <= 1.0 ==> 0.0 <= r.opacity <= 1.0
    ensures r.opacity == 0.0 <==> progress == 0.5
  {
    Fade(progress)
  }

  /** The scenes passed do not matter. */
  lemma TransitionIgnoresScenes(progress: real, a: int, b: int, c: int, d: int)
    ensures SceneTransition(progress, a, b) == SceneTransition(progress, c, d) == Fade(progress)
  {
  }

  /** Cinematic mode fades within each scene: the progress into the current scene is progress % 1,
      so a child is fully opaque exactly at a scene start and invisible exactly half way. */
  lemma CinematicOpacity(progress: real)
    requires progress >= 0.0
    ensures var o := Fade(Frac(progress)).opacity;
      && 0.0 <= o <= 1.0
      && (o == 1.0 <==> progress == progress.Floor as real)
      && (o == 0.0 <==> Frac(progress) == 0.5)
  {
    var f := Frac(progress);
    assert f == 0.0 <==> progress == progress.Floor as real;
  }

  datatype Motion = Sway | Breathe | Float | Wave | Still

  /** The scene-specific motion asked of a child: by floor(progress), the valley sways vegetation,
      the mountains breathe rocks, the clouds scene floats clouds, the ocean waves water. */
  function SceneMotion(progress: real, sceneType: string): (m: Motion)
    requires progress >= 0.0
    ensures m == Sway <==> progress < 1.0 && sceneType == "vegetation"
    ensures m == Breathe <==> 1.0 <= progress < 2.0 && sceneType == "rocks"
    ensures m == Float <==> 2.0 <= progress < 3.0 && sceneType == "clouds"
    ensures m == Wave <==> 3.0 <= progress < 4.0 && sceneType == "water"
  {
    var scene := FloorNat(progress);
    if scene == 0 && sceneType == "vegetation" then Sway
    else if scene == 1 && sceneType == "rocks" then Breathe
    else if scene == 2 && sceneType == "clouds" then Float
    else if scene == 3 && sceneType == "water" then Wave
    else Still
  }

  /** At the end of the scroll (progress 4) no scene case matches and nothing moves. */
  lemma EndOfScrollIsStill(sceneType: string)
    ensures SceneMotion(4.0, sceneType) == Still
  {
    assert FloorNat(4.0) == 4;
  }

  function Add(a: Vec3, b: Vec3): Vec3 { Vec3(a.x + b.x, a.y + b.y, a.z + b.z) }
  function Sub(a: Vec3, b: Vec3): Vec3 { Vec3(a.x - b.x, a.y - b.y, a.z - b.z) }
  function Times(a: Vec3, k: real): Vec3 { Vec3(a.x * k, a.y * k, a.z * k) }

  const Zero: Vec3 := Vec3(0.0, 0.0, 0.0)

  /** A vector the source creates on first use: a missing one is a zero vector. */
  function OrZero(v: Option<Vec3>): Vec3 {
    if v.Some? then v.value else Zero
  }

  /** The forces of updateParticles; the defaults are gravity -9.81, no wind, damping 0.98. */
  datatype Forces = Forces(gravity: real, wind: Vec3, damping: real)

  const DefaultForces: Forces := Forces(-9.81, Zero, 0.98)

  /** The new velocity of a particle: the forces (wind.x, gravity, wind.z) applied for dt, then
      damped. */
  function Kick(v: Vec3, dt: real, forces: Forces): Vec3 {
    Times(Add(v, Times(Vec3(forces.wind.x, forces.gravity, forces.wind.z), dt)), forces.damping)
  }

  /** The vertical wind component plays no part. */
  lemma WindYIgnored(v: Vec3, dt: real, forces: Forces, windY: real)
    ensures Kick(v, dt, forces) == Kick(v, dt, forces.(wind := forces.wind.(y := windY)))
  {
  }

  /** With no gravity and no wind, damping in [0,1] only slows a particle: each velocity
      component ends between zero and its old value. */
  lemma DampingSlows(v: Vec3, dt: real, damping: real)
    requires 0.0 <= damping <= 1.0
    ensures var w := Kick(v, dt, Forces(0.0, Zero, damping));
      Between(w.x, 0.0, v.x) && Between(w.y, 0.0, v.y) && Between(w.z, 0.0, v.z)
  {
    var f := Forces(0.0, Zero, damping);
    assert Times(Vec3(f.wind.x, f.gravity, f.wind.z), dt) == Zero;
    assert Add(v, Zero) == v;
    Shrinks(v.x, damping);
    Shrinks(v.y, damping);
    Shrinks(v.z, damping);
  }

  lemma Shrinks(a: real, k: real)
    requires 0.0 <= k <= 1.0
    ensures Between(a * k, 0.0, a)
  {
    if a >= 0.0 {
      MulUnit(k, a);
    } else {
      MulUnit(k, -a);
      assert a * k == -(k * -a);
    }
  }

  /** One frame's animatable state of a child. */
  datatype NodeState = NodeState(position: Option<Vec3>, velocity: Option<Vec3>, acceleration: Option<Vec3>,
                                 scale: real, opacity: real, transparent: bool)

  /** A particle step on a node's state: velocity kicked from zero if missing, the position (if
      any) moved by the new velocity over dt, the acceleration left zero. */
  function ParticleStep(s: NodeState, dt: real, forces: Forces): (r: NodeState)
    ensures r.acceleration == Some(Zero) && r.velocity.Some?
    ensures r.position.Some? <==> s.position.Some?
    ensures (r.scale, r.opacity, r.transparent) == (s.scale, s.opacity, s.transparent)
  {
    var v := Kick(OrZero(s.velocity), dt, forces);
    s.(velocity := Some(v), acceleration := Some(Zero),
       position := if s.position.Some? then Some(Add(s.position.value, Times(v, dt))) else None)
  }

  /** A particle at rest with no forces and no time step stays where it is. */
  lemma ParticleAtRest(s: NodeState, damping: real)
    requires s.velocity.None? || s.velocity == Some(Zero)
    ensures ParticleStep(s, 0.0, Forces(0.0, Zero, damping)).position == s.position
    ensures ParticleStep(s, 0.0, Forces(0.0, Zero, damping)).velocity == Some(Zero)
  {
    if s.position.Some? {
      assert Add(s.position.value, Times(Zero, 0.0)) == s.position.value;
    }
  }

  /** The wave parameters; the defaults are amplitude 1, frequency 1, speed 1, direction (1, 0). */
  datatype WaveParams = WaveParams(amplitude: real, frequency: real, speed: real, dirX: real, dirZ: real)

  const DefaultWave: WaveParams := WaveParams(1.0, 1.0, 1.0, 1.0, 0.0)
  const OceanWaveParams: WaveParams := WaveParams(0.5, 2.0, 1.5, 1.0, 0.0)

  /** The phase of a wave at a position: its projection on the wave direction. */
  function WavePhase(p: Vec3, params: WaveParams): real {
    p.x * params.dirX + p.z * params.dirZ
  }

  /** The lift a wave gives a position, for the sine sample s of phase * frequency + time * speed:
      a hundredth of the amplitude at most. */
  function WaveLift(s: real, params: WaveParams): (h: real)
    requires IsUnit(s)
    ensures -0.01 * Magnitude(params.amplitude) <= h <= 0.01 * Magnitude(params.amplitude)
  {
    SignedSwing(s, params.amplitude);
    var wave := s * params.amplitude;
    wave * 0.01
  }

  /** A unit sample times an amplitude of either sign stays within the amplitude's magnitude. */
  lemma SignedSwing(s: real, amplitude: real)
    requires IsUnit(s)
    ensures -Magnitude(amplitude) <= s * amplitude <= Magnitude(amplitude)
  {
    if amplitude >= 0.0 {
      Swing(s, amplitude);
    } else {
      Swing(-s, -amplitude);
      assert (-s) * (-amplitude) == s * amplitude;
    }
  }

  /** The absolute value of an amplitude; a negative amplitude only flips the wave. */
  function Magnitude(x: real): (m: real)
    ensures m >= 0.0 && (m == x || m == -x)
  {
    if x >= 0.0 then x else -x
  }

  /** A state lifted by h: its position (if any) moves up by h, nothing else changes. */
  function Lift(st: NodeState, h: real): (r: NodeState)
    ensures r.position.Some? <==> st.position.Some?
    ensures r.position.Some? ==> r.position.value == st.position.value.(y := st.position.value.y + h)
    ensures r.(position := st.position) == st
  {
    if st.position.Some? then st.(position := Some(st.position.value.(y := st.position.value.y + h))) else st
  }

  /** A spring step: the velocity gains springConstant times the offset to the target and is
      damped, and the position moves by the new velocity. Returns (position, velocity). */
  function SpringStep(p: Vec3, v: Vec3, target: Vec3, springConstant: real, damping: real): (Vec3, Vec3) {
    var v' := Times(Add(v, Times(Sub(target, p), springConstant)), damping);
    (Add(p, v'), v')
  }

  /** An object at rest on its target stays there. */
  lemma SpringAtRest(p: Vec3, springConstant: real, damping: real)
    ensures SpringStep(p, Zero, p, springConstant, damping) == (p, Zero)
  {
    assert Times(Sub(p, p), springConstant) == Zero;
    assert Times(Add(Zero, Zero), damping) == Zero;
    assert Add(p, Zero) == p;
  }

  /** From rest, with constant and damping in [0,1], one step moves each coordinate towards the
      target without overshooting it. */
  lemma SpringNoOvershoot(p: Vec3, target: Vec3, springConstant: real, damping: real)
    requires 0.0 <= springConstant <= 1.0 && 0.0 <= damping <= 1.0
    ensures var q := SpringStep(p, Zero, target, springConstant, damping).0;
      Between(q.x, p.x, target.x) && Between(q.y, p.y, target.y) && Between(q.z, p.z, target.z)
  {
    Toward(p.x, target.x, springConstant, damping);
    Toward(p.y, target.y, springConstant, damping);
    Toward(p.z, target.z, springConstant, damping);
  }

  lemma Toward(a: real, b: real, springConstant: real, damping: real)
    requires 0.0 <= springConstant <= 1.0 && 0.0 <= damping <= 1.0
    ensures Between(a + (0.0 + (b - a) * springConstant) * damping, a, b)
  {
    var k := springConstant * damping;
    MulUnit(springConstant, damping);
    assert (0.0 + (b - a) * springConstant) * damping == (b - a) * k;
    LerpBounds(a, b, k);
    assert (1.0 - k) * a + k * b == a + (b - a) * k;
  }

  /** A child of the animated group. */
  class Node {
    var position: Option<Vec3>
    var velocity: Option<Vec3>
    var acceleration: Option<Vec3>
    var scale: real
    var opacity: real
    var transparent: bool
    const hasMaterial: bool
    const physicsEnabled: bool
    const physicsType: string
    const waveParams: WaveParams
    const sceneType: string

    function State(): NodeState
      reads this
    {
      NodeState(position, velocity, acceleration, scale, opacity, transparent)
    }
  }

  /** physicsSystem.updateParticles: every particle takes one step under the forces. */
  method UpdateParticles(particles: seq<Node>, dt: real, forces: Forces)
    requires forall i, j :: 0 <= i < j < |particles| ==> particles[i] != particles[j]
    modifies set n | n in particles
    ensures forall i :: 0 <= i < |particles| ==>
      particles[i].State() == ParticleStep(old(particles[i].State()), dt, forces)
  {
    for i := 0 to |particles|
      invariant forall j :: 0 <= j < i ==> particles[j].State() == ParticleStep(old(particles[j].State()), dt, forces)
      invariant forall j :: i <= j < |particles| ==> particles[j].State() == old(particles[j].State())
    {
      UpdateParticle(particles[i], dt, forces);
    }
  }

  /** The body of updateParticles for one particle. */
  method UpdateParticle(p: Node, dt: real, forces: Forces)
    modifies p
    ensures p.State() == ParticleStep(old(p.State()), dt, forces)
  {
    if p.velocity.None? {
      p.velocity := Some(Zero);
    }
    if p.acceleration.None? {
      p.acceleration := Some(Zero);
    }
    assert p.velocity.value == OrZero(old(p.velocity));
    var acceleration := Vec3(forces.wind.x, forces.gravity, forces.wind.z);
    p.acceleration := Some(acceleration);
    var kicked := Add(p.velocity.value, Times(acceleration, dt));
    var v := Times(kicked, forces.damping);
    assert v == Kick(OrZero(old(p.velocity)), dt, forces);
    p.velocity := Some(v);
    if p.position.Some? {
      p.position := Some(Add(p.position.value, Times(v, dt)));
    }
    p.acceleration := Some(Zero);
  }

  /** physicsSystem.springMotion on an object that has a position. */
  method SpringMotion(body: Node, target: Vec3, springConstant: real, damping: real)
    requires body.position.Some?
    modifies body
    ensures var (p, v) := SpringStep(old(body.position.value), OrZero(old(body.velocity)), target, springConstant, damping);
      body.position == Some(p) && body.velocity == Some(v)
    ensures body.acceleration == old(body.acceleration)
    ensures (body.scale, body.opacity, body.transparent) == old((body.scale, body.opacity, body.transparent))
  {
    if body.velocity.None? {
      body.velocity := Some(Zero);
    }
    var force := Times(Sub(target, body.position.value), springConstant);
    body.velocity := Some(Add(body.velocity.value, force));
    body.velocity := Some(Times(body.velocity.value, damping));
    body.position := Some(Add(body.position.value, body.velocity.value));
  }

  /** The first argument of waveMotion, a JavaScript value: a number or a scene object. */
  datatype Arg = Number(value: real) | Object(node: Node)

  /** physicsSystem.waveMotion: an object with a position is lifted by the wave; anything else,
      a number included, is left alone. s is the sine sample of the wave at that object, which is
      where the time argument enters. */
  method WaveMotion(target: Arg, params: WaveParams, s: real)
    requires IsUnit(s)
    modifies if target.Object? then {target.node} else {}
    ensures target.Object? ==> target.node.State() == Lift(old(target.node.State()), WaveLift(s, params))
  {
    if target.Object? && target.node.position.Some? {
      var n := target.node;
      var p := n.position.value;
      n.position := Some(p.(y := p.y + WaveLift(s, params)));
    }
  }

  /** The ocean case of the scene dispatch as written: time and child are passed in swapped
      order, so the wave is given a number and the child never moves. */
  method OceanWaveAsWritten(time: real, child: Node, s: real)
    requires IsUnit(s)
    ensures unchanged(child)
  {
    WaveMotion(Number(time), OceanWaveParams, s);
  }

  /** The ocean case with the child passed as the object: water rises and falls by at most
      0.005 (a hundredth of the amplitude 0.5). */
  method OceanWave(child: Node, s: real)
    requires IsUnit(s)
    modifies child
    ensures child.State() == Lift(old(child.State()), WaveLift(s, OceanWaveParams))
    ensures child.position.Some? ==> -0.005 <= child.position.value.y - old(child.position).value.y <= 0.005
  {
    WaveMotion(Object(child), OceanWaveParams, s);
  }

  datatype Mode = Organic | Physics | Cinematic

  /** The effect of the cinematic case on a child: opacity and transparency from the fade
      transition of progress % 1 when it has a material, and scale set to the transition's 1. */
  function CinematicStep(s: NodeState, hasMaterial: bool, progress: real): (r: NodeState)
    requires progress >= 0.0
    ensures r.scale == 1.0 && (r.position, r.velocity, r.acceleration) == (s.position, s.velocity, s.acceleration)
    ensures hasMaterial ==> 0.0 <= r.opacity <= 1.0 && (r.transparent <==> r.opacity < 1.0)
    ensures !hasMaterial ==> (r.opacity, r.transparent) == (s.opacity, s.transparent)
  {
    var tr := SceneTransition(Frac(progress), 0, 0);
    var withMaterial := if hasMaterial then s.(opacity := tr.opacity, transparent := tr.opacity < 1.0) else s;
    withMaterial.(scale := tr.scale)
  }

  /** What the animation-type switch does to a child (organic motion is not modelled);
      s is the child's own wave sample. */
  function ModeStep(st: NodeState, n: Node, mode: Mode, progress: real, dt: real, enablePhysics: bool, s: real): NodeState
    requires progress >= 0.0 && IsUnit(s)
    reads n
  {
    match mode
    case Cinematic => CinematicStep(st, n.hasMaterial, progress)
    case Physics =>
      if enablePhysics && n.physicsEnabled && n.physicsType == "particle" then ParticleStep(st, dt, DefaultForces)
      else if enablePhysics && n.physicsEnabled && n.physicsType == "wave" then Lift(st, WaveLift(s, n.waveParams))
      else st
    case Organic => st
  }

  /** What one frame does to a child: the mode step, then the ocean wave of the scene dispatch
      (the sway, breathe and float motions are not modelled); o is the child's ocean wave sample. */
  function Animate(st: NodeState, n: Node, mode: Mode, progress: real, dt: real, enablePhysics: bool, s: real, o: real): NodeState
    requires progress >= 0.0 && IsUnit(s) && IsUnit(o)
    reads n
  {
    var m := ModeStep(st, n, mode, progress, dt, enablePhysics, s);
    if SceneMotion(progress, n.sceneType) == Wave then Lift(m, WaveLift(o, OceanWaveParams)) else m
  }

  /** In cinematic mode a child with a material ends each frame at scale 1 with an opacity in
      [0,1] that is 1 only at a scene start, and it is transparent exactly when not opaque. */
  lemma CinematicFrame(st: NodeState, n: Node, progress: real, dt: real, enablePhysics: bool, s: real, o: real)
    requires progress >= 0.0 && IsUnit(s) && IsUnit(o) && n.hasMaterial
    ensures var r := Animate(st, n, Cinematic, progress, dt, enablePhysics, s, o);
      && r.scale == 1.0 && 0.0 <= r.opacity <= 1.0
      && (r.transparent <==> r.opacity < 1.0)
      && (r.opacity == 1.0 <==> progress == progress.Floor as real)
  {
    CinematicOpacity(progress);
  }

  /** A frame moves a child horizontally only through physics: in cinematic mode its x and z
      stay put, and its height changes by at most the ocean wave's 0.005. */
  lemma CinematicFrameKeepsPlace(st: NodeState, n: Node, progress: real, dt: real, enablePhysics: bool, s: real, o: real)
    requires progress >= 0.0 && IsUnit(s) && IsUnit(o)
    requires st.position.Some?
    ensures var r := Animate(st, n, Cinematic, progress, dt, enablePhysics, s, o);
      && r.position.Some?
      && r.position.value.x == st.position.value.x && r.position.value.z == st.position.value.z
      && -0.005 <= r.position.value.y - st.position.value.y <= 0.005
  {

  }

  /** The per-child work of one frame. */
  method AnimateChild(child: Node, mode: Mode, progress: real, dt: real, enablePhysics: bool, s: real, o: real)
    requires progress >= 0.0 && IsUnit(s) && IsUnit(o)
    modifies child
    ensures child.State() == Animate(old(child.State()), child, mode, progress, dt, enablePhysics, s, o)
  {
    match mode {
      case Cinematic =>
        var sceneProgress := Frac(progress);
        var transition := SceneTransition(sceneProgress, 0, 0);
        if child.hasMaterial {
          child.opacity := transition.opacity;
          child.transparent := transition.opacity < 1.0;
        }
        child.scale := transition.scale;
      case Physics =>
        if enablePhysics && child.physicsEnabled {
          if child.physicsType == "particle" {
            UpdateParticles([child], dt, DefaultForces);
            assert [child][0] == child;
          } else if child.physicsType == "wave" {
            WaveMotion(Object(child), child.waveParams, s);
          }
        }
      case Organic =>
    }
    assert child.State() == ModeStep(old(child.State()), child, mode, progress, dt, enablePhysics, s);
    if SceneMotion(progress, child.sceneType) == Wave {
      OceanWave(child, o);
    }
  }

  /** The main frame loop over the group's children (mounted is false while the group ref is
      empty); child i uses wave samples waves[i] and oceanWaves[i]. */
  method Frame(scroll: Option<real>, mounted: bool, mode: Mode, children: seq<Node>, dt: real,
               enablePhysics: bool, waves: seq<real>, oceanWaves: seq<real>)
    requires scroll.Some? ==> ValidOffset(scroll.value)
    requires |waves| == |children| && AllUnit(waves) && |oceanWaves| == |children| && AllUnit(oceanWaves)
    requires forall i, j :: 0 <= i < j < |children| ==> children[i] != children[j]
    modifies set c | c in children
    ensures scroll.None? || !mounted ==> unchanged(set c | c in children)
    ensures scroll.Some? && mounted ==> forall i :: 0 <= i < |children| ==>
      children[i].State() ==
      Animate(old(children[i].State()), children[i], mode, 4.0 * scroll.value, dt, enablePhysics, waves[i], oceanWaves[i])
  {
    if scroll.None? || !mounted {
      return;
    }
    var progress := scroll.value * 4.0;
    for i := 0 to |children|
      invariant forall j :: 0 <= j < i ==>
        children[j].State() == Animate(old(children[j].State()), children[j], mode, progress, dt, enablePhysics, waves[j], oceanWaves[j])
      invariant forall j :: i <= j < |children| ==> children[j].State() == old(children[j].State())
    {
      AnimateChild(children[i], mode, progress, dt, enablePhysics, waves[i], oceanWaves[i]);
    }
  }
}
