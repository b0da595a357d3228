/** The weather particle system: position, velocity, size, lifetime and phase buffers filled
    once per kind of particle, then advanced in place every frame with respawn, drift and a
    floor, and a points material whose opacity follows the scene. */
module Particles {
  import opened Common

  datatype Kind = Rain | Snow | Dust | Leaves | Other

  /** One particle as initialised; phase is in units of PI. */
  datatype Particle = Particle(position: Vec3, velocity: Vec3, size: real, lifetime: real, phase: real)

  /** Math.random calls per particle: x, y, z, three velocity components, size, lifetime, phase. */
  const SpawnDraws: nat := 9

  /** The velocity ranges of each kind: rain falls fast, snow slowly, dust rises. */
  predicate VelocityInRange(kind: Kind, v: Vec3) {
    match kind
    case Rain => -1.0 <= v.x < 1.0 && -15.0 < v.y <= -10.0 && -1.0 <= v.z < 1.0
    case Snow => -0.5 <= v.x < 0.5 && -4.0 < v.y <= -2.0 && -0.5 <= v.z < 0.5
    case Dust => -0.25 <= v.x < 0.25 && 0.0 <= v.y < 0.2 && -0.25 <= v.z < 0.25
    case Leaves => -1.5 <= v.x < 1.5 && -3.0 < v.y <= -1.0 && -1.5 <= v.z < 1.5
    case Other => -0.05 <= v.x < 0.05 && 0.0 <= v.y < 0.1 && -0.05 <= v.z < 0.05
  }

  predicate SizeInRange(kind: Kind, s: real) {
    match kind
    case Rain => 0.1 <= s < 0.2
    case Snow => 0.2 <= s < 0.5
    case Dust => 0.05 <= s < 0.15
    case Leaves => 0.3 <= s < 0.7
    case Other => 0.1 <= s < 0.2
  }

  predicate SpawnInRange(kind: Kind, area: real, p: Particle) {
    && -area / 2.0 <= p.position.x < area / 2.0 && 0.0 <= p.position.y < area / 2.0
    && -area / 2.0 <= p.position.z < area / 2.0
    && VelocityInRange(kind, p.velocity) && SizeInRange(kind, p.size)
    && 0.0 <= p.lifetime < 10.0 && 0.0 <= p.phase < 2.0
  }

  /** Velocity and size of one particle from its four draws, by kind. */
  function VelocityFrom(kind: Kind, a: real, b: real, c: real): (v: Vec3)
    requires IsDraw(a) && IsDraw(b) && IsDraw(c)
    ensures VelocityInRange(kind, v)
  {
    match kind
    case Rain => Vec3((a - 0.5) * 2.0, -10.0 - b * 5.0, (c - 0.5) * 2.0)
    case Snow => Vec3((a - 0.5) * 1.0, -2.0 - b * 2.0, (c - 0.5) * 1.0)
    case Dust => Vec3((a - 0.5) * 0.5, b * 0.2, (c - 0.5) * 0.5)
    case Leaves => Vec3((a - 0.5) * 3.0, -1.0 - b * 2.0, (c - 0.5) * 3.0)
    case Other => Vec3((a - 0.5) * 0.1, b * 0.1, (c - 0.5) * 0.1)
  }

  function SizeFrom(kind: Kind, d: real): (s: real)
    requires IsDraw(d)
    ensures SizeInRange(kind, s)
  {
    match kind
    case Rain => 0.1 + d * 0.1
    case Snow => 0.2 + d * 0.3
    case Dust => 0.05 + d * 0.1
    case Leaves => 0.3 + d * 0.4
    case Other => 0.1 + d * 0.1
  }

  /** A spawn point in the box [-area/2, area/2) x [0, area/2) x [-area/2, area/2). */
  function SpawnPosition(area: real, a: real, b: real, c: real): (p: Vec3)
    requires area > 0.0 && IsDraw(a) && IsDraw(b) && IsDraw(c)
    ensures -area / 2.0 <= p.x < area / 2.0 && 0.0 <= p.y < area / 2.0 && -area / 2.0 <= p.z < area / 2.0
  {
    Vec3(Centred(a, area), Scaled(b, area * 0.5), Centred(c, area))
  }

  /** The initial state of one particle from its nine draws, in call order. */
  function Spawn(kind: Kind, area: real, d: seq<real>): (p: Particle)
    requires area > 0.0 && |d| == SpawnDraws && AllDraws(d)
    ensures SpawnInRange(kind, area, p)
  {
    Particle(SpawnPosition(area, d[0], d[1], d[2]), VelocityFrom(kind, d[3], d[4], d[5]),
             SizeFrom(kind, d[6]), d[7] * 10.0, d[8] * 2.0)
  }

  /** The draws a respawn takes: x, z and the new lifetime. */
  datatype Redraw = Redraw(x: real, z: real, life: real)

  predicate RedrawValid(r: Redraw) {
    IsDraw(r.x) && IsDraw(r.z) && IsDraw(r.life)
  }

  /** The samples a drift takes: for dust and leaves sin(phase + t) and cos(0.7 (phase + t)),
      for snow sin(phase + t / 2) and cos(phase + t / 2). */
  datatype Drift = Drift(sin: real, cos: real)

  predicate DriftValid(s: Drift) {
    IsUnit(s.sin) && IsUnit(s.cos)
  }

  /** How far a kind is blown sideways per unit of time: wind for dust and leaves, swirl for
      snow, nothing for rain and the rest. */
  function DriftStrength(kind: Kind, offset: real): (w: real)
    requires ValidOffset(offset)
    ensures 0.0 <= w <= 0.8
    ensures w == 0.0 <==> kind == Rain || kind == Other
  {
    match kind
    case Dust => 0.5 + offset * 0.3
    case Leaves => 0.5 + offset * 0.3
    case Snow => 0.5
    case _ => 0.0
  }

  /** A particle's position and lifetime after one frame. */
  datatype Motion = Motion(position: Vec3, lifetime: real)

  /** Where the frame starts moving a particle from: a respawn point at the top of the box when
      its lifetime ran out, else where it was. */
  function Origin(area: real, delta: real, position: Vec3, lifetime: real, redraw: Redraw): (o: Vec3)
    requires area > 0.0 && RedrawValid(redraw)
    ensures lifetime - delta <= 0.0 ==> o.y == area * 0.5
    ensures lifetime - delta > 0.0 ==> o == position
  {
    if lifetime - delta <= 0.0 then Vec3(Centred(redraw.x, area), area * 0.5, Centred(redraw.z, area))
    else position
  }

  /** One particle's update: lifetime, respawn, velocity, drift in x and z only, then the floor
      at -area / 4 that sends a particle back to the top. */
  function Step(kind: Kind, area: real, offset: real, delta: real, position: Vec3, velocity: Vec3,
                lifetime: real, redraw: Redraw, drift: Drift): (m: Motion)
    requires area > 0.0 && ValidOffset(offset) && RedrawValid(redraw) && DriftValid(drift)
    ensures m.lifetime > 0.0
    ensures lifetime - delta > 0.0 ==> m.lifetime == lifetime - delta
    ensures lifetime - delta <= 0.0 ==> 5.0 <= m.lifetime < 15.0
    ensures m.position.y >= -area * 0.25
    ensures var o := Origin(area, delta, position, lifetime, redraw);
      var y := o.y + velocity.y * delta;
      m.position.y == (if y < -area * 0.25 then area * 0.5 else y)
  {
    var life := lifetime - delta;
    var o := Origin(area, delta, position, lifetime, redraw);
    var moved := Vec3(o.x + velocity.x * delta, o.y + velocity.y * delta, o.z + velocity.z * delta);
    var w := DriftStrength(kind, offset);
    var push := w * delta;
    var x := moved.x + drift.sin * push;
    var z := moved.z + drift.cos * push;
    var y := if moved.y < -area * 0.25 then area * 0.5 else moved.y;
    Motion(Vec3(x, y, z), if life <= 0.0 then 5.0 + redraw.life * 10.0 else life)
  }

  /** Drift touches only x and z, and moves them by at most the kind's strength times delta;
      rain and the default kind move by velocity alone. */
  lemma DriftBounded(kind: Kind, area: real, offset: real, delta: real, position: Vec3, velocity: Vec3,
                     lifetime: real, redraw: Redraw, drift: Drift)
    requires area > 0.0 && ValidOffset(offset) && RedrawValid(redraw) && DriftValid(drift) && delta >= 0.0
    ensures var m := Step(kind, area, offset, delta, position, velocity, lifetime, redraw, drift);
      var o := Origin(area, delta, position, lifetime, redraw);
      var bound := DriftStrength(kind, offset) * delta;
      && -bound <= m.position.x - (o.x + velocity.x * delta) <= bound
      && -bound <= m.position.z - (o.z + velocity.z * delta) <= bound
      && (kind == Rain || kind == Other ==>
            m.position.x == o.x + velocity.x * delta && m.position.z == o.z + velocity.z * delta)
  {
    var m := Step(kind, area, offset, delta, position, velocity, lifetime, redraw, drift);
    var o := Origin(area, delta, position, lifetime, redraw);
    var w := DriftStrength(kind, offset);
    var bound := w * delta;
    MulUnit(w / 0.8, delta);
    assert w / 0.8 * delta * 0.8 == bound;
    Pushed(o.x + velocity.x * delta, drift.sin, bound, m.position.x);
    Pushed(o.z + velocity.z * delta, drift.cos, bound, m.position.z);
  }

  /** A coordinate a pushed by s times b, for s in [-1,1] and b >= 0, stays within b of a. */
  lemma Pushed(a: real, s: real, b: real, m: real)
    requires IsUnit(s) && b >= 0.0 && m == a + s * b
    ensures -b <= m - a <= b
    ensures b == 0.0 ==> m == a
  {
    Swing(s, b);
  }

  /** The size factor max(0.3, 1 - d / (area / 2)) for a particle at horizontal distance d. */
  function SizeFactor(distance: real, area: real): (f: real)
    requires area > 0.0
    ensures f >= 0.3
    ensures distance >= 0.0 ==> f <= 1.0
    ensures distance == 0.0 ==> f == 1.0
  {
    Max(0.3, 1.0 - distance / (area * 0.5))
  }

  /** The material size a particle at p with base size s sets: s times the size factor of its
      horizontal distance root(x^2 + z^2); between 0.3 s and s when root is a square root. */
  function SizeAt(s: real, p: Vec3, area: real, root: real -> real): (r: real)
    requires area > 0.0
    ensures s >= 0.0 && root(p.x * p.x + p.z * p.z) >= 0.0 ==> 0.3 * s <= r <= s
  {
    var f := SizeFactor(root(p.x * p.x + p.z * p.z), area);
    assert s >= 0.0 ==> 0.3 * s <= s * f;
    assert s >= 0.0 && f <= 1.0 ==> s * f <= s by {
      if s >= 0.0 && f <= 1.0 {
        assert s * (1.0 - f) >= 0.0;
      }
    }
    s * f
  }

  /** Scene visibility by kind, with progress = 4 offset. */
  function Visibility(kind: Kind, progress: real): (v: real)
    requires 0.0 <= progress <= 4.0
    ensures kind != Rain ==> 0.0 <= v <= 1.0
    ensures kind == Rain ==> 0.0 <= v < 2.0
    ensures kind == Other ==> v == 1.0
    ensures kind == Snow ==> (v == 1.0 <==> 1.5 <= progress < 3.0) && (v == 0.0 <==> !(1.5 <= progress < 3.0))
    ensures v > 0.0 <==> match kind
      case Dust => progress < 2.0
      case Rain => 1.0 < progress < 2.0
      case Snow => 1.5 <= progress < 3.0
      case Leaves => progress < 1.0
      case Other => true
  {
    match kind
    case Dust => if progress < 2.0 then 1.0 - progress * 0.3 else 0.0
    case Rain => if progress >= 1.0 && progress < 2.0 then (progress - 1.0) * 2.0 else 0.0
    case Snow => if progress >= 1.5 && progress < 3.0 then 1.0 else 0.0
    case Leaves => if progress < 1.0 then 1.0 - progress * 0.5 else 0.0
    case Other => 1.0
  }

  /** The opacity each kind's material is created with. */
  function BaseOpacity(kind: Kind): (o: real)
    ensures 0.0 < o < 1.0
  {
    match kind
    case Rain => 0.6
    case Snow => 0.8
    case Dust => 0.3
    case Leaves => 0.7
    case Other => 0.5
  }

  /** As written, the opacity write reads the same material it writes: the new opacity is the
      visibility times the current opacity, or times 0.5 when that is 0. */
  function OpacityAsWritten(vis: real, current: real): real {
    vis * (if current == 0.0 then 0.5 else current)
  }

  /** The intended opacity: the visibility times the kind's base opacity. */
  function Opacity(kind: Kind, vis: real): (o: real)
    requires 0.0 <= vis
    ensures 0.0 <= o <= vis
    ensures vis > 0.0 ==> o > 0.0
  {
    vis * BaseOpacity(kind)
  }

  /** The opacity after n frames at the same visibility, as written. */
  function OpacityAfterFrames(vis: real, start: real, n: nat): real {
    if n == 0 then start else OpacityAsWritten(vis, OpacityAfterFrames(vis, start, n - 1))
  }

  /** As written, n frames at a fixed non-zero visibility multiply the base opacity by the
      visibility n times, so any visibility below 1 fades the particles geometrically, while
      the intended opacity is the same in every frame. */
  lemma {:induction false} AsWrittenCompounds(kind: Kind, vis: real, n: nat)
    requires 0.0 < vis
    ensures OpacityAfterFrames(vis, BaseOpacity(kind), n) == Power(vis, n) * BaseOpacity(kind)
  {
    if n > 0 {
      AsWrittenCompounds(kind, vis, n - 1);
      PowerPositive(vis, n - 1);
      var p := Power(vis, n - 1);
      assert p * BaseOpacity(kind) != 0.0;
      assert vis * (p * BaseOpacity(kind)) == (vis * p) * BaseOpacity(kind);
    }
  }

  function Power(b: real, n: nat): real {
    if n == 0 then 1.0 else b * Power(b, n - 1)
  }

  lemma {:induction false} PowerPositive(b: real, n: nat)
    requires b > 0.0
    ensures Power(b, n) > 0.0
  {
    if n > 0 {
      PowerPositive(b, n - 1);
      var p := Power(b, n - 1);
      assert b * p > 0.0;
    }
  }

  /** Dust at offset 1/4 (progress 1, visibility 0.7): two frames as written leave 0.147 where
      0.21 is intended. */
  lemma DustFadesTwice()
    ensures Visibility(Dust, 1.0) == 0.7
    ensures OpacityAfterFrames(0.7, BaseOpacity(Dust), 2) == 0.147
    ensures Opacity(Dust, Visibility(Dust, 1.0)) == 0.21
  {
    assert OpacityAfterFrames(0.7, 0.3, 1) == 0.21;
  }

  /** Slot i of a three-per-particle buffer. */
  function Vec(a: array<real>, i: nat): Vec3
    reads a
    requires 3 * i + 2 < a.Length
  {
    Vec3(a[3 * i], a[3 * i + 1], a[3 * i + 2])
  }

  /** Writes slot i of a three-per-particle buffer and no other slot. */
  method Put(a: array<real>, i: nat, v: Vec3)
    requires 3 * i + 2 < a.Length
    modifies a
    ensures Vec(a, i) == v
    ensures forall k :: 0 <= k && 3 * k + 2 < a.Length && k != i ==> Vec(a, k) == old(Vec(a, k))
  {
    a[3 * i] := v.x;
    a[3 * i + 1] := v.y;
    a[3 * i + 2] := v.z;
  }

  /** The points object: its kind, its box and its buffers, three slots per particle for
      positions and velocities; opacity and size are its material's. */
  class ParticleSystem {
    const kind: Kind
    const count: nat
    const area: real
    const positions: array<real>
    const velocities: array<real>
    const sizes: array<real>
    const lifetimes: array<real>
    const phases: array<real>
    var opacity: real
    var size: real

    ghost predicate Valid()
      reads this
    {
      && area > 0.0
      && positions.Length == 3 * count && velocities.Length == 3 * count
      && sizes.Length == count && lifetimes.Length == count && phases.Length == count
      && positions != velocities && positions != sizes && positions != lifetimes && positions != phases
      && velocities != sizes && velocities != lifetimes && velocities != phases
      && sizes != lifetimes && sizes != phases && lifetimes != phases
    }

    /** Particle i as the buffers hold it. */
    function At(i: nat): Particle
      reads this, positions, velocities, sizes, lifetimes, phases
      requires Valid() && i < count
    {
      Particle(Vec(positions, i), Vec(velocities, i), sizes[i], lifetimes[i], phases[i])
    }

    /** The useMemo initialisation: buffers of count particles, particle i from draws
        9i .. 9i + 8, and the kind's material. */
    constructor (kind: Kind, count: nat, area: real, draws: seq<real>)
      requires area > 0.0 && |draws| == count * SpawnDraws && AllDraws(draws)
      ensures Valid() && this.kind == kind && this.count == count && this.area == area
      ensures fresh(positions) && fresh(velocities) && fresh(sizes) && fresh(lifetimes) && fresh(phases)
      ensures opacity == BaseOpacity(kind)
      ensures forall i :: 0 <= i < count ==>
        At(i) == Spawn(kind, area, draws[i * SpawnDraws .. (i + 1) * SpawnDraws])
        && SpawnInRange(kind, area, At(i))
    {
      this.kind, this.count, this.area := kind, count, area;
      positions := new real[3 * count];
      velocities := new real[3 * count];
      sizes := new real[count];
      lifetimes := new real[count];
      phases := new real[count];
      opacity := BaseOpacity(kind);
      new;
      for i := 0 to count
        invariant Valid() && opacity == BaseOpacity(kind)
        invariant forall k :: 0 <= k < i ==>
          At(k) == Spawn(kind, area, draws[k * SpawnDraws .. (k + 1) * SpawnDraws])
      {
        Store(i, Spawn(kind, area, draws[i * SpawnDraws .. (i + 1) * SpawnDraws]));
      }
    }

    /** Writes particle i into the five buffers and no other particle. */
    method Store(i: nat, p: Particle)
      requires Valid() && i < count
      modifies positions, velocities, sizes, lifetimes, phases
      ensures At(i) == p
      ensures forall k :: 0 <= k < count && k != i ==> At(k) == old(At(k))
    {
      Put(positions, i, p.position);
      Put(velocities, i, p.velocity);
      sizes[i] := p.size;
      lifetimes[i] := p.lifetime;
      phases[i] := p.phase;
    }

    /** One iteration of the frame loop: particle i advances by Step, no other particle moves. */
    method Advance(i: nat, offset: real, delta: real, redraw: Redraw, drift: Drift) returns (p: Vec3)
      requires Valid() && i < count && ValidOffset(offset) && RedrawValid(redraw) && DriftValid(drift)
      modifies positions, lifetimes
      ensures var m := Step(kind, area, offset, delta, old(Vec(positions, i)), Vec(velocities, i),
                            old(lifetimes[i]), redraw, drift);
        Vec(positions, i) == m.position && lifetimes[i] == m.lifetime && p == m.position
      ensures forall k :: 0 <= k < count && k != i ==>
        Vec(positions, k) == old(Vec(positions, k)) && lifetimes[k] == old(lifetimes[k])
    {
      var m := Step(kind, area, offset, delta, Vec(positions, i), Vec(velocities, i), lifetimes[i], redraw, drift);
      Put(positions, i, m.position);
      lifetimes[i] := m.lifetime;
      p := m.position;
    }

    /** The per-frame callback on the mounted points. redraws[i] are the draws particle i takes
        if it respawns, drifts[i] its drift samples, and root is Math.sqrt. Positions and
        lifetimes advance by Step; velocities, sizes and phases are untouched; the material
        size is left by the last particle, and the opacity follows the scene. */
    method Frame(scroll: Option<real>, delta: real, redraws: seq<Redraw>, drifts: seq<Drift>,
                 root: real -> real)
      requires Valid()
      requires scroll.Some? ==> ValidOffset(scroll.value)
      requires |redraws| == count && |drifts| == count
      requires forall i :: 0 <= i < count ==> RedrawValid(redraws[i]) && DriftValid(drifts[i])
      modifies this, positions, lifetimes
      ensures Valid()
      ensures scroll.None? ==> unchanged(this, positions, lifetimes)
      ensures velocities[..] == old(velocities[..]) && sizes[..] == old(sizes[..]) && phases[..] == old(phases[..])
      ensures scroll.Some? ==> forall i :: 0 <= i < count ==>
        var m := Step(kind, area, scroll.value, delta, old(Vec(positions, i)), Vec(velocities, i),
                      old(lifetimes[i]), redraws[i], drifts[i]);
        Vec(positions, i) == m.position && lifetimes[i] == m.lifetime
      ensures scroll.Some? ==> opacity == Opacity(kind, Visibility(kind, 4.0 * scroll.value))
      ensures scroll.Some? && count > 0 ==> size == SizeAt(sizes[count - 1], Vec(positions, count - 1), area, root)
      ensures scroll.Some? && count == 0 ==> size == old(size)
    {
      if scroll.None? {
        return;
      }
      Update(scroll.value, delta, redraws, drifts, root);
      opacity := Opacity(kind, Visibility(kind, 4.0 * scroll.value));
    }

    /** The particle loop of the frame. */
    method Update(offset: real, delta: real, redraws: seq<Redraw>, drifts: seq<Drift>, root: real -> real)
      requires Valid() && ValidOffset(offset)
      requires |redraws| == count && |drifts| == count
      requires forall i :: 0 <= i < count ==> RedrawValid(redraws[i]) && DriftValid(drifts[i])
      modifies this, positions, lifetimes
      ensures Valid() && opacity == old(opacity)
      ensures velocities[..] == old(velocities[..]) && sizes[..] == old(sizes[..]) && phases[..] == old(phases[..])
      ensures forall i :: 0 <= i < count ==>
        var m := Step(kind, area, offset, delta, old(Vec(positions, i)), Vec(velocities, i),
                      old(lifetimes[i]), redraws[i], drifts[i]);
        Vec(positions, i) == m.position && lifetimes[i] == m.lifetime
      ensures count > 0 ==> size == SizeAt(sizes[count - 1], Vec(positions, count - 1), area, root)
      ensures count == 0 ==> size == old(size)
    {
      var last: Vec3 := Vec3(0.0, 0.0, 0.0);
      for i := 0 to count
        invariant opacity == old(opacity)
        invariant forall k :: 0 <= k < i ==>
          var m := Step(kind, area, offset, delta, old(Vec(positions, k)), Vec(velocities, k),
                        old(lifetimes[k]), redraws[k], drifts[k]);
          Vec(positions, k) == m.position && lifetimes[k] == m.lifetime
        invariant forall k :: i <= k < count ==> Vec(positions, k) == old(Vec(positions, k)) && lifetimes[k] == old(lifetimes[k])
        invariant i > 0 ==> last == Vec(positions, i - 1) && size == SizeAt(sizes[i - 1], last, area, root)
        invariant i == 0 ==> size == old(size)
      {
        last := Advance(i, offset, delta, redraws[i], drifts[i]);
        size := SizeAt(sizes[i], last, area, root);
      }
    }
  }
}
