/** The flock: fifteen birds drawn once at mount, each flying around its own base point and
    flapping mirrored wings, fading out as the scroll climbs. */
module Birds {
  import opened Common

  /** A bird record; phase and wingPhase are in units of PI. */
  datatype Bird = Bird(id: nat, position: Vec3, speed: real, phase: real, wingPhase: real)

  const BirdCount: nat := 15
  /** Math.random calls per bird: x, y, z, speed, phase, wing phase. */
  const BirdDraws: nat := 6

  predicate BirdInRange(b: Bird) {
    && -50.0 <= b.position.x < 50.0 && 10.0 <= b.position.y < 30.0 && -50.0 <= b.position.z < 50.0
    && 0.3 <= b.speed < 0.8 && 0.0 <= b.phase < 2.0 && 0.0 <= b.wingPhase < 2.0
  }

  function BirdFrom(id: nat, d: seq<real>): (b: Bird)
    requires |d| == BirdDraws && AllDraws(d)
    ensures BirdInRange(b) && b.id == id
  {
    Bird(id, Vec3((d[0] - 0.5) * 100.0, d[1] * 20.0 + 10.0, (d[2] - 0.5) * 100.0), d[3] * 0.5 + 0.3,
         d[4] * 2.0, d[5] * 2.0)
  }

  /** The birds table: bird i has id i and is built from draws 6i .. 6i + 5. */
  method BuildBirds(draws: seq<real>) returns (birds: seq<Bird>)
    requires |draws| == BirdCount * BirdDraws && AllDraws(draws)
    ensures |birds| == BirdCount
    ensures forall i :: 0 <= i < BirdCount ==>
      birds[i] == BirdFrom(i, draws[i * BirdDraws .. (i + 1) * BirdDraws]) && BirdInRange(birds[i])
  {
    birds := [];
    var i := 0;
    while i < BirdCount
      invariant 0 <= i <= BirdCount && |birds| == i
      invariant forall k :: 0 <= k < i ==>
        birds[k] == BirdFrom(k, draws[k * BirdDraws .. (k + 1) * BirdDraws]) && BirdInRange(birds[k])
    {
      birds := birds + [BirdFrom(i, draws[i * BirdDraws .. (i + 1) * BirdDraws])];
      i := i + 1;
    }
  }

  /** Bird opacity max(0, 0.8 - 1.2 offset): 0.8 at the start, gone from two thirds on. */
  function Opacity(offset: real): (r: real)
    requires ValidOffset(offset)
    ensures 0.0 <= r <= 0.8
    ensures offset == 0.0 ==> r == 0.8
    ensures r == 0.0 <==> offset * 3.0 >= 2.0
  {
    Max(0.0, 0.8 - offset * 1.2)
  }

  /** The flock only fades as the scroll advances. */
  lemma OpacityFalls(a: real, b: real)
    requires ValidOffset(a) && ValidOffset(b) && a <= b
    ensures Opacity(b) <= Opacity(a)
  {
  }

  /** Flight around the base point, by at most 20, 3 and 15 units; the samples are
      sin(t s + phase), sin(t s / 2 + phase) and cos(t s + phase) for the bird's speed s. */
  function Flight(base: Vec3, sample: Vec3): (p: Vec3)
    requires IsUnit(sample.x) && IsUnit(sample.y) && IsUnit(sample.z)
    ensures -20.0 <= p.x - base.x <= 20.0 && -3.0 <= p.y - base.y <= 3.0 && -15.0 <= p.z - base.z <= 15.0
  {
    Vec3(base.x + sample.x * 20.0, base.y + sample.y * 3.0, base.z + sample.z * 15.0)
  }

  /** The wing flap 0.3 sin(8 t + wingPhase). */
  function WingFlap(sinSample: real): (r: real)
    requires IsUnit(sinSample)
    ensures -0.3 <= r <= 0.3
  {
    sinSample * 0.3
  }

  /** A wing mesh; rotationZ is in radians. */
  class Wing {
    var rotationZ: real
  }

  /** A bird group: its position, heading and its optional second and third children, the
      left and right wings. */
  class BirdGroup {
    var position: Vec3
    var rotationY: real
    const left: Wing?
    const right: Wing?

    constructor (left: Wing?, right: Wing?)
      ensures this.left == left && this.right == right
    {
      this.left, this.right := left, right;
    }
  }

  class Material {
    var opacity: real
  }

  /** The objects the frame may write for the groups. */
  function Parts(groups: seq<BirdGroup>): set<object> {
    (set g | g in groups :: g as object)
    + (set g | g in groups && g.left != null :: g.left as object)
    + (set g | g in groups && g.right != null :: g.right as object)
  }

  /** Groups and wings are all distinct objects. */
  predicate Distinct(groups: seq<BirdGroup>) {
    && (forall i, j :: 0 <= i < j < |groups| ==> groups[i] != groups[j])
    && (forall i, j :: 0 <= i < |groups| && 0 <= j < |groups| && groups[i].left != null ==>
          groups[i].left != groups[j].right)
    && (forall i, j :: 0 <= i < j < |groups| && groups[i].left != null ==> groups[i].left != groups[j].left)
    && (forall i, j :: 0 <= i < j < |groups| && groups[i].right != null ==> groups[i].right != groups[j].right)
  }

  /** One bird group's update. */
  method Animate(g: BirdGroup, bird: Bird, flight: Vec3, flap: real)
    requires IsUnit(flight.x) && IsUnit(flight.y) && IsUnit(flight.z) && IsUnit(flap)
    requires g.left == null || g.left != g.right
    modifies g, g.left, g.right
    ensures g.position == Flight(bird.position, flight) && g.rotationY == flight.x * 0.5
    ensures g.rotationY * 40.0 == g.position.x - bird.position.x
    ensures g.left != null ==> g.left.rotationZ == WingFlap(flap)
    ensures g.right != null ==> g.right.rotationZ == -WingFlap(flap)
  {
    g.position := Flight(bird.position, flight);
    var wing := WingFlap(flap);
    if g.left != null {
      g.left.rotationZ := wing;
    }
    if g.right != null {
      g.right.rotationZ := -wing;
    }
    g.rotationY := flight.x * 0.5;
  }

  /** The per-frame callback on the mounted group. Child i reads birds[i]; the group holds one
      child per bird, so |groups| <= |birds|. flights[i] are the three flight samples, flaps[i]
      is sin(8 t + wingPhase). The heading is sin(t s + phase), the same sample as the x of the flight,
      so a bird turns in step with its sideways swing. */
  method Frame(scroll: Option<real>, mounted: bool, birds: seq<Bird>, groups: seq<BirdGroup>, material: Material,
               flights: seq<Vec3>, flaps: seq<real>)
    requires scroll.Some? ==> ValidOffset(scroll.value)
    requires |groups| <= |birds| && |flights| == |groups| && |flaps| == |groups|
    requires forall i :: 0 <= i < |groups| ==>
      IsUnit(flights[i].x) && IsUnit(flights[i].y) && IsUnit(flights[i].z) && IsUnit(flaps[i])
    requires Distinct(groups)
    modifies material, Parts(groups)
    ensures scroll.None? || !mounted ==> unchanged(material) && unchanged(Parts(groups))
    ensures scroll.Some? && mounted ==> material.opacity == Opacity(scroll.value)
    ensures scroll.Some? && mounted ==> forall i :: 0 <= i < |groups| ==>
      && groups[i].position == Flight(birds[i].position, flights[i])
      && groups[i].rotationY == flights[i].x * 0.5
      && groups[i].rotationY * 40.0 == groups[i].position.x - birds[i].position.x
      && (groups[i].left != null ==> groups[i].left.rotationZ == WingFlap(flaps[i]))
      && (groups[i].right != null ==> groups[i].right.rotationZ == -WingFlap(flaps[i]))
  {
    if scroll.None? || !mounted {
      return;
    }
    material.opacity := Opacity(scroll.value);
    for i := 0 to |groups|
      invariant material.opacity == Opacity(scroll.value)
      invariant forall k :: 0 <= k < i ==>
        && groups[k].position == Flight(birds[k].position, flights[k])
        && groups[k].rotationY == flights[k].x * 0.5
        && groups[k].rotationY * 40.0 == groups[k].position.x - birds[k].position.x
        && (groups[k].left != null ==> groups[k].left.rotationZ == WingFlap(flaps[k]))
        && (groups[k].right != null ==> groups[k].right.rotationZ == -WingFlap(flaps[k]))
    {
      var g := groups[i];
      assert g in groups;
      Animate(g, birds[i], flights[i], flaps[i]);
    }
  }
}
