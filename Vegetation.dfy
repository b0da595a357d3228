/** Procedural vegetation of the valley: five scatter loops (grass, flowers, bushes, ferns,
    mushrooms) that try candidate positions and keep those whose noise-derived biome fits, and a
    frame update that scales every vegetation group with the scene and pulses the mushroom glow. */
module Vegetation {
  import opened Common

  datatype Kind = GrassKind | FlowerKind | BushKind | FernKind | MushroomKind

  /** One kept instance; phases are in units of PI. */
  datatype Plant =
    | Grass(id: nat, position: Vec3, height: real, grassType: string, swayPhase: real, swayAmplitude: real,
            density: real)
    | Flower(id: nat, position: Vec3, flowerType: string, height: real, bloomPhase: real, color: string,
             petalCount: nat)
    | Bush(id: nat, position: Vec3, bushType: string, size: real, leafDensity: real, hasBerriesOrFlowers: bool,
           seasonalColor: string)
    | Fern(id: nat, position: Vec3, size: real, frondCount: nat, unfurlPhase: real)
    | Mushroom(id: nat, position: Vec3, mushroomType: string, size: real, capColor: string, glowIntensity: real)

  function KindOf(p: Plant): Kind {
    match p
    case Grass(_, _, _, _, _, _, _) => GrassKind
    case Flower(_, _, _, _, _, _, _) => FlowerKind
    case Bush(_, _, _, _, _, _, _) => BushKind
    case Fern(_, _, _, _, _) => FernKind
    case Mushroom(_, _, _, _, _, _) => MushroomKind
  }

  /** The successive results of Math.random: call k returns stream(k). */
  type Stream = nat -> real

  ghost predicate AllDrawn(stream: Stream) {
    forall k :: IsDraw(stream(k))
  }

  /** The biome fields sampled from the noise at a candidate position (x, z). */
  function Elevation(noise: Noise3, x: real, z: real): real { noise(x * 0.02, z * 0.02, 0.0) * 10.0 }
  function Moisture(noise: Noise3, x: real, z: real): real { noise(x * 0.03, z * 0.03, 100.0) * 0.5 + 0.5 }
  function Sunlight(noise: Noise3, x: real, z: real): real { noise(x * 0.04, z * 0.04, 200.0) * 0.5 + 0.5 }
  function Density(noise: Noise3, x: real, z: real): real { noise(x * 0.05, z * 0.05, 300.0) * 0.5 + 0.5 }
  function Shade(noise: Noise3, x: real, z: real): real { noise(x * 0.06, z * 0.06, 400.0) * 0.5 + 0.5 }

  /** Whether a candidate at (x, z) is kept. */
  function Keep(kind: Kind, noise: Noise3, x: real, z: real): bool {
    match kind
    case GrassKind => Elevation(noise, x, z) < 15.0 && Moisture(noise, x, z) > 0.3
    case FlowerKind => Elevation(noise, x, z) < 12.0 && Sunlight(noise, x, z) > 0.4
    case BushKind => Elevation(noise, x, z) < 18.0 && Density(noise, x, z) > 0.3
    case FernKind => Shade(noise, x, z) > 0.6 && Moisture(noise, x, z) > 0.5
    case MushroomKind => Moisture(noise, x, z) > 0.7 && Shade(noise, x, z) > 0.7
  }

  /** The elevation is ten times a noise sample, so with noise in [-1,1] it never reaches 10: the
      elevation tests of grass, flowers and bushes never reject a candidate, and every bush gets
      the low-elevation green. */
  lemma ElevationNeverDecides(noise: Noise3, x: real, z: real)
    requires NoiseBounded(noise)
    ensures Keep(GrassKind, noise, x, z) <==> Moisture(noise, x, z) > 0.3
    ensures Keep(FlowerKind, noise, x, z) <==> Sunlight(noise, x, z) > 0.4
    ensures Keep(BushKind, noise, x, z) <==> Density(noise, x, z) > 0.3
    ensures SeasonalColor(Elevation(noise, x, z)) == "#228B22"
  {
    assert -1.0 <= noise(x * 0.02, z * 0.02, 0.0) <= 1.0;
  }

  const FlowerTypes: seq<string> := ["daisy", "poppy", "wildflower", "lavender"]
  const BushTypes: seq<string> := ["berry", "shrub", "hedge"]
  const MushroomTypes: seq<string> := ["toadstool", "bracket", "cluster"]

  /** types[floor(r * |types|)] for a draw r: always an element of the list. */
  function Choose(types: seq<string>, r: real): (t: string)
    requires IsDraw(r) && |types| > 0
    ensures t in types
  {
    DrawScaled(r, |types| as real);
    var i := FloorNat(r * |types| as real);
    types[i]
  }

  /** The flower colour table, white for a type it does not list. */
  function FlowerColor(t: string): (c: string)
    ensures t == "poppy" ==> c == "#FF6B6B"
    ensures t == "wildflower" ==> c == "#FFD93D"
    ensures t == "lavender" ==> c == "#9B59B6"
    ensures t !in ["poppy", "wildflower", "lavender"] ==> c == "#FFFFFF"
  {
    var colors := map["daisy" := "#FFFFFF", "poppy" := "#FF6B6B", "wildflower" := "#FFD93D", "lavender" := "#9B59B6"];
    if t in colors then colors[t] else "#FFFFFF"
  }

  /** The mushroom cap colour table, saddle brown for a type it does not list. */
  function MushroomColor(t: string): (c: string)
    ensures t == "toadstool" ==> c == "#FF4444"
    ensures t == "cluster" ==> c == "#DEB887"
    ensures t !in ["toadstool", "cluster"] ==> c == "#8B4513"
  {
    var colors := map["toadstool" := "#FF4444", "bracket" := "#8B4513", "cluster" := "#DEB887"];
    if t in colors then colors[t] else "#8B4513"
  }

  /** Brown above elevation 10, else green. */
  function SeasonalColor(elevation: real): (c: string)
    ensures c == "#8B4513" <==> elevation > 10.0
    ensures c == "#228B22" <==> elevation <= 10.0
  {
    if elevation > 10.0 then "#8B4513" else "#228B22"
  }

  /** Eight petals on a daisy, five on a poppy, six on anything else. */
  function PetalCount(t: string): (n: nat)
    ensures t == "daisy" <==> n == 8
    ensures t == "poppy" <==> n == 5
    ensures t != "daisy" && t != "poppy" <==> n == 6
  {
    if t == "daisy" then 8 else if t == "poppy" then 5 else 6
  }

  /** How many draws a kept instance takes after its two position draws: three, except a mushroom
      that is not a toadstool, which draws no glow. */
  function ExtraDraws(p: Plant): nat {
    if p.Mushroom? && p.mushroomType != "toadstool" then 2 else 3
  }

  /** The fields of a kept instance at (x, z), drawn from stream(at) on. */
  function Grow(kind: Kind, i: nat, x: real, z: real, stream: Stream, at: nat, noise: Noise3): (p: Plant)
    requires IsDraw(stream(at)) && IsDraw(stream(at + 1)) && IsDraw(stream(at + 2))
    ensures KindOf(p) == kind && p.id == i && p.position == Vec3(x, 0.0, z)
  {
    match kind
    case GrassKind =>
      var moisture := Moisture(noise, x, z);
      Grass(i, Vec3(x, 0.0, z), 0.5 + stream(at) * 1.5, if moisture > 0.7 then "lush" else "dry",
            stream(at + 1) * 2.0, 0.1 + stream(at + 2) * 0.2, moisture)
    case FlowerKind =>
      var t := Choose(FlowerTypes, stream(at));
      Flower(i, Vec3(x, 0.0, z), t, 0.3 + stream(at + 1) * 0.8, stream(at + 2) * 2.0, FlowerColor(t), PetalCount(t))
    case BushKind =>
      var t := Choose(BushTypes, stream(at));
      Bush(i, Vec3(x, 0.0, z), t, 1.0 + stream(at + 1) * 2.0, Density(noise, x, z), stream(at + 2) > 0.6,
           SeasonalColor(Elevation(noise, x, z)))
    case FernKind =>
      Fern(i, Vec3(x, 0.0, z), 0.8 + stream(at) * 1.2, 4 + FloorNat(stream(at + 1) * 4.0), stream(at + 2))
    case MushroomKind =>
      var t := Choose(MushroomTypes, stream(at));
      Mushroom(i, Vec3(x, 0.0, z), t, 0.1 + stream(at + 1) * 0.4, MushroomColor(t),
               if t == "toadstool" then stream(at + 2) * 0.3 else 0.0)
  }

  /** The ranges and rules every kept instance obeys. */
  predicate InRange(p: Plant) {
    match p
    case Grass(_, _, height, grassType, swayPhase, swayAmplitude, density) =>
      && 0.5 <= height < 2.0 && 0.0 <= swayPhase < 2.0 && 0.1 <= swayAmplitude < 0.3
      && density > 0.3 && (grassType == "lush" <==> density > 0.7) && (grassType == "dry" <==> density <= 0.7)
    case Flower(_, _, flowerType, height, bloomPhase, color, petalCount) =>
      && flowerType in FlowerTypes && 0.3 <= height < 1.1 && 0.0 <= bloomPhase < 2.0
      && color == FlowerColor(flowerType) && petalCount == PetalCount(flowerType)
    case Bush(_, _, bushType, size, leafDensity, _, _) =>
      bushType in BushTypes && 1.0 <= size < 3.0 && leafDensity > 0.3
    case Fern(_, _, size, frondCount, unfurlPhase) =>
      0.8 <= size < 2.0 && 4 <= frondCount <= 7 && 0.0 <= unfurlPhase < 1.0
    case Mushroom(_, _, mushroomType, size, capColor, glowIntensity) =>
      && mushroomType in MushroomTypes && 0.1 <= size < 0.5 && capColor == MushroomColor(mushroomType)
      && 0.0 <= glowIntensity < 0.3 && (mushroomType != "toadstool" ==> glowIntensity == 0.0)
  }

  /** The candidate position drawn at draw position at: two draws scaled to the square of side
      area around the centre. */
  function Position(stream: Stream, at: nat, area: real): (real, real) {
    ((stream(at) - 0.5) * area, (stream(at + 1) - 0.5) * area)
  }

  /** Attempt i at draw position at: two position draws, then the instance's own draws when the
      biome test passes. Returns the instance, if kept, and the next draw position. */
  function Attempt(kind: Kind, i: nat, stream: Stream, at: nat, noise: Noise3, area: real): (Option<Plant>, nat)
    requires AllDrawn(stream) && area > 0.0
  {
    var (x, z) := Position(stream, at, area);
    if Keep(kind, noise, x, z) then
      var p := Grow(kind, i, x, z, stream, at + 2, noise);
      (Some(p), at + 2 + ExtraDraws(p))
    else (None, at + 2)
  }

  /** A kept instance lies in the square of side area around the centre and obeys its ranges. */
  lemma AttemptInRange(kind: Kind, i: nat, stream: Stream, at: nat, noise: Noise3, area: real)
    requires AllDrawn(stream) && area > 0.0
    ensures at + 2 <= Attempt(kind, i, stream, at, noise, area).1 <= at + 5
    ensures var p := Attempt(kind, i, stream, at, noise, area).0;
      p.Some? ==>
        && InRange(p.value) && KindOf(p.value) == kind && p.value.id == i
        && -area / 2.0 <= p.value.position.x < area / 2.0 && -area / 2.0 <= p.value.position.z < area / 2.0
  {
    var x := Centred(stream(at), area);
    var z := Centred(stream(at + 1), area);
    var s0, s1, s2 := stream(at + 2), stream(at + 3), stream(at + 4);
    assert IsDraw(s0) && IsDraw(s1) && IsDraw(s2);
    if kind == FernKind {
      var n := FloorNat(s1 * 4.0);
      assert n < 4;
    }
  }

  /** The first n attempts of a scatter loop starting at draw position start: the kept instances
      in order, and the next draw position. */
  function Scatter(kind: Kind, n: nat, stream: Stream, start: nat, noise: Noise3, area: real): (r: (seq<Plant>, nat))
    requires AllDrawn(stream) && area > 0.0
    decreases n
  {
    if n == 0 then ([], start)
    else
      var prev := Scatter(kind, n - 1, stream, start, noise, area);
      var a := Attempt(kind, n - 1, stream, prev.1, noise, area);
      (prev.0 + (if a.0.Some? then [a.0.value] else []), a.1)
  }

  /** The candidate position of attempt i. */
  function Candidate(kind: Kind, i: nat, stream: Stream, start: nat, noise: Noise3, area: real): (real, real)
    requires AllDrawn(stream) && area > 0.0
  {
    Position(stream, Scatter(kind, i, stream, start, noise, area).1, area)
  }

  /** After n attempts: at most n instances, of the loop's kind, with increasing ids below n, each
      in its ranges; two to five draws were taken per attempt. */
  lemma {:induction false} ScatterShape(kind: Kind, n: nat, stream: Stream, start: nat, noise: Noise3, area: real)
    requires AllDrawn(stream) && area > 0.0
    ensures var r := Scatter(kind, n, stream, start, noise, area);
      && |r.0| <= n && start + 2 * n <= r.1 <= start + 5 * n
      && (forall j :: 0 <= j < |r.0| ==> r.0[j].id < n && KindOf(r.0[j]) == kind && InRange(r.0[j]))
      && (forall j, k :: 0 <= j < k < |r.0| ==> r.0[j].id < r.0[k].id)
    decreases n
  {
    if n > 0 {
      ScatterShape(kind, n - 1, stream, start, noise, area);
      var prev := Scatter(kind, n - 1, stream, start, noise, area);
      var a := Attempt(kind, n - 1, stream, prev.1, noise, area);
      AttemptInRange(kind, n - 1, stream, prev.1, noise, area);
      ScatterExtend(kind, n - 1, start, prev.0, prev.1, a.0, a.1);
    }
  }

  /** The shape facts of ScatterShape survive one more attempt. */
  lemma ScatterExtend(kind: Kind, n: nat, start: nat, plants: seq<Plant>, at: nat, kept: Option<Plant>, next: nat)
    requires |plants| <= n && start + 2 * n <= at <= start + 5 * n && at + 2 <= next <= at + 5
    requires forall j :: 0 <= j < |plants| ==> plants[j].id < n && KindOf(plants[j]) == kind && InRange(plants[j])
    requires forall j, k :: 0 <= j < k < |plants| ==> plants[j].id < plants[k].id
    requires kept.Some? ==> kept.value.id == n && KindOf(kept.value) == kind && InRange(kept.value)
    ensures var r := plants + (if kept.Some? then [kept.value] else []);
      && |r| <= n + 1 && start + 2 * (n + 1) <= next <= start + 5 * (n + 1)
      && (forall j :: 0 <= j < |r| ==> r[j].id < n + 1 && KindOf(r[j]) == kind && InRange(r[j]))
      && (forall j, k :: 0 <= j < k < |r| ==> r[j].id < r[k].id)
  {
  }

  /** Some instance of the list carries id i. */
  ghost predicate HasId(plants: seq<Plant>, i: nat) {
    exists j :: 0 <= j < |plants| && plants[j].id == i
  }

  /** Whether attempt i passed its biome test. */
  ghost predicate Passed(kind: Kind, i: nat, stream: Stream, start: nat, noise: Noise3, area: real)
    requires AllDrawn(stream) && area > 0.0
  {
    var c := Candidate(kind, i, stream, start, noise, area);
    Keep(kind, noise, c.0, c.1)
  }

  /** The last attempt adds an instance with its own id exactly when it passed. */
  lemma LastAttempt(kind: Kind, n: nat, stream: Stream, start: nat, noise: Noise3, area: real)
    requires AllDrawn(stream) && area > 0.0
    ensures var prev := Scatter(kind, n, stream, start, noise, area).0;
      var plants := Scatter(kind, n + 1, stream, start, noise, area).0;
      && (Passed(kind, n, stream, start, noise, area) ==>
            |plants| == |prev| + 1 && plants[..|prev|] == prev && plants[|prev|].id == n)
      && (!Passed(kind, n, stream, start, noise, area) ==> plants == prev)
  {
    var prev := Scatter(kind, n, stream, start, noise, area);
    var a := Attempt(kind, n, stream, prev.1, noise, area);
    var c := Candidate(kind, n, stream, start, noise, area);
    assert a.0.Some? <==> Keep(kind, noise, c.0, c.1);
    AttemptInRange(kind, n, stream, prev.1, noise, area);
  }

  /** Attempt n keeps every earlier answer to "is there an instance with id i" and answers its
      own id by its biome test. */
  lemma KeptStep(kind: Kind, n: nat, i: nat, stream: Stream, start: nat, noise: Noise3, area: real)
    requires AllDrawn(stream) && area > 0.0 && i <= n
    requires i < n ==> (HasId(Scatter(kind, n, stream, start, noise, area).0, i) <==>
                        Passed(kind, i, stream, start, noise, area))
    ensures HasId(Scatter(kind, n + 1, stream, start, noise, area).0, i) <==> Passed(kind, i, stream, start, noise, area)
  {
    ScatterShape(kind, n, stream, start, noise, area);
    LastAttempt(kind, n, stream, start, noise, area);
    IdsExtend(Scatter(kind, n, stream, start, noise, area).0, Scatter(kind, n + 1, stream, start, noise, area).0,
              n, i, Passed(kind, n, stream, start, noise, area));
  }

  /** Appending an instance with id n to a list whose ids are all below n, or appending nothing,
      keeps every answer for ids below n, and answers id n by whether something was appended. */
  lemma IdsExtend(prev: seq<Plant>, plants: seq<Plant>, n: nat, i: nat, passed: bool)
    requires i <= n && forall j :: 0 <= j < |prev| ==> prev[j].id < n
    requires passed ==> |plants| == |prev| + 1 && plants[..|prev|] == prev && plants[|prev|].id == n
    requires !passed ==> plants == prev
    ensures i < n ==> (HasId(plants, i) <==> HasId(prev, i))
    ensures i == n ==> (HasId(plants, i) <==> passed)
  {
    if passed {
      if HasId(plants, i) && i < n {
        var j :| 0 <= j < |plants| && plants[j].id == i;
        assert j < |prev|;
        assert plants[j] == plants[..|prev|][j];
      }
      if HasId(prev, i) {
        var j :| 0 <= j < |prev| && prev[j].id == i;
        assert plants[j] == plants[..|prev|][j];
      }
      if i == n {
        assert plants[|prev|].id == i;
      }
    }
  }

  /** Some instance carries id i exactly when attempt i passed its biome test. */
  lemma {:induction false} ScatterKeeps(kind: Kind, n: nat, stream: Stream, start: nat, noise: Noise3, area: real)
    requires AllDrawn(stream) && area > 0.0
    ensures var plants := Scatter(kind, n, stream, start, noise, area).0;
      forall i :: 0 <= i < n ==> (HasId(plants, i) <==> Passed(kind, i, stream, start, noise, area))
    decreases n
  {
    if n > 0 {
      ScatterKeeps(kind, n - 1, stream, start, noise, area);
      forall i | 0 <= i < n
        ensures HasId(Scatter(kind, n, stream, start, noise, area).0, i) <==> Passed(kind, i, stream, start, noise, area)
      {
        KeptStep(kind, n - 1, i, stream, start, noise, area);
      }
    }
  }

  /** One scatter loop: count attempts from draw position start. */
  method Generate(kind: Kind, count: nat, stream: Stream, start: nat, noise: Noise3, area: real)
    returns (plants: seq<Plant>, next: nat)
    requires AllDrawn(stream) && area > 0.0
    ensures (plants, next) == Scatter(kind, count, stream, start, noise, area)
  {
    plants, next := [], start;
    var i := 0;
    while i < count
      invariant 0 <= i <= count
      invariant plants == Scatter(kind, i, stream, start, noise, area).0
      invariant next == Scatter(kind, i, stream, start, noise, area).1
    {
      var (kept, after) := Attempt(kind, i, stream, next, noise, area);
      if kept.Some? {
        plants := plants + [kept.value];
      }
      next := after;
      i := i + 1;
    }
  }

  /** The instance table, one list per kind. */
  datatype Instances = Instances(grass: seq<Plant>, flowers: seq<Plant>, bushes: seq<Plant>, ferns: seq<Plant>,
                                 mushrooms: seq<Plant>)

  const FernAttempts: nat := 40
  const MushroomAttempts: nat := 25

  /** vegetationInstances: the five loops in order, each continuing the random stream where the
      previous one stopped. */
  method BuildInstances(grassDensity: nat, flowerDensity: nat, bushDensity: nat, area: real, stream: Stream,
                        noise: Noise3)
    returns (table: Instances)
    requires AllDrawn(stream) && area > 0.0
    ensures var g := Scatter(GrassKind, grassDensity, stream, 0, noise, area);
      var f := Scatter(FlowerKind, flowerDensity, stream, g.1, noise, area);
      var b := Scatter(BushKind, bushDensity, stream, f.1, noise, area);
      var e := Scatter(FernKind, FernAttempts, stream, b.1, noise, area);
      var m := Scatter(MushroomKind, MushroomAttempts, stream, e.1, noise, area);
      table == Instances(g.0, f.0, b.0, e.0, m.0)
  {
    var grass, flowers, bushes, ferns, mushrooms;
    var at := 0;
    grass, at := Generate(GrassKind, grassDensity, stream, at, noise, area);
    flowers, at := Generate(FlowerKind, flowerDensity, stream, at, noise, area);
    bushes, at := Generate(BushKind, bushDensity, stream, at, noise, area);
    ferns, at := Generate(FernKind, FernAttempts, stream, at, noise, area);
    mushrooms, at := Generate(MushroomKind, MushroomAttempts, stream, at, noise, area);
    table := Instances(grass, flowers, bushes, ferns, mushrooms);
  }

  /** Scene visibility of the vegetation at scroll progress p = 4 * offset: fades in over the
      first scene, fades out slowly over the second, and is zero from progress 2 on. */
  function Visibility(progress: real): (v: real)
    ensures 0.0 <= v <= 1.0
    ensures v > 0.0 <==> 0.0 < progress < 2.0
    ensures v == 1.0 <==> progress == 1.0
    ensures 1.0 <= progress < 2.0 ==> v > 0.7
  {
    if 0.0 <= progress < 2.0 then
      if progress < 1.0 then progress else 1.0 - (progress - 1.0) * 0.3
    else 0.0
  }

  /** The glow of one mushroom part as the frame writes it: the part's emissive intensity
      multiplied by a factor in [0.6, 1] built from the wave sample s. */
  function PulseAsWritten(current: real, s: real): (r: real)
    requires IsUnit(s)
    ensures current > 0.0 ==> 0.6 * current <= r <= current
    ensures current > 0.0 ==> (r == current <==> s == 1.0)
    ensures current <= 0.0 ==> r == current
  {
    if current > 0.0 then MulUnitStep(current, s) else current
  }

  /** current * (0.8 + 0.2 * s) for s in [-1, 1], between 0.6 * current and current. */
  function MulUnitStep(current: real, s: real): (r: real)
    requires IsUnit(s) && current > 0.0
    ensures 0.6 * current <= r <= current
    ensures r == current <==> s == 1.0
  {
    Swing(s, current);
    current * (0.8 + s * 0.2)
  }

  /** The glow after a run of frames whose wave samples are ws, as written. */
  function GlowAfter(current: real, ws: seq<real>): real
    requires AllUnit(ws)
    decreases |ws|
  {
    if |ws| == 0 then current else GlowAfter(PulseAsWritten(current, ws[0]), ws[1..])
  }

  /** As written the glow compounds: it never rises, and once a frame's wave sample is below its
      crest it stays below its starting value for good. */
  lemma {:induction false} GlowNeverRecovers(current: real, ws: seq<real>)
    requires AllUnit(ws) && current > 0.0
    ensures 0.0 < GlowAfter(current, ws) <= current
    ensures (exists i :: 0 <= i < |ws| && ws[i] < 1.0) ==> GlowAfter(current, ws) < current
    decreases |ws|
  {
    if |ws| > 0 {
      var next := PulseAsWritten(current, ws[0]);
      GlowNeverRecovers(next, ws[1..]);
      if exists i :: 0 <= i < |ws| && ws[i] < 1.0 {
        var i :| 0 <= i < |ws| && ws[i] < 1.0;
        if i > 0 {
          assert ws[1..][i - 1] < 1.0;
        }
      }
    }
  }

  /** Two frames at wave sample 0 take a toadstool glowing at 0.3 to 0.192, where a pulse around
      its base gives 0.24. */
  lemma GlowCompounds()
    ensures GlowAfter(0.3, [0.0, 0.0]) == 0.192
    ensures Pulse(0.3, 0.0) == 0.24
  {
    assert [0.0, 0.0][1..] == [0.0];
    assert [0.0][1..] == [];
  }

  /** The intended pulse: the part's own base intensity times 0.8 + 0.2 * s. */
  function Pulse(base: real, s: real): (r: real)
    requires IsUnit(s) && base > 0.0
    ensures 0.6 * base <= r <= base
    ensures r == base <==> s == 1.0
  {
    MulUnitStep(base, s)
  }

  /** A material of a mushroom part: base is the emissive intensity it was created with (the
      glow for a cap, three.js's default of 1 for stem and spots). */
  class Glow {
    const base: real
    var emissiveIntensity: real

    constructor (base: real)
      ensures this.base == base && emissiveIntensity == base
    {
      this.base := base;
      emissiveIntensity := base;
    }
  }

  /** One vegetation item: its mushroom-part materials (empty for the other kinds). */
  class Item {
    const parts: seq<Glow>

    constructor (parts: seq<Glow>)
      ensures this.parts == parts
    {
      this.parts := parts;
    }
  }

  /** One of the five vegetation groups. */
  class VegGroup {
    var scale: real
    const items: seq<Item>

    constructor (items: seq<Item>)
      ensures this.items == items && scale == 1.0
    {
      this.items := items;
      scale := 1.0;
    }
  }

  /** The index of the mushroom group among the five. */
  const MushroomGroup: nat := 4

  /** The materials of the items' parts. */
  ghost function Glows(items: seq<Item>): set<Glow> {
    set it, g: Glow | it in items && g in it.parts :: g
  }

  /** No material is shared by two item slots. */
  ghost predicate Separate(items: seq<Item>) {
    forall j1, k1, j2, k2 ::
      (0 <= j1 < |items| && 0 <= j2 < |items| && 0 <= k1 < |items[j1].parts| && 0 <= k2 < |items[j2].parts|
       && items[j1].parts[k1] == items[j2].parts[k2]) ==> j1 == j2 && k1 == k2
  }

  /** The new glow of a material under wave sample s: the pulse around its base when it has one. */
  function Glowing(g: Glow, s: real, current: real): real
    requires IsUnit(s)
    reads g
  {
    if g.base > 0.0 then Pulse(g.base, s) else current
  }

  /** Pulse every material of one item. */
  method PulseParts(parts: seq<Glow>, s: real)
    requires IsUnit(s)
    requires forall k1, k2 :: 0 <= k1 < k2 < |parts| ==> parts[k1] != parts[k2]
    modifies set g | g in parts
    ensures forall k :: 0 <= k < |parts| ==>
      parts[k].emissiveIntensity == Glowing(parts[k], s, old(parts[k].emissiveIntensity))
  {
    for k := 0 to |parts|
      invariant forall k' :: 0 <= k' < k ==>
        parts[k'].emissiveIntensity == Glowing(parts[k'], s, old(parts[k'].emissiveIntensity))
      invariant forall k' :: k <= k' < |parts| ==> parts[k'].emissiveIntensity == old(parts[k'].emissiveIntensity)
    {
      if parts[k].base > 0.0 {
        parts[k].emissiveIntensity := Pulse(parts[k].base, s);
      }
    }
  }

  /** Pulse every material of the mushroom group; item j uses wave sample wave[j]. */
  method PulseItems(items: seq<Item>, wave: seq<real>)
    requires AllUnit(wave) && |wave| == |items| && Separate(items)
    modifies Glows(items)
    ensures forall j, k :: 0 <= j < |items| && 0 <= k < |items[j].parts| ==>
      items[j].parts[k].emissiveIntensity == Glowing(items[j].parts[k], wave[j], old(items[j].parts[k].emissiveIntensity))
  {
    for j := 0 to |items|
      invariant forall j', k :: 0 <= j' < j && 0 <= k < |items[j'].parts| ==>
        items[j'].parts[k].emissiveIntensity == Glowing(items[j'].parts[k], wave[j'], old(items[j'].parts[k].emissiveIntensity))
      invariant forall j', k :: j <= j' < |items| && 0 <= k < |items[j'].parts| ==>
        items[j'].parts[k].emissiveIntensity == old(items[j'].parts[k].emissiveIntensity)
    {
      var it := items[j];
      assert it in items;
      PulseParts(it.parts, wave[j]);
    }
  }

  /** The per-frame callback (mounted is false while the group ref is empty): every group is
      scaled by the visibility, and the mushroom group's materials pulse, item j by wave[j]. The
      sways of the other groups are not modelled. */
  method Frame(scroll: Option<real>, mounted: bool, groups: seq<VegGroup>, wave: seq<real>)
    requires scroll.Some? ==> ValidOffset(scroll.value)
    requires |groups| > MushroomGroup ==> AllUnit(wave) && |wave| == |groups[MushroomGroup].items|
    requires |groups| > MushroomGroup ==> Separate(groups[MushroomGroup].items)
    modifies (set g | g in groups), if |groups| > MushroomGroup then Glows(groups[MushroomGroup].items) else {}
    ensures scroll.None? || !mounted ==>
      unchanged(set g | g in groups) && (|groups| > MushroomGroup ==> unchanged(Glows(groups[MushroomGroup].items)))
    ensures scroll.Some? && mounted ==> forall i :: 0 <= i < |groups| ==>
      groups[i].scale == Visibility(4.0 * scroll.value)
    ensures scroll.Some? && mounted && |groups| > MushroomGroup ==>
      var items := groups[MushroomGroup].items;
      forall j, k :: 0 <= j < |items| && 0 <= k < |items[j].parts| ==>
        items[j].parts[k].emissiveIntensity == Glowing(items[j].parts[k], wave[j], old(items[j].parts[k].emissiveIntensity))
  {
    if scroll.None? || !mounted {
      return;
    }
    var vis := Visibility(4.0 * scroll.value);
    for i := 0 to |groups|
      invariant forall i' :: 0 <= i' < i ==> groups[i'].scale == vis
      invariant |groups| > MushroomGroup && i <= MushroomGroup ==>
        unchanged(Glows(groups[MushroomGroup].items))
      invariant |groups| > MushroomGroup && i > MushroomGroup ==>
        var items := groups[MushroomGroup].items;
        forall j, k :: 0 <= j < |items| && 0 <= k < |items[j].parts| ==>
          items[j].parts[k].emissiveIntensity == Glowing(items[j].parts[k], wave[j], old(items[j].parts[k].emissiveIntensity))
    {
      groups[i].scale := vis;
      if i == MushroomGroup {
        PulseItems(groups[i].items, wave);
      }
    }
  }
}
