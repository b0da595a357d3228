/** Shared vocabulary of the scroll-driven scene: the scroll offset, 3-vectors,
    linear interpolation and the few JavaScript numeric operators the components use.
    Everything is exact `real` arithmetic; 32-bit float rounding is not modelled. */
module Common {

  /** The scroll hook hands every component one number per frame; it is taken to lie in [0,1]. */
  predicate ValidOffset(o: real) {
    0.0 <= o <= 1.0
  }

  /** A draw of Math.random(): a value in [0,1). */
  predicate IsDraw(r: real) {
    0.0 <= r < 1.0
  }

  /** A sample of sin or cos: a value in [-1,1]. */
  predicate IsUnit(s: real) {
    -1.0 <= s <= 1.0
  }

  predicate AllDraws(rs: seq<real>) {
    forall i :: 0 <= i < |rs| ==> IsDraw(rs[i])
  }

  predicate AllUnit(ss: seq<real>) {
    forall i :: 0 <= i < |ss| ==> IsUnit(ss[i])
  }

  /** A 3D simplex-noise field as used by the components: noise3D(x, y, z). */
  type Noise3 = (real, real, real) -> real

  /** What the components rely on from the noise library: samples lie in [-1,1]. */
  ghost predicate NoiseBounded(noise: Noise3) {
    forall a, b, c :: -1.0 <= noise(a, b, c) <= 1.0
  }

  /** Math.sqrt, characterised by what it returns on non-negative arguments. */
  ghost predicate IsSqrt(sqrt: real -> real) {
    forall a :: a >= 0.0 ==> sqrt(a) >= 0.0 && sqrt(a) * sqrt(a) == a
  }

  datatype Option<T> = None | Some(value: T)

  datatype Vec3 = Vec3(x: real, y: real, z: real)

  function Max(a: real, b: real): (r: real)
    ensures r >= a && r >= b
    ensures r == a || r == b
  {
    if a >= b then a else b
  }

  function Min(a: real, b: real): (r: real)
    ensures r <= a && r <= b
    ensures r == a || r == b
  {
    if a <= b then a else b
  }

  predicate Between(v: real, a: real, b: real) {
    Min(a, b) <= v <= Max(a, b)
  }

  /** THREE.MathUtils.lerp(a, b, t) = (1 - t) * a + t * b. */
  function Lerp(a: real, b: real, t: real): (r: real)
    requires 0.0 <= t <= 1.0
    ensures Between(r, a, b)
    ensures t == 0.0 ==> r == a
    ensures t == 1.0 ==> r == b
    ensures a == b ==> r == a
  {
    LerpBounds(a, b, t);
    (1.0 - t) * a + t * b
  }

  lemma LerpBounds(a: real, b: real, t: real)
    requires 0.0 <= t <= 1.0
    ensures Between((1.0 - t) * a + t * b, a, b)
  {
    if a <= b {
      var d := b - a;
      MulUnit(t, d);
      var p := t * d;
      assert a <= a + p <= b;
      assert (1.0 - t) * a + t * b == a + p;
    } else {
      var d := a - b;
      var s := 1.0 - t;
      MulUnit(s, d);
      var p := s * d;
      assert b <= b + p <= a;
      assert (1.0 - t) * a + t * b == b + p;
    }
  }

  /** Scaling by a factor in [0,1] shrinks a non-negative quantity. */
  lemma MulUnit(t: real, d: real)
    requires 0.0 <= t <= 1.0 && d >= 0.0
    ensures 0.0 <= t * d <= d
  {
  }

  /** A draw scaled by a positive length stays below that length. */
  lemma DrawScaled(r: real, n: real)
    requires IsDraw(r) && n > 0.0
    ensures 0.0 <= r * n < n
  {
    MulUnit(r, n);
    assert n - r * n == (1.0 - r) * n;
  }

  /** A unit sample times a non-negative extent stays within that extent. */
  lemma Swing(s: real, bound: real)
    requires IsUnit(s) && bound >= 0.0
    ensures -bound <= s * bound <= bound
  {
    if s >= 0.0 { MulUnit(s, bound); } else { MulUnit(-s, bound); }
  }

  /** A draw scaled by a non-negative extent, r * a, lies in [0, a]. */
  function Scaled(r: real, a: real): (v: real)
    requires IsDraw(r) && a >= 0.0
    ensures 0.0 <= v <= a
    ensures a > 0.0 ==> v < a
  {
    var rest := 1.0 - r;
    assert rest * a >= 0.0;
    assert r * a == a - rest * a;
    assert a > 0.0 ==> rest * a > 0.0;
    r * a
  }

  /** A centred draw scaled by a positive extent, (r - 0.5) * a, lies in [-a/2, a/2). */
  function Centred(r: real, a: real): (v: real)
    requires IsDraw(r) && a > 0.0
    ensures -a / 2.0 <= v < a / 2.0
  {
    var s := Scaled(r, a);
    assert (r - 0.5) * a == s - a / 2.0;
    (r - 0.5) * a
  }

  /** JavaScript `x % 1` (truncating remainder) for the non-negative arguments the components pass. */
  function Frac(x: real): (r: real)
    requires x >= 0.0
    ensures 0.0 <= r < 1.0
    ensures (x - r).Floor as real == x - r
    ensures x == x.Floor as real ==> r == 0.0
  {
    x - x.Floor as real
  }

  /** JavaScript `Math.floor` on a non-negative real, as the scene index. */
  function FloorNat(x: real): (n: nat)
    requires x >= 0.0
    ensures n as real <= x < n as real + 1.0
  {
    x.Floor
  }
}
