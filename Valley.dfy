/** The valley scene: tables of decorative trees and rocks drawn once at mount, and a frame
    update that fades the terrain and sways the trees. */
module Valley {
  import opened Common

  /** A decorative tree; rotation is in units of PI. */
  datatype TreeSpot = TreeSpot(position: Vec3, scale: real, rotation: real)

  /** A decorative rock; its three rotation angles are in units of PI. */
  datatype RockSpot = RockSpot(position: Vec3, scale: real, rotation: Vec3)

  const TreeCount: nat := 30
  const RockCount: nat := 20
  /** Math.random calls per tree: x, y, z, scale, rotation. */
  const TreeDraws: nat := 5
  /** Math.random calls per rock: x, y, z, scale and three rotation angles. */
  const RockDraws: nat := 7

  predicate TreeInRange(t: TreeSpot) {
    && -75.0 <= t.position.x < 75.0 && -10.0 <= t.position.y < -5.0 && -75.0 <= t.position.z < 75.0
    && 0.8 <= t.scale < 1.3 && 0.0 <= t.rotation < 2.0
  }

  predicate RockInRange(r: RockSpot) {
    && -90.0 <= r.position.x < 90.0 && -8.0 <= r.position.y < -5.0 && -90.0 <= r.position.z < 90.0
    && 0.5 <= r.scale < 1.3
    && 0.0 <= r.rotation.x < 1.0 && 0.0 <= r.rotation.y < 1.0 && 0.0 <= r.rotation.z < 1.0
  }

  /** One tree from its five draws, in call order. */
  function TreeFrom(d: seq<real>): (t: TreeSpot)
    requires |d| == TreeDraws && AllDraws(d)
    ensures TreeInRange(t)
  {
    TreeSpot(Vec3((d[0] - 0.5) * 150.0, d[1] * 5.0 - 10.0, (d[2] - 0.5) * 150.0), d[3] * 0.5 + 0.8, d[4] * 2.0)
  }

  /** One rock from its seven draws, in call order. */
  function RockFrom(d: seq<real>): (r: RockSpot)
    requires |d| == RockDraws && AllDraws(d)
    ensures RockInRange(r)
  {
    RockSpot(Vec3((d[0] - 0.5) * 180.0, d[1] * 3.0 - 8.0, (d[2] - 0.5) * 180.0), d[3] * 0.8 + 0.5,
             Vec3(d[4], d[5], d[6]))
  }

  /** The trees table: entry i is built from draws 5i .. 5i + 4. */
  method BuildTrees(draws: seq<real>) returns (trees: seq<TreeSpot>)
    requires |draws| == TreeCount * TreeDraws && AllDraws(draws)
    ensures |trees| == TreeCount
    ensures forall i :: 0 <= i < TreeCount ==>
      trees[i] == TreeFrom(draws[i * TreeDraws .. (i + 1) * TreeDraws]) && TreeInRange(trees[i])
  {
    trees := [];
    var i := 0;
    while i < TreeCount
      invariant 0 <= i <= TreeCount && |trees| == i
      invariant forall k :: 0 <= k < i ==>
        trees[k] == TreeFrom(draws[k * TreeDraws .. (k + 1) * TreeDraws]) && TreeInRange(trees[k])
    {
      var d := draws[i * TreeDraws .. (i + 1) * TreeDraws];
      trees := trees + [TreeFrom(d)];
      i := i + 1;
    }
  }

  /** The rocks table: entry i is built from draws 7i .. 7i + 6. */
  method BuildRocks(draws: seq<real>) returns (rocks: seq<RockSpot>)
    requires |draws| == RockCount * RockDraws && AllDraws(draws)
    ensures |rocks| == RockCount
    ensures forall i :: 0 <= i < RockCount ==>
      rocks[i] == RockFrom(draws[i * RockDraws .. (i + 1) * RockDraws]) && RockInRange(rocks[i])
  {
    rocks := [];
    var i := 0;
    while i < RockCount
      invariant 0 <= i <= RockCount && |rocks| == i
      invariant forall k :: 0 <= k < i ==>
        rocks[k] == RockFrom(draws[k * RockDraws .. (k + 1) * RockDraws]) && RockInRange(rocks[k])
    {
      var d := draws[i * RockDraws .. (i + 1) * RockDraws];
      rocks := rocks + [RockFrom(d)];
      i := i + 1;
    }
  }

  /** Terrain opacity max(0, 1 - 2 offset): fully opaque at the start, gone from the middle on. */
  function TerrainOpacity(offset: real): (r: real)
    requires ValidOffset(offset)
    ensures 0.0 <= r <= 1.0
    ensures offset == 0.0 ==> r == 1.0
    ensures r == 0.0 <==> offset >= 0.5
  {
    Max(0.0, 1.0 - offset * 2.0)
  }

  /** The snow line 15 - 10 offset drops from 15 to 5 over the scroll. */
  function SnowLine(offset: real): (r: real)
    requires ValidOffset(offset)
    ensures 5.0 <= r <= 15.0
    ensures offset == 0.0 ==> r == 15.0
    ensures offset == 1.0 ==> r == 5.0
  {
    15.0 - offset * 10.0
  }

  lemma SnowLineFalls(a: real, b: real)
    requires ValidOffset(a) && ValidOffset(b) && a < b
    ensures SnowLine(b) < SnowLine(a)
    ensures TerrainOpacity(b) <= TerrainOpacity(a)
  {
  }

  /** The terrain shader's uniforms (the material always has them). */
  class TerrainUniforms {
    var time: real
    var opacity: real
    var snowLine: real
  }

  /** A child of the valley group: its userData tag and its z rotation. */
  class Node {
    var tag: string
    var rotationZ: real
  }

  predicate Distinct(children: seq<Node>) {
    forall i, j :: 0 <= i < j < |children| ==> children[i] != children[j]
  }

  /** The per-frame callback. mounted is false while the group ref is empty; sways[i] is
      sin(elapsed + i). Only 'tree' children are turned, each by 0.05 of its own sample. */
  method Frame(scroll: Option<real>, elapsed: real, uniforms: TerrainUniforms,
               group: seq<Node>, mounted: bool, sways: seq<real>)
    requires scroll.Some? ==> ValidOffset(scroll.value)
    requires |sways| == |group| && Distinct(group)
    modifies uniforms, set n | n in group
    ensures scroll.None? || !mounted ==> unchanged(uniforms) && unchanged(set n | n in group)
    ensures scroll.Some? && mounted ==>
      && uniforms.time == elapsed
      && uniforms.opacity == TerrainOpacity(scroll.value)
      && uniforms.snowLine == SnowLine(scroll.value)
    ensures scroll.Some? && mounted ==> forall i :: 0 <= i < |group| ==>
      group[i].tag == old(group[i].tag) &&
      group[i].rotationZ == (if group[i].tag == "tree" then sways[i] * 0.05 else old(group[i].rotationZ))
  {
    if scroll.None? || !mounted {
      return;
    }
    var offset := scroll.value;
    uniforms.time := elapsed;
    uniforms.opacity := TerrainOpacity(offset);
    uniforms.snowLine := SnowLine(offset);

    for i := 0 to |group|
      invariant uniforms.time == elapsed && uniforms.opacity == TerrainOpacity(offset)
      invariant uniforms.snowLine == SnowLine(offset)
      invariant forall k :: 0 <= k < |group| ==> group[k].tag == old(group[k].tag)
      invariant forall k :: 0 <= k < i ==>
        group[k].rotationZ == (if group[k].tag == "tree" then sways[k] * 0.05 else old(group[k].rotationZ))
      invariant forall k :: i <= k < |group| ==> group[k].rotationZ == old(group[k].rotationZ)
    {
      if group[i].tag == "tree" {
        group[i].rotationZ := sways[i] * 0.05;
      }
    }
  }
}
