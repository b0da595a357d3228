/** The mountain scene: three rings of cone mountains drawn once at mount, and a frame update
    that fades the shared mountain and snow materials and moves each layer for parallax. */
module Mountains {
  import opened Common

  /** One mountain; angle is its bearing on the ring, in units of PI. */
  datatype Peak = Peak(angle: real, radius: real, baseY: real, height: real, width: real,
                       depth: real, snowLevel: real)

  datatype Layer = Layer(peaks: seq<Peak>, distance: nat, opacity: real)

  const LayerCount: nat := 3
  /** Math.random calls per mountain: y, height, width, depth, snow level. */
  const PeakDraws: nat := 5

  function PeakCount(layer: nat): (n: nat)
    requires layer < LayerCount
    ensures n == 8 || n == 6 || n == 4
  {
    8 - layer * 2
  }

  function Radius(layer: nat): real {
    60.0 + layer as real * 30.0
  }

  function LayerOpacity(layer: nat): (r: real)
    requires layer < LayerCount
    ensures 0.6 <= r <= 1.0
  {
    1.0 - layer as real * 0.2
  }

  /** The index of a layer's first draw: layers consume 40, 30 and 20 draws in turn. */
  function LayerStart(layer: nat): (s: nat)
    requires layer <= LayerCount
    ensures layer < LayerCount ==> s + PeakCount(layer) * PeakDraws <= 90
  {
    if layer == 0 then 0 else if layer == 1 then 40 else if layer == 2 then 70 else 90
  }

  predicate PeakInRange(layer: nat, p: Peak) {
    && 15.0 + 5.0 * layer as real <= p.baseY < 25.0 + 5.0 * layer as real
    && 25.0 - 5.0 * layer as real <= p.height < 45.0 - 5.0 * layer as real
    && 10.0 <= p.width < 18.0 && 10.0 <= p.depth < 18.0
    && 0.6 <= p.snowLevel < 0.9
    && p.radius == Radius(layer) && 0.0 <= p.angle < 2.0
  }

  /** Mountain i of a layer from its five draws, in call order. */
  function PeakFrom(layer: nat, i: nat, d: seq<real>): (p: Peak)
    requires layer < LayerCount && i < PeakCount(layer)
    requires |d| == PeakDraws && AllDraws(d)
    ensures PeakInRange(layer, p)
    ensures p.angle * (PeakCount(layer) as real) == 2.0 * i as real
  {
    var n := PeakCount(layer) as real;
    Peak(i as real / n * 2.0, Radius(layer), d[0] * 10.0 + 15.0 + layer as real * 5.0,
         d[1] * 20.0 + 25.0 - layer as real * 5.0, d[2] * 8.0 + 10.0, d[3] * 8.0 + 10.0,
         d[4] * 0.3 + 0.6)
  }

  predicate LayerBuiltFrom(l: nat, layer: Layer, draws: seq<real>)
    requires l < LayerCount && |draws| == LayerStart(LayerCount) && AllDraws(draws)
  {
    && |layer.peaks| == PeakCount(l)
    && layer.distance == l && layer.opacity == LayerOpacity(l)
    && forall i :: 0 <= i < PeakCount(l) ==>
         layer.peaks[i] == PeakFrom(l, i, draws[LayerStart(l) + i * PeakDraws .. LayerStart(l) + (i + 1) * PeakDraws])
  }

  /** The mountainLayers table: two nested loops consuming the draws in order. */
  method BuildLayers(draws: seq<real>) returns (layers: seq<Layer>)
    requires |draws| == LayerStart(LayerCount) && AllDraws(draws)
    ensures |layers| == LayerCount
    ensures forall l :: 0 <= l < LayerCount ==> LayerBuiltFrom(l, layers[l], draws)
    ensures forall l, i :: 0 <= l < LayerCount && 0 <= i < |layers[l].peaks| ==>
      PeakInRange(l, layers[l].peaks[i])
  {
    layers := [];
    var l := 0;
    while l < LayerCount
      invariant 0 <= l <= LayerCount && |layers| == l
      invariant forall m :: 0 <= m < l ==> LayerBuiltFrom(m, layers[m], draws)
    {
      var n := PeakCount(l);
      var peaks: seq<Peak> := [];
      var i := 0;
      while i < n
        invariant 0 <= i <= n && |peaks| == i
        invariant forall k :: 0 <= k < i ==>
          peaks[k] == PeakFrom(l, k, draws[LayerStart(l) + k * PeakDraws .. LayerStart(l) + (k + 1) * PeakDraws])
      {
        var at := LayerStart(l) + i * PeakDraws;
        peaks := peaks + [PeakFrom(l, i, draws[at .. at + PeakDraws])];
        i := i + 1;
      }
      layers := layers + [Layer(peaks, l, LayerOpacity(l))];
      l := l + 1;
    }
  }

  /** Visibility: rises over [0.25, 0.5], falls over [0.5, 0.75], zero elsewhere. */
  function Visibility(offset: real): (v: real)
    requires ValidOffset(offset)
    ensures 0.0 <= v <= 1.0
    ensures v > 0.0 <==> 0.25 < offset < 0.75
    ensures v == 1.0 <==> offset == 0.5
  {
    if offset < 0.25 then 0.0
    else if offset < 0.5 then (offset - 0.25) * 4.0
    else if offset < 0.75 then 1.0 - (offset - 0.5) * 4.0
    else 0.0
  }

  /** The fade is continuous: it meets 0 at both ends and 1 at the peak, and is symmetric. */
  lemma VisibilitySymmetric(d: real)
    requires 0.0 <= d <= 0.5
    ensures Visibility(0.5 - d) == Visibility(0.5 + d)
  {
  }

  /** Parallax: the group of layer index i is pushed back by offset * (1 + 0.5 i) * 20. */
  function Parallax(i: nat, offset: real): (z: real)
    requires ValidOffset(offset)
    ensures 0.0 <= z <= 20.0 + 10.0 * i as real
    ensures offset == 0.0 ==> z == 0.0
  {
    offset * (1.0 + i as real * 0.5) * 20.0
  }

  /** Nearer layers (larger index) move faster. */
  lemma ParallaxOrdered(i: nat, j: nat, offset: real)
    requires ValidOffset(offset) && i < j
    ensures Parallax(i, offset) <= Parallax(j, offset)
    ensures offset > 0.0 ==> Parallax(i, offset) < Parallax(j, offset)
  {
    var a := 1.0 + i as real * 0.5;
    var b := 1.0 + j as real * 0.5;
    assert a < b;
    assert Parallax(i, offset) == (offset * a) * 20.0;
    assert Parallax(j, offset) == (offset * b) * 20.0;
    var pa, pb := offset * a, offset * b;
    var d := b - a;
    MulUnit(offset, d);
    assert pb - pa == offset * d;
    assert pa <= pb;
    assert offset > 0.0 ==> pa < pb;
    assert pa * 20.0 <= pb * 20.0;
  }

  /** Which material a mesh under a child group uses. */
  datatype MaterialKind = MountainMaterial | SnowMaterial | OtherMaterial

  /** A direct child of the mountains group. meshes lists the materials of the meshes two
      levels below it (the children of its children), which are what the frame inspects. */
  class Child {
    var z: real
    const meshes: seq<MaterialKind>

    constructor (meshes: seq<MaterialKind>)
      ensures this.meshes == meshes && z == 0.0
    {
      this.meshes := meshes;
      z := 0.0;
    }
  }

  /** A shared material; every mesh that uses it sees the same opacity. */
  class Material {
    var opacity: real
  }

  /** The rendered order of the group's children: the rock formations group, two particle
      systems, the three layer groups, then ten mist meshes. */
  const LeadingChildren: nat := 3

  /** As written: child i is paired with mountainLayers[i]. */
  function LayerOfChildAsWritten(i: nat): Option<nat> {
    if i < LayerCount then Some(i) else None
  }

  /** Child i is the group of layer i - 3: the layer groups follow the three leading children. */
  function LayerOfChild(i: nat): (l: Option<nat>)
    ensures l.Some? ==> l.value < LayerCount && i == l.value + LeadingChildren
    ensures l.None? <==> (i < LeadingChildren || i >= LeadingChildren + LayerCount)
  {
    if LeadingChildren <= i < LeadingChildren + LayerCount then Some(i - LeadingChildren) else None
  }

  /** The opacity a mesh of the given kind gets from layer l. */
  function LayerMaterialOpacity(kind: MaterialKind, vis: real, layer: Layer): real {
    if kind == SnowMaterial then vis * layer.opacity * 0.9 else vis * layer.opacity
  }

  /** The opacity of a shared material after the first n children are processed, starting from
      init: the last child group holding a mesh of that kind decides it. */
  function MaterialAfter(pairing: nat -> Option<nat>, kinds: seq<seq<MaterialKind>>, layers: seq<Layer>,
                         vis: real, kind: MaterialKind, n: nat, init: real): real
    requires n <= |kinds|
  {
    if n == 0 then init
    else
      var prev := MaterialAfter(pairing, kinds, layers, vis, kind, n - 1, init);
      var p := pairing(n - 1);
      if p.Some? && p.value < |layers| && kind in kinds[n - 1] && kind != OtherMaterial
      then LayerMaterialOpacity(kind, vis, layers[p.value])
      else prev
  }

  function Kinds(children: seq<Child>): (k: seq<seq<MaterialKind>>)
    ensures |k| == |children| && forall i :: 0 <= i < |children| ==> k[i] == children[i].meshes
  {
    if children == [] then [] else Kinds(children[..|children| - 1]) + [children[|children| - 1].meshes]
  }

  predicate Distinct(children: seq<Child>) {
    forall i, j :: 0 <= i < j < |children| ==> children[i] != children[j]
  }

  /** With the rendered children, the as-written pairing reaches only the rock group and the two
      particle systems, none of which holds a mountain or snow mesh: neither shared material is
      ever faded, and no layer group is ever moved. */
  lemma AsWrittenNeverFades(kinds: seq<seq<MaterialKind>>, layers: seq<Layer>, vis: real, init: real)
    requires |kinds| >= LeadingChildren
    requires forall i :: 0 <= i < LeadingChildren ==> MountainMaterial !in kinds[i] && SnowMaterial !in kinds[i]
    ensures MaterialAfter(LayerOfChildAsWritten, kinds, layers, vis, MountainMaterial, |kinds|, init) == init
    ensures MaterialAfter(LayerOfChildAsWritten, kinds, layers, vis, SnowMaterial, |kinds|, init) == init
    ensures forall i :: LeadingChildren <= i < LeadingChildren + LayerCount ==> LayerOfChildAsWritten(i).None?
    ensures forall i :: 0 <= i < LeadingChildren ==> LayerOfChildAsWritten(i) == Some(i)
  {
    AsWrittenUnchanged(kinds, layers, vis, MountainMaterial, |kinds|, init);
    AsWrittenUnchanged(kinds, layers, vis, SnowMaterial, |kinds|, init);
  }

  /** What the as-written pairing does instead: the rock formations group and the snow and dust
      particle systems are pushed back once scrolling has begun, by 20, 30 and 40 units at the
      end of the scroll. */
  lemma AsWrittenPushesLeadingChildren(offset: real)
    requires ValidOffset(offset)
    ensures offset > 0.0 ==> forall i :: 0 <= i < LeadingChildren ==> Parallax(i, offset) > 0.0
    ensures offset == 1.0 ==> Parallax(0, offset) == 20.0 && Parallax(1, offset) == 30.0 && Parallax(2, offset) == 40.0
  {
  }

  lemma {:induction false} AsWrittenUnchanged(kinds: seq<seq<MaterialKind>>, layers: seq<Layer>, vis: real,
                                               kind: MaterialKind, n: nat, init: real)
    requires LeadingChildren <= |kinds| && n <= |kinds|
    requires forall i :: 0 <= i < LeadingChildren ==> kind == OtherMaterial || kind !in kinds[i]
    ensures MaterialAfter(LayerOfChildAsWritten, kinds, layers, vis, kind, n, init) == init
  {
    if n > 0 {
      AsWrittenUnchanged(kinds, layers, vis, kind, n - 1, init);
    }
  }

  /** With the rendered children and the corrected pairing, the mountain material ends at the
      visibility times the opacity of the farthest layer that uses it. */
  lemma CorrectedFadesByLastLayer(kinds: seq<seq<MaterialKind>>, layers: seq<Layer>, vis: real, init: real)
    requires |kinds| == LeadingChildren + LayerCount + 10 && |layers| == LayerCount
    requires MountainMaterial in kinds[LeadingChildren + LayerCount - 1]
    ensures MaterialAfter(LayerOfChild, kinds, layers, vis, MountainMaterial, |kinds|, init)
         == vis * layers[LayerCount - 1].opacity
  {
    var last := LeadingChildren + LayerCount;
    TailUnchanged(kinds, layers, vis, MountainMaterial, last, |kinds|, init);
  }

  lemma {:induction false} TailUnchanged(kinds: seq<seq<MaterialKind>>, layers: seq<Layer>, vis: real,
                                         kind: MaterialKind, from: nat, n: nat, init: real)
    requires LeadingChildren + LayerCount <= from <= n <= |kinds|
    ensures MaterialAfter(LayerOfChild, kinds, layers, vis, kind, n, init)
         == MaterialAfter(LayerOfChild, kinds, layers, vis, kind, from, init)
  {
    if n > from {
      TailUnchanged(kinds, layers, vis, kind, from, n - 1, init);
    }
  }

  /** The inner loops for one layer group: every mountain-material mesh sets the shared
      mountain material, every snow-material mesh the shared snow material. */
  method FadeMeshes(meshes: seq<MaterialKind>, vis: real, layer: Layer, mountain: Material, snow: Material)
    requires mountain != snow
    modifies mountain, snow
    ensures mountain.opacity == if MountainMaterial in meshes
      then LayerMaterialOpacity(MountainMaterial, vis, layer) else old(mountain.opacity)
    ensures snow.opacity == if SnowMaterial in meshes
      then LayerMaterialOpacity(SnowMaterial, vis, layer) else old(snow.opacity)
  {
    for j := 0 to |meshes|
      invariant mountain.opacity == if MountainMaterial in meshes[..j]
        then LayerMaterialOpacity(MountainMaterial, vis, layer) else old(mountain.opacity)
      invariant snow.opacity == if SnowMaterial in meshes[..j]
        then LayerMaterialOpacity(SnowMaterial, vis, layer) else old(snow.opacity)
    {
      assert meshes[..j + 1] == meshes[..j] + [meshes[j]];
      if meshes[j] == MountainMaterial {
        mountain.opacity := vis * layer.opacity;
      } else if meshes[j] == SnowMaterial {
        snow.opacity := vis * layer.opacity * 0.9;
      }
    }
    assert meshes[..|meshes|] == meshes;
  }

  /** The frame's work on child i under a pairing of children with layers: a paired child
      moves to its layer's parallax depth and its meshes fade the shared materials; every other
      child stays where it is. */
  method MoveLayer(pairing: nat -> Option<nat>, children: seq<Child>, i: nat, layers: seq<Layer>, offset: real,
                   vis: real, mountain: Material, snow: Material)
    requires i < |children| && Distinct(children) && mountain != snow && ValidOffset(offset)
    modifies children[i], mountain, snow
    ensures children[i].z == (if pairing(i).Some? && pairing(i).value < |layers|
                              then Parallax(pairing(i).value, offset) else old(children[i].z))
    ensures forall k :: 0 <= k < |children| && k != i ==> children[k].z == old(children[k].z)
    ensures mountain.opacity == (if pairing(i).Some? && pairing(i).value < |layers| &&
                                    MountainMaterial in children[i].meshes
      then LayerMaterialOpacity(MountainMaterial, vis, layers[pairing(i).value]) else old(mountain.opacity))
    ensures snow.opacity == (if pairing(i).Some? && pairing(i).value < |layers| &&
                                SnowMaterial in children[i].meshes
      then LayerMaterialOpacity(SnowMaterial, vis, layers[pairing(i).value]) else old(snow.opacity))
  {
    var l := pairing(i);
    if l.Some? && l.value < |layers| {
      children[i].z := Parallax(l.value, offset);
      FadeMeshes(children[i].meshes, vis, layers[l.value], mountain, snow);
    }
  }

  /** The children loop of the frame under a pairing: each paired child ends at its layer's
      parallax depth, the others keep their depth, and each shared material is left by the last
      paired child holding a mesh of it. */
  method MoveLayers(pairing: nat -> Option<nat>, layers: seq<Layer>, children: seq<Child>, offset: real,
                    mountain: Material, snow: Material)
    requires ValidOffset(offset) && Distinct(children) && mountain != snow
    modifies (set c | c in children), mountain, snow
    ensures forall i :: 0 <= i < |children| ==>
      children[i].z == (if pairing(i).Some? && pairing(i).value < |layers|
                        then Parallax(pairing(i).value, offset) else old(children[i].z))
    ensures mountain.opacity == MaterialAfter(pairing, Kinds(children), layers, Visibility(offset),
                                              MountainMaterial, |children|, old(mountain.opacity))
    ensures snow.opacity == MaterialAfter(pairing, Kinds(children), layers, Visibility(offset),
                                          SnowMaterial, |children|, old(snow.opacity))
  {
    var vis := Visibility(offset);
    ghost var kinds := Kinds(children);
    for i := 0 to |children|
      invariant forall k :: 0 <= k < i ==>
        children[k].z == (if pairing(k).Some? && pairing(k).value < |layers|
                          then Parallax(pairing(k).value, offset) else old(children[k].z))
      invariant forall k :: i <= k < |children| ==> children[k].z == old(children[k].z)
      invariant mountain.opacity == MaterialAfter(pairing, kinds, layers, vis, MountainMaterial, i, old(mountain.opacity))
      invariant snow.opacity == MaterialAfter(pairing, kinds, layers, vis, SnowMaterial, i, old(snow.opacity))
    {
      MoveLayer(pairing, children, i, layers, offset, vis, mountain, snow);
    }
  }

  /** The per-frame callback as written (mounted is false while its ref is empty): child i is
      paired with layer i, so the first three children, which are the rock formations group and
      the two particle systems, are pushed back to the parallax depths of layers 0, 1 and 2
      (up to 20, 30 and 40 units at the end of the scroll), while the layer groups never move. */
  method FrameAsWritten(scroll: Option<real>, mounted: bool, layers: seq<Layer>, children: seq<Child>,
                        mountain: Material, snow: Material)
    requires scroll.Some? ==> ValidOffset(scroll.value)
    requires Distinct(children) && mountain != snow
    modifies (set c | c in children), mountain, snow
    ensures scroll.None? || !mounted ==> unchanged(mountain, snow) && unchanged(set c | c in children)
    ensures scroll.Some? && mounted ==> forall i :: 0 <= i < |children| ==>
      children[i].z == (if i < LeadingChildren && i < |layers| then Parallax(i, scroll.value)
                        else old(children[i].z))
    ensures scroll.Some? && mounted ==>
      && mountain.opacity == MaterialAfter(LayerOfChildAsWritten, Kinds(children), layers, Visibility(scroll.value),
                                           MountainMaterial, |children|, old(mountain.opacity))
      && snow.opacity == MaterialAfter(LayerOfChildAsWritten, Kinds(children), layers, Visibility(scroll.value),
                                       SnowMaterial, |children|, old(snow.opacity))
  {
    if scroll.None? || !mounted {
      return;
    }
    MoveLayers(LayerOfChildAsWritten, layers, children, scroll.value, mountain, snow);
  }

  /** The per-frame callback with the corrected pairing (mounted is false while its ref is
      empty): the layer groups move to their parallax depths and fade the shared materials. */
  method Frame(scroll: Option<real>, mounted: bool, layers: seq<Layer>, children: seq<Child>,
               mountain: Material, snow: Material)
    requires scroll.Some? ==> ValidOffset(scroll.value)
    requires Distinct(children) && mountain != snow
    modifies (set c | c in children), mountain, snow
    ensures scroll.None? || !mounted ==> unchanged(mountain, snow) && unchanged(set c | c in children)
    ensures scroll.Some? && mounted ==> forall i :: 0 <= i < |children| ==>
      children[i].z == (if LayerOfChild(i).Some? && LayerOfChild(i).value < |layers|
                        then Parallax(LayerOfChild(i).value, scroll.value) else old(children[i].z))
    ensures scroll.Some? && mounted ==>
      && mountain.opacity == MaterialAfter(LayerOfChild, Kinds(children), layers, Visibility(scroll.value),
                                           MountainMaterial, |children|, old(mountain.opacity))
      && snow.opacity == MaterialAfter(LayerOfChild, Kinds(children), layers, Visibility(scroll.value),
                                       SnowMaterial, |children|, old(snow.opacity))
  {
    if scroll.None? || !mounted {
      return;
    }
    MoveLayers(LayerOfChild, layers, children, scroll.value, mountain, snow);
  }
}
