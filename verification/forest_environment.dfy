/** The enhanced forest: a per-tier table of tree and grass counts, fog and
    shaders, the lights' shadow settings, the rocks, and a per-frame parallax
    that shifts every tree sideways in proportion to its depth. */
module ForestEnvironment {
  import opened Quality
  import opened Numerics

  datatype EnvConfig = EnvConfig(treeCount: nat, grassCount: nat, enableFog: bool, enableShaders: bool)

  /** The `config` table: fog off only at low, the tree shader flag on only at high. */
  function ConfigFor(t: Tier): (c: EnvConfig)
    ensures c.enableFog <==> t != Low
    ensures c.enableShaders <==> t == High
    ensures 8 <= c.treeCount <= 15 && 15 <= c.grassCount <= 50
  {
    match t
    case High => EnvConfig(15, 50, true, true)
    case Medium => EnvConfig(12, 30, true, false)
    case Low => EnvConfig(8, 15, false, false)
  }

  /** A higher tier grows strictly more trees and more grass. */
  lemma ConfigOrdered(t1: Tier, t2: Tier)
    requires Rank(t1) < Rank(t2)
    ensures ConfigFor(t1).treeCount < ConfigFor(t2).treeCount
    ensures ConfigFor(t1).grassCount < ConfigFor(t2).grassCount
  {
  }

  datatype ShadowSettings = ShadowSettings(castShadow: bool, mapSize: nat)

  /** The directional light casts shadows except at low, on a 2048 map at
      high and 1024 otherwise. */
  function DirectionalShadow(t: Tier): (s: ShadowSettings)
    ensures s.castShadow <==> t != Low
    ensures s.mapSize == 2048 <==> t == High
    ensures s.mapSize == 1024 <==> t != High
  {
    ShadowSettings(t != Low, if t == High then 2048 else 1024)
  }

  /** The spotlight on the meeting point casts shadows only at high. */
  function SpotCastsShadow(t: Tier): (b: bool)
    ensures b <==> t == High
  {
    t == High
  }

  /** 8 rocks at high, 4 otherwise. */
  function RockCount(t: Tier): (n: nat)
    ensures n == 8 <==> t == High
    ensures n == 4 <==> t != High
  {
    if t == High then 8 else 4
  }

  /** A tree as drawn when the tier is set: its base x and z (random, inputs here). */
  datatype TreeData = TreeData(x: real, z: real)

  /** The tree's x on a frame: its base x plus `p * (|z| / 15 * 0.5) * 3`. */
  function ParallaxX(tree: TreeData, p: real): real
  {
    tree.x + p * (Abs(tree.z) / 15.0 * 0.5) * 3.0
  }

  /** The shift is a tenth of the tree's depth per unit of progress: never
      negative on a forward scroll, and larger for deeper trees. */
  lemma ParallaxShift(a: TreeData, b: TreeData, p: real)
    requires 0.0 <= p
    ensures ParallaxX(a, p) - a.x == p * Abs(a.z) / 10.0
    ensures ParallaxX(a, p) >= a.x
    ensures Abs(a.z) <= Abs(b.z) ==> ParallaxX(a, p) - a.x <= ParallaxX(b, p) - b.x
  {
    assert ParallaxX(a, p) - a.x == p * Abs(a.z) / 10.0;
    assert ParallaxX(b, p) - b.x == p * Abs(b.z) / 10.0;
    MulMonotone(0.0, p, Abs(a.z));
    if Abs(a.z) <= Abs(b.z) {
      MulMonotone(Abs(a.z), Abs(b.z), p);
    }
  }

  /** The children of the forest group, in mount order, reduced to what the
      parallax loop looks at: the three lights, meshes (ground, grass,
      rocks), and tree groups with their current x. The fog is attached as
      a property of the group, not as a child. */
  datatype SceneChild = Light | Mesh | TreeGroup(x: real)

  /** The group's children for a list of trees: ambient, directional and
      spot light, the ground, one group per tree at its base x, then the
      grass and the rocks. */
  function Layout(trees: seq<TreeData>, grassCount: nat, rocks: nat): (cs: seq<SceneChild>)
    ensures |cs| == 4 + |trees| + grassCount + rocks
    ensures forall j :: 0 <= j < |trees| ==> cs[4 + j] == TreeGroup(trees[j].x)
    ensures forall k :: 0 <= k < |cs| && !(4 <= k < 4 + |trees|) ==> !cs[k].TreeGroup?
  {
    [Light, Light, Light, Mesh]
      + seq(|trees|, j requires 0 <= j < |trees| => TreeGroup(trees[j].x))
      + seq(grassCount + rocks, _ => Mesh)
  }

  /** The number of tree groups in a run of children. */
  function GroupCount(cs: seq<SceneChild>): (n: nat)
    ensures n <= |cs|
  {
    if cs == [] then 0
    else GroupCount(cs[..|cs| - 1]) + (if cs[|cs| - 1].TreeGroup? then 1 else 0)
  }

  /** The parallax loop as written: the `index` of a child among all of the
      group's children is used to look up the tree data, so a tree group
      reads the data of whichever tree has that child index. */
  function ParallaxByChildIndex(cs: seq<SceneChild>, trees: seq<TreeData>, p: real): (r: seq<SceneChild>)
    ensures |r| == |cs|
  {
    seq(|cs|, k requires 0 <= k < |cs| =>
      if cs[k].TreeGroup? && k < |trees| then TreeGroup(ParallaxX(trees[k], p)) else cs[k])
  }

  /** The parallax the loop is meant to apply: the k-th tree group takes the
      k-th tree's data, counting tree groups only. */
  function ParallaxByTreeIndex(cs: seq<SceneChild>, trees: seq<TreeData>, p: real): (r: seq<SceneChild>)
    ensures |r| == |cs|
  {
    seq(|cs|, k requires 0 <= k < |cs| =>
      if cs[k].TreeGroup? && GroupCount(cs[..k]) < |trees| then TreeGroup(ParallaxX(trees[GroupCount(cs[..k])], p))
      else cs[k])
  }

  lemma {:induction false} GroupCountAppend(a: seq<SceneChild>, b: seq<SceneChild>)
    ensures GroupCount(a + b) == GroupCount(a) + GroupCount(b)
    decreases |b|
  {
    if b != [] {
      assert (a + b)[..|a + b| - 1] == a + b[..|b| - 1];
      assert (a + b)[|a + b| - 1] == b[|b| - 1];
      GroupCountAppend(a, b[..|b| - 1]);
    } else {
      assert a + b == a;
    }
  }

  lemma {:induction false} NoGroupsCountZero(cs: seq<SceneChild>)
    requires forall k :: 0 <= k < |cs| ==> !cs[k].TreeGroup?
    ensures GroupCount(cs) == 0
    decreases |cs|
  {
    if cs != [] {
      NoGroupsCountZero(cs[..|cs| - 1]);
    }
  }

  /** In the layout the tree groups come after exactly four other children,
      one per tree. */
  lemma {:induction false} LayoutGroupCount(trees: seq<TreeData>, grassCount: nat, rocks: nat, j: nat)
    requires j <= |trees|
    ensures GroupCount(Layout(trees, grassCount, rocks)[..4 + j]) == j
    decreases j
  {
    var cs := Layout(trees, grassCount, rocks);
    if j == 0 {
      NoGroupsCountZero(cs[..4]);
    } else {
      assert cs[..4 + j][..4 + j - 1] == cs[..4 + (j - 1)];
      LayoutGroupCount(trees, grassCount, rocks, j - 1);
    }
  }

  /** The intended parallax on the real layout: every tree group gets its
      own tree's base x plus its own depth shift, and every other child is
      left alone. */
  lemma TreeIndexMovesEachTree(trees: seq<TreeData>, grassCount: nat, rocks: nat, p: real)
    ensures var cs := Layout(trees, grassCount, rocks);
      (forall j :: 0 <= j < |trees| ==> ParallaxByTreeIndex(cs, trees, p)[4 + j] == TreeGroup(ParallaxX(trees[j], p))) &&
      (forall k :: 0 <= k < |cs| && !cs[k].TreeGroup? ==> ParallaxByTreeIndex(cs, trees, p)[k] == cs[k])
  {
    var cs := Layout(trees, grassCount, rocks);
    forall j | 0 <= j < |trees|
      ensures ParallaxByTreeIndex(cs, trees, p)[4 + j] == TreeGroup(ParallaxX(trees[j], p))
    {
      LayoutGroupCount(trees, grassCount, rocks, j);
    }
  }

  /** The loop as written, on the real layout with at least five trees: the
      first tree group is placed at the fifth tree's x (at p = 0 it jumps
      away from its own base x whenever the two differ), and the last four
      tree groups are never moved, because their child indices are past the
      end of the tree list. */
  lemma ChildIndexMisplacesTrees(trees: seq<TreeData>, grassCount: nat, rocks: nat)
    requires |trees| >= 5 && trees[0].x != trees[4].x
    ensures var cs := Layout(trees, grassCount, rocks);
      ParallaxByChildIndex(cs, trees, 0.0)[4] == TreeGroup(trees[4].x) &&
      ParallaxByChildIndex(cs, trees, 0.0)[4] != ParallaxByTreeIndex(cs, trees, 0.0)[4] &&
      (forall k :: |trees| <= k < 4 + |trees| ==> ParallaxByChildIndex(cs, trees, 0.0)[k] == cs[k])
  {
    var cs := Layout(trees, grassCount, rocks);
    LayoutGroupCount(trees, grassCount, rocks, 0);
    assert ParallaxX(trees[0], 0.0) == trees[0].x && ParallaxX(trees[4], 0.0) == trees[4].x;
    assert ParallaxByTreeIndex(cs, trees, 0.0)[4] == TreeGroup(trees[0].x);
    forall k | |trees| <= k < 4 + |trees|
      ensures ParallaxByChildIndex(cs, trees, 0.0)[k] == cs[k]
    {
    }
  }

  /** The loop as written, over the group's children in place. */
  method ParallaxAsWritten(children: array<SceneChild>, trees: seq<TreeData>, p: real)
    modifies children
    ensures children[..] == ParallaxByChildIndex(old(children[..]), trees, p)
  {
    var index := 0;
    while index < children.Length
      invariant 0 <= index <= children.Length
      invariant forall k :: 0 <= k < index ==> children[k] == ParallaxByChildIndex(old(children[..]), trees, p)[k]
      invariant forall k :: index <= k < children.Length ==> children[k] == old(children[k])
    {
      if children[index].TreeGroup? && index < |trees| {
        children[index] := TreeGroup(ParallaxX(trees[index], p));
      }
      index := index + 1;
    }
  }

  /** The corrected loop: the same walk over the children, with a separate
      count of the tree groups seen so far used to look up the tree data. */
  method ApplyParallax(children: array<SceneChild>, trees: seq<TreeData>, p: real)
    modifies children
    ensures children[..] == ParallaxByTreeIndex(old(children[..]), trees, p)
  {
    ghost var original := children[..];
    var index := 0;
    var treeIndex := 0;
    while index < children.Length
      invariant 0 <= index <= children.Length
      invariant treeIndex == GroupCount(original[..index])
      invariant forall k :: 0 <= k < index ==> children[k] == ParallaxByTreeIndex(original, trees, p)[k]
      invariant forall k :: index <= k < children.Length ==> children[k] == original[k]
    {
      assert original[..index + 1][..index] == original[..index];
      if children[index].TreeGroup? {
        if treeIndex < |trees| {
          children[index] := TreeGroup(ParallaxX(trees[treeIndex], p));
        }
        treeIndex := treeIndex + 1;
      }
      index := index + 1;
    }
  }

  /** The forest group: its children and the fog's density. */
  class Forest {
    const children: array<SceneChild>
    var fogDensity: real

    /** The group as mounted for tier `t`, with one record per configured
        tree; the fog's density starts at whatever the caller passes (the fog
        is built from a colour and a near/far range only). */
    constructor (t: Tier, trees: seq<TreeData>, density: real)
      requires |trees| == ConfigFor(t).treeCount
      ensures children[..] == Layout(trees, ConfigFor(t).grassCount, RockCount(t)) && fresh(children)
      ensures fogDensity == density
    {
      var layout := Layout(trees, ConfigFor(t).grassCount, RockCount(t));
      children := new SceneChild[|layout|](i requires 0 <= i < |layout| => layout[i]);
      fogDensity := density;
    }

    /** One frame at progress `p`: nothing while unmounted; otherwise every
        tree group is shifted by the parallax and, when the tier has fog and
        the fog is attached, its density takes `0.02 + wobble`, the wobble
        being the clock term `sin(time * 0.1) * 0.005`. */
    method Frame(mounted: bool, t: Tier, fogAttached: bool, trees: seq<TreeData>, p: real, wobble: real)
      modifies children, this
      ensures !mounted ==> children[..] == old(children[..]) && fogDensity == old(fogDensity)
      ensures mounted ==> children[..] == ParallaxByTreeIndex(old(children[..]), trees, p)
      ensures mounted ==> fogDensity == (if ConfigFor(t).enableFog && fogAttached then 0.02 + wobble else old(fogDensity))
    {
      if !mounted {
        return;
      }
      ApplyParallax(children, trees, p);
      if ConfigFor(t).enableFog && fogAttached {
        fogDensity := 0.02 + wobble;
      }
    }
  }
}
