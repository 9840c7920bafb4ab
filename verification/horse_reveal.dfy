/** The horse of the original story: a linear reveal over progress
    [0.6, 0.9] that drives opacity, scale and depth, and a turn towards the
    character after 0.8. */
module HorseReveal {
  import opened Numerics
  import opened Materials

  /** The reveal curve: hidden before 0.6, linear up to 0.9, fully visible after. */
  function RevealProgress(p: real): (r: real)
    ensures 0.0 <= r <= 1.0
    ensures p < 0.6 ==> r == 0.0
    ensures p >= 0.9 ==> r == 1.0
  {
    if p < 0.6 then 0.0
    else if p <= 0.9 then (p - 0.6) / 0.3
    else 1.0
  }

  /** The reveal is non-decreasing and never rises faster than 1/0.3 per unit
      of progress; in particular it is continuous, also at 0.6 and 0.9. */
  lemma RevealLipschitz(p1: real, p2: real)
    requires p1 <= p2
    ensures 0.0 <= RevealProgress(p2) - RevealProgress(p1) <= (p2 - p1) / 0.3
  {
  }

  /** The horse's scale, `lerp(0.3, 1, reveal)`: 0.3 while hidden, 1 once revealed. */
  function Scale(p: real): (s: real)
    ensures 0.3 <= s <= 1.0
    ensures p < 0.6 ==> s == 0.3
    ensures p >= 0.9 ==> s == 1.0
  {
    LerpBetween(0.3, 1.0, RevealProgress(p));
    Lerp(0.3, 1.0, RevealProgress(p))
  }

  /** The horse's depth, `lerp(-5, -2, reveal)`: it walks in from z = -5 to z = -2. */
  function Depth(p: real): (z: real)
    ensures -5.0 <= z <= -2.0
    ensures p < 0.6 ==> z == -5.0
    ensures p >= 0.9 ==> z == -2.0
  {
    LerpBetween(-5.0, -2.0, RevealProgress(p));
    Lerp(-5.0, -2.0, RevealProgress(p))
  }

  /** The turn towards the character, written only past 0.8:
      `lerp(0, -0.3, (p - 0.8) / 0.2)`, within [-0.3, 0] up to the end of the scroll. */
  function LookRotation(p: real): (y: real)
    requires 0.8 < p
    ensures p <= 1.0 ==> -0.3 <= y <= 0.0
    ensures p == 1.0 ==> y == -0.3
  {
    var y := Lerp(0.0, -0.3, (p - 0.8) / 0.2);
    if p <= 1.0 then (LerpBetween(0.0, -0.3, (p - 0.8) / 0.2); y) else y
  }

  /** The eyes are mounted only once the scroll offset passes 0.85. */
  predicate EyesVisible(offset: real)
  {
    offset > 0.85
  }

  /** The eyes appear only once the horse is more than 80% revealed and the
      turn towards the character is being written. */
  lemma EyesOnlyOnceTurning(offset: real)
    requires EyesVisible(offset)
    ensures offset > 0.8
    ensures RevealProgress(offset) > 0.8
  {
    if offset <= 0.9 {
      assert RevealProgress(offset) == (offset - 0.6) / 0.3;
      assert (offset - 0.6) / 0.3 > 0.25 / 0.3;
    }
  }

  /** The horse group and its materials, as the `useFrame` callback writes them. */
  class Horse {
    var scale: real
    var y: real
    var z: real
    var rotationY: real
    var headRotationX: real
    const materials: array<Material>

    /** The group as mounted at (3, 0, -2), unscaled and unturned. */
    constructor (ms: array<Material>)
      ensures materials == ms
      ensures scale == 1.0 && y == 0.0 && z == -2.0 && rotationY == 0.0 && headRotationX == 0.0
    {
      materials := ms;
      scale, y, z, rotationY, headRotationX := 1.0, 0.0, -2.0, 0.0, 0.0;
    }

    /** One frame at scroll offset `p`. Nothing happens until both refs are
        attached. Otherwise scale and depth follow the reveal; every Lambert
        material becomes transparent with opacity equal to the reveal; once
        the reveal passes one half the height takes the breathing offset and
        the head the bobbing angle (sines of the wall clock, inputs here);
        and the turn is written only past 0.8. Other materials are left alone. */
    method Frame(refsAttached: bool, p: real, breathe: real, headBob: real)
      modifies this, materials
      ensures !refsAttached ==>
        scale == old(scale) && y == old(y) && z == old(z) && rotationY == old(rotationY) &&
        headRotationX == old(headRotationX) && materials[..] == old(materials[..])
      ensures refsAttached ==>
        scale == Scale(p) && z == Depth(p) &&
        materials[..] == Faded(old(materials[..]), Lambert, RevealProgress(p)) &&
        y == (if RevealProgress(p) > 0.5 then breathe else old(y)) &&
        headRotationX == (if RevealProgress(p) > 0.5 then headBob else old(headRotationX)) &&
        rotationY == (if p > 0.8 then LookRotation(p) else old(rotationY))
    {
      if !refsAttached {
        return;
      }
      var revealProgress := RevealProgress(p);
      scale := Lerp(0.3, 1.0, revealProgress);
      FadeInPlace(materials, Lambert, Lerp(0.0, 1.0, revealProgress));
      z := Lerp(-5.0, -2.0, revealProgress);
      if revealProgress > 0.5 {
        y := breathe;
        headRotationX := headBob;
      }
      if p > 0.8 {
        rotationY := Lerp(0.0, -0.3, (p - 0.8) / 0.2);
      }
    }
  }

  /** Before 0.6 a frame leaves every Lambert material fully transparent, the
      horse at 0.3 of its size and 5 units back. */
  lemma HiddenBeforeSixTenths(ms: seq<Material>, p: real, i: nat)
    requires p < 0.6 && i < |ms| && ms[i].kind == Lambert
    ensures Faded(ms, Lambert, RevealProgress(p))[i].opacity == 0.0
    ensures Scale(p) == 0.3 && Depth(p) == -5.0
  {
    FadedEffect(ms, Lambert, RevealProgress(p), i);
  }
}

/** The horse of the enhanced story: an ease-in-out-quad reveal, a two-stage
    scale, shader uniforms (or a material fallback), an eased turn, an aura
    during the reveal and eyes near the end. */
module HorseRevealEnhanced {
  import opened Numerics
  import opened Materials

  /** The ease-in-out-quad curve of the source: 2t^2 below one half,
      1 - (2 - 2t)^2 / 2 from one half on. */
  function EaseInOutQuad(t: real): real
  {
    if t < 0.5 then 2.0 * t * t else 1.0 - (-2.0 * t + 2.0) * (-2.0 * t + 2.0) / 2.0
  }

  /** Both branches give one half at t = 0.5, and the curve fixes 0 and 1. */
  lemma EaseQuadJoins()
    ensures 2.0 * 0.5 * 0.5 == 0.5 == 1.0 - (-2.0 * 0.5 + 2.0) * (-2.0 * 0.5 + 2.0) / 2.0
    ensures EaseInOutQuad(0.0) == 0.0 && EaseInOutQuad(0.5) == 0.5 && EaseInOutQuad(1.0) == 1.0
  {
  }

  /** On [0, 1] the curve stays in [0, 1], below one half exactly before t = 0.5. */
  lemma EaseQuadRange(t: real)
    requires 0.0 <= t <= 1.0
    ensures 0.0 <= EaseInOutQuad(t) <= 1.0
    ensures EaseInOutQuad(t) < 0.5 <==> t < 0.5
  {
    if t < 0.5 {
      MulMonotone(0.0, t, t);
      MulMonotone(t, 0.5, t);
      assert t * t <= 0.5 * t < 0.25;
    } else {
      PowersOfUnit(-2.0 * t + 2.0);
    }
  }

  /** On [0, 1] the curve is non-decreasing. */
  lemma EaseQuadMonotone(t1: real, t2: real)
    requires 0.0 <= t1 <= t2 <= 1.0
    ensures EaseInOutQuad(t1) <= EaseInOutQuad(t2)
  {
    EaseQuadRange(t1);
    EaseQuadRange(t2);
    if t1 < 0.5 && t2 < 0.5 {
      PowersMonotone(t1, t2);
    } else if 0.5 <= t1 {
      PowersMonotone(-2.0 * t2 + 2.0, -2.0 * t1 + 2.0);
    }
  }

  /** The eased reveal: 0 before 0.6, the eased ramp of t = (p - 0.6) / 0.3
      up to 0.9, 1 after. */
  function EasedReveal(p: real): (r: real)
    ensures 0.0 <= r <= 1.0
    ensures p < 0.6 ==> r == 0.0
    ensures p >= 0.9 ==> r == 1.0
  {
    if p < 0.6 then 0.0
    else if p <= 0.9 then EaseQuadRange((p - 0.6) / 0.3); EaseInOutQuad((p - 0.6) / 0.3)
    else 1.0
  }

  /** The eased reveal is non-decreasing in progress. */
  lemma EasedRevealMonotone(p1: real, p2: real)
    requires p1 <= p2
    ensures EasedReveal(p1) <= EasedReveal(p2)
  {
    if 0.6 <= p1 && p2 <= 0.9 {
      EaseQuadMonotone((p1 - 0.6) / 0.3, (p2 - 0.6) / 0.3);
    }
  }

  /** The two-stage scale: `lerp(0.1, 1.2, r)` up to r = 0.8, then
      `lerp(1.2, 1.0, (r - 0.8) / 0.2)`. It lies in [0.1, 1.2], is 0.1 when
      hidden and 1 when fully revealed. */
  function FinalScale(r: real): (s: real)
    ensures 0.0 <= r <= 1.0 ==> 0.1 <= s <= 1.2
    ensures r == 0.0 ==> s == 0.1
    ensures r == 1.0 ==> s == 1.0
  {
    var appearScale := Lerp(0.1, 1.2, r);
    var settleScale := Lerp(1.2, 1.0, (r - 0.8) / 0.2);
    if r > 0.8 then
      (if r <= 1.0 then (LerpBetween(1.2, 1.0, (r - 0.8) / 0.2); settleScale) else settleScale)
    else
      (if 0.0 <= r then (LerpBetween(0.1, 1.2, r); appearScale) else appearScale)
  }

  /** The two stages do not meet: the first ends at 0.98 when r = 0.8, while
      the second starts from 1.2, so the horse jumps in size as the reveal
      passes 0.8. */
  lemma ScaleJumpsAtEightTenths(r: real)
    requires 0.8 < r
    ensures FinalScale(0.8) == 0.98
    ensures FinalScale(r) == 2.0 - r
  {
  }

  /** The depth, `lerp(-6, -2, r)`, within [-6, -2]. */
  function Depth(r: real): (z: real)
    ensures 0.0 <= r <= 1.0 ==> -6.0 <= z <= -2.0
    ensures r == 0.0 ==> z == -6.0
    ensures r == 1.0 ==> z == -2.0
  {
    var z := Lerp(-6.0, -2.0, r);
    if 0.0 <= r <= 1.0 then (LerpBetween(-6.0, -2.0, r); z) else z
  }

  /** The shader's `magicIntensity`: 2(1 - r) past one half, else 0; within [0, 1). */
  function MagicIntensity(r: real): (m: real)
    ensures 0.0 <= r <= 1.0 ==> 0.0 <= m < 1.0
    ensures r <= 0.5 ==> m == 0.0
    ensures r == 1.0 ==> m == 0.0
  {
    if r > 0.5 then (1.0 - r) * 2.0 else 0.0
  }

  /** The eased turn towards the character past 0.8:
      `lerp(0, -0.3, ease((p - 0.8) / 0.2))`, within [-0.3, 0]. */
  function LookRotation(p: real): (y: real)
    requires 0.8 < p
    ensures p <= 1.0 ==> -0.3 <= y <= 0.0
    ensures p == 1.0 ==> y == -0.3
  {
    var lookProgress := (p - 0.8) / 0.2;
    var y := Lerp(0.0, -0.3, EaseInOutQuad(lookProgress));
    if p <= 1.0 then
      (EaseQuadRange(lookProgress); LerpBetween(0.0, -0.3, EaseInOutQuad(lookProgress)); y)
    else y
  }

  /** The enhanced eyes, like the original ones, are mounted only once the
      scroll offset passes 0.85. */
  predicate EyesVisible(offset: real)
  {
    offset > 0.85
  }

  /** The eyes appear only once the eased reveal has passed 0.9, when the
      horse is in the settling stage of its scale, below 1.1. */
  lemma EyesOnlyNearlyRevealed(offset: real)
    requires EyesVisible(offset)
    ensures EasedReveal(offset) > 0.9
    ensures 1.0 <= FinalScale(EasedReveal(offset)) < 1.1
  {
    if offset <= 0.9 {
      var t := (offset - 0.6) / 0.3;
      assert t > 0.8;
      var u := -2.0 * t + 2.0;
      assert 0.0 <= u < 0.4;
      MulMonotone(u, 0.4, u);
      assert u * u < 0.2;
      assert EasedReveal(offset) == 1.0 - u * u / 2.0;
    }
    ScaleJumpsAtEightTenths(EasedReveal(offset));
  }

  /** The aura is mounted only while 0.6 < p < 0.9. */
  predicate AuraVisible(p: real)
  {
    0.6 < p < 0.9
  }

  /** The aura's opacity, `0.03 * (1 - (p - 0.6) / 0.3)`: strictly between 0
      and 0.03 whenever the aura is mounted, fading out as p grows. */
  function AuraOpacity(p: real): (o: real)
    ensures AuraVisible(p) ==> 0.0 < o < 0.03
  {
    0.03 * (1.0 - (p - 0.6) / 0.3)
  }

  lemma AuraFades(p1: real, p2: real)
    requires p1 <= p2
    ensures AuraOpacity(p2) <= AuraOpacity(p1)
  {
  }

  /** The clock-driven sines of one frame, as they are written: the
      breathing height, the head's two angles and the tail's two angles
      (the tail's x angle already includes its 0.3 rest tilt). */
  datatype Sway = Sway(breathe: real, headX: real, headY: real, tailX: real, tailZ: real)

  /** The enhanced horse group, its named head and tail, its shader uniforms
      and its materials. */
  class HorseEnhanced {
    var scale: real
    var y: real
    var z: real
    var rotationY: real
    var head: Sway
    var timeUniform: real
    var opacityUniform: real
    var revealUniform: real
    var magicUniform: real
    const materials: array<Material>

    constructor (ms: array<Material>)
      ensures materials == ms
      ensures scale == 1.0 && y == 0.0 && z == -2.0 && rotationY == 0.0
      ensures head == Sway(0.0, 0.0, 0.0, 0.3, 0.0)
      ensures timeUniform == 0.0 && opacityUniform == 0.0 && revealUniform == 0.0 && magicUniform == 0.0
    {
      materials := ms;
      scale, y, z, rotationY := 1.0, 0.0, -2.0, 0.0;
      head := Sway(0.0, 0.0, 0.0, 0.3, 0.0);
      timeUniform, opacityUniform, revealUniform, magicUniform := 0.0, 0.0, 0.0, 0.0;
    }

    /** One frame at scroll offset `p` and clock `time`. Nothing happens while
        the group is unmounted. Scale and depth follow the eased reveal r.
        With shaders on and the shader material attached, the uniforms take
        the clock, r, r and the magic intensity and the materials are not
        touched; otherwise every standard material becomes transparent with
        opacity r and the uniforms are not touched. Past r = 0.3 the height,
        head and tail take the frame's sway; the turn is written only past 0.8. */
    method Frame(mounted: bool, shadersEnabled: bool, shaderAttached: bool, p: real, time: real, sway: Sway)
      modifies this, materials
      ensures !mounted ==>
        scale == old(scale) && y == old(y) && z == old(z) && rotationY == old(rotationY) &&
        head == old(head) &&
        timeUniform == old(timeUniform) && opacityUniform == old(opacityUniform) &&
        revealUniform == old(revealUniform) && magicUniform == old(magicUniform) &&
        materials[..] == old(materials[..])
      ensures mounted ==>
        var r := EasedReveal(p);
        scale == FinalScale(r) && z == Depth(r) &&
        y == (if r > 0.3 then sway.breathe else old(y)) &&
        head == (if r > 0.3 then sway else old(head)) &&
        rotationY == (if p > 0.8 then LookRotation(p) else old(rotationY))
      ensures mounted && shadersEnabled && shaderAttached ==>
        var r := EasedReveal(p);
        timeUniform == time && opacityUniform == r && revealUniform == r &&
        magicUniform == MagicIntensity(r) && materials[..] == old(materials[..])
      ensures mounted && !(shadersEnabled && shaderAttached) ==>
        materials[..] == Faded(old(materials[..]), Standard, EasedReveal(p)) &&
        timeUniform == old(timeUniform) && opacityUniform == old(opacityUniform) &&
        revealUniform == old(revealUniform) && magicUniform == old(magicUniform)
    {
      if !mounted {
        return;
      }
      var revealProgress := EasedReveal(p);
      var appearScale := Lerp(0.1, 1.2, revealProgress);
      scale := if revealProgress > 0.8 then Lerp(1.2, 1.0, (revealProgress - 0.8) / 0.2) else appearScale;
      z := Lerp(-6.0, -2.0, revealProgress);
      if shadersEnabled && shaderAttached {
        timeUniform := time;
        opacityUniform := revealProgress;
        revealUniform := revealProgress;
        magicUniform := if revealProgress > 0.5 then (1.0 - revealProgress) * 2.0 else 0.0;
      } else {
        FadeInPlace(materials, Standard, revealProgress);
      }
      if revealProgress > 0.3 {
        y := sway.breathe;
        head := sway;
      }
      if p > 0.8 {
        var lookProgress := (p - 0.8) / 0.2;
        rotationY := Lerp(0.0, -0.3, EaseInOutQuad(lookProgress));
      }
    }
  }

  /** Once the scroll is past 0.9 a frame on the fallback path leaves every
      standard material transparent and fully opaque, at its final size 1 and
      depth -2. */
  lemma FullyRevealedAfterNineTenths(ms: seq<Material>, p: real, i: nat)
    requires p >= 0.9 && i < |ms| && ms[i].kind == Standard
    ensures Faded(ms, Standard, EasedReveal(p))[i].opacity == 1.0
    ensures FinalScale(EasedReveal(p)) == 1.0 && Depth(EasedReveal(p)) == -2.0
  {
    FadedEffect(ms, Standard, EasedReveal(p), i);
  }
}
