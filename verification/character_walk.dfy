/** The young walker of the original story: a walk one and a half times as
    fast as the scroll along a straight path, a bob while walking and a turn
    towards the horse after 0.7. */
module CharacterWalk {
  import opened Numerics

  /** `Math.min(progress * 1.5, 1)`: the walk is finished at two thirds of the scroll. */
  function WalkProgress(p: real): (w: real)
    ensures w <= 1.0
    ensures 0.0 <= p ==> 0.0 <= w
    ensures p >= 2.0 / 3.0 ==> w == 1.0
    ensures p <= 2.0 / 3.0 ==> w == 1.5 * p
  {
    Min(p * 1.5, 1.0)
  }

  /** The walk never goes back as the scroll moves forward. */
  lemma WalkProgressMonotone(p1: real, p2: real)
    requires p1 <= p2
    ensures WalkProgress(p1) <= WalkProgress(p2)
  {
  }

  /** The walker's x, from -3 to 1. */
  function WalkerX(p: real): (x: real)
    ensures 0.0 <= p ==> -3.0 <= x <= 1.0
  {
    var w := WalkProgress(p);
    if 0.0 <= p then (LerpBetween(-3.0, 1.0, w); Lerp(-3.0, 1.0, w)) else Lerp(-3.0, 1.0, w)
  }

  /** The walker's z, from 4 to -1. */
  function WalkerZ(p: real): (z: real)
    ensures 0.0 <= p ==> -1.0 <= z <= 4.0
  {
    var w := WalkProgress(p);
    if 0.0 <= p then (LerpBetween(4.0, -1.0, w); Lerp(4.0, -1.0, w)) else Lerp(4.0, -1.0, w)
  }

  /** The first frame puts the walker exactly where the group is mounted,
      (-3, 0, 4), and from two thirds of the scroll on it stands at (1, -1). */
  lemma PathEnds(p: real)
    requires p >= 2.0 / 3.0
    ensures WalkerX(0.0) == -3.0 && WalkerZ(0.0) == 4.0
    ensures WalkerX(p) == 1.0 && WalkerZ(p) == -1.0
  {
  }

  /** The facing angle: `lerp(0.3, -0.2, walk)`, overwritten past 0.7 by
      `lerp(-0.2, 0.5, (p - 0.7) / 0.3)`. */
  function Facing(p: real): (y: real)
    ensures 0.0 <= p <= 1.0 ==> -0.2 <= y <= 0.5
  {
    if p > 0.7 then
      var look := Lerp(-0.2, 0.5, (p - 0.7) / 0.3);
      if p <= 1.0 then (LerpBetween(-0.2, 0.5, (p - 0.7) / 0.3); look) else look
    else
      var walking := Lerp(0.3, -0.2, WalkProgress(p));
      if 0.0 <= p then (LerpBetween(0.3, -0.2, WalkProgress(p)); walking) else walking
  }

  /** The two facing rules agree where they hand over: the walk is over well
      before 0.7, so the walking rule already gives -0.2 there, which is where
      the turn towards the horse starts; the turn then grows steadily. */
  lemma FacingTurnsSmoothly(p1: real, p2: real)
    requires 2.0 / 3.0 <= p1 <= p2
    ensures Facing(p1) <= Facing(p2)
    ensures Facing(p2) - Facing(p1) <= 0.7 / 0.3 * (p2 - p1)
  {
  }

  /** The walker ends the scroll facing the horse at angle 0.5. */
  lemma FacesHorseAtEnd()
    ensures Facing(1.0) == 0.5
  {
  }

  /** The bob is applied only strictly inside (0.1, 0.7). */
  predicate IsWalking(p: real)
  {
    0.1 < p < 0.7
  }

  /** The walker group, as the `useFrame` callback writes it. */
  class Walker {
    var x: real
    var y: real
    var z: real
    var rotationX: real
    var rotationY: real

    /** The group as mounted at (-3, 0, 4). */
    constructor ()
      ensures x == -3.0 && y == 0.0 && z == 4.0 && rotationX == 0.0 && rotationY == 0.0
    {
      x, y, z, rotationX, rotationY := -3.0, 0.0, 4.0, 0.0, 0.0;
    }

    /** One frame at scroll offset `p`; nothing happens while unmounted.
        `bob` and `tilt` are the sines of the wall clock the source computes
        for the height and the forward lean. */
    method Frame(mounted: bool, p: real, bob: real, tilt: real)
      modifies this
      ensures !mounted ==>
        x == old(x) && y == old(y) && z == old(z) && rotationX == old(rotationX) && rotationY == old(rotationY)
      ensures mounted ==>
        x == WalkerX(p) && z == WalkerZ(p) && rotationY == Facing(p) &&
        y == (if IsWalking(p) then 0.1 + bob * 0.05 else old(y)) &&
        rotationX == (if IsWalking(p) then tilt * 0.02 else old(rotationX))
    {
      if !mounted {
        return;
      }
      var walkProgress := Min(p * 1.5, 1.0);
      x := Lerp(-3.0, 1.0, walkProgress);
      z := Lerp(4.0, -1.0, walkProgress);
      rotationY := Lerp(0.3, -0.2, walkProgress);
      if p > 0.1 && p < 0.7 {
        y := 0.1 + bob * 0.05;
        rotationX := tilt * 0.02;
      }
      if p > 0.7 {
        rotationY := Lerp(-0.2, 0.5, (p - 0.7) / 0.3);
      }
    }
  }
}

/** The walker of the enhanced story: an ease-in-out-cubic walk 1.4 times as
    fast as the scroll, a facing angle that relaxes towards its target, a bob
    and sway while walking that relax away when the walk stops, a cloth
    shader's walk speed, and a small surprise movement near the end. */
module CharacterWalkEnhanced {
  import opened Numerics
  import ScrollTracking

  /** The `easeInOutCubic` of the source: 4t^3 below one half,
      1 - (2 - 2t)^3 / 2 from one half on. */
  function EaseInOutCubic(t: real): real
  {
    if t < 0.5 then 4.0 * t * t * t else 1.0 - (-2.0 * t + 2.0) * (-2.0 * t + 2.0) * (-2.0 * t + 2.0) / 2.0
  }

  /** The curve fixes 0, 1/2 and 1, where its two branches meet. */
  lemma EaseCubicFixedPoints()
    ensures EaseInOutCubic(0.0) == 0.0 && EaseInOutCubic(0.5) == 0.5 && EaseInOutCubic(1.0) == 1.0
    ensures 4.0 * 0.5 * 0.5 * 0.5 == 0.5
  {
  }

  /** On [0, 1] the curve stays in [0, 1], below one half on the first branch
      and at least one half on the second. */
  lemma EaseCubicRange(t: real)
    requires 0.0 <= t <= 1.0
    ensures 0.0 <= EaseInOutCubic(t) <= 1.0
    ensures t < 0.5 ==> EaseInOutCubic(t) <= 0.5
    ensures t >= 0.5 ==> EaseInOutCubic(t) >= 0.5
  {
    if t < 0.5 {
      PowersMonotone(t, 0.5);
    } else {
      PowersOfUnit(-2.0 * t + 2.0);
    }
  }

  /** On [0, 1] the curve is non-decreasing. */
  lemma EaseCubicMonotone(t1: real, t2: real)
    requires 0.0 <= t1 <= t2 <= 1.0
    ensures EaseInOutCubic(t1) <= EaseInOutCubic(t2)
  {
    EaseCubicRange(t1);
    EaseCubicRange(t2);
    if t2 < 0.5 {
      PowersMonotone(t1, t2);
    } else if 0.5 <= t1 {
      PowersMonotone(-2.0 * t2 + 2.0, -2.0 * t1 + 2.0);
    }
  }

  /** `Math.min(progress * 1.4, 1)`, eased. */
  function EasedWalk(p: real): (e: real)
    ensures 0.0 <= p ==> 0.0 <= e <= 1.0
    ensures p >= 1.0 / 1.4 ==> e == 1.0
  {
    var w := Min(p * 1.4, 1.0);
    if 0.0 <= p then (EaseCubicRange(w); EaseInOutCubic(w)) else EaseInOutCubic(w)
  }

  /** The eased walk never goes back as the scroll moves forward. */
  lemma EasedWalkMonotone(p1: real, p2: real)
    requires 0.0 <= p1 <= p2
    ensures EasedWalk(p1) <= EasedWalk(p2)
  {
    EaseCubicMonotone(Min(p1 * 1.4, 1.0), Min(p2 * 1.4, 1.0));
  }

  function WalkerX(p: real): (x: real)
    ensures 0.0 <= p ==> -3.0 <= x <= 1.0
  {
    var e := EasedWalk(p);
    if 0.0 <= p then (LerpBetween(-3.0, 1.0, e); Lerp(-3.0, 1.0, e)) else Lerp(-3.0, 1.0, e)
  }

  function WalkerZ(p: real): (z: real)
    ensures 0.0 <= p ==> -1.0 <= z <= 4.0
  {
    var e := EasedWalk(p);
    if 0.0 <= p then (LerpBetween(4.0, -1.0, e); Lerp(4.0, -1.0, e)) else Lerp(4.0, -1.0, e)
  }

  /** Moving forward through the scroll only moves the walker forward along
      the path: x grows and z shrinks. */
  lemma PathIsOneWay(p1: real, p2: real)
    requires 0.0 <= p1 <= p2
    ensures WalkerX(p1) <= WalkerX(p2)
    ensures WalkerZ(p2) <= WalkerZ(p1)
  {
    EasedWalkMonotone(p1, p2);
    LerpMonotone(-3.0, 1.0, EasedWalk(p1), EasedWalk(p2));
    LerpMonotone(-1.0, 4.0, 1.0 - EasedWalk(p2), 1.0 - EasedWalk(p1));
  }

  /** The angle the facing relaxes towards while walking: `lerp(0.3, -0.2, eased)`. */
  function TargetRotation(p: real): (r: real)
    ensures 0.0 <= p ==> -0.2 <= r <= 0.3
  {
    var e := EasedWalk(p);
    if 0.0 <= p then (LerpBetween(0.3, -0.2, e); Lerp(0.3, -0.2, e)) else Lerp(0.3, -0.2, e)
  }

  /** `lerp(current, target, k)`: one frame of relaxation towards a target. */
  function Approach(current: real, target: real, k: real): real
  {
    Lerp(current, target, k)
  }

  /** One relaxation step shrinks the distance to the target by the factor 1 - k. */
  lemma ApproachDistance(current: real, target: real, k: real)
    ensures Approach(current, target, k) - target == (1.0 - k) * (current - target)
  {
    assert Approach(current, target, k) - target == (1.0 - k) * current + k * target - target;
  }

  /** n frames of relaxation towards a fixed target. */
  function Relaxed(current: real, target: real, k: real, n: nat): real
    decreases n
  {
    if n == 0 then current else Relaxed(Approach(current, target, k), target, k, n - 1)
  }

  /** After n frames the distance to the target is (1 - k)^n of what it was:
      the relaxation converges geometrically and never overshoots. */
  lemma {:induction false} RelaxedDistance(current: real, target: real, k: real, n: nat)
    ensures Relaxed(current, target, k, n) - target == Power(1.0 - k, n) * (current - target)
    decreases n
  {
    if n > 0 {
      var next := Approach(current, target, k);
      ApproachDistance(current, target, k);
      RelaxedDistance(next, target, k, n - 1);
      assert Power(1.0 - k, n - 1) * ((1.0 - k) * (current - target))
          == Power(1.0 - k, n) * (current - target);
    }
  }

  /** The facing angle after a frame: relaxed by 0.05 towards the walking
      target, then, past 0.7, relaxed by 0.02 towards the horse at 0.5. */
  function NextRotationY(rotation: real, p: real): real
  {
    var walked := Approach(rotation, TargetRotation(p), 0.05);
    if p > 0.7 then Approach(walked, 0.5, 0.02) else walked
  }

  /** The facing angle never leaves [-0.2, 0.5], whatever the sequence of
      scroll positions, once it starts there (it starts at 0). */
  lemma RotationStaysInBand(rotation: real, p: real)
    requires -0.2 <= rotation <= 0.5 && 0.0 <= p
    ensures -0.2 <= NextRotationY(rotation, p) <= 0.5
  {
    var walked := Approach(rotation, TargetRotation(p), 0.05);
    LerpBetween(rotation, TargetRotation(p), 0.05);
    if p > 0.7 {
      LerpBetween(walked, 0.5, 0.02);
    }
  }

  /** The bob is applied only strictly inside (0.1, 0.7). */
  predicate IsWalking(p: real)
  {
    0.1 < p < 0.7
  }

  /** The height after a frame: the bob while walking, otherwise relaxed by
      0.05 towards 0.1; past 0.75 the surprise offset is added on top. */
  function NextHeight(y: real, p: real, bob: real, surprise: real): real
  {
    var settled := if IsWalking(p) then 0.1 + bob * 0.03 else Approach(y, 0.1, 0.05);
    if p > 0.75 then settled + surprise else settled
  }

  /** Each frame past 0.75 adds a surprise offset to a height that only
      relaxes by 5% a frame, so the offsets accumulate; with sines in [-1, 1]
      the height still never drifts more than 0.4 from its rest height 0.1. */
  lemma HeightDriftBounded(y: real, p: real, bob: real, surprise: real)
    requires Abs(y - 0.1) <= 0.4 && -1.0 <= bob <= 1.0 && -0.02 <= surprise <= 0.02
    ensures Abs(NextHeight(y, p, bob, surprise) - 0.1) <= 0.4
  {
    if !IsWalking(p) {
      ApproachDistance(y, 0.1, 0.05);
    }
  }

  /** The cloth shader's walk speed after a frame: 1 while walking, otherwise
      relaxed by 0.05 towards 0. */
  function NextWalkSpeed(speed: real, p: real): (s: real)
    ensures 0.0 <= speed <= 1.0 ==> 0.0 <= s <= 1.0
  {
    if IsWalking(p) then 1.0 else Approach(speed, 0.0, 0.05)
  }

  /** Once the walk stops, n frames leave exactly 0.95^n of the walk speed. */
  lemma {:induction false} WalkSpeedDecays(speed: real, n: nat)
    ensures Relaxed(speed, 0.0, 0.05, n) == Power(0.95, n) * speed
  {
    RelaxedDistance(speed, 0.0, 0.05, n);
  }

  /** The dust particles are mounted only past 0.65 of the container's progress. */
  predicate DustVisible(scrollProgress: real)
  {
    scrollProgress > 0.65
  }

  /** The dust reads the same container progress as the phase read-out: it
      appears partway through the discovery phase and stays for the rest of
      the story. */
  lemma DustFromDiscoveryOn(scrollProgress: real)
    requires DustVisible(scrollProgress)
    ensures ScrollTracking.PhaseIndex(ScrollTracking.PhaseOf(scrollProgress)) >= 2
    ensures scrollProgress < 0.7 ==> ScrollTracking.PhaseOf(scrollProgress) == ScrollTracking.Discovery
  {
  }

  /** The clock-driven sines of one frame: the bob, lean and sway of
      `sin(walkCycle)`, `sin(walkCycle * 0.5)` and `sin(walkCycle * 1.2)`,
      and the surprise offset `sin((p - 0.75) * 20) * 0.02`. */
  datatype Motion = Motion(bob: real, lean: real, sway: real, surprise: real)

  /** The enhanced walker group and its cloth shader uniforms. */
  class WalkerEnhanced {
    var x: real
    var y: real
    var z: real
    var rotationX: real
    var rotationY: real
    var rotationZ: real
    var timeUniform: real
    var walkSpeedUniform: real

    constructor ()
      ensures x == -3.0 && y == 0.0 && z == 4.0
      ensures rotationX == 0.0 && rotationY == 0.0 && rotationZ == 0.0
      ensures timeUniform == 0.0 && walkSpeedUniform == 0.0
    {
      x, y, z := -3.0, 0.0, 4.0;
      rotationX, rotationY, rotationZ := 0.0, 0.0, 0.0;
      timeUniform, walkSpeedUniform := 0.0, 0.0;
    }

    /** One frame at scroll offset `p` and clock `time`; nothing happens while
        unmounted. The cloth uniforms change only when the cloth shader is
        attached: the clock is passed on only while walking. */
    method Frame(mounted: bool, clothAttached: bool, p: real, time: real, m: Motion)
      modifies this
      ensures !mounted ==>
        x == old(x) && y == old(y) && z == old(z) && rotationX == old(rotationX) &&
        rotationY == old(rotationY) && rotationZ == old(rotationZ) &&
        timeUniform == old(timeUniform) && walkSpeedUniform == old(walkSpeedUniform)
      ensures mounted ==>
        x == WalkerX(p) && z == WalkerZ(p) &&
        rotationY == NextRotationY(old(rotationY), p) &&
        y == NextHeight(old(y), p, m.bob, m.surprise) &&
        rotationX == (if IsWalking(p) then m.lean * 0.01 else Approach(old(rotationX), 0.0, 0.05)) &&
        rotationZ == (if IsWalking(p) then m.sway * 0.015 else Approach(old(rotationZ), 0.0, 0.05))
      ensures mounted && clothAttached ==>
        walkSpeedUniform == NextWalkSpeed(old(walkSpeedUniform), p) &&
        timeUniform == (if IsWalking(p) then time else old(timeUniform))
      ensures mounted && !clothAttached ==>
        walkSpeedUniform == old(walkSpeedUniform) && timeUniform == old(timeUniform)
    {
      if !mounted {
        return;
      }
      var walkProgress := Min(p * 1.4, 1.0);
      var easedProgress := EaseInOutCubic(walkProgress);
      x := Lerp(-3.0, 1.0, easedProgress);
      z := Lerp(4.0, -1.0, easedProgress);
      var targetRotation := Lerp(0.3, -0.2, easedProgress);
      rotationY := Lerp(rotationY, targetRotation, 0.05);

      var isWalking := p > 0.1 && p < 0.7;
      var walkSpeed := if isWalking then 1.0 else 0.0;
      if isWalking {
        y := 0.1 + m.bob * 0.03;
        rotationX := m.lean * 0.01;
        rotationZ := m.sway * 0.015;
        if clothAttached {
          timeUniform := time;
          walkSpeedUniform := walkSpeed;
        }
      } else {
        y := Lerp(y, 0.1, 0.05);
        rotationX := Lerp(rotationX, 0.0, 0.05);
        rotationZ := Lerp(rotationZ, 0.0, 0.05);
        if clothAttached {
          walkSpeedUniform := Lerp(walkSpeedUniform, 0.0, 0.05);
        }
      }

      if p > 0.7 {
        rotationY := Lerp(rotationY, 0.5, 0.02);
        if p > 0.75 {
          y := y + m.surprise;
        }
      }
    }
  }
}
