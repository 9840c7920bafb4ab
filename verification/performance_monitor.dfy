/** The quality-tier controller: an FPS sample taken once per window of at
    least one second drives a three-state machine with asymmetric thresholds,
    and a one-off capability score gives the device's starting tier. */
module PerformanceMonitor {
  import opened Wrappers
  import opened Quality
  import Numerics

  /** The length of a sampling window, in milliseconds. */
  const SampleWindow: real := 1000.0

  /** The else-if chain run on each sample: the tier passed to
      `onPerformanceChange`, or None when the chain makes no call.
      A request always names a different tier, and the tier rises by
      at most one step per sample. */
  function RequestedTier(fps: real, current: Tier): (r: Option<Tier>)
    ensures r.Some? ==> r.value != current
    ensures r.Some? ==> Rank(r.value) <= Rank(current) + 1
    ensures r.Some? && Rank(r.value) < Rank(current) ==> fps < 50.0
    ensures r.Some? && Rank(r.value) > Rank(current) ==> fps > 55.0
    ensures current == Medium && fps > 58.0 ==> r == Some(High)
  {
    if fps < 30.0 && current != Low then Some(Low)
    else if fps < 50.0 && current == High then Some(Medium)
    else if fps > 55.0 && current == Low then Some(Medium)
    else if fps > 58.0 && current == Medium then Some(High)
    else None
  }

  /** The tier in force after a sample, once the request (if any) is applied. */
  function NextTier(fps: real, current: Tier): (t: Tier)
    ensures t == current || RequestedTier(fps, current) == Some(t)
  {
    match RequestedTier(fps, current)
    case Some(t) => t
    case None => current
  }

  /** From high or medium, any sample under 30 fps goes straight to low. */
  lemma CollapseBelowThirty(fps: real, current: Tier)
    requires fps < 30.0 && current != Low
    ensures RequestedTier(fps, current) == Some(Low)
  {
  }

  /** High with 30 <= fps < 50 steps down to medium, never straight to low. */
  lemma HighDegradesOneStep(fps: real)
    requires 30.0 <= fps < 50.0
    ensures RequestedTier(fps, High) == Some(Medium)
  {
  }

  /** Low recovers only to medium, and only above 55 fps. */
  lemma LowRecoversToMedium(fps: real)
    ensures RequestedTier(fps, Low) == (if fps > 55.0 then Some(Medium) else None)
  {
  }

  /** Medium is left alone for every sample in [30, 58]: the hysteresis band. */
  lemma MediumStableBand(fps: real)
    requires 30.0 <= fps <= 58.0
    ensures RequestedTier(fps, Medium) == None
  {
  }

  /** Medium's whole behaviour: low under 30 fps, high above 58, and no
      request in between. */
  lemma MediumTransitions(fps: real)
    ensures RequestedTier(fps, Medium) ==
      (if fps < 30.0 then Some(Low) else if fps > 58.0 then Some(High) else None)
  {
  }

  /** High is kept for every sample of at least 50 fps. */
  lemma HighStableAboveFifty(fps: real)
    requires fps >= 50.0
    ensures RequestedTier(fps, High) == None
  {
  }

  /** The tier after a run of samples, applied one after another. */
  function Run(samples: seq<real>, start: Tier): Tier
  {
    if samples == [] then start else Run(samples[1..], NextTier(samples[0], start))
  }

  /** Hysteresis over time: once at medium, a run of samples that all lie in
      [30, 58] never changes the tier, however long it is. */
  lemma {:induction false} MediumHoldsInBand(samples: seq<real>)
    requires forall i :: 0 <= i < |samples| ==> 30.0 <= samples[i] <= 58.0
    ensures Run(samples, Medium) == Medium
  {
    if samples != [] {
      MediumStableBand(samples[0]);
      MediumHoldsInBand(samples[1..]);
    }
  }

  /** Over a run of n samples the tier climbs by at most n steps. */
  lemma {:induction false} RunClimbsOneStepPerSample(samples: seq<real>, start: Tier)
    ensures Rank(Run(samples, start)) <= Rank(start) + |samples|
  {
    if samples != [] {
      var next := NextTier(samples[0], start);
      assert Rank(next) <= Rank(start) + 1;
      RunClimbsOneStepPerSample(samples[1..], next);
    }
  }

  /** Frames per second over a window: `frameCount * 1000 / deltaTime`. */
  function SampleFps(frames: nat, delta: real): (fps: real)
    requires delta >= SampleWindow
    ensures 0.0 <= fps <= frames as real
  {
    var f := frames as real;
    Numerics.MulMonotone(1000.0, delta, f);
    f * 1000.0 / delta
  }

  /** The refs `frameCountRef`, `lastTimeRef` and `fpsRef` of the monitor,
      updated by the `useFrame` callback. */
  class FrameSampler {
    var frameCount: nat
    var lastTime: real
    var fps: real

    /** Mounting: no frames counted yet, the window starts now, 60 fps assumed. */
    constructor (now: real)
      ensures frameCount == 0 && lastTime == now && fps == 60.0
    {
      frameCount := 0;
      lastTime := now;
      fps := 60.0;
    }

    /** One rendered frame at time `now` (ms), with the tier currently in force.
        The frame is counted; once at least a window has elapsed, a sample is
        taken, the tier change (if any) is requested, and the window restarts
        at `now` with a zero count. */
    method OnFrame(now: real, current: Tier) returns (request: Option<Tier>)
      modifies this
      ensures now - old(lastTime) < SampleWindow ==>
        frameCount == old(frameCount) + 1 && lastTime == old(lastTime) && fps == old(fps) && request == None
      ensures now - old(lastTime) >= SampleWindow ==>
        fps == SampleFps(old(frameCount) + 1, now - old(lastTime)) &&
        request == RequestedTier(fps, current) &&
        frameCount == 0 && lastTime == now
    {
      frameCount := frameCount + 1;
      var deltaTime := now - lastTime;
      request := None;
      if deltaTime >= SampleWindow {
        fps := SampleFps(frameCount, deltaTime);
        request := RequestedTier(fps, current);
        frameCount := 0;
        lastTime := now;
      }
    }
  }

  /** What a WebGL context reports: the two hardware limits read and whether
      each of the three extensions is available. */
  datatype GlCapabilities = GlCapabilities(
    maxTextureSize: int,
    maxViewportWidth: int,
    anisotropic: bool,
    floatTextures: bool,
    depthTexture: bool)

  /** `navigator.deviceMemory` (GiB) and `navigator.hardwareConcurrency`;
      either may be missing. */
  datatype NavigatorInfo = NavigatorInfo(deviceMemory: Option<real>, hardwareConcurrency: Option<nat>)

  /** `value || 4`: a missing value, and also 0 (falsy), falls back to 4. */
  function OrFour(v: Option<real>): (r: real)
    ensures v.None? ==> r == 4.0
    ensures v == Some(0.0) ==> r == 4.0
    ensures v.Some? && v.value != 0.0 ==> r == v.value
  {
    if v.Some? && v.value != 0.0 then v.value else 4.0
  }

  function CountOrFour(v: Option<nat>): (r: nat)
    ensures r > 0
    ensures (v.None? || v.value == 0) ==> r == 4
    ensures v.Some? && v.value != 0 ==> r == v.value
  {
    if v.Some? && v.value != 0 then v.value else 4
  }

  /** The points for a resource measured against the 8 and 4 thresholds. */
  function ResourcePoints(amount: real): (points: nat)
    ensures points <= 2
    ensures points == 2 <==> amount >= 8.0
    ensures points == 0 <==> amount < 4.0
  {
    if amount >= 8.0 then 2 else if amount >= 4.0 then 1 else 0
  }

  /** The points earned from the WebGL context alone (at most 7). */
  function GlPoints(gl: GlCapabilities): (points: nat)
    ensures points <= 7
  {
    (if gl.maxTextureSize >= 4096 then 2 else 0)
    + (if gl.maxViewportWidth >= 4096 then 2 else 0)
    + (if gl.anisotropic then 1 else 0)
    + (if gl.floatTextures then 1 else 0)
    + (if gl.depthTexture then 1 else 0)
  }

  /** The capability score as the source accumulates it in a `let`, one
      fixed increment at a time. It never exceeds 11, and it is the sum of the
      context's points and the memory and core points. */
  method CapabilityScore(gl: GlCapabilities, nav: NavigatorInfo) returns (score: nat)
    ensures score <= 11
    ensures score == GlPoints(gl)
                     + ResourcePoints(OrFour(nav.deviceMemory))
                     + ResourcePoints(CountOrFour(nav.hardwareConcurrency) as real)
  {
    score := 0;
    if gl.maxTextureSize >= 4096 { score := score + 2; }
    if gl.maxViewportWidth >= 4096 { score := score + 2; }
    if gl.anisotropic { score := score + 1; }
    if gl.floatTextures { score := score + 1; }
    if gl.depthTexture { score := score + 1; }

    var deviceMemory := OrFour(nav.deviceMemory);
    if deviceMemory >= 8.0 { score := score + 2; }
    else if deviceMemory >= 4.0 { score := score + 1; }

    var hardwareConcurrency := CountOrFour(nav.hardwareConcurrency);
    if hardwareConcurrency >= 8 { score := score + 2; }
    else if hardwareConcurrency >= 4 { score := score + 1; }
  }

  /** A browser that reports neither memory nor core count is credited with
      4 of each, which earns one point apiece. */
  lemma MissingNavigatorScoresTwo()
    ensures ResourcePoints(OrFour(None)) + ResourcePoints(CountOrFour(None) as real) == 2
  {
  }

  /** The score thresholds: 8 and above is high, 5 to 7 medium, below 5 low. */
  function TierForScore(score: int): (t: Tier)
    ensures t == High <==> score >= 8
    ensures t == Low <==> score < 5
  {
    if score >= 8 then High else if score >= 5 then Medium else Low
  }

  /** A higher score never selects a lower tier. */
  lemma TierForScoreMonotone(s1: int, s2: int)
    requires s1 <= s2
    ensures Rank(TierForScore(s1)) <= Rank(TierForScore(s2))
  {
  }

  /** `checkDeviceCapabilities`: without a WebGL context the tier is low;
      otherwise the tier the score selects. */
  method CheckDeviceCapabilities(gl: Option<GlCapabilities>, nav: NavigatorInfo) returns (t: Tier)
    ensures gl.None? ==> t == Low
    ensures gl.Some? ==> t == TierForScore(GlPoints(gl.value)
                                            + ResourcePoints(OrFour(nav.deviceMemory))
                                            + ResourcePoints(CountOrFour(nav.hardwareConcurrency) as real))
  {
    if gl.None? {
      return Low;
    }
    var score := CapabilityScore(gl.value, nav);
    t := TierForScore(score);
  }

  /** Without the two large hardware limits a device cannot reach high,
      whatever its extensions, memory and cores. */
  lemma SmallLimitsNeverHigh(gl: GlCapabilities, nav: NavigatorInfo)
    requires gl.maxTextureSize < 4096 && gl.maxViewportWidth < 4096
    ensures TierForScore(GlPoints(gl)
                         + ResourcePoints(OrFour(nav.deviceMemory))
                         + ResourcePoints(CountOrFour(nav.hardwareConcurrency) as real)) != High
  {
  }
}
