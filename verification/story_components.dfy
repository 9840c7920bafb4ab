/** The scroll tracker and the phase read-out shared by the three story
    containers: progress is the clamped scroll ratio, and the on-screen phase
    label is chosen by the thresholds 0.2, 0.5, 0.7 and 0.9. */
module ScrollTracking {
  import Numerics

  /** `handleScroll`: scrollTop / (scrollHeight - clientHeight), clamped into
      [0, 1]. Inside [0, 1] the ratio is taken as it is. */
  function ScrollProgress(scrollTop: real, scrollHeight: real, clientHeight: real): (p: real)
    requires scrollHeight > clientHeight
    ensures 0.0 <= p <= 1.0
    ensures 0.0 <= scrollTop / (scrollHeight - clientHeight) <= 1.0 ==>
              p == scrollTop / (scrollHeight - clientHeight)
    ensures scrollTop <= 0.0 ==> p == 0.0
    ensures scrollTop >= scrollHeight - clientHeight ==> p == 1.0
  {
    Numerics.DivideByPositive(scrollTop, scrollHeight - clientHeight);
    Numerics.Clamp(scrollTop / (scrollHeight - clientHeight), 0.0, 1.0)
  }

  /** Scrolling further down never lowers the progress. */
  lemma ScrollProgressMonotone(top1: real, top2: real, scrollHeight: real, clientHeight: real)
    requires scrollHeight > clientHeight && top1 <= top2
    ensures ScrollProgress(top1, scrollHeight, clientHeight) <= ScrollProgress(top2, scrollHeight, clientHeight)
  {
    var range := scrollHeight - clientHeight;
    assert top1 / range <= top2 / range by {
      assert top2 / range - top1 / range == (top2 - top1) / range;
    }
  }

  /** The five narrative phases, in story order. */
  datatype StoryPhase = Genesis | Journey | Discovery | Encounter | Harmony

  function PhaseIndex(ph: StoryPhase): (i: nat)
    ensures i < 5
  {
    match ph
    case Genesis => 0
    case Journey => 1
    case Discovery => 2
    case Encounter => 3
    case Harmony => 4
  }

  /** The progress window in which each label is shown. */
  predicate InPhaseWindow(ph: StoryPhase, p: real)
  {
    match ph
    case Genesis => p < 0.2
    case Journey => 0.2 <= p < 0.5
    case Discovery => 0.5 <= p < 0.7
    case Encounter => 0.7 <= p < 0.9
    case Harmony => 0.9 <= p
  }

  /** The nested conditional of the phase read-out. */
  function PhaseOf(p: real): (ph: StoryPhase)
    ensures InPhaseWindow(ph, p)
  {
    if p < 0.2 then Genesis
    else if p < 0.5 then Journey
    else if p < 0.7 then Discovery
    else if p < 0.9 then Encounter
    else Harmony
  }

  /** Exactly one label applies: the windows partition the real line. */
  lemma ExactlyOnePhase(p: real, ph: StoryPhase)
    ensures InPhaseWindow(ph, p) <==> ph == PhaseOf(p)
  {
  }

  /** The phase index never goes back as progress grows. */
  lemma PhaseMonotone(p1: real, p2: real)
    requires p1 <= p2
    ensures PhaseIndex(PhaseOf(p1)) <= PhaseIndex(PhaseOf(p2))
  {
  }

  /** The labels of the enhanced and simplified containers. */
  function EnglishLabel(ph: StoryPhase): string
  {
    match ph
    case Genesis => "Digital Genesis"
    case Journey => "Code Journey"
    case Discovery => "Innovation Discovery"
    case Encounter => "Creative Encounter"
    case Harmony => "Perfect Harmony"
  }

  /** The labels of the original container. */
  function SpanishLabel(ph: StoryPhase): string
  {
    match ph
    case Genesis => "Inicio del sendero"
    case Journey => "Caminando por el bosque"
    case Discovery => "Descubrimiento"
    case Encounter => "Encuentro"
    case Harmony => "Conexión"
  }

  /** Both label sets name five different phases, so the text shown
      identifies the phase. */
  lemma LabelsIdentifyPhase(a: StoryPhase, b: StoryPhase)
    ensures EnglishLabel(a) == EnglishLabel(b) ==> a == b
    ensures SpanishLabel(a) == SpanishLabel(b) ==> a == b
  {
  }

  /** `Math.round(scrollProgress * 100)` (JavaScript rounds halves up):
      between 0 and 100 for any progress the tracker can produce. */
  function DisplayedPercent(p: real): (r: int)
    ensures 0.0 <= p <= 1.0 ==> 0 <= r <= 100
    ensures (r as real) <= 100.0 * p + 0.5 < (r as real) + 1.0
  {
    (100.0 * p + 0.5).Floor
  }
}

/** The enhanced container: the device-based starting tier, the per-tier
    quality table and which parts of the scene it mounts. */
module ForestStoryEnhanced {
  import opened Wrappers
  import opened Quality
  import Numerics
  import PerformanceMonitor

  /** `deviceMemory && deviceMemory < 4`: present, non-zero (0 is falsy) and under 4. */
  predicate HasLowMemory(nav: PerformanceMonitor.NavigatorInfo)
  {
    nav.deviceMemory.Some? && nav.deviceMemory.value != 0.0 && nav.deviceMemory.value < 4.0
  }

  /** `hardwareConcurrency && hardwareConcurrency < 4`. */
  predicate IsSlowCpu(nav: PerformanceMonitor.NavigatorInfo)
  {
    nav.hardwareConcurrency.Some? && nav.hardwareConcurrency.value != 0 && nav.hardwareConcurrency.value < 4
  }

  /** `detectDevice`: low for a mobile user agent, low memory or a slow CPU,
      high otherwise. The `else if (hasLowMemory)` branch is dead, since low
      memory already selected low, so medium is never chosen. */
  function DetectDevice(isMobile: bool, nav: PerformanceMonitor.NavigatorInfo): (t: Tier)
    ensures t != Medium
    ensures t == Low <==> isMobile || HasLowMemory(nav) || IsSlowCpu(nav)
  {
    if isMobile || HasLowMemory(nav) || IsSlowCpu(nav) then Low
    else if HasLowMemory(nav) then Medium
    else High
  }

  /** A missing memory or core count never makes a desktop low. */
  lemma MissingNavigatorIsHighOnDesktop()
    ensures DetectDevice(false, PerformanceMonitor.NavigatorInfo(None, None)) == High
  {
  }

  datatype QualitySettings = QualitySettings(
    pixelRatio: real,
    antialias: bool,
    shadowMapSize: nat,
    enablePostProcessing: bool,
    particleCount: nat,
    enableShaders: bool)

  /** The `qualitySettings` table, for a window's `devicePixelRatio`.
      Shaders are on only at high; antialiasing and post-processing are off
      only at low; the pixel ratio never exceeds 2, nor the device's own
      ratio above low. */
  function Settings(t: Tier, devicePixelRatio: real): (s: QualitySettings)
    ensures s.enableShaders <==> t == High
    ensures s.enablePostProcessing <==> t != Low
    ensures s.antialias <==> t != Low
    ensures s.pixelRatio <= 2.0
    ensures t != Low ==> s.pixelRatio <= devicePixelRatio
    ensures t == Low ==> s.pixelRatio == 1.0
  {
    match t
    case High => QualitySettings(Numerics.Min(devicePixelRatio, 2.0), true, 2048, true, 150, true)
    case Medium => QualitySettings(Numerics.Min(devicePixelRatio, 1.5), true, 1024, true, 75, false)
    case Low => QualitySettings(1.0, false, 512, false, 30, false)
  }

  /** The table is ordered: a higher tier has strictly more particles and a
      strictly larger shadow map. */
  lemma SettingsOrdered(t1: Tier, t2: Tier, dpr: real)
    requires Rank(t1) < Rank(t2)
    ensures Settings(t1, dpr).particleCount < Settings(t2, dpr).particleCount
    ensures Settings(t1, dpr).shadowMapSize < Settings(t2, dpr).shadowMapSize
  {
  }

  /** What the container mounts for a tier. */
  datatype Mounted = Mounted(shadows: bool, particles: bool, postProcessing: bool, monitor: bool)

  /** The canvas: shadows unless low; particles and post-processing only
      when the tier enables post-processing; the performance monitor only
      in development builds. */
  function SceneFor(t: Tier, isDevelopment: bool): (m: Mounted)
    ensures m.shadows <==> t != Low
    ensures m.particles <==> t != Low
    ensures m.postProcessing == m.particles
    ensures m.monitor == isDevelopment
  {
    var settings := Settings(t, 1.0);
    Mounted(t != Low, settings.enablePostProcessing, settings.enablePostProcessing, isDevelopment)
  }

  /** The tier chosen at start-up for a mobile device mounts neither
      particles nor post-processing. */
  lemma MobileStartsWithoutEffects(nav: PerformanceMonitor.NavigatorInfo, isDevelopment: bool)
    ensures !SceneFor(DetectDevice(true, nav), isDevelopment).particles
    ensures !SceneFor(DetectDevice(true, nav), isDevelopment).postProcessing
  {
  }
}

/** The simplified container's render settings. */
module ForestStorySimple {
  import Numerics

  datatype RenderSettings = RenderSettings(pixelRatio: real, antialias: bool)

  /** Pixel ratio 1 on mobile and min(devicePixelRatio, 2) otherwise;
      antialiasing exactly off on mobile. */
  function SimpleSettings(isMobile: bool, devicePixelRatio: real): (s: RenderSettings)
    ensures s.pixelRatio <= 2.0
    ensures isMobile ==> s.pixelRatio == 1.0
    ensures !isMobile ==> s.pixelRatio <= devicePixelRatio
    ensures s.antialias == !isMobile
  {
    RenderSettings(if isMobile then 1.0 else Numerics.Min(devicePixelRatio, 2.0), !isMobile)
  }
}
