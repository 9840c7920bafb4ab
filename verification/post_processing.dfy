/** The post-processing chain: a per-tier configuration, a composer whose
    passes are added one by one from the configuration's flags, a per-frame
    schedule for the bloom and the vignette, and a resize handler. */
module PostProcessing {
  import opened Wrappers
  import opened Quality
  import opened Numerics
  import ForestStoryEnhanced

  datatype PostConfig = PostConfig(
    bloomStrength: real,
    bloomRadius: real,
    bloomThreshold: real,
    enableVignette: bool,
    enableGamma: bool,
    enableFxaa: bool,
    resolution: real)

  /** The configuration table. Bloom weakens and its threshold rises as the
      tier drops; the vignette is on except at low; gamma correction and FXAA
      only at high; the render scale is 1, 0.8 and 0.6. */
  function ConfigFor(t: Tier): (c: PostConfig)
    ensures c.enableVignette <==> t != Low
    ensures c.enableGamma <==> t == High
    ensures c.enableFxaa <==> t == High
    ensures 0.5 <= c.bloomStrength <= 1.2 && 0.7 <= c.bloomThreshold <= 0.9
    ensures 0.6 <= c.resolution <= 1.0
  {
    match t
    case High => PostConfig(1.2, 0.4, 0.7, true, true, true, 1.0)
    case Medium => PostConfig(0.8, 0.3, 0.8, true, false, false, 0.8)
    case Low => PostConfig(0.5, 0.2, 0.9, false, false, false, 0.6)
  }

  /** A higher tier has a stronger, wider bloom with a lower threshold and
      renders at a larger scale. */
  lemma ConfigOrdered(t1: Tier, t2: Tier)
    requires Rank(t1) < Rank(t2)
    ensures ConfigFor(t1).bloomStrength < ConfigFor(t2).bloomStrength
    ensures ConfigFor(t1).bloomRadius < ConfigFor(t2).bloomRadius
    ensures ConfigFor(t2).bloomThreshold < ConfigFor(t1).bloomThreshold
    ensures ConfigFor(t1).resolution < ConfigFor(t2).resolution
  {
  }

  /** The passes a composer can hold. */
  datatype PassKind = RenderScene | Bloom | Vignette | Gamma | Fxaa

  /** The position each pass takes in the chain. */
  function Stage(k: PassKind): (n: nat)
    ensures n < 5
  {
    match k
    case RenderScene => 0
    case Bloom => 1
    case Vignette => 2
    case Gamma => 3
    case Fxaa => 4
  }

  /** The chain a configuration asks for: render and bloom always, then each
      optional pass in turn when its flag is on. */
  function PassList(c: PostConfig): seq<PassKind>
  {
    [RenderScene, Bloom]
      + (if c.enableVignette then [Vignette] else [])
      + (if c.enableGamma then [Gamma] else [])
      + (if c.enableFxaa then [Fxaa] else [])
  }

  /** The chain starts with render then bloom, holds each optional pass
      exactly when its flag is on, and never puts a pass before one of an
      earlier stage; it is 5, 3 and 2 passes long at high, medium and low. */
  lemma PassListShape(t: Tier)
    ensures |PassList(ConfigFor(t))| == (match t case High => 5 case Medium => 3 case Low => 2)
    ensures PassList(ConfigFor(t))[0] == RenderScene && PassList(ConfigFor(t))[1] == Bloom
    ensures Vignette in PassList(ConfigFor(t)) <==> ConfigFor(t).enableVignette
    ensures Gamma in PassList(ConfigFor(t)) <==> ConfigFor(t).enableGamma
    ensures Fxaa in PassList(ConfigFor(t)) <==> ConfigFor(t).enableFxaa
    ensures forall i, j :: 0 <= i < j < |PassList(ConfigFor(t))| ==>
      Stage(PassList(ConfigFor(t))[i]) < Stage(PassList(ConfigFor(t))[j])
  {
  }

  /** The bloom's strength and radius for a scroll progress: a tent of
      intensity `1 - |p - 0.75| / 0.15` over [0.6, 0.9], a fade from 2 to 1
      past 0.9, and 0.8 and 0.3 otherwise. */
  function BloomSchedule(p: real): (r: (real, real))
  {
    if 0.6 <= p <= 0.9 then
      var intensity := 1.0 - Abs((p - 0.75) / 0.15);
      (Lerp(0.8, 2.0, intensity), Lerp(0.3, 0.6, intensity))
    else if p > 0.9 then
      (Lerp(2.0, 1.0, (p - 0.9) / 0.1), 0.4)
    else
      (0.8, 0.3)
  }

  /** Over the scroll range the strength stays in [0.8, 2] and the radius in
      [0.3, 0.6]; the tent peaks at 2 exactly when p = 0.75. */
  lemma BloomScheduleRange(p: real)
    requires p <= 1.0
    ensures 0.8 <= BloomSchedule(p).0 <= 2.0
    ensures 0.3 <= BloomSchedule(p).1 <= 0.6
    ensures 0.6 <= p <= 0.9 ==> (BloomSchedule(p).0 == 2.0 <==> p == 0.75)
  {
    if 0.6 <= p <= 0.9 {
      var intensity := 1.0 - Abs((p - 0.75) / 0.15);
      assert 0.0 <= intensity <= 1.0;
      LerpBetween(0.8, 2.0, intensity);
      LerpBetween(0.3, 0.6, intensity);
    } else if p > 0.9 {
      LerpBetween(2.0, 1.0, (p - 0.9) / 0.1);
    }
  }

  /** The schedule is not continuous at 0.9: the tent has fallen back to
      0.8 and 0.3 there, while just past 0.9 the fade starts from strength
      near 2 and radius 0.4. */
  lemma BloomJumpsAtNineTenths(p: real)
    requires 0.9 < p <= 0.91
    ensures BloomSchedule(0.9) == (0.8, 0.3)
    ensures BloomSchedule(p).0 >= 1.9 && BloomSchedule(p).1 == 0.4
  {
  }

  /** The vignette's darkness: 1.2 past 0.7, 0.8 otherwise. */
  function VignetteDarkness(p: real): (d: real)
    ensures d == 1.2 <==> p > 0.7
    ensures d == 0.8 <==> p <= 0.7
  {
    if p > 0.7 then 1.2 else 0.8
  }

  /** The resize handler's own table of render scales. */
  function ResizeScale(t: Tier): real
  {
    match t
    case High => 1.0
    case Medium => 0.8
    case Low => 0.6
  }

  /** The resize table agrees with the configuration table, so a resize
      keeps the scale the composer was built with. */
  lemma ResizeMatchesSetup(t: Tier)
    ensures ResizeScale(t) == ConfigFor(t).resolution
  {
  }

  /** What the bloom pass holds. */
  datatype BloomPass = BloomPass(strength: real, radius: real, threshold: real)

  /** What the vignette pass holds. */
  datatype VignettePass = VignettePass(offset: real, darkness: real)

  /** A composer: its chain, its size, and the resolution uniform of its FXAA
      pass when it has one. */
  datatype Composer = Composer(passes: seq<PassKind>, width: real, height: real, fxaaResolution: Option<(real, real)>)

  /** The composer a set-up builds for tier `t` in a window of the given
      size: the configured chain, scaled size, and an FXAA resolution exactly
      when the chain has an FXAA pass. */
  function BuiltComposer(t: Tier, innerWidth: real, innerHeight: real): (k: Composer)
    requires innerWidth > 0.0 && innerHeight > 0.0
    ensures k.passes == PassList(ConfigFor(t))
    ensures k.fxaaResolution.Some? <==> Fxaa in k.passes
    ensures k.width == innerWidth * ConfigFor(t).resolution && k.height == innerHeight * ConfigFor(t).resolution
    ensures 0.0 < k.width <= innerWidth && 0.0 < k.height <= innerHeight
  {
    var c := ConfigFor(t);
    Composer(PassList(c), innerWidth * c.resolution, innerHeight * c.resolution,
             if c.enableFxaa then Some((1.0 / (innerWidth * c.resolution), 1.0 / (innerHeight * c.resolution))) else None)
  }

  /** The component's three refs (composer, bloom pass, vignette pass) and a
      count of the frames the composer drew. The refs are only ever set,
      never cleared. */
  class Effects {
    var composer: Option<Composer>
    var bloom: Option<BloomPass>
    var vignette: Option<VignettePass>
    var renders: nat

    /** Mounting: all three refs empty. */
    constructor ()
      ensures composer == None && bloom == None && vignette == None && renders == 0
    {
      composer, bloom, vignette := None, None, None;
      renders := 0;
    }

    /** The set-up effect for tier `t` and a window of the given (positive)
        size. Without a renderer nothing happens. Otherwise the passes are
        added to a new composer one by one; the composer and bloom refs take
        the new objects, while the vignette ref is replaced only when the
        tier has a vignette and otherwise keeps the previous set-up's pass. */
    method Setup(hasRenderer: bool, t: Tier, innerWidth: real, innerHeight: real)
      requires innerWidth > 0.0 && innerHeight > 0.0
      modifies this
      ensures !hasRenderer ==> composer == old(composer) && bloom == old(bloom) && vignette == old(vignette)
      ensures hasRenderer ==>
        composer == Some(BuiltComposer(t, innerWidth, innerHeight)) &&
        bloom == Some(BloomPass(ConfigFor(t).bloomStrength, ConfigFor(t).bloomRadius, ConfigFor(t).bloomThreshold)) &&
        vignette == (if ConfigFor(t).enableVignette then Some(VignettePass(0.95, 0.8)) else old(vignette))
      ensures renders == old(renders)
    {
      if !hasRenderer {
        return;
      }
      var config := ConfigFor(t);
      var chain := [];
      chain := chain + [RenderScene];
      bloom := Some(BloomPass(config.bloomStrength, config.bloomRadius, config.bloomThreshold));
      chain := chain + [Bloom];
      if config.enableVignette {
        vignette := Some(VignettePass(0.95, 0.8));
        chain := chain + [Vignette];
      }
      if config.enableGamma {
        chain := chain + [Gamma];
      }
      var fxaa := None;
      if config.enableFxaa {
        fxaa := Some((1.0 / (innerWidth * config.resolution), 1.0 / (innerHeight * config.resolution)));
        chain := chain + [Fxaa];
      }
      assert chain == PassList(config);
      composer := Some(Composer(chain, innerWidth * config.resolution, innerHeight * config.resolution, fxaa));
    }

    /** One frame at progress `p`: only when all three refs are set, the
        bloom follows the schedule, the vignette the darkness rule, and the
        composer draws. */
    method Frame(p: real)
      modifies this
      ensures composer == old(composer)
      ensures !(composer.Some? && old(bloom).Some? && old(vignette).Some?) ==>
        bloom == old(bloom) && vignette == old(vignette) && renders == old(renders)
      ensures composer.Some? && old(bloom).Some? && old(vignette).Some? ==>
        bloom == Some(old(bloom).value.(strength := BloomSchedule(p).0, radius := BloomSchedule(p).1)) &&
        vignette == Some(old(vignette).value.(darkness := VignetteDarkness(p))) &&
        renders == old(renders) + 1
    {
      if composer.Some? && bloom.Some? && vignette.Some? {
        if p >= 0.6 && p <= 0.9 {
          var revealIntensity := 1.0 - Abs((p - 0.75) / 0.15);
          bloom := Some(bloom.value.(strength := Lerp(0.8, 2.0, revealIntensity), radius := Lerp(0.3, 0.6, revealIntensity)));
        } else if p > 0.9 {
          bloom := Some(bloom.value.(strength := Lerp(2.0, 1.0, (p - 0.9) / 0.1), radius := 0.4));
        } else {
          bloom := Some(bloom.value.(strength := 0.8, radius := 0.3));
        }
        var vignetteIntensity := if p > 0.7 then 1.2 else 0.8;
        vignette := Some(vignette.value.(darkness := vignetteIntensity));
        renders := renders + 1;
      }
    }

    /** The resize handler, for the current tier and the new (positive) window
        size: with a composer, its size follows the resize table, and the
        loop over its passes gives the one with a resolution uniform (FXAA)
        the reciprocal of the new size. */
    method Resize(t: Tier, innerWidth: real, innerHeight: real)
      requires innerWidth > 0.0 && innerHeight > 0.0
      modifies this
      ensures bloom == old(bloom) && vignette == old(vignette) && renders == old(renders)
      ensures old(composer).None? ==> composer == old(composer)
      ensures old(composer).Some? ==>
        var k := old(composer).value;
        composer == Some(Composer(k.passes, innerWidth * ResizeScale(t), innerHeight * ResizeScale(t),
          if Fxaa in k.passes then Some((1.0 / (innerWidth * ResizeScale(t)), 1.0 / (innerHeight * ResizeScale(t))))
          else k.fxaaResolution))
    {
      if composer.Some? {
        var scale := ResizeScale(t);
        var passes := composer.value.passes;
        var fxaa := composer.value.fxaaResolution;
        var i := 0;
        while i < |passes|
          invariant 0 <= i <= |passes|
          invariant fxaa == (if Fxaa in passes[..i] then Some((1.0 / (innerWidth * scale), 1.0 / (innerHeight * scale)))
                             else composer.value.fxaaResolution)
        {
          if passes[i] == Fxaa {
            fxaa := Some((1.0 / (innerWidth * scale), 1.0 / (innerHeight * scale)));
          }
          assert passes[..i + 1] == passes[..i] + [passes[i]];
          i := i + 1;
        }
        assert passes[..i] == passes;
        composer := Some(Composer(passes, innerWidth * scale, innerHeight * scale, fxaa));
      }
    }
  }

  /** A resize keeps the chain and, because the two tables agree, the size
      a set-up for the same tier and window would have chosen. */
  lemma ResizeKeepsSetupSize(t: Tier, innerWidth: real, innerHeight: real)
    requires innerWidth > 0.0 && innerHeight > 0.0
    ensures innerWidth * ResizeScale(t) == BuiltComposer(t, innerWidth, innerHeight).width
    ensures innerHeight * ResizeScale(t) == BuiltComposer(t, innerWidth, innerHeight).height
  {
    ResizeMatchesSetup(t);
  }

  /** The enhanced container mounts this component only above low, so a
      drop to low unmounts it and discards its refs. The two sessions below
      therefore describe the component used on its own, outside that
      container; inside it, neither arises. */
  lemma SessionsNeedComponentAlone(isDevelopment: bool)
    ensures !ForestStoryEnhanced.SceneFor(Low, isDevelopment).postProcessing
    ensures ForestStoryEnhanced.SceneFor(Medium, isDevelopment).postProcessing
  {
  }

  /** The component on its own, set up at low: it never drives the composer.
      No vignette pass is ever created, so the frame never finds all three
      refs set, the bloom keeps its configured strength 0.5 and nothing is
      drawn. */
  method FreshLowSession(p: real, innerWidth: real, innerHeight: real) returns (strength: real, drawn: nat)
    requires innerWidth > 0.0 && innerHeight > 0.0
    ensures strength == 0.5 && drawn == 0
  {
    var fx := new Effects();
    fx.Setup(true, Low, innerWidth, innerHeight);
    fx.Frame(p);
    strength, drawn := fx.bloom.value.strength, fx.renders;
  }

  /** The component on its own, set up at medium and then again at low
      without being unmounted: the vignette ref still holds the medium
      chain's pass, which is no longer in the composer, so the frame keeps
      adjusting the bloom and drawing. */
  method DropToLowSession(p: real, innerWidth: real, innerHeight: real) returns (strength: real, drawn: nat, chain: seq<PassKind>)
    requires innerWidth > 0.0 && innerHeight > 0.0
    ensures chain == [RenderScene, Bloom] && Vignette !in chain
    ensures strength == BloomSchedule(p).0 && drawn == 1
  {
    var fx := new Effects();
    fx.Setup(true, Medium, innerWidth, innerHeight);
    fx.Setup(true, Low, innerWidth, innerHeight);
    fx.Frame(p);
    strength, drawn, chain := fx.bloom.value.strength, fx.renders, fx.composer.value.passes;
  }
}
