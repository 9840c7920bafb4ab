/** The HTML overlay of the story: five full-screen layers whose transforms
    and opacities are linear in the scroll progress, a falling-leaf layer
    mounted past 0.3, and four narrative captions in separate progress
    windows. Lengths are in pixels, angles in degrees. */
module ParallaxLayers {
  import opened Wrappers
  import opened Numerics

  /** The style a layer's `div` receives. A layer that sets no transform or
      opacity has translation 0, scale 1 and opacity 1. */
  datatype Style = Style(translateX: real, translateY: real, scale: real, opacity: real)

  /** The background gradient: 20p down. */
  function Background(p: real): (s: Style)
    ensures s.translateX == 0.0 && s.scale == 1.0 && s.opacity == 1.0
    ensures 0.0 <= p <= 1.0 ==> 0.0 <= s.translateY <= 20.0
  {
    Style(0.0, p * 20.0, 1.0, 1.0)
  }

  /** The far tree silhouettes: 40p down, grown by a tenth at most, fading to 0.7. */
  function FarTrees(p: real): (s: Style)
    ensures s.translateX == 0.0
    ensures 0.0 <= p <= 1.0 ==> 0.0 <= s.translateY <= 40.0
    ensures 0.0 <= p <= 1.0 ==> 1.0 <= s.scale <= 1.1
    ensures 0.0 <= p <= 1.0 ==> 0.7 <= s.opacity <= 1.0
  {
    Style(0.0, p * 40.0, 1.0 + p * 0.1, 1.0 - p * 0.3)
  }

  /** The i-th of the 8 silhouettes moves another `p * (30 + 5i)` down. */
  function SilhouetteShift(i: nat, p: real): real
  {
    p * (30.0 + i as real * 5.0)
  }

  /** The fog: 30p left and 60p down, fading from 0.7 to 0.4. */
  function Fog(p: real): (s: Style)
    ensures s.scale == 1.0
    ensures 0.0 <= p <= 1.0 ==> -30.0 <= s.translateX <= 0.0 && 0.0 <= s.translateY <= 60.0
    ensures 0.0 <= p <= 1.0 ==> 0.4 <= s.opacity <= 0.7
  {
    Style(p * -30.0, p * 60.0, 1.0, 0.7 - p * 0.3)
  }

  /** The centre of the fog's radial gradient, in percent of the screen. */
  function FogCentre(p: real): (c: (real, real))
    ensures 0.0 <= p <= 1.0 ==> 50.0 <= c.0 <= 70.0 && 30.0 <= c.1 <= 70.0
  {
    (50.0 + p * 20.0, 30.0 + p * 40.0)
  }

  /** The sun rays: 20p left, fading from 0.8 to 0.4. */
  function SunRays(p: real): (s: Style)
    ensures s.translateY == 0.0 && s.scale == 1.0
    ensures 0.0 <= p <= 1.0 ==> -20.0 <= s.translateX <= 0.0
    ensures 0.0 <= p <= 1.0 ==> 0.4 <= s.opacity <= 0.8
  {
    Style(p * -20.0, 0.0, 1.0, 0.8 - p * 0.4)
  }

  /** The i-th of the 4 rays: tilted by -15 + 10i degrees and moved `p * (20 + 10i)` down. */
  function RayTilt(i: nat): (deg: real)
    ensures i <= 3 ==> -15.0 <= deg <= 15.0
    ensures deg < 0.0 <==> i <= 1
  {
    -15.0 + i as real * 10.0
  }

  function RayShift(i: nat, p: real): real
  {
    p * (20.0 + i as real * 10.0)
  }

  /** The falling leaves are mounted only past 0.3. */
  predicate LeavesVisible(p: real)
  {
    p > 0.3
  }

  /** The leaf layer, `(p - 0.3) * 100` down, and the i-th of its 12 leaves,
      rotated by 30i degrees and moved another `(p - 0.3) * (200 + 50i)` down;
      all of these are positive whenever the layer is mounted. */
  function LeafLayerShift(p: real): (d: real)
    ensures LeavesVisible(p) ==> d > 0.0
    ensures p <= 1.0 ==> d <= 70.0
  {
    (p - 0.3) * 100.0
  }

  function LeafShift(i: nat, p: real): (d: real)
    ensures LeavesVisible(p) ==> d > 0.0
  {
    var extra := i as real * 50.0;
    var d := (p - 0.3) * (200.0 + extra);
    if LeavesVisible(p) then
      (MulMonotone(0.0, p - 0.3, extra);
       assert d == (p - 0.3) * 200.0 + (p - 0.3) * extra;
       d)
    else d
  }

  function LeafRotation(i: nat): (deg: real)
    ensures i < 12 ==> 0.0 <= deg < 360.0
  {
    i as real * 30.0
  }

  /** The vignette darkens from 0.3 to 0.7. */
  function Vignette(p: real): (s: Style)
    ensures s.translateX == 0.0 && s.translateY == 0.0 && s.scale == 1.0
    ensures 0.0 <= p <= 1.0 ==> 0.3 <= s.opacity <= 0.7
  {
    Style(0.0, 0.0, 1.0, 0.3 + p * 0.4)
  }

  /** The parallax depth order: for any forward scroll the layers drawn
      further forward move further down, background < far trees < fog, and
      each silhouette moves further than the one before it. */
  lemma DepthOrder(p: real, i: nat, j: nat)
    requires 0.0 <= p && i <= j
    ensures Background(p).translateY <= FarTrees(p).translateY <= Fog(p).translateY
    ensures SilhouetteShift(i, p) <= SilhouetteShift(j, p)
    ensures RayShift(i, p) <= RayShift(j, p)
  {
    assert SilhouetteShift(j, p) - SilhouetteShift(i, p) == p * ((j - i) as real * 5.0);
    assert RayShift(j, p) - RayShift(i, p) == p * ((j - i) as real * 10.0);
  }

  /** Every layer fades or darkens steadily as the scroll moves forward. */
  lemma OpacitiesMonotone(p1: real, p2: real)
    requires p1 <= p2
    ensures FarTrees(p2).opacity <= FarTrees(p1).opacity
    ensures Fog(p2).opacity <= Fog(p1).opacity
    ensures SunRays(p2).opacity <= SunRays(p1).opacity
    ensures Vignette(p1).opacity <= Vignette(p2).opacity
  {
  }

  /** The four narrative captions. */
  datatype Caption = Welcome | EveryLine | Innovation | Connection

  /** The progress window in which each caption is mounted. */
  predicate CaptionShown(c: Caption, p: real)
  {
    match c
    case Welcome => p < 0.2
    case EveryLine => 0.3 <= p < 0.6
    case Innovation => 0.6 <= p < 0.9
    case Connection => p >= 0.9
  }

  /** The caption on screen, if any. */
  function CaptionAt(p: real): (c: Option<Caption>)
    ensures c.Some? ==> CaptionShown(c.value, p)
  {
    if p < 0.2 then Some(Welcome)
    else if p < 0.3 then None
    else if p < 0.6 then Some(EveryLine)
    else if p < 0.9 then Some(Innovation)
    else Some(Connection)
  }

  /** The windows are pairwise disjoint, so at most one caption shows, and
      it is the one `CaptionAt` names; none shows on [0.2, 0.3). */
  lemma AtMostOneCaption(c: Caption, p: real)
    ensures CaptionShown(c, p) <==> CaptionAt(p) == Some(c)
    ensures CaptionAt(p).None? <==> 0.2 <= p < 0.3
  {
  }

  /** The welcome caption fades out over its window: opacity in (0, 1]. */
  function WelcomeOpacity(p: real): (o: real)
    ensures 0.0 <= p < 0.2 ==> 0.0 < o <= 1.0
    ensures p == 0.0 ==> o == 1.0
  {
    1.0 - p / 0.2
  }

  /** The closing caption fades in over its window: opacity in [0, 1]. */
  function ConnectionOpacity(p: real): (o: real)
    ensures 0.9 <= p <= 1.0 ==> 0.0 <= o <= 1.0
    ensures p == 1.0 ==> o == 1.0
  {
    (p - 0.9) / 0.1
  }

  /** The middle captions slide in: from 100 px right, and from 50 px below,
      to their places at the end of their windows. */
  function EveryLineSlide(p: real): (d: real)
    ensures 0.3 <= p < 0.6 ==> 0.0 < d <= 100.0
  {
    (1.0 - (p - 0.3) / 0.3) * 100.0
  }

  function InnovationSlide(p: real): (d: real)
    ensures 0.6 <= p < 0.9 ==> 0.0 < d <= 50.0
  {
    (1.0 - (p - 0.6) / 0.3) * 50.0
  }
}
