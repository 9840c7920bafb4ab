/** The magical particles around the horse: a cloud of `particleCount`
    points whose opacity follows the reveal and fades out at the very end of
    the scroll, and a golden ring of a third as many points past 0.7. */
module MagicalParticles {
  import opened Numerics

  /** `Math.max(0, Math.min(1, (p - 0.6) / 0.3))`. */
  function Reveal(p: real): (r: real)
    ensures 0.0 <= r <= 1.0
    ensures p <= 0.6 ==> r == 0.0
    ensures p >= 0.9 ==> r == 1.0
    ensures 0.6 <= p <= 0.9 ==> r == (p - 0.6) / 0.3
  {
    Max(0.0, Min(1.0, (p - 0.6) / 0.3))
  }

  /** `(p - 0.95) / 0.05` past 0.95, else 0. */
  function FadeOut(p: real): (f: real)
    ensures p <= 1.0 ==> 0.0 <= f <= 1.0
    ensures p <= 0.95 ==> f == 0.0
    ensures p == 1.0 ==> f == 1.0
  {
    if p > 0.95 then (p - 0.95) / 0.05 else 0.0
  }

  /** The opacity uniform, `reveal * (1 - fade) * 0.8`: within [0, 0.8] over
      the scroll; 0 up to 0.6; the full 0.8 exactly on [0.9, 0.95]; and 0
      again at the very end. */
  function Opacity(p: real): (o: real)
    ensures p <= 1.0 ==> 0.0 <= o <= 0.8
    ensures p <= 0.6 ==> o == 0.0
    ensures 0.9 <= p <= 0.95 ==> o == 0.8
    ensures p == 1.0 ==> o == 0.0
  {
    var r := Reveal(p);
    var keep := 1.0 - FadeOut(p);
    if p <= 1.0 then
      (MulMonotone(0.0, r, keep); MulMonotone(r, 1.0, keep); assert 0.0 <= r * keep <= keep <= 1.0;
       r * keep * 0.8)
    else r * keep * 0.8
  }

  /** The opacity rises over the reveal and falls over the fade-out. */
  lemma OpacityRisesThenFalls(p1: real, p2: real)
    requires p1 <= p2
    ensures p2 <= 0.95 ==> Opacity(p1) <= Opacity(p2)
    ensures 0.9 <= p1 ==> Opacity(p2) <= Opacity(p1)
  {
    if p2 <= 0.95 {
      assert FadeOut(p1) == 0.0 && FadeOut(p2) == 0.0;
      assert Opacity(p1) == Reveal(p1) * 0.8 && Opacity(p2) == Reveal(p2) * 0.8;
    }
    if 0.9 <= p1 {
      assert Reveal(p1) == 1.0 && Reveal(p2) == 1.0;
      assert Opacity(p1) == (1.0 - FadeOut(p1)) * 0.8 && Opacity(p2) == (1.0 - FadeOut(p2)) * 0.8;
    }
  }

  /** `Math.PI` as a double. */
  const Pi: real := 3.141592653589793

  /** The six `Math.random()` draws behind one particle, each in [0, 1). */
  datatype Draw = Draw(u1: real, u2: real, u3: real, u4: real, u5: real, u6: real)

  predicate ValidDraw(d: Draw)
  {
    0.0 <= d.u1 < 1.0 && 0.0 <= d.u2 < 1.0 && 0.0 <= d.u3 < 1.0 &&
    0.0 <= d.u4 < 1.0 && 0.0 <= d.u5 < 1.0 && 0.0 <= d.u6 < 1.0
  }

  datatype Particle = Particle(x: real, y: real, z: real, speed: real, phase: real, originalY: real)

  /** One particle record drawn from six random numbers. */
  function MakeParticle(d: Draw): (q: Particle)
    ensures ValidDraw(d) ==>
      -10.0 <= q.x < 10.0 && 0.0 <= q.y < 8.0 && -7.5 <= q.z < 7.5 &&
      0.5 <= q.speed < 1.0 && 0.0 <= q.originalY < 8.0
  {
    Particle((d.u1 - 0.5) * 20.0, d.u2 * 8.0, (d.u3 - 0.5) * 15.0, 0.5 + d.u4 * 0.5, d.u5 * Pi * 2.0, d.u6 * 8.0)
  }

  /** `Array.from({ length: particleCount }, ...)`: exactly `count` records,
      the i-th drawn from the i-th draw, all inside the particle box. */
  function Particles(count: nat, draws: seq<Draw>): (ps: seq<Particle>)
    requires |draws| == count
    ensures |ps| == count
    ensures forall i :: 0 <= i < count ==> ps[i] == MakeParticle(draws[i])
    ensures (forall i :: 0 <= i < count ==> ValidDraw(draws[i])) ==>
      forall i :: 0 <= i < count ==> -10.0 <= ps[i].x < 10.0 && 0.5 <= ps[i].speed < 1.0
  {
    seq(count, i requires 0 <= i < count => MakeParticle(draws[i]))
  }

  /** The golden ring has `Math.floor(particleCount / 3)` points. */
  function RingCount(particleCount: nat): (n: nat)
    ensures 3 * n <= particleCount < 3 * n + 3
  {
    particleCount / 3
  }

  /** The ring is mounted only past 0.7. */
  predicate RingVisible(p: real)
  {
    p > 0.7
  }

  /** The ring never appears over an invisible cloud: from 0.7 the cloud is
      more than a third revealed, and it stays visible until the very end. */
  lemma RingOverVisibleCloud(p: real)
    requires RingVisible(p) && p < 1.0
    ensures Reveal(p) > 0.3
    ensures Opacity(p) > 0.0
  {
    var r := Reveal(p);
    var keep := 1.0 - FadeOut(p);
    if p <= 0.9 {
      assert r == (p - 0.6) / 0.3;
      assert (p - 0.6) / 0.3 > 0.1 / 0.3;
    }
    assert 0.0 < keep;
    MulMonotone(0.3, r, keep);
    assert r * keep > 0.0;
  }

  /** The two uniforms the frame loop writes on a particle's material. */
  datatype Uniforms = Uniforms(time: real, opacity: real)

  /** The particle cloud: one uniform block per point, in child order. */
  class ParticleCloud {
    const uniforms: array<Uniforms>

    constructor (count: nat)
      ensures uniforms.Length == count && fresh(uniforms)
      ensures forall i :: 0 <= i < count ==> uniforms[i] == Uniforms(0.0, 1.0)
    {
      uniforms := new Uniforms[count](_ => Uniforms(0.0, 1.0));
    }

    /** One frame: nothing while the group is unmounted; otherwise the loop
        over the children gives every point the clock and the opacity of the
        current progress. */
    method Frame(mounted: bool, p: real, time: real)
      modifies uniforms
      ensures !mounted ==> uniforms[..] == old(uniforms[..])
      ensures mounted ==> forall i :: 0 <= i < uniforms.Length ==> uniforms[i] == Uniforms(time, Opacity(p))
    {
      if !mounted {
        return;
      }
      var revealProgress := Max(0.0, Min(1.0, (p - 0.6) / 0.3));
      var fadeOutProgress := if p > 0.95 then (p - 0.95) / 0.05 else 0.0;
      var index := 0;
      while index < uniforms.Length
        invariant 0 <= index <= uniforms.Length
        invariant forall i :: 0 <= i < index ==> uniforms[i] == Uniforms(time, Opacity(p))
      {
        uniforms[index] := Uniforms(time, revealProgress * (1.0 - fadeOutProgress) * 0.8);
        index := index + 1;
      }
    }
  }
}
