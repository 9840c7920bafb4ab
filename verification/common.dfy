/** An optional value: a JavaScript value that may be `undefined` or `null`. */
module Wrappers {
  datatype Option<+T> = None | Some(value: T)
}

/** The arithmetic the animation code borrows from `Math` and from
    `THREE.MathUtils`, over mathematical reals. */
module Numerics {

  /** `THREE.MathUtils.lerp(a, b, t)`, which three.js computes as (1 - t) * a + t * b. */
  function Lerp(a: real, b: real, t: real): real
  {
    (1.0 - t) * a + t * b
  }

  function Min(a: real, b: real): (r: real)
    ensures r <= a && r <= b
    ensures r == a || r == b
  {
    if a <= b then a else b
  }

  function Max(a: real, b: real): (r: real)
    ensures a <= r && b <= r
    ensures r == a || r == b
  {
    if a <= b then b else a
  }

  function Abs(x: real): (r: real)
    ensures 0.0 <= r
    ensures r == x || r == -x
  {
    if x < 0.0 then -x else x
  }

  /** `Math.min(Math.max(x, lo), hi)`. */
  function Clamp(x: real, lo: real, hi: real): (r: real)
    requires lo <= hi
    ensures lo <= r <= hi
    ensures lo <= x <= hi ==> r == x
    ensures x < lo ==> r == lo
    ensures hi < x ==> r == hi
  {
    Min(Max(x, lo), hi)
  }

  /** A lerp with a parameter in [0, 1] stays between its two ends. */
  lemma LerpBetween(a: real, b: real, t: real)
    requires 0.0 <= t <= 1.0
    ensures Min(a, b) <= Lerp(a, b, t) <= Max(a, b)
  {
    var d := b - a;
    assert Lerp(a, b, t) == a + t * d;
    if a <= b {
      MulMonotone(t, 1.0, d);
      MulMonotone(0.0, t, d);
    } else {
      MulMonotone(t, 1.0, -d);
      MulMonotone(0.0, t, -d);
      assert t * d == -(t * -d);
    }
  }

  /** Multiplying both sides of an inequality by a non-negative factor. */
  lemma MulMonotone(x: real, y: real, c: real)
    requires x <= y && 0.0 <= c
    ensures x * c <= y * c
  {
    assert y * c - x * c == (y - x) * c;
    assert 0.0 <= (y - x) * c;
  }

  /** Squares and cubes of non-negative numbers grow with them. */
  lemma PowersMonotone(x: real, y: real)
    requires 0.0 <= x <= y
    ensures 0.0 <= x * x <= y * y
    ensures 0.0 <= x * x * x <= y * y * y
  {
    MulMonotone(0.0, x, x);
    MulMonotone(x, y, x);
    MulMonotone(x, y, y);
    MulMonotone(0.0, x * x, x);
    MulMonotone(x * x, y * y, x);
    MulMonotone(x, y, y * y);
    assert x * (y * y) == y * y * x;
  }

  /** Powers of a number in [0, 1] stay in [0, 1]. */
  lemma PowersOfUnit(x: real)
    requires 0.0 <= x <= 1.0
    ensures 0.0 <= x * x <= 1.0
    ensures 0.0 <= x * x * x <= 1.0
  {
    PowersMonotone(x, 1.0);
  }

  /** x raised to the n-th power; a power of a number in [0, 1] stays in [0, 1]. */
  function Power(x: real, n: nat): (r: real)
    ensures 0.0 <= x <= 1.0 ==> 0.0 <= r <= 1.0
  {
    if n == 0 then 1.0
    else
      var rest := Power(x, n - 1);
      if 0.0 <= x <= 1.0 then (MulMonotone(0.0, x, rest); MulMonotone(x, 1.0, rest); assert x * rest <= rest <= 1.0; x * rest)
      else x * rest
  }

  /** Dividing by a positive number keeps the sign, and a quotient of at
      least 1 means the numerator is at least the divisor. */
  lemma DivideByPositive(x: real, d: real)
    requires 0.0 < d
    ensures x <= 0.0 ==> x / d <= 0.0
    ensures x >= d ==> x / d >= 1.0
  {
    var q := x / d;
    assert q * d == x;
    if x <= 0.0 && q > 0.0 {
      MulMonotone(0.0, q, d);
      assert false;
    }
    if x >= d && q < 1.0 {
      MulMonotone(q, 1.0, d);
      assert false;
    }
  }

  /** A lerp towards a larger end grows with its parameter. */
  lemma LerpMonotone(a: real, b: real, t1: real, t2: real)
    requires a <= b && t1 <= t2
    ensures Lerp(a, b, t1) <= Lerp(a, b, t2)
  {
    assert Lerp(a, b, t2) - Lerp(a, b, t1) == (t2 - t1) * (b - a);
    assert 0.0 <= (t2 - t1) * (b - a);
  }
}

/** The three quality tiers shared by every component ('high' | 'medium' | 'low'). */
module Quality {

  datatype Tier = High | Medium | Low

  /** The tiers ordered by fidelity: low 0, medium 1, high 2. */
  function Rank(t: Tier): (r: nat)
    ensures r <= 2
    ensures (r == 0) == (t == Low) && (r == 2) == (t == High)
  {
    match t
    case Low => 0
    case Medium => 1
    case High => 2
  }
}

/** The materials a `traverse` over a three.js group visits, reduced to what
    the reveal code reads and writes: the material class, the `transparent`
    flag and the `opacity`. */
module Materials {

  datatype MaterialKind = Lambert | Standard | Basic | Shader

  datatype Material = Material(kind: MaterialKind, transparent: bool, opacity: real)

  /** The materials after `child.material.transparent = true; child.material.opacity = o`
      has been applied to every material of class `kind` and to no other. */
  function Faded(ms: seq<Material>, kind: MaterialKind, o: real): (r: seq<Material>)
    ensures |r| == |ms|
  {
    seq(|ms|, i requires 0 <= i < |ms| =>
      if ms[i].kind == kind then ms[i].(transparent := true, opacity := o) else ms[i])
  }

  /** Every material of the chosen class ends transparent with opacity `o`;
      every other material, and the class of each, is left as it was. */
  lemma FadedEffect(ms: seq<Material>, kind: MaterialKind, o: real, i: nat)
    requires i < |ms|
    ensures Faded(ms, kind, o)[i].kind == ms[i].kind
    ensures ms[i].kind == kind ==> Faded(ms, kind, o)[i].transparent && Faded(ms, kind, o)[i].opacity == o
    ensures ms[i].kind != kind ==> Faded(ms, kind, o)[i] == ms[i]
  {
  }

  /** The `traverse` loop: visits the materials in order and fades those of
      class `kind`, in place. */
  method FadeInPlace(ms: array<Material>, kind: MaterialKind, o: real)
    modifies ms
    ensures ms[..] == Faded(old(ms[..]), kind, o)
  {
    var i := 0;
    while i < ms.Length
      invariant 0 <= i <= ms.Length
      invariant forall k :: 0 <= k < i ==> ms[k] == Faded(old(ms[..]), kind, o)[k]
      invariant forall k :: i <= k < ms.Length ==> ms[k] == old(ms[k])
    {
      if ms[i].kind == kind {
        ms[i] := ms[i].(transparent := true, opacity := o);
      }
      i := i + 1;
    }
  }
}
