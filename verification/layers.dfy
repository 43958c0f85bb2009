/**
  The structure every planet shader shares: a base colour and a fixed
  sequence of layers, each blended over the running colour when its factor
  passes the layer's gate, plus the three factor shapes the layers use.
 */
module Layers {
  import opened Numeric
  import opened Colors

  /** A layer blends `color` over the running colour with weight `factor`, but only when `factor > gate`. */
  datatype Layer = Layer(factor: real, color: Color, gate: real)

  predicate Active(l: Layer) {
    l.factor > l.gate
  }

  /** One `if factor > gate { blend } else { keep }` step of a shader. */
  function Apply(base: Color, l: Layer): (c: Color)
    ensures !Active(l) ==> c == base
    ensures Active(l) && 0.0 <= l.factor <= 1.0 ==> Between(c, base, l.color)
  {
    if Active(l) then Mix(base, l.color, l.factor) else base
  }

  /** The layers applied in order, first to last. */
  function Composite(base: Color, layers: seq<Layer>): Color
    decreases |layers|
  {
    if |layers| == 0 then base else Composite(Apply(base, layers[0]), layers[1..])
  }

  /** Every channel of c lies in the channel box spanned by lo and hi. */
  predicate InBox(c: Color, lo: Color, hi: Color) {
    && lo.r <= c.r <= hi.r
    && lo.g <= c.g <= hi.g
    && lo.b <= c.b <= hi.b
  }

  /** An active layer blends with a factor in [0, 1]. */
  predicate Bounded(l: Layer) {
    Active(l) ==> 0.0 <= l.factor <= 1.0
  }

  lemma BetweenInBox(c: Color, a: Color, b: Color, lo: Color, hi: Color)
    requires Between(c, a, b) && InBox(a, lo, hi) && InBox(b, lo, hi)
    ensures InBox(c, lo, hi)
  {
  }

  /**
    Blending only ever moves a channel between two colours of the palette,
    so a shader's unlit colour stays inside the box spanned by its base
    colour and its layer colours.
   */
  lemma {:induction false} CompositeInBox(base: Color, layers: seq<Layer>, lo: Color, hi: Color)
    requires InBox(base, lo, hi)
    requires forall i :: 0 <= i < |layers| ==> Bounded(layers[i]) && InBox(layers[i].color, lo, hi)
    ensures InBox(Composite(base, layers), lo, hi)
    decreases |layers|
  {
    if |layers| > 0 {
      var next := Apply(base, layers[0]);
      if Active(layers[0]) {
        BetweenInBox(next, base, layers[0].color, lo, hi);
      }
      CompositeInBox(next, layers[1..], lo, hi);
    }
  }

  /** Applying two runs of layers one after the other is applying their concatenation. */
  lemma {:induction false} CompositeAppend(base: Color, xs: seq<Layer>, ys: seq<Layer>)
    ensures Composite(base, xs + ys) == Composite(Composite(base, xs), ys)
    decreases |xs|
  {
    if |xs| == 0 {
      assert xs + ys == ys;
    } else {
      assert (xs + ys)[1..] == xs[1..] + ys;
      CompositeAppend(Apply(base, xs[0]), xs[1..], ys);
    }
  }

  /** Layers whose factors all stay at or below their gates leave the base colour untouched. */
  lemma {:induction false} CompositeInactive(base: Color, layers: seq<Layer>)
    requires forall i :: 0 <= i < |layers| ==> !Active(layers[i])
    ensures Composite(base, layers) == base
    decreases |layers|
  {
    if |layers| > 0 {
      CompositeInactive(base, layers[1..]);
    }
  }

  /**
    The linear ramp `if n > lo { ((n - lo) / width) * weight } else { 0 }`:
    positive exactly above the threshold, and at most `weight` while n
    stays within `width` of it.
   */
  function Ramp(n: real, lo: real, width: real, weight: real): (f: real)
    requires 0.0 < width && 0.0 < weight
    ensures 0.0 <= f
    ensures 0.0 < f <==> lo < n
    ensures n <= lo + width ==> f <= weight
  {
    if n > lo then
      assert 0.0 < (n - lo) / width;
      MulPos((n - lo) / width, weight);
      if n <= lo + width then
        MulAtMost(weight, (n - lo) / width);
        ((n - lo) / width) * weight
      else
        ((n - lo) / width) * weight
    else
      0.0
  }

  /** The ramp with its slope clamped to [0, 1] first, as the ice and cloud layers write it. */
  function ClampedRamp(n: real, lo: real, width: real, weight: real): (f: real)
    requires 0.0 < width && 0.0 < weight
    ensures 0.0 <= f <= weight
    ensures 0.0 < f <==> lo < n
  {
    if n > lo then
      var s := Clamp((n - lo) / width, 0.0, 1.0);
      assert 0.0 < s;
      MulPos(s, weight);
      MulAtMost(weight, s);
      s * weight
    else
      0.0
  }

  /**
    The radial falloff `if d < radius { (1 - d / radius) * weight } else { 0 }`
    of the spots and maria: positive exactly inside the radius, at most
    `weight` for a non-negative distance.
   */
  function Radial(d: real, radius: real, weight: real): (f: real)
    requires 0.0 < radius && 0.0 < weight
    ensures 0.0 <= f
    ensures 0.0 < f <==> d < radius
    ensures 0.0 <= d ==> f <= weight
  {
    if d < radius then
      var s := 1.0 - d / radius;
      DivBelowOne(d, radius);
      MulPos(s, weight);
      if 0.0 <= d then
        MulAtMost(weight, s);
        s * weight
      else
        s * weight
    else
      0.0
  }

  /**
    Two ramps multiplied, `((n1 - lo1) / w1) * ((n2 - lo2) / w2) * weight`
    when both noises pass their thresholds: the crater and volcanic layers.
   */
  function Joint(n1: real, lo1: real, w1: real, n2: real, lo2: real, w2: real, weight: real): (f: real)
    requires 0.0 < w1 && 0.0 < w2 && 0.0 < weight
    ensures 0.0 <= f
    ensures 0.0 < f <==> lo1 < n1 && lo2 < n2
    ensures n1 <= lo1 + w1 && n2 <= lo2 + w2 ==> f <= weight
  {
    if n1 > lo1 && n2 > lo2 then
      var s1, s2 := (n1 - lo1) / w1, (n2 - lo2) / w2;
      assert 0.0 < s1 && 0.0 < s2;
      MulPos(s1, s2);
      MulPos(s1 * s2, weight);
      if n1 <= lo1 + w1 && n2 <= lo2 + w2 then
        MulAtMost(s1, s2);
        MulAtMost(weight, s1 * s2);
        s1 * s2 * weight
      else
        s1 * s2 * weight
    else
      0.0
  }
}
