/** The numeric half of a learned policy: gate thresholds and strategy weights, and the clamps that
    every candidate passes through (swarm/learning/policy.py). */
module Params {
  import opened Basics

  const T_MIN := 0.6
  const T_MAX := 0.9
  const W_MIN := 0.2
  const W_MAX := 0.8

  datatype Thresholds = Thresholds(confidence: real, stability: real, trust: real)
  datatype Weights = Weights(price: real, score: real, carbon: real)

  function ClampThresholds(t: Thresholds): Thresholds {
    Thresholds(Clip(T_MIN, T_MAX, t.confidence), Clip(T_MIN, T_MAX, t.stability), Clip(T_MIN, T_MAX, t.trust))
  }

  function Total(w: Weights): real { w.price + w.score + w.carbon }

  function ClipWeights(w: Weights): (c: Weights)
    ensures Total(c) >= 0.6
  {
    Weights(Clip(W_MIN, W_MAX, w.price), Clip(W_MIN, W_MAX, w.score), Clip(W_MIN, W_MAX, w.carbon))
  }

  function Share(a: real, total: real): real
    requires total > 0.0
  {
    a / total
  }

  /** Clip each weight, then divide by the total; the total is never zero with this band. */
  function ClampWeights(w: Weights): Weights {
    var c := ClipWeights(w);
    var total := Total(c);
    Weights(Share(c.price, total), Share(c.score, total), Share(c.carbon, total))
  }

  predicate InBand(t: Thresholds) {
    T_MIN <= t.confidence <= T_MAX && T_MIN <= t.stability <= T_MAX && T_MIN <= t.trust <= T_MAX
  }

  predicate SafeWeights(w: Weights) {
    W_MIN <= w.price <= W_MAX && W_MIN <= w.score <= W_MAX && W_MIN <= w.carbon <= W_MAX
  }

  lemma ThresholdClamp(t: Thresholds)
    ensures InBand(ClampThresholds(t))
    ensures ClampThresholds(t) == t <==> InBand(t)
  {
  }

  function Product(x: real, y: real): real { x * y }

  lemma ProductLaws(x: real, y: real)
    requires x > 0.0
    ensures y > 1.0 ==> Product(x, y) > x
    ensures y < 1.0 ==> Product(x, y) < x
    ensures y == 1.0 ==> Product(x, y) == x
  {
    assert x * y - x == x * (y - 1.0);
  }

  lemma ShareLaws(a: real, total: real)
    requires total > 0.0
    ensures Product(Share(a, total), total) == a
    ensures a > 0.0 ==> Share(a, total) > 0.0
    ensures total == 1.0 ==> Share(a, total) == a
  {
  }

  lemma SharesOrdered(a: real, b: real, total: real)
    requires total > 0.0
    ensures a <= b ==> Share(a, total) <= Share(b, total)
    ensures a < b ==> Share(a, total) < Share(b, total)
  {
    assert Share(b, total) - Share(a, total) == (b - a) / total;
  }

  lemma ShareOf(k: real, total: real)
    requires total > 0.0
    ensures Share(k * total, total) == k
  {
  }

  lemma ShareBounds(a: real, total: real)
    requires 0.2 <= a <= 0.8 && a + 0.4 <= total <= a + 1.6
    ensures 1.0 / 9.0 <= Share(a, total) <= 2.0 / 3.0
  {
    ShareOf(2.0 / 3.0, total);
    ShareOf(1.0 / 9.0, total);
    SharesOrdered(a, 2.0 / 3.0 * total, total);
    SharesOrdered(1.0 / 9.0 * total, a, total);
  }

  lemma SharesSum(a: real, b: real, c: real)
    requires a + b + c > 0.0
    ensures Share(a, a + b + c) + Share(b, a + b + c) + Share(c, a + b + c) == 1.0
  {
    var total := a + b + c;
    assert a / total + b / total + c / total == (a + b + c) / total;
  }

  /** Clamped weights sum to one, each between 1/9 and 2/3, in the order of the originals. */
  lemma WeightClamp(w: Weights)
    ensures var r := ClampWeights(w);
            && Total(r) == 1.0
            && 1.0 / 9.0 <= r.price <= 2.0 / 3.0
            && 1.0 / 9.0 <= r.score <= 2.0 / 3.0
            && 1.0 / 9.0 <= r.carbon <= 2.0 / 3.0
            && (w.price <= w.score ==> r.price <= r.score) && (w.score <= w.price ==> r.score <= r.price)
            && (w.price <= w.carbon ==> r.price <= r.carbon) && (w.carbon <= w.price ==> r.carbon <= r.price)
            && (w.score <= w.carbon ==> r.score <= r.carbon) && (w.carbon <= w.score ==> r.carbon <= r.score)
  {
    hide Share;
    var c := ClipWeights(w);
    var total := Total(c);
    ShareBounds(c.price, total);
    ShareBounds(c.score, total);
    ShareBounds(c.carbon, total);
    SharesSum(c.price, c.score, c.carbon);
    SharesOrdered(c.price, c.score, total);
    SharesOrdered(c.score, c.price, total);
    SharesOrdered(c.price, c.carbon, total);
    SharesOrdered(c.carbon, c.price, total);
    SharesOrdered(c.score, c.carbon, total);
    SharesOrdered(c.carbon, c.score, total);
  }

  // A weight that its own share leaves in place is below the band if the total is over one, above it if under.
  lemma {:induction false} FixedShare(x: real, total: real)
    requires total >= 0.6 && Share(Clip(W_MIN, W_MAX, x), total) == x
    ensures total > 1.0 ==> x < W_MIN
    ensures total < 1.0 ==> x > W_MAX
    ensures total == 1.0 ==> W_MIN <= x <= W_MAX
  {
    hide Share, Product;
    ShareLaws(Clip(W_MIN, W_MAX, x), total);
    ProductLaws(x, total);
  }

  /** The weights the clamp leaves alone are exactly those in the safe band that sum to one. */
  lemma {:induction false} WeightFixedPoints(w: Weights)
    ensures ClampWeights(w) == w <==> SafeWeights(w) && Total(w) == 1.0
  {
    hide Share;
    var c := ClipWeights(w);
    var total := Total(c);
    if ClampWeights(w) == w {
      WeightClamp(w);
      FixedShare(w.price, total);
      FixedShare(w.score, total);
      FixedShare(w.carbon, total);
    } else if SafeWeights(w) {
      ShareLaws(w.price, total);
      ShareLaws(w.score, total);
      ShareLaws(w.carbon, total);
    }
  }

  /** Clamping twice is clamping once exactly when no clipped weight is under a fifth of the clipped total. */
  lemma {:induction false} WeightClampIdempotentIff(w: Weights)
    ensures ClampWeights(ClampWeights(w)) == ClampWeights(w)
            <==> (var c := ClipWeights(w);
                  5.0 * c.price >= Total(c) && 5.0 * c.score >= Total(c) && 5.0 * c.carbon >= Total(c))
  {
    hide Share;
    var c := ClipWeights(w);
    WeightClamp(w);
    WeightFixedPoints(ClampWeights(w));
    FifthOf(c.price, Total(c));
    FifthOf(c.score, Total(c));
    FifthOf(c.carbon, Total(c));
  }

  lemma FifthOf(a: real, total: real)
    requires total > 0.0
    ensures Share(a, total) >= 0.2 <==> 5.0 * a >= total
  {
    hide Share;
    ShareOf(0.2, total);
    SharesOrdered(0.2 * total, a, total);
    SharesOrdered(a, 0.2 * total, total);
  }

  /** One pair of large weights is enough: the third falls out of the band and moves at the next clamp. */
  lemma ClampingTwiceDiffers()
    ensures var w := Weights(0.8, 0.8, 0.2);
            ClampWeights(ClampWeights(w)) != ClampWeights(w) && !SafeWeights(ClampWeights(w))
  {
    var w := Weights(0.8, 0.8, 0.2);
    WeightClampIdempotentIff(w);
    assert ClampWeights(w).carbon == Share(0.2, 1.8);
    FifthOf(0.2, 1.8);
  }
}
