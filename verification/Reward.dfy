/** The reward a negotiation earns its strategy (mesh/neuro/bandits.py). */
module Reward {
  import opened Basics

  datatype Terms = Cod | Net30 | Net60 | LetterOfCredit | OtherTerms

  datatype Deal = Deal(price: real, quantity: int, terms: Terms, rounds: int, composite: real)

  function Ceiling(budget: real): real { if budget > 1.0 then budget else 1.0 }

  function Cost(d: Deal): real { d.price * d.quantity as real }

  function Share(d: Deal, budget: real): real { Cost(d) / Ceiling(budget) }

  function CostReward(share: real): real { Clip(0.0, 1.0, 1.0 - share) }

  function TermsScore(t: Terms): real {
    match t case Cod => 1.0 case Net30 => 0.7 case Net60 => 0.4 case LetterOfCredit => 0.3 case OtherTerms => 0.5
  }

  function SpeedReward(rounds: int): real {
    var s := 1.0 - (rounds - 1) as real * 0.15;
    if s < 0.0 then 0.0 else s
  }

  function Weighted(d: Deal, budget: real): real {
    0.4 * CostReward(Share(d, budget)) + 0.2 * TermsScore(d.terms) + 0.2 * SpeedReward(d.rounds) + 0.2 * d.composite
  }

  function ComputeReward(d: Deal, budget: real): real { Clip(0.0, 1.0, Weighted(d, budget)) }

  /** For at least one round and a composite score in the unit interval the final clip changes nothing, and the reward
      keeps clear of zero: no deal earns less than 0.06. */
  lemma {:induction false} ClipIsIdle(d: Deal, budget: real)
    requires d.rounds >= 1 && 0.0 <= d.composite <= 1.0
    ensures ComputeReward(d, budget) == Weighted(d, budget) && 0.06 <= ComputeReward(d, budget) <= 1.0
  {
    hide Share;
    SpeedBounds(d.rounds);
  }

  /** What each part of a deal is worth: free, paid on delivery, settled in one round and with a perfect score it earns
      one. Cost takes off four tenths of its share of the budget (of 1, for a smaller budget), up to four tenths; a
      round takes off 0.03, the seventh extra one 0.02 and any further none; the score counts a fifth; and the payment
      terms are worth 0.20, 0.14, 0.08, 0.06 in order, unknown ones 0.10. */
  lemma {:induction false} PartsEarn(d: Deal, budget: real, terms: Terms, composite: real)
    requires d.rounds >= 1 && 0.0 <= d.composite <= 1.0 && 0.0 <= composite <= 1.0
    ensures ComputeReward(Deal(0.0, d.quantity, Cod, 1, 1.0), budget) == 1.0
    ensures var free, limit := d.(price := 0.0), if budget > 1.0 then budget else 1.0;
            && (0.0 <= d.price * d.quantity as real <= limit ==>
                  (ComputeReward(free, budget) - ComputeReward(d, budget)) * limit
                  == 0.4 * (d.price * d.quantity as real))
            && (d.price * d.quantity as real >= limit ==>
                  ComputeReward(free, budget) - ComputeReward(d, budget) == 0.4)
    ensures ComputeReward(d, budget) - ComputeReward(d.(rounds := d.rounds + 1), budget)
         == if d.rounds < 7 then 0.03 else if d.rounds == 7 then 0.02 else 0.0
    ensures ComputeReward(d, budget) - ComputeReward(d.(composite := composite), budget)
         == 0.2 * (d.composite - composite)
    ensures ComputeReward(d.(terms := terms), budget) - ComputeReward(d.(terms := LetterOfCredit), budget)
         == match terms case Cod => 0.14 case Net30 => 0.08 case Net60 => 0.02 case LetterOfCredit => 0.0
                        case OtherTerms => 0.04
  {
    hide ComputeReward, Weighted;
    var best := Deal(0.0, d.quantity, Cod, 1, 1.0);
    CostPart(d, budget);
    CostPart(best, budget);
    BestDeal(d.quantity, budget);
    ClipIsIdle(best, budget);
    ClipIsIdle(d, budget);
    ClipIsIdle(d.(price := 0.0), budget);
    ClipIsIdle(d.(rounds := d.rounds + 1), budget);
    ClipIsIdle(d.(composite := composite), budget);
    ClipIsIdle(d.(terms := terms), budget);
    ClipIsIdle(d.(terms := LetterOfCredit), budget);
    OtherParts(d, budget, terms, composite);
  }

  lemma OtherParts(d: Deal, budget: real, terms: Terms, composite: real)
    requires d.rounds >= 1
    ensures Weighted(d, budget) - Weighted(d.(rounds := d.rounds + 1), budget)
         == if d.rounds < 7 then 0.03 else if d.rounds == 7 then 0.02 else 0.0
    ensures Weighted(d, budget) - Weighted(d.(composite := composite), budget) == 0.2 * (d.composite - composite)
    ensures Weighted(d.(terms := terms), budget) - Weighted(d.(terms := LetterOfCredit), budget)
         == match terms case Cod => 0.14 case Net30 => 0.08 case Net60 => 0.02 case LetterOfCredit => 0.0
                        case OtherTerms => 0.04
  {
    SameCost(d, d.(rounds := d.rounds + 1), budget);
    SameCost(d, d.(composite := composite), budget);
    SameCost(d, d.(terms := terms), budget);
    SameCost(d, d.(terms := LetterOfCredit), budget);
    hide CostReward, Share;
  }

  lemma SameCost(d: Deal, e: Deal, budget: real)
    requires e.price == d.price && e.quantity == d.quantity
    ensures Share(e, budget) == Share(d, budget)
  {
  }

  lemma BestDeal(quantity: int, budget: real)
    ensures Weighted(Deal(0.0, quantity, Cod, 1, 1.0), budget) == 1.0
  {
    var best := Deal(0.0, quantity, Cod, 1, 1.0);
    assert Cost(best) == 0.0 && Share(best, budget) == 0.0;
  }

  lemma CostPart(d: Deal, budget: real)
    ensures var limit, cost := if budget > 1.0 then budget else 1.0, d.price * d.quantity as real;
            var loss := Weighted(d.(price := 0.0), budget) - Weighted(d, budget);
            && (0.0 <= cost <= limit ==> loss * limit == 0.4 * cost) && (cost >= limit ==> loss == 0.4)
  {
    var limit, cost := if budget > 1.0 then budget else 1.0, d.price * d.quantity as real;
    var free := d.(price := 0.0);
    assert Cost(free) == 0.0 && Share(free, budget) == 0.0;
    var q := cost / limit;
    assert Share(d, budget) == q;
    ShareOfLimit(cost, limit);
    hide Share;
    var loss := 0.4 * (1.0 - CostReward(q));
    assert Weighted(free, budget) - Weighted(d, budget) == loss;
    if 0.0 <= cost <= limit {
      assert loss == 0.4 * q;
    }
  }

  lemma ShareOfLimit(cost: real, limit: real)
    requires limit > 0.0
    ensures cost / limit * limit == cost
    ensures 0.0 <= cost <= limit ==> 0.0 <= cost / limit <= 1.0
    ensures cost >= limit ==> cost / limit >= 1.0
  {
    Divided(limit, limit, limit);
    if 0.0 <= cost <= limit {
      Divided(cost, limit, limit);
    } else if cost >= limit {
      Divided(limit, cost, limit);
    }
  }

  /** Whatever the deal, the reward is in the unit interval. */
  lemma RewardInUnit(d: Deal, budget: real)
    ensures 0.0 <= ComputeReward(d, budget) <= 1.0
    ensures d.composite >= 5.0 && d.rounds >= 1 ==> ComputeReward(d, budget) == 1.0
  {
    hide CostReward, Share;
    CostRewardInUnit(Share(d, budget));
    if d.rounds >= 1 { SpeedBounds(d.rounds); }
  }

  lemma CostRewardInUnit(share: real)
    ensures 0.0 <= CostReward(share) <= 1.0
  {
  }

  lemma SpeedBounds(rounds: int)
    requires rounds >= 1
    ensures 0.0 <= SpeedReward(rounds) <= 1.0
    ensures SpeedReward(rounds) == 0.0 <==> rounds >= 8
  {
  }

  /** A cheaper or quicker deal on otherwise equal terms never earns less; a cheaper one earns strictly more while it is
      not free and the dearer one stays under the budget (or under 1, for a smaller budget). */
  lemma {:induction false} CheaperAndQuickerPays(d: Deal, e: Deal, budget: real)
    requires d.terms == e.terms && d.composite == e.composite && d.quantity == e.quantity > 0
    requires e.rounds >= 1 && d.rounds <= e.rounds && d.rounds >= 1 && 0.0 <= d.composite <= 1.0
    requires d.price <= e.price
    ensures ComputeReward(d, budget) >= ComputeReward(e, budget)
    ensures 0.0 <= d.price < e.price && Cost(e) <= Ceiling(budget) ==>
              ComputeReward(d, budget) > ComputeReward(e, budget)
  {
    hide Share, ComputeReward, SpeedReward, CostReward;
    CheaperShare(d, e, budget);
    SpeedOrdered(d.rounds, e.rounds);
    ClipIsIdle(d, budget);
    ClipIsIdle(e, budget);
  }

  lemma SpeedOrdered(fewer: int, more: int)
    requires fewer <= more
    ensures SpeedReward(fewer) >= SpeedReward(more)
  {
  }

  lemma {:induction false} CheaperShare(d: Deal, e: Deal, budget: real)
    requires d.quantity == e.quantity > 0 && d.price <= e.price
    ensures CostReward(Share(d, budget)) >= CostReward(Share(e, budget))
    ensures 0.0 <= d.price < e.price && Cost(e) <= Ceiling(budget) ==>
              CostReward(Share(d, budget)) > CostReward(Share(e, budget))
  {
    CostsOrdered(d, e);
    hide Cost;
    Divided(Cost(d), Cost(e), Ceiling(budget));
    ShareAtMostOne(e, budget);
    ShareNotNegative(d, budget);
    hide Share;
  }

  lemma CostsOrdered(d: Deal, e: Deal)
    requires d.quantity == e.quantity > 0 && d.price <= e.price
    ensures Cost(d) <= Cost(e) && (d.price < e.price ==> Cost(d) < Cost(e))
    ensures 0.0 <= d.price ==> 0.0 <= Cost(d)
  {
    Ordered(d.price, e.price, d.quantity as real);
  }

  lemma Ordered(p: real, q: real, k: real)
    requires p <= q && k > 0.0
    ensures p * k <= q * k && (p < q ==> p * k < q * k)
  {
  }

  lemma Divided(a: real, b: real, c: real)
    requires a <= b && c > 0.0
    ensures a / c <= b / c && (a < b ==> a / c < b / c)
  {
    assert a / c * c == a && b / c * c == b;
  }

  lemma ShareAtMostOne(e: Deal, budget: real)
    ensures Cost(e) <= Ceiling(budget) ==> Share(e, budget) <= 1.0
  {
    hide Cost;
    var c := Ceiling(budget);
    assert c / c == 1.0;
    if Cost(e) <= c {
      Divided(Cost(e), c, c);
    }
  }

  lemma ShareNotNegative(d: Deal, budget: real)
    ensures Cost(d) >= 0.0 ==> Share(d, budget) >= 0.0
  {
    hide Cost;
  }
}
