/** The sealed-bid auction and the award after bartering (core/protocol/auction_orchestrator.py), with
    the compliance rules (core/protocol/policy_engine.py) and the scoring (core/evaluator/scoring.py). */
module Auction {
  import opened Basics
  import opened StableSort
  import B = Barter

  // ---- the auction's own state machine

  datatype AuctionState =
    | Init | RfqBroadcast | BidCollection | Evaluation | ShortlistBarter | Awarded | Terminated

  predicate CanMove(a: AuctionState, b: AuctionState) {
    match a
    case Init => b.RfqBroadcast?
    case RfqBroadcast => b.BidCollection?
    case BidCollection => b.Evaluation? || b.Terminated?
    case Evaluation => b.ShortlistBarter? || b.Awarded? || b.Terminated?
    case ShortlistBarter => b.Awarded? || b.Terminated?
    case Awarded => false
    case Terminated => false
  }

  /** The state after a list of requested moves, refused ones ignored, and how many were made. */
  function Moves(a: AuctionState, requests: seq<AuctionState>): (AuctionState, nat)
    decreases |requests|
  {
    if requests == [] then (a, 0)
    else if CanMove(a, requests[0]) then
      var (b, n) := Moves(requests[0], requests[1..]);
      (b, n + 1)
    else Moves(a, requests[1..])
  }

  function Stage(a: AuctionState): nat {
    match a
    case Init => 0
    case RfqBroadcast => 1
    case BidCollection => 2
    case Evaluation => 3
    case ShortlistBarter => 4
    case Awarded => 5
    case Terminated => 5
  }

  /** Whatever moves are asked for, an auction only goes forward: at most five moves in all, and a
      finished auction stays as it is. */
  lemma {:induction false} AuctionsOnlyAdvance(a: AuctionState, requests: seq<AuctionState>)
    ensures var (b, n) := Moves(a, requests);
            && Stage(a) + n <= Stage(b) <= 5
            && (a.Awarded? || a.Terminated? ==> b == a && n == 0)
    decreases |requests|
  {
    if requests != [] {
      AuctionsOnlyAdvance(if CanMove(a, requests[0]) then requests[0] else a, requests[1..]);
    }
  }

  /** All five can be made, to either end, and what is refused on the way does not count. */
  lemma FiveMovesAtMostAreMade(last: AuctionState)
    requires last.Awarded? || last.Terminated?
    ensures Moves(Init, [RfqBroadcast, BidCollection, Evaluation, ShortlistBarter, last]) == (last, 5)
    ensures Moves(Init, [Evaluation, RfqBroadcast, Awarded, BidCollection, Init]) == (BidCollection, 2)
  {
    FirstMove(Init, RfqBroadcast, [BidCollection, Evaluation, ShortlistBarter, last]);
    FirstMove(RfqBroadcast, BidCollection, [Evaluation, ShortlistBarter, last]);
    FirstMove(BidCollection, Evaluation, [ShortlistBarter, last]);
    FirstMove(Evaluation, ShortlistBarter, [last]);
    FirstMove(ShortlistBarter, last, []);
    FirstMove(Init, Evaluation, [RfqBroadcast, Awarded, BidCollection, Init]);
    FirstMove(Init, RfqBroadcast, [Awarded, BidCollection, Init]);
    FirstMove(RfqBroadcast, Awarded, [BidCollection, Init]);
    FirstMove(RfqBroadcast, BidCollection, [Init]);
    FirstMove(BidCollection, Init, []);
  }

  lemma FirstMove(a: AuctionState, b: AuctionState, rest: seq<AuctionState>)
    ensures Moves(a, []) == (a, 0)
    ensures CanMove(a, b) ==> Moves(a, [b] + rest) == (Moves(b, rest).0, Moves(b, rest).1 + 1)
    ensures !CanMove(a, b) ==> Moves(a, [b] + rest) == Moves(a, rest)
  {
    hide CanMove;
    assert ([b] + rest)[0] == b && ([b] + rest)[1..] == rest;
  }

  class GlobalAuctionFSM {
    var state: AuctionState
    var turnCount: nat

    constructor ()
      ensures state == Init && turnCount == 0
    {
      state, turnCount := Init, 0;
    }

    method Transition(next: AuctionState) returns (moved: bool)
      modifies this
      ensures moved == CanMove(old(state), next)
      ensures state == (if moved then next else old(state))
      ensures turnCount == old(turnCount) + (if moved then 1 else 0)
    {
      if !CanMove(state, next) { return false; }
      state := next;
      turnCount := turnCount + 1;
      return true;
    }
  }

  // ---- bids, compliance and scores

  datatype Bid = Bid(supplierId: string, unitPrice: real, leadTimeDays: int,
                     carbonKg: real, reliability: real, bidBond: real)

  datatype PolicyContext = PolicyContext(maxBudget: real, blacklist: set<string>, maxCarbonKg: real,
                                         maxUnitPrice: real, bondPct: real)

  datatype Verdict = Passed | Blacklisted | ExceedsUnitPrice | ExceedsBudget | EsgViolation | InsufficientBond

  /** The rules in the engine's order; a bid that names no quantity counts as quantity zero. */
  function EvaluateBid(b: Bid, quantity: Option<int>, ctx: PolicyContext): Verdict {
    var total := b.unitPrice * (if quantity.Some? then quantity.value as real else 0.0);
    if b.supplierId in ctx.blacklist then Blacklisted
    else if b.unitPrice > ctx.maxUnitPrice then ExceedsUnitPrice
    else if total > ctx.maxBudget then ExceedsBudget
    else if b.carbonKg > ctx.maxCarbonKg then EsgViolation
    else if b.bidBond < total * ctx.bondPct then InsufficientBond
    else Passed
  }

  class PolicyEngine {
    method Evaluate(b: Bid, quantity: Option<int>, ctx: PolicyContext) returns (v: Verdict)
      ensures v == EvaluateBid(b, quantity, ctx)
    {
      if b.supplierId in ctx.blacklist { return Blacklisted; }
      if b.unitPrice > ctx.maxUnitPrice { return ExceedsUnitPrice; }
      var total := 0.0;
      if quantity.Some? { total := b.unitPrice * quantity.value as real; }
      if total > ctx.maxBudget { return ExceedsBudget; }
      if b.carbonKg > ctx.maxCarbonKg { return EsgViolation; }
      var bond := total * ctx.bondPct;
      if b.bidBond < bond { return InsufficientBond; }
      return Passed;
    }
  }

  predicate Breaks(rule: Verdict, b: Bid, total: real, bond: real, ctx: PolicyContext) {
    match rule
    case Passed => false
    case Blacklisted => b.supplierId in ctx.blacklist
    case ExceedsUnitPrice => b.unitPrice > ctx.maxUnitPrice
    case ExceedsBudget => total > ctx.maxBudget
    case EsgViolation => b.carbonKg > ctx.maxCarbonKg
    case InsufficientBond => b.bidBond < bond
  }

  function Position(rule: Verdict): nat {
    match rule
    case Blacklisted => 1
    case ExceedsUnitPrice => 2
    case ExceedsBudget => 3
    case EsgViolation => 4
    case InsufficientBond => 5
    case Passed => 6
  }

  /** A rejection is for a rule the bid breaks, the first in order of those it breaks; a bid that breaks none passes,
      every limit included. */
  lemma RejectedForFirstBroken(b: Bid, quantity: int, ctx: PolicyContext, rule: Verdict)
    ensures var total := b.unitPrice * quantity as real;
            var bond := total * ctx.bondPct;
            var v := EvaluateBid(b, Some(quantity), ctx);
            && (v.Passed? || Breaks(v, b, total, bond, ctx))
            && (Breaks(rule, b, total, bond, ctx) ==> Position(v) <= Position(rule))
  {
    var total := b.unitPrice * quantity as real;
    var bond := total * ctx.bondPct;
    var v := EvaluateBid(b, Some(quantity), ctx);
    assert v == if b.supplierId in ctx.blacklist then Blacklisted
                else if b.unitPrice > ctx.maxUnitPrice then ExceedsUnitPrice
                else if total > ctx.maxBudget then ExceedsBudget
                else if b.carbonKg > ctx.maxCarbonKg then EsgViolation
                else if b.bidBond < bond then InsufficientBond else Passed;
  }

  /** Sealed bids carry no quantity, so neither the budget nor the bond rule can stop one. */
  lemma SealedBidsEscapeBudget(b: Bid, ctx: PolicyContext)
    requires b.bidBond >= 0.0 && ctx.maxBudget > 0.0
    ensures EvaluateBid(b, None, ctx).Passed?
            <==> b.supplierId !in ctx.blacklist && b.unitPrice <= ctx.maxUnitPrice && b.carbonKg <= ctx.maxCarbonKg
  {
    assert b.unitPrice * 0.0 == 0.0;
    assert 0.0 * ctx.bondPct == 0.0;
  }

  datatype Weights = Weights(price: real, leadTime: real, esg: real, reliability: real)

  datatype Market = Market(spotPrice: real, targetLeadTime: int, esgBaseline: real, quantity: int)

  function ScorePrice(m: Market, b: Bid): real {
    B.Max(0.0, 1.0 - (b.unitPrice / B.Max(m.spotPrice, 0.00001)) / 2.0)
  }

  function ScoreLeadTime(m: Market, b: Bid): real {
    if b.leadTimeDays <= m.targetLeadTime then 1.0
    else
      var target := if m.targetLeadTime >= 1 then m.targetLeadTime else 1;
      B.Max(0.0, 1.0 - (b.leadTimeDays - m.targetLeadTime) as real / target as real)
  }

  function ScoreEsg(m: Market, b: Bid): real {
    var quantity := if m.quantity >= 1 then m.quantity else 1;
    if m.esgBaseline <= 0.0 then 1.0
    else B.Max(0.0, 1.0 - (b.carbonKg / quantity as real) / m.esgBaseline)
  }

  function ScoreReliability(b: Bid): real {
    B.Max(0.0, B.Min(1.0, b.reliability))
  }

  function ScoreBid(rnd: real -> real, w: Weights, m: Market, b: Bid): real {
    rnd(w.price * ScorePrice(m, b) + w.leadTime * ScoreLeadTime(m, b)
        + w.esg * ScoreEsg(m, b) + w.reliability * ScoreReliability(b))
  }

  function Share(part: real, whole: real): real
    requires whole > 0.0
  {
    part / whole
  }

  lemma ShareIs(part: real, whole: real)
    requires whole > 0.0
    ensures Share(part, whole) * whole == part
    ensures Share(part, whole) >= 1.0 <==> part >= whole
    ensures Share(part, whole) == 0.0 <==> part == 0.0
    ensures Share(part, whole) >= 0.0 <==> part >= 0.0
  {
    var q := part / whole;
    assert q * whole == part;
    if q >= 1.0 {
      assert q * whole >= whole;
    } else {
      assert q * whole < whole;
    }
    if q >= 0.0 {
      assert q * whole >= 0.0;
    } else {
      assert q * whole < 0.0;
    }
  }

  /** Where the sub-scores lie between zero and one. Price: falls in a line that reaches zero at twice the spot price,
      and is one half at the spot price itself, not one. Lead time: one up to the target, then in a line down to zero at
      twice the target. Carbon: one for none, in a line down to zero at the baseline per item, and one throughout
      without a baseline. Reliability: itself. */
  lemma SubScorePoints(m: Market, b: Bid)
    requires m.spotPrice >= 0.00001 && m.targetLeadTime >= 1 && m.quantity >= 1
    requires b.carbonKg >= 0.0 && 0.0 <= b.reliability <= 1.0
    ensures ScorePrice(m, b) == 0.0 <==> b.unitPrice >= 2.0 * m.spotPrice
    ensures b.unitPrice <= 2.0 * m.spotPrice ==>
              ScorePrice(m, b) * (2.0 * m.spotPrice) == 2.0 * m.spotPrice - b.unitPrice
    ensures b.unitPrice == m.spotPrice ==> ScorePrice(m, b) == 0.5
    ensures ScoreLeadTime(m, b) == 1.0 <==> b.leadTimeDays <= m.targetLeadTime
    ensures ScoreLeadTime(m, b) == 0.0 <==> b.leadTimeDays >= 2 * m.targetLeadTime
    ensures m.targetLeadTime <= b.leadTimeDays <= 2 * m.targetLeadTime ==>
              ScoreLeadTime(m, b) * m.targetLeadTime as real == (2 * m.targetLeadTime - b.leadTimeDays) as real
    ensures m.esgBaseline <= 0.0 ==> ScoreEsg(m, b) == 1.0
    ensures m.esgBaseline > 0.0 ==>
              && (ScoreEsg(m, b) == 1.0 <==> b.carbonKg == 0.0)
              && (ScoreEsg(m, b) == 0.0 <==> b.carbonKg >= m.esgBaseline * m.quantity as real)
              && (b.carbonKg <= m.esgBaseline * m.quantity as real ==>
                    ScoreEsg(m, b) * (m.esgBaseline * m.quantity as real)
                    == m.esgBaseline * m.quantity as real - b.carbonKg)
    ensures ScoreReliability(b) == b.reliability
  {
    PricePoints(m, b);
    LeadTimePoints(m, b);
    if m.esgBaseline > 0.0 {
      EsgPoints(m, b);
    }
  }

  /** Where there is nothing to measure against: a spot price under 1e-5 counts as that much, a quantity under one as
      one, and with no target of a day or more every late bid scores nothing for its lead time. */
  lemma SubScoreFallbacks(m: Market, b: Bid)
    ensures m.spotPrice < 0.00001 ==> ScorePrice(m, b) == ScorePrice(m.(spotPrice := 0.00001), b)
    ensures m.quantity < 1 ==> ScoreEsg(m, b) == ScoreEsg(m.(quantity := 1), b)
    ensures m.targetLeadTime < 1 && b.leadTimeDays > m.targetLeadTime ==> ScoreLeadTime(m, b) == 0.0
  {
  }

  lemma PricePoints(m: Market, b: Bid)
    requires m.spotPrice >= 0.00001
    ensures ScorePrice(m, b) == 0.0 <==> b.unitPrice >= 2.0 * m.spotPrice
    ensures b.unitPrice <= 2.0 * m.spotPrice ==>
              ScorePrice(m, b) * (2.0 * m.spotPrice) == 2.0 * m.spotPrice - b.unitPrice
    ensures b.unitPrice == m.spotPrice ==> ScorePrice(m, b) == 0.5
  {
    var q := b.unitPrice / m.spotPrice;
    assert q * m.spotPrice == b.unitPrice;
    if q >= 2.0 {
      assert q * m.spotPrice >= 2.0 * m.spotPrice;
    } else {
      assert q * m.spotPrice < 2.0 * m.spotPrice;
      assert ScorePrice(m, b) == 1.0 - q / 2.0;
      assert (1.0 - q / 2.0) * (2.0 * m.spotPrice) == 2.0 * m.spotPrice - q * m.spotPrice;
    }
  }

  lemma LeadTimePoints(m: Market, b: Bid)
    requires m.targetLeadTime >= 1
    ensures ScoreLeadTime(m, b) == 1.0 <==> b.leadTimeDays <= m.targetLeadTime
    ensures ScoreLeadTime(m, b) == 0.0 <==> b.leadTimeDays >= 2 * m.targetLeadTime
    ensures m.targetLeadTime <= b.leadTimeDays <= 2 * m.targetLeadTime ==>
              ScoreLeadTime(m, b) * m.targetLeadTime as real == (2 * m.targetLeadTime - b.leadTimeDays) as real
  {
    if b.leadTimeDays > m.targetLeadTime {
      var late, target := (b.leadTimeDays - m.targetLeadTime) as real, m.targetLeadTime as real;
      ShareIs(late, target);
      var q := Share(late, target);
      assert (1.0 - q) * target == target - q * target;
    }
  }

  lemma EsgPoints(m: Market, b: Bid)
    requires m.quantity >= 1 && m.esgBaseline > 0.0 && b.carbonKg >= 0.0
    ensures var limit := m.esgBaseline * m.quantity as real;
            && (ScoreEsg(m, b) == 1.0 <==> b.carbonKg == 0.0)
            && (ScoreEsg(m, b) == 0.0 <==> b.carbonKg >= limit)
            && (b.carbonKg <= limit ==> ScoreEsg(m, b) * limit == limit - b.carbonKg)
  {
    var quantity := m.quantity as real;
    var item := Share(b.carbonKg, quantity);
    var q := Share(item, m.esgBaseline);
    ShareIs(b.carbonKg, quantity);
    ShareIs(item, m.esgBaseline);
    assert ScoreEsg(m, b) == B.Max(0.0, 1.0 - q);
    hide Share, ScoreEsg;
    var limit := m.esgBaseline * quantity;
    OfLimit(q, m.esgBaseline, quantity);
  }

  lemma OfLimit(q: real, baseline: real, quantity: real)
    requires baseline > 0.0 && quantity > 0.0
    ensures (1.0 - q) * (baseline * quantity) == baseline * quantity - q * baseline * quantity
    ensures q >= 1.0 <==> q * baseline * quantity >= baseline * quantity
  {
    var limit := baseline * quantity;
    assert q * baseline * quantity == q * limit;
    if q >= 1.0 {
      assert q * limit >= limit;
    } else {
      assert q * limit < limit;
    }
  }

  /** A score is in the unit interval for any bid at a price and carbon of zero or more, with weights that add up to one
      and rounding that keeps order, zero and one; whatever reliability is claimed. */
  lemma {:induction false} ScoreInUnit(rnd: real -> real, w: Weights, m: Market, b: Bid)
    requires B.Monotone(rnd) && rnd(0.0) == 0.0 && rnd(1.0) == 1.0 && b.unitPrice >= 0.0 && b.carbonKg >= 0.0
    requires w.price >= 0.0 && w.leadTime >= 0.0 && w.esg >= 0.0 && w.reliability >= 0.0
    requires w.price + w.leadTime + w.esg + w.reliability == 1.0
    ensures 0.0 <= ScoreBid(rnd, w, m, b) <= 1.0
  {
    hide ScorePrice, ScoreLeadTime, ScoreEsg, ScoreReliability, B.Monotone;
    SubScoresInUnit(m, b);
    var total := MeanInUnit(w, ScorePrice(m, b), ScoreLeadTime(m, b), ScoreEsg(m, b), ScoreReliability(b));
    RoundedInUnit(rnd, total);
    UnroundedIs(w, m, b, total);
    RoundedTotal(rnd, w, m, b, total);
  }

  lemma RoundedTotal(rnd: real -> real, w: Weights, m: Market, b: Bid, total: real)
    requires total == Unrounded(w, m, b)
    ensures ScoreBid(rnd, w, m, b) == rnd(total)
  {
    hide ScorePrice, ScoreLeadTime, ScoreEsg, ScoreReliability;
  }

  lemma UnroundedIs(w: Weights, m: Market, b: Bid, total: real)
    requires total == w.price * ScorePrice(m, b) + w.leadTime * ScoreLeadTime(m, b)
                      + w.esg * ScoreEsg(m, b) + w.reliability * ScoreReliability(b)
    ensures Unrounded(w, m, b) == total
  {
    hide ScorePrice, ScoreLeadTime, ScoreEsg, ScoreReliability;
  }

  lemma MeanInUnit(w: Weights, price: real, lead: real, esg: real, reliability: real) returns (mean: real)
    requires w.price >= 0.0 && w.leadTime >= 0.0 && w.esg >= 0.0 && w.reliability >= 0.0
    requires w.price + w.leadTime + w.esg + w.reliability == 1.0
    requires 0.0 <= price <= 1.0 && 0.0 <= lead <= 1.0 && 0.0 <= esg <= 1.0 && 0.0 <= reliability <= 1.0
    ensures mean == w.price * price + w.leadTime * lead + w.esg * esg + w.reliability * reliability
    ensures 0.0 <= mean <= 1.0
  {
    var p := Weighed(w.price, price);
    var l := Weighed(w.leadTime, lead);
    var e := Weighed(w.esg, esg);
    var r := Weighed(w.reliability, reliability);
    mean := p + l + e + r;
  }

  lemma RoundedInUnit(rnd: real -> real, x: real)
    requires B.Monotone(rnd) && rnd(0.0) == 0.0 && rnd(1.0) == 1.0 && 0.0 <= x <= 1.0
    ensures 0.0 <= rnd(x) <= 1.0
  {
  }

  lemma Weighed(weight: real, score: real) returns (part: real)
    requires weight >= 0.0 && 0.0 <= score <= 1.0
    ensures 0.0 <= part <= weight && part == weight * score
  {
    part := weight * score;
  }

  lemma SubScoresInUnit(m: Market, b: Bid)
    requires b.unitPrice >= 0.0 && b.carbonKg >= 0.0
    ensures 0.0 <= ScorePrice(m, b) <= 1.0 && 0.0 <= ScoreLeadTime(m, b) <= 1.0
    ensures 0.0 <= ScoreEsg(m, b) <= 1.0 && 0.0 <= ScoreReliability(b) <= 1.0
  {
    var spot := B.Max(m.spotPrice, 0.00001);
    ShareIs(b.unitPrice, spot);
    assert ScorePrice(m, b) == B.Max(0.0, 1.0 - Share(b.unitPrice, spot) / 2.0);
    var quantity := if m.quantity >= 1 then m.quantity as real else 1.0;
    ShareIs(b.carbonKg, quantity);
    if m.esgBaseline > 0.0 {
      ShareIs(Share(b.carbonKg, quantity), m.esgBaseline);
      assert ScoreEsg(m, b) == B.Max(0.0, 1.0 - Share(Share(b.carbonKg, quantity), m.esgBaseline));
    }
    if b.leadTimeDays > m.targetLeadTime {
      var late, target := (b.leadTimeDays - m.targetLeadTime) as real,
                          if m.targetLeadTime >= 1 then m.targetLeadTime as real else 1.0;
      ShareIs(late, target);
      assert ScoreLeadTime(m, b) == B.Max(0.0, 1.0 - Share(late, target));
    }
  }

  lemma Rate(unit: real, weight: real, x: real, y: real, a: real, b: real)
    requires x * unit == a && y * unit == b
    ensures unit * (weight * x - weight * y) == weight * (a - b)
  {
    assert unit * (weight * x - weight * y) == weight * (x * unit - y * unit);
  }

  function Unrounded(w: Weights, m: Market, b: Bid): real { ScoreBid(B.Identity, w, m, b) }

  // Each sub-score reads one field of the bid.
  lemma OneTermMoves(w: Weights, m: Market, b: Bid, c: Bid)
    ensures c == b.(unitPrice := c.unitPrice) ==>
              Unrounded(w, m, b) - Unrounded(w, m, c) == w.price * ScorePrice(m, b) - w.price * ScorePrice(m, c)
    ensures c == b.(leadTimeDays := c.leadTimeDays) ==>
              Unrounded(w, m, b) - Unrounded(w, m, c)
              == w.leadTime * ScoreLeadTime(m, b) - w.leadTime * ScoreLeadTime(m, c)
    ensures c == b.(carbonKg := c.carbonKg) ==>
              Unrounded(w, m, b) - Unrounded(w, m, c) == w.esg * ScoreEsg(m, b) - w.esg * ScoreEsg(m, c)
    ensures c == b.(reliability := c.reliability) ==>
              Unrounded(w, m, b) - Unrounded(w, m, c)
              == w.reliability * ScoreReliability(b) - w.reliability * ScoreReliability(c)
  {
    SameTerms(m, b, c);
    hide ScorePrice, ScoreLeadTime, ScoreEsg, ScoreReliability;
  }

  lemma SameTerms(m: Market, b: Bid, c: Bid)
    ensures c.unitPrice == b.unitPrice ==> ScorePrice(m, c) == ScorePrice(m, b)
    ensures c.leadTimeDays == b.leadTimeDays ==> ScoreLeadTime(m, c) == ScoreLeadTime(m, b)
    ensures c.carbonKg == b.carbonKg ==> ScoreEsg(m, c) == ScoreEsg(m, b)
    ensures c.reliability == b.reliability ==> ScoreReliability(c) == ScoreReliability(b)
  {
  }

  /** What each weight is worth, before rounding: the price weight is what twice the spot price costs, the lead-time
      weight what one target of delay costs, the ESG weight what the baseline of carbon costs, the reliability weight
      what all of the reliability is worth. One term of a bid moved within those ranges moves the score at that rate. */
  lemma {:induction false} WeightsBuy(w: Weights, m: Market, b: Bid, c: Bid)
    requires m.spotPrice >= 0.00001 && m.targetLeadTime >= 1 && m.quantity >= 1 && m.esgBaseline > 0.0
    requires b.carbonKg >= 0.0 && c.carbonKg >= 0.0 && 0.0 <= b.reliability <= 1.0 && 0.0 <= c.reliability <= 1.0
    ensures var spot2, target, limit := 2.0 * m.spotPrice, m.targetLeadTime, m.esgBaseline * m.quantity as real;
            var lost := Unrounded(w, m, b) - Unrounded(w, m, c);
            && (c == b.(unitPrice := c.unitPrice) && b.unitPrice <= spot2 && c.unitPrice <= spot2 ==>
                  spot2 * lost == w.price * (c.unitPrice - b.unitPrice))
            && (c == b.(leadTimeDays := c.leadTimeDays)
                && target <= b.leadTimeDays <= 2 * target && target <= c.leadTimeDays <= 2 * target ==>
                  target as real * lost == w.leadTime * (c.leadTimeDays - b.leadTimeDays) as real)
            && (c == b.(carbonKg := c.carbonKg) && b.carbonKg <= limit && c.carbonKg <= limit ==>
                  limit * lost == w.esg * (c.carbonKg - b.carbonKg))
            && (c == b.(reliability := c.reliability) ==> lost == w.reliability * (b.reliability - c.reliability))
  {
    hide ScorePrice, ScoreLeadTime, ScoreEsg, ScoreReliability, Unrounded;
    var spot2, target, limit := 2.0 * m.spotPrice, m.targetLeadTime, m.esgBaseline * m.quantity as real;
    OneTermMoves(w, m, b, c);
    SubScorePoints(m, b);
    SubScorePoints(m, c);
    if c == b.(unitPrice := c.unitPrice) && b.unitPrice <= spot2 && c.unitPrice <= spot2 {
      Rate(spot2, w.price, ScorePrice(m, b), ScorePrice(m, c), spot2 - b.unitPrice, spot2 - c.unitPrice);
    }
    if c == b.(leadTimeDays := c.leadTimeDays)
       && target <= b.leadTimeDays <= 2 * target && target <= c.leadTimeDays <= 2 * target {
      Rate(target as real, w.leadTime, ScoreLeadTime(m, b), ScoreLeadTime(m, c),
           (2 * target - b.leadTimeDays) as real, (2 * target - c.leadTimeDays) as real);
    }
    if c == b.(carbonKg := c.carbonKg) && b.carbonKg <= limit && c.carbonKg <= limit {
      Rate(limit, w.esg, ScoreEsg(m, b), ScoreEsg(m, c), limit - b.carbonKg, limit - c.carbonKg);
    }
    Rate(1.0, w.reliability, ScoreReliability(b), ScoreReliability(c), b.reliability, c.reliability);
  }

  lemma DivideMonotone(a: real, b: real, c: real)
    requires a <= b && c > 0.0
    ensures a / c <= b / c
  {
  }

  lemma WeighMonotone(w: real, a: real, b: real)
    requires w >= 0.0 && a <= b
    ensures w * a <= w * b
  {
  }

  lemma SubScoresOrdered(m: Market, a: Bid, b: Bid)
    requires a.unitPrice <= b.unitPrice && a.leadTimeDays <= b.leadTimeDays
    requires a.carbonKg <= b.carbonKg && a.reliability >= b.reliability
    ensures ScorePrice(m, b) <= ScorePrice(m, a) && ScoreLeadTime(m, b) <= ScoreLeadTime(m, a)
    ensures ScoreEsg(m, b) <= ScoreEsg(m, a) && ScoreReliability(b) <= ScoreReliability(a)
  {
    var spot := B.Max(m.spotPrice, 0.00001);
    DivideMonotone(a.unitPrice, b.unitPrice, spot);
    var target := if m.targetLeadTime >= 1 then m.targetLeadTime else 1;
    DivideMonotone((a.leadTimeDays - m.targetLeadTime) as real, (b.leadTimeDays - m.targetLeadTime) as real,
                   target as real);
    if a.leadTimeDays > m.targetLeadTime {
      DivideMonotone(0.0, (a.leadTimeDays - m.targetLeadTime) as real, target as real);
    } else if b.leadTimeDays > m.targetLeadTime {
      DivideMonotone(0.0, (b.leadTimeDays - m.targetLeadTime) as real, target as real);
    }
    var quantity := if m.quantity >= 1 then m.quantity else 1;
    DivideMonotone(a.carbonKg, b.carbonKg, quantity as real);
    if m.esgBaseline > 0.0 {
      DivideMonotone(a.carbonKg / quantity as real, b.carbonKg / quantity as real, m.esgBaseline);
    }
  }

  /** A bid no worse on every criterion never scores lower. */
  lemma DominanceRespected(rnd: real -> real, w: Weights, m: Market, a: Bid, b: Bid)
    requires B.Monotone(rnd) && a.unitPrice <= b.unitPrice && a.leadTimeDays <= b.leadTimeDays
    requires a.carbonKg <= b.carbonKg && a.reliability >= b.reliability
    requires w.price >= 0.0 && w.leadTime >= 0.0 && w.esg >= 0.0 && w.reliability >= 0.0
    ensures ScoreBid(rnd, w, m, b) <= ScoreBid(rnd, w, m, a)
  {
    hide ScorePrice, ScoreLeadTime, ScoreEsg, ScoreReliability, B.Monotone, ScoreBid, Unrounded;
    SubScoresOrdered(m, a, b);
    UnroundedOrdered(w, m, a, b);
    RoundedTotal(rnd, w, m, a, Unrounded(w, m, a));
    RoundedTotal(rnd, w, m, b, Unrounded(w, m, b));
    RoundedOrdered(rnd, Unrounded(w, m, b), Unrounded(w, m, a));
  }

  lemma RoundedOrdered(rnd: real -> real, x: real, y: real)
    requires B.Monotone(rnd) && x <= y
    ensures rnd(x) <= rnd(y)
  {
  }

  lemma UnroundedOrdered(w: Weights, m: Market, a: Bid, b: Bid)
    requires ScorePrice(m, b) <= ScorePrice(m, a) && ScoreLeadTime(m, b) <= ScoreLeadTime(m, a)
    requires ScoreEsg(m, b) <= ScoreEsg(m, a) && ScoreReliability(b) <= ScoreReliability(a)
    requires w.price >= 0.0 && w.leadTime >= 0.0 && w.esg >= 0.0 && w.reliability >= 0.0
    ensures Unrounded(w, m, b) <= Unrounded(w, m, a)
  {
    hide ScorePrice, ScoreLeadTime, ScoreEsg, ScoreReliability;
    WeighMonotone(w.price, ScorePrice(m, b), ScorePrice(m, a));
    WeighMonotone(w.leadTime, ScoreLeadTime(m, b), ScoreLeadTime(m, a));
    WeighMonotone(w.esg, ScoreEsg(m, b), ScoreEsg(m, a));
    WeighMonotone(w.reliability, ScoreReliability(b), ScoreReliability(a));
  }

  // ---- the sealed-bid auction

  /** What a supplier's task came back with. */
  datatype Reply = Failed(supplierId: string) | BidReply(bid: Bid) | SelfRejected(supplierId: string)

  function IdOf(r: Reply): string {
    match r
    case Failed(id) => id
    case BidReply(b) => b.supplierId
    case SelfRejected(id) => id
  }

  function Ids(bids: seq<Bid>): (ids: seq<string>)
    ensures |ids| == |bids|
  {
    seq(|bids|, k requires 0 <= k < |bids| => bids[k].supplierId)
  }

  function ReplyIds(rs: seq<Reply>): (ids: seq<string>)
    ensures |ids| == |rs|
  {
    seq(|rs|, k requires 0 <= k < |rs| => IdOf(rs[k]))
  }

  function Failures(rs: seq<Reply>): seq<string> {
    if rs == [] then []
    else Failures(rs[..|rs| - 1]) + (if rs[|rs| - 1].Failed? then [rs[|rs| - 1].supplierId] else [])
  }

  function SelfRejections(rs: seq<Reply>): seq<string> {
    if rs == [] then []
    else SelfRejections(rs[..|rs| - 1]) + (if rs[|rs| - 1].SelfRejected? then [rs[|rs| - 1].supplierId] else [])
  }

  function BidsOf(rs: seq<Reply>): seq<Bid> {
    if rs == [] then []
    else BidsOf(rs[..|rs| - 1]) + (if rs[|rs| - 1].BidReply? then [rs[|rs| - 1].bid] else [])
  }

  function ValidBids(bids: seq<Bid>, ctx: PolicyContext): seq<Bid> {
    if bids == [] then []
    else
      var b := bids[|bids| - 1];
      ValidBids(bids[..|bids| - 1], ctx) + (if EvaluateBid(b, None, ctx).Passed? then [b] else [])
  }

  function PolicyRejections(bids: seq<Bid>, ctx: PolicyContext): seq<string> {
    if bids == [] then []
    else
      var b := bids[|bids| - 1];
      PolicyRejections(bids[..|bids| - 1], ctx) + (if EvaluateBid(b, None, ctx).Passed? then [] else [b.supplierId])
  }

  function ByScore(score: Bid -> real): (Bid, Bid) -> bool {
    (a, b) => score(a) >= score(b)
  }

  datatype Outcome = Outcome(state: AuctionState, winner: Option<Bid>, ranked: seq<Bid>, shortlist: seq<Bid>,
                             losers: seq<string>, policyRejections: seq<string>,
                             selfRejections: seq<string>, failures: seq<string>)

  method CollectReplies(replies: seq<Reply>)
    returns (bids: seq<Bid>, selfRejections: seq<string>, failures: seq<string>)
    ensures failures == Failures(replies) && selfRejections == SelfRejections(replies) && bids == BidsOf(replies)
  {
    failures, bids, selfRejections := [], [], [];
    for i := 0 to |replies|
      invariant failures == Failures(replies[..i]) && selfRejections == SelfRejections(replies[..i])
      invariant bids == BidsOf(replies[..i])
    {
      assert replies[..i + 1][..i] == replies[..i];
      match replies[i] {
        case Failed(id) => failures := failures + [id];
        case BidReply(b) => bids := bids + [b];
        case SelfRejected(id) => selfRejections := selfRejections + [id];
      }
    }
    assert replies[..|replies|] == replies;
  }

  method ScreenBids(bids: seq<Bid>, ctx: PolicyContext) returns (valid: seq<Bid>, rejections: seq<string>)
    ensures valid == ValidBids(bids, ctx) && rejections == PolicyRejections(bids, ctx)
  {
    var engine := new PolicyEngine;
    valid, rejections := [], [];
    for i := 0 to |bids|
      invariant valid == ValidBids(bids[..i], ctx) && rejections == PolicyRejections(bids[..i], ctx)
    {
      assert bids[..i + 1][..i] == bids[..i];
      var v := engine.Evaluate(bids[i], None, ctx);
      if v.Passed? {
        valid := valid + [bids[i]];
      } else {
        rejections := rejections + [bids[i].supplierId];
      }
    }
    assert bids[..|bids|] == bids;
  }

  /** The auction ends awarded exactly when some bid is valid, with every supplier filed as below. */
  method RunSealedBidAuction(replies: seq<Reply>, score: Bid -> real, ctx: PolicyContext, shortlistSize: nat)
    returns (o: Outcome)
    ensures o.failures == Failures(replies) && o.selfRejections == SelfRejections(replies)
    ensures o.policyRejections == PolicyRejections(BidsOf(replies), ctx)
    ensures o.ranked == Sort(ByScore(score), ValidBids(BidsOf(replies), ctx))
    ensures o.state == (if ValidBids(BidsOf(replies), ctx) == [] then Terminated else Awarded)
    ensures o.winner == (if o.ranked == [] then None else Some(o.ranked[0]))
    ensures o.losers == (if o.ranked == [] then [] else Ids(o.ranked[1..]))
    ensures o.shortlist <= o.ranked
    ensures |o.shortlist| == if shortlistSize < |o.ranked| then shortlistSize else |o.ranked|
  {
    hide Sort, EvaluateBid, ValidBids, BidsOf, Failures, SelfRejections, PolicyRejections;
    var fsm := new GlobalAuctionFSM();
    var moved := fsm.Transition(RfqBroadcast);
    moved := fsm.Transition(BidCollection);
    var bids, selfRejections, failures := CollectReplies(replies);
    moved := fsm.Transition(Evaluation);
    var valid, rejections := ScreenBids(bids, ctx);
    var ranked := Sort(ByScore(score), valid);
    SortPermutes(ByScore(score), valid);
    var shortlist := ranked[..if shortlistSize < |ranked| then shortlistSize else |ranked|];
    if ranked != [] {
      moved := fsm.Transition(Awarded);
      o := Outcome(fsm.state, Some(ranked[0]), ranked, shortlist, Ids(ranked[1..]),
                   rejections, selfRejections, failures);
    } else {
      moved := fsm.Transition(Terminated);
      o := Outcome(fsm.state, None, [], [], [], rejections, selfRejections, failures);
    }
  }

  // ---- nobody is lost and nobody is counted twice

  lemma IdsSnoc(bids: seq<Bid>, b: Bid)
    ensures Ids(bids + [b]) == Ids(bids) + [b.supplierId]
    ensures multiset(Ids(bids + [b])) == multiset(Ids(bids)) + multiset{b.supplierId}
  {
  }

  lemma {:induction false} RepliesSplit(rs: seq<Reply>)
    ensures multiset(ReplyIds(rs))
            == multiset(Failures(rs)) + multiset(SelfRejections(rs)) + multiset(Ids(BidsOf(rs)))
  {
    if rs == [] {
    } else {
      var init, last := rs[..|rs| - 1], rs[|rs| - 1];
      RepliesSplit(init);
      FiledStep(init, last);
      assert rs == init + [last];
      hide Failures, SelfRejections, BidsOf, Ids;
    }
  }

  lemma {:induction false} FiledStep(init: seq<Reply>, last: Reply)
    ensures var rs := init + [last];
            && multiset(ReplyIds(rs)) == multiset(ReplyIds(init)) + multiset{IdOf(last)}
            && multiset(Failures(rs)) + multiset(SelfRejections(rs)) + multiset(Ids(BidsOf(rs)))
               == multiset(Failures(init)) + multiset(SelfRejections(init)) + multiset(Ids(BidsOf(init)))
                  + multiset{IdOf(last)}
  {
    var rs := init + [last];
    assert rs[..|rs| - 1] == init && rs[|rs| - 1] == last;
    assert ReplyIds(rs) == ReplyIds(init) + [IdOf(last)];
    var f, s, b := Failures(init), SelfRejections(init), BidsOf(init);
    assert Failures(rs) == f + (if last.Failed? then [last.supplierId] else []);
    assert SelfRejections(rs) == s + (if last.SelfRejected? then [last.supplierId] else []);
    assert BidsOf(rs) == b + (if last.BidReply? then [last.bid] else []);
    hide Failures, SelfRejections, BidsOf, Ids;
    if last.BidReply? {
      IdsSnoc(b, last.bid);
      assert f + [] == f && s + [] == s;
    } else {
      assert b + [] == b && (last.Failed? ==> s + [] == s) && (last.SelfRejected? ==> f + [] == f);
    }
  }

  lemma {:induction false} BidsSplit(bids: seq<Bid>, ctx: PolicyContext)
    ensures multiset(Ids(bids)) == multiset(PolicyRejections(bids, ctx)) + multiset(Ids(ValidBids(bids, ctx)))
  {
    hide EvaluateBid, Ids;
    if bids == [] {
      IdsEmpty();
    } else {
      var init, last := bids[..|bids| - 1], bids[|bids| - 1];
      BidsSplit(init, ctx);
      assert bids == init + [last];
      IdsSnoc(init, last);
      IdsSnoc(ValidBids(init, ctx), last);
      assert ValidBids(init, ctx) + [] == ValidBids(init, ctx);
      assert PolicyRejections(init, ctx) + [] == PolicyRejections(init, ctx);
    }
  }

  lemma IdsEmpty()
    ensures Ids([]) == []
  {
  }

  lemma {:induction false} IdsOfPermutation(a: seq<Bid>, b: seq<Bid>)
    requires multiset(a) == multiset(b)
    ensures multiset(Ids(a)) == multiset(Ids(b))
  {
    if a == [] {
      assert |b| == |multiset(b)| == 0;
    } else {
      var rest, last := a[..|a| - 1], a[|a| - 1];
      assert a == rest + [last];
      var b' := TakeOut(b, last);
      IdsOfPermutation(rest, b');
      IdsSnoc(rest, last);
    }
  }

  lemma {:induction false} TakeOut(b: seq<Bid>, x: Bid) returns (rest: seq<Bid>)
    requires x in multiset(b)
    ensures multiset(rest) == multiset(b) - multiset{x}
    ensures multiset(Ids(b)) == multiset(Ids(rest)) + multiset{x.supplierId}
    ensures |rest| == |b| - 1
  {
    var k :| 0 <= k < |b| && b[k] == x;
    rest := b[..k] + b[k + 1..];
    assert b == b[..k] + [x] + b[k + 1..];
    assert Ids(b) == Ids(b[..k]) + [x.supplierId] + Ids(b[k + 1..]);
    assert Ids(rest) == Ids(b[..k]) + Ids(b[k + 1..]);
  }

  /** The five outcome lists of an auction, with the winner as a list of at most one. */
  function Filed(replies: seq<Reply>, score: Bid -> real, ctx: PolicyContext)
    : (seq<string>, seq<string>, seq<string>, seq<string>, seq<string>)
  {
    var ranked := Sort(ByScore(score), ValidBids(BidsOf(replies), ctx));
    (Ids(if ranked == [] then [] else [ranked[0]]), Ids(if ranked == [] then [] else ranked[1..]),
     PolicyRejections(BidsOf(replies), ctx), SelfRejections(replies), Failures(replies))
  }

  /** Every reply is filed exactly once, duplicates included. */
  lemma {:induction false} EveryReplyFiledOnce(replies: seq<Reply>, score: Bid -> real, ctx: PolicyContext)
    ensures var (won, lost, barred, declined, failed) := Filed(replies, score, ctx);
            multiset(ReplyIds(replies))
            == multiset(won) + multiset(lost) + multiset(barred) + multiset(declined) + multiset(failed)
  {
    hide BidsOf, ValidBids, PolicyRejections, SelfRejections, Failures, Sort, EvaluateBid;
    var valid := ValidBids(BidsOf(replies), ctx);
    var ranked := Sort(ByScore(score), valid);
    RepliesSplit(replies);
    BidsSplit(BidsOf(replies), ctx);
    SortPermutes(ByScore(score), valid);
    IdsOfPermutation(ranked, valid);
    if ranked == [] {
      assert Ids(ranked) == [];
    } else {
      assert Ids(ranked) == Ids([ranked[0]]) + Ids(ranked[1..]);
    }
  }

  function Count(inList: bool): nat { if inList then 1 else 0 }

  /** With distinct supplier ids, each lands in exactly one of the five lists. */
  lemma {:induction false} ExactlyOneOutcome(replies: seq<Reply>, score: Bid -> real, ctx: PolicyContext, id: string)
    requires forall i, j | 0 <= i < j < |replies| :: IdOf(replies[i]) != IdOf(replies[j])
    requires id in ReplyIds(replies)
    ensures var (won, lost, barred, declined, failed) := Filed(replies, score, ctx);
            1 == Count(id in won) + Count(id in lost) + Count(id in barred)
               + Count(id in declined) + Count(id in failed)
  {
    EveryReplyFiledOnce(replies, score, ctx);
    OccursOnce(ReplyIds(replies), id);
    var (won, lost, barred, declined, failed) := Filed(replies, score, ctx);
    assert multiset(won)[id] + multiset(lost)[id] + multiset(barred)[id] + multiset(declined)[id]
           + multiset(failed)[id] == 1;
  }

  lemma {:induction false} OccursOnce(ids: seq<string>, id: string)
    requires forall i, j | 0 <= i < j < |ids| :: ids[i] != ids[j]
    requires id in ids
    ensures multiset(ids)[id] == 1
  {
    var k :| 0 <= k < |ids| && ids[k] == id;
    assert ids == ids[..k] + [id] + ids[k + 1..];
    assert id !in multiset(ids[..k]) && id !in multiset(ids[k + 1..]);
  }

  /** The winner's score is the highest of the valid bids, and the earliest valid bid wins a tie. */
  lemma {:induction false} WinnerIsEarliestBest(valid: seq<Bid>, score: Bid -> real) returns (k: nat)
    requires valid != []
    ensures k < |valid| && Sort(ByScore(score), valid) != [] && Sort(ByScore(score), valid)[0] == valid[k]
    ensures forall j | 0 <= j < |valid| :: score(valid[j]) <= score(valid[k])
    ensures forall j | 0 <= j < k :: score(valid[j]) < score(valid[k])
  {
    var le := ByScore(score);
    k := FirstOfSort(le, valid);
    forall j | 0 <= j < |valid|
      ensures score(valid[j]) <= score(valid[k])
    {
      assert le(valid[k], valid[j]);
    }
    forall j | 0 <= j < k
      ensures score(valid[j]) < score(valid[k])
    {
      assert !le(valid[j], valid[k]);
    }
  }

  // ---- bartering with the shortlist

  /** A shortlisted bid with the supplier's floor and the memory's estimate for it. */
  datatype Shortlisted = Shortlisted(bid: Bid, floor: real, estimate: Option<real>)

  function ThreadOf(rnd: real -> real, buyer: string, s: Shortlisted, maxTurns: int): B.Result
    requires s.bid.unitPrice > 0.0
  {
    B.ThreadResult(rnd, s.floor, buyer, s.bid.supplierId, B.OpeningPrice(s.bid.unitPrice, s.estimate), maxTurns)
  }

  /** best names the cheapest successful thread, the earliest if several are; None if there is none. */
  predicate IsBestDeal(results: seq<B.Result>, best: Option<nat>) {
    match best
    case None => forall k | 0 <= k < |results| :: !results[k].success
    case Some(k) =>
      && k < |results| && results[k].success && results[k].finalPrice.Some?
      && (forall j | 0 <= j < |results| && results[j].success && results[j].finalPrice.Some? ::
            results[k].finalPrice.value <= results[j].finalPrice.value)
      && (forall j | 0 <= j < k && results[j].success && results[j].finalPrice.Some? ::
            results[k].finalPrice.value < results[j].finalPrice.value)
  }

  /** It names at most one. */
  lemma BestDealIsOne(results: seq<B.Result>, a: Option<nat>, b: Option<nat>)
    requires forall k | 0 <= k < |results| :: results[k].success <==> results[k].finalPrice.Some?
    requires IsBestDeal(results, a) && IsBestDeal(results, b)
    ensures a == b
  {
  }

  method RunBilateralBartering(rnd: real -> real, buyer: string, shortlist: seq<Shortlisted>, maxTurns: int)
    returns (results: seq<B.Result>, best: Option<nat>, state: AuctionState)
    requires forall k | 0 <= k < |shortlist| :: shortlist[k].bid.unitPrice > 0.0
    ensures |results| == |shortlist|
    ensures forall k | 0 <= k < |shortlist| :: results[k] == ThreadOf(rnd, buyer, shortlist[k], maxTurns)
    ensures IsBestDeal(results, best)
    ensures state == (if shortlist == [] then ShortlistBarter else if best.Some? then Awarded else Terminated)
  {
    hide B.ThreadResult, B.OpeningPrice;
    var fsm := new GlobalAuctionFSM();
    fsm.state := ShortlistBarter;
    results := [];
    for i := 0 to |shortlist|
      invariant |results| == i && fsm.state == ShortlistBarter
      invariant forall k | 0 <= k < i :: results[k] == ThreadOf(rnd, buyer, shortlist[k], maxTurns)
    {
      var s := shortlist[i];
      var r := B.BarterWithSupplier(rnd, s.floor, buyer, s.bid.supplierId,
                                    B.OpeningPrice(s.bid.unitPrice, s.estimate), maxTurns);
      results := results + [r];
    }
    best := None;
    if shortlist == [] {
      return results, best, fsm.state;
    }
    forall k | 0 <= k < |results|
      ensures results[k].success <==> results[k].finalPrice.Some?
    {
      ThreadsPriced(rnd, buyer, shortlist[k], maxTurns);
    }
    best := CheapestDeal(results);
    var moved := fsm.Transition(if best.Some? then Awarded else Terminated);
    state := fsm.state;
  }

  method CheapestDeal(results: seq<B.Result>) returns (best: Option<nat>)
    requires forall k | 0 <= k < |results| :: results[k].success <==> results[k].finalPrice.Some?
    ensures IsBestDeal(results, best)
  {
    best := None;
    var bestPrice := 0.0;
    for i := 0 to |results|
      invariant IsBestDeal(results[..i], best)
      invariant best.Some? ==> best.value < i && results[best.value].finalPrice == Some(bestPrice)
    {
      var r := results[i];
      if r.success && (best.None? || r.finalPrice.value < bestPrice) {
        best, bestPrice := Some(i), r.finalPrice.value;
      }
    }
    assert results[..|results|] == results;
  }

  lemma ThreadsPriced(rnd: real -> real, buyer: string, s: Shortlisted, maxTurns: int)
    requires s.bid.unitPrice > 0.0
    ensures var r := ThreadOf(rnd, buyer, s, maxTurns);
            r.success <==> r.finalPrice.Some?
  {
    if maxTurns >= 1 {
      B.RestLength(rnd, s.floor, buyer, s.bid.supplierId, B.OpeningPrice(s.bid.unitPrice, s.estimate), 0, maxTurns);
    }
  }

  /** With exact prices the bartered award costs at most 92% of that supplier's own bid, no less than
      its floor, and no more than any other supplier agreed to. */
  lemma {:induction false} BarteredAwardSaves(buyer: string, shortlist: seq<Shortlisted>, maxTurns: int,
                                              results: seq<B.Result>, k: nat)
    requires forall i | 0 <= i < |shortlist| :: shortlist[i].bid.unitPrice > 0.0 && shortlist[i].floor >= 0.0
    requires |results| == |shortlist|
    requires forall i | 0 <= i < |shortlist| :: results[i] == ThreadOf(B.Identity, buyer, shortlist[i], maxTurns)
    requires IsBestDeal(results, Some(k))
    ensures shortlist[k].floor <= results[k].finalPrice.value <= 0.92 * shortlist[k].bid.unitPrice
    ensures forall i | 0 <= i < |shortlist| && results[i].success ::
              results[i].finalPrice.Some? && results[k].finalPrice.value <= results[i].finalPrice.value
  {
    hide B.Rest, B.OpeningPrice;
    var s := shortlist[k];
    B.DealBeatsBid(s.floor, buyer, s.bid.supplierId, s.bid.unitPrice, s.estimate, maxTurns);
    forall i | 0 <= i < |shortlist| && results[i].success
      ensures results[i].finalPrice.Some?
    {
      ThreadsPriced(B.Identity, buyer, shortlist[i], maxTurns);
    }
  }
}
