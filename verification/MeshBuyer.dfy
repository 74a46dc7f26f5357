/** The buyer of the mesh (mesh/actors/buyer.py): indexing what it read, scoring, filtering by policy, awarding.
    The rounding of a composite score is any function. */
module MeshBuyer {
  import opened Basics
  import opened Blackboard
  import opened StableSort
  import T = Text

  datatype GovernancePolicy = GovernancePolicy(maxRisk: real, maxAmount: real)
  datatype Config = Config(policy: GovernancePolicy, round: real -> real)

  // ---- scoring

  function Amount(d: DealData): real { d.quantity * d.price }

  function Ratio(a: real, b: real): real
    requires b > 0.0
  {
    a / b
  }

  function PriceScore(d: DealData): real {
    var total := Amount(d);
    var budget := if total == 0.0 then d.price else total;
    Clip(0.0, 1.0, if budget > 0.0 then 1.0 - Ratio(d.price, budget) else 0.0)
  }

  function Weighted(d: DealData, s: ScoreData): real {
    0.40 * PriceScore(d) + 0.25 * s.leadTime + 0.20 * s.esg + 0.15 * s.reliability
  }

  function Adjusted(weighted: real, r: Option<RiskData>): real {
    if r.Some? then weighted * (1.0 - r.value.overall * 0.3) else weighted
  }

  function Composite(c: Config, d: DealData, s: ScoreData, r: Option<RiskData>): real {
    c.round(Adjusted(Weighted(d, s), r))
  }

  predicate Passes(p: GovernancePolicy, r: Option<RiskData>) {
    r.Some? && r.value.level != "CRITICAL" && r.value.overall <= p.maxRisk && r.value.amount <= p.maxAmount
  }

  /** The price sub-score measures a price against its own total, so the price drops out: two quotes for the same
      quantity score alike whatever their prices, if these have one sign. */
  lemma CompositeIgnoresPrice(c: Config, quantity: real, a: real, b: real, s: ScoreData, r: Option<RiskData>)
    requires (a > 0.0 <==> b > 0.0) && (a < 0.0 <==> b < 0.0)
    ensures Composite(c, DealData(a, quantity), s, r) == Composite(c, DealData(b, quantity), s, r)
  {
    PriceScoreIs(quantity, a);
    PriceScoreIs(quantity, b);
    hide PriceScore, Ratio, Clip;
    SameWeighted(c, DealData(a, quantity), DealData(b, quantity), s, r);
  }

  lemma SameWeighted(c: Config, d: DealData, e: DealData, s: ScoreData, r: Option<RiskData>)
    requires PriceScore(d) == PriceScore(e)
    ensures Composite(c, d, s, r) == Composite(c, e, s, r)
  {
    hide PriceScore;
    hide Adjusted;
    assert Weighted(d, s) == Weighted(e, s);
  }

  lemma PriceScoreIs(quantity: real, price: real)
    ensures PriceScore(DealData(price, quantity))
         == if quantity > 0.0 && price > 0.0 then Clip(0.0, 1.0, 1.0 - Ratio(1.0, quantity))
            else if quantity < 0.0 && price < 0.0 then 1.0 else 0.0
  {
    if quantity > 0.0 && price > 0.0 {
      ShareOfTotal(quantity, price);
      hide Amount, Ratio, Clip;
    } else {
      hide Amount;
      OddTotal(quantity, price);
    }
  }

  // A total that is positive from two negatives makes the price a negative share of it.
  lemma OddTotal(quantity: real, price: real)
    requires quantity <= 0.0 || price <= 0.0
    ensures Amount(DealData(price, quantity)) > 0.0 <==> quantity < 0.0 && price < 0.0
    ensures quantity < 0.0 && price < 0.0 ==> Ratio(price, Amount(DealData(price, quantity))) <= 0.0
    ensures price > 0.0 ==> Ratio(price, price) == 1.0
  {
    var total := quantity * price;
    if quantity < 0.0 && price < 0.0 {
      assert total > 0.0;
      assert price / total <= 0.0;
    } else {
      assert total <= 0.0;
    }
    if price > 0.0 {
      Divided(price, price, 1.0);
    }
  }

  lemma ShareOfTotal(quantity: real, price: real)
    requires quantity > 0.0 && price > 0.0
    ensures var total := Amount(DealData(price, quantity));
            total > 0.0 && Ratio(price, total) == Ratio(1.0, quantity)
  {
    var total := quantity * price;
    assert total > 0.0;
    Cancel(quantity, price);
    Divided(price, total, 1.0 / quantity);
  }

  lemma Divided(a: real, b: real, q: real)
    requires b > 0.0 && q * b == a
    ensures a / b == q
  {
  }

  lemma Cancel(quantity: real, price: real)
    requires quantity > 0.0
    ensures 1.0 / quantity * (quantity * price) == price
  {
    var inverse := 1.0 / quantity;
    assert inverse * quantity == 1.0;
    assert inverse * (quantity * price) == inverse * quantity * price;
  }

  // ---- what moves a composite

  ghost predicate KeepsScores(c: Config) { forall x: real :: c.round(x) == x }

  ghost predicate KeepsOrder(c: Config) { forall x: real, y: real | x <= y :: c.round(x) <= c.round(y) }

  /** What a risk assessment takes off: three tenths of its overall risk, as a share of the composite without it. */
  lemma RiskTakesItsShare(c: Config, d: DealData, s: ScoreData, r: RiskData)
    requires KeepsScores(c)
    ensures Composite(c, d, s, Some(r)) == Composite(c, d, s, None) * (1.0 - 0.3 * r.overall)
  {
    hide Weighted;
    var weighted := Weighted(d, s);
    assert Adjusted(weighted, Some(r)) == weighted * (1.0 - 0.3 * r.overall);
  }

  /** What each part adds to the composite of a quote without an assessment: a quarter of a rise in lead time, a fifth
      of one in ESG, 15 hundredths of one in reliability; and 40 hundredths of what one item costs less than all, which
      is nothing for a single item. A price of zero or under adds nothing unless the quantity is negative too. */
  lemma CompositeParts(c: Config, price: real, quantity: real, s: ScoreData, lead: real, esg: real, rel: real)
    requires KeepsScores(c)
    ensures var d := DealData(price, quantity);
            var moved := s.(leadTime := s.leadTime + lead, esg := s.esg + esg, reliability := s.reliability + rel);
            && Composite(c, d, moved, None) - Composite(c, d, s, None) == 0.25 * lead + 0.20 * esg + 0.15 * rel
            && (price > 0.0 && quantity >= 1.0 ==>
                  Composite(c, d, ScoreData(0.0, 0.0, 0.0), None) == 0.40 * (1.0 - Ratio(1.0, quantity)))
            && ((price > 0.0 && quantity == 1.0) || (price <= 0.0 && quantity >= 0.0) ==>
                  Composite(c, d, ScoreData(0.0, 0.0, 0.0), None) == 0.0)
  {
    PriceScoreIs(quantity, price);
    hide PriceScore, Ratio;
    if quantity >= 1.0 {
      ShareOfOne(quantity);
      if quantity == 1.0 { ShareOfOne(1.0); }
    }
  }

  lemma ShareOfOne(quantity: real)
    requires quantity >= 1.0
    ensures 0.0 < Ratio(1.0, quantity) <= 1.0 && (quantity == 1.0 ==> Ratio(1.0, quantity) == 1.0)
  {
    var q := 1.0 / quantity;
    assert q * quantity == 1.0;
    if q > 1.0 {
      assert q * quantity > quantity;
    }
  }

  // ---- indexing

  predicate IsQuote(t: Trace) { t.payload.Quote? && t.corr != "" && t.payload.supplier != "" }

  function QuoteFor(corr: string, supplier: string): Trace -> bool {
    (t: Trace) => IsQuote(t) && t.corr == corr && t.payload.supplier == supplier
  }

  function ScoreFor(corr: string, supplier: string): Trace -> bool {
    (t: Trace) => t.payload.Evaluation? && t.corr == corr && t.payload.supplier == supplier
  }

  function RiskFor(corr: string, supplier: string): Trace -> bool {
    (t: Trace) => t.payload.RiskAssessment? && t.corr == corr && t.payload.supplier == supplier
  }

  // A later assignment to a dictionary entry overwrites an earlier one.
  function Last(ts: seq<Trace>, hit: Trace -> bool): Option<Trace> {
    if ts == [] then None else if hit(ts[|ts| - 1]) then Some(ts[|ts| - 1]) else Last(ts[..|ts| - 1], hit)
  }

  // The keys of a dictionary, in the order they were first assigned.
  function Corrs(deals: seq<Trace>): seq<string> {
    if deals == [] then []
    else
      var front, t := Corrs(deals[..|deals| - 1]), deals[|deals| - 1];
      if IsQuote(t) && t.corr !in front then front + [t.corr] else front
  }

  function Suppliers(deals: seq<Trace>, corr: string): seq<string> {
    if deals == [] then []
    else
      var front, t := Suppliers(deals[..|deals| - 1], corr), deals[|deals| - 1];
      if IsQuote(t) && t.corr == corr && t.payload.supplier !in front then front + [t.payload.supplier] else front
  }

  lemma {:induction false} LastMeans(ts: seq<Trace>, hit: Trace -> bool)
    ensures match Last(ts, hit)
            case Some(t) => t in ts && hit(t)
            case None => forall t | t in ts :: !hit(t)
  {
    if ts != [] {
      LastMeans(ts[..|ts| - 1], hit);
      assert ts == ts[..|ts| - 1] + [ts[|ts| - 1]];
    }
  }

  /** Traces are read newest first, so of several quotes of a supplier the oldest one read is the one used. */
  lemma {:induction false} OldestReadWins(ts: seq<Trace>, hit: Trace -> bool, k: nat)
    requires k < |ts| && hit(ts[k]) && forall j | k < j < |ts| :: !hit(ts[j])
    ensures Last(ts, hit) == Some(ts[k])
  {
    if k < |ts| - 1 {
      OldestReadWins(ts[..|ts| - 1], hit, k);
    }
  }

  lemma {:induction false} CorrsMeans(deals: seq<Trace>)
    ensures forall c :: c in Corrs(deals) <==> exists t :: t in deals && IsQuote(t) && t.corr == c
    ensures forall i, j | 0 <= i < j < |Corrs(deals)| :: Corrs(deals)[i] != Corrs(deals)[j]
  {
    if deals != [] {
      CorrsMeans(deals[..|deals| - 1]);
      assert deals == deals[..|deals| - 1] + [deals[|deals| - 1]];
      assert deals[|deals| - 1] in deals;
    }
  }

  lemma {:induction false} SuppliersMeans(deals: seq<Trace>, corr: string)
    ensures forall s :: s in Suppliers(deals, corr)
                        <==> exists t :: t in deals && IsQuote(t) && t.corr == corr && t.payload.supplier == s
    ensures forall i, j | 0 <= i < j < |Suppliers(deals, corr)| ::
            Suppliers(deals, corr)[i] != Suppliers(deals, corr)[j]
  {
    if deals != [] {
      SuppliersMeans(deals[..|deals| - 1], corr);
      assert deals == deals[..|deals| - 1] + [deals[|deals| - 1]];
      assert deals[|deals| - 1] in deals;
    }
  }

  // ---- the candidate pool

  datatype Reads = Reads(deals: seq<Trace>, risks: seq<Trace>, scores: seq<Trace>)

  function MakeCandidate(c: Config, deal: Trace, score: Trace, risk: Option<Trace>): Candidate
    requires deal.payload.Quote? && score.payload.Evaluation? && (risk.Some? ==> risk.value.payload.RiskAssessment?)
  {
    var data := if risk.Some? then Some(risk.value.payload.risk) else None;
    Candidate(deal.payload.supplier, Composite(c, deal.payload.deal, score.payload.score, data),
              deal.payload.deal, data,
              score.payload.score, deal.id, if risk.Some? then risk.value.id else "", score.id)
  }

  // A supplier without an evaluation is left out.
  function CandidateOf(c: Config, r: Reads, corr: string, supplier: string): Option<Candidate> {
    var deal, score, risk := Last(r.deals, QuoteFor(corr, supplier)), Last(r.scores, ScoreFor(corr, supplier)),
                             Last(r.risks, RiskFor(corr, supplier));
    LastMeans(r.deals, QuoteFor(corr, supplier));
    LastMeans(r.scores, ScoreFor(corr, supplier));
    LastMeans(r.risks, RiskFor(corr, supplier));
    if deal.None? || score.None? then None else Some(MakeCandidate(c, deal.value, score.value, risk))
  }

  function PoolOf(c: Config, r: Reads, corr: string, suppliers: seq<string>): seq<Candidate> {
    if suppliers == [] then []
    else
      var x := CandidateOf(c, r, corr, suppliers[|suppliers| - 1]);
      PoolOf(c, r, corr, suppliers[..|suppliers| - 1]) + if x.Some? then [x.value] else []
  }

  function Pool(c: Config, r: Reads, corr: string): seq<Candidate> {
    PoolOf(c, r, corr, Suppliers(r.deals, corr))
  }

  // ---- choosing

  function FirstLetter(s: string): int { if s == "" then 0 else -(s[0] as int) }

  // Python's comparison of (composite, -ord(first letter)).
  predicate KeyLess(a: Candidate, b: Candidate) {
    a.composite < b.composite || (a.composite == b.composite && FirstLetter(a.supplier) < FirstLetter(b.supplier))
  }

  /** The first of the candidates whose key is not less than any other's. */
  function Winner(cs: seq<Candidate>): Candidate
    requires cs != []
  {
    if |cs| == 1 then cs[0]
    else
      var w := Winner(cs[..|cs| - 1]);
      if KeyLess(w, cs[|cs| - 1]) then cs[|cs| - 1] else w
  }

  lemma {:induction false} WinnerMeans(cs: seq<Candidate>) returns (k: nat)
    requires cs != []
    ensures k < |cs| && cs[k] == Winner(cs)
    ensures forall j | 0 <= j < |cs| :: !KeyLess(cs[k], cs[j])
    ensures forall j | 0 <= j < k :: KeyLess(cs[j], cs[k])
  {
    if |cs| == 1 {
      k := 0;
    } else {
      var n := |cs| - 1;
      k := WinnerMeans(cs[..n]);
      if KeyLess(cs[k], cs[n]) {
        k := n;
      }
    }
  }

  predicate TopScored(cs: seq<Candidate>, x: Candidate) {
    x in cs && forall y | y in cs :: y.composite <= x.composite
  }

  function Initial(x: Candidate): int { FirstLetter(x.supplier) }

  /** The tie-break looks at the first letter only: whoever wins is the first listed of the best-scored candidates with
      the least initial, whatever the rest of its id. */
  lemma {:induction false} TieGoesToFirstListed(cs: seq<Candidate>, k: nat)
    requires k < |cs| && forall j | 0 <= j < k :: cs[j] != cs[k]
    ensures Winner(cs) == cs[k]
       <==> && TopScored(cs, cs[k])
            && (forall y | TopScored(cs, y) :: Initial(y) <= Initial(cs[k]))
            && (forall j | 0 <= j < k && TopScored(cs, cs[j]) :: Initial(cs[j]) != Initial(cs[k]))
  {
    hide FirstLetter;
    var w := WinnerMeans(cs);
    assert TopScored(cs, cs[w]);
    if Winner(cs) == cs[k] {
      assert w == k;
    }
  }

  /** Of the best-scored candidates the winner's id starts with the least letter; no id of a pool is empty. */
  lemma {:induction false} TieGoesToLeastLetter(cs: seq<Candidate>, y: Candidate)
    requires TopScored(cs, y)
    ensures TopScored(cs, Winner(cs))
    ensures Winner(cs).supplier != "" && y.supplier != "" ==> Winner(cs).supplier[0] <= y.supplier[0]
  {
    hide Winner;
    var k := WinnerMeans(cs);
    var j :| 0 <= j < |cs| && cs[j] == y;
    assert !KeyLess(cs[k], cs[j]);
  }

  predicate DistinctIds(cs: seq<Candidate>) {
    forall i, j | 0 <= i < j < |cs| :: cs[i].supplier != cs[j].supplier
  }

  /** The candidate a tie-break by lower supplier id would choose. */
  ghost predicate LeastOfTop(cs: seq<Candidate>, x: Candidate) {
    TopScored(cs, x) && forall y | TopScored(cs, y) :: T.StringLe(x.supplier, y.supplier)
  }

  ghost predicate WinsInAnyOrder(cs: seq<Candidate>, x: Candidate) {
    forall ds: seq<Candidate> | ds != [] && multiset(ds) == multiset(cs) :: Winner(ds) == x
  }

  lemma LeastIdHasLeastInitial(a: Candidate, b: Candidate)
    requires T.StringLe(a.supplier, b.supplier)
    ensures Initial(b) <= Initial(a)
  {
  }

  /** When the lower supplier id wins, as the source says it does: in a given order exactly when no best-scored
      candidate of the same initial is listed before it, and in every order exactly when no other one has that
      initial. */
  lemma {:induction false} LeastIdWinsIff(cs: seq<Candidate>, k: nat)
    requires DistinctIds(cs) && k < |cs| && LeastOfTop(cs, cs[k])
    ensures Winner(cs) == cs[k]
       <==> forall j | 0 <= j < k && TopScored(cs, cs[j]) :: Initial(cs[j]) != Initial(cs[k])
    ensures WinsInAnyOrder(cs, cs[k])
       <==> forall y | TopScored(cs, y) && Initial(y) == Initial(cs[k]) :: y == cs[k]
  {
    hide TopScored, LeastOfTop, WinsInAnyOrder, Winner, Initial;
    LeastWinsHere(cs, k);
    if y :| TopScored(cs, y) && Initial(y) == Initial(cs[k]) && y != cs[k] {
      LosesBehind(cs, cs[k], y);
    } else {
      WinsAlone(cs, cs[k]);
    }
  }

  lemma {:induction false} WinsAlone(cs: seq<Candidate>, x: Candidate)
    requires LeastOfTop(cs, x) && forall y | TopScored(cs, y) && Initial(y) == Initial(x) :: y == x
    ensures WinsInAnyOrder(cs, x)
  {
    hide Winner, Initial, T.StringLe;
    forall ds: seq<Candidate> | ds != [] && multiset(ds) == multiset(cs)
      ensures Winner(ds) == x
    {
      Reordered(cs, ds, x);
      var i := FirstIndex(ds, x);
      LeastWinsHere(ds, i);
    }
  }

  lemma {:induction false} LosesBehind(cs: seq<Candidate>, x: Candidate, y: Candidate)
    requires LeastOfTop(cs, x) && TopScored(cs, y) && Initial(y) == Initial(x) && y != x
    ensures !WinsInAnyOrder(cs, x)
  {
    hide Winner, Initial, T.StringLe;
    var ds := InFront(cs, y);
    Reordered(cs, ds, x);
    var i := FirstIndex(ds, x);
    hide TopScored, LeastOfTop;
    LeastWinsHere(ds, i);
    assert TopScored(ds, ds[0]);
    assert Winner(ds) != x;
  }

  lemma InFront(cs: seq<Candidate>, y: Candidate) returns (ds: seq<Candidate>)
    requires y in cs
    ensures ds != [] && ds[0] == y && multiset(ds) == multiset(cs)
  {
    var m := FirstIndex(cs, y);
    ds := [y] + (cs[..m] + cs[m + 1..]);
    assert cs == cs[..m] + [y] + cs[m + 1..];
  }

  lemma LeastWinsHere(cs: seq<Candidate>, k: nat)
    requires k < |cs| && LeastOfTop(cs, cs[k]) && forall j | 0 <= j < k :: cs[j] != cs[k]
    ensures Winner(cs) == cs[k]
       <==> forall j | 0 <= j < k && TopScored(cs, cs[j]) :: Initial(cs[j]) != Initial(cs[k])
  {
    hide FirstLetter, T.StringLe, Winner;
    TieGoesToFirstListed(cs, k);
    forall y | TopScored(cs, y)
      ensures Initial(y) <= Initial(cs[k])
    {
      LeastIdHasLeastInitial(cs[k], y);
    }
  }

  lemma FirstIndex(cs: seq<Candidate>, x: Candidate) returns (k: nat)
    requires x in cs
    ensures k < |cs| && cs[k] == x && forall j | 0 <= j < k :: cs[j] != x
  {
    if cs[0] == x {
      k := 0;
    } else {
      k := FirstIndex(cs[1..], x);
      k := k + 1;
    }
  }

  // A reordered list has the same candidates and so the same best-scored ones.
  lemma Reordered(cs: seq<Candidate>, ds: seq<Candidate>, x: Candidate)
    requires multiset(ds) == multiset(cs)
    ensures forall y :: y in ds <==> y in cs
    ensures forall y :: TopScored(ds, y) <==> TopScored(cs, y)
    ensures LeastOfTop(cs, x) ==> LeastOfTop(ds, x)
  {
    SameMembers(ds, cs);
  }

  function ByScore(): (Candidate, Candidate) -> bool {
    (a: Candidate, b: Candidate) =>
      a.composite > b.composite || (a.composite == b.composite && T.StringLe(a.supplier, b.supplier))
  }

  function IsValid(c: Config): Candidate -> bool { (x: Candidate) => Passes(c.policy, x.risk) }

  function Decide(c: Config, pool: seq<Candidate>): Payload {
    if pool == [] then NoAward("insufficient_candidates")
    else
      var valid := Filter(IsValid(c), pool);
      if valid == [] then NoAward("policy_rejection")
      else Award(Winner(valid).supplier, Winner(valid).composite, Sort(ByScore(), pool))
  }

  datatype Proposal = Proposal(corr: string, decision: Payload)

  // What reasoning proposes for some of the correlation ids, skipping those already awarded.
  function Proposals(c: Config, r: Reads, corrs: seq<string>, processed: set<string>): seq<Proposal> {
    if corrs == [] then []
    else
      var corr := corrs[|corrs| - 1];
      Proposals(c, r, corrs[..|corrs| - 1], processed)
      + if corr in processed then [] else [Proposal(corr, Decide(c, Pool(c, r, corr)))]
  }

  function Awarded(ps: seq<Proposal>): set<string> { set p | p in ps && p.decision.Award? :: p.corr }

  function Reason(c: Config, r: Reads, processed: set<string>): seq<Proposal> {
    Proposals(c, r, Corrs(r.deals), processed)
  }

  // ---- the traces a decision names as parents

  datatype Part = DealPart | ScorePart | RiskPart

  function IdOf(x: Candidate, part: Part): string {
    match part case DealPart => x.dealId case ScorePart => x.scoreId case RiskPart => x.riskId
  }

  // The non-empty ids of the ranked candidates.
  function Ids(ranked: seq<Candidate>, part: Part): seq<string> {
    if ranked == [] then []
    else
      var id := IdOf(ranked[|ranked| - 1], part);
      Ids(ranked[..|ranked| - 1], part) + if id != "" then [id] else []
  }

  function ParentsOf(ranked: seq<Candidate>): seq<string> {
    Ids(ranked, DealPart) + Ids(ranked, ScorePart) + Ids(ranked, RiskPart)
  }

  function DecisionParents(d: Payload): seq<string> { if d.Award? then ParentsOf(d.ranked) else [] }

  lemma {:induction false} IdIsCandidates(ranked: seq<Candidate>, part: Part, id: string) returns (x: Candidate)
    requires id in Ids(ranked, part)
    ensures id != "" && x in ranked && IdOf(x, part) == id
  {
    var n := |ranked| - 1;
    if id in Ids(ranked[..n], part) {
      x := IdIsCandidates(ranked[..n], part, id);
    } else {
      x := ranked[n];
    }
  }

  lemma {:induction false} ParentIsCandidates(ranked: seq<Candidate>, id: string) returns (x: Candidate)
    requires id in ParentsOf(ranked)
    ensures id != "" && x in ranked && (x.dealId == id || x.scoreId == id || x.riskId == id)
  {
    hide Ids;
    if id in Ids(ranked, DealPart) {
      x := IdIsCandidates(ranked, DealPart, id);
    } else if id in Ids(ranked, ScorePart) {
      x := IdIsCandidates(ranked, ScorePart, id);
    } else {
      x := IdIsCandidates(ranked, RiskPart, id);
    }
  }

  lemma {:induction false} IdIsListed(ranked: seq<Candidate>, part: Part, x: Candidate)
    requires x in ranked && IdOf(x, part) != ""
    ensures IdOf(x, part) in Ids(ranked, part)
  {
    var n := |ranked| - 1;
    if x != ranked[n] {
      IdIsListed(ranked[..n], part, x);
    }
  }

  lemma CandidateIsParent(ranked: seq<Candidate>, x: Candidate)
    requires x in ranked
    ensures forall part | IdOf(x, part) != "" :: IdOf(x, part) in ParentsOf(ranked)
    ensures x.dealId != "" ==> x.dealId in ParentsOf(ranked)
  {
    hide Ids;
    forall part | IdOf(x, part) != ""
      ensures IdOf(x, part) in Ids(ranked, part)
    {
      IdIsListed(ranked, part, x);
    }
    assert IdOf(x, DealPart) == x.dealId;
  }

  /** A decision names as parents exactly the ids of the quotes, evaluations and risk assessments its ranked candidates
      were built from. */
  lemma {:induction false} ParentsAreExactly(award: Payload, id: string)
    requires award.Award?
    ensures id in DecisionParents(award)
       <==> id != "" && exists x :: x in award.ranked && (x.dealId == id || x.scoreId == id || x.riskId == id)
  {
    hide Ids;
    if id in DecisionParents(award) {
      var x := ParentIsCandidates(award.ranked, id);
    }
    if x :| x in award.ranked && id != "" && (x.dealId == id || x.scoreId == id || x.riskId == id) {
      CandidateIsParent(award.ranked, x);
      assert IdOf(x, DealPart) == x.dealId && IdOf(x, ScorePart) == x.scoreId && IdOf(x, RiskPart) == x.riskId;
    }
  }

  // ---- what an award promises

  /** A candidate built from one quote, one evaluation and at most one risk assessment that were read, all of this
      supplier under this correlation id. */
  ghost predicate BuiltFrom(c: Config, r: Reads, corr: string, x: Candidate) {
    exists deal, score, risk: Option<Trace> ::
      && deal in r.deals && score in r.scores && (risk.Some? ==> risk.value in r.risks)
      && QuoteFor(corr, x.supplier)(deal) && ScoreFor(corr, x.supplier)(score)
      && (risk.Some? ==> RiskFor(corr, x.supplier)(risk.value))
      && x == MakeCandidate(c, deal, score, risk)
  }

  lemma {:induction false} CandidateBuilt(c: Config, r: Reads, corr: string, supplier: string)
    ensures CandidateOf(c, r, corr, supplier).Some? ==>
              var x := CandidateOf(c, r, corr, supplier).value;
              x.supplier == supplier && BuiltFrom(c, r, corr, x)
    ensures CandidateOf(c, r, corr, supplier).Some? <==>
              (exists t :: t in r.deals && QuoteFor(corr, supplier)(t)) &&
              (exists t :: t in r.scores && ScoreFor(corr, supplier)(t))
  {
    LastMeans(r.deals, QuoteFor(corr, supplier));
    LastMeans(r.scores, ScoreFor(corr, supplier));
    LastMeans(r.risks, RiskFor(corr, supplier));
  }

  lemma {:induction false} PoolMembers(c: Config, r: Reads, corr: string, suppliers: seq<string>, x: Candidate)
    ensures x in PoolOf(c, r, corr, suppliers) <==> exists s :: s in suppliers && CandidateOf(c, r, corr, s) == Some(x)
  {
    hide CandidateOf;
    if suppliers != [] {
      PoolMembers(c, r, corr, suppliers[..|suppliers| - 1], x);
      assert suppliers == suppliers[..|suppliers| - 1] + [suppliers[|suppliers| - 1]];
      assert suppliers[|suppliers| - 1] in suppliers;
    }
  }

  /** The pool holds one candidate for each supplier with a quote and an evaluation read under the id. */
  lemma {:induction false} PoolMeans(c: Config, r: Reads, corr: string, x: Candidate)
    requires corr != ""
    ensures x in Pool(c, r, corr) ==> BuiltFrom(c, r, corr, x) && x.supplier != ""
    ensures x in Pool(c, r, corr) <==> x.supplier != "" && CandidateOf(c, r, corr, x.supplier) == Some(x)
  {
    hide CandidateOf, BuiltFrom;
    var suppliers := Suppliers(r.deals, corr);
    PoolMembers(c, r, corr, suppliers, x);
    SuppliersMeans(r.deals, corr);
    forall s
      ensures CandidateOf(c, r, corr, s) == Some(x) ==> x.supplier == s && BuiltFrom(c, r, corr, x)
    {
      CandidateBuilt(c, r, corr, s);
    }
    if CandidateOf(c, r, corr, x.supplier) == Some(x) {
      CandidateBuilt(c, r, corr, x.supplier);
      assert exists t :: t in r.deals && QuoteFor(corr, x.supplier)(t);
    }
  }

  lemma {:induction false} PoolOfDistinct(c: Config, r: Reads, corr: string, suppliers: seq<string>)
    requires forall i, j | 0 <= i < j < |suppliers| :: suppliers[i] != suppliers[j]
    ensures DistinctIds(PoolOf(c, r, corr, suppliers))
    ensures forall x | x in PoolOf(c, r, corr, suppliers) :: x.supplier in suppliers
  {
    hide CandidateOf;
    if suppliers != [] {
      var n := |suppliers| - 1;
      PoolOfDistinct(c, r, corr, suppliers[..n]);
      CandidateBuilt(c, r, corr, suppliers[n]);
      assert suppliers == suppliers[..n] + [suppliers[n]];
      var front := PoolOf(c, r, corr, suppliers[..n]);
      forall k | 0 <= k < |front|
        ensures front[k].supplier != suppliers[n]
      {
        assert front[k] in front;
      }
    }
  }

  lemma {:induction false} FilterDistinct(p: Candidate -> bool, cs: seq<Candidate>)
    requires DistinctIds(cs)
    ensures DistinctIds(Filter(p, cs))
  {
    if cs != [] {
      FilterDistinct(p, cs[1..]);
      var rest := Filter(p, cs[1..]);
      forall k | 0 <= k < |rest|
        ensures rest[k].supplier != cs[0].supplier
      {
        FilterMember(p, cs[1..], rest[k]);
      }
    }
  }

  /** The winner is chosen among candidates with distinct ids. */
  lemma {:induction false} ChoosesAmongDistinct(c: Config, r: Reads, corr: string)
    ensures DistinctIds(Filter(IsValid(c), Pool(c, r, corr)))
  {
    hide Filter, PoolOf;
    SuppliersMeans(r.deals, corr);
    PoolOfDistinct(c, r, corr, Suppliers(r.deals, corr));
    FilterDistinct(IsValid(c), Pool(c, r, corr));
  }

  /** What holds of an award over its ranked candidates: the winner passes the policy and no candidate that passes
      has a higher composite. */
  ghost predicate AwardHolds(c: Config, award: Payload)
    requires award.Award?
  {
    && (exists w :: w in award.ranked && Passes(c.policy, w.risk) && w.supplier == award.selected
                 && w.composite == award.composite)
    && (forall x | x in award.ranked && Passes(c.policy, x.risk) :: x.composite <= award.composite)
  }

  lemma {:induction false} DecideMeans(c: Config, pool: seq<Candidate>)
    ensures match Decide(c, pool)
            case Award(_, _, ranked) => (forall x :: x in ranked <==> x in pool) && AwardHolds(c, Decide(c, pool))
            case NoAward(action) =>
              if action == "insufficient_candidates" then pool == []
              else action == "policy_rejection" && pool != [] && forall x | x in pool :: !Passes(c.policy, x.risk)
            case _ => false
  {
    hide Sort;
    SortMembers(ByScore(), pool);
    var valid := Filter(IsValid(c), pool);
    forall x
      ensures x in valid <==> x in pool && Passes(c.policy, x.risk)
    {
      FilterMember(IsValid(c), pool, x);
    }
    if valid != [] {
      var k := WinnerMeans(valid);
      assert valid[k] in valid;
    }
  }

  /** What an award lists is the whole pool, each candidate as often as it is there, by composite and then by the whole
      supplier id; so the first listed may be another than the one awarded. */
  lemma {:induction false} RankedInOrder(c: Config, pool: seq<Candidate>)
    requires Decide(c, pool).Award?
    ensures var ranked := Decide(c, pool).ranked;
            && multiset(ranked) == multiset(pool)
            && forall i, j | 0 <= i < j < |ranked| ::
                 || ranked[i].composite > ranked[j].composite
                 || (ranked[i].composite == ranked[j].composite && T.StringLe(ranked[i].supplier, ranked[j].supplier))
  {
    hide Sort, Filter, Winner;
    ByScoreTotal();
    SortSorts(ByScore(), pool);
    SortPermutes(ByScore(), pool);
  }

  lemma ByScoreTotal()
    ensures TotalPreorder(ByScore())
  {
    forall a: Candidate, b: Candidate
      ensures T.StringLe(a.supplier, b.supplier) || T.StringLe(b.supplier, a.supplier)
    {
      T.StringLeTotal(a.supplier, b.supplier);
    }
    forall a: Candidate, b: Candidate, d: Candidate
      | T.StringLe(a.supplier, b.supplier) && T.StringLe(b.supplier, d.supplier)
      ensures T.StringLe(a.supplier, d.supplier)
    {
      T.StringLeTransitive(a.supplier, b.supplier, d.supplier);
    }
  }

  predicate OnePerCorr(ps: seq<Proposal>) {
    forall i, j | 0 <= i < j < |ps| :: ps[i].corr != ps[j].corr
  }

  lemma {:induction false} ProposalsMean(c: Config, r: Reads, corrs: seq<string>, processed: set<string>)
    ensures forall p | p in Proposals(c, r, corrs, processed) ::
              p.corr in corrs && p.corr !in processed && p.decision == Decide(c, Pool(c, r, p.corr))
    ensures forall corr | corr in corrs && corr !in processed ::
              Proposal(corr, Decide(c, Pool(c, r, corr))) in Proposals(c, r, corrs, processed)
    ensures (forall i, j | 0 <= i < j < |corrs| :: corrs[i] != corrs[j])
            ==> OnePerCorr(Proposals(c, r, corrs, processed))
  {
    hide Decide, Pool;
    if corrs != [] {
      var n := |corrs| - 1;
      var front := Proposals(c, r, corrs[..n], processed);
      ProposalsMean(c, r, corrs[..n], processed);
      assert corrs == corrs[..n] + [corrs[n]];
      if forall i, j | 0 <= i < j < |corrs| :: corrs[i] != corrs[j] {
        assert OnePerCorr(front);
        forall k | 0 <= k < |front|
          ensures front[k].corr != corrs[n]
        {
          assert front[k] in front;
        }
      }
    }
  }

  /** Reasoning proposes at most one decision for each correlation id quoted for and not yet awarded; an award names
      a supplier that passes the policy with the highest composite of all that do; no award is made exactly when
      none passes. */
  lemma {:induction false} ReasonMeans(c: Config, r: Reads, processed: set<string>)
    ensures var ps := Reason(c, r, processed);
            && OnePerCorr(ps)
            && (forall p | p in ps ::
                  && p.corr != "" && p.corr !in processed && (p.decision.Award? || p.decision.NoAward?)
                  && (p.decision.Award? <==> exists x :: x in Pool(c, r, p.corr) && Passes(c.policy, x.risk))
                  && (p.decision.Award? ==>
                        && AwardHolds(c, p.decision)
                        && forall x :: x in p.decision.ranked <==> x in Pool(c, r, p.corr)))
            && (forall t | t in r.deals && IsQuote(t) && t.corr !in processed ::
                  exists p :: p in ps && p.corr == t.corr)
  {
    hide Proposals, Decide, Pool, AwardHolds, OnePerCorr;
    CorrsMeans(r.deals);
    ProposalsMean(c, r, Corrs(r.deals), processed);
    var ps := Reason(c, r, processed);
    forall p | p in ps
      ensures p.corr != "" && p.corr !in processed && (p.decision.Award? || p.decision.NoAward?)
      ensures p.decision.Award? <==> exists x :: x in Pool(c, r, p.corr) && Passes(c.policy, x.risk)
      ensures p.decision.Award? ==>
                AwardHolds(c, p.decision) && forall x :: x in p.decision.ranked <==> x in Pool(c, r, p.corr)
    {
      DecideMeans(c, Pool(c, r, p.corr));
      AwardHasWinner(c, p.decision);
    }
    forall t | t in r.deals && IsQuote(t) && t.corr !in processed
      ensures exists p :: p in ps && p.corr == t.corr
    {
      assert t.corr in Corrs(r.deals);
      assert Proposal(t.corr, Decide(c, Pool(c, r, t.corr))) in ps;
    }
  }

  lemma {:induction false} ReasonDecides(c: Config, r: Reads, processed: set<string>)
    ensures forall p | p in Reason(c, r, processed) :: p.decision == Decide(c, Pool(c, r, p.corr))
  {
    hide Decide, Pool, Proposals;
    ProposalsMean(c, r, Corrs(r.deals), processed);
  }

  lemma AwardHasWinner(c: Config, d: Payload)
    ensures d.Award? && AwardHolds(c, d) ==> exists x :: x in d.ranked && Passes(c.policy, x.risk)
  {
  }

  // ---- risk and the award

  /** Two candidates that only the risk tells apart: same quantity, prices of one sign, same sub-scores. */
  predicate AlikeButRisk(x: Candidate, y: Candidate) {
    && x.deal.quantity == y.deal.quantity && x.score == y.score
    && (x.deal.price > 0.0 <==> y.deal.price > 0.0) && (x.deal.price < 0.0 <==> y.deal.price < 0.0)
  }

  function Exact(c: Config): Config { c.(round := Same) }

  function Same(x: real): real { x }

  /** The composite a candidate has, unrounded and before its risk is taken off. */
  function Riskless(c: Config, x: Candidate): real { Composite(Exact(c), x.deal, x.score, None) }

  function Discounted(score: real, risk: real): real { score * (1.0 - 0.3 * risk) }

  lemma DiscountOrder(score: real, low: real, high: real)
    requires low <= high
    ensures score >= 0.0 ==> Discounted(score, high) <= Discounted(score, low)
    ensures low < high ==> (Discounted(score, high) < Discounted(score, low) <==> score > 0.0)
  {
    var gap := 0.3 * (high - low);
    assert Discounted(score, low) - Discounted(score, high) == score * gap;
    if score > 0.0 && gap > 0.0 {
      assert score * gap > 0.0;
    } else if score <= 0.0 {
      assert score * gap <= 0.0;
    }
  }

  lemma {:induction false} PooledComposite(c: Config, r: Reads, corr: string, x: Candidate)
    requires corr != "" && x in Pool(c, r, corr) && x.risk.Some?
    ensures x.composite == c.round(Discounted(Riskless(c, x), x.risk.value.overall))
  {
    hide Pool, CandidateOf, BuiltFrom, Composite, Discounted;
    PoolMeans(c, r, corr, x);
    BuiltComposite(c, r, corr, x);
    RoundedLast(c, x.deal, x.score, x.risk.value);
  }

  lemma BuiltComposite(c: Config, r: Reads, corr: string, x: Candidate)
    requires BuiltFrom(c, r, corr, x)
    ensures x.composite == Composite(c, x.deal, x.score, x.risk)
  {
    hide Composite;
  }

  lemma RoundedLast(c: Config, d: DealData, s: ScoreData, r: RiskData)
    ensures Composite(c, d, s, Some(r)) == c.round(Discounted(Composite(Exact(c), d, s, None), r.overall))
  {
    DiscountedIs(Weighted(d, s), r);
    hide Weighted, Discounted, Adjusted;
    assert Composite(Exact(c), d, s, None) == Same(Adjusted(Weighted(d, s), None));
  }

  lemma DiscountedIs(score: real, r: RiskData)
    ensures Adjusted(score, Some(r)) == Discounted(score, r.overall) && Adjusted(score, None) == score
  {
  }

  /** Of two candidates of one pool that only the risk tells apart, the riskier has no higher composite under any
      rounding that keeps order, if the scores before the risk are not negative; and with exact scores it has the lower
      one exactly when they are positive. */
  lemma {:induction false} RiskierNeverOutscores(c: Config, r: Reads, corr: string, x: Candidate, y: Candidate)
    requires corr != "" && x in Pool(c, r, corr) && y in Pool(c, r, corr) && AlikeButRisk(x, y)
    requires x.risk.Some? && y.risk.Some? && x.risk.value.overall <= y.risk.value.overall
    ensures KeepsOrder(c) && Riskless(c, x) >= 0.0 ==> y.composite <= x.composite
    ensures KeepsScores(c) && x.risk.value.overall < y.risk.value.overall ==>
              (y.composite < x.composite <==> Riskless(c, x) > 0.0)
  {
    hide Pool, Composite, Discounted, KeepsOrder, KeepsScores;
    PooledComposite(c, r, corr, x);
    PooledComposite(c, r, corr, y);
    CompositeIgnoresPrice(Exact(c), x.deal.quantity, x.deal.price, y.deal.price, x.score, None);
    DiscountOrder(Riskless(c, x), x.risk.value.overall, y.risk.value.overall);
    RoundedOrder(c, Discounted(Riskless(c, x), y.risk.value.overall),
                 Discounted(Riskless(c, x), x.risk.value.overall));
  }

  lemma RoundedOrder(c: Config, a: real, b: real)
    ensures KeepsOrder(c) && a <= b ==> c.round(a) <= c.round(b)
    ensures KeepsScores(c) ==> c.round(a) == a && c.round(b) == b
  {
  }

  /** So, with exact positive scores, no award goes to the riskier of two such suppliers when the other passes the
      policy. */
  lemma {:induction false} RiskierIsNotAwarded(c: Config, r: Reads, processed: set<string>, p: Proposal, x: Candidate,
                                               y: Candidate)
    requires p in Reason(c, r, processed) && p.decision.Award? && KeepsScores(c)
    requires x in Pool(c, r, p.corr) && y in Pool(c, r, p.corr) && AlikeButRisk(x, y) && Riskless(c, x) > 0.0
    requires Passes(c.policy, x.risk) && y.risk.Some? && x.risk.value.overall < y.risk.value.overall
    ensures p.decision.selected != y.supplier
  {
    hide Pool, Composite, Reason, Riskless, KeepsScores, CandidateOf;
    ReasonMeans(c, r, processed);
    RiskierNeverOutscores(c, r, p.corr, x, y);
    PoolMeans(c, r, p.corr, y);
    var w :| w in p.decision.ranked && w.supplier == p.decision.selected && w.composite == p.decision.composite;
    PoolMeans(c, r, p.corr, w);
  }

  // ---- the reasoning step itself

  type Index = map<(string, string), Trace>

  function Lookup(m: Index, corr: string, supplier: string): Option<Trace> {
    if (corr, supplier) in m then Some(m[(corr, supplier)]) else None
  }

  ghost predicate DealsIndexed(deals: seq<Trace>, corrs: seq<string>, suppliers: map<string, seq<string>>,
                               quotes: Index)
  {
    && corrs == Corrs(deals)
    && (forall c :: c in suppliers <==> c in corrs)
    && (forall c | c in suppliers :: suppliers[c] == Suppliers(deals, c))
    && (forall c, s :: Lookup(quotes, c, s) == Last(deals, QuoteFor(c, s)))
  }

  lemma {:induction false} NoSuppliersYet(deals: seq<Trace>, corr: string)
    requires corr !in Corrs(deals)
    ensures Suppliers(deals, corr) == []
  {
    if deals != [] {
      NoSuppliersYet(deals[..|deals| - 1], corr);
    }
  }

  lemma {:induction false} OneMoreDeal(deals: seq<Trace>, t: Trace, corrs: seq<string>,
                                       suppliers: map<string, seq<string>>, quotes: Index)
    requires DealsIndexed(deals, corrs, suppliers, quotes)
    ensures !IsQuote(t) ==> DealsIndexed(deals + [t], corrs, suppliers, quotes)
    ensures IsQuote(t) ==>
              var old_ := if t.corr in suppliers then suppliers[t.corr] else [];
              DealsIndexed(deals + [t], if t.corr in corrs then corrs else corrs + [t.corr],
                           suppliers[t.corr :=
                             if t.payload.supplier in old_ then old_ else old_ + [t.payload.supplier]],
                           quotes[(t.corr, t.payload.supplier) := t])
  {
    assert (deals + [t])[..|deals|] == deals;
    NoSuppliersYetFor(deals, t.corr);
  }

  lemma NoSuppliersYetFor(deals: seq<Trace>, corr: string)
    ensures corr !in Corrs(deals) ==> Suppliers(deals, corr) == []
  {
    if corr !in Corrs(deals) {
      NoSuppliersYet(deals, corr);
    }
  }

  method IndexDeals(deals: seq<Trace>) returns (corrs: seq<string>, suppliers: map<string, seq<string>>, quotes: Index)
    ensures DealsIndexed(deals, corrs, suppliers, quotes)
  {
    corrs, suppliers, quotes := [], map[], map[];
    for k := 0 to |deals|
      invariant DealsIndexed(deals[..k], corrs, suppliers, quotes)
    {
      var t := deals[k];
      OneMoreDeal(deals[..k], t, corrs, suppliers, quotes);
      assert deals[..k + 1] == deals[..k] + [t];
      if IsQuote(t) {
        var known := if t.corr in suppliers then suppliers[t.corr] else [];
        if t.corr !in corrs { corrs := corrs + [t.corr]; }
        if t.payload.supplier !in known { known := known + [t.payload.supplier]; }
        suppliers := suppliers[t.corr := known];
        quotes := quotes[(t.corr, t.payload.supplier) := t];
      }
    }
    assert deals[..|deals|] == deals;
  }

  ghost predicate Indexed(ts: seq<Trace>, hits: (string, string) -> Trace -> bool, corrs: seq<string>, m: Index) {
    forall c, s | c in corrs && s != "" :: Lookup(m, c, s) == Last(ts, hits(c, s))
  }

  method IndexRisks(risks: seq<Trace>, corrs: seq<string>) returns (m: Index)
    ensures Indexed(risks, RiskFor, corrs, m)
  {
    m := map[];
    for k := 0 to |risks|
      invariant Indexed(risks[..k], RiskFor, corrs, m)
    {
      var t := risks[k];
      assert risks[..k + 1][..k] == risks[..k];
      if t.payload.RiskAssessment? && t.corr in corrs && t.payload.supplier != "" {
        m := m[(t.corr, t.payload.supplier) := t];
      }
    }
    assert risks[..|risks|] == risks;
  }

  method IndexScores(scores: seq<Trace>, corrs: seq<string>) returns (m: Index)
    ensures Indexed(scores, ScoreFor, corrs, m)
  {
    m := map[];
    for k := 0 to |scores|
      invariant Indexed(scores[..k], ScoreFor, corrs, m)
    {
      var t := scores[k];
      assert scores[..k + 1][..k] == scores[..k];
      if t.payload.Evaluation? && t.corr in corrs && t.payload.supplier != "" {
        m := m[(t.corr, t.payload.supplier) := t];
      }
    }
    assert scores[..|scores|] == scores;
  }

  method ChooseWinner(valid: seq<Candidate>) returns (w: Candidate)
    requires valid != []
    ensures w == Winner(valid)
  {
    w := valid[0];
    for k := 1 to |valid|
      invariant w == Winner(valid[..k])
    {
      assert valid[..k + 1][..k] == valid[..k];
      if KeyLess(w, valid[k]) { w := valid[k]; }
    }
    assert valid[..|valid|] == valid;
  }

  lemma ProposalsStep(c: Config, r: Reads, corrs: seq<string>, k: nat, processed: set<string>)
    requires k < |corrs|
    ensures Proposals(c, r, corrs[..k + 1], processed) == Proposals(c, r, corrs[..k], processed)
            + if corrs[k] in processed then [] else [Proposal(corrs[k], Decide(c, Pool(c, r, corrs[k])))]
  {
    assert corrs[..k + 1][..k] == corrs[..k];
  }

  lemma IndexedFor(r: Reads, corrs: seq<string>, suppliers: map<string, seq<string>>, quotes: Index, scores: Index,
                   risks: Index, corr: string)
    requires DealsIndexed(r.deals, corrs, suppliers, quotes) && corr in corrs
    requires Indexed(r.risks, RiskFor, corrs, risks) && Indexed(r.scores, ScoreFor, corrs, scores)
    ensures corr != "" && corr in suppliers && suppliers[corr] == Suppliers(r.deals, corr)
    ensures forall s | s in suppliers[corr] :: s != ""
                                            && Lookup(quotes, corr, s) == Last(r.deals, QuoteFor(corr, s))
                                            && Lookup(scores, corr, s) == Last(r.scores, ScoreFor(corr, s))
                                            && Lookup(risks, corr, s) == Last(r.risks, RiskFor(corr, s))
  {
    hide Last;
    CorrsMeans(r.deals);
    SuppliersMeans(r.deals, corr);
  }

  /** The singleton buyer: which correlation ids it has decided. */
  class BuyerActor {
    const config: Config
    var processed: set<string>

    constructor (config: Config)
      ensures this.config == config && processed == {}
    {
      this.config := config;
      processed := {};
    }

    method BuildPool(r: Reads, corr: string, suppliers: seq<string>, quotes: Index, scores: Index, risks: Index)
      returns (pool: seq<Candidate>)
      requires corr != "" && forall s | s in suppliers :: s != ""
      requires forall s | s in suppliers :: Lookup(quotes, corr, s) == Last(r.deals, QuoteFor(corr, s))
                                         && Lookup(scores, corr, s) == Last(r.scores, ScoreFor(corr, s))
                                         && Lookup(risks, corr, s) == Last(r.risks, RiskFor(corr, s))
      ensures pool == PoolOf(config, r, corr, suppliers)
    {
      hide Composite;
      pool := [];
      for k := 0 to |suppliers|
        invariant pool == PoolOf(config, r, corr, suppliers[..k])
      {
        var s := suppliers[k];
        assert suppliers[..k + 1][..k] == suppliers[..k];
        LastMeans(r.deals, QuoteFor(corr, s));
        LastMeans(r.scores, ScoreFor(corr, s));
        LastMeans(r.risks, RiskFor(corr, s));
        var deal, score := Lookup(quotes, corr, s), Lookup(scores, corr, s);
        if score.Some? && deal.Some? {
          pool := pool + [MakeCandidate(config, deal.value, score.value, Lookup(risks, corr, s))];
        }
      }
      assert suppliers[..|suppliers|] == suppliers;
    }

    method PassesPolicyFilter(risk: Option<RiskData>) returns (passes: bool)
      ensures passes == Passes(config.policy, risk)
    {
      if risk.None? { return false; }
      if risk.value.level == "CRITICAL" { return false; }
      if risk.value.overall > config.policy.maxRisk { return false; }
      passes := !(risk.value.amount > config.policy.maxAmount);
    }

    method ValidOnes(pool: seq<Candidate>) returns (valid: seq<Candidate>)
      ensures valid == Filter(IsValid(config), pool)
    {
      hide Passes, Filter;
      valid := [];
      assert pool[0..] == pool;
      for k := 0 to |pool|
        invariant valid + Filter(IsValid(config), pool[k..]) == Filter(IsValid(config), pool)
      {
        FilterStep(IsValid(config), pool, k);
        var passes := PassesPolicyFilter(pool[k].risk);
        if passes { valid := valid + [pool[k]]; }
      }
      FilterNothing(IsValid(config), pool);
    }

    method DecideOn(pool: seq<Candidate>) returns (decision: Payload)
      ensures decision == Decide(config, pool)
    {
      hide Sort, Passes, Filter, Winner;
      if pool == [] { return NoAward("insufficient_candidates"); }
      var valid := ValidOnes(pool);
      if valid == [] { return NoAward("policy_rejection"); }
      var w := ChooseWinner(valid);
      decision := Award(w.supplier, w.composite, Sort(ByScore(), pool));
    }

    method Deliberate(r: Reads) returns (ps: seq<Proposal>)
      modifies this`processed
      ensures ps == Reason(config, r, old(processed))
      ensures processed == old(processed) + Awarded(ps)
    {
      hide Decide, PoolOf, Last, IsQuote, DealsIndexed, Indexed, Proposals, Awarded, Corrs, Suppliers;
      var corrs, suppliers, quotes := IndexDeals(r.deals);
      var risks := IndexRisks(r.risks, corrs);
      var scores := IndexScores(r.scores, corrs);
      CorrsAre(r.deals, corrs, suppliers, quotes);
      ps := [];
      NoProposals(config, r, processed);
      assert corrs[..0] == [];
      for k := 0 to |corrs|
        invariant ps == Proposals(config, r, corrs[..k], old(processed))
        invariant processed == old(processed) + Awarded(ps)
      {
        var corr := corrs[k];
        ProposalsStep(config, r, corrs, k, old(processed));
        NotAwardedBefore(config, r, corrs, k, old(processed));
        if corr in processed { continue; }
        IndexedFor(r, corrs, suppliers, quotes, scores, risks, corr);
        var pool := BuildPool(r, corr, suppliers[corr], quotes, scores, risks);
        var decision := DecideOn(pool);
        ghost var before := ps;
        ps := ps + [Proposal(corr, decision)];
        if decision.Award? { processed := processed + {corr}; }
        AwardedOneMore(before, Proposal(corr, decision));
      }
      assert corrs[..|corrs|] == corrs;
    }
  }

  lemma AwardedOneMore(ps: seq<Proposal>, p: Proposal)
    ensures Awarded(ps + [p]) == Awarded(ps) + if p.decision.Award? then {p.corr} else {}
  {
    forall c
      ensures c in Awarded(ps + [p]) <==> c in Awarded(ps) || (p.decision.Award? && c == p.corr)
    {
      if c in Awarded(ps) {
        var q :| q in ps && q.decision.Award? && q.corr == c;
        assert q in ps + [p];
      }
      if p.decision.Award? && c == p.corr {
        assert p in ps + [p];
      }
    }
  }

  lemma NoProposals(c: Config, r: Reads, processed: set<string>)
    ensures Proposals(c, r, [], processed) == [] && Awarded([]) == {}
  {
  }

  lemma CorrsAre(deals: seq<Trace>, corrs: seq<string>, suppliers: map<string, seq<string>>, quotes: Index)
    requires DealsIndexed(deals, corrs, suppliers, quotes)
    ensures corrs == Corrs(deals) && forall i, j | 0 <= i < j < |corrs| :: corrs[i] != corrs[j]
  {
    CorrsMeans(deals);
  }

  // An id comes up once, so it cannot have been awarded earlier in the same pass.
  lemma NotAwardedBefore(c: Config, r: Reads, corrs: seq<string>, k: nat, processed: set<string>)
    requires k < |corrs| && forall i, j | 0 <= i < j < |corrs| :: corrs[i] != corrs[j]
    ensures corrs[k] !in Awarded(Proposals(c, r, corrs[..k], processed))
  {
    hide Decide, Pool;
    ProposalsMean(c, r, corrs[..k], processed);
  }
}
