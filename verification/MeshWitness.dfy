/** One procurement through the whole mesh (mesh/actors), under any policy: a requirement, one supplier listed and
    discovered, evaluated, its risk at the policy's own limits, a quote, and the buyer's award. Written, the award is on
    the board; interrupted, it is lost. */
module MeshWitness {
  import opened Basics
  import opened Blackboard
  import opened Mesh
  import opened MeshSafety
  import opened MeshFaults
  import B = MeshBuyer

  // ---- the board it leaves

  const SCORES := ScoreData(0.5, 0.5, 0.5)
  const TERMS := DealData(10.0, 1.0)

  function Risks(c: B.Config): RiskData { RiskData("LOW", c.policy.maxRisk, c.policy.maxAmount) }

  function Req(): Trace { Trace("r", "kernel", NewRequirement, [], "c") }
  function List(): Trace { Trace("l", "scout", SupplierList(["a"]), ["r"], "c") }
  function Disc(): Trace { Trace("d", "scout", SupplierDiscovered("a", "l"), ["l"], "c") }
  function Eval(): Trace { Trace("e", "evaluator", Evaluation("a", SCORES), ["d"], "c") }
  function Risky(c: B.Config): Trace { Trace("k", "evaluator", RiskAssessment("a", Risks(c)), ["e"], "c") }
  function Offer(): Trace { Trace("q", "negotiator", Quote("a", TERMS), ["e", "l"], "c") }

  function Board(c: B.Config): (log: Log)
    ensures |log| == 6
  {
    [Entry(Requirement, Req()), Entry(Discovery, List()), Entry(Discovery, Disc()), Entry(Score, Eval()),
     Entry(Risk, Risky(c)), Entry(Deal, Offer())]
  }

  // What a channel shows of the first n entries, oldest first.
  function Shown(c: B.Config, n: nat, ch: Channel): seq<Trace>
    requires n <= 6
  {
    if n == 0 then []
    else Shown(c, n - 1, ch) + if Board(c)[n - 1].channel == ch then [Board(c)[n - 1].trace] else []
  }

  lemma {:induction false} ContentShown(c: B.Config, n: nat, ch: Channel)
    requires n <= 6
    ensures Content(Board(c)[..n], ch) == Shown(c, n, ch)
  {
    hide Content;
    if n == 0 {
      EmptyContent(ch);
      assert Board(c)[..0] == [];
    } else {
      ContentShown(c, n - 1, ch);
      ContentOne(Board(c)[..n - 1], Board(c)[n - 1], ch);
      assert Board(c)[..n] == Board(c)[..n - 1] + [Board(c)[n - 1]];
    }
  }

  lemma ShownOneMore(c: B.Config, n: nat, ch: Channel)
    requires n < 6
    ensures Shown(c, n + 1, ch) == if Board(c)[n].channel == ch then Shown(c, n, ch) + [Board(c)[n].trace]
                                   else Shown(c, n, ch)
  {
  }

  lemma ShownThree(c: B.Config, ch: Channel)
    ensures Shown(c, 1, ch) == if ch == Requirement then [Req()] else []
    ensures Shown(c, 3, ch) == if ch == Requirement then [Req()] else if ch == Discovery then [List(), Disc()] else []
  {
    ShownNone(c, ch);
    hide Shown;
    ShownOneMore(c, 0, ch);
    ShownOneMore(c, 1, ch);
    ShownOneMore(c, 2, ch);
  }

  lemma ShownNone(c: B.Config, ch: Channel)
    ensures Shown(c, 0, ch) == []
  {
  }

  lemma ShownSix(c: B.Config, ch: Channel)
    ensures Shown(c, 5, ch) == match ch
                               case Requirement => [Req()]
                               case Discovery => [List(), Disc()]
                               case Score => [Eval()]
                               case Risk => [Risky(c)]
                               case _ => []
    ensures Shown(c, 6, ch) == if ch == Deal then [Offer()] else Shown(c, 5, ch)
  {
    hide Shown;
    ShownThree(c, ch);
    ShownOneMore(c, 3, ch);
    ShownOneMore(c, 4, ch);
    ShownOneMore(c, 5, ch);
  }

  lemma ReadOne(c: B.Config, log: Log, n: nat, ch: Channel, limit: int, t: Trace)
    requires n <= |log| && n <= 6 && log[..n] == Board(c)[..n] && limit >= 1 && Shown(c, n, ch) == [t]
    ensures ReadAt(log, n, ch, limit) == [t]
  {
    hide Content, Shown;
    ContentShown(c, n, ch);
  }

  lemma ReadBoth(c: B.Config, log: Log, n: nat, limit: int)
    requires n <= |log| && n <= 6 && log[..n] == Board(c)[..n] && limit >= 2
    requires Shown(c, n, Discovery) == [List(), Disc()]
    ensures ReadAt(log, n, Discovery, limit) == [Disc(), List()]
  {
    hide Content, Shown;
    ContentShown(c, n, Discovery);
  }

  lemma PoolNow(log: Log, n: nat)
    requires n == |log|
    ensures PoolRead(log, n) == ReadAt(log, n, Discovery, 20)
  {
  }

  // ---- what each actor plans

  function Names(): Trace -> seq<string> { (t: Trace) => ["a"] }
  function At(n: nat): Trace -> nat { (t: Trace) => n }
  function Assess(c: B.Config): Trace -> (ScoreData, RiskData) { (t: Trace) => (SCORES, Risks(c)) }
  function Bid(): Trace -> DealData { (t: Trace) => TERMS }

  function ToList(): Planned { Planned(Discovery, SupplierList(["a"]), "c", ["r"], false, true) }
  function ToDiscover(): Planned { Planned(Discovery, SupplierDiscovered("a", ""), "c", [], true, false) }
  function ToEvaluate(): Planned { Planned(Score, Evaluation("a", SCORES), "c", ["d"], false, true) }
  function ToAssess(c: B.Config): Planned { Planned(Risk, RiskAssessment("a", Risks(c)), "c", [], true, false) }
  function ToQuote(): Planned { Planned(Deal, Quote("a", TERMS), "c", ["e", "l"], false, false) }

  lemma ScoutPlans()
    ensures ScoutReasons([Req()], {}, Names()) == ([ToList(), ToDiscover()], {("c", "")})
  {
    assert [Req()][..0] == [];
    var r := ScoutReasons([Req()], {}, Names());
    assert ScoutReasons([], {}, Names()) == ([], {});
    assert ScoutWrites(Req(), ["a"]) == [ToList(), ToDiscover()];
    assert r.0 == [] + ScoutWrites(Req(), ["a"]) && r.1 == {} + {("c", "")};
    assert r.0 == [ToList(), ToDiscover()] && r.1 == {("c", "")};
  }

  lemma EvaluatorPlans(c: B.Config, pools: Trace -> seq<Trace>)
    requires pools(Disc()) == [Disc(), List()]
    ensures EvaluatorReasons([Disc(), List()], {}, pools, Assess(c)) == ([ToEvaluate(), ToAssess(c)], {("c", "a")})
  {
    var ds := [Disc(), List()];
    assert ds[..1] == [Disc()] && [Disc()][..0] == [];
    assert EvaluatorReasons([], {}, pools, Assess(c)) == ([], {});
    assert [Disc(), List()][1..] == [List()];
    assert FirstHit([List()], IsListNamed("l")) == Some(List());
    assert EvaluatorPool(Disc(), pools(Disc())) == Some(List());
    var r := EvaluatorReasons([Disc()], {}, pools, Assess(c));
    assert r.0 == [] + EvaluatorWrites(Disc(), (SCORES, Risks(c))) && r.1 == {} + {("c", "a")};
    assert r.0 == [ToEvaluate(), ToAssess(c)] && r.1 == {("c", "a")};
  }

  lemma NegotiatorPlans(pools: Trace -> seq<Trace>)
    requires pools(Eval()) == [Disc(), List()]
    ensures NegotiatorReasons([Eval()], {}, pools, Bid()) == ([ToQuote()], {("c", "a")})
  {
    assert [Eval()][..0] == [];
    assert NegotiatorReasons([], {}, pools, Bid()) == ([], {});
    assert [Disc(), List()][1..] == [List()];
    assert FirstHit([List()], IsListIn("c")) == Some(List());
    assert FirstHit(pools(Eval()), IsListIn("c")) == Some(List());
    var r := NegotiatorReasons([Eval()], {}, pools, Bid());
    assert r.0 == [] + NegotiatorWrites(Eval(), List(), TERMS) && r.1 == {} + {("c", "a")};
    assert r.0 == [ToQuote()] && r.1 == {("c", "a")};
  }

  function AllRead(c: B.Config): B.Reads { B.Reads([Offer()], [Risky(c)], [Eval()]) }

  // The buyer proposes one decision, and it is an award.
  lemma {:induction false} BuyerPlans(c: B.Config)
    ensures var ps := B.Reason(c, AllRead(c), {}); |ps| == 1 && ps[0].corr == "c" && ps[0].decision.Award?
  {
    hide B.Pool, B.Decide, B.AwardHolds, B.Composite;
    var r := AllRead(c);
    OneCorr();
    assert ["c"][..0] == [];
    assert B.Proposals(c, r, [], {}) == [];
    assert B.Reason(c, r, {}) == [B.Proposal("c", B.Decide(c, B.Pool(c, r, "c")))];
    SupplierPasses(c);
    B.ReasonMeans(c, r, {});
    assert B.Reason(c, r, {})[0] in B.Reason(c, r, {});
  }

  lemma OneCorr()
    ensures B.Corrs([Offer()]) == ["c"]
  {
    assert [Offer()][..0] == [];
    assert B.Corrs([]) == [];
  }

  lemma {:induction false} SupplierPasses(c: B.Config)
    ensures exists x :: x in B.Pool(c, AllRead(c), "c") && B.Passes(c.policy, x.risk)
  {
    hide B.Composite, B.Pool;
    var r := AllRead(c);
    assert B.Last([Offer()], B.QuoteFor("c", "a")) == Some(Offer());
    assert B.Last([Eval()], B.ScoreFor("c", "a")) == Some(Eval());
    assert B.Last([Risky(c)], B.RiskFor("c", "a")) == Some(Risky(c));
    var x := B.MakeCandidate(c, Offer(), Eval(), Some(Risky(c)));
    assert B.CandidateOf(c, r, "c", "a") == Some(x);
    B.PoolMeans(c, r, "c", x);
    assert B.Passes(c.policy, x.risk);
  }

  // ---- the run

  function ScoutAt(k: nat): Actor {
    if k <= 1 then Actor("scout", {}, [], None)
    else if k == 2 then Actor("scout", {("c", "")}, [ToList(), ToDiscover()], None)
    else if k == 3 then Actor("scout", {("c", "")}, [ToDiscover()], Some(List()))
    else Actor("scout", {("c", "")}, [], Some(List()))
  }

  function EvaluatorAt(c: B.Config, k: nat): Actor {
    if k <= 4 then Actor("evaluator", {}, [], None)
    else if k == 5 then Actor("evaluator", {("c", "a")}, [ToEvaluate(), ToAssess(c)], None)
    else if k == 6 then Actor("evaluator", {("c", "a")}, [ToAssess(c)], Some(Eval()))
    else Actor("evaluator", {("c", "a")}, [], Some(Eval()))
  }

  function NegotiatorAt(k: nat): Actor {
    if k <= 7 then Actor("negotiator", {}, [], None)
    else if k == 8 then Actor("negotiator", {("c", "a")}, [ToQuote()], None)
    else Actor("negotiator", {("c", "a")}, [], None)
  }

  // How many entries are on the board after k moves.
  function Written(k: nat): (n: nat)
    ensures n <= 6
  {
    if k == 0 then 0 else if k <= 2 then 1 else if k == 3 then 2 else if k <= 5 then 3 else if k == 6 then 4
    else if k <= 8 then 5 else 6
  }

  /** The state after k of the first nine moves; the buyer has not moved. */
  function StateAt(c: B.Config, k: nat): State {
    State(Board(c)[..Written(k)],
          [ScoutAt(k), EvaluatorAt(c, k), NegotiatorAt(k), Actor("buyer", {}, [], None)])
  }

  function MoveAt(c: B.Config, k: nat): Move {
    if k == 0 then Post("r", "c")
    else if k == 1 then Scouting(0, 1, Names(), true)
    else if k == 2 then Writing(0, "l")
    else if k == 3 then Writing(0, "d")
    else if k == 4 then Evaluating(1, 3, At(3), Assess(c), true)
    else if k == 5 then Writing(1, "e")
    else if k == 6 then Writing(1, "k")
    else if k == 7 then Negotiating(2, 5, At(5), Bid(), true)
    else Writing(2, "q")
  }

  ghost predicate Moves(c: B.Config, k: nat) {
    Enabled(StateAt(c, k), MoveAt(c, k)) && Next(c, StateAt(c, k), MoveAt(c, k)) == StateAt(c, k + 1)
  }

  lemma OneMoreWritten(c: B.Config, n: nat)
    requires n < 6
    ensures Board(c)[..n + 1] == Board(c)[..n] + [Board(c)[n]]
    ensures forall k | 0 <= k < n :: Board(c)[..n][k].trace.id != Board(c)[n].trace.id
  {
  }

  lemma Posted(c: B.Config)
    ensures Moves(c, 0)
  {
    OneMoreWritten(c, 0);
  }

  lemma Scouted(c: B.Config)
    ensures Moves(c, 1)
  {
    hide ScoutReasons, ReadAt;
    ShownThree(c, Requirement);
    ReadOne(c, Board(c)[..1], 1, Requirement, 10, Req());
    ScoutPlans();
    assert Next(c, StateAt(c, 1), MoveAt(c, 1)).actors == StateAt(c, 2).actors;
  }

  lemma Listing(c: B.Config)
    ensures Moves(c, 2) && Moves(c, 3)
  {
    OneMoreWritten(c, 1);
    OneMoreWritten(c, 2);
    assert [ToList(), ToDiscover()][1..] == [ToDiscover()] && [ToDiscover()][1..] == [];
    assert Next(c, StateAt(c, 2), MoveAt(c, 2)).actors == StateAt(c, 3).actors;
    assert Next(c, StateAt(c, 3), MoveAt(c, 3)).actors == StateAt(c, 4).actors;
  }

  lemma Evaluated(c: B.Config)
    ensures Moves(c, 4)
  {
    hide EvaluatorReasons, ReadAt;
    var log := Board(c)[..3];
    ShownThree(c, Discovery);
    ReadBoth(c, log, 3, 50);
    ReadBoth(c, log, 3, 20);
    var pools := Lookups(log, At(3));
    PoolNow(log, 3);
    assert At(3)(Disc()) == 3;
    assert pools(Disc()) == PoolRead(log, At(3)(Disc()));
    EvaluatorPlans(c, pools);
    assert Next(c, StateAt(c, 4), MoveAt(c, 4)).actors == StateAt(c, 5).actors;
  }

  lemma Scored(c: B.Config)
    ensures Moves(c, 5) && Moves(c, 6)
  {
    OneMoreWritten(c, 3);
    OneMoreWritten(c, 4);
    assert [ToEvaluate(), ToAssess(c)][1..] == [ToAssess(c)] && [ToAssess(c)][1..] == [];
    assert Next(c, StateAt(c, 5), MoveAt(c, 5)).actors == StateAt(c, 6).actors;
    assert Next(c, StateAt(c, 6), MoveAt(c, 6)).actors == StateAt(c, 7).actors;
  }

  lemma Negotiated(c: B.Config)
    ensures Moves(c, 7)
  {
    hide NegotiatorReasons, ReadAt;
    var log := Board(c)[..5];
    ShownSix(c, Discovery);
    ShownSix(c, Score);
    ReadOne(c, log, 5, Score, 50, Eval());
    ReadBoth(c, log, 5, 20);
    var pools := Lookups(log, At(5));
    PoolNow(log, 5);
    assert At(5)(Eval()) == 5;
    assert pools(Eval()) == PoolRead(log, At(5)(Eval()));
    NegotiatorPlans(pools);
    assert Next(c, StateAt(c, 7), MoveAt(c, 7)).actors == StateAt(c, 8).actors;
  }

  lemma Quoting(c: B.Config)
    ensures Moves(c, 8)
  {
    OneMoreWritten(c, 5);
    assert [ToQuote()][1..] == [];
    assert Next(c, StateAt(c, 8), MoveAt(c, 8)).actors == StateAt(c, 9).actors;
  }

  /** Nine moves bring a quote, an evaluation and a risk assessment of one supplier onto the board. */
  lemma {:induction false} RunToQuote(c: B.Config) returns (ss: seq<State>, ms: seq<Move>)
    ensures Run(c, ss, ms) && |ms| == 9 && |ss| == 10 && ss[9] == StateAt(c, 9)
    ensures forall who :: Singleton(ss[0], who)
  {
    hide Moves, Next, Enabled;
    ss, ms := seq(10, k requires 0 <= k < 10 => StateAt(c, k)), seq(9, k requires 0 <= k < 9 => MoveAt(c, k));
    Posted(c);
    Scouted(c);
    Listing(c);
    Evaluated(c);
    Scored(c);
    Negotiated(c);
    Quoting(c);
    forall k {:trigger ms[k]} | 0 <= k < |ms|
      ensures Enabled(ss[k], ms[k]) && ss[k + 1] == Next(c, ss[k], ms[k])
    {
      assert Moves(c, k);
      MovesMeans(c, k);
    }
  }

  lemma MovesMeans(c: B.Config, k: nat)
    requires Moves(c, k)
    ensures Enabled(StateAt(c, k), MoveAt(c, k)) && Next(c, StateAt(c, k), MoveAt(c, k)) == StateAt(c, k + 1)
  {
  }

  function Buy(): Move { Buying(3, 6, 6, 6, true) }

  lemma BuyerSees(c: B.Config)
    ensures BuyerReads(Board(c), 6, 6, 6) == AllRead(c)
  {
    hide ReadAt, Board, Shown;
    assert Board(c)[..6] == Board(c);
    ShownSix(c, Deal);
    ShownSix(c, Risk);
    ShownSix(c, Score);
    ReadOne(c, Board(c), 6, Deal, 100, Offer());
    ReadOne(c, Board(c), 6, Risk, 100, Risky(c));
    ReadOne(c, Board(c), 6, Score, 100, Eval());
  }

  lemma BuyerPlansAward(c: B.Config)
    ensures var plan := BuyerReasons(c, AllRead(c), {}).0;
            && |plan| == 1 && Plans(plan, 0, "buyer", ("c", ""))
            && plan[0].channel == Decision && !plan[0].chained
  {
    hide B.Reason, B.DecisionParents;
    assert Decided({}) == {};
    BuyerPlans(c);
  }

  lemma {:induction false} Bought(c: B.Config)
    ensures Enabled(StateAt(c, 9), Buy())
    ensures var t := Next(c, StateAt(c, 9), Buy());
            && t.log == Board(c) && |t.actors| == 4 && IsBuyer(t, 3)
            && |t.actors[3].plan| == 1 && Plans(t.actors[3].plan, 0, "buyer", ("c", ""))
            && t.actors[3].plan[0].channel == Decision && !t.actors[3].plan[0].chained
  {
    hide BuyerReads, BuyerReasons, Plans, Board;
    assert Board(c)[..6] == Board(c);
    BuyerSees(c);
    BuyerPlansAward(c);
  }

  /** The buyer decides on it, and an award is there to be written. */
  lemma {:induction false} RunToDecision(c: B.Config) returns (ss: seq<State>, ms: seq<Move>)
    ensures Run(c, ss, ms) && |ms| == 10 && |ss| == 11 && Singleton(ss[0], "buyer")
    ensures ss[10] == Next(c, StateAt(c, 9), Buy())
  {
    hide Run, Next, Enabled, StateAt;
    ss, ms := RunToQuote(c);
    Bought(c);
    RunOn(c, ss, ms, Buy());
    ss, ms := ss + [Next(c, ss[9], Buy())], ms + [Buy()];
  }

  /** An award is reachable, whatever the policy: one actor of each archetype, one supplier, eleven moves. */
  lemma {:induction false} AwardIsReachable(c: B.Config) returns (ss: seq<State>, ms: seq<Move>)
    ensures Run(c, ss, ms) && Singleton(ss[0], "buyer") && |ss| == |ms| + 1 && AwardOnBoard(ss[|ms|].log, "c")
  {
    hide Run, Next, Enabled, StateAt, OwnerOf, WorkKey;
    ss, ms := RunToDecision(c);
    Bought(c);
    var s, m := ss[10], Writing(3, "w");
    FreshAfter(c);
    CanWrite(s, 3, "w");
    WrittenOut(c, s, 3, "w", "buyer", ("c", ""));
    RunOn(c, ss, ms, m);
    var t := Next(c, s, m);
    ss, ms := ss + [t], ms + [m];
    assert DoneFor(t.log, "buyer", ("c", ""));
    AwardIsBuyersWork(t.log, "c");
  }

  lemma FreshAfter(c: B.Config)
    ensures Fresh(Board(c), "w")
  {
  }

  lemma CanWrite(s: State, a: nat, id: string)
    requires a < |s.actors| && s.actors[a].plan != [] && Fresh(s.log, id)
    ensures Enabled(s, Writing(a, id))
  {
  }

  /** And so is its loss: interrupted before that last write, the same run has marked the award as made and will never
      make it. */
  lemma {:induction false} AwardCanBeLost(c: B.Config) returns (ss: seq<State>, ms: seq<Move>)
    ensures Run(c, ss, ms) && Singleton(ss[0], "buyer") && |ms| == 11 && |ss| == 12
    ensures ms[10] == Raising(3) && Drops(c, ss[10], ms[10], 3, "c")
    ensures Lost(ss[11], 3, "c") && !AwardOnBoard(ss[11].log, "c")
  {
    hide Run, Next, Enabled, StateAt, Singleton, Lost, Drops, IsBuyer, Plans, AwardOnBoard, Awaiting;
    ss, ms := RunToDecision(c);
    Bought(c);
    var s, m := ss[10], Raising(3);
    RaisingDrops(c, s, 3, "c");
    RunOn(c, ss, ms, m);
    ss, ms := ss + [Next(c, s, m)], ms + [m];
    InterruptedAwardIsLost(c, ss, ms, 10, 3, "c", 11);
    IsLost(ss[11], 3, "c");
  }

  lemma RaisingDrops(c: B.Config, s: State, b: nat, corr: string)
    requires IsBuyer(s, b) && |s.actors[b].plan| == 1 && Plans(s.actors[b].plan, 0, "buyer", (corr, ""))
    ensures Enabled(s, Raising(b)) && Drops(c, s, Raising(b), b, corr)
  {
    hide Plans;
    assert Awaiting(s.actors[b].plan, corr);
  }

  lemma IsLost(s: State, b: nat, corr: string)
    requires IsBuyer(s, b) && corr in Decided(s.actors[b].done) && !Awaiting(s.actors[b].plan, corr)
    requires !AwardOnBoard(s.log, corr)
    ensures Lost(s, b, corr)
  {
    hide Awaiting, Decided, DoneFor, AwardOnBoard;
    AwardIsBuyersWork(s.log, corr);
  }
}
