/** What exceptions, refused proposals and restarts do to a run of the mesh (mesh/actors/base.py): which reports and
    awards they lose, and which work they repeat. */
module MeshFaults {
  import opened Basics
  import opened Blackboard
  import opened Mesh
  import opened MeshSafety
  import B = MeshBuyer

  // ---- what the failure path does

  /** Only scouts and evaluators can report a failure: the report goes to a channel that refuses everyone else, the
      buyer and the negotiators included, and it is silently dropped. */
  lemma {:induction false} FailureReportRefused(c: B.Config, s: State, a: nat, id: string)
    requires a < |s.actors| && s.actors[a].plan == [FailureWrite(s.actors[a].archetype)] && Fresh(s.log, id)
    ensures var t := Next(c, s, Writing(a, id));
            && t.actors[a].plan == []
            && (t.log != s.log <==> s.actors[a].archetype in {"scout", "evaluator"})
  {
  }

  /** An award under this correlation id is among the writes still to be made. */
  ghost predicate Awaiting(plan: seq<Planned>, corr: string) {
    exists k :: 0 <= k < |plan| && Plans(plan, k, "buyer", (corr, ""))
  }

  ghost predicate IsBuyer(s: State, b: nat) { b < |s.actors| && s.actors[b].archetype == "buyer" }

  /** Marked as awarded by the buyer, but neither on the board nor in its plan. */
  ghost predicate Lost(s: State, b: nat, corr: string) {
    && IsBuyer(s, b) && corr in Decided(s.actors[b].done)
    && !DoneFor(s.log, "buyer", (corr, "")) && !Awaiting(s.actors[b].plan, corr)
  }

  /** The two ways to drop a decided award: the buyer raises while it is still to be written, or the kernel refuses the
      step that decided it. */
  ghost predicate Drops(c: B.Config, s: State, m: Move, b: nat, corr: string) {
    && Enabled(s, m) && IsBuyer(s, b)
    && match m
       case Raising(a) => a == b && Awaiting(s.actors[b].plan, corr)
       case Buying(a, d, r, sc, approved) =>
         a == b && !approved && Awaiting(BuyerReasons(c, BuyerReads(s.log, d, r, sc), s.actors[b].done).0, corr)
       case _ => false
  }

  // Decisions go to the one channel the buyer may write to, so none is ever refused.
  predicate Tidy(x: Actor) {
    (forall p | p in x.plan :: p.channel == Decision) || x.plan == [FailureWrite("buyer")]
  }

  lemma {:induction false} BuyerMarks(c: B.Config, r: B.Reads, done: set<(string, string)>, corr: string)
    ensures var q := BuyerReasons(c, r, done);
            && (corr in Decided(q.1) <==> corr in Decided(done) || Awaiting(q.0, corr))
            && (Awaiting(q.0, corr) ==> corr !in Decided(done))
            && forall p | p in q.0 :: p.channel == Decision
  {
    hide B.Reason, B.AwardHolds, B.Pool, B.DecisionParents;
    B.ReasonMeans(c, r, Decided(done));
    var ps := B.Reason(c, r, Decided(done));
    var q := BuyerReasons(c, r, done);
    if Awaiting(q.0, corr) {
      var k :| 0 <= k < |q.0| && Plans(q.0, k, "buyer", (corr, ""));
      assert ps[k] in ps && ps[k].corr in B.Awarded(ps);
      assert (corr, "") in q.1 && (corr, "").0 == corr;
    }
    if corr in Decided(done) {
      var x :| x in done && x.0 == corr;
      assert x in q.1;
    }
    if corr in Decided(q.1) && corr !in Decided(done) {
      var x :| x in q.1 && x.0 == corr;
      var p :| p in ps && p.decision.Award? && p.corr == corr;
      var k :| 0 <= k < |ps| && ps[k] == p;
      assert Plans(q.0, k, "buyer", (corr, ""));
    }
  }

  lemma {:induction false} BuyingLoses(c: B.Config, s: State, m: Move, corr: string)
    requires Good(c, "buyer", s) && Enabled(s, m) && m.Buying?
    ensures Lost(Next(c, s, m), m.a, corr) <==> Lost(s, m.a, corr) || Drops(c, s, m, m.a, corr)
    ensures Tidy(Next(c, s, m).actors[m.a])
  {
    hide Sound, OneEach, BuyerReasons, DoneFor, BuyerReads, Decided;
    var x := s.actors[m.a];
    BuyerMarks(c, BuyerReads(s.log, m.dealsAt, m.risksAt, m.scoresAt), x.done, corr);
    assert Tally(s.log, x, "buyer");
    MarkedIsDecided(x.done, corr);
    assert !Awaiting([], corr);
  }

  lemma MarkedIsDecided(done: set<(string, string)>, corr: string)
    ensures (corr, "") in done ==> corr in Decided(done)
  {
    assert (corr, "").0 == corr;
  }

  lemma {:induction false} RaisingLoses(c: B.Config, s: State, b: nat, corr: string)
    requires Good(c, "buyer", s) && IsBuyer(s, b)
    ensures Lost(Next(c, s, Raising(b)), b, corr) <==> Lost(s, b, corr) || Drops(c, s, Raising(b), b, corr)
    ensures Tidy(Next(c, s, Raising(b)).actors[b])
  {
    hide Sound, OneEach, DoneFor, Decided;
    assert Tally(s.log, s.actors[b], "buyer");
    MarkedIsDecided(s.actors[b].done, corr);
    assert !Awaiting([FailureWrite("buyer")], corr);
  }

  lemma {:induction false} OwnWriteLosesNothing(c: B.Config, s: State, b: nat, id: string, corr: string)
    requires Good(c, "buyer", s) && IsBuyer(s, b) && Enabled(s, Writing(b, id)) && Tidy(s.actors[b])
    ensures Lost(Next(c, s, Writing(b, id)), b, corr) <==> Lost(s, b, corr)
    ensures Tidy(Next(c, s, Writing(b, id)).actors[b])
  {
    hide BoardOk, Attributed, IdsOk, OneEach, Tally, Fresh, DoneFor, Filled, OwnerOf, WorkKey, Decided;
    var x := s.actors[b];
    WriteJustified(c, s.log, x, id);
    hide Sound;
    DoneForLater(s.log, Entry(x.plan[0].channel, Traced(x, id)), "buyer", (corr, ""));
    if "buyer" in Writers(x.plan[0].channel) {
      AwaitingRest(x.plan, corr);
      forall p | p in x.plan[1..]
        ensures p.channel == Decision
      {
        assert p in x.plan;
      }
    } else {
      assert x.plan[0] in x.plan;
      FailureOwnsNothing("buyer");
      assert !Awaiting(x.plan, corr) && !Awaiting([], corr);
    }
  }

  lemma AwaitingRest(plan: seq<Planned>, corr: string)
    requires plan != []
    ensures Awaiting(plan, corr) <==> Plans(plan, 0, "buyer", (corr, "")) || Awaiting(plan[1..], corr)
  {
    hide OwnerOf, WorkKey;
    if Awaiting(plan, corr) {
      var k :| 0 <= k < |plan| && Plans(plan, k, "buyer", (corr, ""));
      assert k > 0 ==> Plans(plan[1..], k - 1, "buyer", (corr, ""));
    }
    if Awaiting(plan[1..], corr) {
      var k :| 0 <= k < |plan[1..]| && Plans(plan[1..], k, "buyer", (corr, ""));
      assert Plans(plan, k + 1, "buyer", (corr, ""));
    }
  }

  lemma FailureOwnsNothing(archetype: string)
    ensures OwnerOf(FailureWrite(archetype).payload) == ""
  {
  }

  lemma {:induction false} OtherWriteLosesNothing(c: B.Config, s: State, a: nat, id: string, b: nat, corr: string)
    requires Good(c, "buyer", s) && IsBuyer(s, b) && Enabled(s, Writing(a, id)) && a != b
    ensures Lost(Next(c, s, Writing(a, id)), b, corr) <==> Lost(s, b, corr)
    ensures Next(c, s, Writing(a, id)).actors[b] == s.actors[b]
  {
    hide BoardOk, Attributed, IdsOk, OneEach, Fresh, DoneFor, Filled, OwnerOf, WorkKey, Decided, Awaiting;
    var x := s.actors[a];
    WriteJustified(c, s.log, x, id);
    hide Sound;
    assert Tally(s.log, x, "buyer") && x.archetype != "buyer";
    DoneForLater(s.log, Entry(x.plan[0].channel, Traced(x, id)), "buyer", (corr, ""));
  }

  lemma {:induction false} StepLoses(c: B.Config, s: State, m: Move, b: nat, corr: string)
    requires Good(c, "buyer", s) && Enabled(s, m) && IsBuyer(s, b) && Tidy(s.actors[b])
    ensures IsBuyer(Next(c, s, m), b) && Tidy(Next(c, s, m).actors[b])
    ensures Lost(Next(c, s, m), b, corr) <==> Lost(s, b, corr) || Drops(c, s, m, b, corr)
  {
    hide Sound, OneEach, Tally, DoneFor, Fresh, BuyerReasons, BuyerReads, ScoutReasons, EvaluatorReasons,
      NegotiatorReasons, ReadAt, PoolRead, Traced, AfterWrite, Awaiting, Decided, Tidy;
    OneStepKeepsArchetypes(c, s, m);
    match m
    case Post(id, other) =>
      DoneForLater(s.log, Entry(Requirement, Trace(id, "kernel", NewRequirement, [], other)), "buyer", (corr, ""));
    case Buying(a, _, _, _, _) =>
      assert a == b;
      BuyingLoses(c, s, m, corr);
    case Writing(a, id) =>
      if a == b {
        OwnWriteLosesNothing(c, s, b, id, corr);
      } else {
        OtherWriteLosesNothing(c, s, a, id, b, corr);
      }
    case Raising(a) =>
      if a == b {
        RaisingLoses(c, s, b, corr);
      }
    case _ =>
  }

  ghost predicate DroppedBefore(c: B.Config, ss: seq<State>, ms: seq<Move>, n: nat, b: nat, corr: string)
    requires n <= |ms| < |ss|
  {
    exists k :: 0 <= k < n && Drops(c, ss[k], ms[k], b, corr)
  }

  lemma {:induction false} LostIffDropped(c: B.Config, ss: seq<State>, ms: seq<Move>, n: nat, b: nat, corr: string)
    requires Behaviour(c, "buyer", ss, ms) && n < |ss| && IsBuyer(ss[0], b)
    ensures IsBuyer(ss[n], b) && Tidy(ss[n].actors[b])
    ensures Lost(ss[n], b, corr) <==> DroppedBefore(c, ss, ms, n, b, corr)
  {
    hide Good, Lost, Drops, Next, Enabled, Restarts;
    if n == 0 {
      NothingMarked(ss[0], b, corr);
    } else {
      LostIffDropped(c, ss, ms, n - 1, b, corr);
      EveryStateIsGood(c, "buyer", ss, ms, n - 1);
      assert Enabled(ss[n - 1], ms[n - 1]) && ss[n] == Next(c, ss[n - 1], ms[n - 1]);
      hide Behaviour;
      StepLoses(c, ss[n - 1], ms[n - 1], b, corr);
      assert DroppedBefore(c, ss, ms, n, b, corr)
        <==> DroppedBefore(c, ss, ms, n - 1, b, corr) || Drops(c, ss[n - 1], ms[n - 1], b, corr);
    }
  }

  lemma NothingMarked(s: State, b: nat, corr: string)
    requires Initial(s) && IsBuyer(s, b)
    ensures !Lost(s, b, corr) && Tidy(s.actors[b])
  {
  }

  ghost predicate AwardOnBoard(log: Log, corr: string) {
    exists e :: e in log && e.trace.payload.Award? && e.trace.corr == corr
  }

  lemma AwardIsBuyersWork(log: Log, corr: string)
    ensures AwardOnBoard(log, corr) <==> DoneFor(log, "buyer", (corr, ""))
  {
    if AwardOnBoard(log, corr) {
      var e :| e in log && e.trace.payload.Award? && e.trace.corr == corr;
      var k :| 0 <= k < |log| && log[k] == e;
      assert OwnerOf(log[k].trace.payload) == "buyer";
    }
    if DoneFor(log, "buyer", (corr, "")) {
      var k :| 0 <= k < |log| && OwnerOf(log[k].trace.payload) == "buyer"
               && WorkKey(log[k].trace.payload, log[k].trace.corr) == (corr, "");
      assert log[k] in log;
    }
  }

  /** The buyer marks an award as made before it writes it. In every run an id it has marked has its award on the board,
      or still to be written, exactly unless an earlier step dropped it. */
  lemma {:induction false} DecidedArrivesUnlessDropped(c: B.Config, ss: seq<State>, ms: seq<Move>, n: nat, b: nat,
                                                       corr: string)
    requires Run(c, ss, ms) && Singleton(ss[0], "buyer") && n < |ss| && IsBuyer(ss[0], b)
    ensures IsBuyer(ss[n], b)
    ensures corr in Decided(ss[n].actors[b].done) ==>
              (AwardOnBoard(ss[n].log, corr) || Awaiting(ss[n].actors[b].plan, corr)
               <==> !DroppedBefore(c, ss, ms, n, b, corr))
  {
    hide Run, Behaviour, Drops, Awaiting, Decided, DoneFor, AwardOnBoard, DroppedBefore, Tidy;
    SingleBuyer(c, ss, ms);
    LostIffDropped(c, ss, ms, n, b, corr);
    AwardIsBuyersWork(ss[n].log, corr);
  }

  /** Every step of the buyer is approved, as the shipped kernel does (Kernel.StepsAreApproved). */
  predicate BuyingApproved(ms: seq<Move>) { forall k | 0 <= k < |ms| && ms[k].Buying? :: ms[k].approved }

  ghost predicate RaisedBefore(ss: seq<State>, ms: seq<Move>, n: nat, b: nat, corr: string)
    requires n <= |ms| < |ss|
  {
    exists k :: 0 <= k < n && ms[k] == Raising(b) && b < |ss[k].actors| && Awaiting(ss[k].actors[b].plan, corr)
  }

  /** Then an exception between deciding and writing is the only way to lose an award. */
  lemma {:induction false} ApprovedArrivesUnlessRaised(c: B.Config, ss: seq<State>, ms: seq<Move>, n: nat, b: nat,
                                                       corr: string)
    requires Run(c, ss, ms) && Singleton(ss[0], "buyer") && n < |ss| && IsBuyer(ss[0], b) && BuyingApproved(ms)
    ensures IsBuyer(ss[n], b)
    ensures corr in Decided(ss[n].actors[b].done) ==>
              (AwardOnBoard(ss[n].log, corr) || Awaiting(ss[n].actors[b].plan, corr)
               <==> !RaisedBefore(ss, ms, n, b, corr))
  {
    hide Awaiting, Decided, AwardOnBoard, Singleton, Initial, Next;
    DecidedArrivesUnlessDropped(c, ss, ms, n, b, corr);
    forall k | 0 <= k < n
      ensures Drops(c, ss[k], ms[k], b, corr)
         <==> ms[k] == Raising(b) && b < |ss[k].actors| && Awaiting(ss[k].actors[b].plan, corr)
    {
      ArchetypesStay(c, ss, ms, k);
      assert Enabled(ss[k], ms[k]);
    }
  }

  /** And what was dropped stays marked and is never made up for: no later state of the run has an award under that
      correlation id. */
  lemma {:induction false} InterruptedAwardIsLost(c: B.Config, ss: seq<State>, ms: seq<Move>, m: nat, b: nat,
                                                  corr: string, n: nat)
    requires Run(c, ss, ms) && Singleton(ss[0], "buyer") && m < |ms| && m < n < |ss|
    requires Drops(c, ss[m], ms[m], b, corr)
    ensures !AwardOnBoard(ss[n].log, corr)
    ensures IsBuyer(ss[n], b) && corr in Decided(ss[n].actors[b].done) && !Awaiting(ss[n].actors[b].plan, corr)
  {
    hide Run, Behaviour, Awaiting, Decided, DoneFor, AwardOnBoard, Tidy, BuyerReasons, BuyerReads;
    ArchetypesStay(c, ss, ms, m);
    SingleBuyer(c, ss, ms);
    LostIffDropped(c, ss, ms, n, b, corr);
    AwardIsBuyersWork(ss[n].log, corr);
  }

  // ---- what a restart does

  // Reasoning from the board as it is now, the newest trace read gives an actor that has done nothing this work first.
  predicate FindsWork(s: State, m: Move, key: (string, string)) {
    match m
    case Scouting(a, at, pool, approved) =>
      a < |s.actors| && s.actors[a].archetype == "scout" && at == |s.log| && approved
      && (var reqs := ReadAt(s.log, at, Requirement, 10); reqs != [] && key == (reqs[0].corr, ""))
    case Evaluating(a, at, poolAt, _, approved) =>
      a < |s.actors| && s.actors[a].archetype == "evaluator" && at == |s.log| && approved
      && (var ds := ReadAt(s.log, at, Discovery, 50);
          ds != [] && EvaluatesFirst(ds[0], PoolRead(s.log, poolAt(ds[0])))
          && key == (ds[0].corr, ds[0].payload.supplier))
    case Negotiating(a, at, poolAt, _, approved) =>
      a < |s.actors| && s.actors[a].archetype == "negotiator" && at == |s.log| && approved
      && (var es := ReadAt(s.log, at, Score, 50);
          es != [] && QuotesFirst(es[0], PoolRead(s.log, poolAt(es[0]))) && key == (es[0].corr, es[0].payload.supplier))
    case _ => false
  }

  predicate EvaluatesFirst(t: Trace, pools: seq<Trace>) {
    t.payload.SupplierDiscovered? && t.payload.supplier != "" && Listed(EvaluatorPool(t, pools), t.payload.supplier)
  }

  predicate QuotesFirst(t: Trace, pools: seq<Trace>) {
    t.payload.Evaluation? && t.payload.supplier != "" && Listed(FirstHit(pools, IsListIn(t.corr)), t.payload.supplier)
  }

  lemma {:induction false} ScoutStarts(reqs: seq<Trace>, pool: Trace -> seq<string>)
    requires reqs != []
    ensures var plan := ScoutReasons(reqs, {}, pool).0;
            plan != [] && plan[0] == ScoutWrites(reqs[0], pool(reqs[0]))[0]
  {
    var n := |reqs| - 1;
    if n > 0 {
      ScoutStarts(reqs[..n], pool);
    }
  }

  lemma {:induction false} EvaluatorStarts(ds: seq<Trace>, pools: Trace -> seq<Trace>,
                                           data: Trace -> (ScoreData, RiskData))
    requires ds != [] && EvaluatesFirst(ds[0], pools(ds[0]))
    ensures var plan := EvaluatorReasons(ds, {}, pools, data).0;
            plan != [] && plan[0] == EvaluatorWrites(ds[0], data(ds[0]))[0]
  {
    hide EvaluatorPool, Listed;
    var n := |ds| - 1;
    if n > 0 {
      EvaluatorStarts(ds[..n], pools, data);
    }
  }

  lemma {:induction false} NegotiatorStarts(es: seq<Trace>, pools: Trace -> seq<Trace>, data: Trace -> DealData)
    requires es != [] && QuotesFirst(es[0], pools(es[0]))
    ensures var plan := NegotiatorReasons(es, {}, pools, data).0;
            plan != [] && plan[0] == NegotiatorWrites(es[0], FirstHit(pools(es[0]), IsListIn(es[0].corr)).value,
                                                      data(es[0]))[0]
  {
    hide FirstHit;
    var n := |es| - 1;
    if n > 0 {
      NegotiatorStarts(es[..n], pools, data);
    }
  }

  function Restarted(c: B.Config, s: State, m: Move): State
    requires (m.Scouting? || m.Evaluating? || m.Negotiating?) && Enabled(s, Restarting(m.a))
  {
    Next(c, s, Restarting(m.a))
  }

  lemma {:induction false} RestartPlans(c: B.Config, s: State, m: Move, key: (string, string))
    requires FindsWork(s, m, key)
    ensures Enabled(s, Restarting(m.a)) && Enabled(Restarted(c, s, m), m)
    ensures var t := Next(c, Restarted(c, s, m), m);
            var x := t.actors[m.a];
            && t.log == s.log && x.archetype == s.actors[m.a].archetype && x.plan != [] && !x.plan[0].chained
            && Plans(x.plan, 0, x.archetype, key) && x.archetype in Writers(x.plan[0].channel)
  {
    hide ReadAt, PoolRead, ScoutReasons, EvaluatorReasons, NegotiatorReasons, EvaluatorPool, Listed;
    match m
    case Scouting(a, at, pool, _) =>
      ScoutStarts(ReadAt(s.log, at, Requirement, 10), pool);
    case Evaluating(a, at, poolAt, scores, _) =>
      EvaluatorStarts(ReadAt(s.log, at, Discovery, 50), Lookups(s.log, poolAt), scores);
    case Negotiating(a, at, poolAt, quotes, _) =>
      NegotiatorStarts(ReadAt(s.log, at, Score, 50), Lookups(s.log, poolAt), quotes);
  }

  /** Without bookkeeping nothing keeps an actor from doing again what is on the board: restarted, it repeats the work
      its newest trace calls for, and the board then holds it twice. */
  lemma {:induction false} RestartRepeats(c: B.Config, s: State, m: Move, key: (string, string), id: string)
    requires FindsWork(s, m, key) && DoneFor(s.log, s.actors[m.a].archetype, key) && Fresh(s.log, id)
    ensures Enabled(s, Restarting(m.a)) && Enabled(Restarted(c, s, m), m)
    ensures var t := Next(c, Restarted(c, s, m), m);
            Enabled(t, Writing(m.a, id)) && !OneEach(Next(c, t, Writing(m.a, id)).log, s.actors[m.a].archetype)
  {
    hide Fresh, WorkKey, OwnerOf, ReadAt, PoolRead, EvaluatesFirst, QuotesFirst;
    RestartPlans(c, s, m, key);
    var t := Next(c, Restarted(c, s, m), m);
    hide Next;
    var who, x := s.actors[m.a].archetype, t.actors[m.a];
    assert Enabled(t, Writing(m.a, id));
    WrittenOut(c, t, m.a, id, who, key);
    var i :| 0 <= i < |s.log| && OwnerOf(s.log[i].trace.payload) == who
          && WorkKey(s.log[i].trace.payload, s.log[i].trace.corr) == key;
    var after := Next(c, t, Writing(m.a, id)).log;
    assert after[i] == s.log[i];
  }

  lemma WrittenOut(c: B.Config, s: State, a: nat, id: string, who: string, key: (string, string))
    requires Enabled(s, Writing(a, id)) && !s.actors[a].plan[0].chained && Plans(s.actors[a].plan, 0, who, key)
    requires s.actors[a].archetype in Writers(s.actors[a].plan[0].channel)
    ensures var log := Next(c, s, Writing(a, id)).log;
            && |log| == |s.log| + 1 && log[..|s.log|] == s.log
            && OwnerOf(log[|s.log|].trace.payload) == who
            && WorkKey(log[|s.log|].trace.payload, log[|s.log|].trace.corr) == key
  {
    hide OwnerOf, WorkKey, Fresh;
  }

  lemma RunOn(c: B.Config, ss: seq<State>, ms: seq<Move>, m: Move)
    requires Run(c, ss, ms) && Enabled(ss[|ms|], m)
    ensures Run(c, ss + [Next(c, ss[|ms|], m)], ms + [m])
  {
    hide Next, Enabled, Initial;
    var ss', ms' := ss + [Next(c, ss[|ms|], m)], ms + [m];
    forall k {:trigger ms'[k]} | 0 <= k < |ms'|
      ensures Enabled(ss'[k], ms'[k]) && ss'[k + 1] == Next(c, ss'[k], ms'[k])
    {
      assert k < |ms| ==> ms'[k] == ms[k];
    }
  }

  function Nobody(): Trace -> seq<string> { (t: Trace) => [] }

  /** So the hypothesis of NothingTwice is needed: one scout, one requirement, one restart, and two lists. */
  lemma {:induction false} RestartedScoutRepeats(c: B.Config) returns (ss: seq<State>, ms: seq<Move>)
    ensures Run(c, ss, ms) && Singleton(ss[0], "scout")
    ensures !OneEach(ss[|ms|].log, "scout")
  {
    hide Run, OneEach, Singleton, DoneFor, FindsWork, Enabled, Next, Fresh, Initial;
    ss, ms := ListedOnce(c);
    var s, m := ss[3], Scouting(0, 2, Nobody(), true);
    RestartRepeats(c, s, m, ("c", ""), "m");
    RunOn(c, ss, ms, Restarting(0));
    ss, ms := ss + [Restarted(c, s, m)], ms + [Restarting(0)];
    RunOn(c, ss, ms, m);
    ss, ms := ss + [Next(c, ss[4], m)], ms + [m];
    RunOn(c, ss, ms, Writing(0, "m"));
    ss, ms := ss + [Next(c, ss[5], Writing(0, "m"))], ms + [Writing(0, "m")];
  }

  // A requirement is posted, and the one scout lists it.
  lemma {:induction false} ListedOnce(c: B.Config) returns (ss: seq<State>, ms: seq<Move>)
    ensures Run(c, ss, ms) && |ms| == 3 && |ss| == 4 && Singleton(ss[0], "scout")
    ensures |ss[3].actors| == 1 && ss[3].actors[0].archetype == "scout"
    ensures DoneFor(ss[3].log, "scout", ("c", "")) && Fresh(ss[3].log, "m")
    ensures FindsWork(ss[3], Scouting(0, 2, Nobody(), true), ("c", ""))
  {
    hide ReadAt, ScoutReasons;
    var none := Nobody();
    var req, first := Trace("r", "kernel", NewRequirement, [], "c"), Trace("l", "scout", SupplierList([]), ["r"], "c");
    var list := Planned(Discovery, SupplierList([]), "c", ["r"], false, true);
    var done := {("c", "")};
    var s0 := State([], [Actor("scout", {}, [], None)]);
    var s1 := State([Entry(Requirement, req)], s0.actors);
    var s2 := State(s1.log, [Actor("scout", done, [list], None)]);
    var s3 := State(s1.log + [Entry(Discovery, first)], [Actor("scout", done, [], Some(first))]);
    OnlyRequirement(s1.log, req);
    OnlyRequirement(s3.log, req);
    OneRequirement(req);
    assert Next(c, s0, Post("r", "c")) == s1;
    assert Next(c, s1, Scouting(0, 1, none, true)) == s2;
    assert [list][1..] == [];
    assert Next(c, s2, Writing(0, "l")) == s3;
    assert s3.log[1].trace == first;
    ss, ms := [s0, s1, s2, s3], [Post("r", "c"), Scouting(0, 1, none, true), Writing(0, "l")];
  }

  lemma OneRequirement(req: Trace)
    requires req.corr == "c" && req.id == "r"
    ensures ScoutReasons([req], {}, Nobody())
         == ([Planned(Discovery, SupplierList([]), "c", ["r"], false, true)], {("c", "")})
  {
    assert [req][..0] == [];
    assert ScoutReasons([], {}, Nobody()) == ([], {});
    assert ScoutWrites(req, []) == [Planned(Discovery, SupplierList([]), "c", ["r"], false, true)];
    var r := ScoutReasons([req], {}, Nobody());
    assert r.0 == [] + ScoutWrites(req, []) && r.1 == {} + {("c", "")};
    assert r.0 == ScoutWrites(req, []) && r.1 == {("c", "")};
  }

  // All that is read of a board with one requirement, and perhaps a list after it.
  lemma OnlyRequirement(log: Log, req: Trace)
    requires 1 <= |log| <= 2 && log[0] == Entry(Requirement, req) && (|log| == 2 ==> log[1].channel != Requirement)
    ensures ReadAt(log, |log|, Requirement, 10) == [req]
  {
    hide Content;
    assert log[..|log|] == log;
    ContentHead(log, Requirement);
    if |log| == 2 {
      ContentHead(log[1..], Requirement);
      assert log[1..][1..] == [];
    } else {
      assert log[1..] == [];
    }
    EmptyContent(Requirement);
    assert Content(log, Requirement) == [req];
  }
}
