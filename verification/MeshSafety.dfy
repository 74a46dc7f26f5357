/** What holds in every run of the mesh (mesh/actors), whatever the interleaving: attribution, typed and acyclic
    lineage, an append-only board, nothing done twice, and awards that follow from what was read. */
module MeshSafety {
  import opened Basics
  import opened Blackboard
  import opened Mesh
  import B = MeshBuyer

  // ---- what every reachable state satisfies

  predicate Attributed(log: Log) {
    forall k | 0 <= k < |log| :: log[k].trace.archetype in Writers(log[k].channel)
  }

  predicate IdsOk(log: Log) {
    && (forall k | 0 <= k < |log| :: log[k].trace.id != "")
    && forall i, j | 0 <= i < j < |log| :: log[i].trace.id != log[j].trace.id
  }

  predicate AnchorLogged(log: Log, t: Trace) {
    || (t.payload.SupplierList? && Entry(Discovery, t) in log)
    || (t.payload.Evaluation? && Entry(Score, t) in log)
  }

  ghost predicate ActorOk(c: B.Config, log: Log, x: Actor) {
    PlanOk(c, log, AnchorOf(x.anchor), x.plan) && (x.anchor.Some? ==> AnchorLogged(log, x.anchor.value))
  }

  // Work that is to be done once: lists per correlation id by the scout, evaluations and quotes per supplier as well by
  // evaluator and negotiator, and awards per correlation id by the buyer.
  function OwnerOf(p: Payload): string {
    match p
    case SupplierList(_) => "scout"
    case Evaluation(_, _) => "evaluator"
    case Quote(_, _) => "negotiator"
    case Award(_, _, _) => "buyer"
    case _ => ""
  }

  function WorkKey(p: Payload, corr: string): (string, string) {
    match p
    case Evaluation(s, _) => (corr, s)
    case Quote(s, _) => (corr, s)
    case _ => (corr, "")
  }

  predicate DoneFor(log: Log, who: string, key: (string, string)) {
    exists k :: 0 <= k < |log| && OwnerOf(log[k].trace.payload) == who
             && WorkKey(log[k].trace.payload, log[k].trace.corr) == key
  }

  predicate Plans(plan: seq<Planned>, k: nat, who: string, key: (string, string))
    requires k < |plan|
  {
    OwnerOf(plan[k].payload) == who && WorkKey(plan[k].payload, plan[k].corr) == key
  }

  /** Only the one actor of the archetype plans its work; it has marked all of it that is on the board or about to be,
      plans nothing twice and nothing that is on the board. */
  ghost predicate Tally(log: Log, x: Actor, who: string) {
    if x.archetype == who
    then
      && (forall key | DoneFor(log, who, key) :: key in x.done)
      && (forall k, key | 0 <= k < |x.plan| && Plans(x.plan, k, who, key) :: key in x.done && !DoneFor(log, who, key))
      && (forall i, j, key | 0 <= i < j < |x.plan| && Plans(x.plan, i, who, key) :: !Plans(x.plan, j, who, key))
    else forall k | 0 <= k < |x.plan| :: OwnerOf(x.plan[k].payload) != who
  }

  predicate OneEach(log: Log, who: string) {
    forall i, j | 0 <= i < j < |log| && OwnerOf(log[i].trace.payload) == who && OwnerOf(log[j].trace.payload) == who ::
      WorkKey(log[i].trace.payload, log[i].trace.corr) != WorkKey(log[j].trace.payload, log[j].trace.corr)
  }

  ghost predicate Sound(c: B.Config, s: State) {
    && BoardOk(c, s.log) && Attributed(s.log) && IdsOk(s.log)
    && forall a | 0 <= a < |s.actors| :: ActorOk(c, s.log, s.actors[a])
  }

  ghost predicate Good(c: B.Config, who: string, s: State) {
    && who != "" && Sound(c, s) && OneEach(s.log, who) && Singleton(s, who)
    && forall a | 0 <= a < |s.actors| :: Tally(s.log, s.actors[a], who)
  }

  lemma BoardGrows(c: B.Config, log: Log, e: Entry)
    requires BoardOk(c, log) && Justified(c, log, e.channel, e.trace.payload, e.trace.corr, e.trace.parents)
    ensures BoardOk(c, log + [e])
  {
    hide Justified;
    var log' := log + [e];
    forall k | 0 <= k < |log'|
      ensures Justified(c, log'[..k], log'[k].channel, log'[k].trace.payload, log'[k].trace.corr, log'[k].trace.parents)
    {
      assert log'[..k] == log[..k];
      assert k == |log| ==> log[..k] == log;
    }
  }

  lemma ActorLater(c: B.Config, log: Log, e: Entry, x: Actor)
    requires ActorOk(c, log, x)
    ensures ActorOk(c, log + [e], x)
  {
    hide PlanOk;
    PlanLater(c, log, log + [e], AnchorOf(x.anchor), x.plan);
  }

  lemma DoneForLater(log: Log, e: Entry, who: string, key: (string, string))
    ensures DoneFor(log + [e], who, key)
       <==> DoneFor(log, who, key) || (OwnerOf(e.trace.payload) == who && WorkKey(e.trace.payload, e.trace.corr) == key)
  {
    hide OwnerOf, WorkKey;
    var log' := log + [e];
    if DoneFor(log, who, key) {
      var k :| 0 <= k < |log| && OwnerOf(log[k].trace.payload) == who
               && WorkKey(log[k].trace.payload, log[k].trace.corr) == key;
      assert log'[k] == log[k];
    }
    assert log'[|log|] == e;
    if DoneFor(log', who, key) {
      var k :| 0 <= k < |log'| && OwnerOf(log'[k].trace.payload) == who
               && WorkKey(log'[k].trace.payload, log'[k].trace.corr) == key;
      if k < |log| {
        assert log[k] == log'[k];
      }
    }
  }

  lemma TallyLater(log: Log, e: Entry, x: Actor, who: string)
    requires Tally(log, x, who) && (OwnerOf(e.trace.payload) == who ==> x.archetype != who)
    ensures Tally(log + [e], x, who)
  {
    hide DoneFor, Plans, OwnerOf, WorkKey;
    forall key
      ensures x.archetype == who ==> DoneFor(log + [e], who, key) == DoneFor(log, who, key)
    {
      DoneForLater(log, e, who, key);
    }
  }

  // ---- steps that change one actor only

  lemma ActorChanged(c: B.Config, who: string, s: State, a: nat, x: Actor)
    requires Good(c, who, s) && a < |s.actors| && x.archetype == s.actors[a].archetype
    requires ActorOk(c, s.log, x) && Tally(s.log, x, who)
    ensures Good(c, who, s.(actors := s.actors[a := x]))
  {
    hide ActorOk, Tally, BoardOk, Attributed, IdsOk, OneEach;
  }

  /** What reasoning plans beyond what was marked: each piece of work once, newly marked, and only the actor's own
      kind. */
  ghost predicate PlannedOnce(done: set<(string, string)>, r: (seq<Planned>, set<(string, string)>), who: string) {
    && done <= r.1
    && (forall k | 0 <= k < |r.0| :: OwnerOf(r.0[k].payload) == who || OwnerOf(r.0[k].payload) == "")
    && (forall k, key | 0 <= k < |r.0| && Plans(r.0, k, who, key) :: key in r.1 && key !in done)
    && (forall i, j, key | 0 <= i < j < |r.0| && Plans(r.0, i, who, key) :: !Plans(r.0, j, who, key))
  }

  // Adding the writes of one more piece of work.
  lemma {:induction false} PlannedOneMore(done: set<(string, string)>, r: (seq<Planned>, set<(string, string)>),
                                          who: string, writes: seq<Planned>, key: (string, string))
    requires PlannedOnce(done, r, who) && key !in r.1 && writes != [] && who != ""
    requires Plans(writes, 0, who, key) && forall k | 1 <= k < |writes| :: OwnerOf(writes[k].payload) == ""
    ensures PlannedOnce(done, (r.0 + writes, r.1 + {key}), who)
  {
    hide OwnerOf, WorkKey;
    var plan := r.0 + writes;
    var n := |r.0|;
    assert forall k | 0 <= k < |plan| :: plan[k] == if k < n then r.0[k] else writes[k - n];
    forall k, other | 0 <= k < |plan| && Plans(plan, k, who, other)
      ensures other in r.1 + {key} && other !in done
      ensures (k >= n ==> k == n && other == key) && (k < n ==> Plans(r.0, k, who, other))
    {
      assert k < n ==> Plans(r.0, k, who, other);
      assert k >= n ==> OwnerOf(writes[k - n].payload) == who;
    }
    forall i, j, other | 0 <= i < j < |plan| && Plans(plan, i, who, other)
      ensures !Plans(plan, j, who, other)
    {
    }
  }

  lemma {:induction false} ScoutPlansOnce(reqs: seq<Trace>, done: set<(string, string)>, pool: Trace -> seq<string>)
    ensures PlannedOnce(done, ScoutReasons(reqs, done, pool), "scout")
  {
    if reqs != [] {
      hide PlannedOnce;
      var n := |reqs| - 1;
      var before, t := ScoutReasons(reqs[..n], done, pool), reqs[n];
      ScoutPlansOnce(reqs[..n], done, pool);
      if (t.corr, "") !in before.1 {
        PlannedOneMore(done, before, "scout", ScoutWrites(t, pool(t)), (t.corr, ""));
      }
    }
  }

  lemma {:induction false} EvaluatorPlansOnce(ds: seq<Trace>, done: set<(string, string)>, pools: Trace -> seq<Trace>,
                                              data: Trace -> (ScoreData, RiskData))
    ensures PlannedOnce(done, EvaluatorReasons(ds, done, pools, data), "evaluator")
  {
    hide EvaluatorPool, Listed;
    if ds != [] {
      hide PlannedOnce;
      var n := |ds| - 1;
      var before, t := EvaluatorReasons(ds[..n], done, pools, data), ds[n];
      EvaluatorPlansOnce(ds[..n], done, pools, data);
      if t.payload.SupplierDiscovered? && (t.corr, t.payload.supplier) !in before.1 {
        PlannedOneMore(done, before, "evaluator", EvaluatorWrites(t, data(t)), (t.corr, t.payload.supplier));
      }
    }
  }

  lemma {:induction false} NegotiatorPlansOnce(es: seq<Trace>, done: set<(string, string)>, pools: Trace -> seq<Trace>,
                                               data: Trace -> DealData)
    ensures PlannedOnce(done, NegotiatorReasons(es, done, pools, data), "negotiator")
  {
    hide FirstHit;
    if es != [] {
      hide PlannedOnce;
      var n := |es| - 1;
      var before, t := NegotiatorReasons(es[..n], done, pools, data), es[n];
      NegotiatorPlansOnce(es[..n], done, pools, data);
      var pool := FirstHit(pools(t), IsListIn(t.corr));
      if t.payload.Evaluation? && pool.Some? && (t.corr, t.payload.supplier) !in before.1 {
        PlannedOneMore(done, before, "negotiator", NegotiatorWrites(t, pool.value, data(t)),
                       (t.corr, t.payload.supplier));
      }
    }
  }

  lemma {:induction false} BuyerPlansOnce(c: B.Config, r: B.Reads, done: set<(string, string)>)
    ensures PlannedOnce(done, BuyerReasons(c, r, done), "buyer")
  {
    hide B.Reason, B.AwardHolds, B.Pool, B.DecisionParents;
    B.ReasonMeans(c, r, Decided(done));
    var ps := B.Reason(c, r, Decided(done));
    var plan := BuyerWrites(ps);
    forall k, key | 0 <= k < |plan| && Plans(plan, k, "buyer", key)
      ensures key == (ps[k].corr, "") && ps[k].decision.Award? && key in done + Marks(B.Awarded(ps)) && key !in done
    {
      assert ps[k] in ps;
      assert ps[k].corr in B.Awarded(ps);
      assert key in done ==> key.0 in Decided(done);
    }
    forall k | 0 <= k < |plan|
      ensures OwnerOf(plan[k].payload) == "buyer" || OwnerOf(plan[k].payload) == ""
    {
      assert ps[k] in ps;
    }
  }

  lemma TallyAfter(log: Log, x: Actor, who: string, r: (seq<Planned>, set<(string, string)>), approved: bool)
    requires Tally(log, x, who) && PlannedOnce(x.done, r, x.archetype) && who != ""
    ensures Tally(log, Proposed(x, r, approved), who)
  {
    hide DoneFor, OwnerOf, WorkKey;
  }

  lemma {:induction false} ReasoningKeeps(c: B.Config, who: string, s: State, m: Move)
    requires Good(c, who, s) && Enabled(s, m) && (m.Scouting? || m.Evaluating? || m.Negotiating? || m.Buying?)
    ensures Good(c, who, Next(c, s, m))
  {
    hide Justified, PlanOk, ReadAt, B.Reason, DoneFor, PoolRead, ScoutReasons, EvaluatorReasons, NegotiatorReasons,
      BuyerReasons, BoardOk, Attributed, IdsOk, OneEach, AllLogged, Tally, PlannedOnce, OwnerOf, WorkKey;
    var x := s.actors[m.a];
    EmptyPlanOk(c, s.log);
    assert Tally(s.log, x, who);
    match m
    case Scouting(a, at, pool, approved) =>
      var reqs := ReadAt(s.log, at, Requirement, 10);
      ReadAllLogged(s.log, at, Requirement, 10);
      ScoutPlanOk(c, s.log, reqs, x.done, pool);
      ScoutPlansOnce(reqs, x.done, pool);
      TallyAfter(s.log, x, who, ScoutReasons(reqs, x.done, pool), approved);
      ActorChanged(c, who, s, a, Proposed(x, ScoutReasons(reqs, x.done, pool), approved));
    case Evaluating(a, at, poolAt, scores, approved) =>
      var ds := ReadAt(s.log, at, Discovery, 50);
      var pools := Lookups(s.log, poolAt);
      ReadAllLogged(s.log, at, Discovery, 50);
      EvaluatorPlanOk(c, s.log, ds, x.done, pools, scores);
      EvaluatorPlansOnce(ds, x.done, pools, scores);
      TallyAfter(s.log, x, who, EvaluatorReasons(ds, x.done, pools, scores), approved);
      ActorChanged(c, who, s, a, Proposed(x, EvaluatorReasons(ds, x.done, pools, scores), approved));
    case Negotiating(a, at, poolAt, quotes, approved) =>
      var es := ReadAt(s.log, at, Score, 50);
      var pools := Lookups(s.log, poolAt);
      ReadAllLogged(s.log, at, Score, 50);
      forall t
        ensures AllLogged(s.log, Discovery, pools(t))
      {
        PoolAllLogged(s.log, poolAt(t));
      }
      NegotiatorPlanOk(c, s.log, es, x.done, pools, quotes);
      NegotiatorPlansOnce(es, x.done, pools, quotes);
      TallyAfter(s.log, x, who, NegotiatorReasons(es, x.done, pools, quotes), approved);
      ActorChanged(c, who, s, a, Proposed(x, NegotiatorReasons(es, x.done, pools, quotes), approved));
    case Buying(a, d, r, sc, approved) =>
      BuyerPlanOk(c, s.log, d, r, sc, x.done);
      BuyerPlansOnce(c, BuyerReads(s.log, d, r, sc), x.done);
      TallyAfter(s.log, x, who, BuyerReasons(c, BuyerReads(s.log, d, r, sc), x.done), approved);
      ActorChanged(c, who, s, a, Proposed(x, BuyerReasons(c, BuyerReads(s.log, d, r, sc), x.done), approved));
  }

  lemma FailurePlan(c: B.Config, who: string, log: Log, x: Actor)
    requires ActorOk(c, log, x) && Tally(log, x, who) && who != ""
    ensures var y := x.(plan := [FailureWrite(x.archetype)]);
            ActorOk(c, log, y) && Tally(log, y, who)
    ensures ActorOk(c, log, x.(plan := [])) && Tally(log, x.(plan := []), who)
  {
    hide DoneFor;
    var f := FailureWrite(x.archetype);
    assert [f][1..] == [] && OwnerOf(f.payload) == "";
    assert Justified(c, log, f.channel, f.payload, f.corr, f.parents);
    assert PlanOk(c, log, AnchorOf(x.anchor), [f]);
  }

  // ---- writing

  lemma {:induction false} WriteJustified(c: B.Config, log: Log, x: Actor, id: string)
    requires ActorOk(c, log, x) && x.plan != []
    ensures var t := Traced(x, id);
            && Justified(c, log, x.plan[0].channel, t.payload, t.corr, t.parents)
            && OwnerOf(t.payload) == OwnerOf(x.plan[0].payload)
            && WorkKey(t.payload, t.corr) == WorkKey(x.plan[0].payload, x.plan[0].corr)
            && (x.plan[0].anchors ==> t.payload == x.plan[0].payload)
  {
    hide B.AwardHolds, CandidateLogged;
    var p := x.plan[0];
    assert PlanOk(c, log, AnchorOf(x.anchor), x.plan);
    if p.chained {
      var anchor := x.anchor.value;
      if p.payload.SupplierDiscovered? {
        IsLogged(log, Discovery, anchor, AListOf(p.payload.supplier));
      } else {
        IsLogged(log, Score, anchor, AnEvaluationOf(p.payload.supplier));
      }
    }
  }

  lemma {:induction false} WriterOk(c: B.Config, log: Log, x: Actor, id: string)
    requires ActorOk(c, log, x) && x.plan != [] && x.archetype in Writers(x.plan[0].channel)
    ensures ActorOk(c, log + [Entry(x.plan[0].channel, Traced(x, id))], AfterWrite(x, id))
  {
    var p := x.plan[0];
    var e := Entry(p.channel, Traced(x, id));
    WriteJustified(c, log, x, id);
    hide Logged, CandidateLogged, B.AwardHolds;
    PlanLater(c, log, log + [e], if p.anchors then Set(p.payload, p.corr) else AnchorOf(x.anchor), x.plan[1..]);
    assert e in log + [e];
  }

  lemma {:induction false} WriterTallies(log: Log, x: Actor, id: string, who: string)
    requires Tally(log, x, who) && x.plan != [] && x.archetype in Writers(x.plan[0].channel)
    requires OwnerOf(Traced(x, id).payload) == OwnerOf(x.plan[0].payload)
    requires WorkKey(Traced(x, id).payload, Traced(x, id).corr) == WorkKey(x.plan[0].payload, x.plan[0].corr)
    ensures Tally(log + [Entry(x.plan[0].channel, Traced(x, id))], AfterWrite(x, id), who)
    ensures var t := Traced(x, id);
            OwnerOf(t.payload) == who ==> x.archetype == who && !DoneFor(log, who, WorkKey(t.payload, t.corr))
  {
    hide DoneFor, Filled, OwnerOf, WorkKey;
    var e := Entry(x.plan[0].channel, Traced(x, id));
    var y := AfterWrite(x, id);
    forall key
      ensures DoneFor(log + [e], who, key)
         <==> || DoneFor(log, who, key)
              || (OwnerOf(e.trace.payload) == who && WorkKey(e.trace.payload, e.trace.corr) == key)
    {
      DoneForLater(log, e, who, key);
    }
    assert forall key :: Plans(x.plan, 0, who, key)
                    <==> OwnerOf(e.trace.payload) == who && WorkKey(e.trace.payload, e.trace.corr) == key;
    var now := WorkKey(x.plan[0].payload, x.plan[0].corr);
    assert OwnerOf(x.plan[0].payload) == who ==> Plans(x.plan, 0, who, now);
    if x.archetype == who {
      forall k, key | 0 <= k < |y.plan| && Plans(y.plan, k, who, key)
        ensures Plans(x.plan, k + 1, who, key) && key in y.done && !DoneFor(log + [e], who, key)
      {
        assert Plans(x.plan, k + 1, who, key);
        assert !Plans(x.plan, 0, who, key);
      }
      forall i, j, key | 0 <= i < j < |y.plan| && Plans(y.plan, i, who, key)
        ensures !Plans(y.plan, j, who, key)
      {
        assert !Plans(x.plan, j + 1, who, key);
      }
    }
  }

  lemma LogStays(log: Log, e: Entry, who: string)
    requires Attributed(log) && IdsOk(log) && OneEach(log, who)
    requires e.trace.archetype in Writers(e.channel) && Fresh(log, e.trace.id)
    requires OwnerOf(e.trace.payload) == who ==> !DoneFor(log, who, WorkKey(e.trace.payload, e.trace.corr))
    ensures Attributed(log + [e]) && IdsOk(log + [e]) && OneEach(log + [e], who)
  {
    hide OwnerOf, WorkKey, Writers;
  }

  lemma {:induction false} WritingKeeps(c: B.Config, who: string, s: State, m: Move)
    requires Good(c, who, s) && Enabled(s, m) && m.Writing?
    ensures Good(c, who, Next(c, s, m))
  {
    hide Justified, PlanOk, DoneFor, BoardOk, Attributed, IdsOk, OneEach, Tally, ActorOk, Filled, Fresh, OwnerOf,
      WorkKey;
    var x := s.actors[m.a];
    if x.archetype in Writers(x.plan[0].channel) {
      var e := Entry(x.plan[0].channel, Traced(x, m.id));
      WriteJustified(c, s.log, x, m.id);
      WriterOk(c, s.log, x, m.id);
      WriterTallies(s.log, x, m.id, who);
      BoardGrows(c, s.log, e);
      LogStays(s.log, e, who);
      var t := Next(c, s, m);
      forall b | 0 <= b < |t.actors|
        ensures ActorOk(c, t.log, t.actors[b]) && Tally(t.log, t.actors[b], who)
      {
        if b != m.a {
          ActorLater(c, s.log, e, s.actors[b]);
          TallyLater(s.log, e, s.actors[b], who);
        }
      }
    } else {
      FailurePlan(c, who, s.log, x);
      ActorChanged(c, who, s, m.a, AfterWrite(x, m.id));
    }
  }

  lemma {:induction false} PostingKeeps(c: B.Config, who: string, s: State, m: Move)
    requires Good(c, who, s) && Enabled(s, m) && m.Post?
    ensures Good(c, who, Next(c, s, m))
  {
    hide DoneFor, BoardOk, Attributed, IdsOk, OneEach, Tally, ActorOk, Fresh;
    var e := Entry(Requirement, Trace(m.id, "kernel", NewRequirement, [], m.corr));
    BoardGrows(c, s.log, e);
    LogStays(s.log, e, who);
    forall b | 0 <= b < |s.actors|
      ensures ActorOk(c, s.log + [e], s.actors[b]) && Tally(s.log + [e], s.actors[b], who)
    {
      ActorLater(c, s.log, e, s.actors[b]);
      TallyLater(s.log, e, s.actors[b], who);
    }
  }

  lemma {:induction false} StepKeeps(c: B.Config, who: string, s: State, m: Move)
    requires Good(c, who, s) && Enabled(s, m) && !Restarts(s, m, who)
    ensures Good(c, who, Next(c, s, m))
    ensures s.log <= Next(c, s, m).log
  {
    hide Good;
    match m
    case Post(_, _) => PostingKeeps(c, who, s, m);
    case Writing(_, _) => WritingKeeps(c, who, s, m);
    case Raising(a) => RaisingKeeps(c, who, s, a);
    case Restarting(a) => RestartingKeeps(c, who, s, a);
    case _ => ReasoningKeeps(c, who, s, m);
  }

  lemma RaisingKeeps(c: B.Config, who: string, s: State, a: nat)
    requires Good(c, who, s) && a < |s.actors|
    ensures Good(c, who, Next(c, s, Raising(a)))
  {
    hide ActorOk, Tally, BoardOk, Attributed, IdsOk, OneEach;
    FailurePlan(c, who, s.log, s.actors[a]);
    ActorChanged(c, who, s, a, s.actors[a].(plan := [FailureWrite(s.actors[a].archetype)]));
  }

  lemma RestartingKeeps(c: B.Config, who: string, s: State, a: nat)
    requires Good(c, who, s) && Enabled(s, Restarting(a)) && !Restarts(s, Restarting(a), who)
    ensures Good(c, who, Next(c, s, Restarting(a)))
  {
    hide BoardOk, Attributed, IdsOk, OneEach, DoneFor;
    EmptyPlanOk(c, s.log);
    ActorChanged(c, who, s, a, Actor(s.actors[a].archetype, {}, [], None));
  }

  lemma InitiallyGood(c: B.Config, who: string, s: State)
    requires Initial(s) && Singleton(s, who) && who != ""
    ensures Good(c, who, s)
  {
  }

  /** Every state a run reaches is good for the archetype that has one actor and is not restarted. */
  lemma {:induction false} EveryStateIsGood(c: B.Config, who: string, ss: seq<State>, ms: seq<Move>, n: nat)
    requires Behaviour(c, who, ss, ms) && n < |ss|
    ensures Good(c, who, ss[n])
    ensures n > 0 ==> ss[n - 1].log <= ss[n].log
  {
    hide Good, Enabled, Next, Restarts;
    if n == 0 {
      InitiallyGood(c, who, ss[0]);
    } else {
      EveryStateIsGood(c, who, ss, ms, n - 1);
      assert Enabled(ss[n - 1], ms[n - 1]);
      StepKeeps(c, who, ss[n - 1], ms[n - 1]);
    }
  }

  lemma {:induction false} ArchetypesStay(c: B.Config, ss: seq<State>, ms: seq<Move>, n: nat)
    requires Run(c, ss, ms) && n < |ss|
    ensures |ss[n].actors| == |ss[0].actors|
    ensures forall a | 0 <= a < |ss[n].actors| :: ss[n].actors[a].archetype == ss[0].actors[a].archetype
  {
    if n > 0 {
      ArchetypesStay(c, ss, ms, n - 1);
      assert Enabled(ss[n - 1], ms[n - 1]);
      hide Run;
      OneStepKeepsArchetypes(c, ss[n - 1], ms[n - 1]);
    }
  }

  lemma OneStepKeepsArchetypes(c: B.Config, s: State, m: Move)
    requires Enabled(s, m)
    ensures |Next(c, s, m).actors| == |s.actors|
    ensures forall a | 0 <= a < |s.actors| :: Next(c, s, m).actors[a].archetype == s.actors[a].archetype
  {
    hide Fresh, ScoutReasons, EvaluatorReasons, NegotiatorReasons, BuyerReasons, ReadAt, PoolRead, Filled, Traced;
  }

  // A name no actor has, being longer than all of them.
  lemma {:induction false} Unused(actors: seq<Actor>) returns (who: string)
    ensures who != "" && forall a | 0 <= a < |actors| :: |actors[a].archetype| < |who|
  {
    if actors == [] {
      who := "x";
    } else {
      var n := |actors| - 1;
      who := Unused(actors[..n]);
      if |who| <= |actors[n].archetype| {
        who := actors[n].archetype + "x";
      }
    }
  }

  /** Whoever is restarted, every state a run reaches is sound, and the board only grows. */
  lemma {:induction false} EveryStateIsSound(c: B.Config, ss: seq<State>, ms: seq<Move>, n: nat)
    requires Run(c, ss, ms) && n < |ss|
    ensures Sound(c, ss[n])
    ensures n > 0 ==> ss[n - 1].log <= ss[n].log
  {
    hide Enabled, Next, Sound, OneEach, Tally;
    var who := Unused(ss[0].actors);
    forall k | 0 <= k < |ms|
      ensures !Restarts(ss[k], ms[k], who)
    {
      ArchetypesStay(c, ss, ms, k);
    }
    hide Run;
    EveryStateIsGood(c, who, ss, ms, n);
  }

  // ---- the main results, whatever is restarted

  lemma {:induction false} BoardGrowsAlong(c: B.Config, ss: seq<State>, ms: seq<Move>, m: nat, n: nat)
    requires Run(c, ss, ms) && m <= n < |ss|
    ensures ss[m].log <= ss[n].log
    decreases n
  {
    hide Run, Sound;
    if m < n {
      BoardGrowsAlong(c, ss, ms, m, n - 1);
      EveryStateIsSound(c, ss, ms, n);
    }
  }

  /** The board is append-only: what any channel held earlier in a run is a prefix of what it holds later. */
  lemma {:induction false} ChannelsOnlyGrow(c: B.Config, ss: seq<State>, ms: seq<Move>, m: nat, n: nat, ch: Channel)
    requires Run(c, ss, ms) && m <= n < |ss|
    ensures Content(ss[m].log, ch) <= Content(ss[n].log, ch)
  {
    hide Run, Content;
    BoardGrowsAlong(c, ss, ms, m, n);
    var before, after := ss[m].log, ss[n].log;
    assert after == before + after[|before|..];
    ContentAppend(before, after[|before|..], ch);
  }

  /** Each trace was written by an archetype its channel admits. */
  lemma {:induction false} EveryTraceIsAttributed(c: B.Config, ss: seq<State>, ms: seq<Move>, n: nat, k: nat)
    requires Run(c, ss, ms) && n < |ss| && k < |ss[n].log|
    ensures ss[n].log[k].trace.archetype in Writers(ss[n].log[k].channel)
  {
    hide Run;
    EveryStateIsSound(c, ss, ms, n);
  }

  /** Lineage is typed: every trace is in the channel of its kind, and its parents are earlier traces of the kind it is
      derived from, for the same supplier and correlation id. */
  lemma {:induction false} LineageIsTyped(c: B.Config, ss: seq<State>, ms: seq<Move>, n: nat, k: nat)
    requires Run(c, ss, ms) && n < |ss| && k < |ss[n].log|
    ensures var e := ss[n].log[k];
            Justified(c, ss[n].log[..k], e.channel, e.trace.payload, e.trace.corr, e.trace.parents)
  {
    hide Run, Justified, ActorOk;
    EveryStateIsSound(c, ss, ms, n);
  }

  ghost predicate HasId(log: Log, id: string) { exists j :: 0 <= j < |log| && log[j].trace.id == id }

  lemma LoggedHasId(log: Log, ch: Channel, id: string, corr: string, kind: Payload -> bool)
    requires Logged(log, ch, id, corr, kind)
    ensures HasId(log, id)
  {
    var t :| Entry(ch, t) in log && t.id == id && t.corr == corr && kind(t.payload);
    var j :| 0 <= j < |log| && log[j] == Entry(ch, t);
  }

  lemma {:induction false} JustifiedParents(c: B.Config, log: Log, ch: Channel, payload: Payload, corr: string,
                                            parents: seq<string>, id: string)
    requires Justified(c, log, ch, payload, corr, parents) && id in parents
    ensures HasId(log, id)
  {
    hide Logged, HasId, B.AwardHolds, B.Ids, B.Composite;
    match payload
    case SupplierList(_) => LoggedHasId(log, Requirement, id, corr, ARequirement());
    case SupplierDiscovered(s, pool) => LoggedHasId(log, Discovery, id, corr, AListOf(s));
    case Evaluation(s, _) => LoggedHasId(log, Discovery, id, corr, ADiscoveryOf(s));
    case RiskAssessment(s, _) => LoggedHasId(log, Score, id, corr, AnEvaluationOf(s));
    case Quote(s, _) =>
      if id == parents[0] {
        LoggedHasId(log, Score, id, corr, AnEvaluationOf(s));
      } else {
        LoggedHasId(log, Discovery, id, corr, AListOf(s));
      }
    case Award(_, _, ranked) =>
      var x := B.ParentIsCandidates(ranked, id);
      assert CandidateLogged(c, log, corr, x);
      if x.dealId == id {
        LoggedHasId(log, Deal, id, corr, Exactly(Quote(x.supplier, x.deal)));
      } else if x.scoreId == id {
        LoggedHasId(log, Score, id, corr, Exactly(Evaluation(x.supplier, x.score)));
      } else {
        LoggedHasId(log, Risk, id, corr, Exactly(RiskAssessment(x.supplier, x.risk.value)));
      }
    case _ =>
  }

  /** Lineage is acyclic: a parent id names exactly one trace, and one written strictly earlier. */
  lemma {:induction false} ParentsAreEarlier(c: B.Config, ss: seq<State>, ms: seq<Move>, n: nat, k: nat, id: string)
    returns (j: nat)
    requires Run(c, ss, ms) && n < |ss| && k < |ss[n].log| && id in ss[n].log[k].trace.parents
    ensures j < k && ss[n].log[j].trace.id == id
    ensures forall i | 0 <= i < |ss[n].log| && ss[n].log[i].trace.id == id :: i == j
  {
    hide Run, Justified, ActorOk;
    EveryStateIsSound(c, ss, ms, n);
    j := EarlierParent(c, ss[n].log, k, id);
  }

  lemma {:induction false} EarlierParent(c: B.Config, log: Log, k: nat, id: string) returns (j: nat)
    requires BoardOk(c, log) && IdsOk(log) && k < |log| && id in log[k].trace.parents
    ensures j < k && log[j].trace.id == id
    ensures forall i | 0 <= i < |log| && log[i].trace.id == id :: i == j
  {
    hide BoardOk, Justified;
    var t := log[k].trace;
    JustifiedAt(c, log, k);
    JustifiedParents(c, log[..k], log[k].channel, t.payload, t.corr, t.parents, id);
    j :| 0 <= j < |log[..k]| && log[..k][j].trace.id == id;
  }

  lemma JustifiedAt(c: B.Config, log: Log, k: nat)
    requires BoardOk(c, log) && k < |log|
    ensures Justified(c, log[..k], log[k].channel, log[k].trace.payload, log[k].trace.corr, log[k].trace.parents)
  {
  }

  predicate Derived(p: Payload) {
    p.SupplierList? || p.SupplierDiscovered? || p.Evaluation? || p.RiskAssessment? || p.Quote? || p.Award?
  }

  /** A path of entries, each a parent of the one before it. */
  predicate Ancestry(log: Log, path: seq<nat>) {
    && path != [] && (forall i | 0 <= i < |path| :: path[i] < |log|)
    && forall i | 0 <= i < |path| - 1 :: log[path[i + 1]].trace.id in log[path[i]].trace.parents
  }

  // What a parent of a derived trace can be.
  lemma {:induction false} ParentIsDerived(c: B.Config, log: Log, k: nat, j: nat)
    requires BoardOk(c, log) && IdsOk(log) && k < |log| && j < |log| && Derived(log[k].trace.payload)
    requires log[j].trace.id in log[k].trace.parents
    ensures j < k && log[j].trace.corr == log[k].trace.corr
    ensures Derived(log[j].trace.payload) || log[j].channel == Requirement
  {
    hide BoardOk, IdsOk, Logged, B.AwardHolds, B.Composite, B.Ids, DecidedFrom;
    var t, id := log[k].trace, log[j].trace.id;
    JustifiedAt(c, log, k);
    match t.payload
    case SupplierList(_) => SameEntry(log, k, j, Requirement, t.corr, ARequirement());
    case SupplierDiscovered(s, pool) => SameEntry(log, k, j, Discovery, t.corr, AListOf(s));
    case Evaluation(s, _) => SameEntry(log, k, j, Discovery, t.corr, ADiscoveryOf(s));
    case RiskAssessment(s, _) => SameEntry(log, k, j, Score, t.corr, AnEvaluationOf(s));
    case Quote(s, _) =>
      if id == t.parents[0] {
        SameEntry(log, k, j, Score, t.corr, AnEvaluationOf(s));
      } else {
        SameEntry(log, k, j, Discovery, t.corr, AListOf(s));
      }
    case Award(_, _, ranked) =>
      var x := B.ParentIsCandidates(ranked, id);
      assert CandidateLogged(c, log[..k], t.corr, x);
      if x.dealId == id {
        SameEntry(log, k, j, Deal, t.corr, Exactly(Quote(x.supplier, x.deal)));
      } else if x.scoreId == id {
        SameEntry(log, k, j, Score, t.corr, Exactly(Evaluation(x.supplier, x.score)));
      } else {
        SameEntry(log, k, j, Risk, t.corr, Exactly(RiskAssessment(x.supplier, x.risk.value)));
      }
  }

  lemma SameEntry(log: Log, k: nat, j: nat, ch: Channel, corr: string, kind: Payload -> bool)
    requires IdsOk(log) && k <= |log| && j < |log| && Logged(log[..k], ch, log[j].trace.id, corr, kind)
    ensures j < k && log[j].channel == ch && log[j].trace.corr == corr && kind(log[j].trace.payload)
  {
    var t :| Entry(ch, t) in log[..k] && t.id == log[j].trace.id && t.corr == corr && kind(t.payload);
    var i :| 0 <= i < k && log[..k][i] == Entry(ch, t);
    assert i == j;
  }

  lemma {:induction false} DerivedHasParents(c: B.Config, log: Log, k: nat)
    requires BoardOk(c, log) && IdsOk(log) && k < |log|
    ensures log[k].channel == Requirement ==> log[k].trace.parents == []
    ensures Derived(log[k].trace.payload) ==> log[k].trace.parents != []
  {
    hide BoardOk, Logged, CandidateLogged, B.AwardHolds, B.ParentsOf, DecidedFrom, IdsOk;
    var t := log[k].trace;
    JustifiedAt(c, log, k);
    if t.payload.Award? {
      AwardHasParents(c, log, k, t.corr, t.payload);
    }
  }

  lemma AwardHasParents(c: B.Config, log: Log, k: nat, corr: string, award: Payload)
    requires IdsOk(log) && k <= |log| && award.Award? && B.AwardHolds(c, award)
    requires forall x | x in award.ranked :: CandidateLogged(c, log[..k], corr, x)
    ensures B.ParentsOf(award.ranked) != []
  {
    hide Logged, B.Composite, B.ParentsOf;
    var w :| w in award.ranked && B.Passes(c.policy, w.risk);
    LoggedHasId(log[..k], Deal, w.dealId, corr, Exactly(Quote(w.supplier, w.deal)));
    B.CandidateIsParent(award.ranked, w);
  }

  /** Whichever parents are followed from a discovery, score, risk, quote or award, the path goes back in time under one
      correlation id, it can be continued to a requirement, and it ends nowhere else. */
  lemma {:induction false} RootedInRequirement(c: B.Config, ss: seq<State>, ms: seq<Move>, n: nat, path: seq<nat>)
    returns (root: seq<nat>)
    requires Run(c, ss, ms) && n < |ss| && Ancestry(ss[n].log, path) && Derived(ss[n].log[path[0]].trace.payload)
    ensures Ancestry(ss[n].log, root) && path <= root
    ensures forall i | 0 <= i < |root| - 1 :: root[i + 1] < root[i]
    ensures forall i | 0 <= i < |root| :: ss[n].log[root[i]].trace.corr == ss[n].log[path[0]].trace.corr
    ensures ss[n].log[root[|root| - 1]].channel == Requirement
    ensures ss[n].log[path[|path| - 1]].trace.parents == [] ==> root == path
  {
    hide Run, BoardOk, ActorOk, IdsOk;
    EveryStateIsSound(c, ss, ms, n);
    var log := ss[n].log;
    PathLeadsBack(c, log, path);
    root := RootOf(c, log, path);
  }

  predicate LeadsBack(log: Log, path: seq<nat>)
    requires Ancestry(log, path)
  {
    && (forall i | 0 <= i < |path| - 1 :: path[i + 1] < path[i])
    && forall i | 0 <= i < |path| :: log[path[i]].trace.corr == log[path[0]].trace.corr
  }

  lemma {:induction false} PathLeadsBack(c: B.Config, log: Log, path: seq<nat>)
    requires BoardOk(c, log) && IdsOk(log) && Ancestry(log, path) && Derived(log[path[0]].trace.payload)
    ensures LeadsBack(log, path)
    ensures var k := path[|path| - 1]; Derived(log[k].trace.payload) || log[k].channel == Requirement
  {
    hide BoardOk, IdsOk, Derived;
    var n := |path| - 1;
    if n > 0 {
      PathLeadsBack(c, log, path[..n]);
      DerivedHasParents(c, log, path[n - 1]);
      ParentIsDerived(c, log, path[n - 1], path[n]);
    }
  }

  lemma {:induction false} RootOf(c: B.Config, log: Log, path: seq<nat>) returns (root: seq<nat>)
    requires BoardOk(c, log) && IdsOk(log) && Ancestry(log, path) && LeadsBack(log, path)
    requires var k := path[|path| - 1]; Derived(log[k].trace.payload) || log[k].channel == Requirement
    ensures Ancestry(log, root) && path <= root && LeadsBack(log, root)
    ensures log[root[|root| - 1]].channel == Requirement
    ensures log[path[|path| - 1]].trace.parents == [] ==> root == path
    decreases path[|path| - 1]
  {
    hide BoardOk, IdsOk, Derived;
    var k := path[|path| - 1];
    DerivedHasParents(c, log, k);
    if log[k].channel == Requirement {
      root := path;
    } else {
      var j := EarlierParent(c, log, k, log[k].trace.parents[0]);
      ParentIsDerived(c, log, k, j);
      root := RootOf(c, log, path + [j]);
    }
  }

  /** Nothing is done twice by an archetype that has one actor which is not restarted: the scout's lists and the
      buyer's awards are unique for each correlation id, the evaluator's evaluations and the negotiator's quotes for
      each supplier under it. */
  lemma {:induction false} NothingTwice(c: B.Config, who: string, ss: seq<State>, ms: seq<Move>, n: nat, i: nat, j: nat)
    requires Behaviour(c, who, ss, ms) && n < |ss| && i < |ss[n].log| && j < |ss[n].log|
    requires OwnerOf(ss[n].log[i].trace.payload) == OwnerOf(ss[n].log[j].trace.payload) == who
    requires WorkKey(ss[n].log[i].trace.payload, ss[n].log[i].trace.corr)
          == WorkKey(ss[n].log[j].trace.payload, ss[n].log[j].trace.corr)
    ensures i == j
  {
    hide Behaviour, Sound, OwnerOf, WorkKey;
    EveryStateIsGood(c, who, ss, ms, n);
  }

  /** A single buyer is never restarted, so nothing else is asked of a run. */
  lemma SingleBuyer(c: B.Config, ss: seq<State>, ms: seq<Move>)
    requires Run(c, ss, ms) && Singleton(ss[0], "buyer")
    ensures Behaviour(c, "buyer", ss, ms)
  {
    hide Next, Singleton, Initial;
    forall k | 0 <= k < |ms|
      ensures !Restarts(ss[k], ms[k], "buyer")
    {
      assert Enabled(ss[k], ms[k]);
    }
  }

  /** In particular: with the singleton buyer, and however many other actors and restarts of them, at most one award per
      correlation id is ever on the board. */
  lemma {:induction false} AtMostOneAward(c: B.Config, ss: seq<State>, ms: seq<Move>, n: nat, i: nat, j: nat)
    requires Run(c, ss, ms) && Singleton(ss[0], "buyer") && n < |ss| && i < |ss[n].log| && j < |ss[n].log|
    requires ss[n].log[i].trace.payload.Award? && ss[n].log[j].trace.payload.Award?
    requires ss[n].log[i].trace.corr == ss[n].log[j].trace.corr
    ensures i == j
  {
    hide Run, Behaviour;
    SingleBuyer(c, ss, ms);
    NothingTwice(c, "buyer", ss, ms, n, i, j);
  }

  /** Every award was written by the buyer and is its decision on candidates read off the board at some moments before:
      it ranks exactly those, each taken from a quote, an evaluation and at most one risk assessment on the board; it
      names one that passes the policy, and none that passes has a higher composite. */
  lemma {:induction false} AwardIsBest(c: B.Config, ss: seq<State>, ms: seq<Move>, n: nat, k: nat)
    returns (d: nat, r: nat, sc: nat)
    requires Run(c, ss, ms) && n < |ss| && k < |ss[n].log| && ss[n].log[k].trace.payload.Award?
    ensures var t := ss[n].log[k].trace;
            && ss[n].log[k].channel == Decision && t.archetype == "buyer"
            && B.AwardHolds(c, t.payload)
            && forall x | x in t.payload.ranked :: CandidateLogged(c, ss[n].log[..k], t.corr, x)
    ensures d <= r <= sc <= k
    ensures var t := ss[n].log[k].trace;
            var pool := B.Pool(c, BuyerReads(ss[n].log[..k], d, r, sc), t.corr);
            t.payload == B.Decide(c, pool) && forall x :: x in t.payload.ranked <==> x in pool
  {
    hide Run, ActorOk, B.AwardHolds, CandidateLogged, B.Pool, B.Decide, BuyerReads;
    EveryStateIsSound(c, ss, ms, n);
    var log, t := ss[n].log, ss[n].log[k].trace;
    JustifiedAt(c, log, k);
    d, r, sc :| DecidedAt(c, log[..k], t.corr, t.payload, d, r, sc);
    B.DecideMeans(c, B.Pool(c, BuyerReads(log[..k], d, r, sc), t.corr));
  }

  /** Every refusal to award is the buyer's decision on candidates read off the board before it, none of which passes
      the policy. */
  lemma {:induction false} RefusalIsRight(c: B.Config, ss: seq<State>, ms: seq<Move>, n: nat, k: nat)
    returns (d: nat, r: nat, sc: nat)
    requires Run(c, ss, ms) && n < |ss| && k < |ss[n].log| && ss[n].log[k].trace.payload.NoAward?
    ensures d <= r <= sc <= k
    ensures forall x | x in B.Pool(c, BuyerReads(ss[n].log[..k], d, r, sc), ss[n].log[k].trace.corr) ::
              !B.Passes(c.policy, x.risk)
  {
    hide Run, ActorOk, CandidateLogged, B.Pool, B.Decide, BuyerReads, B.Passes;
    EveryStateIsSound(c, ss, ms, n);
    var log, t := ss[n].log, ss[n].log[k].trace;
    JustifiedAt(c, log, k);
    d, r, sc :| DecidedAt(c, log[..k], t.corr, t.payload, d, r, sc);
    B.DecideMeans(c, B.Pool(c, BuyerReads(log[..k], d, r, sc), t.corr));
  }
}
