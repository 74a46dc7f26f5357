/** The mesh as a transition system: scouts, evaluators, negotiators and one buyer share the blackboard
    (mesh/actors). Each read and each write is one atomic step of the blackboard actor, so the writes of one actor's
    act interleave with everything the others do, and what an actor reasons from may be older than the board it
    writes to. What suppliers, scores, risks and quotes are computed is arbitrary, as is the kernel's verdict; any actor
    may raise at any point, and any but the buyer may be restarted. */
module Mesh {
  import opened Basics
  import opened Blackboard
  import B = MeshBuyer

  type Log = seq<Entry>

  /** A write an actor still has to make. A chained write names the latest anchoring write before it as parent. */
  datatype Planned = Planned(channel: Channel, payload: Payload, corr: string, parents: seq<string>,
                             chained: bool, anchors: bool)

  datatype Actor = Actor(archetype: string, done: set<(string, string)>, plan: seq<Planned>, anchor: Option<Trace>)

  datatype State = State(log: Log, actors: seq<Actor>)

  // What was in a channel when the log had n entries.
  function ReadAt(log: Log, n: nat, ch: Channel, limit: int): seq<Trace>
    requires n <= |log|
  {
    Recent(Content(log[..n], ch), limit)
  }

  // ---- what each archetype proposes

  function ScoutWrites(t: Trace, suppliers: seq<string>): seq<Planned> {
    [Planned(Discovery, SupplierList(suppliers), t.corr, [t.id], false, true)]
    + seq(|suppliers|, k requires 0 <= k < |suppliers| =>
        Planned(Discovery, SupplierDiscovered(suppliers[k], ""), t.corr, [], true, false))
  }

  function ScoutReasons(reqs: seq<Trace>, done: set<(string, string)>, pool: Trace -> seq<string>)
    : (seq<Planned>, set<(string, string)>)
  {
    if reqs == [] then ([], done)
    else
      var before, t := ScoutReasons(reqs[..|reqs| - 1], done, pool), reqs[|reqs| - 1];
      if (t.corr, "") in before.1 then before else (before.0 + ScoutWrites(t, pool(t)), before.1 + {(t.corr, "")})
  }

  function IsListIn(corr: string): Trace -> bool { (t: Trace) => t.corr == corr && t.payload.SupplierList? }
  function IsListNamed(id: string): Trace -> bool { (t: Trace) => t.id == id && t.payload.SupplierList? }

  function FirstHit(ts: seq<Trace>, hit: Trace -> bool): Option<Trace> {
    if ts == [] then None else if hit(ts[0]) then Some(ts[0]) else FirstHit(ts[1..], hit)
  }

  lemma {:induction false} FirstHitMeans(ts: seq<Trace>, hit: Trace -> bool)
    ensures FirstHit(ts, hit).Some? ==> FirstHit(ts, hit).value in ts && hit(FirstHit(ts, hit).value)
  {
    if ts != [] {
      FirstHitMeans(ts[1..], hit);
    }
  }

  function EvaluatorWrites(t: Trace, data: (ScoreData, RiskData)): seq<Planned>
    requires t.payload.SupplierDiscovered?
  {
    [Planned(Score, Evaluation(t.payload.supplier, data.0), t.corr, [t.id], false, true),
     Planned(Risk, RiskAssessment(t.payload.supplier, data.1), t.corr, [], true, false)]
  }

  // The pool is looked up by id, then by correlation id; a supplier missing from it is left for another time.
  function EvaluatorPool(t: Trace, pools: seq<Trace>): Option<Trace>
    requires t.payload.SupplierDiscovered?
  {
    var byId := FirstHit(pools, IsListNamed(t.payload.pool));
    if byId.Some? then byId else FirstHit(pools, IsListIn(t.corr))
  }

  function Listed(pool: Option<Trace>, supplier: string): bool {
    pool.Some? && pool.value.payload.SupplierList? && supplier in pool.value.payload.suppliers
  }

  function EvaluatorReasons(ds: seq<Trace>, done: set<(string, string)>, pools: Trace -> seq<Trace>,
                            data: Trace -> (ScoreData, RiskData)): (seq<Planned>, set<(string, string)>)
  {
    if ds == [] then ([], done)
    else
      var before, t := EvaluatorReasons(ds[..|ds| - 1], done, pools, data), ds[|ds| - 1];
      if !t.payload.SupplierDiscovered? || t.payload.supplier == "" || (t.corr, t.payload.supplier) in before.1
         || !Listed(EvaluatorPool(t, pools(t)), t.payload.supplier)
      then before
      else (before.0 + EvaluatorWrites(t, data(t)), before.1 + {(t.corr, t.payload.supplier)})
  }

  function NegotiatorWrites(t: Trace, pool: Trace, deal: DealData): seq<Planned>
    requires t.payload.Evaluation?
  {
    [Planned(Deal, Quote(t.payload.supplier, deal), t.corr, [t.id, pool.id], false, false)]
  }

  function NegotiatorReasons(es: seq<Trace>, done: set<(string, string)>, pools: Trace -> seq<Trace>,
                             data: Trace -> DealData): (seq<Planned>, set<(string, string)>)
  {
    if es == [] then ([], done)
    else
      var before, t := NegotiatorReasons(es[..|es| - 1], done, pools, data), es[|es| - 1];
      var pool := FirstHit(pools(t), IsListIn(t.corr));
      if !t.payload.Evaluation? || t.payload.supplier == "" || (t.corr, t.payload.supplier) in before.1
         || !Listed(pool, t.payload.supplier)
      then before
      else (before.0 + NegotiatorWrites(t, pool.value, data(t)), before.1 + {(t.corr, t.payload.supplier)})
  }

  function BuyerWrites(ps: seq<B.Proposal>): (plan: seq<Planned>)
    ensures |plan| == |ps|
  {
    seq(|ps|, k requires 0 <= k < |ps| =>
      Planned(Decision, ps[k].decision, ps[k].corr, B.DecisionParents(ps[k].decision), false, false))
  }

  function Decided(done: set<(string, string)>): set<string> { set x | x in done :: x.0 }

  function Marks(corrs: set<string>): set<(string, string)> { set c | c in corrs :: (c, "") }

  // ---- moves

  datatype Move =
    | Post(id: string, corr: string)
    | Scouting(a: nat, at: nat, pool: Trace -> seq<string>, approved: bool)
    | Evaluating(a: nat, at: nat, poolAt: Trace -> nat, scores: Trace -> (ScoreData, RiskData), approved: bool)
    | Negotiating(a: nat, at: nat, poolAt: Trace -> nat, quotes: Trace -> DealData, approved: bool)
    | Buying(a: nat, dealsAt: nat, risksAt: nat, scoresAt: nat, approved: bool)
    | Writing(a: nat, id: string)
    | Raising(a: nat)
    | Restarting(a: nat)

  // The archetypes that are started again when they die; the buyer is not.
  const RESTARTED := {"scout", "evaluator", "negotiator"}

  predicate Fresh(log: Log, id: string) { id != "" && forall k | 0 <= k < |log| :: log[k].trace.id != id }

  predicate Idle(s: State, a: nat, archetype: string) {
    a < |s.actors| && s.actors[a].archetype == archetype && s.actors[a].plan == []
  }

  predicate Enabled(s: State, m: Move) {
    match m
    case Post(id, _) => Fresh(s.log, id)
    case Scouting(a, at, _, _) => Idle(s, a, "scout") && at <= |s.log|
    case Evaluating(a, at, _, _, _) => Idle(s, a, "evaluator") && at <= |s.log|
    case Negotiating(a, at, _, _, _) => Idle(s, a, "negotiator") && at <= |s.log|
    case Buying(a, d, r, sc, _) => Idle(s, a, "buyer") && d <= r <= sc <= |s.log|
    case Writing(a, id) => a < |s.actors| && s.actors[a].plan != [] && Fresh(s.log, id)
    case Raising(a) => a < |s.actors|
    case Restarting(a) => a < |s.actors| && s.actors[a].archetype in RESTARTED
  }

  // A lookup happens at some moment up to now.
  function PoolRead(log: Log, n: nat): seq<Trace> { ReadAt(log, if n <= |log| then n else |log|, Discovery, 20) }

  function Lookups(log: Log, poolAt: Trace -> nat): Trace -> seq<Trace> { (t: Trace) => PoolRead(log, poolAt(t)) }

  // The kernel's verdict comes after the actor has marked its work as done.
  function Proposed(x: Actor, r: (seq<Planned>, set<(string, string)>), approved: bool): Actor {
    x.(plan := if approved then r.0 else [], done := r.1, anchor := None)
  }

  function BuyerReads(log: Log, dealsAt: nat, risksAt: nat, scoresAt: nat): B.Reads
    requires dealsAt <= risksAt <= scoresAt <= |log|
  {
    B.Reads(ReadAt(log, dealsAt, Deal, 100), ReadAt(log, risksAt, Risk, 100), ReadAt(log, scoresAt, Score, 100))
  }

  function BuyerReasons(c: B.Config, r: B.Reads, done: set<(string, string)>): (seq<Planned>, set<(string, string)>) {
    var ps := B.Reason(c, r, Decided(done));
    (BuyerWrites(ps), done + Marks(B.Awarded(ps)))
  }

  function FailureWrite(archetype: string): Planned {
    Planned(if archetype == "scout" then Discovery else Score, Failure, "", [], false, false)
  }

  function Filled(p: Planned, anchor: Option<Trace>): (Payload, seq<string>) {
    if p.chained && anchor.Some?
    then (if p.payload.SupplierDiscovered? then p.payload.(pool := anchor.value.id) else p.payload, [anchor.value.id])
    else (p.payload, p.parents)
  }

  function Traced(x: Actor, id: string): Trace
    requires x.plan != []
  {
    var f := Filled(x.plan[0], x.anchor);
    Trace(id, x.archetype, f.0, f.1, x.plan[0].corr)
  }

  // A refused write raises; a refused failure report is dropped.
  function AfterWrite(x: Actor, id: string): Actor
    requires x.plan != []
  {
    var p := x.plan[0];
    if x.archetype in Writers(p.channel)
    then x.(plan := x.plan[1..], anchor := if p.anchors then Some(Traced(x, id)) else x.anchor)
    else x.(plan := if p.payload.Failure? then [] else [FailureWrite(x.archetype)])
  }

  function Next(c: B.Config, s: State, m: Move): State
    requires Enabled(s, m)
  {
    match m
    case Post(id, corr) => s.(log := s.log + [Entry(Requirement, Trace(id, "kernel", NewRequirement, [], corr))])
    case Scouting(a, at, pool, approved) =>
      var x := s.actors[a];
      s.(actors := s.actors[a := Proposed(x, ScoutReasons(ReadAt(s.log, at, Requirement, 10), x.done, pool), approved)])
    case Evaluating(a, at, poolAt, scores, approved) =>
      var x := s.actors[a];
      var r := EvaluatorReasons(ReadAt(s.log, at, Discovery, 50), x.done, Lookups(s.log, poolAt), scores);
      s.(actors := s.actors[a := Proposed(x, r, approved)])
    case Negotiating(a, at, poolAt, quotes, approved) =>
      var x := s.actors[a];
      var r := NegotiatorReasons(ReadAt(s.log, at, Score, 50), x.done, Lookups(s.log, poolAt), quotes);
      s.(actors := s.actors[a := Proposed(x, r, approved)])
    case Buying(a, d, r, sc, approved) =>
      var x := s.actors[a];
      s.(actors := s.actors[a := Proposed(x, BuyerReasons(c, BuyerReads(s.log, d, r, sc), x.done), approved)])
    case Writing(a, id) =>
      var x := s.actors[a];
      var ch := x.plan[0].channel;
      State(if x.archetype in Writers(ch) then s.log + [Entry(ch, Traced(x, id))] else s.log,
            s.actors[a := AfterWrite(x, id)])
    case Raising(a) =>
      s.(actors := s.actors[a := s.actors[a].(plan := [FailureWrite(s.actors[a].archetype)])])
    case Restarting(a) => s.(actors := s.actors[a := Actor(s.actors[a].archetype, {}, [], None)])
  }

  /** An empty board, and actors that have done nothing. */
  predicate Initial(s: State) {
    && s.log == []
    && forall a | 0 <= a < |s.actors| :: s.actors[a].plan == [] && s.actors[a].done == {} && s.actors[a].anchor.None?
  }

  predicate Singleton(s: State, who: string) {
    forall a, b | 0 <= a < |s.actors| && 0 <= b < |s.actors| ::
      s.actors[a].archetype == who && s.actors[b].archetype == who ==> a == b
  }

  predicate Restarts(s: State, m: Move, who: string) {
    m.Restarting? && m.a < |s.actors| && s.actors[m.a].archetype == who
  }

  /** The states a run goes through, from an initial one on, and the moves between them. */
  ghost predicate Run(c: B.Config, ss: seq<State>, ms: seq<Move>) {
    && |ss| == |ms| + 1 && Initial(ss[0])
    && forall k {:trigger ms[k]} | 0 <= k < |ms| :: Enabled(ss[k], ms[k]) && ss[k + 1] == Next(c, ss[k], ms[k])
  }

  /** A run in which at most one actor is of the archetype, and none of that archetype is ever restarted. */
  ghost predicate Behaviour(c: B.Config, who: string, ss: seq<State>, ms: seq<Move>) {
    && Run(c, ss, ms) && who != "" && Singleton(ss[0], who)
    && forall k {:trigger ms[k]} | 0 <= k < |ms| :: !Restarts(ss[k], ms[k], who)
  }

  // ---- why a write is justified

  /** A trace of this kind, with this id and correlation id, is in this channel. */
  ghost predicate Logged(log: Log, ch: Channel, id: string, corr: string, kind: Payload -> bool) {
    exists t :: Entry(ch, t) in log && t.id == id && t.corr == corr && kind(t.payload)
  }

  function ARequirement(): Payload -> bool { (p: Payload) => p.NewRequirement? }
  function AListOf(supplier: string): Payload -> bool { (p: Payload) => p.SupplierList? && supplier in p.suppliers }
  function ADiscoveryOf(supplier: string): Payload -> bool {
    (p: Payload) => p.SupplierDiscovered? && p.supplier == supplier
  }
  function AnEvaluationOf(supplier: string): Payload -> bool { (p: Payload) => p.Evaluation? && p.supplier == supplier }
  function Exactly(p: Payload): Payload -> bool { (q: Payload) => q == p }

  /** The candidate's quote, evaluation and risk assessment are on the board under its trace ids, and its composite is
      computed from them. */
  ghost predicate CandidateLogged(c: B.Config, log: Log, corr: string, x: Candidate) {
    && Logged(log, Deal, x.dealId, corr, Exactly(Quote(x.supplier, x.deal)))
    && Logged(log, Score, x.scoreId, corr, Exactly(Evaluation(x.supplier, x.score)))
    && (x.risk.Some? ==> Logged(log, Risk, x.riskId, corr, Exactly(RiskAssessment(x.supplier, x.risk.value))))
    && (x.risk.None? ==> x.riskId == "")
    && x.composite == B.Composite(c, x.deal, x.score, x.risk)
  }

  /** The buyer decides this on the candidates it read off the board at these moments. */
  predicate DecidedAt(c: B.Config, log: Log, corr: string, decision: Payload, d: nat, r: nat, sc: nat) {
    d <= r <= sc <= |log| && decision == B.Decide(c, B.Pool(c, BuyerReads(log, d, r, sc), corr))
  }

  ghost predicate DecidedFrom(c: B.Config, log: Log, corr: string, decision: Payload) {
    exists d, r, sc :: DecidedAt(c, log, corr, decision, d, r, sc)
  }

  /** Each kind of trace belongs to one channel and names as parents traces already on the board, of the kind it is
      derived from, for the same supplier and correlation id; a decision follows from what was read off the board. */
  ghost predicate Justified(c: B.Config, log: Log, ch: Channel, payload: Payload, corr: string, parents: seq<string>) {
    match payload
    case NewRequirement => ch == Requirement && parents == []
    case SupplierList(_) =>
      ch == Discovery && |parents| == 1 && Logged(log, Requirement, parents[0], corr, ARequirement())
    case SupplierDiscovered(s, pool) =>
      ch == Discovery && parents == [pool] && Logged(log, Discovery, pool, corr, AListOf(s))
    case Evaluation(s, _) =>
      ch == Score && |parents| == 1 && Logged(log, Discovery, parents[0], corr, ADiscoveryOf(s))
    case RiskAssessment(s, _) =>
      ch == Risk && |parents| == 1 && Logged(log, Score, parents[0], corr, AnEvaluationOf(s))
    case Quote(s, _) =>
      ch == Deal && |parents| == 2 && Logged(log, Score, parents[0], corr, AnEvaluationOf(s))
      && Logged(log, Discovery, parents[1], corr, AListOf(s))
    case Award(_, _, ranked) =>
      ch == Decision && B.AwardHolds(c, payload) && (forall x | x in ranked :: CandidateLogged(c, log, corr, x))
      && parents == B.DecisionParents(payload) && DecidedFrom(c, log, corr, payload)
    case NoAward(_) => ch == Decision && parents == [] && DecidedFrom(c, log, corr, payload)
    case Failure => (ch == Discovery || ch == Score) && parents == [] && corr == ""
  }

  lemma LoggedLater(log: Log, log': Log, ch: Channel, id: string, corr: string, kind: Payload -> bool)
    requires log <= log' && Logged(log, ch, id, corr, kind)
    ensures Logged(log', ch, id, corr, kind)
  {
    var t :| Entry(ch, t) in log && t.id == id && t.corr == corr && kind(t.payload);
    assert Entry(ch, t) in log';
  }

  lemma CandidateLater(c: B.Config, log: Log, log': Log, corr: string, x: Candidate)
    requires log <= log' && CandidateLogged(c, log, corr, x)
    ensures CandidateLogged(c, log', corr, x)
  {
    hide Logged;
    LoggedLater(log, log', Deal, x.dealId, corr, Exactly(Quote(x.supplier, x.deal)));
    LoggedLater(log, log', Score, x.scoreId, corr, Exactly(Evaluation(x.supplier, x.score)));
    if x.risk.Some? {
      LoggedLater(log, log', Risk, x.riskId, corr, Exactly(RiskAssessment(x.supplier, x.risk.value)));
    }
  }

  lemma DecidedLater(c: B.Config, log: Log, log': Log, corr: string, decision: Payload)
    requires log <= log' && DecidedFrom(c, log, corr, decision)
    ensures DecidedFrom(c, log', corr, decision)
  {
    hide B.Decide, B.Pool, ReadAt;
    var d, r, sc :| DecidedAt(c, log, corr, decision, d, r, sc);
    assert log'[..|log|] == log;
    ReadLater(log, log', d, Deal);
    ReadLater(log, log', r, Risk);
    ReadLater(log, log', sc, Score);
    assert DecidedAt(c, log', corr, decision, d, r, sc);
  }

  lemma ReadLater(log: Log, log': Log, n: nat, ch: Channel)
    requires log <= log' && n <= |log|
    ensures ReadAt(log', n, ch, 100) == ReadAt(log, n, ch, 100)
  {
    assert log'[..n] == log[..n];
  }

  lemma JustifiedLater(c: B.Config, log: Log, log': Log, ch: Channel, payload: Payload, corr: string,
                       parents: seq<string>)
    requires log <= log' && Justified(c, log, ch, payload, corr, parents)
    ensures Justified(c, log', ch, payload, corr, parents)
  {
    hide Logged, CandidateLogged, B.AwardHolds, DecidedFrom;
    match payload
    case SupplierList(_) => LoggedLater(log, log', Requirement, parents[0], corr, ARequirement());
    case SupplierDiscovered(s, pool) => LoggedLater(log, log', Discovery, pool, corr, AListOf(s));
    case Evaluation(s, _) => LoggedLater(log, log', Discovery, parents[0], corr, ADiscoveryOf(s));
    case RiskAssessment(s, _) => LoggedLater(log, log', Score, parents[0], corr, AnEvaluationOf(s));
    case Quote(s, _) =>
      LoggedLater(log, log', Score, parents[0], corr, AnEvaluationOf(s));
      LoggedLater(log, log', Discovery, parents[1], corr, AListOf(s));
    case Award(_, _, ranked) =>
      forall x | x in ranked
        ensures CandidateLogged(c, log', corr, x)
      {
        CandidateLater(c, log, log', corr, x);
      }
      DecidedLater(c, log, log', corr, payload);
    case NoAward(_) => DecidedLater(c, log, log', corr, payload);
    case _ =>
  }

  // ---- what an actor's remaining plan is good for

  datatype Anchor = Unset | Set(payload: Payload, corr: string)

  function AnchorOf(t: Option<Trace>): Anchor { if t.None? then Unset else Set(t.value.payload, t.value.corr) }

  predicate ChainOk(anchor: Anchor, p: Planned) {
    && anchor.Set? && anchor.corr == p.corr
    && (|| (p.payload.SupplierDiscovered? && p.channel == Discovery
            && anchor.payload.SupplierList? && p.payload.supplier in anchor.payload.suppliers)
        || (p.payload.RiskAssessment? && p.channel == Risk
            && anchor.payload.Evaluation? && p.payload.supplier == anchor.payload.supplier))
  }

  ghost predicate PlanOk(c: B.Config, log: Log, anchor: Anchor, plan: seq<Planned>)
    decreases |plan|
  {
    plan == [] ||
    (var p := plan[0];
     && (if p.chained then ChainOk(anchor, p) else Justified(c, log, p.channel, p.payload, p.corr, p.parents))
     && (p.anchors ==> p.payload.SupplierList? || p.payload.Evaluation?)
     && PlanOk(c, log, if p.anchors then Set(p.payload, p.corr) else anchor, plan[1..]))
  }

  lemma {:induction false} PlanLater(c: B.Config, log: Log, log': Log, anchor: Anchor, plan: seq<Planned>)
    requires log <= log' && PlanOk(c, log, anchor, plan)
    ensures PlanOk(c, log', anchor, plan)
    decreases |plan|
  {
    hide Justified;
    if plan != [] {
      var p := plan[0];
      PlanLater(c, log, log', if p.anchors then Set(p.payload, p.corr) else anchor, plan[1..]);
      if !p.chained {
        JustifiedLater(c, log, log', p.channel, p.payload, p.corr, p.parents);
      }
    }
  }

  lemma {:induction false} PlanJoined(c: B.Config, log: Log, anchor: Anchor, p: seq<Planned>, q: seq<Planned>)
    requires PlanOk(c, log, anchor, p) && PlanOk(c, log, Unset, q)
    ensures PlanOk(c, log, anchor, p + q)
    decreases |p|
  {
    hide Justified;
    if p == [] {
      assert p + q == q;
      PlanFromAny(c, log, anchor, q);
    } else {
      PlanJoined(c, log, if p[0].anchors then Set(p[0].payload, p[0].corr) else anchor, p[1..], q);
      assert (p + q)[1..] == p[1..] + q;
    }
  }

  lemma {:induction false} PlanFromAny(c: B.Config, log: Log, anchor: Anchor, q: seq<Planned>)
    requires PlanOk(c, log, Unset, q)
    ensures PlanOk(c, log, anchor, q)
    decreases |q|
  {
    hide Justified;
    if q != [] && !q[0].anchors {
      PlanFromAny(c, log, anchor, q[1..]);
    }
  }

  // ---- reasoning yields good plans

  // What was read is on the board, in the channel it was read from.
  lemma ReadIsLogged(log: Log, n: nat, ch: Channel, limit: int, t: Trace)
    requires n <= |log| && t in ReadAt(log, n, ch, limit)
    ensures Entry(ch, t) in log
  {
    RecentShape(Content(log[..n], ch), limit);
    ContentMember(log[..n], ch, t);
  }

  ghost predicate AllLogged(log: Log, ch: Channel, ts: seq<Trace>) {
    forall t | t in ts :: Entry(ch, t) in log
  }

  lemma ReadAllLogged(log: Log, n: nat, ch: Channel, limit: int)
    requires n <= |log|
    ensures AllLogged(log, ch, ReadAt(log, n, ch, limit))
  {
    hide ReadAt;
    forall t | t in ReadAt(log, n, ch, limit)
      ensures Entry(ch, t) in log
    {
      ReadIsLogged(log, n, ch, limit, t);
    }
  }

  lemma PoolAllLogged(log: Log, n: nat)
    ensures AllLogged(log, Discovery, PoolRead(log, n))
  {
    ReadAllLogged(log, if n <= |log| then n else |log|, Discovery, 20);
  }

  lemma IsLogged(log: Log, ch: Channel, t: Trace, kind: Payload -> bool)
    requires Entry(ch, t) in log && kind(t.payload)
    ensures Logged(log, ch, t.id, t.corr, kind)
  {
  }

  /** Every entry of the board is justified by what stood before it. */
  ghost predicate BoardOk(c: B.Config, log: Log) {
    forall k | 0 <= k < |log| ::
      Justified(c, log[..k], log[k].channel, log[k].trace.payload, log[k].trace.corr, log[k].trace.parents)
  }

  lemma ChannelHoldsKind(c: B.Config, log: Log, ch: Channel, t: Trace)
    requires BoardOk(c, log) && Entry(ch, t) in log
    ensures ch == Requirement ==> t.payload.NewRequirement?
    ensures t.payload.SupplierList? || t.payload.SupplierDiscovered? ==> ch == Discovery
    ensures t.payload.Award? ==> ch == Decision
  {
    hide Logged, CandidateLogged, B.AwardHolds;
    var k :| 0 <= k < |log| && log[k] == Entry(ch, t);
    assert Justified(c, log[..k], log[k].channel, log[k].trace.payload, log[k].trace.corr, log[k].trace.parents);
  }

  // A chain of writes hanging off one list.
  lemma {:induction false} ChainedListOk(c: B.Config, log: Log, list: Payload, corr: string, plan: seq<Planned>)
    requires list.SupplierList?
    requires forall p | p in plan :: p.chained && !p.anchors && p.channel == Discovery && p.corr == corr
                                  && p.payload.SupplierDiscovered? && p.payload.supplier in list.suppliers
    ensures PlanOk(c, log, Set(list, corr), plan)
    decreases |plan|
  {
    if plan != [] {
      assert plan[0] in plan;
      ChainedListOk(c, log, list, corr, plan[1..]);
    }
  }

  lemma {:induction false} ScoutWritesOk(c: B.Config, log: Log, t: Trace, suppliers: seq<string>)
    requires Logged(log, Requirement, t.id, t.corr, ARequirement())
    ensures PlanOk(c, log, Unset, ScoutWrites(t, suppliers))
  {
    hide Logged;
    var plan := ScoutWrites(t, suppliers);
    ChainedListOk(c, log, SupplierList(suppliers), t.corr, plan[1..]);
  }

  lemma {:induction false} ScoutPlanOk(c: B.Config, log: Log, reqs: seq<Trace>, done: set<(string, string)>,
                                       pool: Trace -> seq<string>)
    requires AllLogged(log, Requirement, reqs) && BoardOk(c, log)
    ensures PlanOk(c, log, Unset, ScoutReasons(reqs, done, pool).0)
  {
    hide Logged, Justified, PlanOk, BoardOk, ScoutWrites, AllLogged;
    if reqs == [] {
      EmptyPlanOk(c, log);
    } else {
      var n := |reqs| - 1;
      AllLoggedPrefix(log, Requirement, reqs);
      ScoutPlanOk(c, log, reqs[..n], done, pool);
      ChannelHoldsKind(c, log, Requirement, reqs[n]);
      IsLogged(log, Requirement, reqs[n], ARequirement());
      ScoutWritesOk(c, log, reqs[n], pool(reqs[n]));
      PlanJoined(c, log, Unset, ScoutReasons(reqs[..n], done, pool).0, ScoutWrites(reqs[n], pool(reqs[n])));
    }
  }

  lemma EmptyPlanOk(c: B.Config, log: Log)
    ensures PlanOk(c, log, Unset, [])
  {
  }

  lemma AllLoggedPrefix(log: Log, ch: Channel, ts: seq<Trace>)
    requires AllLogged(log, ch, ts) && ts != []
    ensures AllLogged(log, ch, ts[..|ts| - 1]) && Entry(ch, ts[|ts| - 1]) in log
  {
  }

  lemma {:induction false} EvaluatorWritesOk(c: B.Config, log: Log, t: Trace, data: (ScoreData, RiskData))
    requires Entry(Discovery, t) in log && t.payload.SupplierDiscovered?
    ensures PlanOk(c, log, Unset, EvaluatorWrites(t, data))
  {
    IsLogged(log, Discovery, t, ADiscoveryOf(t.payload.supplier));
    hide Logged;
    var plan := EvaluatorWrites(t, data);
    assert plan[1..] == [plan[1]] && plan[1..][1..] == [];
    assert PlanOk(c, log, Set(plan[0].payload, plan[0].corr), plan[1..]);
  }

  lemma {:induction false} EvaluatorPlanOk(c: B.Config, log: Log, ds: seq<Trace>, done: set<(string, string)>,
                                           pools: Trace -> seq<Trace>, data: Trace -> (ScoreData, RiskData))
    requires AllLogged(log, Discovery, ds)
    ensures PlanOk(c, log, Unset, EvaluatorReasons(ds, done, pools, data).0)
  {
    hide Logged, Justified, PlanOk, EvaluatorWrites, AllLogged, EvaluatorPool, Listed;
    if ds == [] {
      EmptyPlanOk(c, log);
    } else {
      var n := |ds| - 1;
      AllLoggedPrefix(log, Discovery, ds);
      EvaluatorPlanOk(c, log, ds[..n], done, pools, data);
      if ds[n].payload.SupplierDiscovered? {
        EvaluatorWritesOk(c, log, ds[n], data(ds[n]));
        PlanJoined(c, log, Unset, EvaluatorReasons(ds[..n], done, pools, data).0, EvaluatorWrites(ds[n], data(ds[n])));
      }
    }
  }

  lemma {:induction false} NegotiatorWritesOk(c: B.Config, log: Log, t: Trace, pool: Trace, deal: DealData)
    requires Entry(Score, t) in log && t.payload.Evaluation?
    requires Entry(Discovery, pool) in log && pool.corr == t.corr && AListOf(t.payload.supplier)(pool.payload)
    ensures PlanOk(c, log, Unset, NegotiatorWrites(t, pool, deal))
  {
    IsLogged(log, Score, t, AnEvaluationOf(t.payload.supplier));
    IsLogged(log, Discovery, pool, AListOf(t.payload.supplier));
    hide Logged;
    var plan := NegotiatorWrites(t, pool, deal);
    assert plan[1..] == [];
  }

  lemma {:induction false} NegotiatorPlanOk(c: B.Config, log: Log, es: seq<Trace>, done: set<(string, string)>,
                                            pools: Trace -> seq<Trace>, data: Trace -> DealData)
    requires AllLogged(log, Score, es) && forall t :: AllLogged(log, Discovery, pools(t))
    ensures PlanOk(c, log, Unset, NegotiatorReasons(es, done, pools, data).0)
  {
    hide Logged, Justified, PlanOk, NegotiatorWrites;
    if es == [] {
      EmptyPlanOk(c, log);
    } else {
      var n := |es| - 1;
      var t := es[n];
      AllLoggedPrefix(log, Score, es);
      NegotiatorPlanOk(c, log, es[..n], done, pools, data);
      var pool := FirstHit(pools(t), IsListIn(t.corr));
      FirstHitMeans(pools(t), IsListIn(t.corr));
      assert AllLogged(log, Discovery, pools(t));
      if t.payload.Evaluation? && Listed(pool, t.payload.supplier) {
        NegotiatorWritesOk(c, log, t, pool.value, data(t));
        PlanJoined(c, log, Unset, NegotiatorReasons(es[..n], done, pools, data).0,
                   NegotiatorWrites(t, pool.value, data(t)));
      }
    }
  }

  // ---- the buyer's plan

  lemma {:induction false} BuiltIsLogged(c: B.Config, log: Log, r: B.Reads, corr: string, x: Candidate)
    requires AllLogged(log, Deal, r.deals) && AllLogged(log, Score, r.scores) && AllLogged(log, Risk, r.risks)
    requires B.BuiltFrom(c, r, corr, x)
    ensures CandidateLogged(c, log, corr, x)
  {
    hide B.Composite, Logged;
    var deal, score, risk: Option<Trace> :|
      && deal in r.deals && score in r.scores && (risk.Some? ==> risk.value in r.risks)
      && B.QuoteFor(corr, x.supplier)(deal) && B.ScoreFor(corr, x.supplier)(score)
      && (risk.Some? ==> B.RiskFor(corr, x.supplier)(risk.value))
      && x == B.MakeCandidate(c, deal, score, risk);
    IsLogged(log, Deal, deal, Exactly(Quote(x.supplier, x.deal)));
    IsLogged(log, Score, score, Exactly(Evaluation(x.supplier, x.score)));
    if risk.Some? {
      IsLogged(log, Risk, risk.value, Exactly(RiskAssessment(x.supplier, x.risk.value)));
    }
  }

  ghost predicate ProposalOk(c: B.Config, log: Log, p: B.Proposal) {
    Justified(c, log, Decision, p.decision, p.corr, B.DecisionParents(p.decision))
  }

  ghost predicate ReadsLogged(log: Log, r: B.Reads) {
    AllLogged(log, Deal, r.deals) && AllLogged(log, Score, r.scores) && AllLogged(log, Risk, r.risks)
  }

  lemma BuyerReadsLogged(log: Log, d: nat, r: nat, sc: nat)
    requires d <= r <= sc <= |log|
    ensures ReadsLogged(log, BuyerReads(log, d, r, sc))
  {
    hide ReadAt, AllLogged;
    ReadAllLogged(log, d, Deal, 100);
    ReadAllLogged(log, r, Risk, 100);
    ReadAllLogged(log, sc, Score, 100);
  }

  lemma {:induction false} ProposalsOk(c: B.Config, log: Log, d: nat, r: nat, sc: nat, processed: set<string>)
    requires d <= r <= sc <= |log|
    ensures forall p | p in B.Reason(c, BuyerReads(log, d, r, sc), processed) :: ProposalOk(c, log, p)
  {
    hide B.Reason, B.Pool, B.Decide, B.AwardHolds, CandidateLogged, ReadAt, AllLogged, B.DecisionParents;
    var read := BuyerReads(log, d, r, sc);
    BuyerReadsLogged(log, d, r, sc);
    B.ReasonMeans(c, read, processed);
    B.ReasonDecides(c, read, processed);
    forall p | p in B.Reason(c, read, processed)
      ensures ProposalOk(c, log, p)
    {
      assert DecidedAt(c, log, p.corr, p.decision, d, r, sc);
      if p.decision.Award? {
        forall x | x in p.decision.ranked
          ensures CandidateLogged(c, log, p.corr, x)
        {
          B.PoolMeans(c, read, p.corr, x);
          BuiltIsLogged(c, log, read, p.corr, x);
        }
      } else {
        NoParents(p.decision);
      }
    }
  }

  lemma NoParents(d: Payload)
    ensures !d.Award? ==> B.DecisionParents(d) == []
  {
  }

  lemma {:induction false} PlainPlanOk(c: B.Config, log: Log, anchor: Anchor, plan: seq<Planned>)
    requires forall p | p in plan ::
               !p.chained && !p.anchors && Justified(c, log, p.channel, p.payload, p.corr, p.parents)
    ensures PlanOk(c, log, anchor, plan)
    decreases |plan|
  {
    hide Justified;
    if plan != [] {
      assert plan[0] in plan;
      PlainPlanOk(c, log, anchor, plan[1..]);
    }
  }

  lemma {:induction false} BuyerPlanOk(c: B.Config, log: Log, d: nat, r: nat, sc: nat, done: set<(string, string)>)
    requires d <= r <= sc <= |log|
    ensures PlanOk(c, log, Unset, BuyerReasons(c, BuyerReads(log, d, r, sc), done).0)
  {
    hide B.Reason, Justified, B.DecisionParents, Decided, ReadAt;
    var ps := B.Reason(c, BuyerReads(log, d, r, sc), Decided(done));
    ProposalsOk(c, log, d, r, sc, Decided(done));
    var plan := BuyerWrites(ps);
    forall p | p in plan
      ensures !p.chained && !p.anchors && Justified(c, log, p.channel, p.payload, p.corr, p.parents)
    {
      var k :| 0 <= k < |plan| && plan[k] == p;
      assert ps[k] in ps;
      assert ProposalOk(c, log, ps[k]);
    }
    PlainPlanOk(c, log, Unset, plan);
  }
}
