/** One run of the execution agents from a decision to its status, step by step: what the invariants over every run
    speak about does happen. */
module ExecutionWitness {
  import opened Basics
  import opened SwarmStates
  import opened Execution

  /** A run is its moves, one after another. */
  lemma RunGoesOn(c: Connectors, ms: seq<Move>, m: Move)
    requires Legal(Start(), c, ms) && Enabled(Run(Start(), c, ms), m)
    ensures Legal(Start(), c, ms + [m]) && Run(Start(), c, ms + [m]) == Next(Run(Start(), c, ms), c, m)
  {
    assert (ms + [m])[..|ms|] == ms;
  }

  function Decision(id: string, supplier: string): Art {
    Artifact("decision", "decision", "", 1, DecisionData(id, supplier))
  }

  function Requirement(): Art { Artifact("requirement", "requirement", "", 1, Plain) }

  function Event(id: string): GovEvent { GovEvent("APPROVAL_REQUIRED", id, "governance_decision") }

  function Governance(id: string): Art {
    Artifact("governance_decision", "governance_decision", "", 1, GovernanceData("APPROVAL_REQUIRED", id))
  }

  function Auth(id: string, version: nat, status: string, approver: Option<string>): Art {
    Artifact("execution_authorization", "execution_authorization", "", version,
             AuthorizationData(status, approver, id))
  }

  function Told(id: string, supplier: string): seq<Art> { [Decision(id, supplier), Requirement(), Governance(id)] }

  function Asked(id: string, supplier: string): seq<Art> {
    Told(id, supplier) + [Auth(id, 1, "pending", None)]
  }

  function Allowed(id: string, supplier: string, approver: string): seq<Art> {
    Asked(id, supplier) + [Auth(id, 2, "authorized", Some(approver))]
  }

  function CallOf(action: string, orderId: string): Art {
    Artifact("external_call", "external_call", "", 1, CallData(action, orderId))
  }

  function Ordered(c: Connectors, id: string, supplier: string, approver: string): seq<Art> {
    var orderId := "PO-" + id;
    Allowed(id, supplier, approver)
    + [CallOf("submit_order", orderId),
       Artifact("purchase_order", "purchase_order", "", 1, OrderData(orderId, id, c.submit(orderId)))]
  }

  function Tracked(c: Connectors, id: string, supplier: string, approver: string): seq<Art> {
    var orderId := "PO-" + id;
    Ordered(c, id, supplier, approver)
    + [CallOf("get_order_status", orderId),
       Artifact("execution_status", "execution_status", "", 1, StatusData(orderId, c.track(orderId)))]
  }

  lemma {:induction false} LatestAdded(arts: seq<Art>, a: Art, name: string)
    ensures a.name == name && (Latest(arts, name).None? || a.version > Latest(arts, name).value.version)
            ==> Latest(arts + [a], name) == Some(a)
    ensures a.name != name ==> Latest(arts + [a], name) == Latest(arts, name)
  {
    LatestMore(arts, a, name);
  }

  lemma {:induction false} NothingLatest(name: string)
    ensures Latest<Data>([], name) == None
  {
  }

  // What is in force once the verdict has been recorded.
  lemma {:induction false} ToldLatest(id: string, supplier: string)
    ensures var arts := Told(id, supplier);
            && Latest(arts, "decision") == Some(Decision(id, supplier))
            && Latest(arts, "requirement") == Some(Requirement())
            && Latest(arts, "governance_decision") == Some(Governance(id))
            && Latest(arts, AUTHORIZATION) == None
  {
    hide Latest;
    var d, q, g := Decision(id, supplier), Requirement(), Governance(id);
    assert [] + [d] == [d] && [d] + [q] == [d, q] && [d, q] + [g] == [d, q, g];
    forall name
      ensures Latest(Told(id, supplier), name)
           == if name == "decision" then Some(d) else if name == "requirement" then Some(q)
              else if name == "governance_decision" then Some(g) else None
    {
      NothingLatest(name);
      LatestAdded([], d, name);
      LatestAdded([d], q, name);
      LatestAdded([d, q], g, name);
    }
  }

  lemma {:induction false} AllowedLatest(id: string, supplier: string, approver: string)
    ensures var arts := Allowed(id, supplier, approver);
            && Latest(Asked(id, supplier), AUTHORIZATION) == Some(Auth(id, 1, "pending", None))
            && Latest(arts, AUTHORIZATION) == Some(Auth(id, 2, "authorized", Some(approver)))
            && Latest(arts, "decision") == Some(Decision(id, supplier))
            && Latest(arts, "requirement") == Some(Requirement())
            && Latest(arts, ORDER) == None
  {
    hide Latest;
    ToldLatest(id, supplier);
    var pending, granted := Auth(id, 1, "pending", None), Auth(id, 2, "authorized", Some(approver));
    forall name
      ensures name != AUTHORIZATION ==>
                Latest(Allowed(id, supplier, approver), name) == Latest(Told(id, supplier), name)
    {
      LatestAdded(Told(id, supplier), pending, name);
      LatestAdded(Asked(id, supplier), granted, name);
    }
    LatestAdded(Told(id, supplier), pending, AUTHORIZATION);
    LatestAdded(Asked(id, supplier), granted, AUTHORIZATION);
    LatestMeans(Told(id, supplier), ORDER);
  }

  // ---- the run

  predicate At(c: Connectors, ms: seq<Move>, arts: seq<Art>, published: seq<GovEvent>, approvers: seq<Approver>,
               orderers: seq<Caller>, trackers: seq<Caller>)
  {
    Legal(Start(), c, ms) && Run(Start(), c, ms) == State(arts, published, approvers, orderers, trackers)
  }

  lemma {:induction false} ToTheVerdict(c: Connectors, id: string, supplier: string) returns (ms: seq<Move>)
    ensures At(c, ms, Told(id, supplier), [Event(id)], [], [], [])
  {
    hide Legal, Run;
    Empty(c);
    var d, q, e := Decision(id, supplier), Requirement(), Event(id);
    RunGoesOn(c, [], PutOther(d));
    RunGoesOn(c, [] + [PutOther(d)], PutOther(q));
    RunGoesOn(c, [] + [PutOther(d)] + [PutOther(q)], Govern(e));
    ms := [] + [PutOther(d)] + [PutOther(q)] + [Govern(e)];
    assert Run(Start(), c, ms).arts == [] + [d] + [q] + [Governance(id)];
  }

  lemma Empty(c: Connectors)
    ensures Legal(Start(), c, []) && Run(Start(), c, []) == Start()
  {
  }

  lemma {:induction false} ToTheGrant(c: Connectors, id: string, supplier: string, approver: string)
    returns (ms: seq<Move>)
    ensures At(c, ms, Allowed(id, supplier, approver), [Event(id)], [Approver(false, None)], [], [])
  {
    hide Legal, Run, Latest;
    ToldLatest(id, supplier);
    AllowedLatest(id, supplier, approver);
    ms := ToTheVerdict(c, id, supplier);
    RunGoesOn(c, ms, NewApprover);
    ms := ms + [NewApprover];
    RunGoesOn(c, ms, ApproverHears(0, 0));
    ms := ms + [ApproverHears(0, 0)];
    RunGoesOn(c, ms, ApproverActs(0));
    ms := ms + [ApproverActs(0)];
    assert Run(Start(), c, ms).arts == Asked(id, supplier);
    RunGoesOn(c, ms, ApproverDone(0));
    ms := ms + [ApproverDone(0)];
    RunGoesOn(c, ms, ApproveDirectly(approver));
    ms := ms + [ApproveDirectly(approver)];
    assert Run(Start(), c, ms).approvers == [Approver(false, None)];
  }

  lemma {:induction false} NoOrderYet(id: string, supplier: string, approver: string)
    ensures !OfKind(Allowed(id, supplier, approver), ORDER)
  {
  }

  lemma {:induction false} OrderTurn(c: Connectors, id: string, supplier: string, approver: string)
    ensures ActOrder(Allowed(id, supplier, approver), Caller(true, AUTHORIZATION, true, {}), c)
         == (Ordered(c, id, supplier, approver), Caller(true, AUTHORIZATION, true, {id}))
  {
    hide Latest, OfKind;
    AllowedLatest(id, supplier, approver);
    NoOrderYet(id, supplier, approver);
    var r := ActOrder(Allowed(id, supplier, approver), Caller(true, AUTHORIZATION, true, {}), c);
    assert r.0 == Ordered(c, id, supplier, approver);
    assert {} + {id} == {id};
  }

  lemma {:induction false} ToTheOrder(c: Connectors, id: string, supplier: string, approver: string)
    returns (ms: seq<Move>)
    ensures At(c, ms, Ordered(c, id, supplier, approver), [Event(id)], [Approver(false, None)],
               [Caller(false, AUTHORIZATION, true, {id})], [])
  {
    hide Legal, Run, ActOrder, Allowed, Ordered;
    OrderTurn(c, id, supplier, approver);
    ms := ToTheGrant(c, id, supplier, approver);
    RunGoesOn(c, ms, NewOrderer(true));
    ms := ms + [NewOrderer(true)];
    RunGoesOn(c, ms, OrdererHears(0, ""));
    ms := ms + [OrdererHears(0, "")];
    assert Run(Start(), c, ms).orderers == [Caller(true, AUTHORIZATION, true, {})];
    RunGoesOn(c, ms, OrdererActs(0));
    ms := ms + [OrdererActs(0)];
    RunGoesOn(c, ms, OrdererDone(0));
    ms := ms + [OrdererDone(0)];
  }

  lemma {:induction false} OrderedLatest(c: Connectors, id: string, supplier: string, approver: string)
    ensures var arts := Ordered(c, id, supplier, approver);
            && Latest(arts, ORDER) == Some(arts[|arts| - 1]) && Latest(arts, STATUS) == None
            && !OfKind(arts, STATUS)
  {
    var before, arts := Allowed(id, supplier, approver), Ordered(c, id, supplier, approver);
    AllowedLatest(id, supplier, approver);
    hide Latest;
    var call, order := arts[|arts| - 2], arts[|arts| - 1];
    LatestAdded(before, call, ORDER);
    LatestAdded(before + [call], order, ORDER);
    assert arts == before + [call] + [order];
    LatestMeans(arts, STATUS);
  }

  lemma {:induction false} TrackTurn(c: Connectors, id: string, supplier: string, approver: string)
    ensures ActTrack(Ordered(c, id, supplier, approver), Caller(true, ORDER, true, {}), c)
         == (Tracked(c, id, supplier, approver), Caller(true, ORDER, true, {id}))
  {
    hide Latest, OfKind, Ordered;
    OrderedLatest(c, id, supplier, approver);
    LastIsOrder(c, id, supplier, approver);
    var r := ActTrack(Ordered(c, id, supplier, approver), Caller(true, ORDER, true, {}), c);
    assert r.0 == Tracked(c, id, supplier, approver);
    assert {} + {id} == {id};
  }

  /** Whatever the connectors answer, this run is possible: a decision needs approval and is approved, its order is
      submitted once and its status queried once, each under the ids derived from the decision, and both agents are
      through with it. */
  lemma {:induction false} StatusIsReachable(c: Connectors, id: string, supplier: string, approver: string)
    returns (ms: seq<Move>)
    ensures At(c, ms, Tracked(c, id, supplier, approver), [Event(id)], [Approver(false, None)],
               [Caller(false, AUTHORIZATION, true, {id})], [Caller(false, ORDER, true, {id})])
  {
    hide Legal, Run, ActTrack, Ordered, Tracked;
    TrackTurn(c, id, supplier, approver);
    ms := ToTheOrder(c, id, supplier, approver);
    RunGoesOn(c, ms, NewTracker(true));
    ms := ms + [NewTracker(true)];
    RunGoesOn(c, ms, TrackerHears(0, ""));
    ms := ms + [TrackerHears(0, "")];
    assert Run(Start(), c, ms).trackers == [Caller(true, ORDER, true, {})];
    RunGoesOn(c, ms, TrackerActs(0));
    ms := ms + [TrackerActs(0)];
    RunGoesOn(c, ms, TrackerDone(0));
    ms := ms + [TrackerDone(0)];
  }

  lemma LastIsOrder(c: Connectors, id: string, supplier: string, approver: string)
    ensures var arts := Ordered(c, id, supplier, approver);
            arts[|arts| - 1].data == OrderData("PO-" + id, id, c.submit("PO-" + id))
  {
  }
}
