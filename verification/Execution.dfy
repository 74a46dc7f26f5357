/** From a governance decision to an order and its status: the approval, purchase-order and tracking agents
    (swarm/domain/agents) over one shared state. What an agent does between two awaits is one step; an agent that
    awaits the delivery of its own event is still pending, and another event can make it act again. Agents come and go:
    every API call makes fresh ones. Connectors are total functions. */
module Execution {
  import opened Basics
  import opened StableSort
  import opened SwarmStates

  datatype Data =
    | Plain
    | DecisionData(id: string, selected: string)
    | GovernanceData(status: string, decisionId: string)
    | AuthorizationData(status: string, approvedBy: Option<string>, decisionId: string)
    | OrderData(orderId: string, decisionId: string, status: string)
    | StatusData(orderId: string, status: string)
    | CallData(action: string, orderId: string)

  type Art = Artifact<Data>

  const AUTHORIZATION := "execution_authorization"
  const ORDER := "purchase_order"
  const STATUS := "execution_status"

  /** What the connectors answer. */
  datatype Connectors = Connectors(submit: string -> string, track: string -> string)

  // ---- the three agents' synchronous work, on values

  datatype GovEvent = GovEvent(status: string, decisionId: string, artifact: string)

  function DecidedBy(a: Art): string { if a.data.GovernanceData? then a.data.decisionId else "" }

  // An event without a decision id leaves it to the governance artifact.
  function Authorization(e: GovEvent, governance: Art): Art {
    Artifact(AUTHORIZATION, AUTHORIZATION, "", 1,
             AuthorizationData(if e.status == "APPROVAL_REQUIRED" then "pending" else "authorized",
                               if e.status == "APPROVED" then Some("governance_sim") else None,
                               if e.decisionId != "" then e.decisionId else DecidedBy(governance)))
  }

  // Without the governance artifact nothing happens; a rejection is announced but recorded nowhere.
  function AfterVerdict(arts: seq<Art>, e: GovEvent): seq<Art> {
    var governance := Latest(arts, e.artifact);
    if governance.None? || e.status == "REJECTED" then arts else arts + [Authorization(e, governance.value)]
  }

  predicate IsPending(arts: seq<Art>) {
    var a := Latest(arts, AUTHORIZATION);
    a.Some? && a.value.data.AuthorizationData? && a.value.data.status == "pending"
  }

  predicate IsAuthorized(arts: seq<Art>, name: string) {
    var a := Latest(arts, name);
    a.Some? && a.value.data.AuthorizationData? && a.value.data.status == "authorized"
  }

  function Granted(a: Art, approver: string): Art
    requires a.data.AuthorizationData?
  {
    a.(version := a.version + 1, data := a.data.(status := "authorized", approvedBy := Some(approver)))
  }

  function AfterApproval(arts: seq<Art>, approver: string): seq<Art> {
    if IsPending(arts) then arts + [Granted(Latest(arts, AUTHORIZATION).value, approver)] else arts
  }

  /** An agent that calls out: whether it is acting on an event, the artifact name it was told, whether it has a base
      connector, and the operations its own guard has seen. */
  datatype Caller = Caller(pending: bool, artifact: string, base: bool, guard: set<string>)

  predicate OfKind(arts: seq<Art>, kind: string) { exists a :: a in arts && a.kind == kind }

  function DecisionIdOf(arts: seq<Art>): string {
    var d := Latest(arts, "decision");
    if d.Some? && d.value.data.DecisionData? then d.value.data.id else ""
  }

  predicate CanOrder(arts: seq<Art>, x: Caller) {
    && IsAuthorized(arts, x.artifact) && !OfKind(arts, ORDER)
    && Latest(arts, "decision").Some? && Latest(arts, "requirement").Some?
  }

  function Call(action: string, orderId: string): Art {
    Artifact("external_call", "external_call", "", 1, CallData(action, orderId))
  }

  function OrderArt(orderId: string, decisionId: string, status: string): Art {
    Artifact(ORDER, ORDER, "", 1, OrderData(orderId, decisionId, status))
  }

  // Submitting: through the base connector, unless this agent's guard knows the decision and an order is found.
  function AfterSubmit(arts: seq<Art>, x: Caller, c: Connectors): (seq<Art>, set<string>, string) {
    var id := DecisionIdOf(arts);
    var orderId := "PO-" + id;
    var existing := Latest(arts, ORDER);
    if !x.base then (arts, x.guard, c.submit(orderId))
    else if id in x.guard && existing.Some?
    then (arts, x.guard, if existing.value.data.OrderData? then existing.value.data.status else "CREATED")
    else (arts + [Call("submit_order", orderId)], x.guard + {id}, c.submit(orderId))
  }

  function AfterCreate(arts: seq<Art>, x: Caller, c: Connectors): (seq<Art>, set<string>, Option<Art>) {
    if !IsAuthorized(arts, x.artifact) then (arts, x.guard, None)
    else if OfKind(arts, ORDER) then (arts, x.guard, Latest(arts, ORDER))
    else if !CanOrder(arts, x) then (arts, x.guard, None)
    else
      var id := DecisionIdOf(arts);
      var s := AfterSubmit(arts, x, c);
      var order := OrderArt("PO-" + id, id, s.2);
      (s.0 + [order], s.1, Some(order))
  }

  predicate CanTrack(arts: seq<Art>, x: Caller) { Latest(arts, x.artifact).Some? && !OfKind(arts, STATUS) }

  function OrderFields(a: Art): (string, string) {
    if a.data.OrderData? then (a.data.orderId, a.data.decisionId) else ("", "")
  }

  function AfterQuery(arts: seq<Art>, x: Caller, ids: (string, string), c: Connectors)
    : (seq<Art>, set<string>, string)
  {
    var existing := Latest(arts, STATUS);
    if !x.base then (arts, x.guard, c.track(ids.0))
    else if ids.1 in x.guard && existing.Some?
    then (arts, x.guard, if existing.value.data.StatusData? then existing.value.data.status else "")
    else (arts + [Call("get_order_status", ids.0)], x.guard + {ids.1}, c.track(ids.0))
  }

  function StatusArt(orderId: string, status: string): Art {
    Artifact(STATUS, STATUS, "", 1, StatusData(orderId, status))
  }

  function AfterTracking(arts: seq<Art>, x: Caller, c: Connectors): (seq<Art>, set<string>, Option<Art>) {
    var order := Latest(arts, x.artifact);
    if order.None? then (arts, x.guard, None)
    else if OfKind(arts, STATUS) then (arts, x.guard, Latest(arts, STATUS))
    else
      var ids := OrderFields(order.value);
      var s := AfterQuery(arts, x, ids, c);
      var status := StatusArt(ids.0, s.2);
      (s.0 + [status], s.1, Some(status))
  }

  // ---- what an agent makes of an event, and of its turn

  datatype Approver = Approver(pending: bool, heard: Option<GovEvent>)

  function HeardVerdict(e: GovEvent): Approver { Approver(true, Some(e)) }

  // Without the governance artifact the event is dropped; otherwise it stays until its outcome is announced.
  function ActApprove(arts: seq<Art>, x: Approver): (seq<Art>, Approver) {
    if !x.pending || x.heard.None? then (arts, x)
    else if Latest(arts, x.heard.value.artifact).None? then (arts, Approver(false, None))
    else (AfterVerdict(arts, x.heard.value), x)
  }

  function HeardGrant(x: Caller, artifact: string): Caller {
    x.(pending := true, artifact := if artifact == "" then AUTHORIZATION else artifact)
  }

  function HeardExecute(x: Caller): Caller { x.(pending := true) }

  function HeardOrder(x: Caller, artifact: string): Caller {
    x.(pending := true, artifact := if artifact == "" then ORDER else artifact)
  }

  function Finished(x: Caller): Caller { x.(pending := false) }

  // A turn without an outcome ends it; with one the agent stays pending until it is announced.
  function ActOrder(arts: seq<Art>, x: Caller, c: Connectors): (seq<Art>, Caller) {
    if !x.pending then (arts, x)
    else
      var r := AfterCreate(arts, x, c);
      (r.0, x.(guard := r.1, pending := r.2.Some?))
  }

  function ActTrack(arts: seq<Art>, x: Caller, c: Connectors): (seq<Art>, Caller) {
    if !x.pending then (arts, x)
    else
      var r := AfterTracking(arts, x, c);
      (r.0, x.(guard := r.1, pending := r.2.Some?))
  }

  function CreateNow(arts: seq<Art>, x: Caller, c: Connectors): (seq<Art>, Caller) {
    var r := AfterCreate(arts, x, c);
    (r.0, x.(guard := r.1))
  }

  function TrackNow(arts: seq<Art>, x: Caller, c: Connectors): (seq<Art>, Caller) {
    var r := AfterTracking(arts, x, c);
    (r.0, x.(guard := r.1))
  }

  // ---- moves

  datatype State = State(arts: seq<Art>, published: seq<GovEvent>, approvers: seq<Approver>,
                         orderers: seq<Caller>, trackers: seq<Caller>)

  datatype Move =
    | PutOther(a: Art)
    | Govern(e: GovEvent)
    | NewApprover | NewOrderer(base: bool) | NewTracker(base: bool)
    | ApproverHears(i: nat, k: nat) | ApproverActs(i: nat) | ApproverDone(i: nat) | ApproveDirectly(approver: string)
    | OrdererHears(i: nat, artifact: string) | OrdererTold(i: nat) | OrdererActs(i: nat) | OrdererDone(i: nat)
    | CreateDirectly(i: nat)
    | TrackerHears(i: nat, artifact: string) | TrackerActs(i: nat) | TrackerDone(i: nat) | TrackDirectly(i: nat)

  /** Artifacts of the other agents: requirements, quotes, decisions, assessments and the like. */
  predicate Ordinary(a: Art) {
    && (a.data.Plain? || a.data.DecisionData?)
    && a.name != AUTHORIZATION && a.name != ORDER && a.name != STATUS
    && a.kind != AUTHORIZATION && a.kind != ORDER && a.kind != STATUS
  }

  predicate Enabled(s: State, m: Move) {
    match m
    case PutOther(a) => Ordinary(a)
    case Govern(e) => e.artifact != "" && e.artifact != AUTHORIZATION && e.artifact != ORDER && e.artifact != STATUS
    case ApproverHears(i, k) => i < |s.approvers| && k < |s.published|
    case ApproverActs(i) => i < |s.approvers|
    case ApproverDone(i) => i < |s.approvers|
    case OrdererHears(i, _) => i < |s.orderers|
    case OrdererTold(i) => i < |s.orderers|
    case OrdererActs(i) => i < |s.orderers|
    case OrdererDone(i) => i < |s.orderers|
    case CreateDirectly(i) => i < |s.orderers|
    case TrackerHears(i, _) => i < |s.trackers|
    case TrackerActs(i) => i < |s.trackers|
    case TrackerDone(i) => i < |s.trackers|
    case TrackDirectly(i) => i < |s.trackers|
    case _ => true
  }

  function StepOrder(s: State, c: Connectors, i: nat, acting: bool): State
    requires i < |s.orderers|
  {
    var r := if acting then ActOrder(s.arts, s.orderers[i], c) else CreateNow(s.arts, s.orderers[i], c);
    s.(arts := r.0, orderers := s.orderers[i := r.1])
  }

  function StepTrack(s: State, c: Connectors, i: nat, acting: bool): State
    requires i < |s.trackers|
  {
    var r := if acting then ActTrack(s.arts, s.trackers[i], c) else TrackNow(s.arts, s.trackers[i], c);
    s.(arts := r.0, trackers := s.trackers[i := r.1])
  }

  function Next(s: State, c: Connectors, m: Move): State
    requires Enabled(s, m)
  {
    match m
    case PutOther(a) => s.(arts := s.arts + [a])
    case Govern(e) =>
      s.(arts := s.arts + [Artifact(e.artifact, "governance_decision", "", 1, GovernanceData(e.status, e.decisionId))],
         published := s.published + [e])
    case NewApprover => s.(approvers := s.approvers + [Approver(false, None)])
    case NewOrderer(base) => s.(orderers := s.orderers + [Caller(false, AUTHORIZATION, base, {})])
    case NewTracker(base) => s.(trackers := s.trackers + [Caller(false, ORDER, base, {})])
    case ApproverHears(i, k) => s.(approvers := s.approvers[i := HeardVerdict(s.published[k])])
    case ApproverActs(i) =>
      var r := ActApprove(s.arts, s.approvers[i]);
      s.(arts := r.0, approvers := s.approvers[i := r.1])
    case ApproverDone(i) => s.(approvers := s.approvers[i := Approver(false, None)])
    case ApproveDirectly(approver) => s.(arts := AfterApproval(s.arts, approver))
    case OrdererHears(i, artifact) => s.(orderers := s.orderers[i := HeardGrant(s.orderers[i], artifact)])
    case OrdererTold(i) => s.(orderers := s.orderers[i := HeardExecute(s.orderers[i])])
    case OrdererActs(i) => StepOrder(s, c, i, true)
    case OrdererDone(i) => s.(orderers := s.orderers[i := Finished(s.orderers[i])])
    case CreateDirectly(i) => StepOrder(s, c, i, false)
    case TrackerHears(i, artifact) => s.(trackers := s.trackers[i := HeardOrder(s.trackers[i], artifact)])
    case TrackerActs(i) => StepTrack(s, c, i, true)
    case TrackerDone(i) => s.(trackers := s.trackers[i := Finished(s.trackers[i])])
    case TrackDirectly(i) => StepTrack(s, c, i, false)
  }

  predicate Legal(s: State, c: Connectors, ms: seq<Move>)
    decreases |ms|, 0
  {
    ms == [] || (Legal(s, c, ms[..|ms| - 1]) && Enabled(Run(s, c, ms[..|ms| - 1]), ms[|ms| - 1]))
  }

  function Run(s: State, c: Connectors, ms: seq<Move>): State
    requires Legal(s, c, ms)
    decreases |ms|, 1
  {
    if ms == [] then s else Next(Run(s, c, ms[..|ms| - 1]), c, ms[|ms| - 1])
  }

  function Start(): State { State([], [], [], [], []) }

  // ---- counting

  function KindIs(kind: string): Art -> bool { (a: Art) => a.kind == kind }
  function IsCall(action: string): Art -> bool { (a: Art) => a.data.CallData? && a.data.action == action }

  function Count(p: Art -> bool, arts: seq<Art>): nat { |Filter(p, arts)| }

  lemma CountMore(p: Art -> bool, arts: seq<Art>, a: Art)
    ensures Count(p, arts + [a]) == Count(p, arts) + if p(a) then 1 else 0
  {
    FilterAppend(p, arts, [a]);
    assert [a][1..] == [];
  }

  lemma {:induction false} CountZero(arts: seq<Art>, kind: string)
    ensures Count(KindIs(kind), arts) == 0 <==> !OfKind(arts, kind)
  {
    var found := Filter(KindIs(kind), arts);
    forall a
      ensures a in found <==> a in arts && a.kind == kind
    {
      FilterMember(KindIs(kind), arts, a);
    }
    if found != [] {
      assert found[0] in found;
    }
  }

  // ---- the latest authorization

  /** 0 without an authorization, 1 while the latest one is pending, 2 once it is granted. */
  function Progress(arts: seq<Art>): nat {
    var a := Latest(arts, AUTHORIZATION);
    if a.None? then 0 else if a.value.data.AuthorizationData? && a.value.data.status == "authorized" then 2 else 1
  }

  /** Authorizations and only they go by that name; they are pending or authorized and count versions from 1. */
  predicate AuthShaped(a: Art) {
    && (a.name == AUTHORIZATION <==> a.data.AuthorizationData?)
    && (a.data.AuthorizationData? ==> a.version >= 1 && (a.data.status == "pending" || a.data.status == "authorized"))
  }

  predicate AllShaped(arts: seq<Art>) { forall a | a in arts :: AuthShaped(a) }

  lemma LatestMore(arts: seq<Art>, a: Art, name: string)
    ensures Latest(arts + [a], name)
         == var b := Latest(arts, name);
            if a.name == name && (b.None? || a.version > b.value.version) then Some(a) else b
  {
    assert (arts + [a])[..|arts|] == arts;
  }

  lemma {:induction false} LatestShaped(arts: seq<Art>, name: string)
    requires AllShaped(arts) && Latest(arts, name).Some?
    ensures AuthShaped(Latest(arts, name).value) && Latest(arts, name).value.name == name
  {
    LatestMeans(arts, name);
    var k :| 0 <= k < |arts| && arts[k] == Latest(arts, name).value;
  }

  // Anything but a grant leaves an existing authorization the latest.
  lemma {:induction false} ProgressKept(arts: seq<Art>, a: Art)
    requires AllShaped(arts) && AuthShaped(a) && (a.name == AUTHORIZATION ==> a.version == 1)
    ensures Progress(arts) > 0 ==> Progress(arts + [a]) == Progress(arts)
    ensures a.name != AUTHORIZATION ==> Progress(arts + [a]) == Progress(arts)
  {
    hide Latest;
    LatestMore(arts, a, AUTHORIZATION);
    if Progress(arts) > 0 {
      LatestShaped(arts, AUTHORIZATION);
    }
  }

  lemma {:induction false} ApproveMeans(arts: seq<Art>, approver: string)
    requires AllShaped(arts)
    ensures AllShaped(AfterApproval(arts, approver))
    ensures Progress(AfterApproval(arts, approver)) == if Progress(arts) == 1 then 2 else Progress(arts)
    ensures AfterApproval(arts, approver) != arts <==> Progress(arts) == 1
  {
    hide Latest;
    if Latest(arts, AUTHORIZATION).Some? {
      LatestShaped(arts, AUTHORIZATION);
    }
    if IsPending(arts) {
      LatestMore(arts, Granted(Latest(arts, AUTHORIZATION).value, approver), AUTHORIZATION);
    }
  }

  /** The status of a governance event decides the authorization: none for a rejection, a pending one when approval is
      required, and a granted one for anything else, an unknown status included; but only "APPROVED" names an
      approver. */
  lemma AuthorizeMeans(arts: seq<Art>, e: GovEvent)
    requires Latest(arts, e.artifact).Some?
    ensures AfterVerdict(arts, e) == arts <==> e.status == "REJECTED"
    ensures e.status != "REJECTED" ==>
              var a := AfterVerdict(arts, e)[|arts|];
              && (a.data.status == "pending" <==> e.status == "APPROVAL_REQUIRED")
              && (a.data.status == "authorized" <==> e.status != "APPROVAL_REQUIRED")
              && (a.data.approvedBy.Some? <==> e.status == "APPROVED")
  {
  }

  // ---- what every reachable state satisfies

  const SUBMIT := "submit_order"
  const QUERY := "get_order_status"

  function Orders(arts: seq<Art>): nat { Count(KindIs(ORDER), arts) }
  function Statuses(arts: seq<Art>): nat { Count(KindIs(STATUS), arts) }
  function Calls(arts: seq<Art>, action: string): nat { Count(IsCall(action), arts) }

  /** Orders and status records go by their own names. */
  predicate NamedByKind(arts: seq<Art>) {
    forall a | a in arts :: (a.name == ORDER <==> a.kind == ORDER) && (a.name == STATUS <==> a.kind == STATUS)
  }

  predicate AllBase(xs: seq<Caller>) { forall k | 0 <= k < |xs| :: xs[k].base }

  /** At most one order and one status; an order only under a granted authorization; as many calls recorded as orders
      and statuses, when every agent goes through a base connector, and never more. */
  predicate ArtsOk(arts: seq<Art>, ordersBase: bool, tracksBase: bool) {
    && AllShaped(arts) && NamedByKind(arts)
    && Orders(arts) <= 1 && Statuses(arts) <= 1
    && (Orders(arts) == 1 ==> Progress(arts) == 2)
    && Calls(arts, SUBMIT) <= Orders(arts) && (ordersBase ==> Calls(arts, SUBMIT) == Orders(arts))
    && Calls(arts, QUERY) <= Statuses(arts) && (tracksBase ==> Calls(arts, QUERY) == Statuses(arts))
  }

  predicate OnlyRejections(published: seq<GovEvent>) { forall e | e in published :: e.status == "REJECTED" }

  predicate Good(s: State) {
    && ArtsOk(s.arts, AllBase(s.orderers), AllBase(s.trackers))
    && (forall i | 0 <= i < |s.approvers| && s.approvers[i].heard.Some? :: s.approvers[i].heard.value in s.published)
    && (OnlyRejections(s.published) ==> Progress(s.arts) == 0)
  }

  lemma CountsMore(arts: seq<Art>, a: Art)
    ensures Orders(arts + [a]) == Orders(arts) + if a.kind == ORDER then 1 else 0
    ensures Statuses(arts + [a]) == Statuses(arts) + if a.kind == STATUS then 1 else 0
    ensures Calls(arts + [a], SUBMIT)
         == Calls(arts, SUBMIT) + if a.data.CallData? && a.data.action == SUBMIT then 1 else 0
    ensures Calls(arts + [a], QUERY) == Calls(arts, QUERY) + if a.data.CallData? && a.data.action == QUERY then 1 else 0
  {
    CountMore(KindIs(ORDER), arts, a);
    CountMore(KindIs(STATUS), arts, a);
    CountMore(IsCall(SUBMIT), arts, a);
    CountMore(IsCall(QUERY), arts, a);
  }

  lemma ShapedMore(arts: seq<Art>, a: Art)
    requires AllShaped(arts) && NamedByKind(arts)
    requires AuthShaped(a) && (a.name == ORDER <==> a.kind == ORDER) && (a.name == STATUS <==> a.kind == STATUS)
    ensures AllShaped(arts + [a]) && NamedByKind(arts + [a])
  {
  }

  // An artifact that is neither an authorization, an order, a status nor a call.
  lemma OrdinaryKeeps(arts: seq<Art>, a: Art, ob: bool, tb: bool)
    requires ArtsOk(arts, ob, tb)
    requires (a.data.Plain? || a.data.DecisionData? || a.data.GovernanceData?)
    requires a.name != AUTHORIZATION && a.name != ORDER && a.name != STATUS && a.kind != ORDER && a.kind != STATUS
    ensures ArtsOk(arts + [a], ob, tb) && Progress(arts + [a]) == Progress(arts)
  {
    hide Latest, Progress, Orders, Statuses, Calls, AllShaped, NamedByKind;
    CountsMore(arts, a);
    ShapedMore(arts, a);
    ProgressKept(arts, a);
  }

  lemma AuthorizeKeeps(arts: seq<Art>, e: GovEvent, ob: bool, tb: bool)
    requires ArtsOk(arts, ob, tb)
    ensures ArtsOk(AfterVerdict(arts, e), ob, tb)
    ensures Progress(arts) > 0 ==> Progress(AfterVerdict(arts, e)) == Progress(arts)
    ensures e.status == "REJECTED" ==> AfterVerdict(arts, e) == arts
  {
    hide Latest, Progress, Orders, Statuses, Calls, AllShaped, NamedByKind;
    if AfterVerdict(arts, e) != arts {
      var a := Authorization(e, Latest(arts, e.artifact).value);
      CountsMore(arts, a);
      ShapedMore(arts, a);
      ProgressKept(arts, a);
    }
  }

  lemma ApproveKeeps(arts: seq<Art>, approver: string, ob: bool, tb: bool)
    requires ArtsOk(arts, ob, tb)
    ensures ArtsOk(AfterApproval(arts, approver), ob, tb)
    ensures Progress(arts) <= Progress(AfterApproval(arts, approver))
    ensures Progress(arts) == 0 ==> AfterApproval(arts, approver) == arts
  {
    ApproveMeans(arts, approver);
    if IsPending(arts) {
      LatestShaped(arts, AUTHORIZATION);
      hide Latest, Progress, Orders, Statuses, Calls, AllShaped, NamedByKind;
      var a := Granted(Latest(arts, AUTHORIZATION).value, approver);
      CountsMore(arts, a);
      PendingKind(arts);
      ShapedMore(arts, a);
    }
  }

  lemma PendingKind(arts: seq<Art>)
    requires AllShaped(arts) && NamedByKind(arts) && IsPending(arts)
    ensures var a := Latest(arts, AUTHORIZATION).value;
            a.name == AUTHORIZATION && a.kind != ORDER && a.kind != STATUS && a.version >= 1
  {
    LatestMeans(arts, AUTHORIZATION);
    LatestShaped(arts, AUTHORIZATION);
  }

  // Only an authorization can be authorized, whatever name the agent was told.
  lemma AuthorizedByName(arts: seq<Art>, name: string)
    requires AllShaped(arts) && IsAuthorized(arts, name)
    ensures name == AUTHORIZATION && Progress(arts) == 2
  {
    LatestShaped(arts, name);
  }

  lemma {:induction false} CreateKeeps(arts: seq<Art>, x: Caller, c: Connectors, ob: bool, tb: bool)
    requires ArtsOk(arts, ob, tb) && (ob ==> x.base)
    ensures ArtsOk(AfterCreate(arts, x, c).0, ob, tb)
    ensures Progress(AfterCreate(arts, x, c).0) == Progress(arts)
  {
    CountZero(arts, ORDER);
    if CanOrder(arts, x) {
      AuthorizedByName(arts, x.artifact);
      NoneByName(arts, ORDER);
      CreatedIs(arts, x, c);
      hide Latest, Progress, Orders, Statuses, Calls, AllShaped, NamedByKind, DecisionIdOf, AfterCreate, CanOrder,
        IsAuthorized, OfKind;
      var id := DecisionIdOf(arts);
      var call, order := Call(SUBMIT, "PO-" + id), OrderArt("PO-" + id, id, c.submit("PO-" + id));
      var called := if x.base then arts + [call] else arts;
      CountsMore(arts, call);
      ShapedMore(arts, call);
      ProgressKept(arts, call);
      CountsMore(called, order);
      ShapedMore(called, order);
      ProgressKept(called, order);
      assert Orders(arts) == 0;
    }
  }

  lemma CreatedIs(arts: seq<Art>, x: Caller, c: Connectors)
    requires CanOrder(arts, x) && Latest(arts, ORDER).None?
    ensures var id := DecisionIdOf(arts);
            AfterCreate(arts, x, c).0 == (if x.base then arts + [Call(SUBMIT, "PO-" + id)] else arts)
                                         + [OrderArt("PO-" + id, id, c.submit("PO-" + id))]
  {
    hide Latest, OfKind, DecisionIdOf, IsAuthorized;
  }

  lemma NoneByName(arts: seq<Art>, kind: string)
    requires NamedByKind(arts) && !OfKind(arts, kind) && (kind == ORDER || kind == STATUS)
    ensures Latest(arts, kind).None?
  {
    LatestMeans(arts, kind);
  }

  lemma {:induction false} TrackKeeps(arts: seq<Art>, x: Caller, c: Connectors, ob: bool, tb: bool)
    requires ArtsOk(arts, ob, tb) && (tb ==> x.base)
    ensures ArtsOk(AfterTracking(arts, x, c).0, ob, tb)
    ensures Progress(AfterTracking(arts, x, c).0) == Progress(arts)
  {
    CountZero(arts, STATUS);
    if CanTrack(arts, x) {
      NoneByName(arts, STATUS);
      TrackedIs(arts, x, c);
      hide Latest, Progress, Orders, Statuses, Calls, AllShaped, NamedByKind, OrderFields, AfterTracking, CanTrack,
        OfKind;
      var id := OrderFields(Latest(arts, x.artifact).value).0;
      var call, status := Call(QUERY, id), StatusArt(id, c.track(id));
      var called := if x.base then arts + [call] else arts;
      CountsMore(arts, call);
      ShapedMore(arts, call);
      ProgressKept(arts, call);
      CountsMore(called, status);
      ShapedMore(called, status);
      ProgressKept(called, status);
      assert Statuses(arts) == 0;
    }
  }

  lemma TrackedIs(arts: seq<Art>, x: Caller, c: Connectors)
    requires CanTrack(arts, x) && Latest(arts, STATUS).None?
    ensures var id := OrderFields(Latest(arts, x.artifact).value).0;
            AfterTracking(arts, x, c).0 == (if x.base then arts + [Call(QUERY, id)] else arts)
                                           + [StatusArt(id, c.track(id))]
  {
    hide Latest, OfKind, OrderFields;
  }

  lemma {:induction false} StepKeeps(s: State, c: Connectors, m: Move)
    requires Good(s) && Enabled(s, m)
    ensures Good(Next(s, c, m))
    ensures Progress(s.arts) <= Progress(Next(s, c, m).arts) && s.arts <= Next(s, c, m).arts
    ensures s.published <= Next(s, c, m).published
  {
    hide Progress, Good, AfterCreate, AfterTracking, AfterVerdict, AfterApproval;
    match m
    case OrdererActs(i) => OrderStep(s, c, i, true);
    case CreateDirectly(i) => OrderStep(s, c, i, false);
    case TrackerActs(i) => TrackStep(s, c, i, true);
    case TrackDirectly(i) => TrackStep(s, c, i, false);
    case PutOther(_) => RecordStep(s, c, m);
    case Govern(_) => RecordStep(s, c, m);
    case ApproverActs(_) => ApprovalStep(s, c, m);
    case ApproveDirectly(_) => ApprovalStep(s, c, m);
    case _ => QuietStep(s, c, m);
  }

  lemma {:induction false} RecordStep(s: State, c: Connectors, m: Move)
    requires Good(s) && Enabled(s, m) && (m.PutOther? || m.Govern?)
    ensures Good(Next(s, c, m)) && Progress(Next(s, c, m).arts) == Progress(s.arts) && s.arts <= Next(s, c, m).arts
    ensures s.published <= Next(s, c, m).published
  {
    hide Progress, ArtsOk;
    var ob, tb := AllBase(s.orderers), AllBase(s.trackers);
    match m
    case PutOther(a) => OrdinaryKeeps(s.arts, a, ob, tb);
    case Govern(e) =>
      var verdict := Artifact(e.artifact, "governance_decision", "", 1, GovernanceData(e.status, e.decisionId));
      OrdinaryKeeps(s.arts, verdict, ob, tb);
      assert forall x | x in s.published :: x in s.published + [e];
  }

  lemma {:induction false} ApprovalStep(s: State, c: Connectors, m: Move)
    requires Good(s) && Enabled(s, m) && (m.ApproverActs? || m.ApproveDirectly?)
    ensures Good(Next(s, c, m)) && Progress(s.arts) <= Progress(Next(s, c, m).arts) && s.arts <= Next(s, c, m).arts
    ensures s.published == Next(s, c, m).published
  {
    hide Progress, ArtsOk, AfterVerdict, AfterApproval;
    var ob, tb := AllBase(s.orderers), AllBase(s.trackers);
    match m
    case ApproverActs(i) =>
      if s.approvers[i].heard.Some? {
        AuthorizeKeeps(s.arts, s.approvers[i].heard.value, ob, tb);
        AuthorizeGrows(s.arts, s.approvers[i].heard.value);
      }
    case ApproveDirectly(approver) =>
      ApproveKeeps(s.arts, approver, ob, tb);
      ApproveGrows(s.arts, approver);
  }

  predicate Quiet(m: Move) {
    m.NewApprover? || m.NewOrderer? || m.NewTracker? || m.ApproverHears? || m.ApproverDone? || m.OrdererHears?
    || m.OrdererTold? || m.OrdererDone? || m.TrackerHears? || m.TrackerDone?
  }

  lemma {:induction false} QuietStep(s: State, c: Connectors, m: Move)
    requires Good(s) && Enabled(s, m) && Quiet(m)
    ensures Good(Next(s, c, m)) && Next(s, c, m).arts == s.arts && Next(s, c, m).published == s.published
  {
    hide Progress, AllShaped, NamedByKind, Orders, Statuses, Calls;
    var t := Next(s, c, m);
    assert forall k | 0 <= k < |s.orderers| :: t.orderers[k].base == s.orderers[k].base;
    assert forall k | 0 <= k < |s.trackers| :: t.trackers[k].base == s.trackers[k].base;
    assert AllBase(t.orderers) ==> AllBase(s.orderers);
    assert AllBase(t.trackers) ==> AllBase(s.trackers);
  }

  lemma AuthorizeGrows(arts: seq<Art>, e: GovEvent)
    ensures arts <= AfterVerdict(arts, e)
  {
  }

  lemma ApproveGrows(arts: seq<Art>, approver: string)
    ensures arts <= AfterApproval(arts, approver)
  {
  }

  lemma OrderStep(s: State, c: Connectors, i: nat, acting: bool)
    requires Good(s) && i < |s.orderers|
    ensures Good(StepOrder(s, c, i, acting)) && s.arts <= StepOrder(s, c, i, acting).arts
    ensures Progress(StepOrder(s, c, i, acting).arts) == Progress(s.arts)
  {
    var ob, tb := AllBase(s.orderers), AllBase(s.trackers);
    CreateKeeps(s.arts, s.orderers[i], c, ob, tb);
    CreateGrows(s.arts, s.orderers[i], c);
    hide AfterCreate, ArtsOk;
    var t := StepOrder(s, c, i, acting);
    assert forall k | 0 <= k < |s.orderers| :: t.orderers[k].base == s.orderers[k].base;
    SameBase(s.orderers, t.orderers);
  }

  lemma SameBase(xs: seq<Caller>, ys: seq<Caller>)
    requires |xs| == |ys| && forall k | 0 <= k < |xs| :: ys[k].base == xs[k].base
    ensures AllBase(xs) == AllBase(ys)
  {
  }

  lemma CreateGrows(arts: seq<Art>, x: Caller, c: Connectors)
    ensures arts <= AfterCreate(arts, x, c).0
  {
    hide Latest, DecisionIdOf, OfKind;
  }

  lemma TrackGrows(arts: seq<Art>, x: Caller, c: Connectors)
    ensures arts <= AfterTracking(arts, x, c).0
  {
    hide Latest, OfKind, OrderFields;
  }

  lemma TrackStep(s: State, c: Connectors, i: nat, acting: bool)
    requires Good(s) && i < |s.trackers|
    ensures Good(StepTrack(s, c, i, acting)) && s.arts <= StepTrack(s, c, i, acting).arts
    ensures Progress(StepTrack(s, c, i, acting).arts) == Progress(s.arts)
  {
    var ob, tb := AllBase(s.orderers), AllBase(s.trackers);
    TrackKeeps(s.arts, s.trackers[i], c, ob, tb);
    TrackGrows(s.arts, s.trackers[i], c);
    hide AfterTracking, ArtsOk;
    var t := StepTrack(s, c, i, acting);
    assert forall k | 0 <= k < |s.trackers| :: t.trackers[k].base == s.trackers[k].base;
    SameBase(s.trackers, t.trackers);
  }

  lemma {:induction false} EveryRunIsGood(c: Connectors, ms: seq<Move>)
    requires Legal(Start(), c, ms)
    ensures Good(Run(Start(), c, ms))
    ensures ms != [] ==> Progress(Run(Start(), c, ms[..|ms| - 1]).arts) <= Progress(Run(Start(), c, ms).arts)
    decreases |ms|
  {
    hide Good, Enabled, Next, Progress;
    if ms == [] {
      StartIsGood();
    } else {
      EveryRunIsGood(c, ms[..|ms| - 1]);
      StepKeeps(Run(Start(), c, ms[..|ms| - 1]), c, ms[|ms| - 1]);
    }
  }

  lemma StartIsGood()
    ensures Good(Start())
  {
  }

  // ---- the main results

  /** Whatever the interleaving of event-driven acts and direct calls, by however many agents: at most one purchase
      order and one execution status; and through base connectors exactly one submission per order and one query per
      status. */
  lemma {:induction false} OneOrderOneSubmission(c: Connectors, ms: seq<Move>)
    requires Legal(Start(), c, ms)
    ensures var s := Run(Start(), c, ms);
            && Orders(s.arts) <= 1 && Statuses(s.arts) <= 1
            && Calls(s.arts, SUBMIT) <= Orders(s.arts) && Calls(s.arts, QUERY) <= Statuses(s.arts)
            && (AllBase(s.orderers) ==> Calls(s.arts, SUBMIT) == Orders(s.arts))
            && (AllBase(s.trackers) ==> Calls(s.arts, QUERY) == Statuses(s.arts))
  {
    hide Run, Legal, Orders, Statuses, Calls, AllBase, Progress;
    EveryRunIsGood(c, ms);
  }

  lemma {:induction false} PrefixLegal(c: Connectors, ms: seq<Move>, n: nat)
    requires Legal(Start(), c, ms) && n <= |ms|
    ensures Legal(Start(), c, ms[..n])
    decreases |ms|
  {
    hide Enabled;
    if n == |ms| {
      assert ms[..n] == ms;
    } else {
      PrefixLegal(c, ms[..|ms| - 1], n);
      assert ms[..|ms| - 1][..n] == ms[..n];
    }
  }

  /** The latest authorization only moves from none to pending or granted, and from pending to granted; and there is an
      order only once it is granted. */
  lemma {:induction false} AuthorizationNeverRegresses(c: Connectors, ms: seq<Move>, n: nat)
    requires Legal(Start(), c, ms) && n <= |ms|
    ensures Legal(Start(), c, ms[..n])
    ensures Progress(Run(Start(), c, ms[..n]).arts) <= Progress(Run(Start(), c, ms).arts)
    ensures Orders(Run(Start(), c, ms).arts) == 1 ==> IsAuthorized(Run(Start(), c, ms).arts, AUTHORIZATION)
    decreases |ms|
  {
    hide Enabled, Next, Orders, Statuses, Calls, Latest;
    PrefixLegal(c, ms, n);
    EveryRunIsGood(c, ms);
    if n == |ms| {
      assert ms[..n] == ms;
    } else {
      AuthorizationNeverRegresses(c, ms[..|ms| - 1], n);
      assert ms[..|ms| - 1][..n] == ms[..n];
    }
  }

  /** When every governance decision of the run is a rejection there is no authorization and no order, whoever asks. */
  lemma {:induction false} RejectionMeansNoOrder(c: Connectors, ms: seq<Move>)
    requires Legal(Start(), c, ms) && OnlyRejections(Run(Start(), c, ms).published)
    ensures var s := Run(Start(), c, ms);
            && Latest(s.arts, AUTHORIZATION).None? && Orders(s.arts) == 0 && Calls(s.arts, SUBMIT) == 0
  {
    hide Run, Legal, Orders, Statuses, Calls, AllBase, OnlyRejections, Latest;
    EveryRunIsGood(c, ms);
  }

  // ---- orders, statuses and calls belong together

  function IdOf(d: Art): string { if d.data.DecisionData? then d.data.id else "" }

  predicate DecisionNamed(arts: seq<Art>, id: string) { exists d :: d in arts && d.name == "decision" && IdOf(d) == id }
  predicate OrderFor(arts: seq<Art>, orderId: string) {
    exists o :: o in arts && o.data.OrderData? && o.data.orderId == orderId
  }
  predicate StatusFor(arts: seq<Art>, orderId: string) {
    exists t :: t in arts && t.data.StatusData? && t.data.orderId == orderId
  }

  predicate Explained(arts: seq<Art>, a: Art) {
    && (a.data.OrderData? ==> a.data.orderId == "PO-" + a.data.decisionId && DecisionNamed(arts, a.data.decisionId))
    && (a.data.CallData? && a.data.action == SUBMIT ==> OrderFor(arts, a.data.orderId))
    && (a.data.CallData? && a.data.action == QUERY ==> StatusFor(arts, a.data.orderId))
    && (a.data.StatusData? ==> a.data.orderId == "" || OrderFor(arts, a.data.orderId))
  }

  predicate AllExplained(arts: seq<Art>) { forall a | a in arts :: Explained(arts, a) }

  lemma ExplainedLater(arts: seq<Art>, more: seq<Art>, a: Art)
    requires Explained(arts, a)
    ensures Explained(arts + more, a)
  {
    if a.data.OrderData? {
      var d :| d in arts && d.name == "decision" && IdOf(d) == a.data.decisionId;
      assert d in arts + more;
    }
    if (a.data.CallData? && a.data.action == SUBMIT) || (a.data.StatusData? && a.data.orderId != "") {
      var o :| o in arts && o.data.OrderData? && o.data.orderId == a.data.orderId;
      assert o in arts + more;
    }
    if a.data.CallData? && a.data.action == QUERY {
      var t :| t in arts && t.data.StatusData? && t.data.orderId == a.data.orderId;
      assert t in arts + more;
    }
  }

  lemma ExplainedMore(arts: seq<Art>, more: seq<Art>)
    requires AllExplained(arts) && forall a | a in more :: Explained(arts + more, a)
    ensures AllExplained(arts + more)
  {
    hide Explained;
    forall a | a in arts + more
      ensures Explained(arts + more, a)
    {
      if a in arts { ExplainedLater(arts, more, a); }
    }
  }

  lemma {:induction false} OrderExplained(arts: seq<Art>, x: Caller, c: Connectors)
    requires AllExplained(arts)
    ensures AllExplained(AfterCreate(arts, x, c).0)
  {
    hide AllExplained;
    if CanOrder(arts, x) {
      var id := DecisionIdOf(arts);
      var s := AfterSubmit(arts, x, c);
      var order := OrderArt("PO-" + id, id, s.2);
      var more := s.0[|arts|..] + [order];
      LatestMeans(arts, "decision");
      var d := Latest(arts, "decision").value;
      assert d in arts && d in arts + more && IdOf(d) == id;
      assert order in arts + more;
      assert s.0 + [order] == arts + more;
      ExplainedMore(arts, more);
    }
  }

  lemma {:induction false} StatusExplained(arts: seq<Art>, x: Caller, c: Connectors)
    requires AllExplained(arts)
    ensures AllExplained(AfterTracking(arts, x, c).0)
  {
    hide AllExplained, Latest;
    if CanTrack(arts, x) {
      LatestMeans(arts, x.artifact);
      var order := Latest(arts, x.artifact).value;
      var ids := OrderFields(order);
      var s := AfterQuery(arts, x, ids, c);
      var status := StatusArt(ids.0, s.2);
      var more := s.0[|arts|..] + [status];
      assert order in arts + more && status in arts + more;
      assert s.0 + [status] == arts + more;
      ExplainedMore(arts, more);
    }
  }

  lemma {:induction false} ExplainedStep(s: State, c: Connectors, m: Move)
    requires AllExplained(s.arts) && Enabled(s, m) && AllShaped(s.arts)
    ensures AllExplained(Next(s, c, m).arts)
  {
    hide AllExplained, AfterCreate, AfterTracking, Latest;
    match m
    case PutOther(a) => ExplainedMore(s.arts, [a]);
    case Govern(e) =>
      ExplainedMore(s.arts,
                    [Artifact(e.artifact, "governance_decision", "", 1, GovernanceData(e.status, e.decisionId))]);
    case ApproverActs(i) =>
      if s.approvers[i].heard.Some? && Latest(s.arts, s.approvers[i].heard.value.artifact).Some? {
        var e := s.approvers[i].heard.value;
        ExplainedMore(s.arts, [Authorization(e, Latest(s.arts, e.artifact).value)]);
      }
    case ApproveDirectly(approver) =>
      if IsPending(s.arts) { ExplainedMore(s.arts, [Granted(Latest(s.arts, AUTHORIZATION).value, approver)]); }
    case OrdererActs(i) => OrderExplained(s.arts, s.orderers[i], c);
    case CreateDirectly(i) => OrderExplained(s.arts, s.orderers[i], c);
    case TrackerActs(i) => StatusExplained(s.arts, s.trackers[i], c);
    case TrackDirectly(i) => StatusExplained(s.arts, s.trackers[i], c);
    case _ =>
  }

  /** In every run: an order carries the id derived from a recorded decision, a status the id of a recorded order or
      none; and every submission on record is the submission of a recorded order, every query that of a recorded
      status. */
  lemma {:induction false} CallsBelongToOrders(c: Connectors, ms: seq<Move>)
    requires Legal(Start(), c, ms)
    ensures AllExplained(Run(Start(), c, ms).arts)
    decreases |ms|
  {
    hide Enabled, Next, AllShaped;
    if ms != [] {
      CallsBelongToOrders(c, ms[..|ms| - 1]);
      EveryRunIsGood(c, ms[..|ms| - 1]);
      ExplainedStep(Run(Start(), c, ms[..|ms| - 1]), c, ms[|ms| - 1]);
    }
  }

  /** The agents' own guards make no difference in any reachable state: they are consulted only where the order, or the
      status, they would return does not exist yet. */
  lemma {:induction false} GuardsMakeNoDifference(c: Connectors, ms: seq<Move>, x: Caller, guard: set<string>)
    requires Legal(Start(), c, ms)
    ensures var arts := Run(Start(), c, ms).arts;
            var y := x.(guard := guard);
            && AfterCreate(arts, x, c).0 == AfterCreate(arts, y, c).0
            && AfterCreate(arts, x, c).2 == AfterCreate(arts, y, c).2
            && AfterTracking(arts, x, c).0 == AfterTracking(arts, y, c).0
            && AfterTracking(arts, x, c).2 == AfterTracking(arts, y, c).2
  {
    hide Run, Legal, Orders, Statuses, Calls, AllBase, AllShaped, Latest, Progress, DecisionIdOf;
    EveryRunIsGood(c, ms);
    var arts := Run(Start(), c, ms).arts;
    if !OfKind(arts, ORDER) { NoneByName(arts, ORDER); }
    if !OfKind(arts, STATUS) { NoneByName(arts, STATUS); }
  }

  /** An authorization goes back to a verdict announced for its decision, never a rejection: the first version is
      pending exactly when that verdict required approval and names the simulated governance exactly when it approved
      outright; any later version is granted and names its approver. */
  ghost predicate Sourced(published: seq<GovEvent>, a: Art) {
    a.data.AuthorizationData? ==>
      && (a.version > 1 ==> a.data.status == "authorized" && a.data.approvedBy.Some?)
      && exists e :: e in published && Behind(e, a)
  }

  predicate Behind(e: GovEvent, a: Art)
    requires a.data.AuthorizationData?
  {
    && (e.decisionId == a.data.decisionId || e.decisionId == "") && e.status != "REJECTED"
    && (a.version <= 1 ==>
          && (a.data.status == "pending" <==> e.status == "APPROVAL_REQUIRED")
          && a.data.approvedBy == if e.status == "APPROVED" then Some("governance_sim") else None)
  }

  ghost predicate AllSourced(s: State) { forall a | a in s.arts :: Sourced(s.published, a) }

  lemma SourcedMore(arts: seq<Art>, a: Art, published: seq<GovEvent>)
    requires (forall b | b in arts :: Sourced(published, b)) && Sourced(published, a)
    ensures forall b | b in arts + [a] :: Sourced(published, b)
  {
    hide Sourced;
  }

  lemma SourcedLater(published: seq<GovEvent>, e: GovEvent, a: Art)
    requires Sourced(published, a)
    ensures Sourced(published + [e], a)
  {
    if a.data.AuthorizationData? {
      var f :| f in published && Behind(f, a);
      assert f in published + [e];
    }
  }

  lemma {:induction false} GrantSourced(s: State, approver: string)
    requires Good(s) && AllSourced(s) && IsPending(s.arts)
    ensures Sourced(s.published, Granted(Latest(s.arts, AUTHORIZATION).value, approver))
    ensures Latest(s.arts, AUTHORIZATION).value in s.arts
  {
    hide Good;
    LatestMeans(s.arts, AUTHORIZATION);
    var a := Latest(s.arts, AUTHORIZATION).value;
    assert Sourced(s.published, a);
    PendingVersion(s);
    var e :| e in s.published && Behind(e, a);
    assert Behind(e, Granted(a, approver));
  }

  lemma PendingVersion(s: State)
    requires Good(s) && IsPending(s.arts)
    ensures Latest(s.arts, AUTHORIZATION).value.version >= 1
  {
    hide Progress, Orders, Statuses, Calls;
    PendingKind(s.arts);
  }

  lemma {:induction false} SourcedByCaller(arts: seq<Art>, x: Caller, c: Connectors, published: seq<GovEvent>)
    requires forall b | b in arts :: Sourced(published, b)
    ensures forall b | b in AfterCreate(arts, x, c).0 :: Sourced(published, b)
    ensures forall b | b in AfterTracking(arts, x, c).0 :: Sourced(published, b)
  {
    hide Latest, OfKind, DecisionIdOf, OrderFields, CanOrder;
  }

  lemma {:induction false} SourcedStep(s: State, c: Connectors, m: Move)
    requires Good(s) && AllSourced(s) && Enabled(s, m)
    ensures AllSourced(Next(s, c, m))
  {
    hide Sourced, Latest, AfterCreate, AfterTracking, ArtsOk, Granted;
    match m
    case PutOther(a) => SourcedPlain(s.published, a); SourcedMore(s.arts, a, s.published);
    case Govern(e) =>
      var verdict := Artifact(e.artifact, "governance_decision", "", 1, GovernanceData(e.status, e.decisionId));
      SourcedPlain(s.published, verdict);
      SourcedMore(s.arts, verdict, s.published);
      forall a | a in s.arts + [verdict]
        ensures Sourced(s.published + [e], a)
      {
        SourcedLater(s.published, e, a);
      }
    case ApproverActs(i) =>
      if s.approvers[i].heard.Some? && s.approvers[i].heard.value.status != "REJECTED" {
        var e := s.approvers[i].heard.value;
        if Latest(s.arts, e.artifact).Some? {
          VerdictSourced(s.published, e, Latest(s.arts, e.artifact).value);
          SourcedMore(s.arts, Authorization(e, Latest(s.arts, e.artifact).value), s.published);
        }
      }
    case ApproveDirectly(approver) =>
      if IsPending(s.arts) {
        GrantSourced(s, approver);
        SourcedMore(s.arts, Granted(Latest(s.arts, AUTHORIZATION).value, approver), s.published);
      }
    case OrdererActs(i) => SourcedByCaller(s.arts, s.orderers[i], c, s.published);
    case CreateDirectly(i) => SourcedByCaller(s.arts, s.orderers[i], c, s.published);
    case TrackerActs(i) => SourcedByCaller(s.arts, s.trackers[i], c, s.published);
    case TrackDirectly(i) => SourcedByCaller(s.arts, s.trackers[i], c, s.published);
    case _ =>
  }

  lemma SourcedPlain(published: seq<GovEvent>, a: Art)
    requires !a.data.AuthorizationData?
    ensures Sourced(published, a)
  {
  }

  lemma VerdictSourced(published: seq<GovEvent>, e: GovEvent, governance: Art)
    requires e in published && e.status != "REJECTED"
    ensures Sourced(published, Authorization(e, governance))
  {
    assert Behind(e, Authorization(e, governance));
  }

  /** In every run every authorization goes back to an announced verdict in that way, and approving makes the pending
      one in force a granted one for the same decision that names the approver. */
  lemma {:induction false} AuthorizationsComeFromVerdicts(c: Connectors, ms: seq<Move>, approver: string)
    requires Legal(Start(), c, ms)
    ensures var s := Run(Start(), c, ms);
            && AllSourced(s)
            && (IsPending(s.arts) ==>
                  var a := Latest(AfterApproval(s.arts, approver), AUTHORIZATION);
                  a.Some? && a.value.data == AuthorizationData("authorized", Some(approver),
                                                               Latest(s.arts, AUTHORIZATION).value.data.decisionId))
    decreases |ms|
  {
    hide Enabled, Next, Good, AllSourced, Latest, IsPending;
    if ms == [] {
      NothingYet();
    } else {
      AuthorizationsComeFromVerdicts(c, ms[..|ms| - 1], approver);
      EveryRunIsGood(c, ms[..|ms| - 1]);
      SourcedStep(Run(Start(), c, ms[..|ms| - 1]), c, ms[|ms| - 1]);
      var s := Run(Start(), c, ms);
      if IsPending(s.arts) {
        ApprovedIs(s.arts, approver);
      }
    }
  }

  lemma NothingYet()
    ensures AllSourced(Start()) && !IsPending(Start().arts)
  {
  }

  lemma ApprovedIs(arts: seq<Art>, approver: string)
    requires IsPending(arts)
    ensures var a, b := Latest(arts, AUTHORIZATION).value, Latest(AfterApproval(arts, approver), AUTHORIZATION);
            b.Some? && b.value.data == AuthorizationData("authorized", Some(approver), a.data.decisionId)
  {
    hide Latest;
    LatestMeans(arts, AUTHORIZATION);
    LatestMore(arts, Granted(Latest(arts, AUTHORIZATION).value, approver), AUTHORIZATION);
  }

  /** Whose turn does what: an agent that is not pending does nothing on its turn; a pending one that finds nothing to
      act on is no longer pending and changes nothing else; and a direct call leaves everyone as pending as before. */
  lemma PendingRules(s: State, c: Connectors, i: nat)
    ensures i < |s.approvers| && !s.approvers[i].pending ==> Next(s, c, ApproverActs(i)) == s
    ensures i < |s.orderers| && !s.orderers[i].pending ==> Next(s, c, OrdererActs(i)) == s
    ensures i < |s.trackers| && !s.trackers[i].pending ==> Next(s, c, TrackerActs(i)) == s
    ensures i < |s.orderers| && s.orderers[i].pending && Latest(s.arts, s.orderers[i].artifact).None? ==>
              Next(s, c, OrdererActs(i)) == s.(orderers := s.orderers[i := s.orderers[i].(pending := false)])
    ensures i < |s.trackers| && s.trackers[i].pending && Latest(s.arts, s.trackers[i].artifact).None? ==>
              Next(s, c, TrackerActs(i)) == s.(trackers := s.trackers[i := s.trackers[i].(pending := false)])
    ensures i < |s.orderers| ==>
              var xs := Next(s, c, CreateDirectly(i)).orderers;
              |xs| == |s.orderers| && xs[i].pending == s.orderers[i].pending
    ensures i < |s.trackers| ==>
              var xs := Next(s, c, TrackDirectly(i)).trackers;
              |xs| == |s.trackers| && xs[i].pending == s.trackers[i].pending
  {
    hide Next, Latest;
    if i < |s.approvers| { ApproverRules(s, c, i); }
    if i < |s.orderers| { OrdererRules(s, c, i); }
    if i < |s.trackers| { TrackerRules(s, c, i); }
  }

  lemma ApproverRules(s: State, c: Connectors, i: nat)
    requires i < |s.approvers|
    ensures !s.approvers[i].pending ==> Next(s, c, ApproverActs(i)) == s
  {
    hide Latest, AfterVerdict;
  }

  lemma OrdererRules(s: State, c: Connectors, i: nat)
    requires i < |s.orderers|
    ensures !s.orderers[i].pending ==> Next(s, c, OrdererActs(i)) == s
    ensures s.orderers[i].pending && Latest(s.arts, s.orderers[i].artifact).None? ==>
              Next(s, c, OrdererActs(i)) == s.(orderers := s.orderers[i := s.orderers[i].(pending := false)])
    ensures var xs := Next(s, c, CreateDirectly(i)).orderers;
            |xs| == |s.orderers| && xs[i].pending == s.orderers[i].pending
  {
    hide Latest, AfterCreate;
    NothingToOrder(s.arts, s.orderers[i], c);
  }

  lemma TrackerRules(s: State, c: Connectors, i: nat)
    requires i < |s.trackers|
    ensures !s.trackers[i].pending ==> Next(s, c, TrackerActs(i)) == s
    ensures s.trackers[i].pending && Latest(s.arts, s.trackers[i].artifact).None? ==>
              Next(s, c, TrackerActs(i)) == s.(trackers := s.trackers[i := s.trackers[i].(pending := false)])
    ensures var xs := Next(s, c, TrackDirectly(i)).trackers;
            |xs| == |s.trackers| && xs[i].pending == s.trackers[i].pending
  {
    hide Latest, AfterTracking;
    NothingToTrack(s.arts, s.trackers[i], c);
  }

  lemma NothingToOrder(arts: seq<Art>, x: Caller, c: Connectors)
    ensures Latest(arts, x.artifact).None? ==> AfterCreate(arts, x, c) == (arts, x.guard, None)
  {
    hide Latest, OfKind, CanOrder, AfterSubmit;
  }

  lemma NothingToTrack(arts: seq<Art>, x: Caller, c: Connectors)
    ensures Latest(arts, x.artifact).None? ==> AfterTracking(arts, x, c) == (arts, x.guard, None)
  {
    hide Latest, OfKind, AfterQuery;
  }

  /** In every run, the first creation of an order, by any agent: the order is for the decision in force, its id is
      derived from that decision's, its status is the connector's answer for that id, and an agent with a base
      connector leaves the one record of that submission before it. */
  lemma {:induction false} OrdersTheDecision(c: Connectors, ms: seq<Move>, x: Caller, decision: Art)
    requires Legal(Start(), c, ms) && var arts := Run(Start(), c, ms).arts;
             CanOrder(arts, x) && Latest(arts, "decision") == Some(decision) && decision.data.DecisionData?
    ensures var arts, r, orderId := Run(Start(), c, ms).arts, AfterCreate(Run(Start(), c, ms).arts, x, c),
                                    "PO-" + decision.data.id;
            && r.2.Some? && r.2.value.name == "purchase_order" && r.2.value.kind == "purchase_order"
            && r.2.value.data == OrderData(orderId, decision.data.id, c.submit(orderId))
            && |r.0| == |arts| + (if x.base then 2 else 1) && r.0[|r.0| - 1] == r.2.value
            && (x.base ==> r.0[|arts|].data == CallData("submit_order", orderId))
  {
    hide Run, Legal, Orders, Statuses, Calls, AllBase, AllShaped, Latest, Progress;
    EveryRunIsGood(c, ms);
    NoneByName(Run(Start(), c, ms).arts, ORDER);
  }

  /** In every run, the first tracking of an order, by any agent: the status recorded is that order's, and it is the
      connector's answer for that order; an agent with a base connector leaves the one record of that query before
      it. */
  lemma {:induction false} TracksTheOrder(c: Connectors, ms: seq<Move>, x: Caller, order: Art)
    requires Legal(Start(), c, ms) && var arts := Run(Start(), c, ms).arts;
             Latest(arts, x.artifact) == Some(order) && order.data.OrderData? && !OfKind(arts, STATUS)
    ensures var arts, r, orderId := Run(Start(), c, ms).arts, AfterTracking(Run(Start(), c, ms).arts, x, c),
                                    order.data.orderId;
            && r.2.Some? && r.2.value.name == "execution_status" && r.2.value.kind == "execution_status"
            && r.2.value.data == StatusData(orderId, c.track(orderId))
            && |r.0| == |arts| + (if x.base then 2 else 1) && r.0[|r.0| - 1] == r.2.value
            && (x.base ==> r.0[|arts|].data == CallData("get_order_status", orderId))
  {
    hide Run, Legal, Orders, Statuses, Calls, AllBase, AllShaped, Latest, Progress;
    EveryRunIsGood(c, ms);
    NoneByName(Run(Start(), c, ms).arts, STATUS);
  }

  // ---- the agents themselves

  class ApprovalAgent {
    var pending: bool
    var heard: Option<GovEvent>

    constructor ()
      ensures View() == Approver(false, None)
    {
      pending, heard := false, None;
    }

    function View(): Approver
      reads this
    {
      Approver(pending, heard)
    }

    method Perceive(e: GovEvent, replayed: bool)
      modifies this
      ensures View() == if replayed then old(View()) else HeardVerdict(e)
    {
      if replayed { return; }
      pending, heard := true, Some(e);
    }

    /** Up to the point where the outcome is announced; pending is only cleared after that. */
    method Act(state: SwarmState<Data>) returns (announced: bool)
      modifies this, state`artifacts
      ensures (state.artifacts, View()) == old(ActApprove(state.artifacts, View()))
      ensures announced <==> old(pending && heard.Some? && Latest(state.artifacts, heard.value.artifact).Some?)
    {
      if !pending || heard.None? { return false; }
      var e := heard.value;
      var governance := state.GetArtifact(e.artifact);
      if governance.None? {
        pending, heard := false, None;
        return false;
      }
      if e.status == "REJECTED" { return true; }
      var status := if e.status == "APPROVAL_REQUIRED" then "pending" else "authorized";
      var approvedBy := if e.status == "APPROVED" then Some("governance_sim") else None;
      var decisionId := e.decisionId;
      if decisionId == "" && governance.value.data.GovernanceData? {
        decisionId := governance.value.data.decisionId;
      }
      state.PutArtifact(Artifact("execution_authorization", "execution_authorization", "", 1,
                                 AuthorizationData(status, approvedBy, decisionId)));
      announced := true;
    }

    /** Once the outcome has been announced. */
    method Finish()
      modifies this
      ensures View() == Approver(false, None)
    {
      pending, heard := false, None;
    }

    method Approve(state: SwarmState<Data>, approver: string) returns (granted: bool)
      modifies state`artifacts
      ensures state.artifacts == AfterApproval(old(state.artifacts), approver)
      ensures granted <==> old(IsPending(state.artifacts))
    {
      var latest := state.GetArtifact(AUTHORIZATION);
      if latest.None? || !latest.value.data.AuthorizationData? || latest.value.data.status != "pending" {
        return false;
      }
      var a := latest.value;
      state.PutArtifact(a.(version := a.version + 1,
                           data := AuthorizationData("authorized", Some(approver), a.data.decisionId)));
      granted := true;
    }
  }

  class PurchaseOrderAgent {
    const connectors: Connectors
    const base: bool
    var pending: bool
    var artifact: string
    var guard: set<string>

    constructor (connectors: Connectors, base: bool)
      ensures this.connectors == connectors && this.base == base
      ensures View() == Caller(false, AUTHORIZATION, base, {})
    {
      this.connectors, this.base := connectors, base;
      pending, artifact, guard := false, AUTHORIZATION, {};
    }

    function View(): Caller
      reads this
    {
      Caller(pending, artifact, base, guard)
    }

    method SubmitOrder(state: SwarmState<Data>, id: string) returns (status: string)
      requires id == DecisionIdOf(state.artifacts)
      modifies this`guard, state`artifacts
      ensures (state.artifacts, guard, status) == old(AfterSubmit(state.artifacts, View(), connectors))
    {
      var orderId := "PO-" + id;
      if !base { return connectors.submit(orderId); }
      if id in guard {
        var existing := state.GetArtifact(ORDER);
        if existing.Some? {
          return if existing.value.data.OrderData? then existing.value.data.status else "CREATED";
        }
      }
      guard := guard + {id};
      state.PutArtifact(Call("submit_order", orderId));
      status := connectors.submit(orderId);
    }

    method CreateOrder(state: SwarmState<Data>) returns (order: Option<Art>)
      modifies this`guard, state`artifacts
      ensures (state.artifacts, guard, order) == old(AfterCreate(state.artifacts, View(), connectors))
    {
      hide Latest;
      var authorization := state.GetArtifact(artifact);
      if authorization.None? || !authorization.value.data.AuthorizationData?
         || authorization.value.data.status != "authorized" { return None; }
      var ordered := state.HasKind(ORDER);
      if ordered {
        order := state.GetArtifact(ORDER);
        return;
      }
      var decision := state.GetArtifact("decision");
      var requirement := state.GetArtifact("requirement");
      if decision.None? || requirement.None? { return None; }
      var id := if decision.value.data.DecisionData? then decision.value.data.id else "";
      var status := SubmitOrder(state, id);
      var a := OrderArt("PO-" + id, id, status);
      state.PutArtifact(a);
      order := Some(a);
    }

    /** Up to the point where the order is announced. Acting again before pending is cleared finds the order there. */
    method Act(state: SwarmState<Data>) returns (announced: bool)
      modifies this`pending, this`guard, state`artifacts
      ensures (state.artifacts, View()) == old(ActOrder(state.artifacts, View(), connectors))
      ensures announced <==> old(pending && AfterCreate(state.artifacts, View(), connectors).2.Some?)
    {
      hide AfterCreate;
      if !pending { return false; }
      var order := CreateOrder(state);
      if order.None? {
        pending := false;
        return false;
      }
      announced := true;
    }

    method PerceiveGrant(granted: string, replayed: bool)
      modifies this`pending, this`artifact
      ensures View() == if replayed then old(View()) else old(HeardGrant(View(), granted))
    {
      if replayed { return; }
      pending := true;
      artifact := if granted == "" then "execution_authorization" else granted;
    }

    method PerceiveExecute(replayed: bool)
      modifies this`pending
      ensures View() == if replayed then old(View()) else old(HeardExecute(View()))
    {
      if replayed { return; }
      pending := true;
    }

    /** Once the order has been announced. */
    method Finish()
      modifies this`pending
      ensures View() == old(Finished(View()))
    {
      pending := false;
    }
  }

  class ExecutionTrackingAgent {
    const connectors: Connectors
    const base: bool
    var pending: bool
    var artifact: string
    var guard: set<string>

    constructor (connectors: Connectors, base: bool)
      ensures this.connectors == connectors && this.base == base
      ensures View() == Caller(false, ORDER, base, {})
    {
      this.connectors, this.base := connectors, base;
      pending, artifact, guard := false, ORDER, {};
    }

    function View(): Caller
      reads this
    {
      Caller(pending, artifact, base, guard)
    }

    method TrackOrder(state: SwarmState<Data>, ids: (string, string)) returns (status: string)
      modifies this`guard, state`artifacts
      ensures (state.artifacts, guard, status) == old(AfterQuery(state.artifacts, View(), ids, connectors))
    {
      if !base { return connectors.track(ids.0); }
      if ids.1 in guard {
        var existing := state.GetArtifact(STATUS);
        if existing.Some? {
          return if existing.value.data.StatusData? then existing.value.data.status else "";
        }
      }
      guard := guard + {ids.1};
      state.PutArtifact(Call("get_order_status", ids.0));
      status := connectors.track(ids.0);
    }

    method Track(state: SwarmState<Data>) returns (status: Option<Art>)
      modifies this`guard, state`artifacts
      ensures (state.artifacts, guard, status) == old(AfterTracking(state.artifacts, View(), connectors))
    {
      hide Latest, OrderFields;
      var order := state.GetArtifact(artifact);
      if order.None? { return None; }
      var tracked := state.HasKind(STATUS);
      if tracked {
        status := state.GetArtifact(STATUS);
        return;
      }
      var ids := OrderFields(order.value);
      var answer := TrackOrder(state, ids);
      var a := StatusArt(ids.0, answer);
      state.PutArtifact(a);
      status := Some(a);
    }

    /** Up to the point where the status is announced. */
    method Act(state: SwarmState<Data>) returns (announced: bool)
      modifies this`pending, this`guard, state`artifacts
      ensures (state.artifacts, View()) == old(ActTrack(state.artifacts, View(), connectors))
      ensures announced <==> old(pending && AfterTracking(state.artifacts, View(), connectors).2.Some?)
    {
      hide AfterTracking;
      if !pending { return false; }
      var status := Track(state);
      if status.None? {
        pending := false;
        return false;
      }
      announced := true;
    }

    method Perceive(created: string, replayed: bool)
      modifies this`pending, this`artifact
      ensures View() == if replayed then old(View()) else old(HeardOrder(View(), created))
    {
      if replayed { return; }
      pending := true;
      artifact := if created == "" then "purchase_order" else created;
    }

    /** Once the status has been announced. */
    method Finish()
      modifies this`pending
      ensures View() == old(Finished(View()))
    {
      pending := false;
    }
  }
}
