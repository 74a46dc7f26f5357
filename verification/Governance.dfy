/** Governance of a risk assessment (swarm/domain/governance.py, swarm/domain/agents/governance_agent.py). */
module Governance {
  import opened Basics

  datatype Level = Low | Medium | High | Critical

  datatype Risk = Risk(decisionId: string, supplier: string, level: Level, overall: real, amount: real)

  datatype Policy = Policy(maxPurchase: real, maxRisk: real, approvalAbove: real, approvalForHigh: bool)

  datatype Status = Approved | ApprovalRequired | Rejected

  datatype Verdict = Verdict(decisionId: string, supplier: string, status: Status, amount: real,
                             approver: Option<string>)

  function NeedsApproval(r: Risk, p: Policy): bool {
    r.amount > p.approvalAbove || (p.approvalForHigh && r.level == High) || r.level == Medium
  }

  function FromRisk(r: Risk, p: Policy): Verdict {
    if r.level == Critical || r.overall > p.maxRisk then Verdict(r.decisionId, r.supplier, Rejected, r.amount, None)
    else if NeedsApproval(r, p)
    then Verdict(r.decisionId, r.supplier, ApprovalRequired, r.amount, Some("governance_sim"))
    else Verdict(r.decisionId, r.supplier, Approved, r.amount, None)
  }

  function Severity(s: Status): int { match s case Approved => 0 case ApprovalRequired => 1 case Rejected => 2 }
  function Ordinal(l: Level): int { match l case Low => 0 case Medium => 1 case High => 2 case Critical => 3 }

  /** At least as bad in every respect. */
  predicate AsBad(r: Risk, worse: Risk) {
    Ordinal(r.level) <= Ordinal(worse.level) && r.overall <= worse.overall && r.amount <= worse.amount
  }

  ghost predicate Monotone(p: Policy) {
    forall r: Risk, worse: Risk | AsBad(r, worse) ::
      Severity(FromRisk(r, p).status) <= Severity(FromRisk(worse, p).status)
  }

  /** A worse risk never gets a milder decision exactly when high risks need approval. Without that flag a medium risk
      has to be approved while a high one goes through. */
  lemma {:induction false} MonotoneIffHighNeedsApproval(p: Policy)
    ensures Monotone(p) <==> p.approvalForHigh
  {
    if !p.approvalForHigh {
      var low := if p.maxRisk <= p.approvalAbove then p.maxRisk else p.approvalAbove;
      var medium, high := Risk("d", "s", Medium, low, low), Risk("d", "s", High, low, low);
      assert AsBad(medium, high);
      assert Severity(FromRisk(medium, p).status) == 1 && Severity(FromRisk(high, p).status) == 0;
    }
  }

  /** Limits are inclusive: a low risk at both limits goes through, any more money needs approval, any more risk is
      refused, and a critical level is refused even at no risk and no cost. */
  lemma {:induction false} LimitsAreInclusive(p: Policy, more: real)
    requires more > 0.0
    ensures FromRisk(Risk("d", "s", Low, p.maxRisk, p.approvalAbove), p).status == Approved
    ensures FromRisk(Risk("d", "s", Low, p.maxRisk, p.approvalAbove + more), p).status == ApprovalRequired
    ensures FromRisk(Risk("d", "s", Low, p.maxRisk + more, p.approvalAbove), p).status == Rejected
    ensures FromRisk(Risk("d", "s", Medium, p.maxRisk, p.approvalAbove), p).status == ApprovalRequired
    ensures FromRisk(Risk("d", "s", Critical, p.maxRisk - more, p.approvalAbove - more), p).status == Rejected
  {
  }

  /** The verdict in full: rejected exactly for a critical level or a risk over the limit; otherwise for approval
      exactly for a medium level, an amount over the approval limit, or a high level under the flag; always on the
      decision, the supplier and the amount of the risk it answers, and naming an approver exactly when it asks for
      approval. The purchase limit of the policy plays no part. */
  lemma VerdictOnRisk(r: Risk, p: Policy, other: real)
    ensures var v := FromRisk(r, p);
            && (v.status == Rejected <==> r.level == Critical || r.overall > p.maxRisk)
            && (v.status == Approved <==>
                && r.overall <= p.maxRisk && r.amount <= p.approvalAbove
                && (r.level == Low || (r.level == High && !p.approvalForHigh)))
            && v.decisionId == r.decisionId && v.supplier == r.supplier && v.amount == r.amount
            && v.approver == (if v.status == ApprovalRequired then Some("governance_sim") else None)
            && FromRisk(r, p.(maxPurchase := other)) == v
  {
  }

  /** What the agent was told, and what it made of it. */
  datatype Heard = Nothing | RiskDone(artifact: string) | ContractRejected(supplier: string, decisionId: string)

  class GovernanceAgent {
    const policy: Policy
    var pending: bool
    var contractRejected: bool
    var riskArtifact: string
    var rejectSupplier: string
    var rejectDecision: string
    var decision: Option<Verdict>

    constructor (policy: Policy)
      ensures this.policy == policy && !pending && decision.None?
    {
      this.policy := policy;
      pending, contractRejected := false, false;
      riskArtifact, rejectSupplier, rejectDecision := "risk_assessment", "", "";
      decision := None;
    }

    method Perceive(h: Heard, replayed: bool)
      modifies this
      ensures replayed || h.Nothing? ==> unchanged(this)
      ensures !replayed && !h.Nothing? ==> pending && decision.None? && (contractRejected <==> h.ContractRejected?)
      ensures !replayed && h.RiskDone? ==> riskArtifact == if h.artifact == "" then "risk_assessment" else h.artifact
      ensures !replayed && h.ContractRejected? ==> rejectSupplier == h.supplier && rejectDecision == h.decisionId
    {
      if replayed { return; }
      match h
      case Nothing =>
      case RiskDone(artifact) =>
        pending, contractRejected, decision := true, false, None;
        riskArtifact := if artifact == "" then "risk_assessment" else artifact;
      case ContractRejected(supplier, decisionId) =>
        pending, contractRejected, decision := true, true, None;
        rejectSupplier, rejectDecision := supplier, decisionId;
    }

    /** A rejected contract is rejected whatever the risk; otherwise the policy speaks on the assessment, if there is
        one. */
    method Reason(risk: string -> Option<Risk>)
      modifies this`pending, this`decision
      ensures !old(pending) ==> unchanged(this)
      ensures old(pending) && contractRejected ==>
                pending && decision == Some(Verdict(rejectDecision, rejectSupplier, Rejected, 0.0, None))
      ensures old(pending) && !contractRejected ==>
                (pending <==> risk(riskArtifact).Some?)
                && decision == if risk(riskArtifact).Some? then Some(FromRisk(risk(riskArtifact).value, policy))
                               else old(decision)
    {
      if !pending { return; }
      if contractRejected {
        decision := Some(Verdict(rejectDecision, rejectSupplier, Rejected, 0.0, None));
        return;
      }
      var r := risk(riskArtifact);
      if r.None? {
        pending := false;
        return;
      }
      decision := Some(FromRisk(r.value, policy));
    }

    /** One full cycle on a contract rejection: the decision is a rejection, and never one on a risk. */
    method StepOnRejection(supplier: string, decisionId: string, risk: string -> Option<Risk>)
      modifies this
      ensures decision.Some? && decision.value.status == Rejected && decision.value.decisionId == decisionId
    {
      Perceive(ContractRejected(supplier, decisionId), false);
      Reason(risk);
    }
  }
}
