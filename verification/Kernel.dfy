/** The safety kernel's validation of a proposal (mesh/neuro/kernel.py) and the actor around it (mesh/actors/base.py).
    Numbers are taken as parsed; an absent field is None. */
module Kernel {
  import opened Basics

  const MAX_PRICE := 10000000.0
  const MAX_UNIT_PRICE := 1000000.0
  const MIN_UNIT_PRICE := 0.01
  const MIN_LEAD_TIME := 1
  const MAX_LEAD_TIME := 365
  const MIN_CONFIDENCE := 0.5
  const VALID_TERMS := {"net_30", "net_60", "cod", "letter_of_credit"}
  const VALID_MATERIALS := {"steel", "aluminum", "copper", "plastic", "lumber", "rubber"}

  /** The fields of a payload's top level that validation looks at. */
  datatype Payload = Payload(price: Option<real>, totalPrice: Option<real>, leadTime: Option<int>,
                             terms: Option<string>, material: Option<string>, budget: Option<real>,
                             quantity: Option<int>)

  datatype Violation = BadPrice | BadLeadTime | BadTerms | BadMaterial | OverBudget | LowConfidence

  datatype Verdict = Approved(clamped: Payload) | Rejected(violations: seq<Violation>)

  function UnitPrice(p: Payload): Option<real> { if p.price.Some? then p.price else p.totalPrice }

  function Quantity(p: Payload): int { if p.quantity.Some? then p.quantity.value else 1 }

  function Product(a: real, n: int): real { a * n as real }

  predicate ExceedsBudget(p: Payload) {
    UnitPrice(p).Some? && p.budget.Some? && Product(UnitPrice(p).value, Quantity(p)) > p.budget.value
  }

  function If(violated: bool, v: Violation): seq<Violation> { if violated then [v] else [] }

  function Violations(p: Payload, confidence: real): seq<Violation> {
    If(p.price.Some? && !(0.0 < p.price.value <= MAX_PRICE), BadPrice)
    + If(p.leadTime.Some? && !(MIN_LEAD_TIME <= p.leadTime.value <= MAX_LEAD_TIME), BadLeadTime)
    + If(p.terms.Some? && p.terms.value !in VALID_TERMS, BadTerms)
    + If(p.material.Some? && p.material.value !in VALID_MATERIALS, BadMaterial)
    + If(ExceedsBudget(p), OverBudget)
    + If(confidence < MIN_CONFIDENCE, LowConfidence)
  }

  function ClampPrice(price: Option<real>): Option<real> {
    if price.None? then None else Some(Clip(MIN_UNIT_PRICE, MAX_UNIT_PRICE, price.value))
  }

  function ClampLeadTime(days: Option<int>): Option<int> {
    if days.None? then None
    else Some(if days.value < MIN_LEAD_TIME then MIN_LEAD_TIME
              else if days.value > MAX_LEAD_TIME then MAX_LEAD_TIME else days.value)
  }

  function Clamped(p: Payload): Payload {
    p.(price := ClampPrice(p.price), totalPrice := ClampPrice(p.totalPrice), leadTime := ClampLeadTime(p.leadTime))
  }

  function Validated(p: Payload, confidence: real): Verdict {
    var violations := Violations(p, confidence);
    if violations != [] then Rejected(violations) else Approved(Clamped(p))
  }

  class SafetyKernel {
    var validations: nat
    var rejections: nat

    constructor ()
      ensures validations == 0 && rejections == 0
    {
      validations, rejections := 0, 0;
    }

    method Validate(p: Payload, confidence: real) returns (verdict: Verdict)
      modifies this
      ensures verdict == Validated(p, confidence)
      ensures validations == old(validations) + 1
      ensures rejections == old(rejections) + if verdict.Rejected? then 1 else 0
    {
      validations := validations + 1;
      var failures := If(p.price.Some? && !(0.0 < p.price.value <= MAX_PRICE), BadPrice);
      failures := failures + If(p.leadTime.Some? && !(MIN_LEAD_TIME <= p.leadTime.value <= MAX_LEAD_TIME), BadLeadTime);
      failures := failures + If(p.terms.Some? && p.terms.value !in VALID_TERMS, BadTerms);
      failures := failures + If(p.material.Some? && p.material.value !in VALID_MATERIALS, BadMaterial);
      failures := failures + If(ExceedsBudget(p), OverBudget);
      failures := failures + If(confidence < MIN_CONFIDENCE, LowConfidence);
      if failures != [] {
        rejections := rejections + 1;
        return Rejected(failures);
      }
      return Approved(Clamped(p));
    }
  }

  /** What an actor of the mesh hands over: everything it proposes is nested in one list, so nothing that is validated
      stands at the top level. */
  const STEP := Payload(None, None, None, None, None, None, None)

  /** So the kernel refuses a step of the mesh for its confidence only; the confidence of a step is 1. */
  lemma StepsAreApproved(confidence: real)
    ensures Validated(STEP, confidence) == Approved(STEP) <==> confidence >= MIN_CONFIDENCE
    ensures Validated(STEP, 1.0) == Approved(STEP)
  {
  }

  /** A price whose clamping carries the total over the budget. */
  predicate ClampedOverBudget(p: Payload) {
    && UnitPrice(p).Some? && p.budget.Some?
    && var price := UnitPrice(p).value;
       || (price < 0.01 && Product(0.01, Quantity(p)) > p.budget.value)
       || (price > 1000000.0 && Product(1000000.0, Quantity(p)) > p.budget.value)
  }

  /** What is approved is clamped afterwards; the clamped payload would be approved again exactly unless clamping the
      price carries the total over the budget that was checked before. */
  lemma {:induction false} ClampedPassesAgainIff(p: Payload, confidence: real)
    requires Validated(p, confidence).Approved?
    ensures Validated(Clamped(p), confidence).Approved? <==> !ClampedOverBudget(p)
    ensures Validated(Clamped(p), confidence).Approved? ==> Validated(Clamped(p), confidence).clamped == Clamped(p)
  {
    hide Product;
    ClearIff(p, confidence);
    ClearIff(Clamped(p), confidence);
  }

  /** Nothing is objected to exactly when every field that is given is within its bounds, the price (failing that, the
      total price) times the quantity (1 if none is given) is within the budget, and the confidence is at least a
      half. */
  lemma ClearIff(p: Payload, confidence: real)
    ensures Violations(p, confidence) == [] <==>
              && (p.price.Some? ==> 0.0 < p.price.value <= 10000000.0)
              && (p.leadTime.Some? ==> 1 <= p.leadTime.value <= 365)
              && (p.terms.Some? ==> p.terms.value in {"net_30", "net_60", "cod", "letter_of_credit"})
              && (p.material.Some? ==>
                    p.material.value in {"steel", "aluminum", "copper", "plastic", "lumber", "rubber"})
              && (p.budget.Some? && p.price.Some? ==> Total(p.price.value, p.quantity) <= p.budget.value)
              && (p.budget.Some? && p.price.None? && p.totalPrice.Some? ==>
                    Total(p.totalPrice.value, p.quantity) <= p.budget.value)
              && confidence >= 0.5
  {
    hide Product;
  }

  function Total(price: real, quantity: Option<int>): real {
    if quantity.Some? then Product(price, quantity.value) else Product(price, 1)
  }

  /** What approval leaves in a payload: both prices within a cent and a million, the lead time within a year, values
      that were within these bounds untouched, and so everything else. */
  lemma ClampedIsBounded(p: Payload)
    ensures var c := Clamped(p);
            && (c.price.Some? <==> p.price.Some?) && (c.price.Some? ==> 0.01 <= c.price.value <= 1000000.0)
            && (c.totalPrice.Some? <==> p.totalPrice.Some?)
            && (c.totalPrice.Some? ==> 0.01 <= c.totalPrice.value <= 1000000.0)
            && (c.leadTime.Some? <==> p.leadTime.Some?) && (c.leadTime.Some? ==> 1 <= c.leadTime.value <= 365)
            && (p.price.Some? && 0.01 <= p.price.value <= 1000000.0 ==> c.price == p.price)
            && (p.totalPrice.Some? && 0.01 <= p.totalPrice.value <= 1000000.0 ==> c.totalPrice == p.totalPrice)
            && (p.leadTime.Some? && 1 <= p.leadTime.value <= 365 ==> c.leadTime == p.leadTime)
            && c == p.(price := c.price, totalPrice := c.totalPrice, leadTime := c.leadTime)
    ensures Clamped(Clamped(p)) == Clamped(p)
  {
  }

  /** It happens: ten units at a tenth of a cent fit a budget of 5 cents, and at the cent they are raised to do not. */
  lemma {:induction false} ClampBreaksBudget()
    ensures var p := Payload(Some(0.001), None, None, None, None, Some(0.05), Some(10));
            Validated(p, 1.0).Approved? && Validated(Validated(p, 1.0).clamped, 1.0) == Rejected([OverBudget])
  {
  }
}
