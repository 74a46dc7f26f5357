/** Bilateral bartering: the message-counting state machine (core/protocol/fsm.py), the supplier's
    response rule (core/agents/supplier.py) and the buyer's loop (core/agents/buyer.py).
    Prices are exact reals; rounding to cents is an arbitrary function `rnd`. */
module Barter {
  import opened Basics

  datatype MessageType =
    | Rfq | Bid | BidBond | Award | RejectBid
    | Offer | Counter | Accept | Reject
    | Alert | Validate

  /** A history entry; of the payload only the price is kept. */
  datatype Entry = Entry(turn: int, sender: string, kind: MessageType, price: Option<real>)

  datatype Message = Message(kind: MessageType, sender: string, price: Option<real>)

  // ---- the state machine

  datatype Fsm = Fsm(maxTurns: int, turnCount: int, hasOffer: bool, isTerminal: bool, history: seq<Entry>)

  function NewFsm(maxTurns: int): Fsm {
    Fsm(maxTurns, 0, false, false, [])
  }

  predicate NeedsOffer(kind: MessageType) { kind.Accept? || kind.Counter? }
  predicate OpensOffer(kind: MessageType) { kind.Offer? || kind.Counter? }
  predicate Ends(kind: MessageType) { kind.Accept? || kind.Reject? }

  /** The state after a message is offered to the machine, and whether it was recorded. */
  function Record(s: Fsm, m: Message): (Fsm, bool) {
    if s.isTerminal || (NeedsOffer(m.kind) && !s.hasOffer) then (s, false)
    else if s.turnCount >= s.maxTurns then (s.(isTerminal := true), false)
    else
      (s.(turnCount := s.turnCount + 1,
          hasOffer := s.hasOffer || OpensOffer(m.kind),
          isTerminal := Ends(m.kind),
          history := s.history + [Entry(s.turnCount, m.sender, m.kind, m.price)]), true)
  }

  function RecordAll(s: Fsm, ms: seq<Message>): Fsm
    decreases |ms|
  {
    if ms == [] then s else RecordAll(Record(s, ms[0]).0, ms[1..])
  }

  /** What the protocol promises of a history, whatever was sent. */
  ghost predicate LegalHistory(h: seq<Entry>) {
    && (forall k | 0 <= k < |h| :: h[k].turn == k)
    && (forall k | 0 <= k < |h| && NeedsOffer(h[k].kind) :: exists j | 0 <= j < k :: h[j].kind.Offer?)
    && (forall k | 0 <= k < |h| - 1 :: !Ends(h[k].kind))
  }

  ghost predicate FsmInv(s: Fsm) {
    && LegalHistory(s.history)
    && s.turnCount == |s.history|
    && (|s.history| > 0 ==> |s.history| <= s.maxTurns)
    && (s.hasOffer <==> exists k | 0 <= k < |s.history| :: s.history[k].kind.Offer?)
    && (s.history != [] && Ends(s.history[|s.history| - 1].kind) ==> s.isTerminal)
  }

  /** Any stream of messages whatever leaves a history within the budget, numbered in order, with
      no ACCEPT or COUNTER before an OFFER and no message after an ACCEPT or REJECT. */
  lemma {:induction false} AnyMessagesStayLegal(s: Fsm, ms: seq<Message>)
    requires FsmInv(s)
    ensures FsmInv(RecordAll(s, ms))
    ensures s.history <= RecordAll(s, ms).history
    ensures s.isTerminal ==> RecordAll(s, ms) == s
    decreases |ms|
  {
    if ms != [] {
      RecordKeepsInv(s, ms[0]);
      AnyMessagesStayLegal(Record(s, ms[0]).0, ms[1..]);
    }
  }

  lemma {:induction false} RecordKeepsInv(s: Fsm, m: Message)
    requires FsmInv(s)
    ensures FsmInv(Record(s, m).0)
  {
    var s' := Record(s, m).0;
    if |s'.history| > |s.history| {
      forall k | 0 <= k < |s'.history| && NeedsOffer(s'.history[k].kind)
        ensures exists j | 0 <= j < k :: s'.history[j].kind.Offer?
      {
        if k < |s.history| {
          var j :| 0 <= j < k && s.history[j].kind.Offer?;
          assert s'.history[j].kind.Offer?;
        } else {
          var j :| 0 <= j < |s.history| && s.history[j].kind.Offer?;
          assert s'.history[j].kind.Offer?;
        }
      }
      if s.hasOffer {
        var j :| 0 <= j < |s.history| && s.history[j].kind.Offer?;
        assert s'.history[j].kind.Offer?;
      } else if m.kind.Offer? {
        assert s'.history[|s.history|].kind.Offer?;
      }
    }
  }

  /** And conversely: messages within the budget, with an OFFER before any ACCEPT or COUNTER and nothing after an
      ACCEPT or REJECT, are all recorded, as they were sent. */
  lemma {:induction false} LegalMessagesAreRecorded(s: Fsm, ms: seq<Message>)
    requires !s.isTerminal && s.turnCount + |ms| <= s.maxTurns
    requires forall k | 0 <= k < |ms| && NeedsOffer(ms[k].kind) :: s.hasOffer || OfferedBefore(ms, k)
    requires forall k | 0 <= k < |ms| - 1 :: !Ends(ms[k].kind)
    ensures RecordAll(s, ms).history
         == s.history + seq(|ms|, k requires 0 <= k < |ms| =>
                              Entry(s.turnCount + k, ms[k].sender, ms[k].kind, ms[k].price))
    ensures RecordAll(s, ms).isTerminal <==> ms != [] && Ends(ms[|ms| - 1].kind)
    decreases |ms|
  {
    if ms != [] {
      var next, rest := Record(s, ms[0]).0, ms[1..];
      assert NeedsOffer(ms[0].kind) ==> s.hasOffer;
      forall k | 0 <= k < |rest| && NeedsOffer(rest[k].kind)
        ensures next.hasOffer || OfferedBefore(rest, k)
      {
        assert rest[k] == ms[k + 1];
        if !s.hasOffer {
          var j :| 0 <= j < k + 1 && ms[j].kind.Offer?;
          assert j > 0 ==> rest[j - 1].kind.Offer?;
        }
      }
      if rest != [] {
        assert !Ends(ms[0].kind);
        LegalMessagesAreRecorded(next, rest);
      }
    }
  }

  predicate OfferedBefore(ms: seq<Message>, k: nat)
    requires k <= |ms|
  {
    exists j :: 0 <= j < k && ms[j].kind.Offer?
  }

  class BilateralFSM {
    const maxTurns: int
    var turnCount: int
    var hasOffer: bool
    var isTerminal: bool
    var history: seq<Entry>

    function View(): Fsm
      reads this
    {
      Fsm(maxTurns, turnCount, hasOffer, isTerminal, history)
    }

    constructor (maxTurns: int)
      ensures View() == NewFsm(maxTurns)
    {
      this.maxTurns := maxTurns;
      turnCount, hasOffer, isTerminal, history := 0, false, false, [];
    }

    // Refuses a message that is illegal now; running out of turns also ends the thread.
    method ValidateMessage(kind: MessageType) returns (legal: bool)
      modifies this`isTerminal
      ensures legal <==>
              !old(isTerminal) && (NeedsOffer(kind) ==> hasOffer) && turnCount < maxTurns
      ensures isTerminal == (old(isTerminal) || ((NeedsOffer(kind) ==> hasOffer) && turnCount >= maxTurns))
    {
      if isTerminal { return false; }
      if NeedsOffer(kind) && !hasOffer { return false; }
      if turnCount >= maxTurns {
        isTerminal := true;
        return false;
      }
      return true;
    }

    method RecordMessage(m: Message) returns (recorded: bool)
      modifies this
      ensures (View(), recorded) == Record(old(View()), m)
    {
      var legal := ValidateMessage(m.kind);
      if !legal { return false; }
      history := history + [Entry(turnCount, m.sender, m.kind, m.price)];
      if OpensOffer(m.kind) { hasOffer := true; }
      if Ends(m.kind) { isTerminal := true; }
      turnCount := turnCount + 1;
      return true;
    }
  }

  // ---- the supplier

  datatype CostModel = CostModel(baseCost: real, logisticsPremium: real, minMargin: real)

  function FloorPrice(cost: CostModel): real {
    (cost.baseCost + cost.logisticsPremium) * (1.0 + cost.minMargin)
  }

  datatype Response = Accepted(finalPrice: real) | Rejected | Countered(counterPrice: real)

  function Min(a: real, b: real): real { if a <= b then a else b }
  function Max(a: real, b: real): real { if a >= b then a else b }

  /** The supplier's counter before rounding. */
  function CounterPrice(floor: real, offer: real): real {
    Max(Min(floor + (offer - floor) * 0.75, offer * 0.98), floor)
  }

  function Respond(rnd: real -> real, floor: real, offer: real, turn: int, maxTurns: int): Response {
    if turn >= maxTurns - 1 then
      if offer >= floor then Accepted(rnd(offer)) else Rejected
    else if offer >= floor * 1.10 then Accepted(rnd(offer))
    else Countered(rnd(CounterPrice(floor, offer)))
  }

  // ---- the thread, message by message

  datatype Thread = Thread(success: bool, finalPrice: Option<real>, offers: seq<real>, messages: seq<Message>)

  function NextOffer(rnd: real -> real, floor: real, offer: real): real {
    (offer + rnd(CounterPrice(floor, offer))) / 2.0
  }

  /** What happens from `turn` on when `offer` is on the table. */
  function Rest(rnd: real -> real, floor: real, buyer: string, supplier: string,
                offer: real, turn: nat, maxTurns: int): Thread
    requires turn < maxTurns
    decreases maxTurns - turn
  {
    match Respond(rnd, floor, offer, turn, maxTurns)
    case Accepted(price) => Thread(true, Some(price), [offer], [Message(Accept, supplier, Some(price))])
    case Rejected => Thread(false, None, [offer], [Message(Reject, supplier, None)])
    case Countered(price) =>
      var next := NextOffer(rnd, floor, offer);
      var rest := Rest(rnd, floor, buyer, supplier, next, turn + 1, maxTurns);
      Thread(rest.success, rest.finalPrice, [offer] + rest.offers,
             [Message(Counter, supplier, Some(price)), Message(Counter, buyer, Some(rnd(next)))] + rest.messages)
  }

  function Opening(rnd: real -> real, buyer: string, offer: real): Message {
    Message(Offer, buyer, Some(rnd(offer)))
  }

  datatype Result = Result(success: bool, finalPrice: Option<real>, turns: int, history: seq<Entry>)

  function Numbered(ms: seq<Message>): (entries: seq<Entry>)
    ensures |entries| == |ms|
  {
    seq(|ms|, k requires 0 <= k < |ms| => Entry(k, ms[k].sender, ms[k].kind, ms[k].price))
  }

  function ThreadResult(rnd: real -> real, floor: real, buyer: string, supplier: string,
                        opening: real, maxTurns: int): Result
  {
    if maxTurns < 1 then Result(false, None, 0, [])
    else
      var t := Rest(rnd, floor, buyer, supplier, opening, 0, maxTurns);
      Result(t.success, t.finalPrice, 1 + |t.messages|, Numbered([Opening(rnd, buyer, opening)] + t.messages))
  }

  lemma NumberedSnoc(ms: seq<Message>, m: Message)
    ensures Numbered(ms + [m]) == Numbered(ms) + [Entry(|ms|, m.sender, m.kind, m.price)]
  {
  }

  lemma RestUnfolds(rnd: real -> real, floor: real, buyer: string, supplier: string,
                    offer: real, turn: nat, maxTurns: int)
    requires turn < maxTurns
    ensures var t := Rest(rnd, floor, buyer, supplier, offer, turn, maxTurns);
            match Respond(rnd, floor, offer, turn, maxTurns)
            case Accepted(p) =>
              && t.success && t.finalPrice == Some(p) && t.offers == [offer]
              && t.messages == [Message(Accept, supplier, Some(p))]
            case Rejected =>
              && !t.success && t.finalPrice == None && t.offers == [offer]
              && t.messages == [Message(Reject, supplier, None)]
            case Countered(p) =>
              var next := (offer + p) / 2.0;
              && turn + 1 < maxTurns
              && var rest := Rest(rnd, floor, buyer, supplier, next, turn + 1, maxTurns);
                 && t.success == rest.success && t.finalPrice == rest.finalPrice && t.offers == [offer] + rest.offers
                 && t.messages
                    == [Message(Counter, supplier, Some(p)), Message(Counter, buyer, Some(rnd(next)))] + rest.messages
  {
  }

  lemma RespondPrice(rnd: real -> real, floor: real, offer: real, turn: nat, maxTurns: int)
    ensures match Respond(rnd, floor, offer, turn, maxTurns)
            case Accepted(p) => p == rnd(offer)
            case Rejected => true
            case Countered(p) => p == rnd(CounterPrice(floor, offer))
  {
    hide CounterPrice;
  }

  /** The most messages a thread from `turn` on can send. */
  lemma {:induction false} RestLength(rnd: real -> real, floor: real, buyer: string, supplier: string,
                                      offer: real, turn: nat, maxTurns: int)
    requires turn < maxTurns
    ensures var t := Rest(rnd, floor, buyer, supplier, offer, turn, maxTurns);
            && |t.messages| == 2 * |t.offers| - 1
            && 1 <= |t.offers| <= maxTurns - turn
            && t.offers[0] == offer
            && Ends(t.messages[|t.messages| - 1].kind)
            && (forall k | 0 <= k < |t.messages| - 1 :: t.messages[k].kind.Counter?)
            && (t.success <==> t.messages[|t.messages| - 1].kind.Accept?)
            && (t.success <==> t.finalPrice.Some?)
            && (t.success ==> t.finalPrice == Some(rnd(t.offers[|t.offers| - 1])))
    decreases maxTurns - turn
  {
    hide CounterPrice, Rest, Respond;
    RestUnfolds(rnd, floor, buyer, supplier, offer, turn, maxTurns);
    RespondPrice(rnd, floor, offer, turn, maxTurns);
    if Respond(rnd, floor, offer, turn, maxTurns).Countered? {
      RestLength(rnd, floor, buyer, supplier, NextOffer(rnd, floor, offer), turn + 1, maxTurns);
    }
  }

  // A machine that has recorded exactly these messages, the opening offer first.
  function Holding(maxTurns: int, sent: seq<Message>, ended: bool): Fsm {
    Fsm(maxTurns, |sent|, true, ended, Numbered(sent))
  }

  lemma Records(maxTurns: int, sent: seq<Message>, m: Message)
    requires |sent| < maxTurns
    ensures Record(Holding(maxTurns, sent, false), m) == (Holding(maxTurns, sent + [m], Ends(m.kind)), true)
  {
    hide Numbered;
    NumberedSnoc(sent, m);
  }

  lemma Opens(maxTurns: int, m: Message)
    requires maxTurns >= 1 && m.kind.Offer?
    ensures Record(NewFsm(maxTurns), m) == (Holding(maxTurns, [m], false), true)
  {
    assert Numbered([m]) == [] + [Entry(0, m.sender, m.kind, m.price)];
  }

  lemma NothingOpens(maxTurns: int, m: Message)
    requires maxTurns < 1 && m.kind.Offer?
    ensures var t := Record(NewFsm(maxTurns), m).0; t.history == [] && t.turnCount == 0 && t.maxTurns == maxTurns
  {
  }

  lemma HoldingIs(maxTurns: int, sent: seq<Message>, ended: bool)
    ensures var t := Holding(maxTurns, sent, ended); t.turnCount == |sent| && t.history == Numbered(sent)
  {
  }

  lemma TwoMore(sent: seq<Message>, a: Message, b: Message, rest: seq<Message>)
    ensures sent + ([a, b] + rest) == (sent + [a, b]) + rest && (sent + [a]) + [b] == sent + [a, b]
  {
    assert sent + ([a, b] + rest) == (sent + [a, b]) + rest;
    assert (sent + [a]) + [b] == sent + [a, b];
  }

  /** The buyer's loop runs the thread above to its end: for one turn or more no message is ever
      refused and the fall-through at the end is never reached; for none nothing is sent. */
  method BarterWithSupplier(rnd: real -> real, floor: real, buyer: string, supplier: string,
                            opening: real, maxTurns: int)
    returns (result: Result)
    ensures result == ThreadResult(rnd, floor, buyer, supplier, opening, maxTurns)
  {
    hide Numbered, CounterPrice, Rest, Respond, Record, Holding;
    var fsm := new BilateralFSM(maxTurns * 2);
    var price := opening;
    var first := Opening(rnd, buyer, opening);
    var recorded := fsm.RecordMessage(first);
    ghost var sent := [first];
    ghost var whole := [];
    if maxTurns >= 1 {
      Opens(maxTurns * 2, first);
      whole := sent + Rest(rnd, floor, buyer, supplier, opening, 0, maxTurns).messages;
    } else {
      NothingOpens(maxTurns * 2, first);
    }
    var turn := 0;
    while turn < maxTurns
      invariant 0 <= turn && (maxTurns >= 1 ==> turn < maxTurns)
      invariant maxTurns < 1 ==> fsm.history == [] && fsm.turnCount == 0
      invariant fsm.maxTurns == maxTurns * 2
      invariant maxTurns >= 1 ==>
                  var t := Rest(rnd, floor, buyer, supplier, price, turn, maxTurns);
                  var all := Rest(rnd, floor, buyer, supplier, opening, 0, maxTurns);
                  && |sent| == 2 * turn + 1
                  && fsm.View() == Holding(maxTurns * 2, sent, false)
                  && whole == sent + t.messages
                  && all.success == t.success && all.finalPrice == t.finalPrice
    {
      RestUnfolds(rnd, floor, buyer, supplier, price, turn, maxTurns);
      var response := Respond(rnd, floor, price, turn, maxTurns);
      var message :=
        match response
        case Accepted(p) => Message(Accept, supplier, Some(p))
        case Rejected => Message(Reject, supplier, None)
        case Countered(p) => Message(Counter, supplier, Some(p));
      Records(maxTurns * 2, sent, message);
      recorded := fsm.RecordMessage(message);
      assert recorded;
      if !recorded { break; }
      HoldingIs(maxTurns * 2, sent + [message], Ends(message.kind));
      if response.Accepted? {
        return Result(true, Some(response.finalPrice), fsm.turnCount, fsm.history);
      }
      if response.Rejected? {
        return Result(false, None, fsm.turnCount, fsm.history);
      }
      price := (price + response.counterPrice) / 2.0;
      var reply := Message(Counter, buyer, Some(rnd(price)));
      Records(maxTurns * 2, sent + [message], reply);
      recorded := fsm.RecordMessage(reply);
      assert recorded;
      TwoMore(sent, message, reply, Rest(rnd, floor, buyer, supplier, price, turn + 1, maxTurns).messages);
      sent := sent + [message, reply];
      if !recorded { break; }
      turn := turn + 1;
    }
    return Result(false, None, fsm.turnCount, fsm.history);
  }

  /** For one turn or more: the opening OFFER, then COUNTERs, then exactly one ACCEPT or REJECT at the
      end; ACCEPT on success only; and at most 2 * maxTurns messages, the machine's doubled budget. */
  lemma {:induction false} ThreadShape(rnd: real -> real, floor: real, buyer: string, supplier: string,
                                       opening: real, maxTurns: int)
    requires maxTurns >= 1
    ensures var t := Rest(rnd, floor, buyer, supplier, opening, 0, maxTurns);
            var h := Numbered([Opening(rnd, buyer, opening)] + t.messages);
            && LegalHistory(h)
            && 2 <= |h| == 2 * |t.offers| <= 2 * maxTurns
            && h[0].kind.Offer? && (forall k | 1 <= k < |h| - 1 :: h[k].kind.Counter?)
            && h[|h| - 1].kind == (if t.success then Accept else Reject)
  {
    RestLength(rnd, floor, buyer, supplier, opening, 0, maxTurns);
    var t := Rest(rnd, floor, buyer, supplier, opening, 0, maxTurns);
    var h := Numbered([Opening(rnd, buyer, opening)] + t.messages);
    assert h[0].kind.Offer?;
  }

  // ---- which threads close

  ghost predicate Monotone(rnd: real -> real) {
    forall p: real, q: real | p <= q :: rnd(p) <= rnd(q)
  }

  /** An offer at or above the floor is never countered below it. */
  lemma AboveStaysAbove(rnd: real -> real, floor: real, offer: real)
    requires Monotone(rnd) && rnd(floor) >= floor && offer >= floor
    ensures CounterPrice(floor, offer) >= floor && NextOffer(rnd, floor, offer) >= floor
  {
    assert rnd(CounterPrice(floor, offer)) >= rnd(floor);
  }

  /** An offer below the floor is countered at the floor itself. */
  lemma BelowMeetsFloor(rnd: real -> real, floor: real, offer: real)
    requires offer < floor
    ensures CounterPrice(floor, offer) == floor
    ensures NextOffer(rnd, floor, offer) == (offer + rnd(floor)) / 2.0
  {
  }

  lemma {:induction false} ClosesFromAbove(rnd: real -> real, floor: real, buyer: string, supplier: string,
                                           offer: real, turn: nat, maxTurns: int)
    requires turn < maxTurns && Monotone(rnd) && rnd(floor) >= floor && offer >= floor
    ensures var t := Rest(rnd, floor, buyer, supplier, offer, turn, maxTurns);
            t.success && (forall k | 0 <= k < |t.offers| :: t.offers[k] >= floor)
    decreases maxTurns - turn
  {
    hide NextOffer, CounterPrice;
    AboveStaysAbove(rnd, floor, offer);
    if Respond(rnd, floor, offer, turn, maxTurns).Countered? {
      ClosesFromAbove(rnd, floor, buyer, supplier, NextOffer(rnd, floor, offer), turn + 1, maxTurns);
    }
  }

  function Pow2(k: nat): (r: real)
    ensures r >= 1.0
  {
    if k == 0 then 1.0 else 2.0 * Pow2(k - 1)
  }

  /** Exactly when a thread that opens below the floor still closes: only for a negative floor, whose
      "very profitable" mark 1.1 * floor lies below it, and only if halving the gap gets there in time. */
  lemma {:induction false} ClosesFromBelow(rnd: real -> real, floor: real, buyer: string, supplier: string,
                                           offer: real, turn: nat, maxTurns: int)
    requires turn < maxTurns && rnd(floor) == floor && offer < floor
    ensures Rest(rnd, floor, buyer, supplier, offer, turn, maxTurns).success
            <==> maxTurns - turn >= 2 && floor - offer <= -0.1 * floor * Pow2(maxTurns - turn - 2)
    decreases maxTurns - turn
  {
    hide NextOffer, CounterPrice, Pow2;
    BelowMeetsFloor(rnd, floor, offer);
    if turn < maxTurns - 1 {
      var next := NextOffer(rnd, floor, offer);
      ClosesFromBelow(rnd, floor, buyer, supplier, next, turn + 1, maxTurns);
      Pow2Step(maxTurns - turn - 2);
      GapHalves(floor, offer, next, -0.1 * floor, maxTurns - turn - 2);
    }
  }

  lemma Pow2Step(k: nat)
    ensures Pow2(0) == 1.0 && Pow2(k) >= 1.0
    ensures k > 0 ==> Pow2(k) == 2.0 * Pow2(k - 1)
  {
  }

  lemma GapHalves(floor: real, offer: real, next: real, c: real, k: nat)
    requires offer < floor && next == (offer + floor) / 2.0
    ensures floor - offer <= c ==> floor - offer <= c * Pow2(k)
    ensures k > 0 ==> (floor - offer <= c * Pow2(k) <==> floor - next <= c * Pow2(k - 1))
    ensures k == 0 ==> c * Pow2(k) == c
  {
    if k > 0 {
      assert c * Pow2(k) == 2.0 * (c * Pow2(k - 1));
    }
    if floor - offer <= c {
      assert c * (Pow2(k) - 1.0) >= 0.0;
    }
  }

  /** The exact condition for any floor that rounding leaves alone. */
  lemma {:induction false} ClosesExactly(rnd: real -> real, floor: real, buyer: string, supplier: string,
                                         opening: real, maxTurns: int)
    requires maxTurns >= 1 && Monotone(rnd) && rnd(floor) == floor
    ensures Rest(rnd, floor, buyer, supplier, opening, 0, maxTurns).success
            <==> opening >= floor || (maxTurns >= 2 && floor - opening <= -0.1 * floor * Pow2(maxTurns - 2))
  {
    hide Pow2;
    if opening >= floor {
      ClosesFromAbove(rnd, floor, buyer, supplier, opening, 0, maxTurns);
    } else {
      ClosesFromBelow(rnd, floor, buyer, supplier, opening, 0, maxTurns);
    }
  }

  /** For a floor of at least zero: a thread closes exactly when the opening offer meets the floor. */
  lemma {:induction false} ClosesIffOpeningMeetsFloor(rnd: real -> real, floor: real, buyer: string, supplier: string,
                                                      opening: real, maxTurns: int)
    requires maxTurns >= 1 && Monotone(rnd) && rnd(floor) == floor && floor >= 0.0
    ensures Rest(rnd, floor, buyer, supplier, opening, 0, maxTurns).success <==> opening >= floor
  {
    hide Pow2;
    ClosesExactly(rnd, floor, buyer, supplier, opening, maxTurns);
    if maxTurns >= 2 {
      Pow2Step(maxTurns - 2);
      assert floor * Pow2(maxTurns - 2) >= 0.0;
    }
  }

  /** A thread that opens below a non-negative floor runs all its turns, stays below the floor
      and halves the gap every turn. */
  lemma {:induction false} FailureHalvesGap(rnd: real -> real, floor: real, buyer: string, supplier: string,
                                            offer: real, turn: nat, maxTurns: int)
    requires turn < maxTurns && rnd(floor) == floor && floor >= 0.0 && offer < floor
    ensures var offers := Rest(rnd, floor, buyer, supplier, offer, turn, maxTurns).offers;
            && |offers| == maxTurns - turn && offers[0] == offer
            && (forall k | 0 <= k < |offers| :: offers[k] < floor)
            && (forall k | 0 <= k < |offers| - 1 :: floor - offers[k + 1] == (floor - offers[k]) / 2.0)
    decreases maxTurns - turn
  {
    hide NextOffer, CounterPrice;
    BelowMeetsFloor(rnd, floor, offer);
    if turn < maxTurns - 1 {
      FailureHalvesGap(rnd, floor, buyer, supplier, NextOffer(rnd, floor, offer), turn + 1, maxTurns);
    }
  }

  // ---- rounding the floor away breaks the rule

  lemma {:induction false} FailsFromBelow(rnd: real -> real, floor: real, buyer: string, supplier: string,
                                          offer: real, turn: nat, maxTurns: int)
    requires turn < maxTurns && rnd(floor) <= floor && floor >= 0.0 && offer < floor
    ensures !Rest(rnd, floor, buyer, supplier, offer, turn, maxTurns).success
    decreases maxTurns - turn
  {
    hide NextOffer, CounterPrice;
    BelowMeetsFloor(rnd, floor, offer);
    if turn < maxTurns - 1 {
      FailsFromBelow(rnd, floor, buyer, supplier, NextOffer(rnd, floor, offer), turn + 1, maxTurns);
    }
  }

  /** When rounding moves the floor, some opening is treated wrongly: a floor rounded down turns away
      an opening at the floor, a floor rounded up lets in an opening below it. */
  lemma {:induction false} RoundedFloorMisjudges(rnd: real -> real, floor: real, buyer: string, supplier: string,
                                                 maxTurns: int)
    returns (opening: real)
    requires maxTurns >= 2 && Monotone(rnd) && rnd(floor) != floor && floor > 0.0
    ensures Rest(rnd, floor, buyer, supplier, opening, 0, maxTurns).success != (opening >= floor)
  {
    hide Monotone;
    if rnd(floor) < floor {
      opening := floor;
      assert CounterPrice(floor, floor) == floor;
      FailsFromBelow(rnd, floor, buyer, supplier, NextOffer(rnd, floor, floor), 1, maxTurns);
    } else {
      opening := floor - (rnd(floor) - floor) / 2.0;
      BelowMeetsFloor(rnd, floor, opening);
      ClosesFromAbove(rnd, floor, buyer, supplier, NextOffer(rnd, floor, opening), 1, maxTurns);
    }
  }

  ghost predicate JudgesEveryOpening(rnd: real -> real, floor: real, buyer: string, supplier: string, maxTurns: int)
    requires maxTurns >= 1
  {
    forall p: real :: Rest(rnd, floor, buyer, supplier, p, 0, maxTurns).success <==> p >= floor
  }

  /** With two turns or more, the rule "closes exactly when the opening meets the floor" holds of every
      opening exactly when the floor is a price that rounding leaves alone (a whole number of cents). */
  lemma {:induction false} RuleHoldsIffFloorUnrounded(rnd: real -> real, floor: real, buyer: string, supplier: string,
                                                      maxTurns: int)
    requires maxTurns >= 2 && Monotone(rnd) && floor > 0.0
    ensures JudgesEveryOpening(rnd, floor, buyer, supplier, maxTurns) <==> rnd(floor) == floor
  {
    hide Monotone;
    if rnd(floor) == floor {
      forall p: real
        ensures Rest(rnd, floor, buyer, supplier, p, 0, maxTurns).success <==> p >= floor
      {
        ClosesIffOpeningMeetsFloor(rnd, floor, buyer, supplier, p, maxTurns);
      }
    } else {
      var p := RoundedFloorMisjudges(rnd, floor, buyer, supplier, maxTurns);
    }
  }

  // ---- prices and length of a thread that closes

  /** Rounding never lifts a counter above the offer it answers. */
  ghost predicate NeverLifts(rnd: real -> real, floor: real) {
    forall offer: real | offer >= floor :: rnd(CounterPrice(floor, offer)) <= offer
  }

  function Identity(p: real): real { p }

  lemma ExactPricesNeverLift(floor: real)
    requires floor >= 0.0
    ensures Monotone(Identity) && Identity(floor) == floor && NeverLifts(Identity, floor)
  {
  }

  ghost predicate WithinHalfCent(rnd: real -> real) {
    forall p: real :: p - 0.005 <= rnd(p) <= p + 0.005
  }

  /** Rounding to the nearest cent qualifies too, for a whole-cent floor of 25 cents or more. */
  lemma CentsNeverLift(rnd: real -> real, floor: real)
    requires floor >= 0.25 && rnd(floor) == floor && WithinHalfCent(rnd)
    ensures NeverLifts(rnd, floor)
  {
    forall offer: real | offer >= floor
      ensures rnd(CounterPrice(floor, offer)) <= offer
    {
      var counter := CounterPrice(floor, offer);
      assert counter - 0.005 <= rnd(counter) <= counter + 0.005;
    }
  }

  /** A thread that opens at or above the floor closes with offers that never rise and never fall below
      the floor, at the rounded last offer; it takes one exchange if the opening is at least 1.1 floors
      and every turn otherwise. */
  lemma {:induction false} SuccessPricesAndLength(rnd: real -> real, floor: real, buyer: string, supplier: string,
                                                  offer: real, turn: nat, maxTurns: int)
    requires turn < maxTurns && Monotone(rnd) && rnd(floor) == floor && floor >= 0.0 && offer >= floor
    requires NeverLifts(rnd, floor)
    ensures var t := Rest(rnd, floor, buyer, supplier, offer, turn, maxTurns);
            && t.success
            && floor <= t.offers[|t.offers| - 1] <= offer
            && t.finalPrice.Some? && rnd(floor) <= t.finalPrice.value <= rnd(offer)
            && (forall k | 0 <= k < |t.offers| - 1 :: t.offers[k + 1] <= t.offers[k])
            && |t.offers| == (if offer >= 1.1 * floor then 1 else maxTurns - turn)
    decreases maxTurns - turn
  {
    hide CounterPrice;
    RestLength(rnd, floor, buyer, supplier, offer, turn, maxTurns);
    ClosesFromAbove(rnd, floor, buyer, supplier, offer, turn, maxTurns);
    if Respond(rnd, floor, offer, turn, maxTurns).Countered? {
      var next := NextOffer(rnd, floor, offer);
      AboveStaysAbove(rnd, floor, offer);
      assert rnd(CounterPrice(floor, offer)) <= offer;
      SuccessPricesAndLength(rnd, floor, buyer, supplier, next, turn + 1, maxTurns);
      RestLength(rnd, floor, buyer, supplier, next, turn + 1, maxTurns);
      assert rnd(next) <= rnd(offer);
    }
  }

  // ---- the opening

  /** The share of the original bid the buyer opens at; the estimate is the supplier memory's. */
  function OpeningDiscount(bid: real, estimate: Option<real>): real
    requires bid > 0.0
  {
    if estimate.Some? && estimate.value < bid * 0.92 then Max(estimate.value / bid, 0.80) else 0.92
  }

  function OpeningPrice(bid: real, estimate: Option<real>): real
    requires bid > 0.0
  {
    bid * OpeningDiscount(bid, estimate)
  }

  /** The buyer opens at the estimated floor itself where that lies from 80% to 92% of the bid, at 80% for a lower
      estimate, and at 92% for a higher one or none. */
  lemma {:induction false} OpeningFollowsEstimate(bid: real, estimate: real)
    requires bid > 0.0
    ensures estimate <= 0.80 * bid ==> OpeningPrice(bid, Some(estimate)) == 0.80 * bid
    ensures 0.80 * bid <= estimate <= 0.92 * bid ==> OpeningPrice(bid, Some(estimate)) == estimate
    ensures 0.92 * bid <= estimate ==> OpeningPrice(bid, Some(estimate)) == 0.92 * bid
    ensures OpeningPrice(bid, None) == 0.92 * bid
  {
    var q := estimate / bid;
    assert bid * q == estimate;
    if estimate < bid * 0.92 {
      ShareOfBid(bid, q);
      assert OpeningDiscount(bid, Some(estimate)) == Max(q, 0.80);
    }
  }

  lemma ShareOfBid(bid: real, q: real)
    requires bid > 0.0
    ensures bid * q <= 0.80 * bid ==> bid * Max(q, 0.80) == 0.80 * bid
    ensures bid * q >= 0.80 * bid ==> bid * Max(q, 0.80) == bid * q
  {
    if q < 0.80 {
      assert bid * q < bid * 0.80;
    } else if q > 0.80 {
      assert bid * q > bid * 0.80;
    }
  }

  /** So the thread of a remembered supplier closes, under any rounding that leaves the floor alone, exactly when the
      estimate meets the floor, if it lies from 80% to 92% of the bid; below that exactly when 80% of the bid does, and
      above it when 92% does. */
  lemma {:induction false} EstimateDecides(rnd: real -> real, floor: real, buyer: string, supplier: string, bid: real,
                                           estimate: real, maxTurns: int)
    requires bid > 0.0 && floor >= 0.0 && maxTurns >= 1 && Monotone(rnd) && rnd(floor) == floor
    ensures var t := Rest(rnd, floor, buyer, supplier, OpeningPrice(bid, Some(estimate)), 0, maxTurns);
            t.success <==> floor <= 0.80 * bid || floor <= estimate <= 0.92 * bid || floor <= 0.92 * bid < estimate
  {
    hide Rest, Monotone, OpeningPrice;
    OpeningFollowsEstimate(bid, estimate);
    ClosesIffOpeningMeetsFloor(rnd, floor, buyer, supplier, OpeningPrice(bid, Some(estimate)), maxTurns);
  }

  /** The buyer opens between 80% and 92% of the bid, so with exact prices a closed deal costs at most the opening,
      92% of what the supplier first asked or less, and never less than its floor. */
  lemma {:induction false} DealBeatsBid(floor: real, buyer: string, supplier: string, bid: real,
                                        estimate: Option<real>, maxTurns: int)
    requires bid > 0.0 && floor >= 0.0 && maxTurns >= 1
    ensures var opening := OpeningPrice(bid, estimate);
            var t := Rest(Identity, floor, buyer, supplier, opening, 0, maxTurns);
            && 0.80 * bid <= opening <= 0.92 * bid
            && (t.success ==> t.finalPrice.Some? && floor <= t.finalPrice.value <= opening)
  {
    hide NextOffer, CounterPrice, OpeningDiscount, OpeningPrice, Rest, Monotone, NeverLifts;
    ExactPricesNeverLift(floor);
    DiscountBounds(bid, estimate);
    var opening := OpeningPrice(bid, estimate);
    ClosesIffOpeningMeetsFloor(Identity, floor, buyer, supplier, opening, maxTurns);
    if opening >= floor {
      SuccessPricesAndLength(Identity, floor, buyer, supplier, opening, 0, maxTurns);
    }
  }

  lemma DiscountBounds(bid: real, estimate: Option<real>)
    requires bid > 0.0
    ensures 0.80 * bid <= OpeningPrice(bid, estimate) <= 0.92 * bid
  {
    if estimate.Some? && estimate.value < bid * 0.92 {
      var q := estimate.value / bid;
      assert bid * q == estimate.value;
    }
  }

  // ---- a supplier's own bid, bartered down

  /** The price of a supplier with capacity, before rounding: a markup on its floor, kept under the buyer's maximum if
      the floor allows. The bid it sends is this price rounded. */
  function BidPrice(floor: real, markup: real, maxUnit: real): real {
    Max(Min(floor * (1.0 + markup), maxUnit * 0.98), floor)
  }

  lemma PriceBounds(floor: real, markup: real, maxUnit: real)
    requires floor > 0.0 && 0.0 <= markup <= 0.15
    ensures floor <= BidPrice(floor, markup, maxUnit) <= 1.15 * floor
    ensures BidPrice(floor, markup, maxUnit) <= 0.98 * maxUnit <==> floor <= 0.98 * maxUnit
  {
    assert floor * markup <= floor * 0.15;
  }

  /** The bid sent is within half a cent of a price between the floor and 1.15 floors; it is never under a floor of
      whole cents, and keeps the buyer's room of 2%, if that is whole cents too, exactly when the floor does. */
  lemma {:induction false} BidBounds(rnd: real -> real, floor: real, markup: real, maxUnit: real)
    requires floor > 0.0 && 0.0 <= markup <= 0.15 && Monotone(rnd) && WithinHalfCent(rnd)
    ensures var bid := rnd(BidPrice(floor, markup, maxUnit));
            && floor - 0.005 <= bid <= 1.15 * floor + 0.005
            && (rnd(floor) == floor ==> bid >= floor)
            && (rnd(floor) == floor && rnd(0.98 * maxUnit) == 0.98 * maxUnit ==>
                  (bid <= 0.98 * maxUnit <==> floor <= 0.98 * maxUnit))
    ensures floor <= BidPrice(floor, markup, maxUnit) <= 1.15 * floor
    ensures BidPrice(floor, markup, maxUnit) <= 0.98 * maxUnit <==> floor <= 0.98 * maxUnit
  {
    PriceBounds(floor, markup, maxUnit);
    hide BidPrice;
    var price := BidPrice(floor, markup, maxUnit);
    assert price - 0.005 <= rnd(price) <= price + 0.005;
    assert rnd(floor) <= rnd(price);
    assert price <= 0.98 * maxUnit ==> rnd(price) <= rnd(0.98 * maxUnit);
  }

  // Under 1.1 floors, rounding cannot lift the next offer that far from a floor of 20 cents on.
  lemma StaysUnder(rnd: real -> real, floor: real, offer: real)
    requires WithinHalfCent(rnd) && floor >= 0.2 && offer < 1.1 * floor
    ensures NextOffer(rnd, floor, offer) < 1.1 * floor
  {
    var counter := CounterPrice(floor, offer);
    assert counter <= floor || counter <= floor + (offer - floor) * 0.75;
    assert counter - 0.005 <= rnd(counter) <= counter + 0.005;
  }

  lemma {:induction false} TakesEveryTurn(rnd: real -> real, floor: real, buyer: string, supplier: string, offer: real,
                                          turn: nat, maxTurns: int)
    requires turn < maxTurns && WithinHalfCent(rnd) && floor >= 0.2 && offer < 1.1 * floor
    ensures |Rest(rnd, floor, buyer, supplier, offer, turn, maxTurns).offers| == maxTurns - turn
    decreases maxTurns - turn
  {
    hide NextOffer, CounterPrice, WithinHalfCent;
    if turn < maxTurns - 1 {
      StaysUnder(rnd, floor, offer);
      TakesEveryTurn(rnd, floor, buyer, supplier, NextOffer(rnd, floor, offer), turn + 1, maxTurns);
    }
  }

  /** End to end, with every price rounded to within half a cent: markups stop at 15% and openings at 92% of the bid,
      so from a floor of 20 cents on no supplier that bids by its own rule ever accepts early. Every thread, whether
      it closes or not, takes every turn; and it closes, for a floor of whole cents, exactly when the opening meets
      it, which without a remembered estimate is when 92% of the bid still covers it. */
  lemma {:induction false} OwnBidsTakeEveryTurn(rnd: real -> real, floor: real, markup: real, maxUnit: real,
                                                estimate: Option<real>, buyer: string, supplier: string, maxTurns: int)
    requires Monotone(rnd) && WithinHalfCent(rnd) && floor >= 0.2 && 0.0 <= markup <= 0.15 && maxTurns >= 1
    ensures var bid := rnd(BidPrice(floor, markup, maxUnit));
            && bid > 0.0
            && var t := Rest(rnd, floor, buyer, supplier, OpeningPrice(bid, estimate), 0, maxTurns);
               && |t.offers| == maxTurns && |t.messages| == 2 * maxTurns - 1
               && (rnd(floor) == floor ==>
                     && (t.success <==> OpeningPrice(bid, estimate) >= floor)
                     && (estimate.None? ==> (t.success <==> 0.92 * bid >= floor)))
  {
    hide NextOffer, CounterPrice, OpeningDiscount, Rest, Monotone, WithinHalfCent, BidPrice;
    BidBounds(rnd, floor, markup, maxUnit);
    var bid := rnd(BidPrice(floor, markup, maxUnit));
    DiscountBounds(bid, estimate);
    var opening := OpeningPrice(bid, estimate);
    TakesEveryTurn(rnd, floor, buyer, supplier, opening, 0, maxTurns);
    RestLength(rnd, floor, buyer, supplier, opening, 0, maxTurns);
    if rnd(floor) == floor {
      ClosesIffOpeningMeetsFloor(rnd, floor, buyer, supplier, opening, maxTurns);
    }
    DefaultOpening(bid);
  }

  /** Under this rounding a supplier with this floor, bidding by its own rule, never accepts early. */
  ghost predicate Patient(rnd: real -> real, floor: real) {
    forall markup, maxUnit, estimate, buyer, supplier, maxTurns: int
      | 0.0 <= markup <= 0.15 && maxTurns >= 1 && rnd(BidPrice(floor, markup, maxUnit)) > 0.0 ::
      |OwnThread(rnd, floor, markup, maxUnit, estimate, buyer, supplier, maxTurns).offers| == maxTurns
  }

  function OwnThread(rnd: real -> real, floor: real, markup: real, maxUnit: real, estimate: Option<real>,
                     buyer: string, supplier: string, maxTurns: int): Thread
    requires maxTurns >= 1 && rnd(BidPrice(floor, markup, maxUnit)) > 0.0
  {
    Rest(rnd, floor, buyer, supplier, OpeningPrice(rnd(BidPrice(floor, markup, maxUnit)), estimate), 0, maxTurns)
  }

  ghost predicate PatientHoweverRounded(floor: real) {
    forall rnd: real -> real | Monotone(rnd) && WithinHalfCent(rnd) :: Patient(rnd, floor)
  }

  function HalfCentUp(): real -> real { (p: real) => p + 0.005 }

  /** What each turn adds to an offer when everything is rounded up by half a cent. */
  function Climb(floor: real): real { 0.0015 * (0.2 - floor) }

  lemma OffersClimb(floor: real, offer: real)
    requires 0.0 < floor < 0.2 && floor <= offer < 1.1 * floor
    ensures NextOffer(HalfCentUp(), floor, offer) >= offer + Climb(floor)
  {
    var counter := CounterPrice(floor, offer);
    assert counter == floor || counter == floor + (offer - floor) * 0.75 || counter == offer * 0.98;
    assert counter >= floor + (offer - floor) * 0.75 || counter >= offer * 0.98;
  }

  lemma {:induction false} ReachesEarly(floor: real, buyer: string, supplier: string, offer: real, turn: nat,
                                        maxTurns: int, left: nat)
    requires 0.0 < floor < 0.2 && offer >= floor && turn + left < maxTurns - 1
    requires offer + Climb(floor) * left as real >= 1.1 * floor
    ensures |Rest(HalfCentUp(), floor, buyer, supplier, offer, turn, maxTurns).offers| < maxTurns - turn
    decreases left
  {
    hide NextOffer, CounterPrice, Climb;
    if offer < 1.1 * floor {
      assert Climb(floor) * left as real == Climb(floor) * (left - 1) as real + Climb(floor);
      OffersClimb(floor, offer);
      ClimbPositive(floor);
      ReachesEarly(floor, buyer, supplier, NextOffer(HalfCentUp(), floor, offer), turn + 1, maxTurns, left - 1);
    }
  }

  lemma ClimbPositive(floor: real)
    requires floor < 0.2
    ensures Climb(floor) > 0.0
  {
  }

  lemma EnoughTurns(step: real, distance: real) returns (n: nat)
    requires step > 0.0 && distance >= 0.0
    ensures step * n as real >= distance
  {
    var q := distance / step;
    n := q.Floor + 1;
    assert n as real >= q;
    assert step * q == distance;
    assert step * n as real >= step * q;
  }

  /** Twenty cents is exactly where that starts: for every floor below, some rounding within half a cent makes a thread
      of enough turns accept early. */
  lemma {:induction false} PatientIff(floor: real)
    requires floor > 0.0
    ensures PatientHoweverRounded(floor) <==> floor >= 0.2
  {
    hide Rest, BidPrice, OpeningPrice, Monotone, WithinHalfCent;
    if floor >= 0.2 {
      forall rnd: real -> real | Monotone(rnd) && WithinHalfCent(rnd)
        ensures Patient(rnd, floor)
      {
        forall markup, maxUnit, estimate, buyer, supplier, maxTurns: int
          | 0.0 <= markup <= 0.15 && maxTurns >= 1 && rnd(BidPrice(floor, markup, maxUnit)) > 0.0
          ensures |OwnThread(rnd, floor, markup, maxUnit, estimate, buyer, supplier, maxTurns).offers| == maxTurns
        {
          OwnBidsTakeEveryTurn(rnd, floor, markup, maxUnit, estimate, buyer, supplier, maxTurns);
        }
      }
    } else {
      Impatient(floor);
    }
  }

  lemma {:induction false} Impatient(floor: real)
    requires 0.0 < floor < 0.2
    ensures !PatientHoweverRounded(floor)
  {
    hide Rest;
    HalfCentUpRounds();
    var up, maxUnit := HalfCentUp(), 2.0;
    assert BidPrice(floor, 0.15, maxUnit) == 1.15 * floor;
    var bid := up(BidPrice(floor, 0.15, maxUnit));
    DefaultOpening(bid);
    ClimbPositive(floor);
    var n := EnoughTurns(Climb(floor), 0.1 * floor);
    ReachesEarly(floor, "", "", 0.92 * bid, 0, n + 2, n);
    assert |OwnThread(up, floor, 0.15, maxUnit, None, "", "", n + 2).offers| != n + 2;
    assert !Patient(up, floor);
  }

  lemma HalfCentUpRounds()
    ensures Monotone(HalfCentUp()) && WithinHalfCent(HalfCentUp())
  {
  }

  /** With rounding to cents too: a floor of 0.6 cents is bid as one cent, and the opening at 92% of that is accepted
      at once. */
  lemma {:induction false} TinyFloorAcceptsEarly(rnd: real -> real, buyer: string, supplier: string, maxTurns: int)
    requires rnd(0.006) == 0.01 && maxTurns >= 2
    ensures var bid := rnd(BidPrice(0.006, 0.0, 1.0));
            && bid == 0.01
            && var t := Rest(rnd, 0.006, buyer, supplier, OpeningPrice(bid, None), 0, maxTurns);
               t.success && |t.offers| == 1
  {
    assert BidPrice(0.006, 0.0, 1.0) == 0.006;
    DefaultOpening(0.01);
  }

  /** With exact prices there is no such floor. */
  lemma {:induction false} ExactBidsTakeEveryTurn(floor: real, markup: real, maxUnit: real, estimate: Option<real>,
                                                  buyer: string, supplier: string, maxTurns: int)
    requires floor > 0.0 && 0.0 <= markup <= 0.15 && maxTurns >= 1
    ensures var bid := BidPrice(floor, markup, maxUnit);
            && bid > 0.0
            && var t := Rest(Identity, floor, buyer, supplier, OpeningPrice(bid, estimate), 0, maxTurns);
               && |t.offers| == maxTurns && |t.messages| == 2 * maxTurns - 1
               && (t.success <==> OpeningPrice(bid, estimate) >= floor)
               && (estimate.None? ==> (t.success <==> 0.92 * bid >= floor))
  {
    hide NextOffer, CounterPrice, OpeningDiscount, Rest, Monotone, NeverLifts, BidPrice;
    PriceBounds(floor, markup, maxUnit);
    var bid := BidPrice(floor, markup, maxUnit);
    DiscountBounds(bid, estimate);
    var opening := OpeningPrice(bid, estimate);
    ExactPricesNeverLift(floor);
    RestLength(Identity, floor, buyer, supplier, opening, 0, maxTurns);
    ClosesIffOpeningMeetsFloor(Identity, floor, buyer, supplier, opening, maxTurns);
    if opening >= floor {
      SuccessPricesAndLength(Identity, floor, buyer, supplier, opening, 0, maxTurns);
    } else {
      FailureHalvesGap(Identity, floor, buyer, supplier, opening, 0, maxTurns);
    }
    DefaultOpening(bid);
  }

  lemma DefaultOpening(bid: real)
    requires bid > 0.0
    ensures OpeningPrice(bid, None) == 0.92 * bid
  {
  }

  function UnitCost(cost: CostModel): real { cost.baseCost + cost.logisticsPremium }

  function Margin(cost: CostModel): real { cost.minMargin * UnitCost(cost) }

  lemma FloorIsCostAndMargin(cost: CostModel)
    requires UnitCost(cost) >= 0.0 && cost.minMargin >= 0.0
    ensures FloorPrice(cost) == UnitCost(cost) + Margin(cost) && Margin(cost) >= 0.0
  {
  }

  /** With exact prices no closed thread sells under cost: the price keeps at least the supplier's minimum margin over
      its unit and logistics cost. */
  lemma {:induction false} DealKeepsMargin(cost: CostModel, buyer: string, supplier: string, opening: real,
                                           maxTurns: int)
    requires UnitCost(cost) >= 0.0 && cost.minMargin >= 0.0 && maxTurns >= 1
    ensures var t := Rest(Identity, FloorPrice(cost), buyer, supplier, opening, 0, maxTurns);
            t.success ==> t.finalPrice.Some? && t.finalPrice.value - UnitCost(cost) >= Margin(cost)
  {
    hide NextOffer, CounterPrice, Rest, Monotone, NeverLifts, FloorPrice, UnitCost, Margin;
    var floor := FloorPrice(cost);
    FloorIsCostAndMargin(cost);
    ExactPricesNeverLift(floor);
    ClosesIffOpeningMeetsFloor(Identity, floor, buyer, supplier, opening, maxTurns);
    if opening >= floor {
      SuccessPricesAndLength(Identity, floor, buyer, supplier, opening, 0, maxTurns);
    }
  }
}
