/** The mesh blackboard (mesh/blackboard.py) and its channel permissions (mesh/channels.py). Trace ids are given by
    the caller and only assumed fresh; timestamps are not modelled. */
module Blackboard {
  import opened Basics
  import opened StableSort

  datatype Channel = Requirement | Discovery | Score | Risk | Deal | Decision

  // ---- what the actors write

  datatype DealData = DealData(price: real, quantity: real)
  datatype ScoreData = ScoreData(leadTime: real, esg: real, reliability: real)
  datatype RiskData = RiskData(level: string, overall: real, amount: real)

  /** A supplier as the buyer ranks it, with the ids of the traces its data came from. */
  datatype Candidate = Candidate(supplier: string, composite: real, deal: DealData, risk: Option<RiskData>,
                                 score: ScoreData, dealId: string, riskId: string, scoreId: string)

  datatype Payload =
    | NewRequirement
    | SupplierList(suppliers: seq<string>)
    | SupplierDiscovered(supplier: string, pool: string)
    | Evaluation(supplier: string, score: ScoreData)
    | RiskAssessment(supplier: string, risk: RiskData)
    | Quote(supplier: string, deal: DealData)
    | Award(selected: string, composite: real, ranked: seq<Candidate>)
    | NoAward(action: string)
    | Failure

  /** An empty correlation id stands for none. */
  datatype Trace = Trace(id: string, archetype: string, payload: Payload, parents: seq<string>, corr: string)

  /** A write in the order writes happened, over all channels. */
  datatype Entry = Entry(channel: Channel, trace: Trace)

  // ---- permissions

  function Writers(ch: Channel): set<string> {
    match ch
    case Requirement => {"kernel"}
    case Discovery => {"scout"}
    case Score => {"evaluator"}
    case Risk => {"evaluator"}
    case Deal => {"negotiator"}
    case Decision => {"buyer"}
  }

  function Readers(ch: Channel): set<string> {
    match ch
    case Requirement => {"scout", "evaluator", "negotiator", "buyer", "kernel"}
    case Discovery => {"evaluator", "negotiator", "kernel"}
    case Score => {"negotiator", "buyer", "kernel"}
    case Risk => {"buyer", "kernel"}
    case Deal => {"buyer", "kernel"}
    case Decision => {"kernel"}
  }

  // ---- channels as views of the one log

  function On(ch: Channel): Entry -> bool { (e: Entry) => e.channel == ch }

  function NotOn(ch: Channel): Entry -> bool { (e: Entry) => e.channel != ch }

  function Traces(es: seq<Entry>): (ts: seq<Trace>)
    ensures |ts| == |es|
    ensures forall k | 0 <= k < |es| :: ts[k] == es[k].trace
  {
    seq(|es|, k requires 0 <= k < |es| => es[k].trace)
  }

  function Content(log: seq<Entry>, ch: Channel): seq<Trace> { Traces(Filter(On(ch), log)) }

  lemma {:induction false} ContentAppend(log: seq<Entry>, more: seq<Entry>, ch: Channel)
    ensures Content(log + more, ch) == Content(log, ch) + Content(more, ch)
  {
    hide Content;
    if log == [] {
      assert log + more == more;
      EmptyContent(ch);
    } else {
      ContentAppend(log[1..], more, ch);
      assert (log + more)[1..] == log[1..] + more;
      ContentHead(log, ch);
      ContentHead(log + more, ch);
    }
  }

  lemma EmptyContent(ch: Channel)
    ensures Content([], ch) == []
  {
  }

  lemma ContentHead(log: seq<Entry>, ch: Channel)
    requires log != []
    ensures Content(log, ch) == (if log[0].channel == ch then [log[0].trace] else []) + Content(log[1..], ch)
  {
  }

  lemma ContentOne(log: seq<Entry>, e: Entry, ch: Channel)
    ensures Content(log + [e], ch) == Content(log, ch) + if e.channel == ch then [e.trace] else []
  {
    ContentAppend(log, [e], ch);
    ContentHead([e], ch);
    assert [e][1..] == [];
  }

  /** A trace is in a channel exactly when it was logged there. */
  lemma {:induction false} ContentMember(log: seq<Entry>, ch: Channel, t: Trace)
    ensures t in Content(log, ch) <==> Entry(ch, t) in log
  {
    FilterMember(On(ch), log, Entry(ch, t));
    var es := Filter(On(ch), log);
    if t in Content(log, ch) {
      var k :| 0 <= k < |es| && es[k].trace == t;
      FilterMember(On(ch), log, es[k]);
    }
    if Entry(ch, t) in es {
      var k :| 0 <= k < |es| && es[k] == Entry(ch, t);
      assert Content(log, ch)[k] == t;
    }
  }

  // ---- reading

  function Reversed(ts: seq<Trace>): (r: seq<Trace>)
    ensures |r| == |ts|
    ensures forall k | 0 <= k < |ts| :: r[k] == ts[|ts| - 1 - k]
  {
    seq(|ts|, k requires 0 <= k < |ts| => ts[|ts| - 1 - k])
  }

  // Python's ts[-limit:], then reversed.
  function Recent(ts: seq<Trace>, limit: int): seq<Trace> {
    Reversed(if limit > 0 then ts[if limit < |ts| then |ts| - limit else 0..]
             else if -limit <= |ts| then ts[-limit..] else [])
  }

  /** A positive limit bounds the answer to the newest traces; a limit of zero returns all of them. */
  lemma RecentShape(ts: seq<Trace>, limit: int)
    ensures limit >= 1 ==> |Recent(ts, limit)| == if limit < |ts| then limit else |ts|
    ensures limit == 0 ==> |Recent(ts, limit)| == |ts|
    ensures limit >= 0 ==> forall k | 0 <= k < |Recent(ts, limit)| :: Recent(ts, limit)[k] == ts[|ts| - 1 - k]
    ensures forall t | t in Recent(ts, limit) :: t in ts
  {
  }

  class DistributedBlackboard {
    var channels: map<Channel, seq<Trace>>
    var writeCount: nat
    var readCount: nat
    ghost var log: seq<Entry>

    ghost predicate Valid()
      reads this
    {
      forall ch: Channel :: ch in channels && channels[ch] == Content(log, ch)
    }

    constructor ()
      ensures Valid() && log == [] && writeCount == 0 && readCount == 0
    {
      channels := map[Requirement := [], Discovery := [], Score := [], Risk := [], Deal := [], Decision := []];
      writeCount, readCount := 0, 0;
      log := [];
      new;
      forall ch: Channel
        ensures ch in channels && channels[ch] == Content(log, ch)
      {
        EmptyContent(ch);
        match ch
        case Requirement | Discovery | Score =>
        case Risk | Deal | Decision =>
      }
    }

    /** Refused for lack of permission, or appended to its channel. */
    method Write(archetype: string, ch: Channel, payload: Payload, corr: string, parents: seq<string>, id: string)
      returns (ok: bool)
      requires Valid()
      modifies this
      ensures Valid() && readCount == old(readCount)
      ensures ok <==> archetype in Writers(ch)
      ensures log == old(log) + if ok then [Entry(ch, Trace(id, archetype, payload, parents, corr))] else []
      ensures writeCount == old(writeCount) + if ok then 1 else 0
    {
      hide Content, Writers;
      if archetype !in Writers(ch) { return false; }
      var trace := Trace(id, archetype, payload, parents, corr);
      forall c: Channel {
        ContentOne(log, Entry(ch, trace), c);
      }
      channels := channels[ch := channels[ch] + [trace]];
      log := log + [Entry(ch, trace)];
      writeCount := writeCount + 1;
      ok := true;
    }

    method Read(archetype: string, ch: Channel, limit: int) returns (result: Option<seq<Trace>>)
      requires Valid()
      modifies this`readCount
      ensures result == if archetype in Readers(ch) then Some(Recent(Content(log, ch), limit)) else None
      ensures readCount == old(readCount) + if result.Some? then 1 else 0
    {
      hide Content, Readers;
      if archetype !in Readers(ch) { return None; }
      var traces := channels[ch];
      var recent := if limit > 0 then traces[if limit < |traces| then |traces| - limit else 0..]
                    else if -limit <= |traces| then traces[-limit..] else [];
      var reversed: seq<Trace> := [];
      for k := 0 to |recent|
        invariant |reversed| == k
        invariant forall j | 0 <= j < k :: reversed[j] == recent[|recent| - 1 - j]
      {
        reversed := reversed + [recent[|recent| - 1 - k]];
      }
      readCount := readCount + 1;
      assert reversed == Reversed(recent);
      result := Some(reversed);
    }

    /** Refused as a whole if any channel is refused. */
    method ReadMulti(archetype: string, chs: seq<Channel>, limit: int)
      returns (result: Option<map<Channel, seq<Trace>>>)
      requires Valid()
      modifies this`readCount
      ensures result.Some? <==> forall ch | ch in chs :: archetype in Readers(ch)
      ensures result.Some? ==> result.value == map ch | ch in chs :: Recent(Content(log, ch), limit)
    {
      hide Recent, Content;
      var m: map<Channel, seq<Trace>> := map[];
      for k := 0 to |chs|
        invariant forall ch | ch in chs[..k] :: archetype in Readers(ch)
        invariant m == map ch | ch in chs[..k] :: Recent(Content(log, ch), limit)
      {
        var r := Read(archetype, chs[k], limit);
        if r.None? { return None; }
        m := m[chs[k] := r.value];
      }
      assert chs[..|chs|] == chs;
      result := Some(m);
    }

    /** Empties one channel and leaves the write counter standing. */
    method ClearChannel(ch: Channel) returns (count: nat)
      requires Valid()
      modifies this`channels, this`log
      ensures Valid() && count == |Content(old(log), ch)|
      ensures forall c: Channel :: Content(log, c) == if c == ch then [] else Content(old(log), c)
    {
      hide Content;
      count := |channels[ch]|;
      channels := channels[ch := []];
      log := Filter(NotOn(ch), log);
      forall c: Channel
        ensures Content(log, c) == if c == ch then [] else Content(old(log), c)
      {
        ContentWithout(old(log), ch, c);
      }
    }
  }

  lemma {:induction false} ContentWithout(log: seq<Entry>, ch: Channel, c: Channel)
    ensures Content(Filter(NotOn(ch), log), c) == if c == ch then [] else Content(log, c)
  {
    hide Content;
    if log == [] {
      EmptyContent(c);
    } else {
      ContentWithout(log[1..], ch, c);
      var kept := if log[0].channel != ch then [log[0]] else [];
      var rest := Filter(NotOn(ch), log[1..]);
      assert Filter(NotOn(ch), log) == kept + rest;
      ContentHead(log, c);
      if log[0].channel != ch {
        ContentHead([log[0]] + rest, c);
        assert ([log[0]] + rest)[1..] == rest;
      } else {
        assert kept + rest == rest;
      }
    }
  }
}
