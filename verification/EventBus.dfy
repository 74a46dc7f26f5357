/** The event bus (swarm/core/event.py) with the swarm's own recorder subscribed to every event
    (swarm/core/__init__.py). What other subscribers do on delivery is not part of this file; a failing one never
    blocks the recorder. */
module EventBus {
  import opened Basics
  import opened StableSort

  datatype Event = Event(id: string, kind: string, corr: string, replayed: bool)

  function OfKind(kind: Option<string>): Event -> bool { (e: Event) => kind.None? || e.kind == kind.value }
  function Original(): Event -> bool { (e: Event) => !e.replayed }

  function Marked(e: Event, deliver: bool): Event { if deliver then e else e.(replayed := true) }

  // What delivering these events adds to the recorded history.
  function Recorded(events: seq<Event>, deliver: bool): seq<Event> {
    if events == [] then []
    else
      var e := Marked(events[|events| - 1], deliver);
      Recorded(events[..|events| - 1], deliver) + if e.replayed then [] else [e]
  }

  class Bus {
    var log: seq<Event>
    var history: seq<Event>

    constructor ()
      ensures log == [] && history == []
    {
      log, history := [], [];
    }

    // The recorder keeps what is not a replay.
    method Deliver(e: Event)
      modifies this`history
      ensures history == old(history) + if e.replayed then [] else [e]
    {
      if e.replayed { return; }
      history := history + [e];
    }

    method Publish(e: Event)
      modifies this
      ensures log == old(log) + [e]
      ensures history == old(history) + if e.replayed then [] else [e]
    {
      log := log + [e];
      Deliver(e);
    }

    method Replay(kind: Option<string>, deliver: bool)
      modifies this`history
      ensures history == old(history) + Recorded(Filter(OfKind(kind), log), deliver)
    {
      hide Filter;
      NothingKept(OfKind(kind));
      for k := 0 to |log|
        invariant history == old(history) + Recorded(Filter(OfKind(kind), log[..k]), deliver)
      {
        var e := log[k];
        assert log[..k + 1] == log[..k] + [e];
        RecordedMore(kind, log[..k], e, deliver);
        if kind.None? || e.kind == kind.value {
          if deliver { Deliver(e); } else { Deliver(e.(replayed := true)); }
        }
      }
      assert log[..|log|] == log;
    }
  }

  lemma NothingKept(p: Event -> bool)
    ensures Filter(p, []) == []
  {
  }

  lemma RecordedMore(kind: Option<string>, log: seq<Event>, e: Event, deliver: bool)
    ensures Recorded(Filter(OfKind(kind), log + [e]), deliver)
         == Recorded(Filter(OfKind(kind), log), deliver)
            + if OfKind(kind)(e) && !Marked(e, deliver).replayed then [Marked(e, deliver)] else []
  {
    FilterAppend(OfKind(kind), log, [e]);
    assert [e][1..] == [];
    var front := Filter(OfKind(kind), log);
    assert (front + [e])[..|front|] == front && front + [] == front;
  }

  datatype Op = Publishing(e: Event) | Replaying(kind: Option<string>, deliver: bool)

  /** The log and the recorded history after some operations. */
  function After(ops: seq<Op>): (seq<Event>, seq<Event>) {
    if ops == [] then ([], [])
    else
      var s := After(ops[..|ops| - 1]);
      match ops[|ops| - 1]
      case Publishing(e) => (s.0 + [e], s.1 + if e.replayed then [] else [e])
      case Replaying(kind, deliver) => (s.0, s.1 + Recorded(Filter(OfKind(kind), s.0), deliver))
  }

  /** Publishing extends the log and, unless the event is a replay, the history; replaying leaves the log alone, and the
      history too unless it delivers the originals. */
  lemma {:induction false} AfterGoesOn(ops: seq<Op>, e: Event, kind: Option<string>)
    ensures After([]) == ([], [])
    ensures After(ops + [Publishing(e)]) == (After(ops).0 + [e], After(ops).1 + if e.replayed then [] else [e])
    ensures After(ops + [Replaying(kind, false)]) == After(ops)
  {
    hide Recorded, Filter;
    assert (ops + [Publishing(e)])[..|ops|] == ops && (ops + [Replaying(kind, false)])[..|ops|] == ops;
    ReadOnlyRecordsNothing(Filter(OfKind(kind), After(ops).0));
    assert After(ops).1 + [] == After(ops).1;
  }

  lemma {:induction false} ReadOnlyRecordsNothing(events: seq<Event>)
    ensures Recorded(events, false) == []
  {
    if events != [] {
      ReadOnlyRecordsNothing(events[..|events| - 1]);
    }
  }

  lemma {:induction false} DeliveredIsOriginals(events: seq<Event>)
    ensures Recorded(events, true) == Filter(Original(), events)
  {
    if events != [] {
      var n := |events| - 1;
      DeliveredIsOriginals(events[..n]);
      FilterAppend(Original(), events[..n], [events[n]]);
      assert events == events[..n] + [events[n]];
      assert [events[n]][1..] == [];
    }
  }

  /** However often the log is replayed read-only, the recorded history is the log itself, in order, less any event that
      was published as a replay. */
  lemma {:induction false} HistoryIsLog(ops: seq<Op>)
    requires forall k | 0 <= k < |ops| && ops[k].Replaying? :: !ops[k].deliver
    ensures After(ops).1 == Filter(Original(), After(ops).0)
  {
    hide Recorded;
    if ops != [] {
      var n := |ops| - 1;
      HistoryIsLog(ops[..n]);
      var s := After(ops[..n]);
      match ops[n]
      case Publishing(e) =>
        FilterAppend(Original(), s.0, [e]);
        assert [e][1..] == [];
      case Replaying(kind, deliver) => ReadOnlyRecordsNothing(Filter(OfKind(kind), s.0));
    }
  }

  /** Replaying everything in deliver mode records the whole of it a second time. */
  lemma {:induction false} DeliverRepeatsHistory(ops: seq<Op>)
    requires forall k | 0 <= k < |ops| && ops[k].Replaying? :: !ops[k].deliver
    ensures After(ops + [Replaying(None, true)]).1 == After(ops).1 + After(ops).1
    ensures After(ops + [Replaying(None, true)]).0 == After(ops).0
  {
    hide Recorded;
    HistoryIsLog(ops);
    var log := After(ops).0;
    assert (ops + [Replaying(None, true)])[..|ops|] == ops;
    EverythingKept(log);
    DeliveredIsOriginals(log);
  }

  /** Replaying one kind in deliver mode records again what history holds of that kind, and only that. */
  lemma {:induction false} DeliverRepeatsKind(ops: seq<Op>, kind: string)
    requires forall k | 0 <= k < |ops| && ops[k].Replaying? :: !ops[k].deliver
    ensures After(ops + [Replaying(Some(kind), true)]).1 == After(ops).1 + Filter(HasKind(kind), After(ops).1)
    ensures After(ops + [Replaying(Some(kind), true)]).0 == After(ops).0
  {
    hide Recorded, Filter;
    HistoryIsLog(ops);
    var log := After(ops).0;
    assert (ops + [Replaying(Some(kind), true)])[..|ops|] == ops;
    DeliveredIsOriginals(Filter(OfKind(Some(kind)), log));
    EitherOrder(log, kind);
  }

  function HasKind(kind: string): Event -> bool { (e: Event) => e.kind == kind }

  lemma {:induction false} EitherOrder(log: seq<Event>, kind: string)
    ensures Filter(Original(), Filter(OfKind(Some(kind)), log)) == Filter(HasKind(kind), Filter(Original(), log))
  {
    if log != [] {
      EitherOrder(log[1..], kind);
      var e, rest := log[0], log[1..];
      var mine, originals := Filter(OfKind(Some(kind)), rest), Filter(Original(), rest);
      assert ([e] + mine)[1..] == mine && ([e] + originals)[1..] == originals;
      assert Filter(OfKind(Some(kind)), log) == (if e.kind == kind then [e] + mine else mine);
      assert Filter(Original(), log) == (if e.replayed then originals else [e] + originals);
      assert Filter(Original(), [e] + mine)
          == (if e.replayed then Filter(Original(), mine) else [e] + Filter(Original(), mine));
      assert Filter(HasKind(kind), [e] + originals)
          == (if e.kind == kind then [e] + Filter(HasKind(kind), originals) else Filter(HasKind(kind), originals));
    }
  }

  lemma {:induction false} EverythingKept(log: seq<Event>)
    ensures Filter(OfKind(None), log) == log
  {
    if log != [] {
      EverythingKept(log[1..]);
    }
  }
}
