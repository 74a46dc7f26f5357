/** The completion tracker (swarm/core/completion.py) under concurrent handlers. A handler runs synchronously between
    two awaits; it awaits where it publishes, and everything else may happen there: artifacts stored, expectations
    declared or changed, groups completed by hand, further events delivered, other handlers advanced. */
module Completion {
  import opened SwarmStates

  type Key = (string, string)

  /** A published completion event: the group, the size expected and the artifacts counted. */
  datatype Announcement = Announcement(corr: string, kind: string, expected: int, names: seq<string>)

  /** A handler in the middle of its pass: the requests still to visit, and the groups left of the current one. Wanted
      holds the groups due when the pass began and ever since; the source keeps no such record. */
  datatype Handler = Handler(corrs: seq<string>, corr: string, kinds: seq<string>, wanted: set<Key>)

  datatype State<D> = State(artifacts: seq<Artifact<D>>, expectations: Expectations, completions: Completions,
                            published: set<Key>, announced: seq<Announcement>, handlers: seq<Handler>)

  function Names<D>(artifacts: seq<Artifact<D>>): (names: seq<string>)
    ensures |names| == |artifacts|
  {
    seq(|artifacts|, k requires 0 <= k < |artifacts| => artifacts[k].name)
  }

  /** As many artifacts as expected exist. */
  predicate Due<D>(artifacts: seq<Artifact<D>>, e: Expectations, corr: string, kind: string) {
    Expected(e, corr, kind).Some? && |Group(artifacts, kind, corr)| >= Expected(e, corr, kind).value
  }

  function DueKeys<D>(artifacts: seq<Artifact<D>>, e: Expectations): set<Key> {
    set corr, kind | corr in e && kind in e[corr] && Due(artifacts, e, corr, kind) :: (corr, kind)
  }

  // Declaring again may leave a group with more to come.
  function StillDue<D>(artifacts: seq<Artifact<D>>, e: Expectations, hs: seq<Handler>): (r: seq<Handler>)
    ensures |r| == |hs|
  {
    seq(|hs|, h requires 0 <= h < |hs| =>
      hs[h].(wanted := set x | x in hs[h].wanted && Due(artifacts, e, x.0, x.1)))
  }

  predicate Closes<D>(s: State<D>, corr: string, kind: string) {
    (corr, kind) !in s.published && Due(s.artifacts, s.expectations, corr, kind)
  }

  // Closing is one synchronous stretch; the event is published before the next await.
  function Check<D>(s: State<D>, events: set<string>, corr: string, kind: string): State<D> {
    if !Closes(s, corr, kind) then s
    else
      var group := Group(s.artifacts, kind, corr);
      s.(completions := Closed(s.completions, corr, kind), published := s.published + {(corr, kind)},
         announced := s.announced + if kind in events
                                    then [Announcement(corr, kind, Expected(s.expectations, corr, kind).value,
                                                       Names(group))]
                                    else [])
  }

  datatype Move<D> =
    | Put(a: Artifact<D>)
    | Expect(corr: string, kind: string, count: int)
    | CompleteByHand(corr: string, kind: string)
    | Deliver(replayed: bool, corrs: seq<string>)
    | Visit(h: nat, kinds: seq<string>)
    | CheckNext(h: nat)

  ghost predicate Lists(order: seq<string>, keys: set<string>) { forall k :: k in order <==> k in keys }

  ghost predicate Enabled<D>(s: State<D>, m: Move<D>) {
    match m
    case Put(_) => true
    case Expect(corr, _, _) => corr != ""
    case CompleteByHand(corr, _) => corr != ""
    case Deliver(_, corrs) => Lists(corrs, s.expectations.Keys)
    case Visit(h, kinds) =>
      && h < |s.handlers| && s.handlers[h].kinds == [] && s.handlers[h].corrs != []
      && var corr := s.handlers[h].corrs[0]; corr in s.expectations && Lists(kinds, s.expectations[corr].Keys)
    case CheckNext(h) => h < |s.handlers| && s.handlers[h].kinds != []
  }

  function Next<D>(s: State<D>, events: set<string>, m: Move<D>): State<D>
    requires Enabled(s, m)
  {
    match m
    case Put(a) => s.(artifacts := s.artifacts + [a])
    case Expect(corr, kind, count) =>
      var e := Declared(s.expectations, corr, kind, count);
      s.(expectations := e, handlers := StillDue(s.artifacts, e, s.handlers))
    case CompleteByHand(corr, kind) => s.(completions := Closed(s.completions, corr, kind))
    case Deliver(replayed, corrs) =>
      if replayed then s
      else s.(handlers := s.handlers + [Handler(corrs, "", [], DueKeys(s.artifacts, s.expectations))])
    case Visit(h, kinds) =>
      var x := s.handlers[h];
      s.(handlers := s.handlers[h := x.(corrs := x.corrs[1..], corr := x.corrs[0], kinds := kinds)])
    case CheckNext(h) =>
      var x := s.handlers[h];
      Check(s, events, x.corr, x.kinds[0]).(handlers := s.handlers[h := x.(kinds := x.kinds[1..])])
  }

  ghost predicate Legal<D>(s: State<D>, events: set<string>, ms: seq<Move<D>>)
    decreases |ms|, 0
  {
    ms == [] || (Legal(s, events, ms[..|ms| - 1]) && Enabled(Run(s, events, ms[..|ms| - 1]), ms[|ms| - 1]))
  }

  ghost function Run<D>(s: State<D>, events: set<string>, ms: seq<Move<D>>): State<D>
    requires Legal(s, events, ms)
    decreases |ms|, 1
  {
    if ms == [] then s else Next(Run(s, events, ms[..|ms| - 1]), events, ms[|ms| - 1])
  }

  function Start<D>(): State<D> { State([], map[], map[], {}, [], []) }

  // ---- what every reachable state satisfies

  predicate NoDuplicates(s: seq<string>) { forall i, j | 0 <= i < j < |s| :: s[i] != s[j] }

  predicate CompletionsOnce(c: Completions) { forall corr | corr in c :: NoDuplicates(c[corr]) }

  predicate AnnouncedOnce(announced: seq<Announcement>, published: set<Key>) {
    && (forall k | 0 <= k < |announced| :: (announced[k].corr, announced[k].kind) in published)
    && forall i, j | 0 <= i < j < |announced| ::
         !(announced[i].corr == announced[j].corr && announced[i].kind == announced[j].kind)
  }

  /** The announcement counted enough artifacts, and those it counted are still the first of the group. */
  predicate Honest<D>(artifacts: seq<Artifact<D>>, x: Announcement) {
    |x.names| >= x.expected && x.names <= Names(Group(artifacts, x.kind, x.corr))
  }

  ghost predicate PublishedClosed(published: set<Key>, c: Completions) {
    forall corr, kind | (corr, kind) in published :: kind in ClosedGroups(c, corr)
  }

  predicate Pending(x: Handler, corr: string, kind: string) {
    corr in x.corrs || (corr == x.corr && kind in x.kinds)
  }

  /** Whatever has been due since the pass began is closed, or still to be checked. */
  ghost predicate PassOk<D>(s: State<D>, x: Handler) {
    && (forall k | 0 <= k < |x.corrs| :: x.corrs[k] in s.expectations)
    && forall corr, kind | (corr, kind) in x.wanted ::
         Due(s.artifacts, s.expectations, corr, kind) && ((corr, kind) in s.published || Pending(x, corr, kind))
  }

  ghost predicate Good<D>(s: State<D>) {
    && CompletionsOnce(s.completions)
    && AnnouncedOnce(s.announced, s.published)
    && PublishedClosed(s.published, s.completions)
    && (forall k | 0 <= k < |s.announced| :: Honest(s.artifacts, s.announced[k]))
    && (forall h | 0 <= h < |s.handlers| :: PassOk(s, s.handlers[h]))
  }

  lemma HonestLater<D>(artifacts: seq<Artifact<D>>, a: Artifact<D>, x: Announcement)
    requires Honest(artifacts, x)
    ensures Honest(artifacts + [a], x)
  {
    GroupAppend(artifacts, [a], x.kind, x.corr);
    hide Group;
  }

  lemma DueLater<D>(artifacts: seq<Artifact<D>>, a: Artifact<D>, e: Expectations, corr: string, kind: string)
    ensures Due(artifacts, e, corr, kind) ==> Due(artifacts + [a], e, corr, kind)
  {
    GroupAppend(artifacts, [a], kind, corr);
    hide Group;
  }

  lemma PutKeeps<D>(s: State<D>, events: set<string>, a: Artifact<D>)
    requires Good(s)
    ensures Good(Next(s, events, Put(a)))
  {
    hide Group, CompletionsOnce, AnnouncedOnce, PublishedClosed, Honest, Due;
    var t := Next(s, events, Put(a));
    forall k | 0 <= k < |s.announced|
      ensures Honest(t.artifacts, t.announced[k])
    {
      HonestLater(s.artifacts, a, s.announced[k]);
    }
    forall h | 0 <= h < |s.handlers|
      ensures PassOk(t, t.handlers[h])
    {
      var x := s.handlers[h];
      assert PassOk(s, x);
      forall corr, kind | (corr, kind) in x.wanted
        ensures Due(t.artifacts, t.expectations, corr, kind)
      {
        DueLater(s.artifacts, a, s.expectations, corr, kind);
      }
    }
  }

  lemma ExpectKeeps<D>(s: State<D>, events: set<string>, corr: string, kind: string, count: int)
    requires Good(s) && corr != ""
    ensures Good(Next(s, events, Expect(corr, kind, count)))
  {
    hide Group, CompletionsOnce, AnnouncedOnce, PublishedClosed, Honest, Due;
    var t := Next(s, events, Expect(corr, kind, count));
    forall h | 0 <= h < |s.handlers|
      ensures PassOk(t, t.handlers[h])
    {
      assert PassOk(s, s.handlers[h]);
    }
  }

  lemma ClosedKeeps(c: Completions, corr: string, kind: string)
    requires CompletionsOnce(c)
    ensures CompletionsOnce(Closed(c, corr, kind))
    ensures kind in ClosedGroups(Closed(c, corr, kind), corr)
    ensures forall other, k | k in ClosedGroups(c, other) :: k in ClosedGroups(Closed(c, corr, kind), other)
  {
  }

  lemma HandKeeps<D>(s: State<D>, events: set<string>, corr: string, kind: string)
    requires Good(s) && corr != ""
    ensures Good(Next(s, events, CompleteByHand(corr, kind)))
  {
    hide Group, CompletionsOnce, AnnouncedOnce, Honest, Due, Closed, ClosedGroups;
    ClosedKeeps(s.completions, corr, kind);
    forall h | 0 <= h < |s.handlers|
      ensures PassOk(Next(s, events, CompleteByHand(corr, kind)), s.handlers[h])
    {
      assert PassOk(s, s.handlers[h]);
    }
  }

  lemma {:induction false} DeliverKeeps<D>(s: State<D>, events: set<string>, replayed: bool, corrs: seq<string>)
    requires Good(s) && Lists(corrs, s.expectations.Keys)
    ensures Good(Next(s, events, Deliver(replayed, corrs)))
  {
    hide Group, CompletionsOnce, AnnouncedOnce, PublishedClosed, Honest, Due;
    var t := Next(s, events, Deliver(replayed, corrs));
    forall h | 0 <= h < |t.handlers|
      ensures PassOk(t, t.handlers[h])
    {
      assert h < |s.handlers| ==> PassOk(s, s.handlers[h]);
      assert forall k | 0 <= k < |corrs| :: corrs[k] in corrs;
    }
  }

  lemma {:induction false} VisitKeeps<D>(s: State<D>, events: set<string>, h: nat, kinds: seq<string>)
    requires Good(s) && Enabled(s, Visit(h, kinds))
    ensures Good(Next(s, events, Visit(h, kinds)))
  {
    hide Group, CompletionsOnce, AnnouncedOnce, PublishedClosed, Honest;
    var t := Next(s, events, Visit(h, kinds));
    var x, y := s.handlers[h], t.handlers[h];
    assert PassOk(s, x);
    forall corr, kind | (corr, kind) in y.wanted
      ensures (corr, kind) in t.published || Pending(y, corr, kind)
    {
      assert x.corrs == [x.corrs[0]] + x.corrs[1..];
    }
    forall i | 0 <= i < |t.handlers|
      ensures PassOk(t, t.handlers[i])
    {
      assert i != h ==> PassOk(s, s.handlers[i]);
    }
  }

  lemma {:induction false} CheckKeeps<D>(s: State<D>, events: set<string>, h: nat)
    requires Good(s) && Enabled(s, CheckNext(h))
    ensures Good(Next(s, events, CheckNext(h)))
  {
    hide Group, CompletionsOnce, Due, Closed, ClosedGroups;
    var t := Next(s, events, CheckNext(h));
    var x, y := s.handlers[h], t.handlers[h];
    ClosedKeeps(s.completions, x.corr, x.kinds[0]);
    assert PassOk(s, x);
    forall corr, kind | (corr, kind) in y.wanted
      ensures (corr, kind) in t.published || Pending(y, corr, kind)
    {
      assert x.kinds == [x.kinds[0]] + x.kinds[1..];
    }
    forall i | 0 <= i < |t.handlers|
      ensures PassOk(t, t.handlers[i])
    {
      assert i != h ==> PassOk(s, s.handlers[i]);
    }
    AnnouncementHonest(s, x.corr, x.kinds[0]);
  }

  lemma AnnouncementHonest<D>(s: State<D>, corr: string, kind: string)
    ensures Due(s.artifacts, s.expectations, corr, kind) ==>
              Honest(s.artifacts, Announcement(corr, kind, Expected(s.expectations, corr, kind).value,
                                               Names(Group(s.artifacts, kind, corr))))
  {
  }

  lemma {:induction false} StepKeeps<D>(s: State<D>, events: set<string>, m: Move<D>)
    requires Good(s) && Enabled(s, m)
    ensures Good(Next(s, events, m))
    ensures s.announced <= Next(s, events, m).announced && s.artifacts <= Next(s, events, m).artifacts
  {
    hide Good, Group, Due;
    match m
    case Put(a) => PutKeeps(s, events, a);
    case Expect(corr, kind, count) => ExpectKeeps(s, events, corr, kind, count);
    case CompleteByHand(corr, kind) => HandKeeps(s, events, corr, kind);
    case Deliver(replayed, corrs) => DeliverKeeps(s, events, replayed, corrs);
    case Visit(h, kinds) => VisitKeeps(s, events, h, kinds);
    case CheckNext(h) => CheckKeeps(s, events, h);
  }

  lemma {:induction false} EveryRunIsGood<D>(events: set<string>, ms: seq<Move<D>>)
    requires Legal(Start<D>(), events, ms)
    ensures Good(Run(Start<D>(), events, ms))
    decreases |ms|
  {
    hide Enabled, Next;
    if ms != [] {
      EveryRunIsGood(events, ms[..|ms| - 1]);
      StepKeeps(Run(Start<D>(), events, ms[..|ms| - 1]), events, ms[|ms| - 1]);
    }
  }

  // ---- every completion event is sent

  ghost predicate Announces(published: set<Key>, events: set<string>, announced: seq<Announcement>) {
    && (forall x | x in announced :: x.kind in events)
    && forall key | key in published && key.1 in events ::
         exists x :: x in announced && x.corr == key.0 && x.kind == key.1
  }

  lemma {:induction false} CheckAnnouncesAll<D>(s: State<D>, events: set<string>, corr: string, kind: string)
    requires Announces(s.published, events, s.announced)
    ensures var t := Check(s, events, corr, kind);
            Announces(t.published, events, t.announced)
  {
    hide Due, Group, Closes, Names;
    var t := Check(s, events, corr, kind);
    assert s.announced <= t.announced;
    forall key | key in t.published && key.1 in events
      ensures exists x :: x in t.announced && x.corr == key.0 && x.kind == key.1
    {
      if key in s.published {
        var x :| x in s.announced && x.corr == key.0 && x.kind == key.1;
        assert x in t.announced;
      } else {
        var x := t.announced[|t.announced| - 1];
        assert x in t.announced;
      }
    }
  }

  lemma {:induction false} EveryRunAnnounces<D>(events: set<string>, ms: seq<Move<D>>)
    requires Legal(Start<D>(), events, ms)
    ensures var s := Run(Start<D>(), events, ms);
            Announces(s.published, events, s.announced)
    decreases |ms|
  {
    hide Check, Announces, DueKeys, StillDue, Group;
    if ms == [] {
      NothingAnnounced(events);
    } else {
      var front, m := ms[..|ms| - 1], ms[|ms| - 1];
      EveryRunAnnounces(events, front);
      var s := Run(Start<D>(), events, front);
      if m.CheckNext? {
        CheckAnnouncesAll(s, events, s.handlers[m.h].corr, s.handlers[m.h].kinds[0]);
      }
    }
  }

  lemma NothingAnnounced(events: set<string>)
    ensures Announces({}, events, [])
  {
  }

  // ---- the main results

  /** Under every interleaving: a group is announced at most once, and only with as many artifacts as were expected at
      that moment; no list of completions holds a group twice; and of the groups the tracker closed exactly those with a
      completion event are announced. */
  lemma {:induction false} ClosedAndAnnouncedOnce<D>(events: set<string>, ms: seq<Move<D>>)
    requires Legal(Start<D>(), events, ms)
    ensures var s := Run(Start<D>(), events, ms);
            && (forall corr, i, j | corr in s.completions && 0 <= i < j < |s.completions[corr]| ::
                  s.completions[corr][i] != s.completions[corr][j])
            && (forall i, j | 0 <= i < |s.announced| && 0 <= j < |s.announced|
                  && s.announced[i].corr == s.announced[j].corr && s.announced[i].kind == s.announced[j].kind :: i == j)
            && (forall k | 0 <= k < |s.announced| ::
                  && s.announced[k].kind in ClosedGroups(s.completions, s.announced[k].corr)
                  && Honest(s.artifacts, s.announced[k]))
            && (forall corr, kind ::
                  (corr, kind) in s.published && kind in events
                  <==> exists x :: x in s.announced && x.corr == corr && x.kind == kind)
  {
    hide Run, Legal, Honest, PassOk;
    EveryRunIsGood(events, ms);
    EveryRunAnnounces(events, ms);
    var s := Run(Start<D>(), events, ms);
    forall corr, kind
      ensures (corr, kind) in s.published && kind in events
              <==> exists x :: x in s.announced && x.corr == corr && x.kind == kind
    {
      if x :| x in s.announced && x.corr == corr && x.kind == kind {
        var k :| 0 <= k < |s.announced| && s.announced[k] == x;
        assert (s.announced[k].corr, s.announced[k].kind) in s.published;
      } else if (corr, kind) in s.published && kind in events {
        var key := (corr, kind);
        assert key in s.published && key.1 in events;
      }
    }
  }

  /** No completion is missed: once a pass is over, every group that has been due since it began is closed, whatever
      the other handlers did meanwhile. */
  lemma {:induction false} FinishedPassMissesNothing<D>(events: set<string>, ms: seq<Move<D>>, h: nat, key: Key)
    requires Legal(Start<D>(), events, ms)
    requires var s := Run(Start<D>(), events, ms);
             h < |s.handlers| && s.handlers[h].corrs == [] && s.handlers[h].kinds == [] && key in s.handlers[h].wanted
    ensures var s := Run(Start<D>(), events, ms);
            key in s.published && key.1 in ClosedGroups(s.completions, key.0)
  {
    hide Run, Legal, Honest, CompletionsOnce, AnnouncedOnce, Due;
    EveryRunIsGood(events, ms);
    var s := Run(Start<D>(), events, ms);
    assert PassOk(s, s.handlers[h]);
    assert (key.0, key.1) == key;
  }

  /** How often a group is declared along a run. */
  predicate DeclaredAs<D>(ms: seq<Move<D>>, corr: string, kind: string, count: int) {
    forall k | 0 <= k < |ms| && ms[k].Expect? && ms[k].corr == corr && ms[k].kind == kind :: ms[k].count == count
  }

  /** When discovery declares the number of quotes once and for all, the event that starts the decision comes only with
      that many quotes stored, and the decision, whenever it runs after that, finds at least as many. */
  lemma {:induction false} DecisionSeesAllQuotes<D>(events: set<string>, ms: seq<Move<D>>, x: Announcement, count: int)
    requires Legal(Start<D>(), events, ms) && DeclaredAs(ms, x.corr, x.kind, count)
    requires x in Run(Start<D>(), events, ms).announced
    ensures x.expected == count && |x.names| >= count
    ensures |Group(Run(Start<D>(), events, ms).artifacts, x.kind, x.corr)| >= count
  {
    hide Run, Legal, Group, PassOk, CompletionsOnce, AnnouncedOnce;
    EveryRunIsGood(events, ms);
    DeclaredOnce(events, ms, x.corr, x.kind, count);
    var s := Run(Start<D>(), events, ms);
    var k :| 0 <= k < |s.announced| && s.announced[k] == x;
    assert Honest(s.artifacts, s.announced[k]);
  }

  lemma {:induction false} DeclaredOnce<D>(events: set<string>, ms: seq<Move<D>>, corr: string, kind: string,
                                           count: int)
    requires Legal(Start<D>(), events, ms) && DeclaredAs(ms, corr, kind, count)
    ensures var s := Run(Start<D>(), events, ms);
            && (Expected(s.expectations, corr, kind).Some? ==> Expected(s.expectations, corr, kind).value == count)
            && forall x | x in s.announced && x.corr == corr && x.kind == kind :: x.expected == count
    decreases |ms|
  {
    hide Group, DueKeys, StillDue;
    if ms != [] {
      var front, m := ms[..|ms| - 1], ms[|ms| - 1];
      DeclaredOnce(events, front, corr, kind, count);
      var s, t := Run(Start<D>(), events, front), Run(Start<D>(), events, ms);
      forall x | x in t.announced && x !in s.announced && x.corr == corr && x.kind == kind
        ensures x.expected == count
      {
        assert m.CheckNext?;
      }
    }
  }

  // ---- one run in full

  /** A run is its moves, one after another. */
  lemma RunGoesOn<D>(events: set<string>, ms: seq<Move<D>>, m: Move<D>)
    requires Legal(Start<D>(), events, ms) && Enabled(Run(Start<D>(), events, ms), m)
    ensures Legal(Start<D>(), events, ms + [m])
    ensures Run(Start<D>(), events, ms + [m]) == Next(Run(Start<D>(), events, ms), events, m)
  {
    assert (ms + [m])[..|ms|] == ms;
  }

  /** A replayed event starts nothing; any other starts one handler, and nothing else happens until it is advanced. */
  lemma OriginalsStartHandlers<D>(s: State<D>, events: set<string>, corrs: seq<string>)
    requires Lists(corrs, s.expectations.Keys)
    ensures Next(s, events, Deliver(true, corrs)) == s
    ensures var t := Next(s, events, Deliver(false, corrs));
            && |t.handlers| == |s.handlers| + 1 && t.handlers[..|s.handlers|] == s.handlers
            && t.handlers[|s.handlers|].corrs == corrs && t == s.(handlers := t.handlers)
  {
    hide DueKeys;
  }

  lemma NoMoves<D>(events: set<string>)
    ensures Legal(Start<D>(), events, []) && Run(Start<D>(), events, []) == Start<D>()
  {
  }

  // One artifact is declared and stored, and one event heard.
  lemma {:induction false} OneStored<D>(events: set<string>, a: Artifact<D>) returns (ms: seq<Move<D>>)
    requires a.corr != ""
    ensures Legal(Start<D>(), events, ms)
    ensures var wanted: set<Key> := {(a.corr, a.kind)};
            Run(Start<D>(), events, ms)
            == State([a], map[a.corr := map[a.kind := 1]], map[], {}, [], [Handler([a.corr], "", [], wanted)])
  {
    hide Legal, Run, Group, Due;
    NoMoves<D>(events);
    var corr, kind := a.corr, a.kind;
    RunGoesOn<D>(events, [], Expect(corr, kind, 1));
    ms := [] + [Expect(corr, kind, 1)];
    assert Run(Start<D>(), events, ms).expectations == map[corr := map[kind := 1]];
    RunGoesOn(events, ms, Put(a));
    ms := ms + [Put(a)];
    assert [] + [a] == [a];
    RunGoesOn(events, ms, Deliver(true, [corr]));
    ms := ms + [Deliver(true, [corr])];
    RunGoesOn(events, ms, Deliver(false, [corr]));
    ms := ms + [Deliver(false, [corr])];
    OneIsDue(a);
  }

  lemma OneIsDue<D>(a: Artifact<D>)
    ensures Group([a], a.kind, a.corr) == [a]
    ensures Names([a]) == [a.name]
    ensures Expected(map[a.corr := map[a.kind := 1]], a.corr, a.kind).Some?
    ensures Expected(map[a.corr := map[a.kind := 1]], a.corr, a.kind).value == 1
    ensures Due([a], map[a.corr := map[a.kind := 1]], a.corr, a.kind)
    ensures DueKeys([a], map[a.corr := map[a.kind := 1]]) == {(a.corr, a.kind)}
  {
    GroupOfOne(a);
  }

  /** It does happen, and a replayed event sets nothing in motion: with one artifact expected and stored, the handler of
      the one original event closes its group, and announces it if the kind has a completion event. */
  lemma {:induction false} AnnouncementIsReachable<D>(events: set<string>, a: Artifact<D>) returns (ms: seq<Move<D>>)
    requires a.corr != ""
    ensures Legal(Start<D>(), events, ms)
    ensures var s := Run(Start<D>(), events, ms);
            && s.artifacts == [a] && s.completions == map[a.corr := [a.kind]] && s.published == {(a.corr, a.kind)}
            && s.announced == (if a.kind in events then [Announcement(a.corr, a.kind, 1, [a.name])] else [])
            && |s.handlers| == 1 && s.handlers[0].corrs == [] && s.handlers[0].kinds == []
  {
    hide Legal, Run, Group, Due, Names, Expected, DueKeys;
    var corr, kind := a.corr, a.kind;
    OneIsDue(a);
    ms := OneStored(events, a);
    RunGoesOn(events, ms, Visit(0, [kind]));
    ms := ms + [Visit(0, [kind])];
    assert [kind][1..] == [] && [corr][1..] == [];
    RunGoesOn(events, ms, CheckNext(0));
    ms := ms + [CheckNext(0)];
    assert [] + [kind] == [kind];
  }

  // ---- the tracker itself

  class CompletionTracker<D> {
    const state: SwarmState<D>
    const completionEvents: set<string>
    var published: set<Key>
    var announced: seq<Announcement>

    constructor (state: SwarmState<D>, completionEvents: set<string>)
      ensures this.state == state && this.completionEvents == completionEvents && published == {} && announced == []
    {
      this.state, this.completionEvents := state, completionEvents;
      published, announced := {}, [];
    }

    /** What the transition system sees of the shared state and the tracker. */
    function View(): State<D>
      reads this, state
    {
      State(state.artifacts, state.expectations, state.completions, published, announced, [])
    }

    /** Closes the group if it is due and was not closed before. */
    method MarkIfComplete(corr: string, kind: string) returns (marked: bool)
      requires corr != ""
      modifies this`published, state`completions
      ensures marked <==> old(Closes(View(), corr, kind))
      ensures published == old(published) + if marked then {(corr, kind)} else {}
      ensures state.completions == if marked then Closed(old(state.completions), corr, kind) else old(state.completions)
    {
      if (corr, kind) in published { return false; }
      var expected := Expected(state.expectations, corr, kind);
      if expected.None? { return false; }
      var group := state.FindArtifacts(kind, corr);
      if |group| < expected.value { return false; }
      var ok := state.CompleteArtifact(kind, corr);
      published := published + {(corr, kind)};
      marked := true;
    }

    /** One uninterrupted check of one group: exactly the step of the transition system. */
    method CheckGroup(corr: string, kind: string)
      requires corr != ""
      modifies this`published, this`announced, state`completions
      ensures View() == old(Check(View(), completionEvents, corr, kind))
    {
      var marked := MarkIfComplete(corr, kind);
      if !marked || kind !in completionEvents { return; }
      var group := state.FindArtifacts(kind, corr);
      announced := announced + [Announcement(corr, kind, state.expectations[corr][kind], Names(group))];
    }

    // All groups of one request.
    method CheckGroups(corr: string, kinds: seq<string>, ghost before: set<Key>)
      requires corr != "" && Announced(before, published, completionEvents, announced)
      modifies this`published, this`announced, state`completions
      ensures published == old(published) + DueAmong(state.artifacts, state.expectations, corr, kinds)
      ensures old(AnnouncedOnce(announced, published)) ==> AnnouncedOnce(announced, published)
      ensures Announced(before, published, completionEvents, announced)
    {
      hide Due, Group, AnnouncedOnce, Check, Announced;
      for j := 0 to |kinds|
        invariant published == old(published) + DueAmong(state.artifacts, state.expectations, corr, kinds[..j])
        invariant old(AnnouncedOnce(announced, published)) ==> AnnouncedOnce(announced, published)
        invariant Announced(before, published, completionEvents, announced)
      {
        CheckAnnounces(View(), completionEvents, before, corr, kinds[j]);
        assert kinds[..j + 1] == kinds[..j] + [kinds[j]];
        CheckGroup(corr, kinds[j]);
      }
      assert kinds[..|kinds|] == kinds;
    }

    /** A whole delivery with nothing in between: exactly the groups due are closed, in whatever order they are listed,
        and each newly closed one with a completion event is announced. A replayed event does nothing. */
    method OnEvent(replayed: bool, corrs: seq<string>, groups: string -> seq<string>)
      requires Lists(corrs, state.expectations.Keys) && "" !in corrs
      requires forall corr | corr in corrs :: Lists(groups(corr), state.expectations[corr].Keys)
      modifies this`published, this`announced, state`completions
      ensures replayed ==> View() == old(View())
      ensures !replayed ==> published == old(published) + DueKeys(state.artifacts, state.expectations)
      ensures old(AnnouncedOnce(announced, published)) ==> AnnouncedOnce(announced, published)
      ensures Announced(old(published), published, completionEvents, announced)
    {
      hide Due, Group, AnnouncedOnce, Check;
      if replayed { return; }
      ghost var closed: set<Key> := {};
      for i := 0 to |corrs|
        invariant published == old(published) + closed
        invariant forall c, k :: (c, k) in closed <==>
                    c in corrs[..i] && k in state.expectations[c] && Due(state.artifacts, state.expectations, c, k)
        invariant old(AnnouncedOnce(announced, published)) ==> AnnouncedOnce(announced, published)
        invariant Announced(old(published), published, completionEvents, announced)
      {
        var corr := corrs[i];
        assert corrs[..i + 1] == corrs[..i] + [corr];
        CheckGroups(corr, groups(corr), old(published));
        closed := closed + DueAmong(state.artifacts, state.expectations, corr, groups(corr));
      }
      assert corrs[..|corrs|] == corrs;
      forall key
        ensures key in closed <==> key in DueKeys(state.artifacts, state.expectations)
      {
        assert key == (key.0, key.1);
      }
    }
  }

  function DueAmong<D>(artifacts: seq<Artifact<D>>, e: Expectations, corr: string, kinds: seq<string>): set<Key> {
    set k | k in kinds && Due(artifacts, e, corr, k) :: (corr, k)
  }

  ghost predicate Announced(before: set<Key>, published: set<Key>, events: set<string>, announced: seq<Announcement>) {
    forall key | key in published - before && key.1 in events ::
      exists x :: x in announced && x.corr == key.0 && x.kind == key.1
  }

  lemma CheckAnnounces<D>(s: State<D>, events: set<string>, before: set<Key>, corr: string, kind: string)
    ensures var t := Check(s, events, corr, kind);
            && t.published == s.published
                              + (if Due(s.artifacts, s.expectations, corr, kind) then {(corr, kind)} else {})
            && (AnnouncedOnce(s.announced, s.published) ==> AnnouncedOnce(t.announced, t.published))
            && (Announced(before, s.published, events, s.announced)
                ==> Announced(before, t.published, events, t.announced))
  {
    hide Due, Group;
    var t := Check(s, events, corr, kind);
    if Announced(before, s.published, events, s.announced) {
      forall key | key in t.published - before && key.1 in events
        ensures exists x :: x in t.announced && x.corr == key.0 && x.kind == key.1
      {
        if key in s.published {
          var x :| x in s.announced && x.corr == key.0 && x.kind == key.1;
          assert x in t.announced;
        } else {
          var x := t.announced[|t.announced| - 1];
          assert x in t.announced;
        }
      }
    }
  }
}
