/** The hash-chained event ledger (core/ledger/repository.py). SHA-256 is any function to 64-character strings;
    JSON writing and reading are any two functions. Events of all sessions share one table. */
module Ledger {
  import opened Basics
  import opened StableSort
  import opened Text

  type Hash = string -> string

  datatype Json<!P> = Json(dumps: P -> string, loads: string -> P)

  datatype Event = Event(session: string, turn: int, sender: string, kind: string, payload: string,
                         prev: string, current: string)

  datatype Entry<P> = Entry(session: string, turn: int, sender: string, kind: string, payload: P)

  /** Sixty-four zeros. */
  const GENESIS := "0000000000000000000000000000000000000000000000000000000000000000"

  /** What is hashed. */
  function Raw(e: Event): string {
    e.session + ":" + (Str(e.turn) + ":" + (e.sender + ":" + (e.kind + ":" + (e.payload + ":" + e.prev))))
  }

  // The payload as verification sees it: read back and written again.
  function Reread<P>(json: Json<P>, e: Event): Event { e.(payload := json.dumps(json.loads(e.payload))) }

  predicate Stable<P>(json: Json<P>, e: Event) { Reread(json, e) == e }

  function InSession(session: string): Event -> bool { (e: Event) => e.session == session }

  function OfSession(events: seq<Event>, session: string): seq<Event> { Filter(InSession(session), events) }

  function LastHash(chain: seq<Event>): string {
    if chain == [] then GENESIS else chain[|chain| - 1].current
  }

  function PrevOf(chain: seq<Event>, k: nat): string
    requires k < |chain|
  {
    LastHash(chain[..k])
  }

  /** The check verification makes at one event. */
  predicate LinkHolds<P>(h: Hash, json: Json<P>, chain: seq<Event>, k: nat)
    requires k < |chain|
  {
    chain[k].prev == PrevOf(chain, k) && chain[k].current == h(Raw(Reread(json, chain[k])))
  }

  predicate Verifies<P>(h: Hash, json: Json<P>, chain: seq<Event>) {
    forall k | 0 <= k < |chain| :: LinkHolds(h, json, chain, k)
  }

  function Sealed<P>(h: Hash, json: Json<P>, events: seq<Event>, x: Entry<P>): Event {
    var e := Event(x.session, x.turn, x.sender, x.kind, json.dumps(x.payload),
                   LastHash(OfSession(events, x.session)), "");
    e.(current := h(Raw(e)))
  }

  // The hash column is unique: an insert that would repeat one fails and leaves the table as it was.
  function Append<P>(h: Hash, json: Json<P>, events: seq<Event>, x: Entry<P>): seq<Event> {
    var e := Sealed(h, json, events, x);
    if exists k | 0 <= k < |events| :: events[k].current == e.current then events else events + [e]
  }

  function AppendAll<P>(h: Hash, json: Json<P>, xs: seq<Entry<P>>): seq<Event> {
    if xs == [] then [] else Append(h, json, AppendAll(h, json, xs[..|xs| - 1]), xs[|xs| - 1])
  }

  class PostgresLedger {
    var events: seq<Event>

    constructor ()
      ensures events == []
    {
      events := [];
    }

    method GetEvents(session: string) returns (chain: seq<Event>)
      ensures chain == OfSession(events, session)
    {
      chain := [];
      for k := 0 to |events|
        invariant chain + OfSession(events[k..], session) == OfSession(events, session)
      {
        assert events[k..][1..] == events[k + 1..];
        if events[k].session == session { chain := chain + [events[k]]; }
      }
    }

    method GetLastHash(session: string) returns (hash: string)
      ensures hash == LastHash(OfSession(events, session))
    {
      hide Filter;
      var k := |events|;
      NoEvents(session);
      assert events[k..] == [];
      while k > 0
        invariant 0 <= k <= |events|
        invariant OfSession(events[k..], session) == []
      {
        k := k - 1;
        LastOfSession(events, session, k);
        if events[k].session == session { return events[k].current; }
      }
      assert events[0..] == events;
      return GENESIS;
    }

    method AppendEvent<P>(h: Hash, json: Json<P>, x: Entry<P>) returns (hash: Option<string>)
      modifies this
      ensures events == Append(h, json, old(events), x)
      ensures hash.Some? <==> |events| > |old(events)|
      ensures hash.Some? ==> hash.value == LastHash(OfSession(events, x.session))
    {
      var lastHash := GetLastHash(x.session);
      var payload := json.dumps(x.payload);
      var e := Event(x.session, x.turn, x.sender, x.kind, payload, lastHash, "");
      var current := h(Raw(e));
      for k := 0 to |events|
        invariant forall j | 0 <= j < k :: events[j].current != current
      {
        if events[k].current == current { return None; }
      }
      LastOfAppended(events, e.(current := current));
      events := events + [e.(current := current)];
      hash := Some(current);
    }

    method VerifyChain<P>(h: Hash, json: Json<P>, session: string) returns (ok: bool)
      ensures ok <==> Verifies(h, json, OfSession(events, session))
    {
      hide Filter;
      var chain := GetEvents(session);
      for i := 0 to |chain|
        invariant forall k | 0 <= k < i :: LinkHolds(h, json, chain, k)
      {
        assert PrevOf(chain, i) == if i == 0 then GENESIS else chain[i - 1].current;
        assert Verifies(h, json, chain) ==> LinkHolds(h, json, chain, i);
        if i == 0 {
          if chain[i].prev != GENESIS { return false; }
        } else if chain[i].prev != chain[i - 1].current {
          return false;
        }
        if chain[i].current != h(Raw(Reread(json, chain[i]))) { return false; }
      }
      return true;
    }
  }

  lemma LastOfAppended(events: seq<Event>, e: Event)
    ensures forall s :: OfSession(events + [e], s) == OfSession(events, s) + if e.session == s then [e] else []
  {
    forall s
      ensures OfSession(events + [e], s) == OfSession(events, s) + if e.session == s then [e] else []
    {
      FilterAppend(InSession(s), events, [e]);
    }
  }

  lemma LastOfSession(events: seq<Event>, session: string, k: nat)
    requires k < |events| && OfSession(events[k + 1..], session) == []
    ensures OfSession(events[k..], session) == if events[k].session == session then [events[k]] else []
    ensures events[k].session == session ==> LastHash(OfSession(events, session)) == events[k].current
  {
    assert events[k..][1..] == events[k + 1..];
    assert events == events[..k] + events[k..];
    FilterAppend(InSession(session), events[..k], events[k..]);
  }

  // ---- the encoding is injective

  predicate NoColon(s: string) { forall k | 0 <= k < |s| :: s[k] != ':' }

  lemma FirstColon(a: string, x: string, b: string, y: string)
    requires NoColon(a) && NoColon(b) && a + (":" + x) == b + (":" + y)
    ensures a == b && x == y
  {
    var s := a + (":" + x);
    assert s[|a|] == ':' && s[|b|] == ':';
    assert |a| == |b| && a == s[..|a|] && b == s[..|b|];
    assert x == s[|a| + 1..] && y == s[|b| + 1..];
  }

  lemma LastPart(a: string, x: string, b: string, y: string)
    requires |x| == |y| && a + (":" + x) == b + (":" + y)
    ensures a == b && x == y
  {
    var s := a + (":" + x);
    assert a == s[..|s| - |x| - 1] && b == s[..|s| - |x| - 1];
    assert x == s[|s| - |x|..] && y == s[|s| - |x|..];
  }

  lemma StripSame(a: string, x: string, y: string)
    requires a + (":" + x) == a + (":" + y)
    ensures x == y
  {
    var s := a + (":" + x);
    assert x == s[|a| + 1..] && y == s[|a| + 1..];
  }

  lemma StrNoColon(n: int)
    ensures NoColon(Str(n))
  {
  }

  predicate ColonFree(e: Event) { NoColon(e.sender) && NoColon(e.kind) }

  lemma {:induction false} RawInjective(d: Event, e: Event)
    requires ColonFree(d) && ColonFree(e) && |d.prev| == |e.prev|
    requires d.session == e.session || (NoColon(d.session) && NoColon(e.session))
    requires Raw(d) == Raw(e)
    ensures d.(current := "") == e.(current := "")
  {
    hide Str, Raw, NoColon;
    assert NoColon(Str(d.turn)) && NoColon(Str(e.turn)) by { StrNoColon(d.turn); StrNoColon(e.turn); }
    var p1, p2 := d.payload + (":" + d.prev), e.payload + (":" + e.prev);
    var k1, k2 := d.kind + (":" + p1), e.kind + (":" + p2);
    var s1, s2 := d.sender + (":" + k1), e.sender + (":" + k2);
    var t1, t2 := Str(d.turn) + (":" + s1), Str(e.turn) + (":" + s2);
    RawParts(d);
    RawParts(e);
    if d.session == e.session {
      StripSame(d.session, t1, t2);
    } else {
      FirstColon(d.session, t1, e.session, t2);
    }
    FirstColon(Str(d.turn), s1, Str(e.turn), s2);
    StrInjective(d.turn, e.turn);
    FirstColon(d.sender, k1, e.sender, k2);
    FirstColon(d.kind, p1, e.kind, p2);
    LastPart(d.payload, d.prev, e.payload, e.prev);
  }

  lemma RawParts(e: Event)
    ensures Raw(e)
         == e.session
            + (":" + (Str(e.turn) + (":" + (e.sender + (":" + (e.kind + (":" + (e.payload + (":" + e.prev)))))))))
  {
    hide Str;
    var p := e.payload + (":" + e.prev);
    assert e.payload + ":" + e.prev == p;
    var k := e.kind + (":" + p);
    assert e.kind + ":" + p == k;
    var s := e.sender + (":" + k);
    assert e.sender + ":" + k == s;
    var t := Str(e.turn) + (":" + s);
    assert Str(e.turn) + ":" + s == t;
    assert e.session + ":" + t == e.session + (":" + t);
  }

  // ---- tampering shows

  /** No two of these texts share a hash, and none hashes to the genesis value. */
  predicate NoCollision(h: Hash, texts: seq<string>) {
    && (forall a, b | a in texts && b in texts :: h(a) == h(b) ==> a == b)
    && (forall a | a in texts :: h(a) != GENESIS)
  }

  lemma NoCollisionIs(h: Hash, texts: seq<string>)
    ensures NoCollision(h, texts)
       <==> && (forall i, j | 0 <= i < j < |texts| && texts[i] != texts[j] :: h(texts[i]) != h(texts[j]))
            && (forall i | 0 <= i < |texts| :: h(texts[i]) != GENESIS)
  {
    if forall i, j | 0 <= i < j < |texts| && texts[i] != texts[j] :: h(texts[i]) != h(texts[j]) {
      forall a, b | a in texts && b in texts && h(a) == h(b)
        ensures a == b
      {
        var i :| 0 <= i < |texts| && texts[i] == a;
        var j :| 0 <= j < |texts| && texts[j] == b;
      }
    }
    assert forall i | 0 <= i < |texts| :: texts[i] in texts;
  }

  function Texts<P>(json: Json<P>, chain: seq<Event>): (t: seq<string>)
    ensures |t| == |chain|
    ensures forall k | 0 <= k < |chain| :: t[k] == Raw(Reread(json, chain[k]))
  {
    seq(|chain|, k requires 0 <= k < |chain| => Raw(Reread(json, chain[k])))
  }

  /** The events as a reader of the ledger sees them. */
  function Seen<P>(json: Json<P>, chain: seq<Event>): (t: seq<Event>)
    ensures |t| == |chain|
  {
    seq(|chain|, k requires 0 <= k < |chain| => Reread(json, chain[k]))
  }

  /** Two verifying chains of one session with the same last hash are the same list of events: nothing before the
      last hash can have been changed, dropped or inserted. */
  lemma {:induction false} SameLastHashSameChain<P>(h: Hash, json: Json<P>, session: string,
                                                    a: seq<Event>, b: seq<Event>)
    requires forall s :: |h(s)| == 64
    requires NoCollision(h, Texts(json, a) + Texts(json, b))
    requires Verifies(h, json, a) && Verifies(h, json, b) && LastHash(a) == LastHash(b)
    requires forall e | e in a || e in b :: e.session == session && ColonFree(e)
    ensures Seen(json, a) == Seen(json, b)
    decreases |a| + |b|
  {
    hide Raw, Reread, Verifies, NoCollision, LastHash, Texts, ColonFree;
    if a != [] && b != [] {
      var m, n := |a| - 1, |b| - 1;
      LastEventsAgree(h, json, session, a, b);
      Shorter(h, json, a);
      Shorter(h, json, b);
      FewerTexts(h, json, a, b);
      SameLastHashSameChain(h, json, session, a[..m], b[..n]);
      assert Seen(json, a) == Seen(json, a[..m]) + [Reread(json, a[m])];
      assert Seen(json, b) == Seen(json, b[..n]) + [Reread(json, b[n])];
    } else if a != [] {
      NotGenesis(h, json, a, Texts(json, a) + Texts(json, b));
    } else if b != [] {
      NotGenesis(h, json, b, Texts(json, a) + Texts(json, b));
    }
  }

  lemma NotGenesis<P>(h: Hash, json: Json<P>, chain: seq<Event>, texts: seq<string>)
    requires chain != [] && Verifies(h, json, chain) && NoCollision(h, texts)
    requires forall t | t in Texts(json, chain) :: t in texts
    ensures LastHash(chain) != LastHash([])
  {
    hide Raw, Reread;
    var m := |chain| - 1;
    assert LinkHolds(h, json, chain, m);
    assert Texts(json, chain)[m] in texts;
  }

  lemma LastEventsAgree<P>(h: Hash, json: Json<P>, session: string, a: seq<Event>, b: seq<Event>)
    requires forall s :: |h(s)| == 64
    requires a != [] && b != [] && NoCollision(h, Texts(json, a) + Texts(json, b))
    requires Verifies(h, json, a) && Verifies(h, json, b) && LastHash(a) == LastHash(b)
    requires forall e | e in a || e in b :: e.session == session && ColonFree(e)
    ensures Reread(json, a[|a| - 1]) == Reread(json, b[|b| - 1]) && a[|a| - 1].prev == b[|b| - 1].prev
  {
    hide Raw, Reread, ColonFree;
    var m, n := |a| - 1, |b| - 1;
    assert LinkHolds(h, json, a, m) && LinkHolds(h, json, b, n);
    assert Texts(json, a)[m] in Texts(json, a) && Texts(json, b)[n] in Texts(json, b);
    assert Raw(Reread(json, a[m])) == Raw(Reread(json, b[n]));
    PrevIs64(h, json, a, m);
    PrevIs64(h, json, b, n);
    assert a[m] in a && b[n] in b;
    SameRawSameEvent(json, a[m], b[n]);
  }

  lemma FewerTexts<P>(h: Hash, json: Json<P>, a: seq<Event>, b: seq<Event>)
    requires a != [] && b != [] && NoCollision(h, Texts(json, a) + Texts(json, b))
    ensures NoCollision(h, Texts(json, a[..|a| - 1]) + Texts(json, b[..|b| - 1]))
  {
    hide Raw, Reread;
    assert Texts(json, a) == Texts(json, a[..|a| - 1]) + [Texts(json, a)[|a| - 1]];
    assert Texts(json, b) == Texts(json, b[..|b| - 1]) + [Texts(json, b)[|b| - 1]];
  }

  lemma PrevIs64<P>(h: Hash, json: Json<P>, chain: seq<Event>, k: nat)
    requires forall s :: |h(s)| == 64
    requires Verifies(h, json, chain) && k < |chain|
    ensures |chain[k].prev| == 64
  {
    hide Raw, Reread;
    assert LinkHolds(h, json, chain, k);
    if k > 0 {
      assert LinkHolds(h, json, chain, k - 1);
      assert chain[..k][k - 1] == chain[k - 1];
    }
  }

  lemma SameRawSameEvent<P>(json: Json<P>, d: Event, e: Event)
    requires ColonFree(d) && ColonFree(e) && d.session == e.session && |d.prev| == |e.prev| && d.current == e.current
    requires Raw(Reread(json, d)) == Raw(Reread(json, e))
    ensures Reread(json, d) == Reread(json, e) && d.prev == e.prev
  {
    RawInjective(Reread(json, d), Reread(json, e));
  }

  lemma Shorter<P>(h: Hash, json: Json<P>, chain: seq<Event>)
    requires Verifies(h, json, chain) && chain != []
    ensures Verifies(h, json, chain[..|chain| - 1])
    ensures LastHash(chain[..|chain| - 1]) == chain[|chain| - 1].prev
  {
    hide Raw, Reread;
    var front := chain[..|chain| - 1];
    assert LinkHolds(h, json, chain, |chain| - 1);
    forall k | 0 <= k < |front|
      ensures LinkHolds(h, json, front, k)
    {
      assert LinkHolds(h, json, chain, k);
      assert front[..k] == chain[..k];
    }
  }

  // ---- what appending builds

  /** Links and hashes right over the payload text as stored. */
  predicate Linked(h: Hash, chain: seq<Event>) {
    forall k | 0 <= k < |chain| :: chain[k].prev == PrevOf(chain, k) && chain[k].current == h(Raw(chain[k]))
  }

  lemma LinkedGrows(h: Hash, chain: seq<Event>, e: Event)
    requires Linked(h, chain) && e.prev == LastHash(chain) && e.current == h(Raw(e))
    ensures Linked(h, chain + [e])
  {
    hide Raw;
    var longer := chain + [e];
    forall k | 0 <= k < |longer|
      ensures longer[k].prev == PrevOf(longer, k) && longer[k].current == h(Raw(longer[k]))
    {
      if k < |chain| {
        assert longer[..k] == chain[..k];
      } else {
        assert longer[..k] == chain;
      }
    }
  }

  lemma {:induction false} AppendsLink<P>(h: Hash, json: Json<P>, xs: seq<Entry<P>>, session: string)
    ensures Linked(h, OfSession(AppendAll(h, json, xs), session))
  {
    hide Raw, Filter;
    if xs == [] {
      NoEvents(session);
    } else {
      var events, x := AppendAll(h, json, xs[..|xs| - 1]), xs[|xs| - 1];
      AppendsLink(h, json, xs[..|xs| - 1], session);
      var e := Sealed(h, json, events, x);
      LastOfAppended(events, e);
      if x.session == session {
        SealedFits(h, json, events, x);
        LinkedGrows(h, OfSession(events, session), e);
      } else {
        assert OfSession(events, session) + [] == OfSession(events, session);
      }
    }
  }

  lemma NoEvents(session: string)
    ensures OfSession([], session) == []
  {
  }

  lemma SealedFits<P>(h: Hash, json: Json<P>, events: seq<Event>, x: Entry<P>)
    ensures var e := Sealed(h, json, events, x);
            e.prev == LastHash(OfSession(events, x.session)) && e.current == h(Raw(e))
  {
  }

  function StoredTexts(chain: seq<Event>): (t: seq<string>)
    ensures |t| == |chain|
    ensures forall k | 0 <= k < |chain| :: t[k] == Raw(chain[k])
  {
    seq(|chain|, k requires 0 <= k < |chain| => Raw(chain[k]))
  }

  /** A ledger built by appending verifies if every payload text it stored is written again unchanged after being read
      back, whatever the hash. */
  lemma {:induction false} StableVerifies<P>(h: Hash, json: Json<P>, xs: seq<Entry<P>>, session: string)
    requires forall e | e in OfSession(AppendAll(h, json, xs), session) :: Stable(json, e)
    ensures Verifies(h, json, OfSession(AppendAll(h, json, xs), session))
  {
    hide Raw, OfSession, AppendAll, Reread;
    var chain := OfSession(AppendAll(h, json, xs), session);
    AppendsLink(h, json, xs, session);
    forall k | 0 <= k < |chain|
      ensures LinkHolds(h, json, chain, k)
    {
      assert Stable(json, chain[k]);
    }
  }

  /** And where hashes do not collide, only then. */
  lemma {:induction false} AppendedVerifiesIffStable<P>(h: Hash, json: Json<P>, xs: seq<Entry<P>>, session: string)
    requires var chain := OfSession(AppendAll(h, json, xs), session);
             NoCollision(h, StoredTexts(chain) + Texts(json, chain))
    ensures var chain := OfSession(AppendAll(h, json, xs), session);
            Verifies(h, json, chain) <==> forall e | e in chain :: Stable(json, e)
  {
    hide Raw, OfSession, AppendAll, Reread;
    var chain := OfSession(AppendAll(h, json, xs), session);
    AppendsLink(h, json, xs, session);
    var texts := StoredTexts(chain) + Texts(json, chain);
    assert forall k | 0 <= k < |chain| :: StoredTexts(chain)[k] in texts && Texts(json, chain)[k] in texts;
    forall k | 0 <= k < |chain|
      ensures LinkHolds(h, json, chain, k) <==> Stable(json, chain[k])
    {
      RereadDiffers(json, chain[k]);
    }
    assert forall k | 0 <= k < |chain| :: chain[k] in chain;
  }

  lemma RereadDiffers<P>(json: Json<P>, e: Event)
    ensures Raw(Reread(json, e)) == Raw(e) <==> Reread(json, e) == e
  {
    var d := Reread(json, e);
    if Raw(d) == Raw(e) {
      RawParts(d);
      RawParts(e);
      var head := e.session + (":" + (Str(e.turn) + (":" + (e.sender + (":" + (e.kind + ":"))))));
      assert Raw(d) == head + (d.payload + (":" + e.prev));
      assert Raw(e) == head + (e.payload + (":" + e.prev));
      assert Raw(d)[|head|..] == d.payload + (":" + e.prev);
      assert Raw(e)[|head|..] == e.payload + (":" + e.prev);
      LastPart(d.payload, e.prev, e.payload, e.prev);
    }
  }

  // ---- the unique hash column never gets in the way

  predicate DistinctHashes(events: seq<Event>) {
    forall i, j | 0 <= i < j < |events| :: events[i].current != events[j].current
  }

  lemma {:induction false} AppendsDistinct<P>(h: Hash, json: Json<P>, xs: seq<Entry<P>>)
    ensures DistinctHashes(AppendAll(h, json, xs))
  {
    hide Sealed;
    if xs != [] {
      AppendsDistinct(h, json, xs[..|xs| - 1]);
    }
  }

  ghost predicate AllColonFree<P>(xs: seq<Entry<P>>) {
    forall x | x in xs :: NoColon(x.session) && NoColon(x.sender) && NoColon(x.kind)
  }

  predicate Delimited(e: Event) {
    NoColon(e.session) && NoColon(e.sender) && NoColon(e.kind) && |e.prev| == 64
  }

  predicate AllDelimited(events: seq<Event>) { forall e | e in events :: Delimited(e) }

  lemma {:induction false} AppendsDelimited<P>(h: Hash, json: Json<P>, xs: seq<Entry<P>>)
    requires AllColonFree(xs) && forall s :: |h(s)| == 64
    ensures AllDelimited(AppendAll(h, json, xs))
    ensures forall x | x in xs :: Delimited(Sealed(h, json, AppendAll(h, json, xs), x))
  {
    hide Raw, Filter, NoColon;
    if xs != [] {
      var n := |xs| - 1;
      AppendsDelimited(h, json, xs[..n]);
      assert xs[n] in xs;
      SealedDelimited(h, json, xs[..n], xs[n]);
    }
    forall x | x in xs
      ensures Delimited(Sealed(h, json, AppendAll(h, json, xs), x))
    {
      SealedDelimited(h, json, xs, x);
    }
  }

  lemma {:induction false} SealedDelimited<P>(h: Hash, json: Json<P>, xs: seq<Entry<P>>, x: Entry<P>)
    requires NoColon(x.session) && NoColon(x.sender) && NoColon(x.kind) && forall s :: |h(s)| == 64
    ensures Delimited(Sealed(h, json, AppendAll(h, json, xs), x))
  {
    hide Raw, Filter, NoColon, AppendAll;
    AppendsLink(h, json, xs, x.session);
  }

  lemma {:induction false} SessionMember(events: seq<Event>, e: Event)
    ensures e in OfSession(events, e.session) <==> e in events
  {
    FilterMember(InSession(e.session), events, e);
  }

  /** With delimited fields and no collision among the texts hashed, an append is never refused: no later event
      can repeat the hash of an earlier one, in its own session or in another. */
  lemma {:induction false} AppendNeverRefused<P>(h: Hash, json: Json<P>, xs: seq<Entry<P>>, x: Entry<P>)
    requires AllColonFree(xs + [x]) && forall s :: |h(s)| == 64
    requires var events := AppendAll(h, json, xs);
             NoCollision(h, StoredTexts(events + [Sealed(h, json, events, x)]))
    ensures var events := AppendAll(h, json, xs);
            Append(h, json, events, x) == events + [Sealed(h, json, events, x)]
  {
    hide Raw, Filter, AppendAll, Delimited, NoCollision, Sealed, Linked, LastHash;
    var events := AppendAll(h, json, xs);
    var e := Sealed(h, json, events, x);
    assert forall y | y in xs :: y in xs + [x];
    assert x in xs + [x];
    AppendsDelimited(h, json, xs);
    SealedDelimited(h, json, xs, x);
    SealedFits(h, json, events, x);
    forall k | 0 <= k < |events|
      ensures events[k].current != e.current
    {
      if events[k].current == e.current {
        Repeated(h, json, xs, x, k);
      }
    }
  }

  lemma {:induction false} EventsLinked<P>(h: Hash, json: Json<P>, xs: seq<Entry<P>>, e: Event) returns (j: nat)
    requires e in AppendAll(h, json, xs)
    ensures var chain := OfSession(AppendAll(h, json, xs), e.session);
            && Linked(h, chain) && j < |chain| && chain[j] == e && e.prev == PrevOf(chain, j) && e.current == h(Raw(e))
  {
    hide Raw, Filter, AppendAll;
    var chain := OfSession(AppendAll(h, json, xs), e.session);
    AppendsLink(h, json, xs, e.session);
    SessionMember(AppendAll(h, json, xs), e);
    j :| 0 <= j < |chain| && chain[j] == e;
  }

  // A repeated hash would mean a repeated text, so a repeated previous hash; and a chain never returns to one.
  lemma {:induction false} Repeated<P>(h: Hash, json: Json<P>, xs: seq<Entry<P>>, x: Entry<P>, k: nat)
    requires k < |AppendAll(h, json, xs)| && AllDelimited(AppendAll(h, json, xs))
    requires Delimited(Sealed(h, json, AppendAll(h, json, xs), x))
    requires NoCollision(h, StoredTexts(AppendAll(h, json, xs) + [Sealed(h, json, AppendAll(h, json, xs), x)]))
    ensures AppendAll(h, json, xs)[k].current != Sealed(h, json, AppendAll(h, json, xs), x).current
  {
    hide Raw, Filter, AppendAll, Sealed, Linked, NoColon;
    var events := AppendAll(h, json, xs);
    var e := Sealed(h, json, events, x);
    var d := events[k];
    var texts := StoredTexts(events + [e]);
    SealedFits(h, json, events, x);
    assert texts[k] == Raw(d) && texts[|events|] == Raw(e);
    assert Raw(d) in texts && Raw(e) in texts;
    forall f | f in events
      ensures Raw(f) in texts
    {
      var i :| 0 <= i < |events| && events[i] == f;
      assert texts[i] == Raw(f);
    }
    var j := EventsLinked(h, json, xs, d);
    assert d in events && Delimited(d);
    if d.current == e.current {
      RawInjective(d, e);
      SealedSession(h, json, events, x);
      PrevNeverReturns(h, json, xs, texts, d.session, j);
    }
  }

  lemma SealedSession<P>(h: Hash, json: Json<P>, events: seq<Event>, x: Entry<P>)
    ensures Sealed(h, json, events, x).session == x.session
  {
  }

  lemma {:induction false} PrevNeverReturns<P>(h: Hash, json: Json<P>, xs: seq<Entry<P>>, texts: seq<string>,
                                               session: string, j: nat)
    requires var chain := OfSession(AppendAll(h, json, xs), session);
             && j < |chain| && Linked(h, chain) && NoCollision(h, texts)
    requires forall d | d in AppendAll(h, json, xs) :: Raw(d) in texts
    ensures var chain := OfSession(AppendAll(h, json, xs), session);
            PrevOf(chain, j) != LastHash(chain)
  {
    hide Raw, AppendAll, Filter;
    var events := AppendAll(h, json, xs);
    var chain := OfSession(events, session);
    var last := chain[|chain| - 1];
    FilterMember(InSession(session), events, last);
    assert last in chain;
    if j > 0 {
      AppendsDistinct(h, json, xs);
      FilterDistinctHashes(events, session);
      assert chain[..j][j - 1] == chain[j - 1];
    }
  }

  lemma {:induction false} FilterDistinctHashes(events: seq<Event>, session: string)
    requires DistinctHashes(events)
    ensures DistinctHashes(OfSession(events, session))
  {
    if events != [] {
      FilterDistinctHashes(events[1..], session);
      var rest := OfSession(events[1..], session);
      forall k | 0 <= k < |rest|
        ensures rest[k].current != events[0].current
      {
        FilterMember(InSession(session), events[1..], rest[k]);
        assert rest[k] in events[1..];
      }
    }
  }
}
