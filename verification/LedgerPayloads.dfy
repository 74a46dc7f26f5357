/** The texts of ledger payloads (core/ledger/repository.py): objects with integer values as json.dumps writes them with
    sorted keys and json.loads reads them back. Integer keys are sorted as numbers but written, and so read back, as
    text. Keys need no escaping. */
module LedgerPayloads {
  import opened Ledger
  import opened StableSort
  import opened Text

  type Members = seq<(string, int)>

  /** A dictionary with its entries in insertion order. */
  datatype Object = IntKeyed(entries: seq<(int, int)>) | TextKeyed(members: Members)

  function ByNumber(): ((int, int), (int, int)) -> bool { (a: (int, int), b: (int, int)) => a.0 <= b.0 }

  function ByText(): ((string, int), (string, int)) -> bool {
    (a: (string, int), b: (string, int)) => StringLe(a.0, b.0)
  }

  function Named(entries: seq<(int, int)>): (ms: Members)
    ensures |ms| == |entries|
    ensures forall k | 0 <= k < |ms| :: ms[k] == (Str(entries[k].0), entries[k].1)
  {
    seq(|entries|, k requires 0 <= k < |entries| => (Str(entries[k].0), entries[k].1))
  }

  // ---- the text of an object

  function Member(m: (string, int), rest: string): string {
    "\"" + (m.0 + ("\": " + (Str(m.1) + rest)))
  }

  function Tail(ms: Members): string { if ms == [] then "}" else ", " + Member(ms[0], Tail(ms[1..])) }

  function TextOf(ms: Members): string { "{" + if ms == [] then "}" else Member(ms[0], Tail(ms[1..])) }

  /** As it looks: in braces, with the first member right after the opening one. */
  lemma {:induction false} TextLooks(ms: Members)
    ensures TextOf([]) == "{}"
    ensures var text := TextOf(ms); |text| >= 2 && text[0] == '{' && text[|text| - 1] == '}'
    ensures ms != [] ==> TextOf(ms)[1..] == Member(ms[0], Tail(ms[1..]))
  {
    hide Str;
    if ms != [] {
      TailEnds(ms[1..]);
    }
  }

  /** A member is its key in quotes, a colon, a space and its number. */
  lemma {:induction false} MemberLooks(m: (string, int), rest: string)
    ensures var text, n := Member(m, rest), |m.0|;
            && |text| >= 4 + n && text[0] == '"' && text[1..1 + n] == m.0
            && text[1 + n] == '"' && text[2 + n] == ':' && text[3 + n] == ' ' && text[4 + n..] == Str(m.1) + rest
  {
    hide Str;
    var number := Str(m.1) + rest;
    var after := "\": " + number;
    var text := Member(m, rest);
    assert text == "\"" + (m.0 + after);
    assert text[1..] == m.0 + after;
    assert text[1 + |m.0|..] == after && after[3..] == number;
    assert text[4 + |m.0|..] == text[1 + |m.0|..][3..];
  }

  lemma {:induction false} TailEnds(ms: Members)
    ensures Tail(ms) != [] && Tail(ms)[|Tail(ms)| - 1] == '}'
    ensures ms != [] ==> Tail(ms)[..2] == ", "
  {
    hide Str;
    if ms != [] {
      TailEnds(ms[1..]);
    }
  }

  predicate Plain(ms: Members) { forall m | m in ms :: '"' !in m.0 }

  lemma Cut(c: char, a: string, x: string, b: string, y: string)
    requires c !in a && c !in b && x != [] && y != [] && x[0] == y[0] == c && a + x == b + y
    ensures a == b && x == y
  {
    var s := a + x;
    assert s[|a|] == c && s[|b|] == c;
    assert |a| == |b| && a == s[..|a|] && b == s[..|b|] && x == s[|a|..] && y == s[|b|..];
  }

  predicate Numeral(c: char) { c == '-' || '0' <= c <= '9' }

  lemma CutNumber(m: int, x: string, n: int, y: string)
    requires x != [] && y != [] && !Numeral(x[0]) && !Numeral(y[0]) && Str(m) + x == Str(n) + y
    ensures m == n && x == y
  {
    var a, b := Str(m), Str(n);
    hide Str;
    var s := a + x;
    assert s == b + y;
    assert s[|a|] == x[0] && s[|b|] == y[0];
    assert forall k | 0 <= k < |a| :: Numeral(s[k]);
    assert forall k | 0 <= k < |b| :: s[k] == b[k];
    assert |a| == |b| && a == s[..|a|] && b == s[..|b|] && x == s[|a|..] && y == s[|b|..];
    StrInjective(m, n);
  }

  lemma MemberInjective(m: (string, int), x: string, n: (string, int), y: string)
    requires '"' !in m.0 && '"' !in n.0 && x != [] && y != [] && !Numeral(x[0]) && !Numeral(y[0])
    requires Member(m, x) == Member(n, y)
    ensures m == n && x == y
  {
    hide Str;
    var a, b := Str(m.1) + x, Str(n.1) + y;
    assert Member(m, x)[1..] == m.0 + ("\": " + a) && Member(n, y)[1..] == n.0 + ("\": " + b);
    Cut('"', m.0, "\": " + a, n.0, "\": " + b);
    assert ("\": " + a)[3..] == a && ("\": " + b)[3..] == b;
    CutNumber(m.1, x, n.1, y);
  }

  lemma {:induction false} TailInjective(ms: Members, ns: Members)
    requires Plain(ms) && Plain(ns) && Tail(ms) == Tail(ns)
    ensures ms == ns
  {
    hide Member;
    if ms != [] && ns != [] {
      var x, y := Tail(ms[1..]), Tail(ns[1..]);
      assert Tail(ms)[2..] == Member(ms[0], x) && Tail(ns)[2..] == Member(ns[0], y);
      assert ms[0] in ms && ns[0] in ns;
      MemberInjective(ms[0], x, ns[0], y);
      TailInjective(ms[1..], ns[1..]);
      assert ms == [ms[0]] + ms[1..] && ns == [ns[0]] + ns[1..];
    } else {
      assert ms == [] ==> Tail(ns)[0] == '}';
      assert ns == [] ==> Tail(ms)[0] == '}';
    }
  }

  /** The text of an object determines its members and their order. */
  lemma {:induction false} TextInjective(ms: Members, ns: Members)
    requires Plain(ms) && Plain(ns) && TextOf(ms) == TextOf(ns)
    ensures ms == ns
  {
    SecondChar(ms);
    SecondChar(ns);
    if ms != [] {
      WithComma(ms);
      WithComma(ns);
      TailInjective(ms, ns);
    }
  }

  lemma SecondChar(ms: Members)
    ensures |TextOf(ms)| >= 2 && TextOf(ms)[1] == if ms == [] then '}' else '"'
  {
    hide Tail, Str;
  }

  lemma WithComma(ms: Members)
    requires ms != []
    ensures Tail(ms) == ", " + TextOf(ms)[1..]
  {
    hide Member;
    assert TextOf(ms)[1..] == Member(ms[0], Tail(ms[1..]));
  }

  // ---- writing and reading

  function Dumps(o: Object): string {
    match o
    case IntKeyed(entries) => TextOf(Named(Sort(ByNumber(), entries)))
    case TextKeyed(members) => TextOf(Sort(ByText(), members))
  }

  // Reading gives the members of the text, in its order.
  ghost predicate IsTextOf(text: string, ms: Members) { Plain(ms) && TextOf(ms) == text }

  ghost function Loads(text: string): Object {
    if exists ms :: IsTextOf(text, ms) then var ms :| IsTextOf(text, ms); TextKeyed(ms) else TextKeyed([])
  }

  ghost function ObjectJson(): Json<Object> { Json((o: Object) => Dumps(o), (text: string) => Loads(text)) }

  lemma {:induction false} LoadsText(ms: Members)
    requires Plain(ms)
    ensures Loads(TextOf(ms)) == TextKeyed(ms)
  {
    hide TextOf;
    assert IsTextOf(TextOf(ms), ms);
    forall ns | IsTextOf(TextOf(ms), ns)
      ensures ns == ms
    {
      TextInjective(ns, ms);
    }
  }

  lemma NamedPlain(entries: seq<(int, int)>)
    ensures Plain(Named(entries))
  {
    hide Str;
    var ms := Named(entries);
    forall m | m in ms
      ensures '"' !in m.0
    {
      var k :| 0 <= k < |ms| && ms[k] == m;
    }
  }

  // ---- what survives

  lemma {:induction false} SortedStays<T>(le: (T, T) -> bool, s: seq<T>)
    requires SortedBy(le, s)
    ensures Sort(le, s) == s
  {
    if s != [] {
      SortedStays(le, s[1..]);
      assert |s| > 1 ==> le(s[0], s[1]);
      assert s == [s[0]] + s[1..];
    }
  }

  lemma ByTextTotal()
    ensures TotalPreorder(ByText())
  {
    hide StringLe;
    forall a: (string, int), b: (string, int)
      ensures StringLe(a.0, b.0) || StringLe(b.0, a.0)
    {
      StringLeTotal(a.0, b.0);
    }
    forall a: (string, int), b: (string, int), c: (string, int) | StringLe(a.0, b.0) && StringLe(b.0, c.0)
      ensures StringLe(a.0, c.0)
    {
      StringLeTransitive(a.0, b.0, c.0);
    }
  }

  lemma ByNumberTotal()
    ensures TotalPreorder(ByNumber())
  {
  }

  /** Keys compare as texts the way they compare as numbers. */
  predicate OrdersAgree(entries: seq<(int, int)>) {
    forall x, y | x in entries && y in entries && x.0 <= y.0 :: StringLe(Str(x.0), Str(y.0))
  }

  /** Read back and written again, the text is the same. */
  ghost predicate Survives(o: Object) { Dumps(Loads(Dumps(o))) == Dumps(o) }

  lemma SortedPlain(ms: Members)
    requires Plain(ms)
    ensures Plain(Sort(ByText(), ms))
  {
    hide Sort;
    SortMembers(ByText(), ms);
  }

  /** An object with integer keys survives exactly when its keys compare as texts the way they compare as numbers. */
  lemma {:induction false} IntKeysSurviveIff(entries: seq<(int, int)>)
    ensures Survives(IntKeyed(entries)) <==> OrdersAgree(entries)
  {
    hide Sort, TextOf, Str, StringLe, Loads, Plain;
    var es := Sort(ByNumber(), entries);
    var ms := Named(es);
    NamedPlain(es);
    LoadsText(ms);
    SortedPlain(ms);
    ByTextTotal();
    SortSorts(ByText(), ms);
    NamedSortedIff(entries);
    if OrdersAgree(entries) {
      SortedStays(ByText(), ms);
    }
    if Survives(IntKeyed(entries)) {
      TextInjective(Sort(ByText(), ms), ms);
    }
  }

  lemma {:induction false} NamedSortedIff(entries: seq<(int, int)>)
    ensures SortedBy(ByText(), Named(Sort(ByNumber(), entries))) <==> OrdersAgree(entries)
  {
    hide Sort, Str, StringLe;
    var es := Sort(ByNumber(), entries);
    var ms := Named(es);
    ByNumberTotal();
    SortSorts(ByNumber(), entries);
    SortMembers(ByNumber(), entries);
    if OrdersAgree(entries) {
      forall i, j | 0 <= i < j < |ms|
        ensures ByText()(ms[i], ms[j])
      {
        assert es[i] in entries && es[j] in entries && ByNumber()(es[i], es[j]);
      }
    }
    if SortedBy(ByText(), ms) {
      forall x, y | x in entries && y in entries && x.0 <= y.0
        ensures StringLe(Str(x.0), Str(y.0))
      {
        assert x in es && y in es;
        var i :| 0 <= i < |es| && es[i] == x;
        var j :| 0 <= j < |es| && es[j] == y;
        StringLeTotal(Str(x.0), Str(x.0));
        if i < j {
          assert ByText()(ms[i], ms[j]);
        } else if j < i {
          assert ByNumber()(es[j], es[i]);
        }
      }
    }
  }

  /** Text keys always survive. */
  lemma {:induction false} TextKeysSurvive(ms: Members)
    requires Plain(ms)
    ensures Survives(TextKeyed(ms))
  {
    hide Sort, TextOf, Loads, Plain, StringLe;
    SortedPlain(ms);
    LoadsText(Sort(ByText(), ms));
    ByTextTotal();
    SortSorts(ByText(), ms);
    SortedStays(ByText(), Sort(ByText(), ms));
  }

  /** A single integer key survives; the keys 9 and 10 do not, since "10" sorts before "9". */
  lemma {:induction false} NineAndTen(nine: int, ten: int)
    ensures forall k, v :: Survives(IntKeyed([(k, v)]))
    ensures !Survives(IntKeyed([(9, nine), (10, ten)]))
  {
    hide Survives;
    forall k, v
      ensures Survives(IntKeyed([(k, v)]))
    {
      hide Str;
      StringLeTotal(Str(k), Str(k));
      IntKeysSurviveIff([(k, v)]);
    }
    var entries := [(9, nine), (10, ten)];
    IntKeysSurviveIff(entries);
    assert Str(9) == "9" && Str(10) == "10" && !StringLe("9", "10");
    assert entries[0] in entries && entries[1] in entries;
  }

  // ---- what that means for a ledger

  lemma StableIffSurvives(h: Hash, events: seq<Event>, x: Entry<Object>)
    ensures Stable(ObjectJson(), Sealed(h, ObjectJson(), events, x)) <==> Survives(x.payload)
  {
    hide Raw, Dumps, Loads, OfSession;
  }

  lemma {:induction false} AppendedAreStable(h: Hash, xs: seq<Entry<Object>>)
    requires forall x | x in xs :: Survives(x.payload)
    ensures forall e | e in AppendAll(h, ObjectJson(), xs) :: Stable(ObjectJson(), e)
  {
    hide Stable, Survives, Sealed;
    if xs != [] {
      var n := |xs| - 1;
      AppendedAreStable(h, xs[..n]);
      assert xs[n] in xs;
      StableIffSurvives(h, AppendAll(h, ObjectJson(), xs[..n]), xs[n]);
    }
  }

  /** A ledger of payloads that survive verifies, session by session. */
  lemma {:induction false} SurvivingPayloadsVerify(h: Hash, xs: seq<Entry<Object>>, session: string)
    requires forall x | x in xs :: Survives(x.payload)
    ensures Verifies(h, ObjectJson(), OfSession(AppendAll(h, ObjectJson(), xs), session))
  {
    hide Stable, Survives, Filter, AppendAll, Verifies, ObjectJson;
    var events := AppendAll(h, ObjectJson(), xs);
    AppendedAreStable(h, xs);
    forall e | e in OfSession(events, session)
      ensures Stable(ObjectJson(), e)
    {
      FilterMember(InSession(session), events, e);
    }
    StableVerifies(h, ObjectJson(), xs, session);
  }

  /** A ledger of one event with the keys 9 and 10 does not verify unless hashes collide. */
  lemma {:induction false} NineAndTenFail(h: Hash, x: Entry<Object>, nine: int, ten: int)
    requires x.payload == IntKeyed([(9, nine), (10, ten)])
    requires var chain := OfSession(AppendAll(h, ObjectJson(), [x]), x.session);
             NoCollision(h, StoredTexts(chain) + Texts(ObjectJson(), chain))
    ensures !Verifies(h, ObjectJson(), OfSession(AppendAll(h, ObjectJson(), [x]), x.session))
  {
    hide Stable, Survives, Verifies, NoCollision, ObjectJson, Sealed, AppendAll, Filter;
    OneAppended(h, x);
    AppendedVerifiesIffStable(h, ObjectJson(), [x], x.session);
    NineAndTen(nine, ten);
    StableIffSurvives(h, [], x);
  }

  lemma OneAppended(h: Hash, x: Entry<Object>)
    ensures Sealed(h, ObjectJson(), [], x) in OfSession(AppendAll(h, ObjectJson(), [x]), x.session)
  {
    hide Raw, ObjectJson, Filter;
    assert [x][..0] == [];
    var e := Sealed(h, ObjectJson(), [], x);
    assert AppendAll(h, ObjectJson(), []) == [];
    assert AppendAll(h, ObjectJson(), [x]) == [] + [e];
    FilterMember(InSession(x.session), AppendAll(h, ObjectJson(), [x]), e);
  }
}
