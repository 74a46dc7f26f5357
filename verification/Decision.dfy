/** The decision agent of the swarm (swarm/domain/agents/decision_agent.py): ranking, selection, and the explanation
    that files every other supplier as rejected. Evaluation scores and policy verdicts are given with the entries. */
module Decision {
  import opened Basics
  import opened StableSort

  /** An empty reason stands for none. */
  datatype Entry = Entry(supplier: string, score: real, price: real, passed: bool, reason: string)

  datatype Why = PolicyReason(text: string) | LowerScore | HigherPrice | NotSelected

  datatype Rejected = Rejected(entry: Entry, why: Why)

  datatype Outcome = Outcome(ranked: seq<Entry>, selected: Option<string>, rejected: seq<Rejected>)

  function ByScore(): (Entry, Entry) -> bool {
    (a: Entry, b: Entry) => a.score > b.score || (a.score == b.score && a.price <= b.price)
  }

  function Passed(): Entry -> bool { (e: Entry) => e.passed }

  function Select(ranked: seq<Entry>): Option<string> {
    var compliant := Filter(Passed(), ranked);
    if compliant == [] then None else Some(compliant[0].supplier)
  }

  function PolicyWhy(e: Entry): Why { PolicyReason(if e.reason == "" then "Failed policy compliance" else e.reason) }

  // The first ranked entry of the selected supplier.
  function EntryOf(ranked: seq<Entry>, supplier: string): Option<Entry> {
    if ranked == [] then None
    else if ranked[0].supplier == supplier then Some(ranked[0]) else EntryOf(ranked[1..], supplier)
  }

  function WhyNot(winner: Entry, e: Entry): Why {
    if !e.passed then PolicyWhy(e)
    else if e.score < winner.score then LowerScore
    else if e.score == winner.score && e.price > winner.price then HigherPrice
    else NotSelected
  }

  function RejectedAll(ranked: seq<Entry>): seq<Rejected> {
    if ranked == [] then []
    else RejectedAll(ranked[..|ranked| - 1]) + [Rejected(ranked[|ranked| - 1], PolicyWhy(ranked[|ranked| - 1]))]
  }

  function RejectedBut(ranked: seq<Entry>, winner: Entry): seq<Rejected> {
    if ranked == [] then []
    else
      var e := ranked[|ranked| - 1];
      RejectedBut(ranked[..|ranked| - 1], winner)
      + if e.supplier == winner.supplier then [] else [Rejected(e, WhyNot(winner, e))]
  }

  function Explain(ranked: seq<Entry>): seq<Rejected> {
    var selected := Select(ranked);
    if selected.None? then RejectedAll(ranked)
    else
      var winner := EntryOf(ranked, selected.value);
      if winner.None? then [] else RejectedBut(ranked, winner.value)
  }

  function Decide(quotes: seq<Entry>): Outcome {
    var ranked := Sort(ByScore(), quotes);
    Outcome(ranked, Select(ranked), Explain(ranked))
  }

  /** The ranking, selecting and explaining, as the agent does it. */
  method Reason(quotes: seq<Entry>) returns (o: Outcome)
    ensures o == Decide(quotes)
  {
    hide Sort, Filter, WhyNot, PolicyWhy, EntryOf;
    var ranked := Sort(ByScore(), quotes);
    var selected: Option<string> := None;
    assert ranked[0..] == ranked;
    for k := 0 to |ranked|
      invariant selected.None?
      invariant Filter(Passed(), ranked) == Filter(Passed(), ranked[k..])
    {
      FilterStep(Passed(), ranked, k);
      if ranked[k].passed {
        selected := Some(ranked[k].supplier);
        break;
      }
    }
    FilterNothing(Passed(), ranked);
    SelectedEntry(ranked);
    var winner := if selected.Some? then EntryOf(ranked, selected.value) else None;
    var rejected: seq<Rejected> := [];
    for k := 0 to |ranked|
      invariant rejected == if winner.None? then RejectedAll(ranked[..k]) else RejectedBut(ranked[..k], winner.value)
    {
      assert ranked[..k + 1][..k] == ranked[..k];
      var e := ranked[k];
      if winner.None? {
        rejected := rejected + [Rejected(e, PolicyWhy(e))];
      } else if e.supplier != winner.value.supplier {
        rejected := rejected + [Rejected(e, WhyNot(winner.value, e))];
      }
    }
    assert ranked[..|ranked|] == ranked;
    o := Outcome(ranked, selected, rejected);
  }

  lemma {:induction false} EntryOfMeans(ranked: seq<Entry>, supplier: string)
    ensures match EntryOf(ranked, supplier)
            case Some(e) => e in ranked && e.supplier == supplier
            case None => forall e | e in ranked :: e.supplier != supplier
  {
    if ranked != [] {
      EntryOfMeans(ranked[1..], supplier);
      assert ranked == [ranked[0]] + ranked[1..];
    }
  }

  lemma {:induction false} SelectedEntry(ranked: seq<Entry>)
    ensures Select(ranked).Some? ==> EntryOf(ranked, Select(ranked).value).Some?
    ensures Select(ranked).Some? <==> exists e :: e in ranked && e.passed
  {
    var compliant := Filter(Passed(), ranked);
    forall e
      ensures e in compliant <==> e in ranked && e.passed
    {
      FilterMember(Passed(), ranked, e);
    }
    if compliant != [] {
      assert compliant[0] in compliant;
      EntryOfMeans(ranked, compliant[0].supplier);
    }
  }

  lemma {:induction false} FirstCompliant(ranked: seq<Entry>) returns (k: nat)
    requires exists e :: e in ranked && e.passed
    ensures k < |ranked| && ranked[k].passed && Select(ranked) == Some(ranked[k].supplier)
    ensures forall j | 0 <= j < k :: !ranked[j].passed
  {
    if ranked[0].passed {
      k := 0;
    } else {
      var e :| e in ranked && e.passed;
      assert ranked == [ranked[0]] + ranked[1..];
      assert e in ranked[1..];
      k := FirstCompliant(ranked[1..]);
      k := k + 1;
    }
  }

  lemma ByScoreTotal()
    ensures TotalPreorder(ByScore())
  {
  }

  /** A compliant quote that no compliant quote beats on score, nor on price at the same score. */
  ghost predicate BestOf(quotes: seq<Entry>, w: Entry) {
    w in quotes && w.passed && forall e | e in quotes && e.passed :: ByScore()(w, e)
  }

  /** Someone is selected exactly when some quote complies; and then the selected supplier has a compliant quote that no
      compliant quote beats on score, nor on price at the same score. */
  lemma {:induction false} SelectedIsBest(quotes: seq<Entry>)
    ensures var selected := Decide(quotes).selected;
            && (selected.Some? <==> exists e :: e in quotes && e.passed)
            && (selected.Some? ==> exists w: Entry :: w.supplier == selected.value && BestOf(quotes, w))
  {
    hide Sort, Select;
    var ranked := Sort(ByScore(), quotes);
    ByScoreTotal();
    SortSorts(ByScore(), quotes);
    SortMembers(ByScore(), quotes);
    SelectedEntry(ranked);
    if Decide(quotes).selected.Some? {
      var k := FirstCompliant(ranked);
      var w := ranked[k];
      assert w in ranked;
      forall e | e in quotes && e.passed
        ensures ByScore()(w, e)
      {
        assert e in ranked;
        var j :| 0 <= j < |ranked| && ranked[j] == e;
        assert j == k || j > k;
      }
      assert w in quotes;
    }
  }

  predicate DistinctSuppliers(es: seq<Entry>) {
    forall i, j | 0 <= i < j < |es| :: es[i].supplier != es[j].supplier
  }

  predicate InRejected(rejected: seq<Rejected>, e: Entry) { exists x :: x in rejected && x.entry == e }

  lemma {:induction false} RejectedMembers(ranked: seq<Entry>, winner: Entry)
    ensures forall x | x in RejectedBut(ranked, winner) ::
              x.entry in ranked && x.entry.supplier != winner.supplier && x.why == WhyNot(winner, x.entry)
    ensures forall e | e in ranked && e.supplier != winner.supplier ::
              Rejected(e, WhyNot(winner, e)) in RejectedBut(ranked, winner)
    ensures forall x | x in RejectedAll(ranked) :: x.entry in ranked && x.why == PolicyWhy(x.entry)
    ensures forall e | e in ranked :: Rejected(e, PolicyWhy(e)) in RejectedAll(ranked)
    ensures |RejectedAll(ranked)| == |ranked|
  {
    hide WhyNot;
    if ranked != [] {
      var n := |ranked| - 1;
      RejectedMembers(ranked[..n], winner);
      assert ranked == ranked[..n] + [ranked[n]];
    }
  }

  lemma {:induction false} RejectedCount(ranked: seq<Entry>, winner: Entry)
    requires DistinctSuppliers(ranked)
    ensures |RejectedBut(ranked, winner)|
         == |ranked| - if exists e :: e in ranked && e.supplier == winner.supplier then 1 else 0
  {
    if ranked != [] {
      var n := |ranked| - 1;
      RejectedCount(ranked[..n], winner);
      assert ranked == ranked[..n] + [ranked[n]];
      if ranked[n].supplier == winner.supplier {
        assert ranked[n] in ranked;
        assert forall e | e in ranked[..n] :: e.supplier != winner.supplier;
      }
    }
  }

  lemma {:induction false} DistinctSorted(quotes: seq<Entry>)
    requires DistinctSuppliers(quotes)
    ensures DistinctSuppliers(Sort(ByScore(), quotes))
  {
    hide Sort;
    var ranked := Sort(ByScore(), quotes);
    SortPermutes(ByScore(), quotes);
    forall i, j | 0 <= i < j < |ranked|
      ensures ranked[i].supplier != ranked[j].supplier
    {
      assert ranked[i] in multiset(quotes) && ranked[j] in multiset(quotes);
      var a :| 0 <= a < |quotes| && quotes[a] == ranked[i];
      var b :| 0 <= b < |quotes| && quotes[b] == ranked[j];
      if a == b {
        OccursTwice(ranked, i, j);
        OccursOnce(quotes, a);
      }
    }
  }

  lemma OccursTwice(r: seq<Entry>, i: nat, j: nat)
    requires i < j < |r| && r[i] == r[j]
    ensures multiset(r)[r[i]] >= 2
  {
    assert r == r[..j] + [r[j]] + r[j + 1..];
    assert r[..j][i] in multiset(r[..j]);
  }

  lemma OccursOnce(s: seq<Entry>, a: nat)
    requires DistinctSuppliers(s) && a < |s|
    ensures multiset(s)[s[a]] == 1
  {
    assert s == s[..a] + [s[a]] + s[a + 1..];
    assert s[a] !in s[..a] && s[a] !in s[a + 1..];
  }

  /** With one quote per supplier the explanation is complete and truthful: everyone but the selected supplier is
      rejected exactly once; a compliant one is told of a lower score or a higher price exactly when that is so, and
      "not selected" only on a tie in both. */
  lemma {:induction false} ExplanationIsTruthful(quotes: seq<Entry>)
    requires forall i, j | 0 <= i < j < |quotes| :: quotes[i].supplier != quotes[j].supplier
    ensures var o := Decide(quotes);
            && |o.rejected| == |quotes| - (if o.selected.Some? then 1 else 0)
            && (forall e | e in quotes :: InRejected(o.rejected, e) <==> o.selected != Some(e.supplier))
            && (o.selected.None? ==> forall x | x in o.rejected :: !x.entry.passed && PolicySays(x))
            && (o.selected.Some? ==> exists w: Entry ::
                  w.supplier == o.selected.value && BestOf(quotes, w) && forall x | x in o.rejected :: Truthful(w, x))
  {
    assert DistinctSuppliers(quotes);
    hide Sort, Select, RejectedAll, RejectedBut, WhyNot, BestOf, DistinctSuppliers;
    var o := Decide(quotes);
    var ranked := o.ranked;
    SortMembers(ByScore(), quotes);
    DistinctSorted(quotes);
    SelectedEntry(ranked);
    SelectedIsBest(quotes);
    if o.selected.Some? {
      EntryOfMeans(ranked, o.selected.value);
      var winner := EntryOf(ranked, o.selected.value).value;
      RejectedMembers(ranked, winner);
      RejectedCount(ranked, winner);
      var w: Entry :| w.supplier == o.selected.value && BestOf(quotes, w);
      OneOfEach(quotes, w, winner);
      forall x | x in o.rejected
        ensures Truthful(w, x)
      {
        WhyNotTruthful(quotes, w, x.entry);
      }
      forall e | e in quotes
        ensures InRejected(o.rejected, e) <==> o.selected != Some(e.supplier)
      {
        assert e in ranked;
        if e.supplier != winner.supplier {
          assert Rejected(e, WhyNot(winner, e)) in o.rejected;
        }
      }
    } else {
      RejectedMembers(ranked, Entry("", 0.0, 0.0, false, ""));
      forall e | e in quotes
        ensures InRejected(o.rejected, e)
      {
        assert Rejected(e, PolicyWhy(e)) in o.rejected;
      }
    }
  }

  /** The reason given with the entry, or a general one where none was given. */
  predicate PolicySays(x: Rejected) {
    x.why.PolicyReason?
    && (x.why.text == x.entry.reason || (x.entry.reason == "" && x.why.text == "Failed policy compliance"))
    && x.why.text != ""
  }

  predicate Truthful(w: Entry, x: Rejected) {
    && (PolicySays(x) <==> !x.entry.passed)
    && (x.why.PolicyReason? <==> !x.entry.passed)
    && (x.why.LowerScore? <==> x.entry.passed && x.entry.score < w.score)
    && (x.why.HigherPrice? <==> x.entry.passed && x.entry.score == w.score && x.entry.price > w.price)
    && (x.why.NotSelected? <==> x.entry.passed && x.entry.score == w.score && x.entry.price == w.price)
  }

  lemma WhyNotTruthful(quotes: seq<Entry>, w: Entry, e: Entry)
    requires BestOf(quotes, w) && e in quotes
    ensures Truthful(w, Rejected(e, WhyNot(w, e)))
  {
    assert e.passed ==> ByScore()(w, e);
  }

  lemma OneOfEach(quotes: seq<Entry>, w: Entry, v: Entry)
    requires DistinctSuppliers(quotes) && BestOf(quotes, w) && v in quotes && v.supplier == w.supplier
    ensures v == w
  {
  }

  // ---- several quotes of one supplier

  /** The agent looks a score up by supplier, so all quotes of one supplier score alike. */
  predicate ScoredPerSupplier(quotes: seq<Entry>) {
    forall i, j | 0 <= i < |quotes| && 0 <= j < |quotes| && quotes[i].supplier == quotes[j].supplier ::
      quotes[i].score == quotes[j].score
  }

  function Of(supplier: string): Entry -> bool { (e: Entry) => e.supplier == supplier }

  lemma {:induction false} EntryOfIsFirst(ranked: seq<Entry>, supplier: string)
    ensures EntryOf(ranked, supplier)
         == if Filter(Of(supplier), ranked) == [] then None else Some(Filter(Of(supplier), ranked)[0])
  {
    if ranked != [] {
      EntryOfIsFirst(ranked[1..], supplier);
    }
  }

  predicate Before(quotes: seq<Entry>, j: nat, i: nat)
    requires i < |quotes| && j < |quotes|
  {
    quotes[j].price < quotes[i].price || (quotes[j].price == quotes[i].price && j < i)
  }

  /** A non-compliant quote of the supplier is cheaper than each of its compliant ones, or as cheap and listed
      earlier. */
  ghost predicate Undercut(quotes: seq<Entry>, supplier: string) {
    exists j :: 0 <= j < |quotes| && quotes[j].supplier == supplier && !quotes[j].passed
             && forall i | 0 <= i < |quotes| && quotes[i].supplier == supplier && quotes[i].passed ::
                 Before(quotes, j, i)
  }

  /** The compliant quote that comes first: best by score, then price, then position. */
  ghost predicate FirstBest(quotes: seq<Entry>, w: nat) {
    && w < |quotes| && quotes[w].passed
    && forall j | 0 <= j < |quotes| && quotes[j].passed ::
         ByScore()(quotes[w], quotes[j]) && (j < w ==> !ByScore()(quotes[j], quotes[w]))
  }

  /** Where the quote selected and the quote described as the winner stand in the list. */
  lemma {:induction false} SelectedAndDescribed(quotes: seq<Entry>) returns (w: nat, d: nat)
    requires exists e :: e in quotes && e.passed
    ensures w < |quotes| && quotes[w].passed && BestOf(quotes, quotes[w])
    ensures d < |quotes| && quotes[d].supplier == quotes[w].supplier
    ensures var o := Decide(quotes);
            o.selected == Some(quotes[w].supplier) && EntryOf(o.ranked, quotes[w].supplier) == Some(quotes[d])
    ensures forall j | 0 <= j < |quotes| && quotes[j].passed ::
              ByScore()(quotes[w], quotes[j]) && (j < w ==> !ByScore()(quotes[j], quotes[w]))
    ensures forall j | 0 <= j < |quotes| && quotes[j].supplier == quotes[w].supplier ::
              ByScore()(quotes[d], quotes[j]) && (j < d ==> !ByScore()(quotes[j], quotes[d]))
  {
    hide Sort, Filter, EntryOf;
    ByScoreTotal();
    w := FirstHitOfSort(ByScore(), Passed(), quotes);
    assert quotes[w] in quotes && Of(quotes[w].supplier)(quotes[w]);
    d := FirstHitOfSort(ByScore(), Of(quotes[w].supplier), quotes);
    EntryOfIsFirst(Sort(ByScore(), quotes), quotes[w].supplier);
    assert forall e | e in quotes && e.passed :: Passed()(e);
  }

  /** The explanation describes the quote that was selected exactly when no non-compliant quote of that supplier
      undercuts its compliant ones; otherwise it describes a non-compliant quote as the winner. */
  lemma {:induction false} DescribedIsSelectedIff(quotes: seq<Entry>) returns (w: nat, d: nat)
    requires ScoredPerSupplier(quotes) && exists e :: e in quotes && e.passed
    ensures FirstBest(quotes, w) && BestOf(quotes, quotes[w]) && d < |quotes|
    ensures var o := Decide(quotes);
            o.selected == Some(quotes[w].supplier) && EntryOf(o.ranked, quotes[w].supplier) == Some(quotes[d])
    ensures d == w <==> !Undercut(quotes, quotes[w].supplier)
    ensures quotes[d].passed <==> d == w
  {
    hide Decide, EntryOf;
    w, d := SelectedAndDescribed(quotes);
    var s := quotes[w].supplier;
    if d != w {
      assert !quotes[d].passed;
      forall i | 0 <= i < |quotes| && quotes[i].supplier == s && quotes[i].passed
        ensures Before(quotes, d, i)
      {
        assert ByScore()(quotes[d], quotes[i]);
      }
    }
    if Undercut(quotes, s) {
      var j :| 0 <= j < |quotes| && quotes[j].supplier == s && !quotes[j].passed
            && forall i | 0 <= i < |quotes| && quotes[i].supplier == s && quotes[i].passed :: Before(quotes, j, i);
      assert ByScore()(quotes[d], quotes[j]);
      assert Before(quotes, j, w);
    }
  }

  /** A non-compliant quote of the same supplier costs less. */
  predicate Undersold(quotes: seq<Entry>, w: Entry) {
    exists e :: e in quotes && e.supplier == w.supplier && !e.passed && e.price < w.price
  }

  /** A compliant quote of another supplier is as good. */
  predicate TiedElsewhere(quotes: seq<Entry>, w: Entry) { exists e :: e in quotes && TiesElsewhere(w, e) }

  /** Every reason given is true of the selected quote, the first of the best compliant ones, exactly when no
      non-compliant quote of its supplier is strictly cheaper or no compliant quote of another supplier ties with it.
      */
  lemma {:induction false} ReasonsTrueIff(quotes: seq<Entry>, w: nat)
    requires ScoredPerSupplier(quotes) && FirstBest(quotes, w)
    ensures Decide(quotes).selected == Some(quotes[w].supplier) && BestOf(quotes, quotes[w])
    ensures (forall x | x in Decide(quotes).rejected :: Truthful(quotes[w], x))
       <==> !Undersold(quotes, quotes[w]) || !TiedElsewhere(quotes, quotes[w])
    ensures forall e | e in quotes :: InRejected(Decide(quotes).rejected, e) <==> e.supplier != quotes[w].supplier
  {
    assert quotes[w] in quotes;
    var v, d := ReasonsByDescribed(quotes);
    assert ByScore()(quotes[w], quotes[v]) && ByScore()(quotes[v], quotes[w]);
    assert v == w;
    hide Decide, EntryOf, Truthful, InRejected, BestOf;
    DescribedIsCheapest(quotes, w, d);
  }

  lemma DescribedIsCheapest(quotes: seq<Entry>, w: nat, d: nat)
    requires ScoredPerSupplier(quotes) && FirstBest(quotes, w) && d < |quotes|
    requires quotes[d].supplier == quotes[w].supplier
    requires forall j | 0 <= j < |quotes| && quotes[j].supplier == quotes[w].supplier :: ByScore()(quotes[d], quotes[j])
    ensures quotes[d].price == quotes[w].price <==> !Undersold(quotes, quotes[w])
  {
    assert ByScore()(quotes[d], quotes[w]);
    if quotes[d].passed {
      assert ByScore()(quotes[w], quotes[d]);
    }
    if Undersold(quotes, quotes[w]) {
      var e :| e in quotes && e.supplier == quotes[w].supplier && !e.passed && e.price < quotes[w].price;
      var j :| 0 <= j < |quotes| && quotes[j] == e;
      assert ByScore()(quotes[d], quotes[j]);
    } else {
      assert quotes[d] in quotes;
    }
  }

  /** The same by what the described quote costs: only a tie with the selected quote is called a higher price. */
  lemma {:induction false} ReasonsByDescribed(quotes: seq<Entry>) returns (w: nat, d: nat)
    requires ScoredPerSupplier(quotes) && exists e :: e in quotes && e.passed
    ensures FirstBest(quotes, w) && BestOf(quotes, quotes[w])
    ensures d < |quotes| && quotes[d].supplier == quotes[w].supplier
    ensures forall j | 0 <= j < |quotes| && quotes[j].supplier == quotes[w].supplier :: ByScore()(quotes[d], quotes[j])
    ensures Decide(quotes).selected == Some(quotes[w].supplier)
    ensures EntryOf(Decide(quotes).ranked, quotes[w].supplier) == Some(quotes[d])
    ensures (forall x | x in Decide(quotes).rejected :: Truthful(quotes[w], x))
       <==> quotes[d].price == quotes[w].price || forall e | e in quotes :: !TiesElsewhere(quotes[w], e)
    ensures forall e | e in quotes :: InRejected(Decide(quotes).rejected, e) <==> e.supplier != quotes[w].supplier
    ensures forall e | e in quotes && e.supplier != quotes[w].supplier ::
              Rejected(e, WhyNot(quotes[d], e)) in Decide(quotes).rejected
  {
    hide Sort, EntryOf, RejectedBut, WhyNot, BestOf;
    w, d := SelectedAndDescribed(quotes);
    var ranked, rejected := Decide(quotes).ranked, Decide(quotes).rejected;
    SortMembers(ByScore(), quotes);
    RejectedMembers(ranked, quotes[d]);
    assert ByScore()(quotes[d], quotes[w]);
    forall e | e in quotes && e.supplier != quotes[w].supplier
      ensures Rejected(e, WhyNot(quotes[d], e)) in rejected
      ensures Truthful(quotes[w], Rejected(e, WhyNot(quotes[d], e)))
         <==> quotes[d].price == quotes[w].price || !TiesElsewhere(quotes[w], e)
    {
      assert e in ranked;
      ReasonTrue(quotes, quotes[w], quotes[d], e);
    }
    forall x | x in rejected
      ensures x.entry in quotes && x.entry.supplier != quotes[w].supplier && x.why == WhyNot(quotes[d], x.entry)
      ensures x == Rejected(x.entry, WhyNot(quotes[d], x.entry))
    {
    }
  }

  predicate TiesElsewhere(w: Entry, e: Entry) {
    e.passed && e.supplier != w.supplier && e.score == w.score && e.price == w.price
  }

  lemma ReasonTrue(quotes: seq<Entry>, w: Entry, d: Entry, e: Entry)
    requires BestOf(quotes, w) && e in quotes && e.supplier != w.supplier && d.score == w.score && d.price <= w.price
    ensures Truthful(w, Rejected(e, WhyNot(d, e))) <==> d.price == w.price || !TiesElsewhere(w, e)
  {
    assert e.passed ==> ByScore()(w, e);
  }

  /** It happens: a supplier is selected for its compliant quote at 9, and its non-compliant one at 8 is described as
      the winner. */
  lemma {:induction false} TwoQuotesMisexplained()
    ensures var bad, good := Entry("a", 0.7, 8.0, false, "carbon"), Entry("a", 0.7, 9.0, true, "");
            && ScoredPerSupplier([bad, good]) && Undercut([bad, good], "a")
            && Decide([bad, good]).selected == Some("a")
            && EntryOf(Decide([bad, good]).ranked, "a") == Some(bad)
  {
    var bad, good := Entry("a", 0.7, 8.0, false, "carbon"), Entry("a", 0.7, 9.0, true, "");
    var quotes := [bad, good];
    assert quotes[0] == bad && quotes[1] == good && good in quotes;
    assert Before(quotes, 0, 1);
    hide Decide, EntryOf;
    var w, d := DescribedIsSelectedIff(quotes);
  }

  /** And so can a reason be false: a is selected for its compliant quote at 9 over a non-compliant one at 8, and b,
      whose quote ties with it, is told that it costs more. */
  lemma {:induction false} TieMisexplained()
    ensures var bad, good, tied := Entry("a", 0.5, 8.0, false, "carbon"), Entry("a", 0.5, 9.0, true, ""),
                                   Entry("b", 0.5, 9.0, true, "");
            var o := Decide([bad, good, tied]);
            && ScoredPerSupplier([bad, good, tied]) && FirstBest([bad, good, tied], 1)
            && o.selected == Some("a") && Rejected(tied, HigherPrice) in o.rejected
            && !Truthful(good, Rejected(tied, HigherPrice))
  {
    var bad, good, tied := Entry("a", 0.5, 8.0, false, "carbon"), Entry("a", 0.5, 9.0, true, ""),
                           Entry("b", 0.5, 9.0, true, "");
    var quotes := [bad, good, tied];
    assert quotes[0] == bad && quotes[1] == good && quotes[2] == tied && good in quotes && tied in quotes;
    hide Decide, EntryOf;
    var w, d := ReasonsByDescribed(quotes);
    assert w == 1;
    assert ByScore()(quotes[d], quotes[0]);
    assert d == 0;
  }
}
