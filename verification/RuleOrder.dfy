/** When the order of a rule list decides which rule is chosen (swarm/learning/routing.py). The place chosen depends
    only on what the sorts look at: priorities, condition counts, ids and which rules match. */
module RuleOrder {
  import opened Basics
  import opened Routing
  import opened StableSort
  import opened Text

  /** What selection looks at in one rule. */
  datatype Key = Key(priority: int, count: nat, id: Option<string>, hit: bool)

  datatype Item = Item(index: nat, id: string, key: Key)

  function KeyOf(r: Rule, hit: Rule -> bool): Key { Key(r.priority, |r.conditions|, r.ruleId, hit(r)) }

  function Keys(rules: seq<Rule>, hit: Rule -> bool): (keys: seq<Key>)
    ensures |keys| == |rules|
  {
    seq(|rules|, k requires 0 <= k < |rules| => KeyOf(rules[k], hit))
  }

  function IdFor(key: Key, position: nat): string {
    if key.id.Some? then key.id.value else "rule_" + Decimal(position)
  }

  function Items(keys: seq<Key>): (items: seq<Item>)
    ensures |items| == |keys|
  {
    seq(|keys|, k requires 0 <= k < |keys| => Item(k, IdFor(keys[k], k), keys[k]))
  }

  function Renamed(items: seq<Item>): (renamed: seq<Item>)
    ensures |renamed| == |items|
  {
    seq(|items|, k requires 0 <= k < |items| => items[k].(id := IdFor(items[k].key, k)))
  }

  function ItemsById(): (Item, Item) -> bool { (a: Item, b: Item) => StringLe(a.id, b.id) }
  function ItemsByCount(): (Item, Item) -> bool { (a: Item, b: Item) => a.key.count <= b.key.count }
  function ItemsByPriority(): (Item, Item) -> bool { (a: Item, b: Item) => a.key.priority >= b.key.priority }

  function ItemsByPriorityAndId(): (Item, Item) -> bool {
    (a: Item, b: Item) =>
      a.key.priority > b.key.priority || (a.key.priority == b.key.priority && StringLe(a.id, b.id))
  }

  function Hit(): Item -> bool { (x: Item) => x.key.hit }

  /** The places of the matching rules in the order of preference. */
  function Preferred(keys: seq<Key>): seq<Item> {
    var matching := Filter(Hit(), Renamed(Sort(ItemsByPriorityAndId(), Items(keys))));
    Sort(ItemsByPriority(), Sort(ItemsByCount(), Sort(ItemsById(), matching)))
  }

  // ---- sorting commutes with replacing each element by one that compares the same

  function Map<A, B>(f: A -> B, s: seq<A>): (t: seq<B>)
    ensures |t| == |s|
    ensures forall k | 0 <= k < |s| :: t[k] == f(s[k])
  {
    seq(|s|, k requires 0 <= k < |s| => f(s[k]))
  }

  ghost predicate Preserves<A, B>(f: A -> B, le: (A, A) -> bool, le': (B, B) -> bool, s: seq<A>) {
    forall x, y | x in s && y in s :: le(x, y) == le'(f(x), f(y))
  }

  lemma {:induction false} InsertMap<A, B>(f: A -> B, le: (A, A) -> bool, le': (B, B) -> bool, x: A, s: seq<A>)
    requires Preserves(f, le, le', [x] + s)
    ensures Insert(le', f(x), Map(f, s)) == Map(f, Insert(le, x, s))
  {
    if s == [] || le(x, s[0]) {
      assert s != [] ==> x in [x] + s && s[0] in [x] + s;
    } else {
      assert x in [x] + s && s[0] in [x] + s;
      forall y, z | y in [x] + s[1..] && z in [x] + s[1..]
        ensures le(y, z) == le'(f(y), f(z))
      {
        assert y in [x] + s && z in [x] + s;
      }
      InsertMap(f, le, le', x, s[1..]);
      assert Map(f, s)[1..] == Map(f, s[1..]);
    }
  }

  lemma PreservesSorted<A(!new), B>(f: A -> B, le: (A, A) -> bool, le': (B, B) -> bool, s: seq<A>)
    requires s != [] && Preserves(f, le, le', s)
    ensures Preserves(f, le, le', s[1..])
    ensures Preserves(f, le, le', [s[0]] + Sort(le, s[1..]))
  {
    hide Sort;
    var rest := Sort(le, s[1..]);
    SortMembers(le, s[1..]);
    forall x, y | x in [s[0]] + rest && y in [s[0]] + rest
      ensures le(x, y) == le'(f(x), f(y))
    {
      assert x in s[1..] || x == s[0];
      assert y in s[1..] || y == s[0];
      assert x in s && y in s;
    }
  }

  lemma {:induction false} SortMap<A(!new), B>(f: A -> B, le: (A, A) -> bool, le': (B, B) -> bool, s: seq<A>)
    requires Preserves(f, le, le', s)
    ensures Sort(le', Map(f, s)) == Map(f, Sort(le, s))
  {
    hide Preserves;
    if s != [] {
      PreservesSorted(f, le, le', s);
      SortMap(f, le, le', s[1..]);
      assert Map(f, s)[1..] == Map(f, s[1..]);
      InsertMap(f, le, le', s[0], Sort(le, s[1..]));
    }
  }

  lemma {:induction false} FilterMap<A, B>(f: A -> B, p: A -> bool, q: B -> bool, s: seq<A>)
    requires forall x | x in s :: p(x) == q(f(x))
    ensures Filter(q, Map(f, s)) == Map(f, Filter(p, s))
  {
    if s != [] {
      assert s[0] in s;
      FilterMap(f, p, q, s[1..]);
      assert Map(f, s)[1..] == Map(f, s[1..]);
    }
  }

  // ---- the place chosen

  /** The rule an item stands for, under the id it is sorted by. */
  function Standing(rules: seq<Rule>): Item -> Tagged
    requires rules != []
  {
    (x: Item) => Tagged(if x.index < |rules| then rules[x.index] else rules[0], x.id)
  }

  ghost predicate StandFor(rules: seq<Rule>, hit: Rule -> bool, items: seq<Item>) {
    forall x | x in items :: x.index < |rules| && x.key == KeyOf(rules[x.index], hit)
  }

  lemma {:induction false} AllPreserve(rules: seq<Rule>, hit: Rule -> bool, items: seq<Item>)
    requires rules != [] && StandFor(rules, hit, items)
    ensures Preserves(Standing(rules), ItemsById(), ById(), items)
    ensures Preserves(Standing(rules), ItemsByCount(), ByCount(), items)
    ensures Preserves(Standing(rules), ItemsByPriority(), ByPriority(), items)
    ensures Preserves(Standing(rules), ItemsByPriorityAndId(), ByPriorityAndId(), items)
  {
    hide StringLe;
  }

  lemma SortedStand(rules: seq<Rule>, hit: Rule -> bool, le: (Item, Item) -> bool, items: seq<Item>)
    requires StandFor(rules, hit, items)
    ensures StandFor(rules, hit, Sort(le, items))
  {
    hide Sort;
    SortMembers(le, items);
  }

  lemma {:induction false} RenamedStand(rules: seq<Rule>, hit: Rule -> bool, items: seq<Item>)
    requires rules != [] && StandFor(rules, hit, items)
    ensures StandFor(rules, hit, Renamed(items))
    ensures Map(Standing(rules), Renamed(items)) == Tag(Untag(Map(Standing(rules), items)))
  {
    forall x | x in Renamed(items)
      ensures x.index < |rules| && x.key == KeyOf(rules[x.index], hit)
    {
      var k :| 0 <= k < |items| && Renamed(items)[k] == x;
      assert items[k] in items;
    }
    forall k | 0 <= k < |items|
      ensures Map(Standing(rules), Renamed(items))[k] == Tag(Untag(Map(Standing(rules), items)))[k]
    {
      assert items[k] in items;
    }
  }

  /** The rules in the order of preference are those at the preferred places. */
  lemma {:induction false} RankedAtPlaces(rules: seq<Rule>, hit: Rule -> bool)
    requires rules != []
    ensures StandFor(rules, hit, Preferred(Keys(rules, hit)))
    ensures Ranked(Matching(rules, hit)) == Map(Standing(rules), Preferred(Keys(rules, hit)))
  {
    hide Sort, Filter, KeyOf, Standing, StandFor, ItemsById, ItemsByCount, ItemsByPriority, ItemsByPriorityAndId,
      Hit, Map;
    var f, keys := Standing(rules), Keys(rules, hit);
    var items := Items(keys);
    ItemsStand(rules, hit);
    var sorted := Sort(ItemsByPriorityAndId(), items);
    AllPreserve(rules, hit, items);
    SortMap(f, ItemsByPriorityAndId(), ByPriorityAndId(), items);
    SortedStand(rules, hit, ItemsByPriorityAndId(), items);
    RenamedStand(rules, hit, sorted);
    var again := Renamed(sorted);
    MatchingStand(rules, hit, again);
    var matching := Filter(Hit(), again);
    AllPreserve(rules, hit, matching);
    SortMap(f, ItemsById(), ById(), matching);
    SortedStand(rules, hit, ItemsById(), matching);
    var s1 := Sort(ItemsById(), matching);
    AllPreserve(rules, hit, s1);
    SortMap(f, ItemsByCount(), ByCount(), s1);
    SortedStand(rules, hit, ItemsByCount(), s1);
    var s2 := Sort(ItemsByCount(), s1);
    AllPreserve(rules, hit, s2);
    SortMap(f, ItemsByPriority(), ByPriority(), s2);
    SortedStand(rules, hit, ItemsByPriority(), s2);
  }

  lemma ItemsStand(rules: seq<Rule>, hit: Rule -> bool)
    requires rules != []
    ensures StandFor(rules, hit, Items(Keys(rules, hit)))
    ensures Map(Standing(rules), Items(Keys(rules, hit))) == Tag(rules)
  {
  }

  lemma {:induction false} MatchingStand(rules: seq<Rule>, hit: Rule -> bool, items: seq<Item>)
    requires rules != [] && StandFor(rules, hit, items)
    ensures StandFor(rules, hit, Filter(Hit(), items))
    ensures Map(Standing(rules), Filter(Hit(), items))
         == Filter((t: Tagged) => hit(t.rule), Map(Standing(rules), items))
  {
    hide Filter;
    FilterMap(Standing(rules), Hit(), (t: Tagged) => hit(t.rule), items);
    forall x | x in Filter(Hit(), items)
      ensures x in items
    {
      FilterMember(Hit(), items, x);
    }
  }

  /** The chosen rule is the one at a place that the keys alone determine. */
  lemma {:induction false} ChosenAtPlace(rules: seq<Rule>, hit: Rule -> bool)
    requires rules != []
    ensures var places := Preferred(Keys(rules, hit));
            && (places == [] <==> ChooseRule(rules, hit) == None)
            && (places != [] ==> places[0].index < |rules| && hit(rules[places[0].index])
                                 && ChooseRule(rules, hit) == Some(rules[places[0].index]))
  {
    hide Preferred, Ranked, Matching;
    RankedAtPlaces(rules, hit);
    var places := Preferred(Keys(rules, hit));
    if places != [] {
      assert places[0] in places;
      var r := rules[places[0].index];
      assert Map(Standing(rules), places)[0].rule == r;
      ChosenMatches(rules, hit);
    }
  }

  lemma {:induction false} ChosenMatches(rules: seq<Rule>, hit: Rule -> bool)
    ensures ChooseRule(rules, hit).Some? ==> ChooseRule(rules, hit).value in rules && hit(ChooseRule(rules, hit).value)
  {
    hide Ranked, Filter, SortRules;
    var sorted, matching := SortRules(rules), Matching(rules, hit);
    if ChooseRule(rules, hit).Some? {
      if matching == [] {
        RankedEmpty();
      } else {
        FirstPrecedesAll(matching);
        var t := Ranked(matching)[0];
        FilterMember((u: Tagged) => hit(u.rule), Tag(sorted), t);
        SortRulesMembers(rules);
        var k :| 0 <= k < |sorted| && Tag(sorted)[k] == t;
        assert sorted[k] in sorted;
      }
    }
  }

  // ---- when the order of the list matters

  /** Either no rule has an explicit id, as in the tables the learner proposes, or every rule has one. */
  predicate Uniform(rules: seq<Rule>) {
    (forall r | r in rules :: r.ruleId.None?) || (forall r | r in rules :: r.ruleId.Some?)
  }

  /** Higher priority, then fewer conditions, then an explicit id that is no greater. */
  predicate NotAfter(r: Rule, u: Rule) {
    || r.priority > u.priority
    || (r.priority == u.priority
        && (|| |r.conditions| < |u.conditions|
            || (|r.conditions| == |u.conditions|
                && (r.ruleId.None? || u.ruleId.None? || StringLe(r.ruleId.value, u.ruleId.value)))))
  }

  /** A matching rule that comes after no other matching one. */
  ghost predicate Leading(rules: seq<Rule>, hit: Rule -> bool, r: Rule) {
    r in rules && hit(r) && forall u | u in rules && hit(u) :: NotAfter(r, u)
  }

  ghost predicate OrderIrrelevant(rules: seq<Rule>, hit: Rule -> bool) {
    forall shuffled: seq<Rule> | multiset(shuffled) == multiset(rules) ::
      ChooseRule(shuffled, hit) == ChooseRule(rules, hit)
  }

  // Every matching rule is sorted under some id, its own if it has one.
  lemma {:induction false} TaggedMatch(rules: seq<Rule>, hit: Rule -> bool, r: Rule) returns (t: Tagged)
    requires r in rules && hit(r)
    ensures t in Matching(rules, hit) && t.rule == r && (r.ruleId.Some? ==> t.id == r.ruleId.value)
  {
    hide SortRules, Filter;
    var sorted := SortRules(rules);
    SortRulesMembers(rules);
    var k :| 0 <= k < |sorted| && sorted[k] == r;
    t := Tag(sorted)[k];
    FilterMember((u: Tagged) => hit(u.rule), Tag(sorted), t);
  }

  lemma {:induction false} MatchingTagged(rules: seq<Rule>, hit: Rule -> bool, t: Tagged)
    requires t in Matching(rules, hit)
    ensures t.rule in rules && hit(t.rule) && (t.rule.ruleId.Some? ==> t.id == t.rule.ruleId.value)
  {
    hide SortRules, Filter;
    var sorted := SortRules(rules);
    SortRulesMembers(rules);
    FilterMember((u: Tagged) => hit(u.rule), Tag(sorted), t);
    var k :| 0 <= k < |sorted| && Tag(sorted)[k] == t;
    assert sorted[k] in sorted;
  }

  /** Whatever rules have ids, the one chosen leads the matching ones; none is chosen only when none matches. */
  lemma {:induction false} ChosenLeads(rules: seq<Rule>, hit: Rule -> bool)
    ensures match ChooseRule(rules, hit)
            case Some(r) => Leading(rules, hit, r)
            case None => forall r | r in rules :: !hit(r)
  {
    hide Ranked, Matching, StringLe;
    var matching := Matching(rules, hit);
    if matching == [] {
      RankedEmpty();
      forall r | r in rules
        ensures !hit(r)
      {
        if hit(r) {
          var t := TaggedMatch(rules, hit, r);
        }
      }
    } else {
      FirstPrecedesAll(matching);
      var t := Ranked(matching)[0];
      MatchingTagged(rules, hit, t);
      forall u | u in rules && hit(u)
        ensures NotAfter(t.rule, u)
      {
        var v := TaggedMatch(rules, hit, u);
        assert Precedes(t, v);
      }
    }
  }

  lemma LeadersAlike(rules: seq<Rule>, hit: Rule -> bool, r: Rule, s: Rule)
    requires Uniform(rules) && Leading(rules, hit, r) && Leading(rules, hit, s)
    ensures KeyOf(r, hit) == KeyOf(s, hit)
  {
    hide StringLe;
    assert NotAfter(r, s) && NotAfter(s, r);
    if r.ruleId.Some? && s.ruleId.Some? {
      StringLeTotal(r.ruleId.value, s.ruleId.value);
    }
  }

  lemma SwapPermutes(rules: seq<Rule>, i: nat, j: nat)
    requires i < |rules| && j < |rules|
    ensures multiset(rules[i := rules[j]][j := rules[i]]) == multiset(rules)
  {
  }

  /** Of a list in which all rules or none have explicit ids, the order decides which rule is chosen exactly when two
      different rules lead: equal in priority and in their number of conditions and, with ids, in these. */
  lemma {:induction false} OrderIrrelevantIff(rules: seq<Rule>, hit: Rule -> bool)
    requires (forall r | r in rules :: r.ruleId.None?) || (forall r | r in rules :: r.ruleId.Some?)
    ensures OrderIrrelevant(rules, hit)
       <==> forall r, s | Leading(rules, hit, r) && Leading(rules, hit, s) :: r == s
  {
    hide ChooseRule, Leading;
    if r, s :| Leading(rules, hit, r) && Leading(rules, hit, s) && r != s {
      TwoLeadersMatter(rules, hit, r, s);
    } else {
      forall shuffled: seq<Rule> | multiset(shuffled) == multiset(rules)
        ensures ChooseRule(shuffled, hit) == ChooseRule(rules, hit)
      {
        ChosenLeads(rules, hit);
        ChosenLeads(shuffled, hit);
        SameLeaders(rules, shuffled, hit);
      }
    }
  }

  lemma SameLeaders(rules: seq<Rule>, shuffled: seq<Rule>, hit: Rule -> bool)
    requires multiset(shuffled) == multiset(rules)
    ensures forall r :: Leading(shuffled, hit, r) <==> Leading(rules, hit, r)
    ensures forall r | Leading(rules, hit, r) :: r in rules && r in shuffled && hit(r)
    ensures forall r :: r in rules <==> r in shuffled
  {
    hide NotAfter;
    SameMembers(shuffled, rules);
  }

  lemma {:induction false} TwoLeadersMatter(rules: seq<Rule>, hit: Rule -> bool, r: Rule, s: Rule)
    requires Uniform(rules) && Leading(rules, hit, r) && Leading(rules, hit, s) && r != s
    ensures !OrderIrrelevant(rules, hit)
  {
    hide ChooseRule, Preferred, Uniform, NotAfter;
    ChosenLeads(rules, hit);
    ChosenAtPlace(rules, hit);
    var i := Preferred(Keys(rules, hit))[0].index;
    var u := if rules[i] == r then s else r;
    var j :| 0 <= j < |rules| && rules[j] == u;
    var swapped := rules[i := u][j := rules[i]];
    SwapPermutes(rules, i, j);
    LeadersAlike(rules, hit, rules[i], u);
    assert Keys(swapped, hit) == Keys(rules, hit);
    ChosenAtPlace(swapped, hit);
    assert ChooseRule(swapped, hit) == Some(u) && ChooseRule(rules, hit) == Some(rules[i]);
  }
}
