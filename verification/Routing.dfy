/** Rule selection for routing strategies (swarm/learning/routing.py). Whether a rule's conditions hold
    in the trace's context is any predicate of the rule. */
module Routing {
  import opened Basics
  import opened StableSort
  import opened Text
  import P = Params

  type Overrides = map<string, real>

  datatype Rule = Rule(conditions: map<string, string>, strategy: string, priority: int,
                       ruleId: Option<string>, overrides: Overrides)

  datatype Strategy =
    | Single(kind: string)
    | RoutingTable(rules: seq<Rule>, default: string)

  const STRATEGY_TYPES: seq<string> := ["balanced", "cost_optimized", "quality_first", "trust_weighted"]
  const MAX_ROUTING_RULES := 3
  const MAX_PARAMS_PER_RULE := 2
  const PARAM_KEYS: seq<string> :=
    ["confidence_threshold", "stability_threshold", "trust_threshold", "price_weight", "score_weight", "carbon_weight"]
  const CONDITION_KEYS: seq<string> := ["budget_level", "urgency", "supplier_count"]

  // A rule with the id it is sorted by at that moment.
  datatype Tagged = Tagged(rule: Rule, id: string)

  // A rule without an explicit id is named after its position in the list at hand.
  function IdAt(r: Rule, position: nat): string {
    if r.ruleId.Some? then r.ruleId.value else "rule_" + Decimal(position)
  }

  function Tag(rules: seq<Rule>): (tagged: seq<Tagged>)
    ensures |tagged| == |rules|
  {
    seq(|rules|, k requires 0 <= k < |rules| => Tagged(rules[k], IdAt(rules[k], k)))
  }

  function Untag(tagged: seq<Tagged>): (rules: seq<Rule>)
    ensures |rules| == |tagged|
  {
    seq(|tagged|, k requires 0 <= k < |tagged| => tagged[k].rule)
  }

  function ById(): (Tagged, Tagged) -> bool { (a: Tagged, b: Tagged) => StringLe(a.id, b.id) }
  function ByCount(): (Tagged, Tagged) -> bool { (a: Tagged, b: Tagged) => |a.rule.conditions| <= |b.rule.conditions| }
  function ByPriority(): (Tagged, Tagged) -> bool { (a: Tagged, b: Tagged) => a.rule.priority >= b.rule.priority }

  function ByPriorityAndId(): (Tagged, Tagged) -> bool {
    (a: Tagged, b: Tagged) =>
      a.rule.priority > b.rule.priority || (a.rule.priority == b.rule.priority && StringLe(a.id, b.id))
  }

  function SortRules(rules: seq<Rule>): seq<Rule> {
    Untag(Sort(ByPriorityAndId(), Tag(rules)))
  }

  function Matching(rules: seq<Rule>, hit: Rule -> bool): seq<Tagged> {
    Filter((t: Tagged) => hit(t.rule), Tag(SortRules(rules)))
  }

  // Three stable sorts, the least significant key first.
  function Ranked(matching: seq<Tagged>): seq<Tagged> {
    Sort(ByPriority(), Sort(ByCount(), Sort(ById(), matching)))
  }

  datatype Decision = Decision(kind: string, overrides: Overrides)

  function DefaultKind(default: string): string {
    if default in STRATEGY_TYPES then default else "balanced"
  }

  function ChooseRule(rules: seq<Rule>, hit: Rule -> bool): Option<Rule> {
    var ranked := Ranked(Matching(rules, hit));
    if ranked == [] then None else Some(ranked[0].rule)
  }

  function SelectFromTable(rules: seq<Rule>, default: string, hit: Rule -> bool): Decision {
    match ChooseRule(rules, hit)
    case None => Decision(DefaultKind(default), map[])
    case Some(r) =>
      Decision(if r.strategy in STRATEGY_TYPES then r.strategy else DefaultKind(default), r.overrides)
  }

  function SelectStrategy(s: Strategy, hit: Rule -> bool): Option<Decision> {
    match s
    case Single(kind) => if kind in STRATEGY_TYPES then Some(Decision(kind, map[])) else None
    case RoutingTable(rules, default) => Some(SelectFromTable(rules, default, hit))
  }

  // ---- the sorts are sorts

  lemma OrdersAreTotal()
    ensures TotalPreorder(ById()) && TotalPreorder(ByCount()) && TotalPreorder(ByPriority())
  {
    forall a: Tagged, b: Tagged
      ensures StringLe(a.id, b.id) || StringLe(b.id, a.id)
    {
      StringLeTotal(a.id, b.id);
    }
    forall a: Tagged, b: Tagged, c: Tagged | StringLe(a.id, b.id) && StringLe(b.id, c.id)
      ensures StringLe(a.id, c.id)
    {
      StringLeTransitive(a.id, b.id, c.id);
    }
    assert TotalPreorder(ById());
  }

  /** Higher priority first, then fewer conditions, then the smaller id. */
  predicate Precedes(a: Tagged, b: Tagged) {
    || a.rule.priority > b.rule.priority
    || (a.rule.priority == b.rule.priority
        && (|| |a.rule.conditions| < |b.rule.conditions|
            || (|a.rule.conditions| == |b.rule.conditions| && StringLe(a.id, b.id))))
  }

  /** The chain of stable sorts puts first a matching rule that precedes all the others. */
  lemma {:induction false} FirstPrecedesAll(matching: seq<Tagged>)
    requires matching != []
    ensures Ranked(matching) != [] && Ranked(matching)[0] in matching
    ensures forall t | t in matching :: Precedes(Ranked(matching)[0], t)
  {
    hide Sort;
    OrdersAreTotal();
    var s1 := Sort(ById(), matching);
    var s2 := Sort(ByCount(), s1);
    var s3 := Sort(ByPriority(), s2);
    SortSorts(ById(), matching);
    SortRefines(ByCount(), ById(), s1);
    SortRefines(ByPriority(), Lexicographic(ByCount(), ById()), s2);
    SortMembers(ById(), matching);
    SortMembers(ByCount(), s1);
    SortMembers(ByPriority(), s2);
    assert s3[0] in s3;
    forall t | t in matching
      ensures Precedes(s3[0], t)
    {
      assert t in s3;
      var k :| 0 <= k < |s3| && s3[k] == t;
      if k == 0 {
        StringLeTotal(t.id, t.id);
      } else {
        assert Lexicographic(ByPriority(), Lexicographic(ByCount(), ById()))(s3[0], s3[k]);
      }
    }
  }

  // ---- with distinct explicit ids the order of the list does not matter

  predicate DistinctIds(rules: seq<Rule>) {
    && (forall k | 0 <= k < |rules| :: rules[k].ruleId.Some?)
    && (forall i, j | 0 <= i < j < |rules| :: rules[i].ruleId != rules[j].ruleId)
  }

  lemma {:induction false} SortRulesMembers(rules: seq<Rule>)
    ensures forall r :: r in SortRules(rules) <==> r in rules
  {
    hide Sort;
    var tagged := Tag(rules);
    var s := Sort(ByPriorityAndId(), tagged);
    SortMembers(ByPriorityAndId(), tagged);
    forall r
      ensures r in SortRules(rules) <==> r in rules
    {
      if r in rules {
        var k :| 0 <= k < |rules| && rules[k] == r;
        assert tagged[k] in s;
        var m :| 0 <= m < |s| && s[m] == tagged[k];
        assert Untag(s)[m] == r;
      }
      if r in SortRules(rules) {
        var m :| 0 <= m < |s| && Untag(s)[m] == r;
        assert s[m] in tagged;
      }
    }
  }

  lemma {:induction false} MatchingMembers(rules: seq<Rule>, hit: Rule -> bool, t: Tagged)
    requires forall k | 0 <= k < |rules| :: rules[k].ruleId.Some?
    ensures t in Matching(rules, hit) <==> t.rule in rules && hit(t.rule) && t.rule.ruleId == Some(t.id)
  {
    hide Sort;
    var sorted := SortRules(rules);
    SortRulesMembers(rules);
    FilterMember((u: Tagged) => hit(u.rule), Tag(sorted), t);
    if t.rule in sorted && t.rule.ruleId == Some(t.id) {
      var k :| 0 <= k < |sorted| && sorted[k] == t.rule;
      assert Tag(sorted)[k] == t;
    }
    if t in Tag(sorted) {
      var k :| 0 <= k < |sorted| && Tag(sorted)[k] == t;
      assert sorted[k] in sorted;
    }
  }

  lemma {:induction false} ChosenIsLeast(rules: seq<Rule>, hit: Rule -> bool) returns (t: Tagged)
    requires DistinctIds(rules) && Matching(rules, hit) != []
    ensures ChooseRule(rules, hit) == Some(t.rule)
    ensures t.rule in rules && hit(t.rule) && t.rule.ruleId == Some(t.id)
    ensures forall u: Tagged | u.rule in rules && hit(u.rule) && u.rule.ruleId == Some(u.id) :: Precedes(t, u)
  {
    hide Matching, Ranked, Precedes;
    FirstPrecedesAll(Matching(rules, hit));
    t := Ranked(Matching(rules, hit))[0];
    MatchingMembers(rules, hit, t);
    forall u: Tagged | u.rule in rules && hit(u.rule) && u.rule.ruleId == Some(u.id)
      ensures Precedes(t, u)
    {
      MatchingMembers(rules, hit, u);
    }
  }

  lemma PrecedesBothWays(t: Tagged, u: Tagged)
    requires Precedes(t, u) && Precedes(u, t)
    ensures t.id == u.id
  {
    StringLeTotal(t.id, u.id);
  }

  /** Reordering a rule list with distinct explicit ids changes neither the strategy nor the overrides. */
  lemma {:induction false} OrderIrrelevantWithDistinctIds(rules: seq<Rule>, shuffled: seq<Rule>, default: string,
                                                          hit: Rule -> bool)
    requires DistinctIds(rules) && DistinctIds(shuffled)
    requires forall r :: r in rules <==> r in shuffled
    ensures SelectFromTable(rules, default, hit) == SelectFromTable(shuffled, default, hit)
  {
    hide Matching, Ranked, Precedes;
    var a, b := Matching(rules, hit), Matching(shuffled, hit);
    if a != [] {
      MatchingMembers(rules, hit, a[0]);
      MatchingMembers(shuffled, hit, a[0]);
      assert b != [];
      var t := ChosenIsLeast(rules, hit);
      var u := ChosenIsLeast(shuffled, hit);
      PrecedesBothWays(t, u);
      SameIdSameRule(rules, t.rule, u.rule);
    } else if b != [] {
      MatchingMembers(rules, hit, b[0]);
      MatchingMembers(shuffled, hit, b[0]);
    } else {
      RankedEmpty();
    }
  }

  lemma SameIdSameRule(rules: seq<Rule>, r: Rule, s: Rule)
    requires DistinctIds(rules) && r in rules && s in rules && r.ruleId == s.ruleId
    ensures r == s
  {
  }

  lemma RankedEmpty()
    ensures Ranked([]) == []
  {
  }

  /** Without explicit ids it can: of two such rules with equal rank the one listed first wins. */
  lemma {:induction false} FirstListedWinsWithoutIds(r: Rule, s: Rule, hit: Rule -> bool)
    requires r.ruleId.None? && s.ruleId.None? && hit(r) && hit(s)
    requires r.priority == s.priority && |r.conditions| == |s.conditions|
    ensures ChooseRule([r, s], hit) == Some(r) && ChooseRule([s, r], hit) == Some(s)
  {
    ChooseFirstOfTwo(r, s, hit);
    ChooseFirstOfTwo(s, r, hit);
  }

  lemma {:induction false} ChooseFirstOfTwo(r: Rule, s: Rule, hit: Rule -> bool)
    requires r.ruleId.None? && s.ruleId.None? && hit(r) && hit(s)
    requires r.priority == s.priority && |r.conditions| == |s.conditions|
    ensures ChooseRule([r, s], hit) == Some(r)
  {
    var t, u := Tagged(r, "rule_" + Decimal(0)), Tagged(s, "rule_" + Decimal(1));
    assert Tag([r, s]) == [t, u];
    SuffixOrder("rule_", Decimal(0), Decimal(1));
    AlreadySorted(ByPriorityAndId(), t, u);
    AlreadySorted(ById(), t, u);
    AlreadySorted(ByPriority(), t, u);
    AlreadySorted(ByCount(), t, u);
    assert Untag([t, u]) == [r, s];
    FilterAll((v: Tagged) => hit(v.rule), t, u);
    assert Matching([r, s], hit) == [t, u];
  }

  lemma {:induction false} FilterAll(p: Tagged -> bool, t: Tagged, u: Tagged)
    requires p(t) && p(u)
    ensures Filter(p, [t, u]) == [t, u]
  {
    assert [t, u][1..] == [u] && [u][1..] == [];
    assert Filter(p, [u]) == [u];
  }

  lemma {:induction false} AlreadySorted(le: (Tagged, Tagged) -> bool, t: Tagged, u: Tagged)
    requires le(t, u)
    ensures Sort(le, [t, u]) == [t, u]
  {
    assert [t, u][1..] == [u] && [u][1..] == [];
    assert Sort(le, [u]) == [u];
  }

  lemma {:induction false} SuffixOrder(prefix: string, a: string, b: string)
    ensures StringLe(prefix + a, prefix + b) == StringLe(a, b)
  {
    if prefix == [] {
      assert prefix + a == a && prefix + b == b;
    } else {
      SuffixOrder(prefix[1..], a, b);
      assert (prefix + a)[1..] == prefix[1..] + a && (prefix + b)[1..] == prefix[1..] + b;
    }
  }

  // ---- validation

  function Abs(x: real): real { if x < 0.0 then -x else x }

  const ZERO_TOLERANCE := 0.000000000001
  const DELTA_TOLERANCE := 0.000000001

  const PARAM_OVERRIDE_DELTA := 0.10
  const TOTAL_DELTA_CAP := 0.15

  /** At most two known parameters, each moved by a non-zero delta of at most 0.10, together at most 0.15. */
  predicate ValidOverrides(o: Overrides) {
    && |o| <= MAX_PARAMS_PER_RULE
    && (forall k | k in o :: k in PARAM_KEYS && ZERO_TOLERANCE <= Abs(o[k]) <= PARAM_OVERRIDE_DELTA + DELTA_TOLERANCE)
    && forall k, m | k in o && m in o && k != m :: Abs(o[k]) + Abs(o[m]) <= TOTAL_DELTA_CAP + DELTA_TOLERANCE
  }

  predicate ValidStrategy(s: Strategy) {
    match s
    case Single(kind) => kind in STRATEGY_TYPES
    case RoutingTable(rules, default) =>
      && |rules| <= MAX_ROUTING_RULES
      && default in STRATEGY_TYPES
      && forall k | 0 <= k < |rules| ::
           && rules[k].conditions != map[]
           && (forall c | c in rules[k].conditions :: c in CONDITION_KEYS)
           && rules[k].strategy in STRATEGY_TYPES
           && ValidOverrides(rules[k].overrides)
  }

  /** The sum of the absolute deltas of some of the keys. */
  ghost predicate IsTotal(o: Overrides, keys: set<string>, total: real) {
    && keys <= o.Keys
    && (keys == {} ==> total == 0.0)
    && (forall k | keys == {k} :: total == Abs(o[k]))
    && (forall k, m | k != m && keys == {k, m} :: total == Abs(o[k]) + Abs(o[m]))
  }

  lemma TotalMore(o: Overrides, keys: set<string>, total: real, key: string)
    requires IsTotal(o, keys, total) && key in o && key !in keys && |o.Keys| <= 2
    ensures IsTotal(o, keys + {key}, total + Abs(o[key]))
  {
    hide Abs;
    var more := keys + {key};
    AtMostTwo(o.Keys, keys, key);
    if keys == {} {
      assert more == {key};
    } else {
      var k :| k in keys;
      assert keys == {k};
      assert more == {k, key};
    }
  }

  lemma AtMostTwo(all: set<string>, keys: set<string>, key: string)
    requires keys <= all && key in all && key !in keys && |all| <= 2
    ensures forall k | k in keys :: keys == {k}
  {
    forall k | k in keys
      ensures keys == {k}
    {
      if m :| m in keys && m != k {
        Cardinality({k, m, key}, all);
      }
    }
  }

  lemma Cardinality(some: set<string>, all: set<string>)
    requires some <= all
    ensures |some| <= |all|
  {
    if some != {} {
      var x :| x in some;
      Cardinality(some - {x}, all - {x});
    }
  }

  lemma TwoKeys(o: Overrides, total: real, k: string, m: string)
    requires IsTotal(o, o.Keys, total) && |o.Keys| <= 2 && k in o && m in o && k != m
    ensures total == Abs(o[k]) + Abs(o[m])
  {
    forall x | x in o
      ensures x == k || x == m
    {
      if x != k && x != m {
        Cardinality({k, m, x}, o.Keys);
      }
    }
    assert o.Keys == {k, m};
  }

  method ValidateParamOverrides(o: Overrides) returns (ok: bool)
    ensures ok == ValidOverrides(o)
  {
    hide Abs;
    assert |o| == |o.Keys|;
    if |o| > MAX_PARAMS_PER_RULE { return false; }
    var total, left := 0.0, o.Keys;
    while left != {}
      invariant left <= o.Keys && IsTotal(o, o.Keys - left, total)
      invariant forall k | k in o.Keys - left ::
                  k in PARAM_KEYS && ZERO_TOLERANCE <= Abs(o[k]) <= PARAM_OVERRIDE_DELTA + DELTA_TOLERANCE
      decreases left
    {
      var key :| key in left;
      if key !in PARAM_KEYS { return false; }
      if Abs(o[key]) < ZERO_TOLERANCE { return false; }
      if Abs(o[key]) > PARAM_OVERRIDE_DELTA + DELTA_TOLERANCE { return false; }
      TotalMore(o, o.Keys - left, total, key);
      assert o.Keys - left + {key} == o.Keys - (left - {key});
      total := total + Abs(o[key]);
      left := left - {key};
    }
    assert o.Keys - {} == o.Keys;
    ok := total <= TOTAL_DELTA_CAP + DELTA_TOLERANCE;
    TotalDecides(o, total);
  }

  lemma TotalDecides(o: Overrides, total: real)
    requires IsTotal(o, o.Keys, total) && |o.Keys| == |o| <= MAX_PARAMS_PER_RULE
    requires forall k | k in o ::
               k in PARAM_KEYS && ZERO_TOLERANCE <= Abs(o[k]) <= PARAM_OVERRIDE_DELTA + DELTA_TOLERANCE
    ensures ValidOverrides(o) <==> total <= TOTAL_DELTA_CAP + DELTA_TOLERANCE
  {
    hide Abs;
    if k, m :| k in o && m in o && k != m {
      forall k, m | k in o && m in o && k != m
        ensures total == Abs(o[k]) + Abs(o[m])
      {
        TwoKeys(o, total, k, m);
      }
    } else if k :| k in o {
      assert o.Keys == {k};
    } else {
      assert o.Keys == {};
    }
  }

  method ValidateRoutingStrategy(s: Strategy) returns (ok: bool)
    ensures ok == ValidStrategy(s)
  {
    hide ValidOverrides;
    if s.Single? { return s.kind in STRATEGY_TYPES; }
    if |s.rules| > MAX_ROUTING_RULES { return false; }
    if s.default !in STRATEGY_TYPES { return false; }
    for k := 0 to |s.rules|
      invariant forall j | 0 <= j < k ::
                  && s.rules[j].conditions != map[]
                  && (forall c | c in s.rules[j].conditions :: c in CONDITION_KEYS)
                  && s.rules[j].strategy in STRATEGY_TYPES
                  && ValidOverrides(s.rules[j].overrides)
    {
      var rule := s.rules[k];
      if rule.conditions == map[] { return false; }
      if exists c :: c in rule.conditions.Keys && c !in CONDITION_KEYS { return false; }
      if rule.strategy !in STRATEGY_TYPES { return false; }
      var valid := ValidateParamOverrides(rule.overrides);
      if !valid { return false; }
    }
    return true;
  }

  predicate KnownKind(kind: string) {
    kind == "balanced" || kind == "cost_optimized" || kind == "quality_first" || kind == "trust_weighted"
  }

  /** The delta of one override: at least 1e-12 and, but for 1e-9, at most 0.10, up or down. */
  predicate SmallDelta(d: real) {
    0.000000000001 <= d <= 0.100000001 || -0.100000001 <= d <= -0.000000000001
  }

  /** When overrides of no, one and two parameters are valid. */
  lemma {:induction false} ValidMeans(k: string, m: string, d: real, e: real)
    requires k != m
    ensures ValidOverrides(map[]) && (ValidOverrides(map[k := d]) <==> k in PARAM_KEYS && SmallDelta(d))
    ensures ValidOverrides(map[k := d, m := e])
       <==> && k in PARAM_KEYS && m in PARAM_KEYS && SmallDelta(d) && SmallDelta(e)
            && -0.150000001 <= d + e <= 0.150000001 && -0.150000001 <= d - e <= 0.150000001
  {
    var two := map[k := d, m := e];
    assert two.Keys == {k, m} && |two| == |two.Keys| == 2;
    assert map[k := d].Keys == {k} && |map[k := d]| == |map[k := d].Keys| == 1;
    assert two[k] == d && two[m] == e;
    TwoDeltas(d, e);
    assert ValidOverrides(two) ==> Abs(two[k]) + Abs(two[m]) <= TOTAL_DELTA_CAP + DELTA_TOLERANCE;
  }

  /** When a table of one rule is valid; it may have that rule three times and no more. */
  lemma {:induction false} ValidTableMeans(rule: Rule, default: string)
    ensures ValidStrategy(RoutingTable([rule], default))
       <==> && KnownKind(default) && KnownKind(rule.strategy) && ValidOverrides(rule.overrides)
            && rule.conditions != map[]
            && forall c | c in rule.conditions :: c == "budget_level" || c == "urgency" || c == "supplier_count"
    ensures ValidStrategy(RoutingTable([rule, rule, rule], default)) <==> ValidStrategy(RoutingTable([rule], default))
    ensures !ValidStrategy(RoutingTable([rule, rule, rule, rule], default))
  {
    hide ValidOverrides;
    KnownKinds(default);
    KnownKinds(rule.strategy);
    var once, thrice := [rule], [rule, rule, rule];
    assert once[0] == rule && thrice[0] == rule && forall k | 0 <= k < 3 :: thrice[k] == once[0];
    forall c
      ensures c in CONDITION_KEYS <==> c == "budget_level" || c == "urgency" || c == "supplier_count"
    {
    }
  }

  lemma KnownKinds(kind: string)
    ensures KnownKind(kind) <==> kind in STRATEGY_TYPES
  {
  }

  lemma TwoDeltas(d: real, e: real)
    ensures SmallDelta(d) <==> ZERO_TOLERANCE <= Abs(d) <= PARAM_OVERRIDE_DELTA + DELTA_TOLERANCE
    ensures Abs(d) + Abs(e) <= TOTAL_DELTA_CAP + DELTA_TOLERANCE
       <==> -0.150000001 <= d + e <= 0.150000001 && -0.150000001 <= d - e <= 0.150000001
  {
  }

  /** A table yields the strategy and the overrides of the rule it chooses; without one, or where that rule names no
      known strategy, its default, or balanced where that is not known either; without a rule there are no overrides. A
      single strategy is chosen as it is if it is known and refused if not. */
  lemma SelectionMeans(rules: seq<Rule>, default: string, hit: Rule -> bool)
    ensures var d, r := SelectFromTable(rules, default, hit), ChooseRule(rules, hit);
            && d.overrides == (if r.Some? then r.value.overrides else map[])
            && d.kind == if r.Some? && KnownKind(r.value.strategy) then r.value.strategy
                         else if KnownKind(default) then default else "balanced"
    ensures SelectStrategy(RoutingTable(rules, default), hit) == Some(SelectFromTable(rules, default, hit))
    ensures SelectStrategy(Single(default), hit)
         == if KnownKind(default) then Some(Decision(default, map[])) else None
  {
    hide ChooseRule;
    KnownKinds(default);
    var r := ChooseRule(rules, hit);
    if r.Some? { KnownKinds(r.value.strategy); }
  }

  /** A valid strategy always yields one of the known strategy types, with overrides within bounds. */
  lemma {:induction false} ValidStrategySelectsKnown(s: Strategy, hit: Rule -> bool)
    requires ValidStrategy(s)
    ensures SelectStrategy(s, hit).Some?
    ensures SelectStrategy(s, hit).value.kind in STRATEGY_TYPES
    ensures ValidOverrides(SelectStrategy(s, hit).value.overrides)
  {
    hide Sort, Filter;
    if s.RoutingTable? && Matching(s.rules, hit) != [] {
      var matching := Matching(s.rules, hit);
      FirstPrecedesAll(matching);
      var t := Ranked(matching)[0];
      FilterMember((u: Tagged) => hit(u.rule), Tag(SortRules(s.rules)), t);
      SortRulesMembers(s.rules);
      assert t.rule in SortRules(s.rules);
    } else if s.RoutingTable? {
      RankedEmpty();
    }
  }

  // ---- applying the overrides of a matched rule

  function DeltaFor(o: Overrides, key: string): real { if key in o then o[key] else 0.0 }

  function Shifted(t: P.Thresholds, w: P.Weights, o: Overrides): (P.Thresholds, P.Weights) {
    (P.Thresholds(t.confidence + DeltaFor(o, "confidence_threshold"), t.stability + DeltaFor(o, "stability_threshold"),
                  t.trust + DeltaFor(o, "trust_threshold")),
     P.Weights(w.price + DeltaFor(o, "price_weight"), w.score + DeltaFor(o, "score_weight"),
               w.carbon + DeltaFor(o, "carbon_weight")))
  }

  function Overridden(t: P.Thresholds, w: P.Weights, o: Overrides): (P.Thresholds, P.Weights) {
    var s := Shifted(t, w, o);
    (P.ClampThresholds(s.0), P.ClampWeights(s.1))
  }

  // The parameters after one key's delta was added.
  function ShiftedBy(s: (P.Thresholds, P.Weights), key: string, delta: real): (P.Thresholds, P.Weights) {
    if key == "confidence_threshold" then (s.0.(confidence := s.0.confidence + delta), s.1)
    else if key == "stability_threshold" then (s.0.(stability := s.0.stability + delta), s.1)
    else if key == "trust_threshold" then (s.0.(trust := s.0.trust + delta), s.1)
    else if key == "price_weight" then (s.0, s.1.(price := s.1.price + delta))
    else if key == "score_weight" then (s.0, s.1.(score := s.1.score + delta))
    else if key == "carbon_weight" then (s.0, s.1.(carbon := s.1.carbon + delta))
    else s
  }

  lemma ShiftOneMore(t: P.Thresholds, w: P.Weights, o: Overrides, key: string)
    requires key in o
    ensures ShiftedBy(Shifted(t, w, o - {key}), key, o[key]) == Shifted(t, w, o)
  {
  }

  /** Every key moves its own parameter and nothing else, before the clamps: with one key named the parameters move by
      its delta, an unknown key moves nothing, and naming another key as well adds its move to that. */
  lemma {:induction false} KeyMovesItsOwn(t: P.Thresholds, w: P.Weights, d: real, o: Overrides, key: string)
    ensures var clamped := P.ClampThresholds(t);
            && Overridden(t, w, map["confidence_threshold" := d])
               == (P.ClampThresholds(P.Thresholds(t.confidence + d, t.stability, t.trust)), P.ClampWeights(w))
            && Overridden(t, w, map["stability_threshold" := d])
               == (P.ClampThresholds(P.Thresholds(t.confidence, t.stability + d, t.trust)), P.ClampWeights(w))
            && Overridden(t, w, map["trust_threshold" := d])
               == (P.ClampThresholds(P.Thresholds(t.confidence, t.stability, t.trust + d)), P.ClampWeights(w))
            && Overridden(t, w, map["price_weight" := d])
               == (clamped, P.ClampWeights(P.Weights(w.price + d, w.score, w.carbon)))
            && Overridden(t, w, map["score_weight" := d])
               == (clamped, P.ClampWeights(P.Weights(w.price, w.score + d, w.carbon)))
            && Overridden(t, w, map["carbon_weight" := d])
               == (clamped, P.ClampWeights(P.Weights(w.price, w.score, w.carbon + d)))
    ensures key !in PARAM_KEYS ==> Overridden(t, w, map[key := d]) == (P.ClampThresholds(t), P.ClampWeights(w))
    ensures key in o ==>
              var s := Shifted(t, w, o - {key});
              Overridden(t, w, o) == Overridden(s.0, s.1, map[key := o[key]])
  {
    hide P.ClampThresholds, P.ClampWeights;
    if key in o {
      ShiftOneMore(t, w, o, key);
    }
  }

  /** The execution context: whether overrides were already applied in it. */
  class OverrideContext {
    var applied: bool

    constructor ()
      ensures !applied
    {
      applied := false;
    }

    method ApplyParamOverrides(t: P.Thresholds, w: P.Weights, o: Overrides) returns (r: (P.Thresholds, P.Weights))
      modifies this
      ensures r == if old(applied) then (t, w) else Overridden(t, w, o)
      ensures applied
    {
      if applied { return (t, w); }
      r := (t, w);
      var done: Overrides, left := map[], o.Keys;
      while left != {}
        invariant left <= o.Keys && done == o - left && r == Shifted(t, w, done)
        decreases left
      {
        var key :| key in left;
        ShiftOneMore(t, w, done[key := o[key]], key);
        assert done[key := o[key]] - {key} == done;
        if key == "confidence_threshold" {
          r := (r.0.(confidence := r.0.confidence + o[key]), r.1);
        } else if key == "stability_threshold" {
          r := (r.0.(stability := r.0.stability + o[key]), r.1);
        } else if key == "trust_threshold" {
          r := (r.0.(trust := r.0.trust + o[key]), r.1);
        } else if key == "price_weight" {
          r := (r.0, r.1.(price := r.1.price + o[key]));
        } else if key == "score_weight" {
          r := (r.0, r.1.(score := r.1.score + o[key]));
        } else if key == "carbon_weight" {
          r := (r.0, r.1.(carbon := r.1.carbon + o[key]));
        }
        done, left := done[key := o[key]], left - {key};
      }
      assert done == o;
      r := (P.ClampThresholds(r.0), P.ClampWeights(r.1));
      applied := true;
    }

    /** Evaluating one candidate on several traces in one context: the overrides of the first trace whose
        rule has any take effect, those of every later trace are silently skipped. */
    method ApplyToTraces(t: P.Thresholds, w: P.Weights, os: seq<Overrides>) returns (rs: seq<(P.Thresholds, P.Weights)>)
      modifies this
      ensures |rs| == |os|
      ensures forall k | 0 <= k < |os| ::
                rs[k] == if !old(applied) && os[k] != map[] && (forall j | 0 <= j < k :: os[j] == map[])
                         then Overridden(t, w, os[k]) else (t, w)
      ensures applied <==> old(applied) || exists k | 0 <= k < |os| :: os[k] != map[]
    {
      rs := [];
      for i := 0 to |os|
        invariant |rs| == i
        invariant forall k | 0 <= k < i ::
                    rs[k] == if !old(applied) && os[k] != map[] && (forall j | 0 <= j < k :: os[j] == map[])
                             then Overridden(t, w, os[k]) else (t, w)
        invariant applied <==> old(applied) || exists k | 0 <= k < i :: os[k] != map[]
      {
        var r := (t, w);
        if os[i] != map[] {
          r := ApplyParamOverrides(t, w, os[i]);
        }
        rs := rs + [r];
      }
    }
  }
}
