/** Policies and the candidate grid around one (swarm/learning/policy.py). SHA-256 is any function of the
    canonical parameters that does not collide; a version is any function of the signature. */
module Policy {
  import opened Basics
  import opened Params
  import opened StableSort
  import R = Routing
  import T = Text

  const MAX_CANDIDATES := 128
  const MAX_PARAM_DELTA := 0.20
  const DELTAS: seq<real> := [-0.10, -0.05, 0.05, 0.10]

  /** What the signature is computed from. */
  datatype Parameters = Parameters(thresholds: Thresholds, weights: Weights, strategy: R.Strategy)

  datatype Policy = Policy(version: string, signature: string, params: Parameters,
                           metric: Option<real>, successRate: Option<real>,
                           decisionStability: Option<real>, active: bool)

  datatype Hashes = Hashes(sign: Parameters -> string, version: string -> string)

  function Build(h: Hashes, p: Parameters): Policy {
    var signature := h.sign(p);
    Policy(h.version(signature), signature, p, None, None, None, false)
  }

  function Near(a: real, b: real): bool { -MAX_PARAM_DELTA <= a - b <= MAX_PARAM_DELTA }

  /** No parameter further than MAX_PARAM_DELTA from the base. */
  predicate WithinDeltas(p: Parameters, base: Parameters) {
    && Near(p.thresholds.confidence, base.thresholds.confidence)
    && Near(p.thresholds.stability, base.thresholds.stability)
    && Near(p.thresholds.trust, base.thresholds.trust)
    && Near(p.weights.price, base.weights.price)
    && Near(p.weights.score, base.weights.score)
    && Near(p.weights.carbon, base.weights.carbon)
  }

  function Clamped(p: Parameters): Parameters {
    Parameters(ClampThresholds(p.thresholds), ClampWeights(p.weights), p.strategy)
  }

  predicate ClampFixed(p: Parameters) { Clamped(p) == p }

  /** The guardrail against unsafe policies: both bands, the weight sum and a known strategy. */
  predicate IsSafe(p: Parameters) {
    && InBand(p.thresholds)
    && SafeWeights(p.weights)
    && -0.000001 < Total(p.weights) - 1.0 < 0.000001
    && R.ValidStrategy(p.strategy)
  }

  method IsSafePolicy(p: Parameters) returns (ok: bool)
    ensures ok == IsSafe(p)
  {
    hide R.ValidStrategy;
    if !(0.6 <= p.thresholds.confidence <= 0.9) { return false; }
    if !(0.6 <= p.thresholds.stability <= 0.9) { return false; }
    if !(0.6 <= p.thresholds.trust <= 0.9) { return false; }
    if !(0.2 <= p.weights.price <= 0.8) { return false; }
    if !(0.2 <= p.weights.score <= 0.8) { return false; }
    if !(0.2 <= p.weights.carbon <= 0.8) { return false; }
    var excess := p.weights.price + p.weights.score + p.weights.carbon - 1.0;
    if (if excess < 0.0 then -excess else excess) >= 0.000001 { return false; }
    ok := R.ValidateRoutingStrategy(p.strategy);
  }

  /** A safe policy whose weights sum to exactly one is left alone by the clamps, and conversely
      a policy the clamps leave alone is safe if its strategy is known. */
  lemma SafeIsFixed(p: Parameters)
    ensures IsSafe(p) && Total(p.weights) == 1.0 <==> ClampFixed(p) && R.ValidStrategy(p.strategy)
  {
    ThresholdClamp(p.thresholds);
    WeightFixedPoints(p.weights);
  }

  // ---- perturbations of the base

  function WithThreshold(t: Thresholds, key: nat, delta: real): Thresholds {
    ClampThresholds(
      if key == 0 then t.(confidence := Clip(T_MIN, T_MAX, t.confidence + delta))
      else if key == 1 then t.(stability := Clip(T_MIN, T_MAX, t.stability + delta))
      else t.(trust := Clip(T_MIN, T_MAX, t.trust + delta)))
  }

  // The carbon weight absorbs the change before clamping.
  function WithWeight(w: Weights, key: nat, delta: real): Weights {
    var moved := if key == 0 then w.(price := w.price + delta) else w.(score := w.score + delta);
    ClampWeights(moved.(carbon := 1.0 - moved.price - moved.score))
  }

  const MOVES := |DELTAS|

  function ThresholdMoves(b: Parameters): (moves: seq<(Thresholds, Weights)>)
    ensures |moves| == 3 * MOVES
  {
    seq(3 * MOVES, i requires 0 <= i < 3 * MOVES =>
      (ClampThresholds(WithThreshold(b.thresholds, i / MOVES, DELTAS[i % MOVES])), ClampWeights(b.weights)))
  }

  function WeightMoves(b: Parameters): (moves: seq<(Thresholds, Weights)>)
    ensures |moves| == 2 * MOVES
  {
    seq(2 * MOVES, i requires 0 <= i < 2 * MOVES =>
      (ClampThresholds(b.thresholds), ClampWeights(WithWeight(b.weights, i / MOVES, DELTAS[i % MOVES]))))
  }

  /** Each element once, at its first position. */
  function Once<T(==)>(s: seq<T>): seq<T> {
    if s == [] then []
    else
      var front := Once(s[..|s| - 1]);
      if s[|s| - 1] in front then front else front + [s[|s| - 1]]
  }

  lemma OnceStep<T>(s: seq<T>, x: T)
    ensures Once(s + [x]) == if x in Once(s) then Once(s) else Once(s) + [x]
  {
    assert (s + [x])[..|s|] == s;
  }

  lemma {:induction false} OnceMembers<T>(s: seq<T>, x: T)
    ensures x in Once(s) <==> x in s
  {
    if s != [] {
      OnceMembers(s[..|s| - 1], x);
      assert s == s[..|s| - 1] + [s[|s| - 1]];
    }
  }

  lemma At(i: nat, key: nat, d: nat)
    requires d < MOVES && i == key * MOVES + d
    ensures i / MOVES == key && i % MOVES == d
  {
  }

  /** One parameter moved at a time, duplicates dropped. */
  method ParamVariants(b: Parameters) returns (variants: seq<(Thresholds, Weights)>)
    ensures variants == Once(ThresholdMoves(b) + WeightMoves(b))
  {
    hide ClampThresholds, ClampWeights, WithThreshold, WithWeight, Once;
    variants := [];
    assert variants == Once(ThresholdMoves(b)[..0]) by { EmptyOnce<(Thresholds, Weights)>(); }
    for key := 0 to 3
      invariant variants == Once(ThresholdMoves(b)[..key * MOVES])
    {
      for d := 0 to MOVES
        invariant variants == Once(ThresholdMoves(b)[..key * MOVES + d])
      {
        var v := (ClampThresholds(WithThreshold(b.thresholds, key, DELTAS[d])), ClampWeights(b.weights));
        At(key * MOVES + d, key, d);
        OnceStep(ThresholdMoves(b)[..key * MOVES + d], v);
        assert ThresholdMoves(b)[..key * MOVES + d + 1] == ThresholdMoves(b)[..key * MOVES + d] + [v];
        if v !in variants { variants := variants + [v]; }
      }
    }
    assert ThresholdMoves(b)[..3 * MOVES] == ThresholdMoves(b) + WeightMoves(b)[..0];
    for key := 0 to 2
      invariant variants == Once(ThresholdMoves(b) + WeightMoves(b)[..key * MOVES])
    {
      for d := 0 to MOVES
        invariant variants == Once(ThresholdMoves(b) + WeightMoves(b)[..key * MOVES + d])
      {
        var v := (ClampThresholds(b.thresholds), ClampWeights(WithWeight(b.weights, key, DELTAS[d])));
        At(key * MOVES + d, key, d);
        OnceStep(ThresholdMoves(b) + WeightMoves(b)[..key * MOVES + d], v);
        assert ThresholdMoves(b) + WeightMoves(b)[..key * MOVES + d + 1]
            == ThresholdMoves(b) + WeightMoves(b)[..key * MOVES + d] + [v];
        if v !in variants { variants := variants + [v]; }
      }
    }
    assert WeightMoves(b)[..2 * MOVES] == WeightMoves(b);
  }

  lemma EmptyOnce<T>()
    ensures Once<T>([]) == []
  {
  }

  /** Python's sorted(set(STRATEGY_TYPES)); the types are already in order. */
  const SORTED_TYPES := R.STRATEGY_TYPES

  function Row(variants: seq<(Thresholds, Weights)>, kind: string): (row: seq<Parameters>)
    ensures |row| == |variants|
  {
    seq(|variants|, v requires 0 <= v < |variants| => Parameters(variants[v].0, variants[v].1, R.Single(kind)))
  }

  function Cross(variants: seq<(Thresholds, Weights)>, kinds: seq<string>): seq<Parameters> {
    if kinds == [] then [] else Cross(variants, kinds[..|kinds| - 1]) + Row(variants, kinds[|kinds| - 1])
  }

  function OtherKinds(b: Parameters, kinds: seq<string>): seq<Parameters> {
    if kinds == [] then []
    else
      var kind := kinds[|kinds| - 1];
      OtherKinds(b, kinds[..|kinds| - 1])
      + if b.strategy == R.Single(kind) then [] else [Clamped(b).(strategy := R.Single(kind))]
  }

  function WithRoutings(b: Parameters, routings: seq<R.Strategy>): (ps: seq<Parameters>)
    ensures |ps| == |routings|
  {
    seq(|routings|, r requires 0 <= r < |routings| => Clamped(b).(strategy := routings[r]))
  }

  /** Everything tried around b: b itself, every one-parameter move under every single strategy, and b clamped
      under every other single strategy and every routing table. */
  function GridInputs(b: Parameters, routings: seq<R.Strategy>): seq<Parameters> {
    [b] + Cross(Once(ThresholdMoves(b) + WeightMoves(b)), SORTED_TYPES) + OtherKinds(b, SORTED_TYPES)
    + WithRoutings(b, routings)
  }

  // ---- collecting candidates

  predicate DistinctSignatures(cs: seq<Policy>) {
    forall i, j | 0 <= i < j < |cs| :: cs[i].signature != cs[j].signature
  }

  /** A freshly built policy with clamped parameters. */
  predicate Made(h: Hashes, c: Policy) {
    c == Build(h, c.params) && InBand(c.params.thresholds) && Total(c.params.weights) == 1.0
  }

  predicate Proposed(h: Hashes, base: Policy, c: Policy) {
    Made(h, c) && WithinDeltas(c.params, base.params)
  }

  function Signatures(cs: seq<Policy>): set<string> { set c | c in cs :: c.signature }

  // Keeps a clamped candidate unless its signature was seen before or it has drifted too far.
  function AddTo(h: Hashes, base: Policy, cs: seq<Policy>, p: Parameters): seq<Policy> {
    var c := Build(h, Clamped(p));
    if c.signature in Signatures(cs) || !WithinDeltas(c.params, base.params) then cs else cs + [c]
  }

  function Collect(h: Hashes, base: Policy, inputs: seq<Parameters>): seq<Policy> {
    if inputs == [] then [] else AddTo(h, base, Collect(h, base, inputs[..|inputs| - 1]), inputs[|inputs| - 1])
  }

  lemma CollectStep(h: Hashes, base: Policy, inputs: seq<Parameters>, p: Parameters)
    ensures Collect(h, base, inputs + [p]) == AddTo(h, base, Collect(h, base, inputs), p)
  {
    assert (inputs + [p])[..|inputs|] == inputs;
  }

  lemma {:induction false} CollectMeans(h: Hashes, base: Policy, inputs: seq<Parameters>)
    ensures var cs := Collect(h, base, inputs);
            && DistinctSignatures(cs)
            && (forall c | c in cs :: Proposed(h, base, c))
            && (forall p | p in inputs && WithinDeltas(Clamped(p), base.params) :: h.sign(Clamped(p)) in Signatures(cs))
            && (forall c | c in cs :: exists p :: p in inputs && c == Build(h, Clamped(p)))
  {
    hide ClampThresholds, ClampWeights, Clamped, WithinDeltas, InBand, Total;
    if inputs != [] {
      var n := |inputs| - 1;
      CollectMeans(h, base, inputs[..n]);
      ClampedIsMade(h, inputs[n]);
      assert inputs == inputs[..n] + [inputs[n]];
      var before, after := Collect(h, base, inputs[..n]), Collect(h, base, inputs);
      assert Build(h, Clamped(inputs[n])).signature == h.sign(Clamped(inputs[n]));
      assert forall c | c in before :: c in after;
      forall c | c in after
        ensures exists p :: p in inputs && c == Build(h, Clamped(p))
      {
        if c in before {
          var p :| p in inputs[..n] && c == Build(h, Clamped(p));
          assert p in inputs;
        } else {
          assert inputs[n] in inputs;
        }
      }
    }
  }

  method Add(h: Hashes, base: Policy, seen: set<string>, cs: seq<Policy>, p: Parameters)
    returns (seen': set<string>, cs': seq<Policy>)
    requires seen == Signatures(cs)
    ensures cs' == AddTo(h, base, cs, p) && seen' == Signatures(cs')
  {
    hide ClampThresholds, ClampWeights, WithinDeltas;
    seen', cs' := seen, cs;
    var policy := Build(h, Clamped(p));
    if policy.signature in seen { return; }
    if !WithinDeltas(policy.params, base.params) { return; }
    seen' := seen + {policy.signature};
    cs' := cs + [policy];
  }

  /** The whole grid, in the order it is tried, before the cap. */
  method CollectGrid(h: Hashes, base: Policy, routings: seq<R.Strategy>) returns (cs: seq<Policy>)
    ensures cs == Collect(h, base, GridInputs(base.params, routings))
  {
    hide ClampThresholds, ClampWeights, WithinDeltas, Clamped, Collect, AddTo, Once, ThresholdMoves, WeightMoves,
      Signatures;
    NoSignatures();
    var b := base.params;
    var seen: set<string> := {};
    cs := [];
    EmptyCollect(h, base);
    seen, cs := Add(h, base, seen, cs, b);
    CollectStep(h, base, [], b);
    var variants := ParamVariants(b);
    ghost var done := [b];
    assert [] + [b] == done == [b] + Cross(variants, SORTED_TYPES[..0]);
    for t := 0 to |SORTED_TYPES|
      invariant seen == Signatures(cs) && cs == Collect(h, base, done)
      invariant done == [b] + Cross(variants, SORTED_TYPES[..t])
    {
      ghost var before := done;
      assert done == before + Row(variants, SORTED_TYPES[t])[..0];
      for v := 0 to |variants|
        invariant seen == Signatures(cs) && cs == Collect(h, base, done)
        invariant done == before + Row(variants, SORTED_TYPES[t])[..v]
      {
        var p := Parameters(variants[v].0, variants[v].1, R.Single(SORTED_TYPES[t]));
        seen, cs := Add(h, base, seen, cs, p);
        CollectStep(h, base, done, p);
        done := done + [p];
      }
      assert SORTED_TYPES[..t + 1][..t] == SORTED_TYPES[..t];
      assert done == [b] + (Cross(variants, SORTED_TYPES[..t]) + Row(variants, SORTED_TYPES[t]));
    }
    assert SORTED_TYPES[..|SORTED_TYPES|] == SORTED_TYPES;
    ghost var crossed := done;
    assert done == crossed + OtherKinds(b, SORTED_TYPES[..0]);
    for t := 0 to |SORTED_TYPES|
      invariant seen == Signatures(cs) && cs == Collect(h, base, done)
      invariant done == crossed + OtherKinds(b, SORTED_TYPES[..t])
    {
      assert SORTED_TYPES[..t + 1][..t] == SORTED_TYPES[..t];
      if b.strategy != R.Single(SORTED_TYPES[t]) {
        var p := Clamped(b).(strategy := R.Single(SORTED_TYPES[t]));
        seen, cs := Add(h, base, seen, cs, p);
        CollectStep(h, base, done, p);
        done := done + [p];
      }
    }
    ghost var swapped := done;
    for r := 0 to |routings|
      invariant seen == Signatures(cs) && cs == Collect(h, base, done)
      invariant done == swapped + WithRoutings(b, routings)[..r]
    {
      var p := Clamped(b).(strategy := routings[r]);
      seen, cs := Add(h, base, seen, cs, p);
      CollectStep(h, base, done, p);
      done := done + [p];
    }
    assert done == GridInputs(b, routings);
  }

  lemma NoSignatures()
    ensures Signatures([]) == {}
  {
  }

  lemma EmptyCollect(h: Hashes, base: Policy)
    ensures Collect(h, base, []) == []
  {
  }

  // ---- the cap

  ghost predicate IsSample(s: seq<Policy>, k: nat, r: seq<Policy>) {
    exists at: seq<nat> :: IsSampleAt(s, k, r, at)
  }

  ghost predicate IsSampleAt(s: seq<Policy>, k: nat, r: seq<Policy>, at: seq<nat>) {
    && |r| == |at| == k
    && (forall i | 0 <= i < k :: at[i] < |s| && r[i] == s[at[i]])
    && (forall i, j | 0 <= i < j < k :: at[i] != at[j])
  }

  /** A seeded random.sample: k elements from distinct positions, in any order. */
  ghost predicate Sampler(sample: (seq<Policy>, nat) -> seq<Policy>) {
    forall s: seq<Policy>, k: nat | k <= |s| :: IsSample(s, k, sample(s, k))
  }

  function BySignature(): (Policy, Policy) -> bool {
    (a: Policy, b: Policy) => T.StringLe(a.signature, b.signature)
  }

  function First(cs: seq<Policy>, signature: string): Option<Policy> {
    if cs == [] then None else if cs[0].signature == signature then Some(cs[0]) else First(cs[1..], signature)
  }

  lemma {:induction false} FirstMeans(cs: seq<Policy>, signature: string)
    ensures match First(cs, signature)
            case Some(c) => c in cs && c.signature == signature
            case None => signature !in Signatures(cs)
  {
    if cs != [] {
      FirstMeans(cs[1..], signature);
      assert cs == [cs[0]] + cs[1..];
    }
  }

  function Differs(signature: string): Policy -> bool { (c: Policy) => c.signature != signature }

  method FindSignature(cs: seq<Policy>, signature: string) returns (found: Option<Policy>)
    ensures found == First(cs, signature)
  {
    for k := 0 to |cs|
      invariant First(cs, signature) == First(cs[k..], signature)
    {
      if cs[k].signature == signature { return Some(cs[k]); }
    }
    return None;
  }

  method OthersOf(cs: seq<Policy>, signature: string) returns (others: seq<Policy>)
    ensures others == Filter(Differs(signature), cs)
  {
    hide Filter;
    others := [];
    assert cs[0..] == cs;
    for k := 0 to |cs|
      invariant others + Filter(Differs(signature), cs[k..]) == Filter(Differs(signature), cs)
    {
      FilterStep(Differs(signature), cs, k);
      if cs[k].signature != signature { others := others + [cs[k]]; }
    }
    FilterNothing(Differs(signature), cs);
  }

  lemma {:induction false} FilterDistinct(p: Policy -> bool, cs: seq<Policy>)
    requires DistinctSignatures(cs)
    ensures DistinctSignatures(Filter(p, cs))
    ensures |Filter(p, cs)| <= |cs|
  {
    if cs != [] {
      FilterDistinct(p, cs[1..]);
      var rest := Filter(p, cs[1..]);
      forall k | 0 <= k < |rest|
        ensures rest[k].signature != cs[0].signature
      {
        FilterMember(p, cs[1..], rest[k]);
        assert rest[k] in cs[1..];
      }
    }
  }

  /** The hashes, the routing tables proposed around a policy, and the sampler used over the cap. */
  datatype Search = Search(h: Hashes, routings: R.Strategy -> seq<R.Strategy>,
                           sample: (seq<Policy>, nat) -> seq<Policy>)

  function Grid(s: Search, base: Policy): seq<Policy> {
    Collect(s.h, base, GridInputs(base.params, s.routings(base.params.strategy)))
  }

  /** What the signatures are taken of: the base, its clamped form, and the grid. */
  function Tried(s: Search, base: Policy): seq<Parameters> {
    [base.params, Clamped(base.params)]
    + seq(|Grid(s, base)|, k requires 0 <= k < |Grid(s, base)| => Grid(s, base)[k].params)
  }

  /** No two different parameter sets among those tried share a signature. */
  ghost predicate CollisionFree(s: Search, base: Policy) {
    forall p, q | p in Tried(s, base) && q in Tried(s, base) && s.h.sign(p) == s.h.sign(q) :: p == q
  }

  /** What a candidate list promises of its base. */
  ghost predicate CandidatesFor(s: Search, base: Policy, cs: seq<Policy>) {
    && 1 <= |cs| <= 128
    && (forall c | c in cs :: Made(s.h, c))
    && (CollisionFree(s, base) && ClampFixed(base.params) && base.signature == s.h.sign(base.params) ==>
          && DistinctSignatures(cs)
          && Build(s.h, base.params) in cs
          && forall c | c in cs :: WithinDeltas(c.params, base.params))
  }

  function BaseCandidate(s: Search, base: Policy): Policy {
    var found := First(Grid(s, base), base.signature);
    if found.Some? then found.value else Build(s.h, Clamped(base.params))
  }

  function Others(s: Search, base: Policy): seq<Policy> {
    Filter(Differs(base.signature), Grid(s, base))
  }

  function Kept(s: Search, base: Policy): seq<Policy> {
    if |Others(s, base)| >= MAX_CANDIDATES then s.sample(Others(s, base), MAX_CANDIDATES - 1) else Others(s, base)
  }

  function Candidates(s: Search, base: Policy): seq<Policy> {
    Sort(BySignature(), Kept(s, base) + [BaseCandidate(s, base)])
  }

  method GenerateCandidates(s: Search, base: Policy) returns (cs: seq<Policy>)
    ensures cs == Candidates(s, base)
  {
    hide Collect, GridInputs, Sort, First, Filter, Clamped;
    var grid := CollectGrid(s.h, base, s.routings(base.params.strategy));
    var found := FindSignature(grid, base.signature);
    var baseCandidate := if found.Some? then found.value else Build(s.h, Clamped(base.params));
    var others := OthersOf(grid, base.signature);
    if |others| >= MAX_CANDIDATES {
      others := s.sample(others, MAX_CANDIDATES - 1);
    }
    cs := Sort(BySignature(), others + [baseCandidate]);
  }

  lemma NearItself(p: Parameters)
    ensures WithinDeltas(p, p)
  {
  }

  lemma SignatureOrderTotal()
    ensures TotalPreorder(BySignature())
  {
    forall a: Policy, b: Policy
      ensures T.StringLe(a.signature, b.signature) || T.StringLe(b.signature, a.signature)
    {
      T.StringLeTotal(a.signature, b.signature);
    }
    forall a: Policy, b: Policy, c: Policy
      | T.StringLe(a.signature, b.signature) && T.StringLe(b.signature, c.signature)
      ensures T.StringLe(a.signature, c.signature)
    {
      T.StringLeTransitive(a.signature, b.signature, c.signature);
    }
  }

  lemma SampleFacts(sample: (seq<Policy>, nat) -> seq<Policy>, s: seq<Policy>, k: nat)
    requires Sampler(sample) && k <= |s|
    ensures |sample(s, k)| == k
    ensures forall c | c in sample(s, k) :: c in s
    ensures DistinctSignatures(s) ==> DistinctSignatures(sample(s, k))
  {
    var r := sample(s, k);
    var at :| IsSampleAt(s, k, r, at);
  }

  lemma {:induction false} DistinctPermuted(s: seq<Policy>, r: seq<Policy>)
    requires DistinctSignatures(s) && multiset(s) == multiset(r)
    ensures DistinctSignatures(r)
  {
    forall i, j | 0 <= i < j < |r|
      ensures r[i].signature != r[j].signature
    {
      assert r[i] in multiset(s) && r[j] in multiset(s);
      var a :| 0 <= a < |s| && s[a] == r[i];
      var b :| 0 <= b < |s| && s[b] == r[j];
      if a == b {
        TwiceCounts(r, i, j);
        OnceCounts(s, a);
      }
    }
  }

  lemma TwiceCounts(r: seq<Policy>, i: nat, j: nat)
    requires i < j < |r| && r[i] == r[j]
    ensures multiset(r)[r[i]] >= 2
  {
    assert r == r[..j] + [r[j]] + r[j + 1..];
    assert r[..j][i] in multiset(r[..j]);
  }

  lemma OnceCounts(s: seq<Policy>, a: nat)
    requires DistinctSignatures(s) && a < |s|
    ensures multiset(s)[s[a]] == 1
  {
    assert s == s[..a] + [s[a]] + s[a + 1..];
    assert s[a] !in s[..a] && s[a] !in s[a + 1..];
  }

  lemma DistinctPlusOne(others: seq<Policy>, c: Policy)
    requires forall k | 0 <= k < |others| :: others[k].signature != c.signature
    requires DistinctSignatures(others)
    ensures DistinctSignatures(others + [c])
  {
  }

  lemma TwoAlike(s: seq<Policy>, r: seq<Policy>, a: nat)
    requires a < |s| - 1 && s[a] == s[|s| - 1] && multiset(s) == multiset(r)
    ensures !DistinctSignatures(r)
  {
    TwiceCounts(s, a, |s| - 1);
    if DistinctSignatures(r) {
      assert s[a] in multiset(r);
      var b :| 0 <= b < |r| && r[b] == s[a];
      OnceCounts(r, b);
    }
  }

  lemma GridMeans(s: Search, base: Policy)
    ensures DistinctSignatures(Grid(s, base))
    ensures forall c | c in Grid(s, base) :: Proposed(s.h, base, c)
    ensures WithinDeltas(Clamped(base.params), base.params) ==>
              s.h.sign(Clamped(base.params)) in Signatures(Grid(s, base))
  {
    hide ClampThresholds, ClampWeights, Clamped, WithinDeltas, Collect, Cross, OtherKinds, WithRoutings, Proposed;
    CollectMeans(s.h, base, GridInputs(base.params, s.routings(base.params.strategy)));
    assert base.params == GridInputs(base.params, s.routings(base.params.strategy))[0];
  }

  lemma {:induction false} CrossMembers(variants: seq<(Thresholds, Weights)>, kinds: seq<string>,
                                        v: (Thresholds, Weights), kind: string)
    requires v in variants && kind in kinds
    ensures Parameters(v.0, v.1, R.Single(kind)) in Cross(variants, kinds)
  {
    var n := |kinds| - 1;
    if kind == kinds[n] {
      var k :| 0 <= k < |variants| && variants[k] == v;
      assert Row(variants, kind)[k] == Parameters(v.0, v.1, R.Single(kind));
    } else {
      assert kinds == kinds[..n] + [kinds[n]];
      CrossMembers(variants, kinds[..n], v, kind);
    }
  }

  // ---- the moves, written out

  predicate IsDelta(d: real) { d == -0.10 || d == -0.05 || d == 0.05 || d == 0.10 }

  function Band(x: real): real { if x < 0.6 then 0.6 else if x > 0.9 then 0.9 else x }

  /** One threshold moved by one of the four deltas, all three brought into the band, the weights those of the base. The
      source clamps the weights when it makes the move and again when it adds the candidate. */
  predicate MovesThreshold(b: Parameters, d: real, p: Parameters) {
    var t, q := b.thresholds, p.thresholds;
    && p.weights == ClampWeights(ClampWeights(b.weights))
    && (|| (q.confidence == Band(t.confidence + d) && q.stability == Band(t.stability) && q.trust == Band(t.trust))
        || (q.confidence == Band(t.confidence) && q.stability == Band(t.stability + d) && q.trust == Band(t.trust))
        || (q.confidence == Band(t.confidence) && q.stability == Band(t.stability) && q.trust == Band(t.trust + d)))
  }

  function ClampThrice(w: Weights): Weights { ClampWeights(ClampWeights(ClampWeights(w))) }

  /** The price or the score weight moved by one of the four deltas, the carbon weight what is left of one; the
      thresholds those of the base, in the band. */
  predicate MovesWeight(b: Parameters, d: real, p: Parameters) {
    var w, t, q := b.weights, b.thresholds, p.thresholds;
    && q.confidence == Band(t.confidence) && q.stability == Band(t.stability) && q.trust == Band(t.trust)
    && (|| p.weights == ClampThrice(Weights(w.price + d, w.score, 1.0 - (w.price + d) - w.score))
        || p.weights == ClampThrice(Weights(w.price, w.score + d, 1.0 - w.price - (w.score + d))))
  }

  predicate Moves(b: Parameters, d: real, p: Parameters) {
    IsDelta(d) && (MovesThreshold(b, d, p) || MovesWeight(b, d, p))
  }

  predicate IsKind(kind: string) {
    kind == "balanced" || kind == "cost_optimized" || kind == "quality_first" || kind == "trust_weighted"
  }

  lemma BandIs(t: Thresholds)
    ensures ClampThresholds(t) == Thresholds(Band(t.confidence), Band(t.stability), Band(t.trust))
    ensures ClampThresholds(ClampThresholds(t)) == ClampThresholds(t)
  {
  }

  lemma KindIs(kind: string)
    ensures IsKind(kind) <==> kind in SORTED_TYPES
  {
  }

  lemma DeltaAt(d: real) returns (k: nat)
    requires IsDelta(d)
    ensures k < MOVES && DELTAS[k] == d
  {
    assert DELTAS[0] == -0.10 && DELTAS[1] == -0.05 && DELTAS[2] == 0.05 && DELTAS[3] == 0.10;
    k := if d == -0.10 then 0 else if d == -0.05 then 1 else if d == 0.05 then 2 else 3;
  }

  lemma DeltaIs(k: nat)
    requires k < MOVES
    ensures IsDelta(DELTAS[k])
  {
    assert DELTAS[0] == -0.10 && DELTAS[1] == -0.05 && DELTAS[2] == 0.05 && DELTAS[3] == 0.10;
    assert k == 0 || k == 1 || k == 2 || k == 3;
  }

  lemma ThresholdMoveIs(b: Parameters, key: nat, k: nat)
    requires key < 3 && k < MOVES
    ensures ThresholdMoves(b)[key * MOVES + k]
         == (ClampThresholds(WithThreshold(b.thresholds, key, DELTAS[k])), ClampWeights(b.weights))
  {
    At(key * MOVES + k, key, k);
    hide WithThreshold, ClampThresholds, ClampWeights;
  }

  lemma WeightMoveIs(b: Parameters, key: nat, k: nat)
    requires key < 2 && k < MOVES
    ensures WeightMoves(b)[key * MOVES + k]
         == (ClampThresholds(b.thresholds), ClampWeights(WithWeight(b.weights, key, DELTAS[k])))
  {
    At(key * MOVES + k, key, k);
    hide WithWeight, ClampThresholds, ClampWeights;
  }

  lemma MovedThresholds(t: Thresholds, d: real)
    ensures forall key: nat | key < 3 ::
              ClampThresholds(ClampThresholds(WithThreshold(t, key, d)))
              == Thresholds(Band(if key == 0 then t.confidence + d else t.confidence),
                            Band(if key == 1 then t.stability + d else t.stability),
                            Band(if key == 2 then t.trust + d else t.trust))
  {
  }

  lemma MovedWeights(w: Weights, d: real)
    ensures ClampWeights(ClampWeights(WithWeight(w, 0, d)))
         == ClampThrice(Weights(w.price + d, w.score, 1.0 - (w.price + d) - w.score))
    ensures ClampWeights(ClampWeights(WithWeight(w, 1, d)))
         == ClampThrice(Weights(w.price, w.score + d, 1.0 - w.price - (w.score + d)))
  {
    hide ClampWeights;
  }

  lemma {:induction false} MoveIsListed(b: Parameters, d: real, p: Parameters) returns (move: (Thresholds, Weights))
    requires Moves(b, d, p)
    ensures move in ThresholdMoves(b) || move in WeightMoves(b)
    ensures p == Clamped(Parameters(move.0, move.1, p.strategy))
  {
    hide ClampThresholds, ClampWeights, WithThreshold, WithWeight, ThresholdMoves, WeightMoves, Band;
    var k := DeltaAt(d);
    var t, q := b.thresholds, p.thresholds;
    BandIs(t);
    if MovesThreshold(b, d, p) {
      MovedThresholds(t, d);
      var key := if q.confidence == Band(t.confidence + d) && q.stability == Band(t.stability)
                    && q.trust == Band(t.trust) then 0
                 else if q.stability == Band(t.stability + d) && q.confidence == Band(t.confidence)
                         && q.trust == Band(t.trust) then 1 else 2;
      ThresholdMoveIs(b, key, k);
      move := ThresholdMoves(b)[key * MOVES + k];
    } else {
      MovedWeights(b.weights, d);
      var key := if p.weights == ClampWeights(ClampWeights(WithWeight(b.weights, 0, d))) then 0 else 1;
      WeightMoveIs(b, key, k);
      move := WeightMoves(b)[key * MOVES + k];
    }
  }

  lemma {:induction false} ListedMoves(b: Parameters, move: (Thresholds, Weights), strategy: R.Strategy)
    returns (d: real)
    requires move in ThresholdMoves(b) || move in WeightMoves(b)
    ensures Moves(b, d, Clamped(Parameters(move.0, move.1, strategy)))
  {
    hide ClampThresholds, ClampWeights, WithThreshold, WithWeight, ThresholdMoves, WeightMoves, Band;
    BandIs(b.thresholds);
    if move in ThresholdMoves(b) {
      var i :| 0 <= i < |ThresholdMoves(b)| && ThresholdMoves(b)[i] == move;
      var key, k := i / MOVES, i % MOVES;
      ThresholdMoveIs(b, key, k);
      DeltaIs(k);
      d := DELTAS[k];
      MovedThresholds(b.thresholds, d);
    } else {
      var i :| 0 <= i < |WeightMoves(b)| && WeightMoves(b)[i] == move;
      var key, k := i / MOVES, i % MOVES;
      WeightMoveIs(b, key, k);
      DeltaIs(k);
      d := DELTAS[k];
      MovedWeights(b.weights, d);
    }
  }

  lemma {:induction false} CrossOnly(variants: seq<(Thresholds, Weights)>, kinds: seq<string>, p: Parameters)
    requires p in Cross(variants, kinds)
    ensures p.strategy.Single? && p.strategy.kind in kinds && (p.thresholds, p.weights) in variants
  {
    var n := |kinds| - 1;
    assert kinds == kinds[..n] + [kinds[n]];
    if p in Cross(variants, kinds[..n]) {
      CrossOnly(variants, kinds[..n], p);
    } else {
      var k :| 0 <= k < |variants| && Row(variants, kinds[n])[k] == p;
      assert variants[k] in variants;
    }
  }

  lemma {:induction false} OthersOnly(b: Parameters, kinds: seq<string>, p: Parameters)
    ensures p in OtherKinds(b, kinds) <==>
            && p.strategy.Single? && p.strategy.kind in kinds && p.strategy != b.strategy
            && p == Clamped(b).(strategy := p.strategy)
  {
    hide ClampThresholds, ClampWeights;
    if kinds != [] {
      var n := |kinds| - 1;
      assert kinds == kinds[..n] + [kinds[n]];
      OthersOnly(b, kinds[..n], p);
    }
  }

  lemma RoutingsOnly(b: Parameters, routings: seq<R.Strategy>, p: Parameters)
    ensures p in WithRoutings(b, routings) <==> p.strategy in routings && p == Clamped(b).(strategy := p.strategy)
  {
    hide ClampThresholds, ClampWeights;
    if p.strategy in routings && p == Clamped(b).(strategy := p.strategy) {
      var r :| 0 <= r < |routings| && routings[r] == p.strategy;
      assert WithRoutings(b, routings)[r] == p;
    }
  }

  /** What may be in the grid of a base: the base clamped; one moved parameter under a single strategy; or the base
      clamped twice under another single strategy or a routing table. */
  ghost predicate Offered(s: Search, b: Parameters, p: Parameters) {
    || p == Clamped(b)
    || (p.strategy.Single? && IsKind(p.strategy.kind) && exists d :: Moves(b, d, p))
    || (p == Clamped(Clamped(b)).(strategy := p.strategy)
        && ((p.strategy.Single? && IsKind(p.strategy.kind) && p.strategy != b.strategy)
            || p.strategy in s.routings(b.strategy)))
  }

  lemma {:induction false} OfferedIsInput(s: Search, b: Parameters, p: Parameters) returns (q: Parameters)
    requires Offered(s, b, p)
    ensures q in GridInputs(b, s.routings(b.strategy)) && p == Clamped(q)
  {
    hide ClampThresholds, ClampWeights, Once, ThresholdMoves, WeightMoves, Cross, OtherKinds, WithRoutings, Moves;
    var routings, moves := s.routings(b.strategy), ThresholdMoves(b) + WeightMoves(b);
    if p == Clamped(b) {
      q := b;
    } else if p.strategy.Single? && IsKind(p.strategy.kind) && exists d :: Moves(b, d, p) {
      var d :| Moves(b, d, p);
      var move := MoveIsListed(b, d, p);
      OnceMembers(moves, move);
      KindIs(p.strategy.kind);
      CrossMembers(Once(moves), SORTED_TYPES, move, p.strategy.kind);
      q := Parameters(move.0, move.1, p.strategy);
    } else {
      q := Clamped(b).(strategy := p.strategy);
      OthersOnly(b, SORTED_TYPES, q);
      RoutingsOnly(b, routings, q);
      if p.strategy.Single? { KindIs(p.strategy.kind); }
    }
  }

  lemma {:induction false} InputIsOffered(s: Search, b: Parameters, q: Parameters)
    requires q in GridInputs(b, s.routings(b.strategy))
    ensures Offered(s, b, Clamped(q))
  {
    hide ClampThresholds, ClampWeights, Once, ThresholdMoves, WeightMoves, Cross, OtherKinds, WithRoutings, Moves;
    var routings, moves := s.routings(b.strategy), ThresholdMoves(b) + WeightMoves(b);
    OthersOnly(b, SORTED_TYPES, q);
    RoutingsOnly(b, routings, q);
    if q in Cross(Once(moves), SORTED_TYPES) {
      CrossOnly(Once(moves), SORTED_TYPES, q);
      OnceMembers(moves, (q.thresholds, q.weights));
      var d := ListedMoves(b, (q.thresholds, q.weights), q.strategy);
      KindIs(q.strategy.kind);
    } else if q.strategy.Single? {
      KindIs(q.strategy.kind);
    }
  }

  /** The grid is exactly that: each of its candidates has offered parameters, and every offered set of parameters that
      is no further than 0.20 from the base in any of the six is in it, under its signature. */
  lemma {:induction false} GridIsExactly(s: Search, base: Policy)
    ensures forall c | c in Grid(s, base) :: Offered(s, base.params, c.params) && c.signature == s.h.sign(c.params)
    ensures forall p | Offered(s, base.params, p) && Within(p, base.params, 0.20) ::
              s.h.sign(p) in Signatures(Grid(s, base))
    ensures forall c | c in Grid(s, base) :: Within(c.params, base.params, 0.20)
  {
    hide Clamped, Collect, GridInputs, Offered, WithinDeltas, Within, Signatures;
    var b, inputs := base.params, GridInputs(base.params, s.routings(base.params.strategy));
    CollectMeans(s.h, base, inputs);
    forall c | c in Grid(s, base)
      ensures Offered(s, b, c.params) && c.signature == s.h.sign(c.params) && Within(c.params, b, 0.20)
    {
      var q :| q in inputs && c == Build(s.h, Clamped(q));
      InputIsOffered(s, b, q);
      WithinIs(c.params, b);
    }
    forall p | Offered(s, b, p) && Within(p, b, 0.20)
      ensures s.h.sign(p) in Signatures(Grid(s, base))
    {
      var q := OfferedIsInput(s, b, p);
      WithinIs(p, b);
    }
  }

  function Apart(a: real, b: real): real { if a < b then b - a else a - b }

  predicate Within(p: Parameters, q: Parameters, d: real) {
    && Apart(p.thresholds.confidence, q.thresholds.confidence) <= d
    && Apart(p.thresholds.stability, q.thresholds.stability) <= d
    && Apart(p.thresholds.trust, q.thresholds.trust) <= d
    && Apart(p.weights.price, q.weights.price) <= d
    && Apart(p.weights.score, q.weights.score) <= d
    && Apart(p.weights.carbon, q.weights.carbon) <= d
  }

  lemma WithinIs(p: Parameters, q: Parameters)
    ensures WithinDeltas(p, q) <==> Within(p, q, 0.20)
  {
  }

  predicate InGrid(s: Search, base: Policy, p: Parameters) {
    Within(p, base.params, 0.20) ==> s.h.sign(p) in Signatures(Grid(s, base))
  }

  /** Dropping duplicates loses nothing: under every single strategy the grid has each of the three thresholds moved by
      each of the four deltas, and the price and the score weight moved by each of them with carbon making up the sum,
      unless clamping took the result too far from the base. */
  lemma {:induction false} EveryMoveTried(s: Search, base: Policy, d: real, kind: string)
    requires d == -0.10 || d == -0.05 || d == 0.05 || d == 0.10
    requires kind == "balanced" || kind == "cost_optimized" || kind == "quality_first" || kind == "trust_weighted"
    ensures var t, w := base.params.thresholds, base.params.weights;
            var still := Thresholds(Band(t.confidence), Band(t.stability), Band(t.trust));
            var twice := ClampWeights(ClampWeights(w));
            var cheaper := Weights(w.price + d, w.score, 1.0 - (w.price + d) - w.score);
            var better := Weights(w.price, w.score + d, 1.0 - w.price - (w.score + d));
            && InGrid(s, base, Parameters(still.(confidence := Band(t.confidence + d)), twice, R.Single(kind)))
            && InGrid(s, base, Parameters(still.(stability := Band(t.stability + d)), twice, R.Single(kind)))
            && InGrid(s, base, Parameters(still.(trust := Band(t.trust + d)), twice, R.Single(kind)))
            && InGrid(s, base, Parameters(still, ClampThrice(cheaper), R.Single(kind)))
            && InGrid(s, base, Parameters(still, ClampThrice(better), R.Single(kind)))
  {
    hide ClampWeights, ClampThrice, Band, Within, Grid, Signatures;
    GridIsExactly(s, base);
    forall p | Moves(base.params, d, p) && p.strategy == R.Single(kind)
      ensures InGrid(s, base, p)
    {
      assert Offered(s, base.params, p);
    }
  }

  lemma KeptMeans(s: Search, base: Policy)
    requires Sampler(s.sample)
    ensures |Kept(s, base)| < MAX_CANDIDATES && DistinctSignatures(Kept(s, base))
    ensures forall c | c in Kept(s, base) :: c in Grid(s, base) && c.signature != base.signature
    ensures |Others(s, base)| < MAX_CANDIDATES ==>
              forall c | c in Grid(s, base) && c.signature != base.signature :: c in Kept(s, base)
  {
    hide Grid, Sampler, Filter;
    GridMeans(s, base);
    FilterDistinct(Differs(base.signature), Grid(s, base));
    forall c
      ensures c in Others(s, base) <==> c in Grid(s, base) && c.signature != base.signature
    {
      FilterMember(Differs(base.signature), Grid(s, base), c);
    }
    if |Others(s, base)| >= MAX_CANDIDATES {
      SampleFacts(s.sample, Others(s, base), MAX_CANDIDATES - 1);
    }
  }

  lemma CandidatesMembers(s: Search, base: Policy)
    ensures |Candidates(s, base)| == |Kept(s, base)| + 1
    ensures multiset(Candidates(s, base)) == multiset(Kept(s, base) + [BaseCandidate(s, base)])
    ensures forall c :: c in Candidates(s, base) <==> c in Kept(s, base) || c == BaseCandidate(s, base)
  {
    hide Sort, Kept, BaseCandidate;
    SortPermutes(BySignature(), Kept(s, base) + [BaseCandidate(s, base)]);
    SortMembers(BySignature(), Kept(s, base) + [BaseCandidate(s, base)]);
  }

  // The last entry is either the base's own in the grid, or its clamped form.
  lemma BaseCandidateMeans(s: Search, base: Policy)
    ensures var last := BaseCandidate(s, base);
            && Made(s.h, last)
            && (if base.signature in Signatures(Grid(s, base))
                then last in Grid(s, base) && last.signature == base.signature
                else last == Build(s.h, Clamped(base.params)))
  {
    hide Grid, Clamped, First, InBand, Total, WithinDeltas;
    GridMeans(s, base);
    FirstMeans(Grid(s, base), base.signature);
    ClampedIsMade(s.h, base.params);
  }

  /** The candidates come in the order of their signatures, whatever order the grid and the sampler had. */
  lemma {:induction false} CandidatesSorted(s: Search, base: Policy)
    ensures SortedBy(BySignature(), Candidates(s, base))
  {
    hide Kept, BaseCandidate, Sort;
    SignatureOrderTotal();
    SortSorts(BySignature(), Kept(s, base) + [BaseCandidate(s, base)]);
  }

  /** At most MAX_CANDIDATES clamped policies; and around a base the clamps leave alone, all distinct, the
      base among them, and none further than MAX_PARAM_DELTA from it in any parameter. */
  lemma {:induction false} CandidatesHold(s: Search, base: Policy)
    requires Sampler(s.sample)
    ensures CandidatesFor(s, base, Candidates(s, base))
  {
    hide ClampThresholds, ClampWeights, Clamped, ClampFixed, WithinDeltas, InBand, Total, Grid, Others, Kept,
      BaseCandidate, Candidates, Sampler, Tried;
    var grid, last, kept, cs := Grid(s, base), BaseCandidate(s, base), Kept(s, base), Candidates(s, base);
    GridMeans(s, base);
    KeptMeans(s, base);
    CandidatesMembers(s, base);
    BaseCandidateMeans(s, base);
    FixedFacts(s.h, base);
    if CollisionFree(s, base) && ClampFixed(base.params) && base.signature == s.h.sign(base.params) {
      OnlyPreimage(s, base, last.params, base.params);
      assert last == Build(s.h, base.params);
      DistinctPlusOne(kept, last);
      DistinctPermuted(kept + [last], cs);
    }
  }

  /** The clamped form of the base, as the grid holds it when it is not too far away. */
  function Twin(s: Search, base: Policy): Policy { Build(s.h, Clamped(base.params)) }

  /** The list is free of duplicates exactly when the base itself is in it, or its clamped form is too far away to have
      entered the grid, or the sampler did not keep that form; below the cap nothing is sampled away. */
  lemma {:induction false} DistinctUnlessMoved(s: Search, base: Policy)
    requires Sampler(s.sample) && CollisionFree(s, base) && base.signature == s.h.sign(base.params)
    ensures DistinctSignatures(Candidates(s, base)) <==>
            || Build(s.h, base.params) in Candidates(s, base) || !WithinDeltas(Clamped(base.params), base.params)
            || Twin(s, base) !in Kept(s, base)
    ensures Build(s.h, base.params) !in Candidates(s, base) ==>
              (Twin(s, base) in Others(s, base) <==> WithinDeltas(Clamped(base.params), base.params))
    ensures |Others(s, base)| < MAX_CANDIDATES ==>
              (DistinctSignatures(Candidates(s, base)) <==>
               Build(s.h, base.params) in Candidates(s, base) || !WithinDeltas(Clamped(base.params), base.params))
  {
    hide Clamped, WithinDeltas, Grid, Others, Kept, BaseCandidate, Candidates, Sampler, CollisionFree,
      DistinctSignatures, Twin;
    KeptOthers(s, base);
    if Build(s.h, base.params) !in Candidates(s, base) {
      TwinOffered(s, base);
    }
    if Build(s.h, base.params) !in Candidates(s, base) && Twin(s, base) in Kept(s, base) {
      TwinTwice(s, base);
    } else {
      TwinOnce(s, base);
    }
  }

  // Of its own signature the list has the last entry only.
  lemma {:induction false} OwnIsLast(s: Search, base: Policy)
    requires Sampler(s.sample) && CollisionFree(s, base) && base.signature == s.h.sign(base.params)
    ensures Build(s.h, base.params) in Candidates(s, base) <==> BaseCandidate(s, base) == Build(s.h, base.params)
    ensures BaseCandidate(s, base).signature == base.signature <==> BaseCandidate(s, base) == Build(s.h, base.params)
    ensures BaseCandidate(s, base).signature != base.signature ==> BaseCandidate(s, base) == Twin(s, base)
  {
    hide Clamped, WithinDeltas, Grid, Kept, BaseCandidate, Candidates, Sampler, CollisionFree, DistinctSignatures,
      InBand, Total;
    var last, own := BaseCandidate(s, base), Build(s.h, base.params);
    GridMeans(s, base);
    KeptMeans(s, base);
    CandidatesMembers(s, base);
    BaseCandidateMeans(s, base);
    assert own.signature == base.signature;
    if last.signature == base.signature {
      OnlyPreimage(s, base, last.params, base.params);
    }
  }

  lemma {:induction false} TwinOffered(s: Search, base: Policy)
    requires Sampler(s.sample) && CollisionFree(s, base) && base.signature == s.h.sign(base.params)
    requires Build(s.h, base.params) !in Candidates(s, base)
    ensures WithinDeltas(Clamped(base.params), base.params) <==> Twin(s, base) in Others(s, base)
  {
    hide Clamped, WithinDeltas, Grid, Kept, BaseCandidate, Candidates, Sampler, CollisionFree, DistinctSignatures,
      Filter, InBand, Total;
    GridMeans(s, base);
    OwnIsLast(s, base);
    FilterMember(Differs(base.signature), Grid(s, base), Twin(s, base));
    if WithinDeltas(Clamped(base.params), base.params) {
      var c :| c in Grid(s, base) && c.signature == s.h.sign(Clamped(base.params));
      OnlyPreimage(s, base, c.params, Clamped(base.params));
      assert c == Twin(s, base);
    }
  }

  lemma KeptOthers(s: Search, base: Policy)
    requires Sampler(s.sample)
    ensures forall c | c in Kept(s, base) :: c in Others(s, base)
    ensures |Others(s, base)| < MAX_CANDIDATES ==> Kept(s, base) == Others(s, base)
  {
    hide Others, Sampler;
    if |Others(s, base)| >= MAX_CANDIDATES {
      SampleFacts(s.sample, Others(s, base), MAX_CANDIDATES - 1);
    }
  }

  lemma {:induction false} TwinTwice(s: Search, base: Policy)
    requires Sampler(s.sample) && CollisionFree(s, base) && base.signature == s.h.sign(base.params)
    requires Build(s.h, base.params) !in Candidates(s, base) && Twin(s, base) in Kept(s, base)
    ensures !DistinctSignatures(Candidates(s, base))
  {
    hide Clamped, WithinDeltas, Grid, Kept, BaseCandidate, Candidates, Sampler, CollisionFree, DistinctSignatures,
      Twin;
    var twin, kept := Twin(s, base), Kept(s, base);
    OwnIsLast(s, base);
    CandidatesMembers(s, base);
    var a :| 0 <= a < |kept| && kept[a] == twin;
    TwoAlike(kept + [BaseCandidate(s, base)], Candidates(s, base), a);
  }

  lemma {:induction false} TwinOnce(s: Search, base: Policy)
    requires Sampler(s.sample) && CollisionFree(s, base) && base.signature == s.h.sign(base.params)
    requires Build(s.h, base.params) in Candidates(s, base) || Twin(s, base) !in Kept(s, base)
    ensures DistinctSignatures(Candidates(s, base))
  {
    hide Clamped, WithinDeltas, Grid, Kept, BaseCandidate, Candidates, Sampler, CollisionFree, DistinctSignatures,
      InBand, Total;
    var last, kept := BaseCandidate(s, base), Kept(s, base);
    GridMeans(s, base);
    KeptMeans(s, base);
    OwnIsLast(s, base);
    CandidatesMembers(s, base);
    forall c | c in kept
      ensures c.signature != last.signature
    {
      assert Made(s.h, c);
      if c.signature == last.signature {
        OnlyPreimage(s, base, c.params, last.params);
      }
    }
    DistinctPlusOne(kept, last);
    DistinctPermuted(kept + [last], Candidates(s, base));
  }

  /** No candidate is further than MAX_PARAM_DELTA from a base that clamping itself moves no further. */
  lemma {:induction false} CandidatesNear(s: Search, base: Policy)
    requires Sampler(s.sample) && WithinDeltas(Clamped(base.params), base.params)
    ensures forall c | c in Candidates(s, base) :: WithinDeltas(c.params, base.params)
  {
    hide ClampThresholds, ClampWeights, Clamped, WithinDeltas, InBand, Total, Grid, Kept, BaseCandidate, Candidates,
      Sampler;
    GridMeans(s, base);
    KeptMeans(s, base);
    CandidatesMembers(s, base);
    BaseCandidateMeans(s, base);
  }

  lemma {:induction false} CollectSame(h: Hashes, a: Policy, b: Policy, inputs: seq<Parameters>)
    requires a.params == b.params
    ensures Collect(h, a, inputs) == Collect(h, b, inputs)
  {
    if inputs != [] {
      CollectSame(h, a, b, inputs[..|inputs| - 1]);
    }
  }

  /** The candidates depend on the base's parameters and signature only, not on how it scored. */
  lemma {:induction false} SameCandidates(s: Search, a: Policy, b: Policy)
    requires a.params == b.params && a.signature == b.signature
    ensures Candidates(s, a) == Candidates(s, b)
  {
    CollectSame(s.h, a, b, GridInputs(a.params, s.routings(a.params.strategy)));
  }

  /** For a base with proper weights that comes down to its thresholds: a default stability threshold below the band,
      but within reach of it, lists the clamped base twice unless the sampler drops it. */
  lemma {:induction false} DistinctIffInBand(s: Search, base: Policy)
    requires Sampler(s.sample) && CollisionFree(s, base) && base.signature == s.h.sign(base.params)
    requires SafeWeights(base.params.weights) && Total(base.params.weights) == 1.0
    ensures DistinctSignatures(Candidates(s, base)) <==>
            || InBand(base.params.thresholds) || !WithinDeltas(Clamped(base.params), base.params)
            || Twin(s, base) !in Kept(s, base)
    ensures Twin(s, base) in Others(s, base) <==>
            !InBand(base.params.thresholds) && WithinDeltas(Clamped(base.params), base.params)
    ensures |Others(s, base)| < MAX_CANDIDATES ==>
              (DistinctSignatures(Candidates(s, base)) <==>
               InBand(base.params.thresholds) || !WithinDeltas(Clamped(base.params), base.params))
  {
    hide ClampWeights, WithinDeltas, InBand, Total, Candidates, Others, Kept, Sampler, CollisionFree, Twin;
    DistinctUnlessMoved(s, base);
    CandidatesHold(s, base);
    ThresholdClamp(base.params.thresholds);
    WeightFixedPoints(base.params.weights);
    OwnNotOffered(s, base);
    TwinIsOwn(s, base);
    if Build(s.h, base.params) !in Candidates(s, base) {
      TwinOffered(s, base);
    }
  }

  lemma OwnNotOffered(s: Search, base: Policy)
    ensures forall c | c in Others(s, base) :: c.signature != base.signature
  {
    hide Grid;
    forall c | c in Others(s, base)
      ensures c.signature != base.signature
    {
      FilterMember(Differs(base.signature), Grid(s, base), c);
    }
  }

  lemma TwinIsOwn(s: Search, base: Policy)
    requires base.signature == s.h.sign(base.params)
    ensures ClampFixed(base.params) ==> Twin(s, base).signature == base.signature
  {
  }

  // ---- past the cap it is the sampler's choice

  function TakeFirst(): (seq<Policy>, nat) -> seq<Policy> {
    (s: seq<Policy>, k: nat) => if k <= |s| then s[..k] else []
  }

  function TakeLast(): (seq<Policy>, nat) -> seq<Policy> {
    (s: seq<Policy>, k: nat) => if k <= |s| then s[|s| - k..] else []
  }

  lemma WindowIsSample(s: seq<Policy>, k: nat, from: nat)
    requires from + k <= |s|
    ensures IsSample(s, k, s[from..from + k])
  {
    assert IsSampleAt(s, k, s[from..from + k], seq(k, i => from + i));
  }

  lemma BothSample()
    ensures Sampler(TakeFirst()) && Sampler(TakeLast())
  {
    hide IsSample;
    forall s: seq<Policy>, k: nat | k <= |s|
      ensures IsSample(s, k, TakeFirst()(s, k)) && IsSample(s, k, TakeLast()(s, k))
    {
      WindowIsSample(s, k, 0);
      WindowIsSample(s, k, |s| - k);
      assert s[..k] == s[0..0 + k] && s[|s| - k..] == s[|s| - k..|s| - k + k];
    }
  }

  lemma {:induction false} CollectStarts(h: Hashes, base: Policy, inputs: seq<Parameters>)
    requires inputs != [] && WithinDeltas(Clamped(inputs[0]), base.params)
    ensures Collect(h, base, inputs) != [] && Collect(h, base, inputs)[0] == Build(h, Clamped(inputs[0]))
  {
    hide Clamped, WithinDeltas;
    var n := |inputs| - 1;
    if n > 0 {
      CollectStarts(h, base, inputs[..n]);
    } else {
      assert inputs[..0] == [] && Signatures([]) == {};
    }
  }

  /** With more candidates than the cap, one sampler keeps the clamped form and the list has it twice, another drops it
      and the list has no duplicate. */
  lemma {:induction false} SamplerDecides(s: Search, base: Policy)
    requires CollisionFree(s, base) && base.signature == s.h.sign(base.params)
    requires Twin(s, base) in Others(s, base) && |Others(s, base)| >= MAX_CANDIDATES
    requires Build(s.h, base.params) != BaseCandidate(s, base)
    ensures Sampler(TakeFirst()) && !DistinctSignatures(Candidates(s.(sample := TakeFirst()), base))
    ensures Sampler(TakeLast()) && DistinctSignatures(Candidates(s.(sample := TakeLast()), base))
  {
    hide Candidates, Sampler, Grid, DistinctSignatures, Clamped, Others, BaseCandidate, WithinDeltas, Twin,
      CollisionFree;
    BothSample();
    var first, last, others := s.(sample := TakeFirst()), s.(sample := TakeLast()), Others(s, base);
    SameGrid(s, first, base);
    SameGrid(s, last, base);
    TwinIsFirst(s, base);
    assert Twin(s, base) == others[..MAX_CANDIDATES - 1][0];
    OwnIsLast(first, base);
    TwinTwice(first, base);
    TwinOnce(last, base);
  }

  lemma SameGrid(s: Search, t: Search, base: Policy)
    requires t == s.(sample := t.sample)
    ensures Grid(t, base) == Grid(s, base) && Others(t, base) == Others(s, base) && Twin(t, base) == Twin(s, base)
    ensures BaseCandidate(t, base) == BaseCandidate(s, base)
    ensures CollisionFree(s, base) ==> CollisionFree(t, base)
  {
    hide Collect, GridInputs, Filter, Clamped, First;
  }

  lemma {:induction false} TwinIsFirst(s: Search, base: Policy)
    requires Twin(s, base) in Others(s, base)
    ensures Others(s, base)[0] == Twin(s, base)
    ensures forall i | 0 < i < |Others(s, base)| :: Others(s, base)[i] != Twin(s, base)
  {
    hide Clamped, WithinDeltas, Collect, Cross, OtherKinds, WithRoutings, InBand, Total;
    GridMeans(s, base);
    var grid := Grid(s, base);
    FilterMember(Differs(base.signature), grid, Twin(s, base));
    CollectStarts(s.h, base, GridInputs(base.params, s.routings(base.params.strategy)));
    FilterDistinct(Differs(base.signature), grid);
  }

  // The base and its clamped form, or the parameters of a grid entry.
  predicate Known(s: Search, base: Policy, p: Parameters) {
    p == base.params || p == Clamped(base.params) || exists c :: c in Grid(s, base) && c.params == p
  }

  lemma {:induction false} OnlyPreimage(s: Search, base: Policy, p: Parameters, q: Parameters)
    requires CollisionFree(s, base) && s.h.sign(p) == s.h.sign(q)
    requires Known(s, base, p) && Known(s, base, q)
    ensures p == q
  {
    hide Grid, Clamped;
    KnownTried(s, base, p);
    KnownTried(s, base, q);
  }

  lemma {:induction false} KnownTried(s: Search, base: Policy, p: Parameters)
    requires Known(s, base, p)
    ensures p in Tried(s, base)
  {
    hide Grid, Clamped;
    var tried := Tried(s, base);
    if p != base.params && p != Clamped(base.params) {
      var c :| c in Grid(s, base) && c.params == p;
      var k :| 0 <= k < |Grid(s, base)| && Grid(s, base)[k] == c;
      assert tried[k + 2] == p;
    } else {
      assert tried[0] == base.params && tried[1] == Clamped(base.params);
    }
  }

  lemma ClampedIsMade(h: Hashes, p: Parameters)
    ensures Made(h, Build(h, Clamped(p)))
  {
    ThresholdClamp(p.thresholds);
    WeightClamp(p.weights);
  }

  lemma FixedFacts(h: Hashes, base: Policy)
    ensures ClampFixed(base.params) <==> Clamped(base.params) == base.params
    ensures WithinDeltas(base.params, base.params)
  {
    NearItself(base.params);
  }
}
