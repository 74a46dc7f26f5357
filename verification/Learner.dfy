/** The closed-loop policy learner (swarm/learning/learner.py) over its row store
    (swarm/storage/event_store.py). Evaluating a candidate is any function of it, and may differ from one
    learning round to the next; a table is its list of rows in insertion order. */
module Learner {
  import opened Basics
  import P = Policy
  import Params
  import T = Text
  import opened StableSort

  type Rows = seq<P.Policy>

  /** minTraces and margin are configuration; defaults are the configured thresholds and balanced weights. */
  datatype Config = Config(search: P.Search, defaults: P.Parameters, margin: real, minTraces: nat)

  datatype Scores = Scores(metric: real, successRate: real, stability: real)
  datatype Result = Result(version: string, metric: real)
  datatype Outcome = InsufficientData | NoCandidates | Best(best: Result)
  datatype Verdict = Promoted | NotFound | Unsafe | AlreadyPromoted | FailsMargin | LosesStability

  // ---- the rows as a value

  function Find(rows: Rows, version: string): Option<P.Policy> {
    if rows == [] then None else if rows[0].version == version then Some(rows[0]) else Find(rows[1..], version)
  }

  function ActiveOf(rows: Rows): Option<P.Policy> {
    if rows == [] then None else if rows[0].active then Some(rows[0]) else ActiveOf(rows[1..])
  }

  // INSERT OR IGNORE under the version key and the one-active index.
  function Stored(rows: Rows, p: P.Policy): Rows {
    if Find(rows, p.version).Some? || (p.active && ActiveOf(rows).Some?) then rows else rows + [p]
  }

  function Activated(rows: Rows, version: string): (r: Rows)
    ensures |r| == |rows|
  {
    seq(|rows|, k requires 0 <= k < |rows| => rows[k].(active := rows[k].version == version))
  }

  lemma {:induction false} FindMeans(rows: Rows, version: string)
    ensures match Find(rows, version)
            case Some(r) => r in rows && r.version == version
            case None => forall r | r in rows :: r.version != version
  {
    if rows != [] {
      FindMeans(rows[1..], version);
      assert rows == [rows[0]] + rows[1..];
    }
  }

  lemma {:induction false} ActiveMeans(rows: Rows)
    ensures match ActiveOf(rows)
            case Some(r) => r in rows && r.active
            case None => forall r | r in rows :: !r.active
  {
    if rows != [] {
      ActiveMeans(rows[1..]);
      assert rows == [rows[0]] + rows[1..];
    }
  }

  // ---- one learning round

  function Baseline(c: Config): P.Policy {
    P.Build(c.search.h, c.defaults).(metric := Some(0.0), successRate := Some(0.0),
                                     decisionStability := Some(0.0), active := true)
  }

  function WithBaseline(c: Config, rows: Rows): Rows {
    if rows == [] then Stored(rows, Baseline(c)) else rows
  }

  function Base(c: Config, rows: Rows): P.Policy {
    var active := ActiveOf(rows);
    if active.Some? then active.value else P.Build(c.search.h, c.defaults)
  }

  function Scored(p: P.Policy, s: Scores): P.Policy {
    p.(metric := Some(s.metric), successRate := Some(s.successRate),
       decisionStability := Some(s.stability), active := false)
  }

  // An unsafe candidate is skipped, one already scored is taken from the store, any other is evaluated.
  function Consider(rows: Rows, results: seq<Result>, p: P.Policy, eval: P.Policy -> Scores): (Rows, seq<Result>) {
    if !P.IsSafe(p.params) then (rows, results)
    else
      var existing := Find(rows, p.version);
      if existing.Some? && existing.value.metric.Some?
      then (rows, results + [Result(p.version, existing.value.metric.value)])
      else (Stored(rows, Scored(p, eval(p))), results + [Result(p.version, eval(p).metric)])
  }

  function Evaluate(rows: Rows, cs: seq<P.Policy>, eval: P.Policy -> Scores): (Rows, seq<Result>) {
    if cs == [] then (rows, [])
    else
      var before := Evaluate(rows, cs[..|cs| - 1], eval);
      Consider(before.0, before.1, cs[|cs| - 1], eval)
  }

  lemma EvaluateStep(rows: Rows, cs: seq<P.Policy>, p: P.Policy, eval: P.Policy -> Scores)
    ensures var before := Evaluate(rows, cs, eval);
            Evaluate(rows, cs + [p], eval) == Consider(before.0, before.1, p, eval)
  {
    assert (cs + [p])[..|cs|] == cs;
  }

  // Higher metric first, then the smaller version.
  function ByMetric(): (Result, Result) -> bool {
    (a: Result, b: Result) => a.metric > b.metric || (a.metric == b.metric && T.StringLe(a.version, b.version))
  }

  function Pick(results: seq<Result>): Outcome {
    if results == [] || Sort(ByMetric(), results) == [] then NoCandidates else Best(Sort(ByMetric(), results)[0])
  }

  function Learn(c: Config, rows: Rows, traces: nat, eval: P.Policy -> Scores): (Rows, Outcome) {
    if traces < c.minTraces then (rows, InsufficientData)
    else
      var r := Evaluate(WithBaseline(c, rows), P.Candidates(c.search, Base(c, rows)), eval);
      (r.0, Pick(r.1))
  }

  // ---- promotion

  function MetricOf(p: P.Policy): real { if p.metric.Some? then p.metric.value else 0.0 }

  function StabilityOf(p: P.Policy): real {
    if p.decisionStability.Some? then p.decisionStability.value
    else if p.successRate.Some? then p.successRate.value else 0.0
  }

  function Judge(c: Config, rows: Rows, version: string, force: bool): Verdict {
    match Find(rows, version)
    case None => NotFound
    case Some(p) =>
      if !P.IsSafe(p.params) then Unsafe
      else if force then Promoted
      else if p.active then AlreadyPromoted
      else if MetricOf(p) <= MetricOf(Base(c, rows)) + c.margin then FailsMargin
      else if StabilityOf(p) < StabilityOf(Base(c, rows)) then LosesStability
      else Promoted
  }

  function Promote(c: Config, rows: Rows, version: string, force: bool): Rows {
    if Judge(c, rows, version, force).Promoted? then Activated(rows, version) else rows
  }

  // ---- the store

  class PolicyStore {
    var rows: Rows

    constructor ()
      ensures rows == []
    {
      rows := [];
    }

    method LoadPolicy(version: string) returns (found: Option<P.Policy>)
      ensures found == Find(rows, version)
    {
      for k := 0 to |rows|
        invariant Find(rows, version) == Find(rows[k..], version)
      {
        if rows[k].version == version { return Some(rows[k]); }
      }
      return None;
    }

    method LoadActive() returns (found: Option<P.Policy>)
      ensures found == ActiveOf(rows)
    {
      for k := 0 to |rows|
        invariant ActiveOf(rows) == ActiveOf(rows[k..])
      {
        if rows[k].active { return Some(rows[k]); }
      }
      return None;
    }

    method StorePolicy(p: P.Policy)
      modifies this
      ensures rows == Stored(old(rows), p)
    {
      var existing := LoadPolicy(p.version);
      if existing.Some? { return; }
      if p.active {
        var active := LoadActive();
        if active.Some? { return; }
      }
      rows := rows + [p];
    }

    /** Deactivate whatever is active, then activate the version, in one transaction. */
    method SetActive(version: string) returns (ok: bool)
      modifies this
      ensures ok <==> Find(old(rows), version).Some?
      ensures rows == if ok then Activated(old(rows), version) else old(rows)
    {
      var existing := LoadPolicy(version);
      if existing.None? { return false; }
      for k := 0 to |rows|
        invariant |rows| == |old(rows)|
        invariant forall j | 0 <= j < |rows| ::
                    rows[j] == if j < k then old(rows)[j].(active := false) else old(rows)[j]
      {
        if rows[k].active { rows := rows[k := rows[k].(active := false)]; }
      }
      for k := 0 to |rows|
        invariant |rows| == |old(rows)|
        invariant forall j | 0 <= j < |rows| ::
                    rows[j] == old(rows)[j].(active := j < k && old(rows)[j].version == version)
      {
        if rows[k].version == version { rows := rows[k := rows[k].(active := true)]; }
      }
      ok := true;
    }

    method EnsureBaseline(c: Config) returns (base: P.Policy)
      modifies this
      ensures rows == WithBaseline(c, old(rows))
      ensures base == Base(c, old(rows))
    {
      var active := LoadActive();
      if active.Some? { return active.value; }
      if rows != [] { return P.Build(c.search.h, c.defaults); }
      var built := P.Build(c.search.h, c.defaults);
      StorePolicy(P.Policy(built.version, built.signature, built.params, Some(0.0), Some(0.0), Some(0.0), true));
      base := P.Build(c.search.h, c.defaults);
    }

    method LearnCandidates(c: Config, traces: nat, eval: P.Policy -> Scores) returns (o: Outcome)
      modifies this
      ensures (rows, o) == Learn(c, old(rows), traces, eval)
    {
      hide P.Candidates, P.IsSafe, Sort, Stored;
      if traces < c.minTraces { return InsufficientData; }
      var base := EnsureBaseline(c);
      ghost var start := rows;
      var cs := P.GenerateCandidates(c.search, base);
      var results: seq<Result> := [];
      for k := 0 to |cs|
        invariant (rows, results) == Evaluate(start, cs[..k], eval)
      {
        var p := cs[k];
        assert cs[..k + 1] == cs[..k] + [p];
        EvaluateStep(start, cs[..k], p, eval);
        var safe := P.IsSafePolicy(p.params);
        if !safe { continue; }
        var existing := LoadPolicy(p.version);
        if existing.Some? && existing.value.metric.Some? {
          results := results + [Result(p.version, existing.value.metric.value)];
          continue;
        }
        var s := eval(p);
        StorePolicy(P.Policy(p.version, p.signature, p.params, Some(s.metric), Some(s.successRate),
                             Some(s.stability), false));
        results := results + [Result(p.version, s.metric)];
      }
      assert cs[..|cs|] == cs;
      if results == [] { return NoCandidates; }
      var ranked := Sort(ByMetric(), results);
      SortMembers(ByMetric(), results);
      o := Best(ranked[0]);
    }

    /** The improvement rule: an unscored policy counts as scored zero, and one without a stability as having its
        success rate as its stability. */
    method CanPromote(c: Config, candidate: P.Policy, active: P.Policy) returns (v: Verdict)
      ensures v == if MetricOf(candidate) <= MetricOf(active) + c.margin then FailsMargin
                   else if StabilityOf(candidate) < StabilityOf(active) then LosesStability else Promoted
    {
      var activeMetric := if active.metric.Some? then active.metric.value else 0.0;
      var metric := if candidate.metric.Some? then candidate.metric.value else 0.0;
      var activeStability := if active.successRate.Some? then active.successRate.value else 0.0;
      if active.decisionStability.Some? { activeStability := active.decisionStability.value; }
      var stability := if candidate.successRate.Some? then candidate.successRate.value else 0.0;
      if candidate.decisionStability.Some? { stability := candidate.decisionStability.value; }
      if !(metric > activeMetric + c.margin) { return FailsMargin; }
      if !(stability >= activeStability) { return LosesStability; }
      return Promoted;
    }

    method PromotePolicy(c: Config, version: string, force: bool) returns (v: Verdict)
      modifies this
      ensures v == Judge(c, old(rows), version, force)
      ensures rows == Promote(c, old(rows), version, force)
    {
      hide P.IsSafe;
      var record := LoadPolicy(version);
      if record.None? { return NotFound; }
      var candidate := record.value;
      var safe := P.IsSafePolicy(candidate.params);
      if !safe { return Unsafe; }
      if candidate.active && !force { return AlreadyPromoted; }
      if !force {
        var active := LoadActive();
        var a := if active.Some? then active.value else P.Build(c.search.h, c.defaults);
        v := CanPromote(c, candidate, a);
        if !v.Promoted? { return; }
      }
      var ok := SetActive(version);
      v := Promoted;
    }
  }

  // ---- what every run keeps

  predicate DistinctVersions(rows: Rows) {
    forall i, j | 0 <= i < j < |rows| :: rows[i].version != rows[j].version
  }

  predicate OneActive(rows: Rows) {
    forall i, j | 0 <= i < j < |rows| :: !(rows[i].active && rows[j].active)
  }

  function Frozen(p: P.Policy): P.Policy { p.(active := false) }

  /** The rows with the active flags wiped: everything that is meant never to change. */
  function History(rows: Rows): (r: Rows)
    ensures |r| == |rows|
  {
    seq(|rows|, k requires 0 <= k < |rows| => Frozen(rows[k]))
  }

  /** A scored candidate as learning stores it. */
  predicate Learned(c: Config, p: P.Policy) {
    && P.IsSafe(p.params) && Params.Total(p.params.weights) == 1.0
    && p.signature == c.search.h.sign(p.params) && p.version == c.search.h.version(p.signature)
    && p.metric.Some? && p.decisionStability.Some?
  }

  /** The baseline, and after it only learned rows; versions distinct; exactly one row active. */
  predicate Sound(c: Config, rows: Rows) {
    && DistinctVersions(rows) && OneActive(rows)
    && (rows != [] ==> Frozen(rows[0]) == Frozen(Baseline(c)) && ActiveOf(rows).Some?)
    && forall k | 1 <= k < |rows| :: Learned(c, rows[k])
  }

  lemma ScoredRows(c: Config, rows: Rows, p: P.Policy)
    requires Sound(c, rows) && p in rows
    ensures p.metric.Some? && p.decisionStability.Some?
  {
    var k :| 0 <= k < |rows| && rows[k] == p;
    assert k == 0 ==> Frozen(rows[0]).metric == Frozen(Baseline(c)).metric;
    assert k == 0 ==> Frozen(rows[0]).decisionStability == Frozen(Baseline(c)).decisionStability;
  }

  lemma {:induction false} FindAt(rows: Rows, k: nat)
    requires DistinctVersions(rows) && k < |rows|
    ensures Find(rows, rows[k].version) == Some(rows[k])
  {
    FindMeans(rows, rows[k].version);
  }

  lemma {:induction false} ActiveIn(rows: Rows, p: P.Policy)
    requires OneActive(rows) && p in rows && p.active
    ensures ActiveOf(rows) == Some(p)
  {
    ActiveMeans(rows);
  }

  lemma {:induction false} ActiveOfAppend(rows: Rows, more: Rows)
    requires forall p | p in more :: !p.active
    ensures ActiveOf(rows + more) == ActiveOf(rows)
  {
    if rows == [] {
      ActiveMeans(more);
      assert rows + more == more;
    } else {
      ActiveOfAppend(rows[1..], more);
      assert (rows + more)[1..] == rows[1..] + more;
    }
  }

  lemma {:induction false} FindAppend(rows: Rows, more: Rows, version: string)
    ensures Find(rows, version).Some? ==> Find(rows + more, version) == Find(rows, version)
    ensures Find(rows, version).None? ==> Find(rows + more, version) == Find(more, version)
  {
    if rows == [] {
      assert rows + more == more;
    } else {
      FindAppend(rows[1..], more, version);
      assert (rows + more)[1..] == rows[1..] + more;
    }
  }

  // ---- learning keeps it

  predicate From(row: P.Policy, p: P.Policy) {
    row.params == p.params && row.signature == p.signature && row.version == p.version
  }

  predicate Added(row: P.Policy, cs: seq<P.Policy>) {
    && !row.active && row.metric.Some? && row.decisionStability.Some? && P.IsSafe(row.params)
    && exists p :: p in cs && From(row, p)
  }

  // What evaluating adds: scored safe candidates, inactive, under new versions.
  predicate Extends(rows: Rows, rows': Rows, cs: seq<P.Policy>) {
    && rows <= rows'
    && (DistinctVersions(rows) ==> DistinctVersions(rows'))
    && forall k | |rows| <= k < |rows'| :: Added(rows'[k], cs)
  }

  lemma StoredExtends(rows: Rows, rows': Rows, p: P.Policy, s: Scores, cs: seq<P.Policy>)
    requires Extends(rows, rows', cs) && P.IsSafe(p.params) && p in cs
    ensures Extends(rows, Stored(rows', Scored(p, s)), cs)
  {
    hide P.IsSafe;
    FindMeans(rows', p.version);
    var after := Stored(rows', Scored(p, s));
    assert forall k | 0 <= k < |rows'| :: after[k] == rows'[k];
    assert |after| > |rows'| ==> From(after[|rows'|], p);
  }

  lemma {:induction false} EvaluateExtends(rows: Rows, cs: seq<P.Policy>, eval: P.Policy -> Scores)
    ensures Extends(rows, Evaluate(rows, cs, eval).0, cs)
  {
    hide P.IsSafe, Stored;
    if cs != [] {
      var n := |cs| - 1;
      EvaluateExtends(rows, cs[..n], eval);
      var before := Evaluate(rows, cs[..n], eval);
      assert cs == cs[..n] + [cs[n]];
      MoreCandidates(rows, before.0, cs[..n], cs);
      assert cs[n] in cs;
      if P.IsSafe(cs[n].params) {
        StoredExtends(rows, before.0, cs[n], eval(cs[n]), cs);
      }
    }
  }

  lemma MoreCandidates(rows: Rows, rows': Rows, cs: seq<P.Policy>, more: seq<P.Policy>)
    requires Extends(rows, rows', cs) && forall p | p in cs :: p in more
    ensures Extends(rows, rows', more)
  {
    forall k | |rows| <= k < |rows'|
      ensures Added(rows'[k], more)
    {
      assert Added(rows'[k], cs);
      var p :| p in cs && From(rows'[k], p);
      assert p in more;
    }
  }

  lemma BaselineSound(c: Config, rows: Rows)
    requires Sound(c, rows)
    ensures Sound(c, WithBaseline(c, rows)) && WithBaseline(c, rows) != []
    ensures rows <= WithBaseline(c, rows)
  {
  }

  lemma {:induction false} LearnSound(c: Config, rows: Rows, traces: nat, eval: P.Policy -> Scores)
    requires Sound(c, rows) && P.Sampler(c.search.sample)
    ensures Sound(c, Learn(c, rows, traces, eval).0)
    ensures rows <= Learn(c, rows, traces, eval).0
    ensures rows != [] ==> ActiveOf(Learn(c, rows, traces, eval).0) == ActiveOf(rows)
  {
    hide P.IsSafe, P.Candidates, Evaluate, P.Sampler, Pick, Baseline;
    if traces >= c.minTraces {
      var start, cs := WithBaseline(c, rows), P.Candidates(c.search, Base(c, rows));
      BaselineSound(c, rows);
      EvaluateExtends(start, cs, eval);
      P.CandidatesHold(c.search, Base(c, rows));
      var after := Evaluate(start, cs, eval).0;
      ExtendedSound(c, start, after, cs);
      assert rows != [] ==> start == rows;
    }
  }

  lemma ExtendedSound(c: Config, start: Rows, after: Rows, cs: seq<P.Policy>)
    requires Sound(c, start) && start != [] && Extends(start, after, cs)
    requires forall p | p in cs :: P.Made(c.search.h, p)
    ensures Sound(c, after) && ActiveOf(after) == ActiveOf(start)
  {
    hide P.IsSafe;
    assert after == start + after[|start|..];
    ActiveOfAppend(start, after[|start|..]);
    forall k | 1 <= k < |after|
      ensures Learned(c, after[k])
    {
      if k >= |start| {
        assert Added(after[k], cs);
        var p :| p in cs && From(after[k], p);
        assert P.Made(c.search.h, p);
      }
    }
  }

  // ---- promotion keeps it

  lemma {:induction false} ActivatedSound(c: Config, rows: Rows, version: string)
    requires Sound(c, rows) && Find(rows, version).Some?
    ensures Sound(c, Activated(rows, version)) && History(Activated(rows, version)) == History(rows)
    ensures ActiveOf(Activated(rows, version)) == Some(Find(rows, version).value.(active := true))
  {
    hide P.IsSafe;
    FindMeans(rows, version);
    var after := Activated(rows, version);
    var k :| 0 <= k < |rows| && rows[k].version == version;
    FindAt(rows, k);
    assert after[k] == rows[k].(active := true) && after[k] in after;
    forall j | 0 <= j < |rows|
      ensures Frozen(after[j]) == Frozen(rows[j])
    {
    }
    forall i, j | 0 <= i < j < |rows|
      ensures !(after[i].active && after[j].active)
    {
      assert rows[i].version != rows[j].version;
    }
    ActiveIn(after, after[k]);
    forall j | 1 <= j < |after|
      ensures Learned(c, after[j])
    {
      assert Learned(c, rows[j]);
    }
  }

  // ---- runs

  datatype Action = Learning(traces: nat, eval: P.Policy -> Scores) | Promoting(version: string, force: bool)

  function Step(c: Config, rows: Rows, a: Action): Rows {
    match a
    case Learning(traces, eval) => Learn(c, rows, traces, eval).0
    case Promoting(version, force) => Promote(c, rows, version, force)
  }

  function Run(c: Config, rows: Rows, acts: seq<Action>): Rows {
    if acts == [] then rows else Step(c, Run(c, rows, acts[..|acts| - 1]), acts[|acts| - 1])
  }

  /** A run is its actions, one after another. */
  lemma RunGoesOn(c: Config, rows: Rows, acts: seq<Action>, a: Action)
    ensures Run(c, rows, []) == rows
    ensures Run(c, rows, acts + [a])
         == if a.Learning? then Learn(c, Run(c, rows, acts), a.traces, a.eval).0
            else Promote(c, Run(c, rows, acts), a.version, a.force)
  {
    hide Learn, Promote;
    assert (acts + [a])[..|acts|] == acts;
  }

  lemma HistoryPrefix(rows: Rows, rows': Rows)
    requires rows <= rows'
    ensures History(rows) <= History(rows')
  {
  }

  lemma {:induction false} StepKeeps(c: Config, rows: Rows, a: Action)
    requires Sound(c, rows) && P.Sampler(c.search.sample)
    ensures Sound(c, Step(c, rows, a))
    ensures History(rows) <= History(Step(c, rows, a))
  {
    hide Sound, Learn, Activated, P.Sampler;
    match a
    case Learning(traces, eval) =>
      LearnSound(c, rows, traces, eval);
      HistoryPrefix(rows, Learn(c, rows, traces, eval).0);
    case Promoting(version, force) =>
      if Judge(c, rows, version, force).Promoted? {
        ActivatedSound(c, rows, version);
      }
  }

  /** Over every run from an empty store, in any order of learning, promotion and forced promotion: the rows stay
      sound (one active, versions distinct, every row but the baseline safe and scored) and are only ever added
      to or changed in the active flag. */
  lemma {:induction false} EveryRunIsSound(c: Config, acts: seq<Action>, n: nat)
    requires P.Sampler(c.search.sample) && n <= |acts|
    ensures Sound(c, Run(c, [], acts))
    ensures History(Run(c, [], acts[..n])) <= History(Run(c, [], acts))
  {
    hide Sound, Step, P.Sampler;
    if acts == [] {
      assert acts[..n] == acts;
      EmptySound(c);
    } else {
      var m := |acts| - 1;
      if n == |acts| {
        assert acts[..n] == acts;
        EveryRunIsSound(c, acts[..m], m);
      } else {
        EveryRunIsSound(c, acts[..m], n);
        assert acts[..m][..n] == acts[..n];
      }
      StepKeeps(c, Run(c, [], acts[..m]), acts[m]);
    }
  }

  lemma EmptySound(c: Config)
    ensures Sound(c, [])
  {
  }

  /** A promoted policy is safe, and becomes the active one. */
  lemma {:induction false} PromotedIsSafe(c: Config, rows: Rows, version: string, force: bool)
    requires Sound(c, rows) && Judge(c, rows, version, force) == Promoted
    ensures ActiveOf(Promote(c, rows, version, force)).Some?
    ensures var p := ActiveOf(Promote(c, rows, version, force)).value;
            P.IsSafe(p.params) && p.version == version && Frozen(p) in History(rows)
  {
    hide P.IsSafe, Sound;
    ActivatedSound(c, rows, version);
    FindMeans(rows, version);
    var k :| 0 <= k < |rows| && rows[k] == Find(rows, version).value;
    assert History(rows)[k] == Frozen(rows[k]);
  }

  /** Every stored policy other than the baseline is left alone by the clamps; so is the active policy of any
      run whose baseline is. */
  lemma {:induction false} LearnedIsFixed(c: Config, rows: Rows, k: nat)
    requires Sound(c, rows) && k < |rows|
    ensures k > 0 || P.ClampFixed(c.defaults) ==> P.ClampFixed(rows[k].params)
  {
    hide P.IsSafe, P.ClampFixed;
    if k > 0 {
      assert Learned(c, rows[k]);
      P.SafeIsFixed(rows[k].params);
    } else {
      assert Frozen(rows[0]).params == Frozen(Baseline(c)).params;
    }
  }

  // ---- what the scores are

  /** A row with the three scores a policy got. */
  predicate Measured(row: P.Policy, p: P.Policy, s: Scores) {
    && row.version == p.version && row.signature == p.signature && row.params == p.params && !row.active
    && row.metric == Some(s.metric) && row.successRate == Some(s.successRate)
    && row.decisionStability == Some(s.stability)
  }

  predicate MeasuredAmong(row: P.Policy, cs: seq<P.Policy>, eval: P.Policy -> Scores) {
    exists p :: p in cs && P.IsSafe(p.params) && Measured(row, p, eval(p))
  }

  lemma ScoredIsMeasured(p: P.Policy, s: Scores)
    ensures Measured(Scored(p, s), p, s)
  {
  }

  /** Every row a learning round adds holds the parameters of a safe candidate and the three scores that candidate got
      in this round. */
  lemma {:induction false} EvaluateStores(rows: Rows, cs: seq<P.Policy>, eval: P.Policy -> Scores)
    ensures rows <= Evaluate(rows, cs, eval).0
    ensures forall k | |rows| <= k < |Evaluate(rows, cs, eval).0| ::
              MeasuredAmong(Evaluate(rows, cs, eval).0[k], cs, eval)
  {
    hide P.IsSafe, Measured;
    if cs != [] {
      var n := |cs| - 1;
      EvaluateStores(rows, cs[..n], eval);
      var before, after := Evaluate(rows, cs[..n], eval).0, Evaluate(rows, cs, eval).0;
      assert cs == cs[..n] + [cs[n]];
      forall k | |rows| <= k < |after|
        ensures MeasuredAmong(after[k], cs, eval)
      {
        if k < |before| {
          assert after[k] == before[k] && MeasuredAmong(before[k], cs[..n], eval);
          var p :| p in cs[..n] && P.IsSafe(p.params) && Measured(before[k], p, eval(p));
          assert p in cs;
        } else {
          ScoredIsMeasured(cs[n], eval(cs[n]));
          assert cs[n] in cs && Measured(after[k], cs[n], eval(cs[n]));
        }
      }
    }
  }

  predicate ScoredBy(c: Config, row: P.Policy, eval: P.Policy -> Scores) {
    var s := eval(P.Build(c.search.h, row.params));
    row.metric == Some(s.metric) && row.successRate == Some(s.successRate) && row.decisionStability == Some(s.stability)
  }

  ghost predicate ScoredIn(c: Config, row: P.Policy, acts: seq<Action>) {
    exists i :: 0 <= i < |acts| && acts[i].Learning? && ScoredBy(c, row, acts[i].eval)
  }

  predicate Unscored(c: Config, row: P.Policy) {
    row.params == c.defaults && row.metric == Some(0.0) && row.successRate == Some(0.0)
    && row.decisionStability == Some(0.0)
  }

  lemma {:induction false} LearnStores(c: Config, rows: Rows, traces: nat, eval: P.Policy -> Scores, k: nat)
    requires Sound(c, rows) && P.Sampler(c.search.sample) && |rows| <= k < |Learn(c, rows, traces, eval).0|
    ensures var row := Learn(c, rows, traces, eval).0[k];
            if k == 0 then Unscored(c, row) else ScoredBy(c, row, eval)
  {
    hide P.IsSafe, P.Candidates, Evaluate, P.Sampler, Pick, Sound;
    var start, cs := WithBaseline(c, rows), P.Candidates(c.search, Base(c, rows));
    EvaluateStores(start, cs, eval);
    P.CandidatesHold(c.search, Base(c, rows));
    var after := Learn(c, rows, traces, eval).0;
    if k >= |start| {
      assert MeasuredAmong(after[k], cs, eval);
      var p :| p in cs && P.IsSafe(p.params) && Measured(after[k], p, eval(p));
      assert P.Made(c.search.h, p);
    }
  }

  /** Over every run from an empty store: the first row is the default policy with scores of zero, and every other row
      holds the metric, the success rate and the stability that its own parameters were given in one of the learning
      rounds of the run, whatever was promoted in between. */
  lemma {:induction false} EveryScoreWasMeasured(c: Config, acts: seq<Action>, k: nat)
    requires P.Sampler(c.search.sample) && k < |Run(c, [], acts)|
    ensures var row := Run(c, [], acts)[k];
            if k == 0 then Unscored(c, row) else ScoredIn(c, row, acts)
  {
    hide P.Sampler, Learn, Judge, Sound, ScoredBy;
    var n := |acts| - 1;
    var before, now := Run(c, [], acts[..n]), Run(c, [], acts);
    EveryRunIsSound(c, acts[..n], 0);
    if k < |before| {
      EveryScoreWasMeasured(c, acts[..n], k);
      SameScores(c, before, acts[n], k);
      if k > 0 {
        var i :| 0 <= i < |acts[..n]| && acts[..n][i].Learning? && ScoredBy(c, before[k], acts[..n][i].eval);
        SameJudgement(c, before[k], now[k], acts[i].eval);
      }
    } else {
      LearnStores(c, before, acts[n].traces, acts[n].eval, k);
    }
  }

  lemma SameScores(c: Config, rows: Rows, a: Action, k: nat)
    requires Sound(c, rows) && P.Sampler(c.search.sample) && k < |rows|
    ensures k < |Step(c, rows, a)| && Frozen(Step(c, rows, a)[k]) == Frozen(rows[k])
  {
    hide Sound, P.Sampler, Learn;
    StepKeeps(c, rows, a);
    assert History(rows)[k] == History(Step(c, rows, a))[k];
  }

  lemma SameJudgement(c: Config, row: P.Policy, other: P.Policy, eval: P.Policy -> Scores)
    requires ScoredBy(c, row, eval) && Frozen(row) == Frozen(other)
    ensures ScoredBy(c, other, eval)
  {
    assert Frozen(row).params == Frozen(other).params && Frozen(row).metric == Frozen(other).metric;
    assert Frozen(row).successRate == Frozen(other).successRate;
    assert Frozen(row).decisionStability == Frozen(other).decisionStability;
  }

  // ---- rolling back

  /** A forced promotion of a stored version succeeds unless it names an unsafe baseline. */
  lemma {:induction false} RollbackIff(c: Config, rows: Rows, k: nat)
    requires Sound(c, rows) && k < |rows|
    ensures Judge(c, rows, rows[k].version, true) == Promoted <==> k > 0 || P.IsSafe(c.defaults)
  {
    hide P.IsSafe;
    FindAt(rows, k);
    if k > 0 {
      assert Learned(c, rows[k]);
    } else {
      assert Frozen(rows[0]).params == Frozen(Baseline(c)).params;
    }
  }

  /** With the stability threshold the configuration ships (0.5, below the safe band), rolling back to the
      baseline is refused as unsafe. */
  lemma {:induction false} ShippedBaselineCannotReturn(c: Config, rows: Rows)
    requires Sound(c, rows) && rows != [] && c.defaults.thresholds.stability == 0.5
    ensures Judge(c, rows, rows[0].version, true) == Unsafe
  {
    FindAt(rows, 0);
    assert Frozen(rows[0]).params == Frozen(Baseline(c)).params;
  }

  // ---- a stretch without force

  predicate Unforced(acts: seq<Action>) {
    forall k | 0 <= k < |acts| && acts[k].Promoting? :: !acts[k].force
  }

  /** The policies promoted along a run, in order. */
  function Promotions(c: Config, rows: Rows, acts: seq<Action>): seq<P.Policy> {
    if acts == [] then []
    else
      var n := |acts| - 1;
      var before := Run(c, rows, acts[..n]);
      Promotions(c, rows, acts[..n])
      + if acts[n].Promoting? && Judge(c, before, acts[n].version, acts[n].force) == Promoted
        then [Frozen(Find(before, acts[n].version).value)] else []
  }

  predicate Above(c: Config, p: P.Policy, q: P.Policy) {
    MetricOf(p) > MetricOf(q) + c.margin && StabilityOf(p) >= StabilityOf(q)
  }

  // What a climb looks like at its end: who was promoted so far and who is active now.
  predicate Climbed(c: Config, rows: Rows, ps: seq<P.Policy>, now: Rows) {
    && Sound(c, rows) && Sound(c, now) && History(rows) <= History(now)
    && (forall i, j | 0 <= i < j < |ps| :: Above(c, ps[j], ps[i]) && ps[i].version != ps[j].version)
    && (forall i | 0 <= i < |ps| :: ps[i] in History(now))
    && (rows != [] ==> forall i | 0 <= i < |ps| :: Above(c, ps[i], ActiveOf(rows).value))
    && (if ps != [] then ActiveOf(now).Some? && Frozen(ActiveOf(now).value) == ps[|ps| - 1]
        else rows != [] ==> ActiveOf(now).Some? && Frozen(ActiveOf(now).value) == Frozen(ActiveOf(rows).value))
  }

  /** Without force every promotion beats the one before it, and the policy active at the start, by more than the
      margin and at no loss of stability; so no version is promoted twice. */
  lemma {:induction false} UnforcedPromotionsClimb(c: Config, rows: Rows, acts: seq<Action>)
    requires Sound(c, rows) && P.Sampler(c.search.sample) && c.margin >= 0.0 && Unforced(acts)
    ensures var ps := Promotions(c, rows, acts);
            && (forall i, j | 0 <= i < j < |ps| :: Above(c, ps[j], ps[i]) && ps[i].version != ps[j].version)
            && (rows != [] ==> forall i | 0 <= i < |ps| :: Above(c, ps[i], ActiveOf(rows).value))
  {
    hide Run, Promotions, Sound, P.Sampler, Above;
    Climb(c, rows, acts);
  }

  lemma {:induction false} Climb(c: Config, rows: Rows, acts: seq<Action>)
    requires Sound(c, rows) && P.Sampler(c.search.sample) && c.margin >= 0.0 && Unforced(acts)
    ensures Climbed(c, rows, Promotions(c, rows, acts), Run(c, rows, acts))
  {
    hide Sound, Climbed, P.Sampler, Step, Judge;
    if acts == [] {
      ClimbedAtStart(c, rows);
    } else {
      var n := |acts| - 1;
      Climb(c, rows, acts[..n]);
      var ps, now := Promotions(c, rows, acts[..n]), Run(c, rows, acts[..n]);
      assert acts[n].Promoting? ==> !acts[n].force;
      ClimbStep(c, rows, ps, now, acts[n]);
    }
  }

  lemma ClimbedAtStart(c: Config, rows: Rows)
    requires Sound(c, rows)
    ensures Climbed(c, rows, [], rows)
  {
  }

  lemma {:induction false} ClimbStep(c: Config, rows: Rows, ps: seq<P.Policy>, now: Rows, a: Action)
    requires Climbed(c, rows, ps, now) && c.margin >= 0.0 && P.Sampler(c.search.sample)
    requires a.Promoting? ==> !a.force
    ensures Climbed(c, rows, ps + (if a.Promoting? && Judge(c, now, a.version, a.force) == Promoted
                                   then [Frozen(Find(now, a.version).value)] else []), Step(c, now, a))
  {
    hide Sound, Learn, P.Sampler, P.IsSafe, Activated, Judge;
    StepKeeps(c, now, a);
    if a.Learning? {
      LearnSound(c, now, a.traces, a.eval);
      assert ps != [] ==> ps[0] in History(now);
      ClimbedLater(c, rows, ps, now, Step(c, now, a));
    } else if Judge(c, now, a.version, false) == Promoted {
      ClimbPromotion(c, rows, ps, now, a.version);
    } else {
      ClimbedLater(c, rows, ps, now, now);
    }
  }

  lemma ClimbedLater(c: Config, rows: Rows, ps: seq<P.Policy>, now: Rows, later: Rows)
    requires Climbed(c, rows, ps, now) && Sound(c, later) && History(now) <= History(later)
    requires now != [] ==> ActiveOf(later) == ActiveOf(now)
    ensures Climbed(c, rows, ps + [], later)
  {
    hide Sound, Above;
    assert ps + [] == ps;
    assert forall i | 0 <= i < |ps| :: ps[i] in History(later);
    assert ps != [] ==> ps[0] in History(now);
    assert |rows| <= |now|;
  }

  /** Without force, and with a margin of at least zero, a version is promoted exactly when it is stored, safe, and
      beats the active policy by more than the margin at no loss of stability. */
  lemma {:induction false} PromotedIff(c: Config, rows: Rows, k: nat)
    requires Sound(c, rows) && k < |rows| && c.margin >= 0.0
    ensures ActiveOf(rows).Some?
    ensures Judge(c, rows, rows[k].version, false) == Promoted
       <==> var a := ActiveOf(rows).value;
            && P.IsSafe(rows[k].params)
            && rows[k].metric.Some? && a.metric.Some? && rows[k].decisionStability.Some? && a.decisionStability.Some?
            && rows[k].metric.value > a.metric.value + c.margin
            && rows[k].decisionStability.value >= a.decisionStability.value
  {
    hide P.IsSafe;
    FindAt(rows, k);
    ActiveMeans(rows);
    ScoredRows(c, rows, rows[k]);
    ScoredRows(c, rows, ActiveOf(rows).value);
    if rows[k].active {
      assert rows[k] in rows;
      ActiveIn(rows, rows[k]);
    }
  }

  lemma HasActive(c: Config, rows: Rows)
    requires Sound(c, rows) && rows != []
    ensures ActiveOf(rows).Some?
  {
  }

  lemma PromotedAbove(c: Config, rows: Rows, version: string)
    requires Sound(c, rows) && Judge(c, rows, version, false) == Promoted
    ensures rows != [] && ActiveOf(rows).Some? && Find(rows, version).Some?
    ensures Above(c, Find(rows, version).value, ActiveOf(rows).value)
  {
    hide P.IsSafe;
  }

  lemma AboveChain(c: Config, p: P.Policy, q: P.Policy, r: P.Policy)
    requires Above(c, p, q) && (q == r || Above(c, q, r)) && c.margin >= 0.0
    ensures Above(c, p, r) && MetricOf(r) < MetricOf(p)
  {
  }

  lemma AboveFrozen(c: Config, p: P.Policy, q: P.Policy)
    ensures Above(c, Frozen(p), q) == Above(c, p, q) == Above(c, p, Frozen(q))
  {
  }

  // Equal versions in one history are the same row.
  lemma SameVersionSameRow(c: Config, rows: Rows, p: P.Policy, q: P.Policy)
    requires Sound(c, rows) && p in History(rows) && q in History(rows) && p.version == q.version
    ensures p == q
  {
    var i :| 0 <= i < |rows| && History(rows)[i] == p;
    var j :| 0 <= j < |rows| && History(rows)[j] == q;
    assert rows[i].version == rows[j].version;
  }

  lemma FoundInHistory(rows: Rows, version: string)
    requires Find(rows, version).Some?
    ensures Frozen(Find(rows, version).value) in History(rows) && Find(rows, version).value.version == version
  {
    FindMeans(rows, version);
    var k :| 0 <= k < |rows| && rows[k] == Find(rows, version).value;
    assert History(rows)[k] == Frozen(rows[k]);
  }

  lemma {:induction false} ClimbPromotion(c: Config, rows: Rows, ps: seq<P.Policy>, now: Rows, version: string)
    requires Climbed(c, rows, ps, now) && c.margin >= 0.0 && Judge(c, now, version, false) == Promoted
    ensures Climbed(c, rows, ps + [Frozen(Find(now, version).value)], Activated(now, version))
  {
    hide Sound, Judge, Activated, Above, History, Find, ActiveOf, MetricOf, StabilityOf;
    PromotedAbove(c, now, version);
    FoundInHistory(now, version);
    ActivatedSound(c, now, version);
    var p := Frozen(Find(now, version).value);
    var active := Frozen(ActiveOf(now).value);
    AboveFrozen(c, Find(now, version).value, ActiveOf(now).value);
    AboveFrozen(c, Find(now, version).value, active);
    assert Above(c, p, active);
    forall i | 0 <= i < |ps|
      ensures Above(c, p, ps[i]) && ps[i].version != version
    {
      AboveChain(c, p, active, ps[i]);
      if ps[i].version == version {
        SameVersionSameRow(c, now, p, ps[i]);
      }
    }
    if rows != [] {
      HasActive(c, rows);
      var first := ActiveOf(rows).value;
      AboveFrozen(c, p, first);
      if ps == [] {
        AboveFrozen(c, p, first);
      } else {
        AboveChain(c, p, active, first);
      }
    }
  }

  // ---- learning again

  lemma {:induction false} EvaluateGrows(rows: Rows, cs: seq<P.Policy>, eval: P.Policy -> Scores)
    ensures cs != [] ==> Evaluate(rows, cs[..|cs| - 1], eval).0 <= Evaluate(rows, cs, eval).0
  {
    hide P.IsSafe;
  }

  // Once evaluated, a candidate is found in the store with the score it got.
  lemma {:induction false} Replay(start: Rows, cs: seq<P.Policy>, eval: P.Policy -> Scores, after: Rows,
                                  again: P.Policy -> Scores)
    requires Evaluate(start, cs, eval).0 <= after && forall r | r in after :: r.metric.Some?
    ensures Evaluate(after, cs, again) == (after, Evaluate(start, cs, eval).1)
  {
    hide P.IsSafe;
    if cs != [] {
      var n := |cs| - 1;
      var p := cs[n];
      EvaluateGrows(start, cs, eval);
      Replay(start, cs[..n], eval, after, again);
      if P.IsSafe(p.params) {
        var mid, next := Evaluate(start, cs[..n], eval).0, Evaluate(start, cs, eval).0;
        FindMeans(mid, p.version);
        FindAppend(mid, after[|mid|..], p.version);
        FindAppend(next, after[|next|..], p.version);
        assert after == mid + after[|mid|..] == next + after[|next|..];
        if Find(mid, p.version).Some? {
          assert Find(mid, p.version).value in after;
        } else {
          FindAppend(mid, [Scored(p, eval(p))], p.version);
          assert next == mid + [Scored(p, eval(p))];
        }
      }
    }
  }

  /** Learning twice on the same traces, with no promotion between, adds no row the second time and returns the
      same best candidate, whatever the evaluation would say the second time. */
  lemma {:induction false} LearningIsIdempotent(c: Config, rows: Rows, traces: nat, eval: P.Policy -> Scores,
                                                again: P.Policy -> Scores)
    requires Sound(c, rows) && P.Sampler(c.search.sample)
    ensures var first := Learn(c, rows, traces, eval);
            Learn(c, first.0, traces, again) == first
  {
    hide Sound, P.Candidates, Evaluate, P.Sampler, Pick;
    if traces >= c.minTraces {
      var start, cs := WithBaseline(c, rows), P.Candidates(c.search, Base(c, rows));
      var after := Evaluate(start, cs, eval).0;
      LearnSound(c, rows, traces, eval);
      BaselineSound(c, rows);
      LearnSound(c, start, traces, eval);
      forall r | r in after
        ensures r.metric.Some?
      {
        ScoredRows(c, after, r);
      }
      Replay(start, cs, eval, after, again);
      EvaluateExtends(start, cs, eval);
      ActiveAfter(c, rows, start, after, cs);
      P.SameCandidates(c.search, Base(c, rows), Base(c, after));
    }
  }

  lemma ActiveAfter(c: Config, rows: Rows, start: Rows, after: Rows, cs: seq<P.Policy>)
    requires Sound(c, rows) && start == WithBaseline(c, rows) && Extends(start, after, cs)
    ensures after != [] && Base(c, after).params == Base(c, rows).params
    ensures Base(c, after).signature == Base(c, rows).signature
  {
    hide P.IsSafe, DistinctVersions, OneActive, Learned, P.Build;
    assert after == start + after[|start|..];
    ActiveOfAppend(start, after[|start|..]);
  }

  // ---- the best candidate

  lemma {:induction false} ResultsMean(start: Rows, cs: seq<P.Policy>, eval: P.Policy -> Scores, after: Rows)
    requires Evaluate(start, cs, eval).0 <= after && forall r | r in after :: r.metric.Some?
    ensures var results := Evaluate(start, cs, eval).1;
            && (forall r | r in results ::
                  && Find(after, r.version).Some? && Find(after, r.version).value.metric == Some(r.metric)
                  && exists p :: p in cs && p.version == r.version && P.IsSafe(p.params))
            && (forall p | p in cs && P.IsSafe(p.params) :: exists r :: r in results && r.version == p.version)
  {
    hide P.IsSafe;
    if cs != [] {
      var n := |cs| - 1;
      var p := cs[n];
      EvaluateGrows(start, cs, eval);
      ResultsMean(start, cs[..n], eval, after);
      assert cs == cs[..n] + [p];
      var before, results := Evaluate(start, cs[..n], eval).1, Evaluate(start, cs, eval).1;
      assert forall r | r in before :: r in results;
      if P.IsSafe(p.params) {
        Replay(start, cs[..n], eval, after, eval);
        Replay(start, cs, eval, after, eval);
        var last := results[|results| - 1];
        assert last in results && last.version == p.version;
        EvaluatedIsFound(start, cs, eval, after);
      }
      forall r | r in results
        ensures exists q :: q in cs && q.version == r.version && P.IsSafe(q.params)
      {
        if r in before {
          var q :| q in cs[..n] && q.version == r.version && P.IsSafe(q.params);
          assert q in cs;
        } else {
          assert p in cs;
        }
      }
    }
  }

  lemma {:induction false} EvaluatedIsFound(start: Rows, cs: seq<P.Policy>, eval: P.Policy -> Scores, after: Rows)
    requires cs != [] && P.IsSafe(cs[|cs| - 1].params)
    requires Evaluate(start, cs, eval).0 <= after && forall r | r in after :: r.metric.Some?
    ensures var p, results := cs[|cs| - 1], Evaluate(start, cs, eval).1;
            && results != [] && Find(after, p.version).Some?
            && Find(after, p.version).value.metric == Some(results[|results| - 1].metric)
  {
    hide P.IsSafe;
    var n := |cs| - 1;
    var p := cs[n];
    EvaluateGrows(start, cs, eval);
    var mid, next := Evaluate(start, cs[..n], eval).0, Evaluate(start, cs, eval).0;
    FindMeans(mid, p.version);
    FindAppend(mid, after[|mid|..], p.version);
    FindAppend(next, after[|next|..], p.version);
    assert after == mid + after[|mid|..] == next + after[|next|..];
    if Find(mid, p.version).Some? {
      assert Find(mid, p.version).value in after;
    } else {
      FindAppend(mid, [Scored(p, eval(p))], p.version);
      assert next == mid + [Scored(p, eval(p))];
    }
  }

  lemma ByMetricTotal()
    ensures TotalPreorder(ByMetric())
  {
    forall a: Result, b: Result
      ensures T.StringLe(a.version, b.version) || T.StringLe(b.version, a.version)
    {
      T.StringLeTotal(a.version, b.version);
    }
    forall a: Result, b: Result, d: Result | T.StringLe(a.version, b.version) && T.StringLe(b.version, d.version)
      ensures T.StringLe(a.version, d.version)
    {
      T.StringLeTransitive(a.version, b.version, d.version);
    }
  }

  /** The candidate learning returns is safe and stored with the highest stored score of all safe candidates, ties
      going to the smallest version; nothing is returned only when no candidate is safe. */
  lemma {:induction false} LearnedIsBest(c: Config, rows: Rows, traces: nat, eval: P.Policy -> Scores)
    requires Sound(c, rows) && P.Sampler(c.search.sample) && traces >= c.minTraces
    ensures var (after, outcome) := Learn(c, rows, traces, eval);
            var cs := P.Candidates(c.search, Base(c, rows));
            match outcome
            case Best(b) =>
              && Find(after, b.version).Some? && Find(after, b.version).value.metric == Some(b.metric)
              && (exists p :: p in cs && p.version == b.version && P.IsSafe(p.params))
              && (forall p | p in cs && P.IsSafe(p.params) ::
                    && Find(after, p.version).Some? && Find(after, p.version).value.metric.Some?
                    && (var m := Find(after, p.version).value.metric.value;
                        m < b.metric || (m == b.metric && T.StringLe(b.version, p.version))))
            case NoCandidates => forall p | p in cs :: !P.IsSafe(p.params)
            case InsufficientData => false
  {
    hide Sound, P.Candidates, Evaluate, P.Sampler, P.IsSafe, Sort, Find;
    var start, cs := WithBaseline(c, rows), P.Candidates(c.search, Base(c, rows));
    var after, results := Evaluate(start, cs, eval).0, Evaluate(start, cs, eval).1;
    LearnSound(c, rows, traces, eval);
    forall r | r in after
      ensures r.metric.Some?
    {
      ScoredRows(c, after, r);
    }
    ResultsMean(start, cs, eval, after);
    SortMembers(ByMetric(), results);
    if results != [] {
      ByMetricTotal();
      var k := FirstOfSort(ByMetric(), results);
      forall p | p in cs && P.IsSafe(p.params)
        ensures var m := Find(after, p.version).value.metric.value;
                m < results[k].metric || (m == results[k].metric && T.StringLe(results[k].version, p.version))
      {
        var r :| r in results && r.version == p.version;
        var j :| 0 <= j < |results| && results[j] == r;
        assert ByMetric()(results[k], results[j]);
      }
    }
  }

  // ---- drift

  function Rounds(acts: seq<Action>): nat {
    if acts == [] then 0 else Rounds(acts[..|acts| - 1]) + if acts[|acts| - 1].Learning? then 1 else 0
  }

  function Close(d: real, a: real, b: real): bool { -d <= a - b <= d }

  predicate NearBy(d: real, p: P.Parameters, q: P.Parameters) {
    && Close(d, p.thresholds.confidence, q.thresholds.confidence)
    && Close(d, p.thresholds.stability, q.thresholds.stability)
    && Close(d, p.thresholds.trust, q.thresholds.trust)
    && Close(d, p.weights.price, q.weights.price)
    && Close(d, p.weights.score, q.weights.score)
    && Close(d, p.weights.carbon, q.weights.carbon)
  }

  lemma FurtherBy(d: real, p: P.Parameters, base: P.Parameters, q: P.Parameters)
    requires d >= 0.0 && P.WithinDeltas(p, base) && NearBy(d, base, q)
    ensures NearBy(d + P.MAX_PARAM_DELTA, p, q)
  {
  }

  lemma Looser(d: real, e: real, p: P.Parameters, q: P.Parameters)
    requires d <= e && NearBy(d, p, q)
    ensures NearBy(e, p, q)
  {
  }

  predicate AllNear(d: real, rows: Rows, q: P.Parameters) {
    forall r | r in rows :: NearBy(d, r.params, q)
  }

  /** After n learning rounds no stored policy is further than n times MAX_PARAM_DELTA from the baseline in any
      parameter, however promotions and rollbacks were interleaved. */
  lemma {:induction false} DriftIsBounded(c: Config, acts: seq<Action>)
    requires P.Sampler(c.search.sample) && P.WithinDeltas(P.Clamped(c.defaults), c.defaults)
    ensures AllNear(Rounds(acts) as real * P.MAX_PARAM_DELTA, Run(c, [], acts), c.defaults)
  {
    hide Sound, Learn, P.Sampler, P.WithinDeltas, P.Clamped, NearBy, Promote, AllNear;
    if acts == [] {
      NothingNear(c.defaults);
    } else {
      var n := |acts| - 1;
      var now := Run(c, [], acts[..n]);
      DriftIsBounded(c, acts[..n]);
      EveryRunIsSound(c, acts[..n], n);
      var d := Rounds(acts[..n]) as real * P.MAX_PARAM_DELTA;
      match acts[n]
      case Learning(traces, eval) => LearnNear(c, now, traces, eval, d);
      case Promoting(version, force) => PromoteNear(c, now, version, force, d);
    }
  }

  lemma NothingNear(q: P.Parameters)
    ensures AllNear(0.0, [], q)
  {
  }

  lemma PromoteNear(c: Config, rows: Rows, version: string, force: bool, d: real)
    requires AllNear(d, rows, c.defaults)
    ensures AllNear(d, Promote(c, rows, version, force), c.defaults)
  {
    hide NearBy, Judge;
    var after := Promote(c, rows, version, force);
    forall r | r in after
      ensures NearBy(d, r.params, c.defaults)
    {
      var k :| 0 <= k < |after| && after[k] == r;
      assert rows[k] in rows;
    }
  }

  lemma {:induction false} BaseNear(c: Config, rows: Rows, d: real)
    requires Sound(c, rows) && AllNear(d, rows, c.defaults) && d >= 0.0
    requires P.WithinDeltas(P.Clamped(c.defaults), c.defaults)
    ensures NearBy(d, Base(c, rows).params, c.defaults)
    ensures P.WithinDeltas(P.Clamped(Base(c, rows).params), Base(c, rows).params)
  {
    hide P.Clamped, P.WithinDeltas, P.IsSafe;
    ActiveMeans(rows);
    if rows != [] {
      var a := ActiveOf(rows).value;
      var k :| 0 <= k < |rows| && rows[k] == a;
      LearnedIsFixed(c, rows, k);
      P.NearItself(a.params);
      assert k == 0 ==> Frozen(a).params == Frozen(Baseline(c)).params;
    }
  }

  lemma {:induction false} LearnNear(c: Config, rows: Rows, traces: nat, eval: P.Policy -> Scores, d: real)
    requires Sound(c, rows) && AllNear(d, rows, c.defaults) && d >= 0.0 && P.Sampler(c.search.sample)
    requires P.WithinDeltas(P.Clamped(c.defaults), c.defaults)
    ensures AllNear(d + P.MAX_PARAM_DELTA, Learn(c, rows, traces, eval).0, c.defaults)
  {
    hide Sound, P.Sampler, P.WithinDeltas, P.Clamped, NearBy, P.Candidates, Evaluate, P.IsSafe, Baseline;
    var base, start := Base(c, rows), WithBaseline(c, rows);
    var cs := P.Candidates(c.search, base);
    BaseNear(c, rows, d);
    P.CandidatesNear(c.search, base);
    EvaluateExtends(start, cs, eval);
    var after := Learn(c, rows, traces, eval).0;
    forall r | r in after
      ensures NearBy(d + P.MAX_PARAM_DELTA, r.params, c.defaults)
    {
      if r in rows {
        Looser(d, d + P.MAX_PARAM_DELTA, r.params, c.defaults);
      } else {
        var k :| 0 <= k < |after| && after[k] == r;
        if k < |start| {
          assert start == [Baseline(c)];
          BaselineNear(c, d + P.MAX_PARAM_DELTA);
        } else {
          assert Added(after[k], cs);
          var p :| p in cs && From(r, p);
          FurtherBy(d, p.params, base.params, c.defaults);
        }
      }
    }
  }

  lemma BaselineNear(c: Config, d: real)
    requires d >= 0.0
    ensures NearBy(d, Baseline(c).params, c.defaults)
  {
  }
}
