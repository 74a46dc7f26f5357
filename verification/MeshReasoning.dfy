/** What one reasoning step of a mesh actor takes up (mesh/actors): every piece of work it can see and has not done,
    each once, for the first trace that calls for it, and nothing else. */
module MeshReasoning {
  import opened Basics
  import opened Blackboard
  import opened Mesh
  import B = MeshBuyer

  type Key = (string, string)

  /** The positions of the traces that are worked on, in order: ready ones whose work was not done, one for each piece
      of work, the first there is. Afterwards their work counts as done. */
  ghost predicate Picked(ts: seq<Trace>, done: set<Key>, ready: Trace -> bool, key: Trace -> Key, at: seq<nat>,
                         after: set<Key>)
  {
    && Chosen(ts, done, ready, key, at)
    && (forall j | 0 <= j < |ts| && ready(ts[j]) && key(ts[j]) !in done :: TakenBy(ts, key, at, j))
    && (forall x :: x in after <==> x in done || IsTaken(ts, key, at, x))
  }

  predicate Chosen(ts: seq<Trace>, done: set<Key>, ready: Trace -> bool, key: Trace -> Key, at: seq<nat>) {
    && (forall k | 0 <= k < |at| :: at[k] < |ts| && ready(ts[at[k]]) && key(ts[at[k]]) !in done)
    && (forall k, l | 0 <= k < l < |at| :: at[k] < at[l] && key(ts[at[k]]) != key(ts[at[l]]))
  }

  predicate TakenBy(ts: seq<Trace>, key: Trace -> Key, at: seq<nat>, j: nat)
    requires j < |ts| && forall k | 0 <= k < |at| :: at[k] < |ts|
  {
    exists k :: 0 <= k < |at| && at[k] <= j && key(ts[at[k]]) == key(ts[j])
  }

  predicate IsTaken(ts: seq<Trace>, key: Trace -> Key, at: seq<nat>, x: Key)
    requires forall k | 0 <= k < |at| :: at[k] < |ts|
  {
    exists k :: 0 <= k < |at| && key(ts[at[k]]) == x
  }

  lemma TakenLater(ts: seq<Trace>, key: Trace -> Key, at: seq<nat>, t: Trace, j: nat, x: Key)
    requires forall k | 0 <= k < |at| :: at[k] < |ts|
    ensures IsTaken(ts + [t], key, at, x) <==> IsTaken(ts, key, at, x)
    ensures IsTaken(ts + [t], key, at + [|ts|], x) <==> IsTaken(ts, key, at, x) || x == key(t)
    ensures j < |ts| && TakenBy(ts, key, at, j) ==>
              TakenBy(ts + [t], key, at, j) && TakenBy(ts + [t], key, at + [|ts|], j)
  {
    var more, at' := ts + [t], at + [|ts|];
    assert forall k | 0 <= k < |at| :: at'[k] == at[k] && more[at[k]] == ts[at[k]];
    assert at'[|at|] == |ts| && more[|ts|] == t;
    if j < |ts| && TakenBy(ts, key, at, j) {
      var k :| 0 <= k < |at| && at[k] <= j && key(ts[at[k]]) == key(ts[j]);
      assert at'[k] <= j && key(more[at'[k]]) == key(more[j]);
    }
    if IsTaken(ts, key, at, x) {
      var k :| 0 <= k < |at| && key(ts[at[k]]) == x;
      assert key(more[at'[k]]) == x;
    }
  }

  lemma {:induction false} PickedMore(ts: seq<Trace>, done: set<Key>, ready: Trace -> bool, key: Trace -> Key,
                                      at: seq<nat>, after: set<Key>, t: Trace)
    requires Picked(ts, done, ready, key, at, after)
    ensures ready(t) && key(t) !in after ==>
              Picked(ts + [t], done, ready, key, at + [|ts|], after + {key(t)})
    ensures !ready(t) || key(t) in after ==> Picked(ts + [t], done, ready, key, at, after)
  {
    hide TakenBy, IsTaken;
    var more, more', after' := ts + [t], at + [|ts|], after + {key(t)};
    ChosenMore(ts, done, ready, key, at, after, t);
    forall j: nat | j < |ts| && ready(ts[j]) && key(ts[j]) !in done
      ensures TakenBy(more, key, at, j) && TakenBy(more, key, more', j)
    {
      TakenLater(ts, key, at, t, j, key(t));
    }
    forall x
      ensures IsTaken(more, key, at, x) <==> IsTaken(ts, key, at, x)
      ensures IsTaken(more, key, more', x) <==> IsTaken(ts, key, at, x) || x == key(t)
    {
      TakenLater(ts, key, at, t, |ts|, x);
    }
    LastTaken(ts, key, at, t);
    assert forall j | 0 <= j < |ts| :: more[j] == ts[j];
  }

  lemma LastTaken(ts: seq<Trace>, key: Trace -> Key, at: seq<nat>, t: Trace)
    requires forall k | 0 <= k < |at| :: at[k] < |ts|
    ensures TakenBy(ts + [t], key, at + [|ts|], |ts|)
    ensures IsTaken(ts, key, at, key(t)) ==> TakenBy(ts + [t], key, at, |ts|)
  {
    var more, at' := ts + [t], at + [|ts|];
    assert at'[|at|] == |ts| && key(more[at'[|at|]]) == key(more[|ts|]);
    if IsTaken(ts, key, at, key(t)) {
      var k :| 0 <= k < |at| && key(ts[at[k]]) == key(t);
      assert more[at[k]] == ts[at[k]];
    }
  }

  lemma ChosenMore(ts: seq<Trace>, done: set<Key>, ready: Trace -> bool, key: Trace -> Key, at: seq<nat>,
                   after: set<Key>, t: Trace)
    requires Picked(ts, done, ready, key, at, after)
    ensures Chosen(ts + [t], done, ready, key, at)
    ensures ready(t) && key(t) !in after ==> Chosen(ts + [t], done, ready, key, at + [|ts|])
  {
    var more, at' := ts + [t], at + [|ts|];
    assert forall k | 0 <= k < |at| :: at'[k] == at[k] && more[at[k]] == ts[at[k]];
    assert at'[|at|] == |ts| && more[|ts|] == t;
    if ready(t) && key(t) !in after {
      forall k | 0 <= k < |at|
        ensures key(ts[at[k]]) != key(t)
      {
        assert IsTaken(ts, key, at, key(ts[at[k]]));
      }
    }
  }

  // ---- scouts

  function Anything(): Trace -> bool { (t: Trace) => true }
  function ByCorr(): Trace -> Key { (t: Trace) => (t.corr, "") }

  /** What a scout writes for one requirement: the list of suppliers, and each of them. */
  predicate Scouted(t: Trace, suppliers: seq<string>, ps: seq<Planned>) {
    && |ps| == 1 + |suppliers|
    && ps[0] == Planned(Discovery, SupplierList(suppliers), t.corr, [t.id], false, true)
    && forall k | 0 <= k < |suppliers| ::
         ps[1 + k] == Planned(Discovery, SupplierDiscovered(suppliers[k], ""), t.corr, [], true, false)
  }

  function Joined(parts: seq<seq<Planned>>): seq<Planned> {
    if parts == [] then [] else Joined(parts[..|parts| - 1]) + parts[|parts| - 1]
  }

  lemma JoinedMore(parts: seq<seq<Planned>>, part: seq<Planned>)
    ensures Joined(parts + [part]) == Joined(parts) + part
  {
    assert (parts + [part])[..|parts|] == parts;
  }

  /** A scout takes up each request once, from the first requirement read for it, and writes the pool found for that
      requirement. */
  lemma {:induction false} ScoutTakesUp(reqs: seq<Trace>, done: set<Key>, pool: Trace -> seq<string>)
    returns (at: seq<nat>, parts: seq<seq<Planned>>)
    ensures Picked(reqs, done, Anything(), ByCorr(), at, ScoutReasons(reqs, done, pool).1)
    ensures |parts| == |at| && ScoutReasons(reqs, done, pool).0 == Joined(parts)
    ensures forall k | 0 <= k < |at| :: Scouted(reqs[at[k]], pool(reqs[at[k]]), parts[k])
  {
    hide Picked;
    if reqs == [] {
      at, parts := [], [];
      NothingPicked(done, Anything(), ByCorr());
    } else {
      var n := |reqs| - 1;
      var t := reqs[n];
      at, parts := ScoutTakesUp(reqs[..n], done, pool);
      PickedMore(reqs[..n], done, Anything(), ByCorr(), at, ScoutReasons(reqs[..n], done, pool).1, t);
      assert reqs == reqs[..n] + [t];
      PickedWithin(reqs[..n], done, Anything(), ByCorr(), at, ScoutReasons(reqs[..n], done, pool).1);
      if (t.corr, "") !in ScoutReasons(reqs[..n], done, pool).1 {
        JoinedMore(parts, ScoutWrites(t, pool(t)));
        at, parts := at + [n], parts + [ScoutWrites(t, pool(t))];
      }
    }
  }

  lemma NothingPicked(done: set<Key>, ready: Trace -> bool, key: Trace -> Key)
    ensures Picked([], done, ready, key, [], done)
  {
  }

  lemma PickedWithin(ts: seq<Trace>, done: set<Key>, ready: Trace -> bool, key: Trace -> Key, at: seq<nat>,
                     after: set<Key>)
    requires Picked(ts, done, ready, key, at, after)
    ensures forall k | 0 <= k < |at| :: at[k] < |ts| && ready(ts[at[k]])
  {
  }

  // ---- evaluators

  predicate NamesPool(q: Trace, t: Trace) {
    q.payload.SupplierList? && t.payload.SupplierDiscovered? && q.id == t.payload.pool
  }

  predicate SameRequest(q: Trace, t: Trace) { q.payload.SupplierList? && q.corr == t.corr }

  /** The first list the discovery names, and only if none of them is there the first list of its request. */
  lemma {:induction false} PoolFound(t: Trace, pools: seq<Trace>)
    requires t.payload.SupplierDiscovered?
    ensures match EvaluatorPool(t, pools)
            case Some(p) =>
              exists k :: 0 <= k < |pools| && pools[k] == p
                && (|| (NamesPool(p, t) && forall j | 0 <= j < k :: !NamesPool(pools[j], t))
                    || (SameRequest(p, t) && (forall j | 0 <= j < k :: !SameRequest(pools[j], t))
                        && forall q | q in pools :: !NamesPool(q, t)))
            case None => forall q | q in pools :: !NamesPool(q, t) && !SameRequest(q, t)
  {
    hide FirstHit;
    FirstHitAt(pools, IsListNamed(t.payload.pool));
    FirstHitAt(pools, IsListIn(t.corr));
  }

  lemma {:induction false} FirstHitAt(ts: seq<Trace>, hit: Trace -> bool)
    ensures match FirstHit(ts, hit)
            case Some(p) => exists k :: 0 <= k < |ts| && ts[k] == p && hit(p) && forall j | 0 <= j < k :: !hit(ts[j])
            case None => forall t | t in ts :: !hit(t)
  {
    if ts != [] {
      FirstHitAt(ts[1..], hit);
      assert ts == [ts[0]] + ts[1..];
      if !hit(ts[0]) && FirstHit(ts[1..], hit).Some? {
        var p := FirstHit(ts, hit).value;
        var k :| 0 <= k < |ts[1..]| && ts[1..][k] == p && hit(p) && forall j | 0 <= j < k :: !hit(ts[1..][j]);
        assert ts[k + 1] == p;
        forall j | 0 <= j < k + 1
          ensures !hit(ts[j])
        {
          assert j > 0 ==> ts[j] == ts[1..][j - 1];
        }
      }
    }
  }

  function CanEvaluate(pools: Trace -> seq<Trace>): Trace -> bool {
    (t: Trace) => t.payload.SupplierDiscovered? && t.payload.supplier != ""
                  && var p := EvaluatorPool(t, pools(t));
                     p.Some? && p.value.payload.SupplierList? && t.payload.supplier in p.value.payload.suppliers
  }

  function BySupplier(): Trace -> Key {
    (t: Trace) => (t.corr, if t.payload.SupplierDiscovered? || t.payload.Evaluation? then t.payload.supplier else "")
  }

  /** What an evaluator writes for one discovery: the evaluation under the discovery, and the risk chained to it. */
  predicate Evaluated(t: Trace, data: (ScoreData, RiskData), ps: seq<Planned>) {
    && t.payload.SupplierDiscovered?
    && ps == [Planned(Score, Evaluation(t.payload.supplier, data.0), t.corr, [t.id], false, true),
              Planned(Risk, RiskAssessment(t.payload.supplier, data.1), t.corr, [], true, false)]
  }

  /** An evaluator takes up each supplier of a request once, from the first discovery of it that has a pool listing it,
      and writes the scores and the risk found for that discovery. */
  lemma {:induction false} EvaluatorTakesUp(ds: seq<Trace>, done: set<Key>, pools: Trace -> seq<Trace>,
                                            data: Trace -> (ScoreData, RiskData))
    returns (at: seq<nat>, parts: seq<seq<Planned>>)
    ensures Picked(ds, done, CanEvaluate(pools), BySupplier(), at, EvaluatorReasons(ds, done, pools, data).1)
    ensures |parts| == |at| && EvaluatorReasons(ds, done, pools, data).0 == Joined(parts)
    ensures forall k | 0 <= k < |at| :: Evaluated(ds[at[k]], data(ds[at[k]]), parts[k])
  {
    hide Picked, EvaluatorPool;
    if ds == [] {
      at, parts := [], [];
      NothingPicked(done, CanEvaluate(pools), BySupplier());
    } else {
      var n := |ds| - 1;
      var t := ds[n];
      at, parts := EvaluatorTakesUp(ds[..n], done, pools, data);
      var after := EvaluatorReasons(ds[..n], done, pools, data).1;
      PickedMore(ds[..n], done, CanEvaluate(pools), BySupplier(), at, after, t);
      PickedWithin(ds[..n], done, CanEvaluate(pools), BySupplier(), at, after);
      assert ds == ds[..n] + [t];
      if CanEvaluate(pools)(t) && BySupplier()(t) !in after {
        JoinedMore(parts, EvaluatorWrites(t, data(t)));
        at, parts := at + [n], parts + [EvaluatorWrites(t, data(t))];
      }
    }
  }

  // ---- negotiators

  function CanQuote(pools: Trace -> seq<Trace>): Trace -> bool {
    (t: Trace) => t.payload.Evaluation? && t.payload.supplier != ""
                  && var p := FirstHit(pools(t), IsListIn(t.corr));
                     p.Some? && p.value.payload.SupplierList? && t.payload.supplier in p.value.payload.suppliers
  }

  /** What a negotiator writes for one evaluation: a quote under the evaluation and the first list of its request. */
  predicate Quoted(t: Trace, pools: seq<Trace>, deal: DealData, ps: seq<Planned>) {
    t.payload.Evaluation?
    && exists k :: 0 <= k < |pools| && SameRequest(pools[k], t) && (forall j | 0 <= j < k :: !SameRequest(pools[j], t))
                && ps == [Planned(Deal, Quote(t.payload.supplier, deal), t.corr, [t.id, pools[k].id], false, false)]
  }

  lemma {:induction false} QuoteWritten(t: Trace, pools: seq<Trace>, deal: DealData)
    requires t.payload.Evaluation? && FirstHit(pools, IsListIn(t.corr)).Some?
    ensures Quoted(t, pools, deal, NegotiatorWrites(t, FirstHit(pools, IsListIn(t.corr)).value, deal))
  {
    hide FirstHit;
    FirstHitAt(pools, IsListIn(t.corr));
  }

  /** A negotiator takes up each supplier of a request once, from the first evaluation of it that has a pool listing it,
      and writes the quote found for that evaluation. */
  lemma {:induction false} NegotiatorTakesUp(es: seq<Trace>, done: set<Key>, pools: Trace -> seq<Trace>,
                                             data: Trace -> DealData)
    returns (at: seq<nat>, parts: seq<seq<Planned>>)
    ensures Picked(es, done, CanQuote(pools), BySupplier(), at, NegotiatorReasons(es, done, pools, data).1)
    ensures |parts| == |at| && NegotiatorReasons(es, done, pools, data).0 == Joined(parts)
    ensures forall k | 0 <= k < |at| :: Quoted(es[at[k]], pools(es[at[k]]), data(es[at[k]]), parts[k])
  {
    hide Picked, Quoted, NegotiatorWrites, NegotiatorReasons, CanQuote, BySupplier;
    NegotiatorStep(es, done, pools, data);
    if es == [] {
      at, parts := [], [];
      NothingPicked(done, CanQuote(pools), BySupplier());
    } else {
      var n := |es| - 1;
      var t := es[n];
      at, parts := NegotiatorTakesUp(es[..n], done, pools, data);
      var after := NegotiatorReasons(es[..n], done, pools, data).1;
      PickedMore(es[..n], done, CanQuote(pools), BySupplier(), at, after, t);
      PickedWithin(es[..n], done, CanQuote(pools), BySupplier(), at, after);
      assert es == es[..n] + [t];
      if CanQuote(pools)(t) && BySupplier()(t) !in after {
        QuoteWritten(t, pools(t), data(t));
        var part := NegotiatorWrites(t, FirstHit(pools(t), IsListIn(t.corr)).value, data(t));
        JoinedMore(parts, part);
        at, parts := at + [n], parts + [part];
      }
    }
  }

  lemma NegotiatorStep(es: seq<Trace>, done: set<Key>, pools: Trace -> seq<Trace>, data: Trace -> DealData)
    ensures es == [] ==> NegotiatorReasons(es, done, pools, data) == ([], done)
    ensures es != [] ==>
              var before, t := NegotiatorReasons(es[..|es| - 1], done, pools, data), es[|es| - 1];
              if CanQuote(pools)(t) && BySupplier()(t) !in before.1
              then t.payload.Evaluation? && FirstHit(pools(t), IsListIn(t.corr)).Some?
                   && NegotiatorReasons(es, done, pools, data)
                   == (before.0 + NegotiatorWrites(t, FirstHit(pools(t), IsListIn(t.corr)).value, data(t)),
                       before.1 + {BySupplier()(t)})
              else NegotiatorReasons(es, done, pools, data) == before
  {
    hide FirstHit, NegotiatorWrites;
  }

  // ---- what a step sees

  /** Among the newest n of what had been written to the channel by then. */
  ghost predicate Newest(log: Log, moment: nat, ch: Channel, n: nat, t: Trace)
    requires moment <= |log|
  {
    var content := Content(log[..moment], ch);
    exists i :: 0 <= i < |content| && |content| - n <= i && content[i] == t
  }

  lemma {:induction false} SeesNewest(log: Log, moment: nat, ch: Channel, n: nat, t: Trace)
    requires moment <= |log| && n >= 1
    ensures t in ReadAt(log, moment, ch, n) <==> Newest(log, moment, ch, n, t)
    ensures |ReadAt(log, moment, ch, n)| <= n
  {
    hide Content, Recent;
    RecentIsNewest(Content(log[..moment], ch), n, t);
  }

  lemma {:induction false} RecentIsNewest(content: seq<Trace>, n: nat, t: Trace)
    requires n >= 1
    ensures t in Recent(content, n) <==> exists i :: 0 <= i < |content| && |content| - n <= i && content[i] == t
    ensures |Recent(content, n)| <= n
  {
    RecentShape(content, n);
    hide Recent;
    var seen := Recent(content, n);
    if t in seen {
      var k :| 0 <= k < |seen| && seen[k] == t;
      assert content[|content| - 1 - k] == t;
    }
    if i :| 0 <= i < |content| && |content| - n <= i && content[i] == t {
      assert seen[|content| - 1 - i] == t;
    }
  }

  /** A pool is looked up among the newest 20 discoveries of some moment up to now. */
  lemma {:induction false} LookupSees(log: Log, poolAt: Trace -> nat, t: Trace, q: Trace)
    ensures q in Lookups(log, poolAt)(t)
       <==> Newest(log, if poolAt(t) <= |log| then poolAt(t) else |log|, Discovery, 20, q)
  {
    hide ReadAt, Newest;
    SeesNewest(log, if poolAt(t) <= |log| then poolAt(t) else |log|, Discovery, 20, q);
  }

  lemma {:induction false} JoinedLength(parts: seq<seq<Planned>>, size: nat)
    requires forall k | 0 <= k < |parts| :: |parts[k]| == size
    ensures |Joined(parts)| == size * |parts|
  {
    if parts != [] {
      JoinedLength(parts[..|parts| - 1], size);
    }
  }

  // Positions that only go up are no more than there is room for.
  lemma {:induction false} FewPositions(at: seq<nat>, n: nat)
    requires forall k | 0 <= k < |at| :: at[k] < n
    requires forall k, l | 0 <= k < l < |at| :: at[k] < at[l]
    ensures |at| <= n
  {
    if at != [] {
      var m := |at| - 1;
      FewPositions(at[..m], at[m]);
    }
  }

  lemma {:induction false} PickedAll(ts: seq<Trace>, done: set<Key>, ready: Trace -> bool, key: Trace -> Key,
                                     at: seq<nat>, after: set<Key>, t: Trace)
    requires Picked(ts, done, ready, key, at, after)
    ensures t in ts && ready(t) ==> key(t) in after
    ensures |at| <= |ts|
  {
    FewPositions(at, |ts|);
    if t in ts && ready(t) && key(t) !in done {
      var j :| 0 <= j < |ts| && ts[j] == t;
      assert TakenBy(ts, key, at, j);
      assert IsTaken(ts, key, at, key(t));
    }
  }

  /** A scout's step has taken up the request of every requirement among the newest 10, an evaluator's step every
      supplier it can evaluate among the newest 50 discoveries, a negotiator's step every supplier it can quote for
      among the newest 50 evaluations; and no step plans more evaluations or quotes than that. */
  lemma {:induction false} StepTakesUpNewest(c: B.Config, s: State, m: Move, t: Trace)
    requires Enabled(s, m) && (m.Scouting? || m.Evaluating? || m.Negotiating?)
    ensures var x := Next(c, s, m).actors[m.a];
            && (m.Scouting? && Newest(s.log, m.at, Requirement, 10, t) ==> (t.corr, "") in x.done)
            && (m.Evaluating? ==>
                  && (Newest(s.log, m.at, Discovery, 50, t) && CanEvaluate(Lookups(s.log, m.poolAt))(t)
                      ==> (t.corr, t.payload.supplier) in x.done)
                  && |x.plan| <= 2 * 50)
            && (m.Negotiating? ==>
                  && (Newest(s.log, m.at, Score, 50, t) && CanQuote(Lookups(s.log, m.poolAt))(t)
                      ==> (t.corr, t.payload.supplier) in x.done)
                  && |x.plan| <= 50)
  {
    hide Picked, Joined, ReadAt, EvaluatorPool, FirstHit, Newest, ScoutReasons, EvaluatorReasons, NegotiatorReasons,
      Listed;
    var done := s.actors[m.a].done;
    match m
    case Scouting(a, moment, pool, _) =>
      var reqs := ReadAt(s.log, moment, Requirement, 10);
      SeesNewest(s.log, moment, Requirement, 10, t);
      var at, parts := ScoutTakesUp(reqs, done, pool);
      PickedAll(reqs, done, Anything(), ByCorr(), at, ScoutReasons(reqs, done, pool).1, t);
    case Evaluating(a, moment, poolAt, scores, _) =>
      var ds, pools := ReadAt(s.log, moment, Discovery, 50), Lookups(s.log, poolAt);
      SeesNewest(s.log, moment, Discovery, 50, t);
      var at, parts := EvaluatorTakesUp(ds, done, pools, scores);
      PickedAll(ds, done, CanEvaluate(pools), BySupplier(), at, EvaluatorReasons(ds, done, pools, scores).1, t);
      JoinedLength(parts, 2);
    case Negotiating(a, moment, poolAt, quotes, _) =>
      var es, pools := ReadAt(s.log, moment, Score, 50), Lookups(s.log, poolAt);
      SeesNewest(s.log, moment, Score, 50, t);
      var at, parts := NegotiatorTakesUp(es, done, pools, quotes);
      PickedAll(es, done, CanQuote(pools), BySupplier(), at, NegotiatorReasons(es, done, pools, quotes).1, t);
      JoinedLength(parts, 1);
  }

  predicate DecidesOn(p: Planned, corr: string) { p.corr == corr && (p.payload.Award? || p.payload.NoAward?) }

  /** A buyer's step that the kernel approves decides on every request quoted for among the newest 100 quotes that it
      has not awarded yet, from the newest 100 quotes, risks and evaluations. */
  lemma {:induction false} BuyingDecidesNewest(c: B.Config, s: State, m: Move, t: Trace)
    requires Enabled(s, m) && m.Buying? && m.approved
    requires Newest(s.log, m.dealsAt, Deal, 100, t) && B.IsQuote(t)
    requires forall x | x in s.actors[m.a].done :: x.0 != t.corr
    ensures exists p :: p in Next(c, s, m).actors[m.a].plan && DecidesOn(p, t.corr)
    ensures var r := BuyerReads(s.log, m.dealsAt, m.risksAt, m.scoresAt);
            forall u :: && (u in r.deals <==> Newest(s.log, m.dealsAt, Deal, 100, u))
                        && (u in r.risks <==> Newest(s.log, m.risksAt, Risk, 100, u))
                        && (u in r.scores <==> Newest(s.log, m.scoresAt, Score, 100, u))
  {
    hide ReadAt, Newest, B.Reason, B.AwardHolds, B.Pool;
    var r := BuyerReads(s.log, m.dealsAt, m.risksAt, m.scoresAt);
    forall u
      ensures u in r.deals <==> Newest(s.log, m.dealsAt, Deal, 100, u)
      ensures u in r.risks <==> Newest(s.log, m.risksAt, Risk, 100, u)
      ensures u in r.scores <==> Newest(s.log, m.scoresAt, Score, 100, u)
    {
      SeesNewest(s.log, m.dealsAt, Deal, 100, u);
      SeesNewest(s.log, m.risksAt, Risk, 100, u);
      SeesNewest(s.log, m.scoresAt, Score, 100, u);
    }
    B.ReasonMeans(c, r, Decided(s.actors[m.a].done));
    var ps := B.Reason(c, r, Decided(s.actors[m.a].done));
    var p :| p in ps && p.corr == t.corr;
    var k :| 0 <= k < |ps| && ps[k] == p;
    var plan := Next(c, s, m).actors[m.a].plan;
    assert plan == BuyerWrites(ps) && DecidesOn(plan[k], t.corr);
  }

  /** The permissions fit the steps: each archetype may read what it reasons from and only its own channels take what it
      writes; quotes and risks are for the buyer alone and decisions for no actor, the kernel aside. */
  lemma PermissionsFit(who: string, ch: Channel)
    ensures "scout" in Readers(Requirement) && "evaluator" in Readers(Discovery) && "evaluator" in Readers(Requirement)
    ensures "negotiator" in Readers(Score) && "negotiator" in Readers(Discovery) && "negotiator" in Readers(Requirement)
    ensures "buyer" in Readers(Deal) && "buyer" in Readers(Risk) && "buyer" in Readers(Score)
    ensures "kernel" in Readers(ch) && "buyer" in Readers(Requirement)
    ensures who in Readers(ch) && who != "kernel" && (ch == Deal || ch == Risk) ==> who == "buyer"
    ensures who in Readers(Decision) ==> who == "kernel"
    ensures who in Readers(Score) ==> who == "negotiator" || who == "buyer" || who == "kernel"
    ensures who in Readers(Discovery) ==> who == "evaluator" || who == "negotiator" || who == "kernel"
    ensures who in Writers(ch) <==>
            who == match ch case Requirement => "kernel" case Discovery => "scout" case Score => "evaluator"
                            case Risk => "evaluator" case Deal => "negotiator" case Decision => "buyer"
  {
  }
}
