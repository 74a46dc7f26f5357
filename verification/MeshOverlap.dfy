/** The buyer of the mesh (mesh/actors/buyer.py) when its steps overlap: while one step waits for a read, a verdict or a
    write, others may start, each with what it read itself. Reasoning does not wait between looking an id up and marking
    it, so it is one move. What is read is arbitrary, as are the verdicts, and a step may end at any point. */
module MeshOverlap {
  import opened Blackboard
  import B = MeshBuyer

  /** What the steps in flight still have to write, and what has been written. */
  datatype Desk = Desk(processed: set<string>, inFlight: seq<seq<B.Proposal>>, written: seq<B.Proposal>)

  datatype Move =
    | Reasoning(read: B.Reads, approved: bool)
    | Writing(step: nat)
    | Ending(step: nat)

  predicate Enabled(d: Desk, m: Move) {
    match m
    case Reasoning(_, _) => true
    case Writing(k) => k < |d.inFlight| && d.inFlight[k] != []
    case Ending(k) => k < |d.inFlight|
  }

  function Next(c: B.Config, d: Desk, m: Move): Desk
    requires Enabled(d, m)
  {
    match m
    case Reasoning(read, approved) =>
      var ps := B.Reason(c, read, d.processed);
      d.(processed := d.processed + B.Awarded(ps), inFlight := if approved then d.inFlight + [ps] else d.inFlight)
    case Writing(k) =>
      d.(inFlight := d.inFlight[k := d.inFlight[k][1..]], written := d.written + [d.inFlight[k][0]])
    case Ending(k) => d.(inFlight := d.inFlight[k := []])
  }

  ghost predicate Run(c: B.Config, ds: seq<Desk>, ms: seq<Move>) {
    && |ds| == |ms| + 1 && ds[0] == Desk({}, [], [])
    && forall k {:trigger ms[k]} | 0 <= k < |ms| :: Enabled(ds[k], ms[k]) && ds[k + 1] == Next(c, ds[k], ms[k])
  }

  predicate Awards(p: B.Proposal, corr: string) { p.decision.Award? && p.corr == corr }

  predicate IsWritten(written: seq<B.Proposal>, corr: string) {
    exists k :: 0 <= k < |written| && Awards(written[k], corr)
  }

  ghost predicate AwardedOnce(ps: seq<B.Proposal>) {
    forall i, j, corr | 0 <= i < j < |ps| && Awards(ps[i], corr) :: !Awards(ps[j], corr)
  }

  /** Each step in flight awards an id at most once, an id that is marked, not written, and in no other step's plan. */
  ghost predicate Tidy(d: Desk) {
    && AwardedOnce(d.written)
    && (forall corr | IsWritten(d.written, corr) :: corr in d.processed)
    && (forall s, corr | 0 <= s < |d.inFlight| && IsWritten(d.inFlight[s], corr) ::
          corr in d.processed && !IsWritten(d.written, corr))
    && (forall s | 0 <= s < |d.inFlight| :: AwardedOnce(d.inFlight[s]))
    && (forall s, t, corr | 0 <= s < t < |d.inFlight| && IsWritten(d.inFlight[s], corr) ::
          !IsWritten(d.inFlight[t], corr))
  }

  lemma {:induction false} ReasoningKeeps(c: B.Config, d: Desk, read: B.Reads, approved: bool)
    requires Tidy(d)
    ensures Tidy(Next(c, d, Reasoning(read, approved)))
  {
    hide B.Reason, B.Pool, B.AwardHolds, IsWritten, AwardedOnce;
    var ps := B.Reason(c, read, d.processed);
    AwardsNewOnce(c, read, d.processed);
    var e := Next(c, d, Reasoning(read, approved));
    assert forall s | 0 <= s < |e.inFlight| :: s < |d.inFlight| ==> e.inFlight[s] == d.inFlight[s];
  }

  lemma {:induction false} AwardsNewOnce(c: B.Config, read: B.Reads, processed: set<string>)
    ensures var ps := B.Reason(c, read, processed);
            && AwardedOnce(ps)
            && forall corr | IsWritten(ps, corr) :: corr in B.Awarded(ps) && corr !in processed
  {
    hide B.Reason, B.Pool, B.AwardHolds;
    B.ReasonMeans(c, read, processed);
    var ps := B.Reason(c, read, processed);
    forall corr | IsWritten(ps, corr)
      ensures corr in B.Awarded(ps) && corr !in processed
    {
      var k :| 0 <= k < |ps| && Awards(ps[k], corr);
      assert ps[k] in ps;
    }
  }

  lemma IsWrittenFirst(ps: seq<B.Proposal>, corr: string)
    requires ps != []
    ensures IsWritten(ps, corr) <==> Awards(ps[0], corr) || IsWritten(ps[1..], corr)
    ensures AwardedOnce(ps) ==> AwardedOnce(ps[1..]) && (Awards(ps[0], corr) ==> !IsWritten(ps[1..], corr))
  {
    hide Awards;
    if IsWritten(ps, corr) {
      var k :| 0 <= k < |ps| && Awards(ps[k], corr);
      assert k > 0 ==> Awards(ps[1..][k - 1], corr);
    }
    if IsWritten(ps[1..], corr) {
      var k :| 0 <= k < |ps[1..]| && Awards(ps[1..][k], corr);
      assert Awards(ps[k + 1], corr);
    }
    if AwardedOnce(ps) {
      forall i, j, other | 0 <= i < j < |ps[1..]| && Awards(ps[1..][i], other)
        ensures !Awards(ps[1..][j], other)
      {
        assert Awards(ps[i + 1], other);
      }
    }
  }

  lemma IsWrittenMore(ps: seq<B.Proposal>, p: B.Proposal, corr: string)
    ensures IsWritten(ps + [p], corr) <==> IsWritten(ps, corr) || Awards(p, corr)
  {
    hide Awards;
    if IsWritten(ps, corr) {
      var k :| 0 <= k < |ps| && Awards(ps[k], corr);
      assert Awards((ps + [p])[k], corr);
    }
    if Awards(p, corr) {
      assert Awards((ps + [p])[|ps|], corr);
    }
  }

  lemma OnceMore(ps: seq<B.Proposal>, p: B.Proposal)
    requires AwardedOnce(ps) && forall corr | Awards(p, corr) :: !IsWritten(ps, corr)
    ensures AwardedOnce(ps + [p])
  {
    hide Awards;
    var qs := ps + [p];
    forall i, j, corr | 0 <= i < j < |qs| && Awards(qs[i], corr)
      ensures !Awards(qs[j], corr)
    {
      assert Awards(ps[i], corr);
    }
  }

  lemma {:induction false} WritingKeeps(c: B.Config, d: Desk, k: nat)
    requires Tidy(d) && Enabled(d, Writing(k))
    ensures Tidy(Next(c, d, Writing(k)))
  {
    hide IsWritten, AwardedOnce, Awards;
    var ps := d.inFlight[k];
    forall corr
      ensures IsWritten(ps, corr) <==> Awards(ps[0], corr) || IsWritten(ps[1..], corr)
      ensures AwardedOnce(ps[1..]) && (Awards(ps[0], corr) ==> !IsWritten(ps[1..], corr))
      ensures IsWritten(d.written + [ps[0]], corr) <==> IsWritten(d.written, corr) || Awards(ps[0], corr)
    {
      IsWrittenFirst(ps, corr);
      IsWrittenMore(d.written, ps[0], corr);
    }
    OnceMore(d.written, ps[0]);
    IsWrittenFirst(ps, "");
  }

  lemma EndingKeeps(c: B.Config, d: Desk, k: nat)
    requires Tidy(d) && Enabled(d, Ending(k))
    ensures Tidy(Next(c, d, Ending(k)))
  {
    hide AwardedOnce, IsWritten;
    NothingAwarded();
  }

  lemma NothingAwarded()
    ensures AwardedOnce([]) && forall corr :: !IsWritten([], corr)
  {
  }

  lemma {:induction false} EveryDeskIsTidy(c: B.Config, ds: seq<Desk>, ms: seq<Move>, n: nat)
    requires Run(c, ds, ms) && n < |ds|
    ensures Tidy(ds[n])
  {
    hide Tidy, Next, Enabled;
    if n == 0 {
      assert Tidy(Desk({}, [], [])) by { NothingOnDesk(); }
    } else {
      EveryDeskIsTidy(c, ds, ms, n - 1);
      assert Enabled(ds[n - 1], ms[n - 1]) && ds[n] == Next(c, ds[n - 1], ms[n - 1]);
      match ms[n - 1]
      case Reasoning(read, approved) => ReasoningKeeps(c, ds[n - 1], read, approved);
      case Writing(k) => WritingKeeps(c, ds[n - 1], k);
      case Ending(k) => EndingKeeps(c, ds[n - 1], k);
    }
  }

  lemma NothingOnDesk()
    ensures Tidy(Desk({}, [], []))
  {
  }

  /** However many steps of the buyer overlap, and whatever each of them read, at most one award per correlation id is
      ever written. */
  lemma {:induction false} AtMostOneAwardOverlapping(c: B.Config, ds: seq<Desk>, ms: seq<Move>, n: nat, i: nat, j: nat)
    requires Run(c, ds, ms) && n < |ds| && i < |ds[n].written| && j < |ds[n].written|
    requires ds[n].written[i].decision.Award? && ds[n].written[j].decision.Award?
    requires ds[n].written[i].corr == ds[n].written[j].corr
    ensures i == j
  {
    hide Run;
    EveryDeskIsTidy(c, ds, ms, n);
    assert Awards(ds[n].written[i], ds[n].written[i].corr) && Awards(ds[n].written[j], ds[n].written[j].corr);
  }

  // ---- and none goes missing

  predicate InFlight(d: Desk, corr: string) { exists s :: 0 <= s < |d.inFlight| && IsWritten(d.inFlight[s], corr) }

  /** An id marked as decided has its award written or in a step still in flight. */
  predicate Accounted(d: Desk) {
    forall corr | corr in d.processed :: IsWritten(d.written, corr) || InFlight(d, corr)
  }

  /** Every step is approved, and none ends before it has written everything. */
  predicate Smooth(ms: seq<Move>) {
    forall k | 0 <= k < |ms| :: !ms[k].Ending? && (ms[k].Reasoning? ==> ms[k].approved)
  }

  lemma {:induction false} AccountedReasoning(c: B.Config, d: Desk, read: B.Reads)
    requires Accounted(d)
    ensures Accounted(Next(c, d, Reasoning(read, true)))
  {
    hide B.Reason, IsWritten;
    var e := Next(c, d, Reasoning(read, true));
    var ps := B.Reason(c, read, d.processed);
    forall corr | corr in e.processed
      ensures IsWritten(e.written, corr) || InFlight(e, corr)
    {
      if corr in d.processed {
        if InFlight(d, corr) {
          var s :| 0 <= s < |d.inFlight| && IsWritten(d.inFlight[s], corr);
          assert IsWritten(e.inFlight[s], corr);
        }
      } else {
        AwardedIsWritten(ps, corr);
        assert IsWritten(e.inFlight[|d.inFlight|], corr);
      }
    }
  }

  lemma AwardedIsWritten(ps: seq<B.Proposal>, corr: string)
    ensures corr in B.Awarded(ps) ==> IsWritten(ps, corr)
  {
    if corr in B.Awarded(ps) {
      var p :| p in ps && p.decision.Award? && p.corr == corr;
      var k :| 0 <= k < |ps| && ps[k] == p;
      assert Awards(ps[k], corr);
    }
  }

  lemma {:induction false} AccountedWriting(c: B.Config, d: Desk, k: nat)
    requires Accounted(d) && Enabled(d, Writing(k))
    ensures Accounted(Next(c, d, Writing(k)))
  {
    hide IsWritten;
    var e, ps := Next(c, d, Writing(k)), d.inFlight[k];
    forall corr | corr in e.processed
      ensures IsWritten(e.written, corr) || InFlight(e, corr)
    {
      IsWrittenFirst(ps, corr);
      IsWrittenMore(d.written, ps[0], corr);
      if InFlight(d, corr) {
        var s :| 0 <= s < |d.inFlight| && IsWritten(d.inFlight[s], corr);
        assert s != k ==> IsWritten(e.inFlight[s], corr);
        assert s == k && IsWritten(ps[1..], corr) ==> IsWritten(e.inFlight[k], corr);
      }
    }
  }

  /** A step marks every id it read a quote for under which some candidate passes the policy; a refused one writes
      none of it. */
  lemma {:induction false} StepMarks(c: B.Config, d: Desk, read: B.Reads, approved: bool, k: nat,
                                     x: Candidate)
    requires k < |read.deals| && B.IsQuote(read.deals[k])
    requires x in B.Pool(c, read, read.deals[k].corr) && B.Passes(c.policy, x.risk)
    ensures read.deals[k].corr in Next(c, d, Reasoning(read, approved)).processed
    ensures !approved ==> Next(c, d, Reasoning(read, approved)).inFlight == d.inFlight
  {
    hide B.Reason, B.Pool, B.AwardHolds, B.Passes;
    var t := read.deals[k];
    B.ReasonMeans(c, read, d.processed);
    if t.corr !in d.processed {
      var ps := B.Reason(c, read, d.processed);
      assert t in read.deals;
      var p :| p in ps && p.corr == t.corr;
      assert p.decision.Award?;
    }
  }

  /** Where every step is approved and runs to its end, overlapping loses nothing: an id marked as decided has its award
      written or in flight, and once nothing is in flight the ids marked are exactly those with an award written. */
  lemma {:induction false} NothingLostOverlapping(c: B.Config, ds: seq<Desk>, ms: seq<Move>, n: nat, corr: string)
    requires Run(c, ds, ms) && Smooth(ms) && n < |ds|
    ensures Accounted(ds[n])
    ensures (forall s | 0 <= s < |ds[n].inFlight| :: ds[n].inFlight[s] == []) ==>
              (corr in ds[n].processed <==> IsWritten(ds[n].written, corr))
  {
    hide Next, Enabled, Accounted;
    EveryDeskAccounted(c, ds, ms, n);
    EveryDeskIsTidy(c, ds, ms, n);
    LandedIsWritten(ds[n], corr);
  }

  lemma LandedIsWritten(d: Desk, corr: string)
    requires Accounted(d) && Tidy(d)
    ensures (forall s | 0 <= s < |d.inFlight| :: d.inFlight[s] == []) ==>
              (corr in d.processed <==> IsWritten(d.written, corr))
  {
  }

  lemma {:induction false} EveryDeskAccounted(c: B.Config, ds: seq<Desk>, ms: seq<Move>, n: nat)
    requires Run(c, ds, ms) && Smooth(ms) && n < |ds|
    ensures Accounted(ds[n])
  {
    hide Next, Enabled, IsWritten;
    if n > 0 {
      EveryDeskAccounted(c, ds, ms, n - 1);
      assert Enabled(ds[n - 1], ms[n - 1]) && ds[n] == Next(c, ds[n - 1], ms[n - 1]);
      match ms[n - 1]
      case Reasoning(read, _) => AccountedReasoning(c, ds[n - 1], read);
      case Writing(k) => AccountedWriting(c, ds[n - 1], k);
    }
  }
}
