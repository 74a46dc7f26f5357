/** Supplier performance records (swarm/domain/supplier.py) and the store that keeps them
    (swarm/memory/supplier.py). The timestamp of a record is not modelled. */
module SupplierMemory {
  import opened Basics

  datatype Outcome = Outcome(onTime: bool, quality: real, price: real, carbon: real)

  datatype Performance = Performance(total: nat, successful: nat, delivery: real, quality: real, price: real,
                                     carbon: real)

  const FRESH := Performance(0, 0, 0.0, 0.0, 1.0, 0.0)

  function RunningMean(current: real, count: nat, value: real): real {
    if count == 0 then value else (current * count as real + value) / (count + 1) as real
  }

  function OnTime(): Outcome -> real { (o: Outcome) => if o.onTime then 1.0 else 0.0 }
  function Quality(): Outcome -> real { (o: Outcome) => o.quality }
  function Price(): Outcome -> real { (o: Outcome) => o.price }
  function Carbon(): Outcome -> real { (o: Outcome) => o.carbon }

  function ApplyOutcome(p: Performance, o: Outcome): Performance {
    Performance(p.total + 1, p.successful + if o.onTime then 1 else 0,
                RunningMean(p.delivery, p.total, OnTime()(o)), RunningMean(p.quality, p.total, o.quality),
                RunningMean(p.price, p.total, o.price), RunningMean(p.carbon, p.total, o.carbon))
  }

  function ApplyAll(os: seq<Outcome>): Performance {
    if os == [] then FRESH else ApplyOutcome(ApplyAll(os[..|os| - 1]), os[|os| - 1])
  }

  // ---- running means are means

  function Sum(f: Outcome -> real, os: seq<Outcome>): real {
    if os == [] then 0.0 else Sum(f, os[..|os| - 1]) + f(os[|os| - 1])
  }

  function Mean(f: Outcome -> real, os: seq<Outcome>): real
    requires os != []
  {
    Sum(f, os) / |os| as real
  }

  // The mean of n values, from the mean of the first n - 1.
  lemma MeanStep(f: Outcome -> real, os: seq<Outcome>, current: real)
    requires os != []
    requires |os| > 1 ==> current == Mean(f, os[..|os| - 1])
    ensures RunningMean(current, |os| - 1, f(os[|os| - 1])) == Mean(f, os)
  {
    var n := (|os| - 1) as real;
    var front := os[..|os| - 1];
    if |os| > 1 {
      assert current * n == Sum(f, front) by { Multiplied(Sum(f, front), n); }
    } else {
      assert front == [];
    }
  }

  lemma Multiplied(s: real, n: real)
    requires n > 0.0
    ensures s / n * n == s
  {
  }

  function Successes(os: seq<Outcome>): nat {
    if os == [] then 0 else Successes(os[..|os| - 1]) + if os[|os| - 1].onTime then 1 else 0
  }

  lemma {:induction false} SuccessesSum(os: seq<Outcome>)
    ensures Sum(OnTime(), os) == Successes(os) as real
  {
    if os != [] {
      SuccessesSum(os[..|os| - 1]);
    }
  }

  /** Every average of a record is the mean over all its outcomes, and the average delivery score is the delivery
      reliability, the fraction delivered on time. */
  lemma {:induction false} AveragesAreMeans(os: seq<Outcome>)
    requires os != []
    ensures var p := ApplyAll(os);
            && p.total == |os| && p.successful == Successes(os)
            && p.delivery == Mean(OnTime(), os) == Reliability(p)
            && p.quality == Mean(Quality(), os) && p.price == Mean(Price(), os) && p.carbon == Mean(Carbon(), os)
  {
    hide Sum, RunningMean, Mean;
    var n := |os| - 1;
    if n > 0 {
      AveragesAreMeans(os[..n]);
    } else {
      assert os[..n] == [];
    }
    var before := ApplyAll(os[..n]);
    assert before.total == n;
    MeanStep(OnTime(), os, before.delivery);
    MeanStep(Quality(), os, before.quality);
    MeanStep(Price(), os, before.price);
    MeanStep(Carbon(), os, before.carbon);
    SuccessesSum(os);
    MeanOfOnTime(os);
  }

  lemma MeanOfOnTime(os: seq<Outcome>)
    requires os != []
    ensures Mean(OnTime(), os) == Successes(os) as real / |os| as real
  {
    SuccessesSum(os);
  }

  function Reliability(p: Performance): real {
    if p.total == 0 then 0.0 else p.successful as real / p.total as real
  }

  // ---- order does not matter

  lemma {:induction false} SumRemove(f: Outcome -> real, os: seq<Outcome>, k: nat)
    requires k < |os|
    ensures Sum(f, os) == Sum(f, os[..k] + os[k + 1..]) + f(os[k])
  {
    var n := |os| - 1;
    var rest := os[..k] + os[k + 1..];
    if k == n {
      assert rest == os[..n];
    } else {
      SumRemove(f, os[..n], k);
      assert rest[..n - 1] == os[..n][..k] + os[..n][k + 1..];
      assert rest[n - 1] == os[n];
    }
  }

  lemma WithoutOne(s: seq<Outcome>, k: nat)
    requires k < |s|
    ensures multiset(s[..k] + s[k + 1..]) == multiset(s) - multiset{s[k]}
  {
    assert s == s[..k] + [s[k]] + s[k + 1..];
  }

  lemma {:induction false} SumPermuted(f: Outcome -> real, a: seq<Outcome>, b: seq<Outcome>)
    requires multiset(a) == multiset(b)
    ensures Sum(f, a) == Sum(f, b)
  {
    assert |a| == |multiset(a)| == |b|;
    if a != [] {
      var n := |a| - 1;
      assert a[n] in multiset(b);
      var k :| 0 <= k < |b| && b[k] == a[n];
      var rest := b[..k] + b[k + 1..];
      WithoutOne(a, n);
      WithoutOne(b, k);
      assert a[..n] + a[n + 1..] == a[..n];
      SumPermuted(f, a[..n], rest);
      SumRemove(f, b, k);
    }
  }

  /** A record does not depend on the order its outcomes came in. */
  lemma {:induction false} RecordPermuted(a: seq<Outcome>, b: seq<Outcome>)
    requires multiset(a) == multiset(b)
    ensures ApplyAll(a) == ApplyAll(b)
  {
    hide Sum, ApplyOutcome;
    assert |a| == |multiset(a)| == |b|;
    if a != [] {
      AveragesAreMeans(a);
      AveragesAreMeans(b);
      SumPermuted(OnTime(), a, b);
      SumPermuted(Quality(), a, b);
      SumPermuted(Price(), a, b);
      SumPermuted(Carbon(), a, b);
      SuccessesSum(a);
      SuccessesSum(b);
    }
  }

  // ---- the history adjustment

  const POOR := 0.40
  const STRONG := 0.90
  const MAX_ADJUSTMENT := 0.05

  function HistoryAdjustment(p: Option<Performance>): real {
    if p.None? || p.value.total == 0 then 0.0
    else if Reliability(p.value) >= STRONG then MAX_ADJUSTMENT
    else if Reliability(p.value) <= POOR then -MAX_ADJUSTMENT
    else ((Reliability(p.value) - POOR) / (STRONG - POOR) * 2.0 - 1.0) * MAX_ADJUSTMENT
  }

  /** The adjustment never exceeds 0.05 either way, reaches it exactly at the two ends, grows with reliability,
      and vanishes exactly for no history and for a reliability of 0.65. */
  lemma AdjustmentShape(p: Performance, q: Performance)
    requires p.total > 0 && q.total > 0
    ensures var a, b := HistoryAdjustment(Some(p)), HistoryAdjustment(Some(q));
            && -0.05 <= a <= 0.05
            && (a == 0.05 <==> Reliability(p) >= 0.90)
            && (a == -0.05 <==> Reliability(p) <= 0.40)
            && (a == 0.0 <==> Reliability(p) == 0.65)
            && (Reliability(p) <= Reliability(q) ==> a <= b)
            && (0.40 <= Reliability(p) < Reliability(q) <= 0.90 ==> a < b)
    ensures HistoryAdjustment(None) == HistoryAdjustment(Some(FRESH)) == 0.0
  {
    Interpolated(Reliability(p));
    Interpolated(Reliability(q));
  }

  lemma Interpolated(r: real)
    ensures ((r - POOR) / (STRONG - POOR) * 2.0 - 1.0) * MAX_ADJUSTMENT == 0.2 * r - 0.13
  {
    assert (r - POOR) / (STRONG - POOR) == 2.0 * (r - POOR);
  }

  // ---- the store

  /** One recorded outcome, with the unit price the supplier had quoted if it is known. */
  datatype Report = Report(supplier: string, onTime: bool, quality: real, actualPrice: real, carbon: real,
                           reference: Option<real>)

  function PriceCompetitiveness(reference: Option<real>, actual: real): real {
    if reference.None? || reference.value == 0.0 || actual <= 0.0 then 1.0
    else Clip(0.0, 1.0, reference.value / actual)
  }

  function ToOutcome(r: Report): Outcome {
    Outcome(r.onTime, r.quality, PriceCompetitiveness(r.reference, r.actualPrice), r.carbon)
  }

  /** Paying no more than was quoted is perfect, and so is what cannot be compared: no quoted price, one of zero, or
      nothing paid. Paying k times as much scores 1/k, and only a negative quote scores nothing. */
  lemma CompetitivenessMeans(reference: Option<real>, actual: real)
    ensures var score := PriceCompetitiveness(reference, actual);
            && 0.0 <= score <= 1.0
            && (score == 1.0 <==>
                reference.None? || reference.value == 0.0 || actual <= 0.0 || actual <= reference.value)
            && (score == 0.0 <==> reference.Some? && reference.value < 0.0 < actual)
            && (reference.Some? && 0.0 < reference.value <= actual ==> score * actual == reference.value)
  {
    if reference.Some? && reference.value != 0.0 && actual > 0.0 {
      Multiplied(reference.value, actual);
      var ratio := reference.value / actual;
      RatioLaws(ratio, actual);
      assert PriceCompetitiveness(reference, actual) == Clip(0.0, 1.0, ratio);
      if 0.0 < reference.value <= actual {
        assert PriceCompetitiveness(reference, actual) == ratio;
      }
    }
  }

  lemma RatioLaws(ratio: real, actual: real)
    requires actual > 0.0
    ensures ratio >= 0.0 <==> ratio * actual >= 0.0
    ensures ratio <= 0.0 <==> ratio * actual <= 0.0
    ensures ratio >= 1.0 <==> ratio * actual >= actual
  {
    if ratio > 0.0 {
      assert ratio * actual > 0.0;
    } else if ratio < 0.0 {
      assert ratio * actual < 0.0;
    }
    if ratio >= 1.0 {
      assert ratio * actual >= actual;
    } else {
      assert ratio * actual < actual;
    }
  }

  /** What was reported about one supplier, in order. */
  function OutcomesOf(log: seq<Report>, supplier: string): seq<Outcome> {
    if log == [] then []
    else
      var last := log[|log| - 1];
      OutcomesOf(log[..|log| - 1], supplier) + if last.supplier == supplier then [ToOutcome(last)] else []
  }

  /** The total of a figure over what was reported about one supplier. */
  function Tally(figure: Report -> real, log: seq<Report>, supplier: string): real {
    if log == [] then 0.0
    else
      var last := log[|log| - 1];
      Tally(figure, log[..|log| - 1], supplier) + if last.supplier == supplier then figure(last) else 0.0
  }

  function EachOne(): Report -> real { (r: Report) => 1.0 }
  function EachOnTime(): Report -> real { (r: Report) => if r.onTime then 1.0 else 0.0 }
  function ReportedQuality(): Report -> real { (r: Report) => r.quality }
  function ReportedCarbon(): Report -> real { (r: Report) => r.carbon }
  function ReportedPrice(): Report -> real { (r: Report) => PriceCompetitiveness(r.reference, r.actualPrice) }

  lemma {:induction false} SumIsTally(f: Outcome -> real, figure: Report -> real, log: seq<Report>, s: string)
    requires forall r :: f(ToOutcome(r)) == figure(r)
    ensures Sum(f, OutcomesOf(log, s)) == Tally(figure, log, s)
  {
    hide ToOutcome;
    if log != [] {
      var front := OutcomesOf(log[..|log| - 1], s);
      SumIsTally(f, figure, log[..|log| - 1], s);
      var last := log[|log| - 1];
      assert (front + [ToOutcome(last)])[..|front|] == front;
      assert front + [] == front;
    }
  }

  lemma {:induction false} CountIsTally(log: seq<Report>, s: string)
    ensures |OutcomesOf(log, s)| as real == Tally(EachOne(), log, s)
  {
    if log != [] {
      CountIsTally(log[..|log| - 1], s);
    }
  }

  lemma TimesCount(f: Outcome -> real, os: seq<Outcome>)
    requires os != []
    ensures Mean(f, os) * |os| as real == Sum(f, os)
  {
    Multiplied(Sum(f, os), |os| as real);
  }

  /** In terms of the reports: a supplier's record counts its reports and those on time, and each of its averages, times
      that count, is the total of the figure reported under that name. */
  lemma {:induction false} RecordAveragesReports(log: seq<Report>, s: string)
    requires OutcomesOf(log, s) != []
    ensures var p, n := ApplyAll(OutcomesOf(log, s)), Tally(EachOne(), log, s);
            && p.total as real == n && p.successful as real == Tally(EachOnTime(), log, s)
            && p.delivery * n == Tally(EachOnTime(), log, s)
            && p.quality * n == Tally(ReportedQuality(), log, s)
            && p.price * n == Tally(ReportedPrice(), log, s)
            && p.carbon * n == Tally(ReportedCarbon(), log, s)
  {
    hide Sum, Mean, ApplyAll, OutcomesOf, Tally, Successes, PriceCompetitiveness;
    var os := OutcomesOf(log, s);
    AveragesAreMeans(os);
    CountIsTally(log, s);
    SuccessesSum(os);
    SumIsTally(OnTime(), EachOnTime(), log, s);
    SumIsTally(Quality(), ReportedQuality(), log, s);
    SumIsTally(Price(), ReportedPrice(), log, s);
    SumIsTally(Carbon(), ReportedCarbon(), log, s);
    TimesCount(OnTime(), os);
    TimesCount(Quality(), os);
    TimesCount(Price(), os);
    TimesCount(Carbon(), os);
  }

  lemma OneMore(log: seq<Report>, r: Report, s: string)
    ensures OutcomesOf(log + [r], s) == OutcomesOf(log, s) + if s == r.supplier then [ToOutcome(r)] else []
  {
    assert (log + [r])[..|log|] == log;
  }

  lemma AppliedOneMore(os: seq<Outcome>, o: Outcome)
    ensures ApplyAll(os + [o]) == ApplyOutcome(ApplyAll(os), o)
  {
    assert (os + [o])[..|os|] == os;
  }

  ghost predicate Records(performance: map<string, Performance>, log: seq<Report>) {
    forall s :: (s in performance <==> OutcomesOf(log, s) != [])
             && (s in performance ==> performance[s] == ApplyAll(OutcomesOf(log, s)))
  }

  function RecordOf(performance: map<string, Performance>, supplier: string): Performance {
    if supplier in performance then performance[supplier] else FRESH
  }

  lemma {:induction false} RecordsGrow(performance: map<string, Performance>, log: seq<Report>, r: Report)
    requires Records(performance, log)
    ensures var updated := ApplyOutcome(RecordOf(performance, r.supplier), ToOutcome(r));
            && updated == ApplyAll(OutcomesOf(log + [r], r.supplier))
            && Records(performance[r.supplier := updated], log + [r])
  {
    hide ApplyOutcome, ToOutcome, OutcomesOf, ApplyAll;
    EmptyRecord();
    var updated := ApplyOutcome(RecordOf(performance, r.supplier), ToOutcome(r));
    var after := performance[r.supplier := updated];
    AppliedOneMore(OutcomesOf(log, r.supplier), ToOutcome(r));
    forall s
      ensures s in after <==> OutcomesOf(log + [r], s) != []
      ensures s in after ==> after[s] == ApplyAll(OutcomesOf(log + [r], s))
    {
      OneMore(log, r, s);
      if s != r.supplier {
        assert OutcomesOf(log, s) + [] == OutcomesOf(log, s);
      }
    }
    OneMore(log, r, r.supplier);
  }

  // Nothing delivered, and a price that could not be better.
  lemma EmptyRecord()
    ensures ApplyAll([]) == FRESH == Performance(0, 0, 0.0, 0.0, 1.0, 0.0) && Reliability(FRESH) == 0.0
  {
  }

  class SupplierMemoryStore {
    var performance: map<string, Performance>
    ghost var log: seq<Report>

    /** Each supplier's record is that of its own reports, and nobody else has one. */
    ghost predicate Valid()
      reads this
    {
      Records(performance, log)
    }

    constructor ()
      ensures Valid() && log == [] && performance == map[]
    {
      performance := map[];
      log := [];
    }

    method Get(supplier: string) returns (found: Option<Performance>)
      requires Valid()
      ensures found == if OutcomesOf(log, supplier) == [] then None else Some(ApplyAll(OutcomesOf(log, supplier)))
    {
      found := if supplier in performance then Some(performance[supplier]) else None;
    }

    method UpdateFromOutcome(r: Report) returns (updated: Performance)
      requires Valid()
      modifies this
      ensures Valid() && log == old(log) + [r]
      ensures performance == old(performance)[r.supplier := updated]
      ensures updated == ApplyAll(OutcomesOf(log, r.supplier))
    {
      hide ApplyOutcome, ToOutcome, OutcomesOf, ApplyAll;
      var record := RecordOf(performance, r.supplier);
      updated := ApplyOutcome(record, ToOutcome(r));
      performance := performance[r.supplier := updated];
      log := log + [r];
      RecordsGrow(old(performance), old(log), r);
    }
  }
}
