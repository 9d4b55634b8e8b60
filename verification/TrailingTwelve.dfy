/**
 * Trailing-twelve-month figures over the extracted facts, and what they have to
 * do with the walk that produced them.
 */
module TrailingTwelve {
  import opened Options
  import opened FactExtraction
  import opened FactKeys
  import opened FactSelection
  import opened Facts
  import opened Sets
  import opened YearWalk

  type Series = map<int, Fact>

  /** One metric's quarters by end date; a later fact replaces an earlier one. */
  function SeriesOf(facts: seq<Fact>, metric: string): Series {
    if |facts| == 0 then map[]
    else
      var f := facts[|facts| - 1];
      var front := SeriesOf(facts[..|facts| - 1], metric);
      if f.metric == metric && f.period.Quarter? then front[f.end := f] else front
  }

  ghost predicate IsLatest(s: set<int>, m: int) {
    m in s && forall x :: x in s ==> x <= m
  }

  lemma SomeElement<T>(s: set<T>) returns (e: T)
    requires s != {}
    ensures e in s
  {
    e :| e in s;
  }

  lemma {:induction false} LatestExists(s: set<int>)
    requires s != {}
    ensures exists m :: IsLatest(s, m)
  {
    var e := SomeElement(s);
    var rest := s - {e};
    assert forall x :: x in s ==> x == e || x in rest;
    if rest == {} {
      assert IsLatest(s, e);
    } else {
      LatestExists(rest);
      var m :| IsLatest(rest, m);
      assert IsLatest(s, if e < m then m else e);
    }
  }

  ghost function SortedEnds(s: set<int>): seq<int> {
    if s == {} then []
    else
      LatestExists(s);
      var m :| IsLatest(s, m);
      SortedEnds(s - {m}) + [m]
  }

  /** cur begins, give or take three days, the day after prev ends. */
  predicate BackToBack(prev: Fact, cur: Fact) {
    cur.start.Some? && -3 <= cur.start.value - prev.end - 1 <= 3
  }

  lemma {:induction false} SortedEndsAre(s: set<int>)
    ensures forall e :: e in SortedEnds(s) ==> e in s
  {
    if s != {} {
      LatestExists(s);
      var m :| IsLatest(s, m);
      SortedEndsAre(s - {m});
    }
  }

  /** The sum of the latest four quarters, if they follow one another. */
  ghost function TrailingFour(series: Series): Option<(real, int)> {
    var all := SortedEnds(series.Keys);
    SortedEndsAre(series.Keys);
    if |all| < 4 then None
    else
      var ends := all[|all| - 4..];
      assert forall i :: 0 <= i < 4 ==> ends[i] == all[|all| - 4 + i] && ends[i] in all;
      var q0, q1, q2, q3 := series[ends[0]], series[ends[1]], series[ends[2]], series[ends[3]];
      if BackToBack(q0, q1) && BackToBack(q1, q2) && BackToBack(q2, q3)
      then Some((q0.value + q1.value + q2.value + q3.value, ends[3])) else None
  }

  lemma LatestLast(s: set<int>, e: int)
    requires IsLatest(s, e)
    ensures SortedEnds(s) == SortedEnds(s - {e}) + [e]
  {
  }

  lemma LatestFour(s: set<int>, e0: int, e1: int, e2: int, e3: int)
    requires {e0, e1, e2, e3} <= s && e0 < e1 < e2 < e3
    requires forall x :: x in s ==> x < e0 || x in {e0, e1, e2, e3}
    ensures |SortedEnds(s)| >= 4 && SortedEnds(s)[|SortedEnds(s)| - 4..] == [e0, e1, e2, e3]
  {
    hide SortedEnds;
    var s3, s2, s1 := s - {e3}, s - {e3} - {e2}, s - {e3} - {e2} - {e1};
    assert IsLatest(s, e3) && IsLatest(s3, e2) && IsLatest(s2, e1) && IsLatest(s1, e0);
    LatestLast(s, e3);
    LatestLast(s3, e2);
    LatestLast(s2, e1);
    LatestLast(s1, e0);
    hide IsLatest;
    var front := SortedEnds(s1 - {e0});
    assert SortedEnds(s) == front + ([e0] + ([e1] + ([e2] + [e3])));
  }

  lemma {:induction false} SeriesKeys(facts: seq<Fact>, metric: string)
    ensures forall e :: e in SeriesOf(facts, metric) ==>
              var f := SeriesOf(facts, metric)[e]; f in facts && f.end == e && f.metric == metric && f.period.Quarter?
  {
    if |facts| > 0 { SeriesKeys(facts[..|facts| - 1], metric); }
  }

  lemma {:induction false} SeriesHas(facts: seq<Fact>, f: Fact)
    requires Unique(facts) && f in facts && f.period.Quarter?
    ensures f.end in SeriesOf(facts, f.metric) && SeriesOf(facts, f.metric)[f.end] == f
  {
    var n := |facts| - 1;
    var front, last := facts[..n], facts[n];
    assert facts == front + [last];
    UniqueConcat(front, [last]);
    if f != last {
      assert f in front && KeyOf(f) != KeyOf(last);
      SeriesHas(front, f);
    }
  }

  /** The stored quarter a step of the walk stands for. */
  function StepFact(spec: MetricSpec, s: Step): Fact {
    if s.derived then AsDerived(spec, s) else AsReported(spec, Quarter, s.raw)
  }

  lemma StepIsExtracted(spec: MetricSpec, periods: seq<Raw>, year: Duration, s: Step)
    requires spec.kind.Flow? && year in Annuals(Durations(periods)) && s in WalkOf(Durations(periods), year)
    ensures StepFact(spec, s) in MetricFacts(spec, periods)
    ensures StepFact(spec, s).metric == spec.name && StepFact(spec, s).period.Quarter?
    ensures StepFact(spec, s).start == Some(s.start) && StepFact(spec, s).end == s.end
    ensures StepFact(spec, s).value == s.value
  {
    var ds := Durations(periods);
    WalkIsShort(ds, year);
    if s.derived {
      DerivedFactsAre(spec, ds, Annuals(ds));
    } else {
      AllReportedAre(spec, Quarter, Quarters(ds));
      var i :| 0 <= i < |Quarters(ds)| && Quarters(ds)[i] == s.raw;
      assert AllReported(spec, Quarter, Quarters(ds))[i] == StepFact(spec, s);
    }
  }

  /** The facts q0 to q3 are the series' latest four, in order. */
  ghost predicate AreLatest(series: Series, q0: Fact, q1: Fact, q2: Fact, q3: Fact) {
    && (forall q :: q in {q0, q1, q2, q3} ==> q.end in series && series[q.end] == q)
    && q0.end < q1.end < q2.end < q3.end
    && (forall e :: e in series ==> e < q0.end || e in {q0.end, q1.end, q2.end, q3.end})
  }

  lemma TrailingSum(series: Series, q0: Fact, q1: Fact, q2: Fact, q3: Fact)
    requires AreLatest(series, q0, q1, q2, q3)
    ensures TrailingFour(series) ==
            if BackToBack(q0, q1) && BackToBack(q1, q2) && BackToBack(q2, q3)
            then Some((q0.value + q1.value + q2.value + q3.value, q3.end)) else None
  {
    assert q0 in {q0, q1, q2, q3} && q1 in {q0, q1, q2, q3} && q2 in {q0, q1, q2, q3} && q3 in {q0, q1, q2, q3};
    LatestFour(series.Keys, q0.end, q1.end, q2.end, q3.end);
  }

  lemma {:induction false} SortedEndsSpec(s: set<int>)
    ensures |SortedEnds(s)| == |s| && forall e :: e in s <==> e in SortedEnds(s)
    ensures forall i, j :: 0 <= i < j < |s| ==> SortedEnds(s)[i] < SortedEnds(s)[j]
  {
    if s != {} {
      LatestExists(s);
      var m :| IsLatest(s, m);
      LatestLast(s, m);
      var front := SortedEnds(s - {m});
      SortedEndsSpec(s - {m});
      forall i | 0 <= i < |front| ensures front[i] < m { assert front[i] in front && front[i] in s; }
    }
  }

  /** cur starts at most three days off the day after prev ends. */
  ghost predicate Adjoins(prev: Fact, cur: Fact) {
    exists start :: cur.start == Some(start) && -3 <= start - (prev.end + 1) <= 3
  }

  /** The four latest quarters of the series, the first three each adjoined by the next. */
  ghost predicate FourInARow(series: Series, q0: Fact, q1: Fact, q2: Fact, q3: Fact) {
    AreLatest(series, q0, q1, q2, q3) && Adjoins(q0, q1) && Adjoins(q1, q2) && Adjoins(q2, q3)
  }

  lemma FourLatest(series: Series) returns (q0: Fact, q1: Fact, q2: Fact, q3: Fact)
    requires |series| >= 4 && forall e :: e in series ==> series[e].end == e
    ensures AreLatest(series, q0, q1, q2, q3)
  {
    var all := SortedEnds(series.Keys);
    SortedEndsSpec(series.Keys);
    var n := |all|;
    assert all[n - 4] in series && all[n - 3] in series && all[n - 2] in series && all[n - 1] in series;
    q0, q1, q2, q3 := series[all[n - 4]], series[all[n - 3]], series[all[n - 2]], series[all[n - 1]];
    forall e | e in series ensures e < q0.end || e in {q0.end, q1.end, q2.end, q3.end} {
      assert e in all;
      var i :| 0 <= i < n && all[i] == e;
    }
  }

  /** The latest four adjoin each other and sum to `sum` as of `end`. */
  ghost predicate TrailsTo(series: Series, q0: Fact, q1: Fact, q2: Fact, q3: Fact, sum: real, end: int) {
    FourInARow(series, q0, q1, q2, q3) && sum == q0.value + q1.value + q2.value + q3.value && end == q3.end
  }

  lemma LatestDecide(series: Series, q0: Fact, q1: Fact, q2: Fact, q3: Fact, sum: real, end: int)
    requires AreLatest(series, q0, q1, q2, q3)
    ensures TrailingFour(series) == Some((sum, end)) <==> TrailsTo(series, q0, q1, q2, q3, sum, end)
  {
    TrailingSum(series, q0, q1, q2, q3);
    hide AreLatest, TrailingFour;
  }

  /**
   * A trailing sum is given exactly when there are four quarters and the latest
   * four adjoin each other; it is their sum as of the last end.
   */
  lemma TrailingExactly(series: Series, sum: real, end: int)
    requires forall e :: e in series ==> series[e].end == e
    ensures TrailingFour(series) == Some((sum, end)) <==>
            exists q0, q1, q2, q3 :: TrailsTo(series, q0, q1, q2, q3, sum, end)
    ensures |series| < 4 ==> TrailingFour(series) == None
  {
    if |series| >= 4 {
      var q0, q1, q2, q3 := FourLatest(series);
      hide TrailingFour, AreLatest, Adjoins;
      LatestDecide(series, q0, q1, q2, q3, sum, end);
      forall p0, p1, p2, p3 | TrailsTo(series, p0, p1, p2, p3, sum, end)
        ensures TrailingFour(series) == Some((sum, end))
      {
        LatestDecide(series, p0, p1, p2, p3, sum, end);
      }
    } else {
      SortedEndsSpec(series.Keys);
      hide AreLatest, Adjoins;
      forall q0, q1, q2, q3 ensures !TrailsTo(series, q0, q1, q2, q3, sum, end) {
        if AreLatest(series, q0, q1, q2, q3) { TooFew(series, q0, q1, q2, q3); }
      }
    }
  }

  lemma TooFew(series: Series, q0: Fact, q1: Fact, q2: Fact, q3: Fact)
    requires AreLatest(series, q0, q1, q2, q3)
    ensures |series| >= 4
  {
    assert q0 in {q0, q1, q2, q3} && q1 in {q0, q1, q2, q3} && q2 in {q0, q1, q2, q3} && q3 in {q0, q1, q2, q3};
    SubsetSize({q0.end, q1.end, q2.end, q3.end}, series.Keys);
  }

  /** No other quarter of the metric ends on or after the walk's first. */
  ghost predicate LatestQuarters(facts: seq<Fact>, metric: string, steps: seq<Step>)
    requires |steps| == 4
  {
    forall f :: f in facts && f.metric == metric && f.period.Quarter? ==>
      f.end < steps[0].end || f.end in {steps[0].end, steps[1].end, steps[2].end, steps[3].end}
  }

  /** Step i's fact is in the series and follows the one before it. */
  ghost predicate Held(facts: seq<Fact>, spec: MetricSpec, steps: seq<Step>, i: nat)
    requires i < |steps|
  {
    var f := StepFact(spec, steps[i]);
    && f.end in SeriesOf(facts, spec.name) && SeriesOf(facts, spec.name)[f.end] == f
    && f.end == steps[i].end && f.value == steps[i].value
    && (0 < i ==> BackToBack(StepFact(spec, steps[i - 1]), f) && StepFact(spec, steps[i - 1]).end < f.end)
  }

  /** A step of the walk, as the series holds it. */
  lemma StepInSeries(spec: MetricSpec, periods: seq<Raw>, year: Duration, facts: seq<Fact>, i: nat)
    requires spec.kind.Flow? && year in Annuals(Durations(periods)) && i < |WalkOf(Durations(periods), year)|
    requires Unique(facts) && forall f :: f in MetricFacts(spec, periods) ==> f in facts
    ensures Held(facts, spec, WalkOf(Durations(periods), year), i)
  {
    var steps := WalkOf(Durations(periods), year);
    StepIsExtracted(spec, periods, year, steps[i]);
    SeriesHas(facts, StepFact(spec, steps[i]));
    if 0 < i {
      StepIsExtracted(spec, periods, year, steps[i - 1]);
      WalkIsShort(Durations(periods), year);
      assert Near(steps[i].start, Reached(steps, year.start.value - 1, i) + 1);
    }
  }

  lemma FourAreLatest(facts: seq<Fact>, metric: string, steps: seq<Step>, q0: Fact, q1: Fact, q2: Fact, q3: Fact)
    requires |steps| == 4 && LatestQuarters(facts, metric, steps)
    requires q0.end == steps[0].end && q1.end == steps[1].end && q2.end == steps[2].end && q3.end == steps[3].end
    requires q0.end < q1.end < q2.end < q3.end
    requires var series := SeriesOf(facts, metric);
      forall q :: q in {q0, q1, q2, q3} ==> q.end in series && series[q.end] == q
    ensures AreLatest(SeriesOf(facts, metric), q0, q1, q2, q3)
  {
    var series := SeriesOf(facts, metric);
    SeriesKeys(facts, metric);
    forall e | e in series ensures e < q0.end || e in {q0.end, q1.end, q2.end, q3.end} {
      assert series[e] in facts;
    }
  }

  lemma FourSummed(facts: seq<Fact>, spec: MetricSpec, steps: seq<Step>)
    requires |steps| == 4 && LatestQuarters(facts, spec.name, steps)
    requires Held(facts, spec, steps, 0) && Held(facts, spec, steps, 1)
    requires Held(facts, spec, steps, 2) && Held(facts, spec, steps, 3)
    ensures TrailingFour(SeriesOf(facts, spec.name)) == Some((Sum(steps), steps[3].end))
  {
    var q0, q1 := StepFact(spec, steps[0]), StepFact(spec, steps[1]);
    var q2, q3 := StepFact(spec, steps[2]), StepFact(spec, steps[3]);
    FourAreLatest(facts, spec.name, steps, q0, q1, q2, q3);
    TrailingSum(SeriesOf(facts, spec.name), q0, q1, q2, q3);
    FourSum(steps);
  }

  /**
   * When the walk covers a year in four quarters and those are the latest, the
   * trailing sum accepts them and is the annual value plus whatever the reported
   * quarters disagree with the year-to-date figures: exactly the annual value
   * when those disagreements cancel.
   */
  lemma FullYearTrails(spec: MetricSpec, periods: seq<Raw>, year: Duration, facts: seq<Fact>)
    requires spec.kind.Flow? && Keyed(periods, PeriodOf) && year in Annuals(Durations(periods))
    requires var steps := WalkOf(Durations(periods), year);
      |steps| == 4 && steps[3].end == year.end && LatestQuarters(facts, spec.name, steps)
    requires Unique(facts) && forall f :: f in MetricFacts(spec, periods) ==> f in facts
    ensures var steps := WalkOf(Durations(periods), year);
      TrailingFour(SeriesOf(facts, spec.name)) == Some((year.value + TotalDisagreement(steps), year.end))
  {
    WalkConserves(periods, year);
    var steps := WalkOf(Durations(periods), year);
    StepInSeries(spec, periods, year, facts, 0);
    StepInSeries(spec, periods, year, facts, 1);
    StepInSeries(spec, periods, year, facts, 2);
    StepInSeries(spec, periods, year, facts, 3);
    FourSummed(facts, spec, steps);
  }

  lemma FourSum(steps: seq<Step>)
    requires |steps| == 4
    ensures Sum(steps) == steps[0].value + steps[1].value + steps[2].value + steps[3].value
  {
    assert steps[..3][..2] == steps[..2] && steps[..2][..1] == steps[..1] && steps[..1][..0] == [];
    assert Sum(steps[..1]) == steps[0].value;
    assert Sum(steps[..2]) == steps[0].value + steps[1].value;
  }

  // ---- a year reported only year to date ------------------------------------

  /**
   * r1 to r4 are the 3-, 6-, 9- and 12-month figures of one year, and no other
   * quarter or year-to-date figure is reported inside it.
   */
  ghost predicate YtdOnly(periods: seq<Raw>, from: int, r1: Raw, r2: Raw, r3: Raw, r4: Raw) {
    && r1 in periods && r2 in periods && r3 in periods && r4 in periods
    && r1.start == r2.start == r3.start == r4.start == Some(from)
    && QuarterLong(from, r1.end) && QuarterLong(r1.end + 1, r2.end)
    && QuarterLong(r2.end + 1, r3.end) && QuarterLong(r3.end + 1, r4.end) && YearLong(from, r4.end)
    && (forall r :: r in periods && r.start == Some(from) && r.end <= r4.end ==> r in {r1, r2, r3, r4})
    && (forall r :: r in periods && IsQuarter(r) && (from - 3 <= StartDay(r) <= r4.end || r.end == r1.end) ==> r == r1)
  }

  lemma {:induction false} QuarterHeld(ds: seq<Duration>, q: Raw)
    requires q in ds && IsQuarter(q)
    requires forall r :: r in ds && IsQuarter(r) && r.end == q.end ==> r == q
    ensures Lookup(Quarters(ds), EndOf, q.end) == Some(q)
  {
    var front, r := ds[..|ds| - 1], ds[|ds| - 1];
    if IsQuarter(r) { LookupStore(Quarters(front), EndOf, r, q.end); }
    if r != q { QuarterHeld(front, q); }
  }

  lemma YtdOnlyYtds(periods: seq<Raw>, from: int, r1: Raw, r2: Raw, r3: Raw, r4: Raw)
    requires Keyed(periods, PeriodOf) && YtdOnly(periods, from, r1, r2, r3, r4)
    ensures var ytds := Ytds(Durations(periods), r4);
      && r1 in ytds && r2 in ytds && r3 in ytds && r4 in ytds && Lookup(ytds, EndOf, r1.end) == Some(r1)
      && forall y :: y in ytds ==> y in {r1, r2, r3, r4}
  {
    var ds := Durations(periods);
    YtdsHold(periods, ds, r4, r1);
    YtdsHold(periods, ds, r4, r2);
    YtdsHold(periods, ds, r4, r3);
    YtdsHold(periods, ds, r4, r4);
  }

  lemma YtdOnlyQuarters(periods: seq<Raw>, from: int, r1: Raw, r2: Raw, r3: Raw, r4: Raw)
    requires YtdOnly(periods, from, r1, r2, r3, r4)
    ensures var quarters := Quarters(Durations(periods));
      r1 in quarters && forall q :: q in quarters ==> q == r1 || StartDay(q) < from - 3 || r4.end < StartDay(q)
  {
    QuarterHeld(Durations(periods), r1);
  }

  lemma FindsYtd(ytds: seq<Raw>, start: int, y: Raw)
    requires y in ytds && QuarterLong(start, y.end)
    requires forall x :: x in ytds && x != y ==> !QuarterLong(start, x.end)
    ensures FindYtd(ytds, start) == Some(y)
  {
  }

  /** YtdOnly, as the year's walk sees it. */
  ghost predicate YtdOnlyIn(quarters: seq<Raw>, ytds: seq<Raw>, from: int, r1: Raw, r2: Raw, r3: Raw, r4: Raw) {
    && ReportedQuarters(quarters) && r1.start == Some(from)
    && QuarterLong(from, r1.end) && QuarterLong(r1.end + 1, r2.end)
    && QuarterLong(r2.end + 1, r3.end) && QuarterLong(r3.end + 1, r4.end)
    && r1 in quarters && (forall q :: q in quarters ==> q == r1 || StartDay(q) < from - 3 || r4.end < StartDay(q))
    && r1 in ytds && r2 in ytds && r3 in ytds && r4 in ytds && Lookup(ytds, EndOf, r1.end) == Some(r1)
    && (forall y :: y in ytds ==> y in {r1, r2, r3, r4})
  }

  function DerivedStep(prev: Raw, y: Raw): Step {
    Step(true, prev.end + 1, y.end, y.value - prev.value, prev.value, y.value, y)
  }

  lemma WalkDerives(yearEnd: int, quarters: seq<Raw>, ytds: seq<Raw>, prev: Raw, y: Raw, tail: seq<Step>)
    requires ReportedQuarters(quarters) && prev.end < yearEnd && y in ytds && QuarterLong(prev.end + 1, y.end)
    requires forall x :: x in ytds && x != y ==> !QuarterLong(prev.end + 1, x.end)
    requires forall q :: q in quarters ==> !Near(StartDay(q), prev.end + 1)
    requires tail == Walk(yearEnd, quarters, ytds, y.end, y.value)
    ensures Walk(yearEnd, quarters, ytds, prev.end, prev.value) == [DerivedStep(prev, y)] + tail
  {
    FindsYtd(ytds, prev.end + 1, y);
  }

  lemma WalkFromFirst(quarters: seq<Raw>, ytds: seq<Raw>, from: int, r1: Raw, r2: Raw, r3: Raw, r4: Raw)
    requires YtdOnlyIn(quarters, ytds, from, r1, r2, r3, r4)
    ensures Walk(r4.end, quarters, ytds, r1.end, r1.value) ==
            [DerivedStep(r1, r2)] + ([DerivedStep(r2, r3)] + [DerivedStep(r3, r4)])
  {
    WalkDerives(r4.end, quarters, ytds, r3, r4, []);
    assert [DerivedStep(r3, r4)] + [] == [DerivedStep(r3, r4)];
    WalkDerives(r4.end, quarters, ytds, r2, r3, [DerivedStep(r3, r4)]);
    WalkDerives(r4.end, quarters, ytds, r1, r2, [DerivedStep(r2, r3)] + [DerivedStep(r3, r4)]);
  }

  /** The walk takes the first quarter as reported and derives the other three. */
  lemma YtdOnlyWalk(quarters: seq<Raw>, ytds: seq<Raw>, from: int, r1: Raw, r2: Raw, r3: Raw, r4: Raw)
    requires YtdOnlyIn(quarters, ytds, from, r1, r2, r3, r4)
    ensures Walk(r4.end, quarters, ytds, from - 1, 0.0) ==
      [Step(false, from, r1.end, r1.value, 0.0, r1.value, r1)] +
      ([DerivedStep(r1, r2)] + ([DerivedStep(r2, r3)] + [DerivedStep(r3, r4)]))
  {
    WalkFromFirst(quarters, ytds, from, r1, r2, r3, r4);
    assert FindDirect(quarters, from) == Some(r1);
  }

  lemma {:induction false} AgreeingTotal(steps: seq<Step>)
    requires forall s :: s in steps ==> Disagreement(s) == 0.0
    ensures TotalDisagreement(steps) == 0.0
  {
    if |steps| > 0 { AgreeingTotal(steps[..|steps| - 1]); }
  }

  /**
   * Across the two modules: for a year reported only year to date, when its
   * quarters are the latest, the trailing twelve months of the extracted facts
   * are exactly the annual value, as of the annual end.
   */
  lemma YtdOnlyYearTrails(spec: MetricSpec, periods: seq<Raw>, facts: seq<Fact>,
                          from: int, r1: Raw, r2: Raw, r3: Raw, r4: Raw)
    requires spec.kind.Flow? && Keyed(periods, PeriodOf) && YtdOnly(periods, from, r1, r2, r3, r4)
    requires Unique(facts) && forall f :: f in MetricFacts(spec, periods) ==> f in facts
    requires forall f :: f in facts && f.metric == spec.name && f.period.Quarter? ==>
               f.end < r1.end || f.end in {r1.end, r2.end, r3.end, r4.end}
    ensures TrailingFour(SeriesOf(facts, spec.name)) == Some((r4.value, r4.end))
  {
    YtdOnlySteps(periods, from, r1, r2, r3, r4);
    AgreeingTotal(WalkOf(Durations(periods), r4));
    FullYearTrails(spec, periods, r4, facts);
  }

  lemma YtdOnlySeen(periods: seq<Raw>, from: int, r1: Raw, r2: Raw, r3: Raw, r4: Raw)
    requires Keyed(periods, PeriodOf) && YtdOnly(periods, from, r1, r2, r3, r4)
    ensures var ds := Durations(periods);
      r4.start == Some(from) && r4 in Annuals(ds) && YtdOnlyIn(Quarters(ds), Ytds(ds, r4), from, r1, r2, r3, r4)
  {
    hide Quarters, Ytds, Keyed, Lookup;
    YtdOnlyYtds(periods, from, r1, r2, r3, r4);
    YtdOnlyQuarters(periods, from, r1, r2, r3, r4);
  }

  lemma YtdOnlySteps(periods: seq<Raw>, from: int, r1: Raw, r2: Raw, r3: Raw, r4: Raw)
    requires Keyed(periods, PeriodOf) && YtdOnly(periods, from, r1, r2, r3, r4)
    ensures r4 in Annuals(Durations(periods))
    ensures var steps := WalkOf(Durations(periods), r4);
      && |steps| == 4 && (forall s :: s in steps ==> Disagreement(s) == 0.0)
      && steps[0].end == r1.end && steps[1].end == r2.end && steps[2].end == r3.end && steps[3].end == r4.end
  {
    hide YtdOnly, YtdOnlyIn, Walk, Quarters, Ytds, Durations, Annuals;
    YtdOnlySeen(periods, from, r1, r2, r3, r4);
    YtdOnlyWalk(Quarters(Durations(periods)), Ytds(Durations(periods), r4), from, r1, r2, r3, r4);
    FourSteps(WalkOf(Durations(periods), r4), from, r1, r2, r3, r4);
  }

  lemma FourSteps(steps: seq<Step>, from: int, r1: Raw, r2: Raw, r3: Raw, r4: Raw)
    requires steps == [Step(false, from, r1.end, r1.value, 0.0, r1.value, r1)] +
      ([DerivedStep(r1, r2)] + ([DerivedStep(r2, r3)] + [DerivedStep(r3, r4)]))
    ensures |steps| == 4 && (forall s :: s in steps ==> Disagreement(s) == 0.0)
    ensures steps[0].end == r1.end && steps[1].end == r2.end && steps[2].end == r3.end && steps[3].end == r4.end
  {
  }

  // ---- over the extraction itself ---------------------------------------------------

  /** Every metric's facts are among the extracted ones. */
  lemma ExtractedHolds(doc: Document, metrics: seq<MetricSpec>, spec: MetricSpec)
    requires spec in metrics
    ensures forall f :: f in MetricFacts(spec, PeriodsOf(doc, spec)) ==> f in ExtractFacts(doc, metrics)
  {
    hide MetricFacts, PeriodsOf, ExtractFacts;
    ExtractedAre(doc, metrics);
  }

  lemma PeriodsKeyed(doc: Document, spec: MetricSpec)
    ensures Keyed(PeriodsOf(doc, spec), PeriodOf)
  {
    hide Select, Keyed, Lookup, Supplies, Reports;
    SelectSpec(ReportedFor(doc, spec.concepts, spec.unit), (None, 0));
  }

  /**
   * From the document to the dashboard: when the extraction can be stored at
   * all, a year walked in four quarters that are the metric's latest trails to
   * its annual value plus the total disagreement.
   */
  lemma FullYearExtracted(doc: Document, metrics: seq<MetricSpec>, spec: MetricSpec, year: Duration)
    requires DistinctNames(metrics) && AllFit(doc, metrics) && spec in metrics && spec.kind.Flow?
    requires year in Annuals(Durations(PeriodsOf(doc, spec)))
    requires var steps := WalkOf(Durations(PeriodsOf(doc, spec)), year);
      |steps| == 4 && steps[3].end == year.end && LatestQuarters(ExtractFacts(doc, metrics), spec.name, steps)
    ensures var steps := WalkOf(Durations(PeriodsOf(doc, spec)), year);
      TrailingFour(SeriesOf(ExtractFacts(doc, metrics), spec.name)) ==
      Some((year.value + TotalDisagreement(steps), year.end))
  {
    hide *;
    ExtractedKeysExactly(doc, metrics);
    ExtractedHolds(doc, metrics, spec);
    PeriodsKeyed(doc, spec);
    FullYearTrails(spec, PeriodsOf(doc, spec), year, ExtractFacts(doc, metrics));
  }

  /** And a year reported only year to date trails to exactly its annual value. */
  lemma YtdOnlyExtracted(doc: Document, metrics: seq<MetricSpec>, spec: MetricSpec,
                         from: int, r1: Raw, r2: Raw, r3: Raw, r4: Raw)
    requires DistinctNames(metrics) && AllFit(doc, metrics) && spec in metrics && spec.kind.Flow?
    requires YtdOnly(PeriodsOf(doc, spec), from, r1, r2, r3, r4)
    requires forall f :: f in ExtractFacts(doc, metrics) && f.metric == spec.name && f.period.Quarter? ==>
               f.end < r1.end || f.end in {r1.end, r2.end, r3.end, r4.end}
    ensures TrailingFour(SeriesOf(ExtractFacts(doc, metrics), spec.name)) == Some((r4.value, r4.end))
  {
    hide *;
    ExtractedKeysExactly(doc, metrics);
    ExtractedHolds(doc, metrics, spec);
    PeriodsKeyed(doc, spec);
    YtdOnlyYearTrails(spec, PeriodsOf(doc, spec), ExtractFacts(doc, metrics), from, r1, r2, r3, r4);
  }
}
