/**
 * The ordinary year: three quarters reported, the half year and nine months
 * beside them, and the annual figure. Its fourth quarter is the one derived.
 */
module QuarterlyYears {
  import opened Options
  import opened FactExtraction
  import opened FactKeys
  import opened FactSelection
  import opened Facts
  import opened TrailingTwelve
  import opened YearWalk

  /** What a company reports in a year; half and nine end with the second and third quarter. */
  datatype FiscalYear = FiscalYear(q1: Raw, q2: Raw, q3: Raw, half: Raw, nine: Raw, year: Raw)

  /** The lengths and dates of the reports: quarters may start up to three days off. */
  ghost predicate Dated(p: FiscalYear, from: int) {
    && p.q1.start == p.half.start == p.nine.start == p.year.start == Some(from)
    && QuarterLong(from, p.q1.end)
    && IsQuarter(p.q2) && Near(StartDay(p.q2), p.q1.end + 1) && p.half.end == p.q2.end
    && IsQuarter(p.q3) && Near(StartDay(p.q3), p.q2.end + 1) && p.nine.end == p.q3.end
    && QuarterLong(p.q3.end + 1, p.year.end) && YearLong(from, p.year.end)
  }

  /** The reports are there, and no other quarter or year-to-date figure is reported inside the year. */
  ghost predicate ReportedIn(periods: seq<Raw>, p: FiscalYear, from: int) {
    && Dated(p, from)
    && (forall r :: r in {p.q1, p.q2, p.q3, p.half, p.nine, p.year} ==> r in periods)
    && (forall r :: r in periods && r.start == Some(from) && r.end <= p.year.end ==>
          r in {p.q1, p.half, p.nine, p.year})
    && (forall r :: r in periods && IsQuarter(r)
                    && (from - 3 <= StartDay(r) <= p.year.end || r.end in {p.q1.end, p.q2.end, p.q3.end}) ==>
          r in {p.q1, p.q2, p.q3})
  }

  /** The same as the year's walk sees it. */
  ghost predicate Seen(quarters: seq<Raw>, ytds: seq<Raw>, p: FiscalYear, from: int) {
    && Dated(p, from) && ReportedQuarters(quarters)
    && p.q1 in quarters && p.q2 in quarters && p.q3 in quarters
    && (forall q :: q in quarters ==> q in {p.q1, p.q2, p.q3} || StartDay(q) < from - 3 || p.year.end < StartDay(q))
    && (forall y :: y in {p.q1, p.half, p.nine, p.year} ==> y in ytds && Lookup(ytds, EndOf, y.end) == Some(y))
    && (forall y :: y in ytds ==> y in {p.q1, p.half, p.nine, p.year})
  }

  lemma SeenQuarters(periods: seq<Raw>, p: FiscalYear, from: int)
    requires ReportedIn(periods, p, from)
    ensures var quarters := Quarters(Durations(periods));
      && p.q1 in quarters && p.q2 in quarters && p.q3 in quarters
      && forall q :: q in quarters ==> q in {p.q1, p.q2, p.q3} || StartDay(q) < from - 3 || p.year.end < StartDay(q)
  {
    var ds := Durations(periods);
    QuarterHeld(ds, p.q1);
    QuarterHeld(ds, p.q2);
    QuarterHeld(ds, p.q3);
  }

  lemma SeenYtds(periods: seq<Raw>, p: FiscalYear, from: int)
    requires Keyed(periods, PeriodOf) && ReportedIn(periods, p, from)
    ensures var ytds := Ytds(Durations(periods), p.year);
      && (forall y :: y in {p.q1, p.half, p.nine, p.year} ==> y in ytds && Lookup(ytds, EndOf, y.end) == Some(y))
      && forall y :: y in ytds ==> y in {p.q1, p.half, p.nine, p.year}
  {
    var ds := Durations(periods);
    forall y | y in {p.q1, p.half, p.nine, p.year} ensures Lookup(Ytds(ds, p.year), EndOf, y.end) == Some(y) {
      YtdsHold(periods, ds, p.year, y);
    }
  }

  lemma ReportedIsSeen(periods: seq<Raw>, p: FiscalYear, from: int)
    requires Keyed(periods, PeriodOf) && ReportedIn(periods, p, from)
    ensures p.year.start == Some(from) && p.year in Annuals(Durations(periods))
    ensures Seen(Quarters(Durations(periods)), Ytds(Durations(periods), p.year), p, from)
  {
    hide Quarters, Ytds, Keyed, Lookup, ReportedIn;
    SeenQuarters(periods, p, from);
    SeenYtds(periods, p, from);
    YearIsIn(periods, p, from);
    assert p.year in Durations(periods);
    hide Durations, Annuals;
  }

  lemma YearIsIn(periods: seq<Raw>, p: FiscalYear, from: int)
    requires ReportedIn(periods, p, from)
    ensures Dated(p, from) && p.year in periods && IsAnnual(p.year)
  {
  }

  /** A reported quarter as a step; the total after it is the year-to-date figure y. */
  function Taken(q: Raw, before: real, y: Raw): Step {
    Step(false, StartDay(q), q.end, q.value, before, y.value, q)
  }

  function Fourth(p: FiscalYear): Step {
    Step(true, p.q3.end + 1, p.year.end, p.year.value - p.nine.value, p.nine.value, p.year.value, p.year)
  }

  lemma TakesQuarter(yearEnd: int, quarters: seq<Raw>, ytds: seq<Raw>, prevEnd: int, running: real, q: Raw, y: Raw,
                     tail: seq<Step>)
    requires ReportedQuarters(quarters) && prevEnd < yearEnd && q in quarters && Near(StartDay(q), prevEnd + 1)
    requires forall x :: x in quarters && x != q ==> !Near(StartDay(x), prevEnd + 1)
    requires Lookup(ytds, EndOf, q.end) == Some(y) && tail == Walk(yearEnd, quarters, ytds, q.end, y.value)
    ensures Walk(yearEnd, quarters, ytds, prevEnd, running) == [Taken(q, running, y)] + tail
  {
    assert FindDirect(quarters, prevEnd + 1) == Some(q);
  }

  lemma DerivesFourth(quarters: seq<Raw>, ytds: seq<Raw>, p: FiscalYear, from: int)
    requires Seen(quarters, ytds, p, from)
    ensures Walk(p.year.end, quarters, ytds, p.q3.end, p.nine.value) == [Fourth(p)]
  {
    FindsYtd(ytds, p.q3.end + 1, p.year);
    WalkUnfold(p.year.end, quarters, ytds, p.q3.end, p.nine.value);
    WalkUnfold(p.year.end, quarters, ytds, p.year.end, p.year.value);
    hide Walk;
    assert FindDirect(quarters, p.q3.end + 1) == None;
  }

  /** Three quarters are taken as reported; the fourth is the annual figure minus the nine months. */
  lemma QuarterlyWalk(quarters: seq<Raw>, ytds: seq<Raw>, p: FiscalYear, from: int)
    requires Seen(quarters, ytds, p, from)
    ensures Walk(p.year.end, quarters, ytds, from - 1, 0.0) ==
      [Taken(p.q1, 0.0, p.q1)] + ([Taken(p.q2, p.q1.value, p.half)] +
      ([Taken(p.q3, p.half.value, p.nine)] + [Fourth(p)]))
  {
    DerivesFourth(quarters, ytds, p, from);
    hide Walk;
    TakesQuarter(p.year.end, quarters, ytds, p.q2.end, p.half.value, p.q3, p.nine, [Fourth(p)]);
    TakesQuarter(p.year.end, quarters, ytds, p.q1.end, p.q1.value, p.q2, p.half,
                 [Taken(p.q3, p.half.value, p.nine)] + [Fourth(p)]);
    TakesQuarter(p.year.end, quarters, ytds, from - 1, 0.0, p.q1, p.q1,
                 [Taken(p.q2, p.q1.value, p.half)] + ([Taken(p.q3, p.half.value, p.nine)] + [Fourth(p)]));
  }

  lemma FourTaken(steps: seq<Step>, p: FiscalYear)
    requires steps == [Taken(p.q1, 0.0, p.q1)] + ([Taken(p.q2, p.q1.value, p.half)] +
                      ([Taken(p.q3, p.half.value, p.nine)] + [Fourth(p)]))
    ensures |steps| == 4 && steps[0].end == p.q1.end && steps[1].end == p.q2.end && steps[2].end == p.q3.end
    ensures !steps[0].derived && !steps[1].derived && !steps[2].derived && steps[3] == Fourth(p)
    ensures TotalDisagreement(steps) == p.q1.value + p.q2.value + p.q3.value - p.nine.value
  {
    assert steps[..3][..2] == steps[..2] && steps[..2][..1] == steps[..1] && steps[..1][..0] == [];
    assert TotalDisagreement(steps[..1]) == 0.0;
    assert TotalDisagreement(steps[..2]) == p.q1.value + p.q2.value - p.half.value;
    assert TotalDisagreement(steps[..3]) == p.q1.value + p.q2.value + p.q3.value - p.nine.value;
  }

  lemma QuarterlySteps(periods: seq<Raw>, p: FiscalYear, from: int)
    requires Keyed(periods, PeriodOf) && ReportedIn(periods, p, from)
    ensures p.year in Annuals(Durations(periods))
    ensures var steps := WalkOf(Durations(periods), p.year);
      && |steps| == 4 && steps[0].end == p.q1.end && steps[1].end == p.q2.end && steps[2].end == p.q3.end
      && !steps[0].derived && !steps[1].derived && !steps[2].derived && steps[3] == Fourth(p)
      && TotalDisagreement(steps) == p.q1.value + p.q2.value + p.q3.value - p.nine.value
  {
    hide Seen, ReportedIn, Walk, Quarters, Ytds, Durations, Annuals, TotalDisagreement, Keyed;
    ReportedIsSeen(periods, p, from);
    QuarterlyWalk(Quarters(Durations(periods)), Ytds(Durations(periods), p.year), p, from);
    FourTaken(WalkOf(Durations(periods), p.year), p);
  }

  lemma OnlyFourth(spec: MetricSpec, steps: seq<Step>, p: FiscalYear)
    requires |steps| == 4 && !steps[0].derived && !steps[1].derived && !steps[2].derived && steps[3] == Fourth(p)
    ensures DerivedIn(spec, steps) == [AsDerived(spec, Fourth(p))]
  {
    assert steps[..3][..2] == steps[..2] && steps[..2][..1] == steps[..1] && steps[..1][..0] == [];
    assert DerivedIn(spec, steps[..1]) == [];
    assert DerivedIn(spec, steps[..2]) == [];
    assert DerivedIn(spec, steps[..3]) == [];
  }

  /**
   * Such a year derives exactly one quarter: from the day after the third to
   * the annual end, the annual value minus the nine months'.
   */
  lemma OneQuarterDerived(spec: MetricSpec, periods: seq<Raw>, p: FiscalYear, from: int)
    requires Keyed(periods, PeriodOf) && ReportedIn(periods, p, from)
    ensures DerivedIn(spec, WalkOf(Durations(periods), p.year)) ==
      [Fact(spec.name, Quarter, Some(p.q3.end + 1), p.year.end, p.year.value - p.nine.value, spec.unit, true,
            p.year.concept, p.year.accession, p.year.filed)]
  {
    hide WalkOf, Durations, Annuals, Keyed, TotalDisagreement, ReportedIn, DerivedIn;
    QuarterlySteps(periods, p, from);
    YearIsIn(periods, p, from);
    OnlyFourth(spec, WalkOf(Durations(periods), p.year), p);
  }

  lemma AreLatestQuarters(facts: seq<Fact>, metric: string, steps: seq<Step>, p: FiscalYear)
    requires |steps| == 4 && steps[0].end == p.q1.end && steps[1].end == p.q2.end && steps[2].end == p.q3.end
    requires steps[3] == Fourth(p)
    requires forall f :: f in facts && f.metric == metric && f.period.Quarter? ==>
               f.end < p.q1.end || f.end in {p.q1.end, p.q2.end, p.q3.end, p.year.end}
    ensures LatestQuarters(facts, metric, steps)
  {
  }

  /**
   * When its quarters are the latest, such a year trails to the annual value
   * plus what the three quarters and the nine months disagree: to the annual
   * value exactly when they agree.
   */
  lemma QuarterlyYearTrails(spec: MetricSpec, periods: seq<Raw>, facts: seq<Fact>, p: FiscalYear, from: int)
    requires spec.kind.Flow? && Keyed(periods, PeriodOf) && ReportedIn(periods, p, from)
    requires Unique(facts) && forall f :: f in MetricFacts(spec, periods) ==> f in facts
    requires forall f :: f in facts && f.metric == spec.name && f.period.Quarter? ==>
               f.end < p.q1.end || f.end in {p.q1.end, p.q2.end, p.q3.end, p.year.end}
    ensures TrailingFour(SeriesOf(facts, spec.name)) ==
            Some((p.year.value + (p.q1.value + p.q2.value + p.q3.value - p.nine.value), p.year.end))
    ensures TrailingFour(SeriesOf(facts, spec.name)) == Some((p.year.value, p.year.end)) <==>
            p.nine.value == p.q1.value + p.q2.value + p.q3.value
  {
    hide WalkOf, ReportedIn, TrailingFour, SeriesOf, TotalDisagreement, MetricFacts, Unique, Keyed, Durations, Annuals;
    QuarterlySteps(periods, p, from);
    AreLatestQuarters(facts, spec.name, WalkOf(Durations(periods), p.year), p);
    hide LatestQuarters;
    FullYearTrails(spec, periods, p.year, facts);
  }

  /** And from the document to the figure. */
  lemma QuarterlyYearExtracted(doc: Document, metrics: seq<MetricSpec>, spec: MetricSpec, p: FiscalYear, from: int)
    requires DistinctNames(metrics) && AllFit(doc, metrics) && spec in metrics && spec.kind.Flow?
    requires ReportedIn(PeriodsOf(doc, spec), p, from)
    requires forall f :: f in ExtractFacts(doc, metrics) && f.metric == spec.name && f.period.Quarter? ==>
               f.end < p.q1.end || f.end in {p.q1.end, p.q2.end, p.q3.end, p.year.end}
    ensures TrailingFour(SeriesOf(ExtractFacts(doc, metrics), spec.name)) ==
            Some((p.year.value + (p.q1.value + p.q2.value + p.q3.value - p.nine.value), p.year.end))
  {
    hide *;
    ExtractedKeysExactly(doc, metrics);
    ExtractedHolds(doc, metrics, spec);
    PeriodsKeyed(doc, spec);
    QuarterlyYearTrails(spec, PeriodsOf(doc, spec), ExtractFacts(doc, metrics), p, from);
  }
}
