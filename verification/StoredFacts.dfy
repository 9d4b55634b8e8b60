/**
 * What the extraction stores, spelled out: which entries a metric draws on, and
 * each kind of fact with every field of it.
 */
module StoredFacts {
  import opened Options
  import opened FactExtraction
  import opened FactKeys
  import opened FactSelection
  import opened Facts
  import opened YearWalk

  // ---- what a metric draws on ---------------------------------------------------

  /** One list per concept in the order given, of the entries in the metric's unit. */
  lemma {:induction false} ReportedForIs(doc: Document, concepts: seq<string>, unit: string, i: nat)
    requires i < |concepts|
    ensures var reported := ReportedFor(doc, concepts, unit);
      && |reported| == |concepts| && reported[i].concept == concepts[i]
      && ((concepts[i], unit) in doc ==> reported[i].raws == RawFacts(doc[(concepts[i], unit)], concepts[i]))
      && ((concepts[i], unit) !in doc ==> reported[i].raws == [])
  {
    hide RawFacts;
    ReportedForSize(doc, concepts[..|concepts| - 1], unit);
    if i < |concepts| - 1 {
      ReportedForIs(doc, concepts[..|concepts| - 1], unit, i);
    } else {
      NoEntries(concepts[i]);
    }
  }

  lemma NoEntries(concept: string)
    ensures RawFacts([], concept) == []
  {
  }

  lemma {:induction false} ReportedForSize(doc: Document, concepts: seq<string>, unit: string)
    ensures |ReportedFor(doc, concepts, unit)| == |concepts|
  {
    if |concepts| > 0 { ReportedForSize(doc, concepts[..|concepts| - 1], unit); }
  }

  /** at[n] is where the n-th value with a start date stands among all. */
  ghost predicate KeepsOrder(periods: seq<Raw>, ds: seq<Duration>, at: seq<nat>) {
    && |at| == |ds| && (forall n :: 0 <= n < |at| ==> at[n] < |periods| && periods[at[n]] == ds[n])
    && (forall m, n :: 0 <= m < n < |at| ==> at[m] < at[n])
    && (forall i :: 0 <= i < |periods| && periods[i].start.Some? ==> i in at)
  }

  lemma {:induction false} OrderNext(periods: seq<Raw>, ds: seq<Duration>, at: seq<nat>, r: Raw)
    requires KeepsOrder(periods, ds, at)
    ensures r.start.Some? ==> KeepsOrder(periods + [r], ds + [r], at + [|periods|])
    ensures r.start.None? ==> KeepsOrder(periods + [r], ds, at)
  {
    forall i | 0 <= i < |periods| && (periods + [r])[i].start.Some? ensures i in at && i in at + [|periods|] {
      assert periods[i].start.Some?;
    }
  }

  lemma {:induction false} DurationsLast(periods: seq<Raw>, r: Raw)
    ensures Durations(periods + [r]) == Durations(periods) + if r.start.Some? then [r] else []
  {
    if |periods| == 0 {
      assert periods + [r] == [r];
    } else {
      DurationsLast(periods[1..], r);
      assert (periods + [r])[1..] == periods[1..] + [r];
    }
  }

  lemma NoDurations()
    ensures KeepsOrder([], Durations([]), [])
  {
  }

  /** The values with a start date, all of them and in their order. */
  lemma {:induction false} DurationsKeepOrder(periods: seq<Raw>) returns (at: seq<nat>)
    ensures KeepsOrder(periods, Durations(periods), at)
  {
    hide KeepsOrder, Durations;
    at := [];
    if |periods| == 0 {
      NoDurations();
      assert periods == [];
    } else {
      var front, r := periods[..|periods| - 1], periods[|periods| - 1];
      assert periods == front + [r];
      at := DurationsKeepOrder(front);
      OrderNext(front, Durations(front), at, r);
      DurationsLast(front, r);
      assert Durations(front) + [] == Durations(front);
      if r.start.Some? { at := at + [|front|]; }
    }
  }

  // ---- the facts of one metric ----------------------------------------------------

  ghost predicate IsInstant(spec: MetricSpec, periods: seq<Raw>, f: Fact) {
    exists r :: r in periods && r.start.None? &&
      f == Fact(spec.name, Instant, None, r.end, r.value, spec.unit, false, r.concept, r.accession, r.filed)
  }

  /** 350 to 380 days, first and last included. */
  ghost predicate LastsAYear(periods: seq<Raw>, r: Raw) {
    r in periods && r.start.Some? && 350 <= r.end - r.start.value + 1 <= 380
  }

  ghost predicate IsAnnualOf(spec: MetricSpec, periods: seq<Raw>, f: Fact) {
    exists r :: LastsAYear(periods, r) &&
      f == Fact(spec.name, Annual, r.start, r.end, r.value, spec.unit, false, r.concept, r.accession, r.filed)
  }

  ghost predicate IsReportedQuarter(spec: MetricSpec, periods: seq<Raw>, f: Fact) {
    exists i: nat :: LastQuarter(Durations(periods), i) && var r := Durations(periods)[i];
      f == Fact(spec.name, Quarter, r.start, r.end, r.value, spec.unit, false, r.concept, r.accession, r.filed)
  }

  /** A difference of year-to-date figures, dated from the day after the step before it. */
  ghost predicate IsDerivedQuarter(spec: MetricSpec, periods: seq<Raw>, f: Fact) {
    exists year, s :: LastsAYear(periods, year) && s in WalkOf(Durations(periods), year) && s.derived &&
      f == Fact(spec.name, Quarter, Some(s.start), s.end, s.raw.value - s.before, spec.unit,
                s.raw.start != Some(s.start), s.raw.concept, s.raw.accession, s.raw.filed)
  }

  lemma InstantsAre(spec: MetricSpec, periods: seq<Raw>, f: Fact)
    requires Keyed(periods, PeriodOf)
    ensures f in AllReported(spec, Instant, ByDate(periods)) <==> IsInstant(spec, periods, f)
  {
    ByDateIsInstants(periods);
    AllReportedAre(spec, Instant, ByDate(periods));
    hide ByDate, AllReported, Instants;
    if IsInstant(spec, periods, f) {
      var r :| r in periods && r.start.None? &&
        f == Fact(spec.name, Instant, None, r.end, r.value, spec.unit, false, r.concept, r.accession, r.filed);
      assert r in ByDate(periods);
    }
  }

  lemma AnnualsAre(spec: MetricSpec, periods: seq<Raw>, f: Fact)
    ensures f in AllReported(spec, Annual, Annuals(Durations(periods))) <==> IsAnnualOf(spec, periods, f)
  {
    var years := Annuals(Durations(periods));
    AllReportedAre(spec, Annual, years);
    hide AllReported, Annuals, Durations;
    if IsAnnualOf(spec, periods, f) {
      var r :| LastsAYear(periods, r) &&
        f == Fact(spec.name, Annual, r.start, r.end, r.value, spec.unit, false, r.concept, r.accession, r.filed);
      assert r in years;
    }
  }

  lemma QuartersStored(spec: MetricSpec, periods: seq<Raw>, f: Fact)
    ensures f in AllReported(spec, Quarter, Quarters(Durations(periods))) <==> IsReportedQuarter(spec, periods, f)
  {
    var ds := Durations(periods);
    var quarters := Quarters(ds);
    AllReportedAre(spec, Quarter, quarters);
    hide AllReported, Quarters, Durations;
    if f in AllReported(spec, Quarter, quarters) {
      var n :| 0 <= n < |quarters| && f == AsReported(spec, Quarter, quarters[n]);
      QuartersAre(ds, quarters[n]);
    }
    if i: nat :| LastQuarter(ds, i) && f == AsReported(spec, Quarter, ds[i]) {
      QuartersAre(ds, ds[i]);
    }
  }

  lemma DerivedStored(spec: MetricSpec, periods: seq<Raw>, f: Fact)
    ensures var ds := Durations(periods);
      f in DerivedFacts(spec, ds, Annuals(ds)) <==> IsDerivedQuarter(spec, periods, f)
  {
    var ds := Durations(periods);
    DerivedFactsAre(spec, ds, Annuals(ds));
    hide DerivedFacts, WalkOf, Durations, Annuals;
    forall year, s | year in Annuals(ds) && s in WalkOf(ds, year) && s.derived
      ensures AsDerived(spec, s).value == s.raw.value - s.before && s.end == s.raw.end
    {
      WalkIsShort(ds, year);
    }
    forall year ensures LastsAYear(periods, year) <==> year in Annuals(ds) { }
  }

  /**
   * The facts of a metric, every field of each: a balance-sheet metric has its
   * instants; any other its annual values, its reported quarters and, unless it
   * is per share, the quarters derived in its years.
   */
  lemma MetricFactsAre(spec: MetricSpec, periods: seq<Raw>, f: Fact)
    requires Keyed(periods, PeriodOf)
    ensures spec.kind.InTime? ==> (f in MetricFacts(spec, periods) <==> IsInstant(spec, periods, f))
    ensures !spec.kind.InTime? ==>
      (f in MetricFacts(spec, periods) <==>
       || IsAnnualOf(spec, periods, f)
       || IsReportedQuarter(spec, periods, f)
       || (!spec.kind.PerShare? && IsDerivedQuarter(spec, periods, f)))
  {
    InstantsAre(spec, periods, f);
    AnnualsAre(spec, periods, f);
    QuartersStored(spec, periods, f);
    DerivedStored(spec, periods, f);
    hide AllReported, DerivedFacts, Durations, Annuals, Quarters, ByDate, IsInstant, IsAnnualOf, IsReportedQuarter,
         IsDerivedQuarter;
  }
}
