/**
 * Exactly when the extracted facts respect the table's unique key
 * (metric, period, end).
 */
module FactKeys {
  import opened Options
  import opened FactExtraction
  import opened FactSelection
  import opened Facts
  import opened YearWalk

  /** No two annual periods have a day in common. */
  ghost predicate DisjointYears(years: seq<Duration>) {
    forall i, j :: 0 <= i < j < |years| ==>
      years[i].end < StartDay(years[j]) || years[j].end < StartDay(years[i])
  }

  /**
   * A reported quarter that ends where a quarter was derived also starts, give
   * or take three days, where the derived one does.
   */
  ghost predicate Aligned(ds: seq<Duration>) {
    forall year, s, q ::
      year in Annuals(ds) && s in WalkOf(ds, year) && s.derived && q in Quarters(ds) && q.end == s.end ==>
      Near(StartDay(q), s.start)
  }

  lemma {:induction false} AllReportedAre(spec: MetricSpec, period: Period, rs: seq<Raw>)
    ensures var fs := AllReported(spec, period, rs);
      |fs| == |rs| && forall i :: 0 <= i < |rs| ==> fs[i] == AsReported(spec, period, rs[i])
  {
    if |rs| > 0 { AllReportedAre(spec, period, rs[..|rs| - 1]); }
  }

  lemma KeyedIsUnique(spec: MetricSpec, period: Period, rs: seq<Raw>)
    ensures Unique(AllReported(spec, period, rs)) <==> Keyed(rs, EndOf)
  {
    AllReportedAre(spec, period, rs);
    var fs := AllReported(spec, period, rs);
    if Unique(fs) {
      forall i, j | 0 <= i < j < |rs| ensures EndOf(rs[i]) != EndOf(rs[j]) {
        assert KeyOf(fs[i]) != KeyOf(fs[j]);
      }
    }
    if Keyed(rs, EndOf) {
      forall i, j | 0 <= i < j < |fs| ensures KeyOf(fs[i]) != KeyOf(fs[j]) {
        assert EndOf(rs[i]) != EndOf(rs[j]);
      }
    }
  }

  lemma {:induction false} DerivedInAre(spec: MetricSpec, steps: seq<Step>)
    ensures forall f :: f in DerivedIn(spec, steps) <==>
              exists s :: s in steps && s.derived && f == AsDerived(spec, s)
  {
    if |steps| > 0 {
      var front, last := steps[..|steps| - 1], steps[|steps| - 1];
      DerivedInAre(spec, front);
      assert forall s :: s in steps <==> s in front || s == last;
    }
  }

  lemma {:induction false} DerivedFactsAre(spec: MetricSpec, ds: seq<Duration>, years: seq<Duration>)
    ensures forall f :: f in DerivedFacts(spec, ds, years) <==>
              exists y, s :: y in years && s in WalkOf(ds, y) && s.derived && f == AsDerived(spec, s)
  {
    if |years| > 0 {
      var front, last := years[..|years| - 1], years[|years| - 1];
      DerivedFactsAre(spec, ds, front);
      DerivedInAre(spec, WalkOf(ds, last));
      assert forall y :: y in years <==> y in front || y == last;
    }
  }

  lemma {:induction false} ChainIncreases(steps: seq<Step>, from: int, i: nat, j: nat)
    requires Chain(steps, from) && i < j < |steps|
    ensures from < steps[i].end < steps[j].end
  {
    assert steps[j].end >= Reached(steps, from, j) + 77;
    if i + 1 < j {
      ChainIncreases(steps, from, i, j - 1);
    } else {
      ChainStarts(steps, from, i);
    }
  }

  lemma {:induction false} ChainStarts(steps: seq<Step>, from: int, i: nat)
    requires Chain(steps, from) && i < |steps|
    ensures from < steps[i].end
  {
    assert steps[i].end >= Reached(steps, from, i) + 77;
    if i > 0 { ChainStarts(steps, from, i - 1); }
  }

  lemma {:induction false} DerivedInUnique(spec: MetricSpec, steps: seq<Step>, from: int)
    requires Chain(steps, from)
    ensures Unique(DerivedIn(spec, steps))
  {
    if |steps| > 0 {
      var n := |steps| - 1;
      hide Chain, Unique;
      ChainPrefix(steps, from, n);
      DerivedInUnique(spec, steps[..n], from);
      if steps[n].derived {
        LastDerivedIsNew(spec, steps, from);
        UniqueSnoc(DerivedIn(spec, steps[..n]), AsDerived(spec, steps[n]));
      }
    } else {
      assert DerivedIn(spec, steps) == [];
    }
  }

  lemma ChainPrefix(steps: seq<Step>, from: int, n: nat)
    requires Chain(steps, from) && n <= |steps|
    ensures Chain(steps[..n], from)
  {
    var front := steps[..n];
    forall i | 0 <= i < n ensures front[i] == steps[i] && Reached(front, from, i) == Reached(steps, from, i) { }
  }

  lemma UniqueSnoc(fs: seq<Fact>, f: Fact)
    requires Unique(fs) && forall x :: x in fs ==> KeyOf(x) != KeyOf(f)
    ensures Unique(fs + [f])
  {
    UniqueConcat(fs, [f]);
  }

  lemma LastDerivedIsNew(spec: MetricSpec, steps: seq<Step>, from: int)
    requires Chain(steps, from) && |steps| > 0
    ensures forall x :: x in DerivedIn(spec, steps[..|steps| - 1]) ==>
              KeyOf(x) != KeyOf(AsDerived(spec, steps[|steps| - 1]))
  {
    hide Chain, DerivedIn;
    var n := |steps| - 1;
    DerivedInAre(spec, steps[..n]);
    forall x | x in DerivedIn(spec, steps[..n]) ensures x.end < steps[n].end {
      var s :| s in steps[..n] && s.derived && x == AsDerived(spec, s);
      var i :| 0 <= i < n && steps[i] == s;
      ChainIncreases(steps, from, i, n);
    }
  }

  lemma DerivedWithinYear(ds: seq<Duration>, year: Duration, s: Step)
    requires IsAnnual(year) && s in WalkOf(ds, year) && s.derived
    ensures StartDay(year) <= s.end <= year.end
  {
    hide WalkOf, Chain;
    WalkIsShort(ds, year);
    var steps := WalkOf(ds, year);
    var i :| 0 <= i < |steps| && steps[i] == s;
    ChainStarts(steps, year.start.value - 1, i);
  }

  /** The walks of different years derive no two quarters that end together. */
  ghost predicate WalksApart(ds: seq<Duration>, years: seq<Duration>) {
    forall i, j :: 0 <= i < j < |years| ==> NoSharedEnd(WalkOf(ds, years[i]), WalkOf(ds, years[j]))
  }

  ghost predicate NoSharedEnd(a: seq<Step>, b: seq<Step>) {
    forall s, t :: s in a && t in b && s.derived && t.derived ==> s.end != t.end
  }

  lemma SharedEndsShareKeys(spec: MetricSpec, a: seq<Step>, b: seq<Step>)
    ensures NoneShared(DerivedIn(spec, a), DerivedIn(spec, b)) <==> NoSharedEnd(a, b)
  {
    DerivedInAre(spec, a);
    DerivedInAre(spec, b);
    hide DerivedIn;
    if NoneShared(DerivedIn(spec, a), DerivedIn(spec, b)) {
      forall s, t | s in a && t in b && s.derived && t.derived ensures s.end != t.end {
        assert AsDerived(spec, s) in DerivedIn(spec, a) && AsDerived(spec, t) in DerivedIn(spec, b);
      }
    }
  }

  lemma {:induction false} LastYearApart(spec: MetricSpec, ds: seq<Duration>, years: seq<Duration>, last: Duration)
    ensures NoneShared(DerivedFacts(spec, ds, years), DerivedIn(spec, WalkOf(ds, last))) <==>
            forall i :: 0 <= i < |years| ==> NoSharedEnd(WalkOf(ds, years[i]), WalkOf(ds, last))
  {
    hide WalkOf, DerivedIn, NoSharedEnd;
    if |years| > 0 {
      var n := |years| - 1;
      LastYearApart(spec, ds, years[..n], last);
      SharedEndsShareKeys(spec, WalkOf(ds, years[n]), WalkOf(ds, last));
      assert forall i :: 0 <= i < n ==> years[..n][i] == years[i];
    }
  }

  lemma WalksApartSnoc(ds: seq<Duration>, years: seq<Duration>)
    requires |years| > 0
    ensures var n := |years| - 1;
      WalksApart(ds, years) <==>
      WalksApart(ds, years[..n]) && forall i :: 0 <= i < n ==> NoSharedEnd(WalkOf(ds, years[i]), WalkOf(ds, years[n]))
  {
    hide WalkOf, NoSharedEnd;
    var n := |years| - 1;
    assert forall i :: 0 <= i < n ==> years[..n][i] == years[i];
  }

  /** Derived quarters clash only across years, and exactly when two walks derive the same end. */
  lemma {:induction false} DerivedUnique(spec: MetricSpec, ds: seq<Duration>, years: seq<Duration>)
    requires forall y :: y in years ==> IsAnnual(y)
    ensures Unique(DerivedFacts(spec, ds, years)) <==> WalksApart(ds, years)
  {
    hide WalkOf, DerivedIn, Chain, Unique, NoneShared, WalksApart, NoSharedEnd;
    if |years| > 0 {
      var n := |years| - 1;
      var front, last := years[..n], years[n];
      assert last in years;
      DerivedUnique(spec, ds, front);
      WalkIsShort(ds, last);
      DerivedInUnique(spec, WalkOf(ds, last), last.start.value - 1);
      LastYearApart(spec, ds, front, last);
      WalksApartSnoc(ds, years);
      UniqueConcat(DerivedFacts(spec, ds, front), DerivedIn(spec, WalkOf(ds, last)));
      assert forall i :: 0 <= i < n ==> front[i] == years[i];
    } else {
      NoYears(spec, ds, years);
    }
  }

  lemma NoYears(spec: MetricSpec, ds: seq<Duration>, years: seq<Duration>)
    requires |years| == 0
    ensures Unique(DerivedFacts(spec, ds, years)) && WalksApart(ds, years)
  {
  }

  /** Fiscal years that do not overlap end apart, and so do their walks' quarters. */
  lemma DisjointYearsApart(ds: seq<Duration>, years: seq<Duration>)
    requires DisjointYears(years) && forall y :: y in years ==> IsAnnual(y)
    ensures Keyed(years, EndOf) && WalksApart(ds, years)
  {
    hide WalkOf;
    forall i, j | 0 <= i < j < |years|
      ensures EndOf(years[i]) != EndOf(years[j]) && NoSharedEnd(WalkOf(ds, years[i]), WalkOf(ds, years[j]))
    {
      assert years[i] in years && years[j] in years;
      forall s, t | s in WalkOf(ds, years[i]) && t in WalkOf(ds, years[j]) && s.derived && t.derived
        ensures s.end != t.end
      {
        DerivedWithinYear(ds, years[i], s);
        DerivedWithinYear(ds, years[j], t);
      }
    }
  }

  /** Aligned reported quarters never share an end with a derived one. */
  lemma AlignedKeepsApart(spec: MetricSpec, ds: seq<Duration>)
    requires Aligned(ds)
    ensures NoneShared(AllReported(spec, Quarter, Quarters(ds)), DerivedFacts(spec, ds, Annuals(ds)))
  {
    hide WalkOf, DerivedFacts, AllReported, Quarters, Annuals;
    var quarters, years := Quarters(ds), Annuals(ds);
    AllReportedAre(spec, Quarter, quarters);
    DerivedFactsAre(spec, ds, years);
    forall x, z | x in AllReported(spec, Quarter, quarters) && z in DerivedFacts(spec, ds, years)
      ensures KeyOf(x) != KeyOf(z)
    {
      var i :| 0 <= i < |quarters| && AllReported(spec, Quarter, quarters)[i] == x;
      var y, s :| y in years && s in WalkOf(ds, y) && s.derived && z == AsDerived(spec, s);
      WalkIsShort(ds, y);
      assert quarters[i] in quarters;
    }
  }

  lemma ApartMeansAligned(spec: MetricSpec, ds: seq<Duration>)
    requires NoneShared(AllReported(spec, Quarter, Quarters(ds)), DerivedFacts(spec, ds, Annuals(ds)))
    ensures Aligned(ds)
  {
    hide WalkOf, DerivedFacts, AllReported, Quarters, Annuals;
    var quarters, years := Quarters(ds), Annuals(ds);
    var a, b := AllReported(spec, Quarter, quarters), DerivedFacts(spec, ds, years);
    AllReportedAre(spec, Quarter, quarters);
    DerivedFactsAre(spec, ds, years);
    forall y, s, q | y in years && s in WalkOf(ds, y) && s.derived && q in quarters ensures q.end != s.end {
      var i :| 0 <= i < |quarters| && quarters[i] == q;
      assert a[i] in a && AsDerived(spec, s) in b;
      assert KeyOf(a[i]) != KeyOf(AsDerived(spec, s));
    }
  }

  /** When the facts of a duration metric can be stored under the key. */
  ghost predicate DurationsFit(spec: MetricSpec, ds: seq<Duration>) {
    Keyed(Annuals(ds), EndOf) && (spec.kind.PerShare? || (Aligned(ds) && WalksApart(ds, Annuals(ds))))
  }

  lemma ReportedKeys(spec: MetricSpec, ds: seq<Duration>)
    ensures var reported := AllReported(spec, Annual, Annuals(ds)) + AllReported(spec, Quarter, Quarters(ds));
      Unique(reported) <==> Keyed(Annuals(ds), EndOf)
    ensures forall f :: f in AllReported(spec, Annual, Annuals(ds)) ==> f.period.Annual?
  {
    KeyedIsUnique(spec, Annual, Annuals(ds));
    KeyedIsUnique(spec, Quarter, Quarters(ds));
    AllReportedAre(spec, Annual, Annuals(ds));
    AllReportedAre(spec, Quarter, Quarters(ds));
    UniqueConcat(AllReported(spec, Annual, Annuals(ds)), AllReported(spec, Quarter, Quarters(ds)));
  }

  lemma DerivedKeys(spec: MetricSpec, ds: seq<Duration>)
    ensures var reported := AllReported(spec, Annual, Annuals(ds)) + AllReported(spec, Quarter, Quarters(ds));
      NoneShared(reported, DerivedFacts(spec, ds, Annuals(ds))) <==> Aligned(ds)
  {
    var a, q := AllReported(spec, Annual, Annuals(ds)), AllReported(spec, Quarter, Quarters(ds));
    var d := DerivedFacts(spec, ds, Annuals(ds));
    ReportedKeys(spec, ds);
    DerivedFactsAre(spec, ds, Annuals(ds));
    assert forall f :: f in d ==> f.period.Quarter?;
    hide AllReported, DerivedFacts, Annuals, Quarters;
    if Aligned(ds) { AlignedKeepsApart(spec, ds); }
    if NoneShared(q, d) { ApartMeansAligned(spec, ds); }
    assert NoneShared(a + q, d) <==> NoneShared(q, d);
  }

  /**
   * Exactly when one metric's facts respect the table's unique key: its annual
   * periods end apart and, unless it is per share, its reported quarters are
   * aligned with the walk and no two walks derive the same end.
   */
  lemma DurationKeysExactly(spec: MetricSpec, periods: seq<Raw>)
    ensures Unique(DurationFacts(spec, periods)) <==> DurationsFit(spec, Durations(periods))
  {
    var ds := Durations(periods);
    var years := Annuals(ds);
    var r := AllReported(spec, Annual, years) + AllReported(spec, Quarter, Quarters(ds));
    ReportedKeys(spec, ds);
    hide AllReported, Annuals, Quarters, Durations, Unique, NoneShared, Aligned, WalksApart, Keyed;
    if spec.kind.PerShare? {
      assert r + [] == r;
    } else {
      DerivedUnique(spec, ds, years);
      DerivedKeys(spec, ds);
      UniqueConcat(r, DerivedFacts(spec, ds, years));
    }
  }

  /** Two fiscal years that end together always clash, whatever the metric. */
  lemma {:induction false} SharedYearEndClashes(spec: MetricSpec, periods: seq<Raw>)
    requires !Keyed(Annuals(Durations(periods)), EndOf)
    ensures !Unique(DurationFacts(spec, periods))
  {
    hide DurationFacts, Unique, Keyed, Annuals, Durations;
    DurationKeysExactly(spec, periods);
  }

  ghost predicate DistinctNames(metrics: seq<MetricSpec>) {
    forall i, j :: 0 <= i < j < |metrics| ==> metrics[i].name != metrics[j].name
  }

  lemma {:induction false} ReportedNamed(spec: MetricSpec, period: Period, rs: seq<Raw>, f: Fact)
    requires f in AllReported(spec, period, rs)
    ensures f.metric == spec.name
  {
    if f in AllReported(spec, period, rs[..|rs| - 1]) { ReportedNamed(spec, period, rs[..|rs| - 1], f); }
  }

  lemma {:induction false} DerivedNamed(spec: MetricSpec, ds: seq<Duration>, years: seq<Duration>, f: Fact)
    requires f in DerivedFacts(spec, ds, years)
    ensures f.metric == spec.name
  {
    var n := |years| - 1;
    if f in DerivedFacts(spec, ds, years[..n]) {
      DerivedNamed(spec, ds, years[..n], f);
    } else {
      DerivedInAre(spec, WalkOf(ds, years[n]));
    }
  }

  lemma MetricFactNamed(spec: MetricSpec, periods: seq<Raw>, f: Fact)
    requires f in MetricFacts(spec, periods)
    ensures f.metric == spec.name
  {
    var ds := Durations(periods);
    if spec.kind.InTime? {
      ReportedNamed(spec, Instant, ByDate(periods), f);
    } else if f in AllReported(spec, Annual, Annuals(ds)) {
      ReportedNamed(spec, Annual, Annuals(ds), f);
    } else if f in AllReported(spec, Quarter, Quarters(ds)) {
      ReportedNamed(spec, Quarter, Quarters(ds), f);
    } else {
      DerivedNamed(spec, ds, Annuals(ds), f);
    }
  }

  lemma {:induction false} ExtractedNamed(doc: Document, metrics: seq<MetricSpec>)
    ensures forall f :: f in AllFacts(doc, metrics) ==> exists m :: m in metrics && f.metric == m.name
  {
    if |metrics| > 0 {
      var front, last := metrics[..|metrics| - 1], metrics[|metrics| - 1];
      ExtractedNamed(doc, front);
      forall f | f in AllFacts(doc, metrics) ensures exists m :: m in metrics && f.metric == m.name {
        if f in AllFacts(doc, front) {
          var m :| m in front && f.metric == m.name;
          assert m in metrics;
        } else {
          MetricFactNamed(last, PeriodsOf(doc, last), f);
          assert last in metrics;
        }
      }
    }
  }

  lemma ExtractedApart(doc: Document, metrics: seq<MetricSpec>)
    requires DistinctNames(metrics) && |metrics| > 0
    ensures var n := |metrics| - 1;
      NoneShared(AllFacts(doc, metrics[..n]), MetricFacts(metrics[n], PeriodsOf(doc, metrics[n])))
  {
    var n := |metrics| - 1;
    var a, b := AllFacts(doc, metrics[..n]), MetricFacts(metrics[n], PeriodsOf(doc, metrics[n]));
    forall x, y | x in a && y in b ensures KeyOf(x) != KeyOf(y) {
      ExtractedNamed(doc, metrics[..n]);
      MetricFactNamed(metrics[n], PeriodsOf(doc, metrics[n]), y);
      var m :| m in metrics[..n] && x.metric == m.name;
      var i :| 0 <= i < n && metrics[..n][i] == m;
      assert metrics[i] == m;
    }
  }

  /** The metric's own facts can be stored under the key; instants always can. */
  ghost predicate MetricFits(doc: Document, spec: MetricSpec) {
    spec.kind.InTime? || DurationsFit(spec, Durations(PeriodsOf(doc, spec)))
  }

  lemma MetricKeysExactly(doc: Document, spec: MetricSpec)
    ensures Unique(MetricFacts(spec, PeriodsOf(doc, spec))) <==> MetricFits(doc, spec)
  {
    if spec.kind.InTime? {
      KeyedIsUnique(spec, Instant, ByDate(PeriodsOf(doc, spec)));
    } else {
      DurationKeysExactly(spec, PeriodsOf(doc, spec));
    }
  }

  /** For fiscal years that do not overlap, alignment is all it takes. */
  lemma DisjointYearsFit(doc: Document, spec: MetricSpec)
    requires DisjointYears(Annuals(Durations(PeriodsOf(doc, spec))))
    ensures MetricFits(doc, spec) <==> (spec.kind.Flow? ==> Aligned(Durations(PeriodsOf(doc, spec))))
  {
    var ds := Durations(PeriodsOf(doc, spec));
    DisjointYearsApart(ds, Annuals(ds));
  }

  ghost predicate AllFit(doc: Document, metrics: seq<MetricSpec>) {
    forall spec :: spec in metrics ==> MetricFits(doc, spec)
  }

  lemma {:induction false} AllKeysExactly(doc: Document, metrics: seq<MetricSpec>)
    requires DistinctNames(metrics)
    ensures Unique(AllFacts(doc, metrics)) <==> AllFit(doc, metrics)
  {
    hide MetricFacts, PeriodsOf, MetricFits, Unique, NoneShared;
    if |metrics| > 0 {
      var n := |metrics| - 1;
      var front, last := metrics[..n], metrics[n];
      AllKeysExactly(doc, front);
      MetricKeysExactly(doc, last);
      ExtractedApart(doc, metrics);
      UniqueConcat(AllFacts(doc, front), MetricFacts(last, PeriodsOf(doc, last)));
      assert forall spec :: spec in metrics <==> spec in front || spec == last;
    } else {
      NothingUnique(doc, metrics);
    }
  }

  lemma NothingUnique(doc: Document, metrics: seq<MetricSpec>)
    requires |metrics| == 0
    ensures Unique(AllFacts(doc, metrics))
  {
  }

  /**
   * The whole extraction, on every document: it yields no two facts with the
   * same (metric, period, end) if and only if every metric fits.
   */
  lemma ExtractedKeysExactly(doc: Document, metrics: seq<MetricSpec>)
    requires DistinctNames(metrics)
    ensures Unique(ExtractFacts(doc, metrics)) <==> AllFit(doc, metrics)
  {
    AllKeysExactly(doc, metrics);
    SortKeepsUnique(AllFacts(doc, metrics));
  }

  lemma {:induction false} AllDated(periods: seq<Raw>)
    requires forall r :: r in periods ==> r.start.Some?
    ensures Durations(periods) == periods
  {
    if |periods| > 0 { AllDated(periods[1..]); }
  }

  lemma {:induction false} OneAnnual(ds: seq<Duration>, year: Duration)
    requires IsAnnual(year) && forall r :: r in ds ==> !IsAnnual(r)
    ensures Annuals(ds + [year]) == [year]
  {
    if |ds| > 0 {
      assert (ds + [year])[1..] == ds[1..] + [year];
      OneAnnual(ds[1..], year);
    }
  }

  /** One more duration, whose end no collected one shares. */
  lemma Collect(ds: seq<Duration>, year: Duration, r: Duration)
    requires IsQuarter(r) ==> forall q :: q in Quarters(ds) ==> EndOf(q) != EndOf(r)
    requires YtdOf(year, r) ==> forall y :: y in Ytds(ds, year) ==> EndOf(y) != EndOf(r)
    ensures Quarters(ds + [r]) == Quarters(ds) + if IsQuarter(r) then [r] else []
    ensures Ytds(ds + [r], year) == Ytds(ds, year) + if YtdOf(year, r) then [r] else []
  {
    assert (ds + [r])[..|ds|] == ds;
    if IsQuarter(r) { StoreNew(Quarters(ds), EndOf, r); }
    if YtdOf(year, r) { StoreNew(Ytds(ds, year), EndOf, r); }
  }

  lemma CollectedYear(q1: Duration, half: Duration, late: Duration, year: Duration)
    requires q1.start == half.start == year.start == Some(1) && late.start == Some(100)
    requires q1.end == 90 && half.end == late.end == 181 && year.end == 365
    ensures Quarters([q1, half, late] + [year]) == [q1, late]
    ensures Ytds([q1, half, late] + [year], year) == [q1, half, year]
  {
    CollectedHalf(q1, half, year);
    assert [q1, half] + [late] == [q1, half, late];
    Collect([q1, half], year, late);
    assert Quarters([q1, half, late]) == [q1, late] && Ytds([q1, half, late], year) == [q1, half];
    Collect([q1, half, late], year, year);
  }

  lemma CollectedHalf(q1: Duration, half: Duration, year: Duration)
    requires q1.start == half.start == year.start == Some(1) && q1.end == 90 && half.end == 181 && 350 <= year.end < 381
    ensures Quarters([q1, half]) == [q1] && Ytds([q1, half], year) == [q1, half]
  {
    Collect([], year, q1);
    assert [] + [q1] == [q1] && [q1] + [half] == [q1, half];
    Collect([q1], year, half);
  }

  /** A year whose first quarter is reported and whose second is not derives the second. */
  lemma SecondQuarter(ds: seq<Duration>, year: Duration, q1: Raw, half: Raw) returns (s: Step)
    requires year.start == Some(1) && 181 < year.end && q1.start == Some(1) && q1.end == 90 && half.end == 181
    requires FindDirect(Quarters(ds), 1) == Some(q1) && FindDirect(Quarters(ds), 91) == None
    requires FindYtd(Ytds(ds, year), 91) == Some(half)
    ensures s in WalkOf(ds, year) && s.derived && s.start == 91 && s.end == 181
  {
    hide FindDirect, FindYtd, Lookup, Quarters, Ytds, Walk;
    var quarters, ytds := Quarters(ds), Ytds(ds, year);
    var first := NextStep(quarters, ytds, 0, 0.0).value;
    WalkUnfold(year.end, quarters, ytds, 0, 0.0);
    s := NextStep(quarters, ytds, 90, first.after).value;
    WalkUnfold(year.end, quarters, ytds, 90, first.after);
    var rest := Walk(year.end, quarters, ytds, 90, first.after);
    assert rest[0] == s && WalkOf(ds, year) == [first] + rest;
  }

  lemma SecondQuarterDerived(ds: seq<Duration>, q1: Raw, half: Raw, late: Raw, year: Duration)
    requires year in Annuals(ds) && Quarters(ds) == [q1, late] && Ytds(ds, year) == [q1, half, year]
    requires q1.start == half.start == year.start == Some(1) && late.start == Some(100)
    requires q1.end == 90 && half.end == late.end == 181 && year.end == 365
    ensures !Aligned(ds)
  {
    hide Walk, Quarters, Ytds;
    assert [q1, late][1..] == [late] && FindDirect([late], 91) == None;
    assert [q1, half, year][1..] == [half, year];
    var s := SecondQuarter(ds, year, q1, half);
    assert late in Quarters(ds);
  }

  /**
   * A misaligned quarter the source accepts, whatever the values: a first
   * quarter, a half year, the year, and a quarter that ends with the half year
   * but starts nine days late.
   */
  lemma MisalignedQuarterClashes(spec: MetricSpec, q1: Duration, half: Duration, late: Duration, year: Duration)
    requires spec.kind.Flow?
    requires q1.start == half.start == year.start == Some(1) && late.start == Some(100)
    requires q1.end == 90 && half.end == late.end == 181 && year.end == 365
    ensures !Unique(DurationFacts(spec, [q1, half, late] + [year]))
  {
    hide DurationFacts, Unique, Durations, Annuals, Quarters, Ytds, Store;
    var ds: seq<Duration> := [q1, half, late] + [year];
    AllDated(ds);
    OneAnnual([q1, half, late], year);
    CollectedYear(q1, half, late, year);
    SecondQuarterDerived(ds, q1, half, late, year);
    hide Aligned;
    DurationKeysExactly(spec, ds);
  }

  /**
   * Overlapping fiscal years clash too, even when they end apart: a year
   * reported once as 365 and once as 370 days derives its second quarter twice.
   */
  lemma RestatedYearClashes(spec: MetricSpec, q1: Duration, half: Duration, year: Duration, longer: Duration)
    requires spec.kind.Flow? && q1.start == half.start == year.start == longer.start == Some(1)
    requires q1.end == 90 && half.end == 181 && year.end == 365 && longer.end == 370
    ensures !Unique(DurationFacts(spec, [q1, half] + [year] + [longer]))
  {
    var ds: seq<Duration> := [q1, half] + [year] + [longer];
    hide Annuals, Quarters, Ytds, WalkOf, DurationFacts, Unique, Durations, Aligned, WalksApart;
    TwoYears(q1, half, year, longer);
    CollectTwo(q1, half, year, longer, year);
    CollectTwo(q1, half, year, longer, longer);
    assert [q1, half] + [year] + [] == [q1, half] + [year];
    SecondOfBoth(ds, q1, half, year, longer);
    AllDated(ds);
    DurationKeysExactly(spec, ds);
  }

  lemma FindSecond(q1: Raw, half: Raw, rest: seq<Raw>)
    requires q1.end == 90 && half.end == 181
    ensures FindYtd([q1, half] + rest, 91) == Some(half)
  {
    var ytds := [q1, half] + rest;
    assert ytds[1..] == [half] + rest;
  }

  lemma OnlyFirst(q1: Raw)
    requires q1.start == Some(1) && q1.end == 90
    ensures ReportedQuarters([q1]) && FindDirect([q1], 1) == Some(q1) && FindDirect([q1], 91) == None
  {
    assert [q1][1..] == [];
  }

  lemma SecondOfBoth(ds: seq<Duration>, q1: Raw, half: Raw, year: Duration, longer: Duration)
    requires Annuals(ds) == [year, longer] && Quarters(ds) == [q1]
    requires Ytds(ds, year) == [q1, half] + [year] && Ytds(ds, longer) == [q1, half] + [year] + [longer]
    requires q1.start == half.start == year.start == longer.start == Some(1)
    requires q1.end == 90 && half.end == 181 && year.end == 365 && longer.end == 370
    ensures !WalksApart(ds, Annuals(ds))
  {
    hide Annuals, Quarters, Ytds, WalkOf, FindDirect, FindYtd, WalksApart, ReportedQuarters;
    OnlyFirst(q1);
    FindSecond(q1, half, [year]);
    FindSecond(q1, half, [year] + [longer]);
    assert [q1, half] + ([year] + [longer]) == [q1, half] + [year] + [longer];
    var s := SecondQuarter(ds, year, q1, half);
    var t := SecondQuarter(ds, longer, q1, half);
    SharedEnd(ds, Annuals(ds), s, t);
  }

  lemma SharedEnd(ds: seq<Duration>, years: seq<Duration>, s: Step, t: Step)
    requires |years| == 2 && s in WalkOf(ds, years[0]) && t in WalkOf(ds, years[1])
    requires s.derived && t.derived && s.end == t.end
    ensures !WalksApart(ds, years)
  {
    hide WalkOf;
    assert !NoSharedEnd(WalkOf(ds, years[0]), WalkOf(ds, years[1]));
  }

  /** What [q1, half] and two more years add up to, for the walk of `target`. */
  lemma CollectTwo(q1: Duration, half: Duration, year: Duration, longer: Duration, target: Duration)
    requires q1.start == half.start == year.start == longer.start == target.start == Some(1)
    requires q1.end == 90 && half.end == 181 && year.end == 365 && longer.end == 370 && 365 <= target.end < 381
    ensures var ds: seq<Duration> := [q1, half] + [year] + [longer];
      && Quarters(ds) == [q1]
      && Ytds(ds, target) == [q1, half] + [year] + if longer.end <= target.end then [longer] else []
  {
    CollectedHalf(q1, half, target);
    hide Quarters, Ytds;
    Collect([q1, half], target, year);
    Collect([q1, half] + [year], target, longer);
    assert [q1] + [] == [q1];
  }

  lemma TwoYears(q1: Duration, half: Duration, year: Duration, longer: Duration)
    requires q1.start == half.start == year.start == longer.start == Some(1)
    requires q1.end == 90 && half.end == 181 && year.end == 365 && longer.end == 370
    ensures Annuals([q1, half] + [year] + [longer]) == [year, longer]
  {
    hide Annuals;
    NoAnnuals([q1, half]);
    AnnualsSnoc([q1, half], year);
    AnnualsSnoc([q1, half] + [year], longer);
    assert [year] + [longer] == [year, longer];
  }

  lemma {:induction false} NoAnnuals(ds: seq<Duration>)
    requires forall r :: r in ds ==> !IsAnnual(r)
    ensures Annuals(ds) == []
  {
    if |ds| > 0 { NoAnnuals(ds[1..]); }
  }

  lemma {:induction false} AnnualsSnoc(ds: seq<Duration>, r: Duration)
    ensures Annuals(ds + [r]) == Annuals(ds) + if IsAnnual(r) then [r] else []
  {
    if |ds| == 0 {
      assert ds + [r] == [r] && [r][1..] == [];
    } else {
      assert (ds + [r])[1..] == ds[1..] + [r];
      AnnualsSnoc(ds[1..], r);
    }
  }
}
