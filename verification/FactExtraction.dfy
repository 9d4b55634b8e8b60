/** From a companyfacts document to the facts of every metric. */
module FactExtraction {
  import opened Options
  import opened FactSelection
  import opened Facts
  import opened YearWalk

  datatype Kind = Flow | PerShare | InTime

  datatype MetricSpec = MetricSpec(name: string, kind: Kind, unit: string, concepts: seq<string>)

  /** One entry of a companyfacts document. */
  datatype Entry = Entry(form: string, start: Option<int>, end: Option<int>, val: Option<real>,
                         accession: Option<string>, filed: Option<int>)

  /** Entries by concept and unit. */
  type Document = map<(string, string), seq<Entry>>

  const REPORTING_FORMS: set<string> := {"10-K", "10-Q", "10-K/A", "10-Q/A", "10-KT"}

  predicate Reportable(e: Entry) {
    e.form in REPORTING_FORMS && e.val.Some? && e.end.Some?
  }

  function AsRaw(e: Entry, concept: string): Raw
    requires Reportable(e)
  {
    Raw(e.start, e.end.value, e.val.value, e.filed, concept, e.accession)
  }

  function RawFacts(entries: seq<Entry>, concept: string): seq<Raw> {
    if |entries| == 0 then []
    else
      var n := |entries| - 1;
      RawFacts(entries[..n], concept) + if Reportable(entries[n]) then [AsRaw(entries[n], concept)] else []
  }

  /** Of an annual or quarterly form, amended or transitional too, with a value and an end. */
  ghost predicate IsReported(e: Entry) {
    && (e.form == "10-K" || e.form == "10-Q" || e.form == "10-K/A" || e.form == "10-Q/A" || e.form == "10-KT")
    && e.val != None && e.end != None
  }

  ghost predicate IsTakenFrom(raw: Raw, e: Entry, concept: string) {
    && IsReported(e) && raw.start == e.start && Some(raw.end) == e.end && Some(raw.value) == e.val
    && raw.filed == e.filed && raw.accession == e.accession && raw.concept == concept
  }

  /** raws[n] comes from the entry at at[n]: those reported, all of them, in order. */
  ghost predicate Collected(entries: seq<Entry>, concept: string, raws: seq<Raw>, at: seq<nat>) {
    && |at| == |raws|
    && (forall n :: 0 <= n < |at| ==>
          at[n] < |entries| && IsTakenFrom(raws[n], entries[at[n]], concept))
    && (forall m, n :: 0 <= m < n < |at| ==> at[m] < at[n])
    && (forall i :: 0 <= i < |entries| && IsReported(entries[i]) ==> i in at)
  }

  lemma TakesReported(e: Entry, concept: string)
    ensures Reportable(e) <==> IsReported(e)
    ensures Reportable(e) ==> IsTakenFrom(AsRaw(e, concept), e, concept)
  {
  }

  lemma {:induction false} CollectedNext(entries: seq<Entry>, concept: string, raws: seq<Raw>, at: seq<nat>, e: Entry)
    requires Collected(entries, concept, raws, at)
    ensures Reportable(e) ==> Collected(entries + [e], concept, raws + [AsRaw(e, concept)], at + [|entries|])
    ensures !Reportable(e) ==> Collected(entries + [e], concept, raws, at)
  {
    TakesReported(e, concept);
    hide Reportable, IsReported, IsTakenFrom, AsRaw;
    forall i | 0 <= i < |entries| && IsReported((entries + [e])[i]) ensures i in at && i in at + [|entries|] {
      assert IsReported(entries[i]);
    }
  }

  /** What is kept of a concept's entries, and in what order. */
  lemma {:induction false} RawFactsAre(entries: seq<Entry>, concept: string) returns (at: seq<nat>)
    ensures Collected(entries, concept, RawFacts(entries, concept), at)
  {
    hide Reportable;
    at := [];
    if |entries| > 0 {
      var front, e := entries[..|entries| - 1], entries[|entries| - 1];
      assert entries == front + [e];
      at := RawFactsAre(front, concept);
      CollectedNext(front, concept, RawFacts(front, concept), at, e);
      hide Collected;
      assert RawFacts(front, concept) + [] == RawFacts(front, concept);
      if Reportable(e) { at := at + [|front|]; }
    }
  }

  function ReportedFor(doc: Document, concepts: seq<string>, unit: string): seq<Reported> {
    if |concepts| == 0 then []
    else
      var n := |concepts| - 1;
      ReportedFor(doc, concepts[..n], unit) +
      [Reported(concepts[n], RawFacts(EntriesOf(doc, concepts[n], unit), concepts[n]))]
  }

  function EntriesOf(doc: Document, concept: string, unit: string): seq<Entry> {
    if (concept, unit) in doc then doc[(concept, unit)] else []
  }

  function AsReported(spec: MetricSpec, period: Period, r: Raw): Fact {
    Fact(spec.name, period, if period.Instant? then None else r.start, r.end, r.value, spec.unit, false,
         r.concept, r.accession, r.filed)
  }

  function AsDerived(spec: MetricSpec, s: Step): Fact {
    Fact(spec.name, Quarter, Some(s.start), s.end, s.value, spec.unit, s.raw.start != Some(s.start),
         s.raw.concept, s.raw.accession, s.raw.filed)
  }

  function AllReported(spec: MetricSpec, period: Period, rs: seq<Raw>): seq<Fact> {
    if |rs| == 0 then [] else AllReported(spec, period, rs[..|rs| - 1]) + [AsReported(spec, period, rs[|rs| - 1])]
  }

  function DerivedIn(spec: MetricSpec, steps: seq<Step>): seq<Fact> {
    if |steps| == 0 then []
    else
      var s := steps[|steps| - 1];
      DerivedIn(spec, steps[..|steps| - 1]) + (if s.derived then [AsDerived(spec, s)] else [])
  }

  function DerivedFacts(spec: MetricSpec, ds: seq<Duration>, years: seq<Duration>): seq<Fact> {
    if |years| == 0 then []
    else DerivedFacts(spec, ds, years[..|years| - 1]) + DerivedIn(spec, WalkOf(ds, years[|years| - 1]))
  }

  function DurationFacts(spec: MetricSpec, periods: seq<Raw>): seq<Fact> {
    var ds := Durations(periods);
    var years := Annuals(ds);
    AllReported(spec, Annual, years) + AllReported(spec, Quarter, Quarters(ds))
    + if spec.kind.PerShare? then [] else DerivedFacts(spec, ds, years)
  }

  method DeriveYear(spec: MetricSpec, ds: seq<Duration>, year: Duration) returns (out: seq<Fact>)
    ensures out == DerivedIn(spec, WalkOf(ds, year))
  {
    var steps := WalkYear(ds, year);
    out := [];
    for j := 0 to |steps|
      invariant out == DerivedIn(spec, steps[..j])
    {
      assert steps[..j + 1][..j] == steps[..j];
      if steps[j].derived {
        out := out + [AsDerived(spec, steps[j])];
      }
    }
    assert steps[..|steps|] == steps;
  }

  method DeriveDurations(spec: MetricSpec, periods: seq<Raw>) returns (out: seq<Fact>)
    ensures out == DurationFacts(spec, periods)
  {
    hide AllReported, DerivedIn, WalkOf, Durations, Annuals, Quarters;
    var ds := Durations(periods);
    var years := Annuals(ds);
    out := AllReported(spec, Annual, years) + AllReported(spec, Quarter, Quarters(ds));
    var derived: seq<Fact> := [];
    if !spec.kind.PerShare? {
      for i := 0 to |years|
        invariant derived == DerivedFacts(spec, ds, years[..i])
      {
        assert years[..i + 1][..i] == years[..i];
        var more := DeriveYear(spec, ds, years[i]);
        derived := derived + more;
      }
      assert years[..|years|] == years;
    }
    out := out + derived;
  }

  /** The balance-sheet values: one per date, the latest filed. */
  function ByDate(periods: seq<Raw>): (r: seq<Raw>)
    ensures Keyed(r, EndOf)
  {
    if |periods| == 0 then []
    else
      var best, raw := ByDate(periods[..|periods| - 1]), periods[|periods| - 1];
      StoreKeyed(best, EndOf, raw);
      var current := Lookup(best, EndOf, raw.end);
      if raw.start.None? && (current.None? || FiledOn(current.value) <= FiledOn(raw))
      then Store(best, EndOf, raw) else best
  }

  function MetricFacts(spec: MetricSpec, periods: seq<Raw>): seq<Fact> {
    if spec.kind.InTime? then AllReported(spec, Instant, ByDate(periods)) else DurationFacts(spec, periods)
  }

  function PeriodsOf(doc: Document, spec: MetricSpec): seq<Raw> {
    Select(ReportedFor(doc, spec.concepts, spec.unit))
  }

  /** Metric after metric. */
  function AllFacts(doc: Document, metrics: seq<MetricSpec>): seq<Fact> {
    if |metrics| == 0 then []
    else
      var spec := metrics[|metrics| - 1];
      AllFacts(doc, metrics[..|metrics| - 1]) + MetricFacts(spec, PeriodsOf(doc, spec))
  }

  /** extract_facts */
  function ExtractFacts(doc: Document, metrics: seq<MetricSpec>): seq<Fact> {
    SortFacts(AllFacts(doc, metrics))
  }

  method CollectRaw(entries: seq<Entry>, concept: string) returns (out: seq<Raw>)
    ensures out == RawFacts(entries, concept)
  {
    out := [];
    for i := 0 to |entries|
      invariant out == RawFacts(entries[..i], concept)
    {
      assert entries[..i + 1][..i] == entries[..i];
      var e := entries[i];
      if e.form in REPORTING_FORMS && e.val.Some? && e.end.Some? {
        out := out + [Raw(e.start, e.end.value, e.val.value, e.filed, concept, e.accession)];
      }
    }
    assert entries[..|entries|] == entries;
  }

  method CollectReported(doc: Document, concepts: seq<string>, unit: string) returns (out: seq<Reported>)
    ensures out == ReportedFor(doc, concepts, unit)
  {
    hide RawFacts;
    out := [];
    for i := 0 to |concepts|
      invariant out == ReportedFor(doc, concepts[..i], unit)
    {
      assert concepts[..i + 1][..i] == concepts[..i];
      var raws := CollectRaw(EntriesOf(doc, concepts[i], unit), concepts[i]);
      out := out + [Reported(concepts[i], raws)];
    }
    assert concepts[..|concepts|] == concepts;
  }

  lemma {:induction false} StoreNew<K>(d: seq<Raw>, key: Raw -> K, r: Raw)
    requires forall x :: x in d ==> key(x) != key(r)
    ensures Store(d, key, r) == d + [r]
  {
    if |d| > 0 { StoreNew(d[1..], key, r); }
  }

  function Instants(periods: seq<Raw>): seq<Raw> {
    if |periods| == 0 then []
    else
      var raw := periods[|periods| - 1];
      Instants(periods[..|periods| - 1]) + if raw.start.None? then [raw] else []
  }

  /**
   * One value per period leaves one instant per date: the comparison of filing
   * dates never decides, and every balance-sheet value is kept.
   */
  lemma {:induction false} ByDateIsInstants(periods: seq<Raw>)
    requires Keyed(periods, PeriodOf)
    ensures ByDate(periods) == Instants(periods)
    ensures forall r :: r in Instants(periods) <==> r in periods && r.start.None?
  {
    if |periods| > 0 {
      var front, raw := periods[..|periods| - 1], periods[|periods| - 1];
      ByDateIsInstants(front);
      assert periods == front + [raw];
      if raw.start.None? {
        forall r | r in Instants(front) ensures EndOf(r) != EndOf(raw) {
          var i :| 0 <= i < |front| && front[i] == r;
          assert PeriodOf(periods[i]) != PeriodOf(periods[|periods| - 1]);
        }
        StoreNew(Instants(front), EndOf, raw);
      }
    }
  }

  method LatestByDate(periods: seq<Raw>) returns (best: seq<Raw>)
    ensures best == ByDate(periods)
  {
    best := [];
    for i := 0 to |periods|
      invariant best == ByDate(periods[..i])
    {
      assert periods[..i + 1][..i] == periods[..i];
      var raw := periods[i];
      if raw.start.None? {
        var current := Lookup(best, EndOf, raw.end);
        if current.None? || FiledOn(current.value) <= FiledOn(raw) {
          best := Store(best, EndOf, raw);
        }
      }
    }
    assert periods[..|periods|] == periods;
  }

  method ExtractMetric(doc: Document, spec: MetricSpec) returns (out: seq<Fact>)
    ensures out == MetricFacts(spec, PeriodsOf(doc, spec))
  {
    hide Select, DurationFacts, ByDate, ReportedFor;
    var reported := CollectReported(doc, spec.concepts, spec.unit);
    var periods := SelectPeriods(reported);
    if spec.kind.InTime? {
      var best := LatestByDate(periods);
      out := AllReported(spec, Instant, best);
    } else {
      out := DeriveDurations(spec, periods);
    }
  }

  method ExtractAll(doc: Document, metrics: seq<MetricSpec>) returns (out: seq<Fact>)
    ensures out == ExtractFacts(doc, metrics)
  {
    hide MetricFacts, PeriodsOf, SortFacts;
    out := [];
    for i := 0 to |metrics|
      invariant out == AllFacts(doc, metrics[..i])
    {
      assert metrics[..i + 1][..i] == metrics[..i];
      var more := ExtractMetric(doc, metrics[i]);
      out := out + more;
    }
    assert metrics[..|metrics|] == metrics;
    out := SortFacts(out);
  }

  /** The extraction is in (metric, period, end) order and holds every metric's facts, and no others. */
  lemma {:induction false} ExtractedAre(doc: Document, metrics: seq<MetricSpec>)
    ensures forall i, j :: 0 <= i < j < |ExtractFacts(doc, metrics)| ==>
              StandsBefore(ExtractFacts(doc, metrics)[i], ExtractFacts(doc, metrics)[j])
    ensures forall f :: f in ExtractFacts(doc, metrics) <==>
              exists spec :: spec in metrics && f in MetricFacts(spec, PeriodsOf(doc, spec))
  {
    hide MetricFacts, PeriodsOf;
    SortedInOrder(AllFacts(doc, metrics));
    OrderMeans(ExtractFacts(doc, metrics));
    SameElements(ExtractFacts(doc, metrics), AllFacts(doc, metrics));
    AllFactsAre(doc, metrics);
  }

  lemma {:induction false} AllFactsAre(doc: Document, metrics: seq<MetricSpec>)
    ensures forall f :: f in AllFacts(doc, metrics) <==>
              exists spec :: spec in metrics && f in MetricFacts(spec, PeriodsOf(doc, spec))
  {
    hide MetricFacts, PeriodsOf;
    if |metrics| > 0 {
      var front, last := metrics[..|metrics| - 1], metrics[|metrics| - 1];
      AllFactsAre(doc, front);
      assert forall spec :: spec in metrics <==> spec in front || spec == last;
    }
  }
}
