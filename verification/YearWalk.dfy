/**
 * Deriving quarters: one fiscal year is walked quarter by quarter with a
 * running year-to-date total. A step takes a reported quarter when one starts
 * close enough to where the last step ended, and otherwise the difference
 * between the next year-to-date figure and the running total.
 */
module YearWalk {
  import opened Options
  import opened FactSelection

  function Days(start: int, end: int): int {
    end - start + 1
  }

  predicate QuarterLong(start: int, end: int) {
    80 <= Days(start, end) < 101
  }

  predicate YearLong(start: int, end: int) {
    350 <= Days(start, end) < 381
  }

  predicate Near(start: int, target: int) {
    -3 <= start - target <= 3
  }

  /** A value reported for a period with a start date. */
  type Duration = r: Raw | r.start.Some? witness Raw(Some(1), 1, 0.0, None, "", None)

  function StartDay(r: Raw): int {
    if r.start.Some? then r.start.value else 0
  }

  predicate IsQuarter(r: Raw) {
    r.start.Some? && QuarterLong(r.start.value, r.end)
  }

  predicate IsAnnual(r: Raw) {
    r.start.Some? && YearLong(r.start.value, r.end)
  }

  function Durations(periods: seq<Raw>): (ds: seq<Duration>)
    ensures forall r :: r in ds <==> r in periods && r.start.Some?
  {
    if |periods| == 0 then []
    else if periods[0].start.Some? then [periods[0]] + Durations(periods[1..])
    else Durations(periods[1..])
  }

  function Annuals(ds: seq<Duration>): (ys: seq<Duration>)
    ensures forall r :: r in ys <==> r in ds && IsAnnual(r)
  {
    if |ds| == 0 then []
    else (if IsAnnual(ds[0]) then [ds[0]] else []) + Annuals(ds[1..])
  }

  /** {r.end: r for r in ds if quarter-long}: the last of those ending together wins. */
  function Quarters(ds: seq<Duration>): (qs: seq<Raw>)
    ensures Keyed(qs, EndOf)
    ensures forall q :: q in qs ==> q in ds && IsQuarter(q)
  {
    if |ds| == 0 then []
    else
      var front, r := ds[..|ds| - 1], ds[|ds| - 1];
      var qs := Quarters(front);
      StoreKeyed(qs, EndOf, r);
      if IsQuarter(r) then Store(qs, EndOf, r) else qs
  }

  predicate YtdOf(year: Duration, r: Raw) {
    r.start == year.start && r.end <= year.end
  }

  /** {r.end: r for r in ds if r starts with the year and ends within it} */
  function Ytds(ds: seq<Duration>, year: Duration): (ys: seq<Raw>)
    ensures Keyed(ys, EndOf)
    ensures forall y :: y in ys ==> y in ds && YtdOf(year, y)
  {
    if |ds| == 0 then []
    else
      var front, r := ds[..|ds| - 1], ds[|ds| - 1];
      var ys := Ytds(front, year);
      StoreKeyed(ys, EndOf, r);
      if YtdOf(year, r) then Store(ys, EndOf, r) else ys
  }

  /** ds[i] is the last of the quarter-long values ending on its day. */
  ghost predicate LastQuarter(ds: seq<Duration>, i: nat) {
    && i < |ds| && 80 <= ds[i].end - ds[i].start.value + 1 <= 100
    && forall j :: i < j < |ds| && ds[j].end == ds[i].end ==>
         ds[j].end - ds[j].start.value + 1 < 80 || 100 < ds[j].end - ds[j].start.value + 1
  }

  /** ds[i] is the last of those that start with the year and end on its day, within the year. */
  ghost predicate LastYtd(ds: seq<Duration>, year: Duration, i: nat) {
    && i < |ds| && ds[i].start == year.start && ds[i].end <= year.end
    && forall j :: i < j < |ds| && ds[j].end == ds[i].end ==> ds[j].start != year.start
  }

  lemma {:induction false} QuarterAt(ds: seq<Duration>, i: nat)
    requires LastQuarter(ds, i)
    ensures Lookup(Quarters(ds), EndOf, ds[i].end) == Some(ds[i])
  {
    var front, r := ds[..|ds| - 1], ds[|ds| - 1];
    if IsQuarter(r) { LookupStore(Quarters(front), EndOf, r, ds[i].end); }
    if i < |front| { QuarterAt(front, i); }
  }

  lemma {:induction false} YtdAt(ds: seq<Duration>, year: Duration, i: nat)
    requires LastYtd(ds, year, i)
    ensures Lookup(Ytds(ds, year), EndOf, ds[i].end) == Some(ds[i])
  {
    var front, r := ds[..|ds| - 1], ds[|ds| - 1];
    if YtdOf(year, r) { LookupStore(Ytds(front, year), EndOf, r, ds[i].end); }
    if i < |front| { YtdAt(front, year, i); }
  }

  lemma {:induction false} LaterQuarter(ds: seq<Duration>, i: nat) returns (last: nat)
    requires i < |ds| && IsQuarter(ds[i])
    ensures LastQuarter(ds, last) && ds[last].end == ds[i].end
    decreases |ds| - i
  {
    last := i;
    if j :| i < j < |ds| && ds[j].end == ds[i].end && IsQuarter(ds[j]) {
      last := LaterQuarter(ds, j);
    }
  }

  lemma {:induction false} LaterYtd(ds: seq<Duration>, year: Duration, i: nat) returns (last: nat)
    requires i < |ds| && YtdOf(year, ds[i])
    ensures LastYtd(ds, year, last) && ds[last].end == ds[i].end
    decreases |ds| - i
  {
    last := i;
    if j :| i < j < |ds| && ds[j].end == ds[i].end && ds[j].start == year.start {
      last := LaterYtd(ds, year, j);
    }
  }

  /** The quarters kept are those of 80 to 100 days, the last of each end. */
  lemma QuartersAre(ds: seq<Duration>, q: Raw)
    ensures q in Quarters(ds) <==> exists i: nat :: LastQuarter(ds, i) && ds[i] == q
  {
    hide Quarters, Lookup, Keyed;
    if i: nat :| LastQuarter(ds, i) && ds[i] == q { QuarterAt(ds, i); }
    if q in Quarters(ds) {
      var i :| 0 <= i < |ds| && ds[i] == q;
      var last := LaterQuarter(ds, i);
      QuarterAt(ds, last);
      KeyedLookup(Quarters(ds), EndOf, q);
    }
  }

  /** The year-to-date figures kept start with the year and end within it, the last of each end. */
  lemma YtdsAre(ds: seq<Duration>, year: Duration, y: Raw)
    ensures y in Ytds(ds, year) <==> exists i: nat :: LastYtd(ds, year, i) && ds[i] == y
  {
    hide Ytds, Lookup, Keyed;
    if i: nat :| LastYtd(ds, year, i) && ds[i] == y { YtdAt(ds, year, i); }
    if y in Ytds(ds, year) {
      var i :| 0 <= i < |ds| && ds[i] == y;
      var last := LaterYtd(ds, year, i);
      YtdAt(ds, year, last);
      KeyedLookup(Ytds(ds, year), EndOf, y);
    }
  }

  predicate ReportedQuarters(quarters: seq<Raw>) {
    forall q :: q in quarters ==> IsQuarter(q)
  }

  /** The first reported quarter starting within three days of `start`. */
  function FindDirect(quarters: seq<Raw>, start: int): (q: Option<Raw>)
    ensures q.Some? ==> q.value in quarters && Near(StartDay(q.value), start)
    ensures q.None? ==> forall r :: r in quarters ==> !Near(StartDay(r), start)
  {
    if |quarters| == 0 then None
    else if Near(StartDay(quarters[0]), start) then Some(quarters[0])
    else FindDirect(quarters[1..], start)
  }

  /** The first year-to-date figure that ends a quarter's length after `start`. */
  function FindYtd(ytds: seq<Raw>, start: int): (y: Option<Raw>)
    ensures y.Some? ==> y.value in ytds && QuarterLong(start, y.value.end)
    ensures y.None? ==> forall r :: r in ytds ==> !QuarterLong(start, r.end)
  {
    if |ytds| == 0 then None
    else if QuarterLong(start, ytds[0].end) then Some(ytds[0])
    else FindYtd(ytds[1..], start)
  }

  /**
   * One walked quarter. `raw` is the reported quarter, or the year-to-date
   * figure it was derived from; `before` and `after` are the running total.
   */
  datatype Step = Step(derived: bool, start: int, end: int, value: real, before: real, after: real, raw: Raw)

  /** The step taken after prevEnd, or None at a gap. */
  function NextStep(quarters: seq<Raw>, ytds: seq<Raw>, prevEnd: int, running: real): (s: Option<Step>)
    requires ReportedQuarters(quarters)
    ensures s.Some? ==> prevEnd + 77 <= s.value.end
  {
    var start := prevEnd + 1;
    var direct := FindDirect(quarters, start);
    var ytd := FindYtd(ytds, start);
    if direct.Some? then
      var q := direct.value;
      var same := Lookup(ytds, EndOf, q.end);
      Some(Step(false, StartDay(q), q.end, q.value, running,
                if same.Some? then same.value.value else running + q.value, q))
    else if ytd.Some? then
      Some(Step(true, start, ytd.value.end, ytd.value.value - running, running, ytd.value.value, ytd.value))
    else None
  }

  function Walk(yearEnd: int, quarters: seq<Raw>, ytds: seq<Raw>, prevEnd: int, running: real): seq<Step>
    requires ReportedQuarters(quarters)
    decreases yearEnd - prevEnd
  {
    if yearEnd <= prevEnd then []
    else
      match NextStep(quarters, ytds, prevEnd, running)
      case None => []
      case Some(s) => [s] + Walk(yearEnd, quarters, ytds, s.end, s.after)
  }

  /** The walk of `year`, given everything reported under the metric. */
  function WalkOf(ds: seq<Duration>, year: Duration): seq<Step> {
    Walk(year.end, Quarters(ds), Ytds(ds, year), year.start.value - 1, 0.0)
  }

  lemma WalkUnfold(yearEnd: int, quarters: seq<Raw>, ytds: seq<Raw>, prevEnd: int, running: real)
    requires ReportedQuarters(quarters)
    ensures Walk(yearEnd, quarters, ytds, prevEnd, running) ==
      if yearEnd <= prevEnd then []
      else
        match NextStep(quarters, ytds, prevEnd, running)
        case None => []
        case Some(s) => [s] + Walk(yearEnd, quarters, ytds, s.end, s.after)
  {
  }

  /** The loop body's choice: a reported quarter, a year-to-date difference, or a gap. */
  method TakeStep(quarters: seq<Raw>, ytds: seq<Raw>, prevEnd: int, running: real) returns (step: Option<Step>)
    requires ReportedQuarters(quarters)
    ensures step == NextStep(quarters, ytds, prevEnd, running)
  {
    hide FindDirect, FindYtd, Lookup;
    var nextStart := prevEnd + 1;
    var direct := FindDirect(quarters, nextStart);
    var ytd := FindYtd(ytds, nextStart);
    if direct.Some? {
      var q := direct.value;
      var same := Lookup(ytds, EndOf, q.end);
      var after := if same.Some? then same.value.value else running + q.value;
      step := Some(Step(false, StartDay(q), q.end, q.value, running, after, q));
    } else if ytd.Some? {
      var y := ytd.value;
      step := Some(Step(true, nextStart, y.end, y.value - running, running, y.value, y));
    } else {
      step := None;
    }
  }

  method WalkYear(ds: seq<Duration>, year: Duration) returns (steps: seq<Step>)
    ensures steps == WalkOf(ds, year)
  {
    hide Walk, NextStep, Quarters, Ytds;
    var quarters, ytds := Quarters(ds), Ytds(ds, year);
    var prevEnd, running := year.start.value - 1, 0.0;
    steps := [];
    while prevEnd < year.end
      invariant WalkOf(ds, year) == steps + Walk(year.end, quarters, ytds, prevEnd, running)
      decreases year.end - prevEnd
    {
      WalkUnfold(year.end, quarters, ytds, prevEnd, running);
      var step := TakeStep(quarters, ytds, prevEnd, running);
      if step.None? {
        break;
      }
      steps, prevEnd, running := steps + [step.value], step.value.end, step.value.after;
    }
    WalkUnfold(year.end, quarters, ytds, prevEnd, running);
  }

  // ---- shape of a walk ------------------------------------------------------

  /** The day the chain has got to before step i. */
  ghost function Reached(steps: seq<Step>, from: int, i: nat): int
    requires i <= |steps|
  {
    if i == 0 then from else steps[i - 1].end
  }

  /** An unbroken chain of quarters from `from`, each at least 77 days on. */
  ghost predicate Chain(steps: seq<Step>, from: int) {
    forall i :: 0 <= i < |steps| ==>
      var prevEnd := Reached(steps, from, i);
      && prevEnd + 77 <= steps[i].end
      && Near(steps[i].start, prevEnd + 1)
      && (steps[i].derived ==> steps[i].start == prevEnd + 1 && QuarterLong(steps[i].start, steps[i].end))
  }

  ghost predicate Grounded(steps: seq<Step>, quarters: seq<Raw>, ytds: seq<Raw>) {
    forall s :: s in steps ==>
      && s.end == s.raw.end
      && if s.derived then s.raw in ytds && s.value == s.raw.value - s.before
         else s.raw in quarters && s.raw.start == Some(s.start) && s.value == s.raw.value
  }

  /** A quarter is derived only where no reported quarter starts nearby. */
  ghost predicate DerivesOnlyAtGaps(steps: seq<Step>, quarters: seq<Raw>) {
    forall s, q :: s in steps && s.derived && q in quarters ==> !Near(StartDay(q), s.start)
  }

  lemma NextShape(quarters: seq<Raw>, ytds: seq<Raw>, prevEnd: int, running: real)
    requires ReportedQuarters(quarters) && NextStep(quarters, ytds, prevEnd, running).Some?
    ensures var s := NextStep(quarters, ytds, prevEnd, running).value;
      && Near(s.start, prevEnd + 1) && (s.derived ==> s.start == prevEnd + 1 && QuarterLong(s.start, s.end))
      && Grounded([s], quarters, ytds) && DerivesOnlyAtGaps([s], quarters)
  {
    hide FindDirect, FindYtd, Lookup;
  }

  /** One more step in front. */
  lemma {:induction false} ChainFrom(s: Step, rest: seq<Step>, from: int)
    requires Chain(rest, s.end) && from + 77 <= s.end && Near(s.start, from + 1)
    requires s.derived ==> s.start == from + 1 && QuarterLong(s.start, s.end)
    ensures Chain([s] + rest, from)
  {
    hide Near, QuarterLong;
    var steps := [s] + rest;
    forall i | 0 < i < |steps|
      ensures steps[i] == rest[i - 1] && Reached(steps, from, i) == Reached(rest, s.end, i - 1) { }
  }

  lemma GroundedFrom(s: Step, rest: seq<Step>, quarters: seq<Raw>, ytds: seq<Raw>)
    requires Grounded([s], quarters, ytds) && Grounded(rest, quarters, ytds)
    requires DerivesOnlyAtGaps([s], quarters) && DerivesOnlyAtGaps(rest, quarters)
    ensures Grounded([s] + rest, quarters, ytds) && DerivesOnlyAtGaps([s] + rest, quarters)
  {
    assert s in [s] && forall x :: x in [s] + rest ==> x == s || x in rest;
  }

  lemma {:induction false} WalkShape(yearEnd: int, quarters: seq<Raw>, ytds: seq<Raw>, prevEnd: int, running: real)
    requires ReportedQuarters(quarters)
    ensures var steps := Walk(yearEnd, quarters, ytds, prevEnd, running);
      && Chain(steps, prevEnd) && Grounded(steps, quarters, ytds) && DerivesOnlyAtGaps(steps, quarters)
      && (|steps| > 0 ==> 77 * (|steps| - 1) < yearEnd - prevEnd)
    decreases yearEnd - prevEnd
  {
    hide NextStep;
    if prevEnd < yearEnd && NextStep(quarters, ytds, prevEnd, running).Some? {
      NextShape(quarters, ytds, prevEnd, running);
      var s := NextStep(quarters, ytds, prevEnd, running).value;
      WalkShape(yearEnd, quarters, ytds, s.end, s.after);
      hide Chain, Grounded, DerivesOnlyAtGaps, Near, QuarterLong;
      var rest := Walk(yearEnd, quarters, ytds, s.end, s.after);
      ChainFrom(s, rest, prevEnd);
      GroundedFrom(s, rest, quarters, ytds);
    }
  }

  /** The first reported quarter starting at most three days from `day`. */
  ghost predicate FirstNear(quarters: seq<Raw>, day: int, q: Raw) {
    exists k :: 0 <= k < |quarters| && quarters[k] == q && q.start.Some? && -3 <= q.start.value - day <= 3
      && forall j :: 0 <= j < k && quarters[j].start.Some? ==>
           quarters[j].start.value - day < -3 || 3 < quarters[j].start.value - day
  }

  /** The first year-to-date figure making a quarter of 80 to 100 days from `day`. */
  ghost predicate FirstYtd(ytds: seq<Raw>, day: int, y: Raw) {
    exists k :: 0 <= k < |ytds| && ytds[k] == y && 80 <= y.end - day + 1 <= 100
      && forall j :: 0 <= j < k ==> ytds[j].end - day + 1 < 80 || 100 < ytds[j].end - day + 1
  }

  ghost predicate NoneNear(quarters: seq<Raw>, day: int) {
    forall q :: q in quarters && q.start.Some? ==> q.start.value - day < -3 || 3 < q.start.value - day
  }

  ghost predicate NoYtd(ytds: seq<Raw>, day: int) {
    forall y :: y in ytds ==> y.end - day + 1 < 80 || 100 < y.end - day + 1
  }

  /** The step taken from `day`: the first reported quarter nearby, and only without one a difference. */
  ghost predicate Chosen(s: Step, quarters: seq<Raw>, ytds: seq<Raw>, day: int) {
    if s.derived then NoneNear(quarters, day) && FirstYtd(ytds, day, s.raw) else FirstNear(quarters, day, s.raw)
  }

  /** The walk stops no earlier than it must, and never steps on from a year that is over. */
  ghost predicate Maximal(steps: seq<Step>, yearEnd: int, quarters: seq<Raw>, ytds: seq<Raw>, prevEnd: int) {
    && (forall i :: 0 <= i < |steps| ==>
          Reached(steps, prevEnd, i) < yearEnd && Chosen(steps[i], quarters, ytds, Reached(steps, prevEnd, i) + 1))
    && var last := Reached(steps, prevEnd, |steps|);
       yearEnd <= last || (NoneNear(quarters, last + 1) && NoYtd(ytds, last + 1))
  }

  lemma FirstLater(first: Raw, rest: seq<Raw>, day: int)
    ensures !Near(StartDay(first), day) ==> forall q :: FirstNear(rest, day, q) ==> FirstNear([first] + rest, day, q)
    ensures !QuarterLong(day, first.end) ==> forall y :: FirstYtd(rest, day, y) ==> FirstYtd([first] + rest, day, y)
  {
    var all := [first] + rest;
    forall q | FirstNear(rest, day, q) && !Near(StartDay(first), day) ensures FirstNear(all, day, q) {
      var k :| 0 <= k < |rest| && rest[k] == q && q.start.Some? && -3 <= q.start.value - day <= 3
        && forall j :: 0 <= j < k && rest[j].start.Some? ==>
             rest[j].start.value - day < -3 || 3 < rest[j].start.value - day;
      assert all[k + 1] == q;
    }
    forall y | FirstYtd(rest, day, y) && !QuarterLong(day, first.end) ensures FirstYtd(all, day, y) {
      var k :| 0 <= k < |rest| && rest[k] == y && 80 <= y.end - day + 1 <= 100
        && forall j :: 0 <= j < k ==> rest[j].end - day + 1 < 80 || 100 < rest[j].end - day + 1;
      assert all[k + 1] == y;
    }
  }

  lemma {:induction false} FindDirectFirst(quarters: seq<Raw>, day: int)
    requires ReportedQuarters(quarters)
    ensures match FindDirect(quarters, day)
      case None => NoneNear(quarters, day)
      case Some(q) => FirstNear(quarters, day, q)
  {
    if |quarters| > 0 {
      assert quarters[0] in quarters;
      if !Near(StartDay(quarters[0]), day) {
        var rest := quarters[1..];
        FindDirectFirst(rest, day);
        FirstLater(quarters[0], rest, day);
        hide FirstNear;
        assert quarters == [quarters[0]] + rest;
      }
    }
  }

  lemma {:induction false} FindYtdFirst(ytds: seq<Raw>, day: int)
    ensures match FindYtd(ytds, day) case None => NoYtd(ytds, day) case Some(y) => FirstYtd(ytds, day, y)
  {
    if |ytds| > 0 && !QuarterLong(day, ytds[0].end) {
      var rest := ytds[1..];
      FindYtdFirst(rest, day);
      FirstLater(ytds[0], rest, day);
      hide FirstYtd;
      assert ytds == [ytds[0]] + rest;
    }
  }

  lemma NextIsChosen(quarters: seq<Raw>, ytds: seq<Raw>, prevEnd: int, running: real)
    requires ReportedQuarters(quarters)
    ensures match NextStep(quarters, ytds, prevEnd, running)
      case None => NoneNear(quarters, prevEnd + 1) && NoYtd(ytds, prevEnd + 1)
      case Some(s) => Chosen(s, quarters, ytds, prevEnd + 1)
  {
    FindDirectFirst(quarters, prevEnd + 1);
    FindYtdFirst(ytds, prevEnd + 1);
    hide FindDirect, FindYtd, Lookup, NoneNear, NoYtd, FirstNear, FirstYtd;
  }

  /** One more step in front. */
  lemma {:induction false} MaximalFrom(s: Step, rest: seq<Step>, yearEnd: int, quarters: seq<Raw>, ytds: seq<Raw>,
                                       prevEnd: int)
    requires prevEnd < yearEnd && Chosen(s, quarters, ytds, prevEnd + 1)
    requires Maximal(rest, yearEnd, quarters, ytds, s.end)
    ensures Maximal([s] + rest, yearEnd, quarters, ytds, prevEnd)
  {
    hide Chosen, NoneNear, NoYtd;
    var steps := [s] + rest;
    forall i | 0 < i <= |steps|
      ensures (i < |steps| ==> steps[i] == rest[i - 1]) && Reached(steps, prevEnd, i) == Reached(rest, s.end, i - 1) { }
  }

  /**
   * A walk goes on as long as it can: when it stops before the year is over, no
   * reported quarter starts within three days of the next day and no
   * year-to-date figure ends a quarter after it.
   */
  lemma {:induction false} WalkIsMaximal(yearEnd: int, quarters: seq<Raw>, ytds: seq<Raw>, prevEnd: int, running: real)
    requires ReportedQuarters(quarters)
    ensures Maximal(Walk(yearEnd, quarters, ytds, prevEnd, running), yearEnd, quarters, ytds, prevEnd)
    decreases yearEnd - prevEnd
  {
    NextIsChosen(quarters, ytds, prevEnd, running);
    hide NoneNear, NoYtd, Chosen;
    if prevEnd < yearEnd && NextStep(quarters, ytds, prevEnd, running).Some? {
      var s := NextStep(quarters, ytds, prevEnd, running).value;
      WalkIsMaximal(yearEnd, quarters, ytds, s.end, s.after);
      hide NextStep, Maximal;
      MaximalFrom(s, Walk(yearEnd, quarters, ytds, s.end, s.after), yearEnd, quarters, ytds, prevEnd);
    }
  }

  /** A year is over after at most five steps. */
  lemma WalkIsShort(ds: seq<Duration>, year: Duration)
    requires IsAnnual(year)
    ensures var steps := WalkOf(ds, year);
      && |steps| <= 5 && Chain(steps, year.start.value - 1)
      && Grounded(steps, Quarters(ds), Ytds(ds, year)) && DerivesOnlyAtGaps(steps, Quarters(ds))
  {
    WalkShape(year.end, Quarters(ds), Ytds(ds, year), year.start.value - 1, 0.0);
  }

  // ---- conservation ---------------------------------------------------------

  function Sum(steps: seq<Step>): real {
    if |steps| == 0 then 0.0 else Sum(steps[..|steps| - 1]) + steps[|steps| - 1].value
  }

  /** How far a reported quarter disagrees with the year-to-date figure it ends on. */
  function Disagreement(s: Step): real {
    s.before + s.value - s.after
  }

  function TotalDisagreement(steps: seq<Step>): real {
    if |steps| == 0 then 0.0 else TotalDisagreement(steps[..|steps| - 1]) + Disagreement(steps[|steps| - 1])
  }

  /** The running total before step i. */
  function TotalBefore(steps: seq<Step>, running: real, i: nat): real
    requires i <= |steps|
  {
    if i == 0 then running else steps[i - 1].after
  }

  /** The running total handed from step to step. */
  ghost predicate Carried(steps: seq<Step>, running: real) {
    forall i :: 0 <= i < |steps| ==> steps[i].before == TotalBefore(steps, running, i)
  }

  /**
   * After a step the total is the year-to-date figure ending with it; a reported
   * quarter that no such figure ends with is added on instead.
   */
  ghost predicate Totalled(steps: seq<Step>, ytds: seq<Raw>) {
    forall s :: s in steps ==>
      match Lookup(ytds, EndOf, s.end)
      case Some(y) => s.after == y.value
      case None => !s.derived && s.after == s.before + s.value
  }

  lemma {:induction false} WalkTotals(yearEnd: int, quarters: seq<Raw>, ytds: seq<Raw>, prevEnd: int, running: real)
    requires ReportedQuarters(quarters) && Keyed(ytds, EndOf)
    ensures var steps := Walk(yearEnd, quarters, ytds, prevEnd, running);
      Carried(steps, running) && Totalled(steps, ytds)
    decreases yearEnd - prevEnd
  {
    var steps := Walk(yearEnd, quarters, ytds, prevEnd, running);
    if |steps| > 0 {
      var s := NextStep(quarters, ytds, prevEnd, running).value;
      WalkTotals(yearEnd, quarters, ytds, s.end, s.after);
      if s.derived { KeyedLookup(ytds, EndOf, s.raw); }
      var rest := steps[1..];
      assert steps == [s] + rest && rest == Walk(yearEnd, quarters, ytds, s.end, s.after);
      forall i | 0 < i < |steps|
        ensures steps[i] == rest[i - 1] && TotalBefore(steps, running, i) == TotalBefore(rest, s.after, i - 1) { }
    }
  }

  lemma CarriedPrefix(steps: seq<Step>, running: real, n: nat)
    requires Carried(steps, running) && n <= |steps|
    ensures Carried(steps[..n], running)
  {
    var front := steps[..n];
    forall i | 0 <= i < n ensures front[i].before == TotalBefore(front, running, i) {
      assert front[i] == steps[i] && TotalBefore(front, running, i) == TotalBefore(steps, running, i);
    }
  }

  lemma {:induction false} Telescope(steps: seq<Step>, running: real)
    requires Carried(steps, running)
    ensures Sum(steps) - TotalDisagreement(steps) ==
            TotalBefore(steps, running, |steps|) - running
  {
    if |steps| > 0 {
      CarriedPrefix(steps, running, |steps| - 1);
      Telescope(steps[..|steps| - 1], running);
    }
  }

  lemma SumSnoc(steps: seq<Step>, from: nat, to: nat)
    requires from <= to <= |steps|
    ensures Sum(steps[from..to]) == if from == to then 0.0 else Sum(steps[from..to - 1]) + steps[to - 1].value
  {
    if from < to { assert steps[from..to][..to - 1 - from] == steps[from..to - 1]; }
  }

  lemma StepTotal(steps: seq<Step>, ytds: seq<Raw>, running: real, i: nat)
    requires Carried(steps, running) && Totalled(steps, ytds) && i < |steps|
    ensures TotalBefore(steps, running, i + 1) ==
      match Lookup(ytds, EndOf, steps[i].end)
      case Some(y) => y.value
      case None => TotalBefore(steps, running, i) + steps[i].value
  {
    assert steps[i] in steps;
  }

  /**
   * At every loop head the running total is the last year-to-date figure met
   * (after `since` steps) plus the reported quarters since.
   */
  lemma {:induction false} RunningTotal(steps: seq<Step>, ytds: seq<Raw>, running: real, since: nat, head: nat)
    requires Carried(steps, running) && Totalled(steps, ytds) && since <= head <= |steps|
    requires forall i :: since <= i < head ==> Lookup(ytds, EndOf, steps[i].end).None?
    requires 0 < since ==> Lookup(ytds, EndOf, steps[since - 1].end).Some?
    ensures TotalBefore(steps, running, head) ==
            (if since == 0 then running else Lookup(ytds, EndOf, steps[since - 1].end).value.value)
            + Sum(steps[since..head])
  {
    hide Lookup, Sum, Carried, Totalled;
    if since == head {
      assert steps[since..head] == [];
      SumSnoc(steps, since, head);
      if 0 < since { StepTotal(steps, ytds, running, since - 1); }
    } else {
      RunningTotal(steps, ytds, running, since, head - 1);
      SumSnoc(steps, since, head);
      StepTotal(steps, ytds, running, head - 1);
    }
  }

  /**
   * Conservation. A walk that reaches the year's end leaves quarters whose sum
   * differs from the annual value by exactly what the reported quarters
   * disagree with the year-to-date figures; so it is exact precisely when those
   * disagreements cancel.
   */
  lemma WalkConserves(periods: seq<Raw>, year: Duration)
    requires Keyed(periods, PeriodOf) && year in periods && IsAnnual(year)
    requires var steps := WalkOf(Durations(periods), year); |steps| > 0 && steps[|steps| - 1].end == year.end
    ensures var steps := WalkOf(Durations(periods), year);
      && Sum(steps) == year.value + TotalDisagreement(steps)
      && (Sum(steps) == year.value <==> TotalDisagreement(steps) == 0.0)
  {
    hide Walk, Quarters, Ytds, Durations, Sum, TotalDisagreement, Lookup, Keyed, Carried;
    var ds := Durations(periods);
    var ytds := Ytds(ds, year);
    var steps := WalkOf(ds, year);
    WalkTotals(year.end, Quarters(ds), ytds, year.start.value - 1, 0.0);
    Telescope(steps, 0.0);
    YtdsHold(periods, ds, year, year);
    assert steps[|steps| - 1] in steps;
  }

  /** Every year-to-date figure of the year is found under its own end. */
  lemma {:induction false} YtdsHold(periods: seq<Raw>, ds: seq<Duration>, year: Duration, y: Raw)
    requires Keyed(periods, PeriodOf) && (forall r :: r in ds ==> r in periods)
    requires y in ds && YtdOf(year, y)
    ensures Lookup(Ytds(ds, year), EndOf, y.end) == Some(y)
  {
    var front, r := ds[..|ds| - 1], ds[|ds| - 1];
    if YtdOf(year, r) {
      LookupStore(Ytds(front, year), EndOf, r, y.end);
      if r.end == y.end { KeyedUnique(periods, PeriodOf, r, y); }
    }
    if r != y {
      assert y in front;
      YtdsHold(periods, front, year, y);
    }
  }
}
