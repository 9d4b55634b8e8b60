/**
 * Choosing one raw XBRL value per period. The source's dictionaries are keyed by
 * parts of the value itself, so a dictionary here is the sequence of its values
 * in insertion order, no two sharing a key.
 */
module FactSelection {
  import opened Options

  /** Dates are day numbers; a missing `start` marks a balance-sheet instant. */
  datatype Raw = Raw(start: Option<int>, end: int, value: real, filed: Option<int>, concept: string,
                     accession: Option<string>)

  /** The ordinal of date.min, which stands in for a missing filing date. */
  const DATE_MIN: int := 1

  function FiledOn(r: Raw): int {
    if r.filed.Some? then r.filed.value else DATE_MIN
  }

  function PeriodOf(r: Raw): (Option<int>, int) {
    (r.start, r.end)
  }

  function EndOf(r: Raw): int {
    r.end
  }

  // ---- dictionaries in insertion order -------------------------------------

  ghost predicate Keyed<K>(d: seq<Raw>, key: Raw -> K) {
    forall i, j :: 0 <= i < j < |d| ==> key(d[i]) != key(d[j])
  }

  /** d.get(k) */
  function Lookup<K(==)>(d: seq<Raw>, key: Raw -> K, k: K): (found: Option<Raw>)
    ensures found.Some? ==> found.value in d && key(found.value) == k
    ensures found.None? ==> forall r :: r in d ==> key(r) != k
  {
    if |d| == 0 then None
    else if key(d[0]) == k then Some(d[0])
    else Lookup(d[1..], key, k)
  }

  /** d[key(r)] = r: an existing key keeps its place, a new one goes last. */
  function Store<K(==)>(d: seq<Raw>, key: Raw -> K, r: Raw): seq<Raw> {
    if |d| == 0 then [r]
    else if key(d[0]) == key(r) then [r] + d[1..]
    else [d[0]] + Store(d[1..], key, r)
  }

  lemma {:induction false} LookupStore<K>(d: seq<Raw>, key: Raw -> K, r: Raw, k: K)
    ensures Lookup(Store(d, key, r), key, k) == if key(r) == k then Some(r) else Lookup(d, key, k)
  {
    if |d| > 0 && key(d[0]) != key(r) {
      LookupStore(d[1..], key, r, k);
      assert Store(d, key, r)[1..] == Store(d[1..], key, r);
    } else if |d| > 0 {
      assert Store(d, key, r)[1..] == d[1..];
    }
  }

  lemma {:induction false} StoreKeyed<K>(d: seq<Raw>, key: Raw -> K, r: Raw)
    requires Keyed(d, key)
    ensures Keyed(Store(d, key, r), key)
    ensures forall x :: x in Store(d, key, r) ==> x == r || x in d
  {
    var s := Store(d, key, r);
    if |d| > 0 && key(d[0]) != key(r) {
      StoreKeyed(d[1..], key, r);
      assert s[1..] == Store(d[1..], key, r);
      forall i, j | 0 <= i < j < |s| ensures key(s[i]) != key(s[j]) {
        if i == 0 {
          assert s[j] == r || s[j] in d[1..] by { assert s[j] in s[1..]; }
          if s[j] in d[1..] { var m :| 0 < m < |d| && d[m] == s[j]; assert key(d[0]) != key(d[m]); }
        } else {
          assert key(s[1..][i - 1]) != key(s[1..][j - 1]);
        }
      }
    } else if |d| > 0 {
      forall i, j | 0 <= i < j < |s| ensures key(s[i]) != key(s[j]) { assert key(d[i]) != key(d[j]); }
    }
  }

  /** In a dictionary, being a value and being found under one's key are one. */
  lemma {:induction false} KeyedLookup<K>(d: seq<Raw>, key: Raw -> K, r: Raw)
    requires Keyed(d, key) && r in d
    ensures Lookup(d, key, key(r)) == Some(r)
  {
    if d[0] != r {
      var i :| 0 <= i < |d| && d[i] == r;
      assert d[1..][i - 1] == r;
      assert key(d[0]) != key(d[i]);
      KeyedLookup(d[1..], key, r);
    }
  }

  lemma KeyedUnique<K>(d: seq<Raw>, key: Raw -> K, a: Raw, b: Raw)
    requires Keyed(d, key) && a in d && b in d && key(a) == key(b)
    ensures a == b
  {
    KeyedLookup(d, key, a);
    KeyedLookup(d, key, b);
  }

  // ---- one value per exact period: the most recently filed -----------------

  function Newer(best: seq<Raw>, raw: Raw): seq<Raw> {
    var current := Lookup(best, PeriodOf, PeriodOf(raw));
    if current.None? || FiledOn(current.value) <= FiledOn(raw) then Store(best, PeriodOf, raw) else best
  }

  function Latest(raws: seq<Raw>): seq<Raw> {
    if |raws| == 0 then [] else Newer(Latest(raws[..|raws| - 1]), raws[|raws| - 1])
  }

  method LatestPerPeriod(raws: seq<Raw>) returns (best: seq<Raw>)
    ensures best == Latest(raws)
  {
    best := [];
    for i := 0 to |raws|
      invariant best == Latest(raws[..i])
    {
      assert raws[..i + 1][..i] == raws[..i];
      best := Newer(best, raws[i]);
    }
    assert raws[..|raws|] == raws;
  }

  /** b was filed on a later day than a, an entry without a day on the first there is. */
  ghost predicate FiledLater(a: Raw, b: Raw) {
    match (a.filed, b.filed)
    case (Some(x), Some(y)) => x < y
    case (None, Some(y)) => 1 < y
    case (Some(x), None) => x < 1
    case (None, None) => false
  }

  /** The last of the entries filed latest for r's period. */
  ghost predicate FiledLast(raws: seq<Raw>, i: nat)
    requires i < |raws|
  {
    forall j :: 0 <= j < |raws| && raws[j].start == raws[i].start && raws[j].end == raws[i].end ==>
      if j <= i then !FiledLater(raws[i], raws[j]) else FiledLater(raws[j], raws[i])
  }

  /** The entry the fold keeps for period k, if any entry has that period. */
  ghost predicate KeptFor(raws: seq<Raw>, k: (Option<int>, int), kept: Option<Raw>) {
    match kept
    case None => forall i :: 0 <= i < |raws| ==> PeriodOf(raws[i]) != k
    case Some(r) => exists i :: 0 <= i < |raws| && raws[i] == r && PeriodOf(r) == k && FiledLast(raws, i)
  }

  /**
   * The fold keeps each reported period exactly once, with the value filed last
   * (the later entry on a tie), and nothing else.
   */
  lemma {:induction false} LatestSpec(raws: seq<Raw>, k: (Option<int>, int))
    ensures Keyed(Latest(raws), PeriodOf)
    ensures KeptFor(raws, k, Lookup(Latest(raws), PeriodOf, k))
  {
    if |raws| > 0 {
      var n := |raws| - 1;
      var front, raw := raws[..n], raws[n];
      var best := Latest(front);
      LatestSpec(front, k);
      StoreKeyed(best, PeriodOf, raw);
      LookupStore(best, PeriodOf, raw, k);
      KeptStep(raws, k, Lookup(best, PeriodOf, k));
    }
  }

  lemma KeptStep(raws: seq<Raw>, k: (Option<int>, int), kept: Option<Raw>)
    requires |raws| > 0 && KeptFor(raws[..|raws| - 1], k, kept)
    ensures
      var raw := raws[|raws| - 1];
      KeptFor(raws, k, if PeriodOf(raw) == k && (kept.None? || FiledOn(kept.value) <= FiledOn(raw))
                       then Some(raw) else kept)
  {
    var n := |raws| - 1;
    var front, raw := raws[..n], raws[n];
    assert forall j :: 0 <= j < n ==> front[j] == raws[j];
    if kept.Some? {
      var i :| 0 <= i < n && front[i] == kept.value && PeriodOf(kept.value) == k && FiledLast(front, i);
      assert raws[i] == kept.value;
      if PeriodOf(raw) == k && FiledOn(kept.value) <= FiledOn(raw) {
        assert FiledLast(raws, n);
      } else {
        assert FiledLast(raws, i);
      }
    } else if PeriodOf(raw) == k {
      assert FiledLast(raws, n);
    }
  }

  // ---- leading concept first, gaps filled from the others ------------------

  /** One candidate concept and its values, one per period. */
  datatype Candidate = Candidate(concept: string, periods: seq<Raw>)

  function MaxEnd(d: seq<Raw>): int
    requires |d| > 0
  {
    if |d| == 1 || MaxEnd(d[1..]) < d[0].end then d[0].end else MaxEnd(d[1..])
  }

  /** The sort key (latest period end, number of periods), compared as a tuple. */
  predicate RanksBelowOrEqual(a: Candidate, b: Candidate)
    requires |a.periods| > 0 && |b.periods| > 0
  {
    var x, y := MaxEnd(a.periods), MaxEnd(b.periods);
    x < y || (x == y && |a.periods| <= |b.periods|)
  }

  /** The latest end among the candidate's periods. */
  ghost predicate EndsLast(c: Candidate, e: int) {
    (exists r :: r in c.periods && r.end == e) && forall r :: r in c.periods ==> r.end <= e
  }

  lemma {:induction false} MaxEndIs(d: seq<Raw>)
    requires |d| > 0
    ensures (exists r :: r in d && r.end == MaxEnd(d)) && forall r :: r in d ==> r.end <= MaxEnd(d)
  {
    assert d[0] in d;
    if |d| > 1 {
      MaxEndIs(d[1..]);
      assert forall r :: r in d ==> r == d[0] || r in d[1..];
      var r :| r in d[1..] && r.end == MaxEnd(d[1..]);
      assert r in d;
    }
  }

  /** Later data ranks higher; of equally late candidates the one with more periods does. */
  lemma RankMeans(a: Candidate, b: Candidate, x: int, y: int)
    requires EndsLast(a, x) && EndsLast(b, y)
    ensures |a.periods| > 0 && |b.periods| > 0
    ensures RanksBelowOrEqual(a, b) <==> x < y || (x == y && |a.periods| <= |b.periods|)
  {
    MaxEndIs(a.periods);
    MaxEndIs(b.periods);
  }

  predicate NonEmpty(cs: seq<Candidate>) {
    forall c :: c in cs ==> |c.periods| > 0
  }

  function WithData(cs: seq<Candidate>): (r: seq<Candidate>)
    ensures NonEmpty(r)
    ensures forall c :: c in r <==> c in cs && |c.periods| > 0
  {
    if |cs| == 0 then []
    else
      var n := |cs| - 1;
      WithData(cs[..n]) + if |cs[n].periods| > 0 then [cs[n]] else []
  }

  /** sorted(..., reverse=True), which leaves candidates of equal rank in order. */
  function Insert(c: Candidate, cs: seq<Candidate>): (r: seq<Candidate>)
    requires |c.periods| > 0 && NonEmpty(cs)
    ensures NonEmpty(r) && |r| > 0 && (r[0] == c || (|cs| > 0 && r[0] == cs[0]))
  {
    if |cs| == 0 then [c]
    else if RanksBelowOrEqual(cs[0], c) then [c] + cs
    else [cs[0]] + Insert(c, cs[1..])
  }

  function Ranked(cs: seq<Candidate>): (r: seq<Candidate>)
    requires NonEmpty(cs)
    ensures NonEmpty(r)
  {
    if |cs| == 0 then [] else Insert(cs[0], Ranked(cs[1..]))
  }

  /** merged.setdefault(key, raw) over one candidate's values. */
  function Fill(merged: seq<Raw>, periods: seq<Raw>): seq<Raw> {
    if |periods| == 0 then merged
    else
      var rest := Fill(merged, periods[..|periods| - 1]);
      var raw := periods[|periods| - 1];
      if Lookup(rest, PeriodOf, PeriodOf(raw)).Some? then rest else rest + [raw]
  }

  function MergeAll(ranked: seq<Candidate>): seq<Raw> {
    if |ranked| == 0 then [] else Fill(MergeAll(ranked[..|ranked| - 1]), ranked[|ranked| - 1].periods)
  }

  method MergedPeriods(candidates: seq<Candidate>) returns (merged: seq<Raw>)
    ensures merged == MergeAll(Ranked(WithData(candidates)))
  {
    var ranked := Ranked(WithData(candidates));
    merged := [];
    for i := 0 to |ranked|
      invariant merged == MergeAll(ranked[..i])
    {
      assert ranked[..i + 1][..i] == ranked[..i];
      ghost var before := merged;
      var periods := ranked[i].periods;
      for j := 0 to |periods|
        invariant merged == Fill(before, periods[..j])
      {
        assert periods[..j + 1][..j] == periods[..j];
        var raw := periods[j];
        if Lookup(merged, PeriodOf, PeriodOf(raw)).None? {
          merged := merged + [raw];
        }
      }
      assert periods[..|periods|] == periods;
    }
    assert ranked[..|ranked|] == ranked;
  }

  function ValueIn(c: Candidate, k: (Option<int>, int)): Option<Raw> {
    Lookup(c.periods, PeriodOf, k)
  }

  /** The first candidate, in list order, with a value for k. */
  function FirstWith(cs: seq<Candidate>, k: (Option<int>, int)): (r: Option<Candidate>)
    ensures r.Some? ==> r.value in cs && ValueIn(r.value, k).Some?
  {
    if |cs| == 0 then None
    else if ValueIn(cs[0], k).Some? then Some(cs[0])
    else FirstWith(cs[1..], k)
  }

  lemma {:induction false} LookupAppend<K>(a: seq<Raw>, b: seq<Raw>, key: Raw -> K, k: K)
    ensures Lookup(a + b, key, k) == if Lookup(a, key, k).Some? then Lookup(a, key, k) else Lookup(b, key, k)
  {
    if |a| == 0 {
      assert a + b == b;
    } else {
      assert (a + b)[1..] == a[1..] + b;
      LookupAppend(a[1..], b, key, k);
    }
  }

  lemma KeyedAppend<K>(d: seq<Raw>, key: Raw -> K, r: Raw)
    requires Keyed(d, key) && Lookup(d, key, key(r)).None?
    ensures Keyed(d + [r], key)
  {
  }

  /** One more value filled in, if its period is not there yet. */
  lemma FillStep(filled: seq<Raw>, raw: Raw, k: (Option<int>, int))
    requires Keyed(filled, PeriodOf)
    ensures var more := if Lookup(filled, PeriodOf, PeriodOf(raw)).None? then filled + [raw] else filled;
      && Keyed(more, PeriodOf)
      && Lookup(more, PeriodOf, k) ==
           if Lookup(filled, PeriodOf, k).Some? then Lookup(filled, PeriodOf, k)
           else if PeriodOf(raw) == k then Some(raw) else None
  {
    if Lookup(filled, PeriodOf, PeriodOf(raw)).None? { KeyedAppend(filled, PeriodOf, raw); }
    LookupAppend(filled, [raw], PeriodOf, k);
    LookupOne(raw, k);
  }

  lemma LookupOne(raw: Raw, k: (Option<int>, int))
    ensures Lookup([raw], PeriodOf, k) == if PeriodOf(raw) == k then Some(raw) else None
  {
  }

  lemma LookupNone(k: (Option<int>, int))
    ensures Lookup([], PeriodOf, k) == None
  {
  }

  lemma {:induction false} FillSpec(merged: seq<Raw>, periods: seq<Raw>, k: (Option<int>, int))
    requires Keyed(merged, PeriodOf)
    ensures Keyed(Fill(merged, periods), PeriodOf)
    ensures Lookup(Fill(merged, periods), PeriodOf, k) ==
            if Lookup(merged, PeriodOf, k).Some? then Lookup(merged, PeriodOf, k) else Lookup(periods, PeriodOf, k)
  {
    hide Keyed, Lookup;
    if |periods| == 0 {
      LookupNone(k);
    } else {
      var front, raw := periods[..|periods| - 1], periods[|periods| - 1];
      FillSpec(merged, front, k);
      FillStep(Fill(merged, front), raw, k);
      LookupAppend(front, [raw], PeriodOf, k);
      LookupOne(raw, k);
      assert periods == front + [raw];
    }
  }

  lemma {:induction false} FirstWithAppend(cs: seq<Candidate>, c: Candidate, k: (Option<int>, int))
    ensures FirstWith(cs + [c], k) ==
            if FirstWith(cs, k).Some? then FirstWith(cs, k) else if ValueIn(c, k).Some? then Some(c) else None
  {
    if |cs| == 0 {
      assert cs + [c] == [c];
    } else {
      assert (cs + [c])[1..] == cs[1..] + [c];
      FirstWithAppend(cs[1..], c, k);
    }
  }

  lemma {:induction false} MergeIsFirst(ranked: seq<Candidate>, k: (Option<int>, int))
    ensures Keyed(MergeAll(ranked), PeriodOf)
    ensures Lookup(MergeAll(ranked), PeriodOf, k) ==
            match FirstWith(ranked, k) case None => None case Some(c) => ValueIn(c, k)
  {
    if |ranked| > 0 {
      var front, c := ranked[..|ranked| - 1], ranked[|ranked| - 1];
      MergeIsFirst(front, k);
      FillSpec(MergeAll(front), c.periods, k);
      FirstWithAppend(front, c, k);
      assert ranked == front + [c];
    }
  }

  ghost predicate Descending(cs: seq<Candidate>)
    requires NonEmpty(cs)
  {
    forall i, j :: 0 <= i < j < |cs| ==> RanksBelowOrEqual(cs[j], cs[i])
  }

  lemma {:induction false} InsertDescending(c: Candidate, cs: seq<Candidate>)
    requires |c.periods| > 0 && NonEmpty(cs) && Descending(cs)
    ensures Descending(Insert(c, cs))
    ensures forall x :: x in Insert(c, cs) ==> x == c || x in cs
  {
    var r := Insert(c, cs);
    if |cs| > 0 {
      if RanksBelowOrEqual(cs[0], c) {
        assert r[1..] == cs;
      } else {
        InsertDescending(c, cs[1..]);
        assert r[1..] == Insert(c, cs[1..]);
        forall j | 0 < j < |r| ensures RanksBelowOrEqual(r[j], r[0]) {
          assert r[j] in r[1..];
          if r[j] != c { var m :| 0 < m < |cs| && cs[m] == r[j]; }
        }
      }
    }
  }

  lemma {:induction false} InsertFirst(c: Candidate, cs: seq<Candidate>, k: (Option<int>, int))
    requires |c.periods| > 0 && NonEmpty(cs) && Descending(cs)
    ensures var first := FirstWith(cs, k);
      FirstWith(Insert(c, cs), k) ==
      if ValueIn(c, k).Some? && (first.None? || RanksBelowOrEqual(first.value, c)) then Some(c) else first
  {
    var r := Insert(c, cs);
    if |cs| > 0 {
      if RanksBelowOrEqual(cs[0], c) {
        assert r[1..] == cs;
        var first := FirstWith(cs, k);
        if first.Some? { var i :| 0 <= i < |cs| && cs[i] == first.value; }
      } else {
        InsertFirst(c, cs[1..], k);
        assert r[1..] == Insert(c, cs[1..]);
      }
    }
  }

  predicate Ties(a: Candidate, b: Candidate)
    requires |a.periods| > 0 && |b.periods| > 0
  {
    RanksBelowOrEqual(a, b) && RanksBelowOrEqual(b, a)
  }

  /** Those of `cs` with the same sort key as c, in order. */
  function SameRank(cs: seq<Candidate>, c: Candidate): seq<Candidate>
    requires NonEmpty(cs) && |c.periods| > 0
  {
    if |cs| == 0 then []
    else (if Ties(cs[0], c) then [cs[0]] else []) + SameRank(cs[1..], c)
  }

  lemma SameRankHead(x: Candidate, cs: seq<Candidate>, c: Candidate)
    requires |x.periods| > 0 && NonEmpty(cs) && |c.periods| > 0
    ensures SameRank([x] + cs, c) == (if Ties(x, c) then [x] else []) + SameRank(cs, c)
  {
    assert ([x] + cs)[1..] == cs;
  }

  lemma {:induction false} NotBoth(x: Candidate, y: Candidate, c: Candidate)
    requires |x.periods| > 0 && |y.periods| > 0 && |c.periods| > 0 && !RanksBelowOrEqual(y, x)
    ensures !(Ties(x, c) && Ties(y, c))
  {
    hide MaxEnd;
  }

  /** Two candidates of different rank change places without a trace. */
  lemma {:induction false} SameRankSwap(x: Candidate, y: Candidate, cs: seq<Candidate>, c: Candidate)
    requires |x.periods| > 0 && |y.periods| > 0 && NonEmpty(cs) && |c.periods| > 0 && !RanksBelowOrEqual(y, x)
    ensures SameRank([y] + ([x] + cs), c) == SameRank([x] + ([y] + cs), c)
  {
    hide SameRank, Ties, RanksBelowOrEqual;
    NotBoth(x, y, c);
    SameRankHead(x, cs, c);
    SameRankHead(y, [x] + cs, c);
    SameRankHead(y, cs, c);
    SameRankHead(x, [y] + cs, c);
    assert [] + ([x] + SameRank(cs, c)) == [x] + ([] + SameRank(cs, c));
    assert [y] + ([] + SameRank(cs, c)) == [] + ([y] + SameRank(cs, c));
  }

  lemma {:induction false} InsertKeepsRank(x: Candidate, cs: seq<Candidate>, c: Candidate)
    requires |x.periods| > 0 && NonEmpty(cs) && |c.periods| > 0
    ensures multiset(Insert(x, cs)) == multiset(cs) + multiset{x}
    ensures SameRank(Insert(x, cs), c) == SameRank([x] + cs, c)
  {
    hide MaxEnd, SameRank, RanksBelowOrEqual;
    if |cs| > 0 && !RanksBelowOrEqual(cs[0], x) {
      var rest := cs[1..];
      assert cs == [cs[0]] + rest;
      InsertKeepsRank(x, rest, c);
      SameRankHead(cs[0], Insert(x, rest), c);
      SameRankHead(cs[0], [x] + rest, c);
      SameRankSwap(x, cs[0], rest, c);
    } else {
      assert multiset([x] + cs) == multiset(cs) + multiset{x};
      if |cs| == 0 { assert [x] + cs == [x]; }
    }
  }

  /**
   * The ranking is a stable descending sort: it keeps every candidate, and those
   * of equal rank in their listed order.
   */
  lemma {:induction false} RankedIsStable(cs: seq<Candidate>, c: Candidate)
    requires NonEmpty(cs) && |c.periods| > 0
    ensures Descending(Ranked(cs)) && multiset(Ranked(cs)) == multiset(cs)
    ensures SameRank(Ranked(cs), c) == SameRank(cs, c)
  {
    if |cs| > 0 {
      var rest := Ranked(cs[1..]);
      RankedIsStable(cs[1..], c);
      InsertDescending(cs[0], rest);
      InsertKeepsRank(cs[0], rest, c);
      SameRankHead(cs[0], rest, c);
      SameRankHead(cs[0], cs[1..], c);
      hide Insert, MaxEnd, Descending, SameRank;
      assert cs == [cs[0]] + cs[1..];
    }
  }

  /** cs[i] has k, outranks every other candidate that has it, and is the first to. */
  ghost predicate Leads(cs: seq<Candidate>, k: (Option<int>, int), i: nat)
    requires NonEmpty(cs) && i < |cs|
  {
    && ValueIn(cs[i], k).Some?
    && forall j :: 0 <= j < |cs| && ValueIn(cs[j], k).Some? ==>
         RanksBelowOrEqual(cs[j], cs[i]) && (j < i ==> !RanksBelowOrEqual(cs[i], cs[j]))
  }

  lemma {:induction false} RankedLeader(cs: seq<Candidate>, k: (Option<int>, int))
    requires NonEmpty(cs)
    ensures Descending(Ranked(cs))
    ensures match FirstWith(Ranked(cs), k)
      case None => forall i :: 0 <= i < |cs| ==> ValueIn(cs[i], k).None?
      case Some(c) => exists i :: 0 <= i < |cs| && cs[i] == c && Leads(cs, k, i)
  {
    hide Lookup, MaxEnd, Insert;
    if |cs| > 0 {
      var rest := cs[1..];
      RankedLeader(rest, k);
      InsertDescending(cs[0], Ranked(rest));
      InsertFirst(cs[0], Ranked(rest), k);
      var first := FirstWith(Ranked(rest), k);
      assert forall j :: 0 < j < |cs| ==> cs[j] == rest[j - 1];
      if first.Some? {
        var i :| 0 <= i < |rest| && rest[i] == first.value && Leads(rest, k, i);
        if ValueIn(cs[0], k).Some? && RanksBelowOrEqual(first.value, cs[0]) {
          assert Leads(cs, k, 0);
        } else {
          assert cs[i + 1] == first.value && Leads(cs, k, i + 1);
        }
      } else if ValueIn(cs[0], k).Some? {
        assert Leads(cs, k, 0);
      }
    }
  }

  /**
   * Merging keeps every period some candidate has, exactly once, with the value
   * of the highest-ranked candidate that has it (the earliest listed on a tie).
   */
  lemma MergedSpec(candidates: seq<Candidate>, k: (Option<int>, int))
    ensures
      var live := WithData(candidates);
      var merged := MergeAll(Ranked(live));
      && Keyed(merged, PeriodOf)
      && match Lookup(merged, PeriodOf, k)
         case None => forall i :: 0 <= i < |live| ==> ValueIn(live[i], k).None?
         case Some(r) => exists i :: 0 <= i < |live| && ValueIn(live[i], k) == Some(r) && Leads(live, k, i)
  {
    var live := WithData(candidates);
    MergeIsFirst(Ranked(live), k);
    RankedLeader(live, k);
  }

  /** A metric's reported entries, one list per candidate concept. */
  datatype Reported = Reported(concept: string, raws: seq<Raw>)

  function Candidates(reported: seq<Reported>): (cs: seq<Candidate>)
    ensures |cs| == |reported|
    ensures forall i :: 0 <= i < |cs| ==> cs[i] == Candidate(reported[i].concept, Latest(reported[i].raws))
  {
    if |reported| == 0 then []
    else [Candidate(reported[0].concept, Latest(reported[0].raws))] + Candidates(reported[1..])
  }

  /** _merged_periods */
  function Select(reported: seq<Reported>): seq<Raw> {
    MergeAll(Ranked(WithData(Candidates(reported))))
  }

  method SelectPeriods(reported: seq<Reported>) returns (merged: seq<Raw>)
    ensures merged == Select(reported)
  {
    var perConcept: seq<Candidate> := [];
    for i := 0 to |reported|
      invariant |perConcept| == i
      invariant forall j :: 0 <= j < i ==> perConcept[j] == Candidate(reported[j].concept, Latest(reported[j].raws))
    {
      var best := LatestPerPeriod(reported[i].raws);
      perConcept := perConcept + [Candidate(reported[i].concept, best)];
    }
    assert perConcept == Candidates(reported);
    merged := MergedPeriods(perConcept);
  }

  /** The concept has an entry for period k. */
  predicate Reports(c: Reported, k: (Option<int>, int)) {
    exists r :: r in c.raws && PeriodOf(r) == k
  }

  function CandidateOf(c: Reported): Candidate {
    Candidate(c.concept, Latest(c.raws))
  }

  lemma ReportsIsHeld(c: Reported, k: (Option<int>, int))
    ensures Reports(c, k) <==> ValueIn(CandidateOf(c), k).Some?
    ensures Reports(c, k) ==> |CandidateOf(c).periods| > 0
  {
    LatestSpec(c.raws, k);
  }

  /**
   * The concept listed at i supplies r for period k: r is its entry filed last
   * for k, no concept that reports k outranks it, and none listed before it
   * ranks as high.
   */
  ghost predicate Supplies(reported: seq<Reported>, i: nat, k: (Option<int>, int), r: Raw) {
    && i < |reported| && PeriodOf(r) == k
    && (exists n :: 0 <= n < |reported[i].raws| && reported[i].raws[n] == r && FiledLast(reported[i].raws, n))
    && |CandidateOf(reported[i]).periods| > 0
    && forall j :: 0 <= j < |reported| && Reports(reported[j], k) ==> YieldsTo(reported, i, j)
  }

  /** Concept j ends earlier than concept i, or has fewer periods, or is listed no earlier. */
  ghost predicate YieldsTo(reported: seq<Reported>, i: nat, j: nat)
    requires i < |reported| && j < |reported|
  {
    var c, other := CandidateOf(reported[i]), CandidateOf(reported[j]);
    forall x, y :: EndsLast(other, x) && EndsLast(c, y) ==>
      || x < y
      || (x == y && |other.periods| < |c.periods|)
      || (x == y && |other.periods| == |c.periods| && i <= j)
  }

  /** at[n] is where the n-th concept with data stood among all of them. */
  ghost predicate KeptAt(cs: seq<Candidate>, live: seq<Candidate>, at: seq<nat>) {
    && |at| == |live| && (forall n :: 0 <= n < |at| ==> at[n] < |cs| && cs[at[n]] == live[n])
    && (forall m, n :: 0 <= m < n < |at| ==> at[m] < at[n])
    && (forall i :: 0 <= i < |cs| && |cs[i].periods| > 0 ==> i in at)
  }

  lemma {:induction false} KeptNext(cs: seq<Candidate>, live: seq<Candidate>, at: seq<nat>, c: Candidate)
    requires KeptAt(cs, live, at)
    ensures |c.periods| > 0 ==> KeptAt(cs + [c], live + [c], at + [|cs|])
    ensures |c.periods| == 0 ==> KeptAt(cs + [c], live, at)
  {
    forall i | 0 <= i < |cs| && |(cs + [c])[i].periods| > 0 ensures i in at && i in at + [|cs|] {
      assert |cs[i].periods| > 0;
    }
  }

  lemma {:induction false} WithDataLast(cs: seq<Candidate>, c: Candidate)
    ensures WithData(cs + [c]) == WithData(cs) + if |c.periods| > 0 then [c] else []
  {
    assert (cs + [c])[..|cs|] == cs;
  }

  lemma NoneKept()
    ensures KeptAt([], WithData([]), [])
  {
  }

  /** Dropping concepts without data keeps the others in order. */
  lemma {:induction false} WithDataOrder(cs: seq<Candidate>) returns (at: seq<nat>)
    ensures KeptAt(cs, WithData(cs), at)
  {
    hide KeptAt, WithData;
    at := [];
    if |cs| == 0 {
      NoneKept();
      assert cs == [];
    } else {
      var front, c := cs[..|cs| - 1], cs[|cs| - 1];
      assert cs == front + [c];
      at := WithDataOrder(front);
      KeptNext(front, WithData(front), at, c);
      WithDataLast(front, c);
      assert WithData(front) + [] == WithData(front);
      if |c.periods| > 0 { at := at + [|front|]; }
    }
  }

  /** The leader among those with data leads in the list as it was given. */
  lemma {:induction false} LeaderInList(cs: seq<Candidate>, live: seq<Candidate>, at: seq<nat>, k: (Option<int>, int),
                                        x: nat, j: nat)
    requires KeptAt(cs, live, at) && NonEmpty(live) && x < |live| && Leads(live, k, x)
    requires j < |cs| && |cs[j].periods| > 0 && ValueIn(cs[j], k).Some?
    ensures RanksBelowOrEqual(cs[j], live[x]) && (j < at[x] ==> !RanksBelowOrEqual(live[x], cs[j]))
  {
    hide Lookup, RanksBelowOrEqual;
    var n :| 0 <= n < |at| && at[n] == j;
    assert live[n] == cs[j] && live[n] in live && live[x] in live;
    assert ValueIn(live[n], k).Some?;
  }

  lemma LiveHolds(reported: seq<Reported>, c: Reported, k: (Option<int>, int))
    requires c in reported && Reports(c, k)
    ensures exists j :: 0 <= j < |WithData(Candidates(reported))| && WithData(Candidates(reported))[j] == CandidateOf(c)
  {
    var cs := Candidates(reported);
    ReportsIsHeld(c, k);
    var i :| 0 <= i < |reported| && reported[i] == c;
    assert cs[i] == CandidateOf(c) && cs[i] in cs;
    assert CandidateOf(c) in WithData(cs);
  }

  lemma RanksYield(reported: seq<Reported>, i: nat, j: nat)
    requires i < |reported| && j < |reported|
    requires |CandidateOf(reported[i]).periods| > 0 && |CandidateOf(reported[j]).periods| > 0
    requires RanksBelowOrEqual(CandidateOf(reported[j]), CandidateOf(reported[i]))
    requires j < i ==> !RanksBelowOrEqual(CandidateOf(reported[i]), CandidateOf(reported[j]))
    ensures YieldsTo(reported, i, j)
  {
    var c, other := CandidateOf(reported[i]), CandidateOf(reported[j]);
    hide CandidateOf, RanksBelowOrEqual, EndsLast;
    forall x, y | EndsLast(other, x) && EndsLast(c, y)
      ensures x < y || (x == y && (|other.periods| < |c.periods| || (|other.periods| == |c.periods| && i <= j)))
    {
      RankMeans(other, c, x, y);
      RankMeans(c, other, y, x);
    }
  }

  lemma {:induction false} OthersYield(reported: seq<Reported>, k: (Option<int>, int), live: seq<Candidate>,
                                       at: seq<nat>, x: nat, j: nat)
    requires KeptAt(Candidates(reported), live, at) && NonEmpty(live) && x < |live| && Leads(live, k, x)
    requires j < |reported| && Reports(reported[j], k)
    ensures at[x] < |reported| && live[x] == CandidateOf(reported[at[x]]) && |live[x].periods| > 0
    ensures YieldsTo(reported, at[x], j)
  {
    hide Lookup, MaxEnd, Latest, RanksBelowOrEqual, Leads;
    ReportsIsHeld(reported[j], k);
    assert Candidates(reported)[j] == CandidateOf(reported[j]) && live[x] in live;
    LeaderInList(Candidates(reported), live, at, k, x, j);
    RanksYield(reported, at[x], j);
  }

  lemma LeaderSupplies(reported: seq<Reported>, k: (Option<int>, int), r: Raw, x: nat) returns (i: nat)
    requires x < |WithData(Candidates(reported))|
    requires ValueIn(WithData(Candidates(reported))[x], k) == Some(r) && Leads(WithData(Candidates(reported)), k, x)
    ensures Supplies(reported, i, k, r)
  {
    hide Latest, RanksBelowOrEqual, Lookup, WithData, Leads, YieldsTo;
    var live, cs := WithData(Candidates(reported)), Candidates(reported);
    var at := WithDataOrder(cs);
    i := at[x];
    assert live[x] in live;
    LatestSpec(reported[i].raws, k);
    forall j | 0 <= j < |reported| && Reports(reported[j], k) ensures YieldsTo(reported, i, j) {
      OthersYield(reported, k, live, at, x, j);
    }
  }

  /**
   * What selection means, over both folds. A period is kept exactly when some
   * concept reports it, and then once. Its value is the entry filed last under
   * the concept of highest rank that reports it, the first listed of equals.
   */
  lemma SelectSpec(reported: seq<Reported>, k: (Option<int>, int))
    ensures Keyed(Select(reported), PeriodOf)
    ensures match Lookup(Select(reported), PeriodOf, k)
      case None => forall c :: c in reported ==> !Reports(c, k)
      case Some(r) => exists i :: Supplies(reported, i, k, r)
  {
    hide Latest, MergeAll, Ranked, WithData, Candidates, RanksBelowOrEqual, Leads, Keyed, Lookup, Supplies, Reports;
    var live := WithData(Candidates(reported));
    MergedSpec(Candidates(reported), k);
    match Lookup(Select(reported), PeriodOf, k) {
      case None =>
        forall c | c in reported ensures !Reports(c, k) {
          ReportsIsHeld(c, k);
          if Reports(c, k) {
            LiveHolds(reported, c, k);
            assert false;
          }
        }
      case Some(r) =>
        var x :| 0 <= x < |live| && ValueIn(live[x], k) == Some(r) && Leads(live, k, x);
        var i := LeaderSupplies(reported, k, r, x);
    }
  }
}
