/**
 * However a filing got embedded, the result is that of one run without faults;
 * and such a run is always open to a filing whose fetch is queued.
 */
module Convergence {
  import opened Options
  import opened Pipeline
  import opened PointIds
  import opened SearchIndex
  import Quarantine

  ghost predicate IsEmbedded(s: State, acc: Acc) {
    acc in s.filings && s.filings[acc].status == Embedded
  }

  /** The filing's chunk rows, by seq. */
  ghost function RowTexts(s: State, acc: Acc): map<nat, string> {
    map key: ChunkKey | key in s.chunks && key.0 == acc :: key.1 := s.chunks[key].text
  }

  /** The filing's points in Qdrant, by point id. */
  ghost function PointTexts(s: State, acc: Acc): map<string, string> {
    map p | p in s.points && s.points[p].acc == acc :: s.points[p].text
  }

  lemma EmbeddedRows(w: World, s: State, acc: Acc)
    requires Inv(w, s) && IsEmbedded(s, acc)
    ensures RowTexts(s, acc) == map k: nat | k < |w.texts(acc)| :: w.texts(acc)[k]
  {
    assert AllRows(w, s.chunks, acc);
    forall key: ChunkKey | key in s.chunks && key.0 == acc
      ensures key.1 < |w.texts(acc)| && s.chunks[key].text == w.texts(acc)[key.1]
    {
      assert RowGood(w, s.points, key, s.chunks[key]);
    }
    forall k: nat | k < |w.texts(acc)| ensures k in RowTexts(s, acc) { assert (acc, k) in s.chunks; }
  }

  lemma EmbeddedPoints(w: World, s: State, acc: Acc)
    requires Inv(w, s) && IsEmbedded(s, acc)
    ensures forall p :: p in PointTexts(s, acc) <==> exists k :: 0 <= k < |w.texts(acc)| && p == PointName(acc, k)
    ensures forall k :: 0 <= k < |w.texts(acc)| ==> Searchable(w, s, acc, k)
  {
    assert AllRows(w, s.chunks, acc);
    forall k: nat | k < |w.texts(acc)| ensures Searchable(w, s, acc, k) {
      assert RowGood(w, s.points, (acc, k), s.chunks[(acc, k)]);
    }
    forall p | p in PointTexts(s, acc) ensures exists k :: 0 <= k < |w.texts(acc)| && p == PointName(acc, k) {
      assert p == PointName(acc, s.points[p].number);
    }
    forall p | exists k :: 0 <= k < |w.texts(acc)| && p == PointName(acc, k) ensures p in PointTexts(s, acc) {
      var k :| 0 <= k < |w.texts(acc)| && p == PointName(acc, k);
      assert Searchable(w, s, acc, k);
    }
  }

  /**
   * Two runs that both leave the filing embedded, whatever duplicates, crashes
   * and resets either had, agree on its chunk rows, on its points, and on the
   * text under each.
   */
  lemma EmbeddedRunsAgree(w: World, one: seq<Step>, two: seq<Step>, acc: Acc)
    requires Legal(w, EMPTY, one) && Legal(w, EMPTY, two)
    requires IsEmbedded(Run(w, EMPTY, one), acc) && IsEmbedded(Run(w, EMPTY, two), acc)
    ensures RowTexts(Run(w, EMPTY, one), acc) == RowTexts(Run(w, EMPTY, two), acc)
    ensures PointTexts(Run(w, EMPTY, one), acc) == PointTexts(Run(w, EMPTY, two), acc)
  {
    RunKeepsInv(w, EMPTY, one);
    RunKeepsInv(w, EMPTY, two);
    var s, t := Run(w, EMPTY, one), Run(w, EMPTY, two);
    hide Legal, Run, Inv;
    EmbeddedRows(w, s, acc);
    EmbeddedRows(w, t, acc);
    EmbeddedPoints(w, s, acc);
    EmbeddedPoints(w, t, acc);
    SamePoints(w, s, t, acc);
  }

  lemma SamePoints(w: World, s: State, t: State, acc: Acc)
    requires forall p :: p in PointTexts(s, acc) <==> exists k :: 0 <= k < |w.texts(acc)| && p == PointName(acc, k)
    requires forall p :: p in PointTexts(t, acc) <==> exists k :: 0 <= k < |w.texts(acc)| && p == PointName(acc, k)
    requires forall k :: 0 <= k < |w.texts(acc)| ==> Searchable(w, s, acc, k) && Searchable(w, t, acc, k)
    ensures PointTexts(s, acc) == PointTexts(t, acc)
  {
    forall p | p in PointTexts(s, acc)
      ensures p in PointTexts(t, acc) && PointTexts(s, acc)[p] == PointTexts(t, acc)[p]
    {
      var k :| 0 <= k < |w.texts(acc)| && p == PointName(acc, k);
      assert Searchable(w, s, acc, k) && Searchable(w, t, acc, k);
    }
  }

  /** A hit in Qdrant names one row: the row of the chunk whose text it carries. */
  lemma HitNamesItsRow(w: World, steps: seq<Step>, p: string, key: ChunkKey)
    requires Legal(w, EMPTY, steps)
    requires var s := Run(w, EMPTY, steps);
      p in s.points && IsEmbedded(s, s.points[p].acc) && key in s.chunks && s.chunks[key].id == s.points[p].chunkId
    ensures var s := Run(w, EMPTY, steps);
      key == (s.points[p].acc, s.points[p].number) && s.chunks[key].text == s.points[p].text
  {
    var s := Run(w, EMPTY, steps);
    RunKeepsInv(w, EMPTY, steps);
    hide Legal, Run;
    EmbeddedPoints(w, s, s.points[p].acc);
    var k :| 0 <= k < |w.texts(s.points[p].acc)| && p == PointName(s.points[p].acc, k);
    assert Searchable(w, s, s.points[p].acc, k);
    assert InUse(s.chunks, s.attempts, s.chunks[key].id, key);
    assert InUse(s.chunks, s.attempts, s.chunks[key].id, (s.points[p].acc, k));
  }

  // ---- a run without faults ---------------------------------------------------------

  function Batches(i: nat, n: nat): seq<Step> {
    seq((n + EMBED_BATCH_SIZE - 1) / EMBED_BATCH_SIZE, _ => EmbedBatch(i))
  }

  /** Fetch, parse, and embed in one attempt. */
  function Finish(w: World, acc: Acc, i: nat): seq<Step> {
    [Fetch(acc), Parse(acc, true), EmbedBegin(acc, i)] + (Batches(i, |w.texts(acc)|) + [EmbedCommit(i)])
  }

  /** The batches send every row, and leave the filing and its attempt in place. */
  lemma {:induction false} BatchesSend(w: World, s: State, i: nat)
    requires i in s.attempts && s.attempts[i].sent <= |s.attempts[i].rows|
    ensures var steps := Batches(i, |s.attempts[i].rows| - s.attempts[i].sent);
      Legal(w, s, steps) &&
      var t := Run(w, s, steps);
      && t.filings == s.filings && t.queue == s.queue
      && i in t.attempts && t.attempts[i] == s.attempts[i].(sent := |s.attempts[i].rows|)
    decreases |s.attempts[i].rows| - s.attempts[i].sent
  {
    hide Upserted, PointName;
    var a := s.attempts[i];
    var steps := Batches(i, |a.rows| - a.sent);
    if a.sent < |a.rows| {
      var t := ApplyBatch(s, i);
      assert Enabled(w, s, steps[0]) && Apply(w, s, steps[0]) == t;
      BatchesSend(w, t, i);
      assert steps[1..] == Batches(i, |a.rows| - t.attempts[i].sent);
    }
  }

  lemma BeginToCommit(w: World, s: State, acc: Acc, i: nat)
    requires EmbedTask(acc) in s.queue && acc in s.filings && s.filings[acc].silverKey && acc in s.silver
    requires i !in s.attempts && !Blocked(s, acc)
    ensures var steps := Batches(i, |w.texts(acc)|) + [EmbedCommit(i)];
      && Legal(w, ApplyBegin(w, s, acc, i), steps)
      && IsEmbedded(Run(w, ApplyBegin(w, s, acc, i), steps), acc)
      && Run(w, ApplyBegin(w, s, acc, i), steps).queue == s.queue
  {
    var t := ApplyBegin(w, s, acc, i);
    BatchesSend(w, t, i);
    var u := Run(w, t, Batches(i, |w.texts(acc)|));
    assert Enabled(w, u, EmbedCommit(i));
    RunThen(w, t, Batches(i, |w.texts(acc)|), EmbedCommit(i));
    assert Apply(w, u, EmbedCommit(i)).filings[acc].status == Embedded;
  }

  /**
   * From any state at all - files lost, rows half sent, the filing embedded
   * already - a queued fetch of a document the parser accepts can still be
   * carried through to EMBEDDED, unless another attempt is inserting the
   * filing's rows right now.
   */
  lemma QueuedFetchCanFinish(w: World, s: State, acc: Acc, i: nat)
    requires w.accepts(acc)
    requires FetchTask(acc) in s.queue && acc in s.filings && i !in s.attempts && !Blocked(s, acc)
    ensures Legal(w, s, Finish(w, acc, i)) && IsEmbedded(Run(w, s, Finish(w, acc, i)), acc)
    ensures FetchTask(acc) in Run(w, s, Finish(w, acc, i)).queue
  {
    var t := ApplyFetch(s, acc);
    var u := ApplyParse(t, acc, true);
    assert Enabled(w, s, Fetch(acc)) && Apply(w, s, Fetch(acc)) == t;
    assert Enabled(w, t, Parse(acc, true)) && Apply(w, t, Parse(acc, true)) == u;
    assert !Blocked(u, acc);
    BeginToCommit(w, u, acc, i);
    var last := Batches(i, |w.texts(acc)|) + [EmbedCommit(i)];
    assert Enabled(w, u, EmbedBegin(acc, i)) && Apply(w, u, EmbedBegin(acc, i)) == ApplyBegin(w, u, acc, i);
    hide Enabled, Apply, IsEmbedded;
    StepThen(w, u, EmbedBegin(acc, i), last);
    StepThen(w, t, Parse(acc, true), [EmbedBegin(acc, i)] + last);
    StepThen(w, s, Fetch(acc), [Parse(acc, true)] + ([EmbedBegin(acc, i)] + last));
    assert Finish(w, acc, i) == [Fetch(acc)] + ([Parse(acc, true)] + ([EmbedBegin(acc, i)] + last));
  }

  lemma StepThen(w: World, s: State, step: Step, rest: seq<Step>)
    requires Enabled(w, s, step) && Legal(w, Apply(w, s, step), rest)
    ensures Legal(w, s, [step] + rest) && Run(w, s, [step] + rest) == Run(w, Apply(w, s, step), rest)
  {
    hide Enabled, Apply;
    assert ([step] + rest)[1..] == rest;
  }

  function FaultFree(w: World, acc: Acc): seq<Step> {
    [Discover(acc)] + Finish(w, acc, 0)
  }

  lemma FaultFreeEmbeds(w: World, acc: Acc)
    requires w.accepts(acc)
    ensures Legal(w, EMPTY, FaultFree(w, acc)) && IsEmbedded(Run(w, EMPTY, FaultFree(w, acc)), acc)
    ensures FetchTask(acc) in Run(w, EMPTY, FaultFree(w, acc)).queue
  {
    var s := ApplyDiscover(EMPTY, acc);
    assert Enabled(w, EMPTY, Discover(acc)) && Apply(w, EMPTY, Discover(acc)) == s;
    QueuedFetchCanFinish(w, s, acc, 0);
    hide Enabled, Apply, IsEmbedded;
    RunAppend(w, EMPTY, [Discover(acc)], Finish(w, acc, 0));
  }

  /**
   * Any run that ends with the filing embedded leaves the same rows and exactly
   * the same points as discovering, fetching, parsing and embedding it once,
   * which is then possible: the parser accepts its document.
   */
  lemma SameAsFaultFree(w: World, steps: seq<Step>, acc: Acc)
    requires Legal(w, EMPTY, steps) && IsEmbedded(Run(w, EMPTY, steps), acc)
    ensures w.accepts(acc) && Legal(w, EMPTY, FaultFree(w, acc))
    ensures IsEmbedded(Run(w, EMPTY, FaultFree(w, acc)), acc)
    ensures RowTexts(Run(w, EMPTY, steps), acc) == RowTexts(Run(w, EMPTY, FaultFree(w, acc)), acc)
    ensures PointTexts(Run(w, EMPTY, steps), acc) == PointTexts(Run(w, EMPTY, FaultFree(w, acc)), acc)
  {
    Quarantine.VerdictHolds(w, steps, acc);
    FaultFreeEmbeds(w, acc);
    hide Legal, Run, IsEmbedded, RowTexts, PointTexts;
    EmbeddedRunsAgree(w, steps, FaultFree(w, acc), acc);
  }

  /**
   * EMBEDDED is not final: a second delivery of the fetch takes an embedded
   * filing back to FETCHED, with its rows and points still in place.
   */
  lemma EmbeddedCanGoBack(w: World, acc: Acc)
    requires w.accepts(acc)
    ensures var steps := FaultFree(w, acc) + [Fetch(acc)];
      && Legal(w, EMPTY, steps)
      && acc in Run(w, EMPTY, steps).filings && Run(w, EMPTY, steps).filings[acc].status == Fetched
      && RowTexts(Run(w, EMPTY, steps), acc) == map k: nat | k < |w.texts(acc)| :: w.texts(acc)[k]
  {
    FaultFreeEmbeds(w, acc);
    var s := Run(w, EMPTY, FaultFree(w, acc));
    RunKeepsInv(w, EMPTY, FaultFree(w, acc));
    EmbeddedRows(w, s, acc);
    RunThen(w, EMPTY, FaultFree(w, acc), Fetch(acc));
    hide Legal, Run, Finish, RowTexts;
    FetchKeepsRows(s, acc);
  }

  lemma FetchKeepsRows(s: State, acc: Acc)
    requires acc in s.filings
    ensures RowTexts(ApplyFetch(s, acc), acc) == RowTexts(s, acc) && ApplyFetch(s, acc).filings[acc].status == Fetched
  {
  }
}
