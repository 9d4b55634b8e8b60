/**
 * What chunk rows, point ids and Qdrant promise each other over every run:
 * attempts may be duplicated, crash between any two Qdrant batches or at
 * commit, and run beside each other.
 */
module SearchIndex {
  import opened Options
  import opened Pipeline
  import opened PointIds

  /** Qdrant holds this row's point. */
  ghost predicate Holds(points: map<string, Point>, acc: Acc, k: nat, row: Row) {
    PointName(acc, k) in points && points[PointName(acc, k)] == PointFor(acc, k, row)
  }

  ghost predicate RowGood(w: World, points: map<string, Point>, key: ChunkKey, row: Row) {
    && key.1 < |w.texts(key.0)| && row.text == w.texts(key.0)[key.1]
    && row.pointId == Some(PointName(key.0, key.1))
    && Holds(points, key.0, key.1, row)
  }

  ghost predicate RowsGood(w: World, chunks: map<ChunkKey, Row>, points: map<string, Point>) {
    forall key: ChunkKey :: key in chunks ==> RowGood(w, points, key, chunks[key])
  }

  ghost predicate AllRows(w: World, chunks: map<ChunkKey, Row>, acc: Acc) {
    forall k :: 0 <= k < |w.texts(acc)| ==> (acc, k) in chunks
  }

  /** A filing's rows are there together or not at all. */
  ghost predicate Whole(w: World, chunks: map<ChunkKey, Row>) {
    forall key: ChunkKey :: key in chunks ==> AllRows(w, chunks, key.0)
  }

  ghost predicate PointsKnown(w: World, points: map<string, Point>) {
    forall p :: p in points ==>
      points[p].number < |w.texts(points[p].acc)| && p == PointName(points[p].acc, points[p].number)
  }

  /** An attempt sees all rows of its filing, its own or the committed ones. */
  ghost predicate SeesRows(w: World, chunks: map<ChunkKey, Row>, a: Attempt) {
    && |a.rows| == |w.texts(a.acc)|
    && (forall k :: 0 <= k < |a.rows| ==> a.rows[k].text == w.texts(a.acc)[k])
    && (forall k :: 0 <= k < |a.rows| ==>
          if a.inserted then (a.acc, k) !in chunks else (a.acc, k) in chunks && chunks[(a.acc, k)] == a.rows[k])
    && (a.inserted ==> |a.rows| > 0)
  }

  ghost predicate Sent(points: map<string, Point>, a: Attempt) {
    a.sent <= |a.rows| && forall k :: 0 <= k < a.sent ==> Holds(points, a.acc, k, a.rows[k])
  }

  ghost predicate AttemptsGood(w: World, chunks: map<ChunkKey, Row>, points: map<string, Point>,
                               attempts: map<nat, Attempt>) {
    forall i :: i in attempts ==> SeesRows(w, chunks, attempts[i]) && Sent(points, attempts[i])
  }

  /** New rows of a filing are in one transaction only. */
  ghost predicate OneInserter(attempts: map<nat, Attempt>) {
    forall i, j :: i in attempts && j in attempts && i != j && attempts[i].acc == attempts[j].acc ==>
      !attempts[i].inserted
  }

  ghost predicate InUse(chunks: map<ChunkKey, Row>, attempts: map<nat, Attempt>, id: nat, key: ChunkKey) {
    || (key in chunks && chunks[key].id == id)
    || exists i :: i in attempts && Seen(attempts[i], id, key)
  }

  ghost predicate Seen(a: Attempt, id: nat, key: ChunkKey) {
    a.acc == key.0 && key.1 < |a.rows| && a.rows[key.1].id == id
  }

  /** A row id stands for one chunk, among committed rows and those in progress. */
  ghost predicate IdsApart(chunks: map<ChunkKey, Row>, attempts: map<nat, Attempt>, nextRow: nat) {
    && (forall id: nat, key: ChunkKey :: InUse(chunks, attempts, id, key) ==> id < nextRow)
    && (forall id: nat, key1: ChunkKey, key2: ChunkKey ::
          InUse(chunks, attempts, id, key1) && InUse(chunks, attempts, id, key2) ==> key1 == key2)
  }

  ghost predicate EmbeddedWhole(w: World, filings: map<Acc, Filing>, chunks: map<ChunkKey, Row>) {
    forall acc :: acc in filings && filings[acc].status == Embedded ==> AllRows(w, chunks, acc)
  }

  ghost predicate Inv(w: World, s: State) {
    && RowsGood(w, s.chunks, s.points) && Whole(w, s.chunks) && PointsKnown(w, s.points)
    && AttemptsGood(w, s.chunks, s.points, s.attempts) && OneInserter(s.attempts)
    && IdsApart(s.chunks, s.attempts, s.nextRow) && EmbeddedWhole(w, s.filings, s.chunks)
  }

  // ---- what an upsert changes ------------------------------------------------

  lemma {:induction false} UpsertedAt(points: map<string, Point>, acc: Acc, rows: seq<Row>, lo: nat, hi: nat, b: Acc,
                                      k: nat)
    requires lo <= hi <= |rows|
    ensures var after := Upserted(points, acc, rows, lo, hi); var name := PointName(b, k);
      if b == acc && lo <= k < hi then name in after && after[name] == Point(rows[k].id, acc, k, rows[k].text)
      else (name in after <==> name in points) && (name in points ==> after[name] == points[name])
    decreases hi
  {
    if lo < hi {
      UpsertedAt(points, acc, rows, lo, hi - 1, b, k);
      if PointName(b, k) == PointName(acc, hi - 1) { PointNameInjective(b, k, acc, hi - 1); }
    }
  }

  lemma {:induction false} UpsertedKnown(w: World, points: map<string, Point>, acc: Acc, rows: seq<Row>, lo: nat,
                                         hi: nat)
    requires lo <= hi <= |rows| && PointsKnown(w, points) && |rows| == |w.texts(acc)|
    ensures PointsKnown(w, Upserted(points, acc, rows, lo, hi))
    decreases hi
  {
    if lo < hi { UpsertedKnown(w, points, acc, rows, lo, hi - 1); }
  }

  /** A row whose point is there keeps it, if a batch that rewrites it sends the same row. */
  lemma UpsertKeepsHolds(points: map<string, Point>, a: Attempt, hi: nat, acc: Acc, k: nat, row: Row)
    requires a.sent <= hi <= |a.rows| && Holds(points, acc, k, row)
    requires acc == a.acc && k < |a.rows| ==> a.rows[k].id == row.id && a.rows[k].text == row.text
    ensures Holds(Upserted(points, a.acc, a.rows, a.sent, hi), acc, k, row)
  {
    UpsertedAt(points, a.acc, a.rows, a.sent, hi, acc, k);
  }

  // ---- the four steps that touch the index ----------------------------------------

  lemma BeginSees(w: World, s: State, acc: Acc)
    requires Whole(w, s.chunks) && RowsGood(w, s.chunks, s.points)
    ensures SeesRows(w, s.chunks, Attempt(acc, RowsSeen(w, s, acc), Inserts(w, s, acc), 0))
  {
    if k :| 0 <= k < |w.texts(acc)| && (acc, k) in s.chunks {
      assert AllRows(w, s.chunks, acc);
    }
    forall k: nat | k < |w.texts(acc)| && (acc, k) in s.chunks
      ensures s.chunks[(acc, k)].text == w.texts(acc)[k]
    {
      assert RowGood(w, s.points, (acc, k), s.chunks[(acc, k)]);
    }
  }

  lemma BeginKeepsOneInserter(w: World, s: State, acc: Acc, i: nat)
    requires Inv(w, s) && i !in s.attempts && !Blocked(s, acc)
    ensures OneInserter(ApplyBegin(w, s, acc, i).attempts)
  {
    if Inserts(w, s, acc) {
      var k :| 0 <= k < |w.texts(acc)| && (acc, k) !in s.chunks;
      forall j | j in s.attempts ensures s.attempts[j].acc != acc {
        assert SeesRows(w, s.chunks, s.attempts[j]);
      }
    }
  }

  lemma BeginKeepsIds(w: World, s: State, acc: Acc, i: nat)
    requires IdsApart(s.chunks, s.attempts, s.nextRow) && i !in s.attempts
    ensures IdsApart(s.chunks, ApplyBegin(w, s, acc, i).attempts, ApplyBegin(w, s, acc, i).nextRow)
  {
    var t := ApplyBegin(w, s, acc, i);
    forall id: nat, key: ChunkKey | InUse(s.chunks, t.attempts, id, key)
      ensures InUse(s.chunks, s.attempts, id, key)
        || (key.0 == acc && key.1 < |w.texts(acc)| && id == s.nextRow + key.1)
    {
      if j :| j in t.attempts && Seen(t.attempts[j], id, key) {
        if j != i { assert s.attempts[j] == t.attempts[j]; }
      }
    }
  }

  lemma BeginKeepsInv(w: World, s: State, acc: Acc, i: nat)
    requires Inv(w, s) && i !in s.attempts && !Blocked(s, acc)
    ensures Inv(w, ApplyBegin(w, s, acc, i))
  {
    BeginSees(w, s, acc);
    BeginKeepsOneInserter(w, s, acc, i);
    BeginKeepsIds(w, s, acc, i);
    hide RowsGood, Whole, PointsKnown, OneInserter, IdsApart, EmbeddedWhole, SeesRows, RowsSeen, Inserts;
  }

  /** Two attempts at one filing, and its committed rows, agree on every row. */
  lemma RowsAgree(w: World, s: State, i: nat, acc: Acc, k: nat, row: Row)
    requires Inv(w, s) && i in s.attempts && acc == s.attempts[i].acc && k < |s.attempts[i].rows|
    requires ((acc, k) in s.chunks && row == s.chunks[(acc, k)])
      || exists j :: j in s.attempts && s.attempts[j].acc == acc && k < |s.attempts[j].rows|
                      && row == s.attempts[j].rows[k]
    ensures s.attempts[i].rows[k] == row
  {
    assert SeesRows(w, s.chunks, s.attempts[i]);
    if j :| j in s.attempts && s.attempts[j].acc == acc && k < |s.attempts[j].rows| && row == s.attempts[j].rows[k] {
      assert SeesRows(w, s.chunks, s.attempts[j]);
    }
  }

  lemma BatchKeepsInv(w: World, s: State, i: nat)
    requires Inv(w, s) && i in s.attempts && s.attempts[i].sent <= |s.attempts[i].rows|
    ensures Inv(w, ApplyBatch(s, i))
  {
    var a, t := s.attempts[i], ApplyBatch(s, i);
    var hi := BatchEnd(a);
    assert SeesRows(w, s.chunks, a) && Sent(s.points, a);
    UpsertedKnown(w, s.points, a.acc, a.rows, a.sent, hi);
    forall key: ChunkKey | key in s.chunks ensures RowGood(w, t.points, key, s.chunks[key]) {
      assert RowGood(w, s.points, key, s.chunks[key]);
      if key.0 == a.acc && key.1 < |a.rows| { RowsAgree(w, s, i, key.0, key.1, s.chunks[key]); }
      UpsertKeepsHolds(s.points, a, hi, key.0, key.1, s.chunks[key]);
    }
    forall j | j in t.attempts ensures SeesRows(w, t.chunks, t.attempts[j]) && Sent(t.points, t.attempts[j]) {
      SentAfterBatch(w, s, i, j);
    }
    BatchKeepsIds(s, i);
  }

  lemma SentAfterBatch(w: World, s: State, i: nat, j: nat)
    requires Inv(w, s) && i in s.attempts && j in s.attempts && s.attempts[i].sent <= |s.attempts[i].rows|
    ensures var t := ApplyBatch(s, i); SeesRows(w, t.chunks, t.attempts[j]) && Sent(t.points, t.attempts[j])
  {
    var a, b, t := s.attempts[i], s.attempts[j], ApplyBatch(s, i);
    var hi := BatchEnd(a);
    assert SeesRows(w, s.chunks, b) && Sent(s.points, b);
    forall k | 0 <= k < t.attempts[j].sent ensures Holds(t.points, b.acc, k, b.rows[k]) {
      if k < b.sent {
        if b.acc == a.acc && k < |a.rows| { RowsAgree(w, s, i, b.acc, k, b.rows[k]); }
        UpsertKeepsHolds(s.points, a, hi, b.acc, k, b.rows[k]);
      } else {
        UpsertedAt(s.points, a.acc, a.rows, a.sent, hi, b.acc, k);
      }
    }
  }

  lemma BatchKeepsIds(s: State, i: nat)
    requires IdsApart(s.chunks, s.attempts, s.nextRow) && i in s.attempts && s.attempts[i].sent <= |s.attempts[i].rows|
    ensures IdsApart(s.chunks, ApplyBatch(s, i).attempts, s.nextRow)
  {
    var t := ApplyBatch(s, i);
    forall id: nat, key: ChunkKey | InUse(s.chunks, t.attempts, id, key) ensures InUse(s.chunks, s.attempts, id, key) {
      if j :| j in t.attempts && Seen(t.attempts[j], id, key) { assert Seen(s.attempts[j], id, key); }
    }
  }

  /** After a commit a row is the attempt's, or was there before. */
  lemma CommittedAt(chunks: map<ChunkKey, Row>, a: Attempt, key: ChunkKey)
    ensures var after := Committed(chunks, a);
      if key.0 == a.acc && key.1 < |a.rows| then
        key in after && after[key] == WithPointId(a.acc, key.1, a.rows[key.1])
      else (key in after <==> key in chunks) && (key in chunks ==> after[key] == chunks[key])
  {
    var mine := map k: nat | k < |a.rows| :: (a.acc, k) := WithPointId(a.acc, k, a.rows[k]);
    if key.0 == a.acc && key.1 < |a.rows| {
      assert (a.acc, key.1) in mine && key == (a.acc, key.1);
    }
  }

  lemma CommitKeepsRows(w: World, s: State, i: nat)
    requires Inv(w, s) && i in s.attempts && s.attempts[i].sent == |s.attempts[i].rows|
    ensures var after := Committed(s.chunks, s.attempts[i]);
      RowsGood(w, after, s.points) && Whole(w, after) && AllRows(w, after, s.attempts[i].acc)
  {
    var a := s.attempts[i];
    var after := Committed(s.chunks, a);
    assert SeesRows(w, s.chunks, a) && Sent(s.points, a);
    forall key: ChunkKey | key in after ensures RowGood(w, s.points, key, after[key]) {
      CommittedAt(s.chunks, a, key);
      if key.0 == a.acc && key.1 < |a.rows| {
        assert Holds(s.points, a.acc, key.1, a.rows[key.1]);
      }
    }
    forall key: ChunkKey | key in after ensures AllRows(w, after, key.0) {
      forall k: nat | k < |w.texts(key.0)| ensures (key.0, k) in after {
        CommittedAt(s.chunks, a, key);
        CommittedAt(s.chunks, a, (key.0, k));
        assert key in s.chunks ==> AllRows(w, s.chunks, key.0);
      }
    }
    forall k: nat | k < |w.texts(a.acc)| ensures (a.acc, k) in after { CommittedAt(s.chunks, a, (a.acc, k)); }
  }

  lemma CommitKeepsAttempts(w: World, s: State, i: nat)
    requires Inv(w, s) && i in s.attempts && s.attempts[i].sent == |s.attempts[i].rows|
    ensures AttemptsGood(w, Committed(s.chunks, s.attempts[i]), s.points, s.attempts - {i})
  {
    var a := s.attempts[i];
    var after := Committed(s.chunks, a);
    assert SeesRows(w, s.chunks, a);
    forall j | j in s.attempts - {i} ensures SeesRows(w, after, s.attempts[j]) && Sent(s.points, s.attempts[j]) {
      var b := s.attempts[j];
      assert SeesRows(w, s.chunks, b);
      forall k: nat | k < |b.rows|
        ensures if b.inserted then (b.acc, k) !in after else (b.acc, k) in after && after[(b.acc, k)] == b.rows[k]
      {
        CommittedAt(s.chunks, a, (b.acc, k));
        if b.acc == a.acc { assert RowGood(w, s.points, (b.acc, k), b.rows[k]); }
      }
    }
  }

  lemma CommitKeepsIds(s: State, i: nat)
    requires IdsApart(s.chunks, s.attempts, s.nextRow) && i in s.attempts
    ensures IdsApart(Committed(s.chunks, s.attempts[i]), s.attempts - {i}, s.nextRow)
  {
    var a := s.attempts[i];
    var after := Committed(s.chunks, a);
    forall id: nat, key: ChunkKey | InUse(after, s.attempts - {i}, id, key)
      ensures InUse(s.chunks, s.attempts, id, key)
    {
      CommittedAt(s.chunks, a, key);
      if key.0 == a.acc && key.1 < |a.rows| && after[key].id == id { assert Seen(s.attempts[i], id, key); }
      if j :| j in s.attempts - {i} && Seen((s.attempts - {i})[j], id, key) { assert Seen(s.attempts[j], id, key); }
    }
  }

  lemma CommitKeepsInv(w: World, s: State, i: nat)
    requires Inv(w, s) && i in s.attempts && s.attempts[i].sent == |s.attempts[i].rows|
    requires s.attempts[i].acc in s.filings
    ensures Inv(w, ApplyCommit(s, i))
  {
    var a, t := s.attempts[i], ApplyCommit(s, i);
    CommitKeepsRows(w, s, i);
    CommitKeepsAttempts(w, s, i);
    CommitKeepsIds(s, i);
    forall acc | acc in t.filings && t.filings[acc].status == Embedded ensures AllRows(w, t.chunks, acc) {
      if acc != a.acc {
        assert AllRows(w, s.chunks, acc);
        forall k: nat | k < |w.texts(acc)| ensures (acc, k) in t.chunks { CommittedAt(s.chunks, a, (acc, k)); }
      }
    }
  }

  lemma AbortKeepsInv(w: World, s: State, i: nat)
    requires Inv(w, s) && i in s.attempts
    ensures Inv(w, s.(attempts := s.attempts - {i}))
  {
    var rest := s.attempts - {i};
    forall id: nat, key: ChunkKey | InUse(s.chunks, rest, id, key) ensures InUse(s.chunks, s.attempts, id, key) {
      if j :| j in rest && Seen(rest[j], id, key) { assert Seen(s.attempts[j], id, key); }
    }
  }

  ghost predicate SameIndex(s: State, t: State) {
    && t.chunks == s.chunks && t.points == s.points && t.attempts == s.attempts && t.nextRow == s.nextRow
    && forall acc :: acc in t.filings && t.filings[acc].status == Embedded ==>
         acc in s.filings && s.filings[acc].status == Embedded
  }

  predicate TouchesIndex(step: Step) {
    step.EmbedBegin? || step.EmbedBatch? || step.EmbedCommit? || step.EmbedAbort?
  }

  lemma ReconcileLeavesIndex(s: State, limit: nat, picked: seq<Acc>)
    requires IsOldest(s, limit, picked)
    ensures forall a :: a in picked ==> a in s.filings && s.filings[a].status.InProgress()
    ensures SameIndex(s, ApplyReconcile(s, picked))
  {
  }

  lemma RecoveryLeavesIndex(s: State, plan: seq<Acc>)
    ensures SameIndex(s, ApplyRecovery(s, plan))
  {
  }

  lemma FilingStepsLeaveIndex(s: State, acc: Acc, accepted: bool)
    ensures SameIndex(s, ApplyDiscover(s, acc))
    ensures acc in s.filings ==> SameIndex(s, ApplyFetch(s, acc)) && SameIndex(s, ApplyParse(s, acc, accepted))
  {
  }

  /** Every other step leaves the index alone and embeds nothing. */
  lemma OthersLeaveIndex(w: World, s: State, step: Step)
    requires Enabled(w, s, step) && !TouchesIndex(step)
    ensures SameIndex(s, Apply(w, s, step))
  {
    hide ApplyReconcile, ApplyRecovery, IsOldest, ApplyBegin, ApplyBatch, ApplyCommit, Blocked, Failures,
         ApplyDiscover, ApplyFetch, ApplyParse;
    match step
    case Reconcile(picked) => ReconcileLeavesIndex(s, w.limit, picked);
    case RunRecovery(plan) => RecoveryLeavesIndex(s, plan);
    case Discover(acc) => FilingStepsLeaveIndex(s, acc, true);
    case Fetch(acc) => FilingStepsLeaveIndex(s, acc, true);
    case Parse(acc, accepted) => FilingStepsLeaveIndex(s, acc, accepted);
    case _ =>
  }

  lemma SameIndexKeepsInv(w: World, s: State, t: State)
    requires Inv(w, s) && SameIndex(s, t)
    ensures Inv(w, t)
  {
  }

  lemma StepKeepsInv(w: World, s: State, step: Step)
    requires Inv(w, s) && Enabled(w, s, step)
    ensures Inv(w, Apply(w, s, step))
  {
    hide IsOldest, Blocked, Inv, ApplyReconcile, ApplyRecovery;
    match step
    case EmbedBegin(acc, i) => BeginKeepsInv(w, s, acc, i);
    case EmbedBatch(i) => BatchKeepsInv(w, s, i);
    case EmbedCommit(i) => CommitKeepsInv(w, s, i);
    case EmbedAbort(i) => AbortKeepsInv(w, s, i);
    case _ =>
      OthersLeaveIndex(w, s, step);
      SameIndexKeepsInv(w, s, Apply(w, s, step));
  }

  lemma {:induction false} RunKeepsInv(w: World, s: State, steps: seq<Step>)
    requires Inv(w, s) && Legal(w, s, steps)
    ensures Inv(w, Run(w, s, steps))
    decreases |steps|
  {
    if |steps| > 0 {
      StepKeepsInv(w, s, steps[0]);
      hide Inv, Enabled, Apply;
      RunKeepsInv(w, Apply(w, s, steps[0]), steps[1..]);
    }
  }

  // ---- main results --------------------------------------------------------------

  /** The point of chunk k, and the row it names, are in place. */
  ghost predicate Searchable(w: World, s: State, acc: Acc, k: nat)
    requires k < |w.texts(acc)|
  {
    && (acc, k) in s.chunks
    && s.chunks[(acc, k)].text == w.texts(acc)[k]
    && s.chunks[(acc, k)].pointId == Some(PointName(acc, k))
    && PointName(acc, k) in s.points
    && s.points[PointName(acc, k)] == Point(s.chunks[(acc, k)].id, acc, k, w.texts(acc)[k])
  }

  /**
   * In every reachable state, an embedded filing has every chunk row, each with
   * its point id, and Qdrant holds that point with the row's id and text.
   */
  lemma EmbeddedIsSearchable(w: World, steps: seq<Step>, acc: Acc, k: nat)
    requires Legal(w, EMPTY, steps) && k < |w.texts(acc)|
    requires var s := Run(w, EMPTY, steps); acc in s.filings && s.filings[acc].status == Embedded
    ensures Searchable(w, Run(w, EMPTY, steps), acc, k)
  {
    var s := Run(w, EMPTY, steps);
    RunKeepsInv(w, EMPTY, steps);
    assert AllRows(w, s.chunks, acc);
    assert RowGood(w, s.points, (acc, k), s.chunks[(acc, k)]);
  }
}
