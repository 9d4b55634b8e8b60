/**
 * The ingestion pipeline as a transition system. Each database transaction is
 * one step; a Qdrant batch is a step of its own, because Qdrant has no
 * transactions; tasks are delivered at least once, so a step may run again
 * while its message is queued, and a message may be gone at any time.
 */
module Pipeline {
  import opened Options
  import opened PointIds

  type Acc = string

  const STUCK_AFTER: int := 30 * 60
  const NEEDS_ATTENTION_FAILURES: nat := 3
  const EMBED_BATCH_SIZE: nat := 4

  datatype Status = Discovered | Fetched | Parsed | Quarantined | Embedded {
    predicate InProgress() {
      Discovered? || Fetched? || Parsed?
    }
  }

  /** The two keys are set or not; the path they hold depends on the filing alone. */
  datatype Filing = Filing(id: nat, status: Status, bronzeKey: bool, silverKey: bool, updatedAt: int) {
    /** The session writes a row only if an attribute really changed. */
    function Save(status: Status, bronzeKey: bool, silverKey: bool, now: int): Filing {
      var f := Filing(id, status, bronzeKey, silverKey, updatedAt);
      if f == this then this else f.(updatedAt := now)
    }
  }

  datatype Row = Row(id: nat, text: string, pointId: Option<string>)

  datatype Point = Point(chunkId: nat, acc: Acc, number: nat, text: string)

  datatype EventKind =
    | FilingDiscovered | FilingFetched | FilingParsed | ParseFailed | FilingEmbedded
    | FilingFailed | FilingRequeued | RecoveryReset

  datatype Event = Event(kind: EventKind, acc: Acc)

  datatype Task = FetchTask(acc: Acc) | ParseTask(acc: Acc) | EmbedTask(acc: Acc)

  /**
   * A chunk_and_embed transaction in progress: the rows it sees, whether it
   * inserted any of them itself, and how many it has sent to Qdrant.
   */
  datatype Attempt = Attempt(acc: Acc, rows: seq<Row>, inserted: bool, sent: nat)

  type ChunkKey = (Acc, nat)

  datatype State = State(
    clock: int,
    filings: map<Acc, Filing>,
    nextFiling: nat,
    events: seq<Event>,
    chunks: map<ChunkKey, Row>,
    nextRow: nat,
    points: map<string, Point>,
    bronze: set<Acc>,
    silver: set<Acc>,
    queue: multiset<Task>,
    attempts: map<nat, Attempt>,
    plans: set<seq<Acc>>)

  /**
   * A filing's document never changes, so whether it parses, and into which
   * chunks, are functions of the filing. limit is RECONCILE_LIMIT.
   */
  datatype World = World(texts: Acc -> seq<string>, accepts: Acc -> bool, limit: nat)

  const EMPTY: State :=
    State(0, map[], 1, [], map[], 1, map[], {}, {}, multiset{}, map[], {})

  datatype Step =
    | Tick(elapsed: nat)
    | Discover(acc: Acc)
    | Fetch(acc: Acc)
    | FetchDies(acc: Acc)
    | Parse(acc: Acc, accepted: bool)
    | ParseDies(acc: Acc)
    | EmbedBegin(acc: Acc, attempt: nat)
    | EmbedBatch(attempt: nat)
    | EmbedCommit(attempt: nat)
    | EmbedAbort(attempt: nat)
    | GiveUp(acc: Acc)
    | Reconcile(picked: seq<Acc>)
    | PlanRecovery(plan: seq<Acc>)
    | RunRecovery(plan: seq<Acc>)
    | LoseFiles(bronze: set<Acc>, silver: set<Acc>)
    | Drop(task: Task)

  // ---- reading the event log ---------------------------------------------------

  function Count(events: seq<Event>, e: Event): nat {
    if |events| == 0 then 0 else Count(events[..|events| - 1], e) + if events[|events| - 1] == e then 1 else 0
  }

  function Failures(s: State, acc: Acc): nat {
    Count(s.events, Event(FilingFailed, acc))
  }

  // ---- the reconciler's choice ---------------------------------------------------

  predicate Stuck(s: State, acc: Acc) {
    acc in s.filings && s.filings[acc].status.InProgress() && s.filings[acc].updatedAt < s.clock - STUCK_AFTER
  }

  predicate Retryable(s: State, acc: Acc) {
    Stuck(s, acc) && Failures(s, acc) < NEEDS_ATTENTION_FAILURES
  }

  function RetryableSet(s: State): set<Acc> {
    set acc | acc in s.filings && Retryable(s, acc)
  }

  /** Ordered by updated_at, then id. */
  predicate Older(f: Filing, g: Filing) {
    f.updatedAt < g.updatedAt || (f.updatedAt == g.updatedAt && f.id < g.id)
  }

  predicate Ahead(s: State, a: Acc, b: Acc) {
    a in s.filings && b in s.filings && Older(s.filings[a], s.filings[b])
  }

  predicate Distinct(accs: seq<Acc>) {
    forall i, j :: 0 <= i < j < |accs| ==> accs[i] != accs[j]
  }

  /** The oldest `limit` retryable filings, or all of them, oldest first. */
  ghost predicate IsOldest(s: State, limit: nat, picked: seq<Acc>) {
    && Distinct(picked)
    && (forall a :: a in picked ==> Retryable(s, a))
    && (forall i, j :: 0 <= i < j < |picked| ==> Ahead(s, picked[i], picked[j]))
    && (forall a, b :: a in picked && b !in picked && Retryable(s, b) ==> Ahead(s, a, b))
    && |picked| <= limit
    && (|picked| < limit ==> forall b :: Retryable(s, b) ==> b in picked)
  }

  predicate MissingInput(s: State, acc: Acc)
    requires acc in s.filings
  {
    var f := s.filings[acc];
    || (f.status.Fetched? && !(f.bronzeKey && acc in s.bronze))
    || (f.status.Parsed? && !(f.silverKey && acc in s.silver))
  }

  function NextStep(status: Status, acc: Acc): Task
    requires status.InProgress()
  {
    match status
    case Discovered => FetchTask(acc)
    case Fetched => ParseTask(acc)
    case Parsed => EmbedTask(acc)
  }

  /** What the reconciler enqueues for one filing. */
  function Requeue(s: State, acc: Acc): Task
    requires acc in s.filings && s.filings[acc].status.InProgress()
  {
    if MissingInput(s, acc) then FetchTask(acc) else NextStep(s.filings[acc].status, acc)
  }

  function Each(kind: EventKind, accs: seq<Acc>): seq<Event> {
    seq(|accs|, i requires 0 <= i < |accs| => Event(kind, accs[i]))
  }

  /** Those of `accs` whose next step cannot read its input. */
  function Resets(s: State, accs: seq<Acc>): (r: seq<Acc>)
    requires forall a :: a in accs ==> a in s.filings
    ensures forall a :: a in r <==> a in accs && MissingInput(s, a)
  {
    if |accs| == 0 then []
    else
      var n := |accs| - 1;
      Resets(s, accs[..n]) + if MissingInput(s, accs[n]) then [accs[n]] else []
  }

  function Requeues(s: State, accs: seq<Acc>): multiset<Task>
    requires forall a :: a in accs ==> a in s.filings && s.filings[a].status.InProgress()
  {
    if |accs| == 0 then multiset{}
    else
      var n := |accs| - 1;
      Requeues(s, accs[..n]) + multiset{Requeue(s, accs[n])}
  }

  function Fetches(accs: seq<Acc>): multiset<Task> {
    multiset(seq(|accs|, i requires 0 <= i < |accs| => FetchTask(accs[i])))
  }

  // ---- chunk_and_embed -----------------------------------------------------------

  /** Persisting blocks while another transaction holds this filing's new rows. */
  ghost predicate Blocked(s: State, acc: Acc) {
    exists i :: i in s.attempts && s.attempts[i].acc == acc && s.attempts[i].inserted
  }

  /** INSERT ... ON CONFLICT DO NOTHING, then the filing's rows in order. */
  function RowsSeen(w: World, s: State, acc: Acc): (rows: seq<Row>)
    ensures |rows| == |w.texts(acc)|
  {
    var texts := w.texts(acc);
    seq(|texts|, k requires 0 <= k < |texts| =>
      if (acc, k) in s.chunks then s.chunks[(acc, k)] else Row(s.nextRow + k, texts[k], None))
  }

  predicate Inserts(w: World, s: State, acc: Acc) {
    exists k :: 0 <= k < |w.texts(acc)| && (acc, k) !in s.chunks
  }

  function PointFor(acc: Acc, k: nat, row: Row): Point {
    Point(row.id, acc, k, row.text)
  }

  /** Points lo..hi of a filing's rows, written over what is there. */
  function Upserted(points: map<string, Point>, acc: Acc, rows: seq<Row>, lo: nat, hi: nat): map<string, Point>
    requires lo <= hi <= |rows|
    decreases hi
  {
    if lo == hi then points
    else Upserted(points, acc, rows, lo, hi - 1)[PointName(acc, hi - 1) := PointFor(acc, hi - 1, rows[hi - 1])]
  }

  function BatchEnd(a: Attempt): nat {
    if a.sent + EMBED_BATCH_SIZE <= |a.rows| then a.sent + EMBED_BATCH_SIZE else |a.rows|
  }

  function WithPointId(acc: Acc, k: nat, row: Row): Row {
    row.(pointId := Some(PointName(acc, k)))
  }

  /** Every row of the attempt, with its point id written back. */
  function Committed(chunks: map<ChunkKey, Row>, a: Attempt): map<ChunkKey, Row> {
    chunks + map k: nat | k < |a.rows| :: (a.acc, k) := WithPointId(a.acc, k, a.rows[k])
  }

  predicate CanParse(s: State, acc: Acc) {
    ParseTask(acc) in s.queue && acc in s.filings && s.filings[acc].bronzeKey && acc in s.bronze
  }

  // ---- steps ------------------------------------------------------------------------

  ghost predicate Enabled(w: World, s: State, step: Step) {
    match step
    case Tick(_) => true
    case Discover(_) => true
    case Fetch(acc) => FetchTask(acc) in s.queue && acc in s.filings
    case FetchDies(acc) => FetchTask(acc) in s.queue && acc in s.filings
    case Parse(acc, accepted) => CanParse(s, acc) && accepted == w.accepts(acc)
    case ParseDies(acc) => CanParse(s, acc) && w.accepts(acc)
    case EmbedBegin(acc, i) =>
      && EmbedTask(acc) in s.queue && acc in s.filings && s.filings[acc].silverKey && acc in s.silver
      && i !in s.attempts && !Blocked(s, acc)
    case EmbedBatch(i) => i in s.attempts && s.attempts[i].sent < |s.attempts[i].rows|
    case EmbedCommit(i) =>
      i in s.attempts && s.attempts[i].sent == |s.attempts[i].rows| && s.attempts[i].acc in s.filings
    case EmbedAbort(i) => i in s.attempts
    case GiveUp(acc) => FetchTask(acc) in s.queue || ParseTask(acc) in s.queue || EmbedTask(acc) in s.queue
    case Reconcile(picked) => IsOldest(s, w.limit, picked)
    case PlanRecovery(plan) =>
      forall a :: a in plan <==> a in s.filings && s.filings[a].status.InProgress()
                                  && !(s.filings[a].bronzeKey && a in s.bronze)
    case RunRecovery(plan) => plan in s.plans
    case LoseFiles(_, _) => true
    case Drop(t) => t in s.queue
  }

  function Log(s: State, kind: EventKind, acc: Acc): seq<Event> {
    s.events + [Event(kind, acc)]
  }

  function ApplyDiscover(s: State, acc: Acc): State {
    if acc in s.filings then s.(nextFiling := s.nextFiling + 1)
    else s.(filings := s.filings[acc := Filing(s.nextFiling, Discovered, false, false, s.clock)],
            nextFiling := s.nextFiling + 1,
            events := Log(s, FilingDiscovered, acc),
            queue := s.queue + multiset{FetchTask(acc)})
  }

  /** The status written does not depend on the status found. */
  function ApplyFetch(s: State, acc: Acc): State
    requires acc in s.filings
  {
    s.(bronze := s.bronze + {acc},
       filings := s.filings[acc := s.filings[acc].Save(Fetched, true, s.filings[acc].silverKey, s.clock)],
       events := Log(s, FilingFetched, acc),
       queue := s.queue + multiset{ParseTask(acc)})
  }

  function ApplyParse(s: State, acc: Acc, accepted: bool): State
    requires acc in s.filings
  {
    var f := s.filings[acc];
    if accepted then
      s.(silver := s.silver + {acc},
         filings := s.filings[acc := f.Save(Parsed, f.bronzeKey, true, s.clock)],
         events := Log(s, FilingParsed, acc),
         queue := s.queue + multiset{EmbedTask(acc)})
    else
      s.(filings := s.filings[acc := f.Save(Quarantined, f.bronzeKey, f.silverKey, s.clock)],
         events := Log(s, ParseFailed, acc))
  }

  function ApplyBegin(w: World, s: State, acc: Acc, i: nat): State {
    s.(attempts := s.attempts[i := Attempt(acc, RowsSeen(w, s, acc), Inserts(w, s, acc), 0)],
       nextRow := s.nextRow + |w.texts(acc)|)
  }

  function ApplyBatch(s: State, i: nat): State
    requires i in s.attempts && s.attempts[i].sent <= |s.attempts[i].rows|
  {
    var a := s.attempts[i];
    s.(points := Upserted(s.points, a.acc, a.rows, a.sent, BatchEnd(a)),
       attempts := s.attempts[i := a.(sent := BatchEnd(a))])
  }

  function ApplyCommit(s: State, i: nat): State
    requires i in s.attempts && s.attempts[i].acc in s.filings
  {
    var a := s.attempts[i];
    var f := s.filings[a.acc];
    s.(chunks := Committed(s.chunks, a),
       filings := s.filings[a.acc := f.Save(Embedded, f.bronzeKey, f.silverKey, s.clock)],
       events := Log(s, FilingEmbedded, a.acc),
       attempts := s.attempts - {i})
  }

  function Reset(f: Filing, now: int): Filing {
    f.(status := Discovered, updatedAt := now)
  }

  function ApplyReconcile(s: State, picked: seq<Acc>): State
    requires forall a :: a in picked ==> a in s.filings && s.filings[a].status.InProgress()
  {
    s.(filings := map a | a in s.filings ::
         if a !in picked then s.filings[a]
         else if MissingInput(s, a) then Reset(s.filings[a], s.clock)
         else s.filings[a].(updatedAt := s.clock),
       events := s.events + Each(FilingRequeued, picked) + Each(RecoveryReset, Resets(s, picked)),
       queue := s.queue + Requeues(s, picked))
  }

  function ApplyRecovery(s: State, plan: seq<Acc>): State {
    s.(filings := map a | a in s.filings :: if a in plan then Reset(s.filings[a], s.clock) else s.filings[a],
       events := s.events + Each(RecoveryReset, plan),
       queue := s.queue + Fetches(plan),
       plans := s.plans - {plan})
  }

  ghost function Apply(w: World, s: State, step: Step): State
    requires Enabled(w, s, step)
  {
    match step
    case Tick(d) => s.(clock := s.clock + d)
    case Discover(acc) => ApplyDiscover(s, acc)
    case Fetch(acc) => ApplyFetch(s, acc)
    case FetchDies(acc) => s.(bronze := s.bronze + {acc})
    case Parse(acc, accepted) => ApplyParse(s, acc, accepted)
    case ParseDies(acc) => s.(silver := s.silver + {acc})
    case EmbedBegin(acc, i) => ApplyBegin(w, s, acc, i)
    case EmbedBatch(i) => ApplyBatch(s, i)
    case EmbedCommit(i) => ApplyCommit(s, i)
    case EmbedAbort(i) => s.(attempts := s.attempts - {i})
    case GiveUp(acc) => s.(events := Log(s, FilingFailed, acc))
    case Reconcile(picked) => ApplyReconcile(s, picked)
    case PlanRecovery(plan) => s.(plans := s.plans + {plan})
    case RunRecovery(plan) => ApplyRecovery(s, plan)
    case LoseFiles(b, v) => s.(bronze := s.bronze - b, silver := s.silver - v)
    case Drop(t) => s.(queue := s.queue - multiset{t})
  }

  ghost predicate Legal(w: World, s: State, steps: seq<Step>)
    decreases |steps|
  {
    |steps| == 0 || (Enabled(w, s, steps[0]) && Legal(w, Apply(w, s, steps[0]), steps[1..]))
  }

  ghost function Run(w: World, s: State, steps: seq<Step>): State
    requires Legal(w, s, steps)
    decreases |steps|
  {
    if |steps| == 0 then s else Run(w, Apply(w, s, steps[0]), steps[1..])
  }

  lemma {:induction false} RunAppend(w: World, s: State, a: seq<Step>, b: seq<Step>)
    requires Legal(w, s, a) && Legal(w, Run(w, s, a), b)
    ensures Legal(w, s, a + b) && Run(w, s, a + b) == Run(w, Run(w, s, a), b)
    decreases |a|
  {
    hide Enabled, Apply;
    if |a| == 0 {
      assert a + b == b;
    } else {
      RunAppend(w, Apply(w, s, a[0]), a[1..], b);
      assert (a + b)[1..] == a[1..] + b;
    }
  }

  /** One more step at the end of a run. */
  lemma RunThen(w: World, s: State, a: seq<Step>, step: Step)
    requires Legal(w, s, a) && Enabled(w, Run(w, s, a), step)
    ensures Legal(w, s, a + [step]) && Run(w, s, a + [step]) == Apply(w, Run(w, s, a), step)
  {
    hide Enabled, Apply;
    RunAppend(w, s, a, [step]);
  }
}
