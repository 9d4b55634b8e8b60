/**
 * The event log as the record of the pipeline: a filing's status is what its
 * own committed events say, after every transaction of every run.
 */
module EventLog {
  import opened Options
  import opened Pipeline

  /** The status an event stands for; giving up and re-queueing change none. */
  function Says(kind: EventKind): Option<Status> {
    match kind
    case FilingDiscovered => Some(Discovered)
    case FilingFetched => Some(Fetched)
    case FilingParsed => Some(Parsed)
    case ParseFailed => Some(Quarantined)
    case FilingEmbedded => Some(Embedded)
    case RecoveryReset => Some(Discovered)
    case FilingFailed => None
    case FilingRequeued => None
  }

  function Replay(events: seq<Event>, acc: Acc): Option<Status> {
    if |events| == 0 then None
    else
      var last := events[|events| - 1];
      if last.acc == acc && Says(last.kind).Some? then Says(last.kind) else Replay(events[..|events| - 1], acc)
  }

  function StatusOf(s: State, acc: Acc): Option<Status> {
    if acc in s.filings then Some(s.filings[acc].status) else None
  }

  ghost predicate LogAgrees(s: State) {
    forall acc :: Replay(s.events, acc) == StatusOf(s, acc)
  }

  /** The dedupe gate: one discovery per filing, and none before its row. */
  ghost predicate DiscoveredOnce(s: State) {
    forall acc :: Count(s.events, Event(FilingDiscovered, acc)) == if acc in s.filings then 1 else 0
  }

  ghost predicate PlansKnown(s: State) {
    forall plan, acc :: plan in s.plans && acc in plan ==> acc in s.filings
  }

  /** A queued task finds its filing, and the key of the file it reads is set. */
  predicate Ready(filings: map<Acc, Filing>, t: Task) {
    t.acc in filings &&
    match t
    case FetchTask(acc) => true
    case ParseTask(acc) => filings[acc].bronzeKey
    case EmbedTask(acc) => filings[acc].silverKey
  }

  ghost predicate TasksReady(s: State) {
    forall t :: t in s.queue ==> Ready(s.filings, t)
  }

  ghost predicate Inv(s: State) {
    LogAgrees(s) && DiscoveredOnce(s) && PlansKnown(s) && TasksReady(s)
  }

  lemma LastEvent(events: seq<Event>, e: Event, acc: Acc)
    ensures Replay(events + [e], acc) ==
            if e.acc == acc && Says(e.kind).Some? then Says(e.kind) else Replay(events, acc)
    ensures forall f :: Count(events + [e], f) == Count(events, f) + if e == f then 1 else 0
  {
    assert (events + [e])[..|events|] == events;
  }

  lemma {:induction false} EachEvent(events: seq<Event>, kind: EventKind, accs: seq<Acc>, acc: Acc)
    ensures Replay(events + Each(kind, accs), acc) ==
            if acc in accs && Says(kind).Some? then Says(kind) else Replay(events, acc)
    ensures forall k :: k != kind ==> Count(events + Each(kind, accs), Event(k, acc)) == Count(events, Event(k, acc))
  {
    if |accs| == 0 {
      assert events + Each(kind, accs) == events;
    } else {
      var n := |accs| - 1;
      EachEvent(events, kind, accs[..n], acc);
      LastEvent(events + Each(kind, accs[..n]), Event(kind, accs[n]), acc);
      assert events + Each(kind, accs) == events + Each(kind, accs[..n]) + [Event(kind, accs[n])];
      assert accs == accs[..n] + [accs[n]];
    }
  }

  lemma {:induction false} RequeuesAre(s: State, accs: seq<Acc>, t: Task)
    requires forall a :: a in accs ==> a in s.filings && s.filings[a].status.InProgress()
    ensures t in Requeues(s, accs) <==> exists a :: a in accs && t == Requeue(s, a)
  {
    hide Requeue;
    if |accs| > 0 {
      var n := |accs| - 1;
      RequeuesAre(s, accs[..n], t);
      assert accs == accs[..n] + [accs[n]];
    }
  }

  /** A transaction that writes one event and the status it says. */
  lemma OneEventKeepsLog(s: State, t: State, e: Event)
    requires LogAgrees(s) && DiscoveredOnce(s) && t.events == s.events + [e]
    requires forall acc :: acc != e.acc ==> StatusOf(t, acc) == StatusOf(s, acc)
    requires if Says(e.kind).Some? then StatusOf(t, e.acc) == Says(e.kind) else StatusOf(t, e.acc) == StatusOf(s, e.acc)
    requires e.kind == FilingDiscovered <==> e.acc !in s.filings && e.acc in t.filings
    ensures LogAgrees(t) && DiscoveredOnce(t)
  {
    forall acc
      ensures Replay(t.events, acc) == StatusOf(t, acc)
      ensures Count(t.events, Event(FilingDiscovered, acc)) == if acc in t.filings then 1 else 0
    {
      LastEvent(s.events, e, acc);
    }
  }

  /** Filings and keys stay; so do the tasks that rely on them. */
  ghost predicate KeysStay(s: State, t: State) {
    forall acc :: acc in s.filings ==>
      && acc in t.filings
      && (s.filings[acc].bronzeKey ==> t.filings[acc].bronzeKey)
      && (s.filings[acc].silverKey ==> t.filings[acc].silverKey)
  }

  lemma TasksStayReady(s: State, t: State)
    requires TasksReady(s) && PlansKnown(s) && KeysStay(s, t)
    requires t.plans <= s.plans && forall task :: task in t.queue ==> task in s.queue || Ready(t.filings, task)
    ensures TasksReady(t) && PlansKnown(t)
  {
  }

  lemma FetchKeepsInv(s: State, acc: Acc)
    requires Inv(s) && acc in s.filings
    ensures Inv(ApplyFetch(s, acc))
  {
    hide LogAgrees, DiscoveredOnce, TasksReady, PlansKnown, Replay, Count;
    var t := ApplyFetch(s, acc);
    OneEventKeepsLog(s, t, Event(FilingFetched, acc));
    TasksStayReady(s, t);
  }

  lemma ParseKeepsInv(s: State, acc: Acc, accepted: bool)
    requires Inv(s) && acc in s.filings
    ensures Inv(ApplyParse(s, acc, accepted))
  {
    hide LogAgrees, DiscoveredOnce, TasksReady, PlansKnown, Replay, Count;
    var t := ApplyParse(s, acc, accepted);
    OneEventKeepsLog(s, t, Event(if accepted then FilingParsed else ParseFailed, acc));
    TasksStayReady(s, t);
  }

  lemma DiscoverKeepsInv(s: State, acc: Acc)
    requires Inv(s)
    ensures Inv(ApplyDiscover(s, acc))
  {
    hide LogAgrees, DiscoveredOnce, TasksReady, PlansKnown, Replay, Count;
    var t := ApplyDiscover(s, acc);
    SameLogKeepsInv(s, s.(nextFiling := s.nextFiling + 1));
    if acc !in s.filings {
      OneEventKeepsLog(s, t, Event(FilingDiscovered, acc));
      TasksStayReady(s, t);
    }
  }

  lemma CommitKeepsInv(s: State, i: nat)
    requires Inv(s) && i in s.attempts && s.attempts[i].acc in s.filings
    ensures Inv(ApplyCommit(s, i))
  {
    var t := ApplyCommit(s, i);
    hide LogAgrees, DiscoveredOnce, TasksReady, PlansKnown, Replay, Count, Committed;
    OneEventKeepsLog(s, t, Event(FilingEmbedded, s.attempts[i].acc));
    TasksStayReady(s, t);
  }

  lemma ReconcileKeepsLog(s: State, picked: seq<Acc>)
    requires LogAgrees(s) && DiscoveredOnce(s)
    requires forall a :: a in picked ==> a in s.filings && s.filings[a].status.InProgress()
    ensures LogAgrees(ApplyReconcile(s, picked)) && DiscoveredOnce(ApplyReconcile(s, picked))
  {
    var t := ApplyReconcile(s, picked);
    forall acc
      ensures Replay(t.events, acc) == StatusOf(t, acc)
      ensures Count(t.events, Event(FilingDiscovered, acc)) == if acc in t.filings then 1 else 0
    {
      EachEvent(s.events, FilingRequeued, picked, acc);
      EachEvent(s.events + Each(FilingRequeued, picked), RecoveryReset, Resets(s, picked), acc);
    }
  }

  lemma ReconcileKeepsInv(s: State, picked: seq<Acc>)
    requires Inv(s)
    requires forall a :: a in picked ==> a in s.filings && s.filings[a].status.InProgress()
    ensures Inv(ApplyReconcile(s, picked))
  {
    ReconcileKeepsLog(s, picked);
    var t := ApplyReconcile(s, picked);
    forall task | task in Requeues(s, picked) ensures Ready(t.filings, task) {
      RequeuesAre(s, picked, task);
    }
    hide LogAgrees, DiscoveredOnce;
    TasksStayReady(s, t);
  }

  lemma RecoveryKeepsLog(s: State, plan: seq<Acc>)
    requires LogAgrees(s) && DiscoveredOnce(s) && forall a :: a in plan ==> a in s.filings
    ensures LogAgrees(ApplyRecovery(s, plan)) && DiscoveredOnce(ApplyRecovery(s, plan))
  {
    var t := ApplyRecovery(s, plan);
    forall acc
      ensures Replay(t.events, acc) == StatusOf(t, acc)
      ensures Count(t.events, Event(FilingDiscovered, acc)) == if acc in t.filings then 1 else 0
    {
      EachEvent(s.events, RecoveryReset, plan, acc);
    }
  }

  lemma RecoveryKeepsInv(s: State, plan: seq<Acc>)
    requires Inv(s) && plan in s.plans
    ensures Inv(ApplyRecovery(s, plan))
  {
    RecoveryKeepsLog(s, plan);
    hide LogAgrees, DiscoveredOnce, Each;
    TasksStayReady(s, ApplyRecovery(s, plan));
  }

  lemma FailureKeepsInv(s: State, acc: Acc)
    requires Inv(s)
    ensures Inv(s.(events := Log(s, FilingFailed, acc)))
  {
    OneEventKeepsLog(s, s.(events := Log(s, FilingFailed, acc)), Event(FilingFailed, acc));
  }

  lemma StepKeepsInv(w: World, s: State, step: Step)
    requires Inv(s) && Enabled(w, s, step)
    ensures Inv(Apply(w, s, step))
  {
    hide LogAgrees, DiscoveredOnce, ApplyDiscover, ApplyFetch, ApplyParse, ApplyCommit, ApplyReconcile, ApplyRecovery,
         Blocked;
    match step
    case Discover(acc) => DiscoverKeepsInv(s, acc);
    case Fetch(acc) => FetchKeepsInv(s, acc);
    case Parse(acc, accepted) => ParseKeepsInv(s, acc, accepted);
    case EmbedCommit(i) => CommitKeepsInv(s, i);
    case Reconcile(picked) => ReconcileKeepsInv(s, picked);
    case RunRecovery(plan) => RecoveryKeepsInv(s, plan);
    case GiveUp(acc) => FailureKeepsInv(s, acc);
    case _ =>
      QuietStepsSameLog(w, s, step);
      SameLogKeepsInv(s, Apply(w, s, step));
  }

  predicate Quiet(step: Step) {
    !step.Discover? && !step.Fetch? && !step.Parse? && !step.EmbedCommit? && !step.Reconcile? && !step.RunRecovery?
    && !step.GiveUp?
  }

  /** Nothing logged, nothing enqueued, no filing touched. */
  ghost predicate SameLog(s: State, t: State) {
    && t.events == s.events && t.filings == s.filings && t.queue <= s.queue
    && forall plan, acc :: plan in t.plans && acc in plan ==> plan in s.plans || acc in s.filings
  }

  lemma SameLogKeepsInv(s: State, t: State)
    requires Inv(s) && SameLog(s, t)
    ensures Inv(t)
  {
    assert forall task :: task in t.queue ==> task in s.queue;
  }

  lemma QuietStepsSameLog(w: World, s: State, step: Step)
    requires Enabled(w, s, step) && Quiet(step)
    ensures SameLog(s, Apply(w, s, step))
  {
    hide Upserted, Blocked, IsOldest, ApplyReconcile, ApplyRecovery, ApplyCommit, ApplyFetch, ApplyParse,
         ApplyDiscover, RowsSeen, Inserts, Failures;
  }

  lemma {:induction false} RunKeepsInv(w: World, s: State, steps: seq<Step>)
    requires Inv(s) && Legal(w, s, steps)
    ensures Inv(Run(w, s, steps))
    decreases |steps|
  {
    if |steps| > 0 {
      StepKeepsInv(w, s, steps[0]);
      hide Inv, Enabled, Apply;
      RunKeepsInv(w, Apply(w, s, steps[0]), steps[1..]);
    }
  }

  /**
   * After every committed transaction of every run, each filing's status is the
   * fold of its own events, it was discovered once, and no queued task is
   * without its filing or the key it reads.
   */
  lemma LogTellsStatus(w: World, steps: seq<Step>)
    requires Legal(w, EMPTY, steps)
    ensures var s := Run(w, EMPTY, steps);
      && (forall acc :: Replay(s.events, acc) == StatusOf(s, acc))
      && (forall acc :: acc in s.filings ==> Count(s.events, Event(FilingDiscovered, acc)) == 1)
      && (forall t :: t in s.queue ==> Ready(s.filings, t))
  {
    RunKeepsInv(w, EMPTY, steps);
  }
}
