/**
 * The reconciler over every run: whom it picks, how long a stuck filing waits,
 * and how often it can be re-queued.
 */
module Reconciler {
  import opened Options
  import opened Pipeline
  import opened Sets

  // ---- every step adds to the log, and dates what it changes -----------------

  lemma {:induction false} CountPrefix(log: seq<Event>, more: seq<Event>, e: Event)
    ensures Count(log, e) <= Count(log + more, e)
  {
    if |more| == 0 {
      assert log + more == log;
    } else {
      var n := |more| - 1;
      CountPrefix(log, more[..n], e);
      assert (log + more)[..|log + more| - 1] == log + more[..n];
    }
  }

  /** Time does not go back, events are only added, and a changed row carries the present. */
  ghost predicate Follows(s: State, t: State) {
    && s.clock <= t.clock
    && s.events <= t.events
    && (forall b :: b in s.filings ==> b in t.filings)
    && (forall b :: b in t.filings ==>
          (b in s.filings && t.filings[b] == s.filings[b]) || t.filings[b].updatedAt == s.clock)
  }

  lemma FilingStepsFollow(s: State, acc: Acc, accepted: bool)
    ensures Follows(s, ApplyDiscover(s, acc))
    ensures acc in s.filings ==> Follows(s, ApplyFetch(s, acc))
    ensures acc in s.filings ==> Follows(s, ApplyParse(s, acc, accepted))
  {
  }

  lemma BulkStepsFollow(s: State, accs: seq<Acc>)
    ensures Follows(s, ApplyRecovery(s, accs))
    ensures (forall a :: a in accs ==> a in s.filings && s.filings[a].status.InProgress()) ==>
              Follows(s, ApplyReconcile(s, accs))
  {
  }

  lemma CommitFollows(s: State, i: nat)
    requires i in s.attempts && s.attempts[i].acc in s.filings
    ensures Follows(s, ApplyCommit(s, i))
  {
  }

  lemma PickedInProgress(s: State, limit: nat, picked: seq<Acc>)
    requires IsOldest(s, limit, picked)
    ensures forall a :: a in picked ==> a in s.filings && s.filings[a].status.InProgress()
  {
  }

  lemma StepFollows(w: World, s: State, step: Step)
    requires Enabled(w, s, step)
    ensures Follows(s, Apply(w, s, step))
  {
    hide ApplyDiscover, ApplyFetch, ApplyParse, ApplyCommit, ApplyReconcile, ApplyRecovery, Blocked, Upserted,
         RowsSeen, Inserts, Failures, IsOldest;
    match step
    case Discover(acc) => FilingStepsFollow(s, acc, true);
    case Fetch(acc) => FilingStepsFollow(s, acc, true);
    case Parse(acc, accepted) => FilingStepsFollow(s, acc, accepted);
    case EmbedCommit(i) => CommitFollows(s, i);
    case GiveUp(acc) => assert s.events <= Log(s, FilingFailed, acc);
    case Reconcile(picked) =>
      PickedInProgress(s, w.limit, picked);
      BulkStepsFollow(s, picked);
    case RunRecovery(plan) => BulkStepsFollow(s, plan);
    case _ => OthersFollow(w, s, step);
  }

  lemma {:induction false} OthersFollow(w: World, s: State, step: Step)
    requires Enabled(w, s, step) && !LogsOne(step) && !step.Reconcile? && !step.RunRecovery?
    ensures var t := Apply(w, s, step);
      t.filings == s.filings && t.events == s.events && s.clock <= t.clock
  {
    hide ApplyReconcile, ApplyRecovery, IsOldest, Blocked, Upserted, RowsSeen, Inserts, Failures;
  }

  lemma FailuresGrow(s: State, t: State, acc: Acc)
    requires Follows(s, t)
    ensures Failures(s, acc) <= Failures(t, acc)
  {
    CountPrefix(s.events, t.events[|s.events|..], Event(FilingFailed, acc));
    assert t.events == s.events + t.events[|s.events|..];
  }

  // ---- the tasks it enqueues can run ------------------------------------------------

  /** The task's filing is at the status it moves on from, and its input is on disk. */
  predicate CanRun(s: State, t: Task) {
    t.acc in s.filings &&
    var f := s.filings[t.acc];
    match t
    case FetchTask(_) => f.status.Discovered?
    case ParseTask(acc) => f.status.Fetched? && f.bronzeKey && acc in s.bronze
    case EmbedTask(acc) => f.status.Parsed? && f.silverKey && acc in s.silver
  }

  lemma {:induction false} RequeuesHold(s: State, accs: seq<Acc>, a: Acc)
    requires forall b :: b in accs ==> b in s.filings && s.filings[b].status.InProgress()
    requires a in accs
    ensures Requeue(s, a) in Requeues(s, accs)
  {
    var n := |accs| - 1;
    if a != accs[n] {
      assert a in accs[..n];
      RequeuesHold(s, accs[..n], a);
    }
  }

  /** Every filing picked has a task in the queue that can run as things stand. */
  lemma PickedCanRun(w: World, s: State, picked: seq<Acc>, a: Acc)
    requires IsOldest(s, w.limit, picked) && a in picked
    ensures var t := Apply(w, s, Reconcile(picked));
      && Requeue(s, a) in t.queue && Requeue(s, a).acc == a && CanRun(t, Requeue(s, a))
      && t.filings[a].updatedAt == t.clock
  {
    assert Retryable(s, a);
    RequeuesHold(s, picked, a);
  }

  /** A run that picks nothing leaves no stuck filing but those needing attention. */
  lemma NothingPicked(s: State, limit: nat, acc: Acc)
    requires IsOldest(s, limit, []) && 1 <= limit && Stuck(s, acc)
    ensures NEEDS_ATTENTION_FAILURES <= Failures(s, acc)
  {
    assert Retryable(s, acc) ==> acc in [];
  }

  // ---- how long a stuck filing waits -----------------------------------------------

  /** The filings the reconciler would take before `acc`. */
  ghost function Queue(s: State, acc: Acc): set<Acc> {
    set b | b in s.filings && b != acc && s.filings[b].status.InProgress()
            && Failures(s, b) < NEEDS_ATTENTION_FAILURES && Ahead(s, b, acc)
  }

  /** One step after which `acc` stands as it stood, still to be retried. */
  ghost predicate PassedBy(w: World, s: State, step: Step, acc: Acc)
    requires Enabled(w, s, step)
  {
    acc in s.filings &&
    var t := Apply(w, s, step);
    acc in t.filings && t.filings[acc] == s.filings[acc] && Failures(t, acc) < NEEDS_ATTENTION_FAILURES
  }

  ghost predicate Overlooked(w: World, s: State, steps: seq<Step>, acc: Acc)
    requires Legal(w, s, steps)
    decreases |steps|
  {
    |steps| == 0 ||
    (PassedBy(w, s, steps[0], acc) && Overlooked(w, Apply(w, s, steps[0]), steps[1..], acc))
  }

  function Reconciles(steps: seq<Step>): nat {
    if |steps| == 0 then 0 else (if steps[0].Reconcile? then 1 else 0) + Reconciles(steps[1..])
  }

  lemma QueueShrinks(s: State, t: State, acc: Acc)
    requires Follows(s, t) && acc in s.filings && t.filings[acc] == s.filings[acc]
    requires s.filings[acc].updatedAt < s.clock
    ensures Queue(t, acc) <= Queue(s, acc)
  {
    forall b | b in Queue(t, acc) ensures b in Queue(s, acc) { FailuresGrow(s, t, b); }
  }

  lemma SeqSize(accs: seq<Acc>)
    requires Distinct(accs)
    ensures |set a | a in accs| == |accs|
  {
    var all := set a | a in accs;
    if |accs| > 0 {
      var n := |accs| - 1;
      SeqSize(accs[..n]);
      assert all == (set a | a in accs[..n]) + {accs[n]};
    } else {
      assert all == {};
    }
  }

  lemma PickedWereAhead(s: State, limit: nat, picked: seq<Acc>, acc: Acc, a: Acc)
    requires IsOldest(s, limit, picked) && Retryable(s, acc) && acc !in picked && a in picked
    ensures a in Queue(s, acc) && a in s.filings && s.filings[a].status.InProgress()
  {
    assert Retryable(s, a) && Ahead(s, a, acc);
  }

  lemma PickedMoveBack(s: State, picked: seq<Acc>, acc: Acc, a: Acc)
    requires forall b :: b in picked ==> b in s.filings && s.filings[b].status.InProgress()
    requires Stuck(s, acc) && acc !in picked && a in picked
    ensures a !in Queue(ApplyReconcile(s, picked), acc)
  {
    hide Failures, Requeues, Resets, Each;
  }

  /** A run that passes `acc` by takes `limit` filings out of its way. */
  lemma RunTakesLimit(s: State, limit: nat, picked: seq<Acc>, acc: Acc)
    requires IsOldest(s, limit, picked) && Retryable(s, acc) && acc !in picked
    ensures forall b :: b in picked ==> b in s.filings && s.filings[b].status.InProgress()
    ensures |Queue(ApplyReconcile(s, picked), acc)| + limit <= |Queue(s, acc)|
  {
    var taken := set a | a in picked;
    forall a | a in picked ensures a in Queue(s, acc) && a in s.filings && s.filings[a].status.InProgress() {
      PickedWereAhead(s, limit, picked, acc, a);
    }
    forall a | a in picked ensures a !in Queue(ApplyReconcile(s, picked), acc) { PickedMoveBack(s, picked, acc, a); }
    SeqSize(picked);
    BulkStepsFollow(s, picked);
    QueueShrinks(s, ApplyReconcile(s, picked), acc);
    hide Queue, ApplyReconcile, Failures;
    SubsetSize(Queue(ApplyReconcile(s, picked), acc), Queue(s, acc) - taken);
  }

  lemma PassedByStep(w: World, s: State, step: Step, acc: Acc)
    requires Enabled(w, s, step) && Retryable(s, acc) && PassedBy(w, s, step, acc)
    ensures var t := Apply(w, s, step);
      Retryable(t, acc) && |Queue(t, acc)| + (if step.Reconcile? then w.limit else 0) <= |Queue(s, acc)|
  {
    hide Queue, Failures;
    var t := Apply(w, s, step);
    StepFollows(w, s, step);
    QueueShrinks(s, t, acc);
    SubsetSize(Queue(t, acc), Queue(s, acc));
    if step.Reconcile? {
      if acc in step.picked { PickedCanRun(w, s, step.picked, acc); }
      RunTakesLimit(s, w.limit, step.picked, acc);
    }
  }

  lemma {:induction false} OverlookedBound(w: World, s: State, steps: seq<Step>, acc: Acc)
    requires Legal(w, s, steps) && Retryable(s, acc) && Overlooked(w, s, steps, acc)
    ensures Reconciles(steps) * w.limit <= |Queue(s, acc)|
    decreases |steps|
  {
    hide Enabled, Apply, Queue, Retryable, PassedBy;
    if |steps| > 0 {
      PassedByStep(w, s, steps[0], acc);
      OverlookedBound(w, Apply(w, s, steps[0]), steps[1..], acc);
    }
  }

  /** A step of the filing's own pipeline, its third failure, or a manual reset. */
  predicate OwnStep(s: State, step: Step, acc: Acc) {
    match step
    case Fetch(a) => a == acc
    case Parse(a, _) => a == acc
    case EmbedCommit(i) => i in s.attempts && s.attempts[i].acc == acc
    case GiveUp(a) => a == acc && Failures(s, acc) + 1 == NEEDS_ATTENTION_FAILURES
    case RunRecovery(plan) => acc in plan
    case _ => false
  }

  lemma FailuresAfter(s: State, kind: EventKind, a: Acc, acc: Acc)
    ensures Count(Log(s, kind, a), Event(FilingFailed, acc)) ==
            Failures(s, acc) + if kind == FilingFailed && a == acc then 1 else 0
  {
    assert Log(s, kind, a)[..|s.events|] == s.events;
  }

  lemma {:induction false} FailuresOfEach(log: seq<Event>, kind: EventKind, accs: seq<Acc>, acc: Acc)
    requires kind != FilingFailed
    ensures Count(log + Each(kind, accs), Event(FilingFailed, acc)) == Count(log, Event(FilingFailed, acc))
  {
    if |accs| == 0 {
      assert log + Each(kind, accs) == log;
    } else {
      var n := |accs| - 1;
      FailuresOfEach(log, kind, accs[..n], acc);
      assert (log + Each(kind, accs))[..|log| + n] == log + Each(kind, accs[..n]);
    }
  }

  lemma ReconcilePasses(w: World, s: State, picked: seq<Acc>, acc: Acc)
    requires IsOldest(s, w.limit, picked) && Retryable(s, acc) && acc !in picked
    ensures PassedBy(w, s, Reconcile(picked), acc)
  {
    FailuresOfEach(s.events, FilingRequeued, picked, acc);
    FailuresOfEach(s.events + Each(FilingRequeued, picked), RecoveryReset, Resets(s, picked), acc);
  }

  lemma RecoveryPasses(w: World, s: State, plan: seq<Acc>, acc: Acc)
    requires plan in s.plans && Retryable(s, acc) && acc !in plan
    ensures PassedBy(w, s, RunRecovery(plan), acc)
  {
    FailuresOfEach(s.events, RecoveryReset, plan, acc);
  }

  predicate LogsOne(step: Step) {
    step.Discover? || step.Fetch? || step.Parse? || step.EmbedCommit? || step.GiveUp?
  }

  lemma OneEventPasses(w: World, s: State, step: Step, acc: Acc)
    requires Enabled(w, s, step) && Retryable(s, acc) && LogsOne(step) && !OwnStep(s, step, acc)
    ensures PassedBy(w, s, step, acc)
  {
    hide Count, Committed, IsOldest, ApplyReconcile, ApplyRecovery, Blocked, ApplyBegin, ApplyBatch;
    match step
    case Discover(a) => FailuresAfter(s, FilingDiscovered, a, acc);
    case Fetch(a) => FailuresAfter(s, FilingFetched, a, acc);
    case Parse(a, accepted) => FailuresAfter(s, if accepted then FilingParsed else ParseFailed, a, acc);
    case EmbedCommit(i) => FailuresAfter(s, FilingEmbedded, s.attempts[i].acc, acc);
    case GiveUp(a) => FailuresAfter(s, FilingFailed, a, acc);
  }

  lemma StepsPass(w: World, s: State, step: Step, acc: Acc)
    requires Enabled(w, s, step) && Retryable(s, acc) && !OwnStep(s, step, acc)
    requires step.Reconcile? ==> acc !in step.picked
    ensures PassedBy(w, s, step, acc)
  {
    if step.Reconcile? {
      ReconcilePasses(w, s, step.picked, acc);
    } else if step.RunRecovery? {
      RecoveryPasses(w, s, step.plan, acc);
    } else if LogsOne(step) {
      OneEventPasses(w, s, step, acc);
    } else {
      hide Count, IsOldest, ApplyReconcile, ApplyRecovery, ApplyDiscover, ApplyFetch, ApplyParse, ApplyCommit, Blocked;
      assert Apply(w, s, step).filings == s.filings && Apply(w, s, step).events == s.events;
    }
  }

  /**
   * A stuck filing with k retryable ones ahead of it is re-queued by the
   * reconciler's run number k / limit + 1, in whatever else happens meanwhile,
   * unless before that a step of its own gets through: if that many runs take
   * place, one of the steps up to then is the run that picks it, or its own.
   */
  lemma {:induction false} RequeuedInTurn(w: World, s: State, steps: seq<Step>, acc: Acc) returns (n: nat)
    requires Legal(w, s, steps) && Retryable(s, acc) && 1 <= w.limit
    requires |Queue(s, acc)| / w.limit < Reconciles(steps)
    ensures n < |steps| && Reconciles(steps[..n]) <= |Queue(s, acc)| / w.limit
    ensures Legal(w, s, steps[..n]) && Overlooked(w, s, steps[..n], acc)
    ensures OwnStep(Run(w, s, steps[..n]), steps[n], acc) || (steps[n].Reconcile? && acc in steps[n].picked)
  {
    n := FirstTouch(w, s, steps, acc);
    OverlookedBound(w, s, steps[..n], acc);
    if n == |steps| {
      assert steps[..n] == steps;
    }
    QuotientBound(Reconciles(steps[..n]), w.limit, |Queue(s, acc)|);
  }

  lemma QuotientBound(r: nat, limit: nat, k: nat)
    requires 1 <= limit && r * limit <= k
    ensures r <= k / limit
  {
    var q := k / limit;
    assert k < (q + 1) * limit;
    assert q + 1 <= r ==> (q + 1) * limit <= r * limit by { MulMonotone(q + 1, r, limit); }
  }

  lemma MulMonotone(a: nat, b: nat, c: nat)
    ensures a <= b ==> a * c <= b * c
  {
  }

  /** How far the run goes before something touches the filing. */
  lemma {:induction false} FirstTouch(w: World, s: State, steps: seq<Step>, acc: Acc) returns (n: nat)
    requires Legal(w, s, steps) && Retryable(s, acc)
    ensures n <= |steps| && Legal(w, s, steps[..n]) && Overlooked(w, s, steps[..n], acc)
    ensures n < |steps| ==>
      OwnStep(Run(w, s, steps[..n]), steps[n], acc) || (steps[n].Reconcile? && acc in steps[n].picked)
    decreases |steps|
  {
    hide Enabled, Apply, Retryable, PassedBy, OwnStep;
    if |steps| == 0 || OwnStep(s, steps[0], acc) || (steps[0].Reconcile? && acc in steps[0].picked) {
      n := 0;
      assert steps[..0] == [];
    } else {
      var t := Apply(w, s, steps[0]);
      StepsPass(w, s, steps[0], acc);
      PassedByStep(w, s, steps[0], acc);
      var m := FirstTouch(w, t, steps[1..], acc);
      n := m + 1;
      assert steps[..n][1..] == steps[1..][..m] && steps[..n][0] == steps[0];
    }
  }

  // ---- the choice is always possible and unique ----------------------------------

  /** Primary keys: no two filings share one, and the sequence is past them all. */
  ghost predicate FilingIdsApart(s: State) {
    && (forall a :: a in s.filings ==> s.filings[a].id < s.nextFiling)
    && (forall a, b :: a in s.filings && b in s.filings && a != b ==> s.filings[a].id != s.filings[b].id)
  }

  /** No new row, and every row keeps its id. */
  ghost predicate SameIds(s: State, t: State) {
    s.nextFiling <= t.nextFiling && forall a :: a in t.filings ==> a in s.filings && t.filings[a].id == s.filings[a].id
  }

  lemma DiscoverKeepsFilingIds(s: State, acc: Acc)
    requires FilingIdsApart(s)
    ensures FilingIdsApart(ApplyDiscover(s, acc))
  {
  }

  lemma FilingStepsKeepIds(s: State, acc: Acc, accepted: bool)
    requires acc in s.filings
    ensures SameIds(s, ApplyFetch(s, acc)) && SameIds(s, ApplyParse(s, acc, accepted))
  {
  }

  lemma CommitKeepsIds(s: State, i: nat)
    requires i in s.attempts && s.attempts[i].acc in s.filings
    ensures SameIds(s, ApplyCommit(s, i))
  {
    hide Committed;
  }

  lemma BulkStepsKeepIds(s: State, accs: seq<Acc>)
    ensures SameIds(s, ApplyRecovery(s, accs))
    ensures (forall a :: a in accs ==> a in s.filings && s.filings[a].status.InProgress()) ==>
              SameIds(s, ApplyReconcile(s, accs))
  {
  }

  lemma SameIdsKeepApart(s: State, t: State)
    requires FilingIdsApart(s) && SameIds(s, t)
    ensures FilingIdsApart(t)
  {
  }

  lemma StepKeepsSameIds(w: World, s: State, step: Step)
    requires Enabled(w, s, step) && !step.Discover?
    ensures SameIds(s, Apply(w, s, step))
  {
    hide ApplyFetch, ApplyParse, ApplyCommit, ApplyReconcile, ApplyRecovery, Blocked, Upserted,
         RowsSeen, Inserts, Failures, IsOldest;
    match step
    case Fetch(acc) => FilingStepsKeepIds(s, acc, true);
    case Parse(acc, accepted) => FilingStepsKeepIds(s, acc, accepted);
    case EmbedCommit(i) => CommitKeepsIds(s, i);
    case Reconcile(picked) =>
      PickedInProgress(s, w.limit, picked);
      BulkStepsKeepIds(s, picked);
    case RunRecovery(plan) => BulkStepsKeepIds(s, plan);
    case _ =>
  }

  lemma StepKeepsFilingIds(w: World, s: State, step: Step)
    requires FilingIdsApart(s) && Enabled(w, s, step)
    ensures FilingIdsApart(Apply(w, s, step))
  {
    if step.Discover? {
      DiscoverKeepsFilingIds(s, step.acc);
    } else {
      StepKeepsSameIds(w, s, step);
      hide Apply, Enabled;
      SameIdsKeepApart(s, Apply(w, s, step));
    }
  }

  lemma {:induction false} RunKeepsFilingIds(w: World, s: State, steps: seq<Step>)
    requires FilingIdsApart(s) && Legal(w, s, steps)
    ensures FilingIdsApart(Run(w, s, steps))
    decreases |steps|
  {
    if |steps| > 0 {
      StepKeepsFilingIds(w, s, steps[0]);
      hide Enabled, Apply, FilingIdsApart;
      RunKeepsFilingIds(w, Apply(w, s, steps[0]), steps[1..]);
    }
  }

  method OldestOf(s: State, cands: set<Acc>) returns (a: Acc)
    requires FilingIdsApart(s) && cands != {} && forall c :: c in cands ==> c in s.filings
    ensures a in cands && forall c :: c in cands && c != a ==> Ahead(s, a, c)
  {
    a :| a in cands;
    var left := cands - {a};
    while left != {}
      invariant left <= cands && a in cands && a !in left
      invariant forall c :: c in cands && c !in left && c != a ==> Ahead(s, a, c)
      decreases |left|
    {
      var b :| b in left;
      left := left - {b};
      if Older(s.filings[b], s.filings[a]) {
        a := b;
      }
    }
  }

  ghost predicate Sorted(s: State, picked: seq<Acc>, rest: set<Acc>) {
    && Distinct(picked)
    && (forall i, j :: 0 <= i < j < |picked| ==> Ahead(s, picked[i], picked[j]))
    && (forall i, b :: 0 <= i < |picked| && b in rest ==> Ahead(s, picked[i], b))
  }

  /** ORDER BY updated_at, id LIMIT limit, over the retryable filings. */
  method PickOldest(s: State, limit: nat) returns (picked: seq<Acc>)
    requires FilingIdsApart(s)
    ensures IsOldest(s, limit, picked)
  {
    var all := RetryableSet(s);
    var rest := all;
    picked := [];
    while |picked| < limit && rest != {}
      invariant |picked| <= limit && rest <= all && Sorted(s, picked, rest)
      invariant forall a :: a in picked <==> a in all && a !in rest
      decreases |rest|
    {
      hide Retryable;
      var a := OldestOf(s, rest);
      rest := rest - {a};
      picked := picked + [a];
    }
  }
}
