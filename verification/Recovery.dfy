/**
 * The reconciler and the manual recovery as they run over the store: which
 * filings restart, from where, and what each transaction writes.
 */
module Recovery {
  import opened Pipeline
  import opened Reconciler
  import opened Sets
  import opened Worker
  import Reconciliation

  datatype ReconcileResult = ReconcileResult(requeued: seq<Acc>, reset: seq<Acc>, needsAttention: nat, remaining: nat)

  function NeedingAttention(s: State): set<Acc> {
    set acc | acc in s.filings && Stuck(s, acc) && NEEDS_ATTENTION_FAILURES <= Failures(s, acc)
  }

  lemma ReconcileSound(w: World, s: State, picked: seq<Acc>)
    requires Sound(w, s) && IsOldest(s, w.limit, picked)
    ensures forall a :: a in picked ==> a in s.filings && s.filings[a].status.InProgress()
    ensures Sound(w, ApplyReconcile(s, picked))
  {
    PickedInProgress(s, w.limit, picked);
    hide Sound, IsOldest;
    StepKeepsSound(w, s, Reconcile(picked));
  }

  lemma PickedAreRetryable(s: State, limit: nat, picked: seq<Acc>)
    requires IsOldest(s, limit, picked)
    ensures |picked| <= |RetryableSet(s)|
  {
    var taken := set a | a in picked;
    SeqSize(picked);
    SubsetSize(taken, RetryableSet(s));
  }

  function ResetRows(filings: map<Acc, Filing>, accs: seq<Acc>, now: int): map<Acc, Filing> {
    map a | a in filings :: if a in accs then Reset(filings[a], now) else filings[a]
  }

  /** The listed rows are at DISCOVERED, dated now, with the keys they had; the others are as they were. */
  ghost predicate SentBack(before: map<Acc, Filing>, after: map<Acc, Filing>, accs: seq<Acc>, now: int) {
    && after.Keys == before.Keys
    && forall a :: a in before ==>
         after[a] == if a in accs then Filing(before[a].id, Discovered, before[a].bronzeKey, before[a].silverKey, now)
                     else before[a]
  }

  /** A recovery_reset event for each of the list, in its order. */
  ghost predicate ResetsLogged(before: seq<Event>, after: seq<Event>, accs: seq<Acc>) {
    && |after| == |before| + |accs| && before <= after
    && forall i :: 0 <= i < |accs| ==> after[|before| + i] == Event(RecoveryReset, accs[i])
  }

  /** One bulk UPDATE, and one event for each filing in the list. */
  method ResetToDiscovered(store: Store, resets: seq<Acc>)
    modifies store`filings, store`events
    ensures store.filings == ResetRows(old(store.filings), resets, store.clock)
    ensures store.events == old(store.events) + Each(RecoveryReset, resets)
    ensures SentBack(old(store.filings), store.filings, resets, store.clock)
    ensures ResetsLogged(old(store.events), store.events, resets)
  {
    store.filings := ResetRows(store.filings, resets, store.clock);
    for k := 0 to |resets|
      invariant store.events == old(store.events) + Each(RecoveryReset, resets[..k])
      invariant store.filings == ResetRows(old(store.filings), resets, store.clock)
    {
      store.Emit(RecoveryReset, resets[k]);
      assert Each(RecoveryReset, resets[..k + 1]) ==
             Each(RecoveryReset, resets[..k]) + [Event(RecoveryReset, resets[k])];
    }
    assert resets[..|resets|] == resets;
  }

  /** The task each picked filing restarts from is the one the model enqueues. */
  ghost predicate Restarts(s: State, picked: seq<Acc>, toEnqueue: seq<(Acc, Status)>)
    requires forall a :: a in picked ==> a in s.filings && s.filings[a].status.InProgress()
  {
    |toEnqueue| == |picked| && forall k :: 0 <= k < |picked| ==>
      toEnqueue[k].1.InProgress() && NextStep(toEnqueue[k].1, toEnqueue[k].0) == Requeue(s, picked[k])
  }

  lemma ResetsNext(s: State, picked: seq<Acc>, k: nat)
    requires k < |picked| && forall a :: a in picked ==> a in s.filings
    ensures Resets(s, picked[..k + 1]) ==
            Resets(s, picked[..k]) + if MissingInput(s, picked[k]) then [picked[k]] else []
  {
    assert picked[..k + 1][..k] == picked[..k];
  }

  lemma NothingYet(s: State, picked: seq<Acc>)
    requires forall a :: a in picked ==> a in s.filings && s.filings[a].status.InProgress()
    ensures Resets(s, picked[..0]) == [] && Restarts(s, picked[..0], [])
  {
  }

  lemma RestartsNext(s: State, picked: seq<Acc>, k: nat, toEnqueue: seq<(Acc, Status)>)
    requires forall a :: a in picked ==> a in s.filings && s.filings[a].status.InProgress()
    requires k < |picked| && Restarts(s, picked[..k], toEnqueue)
    ensures var status := if MissingInput(s, picked[k]) then Discovered else s.filings[picked[k]].status;
      Restarts(s, picked[..k + 1], toEnqueue + [(picked[k], status)])
  {
  }

  method ClassifyPicked(store: Store, picked: seq<Acc>) returns (toEnqueue: seq<(Acc, Status)>, resets: seq<Acc>)
    requires forall a :: a in picked ==> a in store.filings && store.filings[a].status.InProgress()
    modifies store`events
    ensures resets == Resets(old(store.Snapshot()), picked) && Restarts(old(store.Snapshot()), picked, toEnqueue)
    ensures store.events == old(store.events) + Each(FilingRequeued, picked)
  {
    hide Resets, Restarts, Requeue, Failures;
    ghost var s := store.Snapshot();
    toEnqueue, resets := [], [];
    NothingYet(s, picked);
    for k := 0 to |picked|
      invariant resets == Resets(s, picked[..k]) && Restarts(s, picked[..k], toEnqueue)
      invariant store.events == old(store.events) + Each(FilingRequeued, picked[..k])
    {
      var acc := picked[k];
      ResetsNext(s, picked, k);
      RestartsNext(s, picked, k, toEnqueue);
      assert Each(FilingRequeued, picked[..k + 1]) == Each(FilingRequeued, picked[..k]) + [Event(FilingRequeued, acc)];
      if MissingInput(store.Snapshot(), acc) {
        resets := resets + [acc];
        toEnqueue := toEnqueue + [(acc, Discovered)];
      } else {
        toEnqueue := toEnqueue + [(acc, store.filings[acc].status)];
      }
      store.Emit(FilingRequeued, acc);
    }
    assert picked[..|picked|] == picked;
  }

  method EnqueueNext(store: Store, toEnqueue: seq<(Acc, Status)>, ghost s: State, ghost picked: seq<Acc>)
    requires forall a :: a in picked ==> a in s.filings && s.filings[a].status.InProgress()
    requires Restarts(s, picked, toEnqueue)
    modifies store`queue
    ensures store.queue == old(store.queue) + Requeues(s, picked)
  {
    for k := 0 to |toEnqueue|
      invariant store.queue == old(store.queue) + Requeues(s, picked[..k])
    {
      assert picked[..k + 1][..k] == picked[..k];
      store.queue := store.queue + multiset{NextStep(toEnqueue[k].1, toEnqueue[k].0)};
    }
    assert picked[..|picked|] == picked;
  }

  /** The explicit updated_at on every filing picked, reset or not. */
  lemma RowsAfter(s: State, picked: seq<Acc>, after: map<Acc, Filing>)
    requires forall a :: a in picked ==> a in s.filings && s.filings[a].status.InProgress()
    requires var reset := ResetRows(s.filings, Resets(s, picked), s.clock);
      after == map a | a in reset :: if a in picked then reset[a].(updatedAt := s.clock) else reset[a]
    ensures after == ApplyReconcile(s, picked).filings
  {
  }

  /** The transaction on the filings picked, and their tasks once it has committed. */
  method RestartPicked(store: Store, picked: seq<Acc>) returns (resets: seq<Acc>)
    requires forall a :: a in picked ==> a in store.filings && store.filings[a].status.InProgress()
    modifies store
    ensures store.Snapshot() == ApplyReconcile(old(store.Snapshot()), picked)
    ensures resets == Resets(old(store.Snapshot()), picked)
  {
    hide Requeues, Restarts, Resets, ResetRows, Each;
    ghost var s := store.Snapshot();
    var toEnqueue;
    toEnqueue, resets := ClassifyPicked(store, picked);
    ResetToDiscovered(store, resets);
    store.filings := map a | a in store.filings ::
      if a in picked then store.filings[a].(updatedAt := store.clock) else store.filings[a];
    RowsAfter(s, picked, store.filings);
    EnqueueNext(store, toEnqueue, s, picked);
  }

  /** Left alone for three or more failures; and waiting, but over this run's cap. */
  ghost predicate Counted(s: State, result: ReconcileResult) {
    && result.needsAttention ==
         |set a | a in s.filings && Reconciliation.Stalled(s, a) && 3 <= Reconciliation.FailedEvents(s, a)|
    && result.remaining + |result.requeued| == |set a | a in s.filings && Reconciliation.Waits(s, a)|
  }

  lemma CountsMean(s: State)
    ensures NeedingAttention(s) ==
              set a | a in s.filings && Reconciliation.Stalled(s, a) && 3 <= Reconciliation.FailedEvents(s, a)
    ensures RetryableSet(s) == set a | a in s.filings && Reconciliation.Waits(s, a)
  {
    forall a | a in s.filings
      ensures a in NeedingAttention(s) <==> Reconciliation.Stalled(s, a) && 3 <= Reconciliation.FailedEvents(s, a)
      ensures a in RetryableSet(s) <==> Reconciliation.Waits(s, a)
    {
      Reconciliation.WaitingMeans(s, a);
    }
  }

  /** One run of the reconciler. */
  method ReconcileStuckFilings(store: Store) returns (result: ReconcileResult)
    requires store.Valid()
    modifies store
    ensures store.Valid()
    ensures IsOldest(old(store.Snapshot()), store.world.limit, result.requeued)
    ensures forall a :: a in result.requeued ==>
      a in old(store.filings) && old(store.filings)[a].status.InProgress()
    ensures store.Snapshot() == ApplyReconcile(old(store.Snapshot()), result.requeued)
    ensures Reconciliation.Restarts(old(store.Snapshot()), store.Snapshot(), store.world.limit, result.requeued,
                                    result.reset)
    ensures Counted(old(store.Snapshot()), result)
    ensures result.reset == Resets(old(store.Snapshot()), result.requeued)
    ensures result.needsAttention == |NeedingAttention(old(store.Snapshot()))|
    ensures result.remaining == |RetryableSet(old(store.Snapshot()))| - |result.requeued|
  {
    var picked := PickOldest(store.Snapshot(), store.world.limit);
    ReconcileSound(store.world, store.Snapshot(), picked);
    PickedAreRetryable(store.Snapshot(), store.world.limit, picked);
    Reconciliation.RunRestarts(store.Snapshot(), store.world.limit, picked);
    CountsMean(store.Snapshot());
    hide Sound, IsOldest, RetryableSet, NeedingAttention, ApplyReconcile, Resets, Reconciliation.Restarts;
    var totalRetryable := |RetryableSet(store.Snapshot())|;
    var needsAttention := |NeedingAttention(store.Snapshot())|;
    var resets := RestartPicked(store, picked);
    result := ReconcileResult(picked, resets, needsAttention, totalRetryable - |picked|);
  }

  // ---- the manual recovery ---------------------------------------------------------

  predicate BronzeIntact(s: State, acc: Acc)
    requires acc in s.filings
  {
    s.filings[acc].bronzeKey && acc in s.bronze
  }

  /** The dry run: every filing in progress, by whether its bronze file is there. */
  method ClassifyRows(store: Store) returns (intact: seq<Acc>, reset: seq<Acc>)
    ensures Distinct(reset) && forall a :: a in reset <==>
      a in store.filings && store.filings[a].status.InProgress() && !BronzeIntact(store.Snapshot(), a)
    ensures forall a :: a in intact <==>
      a in store.filings && store.filings[a].status.InProgress() && BronzeIntact(store.Snapshot(), a)
    ensures forall a :: a in reset || a in intact <==>
      a in store.filings && store.filings[a].status in {Discovered, Fetched, Parsed}
    ensures forall a :: a in intact ==> store.filings[a].bronzeKey && a in store.bronze
    ensures forall a :: a in reset ==> !(store.filings[a].bronzeKey && a in store.bronze)
  {
    var s := store.Snapshot();
    var all := set a | a in s.filings && s.filings[a].status.InProgress();
    var rest := all;
    intact, reset := [], [];
    while rest != {}
      invariant rest <= all && Distinct(reset)
      invariant forall a :: a in intact <==> a in all && a !in rest && BronzeIntact(s, a)
      invariant forall a :: a in reset <==> a in all && a !in rest && !BronzeIntact(s, a)
      decreases |rest|
    {
      var acc :| acc in rest;
      rest := rest - {acc};
      if BronzeIntact(s, acc) {
        intact := intact + [acc];
      } else {
        reset := reset + [acc];
      }
    }
  }

  /** The plan the real run works from, whenever that comes. */
  method PlanRecoveryOf(store: Store) returns (intact: seq<Acc>, reset: seq<Acc>)
    requires store.Valid()
    modifies store`plans
    ensures store.Valid()
    ensures Enabled(store.world, old(store.Snapshot()), PlanRecovery(reset))
    ensures store.Snapshot() == Apply(store.world, old(store.Snapshot()), PlanRecovery(reset))
    ensures Distinct(reset) && forall a :: a in intact ==> a !in reset
  {
    intact, reset := ClassifyRows(store);
    PlanSound(store.world, store.Snapshot(), reset);
    hide Sound, Enabled, Apply;
    store.plans := store.plans + {reset};
  }

  lemma PlanSound(w: World, s: State, plan: seq<Acc>)
    requires Sound(w, s)
    requires forall a :: a in plan <==> a in s.filings && s.filings[a].status.InProgress() && !BronzeIntact(s, a)
    ensures Enabled(w, s, PlanRecovery(plan)) && Sound(w, Apply(w, s, PlanRecovery(plan)))
    ensures Apply(w, s, PlanRecovery(plan)) == s.(plans := s.plans + {plan})
  {
    hide Sound;
    StepKeepsSound(w, s, PlanRecovery(plan));
  }

  lemma RecoverySound(w: World, s: State, plan: seq<Acc>)
    requires Sound(w, s) && plan in s.plans
    ensures Sound(w, ApplyRecovery(s, plan))
  {
    hide Sound;
    StepKeepsSound(w, s, RunRecovery(plan));
  }

  /**
   * The real run, some time after the plan was read: one transaction resets
   * every filing planned, whatever its status is by now, and then the fetches
   * are enqueued in batches.
   */
  method RecoverStaleFilings(store: Store, plan: seq<Acc>, batchSize: nat)
    requires store.Valid() && plan in store.plans && 1 <= batchSize
    modifies store
    ensures store.Valid()
    ensures store.Snapshot() == ApplyRecovery(old(store.Snapshot()), plan)
    ensures SentBack(old(store.filings), store.filings, plan, store.clock)
    ensures ResetsLogged(old(store.events), store.events, plan)
    ensures FetchesFor(old(store.queue), store.queue, plan) && store.plans == old(store.plans) - {plan}
  {
    RecoverySound(store.world, store.Snapshot(), plan);
    hide Sound, Fetches, ApplyRecovery;
    ghost var s := store.Snapshot();
    ResetPlanned(store, plan);
    EnqueueInBatches(store, plan, batchSize);
    RecoveryQueue(s, plan, store.queue);
    RecoveryMeans(s, plan);
  }

  /** One fetch more for each entry of the list, and no other task. */
  ghost predicate FetchesFor(before: multiset<Task>, after: multiset<Task>, accs: seq<Acc>) {
    forall t: Task :: after[t] == before[t] + if t.FetchTask? then multiset(accs)[t.acc] else 0
  }

  lemma {:induction false} FetchesCount(accs: seq<Acc>)
    ensures FetchesFor(multiset{}, Fetches(accs), accs)
  {
    if |accs| == 0 {
      NoFetches();
      assert accs == [];
    } else {
      var n := |accs| - 1;
      FetchesCount(accs[..n]);
      FetchesAppend(accs[..n], accs[n]);
      assert accs == accs[..n] + [accs[n]];
      hide Fetches;
    }
  }

  /** The bulk reset, spelled out, whatever the statuses were. */
  lemma RecoveryMeans(s: State, plan: seq<Acc>)
    ensures var t := ApplyRecovery(s, plan);
      && SentBack(s.filings, t.filings, plan, s.clock) && ResetsLogged(s.events, t.events, plan)
      && FetchesFor(s.queue, t.queue, plan) && t.plans == s.plans - {plan}
  {
    FetchesCount(plan);
    hide Fetches;
  }

  lemma RecoveryQueue(s: State, plan: seq<Acc>, queue: multiset<Task>)
    requires queue == s.queue + Fetches(plan)
    ensures ApplyRecovery(s, plan) == ApplyRecovery(s, plan).(queue := queue)
  {
  }

  method EnqueueInBatches(store: Store, plan: seq<Acc>, batchSize: nat)
    requires 1 <= batchSize
    modifies store`queue
    ensures store.queue == old(store.queue) + Fetches(plan)
  {
    hide Fetches;
    var k := 0;
    assert plan[..0] == [];
    NoFetches();
    while k < |plan|
      invariant k <= |plan| && store.queue == old(store.queue) + Fetches(plan[..k])
      decreases |plan| - k
    {
      var stop := if k + batchSize <= |plan| then k + batchSize else |plan|;
      store.Enqueue(plan[k..stop]);
      FetchesConcat(plan[..k], plan[k..stop]);
      assert plan[..stop] == plan[..k] + plan[k..stop];
      k := stop;
    }
    assert plan[..|plan|] == plan;
  }

  method ResetPlanned(store: Store, plan: seq<Acc>)
    modifies store`filings, store`events, store`plans
    ensures store.Snapshot() == ApplyRecovery(old(store.Snapshot()), plan).(queue := store.queue)
  {
    ResetToDiscovered(store, plan);
    store.plans := store.plans - {plan};
  }

  lemma NoFetches()
    ensures Fetches([]) == multiset{}
  {
  }

  lemma {:induction false} FetchesConcat(a: seq<Acc>, b: seq<Acc>)
    ensures Fetches(a + b) == Fetches(a) + Fetches(b)
  {
    if |b| == 0 {
      assert a + b == a;
    } else {
      var n := |b| - 1;
      FetchesConcat(a, b[..n]);
      FetchesAppend(a + b[..n], b[n]);
      FetchesAppend(b[..n], b[n]);
      assert a + b == a + b[..n] + [b[n]] && b == b[..n] + [b[n]];
    }
  }
}
