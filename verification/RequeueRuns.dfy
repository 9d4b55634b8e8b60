/**
 * Runs that attain the re-queue bounds: filings whose tasks fail, and filings
 * whose tasks are lost before they start and leave no trace.
 */
module RequeueRuns {
  import opened Options
  import opened Pipeline
  import opened Reconciler
  import opened RequeueBound

  /** One filing, discovered, failed `failed` times and re-queued n times, `lost` of them unanswered. */
  ghost predicate Waiting(s: State, acc: Acc, n: nat, failed: nat, lost: nat) {
    && acc in s.filings && s.filings.Keys == {acc} && s.filings[acc].status == Discovered
    && s.filings[acc].updatedAt <= s.clock
    && Tally(s.events, acc, n, failed, lost)
  }

  ghost predicate Tally(events: seq<Event>, acc: Acc, n: nat, failed: nat, lost: nat) {
    && Count(events, Event(FilingRequeued, acc)) == n && Count(events, Event(FilingFailed, acc)) == failed
    && Unanswered(events, acc, FAILURES) == lost
  }

  /** One more re-queue, unanswered if one was open; and a failure, which closes it. */
  lemma {:induction false} TallyNext(events: seq<Event>, acc: Acc, n: nat, failed: nat, lost: nat)
    requires Tally(events, acc, n, failed, lost)
    ensures var more := events + [Event(FilingRequeued, acc)];
      && Tally(more, acc, n + 1, failed, if Open(events, acc, FAILURES) then lost + 1 else lost)
      && Open(more, acc, FAILURES)
    ensures var more := events + [Event(FilingFailed, acc)];
      Tally(more, acc, n, failed + 1, lost) && !Open(more, acc, FAILURES)
  {
    assert (events + [Event(FilingRequeued, acc)])[..|events|] == events;
    assert (events + [Event(FilingFailed, acc)])[..|events|] == events;
  }

  lemma {:induction false} Discovery(acc: Acc)
    ensures var s := ApplyDiscover(EMPTY, acc);
      Waiting(s, acc, 0, 0, 0) && !Open(s.events, acc, FAILURES) && FetchTask(acc) in s.queue
  {
    var s := ApplyDiscover(EMPTY, acc);
    assert s.events == [Event(FilingDiscovered, acc)] && s.events[..0] == EMPTY.events;
    var none := s.events[..|s.events| - 1];
    assert none == [];
    assert s.filings.Keys == {acc};
  }

  lemma {:induction false} Start(w: World, acc: Acc)
    ensures Legal(w, EMPTY, [Discover(acc)])
    ensures var s := Run(w, EMPTY, [Discover(acc)]);
      Waiting(s, acc, 0, 0, 0) && !Open(s.events, acc, FAILURES)
  {
    Discovery(acc);
    hide Waiting, Open, ApplyDiscover;
    var none: seq<Step> := [];
    assert Run(w, EMPTY, none) == EMPTY;
    RunThen(w, EMPTY, none, Discover(acc));
    assert none + [Discover(acc)] == [Discover(acc)];
    assert Apply(w, EMPTY, Discover(acc)) == ApplyDiscover(EMPTY, acc);
  }

  // ---- one round ---------------------------------------------------------------------

  lemma {:induction false} OnlyOne(s: State, limit: nat, acc: Acc)
    requires acc in s.filings && s.filings.Keys == {acc} && s.filings[acc].status == Discovered && 1 <= limit
    requires s.filings[acc].updatedAt < s.clock - STUCK_AFTER && Failures(s, acc) < NEEDS_ATTENTION_FAILURES
    ensures IsOldest(s, limit, [acc])
  {
    hide Failures;
  }

  lemma {:induction false} RequeuesOne(s: State, acc: Acc)
    requires acc in s.filings && s.filings[acc].status == Discovered
    ensures Requeues(s, [acc]) == multiset{FetchTask(acc)}
  {
    var one := [acc];
    assert one[..0] == [] && one[0] == acc && |one| - 1 == 0;
    assert Requeues(s, one[..0]) == multiset{};
  }

  lemma {:induction false} ResetsOne(s: State, acc: Acc)
    requires acc in s.filings && s.filings[acc].status == Discovered
    ensures Resets(s, [acc]) == []
  {
    var one := [acc];
    assert one[..0] == [] && one[0] == acc && |one| - 1 == 0;
    assert Resets(s, one[..0]) == [];
  }

  /** What a run over one filing that waits for its fetch writes. */
  lemma {:induction false} RequeuedFetch(s: State, acc: Acc)
    requires acc in s.filings && s.filings.Keys == {acc} && s.filings[acc].status == Discovered
    ensures var t := ApplyReconcile(s, [acc]);
      && t.filings == map[acc := s.filings[acc].(updatedAt := s.clock)] && t.clock == s.clock
      && t.events == s.events + [Event(FilingRequeued, acc)] && t.queue == s.queue + multiset{FetchTask(acc)}
  {
    var one, none: seq<Acc> := [acc], [];
    assert one == none + [acc] && one[..|one| - 1] == none;
    assert Each(FilingRequeued, one) == [Event(FilingRequeued, acc)];
    RequeuesOne(s, acc);
    ResetsOne(s, acc);
    assert Each(RecoveryReset, none) == [];
    hide Resets, Requeues, Each;
  }

  lemma {:induction false} Picked(s: State, limit: nat, acc: Acc, n: nat, failed: nat, lost: nat)
    requires Waiting(s, acc, n, failed, lost) && failed < NEEDS_ATTENTION_FAILURES && 1 <= limit
    requires s.filings[acc].updatedAt < s.clock - STUCK_AFTER
    ensures IsOldest(s, limit, [acc]) && s.filings[acc].status.InProgress()
    ensures var t := ApplyReconcile(s, [acc]);
      && Waiting(t, acc, n + 1, failed, if Open(s.events, acc, FAILURES) then lost + 1 else lost)
      && Open(t.events, acc, FAILURES) && FetchTask(acc) in t.queue
  {
    TallyFailures(s, acc, n, failed, lost);
    OnlyOne(s, limit, acc);
    RequeuedFetch(s, acc);
    hide IsOldest, ApplyReconcile;
    StillWaiting(s, ApplyReconcile(s, [acc]), acc, n, failed, lost);
  }

  lemma {:induction false} StillWaiting(s: State, t: State, acc: Acc, n: nat, failed: nat, lost: nat)
    requires Waiting(s, acc, n, failed, lost)
    requires t.filings == map[acc := s.filings[acc].(updatedAt := s.clock)] && t.clock == s.clock
    requires t.events == s.events + [Event(FilingRequeued, acc)]
    ensures Waiting(t, acc, n + 1, failed, if Open(s.events, acc, FAILURES) then lost + 1 else lost)
    ensures Open(t.events, acc, FAILURES)
  {
    TallyNext(s.events, acc, n, failed, lost);
    hide Tally, Open;
  }

  lemma {:induction false} TallyFailures(s: State, acc: Acc, n: nat, failed: nat, lost: nat)
    requires Tally(s.events, acc, n, failed, lost)
    ensures Failures(s, acc) == failed
  {
  }

  /** Half an hour passes and the reconciler re-queues the fetch, which then ends as `ending` says. */
  function Round(acc: Acc, ending: Step): seq<Step> {
    [Tick(STUCK_AFTER + 1), Reconcile([acc]), ending]
  }

  lemma {:induction false} RoundIs(w: World, s: State, acc: Acc, ending: Step, t: State, u: State, v: State)
    requires t == s.(clock := s.clock + STUCK_AFTER + 1)
    requires Enabled(w, t, Reconcile([acc])) && Apply(w, t, Reconcile([acc])) == u
    requires Enabled(w, u, ending) && Apply(w, u, ending) == v
    ensures Legal(w, s, Round(acc, ending)) && Run(w, s, Round(acc, ending)) == v
  {
    assert Enabled(w, s, Tick(STUCK_AFTER + 1)) && Apply(w, s, Tick(STUCK_AFTER + 1)) == t;
    hide Apply, Enabled;
    var none: seq<Step> := [];
    assert Run(w, s, none) == s;
    RunThen(w, s, none, Tick(STUCK_AFTER + 1));
    RunThen(w, s, none + [Tick(STUCK_AFTER + 1)], Reconcile([acc]));
    RunThen(w, s, none + [Tick(STUCK_AFTER + 1)] + [Reconcile([acc])], ending);
    assert none + [Tick(STUCK_AFTER + 1)] + [Reconcile([acc])] + [ending] == Round(acc, ending);
  }

  /** The fetch fails for good, and says so. */
  lemma {:induction false} FailedRound(w: World, s: State, acc: Acc, n: nat, failed: nat, lost: nat)
    requires Waiting(s, acc, n, failed, lost) && failed < NEEDS_ATTENTION_FAILURES && 1 <= w.limit
    requires !Open(s.events, acc, FAILURES)
    ensures Legal(w, s, Round(acc, GiveUp(acc)))
    ensures var v := Run(w, s, Round(acc, GiveUp(acc)));
      Waiting(v, acc, n + 1, failed + 1, lost) && !Open(v.events, acc, FAILURES)
  {
    hide Tally, Open, ApplyReconcile, IsOldest, Legal, Run, Failures, Blocked;
    var t := s.(clock := s.clock + STUCK_AFTER + 1);
    Picked(t, w.limit, acc, n, failed, lost);
    var u := ApplyReconcile(t, [acc]);
    TallyNext(u.events, acc, n + 1, failed, lost);
    var v := u.(events := Log(u, FilingFailed, acc));
    RoundIs(w, s, acc, GiveUp(acc), t, u, v);
  }

  /** The fetch is lost before it starts. */
  lemma {:induction false} LostRound(w: World, s: State, acc: Acc, n: nat, failed: nat, lost: nat)
    requires Waiting(s, acc, n, failed, lost) && failed < NEEDS_ATTENTION_FAILURES && 1 <= w.limit
    ensures Legal(w, s, Round(acc, Drop(FetchTask(acc))))
    ensures var v := Run(w, s, Round(acc, Drop(FetchTask(acc))));
      && Waiting(v, acc, n + 1, failed, if Open(s.events, acc, FAILURES) then lost + 1 else lost)
      && Open(v.events, acc, FAILURES)
  {
    hide Tally, Open, ApplyReconcile, IsOldest, Legal, Run, Failures, Blocked;
    var t := s.(clock := s.clock + STUCK_AFTER + 1);
    Picked(t, w.limit, acc, n, failed, lost);
    var u := ApplyReconcile(t, [acc]);
    var v := u.(queue := u.queue - multiset{FetchTask(acc)});
    RoundIs(w, s, acc, Drop(FetchTask(acc)), t, u, v);
  }

  // ---- whole runs ----------------------------------------------------------------------

  lemma {:induction false} FailedRuns(w: World, acc: Acc, failed: nat) returns (steps: seq<Step>)
    requires 1 <= w.limit && failed <= NEEDS_ATTENTION_FAILURES
    ensures Legal(w, EMPTY, steps)
    ensures var s := Run(w, EMPTY, steps); Waiting(s, acc, failed, failed, 0) && !Open(s.events, acc, FAILURES)
  {
    hide Legal, Run, Waiting, Open;
    if failed == 0 {
      steps := [Discover(acc)];
      Start(w, acc);
    } else {
      steps := FailedRuns(w, acc, failed - 1);
      FailedRound(w, Run(w, EMPTY, steps), acc, failed - 1, failed - 1, 0);
      RunAppend(w, EMPTY, steps, Round(acc, GiveUp(acc)));
      steps := steps + Round(acc, GiveUp(acc));
    }
  }

  /** After `failed` answered re-queues, `more` of which only the first is not unanswered. */
  lemma {:induction false} LostRuns(w: World, acc: Acc, failed: nat, more: nat) returns (steps: seq<Step>)
    requires 1 <= w.limit && failed < NEEDS_ATTENTION_FAILURES && 1 <= more
    ensures Legal(w, EMPTY, steps)
    ensures var s := Run(w, EMPTY, steps);
      Waiting(s, acc, failed + more, failed, more - 1) && Open(s.events, acc, FAILURES)
    decreases more
  {
    hide Legal, Run, Waiting, Open;
    if more == 1 {
      steps := FailedRuns(w, acc, failed);
      LostRound(w, Run(w, EMPTY, steps), acc, failed, failed, 0);
    } else {
      steps := LostRuns(w, acc, failed, more - 1);
      LostRound(w, Run(w, EMPTY, steps), acc, failed + more - 1, failed, more - 2);
    }
    RunAppend(w, EMPTY, steps, Round(acc, Drop(FetchTask(acc))));
    steps := steps + Round(acc, Drop(FetchTask(acc)));
  }

  /** The bound is attained, whatever the number of unanswered re-queues. */
  lemma {:induction false} BoundIsTight(w: World, acc: Acc, lost: nat) returns (steps: seq<Step>)
    requires 1 <= w.limit
    ensures Legal(w, EMPTY, steps)
    ensures var events := Run(w, EMPTY, steps).events;
      && Unanswered(events, acc, FAILURES) == lost
      && Count(events, Event(FilingRequeued, acc)) == NEEDS_ATTENTION_FAILURES + lost
  {
    hide Legal, Run, Open, Unanswered, Count;
    steps := LostRuns(w, acc, NEEDS_ATTENTION_FAILURES - 1, lost + 1);
  }

  /**
   * A filing whose every task is lost before it starts records no failure, and
   * is re-queued any number of times.
   */
  lemma {:induction false} LostTasksRequeueForever(w: World, acc: Acc, n: nat) returns (steps: seq<Step>)
    requires 1 <= w.limit
    ensures Legal(w, EMPTY, steps)
    ensures var events := Run(w, EMPTY, steps).events;
      Count(events, Event(FilingRequeued, acc)) == n && Count(events, Event(FilingFailed, acc)) == 0
  {
    hide Legal, Run, Open, Unanswered, Count;
    if n == 0 {
      steps := FailedRuns(w, acc, 0);
    } else {
      steps := LostRuns(w, acc, 0, n);
    }
  }
}
