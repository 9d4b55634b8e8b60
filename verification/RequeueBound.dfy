/**
 * How often the reconciler re-queues one filing, and how many of its runs find
 * anything to do: three times, and once more for each re-queue the pipeline
 * never answered.
 */
module RequeueBound {
  import opened Options
  import opened Pipeline
  import opened Reconciler

  /** Whenever a filing was re-queued it had failed fewer than three times. */
  ghost predicate RequeuedEarly(events: seq<Event>) {
    forall i :: 0 <= i < |events| && events[i].kind == FilingRequeued ==>
      Count(events[..i], Event(FilingFailed, events[i].acc)) < NEEDS_ATTENTION_FAILURES
  }

  lemma {:induction false} EachRequeuedEarly(log: seq<Event>, accs: seq<Acc>)
    requires RequeuedEarly(log)
    requires forall a :: a in accs ==> Count(log, Event(FilingFailed, a)) < NEEDS_ATTENTION_FAILURES
    ensures RequeuedEarly(log + Each(FilingRequeued, accs))
  {
    var all := log + Each(FilingRequeued, accs);
    forall i | 0 <= i < |all| && all[i].kind == FilingRequeued
      ensures Count(all[..i], Event(FilingFailed, all[i].acc)) < NEEDS_ATTENTION_FAILURES
    {
      if i < |log| {
        assert all[..i] == log[..i] && all[i] == log[i];
      } else {
        var n := i - |log|;
        assert all[..i] == log + Each(FilingRequeued, accs[..n]);
        FailuresOfEach(log, FilingRequeued, accs[..n], accs[n]);
      }
    }
  }

  /** Adding events that are not re-queues. */
  lemma MoreKeepsEarly(log: seq<Event>, more: seq<Event>)
    requires RequeuedEarly(log) && forall i :: 0 <= i < |more| ==> more[i].kind != FilingRequeued
    ensures RequeuedEarly(log + more)
  {
    var all := log + more;
    assert forall i :: |log| <= i < |all| ==> all[i].kind == more[i - |log|].kind;
    forall i | 0 <= i < |all| && all[i].kind == FilingRequeued
      ensures Count(all[..i], Event(FilingFailed, all[i].acc)) < NEEDS_ATTENTION_FAILURES
    {
      assert all[..i] == log[..i] && all[i] == log[i];
    }
  }

  lemma NoneKeepsEarly(s: State, t: State)
    requires RequeuedEarly(s.events) && NoneRequeued(s, t)
    ensures RequeuedEarly(t.events)
  {
    assert t.events == s.events + t.events[|s.events|..];
    MoreKeepsEarly(s.events, t.events[|s.events|..]);
  }

  lemma ReconcileKeepsEarly(s: State, limit: nat, picked: seq<Acc>)
    requires RequeuedEarly(s.events) && IsOldest(s, limit, picked)
    ensures forall a :: a in picked ==> a in s.filings && s.filings[a].status.InProgress()
    ensures RequeuedEarly(ApplyReconcile(s, picked).events)
  {
    forall a | a in picked ensures Failures(s, a) < NEEDS_ATTENTION_FAILURES { assert Retryable(s, a); }
    EachRequeuedEarly(s.events, picked);
    MoreKeepsEarly(s.events + Each(FilingRequeued, picked), Each(RecoveryReset, Resets(s, picked)));
  }

  lemma StepKeepsEarly(w: World, s: State, step: Step)
    requires RequeuedEarly(s.events) && Enabled(w, s, step)
    ensures RequeuedEarly(Apply(w, s, step).events)
  {
    hide RequeuedEarly, Count, Committed, IsOldest, Blocked, ApplyReconcile, Upserted, RowsSeen;
    if step.Reconcile? {
      ReconcileKeepsEarly(s, w.limit, step.picked);
    } else {
      OthersRequeueNone(w, s, step);
      NoneKeepsEarly(s, Apply(w, s, step));
    }
  }

  /** Nothing the log gained is a re-queue. */
  ghost predicate NoneRequeued(s: State, t: State) {
    s.events <= t.events && forall i :: |s.events| <= i < |t.events| ==> t.events[i].kind != FilingRequeued
  }

  lemma TransactionsRequeueNone(s: State, acc: Acc, accepted: bool)
    ensures NoneRequeued(s, ApplyDiscover(s, acc))
    ensures acc in s.filings ==> NoneRequeued(s, ApplyFetch(s, acc)) && NoneRequeued(s, ApplyParse(s, acc, accepted))
    ensures forall i :: i in s.attempts && s.attempts[i].acc in s.filings ==> NoneRequeued(s, ApplyCommit(s, i))
    ensures forall plan :: NoneRequeued(s, ApplyRecovery(s, plan))
  {
    hide Committed, Fetches;
  }

  lemma OthersRequeueNone(w: World, s: State, step: Step)
    requires Enabled(w, s, step) && !step.Reconcile?
    ensures NoneRequeued(s, Apply(w, s, step))
  {
    hide ApplyDiscover, ApplyFetch, ApplyParse, ApplyCommit, ApplyReconcile, ApplyRecovery, Blocked, Upserted, IsOldest,
         RowsSeen, Inserts, Failures;
    match step
    case Discover(acc) => TransactionsRequeueNone(s, acc, true);
    case Fetch(acc) => TransactionsRequeueNone(s, acc, true);
    case Parse(acc, accepted) => TransactionsRequeueNone(s, acc, accepted);
    case EmbedCommit(i) => TransactionsRequeueNone(s, "", true);
    case RunRecovery(plan) => TransactionsRequeueNone(s, "", true);
    case _ =>
  }

  lemma {:induction false} RunKeepsEarly(w: World, s: State, steps: seq<Step>)
    requires RequeuedEarly(s.events) && Legal(w, s, steps)
    ensures RequeuedEarly(Run(w, s, steps).events)
    decreases |steps|
  {
    if |steps| > 0 {
      StepKeepsEarly(w, s, steps[0]);
      hide RequeuedEarly, Enabled, Apply;
      RunKeepsEarly(w, Apply(w, s, steps[0]), steps[1..]);
    }
  }

  // ---- answers -----------------------------------------------------------------------

  /** What a re-queue can lead to, by the event that says so. */
  const OUTCOMES: set<EventKind> := {FilingFailed, FilingEmbedded, ParseFailed}
  const FAILURES: set<EventKind> := {FilingFailed}

  predicate IsAnswer(e: Event, acc: Acc, answers: set<EventKind>) {
    e.acc == acc && e.kind in answers
  }

  function Answers(events: seq<Event>, acc: Acc, answers: set<EventKind>): nat {
    if |events| == 0 then 0
    else
      var n := |events| - 1;
      Answers(events[..n], acc, answers) + if IsAnswer(events[n], acc, answers) then 1 else 0
  }

  /** The last re-queue of the filing has had no answer so far. */
  predicate Open(events: seq<Event>, acc: Acc, answers: set<EventKind>) {
    |events| > 0 &&
    var n := |events| - 1;
    events[n] == Event(FilingRequeued, acc) || (!IsAnswer(events[n], acc, answers) && Open(events[..n], acc, answers))
  }

  /** How many re-queues came while an earlier one was open. */
  function Unanswered(events: seq<Event>, acc: Acc, answers: set<EventKind>): nat {
    if |events| == 0 then 0
    else
      var n := |events| - 1;
      Unanswered(events[..n], acc, answers) +
      if events[n] == Event(FilingRequeued, acc) && Open(events[..n], acc, answers) then 1 else 0
  }

  /** Between any two re-queues of the filing there is an answer. */
  ghost predicate Answered(events: seq<Event>, acc: Acc, answers: set<EventKind>) {
    forall j :: 0 <= j < |events| && events[j] == Event(FilingRequeued, acc) ==> !OpenSince(events, acc, answers, j)
  }

  /** Some re-queue before j has no answer before j. */
  ghost predicate OpenSince(events: seq<Event>, acc: Acc, answers: set<EventKind>, j: nat)
    requires j <= |events|
  {
    exists i :: 0 <= i < j && events[i] == Event(FilingRequeued, acc) && NoAnswer(events, acc, answers, i, j)
  }

  ghost predicate NoAnswer(events: seq<Event>, acc: Acc, answers: set<EventKind>, i: nat, j: nat)
    requires j <= |events|
  {
    forall m :: i < m < j ==> !IsAnswer(events[m], acc, answers)
  }

  lemma {:induction false} OpenExactly(events: seq<Event>, acc: Acc, answers: set<EventKind>, j: nat)
    requires j <= |events|
    ensures Open(events[..j], acc, answers) <==> OpenSince(events, acc, answers, j)
  {
    if j > 0 {
      OpenExactly(events, acc, answers, j - 1);
      assert events[..j][..j - 1] == events[..j - 1];
      if events[j - 1] == Event(FilingRequeued, acc) {
        assert NoAnswer(events, acc, answers, j - 1, j);
      } else if i :| 0 <= i < j - 1 && events[i] == Event(FilingRequeued, acc)
                     && NoAnswer(events, acc, answers, i, j - 1) {
        if !IsAnswer(events[j - 1], acc, answers) { assert NoAnswer(events, acc, answers, i, j); }
      }
      forall i | 0 <= i < j - 1 && NoAnswer(events, acc, answers, i, j)
        ensures NoAnswer(events, acc, answers, i, j - 1) && !IsAnswer(events[j - 1], acc, answers)
      {
      }
    }
  }

  /** No re-queue is unanswered exactly when there is an answer between any two. */
  lemma {:induction false} AnsweredExactly(events: seq<Event>, acc: Acc, answers: set<EventKind>, n: nat)
    requires n <= |events|
    ensures Unanswered(events[..n], acc, answers) == 0 <==>
            forall j :: 0 <= j < n && events[j] == Event(FilingRequeued, acc) ==> !OpenSince(events, acc, answers, j)
  {
    if n > 0 {
      AnsweredExactly(events, acc, answers, n - 1);
      OpenExactly(events, acc, answers, n - 1);
      assert events[..n][..n - 1] == events[..n - 1];
      hide Open, OpenSince;
    }
  }

  // ---- one filing ------------------------------------------------------------------

  /** Every re-queue but the open one is answered or unanswered. */
  lemma {:induction false} Balance(events: seq<Event>, acc: Acc, answers: set<EventKind>)
    requires FilingRequeued !in answers
    ensures Count(events, Event(FilingRequeued, acc)) <=
            Answers(events, acc, answers) + Unanswered(events, acc, answers)
            + if Open(events, acc, answers) then 1 else 0
  {
    if |events| > 0 { Balance(events[..|events| - 1], acc, answers); }
  }

  lemma {:induction false} FailuresApart(events: seq<Event>, acc: Acc, answers: set<EventKind>)
    requires FilingFailed in answers
    ensures Answers(events, acc, answers) ==
            Count(events, Event(FilingFailed, acc)) + Answers(events, acc, answers - {FilingFailed})
  {
    if |events| > 0 { FailuresApart(events[..|events| - 1], acc, answers); }
  }

  lemma {:induction false} EarlyBalance(events: seq<Event>, acc: Acc, answers: set<EventKind>)
    requires RequeuedEarly(events) && FilingFailed in answers && FilingRequeued !in answers
    ensures Count(events, Event(FilingRequeued, acc)) <=
            NEEDS_ATTENTION_FAILURES + Unanswered(events, acc, answers) + Answers(events, acc, answers - {FilingFailed})
  {
    if |events| > 0 {
      var n := |events| - 1;
      var front := events[..n];
      assert forall i :: 0 <= i < n ==> front[i] == events[i] && front[..i] == events[..i];
      EarlyBalance(front, acc, answers);
      Balance(front, acc, answers);
      FailuresApart(front, acc, answers);
    }
  }

  /**
   * Over every run, whatever counts as an answer besides a failure: a filing is
   * re-queued at most three times, once more for each other answer, and once
   * more for each re-queue that came while one was open.
   */
  lemma {:induction false} RequeueBalance(w: World, steps: seq<Step>, acc: Acc, answers: set<EventKind>)
    requires Legal(w, EMPTY, steps) && FilingFailed in answers && FilingRequeued !in answers
    ensures var events := Run(w, EMPTY, steps).events;
      Count(events, Event(FilingRequeued, acc)) <=
      NEEDS_ATTENTION_FAILURES + Unanswered(events, acc, answers) + Answers(events, acc, answers - {FilingFailed})
  {
    RunKeepsEarly(w, EMPTY, steps);
    EarlyBalance(Run(w, EMPTY, steps).events, acc, answers);
  }

  lemma {:induction false} NoOtherAnswers(events: seq<Event>, acc: Acc)
    ensures Answers(events, acc, FAILURES - {FilingFailed}) == 0
    ensures Answers(events, acc, OUTCOMES - {FilingFailed}) ==
            Count(events, Event(FilingEmbedded, acc)) + Count(events, Event(ParseFailed, acc))
  {
    if |events| > 0 { NoOtherAnswers(events[..|events| - 1], acc); }
  }

  /** With failures as the only answers: three times, plus the re-queues never answered. */
  lemma {:induction false} RequeuedByFailures(w: World, steps: seq<Step>, acc: Acc)
    requires Legal(w, EMPTY, steps)
    ensures var events := Run(w, EMPTY, steps).events;
      Count(events, Event(FilingRequeued, acc)) <= NEEDS_ATTENTION_FAILURES + Unanswered(events, acc, FAILURES)
  {
    hide Run, Legal, Unanswered;
    RequeueBalance(w, steps, acc, FAILURES);
    NoOtherAnswers(Run(w, EMPTY, steps).events, acc);
  }

  /** With every outcome an answer: plus the times it was embedded or quarantined. */
  lemma {:induction false} RequeuedByOutcomes(w: World, steps: seq<Step>, acc: Acc)
    requires Legal(w, EMPTY, steps)
    ensures var events := Run(w, EMPTY, steps).events;
      Count(events, Event(FilingRequeued, acc)) <=
      NEEDS_ATTENTION_FAILURES + Unanswered(events, acc, OUTCOMES)
      + Count(events, Event(FilingEmbedded, acc)) + Count(events, Event(ParseFailed, acc))
  {
    hide Run, Legal, Unanswered;
    RequeueBalance(w, steps, acc, OUTCOMES);
    NoOtherAnswers(Run(w, EMPTY, steps).events, acc);
  }

  /**
   * A filing whose re-queues are each followed by a failure before the next is
   * re-queued at most three times in any run.
   */
  lemma {:induction false} RequeuedAtMostThrice(w: World, steps: seq<Step>, acc: Acc)
    requires Legal(w, EMPTY, steps) && Answered(Run(w, EMPTY, steps).events, acc, FAILURES)
    ensures Count(Run(w, EMPTY, steps).events, Event(FilingRequeued, acc)) <= NEEDS_ATTENTION_FAILURES
  {
    hide Run, Legal, Unanswered;
    var events := Run(w, EMPTY, steps).events;
    RequeuedByFailures(w, steps, acc);
    AnsweredExactly(events, acc, FAILURES, |events|);
    assert events[..|events|] == events;
  }

  // ---- all filings -----------------------------------------------------------------

  /** Re-queue events of filings in `accs`. */
  function Requeued(events: seq<Event>, accs: set<Acc>): nat {
    if |events| == 0 then 0
    else
      var last := events[|events| - 1];
      Requeued(events[..|events| - 1], accs) + if last.kind == FilingRequeued && last.acc in accs then 1 else 0
  }

  /** Those of them that came while an earlier one was open. */
  function UnansweredIn(events: seq<Event>, accs: set<Acc>, answers: set<EventKind>): nat {
    if |events| == 0 then 0
    else
      var n := |events| - 1;
      UnansweredIn(events[..n], accs, answers) +
      if events[n].kind == FilingRequeued && events[n].acc in accs && Open(events[..n], events[n].acc, answers) then 1
      else 0
  }

  lemma {:induction false} RequeuedSplits(events: seq<Event>, accs: set<Acc>, acc: Acc)
    requires acc in accs
    ensures Requeued(events, accs) == Requeued(events, accs - {acc}) + Count(events, Event(FilingRequeued, acc))
  {
    if |events| > 0 { RequeuedSplits(events[..|events| - 1], accs, acc); }
  }

  lemma {:induction false} UnansweredSplits(events: seq<Event>, accs: set<Acc>, acc: Acc, answers: set<EventKind>)
    requires acc in accs
    ensures UnansweredIn(events, accs, answers) ==
            UnansweredIn(events, accs - {acc}, answers) + Unanswered(events, acc, answers)
  {
    hide Open;
    if |events| > 0 { UnansweredSplits(events[..|events| - 1], accs, acc, answers); }
  }

  lemma {:induction false} RequeuedNone(events: seq<Event>)
    ensures Requeued(events, {}) == 0
  {
    if |events| > 0 { RequeuedNone(events[..|events| - 1]); }
  }

  lemma {:induction false} RequeuedBound(events: seq<Event>, accs: set<Acc>, most: nat, answers: set<EventKind>)
    requires forall a :: a in accs ==> Count(events, Event(FilingRequeued, a)) <= most + Unanswered(events, a, answers)
    ensures Requeued(events, accs) <= most * |accs| + UnansweredIn(events, accs, answers)
  {
    hide Requeued, UnansweredIn, Unanswered, Count;
    if accs == {} {
      RequeuedNone(events);
    } else {
      var acc :| acc in accs;
      RequeuedSplits(events, accs, acc);
      UnansweredSplits(events, accs, acc, answers);
      RequeuedBound(events, accs - {acc}, most, answers);
      assert most * |accs| == most * (|accs| - 1) + most;
    }
  }

  /** Reconciler runs that re-queued something. */
  function BusyRuns(steps: seq<Step>): nat {
    if |steps| == 0 then 0
    else (if steps[0].Reconcile? && steps[0].picked != [] then 1 else 0) + BusyRuns(steps[1..])
  }

  lemma {:induction false} RequeuedGrows(log: seq<Event>, more: seq<Event>, accs: set<Acc>, wider: set<Acc>)
    requires accs <= wider
    ensures Requeued(log, accs) <= Requeued(log + more, wider)
    decreases |log| + |more|
  {
    if |more| == 0 {
      assert log + more == log;
      if |log| > 0 {
        var n := |log| - 1;
        assert log[..n] + [] == log[..n];
        RequeuedGrows(log[..n], [], accs, wider);
      }
    } else {
      var n := |more| - 1;
      RequeuedGrows(log, more[..n], accs, wider);
      assert (log + more)[..|log| + n] == log + more[..n];
    }
  }

  lemma BusyRunLogs(s: State, limit: nat, picked: seq<Acc>)
    requires IsOldest(s, limit, picked) && picked != []
    ensures forall a :: a in picked ==> a in s.filings && s.filings[a].status.InProgress()
    ensures var t := ApplyReconcile(s, picked);
      Requeued(s.events, s.filings.Keys) + 1 <= Requeued(t.events, t.filings.Keys)
  {
    var t, first := ApplyReconcile(s, picked), Event(FilingRequeued, picked[0]);
    assert picked[0] in picked && Retryable(s, picked[0]);
    var more := Each(FilingRequeued, picked)[1..] + Each(RecoveryReset, Resets(s, picked));
    assert t.events == (s.events + [first]) + more;
    assert (s.events + [first])[..|s.events|] == s.events;
    RequeuedGrows(s.events + [first], more, s.filings.Keys, t.filings.Keys);
  }

  lemma LaterHasMore(s: State, t: State)
    requires Follows(s, t)
    ensures Requeued(s.events, s.filings.Keys) <= Requeued(t.events, t.filings.Keys)
  {
    var more := t.events[|s.events|..];
    assert t.events == s.events + more;
    RequeuedGrows(s.events, more, s.filings.Keys, t.filings.Keys);
  }

  lemma BusyRunAdds(w: World, s: State, step: Step)
    requires Enabled(w, s, step)
    ensures var t := Apply(w, s, step);
      Requeued(s.events, s.filings.Keys) + (if step.Reconcile? && step.picked != [] then 1 else 0)
      <= Requeued(t.events, t.filings.Keys)
  {
    hide Requeued, IsOldest, Blocked, ApplyReconcile, Follows;
    StepFollows(w, s, step);
    if step.Reconcile? && step.picked != [] {
      BusyRunLogs(s, w.limit, step.picked);
    } else {
      LaterHasMore(s, Apply(w, s, step));
    }
  }

  lemma {:induction false} BusyRunsCounted(w: World, s: State, steps: seq<Step>)
    requires Legal(w, s, steps)
    ensures var t := Run(w, s, steps);
      Requeued(s.events, s.filings.Keys) + BusyRuns(steps) <= Requeued(t.events, t.filings.Keys)
    decreases |steps|
  {
    hide Enabled, Apply, Requeued;
    if |steps| > 0 {
      BusyRunAdds(w, s, steps[0]);
      BusyRunsCounted(w, Apply(w, s, steps[0]), steps[1..]);
    }
  }

  /** What the runs of the reconciler can have to do, over all filings. */
  ghost function WorkBound(s: State): nat {
    NEEDS_ATTENTION_FAILURES * |s.filings| + UnansweredIn(s.events, s.filings.Keys, FAILURES)
  }

  /**
   * However long the pipeline runs, at most three runs of the reconciler per
   * filing, and one for each re-queue never answered, find anything to do.
   */
  lemma {:induction false} FewBusyRuns(w: World, steps: seq<Step>)
    requires Legal(w, EMPTY, steps)
    ensures BusyRuns(steps) <= WorkBound(Run(w, EMPTY, steps))
  {
    var s := Run(w, EMPTY, steps);
    BusyRunsCounted(w, EMPTY, steps);
    hide Legal, Run, Requeued, Unanswered, UnansweredIn, Count;
    forall a | a in s.filings.Keys
      ensures Count(s.events, Event(FilingRequeued, a)) <= NEEDS_ATTENTION_FAILURES + Unanswered(s.events, a, FAILURES)
    {
      RequeuedByFailures(w, steps, a);
    }
    RequeuedBound(s.events, s.filings.Keys, NEEDS_ATTENTION_FAILURES, FAILURES);
    assert |s.filings.Keys| == |s.filings|;
  }

  lemma {:induction false} IdleRun(steps: seq<Step>) returns (n: nat)
    requires BusyRuns(steps) < Reconciles(steps)
    ensures n < |steps| && steps[n] == Reconcile([])
  {
    if steps[0] == Reconcile([]) {
      n := 0;
    } else {
      n := IdleRun(steps[1..]);
      n := n + 1;
    }
  }

  lemma {:induction false} RunUpTo(w: World, s: State, steps: seq<Step>, n: nat)
    requires Legal(w, s, steps) && n < |steps|
    ensures Legal(w, s, steps[..n]) && Enabled(w, Run(w, s, steps[..n]), steps[n])
    decreases n
  {
    hide Enabled, Apply;
    if n == 0 {
      assert steps[..0] == [];
    } else {
      RunUpTo(w, Apply(w, s, steps[0]), steps[1..], n - 1);
      assert steps[..n][0] == steps[0] && steps[..n][1..] == steps[1..][..n - 1];
    }
  }

  /** Every stuck filing is waiting for someone to look at it. */
  ghost predicate OnlyAttention(s: State) {
    forall acc :: Stuck(s, acc) ==> NEEDS_ATTENTION_FAILURES <= Failures(s, acc)
  }

  /**
   * The backlog drains: once the reconciler has run more often than that, one
   * of its runs found no stuck filing but those needing attention.
   */
  lemma {:induction false} BacklogDrains(w: World, steps: seq<Step>) returns (n: nat)
    requires Legal(w, EMPTY, steps) && 1 <= w.limit && WorkBound(Run(w, EMPTY, steps)) < Reconciles(steps)
    ensures n < |steps| && steps[n].Reconcile? && Legal(w, EMPTY, steps[..n])
    ensures OnlyAttention(Run(w, EMPTY, steps[..n]))
  {
    hide Legal, Run, WorkBound;
    FewBusyRuns(w, steps);
    n := IdleRun(steps);
    RunUpTo(w, EMPTY, steps, n);
    var s := Run(w, EMPTY, steps[..n]);
    forall acc | Stuck(s, acc) ensures NEEDS_ATTENTION_FAILURES <= Failures(s, acc) {
      NothingPicked(s, w.limit, acc);
    }
  }
}
