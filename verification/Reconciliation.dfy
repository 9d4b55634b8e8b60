/**
 * One run of the reconciler, spelled out over rows, files, events and tasks:
 * which filings it picks, where each restarts, and what it reports.
 */
module Reconciliation {
  import opened Options
  import opened Pipeline
  import opened Reconciler

  // ---- whom it picks ---------------------------------------------------------------

  ghost predicate OnTheWay(f: Filing) {
    f.status == Discovered || f.status == Fetched || f.status == Parsed
  }

  /** How many filing.failed events the filing has. */
  ghost function FailedEvents(s: State, a: Acc): nat {
    |set i | 0 <= i < |s.events| && s.events[i] == Event(FilingFailed, a)|
  }

  /** On the way, and not updated for half an hour. */
  ghost predicate Stalled(s: State, a: Acc) {
    a in s.filings && OnTheWay(s.filings[a]) && s.filings[a].updatedAt < s.clock - 1800
  }

  ghost predicate Waits(s: State, a: Acc) {
    Stalled(s, a) && FailedEvents(s, a) < 3
  }

  /** a comes before b by last update, or by id if they were updated together. */
  ghost predicate Earlier(s: State, a: Acc, b: Acc) {
    && a in s.filings && b in s.filings
    && (s.filings[a].updatedAt < s.filings[b].updatedAt ||
        (s.filings[a].updatedAt == s.filings[b].updatedAt && s.filings[a].id < s.filings[b].id))
  }

  /** The first `limit` of those waiting, or all of them. */
  ghost predicate Picks(s: State, limit: nat, picked: seq<Acc>) {
    && |picked| <= limit && (forall a :: a in picked ==> Waits(s, a))
    && (forall i, j :: 0 <= i < j < |picked| ==> picked[i] != picked[j] && Earlier(s, picked[i], picked[j]))
    && (forall a, b :: a in picked && b !in picked && Waits(s, b) ==> |picked| == limit && Earlier(s, a, b))
    && (|picked| < limit ==> forall b :: Waits(s, b) ==> b in picked)
  }

  lemma {:induction false} CountIsSize(events: seq<Event>, e: Event)
    ensures Count(events, e) == |set i | 0 <= i < |events| && events[i] == e|
  {
    var all := set i | 0 <= i < |events| && events[i] == e;
    if |events| > 0 {
      var n := |events| - 1;
      CountIsSize(events[..n], e);
      var front := set i | 0 <= i < n && events[..n][i] == e;
      assert all == front + if events[n] == e then {n} else {};
    }
  }

  lemma WaitingMeans(s: State, a: Acc)
    ensures Failures(s, a) == FailedEvents(s, a)
    ensures Stuck(s, a) <==> Stalled(s, a)
    ensures Retryable(s, a) <==> Waits(s, a)
  {
    CountIsSize(s.events, Event(FilingFailed, a));
  }

  lemma OldestMeans(s: State, limit: nat, picked: seq<Acc>)
    requires IsOldest(s, limit, picked)
    ensures Picks(s, limit, picked)
  {
    forall a ensures Retryable(s, a) <==> Waits(s, a) { WaitingMeans(s, a); }
    hide Retryable, Waits;
  }

  // ---- where each restarts -----------------------------------------------------------

  /** The file the next step reads is not there: bronze for a parse, silver for an embed. */
  ghost predicate CannotRead(s: State, a: Acc) {
    && a in s.filings
    && match s.filings[a].status
       case Fetched => s.filings[a].bronzeKey == false || a !in s.bronze
       case Parsed => s.filings[a].silverKey == false || a !in s.silver
       case _ => false
  }

  /** The filing's next step, or its fetch if that step cannot read its file. */
  ghost predicate IsDue(s: State, t: Task) {
    && t.acc in s.filings
    && if CannotRead(s, t.acc) then t == FetchTask(t.acc)
       else match s.filings[t.acc].status
         case Discovered => t == FetchTask(t.acc)
         case Fetched => t == ParseTask(t.acc)
         case Parsed => t == EmbedTask(t.acc)
         case _ => false
  }

  /** Every picked row is dated now; only those that cannot go on change their status. */
  ghost predicate RowsWritten(s: State, t: State, picked: seq<Acc>) {
    && t.filings.Keys == s.filings.Keys
    && forall a :: a in s.filings ==>
         if a in picked
         then t.filings[a] == Filing(s.filings[a].id, if CannotRead(s, a) then Discovered else s.filings[a].status,
                                     s.filings[a].bronzeKey, s.filings[a].silverKey, s.clock)
         else t.filings[a] == s.filings[a]
  }

  /** One task for each picked filing, the one due, and no other. */
  ghost predicate TasksAdded(s: State, t: State, picked: seq<Acc>) {
    forall task: Task :: t.queue[task] == s.queue[task] + if task.acc in picked && IsDue(s, task) then 1 else 0
  }

  /** Those of the picked that cannot go on, in the order picked. */
  ghost predicate AreResets(s: State, picked: seq<Acc>, resets: seq<Acc>) {
    && (forall a :: a in resets <==> a in picked && CannotRead(s, a))
    && forall i, j :: 0 <= i < j < |resets| ==> resets[i] != resets[j] && Earlier(s, resets[i], resets[j])
  }

  /** A requeued event for each picked filing, then a reset event for each reset. */
  ghost predicate EventsAdded(before: seq<Event>, after: seq<Event>, picked: seq<Acc>, resets: seq<Acc>) {
    && |after| == |before| + |picked| + |resets| && before <= after
    && (forall i :: 0 <= i < |picked| ==> after[|before| + i] == Event(FilingRequeued, picked[i]))
    && (forall i :: 0 <= i < |resets| ==> after[|before| + |picked| + i] == Event(RecoveryReset, resets[i]))
  }

  /** Nothing else is touched. */
  ghost predicate RestStays(s: State, t: State) {
    && t.clock == s.clock && t.nextFiling == s.nextFiling && t.chunks == s.chunks && t.nextRow == s.nextRow
    && t.points == s.points && t.bronze == s.bronze && t.silver == s.silver && t.attempts == s.attempts
    && t.plans == s.plans
  }

  ghost predicate Restarts(s: State, t: State, limit: nat, picked: seq<Acc>, resets: seq<Acc>) {
    && Picks(s, limit, picked) && AreResets(s, picked, resets)
    && RowsWritten(s, t, picked) && TasksAdded(s, t, picked)
    && EventsAdded(s.events, t.events, picked, resets) && RestStays(s, t)
  }

  lemma {:induction false} ResetsAreOrdered(s: State, picked: seq<Acc>)
    requires forall a :: a in picked ==> a in s.filings && s.filings[a].status.InProgress()
    requires forall i, j :: 0 <= i < j < |picked| ==> picked[i] != picked[j] && Earlier(s, picked[i], picked[j])
    ensures AreResets(s, picked, Resets(s, picked))
  {
    if |picked| > 0 {
      var n := |picked| - 1;
      ResetsAreOrdered(s, picked[..n]);
      var front := Resets(s, picked[..n]);
      forall i | 0 <= i < |front| ensures front[i] != picked[n] && Earlier(s, front[i], picked[n]) {
        assert front[i] in front && front[i] in picked[..n];
      }
      assert forall a :: a in picked <==> a in picked[..n] || a == picked[n];
    }
  }

  lemma DueIsRequeue(s: State, a: Acc, t: Task)
    requires a in s.filings && s.filings[a].status.InProgress()
    ensures t.acc == a && IsDue(s, t) <==> t == Requeue(s, a)
  {
  }

  lemma {:induction false} RequeuesAreDue(s: State, picked: seq<Acc>, task: Task)
    requires forall a :: a in picked ==> a in s.filings && s.filings[a].status.InProgress()
    requires forall i, j :: 0 <= i < j < |picked| ==> picked[i] != picked[j]
    ensures Requeues(s, picked)[task] == if task.acc in picked && IsDue(s, task) then 1 else 0
  {
    if |picked| > 0 {
      var n := |picked| - 1;
      RequeuesAreDue(s, picked[..n], task);
      DueIsRequeue(s, picked[n], task);
      hide IsDue, Requeue;
      assert picked == picked[..n] + [picked[n]];
    }
  }

  lemma EachAre(log: seq<Event>, picked: seq<Acc>, resets: seq<Acc>)
    ensures EventsAdded(log, log + Each(FilingRequeued, picked) + Each(RecoveryReset, resets), picked, resets)
  {
    var mid := log + Each(FilingRequeued, picked);
    assert forall i :: 0 <= i < |picked| ==> mid[|log| + i] == Event(FilingRequeued, picked[i]);
  }

  lemma RowsAreWritten(s: State, picked: seq<Acc>)
    requires forall a :: a in picked ==> a in s.filings && s.filings[a].status.InProgress()
    ensures RowsWritten(s, ApplyReconcile(s, picked), picked)
  {
    hide Requeues, Resets, Each;
  }

  /**
   * What a run does to the filings it picks. One goes back to DISCOVERED, with a
   * reset event and a fetch, exactly when the file its next step reads is
   * missing; every other keeps its status and gets the task of that step.
   */
  lemma RunRestarts(s: State, limit: nat, picked: seq<Acc>)
    requires IsOldest(s, limit, picked)
    ensures forall a :: a in picked ==> a in s.filings && s.filings[a].status.InProgress()
    ensures Restarts(s, ApplyReconcile(s, picked), limit, picked, Resets(s, picked))
  {
    PickedInProgress(s, limit, picked);
    OldestMeans(s, limit, picked);
    ResetsAreOrdered(s, picked);
    RowsAreWritten(s, picked);
    EachAre(s.events, picked, Resets(s, picked));
    forall task: Task
      ensures Requeues(s, picked)[task] == if task.acc in picked && IsDue(s, task) then 1 else 0
    {
      RequeuesAreDue(s, picked, task);
    }
    hide Requeues, Resets, Each, IsDue, Waits, CannotRead, RowsWritten, EventsAdded, AreResets, Picks;
  }
}
