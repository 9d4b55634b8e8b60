/**
 * No dead ends: whatever a run has been through - lost tasks, lost files, a
 * backlog, attempts left hanging - a filing that is not finished and has not
 * failed three times can still be carried through to EMBEDDED or QUARANTINED,
 * as its document decides.
 */
module Progress {
  import opened Options
  import opened Pipeline
  import opened Reconciler
  import opened Convergence
  import Quarantine

  ghost predicate HasStatus(s: State, acc: Acc, status: Status) {
    acc in s.filings && s.filings[acc].status == status
  }

  ghost predicate CanBecome(w: World, s: State, acc: Acc, status: Status) {
    exists steps :: Legal(w, s, steps) && HasStatus(Run(w, s, steps), acc, status)
  }

  /** Where a filing's document takes it. */
  function Outcome(w: World, acc: Acc): Status {
    if w.accepts(acc) then Embedded else Quarantined
  }

  ghost predicate CanFinish(w: World, s: State, acc: Acc) {
    CanBecome(w, s, acc, Outcome(w, acc))
  }

  lemma CanFinishBy(w: World, s: State, steps: seq<Step>, acc: Acc)
    requires Legal(w, s, steps) && HasStatus(Run(w, s, steps), acc, Outcome(w, acc))
    ensures CanFinish(w, s, acc)
  {
  }

  lemma CanFinishAfter(w: World, s: State, step: Step, acc: Acc)
    requires Enabled(w, s, step) && CanFinish(w, Apply(w, s, step), acc)
    ensures CanFinish(w, s, acc)
  {
    hide Enabled, Apply, HasStatus, Outcome;
    var t := Apply(w, s, step);
    var steps :| Legal(w, t, steps) && HasStatus(Run(w, t, steps), acc, Outcome(w, acc));
    var all := [step] + steps;
    assert all[0] == step && all[1..] == steps;
    CanFinishBy(w, s, all, acc);
  }

  // ---- from a task that can run ---------------------------------------------------

  lemma PastAll(used: set<nat>) returns (i: nat)
    ensures i !in used && forall j :: j in used ==> j < i
  {
    i := 0;
    if used != {} {
      var j :| j in used;
      var k := PastAll(used - {j});
      i := if j < k then k else j + 1;
      assert forall x :: x in used ==> x == j || x in used - {j};
    }
  }

  lemma EmbedRuns(w: World, s: State, acc: Acc)
    requires EmbedTask(acc) in s.queue && acc in s.filings && s.filings[acc].silverKey && acc in s.silver
    requires w.accepts(acc) && !Blocked(s, acc)
    ensures CanFinish(w, s, acc)
  {
    var i := PastAll(s.attempts.Keys);
    BeginToCommit(w, s, acc, i);
    CanFinishBy(w, ApplyBegin(w, s, acc, i), Batches(i, |w.texts(acc)|) + [EmbedCommit(i)], acc);
    hide CanFinish, ApplyBegin;
    CanFinishAfter(w, s, EmbedBegin(acc, i), acc);
  }

  /** Nothing more to do: the filing is where its document takes it. */
  lemma Finished(w: World, s: State, acc: Acc)
    requires HasStatus(s, acc, Outcome(w, acc))
    ensures CanFinish(w, s, acc)
  {
    var none: seq<Step> := [];
    assert Legal(w, s, none) && Run(w, s, none) == s;
    CanFinishBy(w, s, none, acc);
  }

  lemma ParseRuns(w: World, s: State, acc: Acc)
    requires CanParse(s, acc) && !Blocked(s, acc)
    ensures CanFinish(w, s, acc)
  {
    var t := ApplyParse(s, acc, w.accepts(acc));
    if w.accepts(acc) { EmbedRuns(w, t, acc); } else { Finished(w, t, acc); }
    hide CanFinish;
    CanFinishAfter(w, s, Parse(acc, w.accepts(acc)), acc);
  }

  lemma FetchRuns(w: World, s: State, acc: Acc)
    requires FetchTask(acc) in s.queue && acc in s.filings && !Blocked(s, acc)
    ensures CanFinish(w, s, acc)
  {
    ParseRuns(w, ApplyFetch(s, acc), acc);
    hide CanFinish;
    CanFinishAfter(w, s, Fetch(acc), acc);
  }

  lemma TaskRuns(w: World, s: State, t: Task)
    requires t in s.queue && CanRun(s, t) && !Blocked(s, t.acc) && Quarantine.Inv(w, s)
    ensures CanFinish(w, s, t.acc)
  {
    match t
    case FetchTask(acc) => FetchRuns(w, s, acc);
    case ParseTask(acc) => ParseRuns(w, s, acc);
    case EmbedTask(acc) =>
      assert Quarantine.FilingFits(w, acc, s.filings[acc]);
      EmbedRuns(w, s, acc);
  }

  // ---- to a task that can run: the reconciler ----------------------------------------

  lemma {:induction false} OldestIn(s: State, cands: set<Acc>) returns (a: Acc)
    requires FilingIdsApart(s) && cands != {} && forall c :: c in cands ==> c in s.filings
    ensures a in cands && forall c :: c in cands && c != a ==> Ahead(s, a, c)
  {
    a :| a in cands;
    var rest := cands - {a};
    assert forall c :: c in cands ==> c == a || c in rest;
    if rest != {} {
      var b := OldestIn(s, rest);
      if Older(s.filings[b], s.filings[a]) { a := b; }
    }
  }

  /** A reconciler run is possible in every state: there is always an oldest `limit`. */
  lemma {:induction false} PickExists(s: State, limit: nat) returns (picked: seq<Acc>)
    requires FilingIdsApart(s)
    ensures IsOldest(s, limit, picked)
  {
    if limit == 0 {
      picked := [];
    } else {
      var front := PickExists(s, limit - 1);
      var rest := set a | a in RetryableSet(s) && a !in front;
      if rest == {} {
        picked := front;
        forall b | Retryable(s, b) ensures b in front {
          assert b !in rest;
        }
      } else {
        var a := OldestIn(s, rest);
        picked := front + [a];
        OldestAppend(s, limit - 1, front, a);
      }
    }
  }

  lemma OldestAppend(s: State, limit: nat, front: seq<Acc>, a: Acc)
    requires IsOldest(s, limit, front) && Retryable(s, a) && a !in front
    requires forall b :: Retryable(s, b) && b !in front && b != a ==> Ahead(s, a, b)
    ensures IsOldest(s, limit + 1, front + [a])
  {
    hide Retryable, Ahead;
    var all := front + [a];
    assert |front| == limit;
    assert forall x :: x in all <==> x in front || x == a;
    forall i | 0 <= i < |front| ensures Ahead(s, front[i], a) && front[i] != a { assert front[i] in front; }
  }

  lemma {:induction false} RetryableCanFinish(w: World, s: State, acc: Acc)
    requires FilingIdsApart(s) && Quarantine.Inv(w, s) && Retryable(s, acc) && !Blocked(s, acc) && 1 <= w.limit
    ensures CanFinish(w, s, acc)
    decreases |Queue(s, acc)|
  {
    var picked := PickExists(s, w.limit);
    var step, t := Reconcile(picked), Apply(w, s, Reconcile(picked));
    assert t.attempts == s.attempts;
    if acc in picked {
      PickedCanRun(w, s, picked, acc);
      Quarantine.StepKeepsInv(w, s, step);
      TaskRuns(w, t, Requeue(s, acc));
    } else {
      ReconcilePasses(w, s, picked, acc);
      PassedByStep(w, s, step, acc);
      StepKeepsFilingIds(w, s, step);
      Quarantine.StepKeepsInv(w, s, step);
      RetryableCanFinish(w, t, acc);
    }
    hide CanFinish, Apply;
    CanFinishAfter(w, s, step, acc);
  }

  // ---- from any reachable state -------------------------------------------------------

  ghost predicate Unfinished(s: State, acc: Acc) {
    acc in s.filings && s.filings[acc].status.InProgress() && Failures(s, acc) < NEEDS_ATTENTION_FAILURES
  }

  /** No row is dated later than now. */
  ghost predicate Dated(s: State) {
    forall a :: a in s.filings ==> s.filings[a].updatedAt <= s.clock
  }

  lemma {:induction false} RunKeepsDated(w: World, s: State, steps: seq<Step>)
    requires Dated(s) && Legal(w, s, steps)
    ensures Dated(Run(w, s, steps))
    decreases |steps|
  {
    if |steps| > 0 {
      StepFollows(w, s, steps[0]);
      hide Enabled, Apply;
      RunKeepsDated(w, Apply(w, s, steps[0]), steps[1..]);
    }
  }

  lemma FreeCanFinish(w: World, s: State, acc: Acc)
    requires FilingIdsApart(s) && Quarantine.Inv(w, s) && Dated(s)
    requires Unfinished(s, acc) && !Blocked(s, acc) && 1 <= w.limit
    ensures CanFinish(w, s, acc)
  {
    var t := s.(clock := s.clock + STUCK_AFTER + 1);
    assert Enabled(w, s, Tick(STUCK_AFTER + 1)) && Apply(w, s, Tick(STUCK_AFTER + 1)) == t;
    assert Failures(t, acc) == Failures(s, acc);
    RetryableCanFinish(w, t, acc);
    hide CanFinish, Apply;
    CanFinishAfter(w, s, Tick(STUCK_AFTER + 1), acc);
  }

  lemma {:induction false} UnfinishedCanFinish(w: World, s: State, acc: Acc)
    requires FilingIdsApart(s) && Quarantine.Inv(w, s) && Dated(s) && Unfinished(s, acc) && 1 <= w.limit
    ensures CanFinish(w, s, acc)
    decreases |s.attempts|
  {
    if Blocked(s, acc) {
      var i :| i in s.attempts && s.attempts[i].acc == acc && s.attempts[i].inserted;
      var t := s.(attempts := s.attempts - {i});
      assert (s.attempts - {i}).Keys == s.attempts.Keys - {i};
      assert |t.attempts.Keys| < |s.attempts.Keys|;
      assert Enabled(w, s, EmbedAbort(i)) && Apply(w, s, EmbedAbort(i)) == t;
      UnfinishedCanFinish(w, t, acc);
      hide CanFinish, Apply;
      CanFinishAfter(w, s, EmbedAbort(i), acc);
    } else {
      FreeCanFinish(w, s, acc);
    }
  }

  /**
   * From every reachable state there is a way on for every filing in progress
   * with fewer than three failures: some continuation takes it where its
   * document leads. It can be embedded exactly when the parser accepts its
   * document, and quarantined exactly when the parser rejects it.
   */
  lemma NoDeadEnds(w: World, steps: seq<Step>, acc: Acc)
    requires Legal(w, EMPTY, steps) && Unfinished(Run(w, EMPTY, steps), acc) && 1 <= w.limit
    ensures CanBecome(w, Run(w, EMPTY, steps), acc, Embedded) <==> w.accepts(acc)
    ensures CanBecome(w, Run(w, EMPTY, steps), acc, Quarantined) <==> !w.accepts(acc)
  {
    RunKeepsFilingIds(w, EMPTY, steps);
    RunKeepsDated(w, EMPTY, steps);
    Quarantine.RunKeepsInv(w, EMPTY, steps);
    var s := Run(w, EMPTY, steps);
    UnfinishedCanFinish(w, s, acc);
    if CanBecome(w, s, acc, Embedded) { OnlyOutcome(w, s, acc, Embedded); }
    if CanBecome(w, s, acc, Quarantined) { OnlyOutcome(w, s, acc, Quarantined); }
  }

  lemma OnlyOutcome(w: World, s: State, acc: Acc, status: Status)
    requires Quarantine.Inv(w, s) && (status.Embedded? || status.Quarantined?) && CanBecome(w, s, acc, status)
    ensures status == Outcome(w, acc)
  {
    var steps :| Legal(w, s, steps) && HasStatus(Run(w, s, steps), acc, status);
    Quarantine.RunKeepsInv(w, s, steps);
    assert Quarantine.FilingFits(w, acc, Run(w, s, steps).filings[acc]);
  }
}
