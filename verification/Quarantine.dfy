/**
 * The parser's verdict is a function of the document: over every run a filing
 * it accepts is never quarantined, and one it rejects is never parsed, chunked
 * or embedded.
 */
module Quarantine {
  import opened Pipeline
  import opened Reconciler

  ghost predicate FilingFits(w: World, acc: Acc, f: Filing) {
    if w.accepts(acc) then !f.status.Quarantined?
    else !f.silverKey && !f.status.Parsed? && !f.status.Embedded?
  }

  ghost predicate Inv(w: World, s: State) {
    && (forall acc :: acc in s.filings ==> FilingFits(w, acc, s.filings[acc]))
    && (forall i :: i in s.attempts ==> w.accepts(s.attempts[i].acc))
  }

  lemma BulkStepsKeepInv(w: World, s: State, accs: seq<Acc>)
    requires Inv(w, s)
    ensures Inv(w, ApplyRecovery(s, accs))
    ensures (forall a :: a in accs ==> a in s.filings && s.filings[a].status.InProgress()) ==>
              Inv(w, ApplyReconcile(s, accs))
  {
  }

  lemma FilingStepsKeepInv(w: World, s: State, acc: Acc)
    requires Inv(w, s)
    ensures Inv(w, ApplyDiscover(s, acc))
    ensures acc in s.filings ==> Inv(w, ApplyFetch(s, acc)) && Inv(w, ApplyParse(s, acc, w.accepts(acc)))
  {
  }

  lemma AttemptStepsKeepInv(w: World, s: State, acc: Acc, i: nat)
    requires Inv(w, s)
    ensures acc in s.filings && s.filings[acc].silverKey ==> Inv(w, ApplyBegin(w, s, acc, i))
    ensures i in s.attempts && s.attempts[i].acc in s.filings ==> Inv(w, ApplyCommit(s, i))
    ensures i in s.attempts && s.attempts[i].sent <= |s.attempts[i].rows| ==> Inv(w, ApplyBatch(s, i))
    ensures Inv(w, s.(attempts := s.attempts - {i}))
  {
    hide Committed, Upserted, RowsSeen, Inserts;
  }

  lemma StepKeepsInv(w: World, s: State, step: Step)
    requires Inv(w, s) && Enabled(w, s, step)
    ensures Inv(w, Apply(w, s, step))
  {
    hide ApplyDiscover, ApplyFetch, ApplyParse, ApplyBegin, ApplyBatch, ApplyCommit, ApplyReconcile, ApplyRecovery,
         Blocked, IsOldest, FilingFits;
    match step
    case Discover(acc) => FilingStepsKeepInv(w, s, acc);
    case Fetch(acc) => FilingStepsKeepInv(w, s, acc);
    case Parse(acc, _) => FilingStepsKeepInv(w, s, acc);
    case EmbedBegin(acc, i) => AttemptStepsKeepInv(w, s, acc, i);
    case EmbedBatch(i) => AttemptStepsKeepInv(w, s, "", i);
    case EmbedCommit(i) => AttemptStepsKeepInv(w, s, "", i);
    case EmbedAbort(i) => AttemptStepsKeepInv(w, s, "", i);
    case Reconcile(picked) =>
      PickedInProgress(s, w.limit, picked);
      BulkStepsKeepInv(w, s, picked);
    case RunRecovery(plan) => BulkStepsKeepInv(w, s, plan);
    case _ =>
  }

  lemma {:induction false} RunKeepsInv(w: World, s: State, steps: seq<Step>)
    requires Inv(w, s) && Legal(w, s, steps)
    ensures Inv(w, Run(w, s, steps))
    decreases |steps|
  {
    if |steps| > 0 {
      StepKeepsInv(w, s, steps[0]);
      hide Inv, Enabled, Apply;
      RunKeepsInv(w, Apply(w, s, steps[0]), steps[1..]);
    }
  }

  /** On every run the verdict decides: a rejected filing is never embedded, an accepted one never quarantined. */
  lemma VerdictHolds(w: World, steps: seq<Step>, acc: Acc)
    requires Legal(w, EMPTY, steps) && acc in Run(w, EMPTY, steps).filings
    ensures Run(w, EMPTY, steps).filings[acc].status == Embedded ==> w.accepts(acc)
    ensures Run(w, EMPTY, steps).filings[acc].status == Quarantined ==> !w.accepts(acc)
  {
    RunKeepsInv(w, EMPTY, steps);
    assert FilingFits(w, acc, Run(w, EMPTY, steps).filings[acc]);
  }
}
