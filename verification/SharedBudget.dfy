/**
 * The cross-process rate limiter as a transition system: any number of
 * processes, one sorted set, one clock. A process reads the clock in one step
 * and runs its transaction in a later one, so other processes run in between.
 * Give-backs are separate steps that may fail, a transaction may be applied and
 * still look like an error to its caller, and the key may expire.
 */
module SharedBudget {
  import opened Options
  import opened Sets
  import opened SlidingWindow

  /** budget is max_per_second; latency bounds clock read to transaction. */
  datatype Config = Config(budget: nat, latency: real)

  datatype Phase =
    | Idle
    | HasClock(now: real)
    | OverBudget(member: Member)

  datatype Process = Process(phase: Phase, fallbackUntil: Option<real>)

  /** grants is history: every request the shared budget let through, and when. */
  datatype State = State(
    wall: real,
    zset: SortedSet,
    expireAt: real,
    procs: seq<Process>,
    used: set<Member>,
    grants: map<Member, real>)

  datatype Step =
    | Tick(elapsed: real)
    | ReadClock(p: nat)
    | UseFallback(p: nat)
    | Exec(p: nat, member: Member)
    | ExecError(p: nat, member: Member, applied: bool)
    | GiveBack(p: nat, applied: bool)
    | ExpireKey

  function Init(processes: nat): State {
    State(0.0, map[], 0.0, seq(processes, i => Process(Idle, None)), {}, map[])
  }

  /** On the fallback and not yet due to try Redis again. */
  predicate HoldsOff(proc: Process, now: real) {
    proc.fallbackUntil.Some? && now < proc.fallbackUntil.value
  }

  predicate CanTransact(c: Config, s: State, p: nat, m: Member) {
    && p < |s.procs|
    && s.procs[p].phase.HasClock?
    && !HoldsOff(s.procs[p], s.procs[p].phase.now)
    && m !in s.used
    && s.wall - s.procs[p].phase.now <= c.latency
  }

  predicate Enabled(c: Config, s: State, step: Step) {
    match step
    case Tick(d) => 0.0 <= d
    case ReadClock(p) => p < |s.procs| && s.procs[p].phase.Idle?
    case UseFallback(p) =>
      p < |s.procs| && s.procs[p].phase.HasClock? && HoldsOff(s.procs[p], s.procs[p].phase.now)
    case Exec(p, m) => CanTransact(c, s, p, m)
    case ExecError(p, m, _) => CanTransact(c, s, p, m)
    case GiveBack(p, _) => p < |s.procs| && s.procs[p].phase.OverBudget?
    case ExpireKey => s.expireAt <= s.wall
  }

  function Apply(c: Config, s: State, step: Step): State
    requires Enabled(c, s, step)
  {
    match step
    case Tick(d) => s.(wall := s.wall + d)
    case ReadClock(p) => s.(procs := s.procs[p := s.procs[p].(phase := HasClock(s.wall))])
    case UseFallback(p) => s.(procs := s.procs[p := s.procs[p].(phase := Idle)])
    case Exec(p, m) =>
      var now := s.procs[p].phase.now;
      var z := Transact(s.zset, m, now);
      var ok := |z| <= c.budget;
      s.(zset := z,
         expireAt := s.wall + KEY_TTL,
         used := s.used + {m},
         procs := s.procs[p := Process(if ok then Idle else OverBudget(m), None)],
         grants := if ok then s.grants[m := s.wall] else s.grants)
    case ExecError(p, m, applied) =>
      var now := s.procs[p].phase.now;
      s.(zset := if applied then Transact(s.zset, m, now) else s.zset,
         expireAt := if applied then s.wall + KEY_TTL else s.expireAt,
         used := s.used + {m},
         procs := s.procs[p := Process(Idle, Some(now + REPROBE_SECONDS))])
    case GiveBack(p, applied) =>
      s.(zset := if applied then s.zset - {s.procs[p].phase.member} else s.zset,
         procs := s.procs[p := s.procs[p].(phase := Idle)])
    case ExpireKey => s.(zset := map[])
  }

  /** Every step of the schedule can be taken when its turn comes. */
  predicate Legal(c: Config, s: State, steps: seq<Step>)
    decreases |steps|
  {
    |steps| == 0 || (Enabled(c, s, steps[0]) && Legal(c, Apply(c, s, steps[0]), steps[1..]))
  }

  function Run(c: Config, s: State, steps: seq<Step>): State
    requires Legal(c, s, steps)
    decreases |steps|
  {
    if |steps| == 0 then s else Run(c, Apply(c, s, steps[0]), steps[1..])
  }

  ghost predicate WindowsBounded(grants: map<Member, real>, length: real, budget: nat) {
    forall lo :: |InWindow(grants, lo, length)| <= budget
  }

  /**
   * A grant is still counted by Redis, under a score that lags it by no more
   * than the latency, or it is too old to share a short window with the present.
   */
  ghost predicate Accounted(c: Config, s: State, m: Member)
    requires m in s.grants
  {
    || (m in s.zset && s.grants[m] - c.latency <= s.zset[m] <= s.grants[m])
    || s.grants[m] - c.latency + WINDOW <= s.wall
  }

  /** Members have been used, and the key outlives every score by its time to live. */
  ghost predicate SetKept(s: State) {
    && (forall m :: m in s.zset ==> m in s.used && s.zset[m] + KEY_TTL <= s.expireAt)
    && s.expireAt <= s.wall + KEY_TTL
  }

  ghost predicate GrantsKept(c: Config, s: State) {
    forall m :: m in s.grants ==> m in s.used && s.grants[m] <= s.wall && Accounted(c, s, m)
  }

  ghost predicate CallersKept(s: State) {
    && (forall p :: 0 <= p < |s.procs| && s.procs[p].phase.HasClock? ==> s.procs[p].phase.now <= s.wall)
    && (forall p :: 0 <= p < |s.procs| && s.procs[p].phase.OverBudget? ==>
          s.procs[p].phase.member in s.used && s.procs[p].phase.member !in s.grants)
  }

  /** What each step keeps besides the windows themselves. */
  ghost predicate Bookkeeping(c: Config, s: State) {
    SetKept(s) && GrantsKept(c, s) && CallersKept(s)
  }

  ghost predicate Inv(c: Config, s: State) {
    Bookkeeping(c, s) && WindowsBounded(s.grants, WINDOW - c.latency, c.budget)
  }

  /**
   * The heart of the safety argument: when a transaction finds room, every
   * earlier grant that shares a short enough window with it is still a member.
   */
  lemma GrantKeepsWindows(c: Config, s: State, p: nat, m: Member, lo: real)
    requires 0.0 <= c.latency && Inv(c, s) && CanTransact(c, s, p, m)
    requires |Transact(s.zset, m, s.procs[p].phase.now)| <= c.budget
    ensures |InWindow(s.grants[m := s.wall], lo, WINDOW - c.latency)| <= c.budget
  {
    var now := s.procs[p].phase.now;
    var z := Transact(s.zset, m, now);
    var after := InWindow(s.grants[m := s.wall], lo, WINDOW - c.latency);
    if m in after {
      forall k | k in after ensures k in z {
        if k != m { assert Accounted(c, s, k); }
      }
      SubsetSize(after, z.Keys);
    } else {
      SubsetSize(after, InWindow(s.grants, lo, WINDOW - c.latency));
    }
  }

  lemma StepKeepsSet(c: Config, s: State, step: Step)
    requires SetKept(s) && CallersKept(s) && Enabled(c, s, step)
    ensures SetKept(Apply(c, s, step))
  {
  }

  lemma StepKeepsCallers(c: Config, s: State, step: Step)
    requires GrantsKept(c, s) && CallersKept(s) && Enabled(c, s, step)
    ensures CallersKept(Apply(c, s, step))
  {
    hide Transact;
  }

  /** A grant loses its member only to a prune, a key expiry or its own caller. */
  lemma StepKeepsGrants(c: Config, s: State, step: Step, m: Member)
    requires 0.0 <= c.latency && Bookkeeping(c, s) && Enabled(c, s, step) && m in Apply(c, s, step).grants
    ensures var s' := Apply(c, s, step);
      m in s'.used && s'.grants[m] <= s'.wall && Accounted(c, s', m)
  {
    if m in s.grants { assert Accounted(c, s, m); }
  }

  lemma StepKeepsBookkeeping(c: Config, s: State, step: Step)
    requires 0.0 <= c.latency && Bookkeeping(c, s) && Enabled(c, s, step)
    ensures Bookkeeping(c, Apply(c, s, step))
  {
    StepKeepsSet(c, s, step);
    StepKeepsCallers(c, s, step);
    hide SetKept, CallersKept, Apply, Enabled, Accounted;
    var s' := Apply(c, s, step);
    forall m | m in s'.grants ensures m in s'.used && s'.grants[m] <= s'.wall && Accounted(c, s', m) {
      StepKeepsGrants(c, s, step, m);
    }
  }

  lemma StepKeepsInv(c: Config, s: State, step: Step)
    requires 0.0 <= c.latency && Inv(c, s) && Enabled(c, s, step)
    ensures Inv(c, Apply(c, s, step))
  {
    StepKeepsBookkeeping(c, s, step);
    hide Bookkeeping, InWindow, Transact, WindowsBounded;
    var s' := Apply(c, s, step);
    if s'.grants != s.grants { GrantBounded(c, s, step.p, step.member); }
  }

  lemma GrantBounded(c: Config, s: State, p: nat, m: Member)
    requires 0.0 <= c.latency && Inv(c, s) && CanTransact(c, s, p, m)
    requires |Transact(s.zset, m, s.procs[p].phase.now)| <= c.budget
    ensures WindowsBounded(s.grants[m := s.wall], WINDOW - c.latency, c.budget)
  {
    hide Inv, CanTransact, Transact, InWindow;
    var grants, length := s.grants[m := s.wall], WINDOW - c.latency;
    forall lo ensures |InWindow(grants, lo, length)| <= c.budget {
      GrantKeepsWindows(c, s, p, m, lo);
    }
  }

  lemma {:induction false} RunKeepsInv(c: Config, s: State, steps: seq<Step>)
    requires 0.0 <= c.latency && Inv(c, s) && Legal(c, s, steps)
    ensures Inv(c, Run(c, s, steps))
    decreases |steps|
  {
    if |steps| > 0 {
      StepKeepsInv(c, s, steps[0]);
      RunKeepsInv(c, Apply(c, s, steps[0]), steps[1..]);
    }
  }

  /**
   * Safety over every run of any number of processes: when no transaction lags
   * its clock read by more than `latency`, no half-open window of length
   * one second minus `latency` ever holds more grants than the budget.
   */
  lemma NoWindowExceedsBudget(c: Config, processes: nat, steps: seq<Step>)
    requires 0.0 <= c.latency && Legal(c, Init(processes), steps)
    ensures WindowsBounded(Run(c, Init(processes), steps).grants, WINDOW - c.latency, c.budget)
  {
    var s := Init(processes);
    var length := WINDOW - c.latency;
    assert forall lo :: InWindow(s.grants, lo, length) == {};
    RunKeepsInv(c, s, steps);
  }

  // ---- and it refuses none needlessly ------------------------------------------------

  /** No transaction was applied behind an error, and no give-back was lost. */
  predicate Faultless(step: Step) {
    (step.ExecError? ==> !step.applied) && (step.GiveBack? ==> step.applied)
  }

  /** m was let through, or waits to be given back by a process that was refused. */
  ghost predicate Explained(s: State, m: Member) {
    m in s.grants || exists p :: 0 <= p < |s.procs| && s.procs[p].phase == OverBudget(m)
  }

  ghost predicate AllExplained(s: State) {
    forall m :: m in s.zset ==> Explained(s, m)
  }

  lemma StepExplains(c: Config, s: State, step: Step)
    requires AllExplained(s) && Enabled(c, s, step) && Faultless(step)
    ensures AllExplained(Apply(c, s, step))
  {
    var t := Apply(c, s, step);
    forall m | m in t.zset ensures Explained(t, m) {
      if m in s.zset {
        assert Explained(s, m);
        if p :| 0 <= p < |s.procs| && s.procs[p].phase == OverBudget(m) {
          assert m in t.grants || t.procs[p].phase == OverBudget(m);
        }
      } else {
        assert step.Exec? && m == step.member;
        assert m in t.grants || t.procs[step.p].phase == OverBudget(m);
      }
    }
  }

  lemma {:induction false} RunExplains(c: Config, s: State, steps: seq<Step>)
    requires AllExplained(s) && Legal(c, s, steps) && forall step :: step in steps ==> Faultless(step)
    ensures AllExplained(Run(c, s, steps))
    decreases |steps|
  {
    if |steps| > 0 {
      StepExplains(c, s, steps[0]);
      hide Enabled, Apply, AllExplained, Faultless;
      RunExplains(c, Apply(c, s, steps[0]), steps[1..]);
    }
  }

  /** Members scored in the second up to now, each a request let through or one about to be given back. */
  ghost predicate InTheWay(s: State, now: real, others: set<Member>) {
    forall m :: m in others ==> m in s.zset && now - WINDOW < s.zset[m] && Explained(s, m)
  }

  /**
   * The budget is not wasted: on a run without faults a refused transaction
   * finds `budget` members of the last second, each of them let through or
   * about to be given back by a process refused as well.
   */
  lemma RefusedOnlyWhenFull(c: Config, processes: nat, steps: seq<Step>, p: nat, m: Member)
    returns (others: set<Member>)
    requires Legal(c, Init(processes), steps) && forall step :: step in steps ==> Faultless(step)
    requires var s := Run(c, Init(processes), steps);
      CanTransact(c, s, p, m) && Apply(c, s, Exec(p, m)).procs[p].phase == OverBudget(m)
    ensures var s := Run(c, Init(processes), steps);
      c.budget <= |others| && InTheWay(s, s.procs[p].phase.now, others)
  {
    var s := Run(c, Init(processes), steps);
    RunExplains(c, Init(processes), steps);
    var kept := Prune(s.zset, s.procs[p].phase.now);
    others := kept.Keys;
    assert Transact(s.zset, m, s.procs[p].phase.now).Keys <= others + {m};
    SubsetSize(Transact(s.zset, m, s.procs[p].phase.now).Keys, others + {m});
  }

  // ---- when a process tries Redis again ------------------------------------------------

  predicate Tries(step: Step, p: nat) {
    (step.Exec? || step.ExecError?) && step.p == p
  }

  /** Only its own transactions move a process on to the fallback or off it. */
  lemma {:induction false} FallbackStays(c: Config, s: State, steps: seq<Step>, p: nat)
    requires Legal(c, s, steps) && p < |s.procs| && forall step :: step in steps ==> !Tries(step, p)
    ensures var t := Run(c, s, steps);
      p < |t.procs| && t.procs[p].fallbackUntil == s.procs[p].fallbackUntil
    decreases |steps|
  {
    if |steps| > 0 {
      assert !Tries(steps[0], p);
      FallbackStays(c, Apply(c, s, steps[0]), steps[1..], p);
    }
  }

  /**
   * In whatever else happens meanwhile: after an error a process asks Redis next
   * with a clock read thirty seconds later or more; after a transaction that
   * went through, at its next request.
   */
  lemma TriesAgain(c: Config, s: State, p: nat, m: Member, step: Step, steps: seq<Step>, next: Member)
    requires CanTransact(c, s, p, m)
    requires step == Exec(p, m) || step == ExecError(p, m, true) || step == ExecError(p, m, false)
    requires Legal(c, Apply(c, s, step), steps) && forall x :: x in steps ==> !Tries(x, p)
    ensures var t := Run(c, Apply(c, s, step), steps);
      && p < |t.procs|
      && (step.ExecError? && CanTransact(c, t, p, next) ==> s.procs[p].phase.now + 30.0 <= t.procs[p].phase.now)
      && (step.Exec? && t.procs[p].phase.HasClock? && next !in t.used && t.wall - t.procs[p].phase.now <= c.latency ==>
            CanTransact(c, t, p, next))
  {
    FallbackStays(c, Apply(c, s, step), steps, p);
  }
}
