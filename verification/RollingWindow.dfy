/**
 * Which rolling windows the shared budget keeps: exactly the windows no longer
 * than one second minus the latency. Longer ones are broken by a schedule of
 * three processes, written out for every positive budget.
 */
module RollingWindow {
  import opened Options
  import opened Sets
  import opened SlidingWindow
  import opened SharedBudget

  /** Over every run, no half-open window of this length holds more than the budget. */
  ghost predicate RollingClaim(c: Config, length: real) {
    forall processes: nat, steps :: Legal(c, Init(processes), steps) ==>
      WindowsBounded(Run(c, Init(processes), steps).grants, length, c.budget)
  }

  lemma {:induction false} RunAppend(c: Config, s: State, a: seq<Step>, b: seq<Step>)
    requires Legal(c, s, a) && Legal(c, Run(c, s, a), b)
    ensures Legal(c, s, a + b) && Run(c, s, a + b) == Run(c, Run(c, s, a), b)
    decreases |a|
  {
    if |a| == 0 {
      assert a + b == b;
    } else {
      RunAppend(c, Apply(c, s, a[0]), a[1..], b);
      assert (a + b)[1..] == a[1..] + b;
    }
  }

  /** Some schedule leads from a fresh start of three processes to `s`. */
  ghost predicate Reaches(c: Config, s: State) {
    exists steps :: Legal(c, Init(3), steps) && Run(c, Init(3), steps) == s
  }

  lemma Then(c: Config, s: State, step: Step)
    requires Reaches(c, s) && Enabled(c, s, step)
    ensures Reaches(c, Apply(c, s, step))
  {
    var steps :| Legal(c, Init(3), steps) && Run(c, Init(3), steps) == s;
    RunAppend(c, Init(3), steps, [step]);
    assert Legal(c, Init(3), steps + [step]);
  }

  lemma ReachingBreaksClaim(c: Config, s: State, lo: real, length: real)
    requires Reaches(c, s) && |InWindow(s.grants, lo, length)| > c.budget
    ensures !RollingClaim(c, length)
  {
    var steps :| Legal(c, Init(3), steps) && Run(c, Init(3), steps) == s;
    assert !WindowsBounded(Run(c, Init(3), steps).grants, length, c.budget);
  }

  /** Members 0 to k - 1, all at one time. */
  ghost function AllAt(k: nat, time: real): SortedSet {
    if k == 0 then map[] else AllAt(k - 1, time)[k - 1 := time]
  }

  lemma {:induction false} AllAtAre(k: nat, time: real)
    ensures |AllAt(k, time)| == k
    ensures forall m: nat :: (m in AllAt(k, time) <==> m < k) && (m in AllAt(k, time) ==> AllAt(k, time)[m] == time)
  {
    if k > 0 { AllAtAre(k - 1, time); }
  }

  const REST: Process := Process(Idle, None)

  lemma ThenGranted(c: Config, s: State, p: nat, m: Member, z: SortedSet)
    requires Reaches(c, s) && CanTransact(c, s, p, m)
    requires z == Transact(s.zset, m, s.procs[p].phase.now) && |z| <= c.budget
    ensures Reaches(c, s.(zset := z, expireAt := s.wall + KEY_TTL, used := s.used + {m}, procs := s.procs[p := REST],
                          grants := s.grants[m := s.wall]))
  {
    Then(c, s, Exec(p, m));
  }

  /** k requests let through at `lag`, the first under a score of zero. */
  ghost function Burst(k: nat, lag: real): State {
    State(lag, AllAt(k, lag)[0 := 0.0], lag + KEY_TTL, [REST, REST, REST], AllAt(k, lag).Keys, AllAt(k, lag))
  }

  /** Process 1 reads the clock at zero and stalls until `lag`. */
  lemma StalledFirst(c: Config, lag: real)
    requires 0.0 < lag < WINDOW && lag <= c.latency && 1 <= c.budget
    ensures Reaches(c, Burst(1, lag))
  {
    var s0 := Init(3);
    assert Legal(c, s0, []) && Run(c, s0, []) == s0;
    Then(c, s0, ReadClock(1));
    var s1 := s0.(procs := [REST, Process(HasClock(0.0), None), REST]);
    assert Apply(c, s0, ReadClock(1)) == s1;
    Then(c, s1, Tick(lag));
    var s2 := s1.(wall := lag);
    assert Transact(s2.zset, 0, 0.0) == map[0 := 0.0];
    ThenGranted(c, s2, 1, 0, map[0 := 0.0]);
    assert s2.procs[1 := REST] == [REST, REST, REST];
    assert AllAt(1, lag) == map[0 := lag] && AllAt(1, lag)[0 := 0.0] == map[0 := 0.0];
  }

  /** The burst's scores are above the prune at `lag`, and number k. */
  lemma ScoresAt(k: nat, lag: real)
    requires 1 <= k && 0.0 < lag < WINDOW
    ensures var z := AllAt(k, lag)[0 := 0.0];
      |z| == k && k !in z && Transact(z, k, lag) == AllAt(k + 1, lag)[0 := 0.0]
  {
    AllAtAre(k, lag);
    AllAtAre(k + 1, lag);
    hide AllAt;
    var z := AllAt(k, lag)[0 := 0.0];
    assert z.Keys == AllAt(k, lag).Keys;
    assert Prune(z, lag) == z;
  }

  lemma BurstScores(k: nat, lag: real)
    requires 1 <= k && 0.0 < lag < WINDOW
    ensures var z := Burst(k, lag).zset; |z| == k && Transact(z, k, lag) == Burst(k + 1, lag).zset
    ensures k !in Burst(k, lag).used && Burst(k, lag).used + {k} == Burst(k + 1, lag).used
  {
    ScoresAt(k, lag);
    AllAtAre(k, lag);
    AllAtAre(k + 1, lag);
    hide AllAt, Transact;
  }

  lemma NextAtLag(c: Config, k: nat, lag: real)
    requires 1 <= k < c.budget && 0.0 < lag < WINDOW && 0.0 <= c.latency && Reaches(c, Burst(k, lag))
    ensures Reaches(c, Burst(k + 1, lag))
  {
    BurstScores(k, lag);
    BurstScores(k + 1, lag);
    hide Transact, Reaches;
    var s, t := Burst(k, lag), Burst(k + 1, lag);
    Then(c, s, ReadClock(0));
    var s1 := s.(procs := [Process(HasClock(lag), None), REST, REST]);
    assert s.procs[0 := Process(HasClock(lag), None)] == s1.procs;
    ThenGranted(c, s1, 0, k, t.zset);
    assert s1.procs[0 := REST] == [REST, REST, REST];
    assert t.grants == s.grants[k := lag];
  }

  /** Process 0 then takes the other slots at `lag`, without stalling. */
  lemma {:induction false} BurstReached(c: Config, k: nat, lag: real)
    requires 0.0 < lag < WINDOW && lag <= c.latency && 1 <= k <= c.budget
    ensures Reaches(c, Burst(k, lag))
    decreases k
  {
    if k == 1 {
      StalledFirst(c, lag);
    } else {
      BurstReached(c, k - 1, lag);
      NextAtLag(c, k - 1, lag);
    }
  }

  /** At the full second the stalled request's score is pruned, and one more goes through. */
  lemma OneMore(c: Config, lag: real) returns (s: State)
    requires 0.0 < lag < WINDOW && lag <= c.latency && 1 <= c.budget
    ensures Reaches(c, s) && s.grants == AllAt(c.budget, lag)[c.budget := WINDOW]
  {
    var b := c.budget;
    BurstReached(c, b, lag);
    BurstScores(b, lag);
    AllAtAre(b, lag);
    var s0 := Burst(b, lag);
    Then(c, s0, Tick(WINDOW - lag));
    var s1 := s0.(wall := WINDOW);
    Then(c, s1, ReadClock(2));
    var s2 := s1.(procs := [REST, REST, Process(HasClock(WINDOW), None)]);
    assert Apply(c, s1, ReadClock(2)) == s2;
    var z := Transact(s2.zset, b, WINDOW);
    assert z.Keys == (s2.zset.Keys - {0}) + {b};
    ThenGranted(c, s2, 2, b, z);
    s := s2.(zset := z, expireAt := WINDOW + KEY_TTL, used := s2.used + {b}, procs := s2.procs[2 := REST],
             grants := s2.grants[b := WINDOW]);
  }

  /** A lag within the latency that leaves a window of this length too long. */
  function Lag(c: Config, length: real): real {
    if c.latency < WINDOW then c.latency
    else if length < WINDOW then WINDOW - length / 2.0
    else WINDOW / 2.0
  }

  /**
   * One stalled transaction is enough. Its score is older than its request by
   * the lag, so Redis forgets the request that much too early, and the window
   * from the request on takes one more than the budget.
   */
  lemma LagBreaksClaim(c: Config, length: real)
    requires 0.0 <= c.latency && 1 <= c.budget && 0.0 < length && WINDOW - c.latency < length
    ensures !RollingClaim(c, length)
  {
    var lag, b := Lag(c, length), c.budget;
    if c.latency == 0.0 {
      ZeroLatencyLongWindow(c, length);
    } else {
      var s := OneMore(c, lag);
      AllAtAre(b, lag);
      assert InWindow(s.grants, lag, length) == AllAt(b, lag).Keys + {b};
      ReachingBreaksClaim(c, s, lag, length);
    }
  }

  /** With no lag, a window longer than a second takes two bursts. */
  lemma ZeroLatencyLongWindow(c: Config, length: real)
    requires c.latency == 0.0 && 1 <= c.budget && WINDOW < length
    ensures !RollingClaim(c, length)
  {
    var b := c.budget;
    PromptBurst(c, b);
    AllAtAre(b, 0.0);
    var s0 := Prompt(b);
    Then(c, s0, Tick(WINDOW));
    var s1 := s0.(wall := WINDOW);
    Then(c, s1, ReadClock(2));
    var s2 := s1.(procs := [REST, REST, Process(HasClock(WINDOW), None)]);
    assert Apply(c, s1, ReadClock(2)) == s2;
    assert Prune(s2.zset, WINDOW) == map[];
    var z := map[b := WINDOW];
    ThenGranted(c, s2, 2, b, z);
    var s := s2.(zset := z, expireAt := WINDOW + KEY_TTL, used := s2.used + {b}, procs := s2.procs[2 := REST],
                 grants := s2.grants[b := WINDOW]);
    assert InWindow(s.grants, 0.0, length) == AllAt(b, 0.0).Keys + {b};
    ReachingBreaksClaim(c, s, 0.0, length);
  }

  /** k requests let through at zero, none stalled. */
  ghost function Prompt(k: nat): State {
    State(0.0, AllAt(k, 0.0), if k == 0 then 0.0 else KEY_TTL, [REST, REST, REST], AllAt(k, 0.0).Keys, AllAt(k, 0.0))
  }

  lemma {:induction false} PromptBurst(c: Config, k: nat)
    requires 0.0 <= c.latency && k <= c.budget
    ensures Reaches(c, Prompt(k))
  {
    if k == 0 {
      assert Prompt(0) == Init(3);
      assert Legal(c, Init(3), []);
    } else {
      PromptBurst(c, k - 1);
      AllAtAre(k - 1, 0.0);
      AllAtAre(k, 0.0);
      var s := Prompt(k - 1);
      Then(c, s, ReadClock(0));
      var s1 := s.(procs := [Process(HasClock(0.0), None), REST, REST]);
      assert Apply(c, s, ReadClock(0)) == s1;
      assert Prune(s1.zset, 0.0) == s1.zset;
      ThenGranted(c, s1, 0, k - 1, AllAt(k, 0.0));
      assert s1.procs[0 := REST] == [REST, REST, REST];
    }
  }

  lemma {:induction false} ZeroBudgetGrantsNothing(c: Config, s: State, steps: seq<Step>)
    requires c.budget == 0 && s.grants == map[] && Legal(c, s, steps)
    ensures Run(c, s, steps).grants == map[]
    decreases |steps|
  {
    if |steps| > 0 {
      ZeroBudgetGrantsNothing(c, Apply(c, s, steps[0]), steps[1..]);
    }
  }

  lemma NothingGranted(c: Config, length: real)
    requires c.budget == 0
    ensures RollingClaim(c, length)
  {
    forall processes: nat, steps | Legal(c, Init(processes), steps)
      ensures WindowsBounded(Run(c, Init(processes), steps).grants, length, c.budget)
    {
      ZeroBudgetGrantsNothing(c, Init(processes), steps);
      var g := Run(c, Init(processes), steps).grants;
      assert forall lo :: InWindow(g, lo, length) == {};
    }
  }

  lemma ShortWindowsHold(c: Config, length: real)
    requires 0.0 <= c.latency && (length <= 0.0 || length <= WINDOW - c.latency)
    ensures RollingClaim(c, length)
  {
    forall processes: nat, steps | Legal(c, Init(processes), steps)
      ensures WindowsBounded(Run(c, Init(processes), steps).grants, length, c.budget)
    {
      NoWindowExceedsBudget(c, processes, steps);
      var g := Run(c, Init(processes), steps).grants;
      forall lo ensures |InWindow(g, lo, length)| <= c.budget {
        if length <= 0.0 {
          assert InWindow(g, lo, length) == {};
        } else {
          SubsetSize(InWindow(g, lo, length), InWindow(g, lo, WINDOW - c.latency));
        }
      }
    }
  }

  /**
   * Exactly which windows the limiter bounds, over every run: those no longer
   * than a second less the latency, and no others unless it grants nothing.
   */
  lemma RollingExactly(c: Config, length: real)
    requires 0.0 <= c.latency
    ensures RollingClaim(c, length) <==> c.budget == 0 || length <= 0.0 || length <= WINDOW - c.latency
  {
    if c.budget == 0 {
      NothingGranted(c, length);
    } else if length <= 0.0 || length <= WINDOW - c.latency {
      ShortWindowsHold(c, length);
    } else {
      LagBreaksClaim(c, length);
    }
  }

  /**
   * The documented claim, any rolling second, is true exactly when no time
   * passes between clock read and transaction, or the budget grants nothing.
   */
  lemma RollingSecondExactly(c: Config)
    requires 0.0 <= c.latency
    ensures RollingClaim(c, WINDOW) <==> c.latency == 0.0 || c.budget == 0
  {
    RollingExactly(c, WINDOW);
  }
}
