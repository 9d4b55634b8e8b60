/**
 * One process's view of the shared budget: the wait loop, its give-back, and
 * the switch to the in-process limiter while Redis is unreachable.
 */
module SharedLimiter {
  import opened Options
  import opened SlidingWindow
  import opened MinInterval

  const MIN_SLEEP: real := 0.001

  /**
   * The server's sorted set. `lostGiveBacks` bounds how many more removals will
   * fail; `issued` stands for uuid4, which never repeats a name; `errors` counts
   * the transactions that raised a RedisError.
   */
  class Redis {
    var zset: SortedSet
    var issued: nat
    var lostGiveBacks: nat
    ghost var errors: nat

    constructor(lost: nat)
      ensures zset == map[] && lostGiveBacks == lost
    {
      zset, issued, lostGiveBacks, errors := map[], 0, lost, 0;
    }

    /** The MULTI/EXEC; on an error the reply is lost and it may or may not have run. */
    method Execute(now: real) returns (ok: bool, member: Member, count: nat, oldest: real)
      modifies this`zset, this`issued, this`errors
      ensures errors == old(errors) + if ok then 0 else 1
      ensures member == old(issued) && issued == old(issued) + 1
      ensures ok ==> zset == Transact(old(zset), member, now) && count == |zset| && IsOldest(zset, oldest)
      ensures !ok ==> zset == old(zset) || zset == Transact(old(zset), member, now)
    {
      member, issued := issued, issued + 1;
      ok, count, oldest := *, 0, 0.0;
      errors := errors + if ok then 0 else 1;
      var lost: bool := *;
      if ok || !lost {
        zset := Transact(zset, member, now);
        count := |zset|;
        OldestExists(zset);
        var first :| first in zset && forall k :: k in zset ==> zset[first] <= zset[k];
        oldest := zset[first];
      }
    }

    /** ZREM, whose failure the caller ignores. */
    method Remove(member: Member)
      modifies this`zset, this`lostGiveBacks
      ensures (zset == old(zset) - {member} && lostGiveBacks == old(lostGiveBacks)) ||
              (zset == old(zset) && lostGiveBacks + 1 == old(lostGiveBacks))
    {
      var reached: bool := *;
      if reached || lostGiveBacks == 0 {
        zset := zset - {member};
      } else {
        lostGiveBacks := lostGiveBacks - 1;
      }
    }
  }

  /**
   * After the nap the oldest member has aged out, whether or not the give-back
   * arrived.
   */
  lemma SleepFreesSlot(z: SortedSet, m: Member, now: real, oldest: real, later: real)
    requires m in z && z[m] == now && 2 <= |z| && (forall k :: k in z ==> z[k] <= now)
    requires IsOldest(z, oldest) && oldest + WINDOW <= later
    ensures |Prune(z, later)| < |z|
    ensures |Prune(z - {m}, later)| < |z| - 1
  {
    OldestAgesOut(z, oldest, later);
    var rest := z - {m};
    assert rest.Keys == z.Keys - {m} && |rest| == |z| - 1;
    var k :| k in z && z[k] == oldest;
    var j := k;
    if k == m { j :| j in rest.Keys; }
    assert j in rest && rest[j] == oldest;
    OldestAgesOut(rest, oldest, later);
  }

  /** During an outage Redis is tried at most once in any REPROBE_SECONDS. */
  lemma OneProbePerOutagePeriod(probes: seq<real>, lo: real)
    requires Spaced(probes, REPROBE_SECONDS)
    ensures CountIn(probes, lo, lo + REPROBE_SECONDS) <= 1
  {
    SpacedWindow(probes, REPROBE_SECONDS, lo, 1);
    assert 1 as real * REPROBE_SECONDS == REPROBE_SECONDS;
  }

  /** Over budget: what one transaction leaves behind, with its own member the newest. */
  ghost predicate Crowded(z: SortedSet, member: Member, oldest: real, now: real) {
    && 2 <= |z| && IsOldest(z, oldest) && now - WINDOW < oldest
    && member in z && z[member] == now && forall k :: k in z ==> z[k] <= now
  }

  /** With nothing scored in the future, the oldest score after a transaction is above its prune. */
  lemma AfterTransact(z: SortedSet, member: Member, now: real, oldest: real)
    requires member !in z && (forall k :: k in z ==> z[k] <= now) && IsOldest(Transact(z, member, now), oldest)
    ensures var after := Transact(z, member, now);
      |after| == |Prune(z, now)| + 1 && (2 <= |after| ==> Crowded(after, member, oldest, now))
  {
    assert Transact(z, member, now).Keys == Prune(z, now).Keys + {member};
  }

  /** The next `sleeps` naps were taken, each of at most a second. */
  ghost predicate ShortNaps(before: seq<real>, after: seq<real>, sleeps: nat) {
    && |before| + sleeps <= |after| && before == after[..|before|]
    && forall k :: |before| <= k < |before| + sleeps ==> 0.0 < after[k] <= WINDOW
  }

  lemma NoNaps(naps: seq<real>)
    ensures ShortNaps(naps, naps, 0)
  {
  }

  /** One more short nap, or naps of the fallback after them. */
  lemma NapMore(before: seq<real>, mid: seq<real>, after: seq<real>, sleeps: nat)
    requires ShortNaps(before, mid, sleeps) && mid <= after
    ensures ShortNaps(before, after, sleeps)
    ensures |mid| == |before| + sleeps < |after| && 0.0 < after[|mid|] <= WINDOW ==>
              ShortNaps(before, after, sleeps + 1)
  {
    assert forall k :: 0 <= k < |mid| ==> after[k] == mid[k];
  }

  datatype Outcome = Granted | Unreachable | Over(member: Member, oldest: real)

  datatype Turn = Shared | Local | Again

  class SharedRateLimiter {
    const redis: Redis
    const budget: nat
    const clock: Clock
    const fallback: RateLimiter
    var fallbackUntil: Option<real>
    /** When Redis was tried and failed since it was last reachable. */
    ghost var probes: seq<real>

    ghost predicate Valid()
      reads this, fallback
    {
      && fallback.Valid() && fallback.interval == 0.5
      && (fallbackUntil.None? ==> probes == [])
      && (fallbackUntil.Some? ==>
            probes != [] && fallbackUntil.value == probes[|probes| - 1] + REPROBE_SECONDS)
      && Spaced(probes, REPROBE_SECONDS)
    }

    constructor(redis: Redis, budget: nat, clock: Clock)
      ensures Valid() && this.redis == redis && this.budget == budget && this.clock == clock
      ensures fallbackUntil == None && fresh(fallback)
    {
      this.redis, this.budget, this.clock := redis, budget, clock;
      fallback := new RateLimiter(FALLBACK_PER_SECOND);
      fallbackUntil, probes := None, [];
    }

    /** Members were named and scored in the past. */
    ghost predicate Synced()
      reads this, redis, clock
    {
      forall m :: m in redis.zset ==> m < redis.issued && redis.zset[m] <= clock.now
    }

    /** How many members are in the way of one more request. */
    ghost function Backlog(): int
      reads this, redis, clock
    {
      |Prune(redis.zset, clock.now)| - budget + 1 + redis.lostGiveBacks
    }

    method ReadClock() returns (now: real)
      requires Synced()
      modifies clock`now
      ensures now == clock.now && old(clock.now) <= now && Synced() && Backlog() <= old(Backlog())
    {
      now := clock.Read();
      PruneShrinks(redis.zset, old(clock.now), now);
    }

    method PaceLocally()
      requires Valid() && Synced()
      modifies clock, fallback
      ensures Valid() && Synced() && old(clock.now) <= clock.now && old(clock.naps) <= clock.naps
      ensures fallback.granted == old(fallback.granted) + [clock.now]
    {
      fallback.Wait(clock);
    }

    /** One transaction, and what its reply says about the fallback. */
    method TryShared(now: real) returns (outcome: Outcome)
      requires Valid() && Synced() && now == clock.now
      requires fallbackUntil.Some? ==> fallbackUntil.value <= now
      modifies this`fallbackUntil, this`probes, redis`zset, redis`issued, redis`errors
      ensures Valid() && Synced() && redis.issued == old(redis.issued) + 1
      ensures redis.errors == old(redis.errors) + if outcome.Unreachable? then 1 else 0
      ensures !outcome.Unreachable? ==>
                && redis.zset == Transact(old(redis.zset), old(redis.issued), now)
                && (outcome.Granted? <==> |Prune(old(redis.zset), now)| < budget)
      ensures outcome.Unreachable? ==> fallbackUntil == Some(now + REPROBE_SECONDS) && probes == old(probes) + [now]
      ensures !outcome.Unreachable? ==> fallbackUntil == None && probes == []
      ensures outcome.Granted? ==>
                |redis.zset| <= budget && old(redis.issued) in redis.zset && redis.zset[old(redis.issued)] == now
      ensures outcome.Over? ==>
                && budget < |redis.zset|
                && outcome.member == old(redis.issued)
                && |redis.zset| == |Prune(old(redis.zset), now)| + 1
                && IsOldest(redis.zset, outcome.oldest)
                && (0 < budget ==> Crowded(redis.zset, outcome.member, outcome.oldest, now))
    {
      ghost var before := redis.zset;
      var ok, member, count, oldest := redis.Execute(now);
      if !ok {
        fallbackUntil := Some(now + REPROBE_SECONDS);
        probes := probes + [now];
        return Unreachable;
      }
      fallbackUntil, probes := None, [];
      outcome := if count <= budget then Granted else Over(member, oldest);
      AfterTransact(before, member, now, oldest);
      hide Transact, Prune, IsOldest, Crowded;
    }

    /** Over budget: return the slot, then wait for the oldest request to age out. */
    method GiveBackAndSleep(member: Member, now: real, oldest: real)
      requires Synced() && now <= clock.now && Crowded(redis.zset, member, oldest, now)
      modifies redis`zset, redis`lostGiveBacks, clock
      ensures Synced() && old(clock.now) <= clock.now
      ensures Backlog() < old(|redis.zset| - budget + redis.lostGiveBacks)
      ensures redis.zset == old(redis.zset) - {member} ||
              (redis.zset == old(redis.zset) && redis.lostGiveBacks + 1 == old(redis.lostGiveBacks))
      ensures clock.naps == old(clock.naps) + [if oldest + WINDOW - now < MIN_SLEEP then MIN_SLEEP
                                               else oldest + WINDOW - now]
      ensures 0.0 < clock.naps[|old(clock.naps)|] <= WINDOW
    {
      ghost var full := redis.zset;
      redis.Remove(member);
      var gap := oldest + WINDOW - now;
      var nap := if gap < MIN_SLEEP then MIN_SLEEP else gap;
      nap := if WINDOW < nap then WINDOW else nap;
      clock.Sleep(nap);
      SleepFreesSlot(full, member, now, oldest, clock.now);
    }

    /** One turn of the loop: let through by Redis, paced by the fallback, or slept and to try again. */
    method TakeTurn() returns (turn: Turn)
      requires Valid() && Synced() && 0 < budget
      modifies this`fallbackUntil, this`probes, redis, clock, fallback
      ensures Valid() && Synced() && old(clock.now) <= clock.now
      ensures !turn.Local? ==>
                && redis.errors == old(redis.errors) && redis.issued == old(redis.issued) + 1
                && fallbackUntil == None && probes == [] && fallback.granted == old(fallback.granted)
                && (old(fallbackUntil).Some? ==> old(fallbackUntil).value <= clock.now)
      ensures turn.Shared? ==>
                && clock.naps == old(clock.naps) && |redis.zset| <= budget
                && redis.issued - 1 in redis.zset && old(clock.now) <= redis.zset[redis.issued - 1] <= clock.now
      ensures turn.Local? ==>
                && fallbackUntil.Some? && fallback.granted == old(fallback.granted) + [clock.now]
                && old(clock.naps) <= clock.naps
                && (Failed(old(redis.errors), old(clock.now)) ||
                    Waiting(old(redis.errors), old(clock.now), old(fallbackUntil), old(redis.zset), old(probes)))
      ensures turn.Again? ==>
                && Backlog() < old(Backlog()) && budget <= |Prune(old(redis.zset), old(clock.now))|
                && |clock.naps| == |old(clock.naps)| + 1 && old(clock.naps) <= clock.naps
                && 0.0 < clock.naps[|old(clock.naps)|] <= WINDOW
    {
      hide Crowded, Prune, Spaced, Transact;
      PruneShrinks(redis.zset, clock.now, clock.now);
      ghost var start, full := clock.now, redis.zset;
      var now := ReadClock();
      if fallbackUntil.Some? && now < fallbackUntil.value {
        PaceLocally();
        return Local;
      }
      PruneShrinks(full, start, now);
      var outcome := TryShared(now);
      match outcome
      case Granted =>
        turn := Shared;
      case Unreachable =>
        PaceLocally();
        turn := Local;
      case Over(member, oldest) =>
        GiveBackAndSleep(member, now, oldest);
        turn := Again;
    }

    /** The transaction raised an error, and the fallback period runs from then. */
    ghost predicate Failed(errors: nat, start: real)
      reads this, redis, clock
    {
      && redis.errors == errors + 1 && probes != [] && start <= probes[|probes| - 1] <= clock.now
      && fallbackUntil == Some(probes[|probes| - 1] + REPROBE_SECONDS)
    }

    /** A fallback period was in force, and Redis was not asked. */
    ghost predicate Waiting(errors: nat, start: real, until: Option<real>, zset: SortedSet, before: seq<real>)
      reads this, redis
    {
      && redis.errors == errors && redis.zset == zset && probes == before
      && until.Some? && start < until.value && fallbackUntil == until
    }

    /**
     * Block until one more request is allowed. With no other caller active this
     * sleeps at most once per member in the way and per lost give-back, each
     * time for at most a second; with room in the set it does not sleep, and
     * exactly full and nothing lost it sleeps at most once. Only an error, or a
     * fallback period in force at the call, makes it use the fallback.
     */
    method Wait() returns (sleeps: nat, shared: bool)
      requires Valid() && Synced() && 0 < budget
      modifies this`fallbackUntil, this`probes, redis, clock, fallback
      ensures Valid() && Synced()
      ensures sleeps == 0 || sleeps <= old(Backlog())
      ensures ShortNaps(old(clock.naps), clock.naps, sleeps)
      ensures shared ==> |clock.naps| == |old(clock.naps)| + sleeps
      ensures |Prune(old(redis.zset), old(clock.now))| < budget ==> sleeps == 0
      ensures |old(redis.zset)| <= budget && old(redis.lostGiveBacks) == 0 ==> sleeps <= 1
      ensures shared ==>
                && redis.errors == old(redis.errors) && |redis.zset| <= budget
                && old(redis.issued) < redis.issued && redis.issued - 1 in redis.zset
                && old(clock.now) <= redis.zset[redis.issued - 1]
                && fallbackUntil == None && probes == [] && fallback.granted == old(fallback.granted)
                && (old(fallbackUntil).Some? ==> old(fallbackUntil).value <= clock.now)
      ensures !shared ==> fallback.granted == old(fallback.granted) + [clock.now]
      ensures !shared ==>
                || Failed(old(redis.errors), old(clock.now))
                || (sleeps == 0 &&
                    Waiting(old(redis.errors), old(clock.now), old(fallbackUntil), old(redis.zset), old(probes)))
      ensures redis.errors == old(redis.errors) && old(fallbackUntil).None? ==> shared
    {
      hide ShortNaps, Prune, Spaced;
      sleeps := 0;
      ghost var fuel := Backlog();
      NoNaps(clock.naps);
      PruneShrinks(redis.zset, clock.now, clock.now);
      while true
        invariant Valid() && Synced()
        invariant Backlog() + sleeps <= fuel && (sleeps == 0 || sleeps <= fuel)
        invariant sleeps == 0 ==> unchanged(this`fallbackUntil) && unchanged(this`probes) && unchanged(redis)
                                  && clock.now == old(clock.now)
        invariant sleeps > 0 ==>
                    && fallbackUntil == None && probes == [] && budget <= |Prune(old(redis.zset), old(clock.now))|
                    && (old(fallbackUntil).Some? ==> old(fallbackUntil).value <= clock.now)
        invariant old(redis.issued) <= redis.issued && redis.errors == old(redis.errors)
        invariant ShortNaps(old(clock.naps), clock.naps, sleeps) && |clock.naps| == |old(clock.naps)| + sleeps
        invariant fallback.granted == old(fallback.granted) && old(clock.now) <= clock.now
        decreases fuel - sleeps
      {
        ghost var naps := clock.naps;
        var turn := TakeTurn();
        NapMore(old(clock.naps), naps, clock.naps, sleeps);
        if !turn.Again? {
          return sleeps, turn.Shared?;
        }
        sleeps := sleeps + 1;
      }
    }
  }
}
