/**
 * The Redis sorted set behind the shared SEC budget, and the windows it is
 * meant to bound. Every member is a request, scored by the clock value its
 * caller read.
 */
module SlidingWindow {
  import opened Sets

  const WINDOW: real := 1.0
  const KEY_TTL: real := 2.0
  const REPROBE_SECONDS: real := 30.0

  type Member = nat
  type SortedSet = map<Member, real>

  /** ZREMRANGEBYSCORE key -inf (now - WINDOW): both ends inclusive. */
  function Prune(z: SortedSet, now: real): SortedSet {
    map m | m in z && now - WINDOW < z[m] :: z[m]
  }

  /** The MULTI/EXEC transaction's effect on the sorted set: prune, then add. */
  function Transact(z: SortedSet, m: Member, now: real): SortedSet {
    Prune(z, now)[m := now]
  }

  /** ZRANGE key 0 0 WITHSCORES: the lowest score present. */
  ghost predicate IsOldest(z: SortedSet, score: real) {
    && (exists m :: m in z && z[m] == score)
    && (forall m :: m in z ==> score <= z[m])
  }

  /** The requests granted in the half-open interval [lo, lo + length). */
  ghost function InWindow(grants: map<Member, real>, lo: real, length: real): set<Member> {
    set m | m in grants && lo <= grants[m] < lo + length
  }

  lemma {:induction false} OldestExists(z: SortedSet)
    requires z != map[]
    ensures exists score :: IsOldest(z, score)
    decreases |z|
  {
    var m :| m in z;
    var rest := z - {m};
    if rest == map[] {
      assert forall k :: k in z && k != m ==> k in rest;
      assert IsOldest(z, z[m]);
    } else {
      assert |rest.Keys| < |z.Keys| by { assert rest.Keys == z.Keys - {m}; }
      OldestExists(rest);
      var s :| IsOldest(rest, s);
      var k :| k in rest && rest[k] == s;
      assert z[k] == s;
      var score := if z[m] < s then z[m] else s;
      assert forall j :: j in z ==> j == m || j in rest;
      assert IsOldest(z, score) by {
        assert (z[m] == score) || (z[k] == score);
      }
    }
  }

  /** A later prune keeps no more than an earlier one. */
  lemma PruneShrinks(z: SortedSet, now: real, later: real)
    requires now <= later
    ensures |Prune(z, later)| <= |Prune(z, now)| <= |z|
  {
    SubsetSize(Prune(z, later).Keys, Prune(z, now).Keys);
    SubsetSize(Prune(z, now).Keys, z.Keys);
  }

  /**
   * Once the oldest score's second is over, the inclusive prune drops at least
   * that member.
   */
  lemma OldestAgesOut(z: SortedSet, oldest: real, now: real)
    requires IsOldest(z, oldest) && oldest + WINDOW <= now
    ensures |Prune(z, now)| < |z|
  {
    var m :| m in z && z[m] == oldest;
    SubsetSize(Prune(z, now).Keys, z.Keys - {m});
    assert |z.Keys - {m}| < |z.Keys|;
  }
}
