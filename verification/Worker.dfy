/**
 * Discovery, fetch, parse and embed as the worker runs them, over one store:
 * database tables, Qdrant, disk and task queue. Each method is proved to be the
 * corresponding steps of the transition system.
 */
module Worker {
  import opened Options
  import opened Pipeline
  import opened PointIds
  import opened Reconciler
  import EventLog
  import Quarantine
  import SearchIndex

  /** What holds in every reachable state. */
  ghost predicate Sound(w: World, s: State) {
    SearchIndex.Inv(w, s) && EventLog.Inv(s) && Quarantine.Inv(w, s) && FilingIdsApart(s)
  }

  lemma StepKeepsSound(w: World, s: State, step: Step)
    requires Sound(w, s) && Enabled(w, s, step)
    ensures Sound(w, Apply(w, s, step))
  {
    SearchIndex.StepKeepsInv(w, s, step);
    EventLog.StepKeepsInv(w, s, step);
    Quarantine.StepKeepsInv(w, s, step);
    StepKeepsFilingIds(w, s, step);
  }

  lemma {:induction false} RunKeepsSound(w: World, s: State, steps: seq<Step>)
    requires Sound(w, s) && Legal(w, s, steps)
    ensures Sound(w, Run(w, s, steps))
    decreases |steps|
  {
    if |steps| > 0 {
      StepKeepsSound(w, s, steps[0]);
      hide Sound, Enabled, Apply;
      RunKeepsSound(w, Apply(w, s, steps[0]), steps[1..]);
    }
  }

  // ---- batches, one after another ------------------------------------------------

  lemma {:induction false} UpsertedTwice(points: map<string, Point>, acc: Acc, rows: seq<Row>, lo: nat, mid: nat,
                                         hi: nat)
    requires lo <= mid <= hi <= |rows|
    ensures Upserted(Upserted(points, acc, rows, lo, mid), acc, rows, mid, hi) == Upserted(points, acc, rows, lo, hi)
    decreases hi
  {
    if mid < hi { UpsertedTwice(points, acc, rows, lo, mid, hi - 1); }
  }

  lemma {:induction false} UpsertedMerge(points: map<string, Point>, acc: Acc, rows: seq<Row>, lo: nat, hi: nat)
    requires lo <= hi <= |rows|
    ensures points + Upserted(map[], acc, rows, lo, hi) == Upserted(points, acc, rows, lo, hi)
    decreases hi
  {
    if lo < hi { UpsertedMerge(points, acc, rows, lo, hi - 1); }
  }

  /** Rows sent once `batches` batches went through. */
  function SentAfter(batches: nat, rows: nat): nat {
    if batches * EMBED_BATCH_SIZE <= rows then batches * EMBED_BATCH_SIZE else rows
  }

  ghost predicate DistinctIds(rows: seq<Row>) {
    forall i, j :: 0 <= i < j < |rows| ==> rows[i].id != rows[j].id
  }

  /** The first n rows have their point ids in the dict, under their row ids. */
  ghost predicate HasIds(acc: Acc, rows: seq<Row>, n: nat, ids: map<nat, string>)
    requires n <= |rows|
  {
    forall k :: 0 <= k < n ==> rows[k].id in ids && ids[rows[k].id] == PointName(acc, k)
  }

  lemma NoIds(acc: Acc, rows: seq<Row>)
    ensures HasIds(acc, rows, 0, map[])
  {
  }

  /** The state in the middle of an attempt, `sent` rows into Qdrant. */
  function MidAttempt(w: World, s: State, acc: Acc, i: nat, sent: nat): State
    requires sent <= |w.texts(acc)|
  {
    var rows := RowsSeen(w, s, acc);
    s.(points := Upserted(s.points, acc, rows, 0, sent),
       nextRow := s.nextRow + |rows|,
       attempts := s.attempts[i := Attempt(acc, rows, Inserts(w, s, acc), sent)])
  }

  function AttemptSteps(acc: Acc, i: nat, batches: nat): seq<Step> {
    [EmbedBegin(acc, i)] + seq(batches, _ => EmbedBatch(i))
  }

  lemma {:induction false} AttemptIsRun(w: World, s: State, acc: Acc, i: nat, batches: nat)
    requires Enabled(w, s, EmbedBegin(acc, i)) && batches * EMBED_BATCH_SIZE < |w.texts(acc)| + EMBED_BATCH_SIZE
    ensures Legal(w, s, AttemptSteps(acc, i, batches))
    ensures Run(w, s, AttemptSteps(acc, i, batches)) == MidAttempt(w, s, acc, i, SentAfter(batches, |w.texts(acc)|))
  {
    var n := |w.texts(acc)|;
    if batches == 0 {
      assert AttemptSteps(acc, i, 0) == [EmbedBegin(acc, i)];
      assert Apply(w, s, EmbedBegin(acc, i)) == MidAttempt(w, s, acc, i, 0);
    } else {
      AttemptIsRun(w, s, acc, i, batches - 1);
      var front := AttemptSteps(acc, i, batches - 1);
      var mid := MidAttempt(w, s, acc, i, SentAfter(batches - 1, n));
      NextBatch(w, s, acc, i, batches - 1);
      hide Enabled, Apply, MidAttempt;
      RunThen(w, s, front, EmbedBatch(i));
      assert AttemptSteps(acc, i, batches) == front + [EmbedBatch(i)];
    }
  }

  lemma NextBatch(w: World, s: State, acc: Acc, i: nat, batches: nat)
    requires batches * EMBED_BATCH_SIZE < |w.texts(acc)|
    ensures var mid := MidAttempt(w, s, acc, i, SentAfter(batches, |w.texts(acc)|));
      && Enabled(w, mid, EmbedBatch(i))
      && Apply(w, mid, EmbedBatch(i)) == MidAttempt(w, s, acc, i, SentAfter(batches + 1, |w.texts(acc)|))
  {
    hide RowsSeen, Inserts, Upserted;
    var n, rows := |w.texts(acc)|, RowsSeen(w, s, acc);
    var sent, next := SentAfter(batches, n), SentAfter(batches + 1, n);
    var mid := MidAttempt(w, s, acc, i, sent);
    assert BatchEnd(mid.attempts[i]) == next;
    UpsertedTwice(s.points, acc, rows, 0, sent, next);
    assert ApplyBatch(mid, i) == MidAttempt(w, s, acc, i, next);
  }

  predicate IsQueued(queue: multiset<Task>, acc: Acc) {
    FetchTask(acc) in queue || ParseTask(acc) in queue || EmbedTask(acc) in queue
  }

  /** Giving up is the system's step: one event, and nothing else. */
  lemma GivingUp(w: World, s: State, acc: Acc)
    requires IsQueued(s.queue, acc)
    ensures Enabled(w, s, GiveUp(acc))
    ensures Apply(w, s, GiveUp(acc)) == s.(events := s.events + [Event(FilingFailed, acc)])
    ensures Sound(w, s) ==> Sound(w, s.(events := s.events + [Event(FilingFailed, acc)]))
  {
    hide Sound;
    if Sound(w, s) { StepKeepsSound(w, s, GiveUp(acc)); }
  }

  /** What a failed step records: one event if it gave up, and nothing if it is retried. */
  ghost predicate Recorded(before: seq<Event>, after: seq<Event>, acc: Acc, givesUp: bool) {
    if givesUp then |after| == |before| + 1 && before <= after && after[|before|] == Event(FilingFailed, acc)
    else after == before
  }

  /** From `left` the step gave up, as the system does, or stopped there to be retried. */
  ghost predicate EndsIn(w: World, left: State, acc: Acc, givesUp: bool, t: State) {
    if givesUp then Enabled(w, left, GiveUp(acc)) && t == Apply(w, left, GiveUp(acc)) else t == left
  }

  /** Committed, or lost after the document was saved. */
  lemma FetchSound(w: World, s: State, acc: Acc)
    requires Sound(w, s) && FetchTask(acc) in s.queue && acc in s.filings
    ensures Sound(w, ApplyFetch(s, acc)) && Sound(w, s.(bronze := s.bronze + {acc}))
  {
    hide Sound;
    StepKeepsSound(w, s, Fetch(acc));
    StepKeepsSound(w, s, FetchDies(acc));
  }

  /** What a parse leaves on disk if its transaction is lost: a rejected document leaves nothing. */
  function ParseLeft(w: World, s: State, acc: Acc): State {
    if w.accepts(acc) then s.(silver := s.silver + {acc}) else s
  }

  lemma ParseSound(w: World, s: State, acc: Acc)
    requires Sound(w, s) && CanParse(s, acc)
    ensures Sound(w, ApplyParse(s, acc, w.accepts(acc))) && Sound(w, ParseLeft(w, s, acc))
  {
    hide Sound;
    StepKeepsSound(w, s, Parse(acc, w.accepts(acc)));
    if w.accepts(acc) { StepKeepsSound(w, s, ParseDies(acc)); }
  }

  /** A queued parse or embed finds the key it reads set. */
  lemma KeysAreSet(w: World, s: State, acc: Acc)
    requires Sound(w, s)
    ensures ParseTask(acc) in s.queue ==> acc in s.filings && s.filings[acc].bronzeKey
    ensures EmbedTask(acc) in s.queue ==> acc in s.filings && s.filings[acc].silverKey
  {
    assert forall t :: t in s.queue ==> EventLog.Ready(s.filings, t);
  }

  /** An attempt rolled back: its Qdrant batches stay, and the row ids it drew. */
  function RolledBack(w: World, s: State, acc: Acc, sent: nat): State
    requires sent <= |w.texts(acc)|
  {
    s.(points := Upserted(s.points, acc, RowsSeen(w, s, acc), 0, sent), nextRow := s.nextRow + |w.texts(acc)|)
  }

  /** The two tables differ in the filing's first n rows at most. */
  ghost predicate SameBut(view: map<ChunkKey, Row>, chunks: map<ChunkKey, Row>, acc: Acc, n: nat) {
    forall key: ChunkKey :: key.0 != acc || key.1 >= n ==>
      ((key in view <==> key in chunks) && (key in view ==> view[key] == chunks[key]))
  }

  lemma ViewIsCommitted(chunks: map<ChunkKey, Row>, a: Attempt, view: map<ChunkKey, Row>)
    requires forall k: nat :: k < |a.rows| ==>
      (a.acc, k) in view && view[(a.acc, k)] == WithPointId(a.acc, k, a.rows[k])
    requires SameBut(view, chunks, a.acc, |a.rows|)
    ensures view == Committed(chunks, a)
  {
    var after := Committed(chunks, a);
    forall key: ChunkKey ensures (key in view <==> key in after) && (key in view ==> view[key] == after[key]) {
      SearchIndex.CommittedAt(chunks, a, key);
      if key.0 == a.acc && key.1 < |a.rows| { assert key == (a.acc, key.1); }
    }
  }

  lemma MidSound(w: World, s: State, acc: Acc, i: nat, lasts: nat)
    requires Sound(w, s) && Enabled(w, s, EmbedBegin(acc, i))
    ensures Sound(w, MidAttempt(w, s, acc, i, SentAfter(lasts, |w.texts(acc)|)))
  {
    hide Sound, Enabled;
    var n := |w.texts(acc)|;
    var all := (n + EMBED_BATCH_SIZE - 1) / EMBED_BATCH_SIZE;
    var batches := if lasts * EMBED_BATCH_SIZE < n + EMBED_BATCH_SIZE then lasts else all;
    assert SentAfter(batches, n) == SentAfter(lasts, n);
    AttemptIsRun(w, s, acc, i, batches);
    RunKeepsSound(w, s, AttemptSteps(acc, i, batches));
  }

  lemma AbortSound(w: World, s: State, acc: Acc, i: nat, sent: nat)
    requires sent <= |w.texts(acc)| && i !in s.attempts && Sound(w, MidAttempt(w, s, acc, i, sent))
    ensures Sound(w, RolledBack(w, s, acc, sent))
  {
    hide Sound, RowsSeen, Inserts, Upserted;
    var mid := MidAttempt(w, s, acc, i, sent);
    StepKeepsSound(w, mid, EmbedAbort(i));
    assert mid.attempts - {i} == s.attempts;
    assert Apply(w, mid, EmbedAbort(i)) == RolledBack(w, s, acc, sent);
  }

  lemma CommitSound(w: World, s: State, acc: Acc, i: nat)
    requires acc in s.filings && Sound(w, MidAttempt(w, s, acc, i, |w.texts(acc)|))
    ensures Sound(w, ApplyCommit(MidAttempt(w, s, acc, i, |w.texts(acc)|), i))
  {
    hide Sound, RowsSeen, Inserts, Upserted;
    StepKeepsSound(w, MidAttempt(w, s, acc, i, |w.texts(acc)|), EmbedCommit(i));
  }

  /** Wherever an attempt stops, what it leaves behind is sound. */
  lemma AttemptSound(w: World, s: State, acc: Acc, i: nat, lasts: nat)
    requires Sound(w, s) && Enabled(w, s, EmbedBegin(acc, i))
    ensures var n := |w.texts(acc)|;
      && acc in s.filings && DistinctIds(RowsSeen(w, s, acc))
      && Sound(w, RolledBack(w, s, acc, SentAfter(lasts, n)))
      && (n <= lasts * EMBED_BATCH_SIZE ==> Sound(w, ApplyCommit(MidAttempt(w, s, acc, i, n), i)))
  {
    hide Sound, RowsSeen, Inserts, Upserted, ApplyCommit, RolledBack;
    var n := |w.texts(acc)|;
    MidSound(w, s, acc, i, lasts);
    SeenAreDistinct(w, MidAttempt(w, s, acc, i, SentAfter(lasts, n)), i);
    AbortSound(w, s, acc, i, SentAfter(lasts, n));
    if n <= lasts * EMBED_BATCH_SIZE { CommitSound(w, s, acc, i); }
  }

  lemma SeenAreDistinct(w: World, s: State, i: nat)
    requires Sound(w, s) && i in s.attempts
    ensures DistinctIds(s.attempts[i].rows)
  {
    var a := s.attempts[i];
    forall j: nat, k: nat | j < k < |a.rows| ensures a.rows[j].id != a.rows[k].id {
      assert SearchIndex.Seen(a, a.rows[j].id, (a.acc, j)) && SearchIndex.Seen(a, a.rows[k].id, (a.acc, k));
      assert SearchIndex.InUse(s.chunks, s.attempts, a.rows[j].id, (a.acc, j));
      assert SearchIndex.InUse(s.chunks, s.attempts, a.rows[k].id, (a.acc, k));
    }
  }

  function Discovers(refs: seq<Acc>): seq<Step> {
    seq(|refs|, k requires 0 <= k < |refs| => Discover(refs[k]))
  }

  lemma NoSteps(w: World, s: State)
    ensures Legal(w, s, Discovers([])) && Run(w, s, Discovers([])) == s
  {
  }

  lemma DiscoverNext(w: World, s: State, refs: seq<Acc>, k: nat)
    requires k < |refs| && Legal(w, s, Discovers(refs[..k]))
    ensures Legal(w, s, Discovers(refs[..k + 1]))
    ensures Run(w, s, Discovers(refs[..k + 1])) == ApplyDiscover(Run(w, s, Discovers(refs[..k])), refs[k])
  {
    RunThen(w, s, Discovers(refs[..k]), Discover(refs[k]));
    assert Discovers(refs[..k + 1]) == Discovers(refs[..k]) + [Discover(refs[k])];
  }

  lemma FetchesAppend(accs: seq<Acc>, acc: Acc)
    ensures Fetches(accs + [acc]) == Fetches(accs) + multiset{FetchTask(acc)}
  {
    var some := seq(|accs|, i requires 0 <= i < |accs| => FetchTask(accs[i]));
    var more := seq(|accs| + 1, i requires 0 <= i < |accs| + 1 => FetchTask((accs + [acc])[i]));
    assert more == some + [FetchTask(acc)];
  }

  /** The state with the fetches of `accs` enqueued as well. */
  ghost function Queued(s: State, accs: seq<Acc>): State {
    s.(queue := s.queue + Fetches(accs))
  }

  lemma QueuedIs(s: State, accs: seq<Acc>)
    ensures Queued(s, accs) == s.(queue := s.queue + Fetches(accs))
  {
  }

  lemma NoneQueued(s: State)
    ensures Queued(s, []) == s
  {
  }

  lemma KnownBehind(s: State, acc: Acc, earlier: seq<Acc>)
    requires acc in s.filings
    ensures ApplyDiscover(Queued(s, earlier), acc) == Queued(ApplyDiscover(s, acc), earlier)
  {
    hide Fetches;
  }

  lemma NewBehind(s: State, acc: Acc, earlier: seq<Acc>)
    requires acc !in s.filings
    ensures ApplyDiscover(Queued(s, earlier), acc) == Queued(ApplyDiscover(s, acc), earlier)
  {
    hide Fetches;
    var one, all := multiset{FetchTask(acc)}, Fetches(earlier);
    assert (s.queue + all) + one == (s.queue + one) + all;
  }

  /** Enqueueing later what is discovered now comes to the same. */
  lemma DiscoverBehind(s: State, t: State, acc: Acc, earlier: seq<Acc>, isNew: bool)
    requires Queued(t, if isNew then [acc] else []) == ApplyDiscover(s, acc)
    ensures Queued(t, if isNew then earlier + [acc] else earlier) == ApplyDiscover(Queued(s, earlier), acc)
  {
    if acc in s.filings { KnownBehind(s, acc, earlier); } else { NewBehind(s, acc, earlier); }
    FetchesAppend(earlier, acc);
    FetchesOne(acc);
    hide Fetches, ApplyDiscover;
    var one, all := multiset{FetchTask(acc)}, Fetches(earlier);
    assert (t.queue + one) + all == t.queue + (all + one);
  }

  lemma FetchesOne(acc: Acc)
    ensures Fetches([]) == multiset{} && Fetches([acc]) == multiset{FetchTask(acc)}
  {
    FetchesAppend([], acc);
    assert [] + [acc] == [acc];
  }

  /** `inserted` lists what of `refs` was not known, once each; `now` is known by now. */
  ghost predicate NewOnes(known: set<Acc>, refs: seq<Acc>, now: set<Acc>, inserted: seq<Acc>) {
    && Distinct(inserted)
    && (forall a :: a in inserted <==> a in refs && a !in known)
    && (forall a :: a in now <==> a in known || a in refs)
  }

  lemma NoneNew(known: set<Acc>)
    ensures NewOnes(known, [], known, [])
  {
  }

  lemma NewOnesAre(known: set<Acc>, refs: seq<Acc>, now: set<Acc>, inserted: seq<Acc>)
    requires NewOnes(known, refs, now, inserted)
    ensures Distinct(inserted) && forall a :: a in inserted <==> a in refs && a !in known
  {
  }

  /** New rows, each with its event: not seen before, at the start of the pipeline, in the order inserted. */
  ghost predicate RowsInserted(s: State, t: State, inserted: seq<Acc>) {
    && t.clock == s.clock && s.nextFiling <= t.nextFiling
    && (forall a :: a in t.filings <==> a in s.filings || a in inserted)
    && (forall a :: a in s.filings ==> a in t.filings && t.filings[a] == s.filings[a])
    && (forall i :: 0 <= i < |inserted| ==> inserted[i] !in s.filings && NewRow(s, t, inserted[i]))
    && (forall i, j :: 0 <= i < j < |inserted| ==> t.filings[inserted[i]].id < t.filings[inserted[j]].id)
    && DiscoveryLogged(s.events, t.events, inserted)
  }

  ghost predicate DiscoveryLogged(before: seq<Event>, after: seq<Event>, inserted: seq<Acc>) {
    && |after| == |before| + |inserted| && before <= after
    && forall i :: 0 <= i < |inserted| ==> after[|before| + i] == Event(FilingDiscovered, inserted[i])
  }

  ghost predicate NewRow(s: State, t: State, a: Acc) {
    && a in t.filings && s.nextFiling <= t.filings[a].id < t.nextFiling
    && t.filings[a] == Filing(t.filings[a].id, Discovered, false, false, s.clock)
  }

  /** One fetch more for each of `accs`, and no other task. */
  ghost predicate FetchesAdded(before: multiset<Task>, after: multiset<Task>, accs: seq<Acc>) {
    forall t: Task :: after[t] == before[t] + if t.FetchTask? && t.acc in accs then 1 else 0
  }

  lemma {:induction false} FetchesAreOnce(accs: seq<Acc>)
    requires Distinct(accs)
    ensures FetchesAdded(multiset{}, Fetches(accs), accs)
  {
    if |accs| == 0 {
      FetchesOne("");
      assert accs == [];
    } else {
      var n := |accs| - 1;
      FetchesAreOnce(accs[..n]);
      FetchesAppend(accs[..n], accs[n]);
      assert accs == accs[..n] + [accs[n]];
      hide Fetches;
    }
  }

  lemma NothingInserted(s: State)
    ensures RowsInserted(s, s, [])
  {
  }

  lemma KnownInserted(s: State, t: State, u: State, inserted: seq<Acc>)
    requires RowsInserted(s, t, inserted) && u.clock == t.clock && u.nextFiling == t.nextFiling + 1
    requires u.filings == t.filings && u.events == t.events
    ensures RowsInserted(s, u, inserted)
  {
    hide DiscoveryLogged;
    forall i | 0 <= i < |inserted| ensures NewRow(s, u, inserted[i]) { assert NewRow(s, t, inserted[i]); }
  }

  lemma RowInserted(s: State, t: State, u: State, inserted: seq<Acc>, a: Acc)
    requires RowsInserted(s, t, inserted) && u.clock == t.clock && u.nextFiling == t.nextFiling + 1
    requires a !in t.filings && u.filings == t.filings[a := Filing(t.nextFiling, Discovered, false, false, t.clock)]
    requires u.events == t.events + [Event(FilingDiscovered, a)]
    ensures RowsInserted(s, u, inserted + [a])
  {
    hide DiscoveryLogged;
    OneMoreLogged(s.events, t.events, inserted, a);
    var more := inserted + [a];
    forall i | 0 <= i < |inserted|
      ensures inserted[i] != a && inserted[i] !in s.filings && NewRow(s, u, inserted[i])
      ensures u.filings[inserted[i]].id < u.filings[a].id
      ensures u.filings[inserted[i]] == t.filings[inserted[i]]
    {
      assert NewRow(s, t, inserted[i]);
    }
    assert NewRow(s, u, a);
    hide NewRow;
    forall i, j | 0 <= i < j < |more| ensures u.filings[more[i]].id < u.filings[more[j]].id {
      if j < |inserted| { assert t.filings[inserted[i]].id < t.filings[inserted[j]].id; }
    }
  }

  lemma OneMoreLogged(before: seq<Event>, after: seq<Event>, inserted: seq<Acc>, a: Acc)
    requires DiscoveryLogged(before, after, inserted)
    ensures DiscoveryLogged(before, after + [Event(FilingDiscovered, a)], inserted + [a])
  {
  }

  /** The queue has no part in it. */
  lemma QueueAside(s: State, t: State, u: State, inserted: seq<Acc>)
    requires RowsInserted(s, t, inserted) && u == t.(queue := u.queue)
    ensures RowsInserted(s, u, inserted)
  {
    forall i | 0 <= i < |inserted| ensures NewRow(s, u, inserted[i]) { assert NewRow(s, t, inserted[i]); }
  }

  lemma NextNew(known: set<Acc>, refs: seq<Acc>, k: nat, now: set<Acc>, inserted: seq<Acc>)
    requires k < |refs| && NewOnes(known, refs[..k], now, inserted)
    ensures NewOnes(known, refs[..k + 1], now + {refs[k]}, if refs[k] !in now then inserted + [refs[k]] else inserted)
  {
    assert refs[..k + 1] == refs[..k] + [refs[k]];
  }

  lemma AcceptedBehind(s: State, mid: State, acc: Acc)
    requires acc in s.filings && mid == s.(silver := s.silver + {acc})
    ensures ApplyParse(mid, acc, true) == ApplyParse(s, acc, true)
  {
  }

  /** One row has changed: to this status and these keys, dated now unless it was all so already. */
  ghost predicate Moved(before: map<Acc, Filing>, after: map<Acc, Filing>, acc: Acc, status: Status, bronzeKey: bool,
                        silverKey: bool, now: int)
  {
    && acc in before && after.Keys == before.Keys && (forall a :: a in before && a != acc ==> after[a] == before[a])
    && var f, g := before[acc], after[acc];
       && g.id == f.id && g.status == status && g.bronzeKey == bronzeKey && g.silverKey == silverKey
       && if f.status == status && f.bronzeKey == bronzeKey && f.silverKey == silverKey
          then g.updatedAt == f.updatedAt else g.updatedAt == now
  }

  /** A verdict taken: status, silver key, event and the next message. */
  ghost predicate TookVerdict(s: State, t: State, acc: Acc, accepted: bool) {
    && acc in s.filings
    && Moved(s.filings, t.filings, acc, if accepted then Parsed else Quarantined, s.filings[acc].bronzeKey,
             accepted || s.filings[acc].silverKey, s.clock)
    && t.events == s.events + [Event(if accepted then FilingParsed else ParseFailed, acc)]
    && t.queue == s.queue + if accepted then multiset{EmbedTask(acc)} else multiset{}
  }

  lemma ParseMeans(s: State, acc: Acc, accepted: bool)
    requires acc in s.filings
    ensures TookVerdict(s, ApplyParse(s, acc, accepted), acc, accepted)
    ensures var t := ApplyParse(s, acc, accepted);
      && t.silver == s.silver + (if accepted then {acc} else {})
      && t.bronze == s.bronze && t.chunks == s.chunks && t.points == s.points && t.queue >= s.queue
  {
  }

  /** An attempt committed: status and event, and every chunk found under its point. */
  ghost predicate BecameSearchable(w: World, s: State, t: State, acc: Acc) {
    && acc in s.filings
    && Moved(s.filings, t.filings, acc, Embedded, s.filings[acc].bronzeKey, s.filings[acc].silverKey, s.clock)
    && t.events == s.events + [Event(FilingEmbedded, acc)] && t.queue == s.queue
    && t.bronze == s.bronze && t.silver == s.silver && SameBut(t.chunks, s.chunks, acc, |w.texts(acc)|)
    && forall k :: 0 <= k < |w.texts(acc)| ==> SearchIndex.Searchable(w, t, acc, k)
  }

  lemma CommitMeans(w: World, s: State, acc: Acc, i: nat)
    requires acc in s.filings
    requires Sound(w, ApplyCommit(MidAttempt(w, s, acc, i, |w.texts(acc)|), i))
    ensures BecameSearchable(w, s, ApplyCommit(MidAttempt(w, s, acc, i, |w.texts(acc)|), i), acc)
  {
    hide RowsSeen, Inserts, Upserted, Committed;
    var mid := MidAttempt(w, s, acc, i, |w.texts(acc)|);
    OtherRowsStay(s.chunks, mid.attempts[i]);
    var t := ApplyCommit(MidAttempt(w, s, acc, i, |w.texts(acc)|), i);
    forall k | 0 <= k < |w.texts(acc)| ensures SearchIndex.Searchable(w, t, acc, k) {
      EmbeddedInSound(w, t, acc, k);
    }
  }

  lemma OtherRowsStay(chunks: map<ChunkKey, Row>, a: Attempt)
    ensures SameBut(Committed(chunks, a), chunks, a.acc, |a.rows|)
  {
    forall key: ChunkKey | key.0 != a.acc || key.1 >= |a.rows|
      ensures (key in Committed(chunks, a) <==> key in chunks)
      ensures key in chunks ==> Committed(chunks, a)[key] == chunks[key]
    {
      SearchIndex.CommittedAt(chunks, a, key);
    }
  }

  lemma EmbeddedInSound(w: World, t: State, acc: Acc, k: nat)
    requires Sound(w, t) && acc in t.filings && t.filings[acc].status == Embedded && k < |w.texts(acc)|
    ensures SearchIndex.Searchable(w, t, acc, k)
  {
    assert SearchIndex.AllRows(w, t.chunks, acc);
    assert SearchIndex.RowGood(w, t.points, (acc, k), t.chunks[(acc, k)]);
  }

  /** The first n chunks of the filing that have no row. */
  ghost function Missing(chunks: map<ChunkKey, Row>, acc: Acc, n: nat): set<nat> {
    set k: nat | k < n && (acc, k) !in chunks
  }

  lemma MissingNext(chunks: map<ChunkKey, Row>, acc: Acc, k: nat)
    ensures Missing(chunks, acc, k + 1) == Missing(chunks, acc, k) + if (acc, k) in chunks then {} else {k}
    ensures |Missing(chunks, acc, k + 1)| == |Missing(chunks, acc, k)| + if (acc, k) in chunks then 0 else 1
  {
    assert Missing(chunks, acc, k + 1) == Missing(chunks, acc, k) + if (acc, k) in chunks then {} else {k};
  }

  /** The filing has a row for each text, old or new under the next id; other rows are as they were. */
  ghost predicate Persisted(view: map<ChunkKey, Row>, chunks: map<ChunkKey, Row>, acc: Acc, texts: seq<string>,
                            first: nat)
  {
    && SameBut(view, chunks, acc, |texts|)
    && forall k: nat :: k < |texts| ==>
         && (acc, k) in view
         && view[(acc, k)] == if (acc, k) in chunks then chunks[(acc, k)] else Row(first + k, texts[k], None)
  }

  lemma NothingPersisted(chunks: map<ChunkKey, Row>, acc: Acc, first: nat)
    ensures Persisted(chunks, chunks, acc, [], first) && Missing(chunks, acc, 0) == {}
  {
  }

  lemma PersistedNext(view: map<ChunkKey, Row>, chunks: map<ChunkKey, Row>, acc: Acc, texts: seq<string>, k: nat,
                      first: nat)
    requires k < |texts| && Persisted(view, chunks, acc, texts[..k], first)
    ensures (acc, k) in view <==> (acc, k) in chunks
    ensures (acc, k) in view ==> Persisted(view, chunks, acc, texts[..k + 1], first)
    ensures (acc, k) !in view ==>
              Persisted(view[(acc, k) := Row(first + k, texts[k], None)], chunks, acc, texts[..k + 1], first)
  {
  }

  lemma PersistedMeans(w: World, s: State, acc: Acc, view: map<ChunkKey, Row>)
    requires Persisted(view, s.chunks, acc, w.texts(acc), s.nextRow)
    ensures forall k: nat :: k < |w.texts(acc)| ==> (acc, k) in view && view[(acc, k)] == RowsSeen(w, s, acc)[k]
  {
  }

  class Store {
    const world: World
    var clock: int
    var filings: map<Acc, Filing>
    var nextFiling: nat
    var events: seq<Event>
    var chunks: map<ChunkKey, Row>
    var nextRow: nat
    var points: map<string, Point>
    var bronze: set<Acc>
    var silver: set<Acc>
    var queue: multiset<Task>
    var attempts: map<nat, Attempt>
    var plans: set<seq<Acc>>

    function Snapshot(): State
      reads this
    {
      State(clock, filings, nextFiling, events, chunks, nextRow, points, bronze, silver, queue, attempts, plans)
    }

    ghost predicate Valid()
      reads this
    {
      Sound(world, Snapshot())
    }

    method Emit(kind: EventKind, acc: Acc)
      modifies this`events
      ensures events == old(events) + [Event(kind, acc)]
    {
      events := events + [Event(kind, acc)];
    }

    /** A step failed: retried by the broker, or given up and recorded. */
    method Failed(acc: Acc, givesUp: bool)
      requires Valid() && IsQueued(queue, acc)
      modifies this`events
      ensures Valid()
      ensures Recorded(old(events), events, acc, givesUp)
      ensures EndsIn(world, old(Snapshot()), acc, givesUp, Snapshot())
    {
      GivingUp(world, Snapshot(), acc);
      hide Sound;
      if givesUp {
        Emit(FilingFailed, acc);
      }
    }

    /**
     * The document is fetched only if bronze does not have it. The fetch can
     * fail at the download, or after the document was saved.
     */
    method FetchFiling(acc: Acc, downloads: bool, commits: bool, givesUp: bool) returns (ok: bool)
      requires Valid() && FetchTask(acc) in queue
      modifies this
      ensures Valid()
      ensures ok <==> acc in old(filings) && (acc in old(bronze) || downloads) && commits
      ensures ok ==> Snapshot() == ApplyFetch(old(Snapshot()), acc)
      ensures ok ==> Moved(old(filings), filings, acc, Fetched, true, old(filings)[acc].silverKey, clock)
      ensures ok ==> events == old(events) + [Event(FilingFetched, acc)]
      ensures ok ==> queue == old(queue) + multiset{ParseTask(acc)}
      ensures acc !in old(filings) ==> Snapshot() == old(Snapshot())
      ensures !ok && acc in old(filings) ==>
                && Recorded(old(events), events, acc, givesUp)
                && EndsIn(world, old(Snapshot()).(bronze := bronze), acc, givesUp, Snapshot())
      ensures bronze == old(bronze) + if acc in old(filings) && downloads then {acc} else {}
      ensures silver == old(silver) && chunks == old(chunks) && points == old(points)
    {
      hide Sound;
      ok := false;
      if acc !in filings {
        return;
      }
      FetchSound(world, Snapshot(), acc);
      if acc in bronze || downloads {
        SaveDocument(acc);
        ok := commits;
      }
      if ok {
        CommitFetch(acc);
      } else {
        Failed(acc, givesUp);
      }
    }

    method SaveDocument(acc: Acc)
      modifies this`bronze
      ensures bronze == old(bronze) + {acc}
    {
      bronze := bronze + {acc};
    }

    /** Key, status and event; the next message once they are committed. */
    method CommitFetch(acc: Acc)
      requires acc in filings && acc in bronze
      modifies this`filings, this`events, this`queue
      ensures Snapshot() == ApplyFetch(old(Snapshot()), acc)
    {
      var f := filings[acc];
      filings := filings[acc := f.Save(Fetched, true, f.silverKey, clock)];
      Emit(FilingFetched, acc);
      queue := queue + multiset{ParseTask(acc)};
    }

    /** The except branch: a document that does not parse is not retried. */
    method Quarantine(acc: Acc)
      requires acc in filings
      modifies this`filings, this`events
      ensures Snapshot() == ApplyParse(old(Snapshot()), acc, false)
    {
      var f := filings[acc];
      filings := filings[acc := f.Save(Quarantined, f.bronzeKey, f.silverKey, clock)];
      Emit(ParseFailed, acc);
    }

    /** Silver key, status and event; the next message once they are committed. */
    method Accept(acc: Acc)
      requires acc in filings && acc in silver
      modifies this`filings, this`events, this`queue
      ensures Snapshot() == ApplyParse(old(Snapshot()), acc, true)
    {
      var f := filings[acc];
      filings := filings[acc := f.Save(Parsed, f.bronzeKey, true, clock)];
      Emit(FilingParsed, acc);
      queue := queue + multiset{EmbedTask(acc)};
    }

    /**
     * Can fail at a missing bronze file, in the parser, and at commit, after
     * the silver file was written. A queued parse always finds its filing and
     * the bronze key set.
     */
    method ParseFiling(acc: Acc, crashes: bool, commits: bool, givesUp: bool) returns (ok: bool)
      requires Valid() && ParseTask(acc) in queue
      modifies this
      ensures Valid() && acc in old(filings)
      ensures ok <==> acc in old(bronze) && !crashes && commits
      ensures ok ==> Snapshot() == ApplyParse(old(Snapshot()), acc, world.accepts(acc))
      ensures ok ==> TookVerdict(old(Snapshot()), Snapshot(), acc, world.accepts(acc))
      ensures !ok ==>
                && Recorded(old(events), events, acc, givesUp)
                && EndsIn(world, old(Snapshot()).(silver := silver), acc, givesUp, Snapshot())
      ensures bronze == old(bronze) && chunks == old(chunks) && points == old(points)
      ensures silver == old(silver) + if acc in old(bronze) && !crashes && world.accepts(acc) then {acc} else {}
    {
      hide Sound, ApplyParse, TookVerdict, Recorded, EndsIn;
      KeysAreSet(world, Snapshot(), acc);
      ok := TryParse(acc, crashes, commits);
      if !ok {
        Failed(acc, givesUp);
      }
    }

    /** One transaction: read bronze, write silver, take the verdict. */
    method TryParse(acc: Acc, crashes: bool, commits: bool) returns (ok: bool)
      requires Valid() && ParseTask(acc) in queue && acc in filings && filings[acc].bronzeKey
      modifies this
      ensures Valid()
      ensures ok <==> acc in old(bronze) && !crashes && commits
      ensures ok ==> Snapshot() == ApplyParse(old(Snapshot()), acc, world.accepts(acc))
      ensures ok ==> TookVerdict(old(Snapshot()), Snapshot(), acc, world.accepts(acc))
      ensures !ok ==> Snapshot() == old(Snapshot()).(silver := silver)
      ensures bronze == old(bronze) && chunks == old(chunks) && points == old(points) && queue >= old(queue)
      ensures silver == old(silver) + if acc in old(bronze) && !crashes && world.accepts(acc) then {acc} else {}
    {
      hide Sound, ApplyParse, TookVerdict;
      ok := false;
      if acc in bronze && !crashes {
        ParseSound(world, Snapshot(), acc);
        ParseMeans(Snapshot(), acc, world.accepts(acc));
        WriteSilver(acc);
        ok := commits;
        if ok {
          TakeVerdict(acc, old(Snapshot()));
        }
      }
    }

    /** The rest of the transaction: parsed, or quarantined. */
    method TakeVerdict(acc: Acc, ghost s: State)
      requires acc in filings && Snapshot() == ParseLeft(world, s, acc)
      modifies this`filings, this`events, this`queue
      ensures acc in s.filings && Snapshot() == ApplyParse(s, acc, world.accepts(acc))
    {
      hide ApplyParse;
      if world.accepts(acc) {
        ghost var mid := Snapshot();
        Accept(acc);
        AcceptedBehind(s, mid, acc);
      } else {
        Quarantine(acc);
      }
    }

    /** The parser writes its output last, and none for a document it rejects. */
    method WriteSilver(acc: Acc)
      modifies this`silver
      ensures Snapshot() == ParseLeft(world, old(Snapshot()), acc)
    {
      if world.accepts(acc) {
        silver := silver + {acc};
      }
    }

    /** The points of one batch, and their ids by row. */
    method BuildBatch(acc: Acc, rows: seq<Row>, start: nat, stop: nat, ids0: map<nat, string>)
      returns (batch: map<string, Point>, ids: map<nat, string>)
      requires start <= stop <= |rows| && DistinctIds(rows) && HasIds(acc, rows, start, ids0)
      ensures batch == Upserted(map[], acc, rows, start, stop) && HasIds(acc, rows, stop, ids)
    {
      batch, ids := map[], ids0;
      for k := start to stop
        invariant batch == Upserted(map[], acc, rows, start, k) && HasIds(acc, rows, k, ids)
      {
        batch := batch[PointName(acc, k) := PointFor(acc, k, rows[k])];
        ids := ids[rows[k].id := PointName(acc, k)];
      }
    }

    /** One Qdrant call per batch; the call after `lasts` batches raises. */
    method UpsertChunks(acc: Acc, rows: seq<Row>, lasts: nat) returns (ids: Option<map<nat, string>>)
      requires DistinctIds(rows)
      modifies this`points
      ensures ids.Some? <==> |rows| <= lasts * EMBED_BATCH_SIZE
      ensures points == Upserted(old(points), acc, rows, 0, SentAfter(lasts, |rows|))
      ensures ids.Some? ==> HasIds(acc, rows, |rows|, ids.value)
    {
      hide HasIds, DistinctIds;
      var pointIds: map<nat, string> := map[];
      var start, batches := 0, 0;
      NoIds(acc, rows);
      while start < |rows|
        invariant start == SentAfter(batches, |rows|) && batches <= lasts
        invariant points == Upserted(old(points), acc, rows, 0, start) && HasIds(acc, rows, start, pointIds)
        decreases |rows| - start
      {
        if batches == lasts {
          return None;
        }
        var stop := if start + EMBED_BATCH_SIZE <= |rows| then start + EMBED_BATCH_SIZE else |rows|;
        var batch;
        batch, pointIds := BuildBatch(acc, rows, start, stop, pointIds);
        UpsertedMerge(points, acc, rows, start, stop);
        UpsertedTwice(old(points), acc, rows, 0, start, stop);
        points := points + batch;
        start, batches := stop, batches + 1;
      }
      ids := Some(pointIds);
    }

    /** Inserts the missing rows, in the caller's transaction. */
    method PersistChunks(acc: Acc) returns (view: map<ChunkKey, Row>, inserted: nat)
      modifies this`nextRow
      ensures nextRow == old(nextRow) + |world.texts(acc)|
      ensures forall k: nat :: k < |world.texts(acc)| ==>
        (acc, k) in view && view[(acc, k)] == RowsSeen(world, old(Snapshot()), acc)[k]
      ensures Persisted(view, chunks, acc, world.texts(acc), old(nextRow))
      ensures inserted == |Missing(chunks, acc, |world.texts(acc)|)|
    {
      hide Persisted, Missing, RowsSeen, SameBut;
      ghost var s := Snapshot();
      var texts := world.texts(acc);
      view, inserted := chunks, 0;
      NothingPersisted(chunks, acc, nextRow);
      assert texts[..0] == [];
      for k := 0 to |texts|
        invariant nextRow == old(nextRow) + k
        invariant Persisted(view, chunks, acc, texts[..k], s.nextRow)
        invariant inserted == |Missing(chunks, acc, k)|
      {
        MissingNext(chunks, acc, k);
        PersistedNext(view, chunks, acc, texts, k, s.nextRow);
        if (acc, k) !in view {
          view := view[(acc, k) := Row(nextRow, texts[k], None)];
          inserted := inserted + 1;
        }
        nextRow := nextRow + 1;
      }
      assert texts[..|texts|] == texts;
      PersistedMeans(world, s, acc, view);
    }

    /** The filing's rows, ordered by seq. */
    method SelectRows(view: map<ChunkKey, Row>, acc: Acc, n: nat) returns (rows: seq<Row>)
      requires forall k: nat :: k < n ==> (acc, k) in view
      ensures |rows| == n && forall k: nat :: k < n ==> rows[k] == view[(acc, k)]
    {
      rows := [];
      for k := 0 to n
        invariant |rows| == k && forall j: nat :: j < k ==> rows[j] == view[(acc, j)]
      {
        rows := rows + [view[(acc, k)]];
      }
    }

    /** Writes each row's point id back, in the caller's transaction. */
    method WritePointIds(acc: Acc, rows: seq<Row>, ids: map<nat, string>, view0: map<ChunkKey, Row>,
                         ghost base: map<ChunkKey, Row>) returns (view: map<ChunkKey, Row>)
      requires HasIds(acc, rows, |rows|, ids)
      requires SameBut(view0, base, acc, |rows|)
      ensures forall k: nat :: k < |rows| ==> (acc, k) in view && view[(acc, k)] == WithPointId(acc, k, rows[k])
      ensures SameBut(view, base, acc, |rows|)
    {
      view := view0;
      for k := 0 to |rows|
        invariant forall j: nat :: j < k ==> (acc, j) in view && view[(acc, j)] == WithPointId(acc, j, rows[j])
        invariant SameBut(view, base, acc, |rows|)
      {
        view := view[(acc, k) := rows[k].(pointId := Some(ids[rows[k].id]))];
      }
    }

    /**
     * One transaction: rows, then Qdrant batch by batch, then the point ids,
     * the status and the event.
     */
    method TryEmbed(acc: Acc, lasts: nat, commits: bool, ghost i: nat) returns (ok: bool)
      requires acc in filings && i !in attempts && DistinctIds(RowsSeen(world, Snapshot(), acc))
      modifies this
      ensures ok <==> |world.texts(acc)| <= lasts * EMBED_BATCH_SIZE && commits
      ensures Snapshot() ==
        if ok then ApplyCommit(MidAttempt(world, old(Snapshot()), acc, i, |world.texts(acc)|), i)
        else RolledBack(world, old(Snapshot()), acc, SentAfter(lasts, |world.texts(acc)|))
    {
      hide ApplyCommit, RowsSeen, Inserts, Upserted, DistinctIds, SameBut, MidAttempt;
      ghost var s := Snapshot();
      var view, rows := PrepareRows(acc);
      var ids := UpsertChunks(acc, rows, lasts);
      ok := ids.Some? && commits;
      if ids.Some? {
        view := WritePointIds(acc, rows, ids.value, view, chunks);
        if commits {
          Commit(acc, rows, view, s, i);
        }
      }
    }

    /**
     * May fail at the silver file, at any batch and at commit. i names the
     * attempt in the transition system.
     */
    method ChunkAndEmbed(acc: Acc, lasts: nat, commits: bool, givesUp: bool, ghost i: nat) returns (ok: bool)
      requires Valid() && EmbedTask(acc) in queue && i !in attempts && !Blocked(Snapshot(), acc)
      modifies this
      ensures Valid() && acc in old(filings)
      ensures ok <==> acc in old(silver) && |world.texts(acc)| <= lasts * EMBED_BATCH_SIZE && commits
      ensures ok ==> Snapshot() == ApplyCommit(MidAttempt(world, old(Snapshot()), acc, i, |world.texts(acc)|), i)
      ensures ok ==> BecameSearchable(world, old(Snapshot()), Snapshot(), acc)
      ensures SameBut(chunks, old(chunks), acc, |world.texts(acc)|)
      ensures bronze == old(bronze) && silver == old(silver)
      ensures !ok ==>
                && Recorded(old(events), events, acc, givesUp)
                && EndsIn(world, if acc in old(silver)
                                 then RolledBack(world, old(Snapshot()), acc, SentAfter(lasts, |world.texts(acc)|))
                                 else old(Snapshot()), acc, givesUp, Snapshot())
                && filings == old(filings) && chunks == old(chunks) && queue == old(queue)
    {
      KeysAreSet(world, Snapshot(), acc);
      hide Sound, ApplyCommit, RowsSeen, Inserts, Upserted, DistinctIds, MidAttempt, BecameSearchable, Recorded,
           EndsIn;
      ok := false;
      if acc in silver {
        ghost var s := Snapshot();
        AttemptSound(world, s, acc, i, lasts);
        ok := TryEmbed(acc, lasts, commits, i);
        if ok { CommitMeans(world, s, acc, i); }
      }
      if !ok {
        Failed(acc, givesUp);
      }
    }

    /** The rows as this transaction sees them: persisted, flushed, selected. */
    method PrepareRows(acc: Acc) returns (view: map<ChunkKey, Row>, rows: seq<Row>)
      modifies this`nextRow
      ensures nextRow == old(nextRow) + |rows| && rows == RowsSeen(world, old(Snapshot()), acc)
      ensures SameBut(view, chunks, acc, |rows|)
    {
      hide RowsSeen;
      var inserted;
      view, inserted := PersistChunks(acc);
      rows := SelectRows(view, acc, |world.texts(acc)|);
      assert rows == RowsSeen(world, old(Snapshot()), acc);
    }

    /** Status and event, and the transaction is over. */
    method Commit(acc: Acc, rows: seq<Row>, view: map<ChunkKey, Row>, ghost s: State, ghost i: nat)
      requires acc in filings && i !in attempts && rows == RowsSeen(world, s, acc)
      requires Snapshot() == RolledBack(world, s, acc, |rows|)
      requires forall k: nat :: k < |rows| ==> (acc, k) in view && view[(acc, k)] == WithPointId(acc, k, rows[k])
      requires SameBut(view, chunks, acc, |rows|)
      modifies this`chunks, this`filings, this`events
      ensures Snapshot() == ApplyCommit(MidAttempt(world, s, acc, i, |rows|), i)
    {
      hide RowsSeen, Inserts, Upserted;
      ViewIsCommitted(chunks, Attempt(acc, rows, Inserts(world, s, acc), |rows|), view);
      chunks := view;
      var f := filings[acc];
      filings := filings[acc := f.Save(Embedded, f.bronzeKey, f.silverKey, clock)];
      Emit(FilingEmbedded, acc);
      hide Committed;
      assert s.attempts[i := Attempt(acc, rows, Inserts(world, s, acc), |rows|)] - {i} == s.attempts;
    }

    /** ON CONFLICT DO NOTHING RETURNING: whether the row is new. */
    method InsertFiling(ref: Acc) returns (isNew: bool)
      modifies this`filings, this`nextFiling, this`events
      ensures isNew <==> ref !in old(filings)
      ensures filings.Keys == old(filings).Keys + {ref}
      ensures Queued(Snapshot(), if isNew then [ref] else []) == ApplyDiscover(old(Snapshot()), ref)
      ensures nextFiling == old(nextFiling) + 1
      ensures isNew ==> filings == old(filings)[ref := Filing(old(nextFiling), Discovered, false, false, clock)]
      ensures events == old(events) + if isNew then [Event(FilingDiscovered, ref)] else []
      ensures !isNew ==> filings == old(filings)
    {
      isNew := ref !in filings;
      FetchesOne(ref);
      hide Fetches;
      if isNew {
        filings := filings[ref := Filing(nextFiling, Discovered, false, false, clock)];
        Emit(FilingDiscovered, ref);
      }
      nextFiling := nextFiling + 1;
    }

    /**
     * Inserts the filings not seen before, in one transaction, and enqueues the
     * fetch of those, and only those, once it has committed.
     */
    method DiscoverAndInsert(refs: seq<Acc>) returns (inserted: seq<Acc>)
      requires Valid()
      modifies this
      ensures Valid()
      ensures Legal(world, old(Snapshot()), Discovers(refs))
      ensures Snapshot() == Run(world, old(Snapshot()), Discovers(refs))
      ensures Distinct(inserted) && forall a :: a in inserted <==> a in refs && a !in old(filings)
      ensures RowsInserted(old(Snapshot()), Snapshot(), inserted) && FetchesAdded(old(queue), queue, inserted)
    {
      hide Sound, Run, Legal, ApplyDiscover, Queued, Fetches, NewOnes, RowsInserted;
      ghost var s := Snapshot();
      inserted := [];
      NoSteps(world, s);
      NoneQueued(s);
      NoneNew(s.filings.Keys);
      NothingInserted(s);
      assert refs[..0] == [];
      for k := 0 to |refs|
        invariant Legal(world, s, Discovers(refs[..k])) && unchanged(this`queue)
        invariant Queued(Snapshot(), inserted) == Run(world, s, Discovers(refs[..k]))
        invariant NewOnes(s.filings.Keys, refs[..k], filings.Keys, inserted)
        invariant RowsInserted(s, Snapshot(), inserted)
      {
        ghost var before := Snapshot();
        DiscoverNext(world, s, refs, k);
        var isNew := InsertFiling(refs[k]);
        DiscoverBehind(before, Snapshot(), refs[k], inserted, isNew);
        NextNew(s.filings.Keys, refs, k, before.filings.Keys, inserted);
        if isNew {
          RowInserted(s, before, Snapshot(), inserted, refs[k]);
        } else {
          KnownInserted(s, before, Snapshot(), inserted);
        }
        if isNew {
          inserted := inserted + [refs[k]];
        }
      }
      assert refs[..|refs|] == refs;
      RunKeepsSound(world, s, Discovers(refs));
      QueuedIs(Snapshot(), inserted);
      NewOnesAre(s.filings.Keys, refs, filings.Keys, inserted);
      ghost var t := Snapshot();
      Enqueue(inserted);
      FetchesAreOnce(inserted);
      QueueAside(s, t, Snapshot(), inserted);
    }

    method Enqueue(accs: seq<Acc>)
      modifies this`queue
      ensures queue == old(queue) + Fetches(accs)
    {
      for k := 0 to |accs|
        invariant queue == old(queue) + Fetches(accs[..k])
      {
        FetchesAppend(accs[..k], accs[k]);
        assert accs[..k + 1] == accs[..k] + [accs[k]];
        queue := queue + multiset{FetchTask(accs[k])};
      }
      assert accs[..|accs|] == accs;
    }
  }
}
