/**
 * Overlapping token windows whose ends fall only between words. The tokenizer's
 * output is given: a word number and a character range for every token.
 */
module TokenWindows {

  datatype Encoding = Encoding(words: seq<int>, offsets: seq<(nat, nat)>) {
    function Size(): nat {
      |words|
    }

    predicate WordStart(i: int) {
      0 <= i < |words| && (i == 0 || words[i] != words[i - 1])
    }
  }

  datatype Limits = Limits(maxTokens: nat, overlap: nat)

  type Span = (nat, nat)

  // ---- the two boundary searches --------------------------------------------

  /** The last word start at or before token i. */
  function AtOrBefore(enc: Encoding, i: nat): (b: nat)
    requires i < enc.Size()
    ensures b <= i && enc.WordStart(b)
    ensures forall k :: b < k <= i ==> !enc.WordStart(k)
  {
    if enc.WordStart(i) then i else AtOrBefore(enc, i - 1)
  }

  /** The first word start after token i, or the end of the text. */
  function After(enc: Encoding, i: nat): (b: nat)
    requires i < enc.Size()
    ensures i < b <= enc.Size() && (b == enc.Size() || enc.WordStart(b))
    ensures forall k :: i < k < b ==> !enc.WordStart(k)
    decreases enc.Size() - i
  {
    if i + 1 == enc.Size() || enc.WordStart(i + 1) then i + 1 else After(enc, i + 1)
  }

  ghost predicate AreWordStarts(enc: Encoding, starts: seq<nat>, upTo: nat) {
    && (forall k :: 0 <= k < |starts| ==> enc.WordStart(starts[k]) && starts[k] < upTo)
    && (forall j, k :: 0 <= j < k < |starts| ==> starts[j] < starts[k])
    && (forall i :: 0 <= i < upTo && enc.WordStart(i) ==> i in starts)
  }

  method WordStarts(enc: Encoding) returns (starts: seq<nat>)
    ensures AreWordStarts(enc, starts, enc.Size())
    ensures forall i :: 0 <= i < |enc.words| ==> (i in starts <==> i == 0 || enc.words[i] != enc.words[i - 1])
  {
    starts := [];
    for i := 0 to enc.Size()
      invariant AreWordStarts(enc, starts, i)
    {
      if enc.WordStart(i) {
        starts := starts + [i];
      }
    }
  }

  method BoundaryAtOrBefore(enc: Encoding, starts: seq<nat>, i: nat) returns (b: nat)
    requires i < enc.Size() && AreWordStarts(enc, starts, enc.Size())
    ensures b == AtOrBefore(enc, i)
  {
    assert enc.WordStart(0) && 0 in starts;
    b := starts[0];
    var k := 0;
    while k < |starts|
      invariant 0 <= k <= |starts| && b == starts[if k == 0 then 0 else k - 1] && (0 < k ==> b <= i)
    {
      if starts[k] > i {
        break;
      }
      b := starts[k];
      k := k + 1;
    }
    var best := AtOrBefore(enc, i);
    assert best in starts;
    var m :| 0 <= m < |starts| && starts[m] == best;
  }

  method BoundaryAfter(enc: Encoding, starts: seq<nat>, i: nat) returns (b: nat)
    requires i < enc.Size() && AreWordStarts(enc, starts, enc.Size())
    ensures b == After(enc, i)
  {
    ghost var first := After(enc, i);
    assert first == enc.Size() || first in starts;
    for k := 0 to |starts|
      invariant forall j :: 0 <= j < k ==> starts[j] <= i
    {
      if starts[k] > i {
        b := starts[k];
        return;
      }
    }
    b := enc.Size();
  }

  // ---- one window -------------------------------------------------------------

  /** Where the window from `start` ends: a whole oversized word if need be. */
  function WindowEnd(enc: Encoding, lim: Limits, start: nat): (e: nat)
    requires start < enc.Size()
    ensures start < e <= enc.Size() && (e == enc.Size() || enc.WordStart(e))
  {
    var target := start + lim.maxTokens;
    var end := if target < enc.Size() then AtOrBefore(enc, target) else enc.Size();
    if end <= start then After(enc, start) else end
  }

  function NextStart(enc: Encoding, lim: Limits, start: nat): (next: nat)
    requires enc.WordStart(start) && WindowEnd(enc, lim, start) < enc.Size()
    ensures start <= next <= WindowEnd(enc, lim, start) && enc.WordStart(next)
  {
    var end := WindowEnd(enc, lim, start);
    var target := end as int - lim.overlap as int;
    if target > start then AtOrBefore(enc, target) else end
  }

  predicate LastWindow(enc: Encoding, lim: Limits, start: nat)
    requires start < enc.Size()
  {
    WindowEnd(enc, lim, start) == enc.Size()
  }

  // ---- when the loop ends -------------------------------------------------------

  /** The loop, entered at `start`, leaves within k more windows. */
  ghost predicate HaltsWithin(enc: Encoding, lim: Limits, start: nat, k: nat)
    requires enc.WordStart(start)
    decreases k
  {
    0 < k && (LastWindow(enc, lim, start) || HaltsWithin(enc, lim, NextStart(enc, lim, start), k - 1))
  }

  /** _split_by_tokens returns: the text is short, or the loop leaves. */
  ghost predicate Halts(enc: Encoding, lim: Limits) {
    enc.Size() <= lim.maxTokens || exists k :: HaltsWithin(enc, lim, 0, k)
  }

  /**
   * From `start` on, every window but the last moves on: the word it starts
   * with ends by `overlap` tokens before its end, or the overlap reaches back
   * to its start.
   */
  predicate AlwaysMoves(enc: Encoding, lim: Limits, start: nat)
    requires enc.WordStart(start)
    decreases enc.Size() - start
  {
    LastWindow(enc, lim, start) ||
    (var end := WindowEnd(enc, lim, start);
     (end <= start + lim.overlap || After(enc, start) + lim.overlap <= end) &&
     (MovesOn(enc, lim, start);
      AlwaysMoves(enc, lim, NextStart(enc, lim, start))))
  }

  /** The guard decides whether this window moves the loop on. */
  lemma MovesOn(enc: Encoding, lim: Limits, start: nat)
    requires enc.WordStart(start) && !LastWindow(enc, lim, start)
    ensures var end := WindowEnd(enc, lim, start);
      end <= start + lim.overlap || After(enc, start) + lim.overlap <= end <==> start < NextStart(enc, lim, start)
  {
  }

  lemma {:induction false} MovingHalts(enc: Encoding, lim: Limits, start: nat)
    requires enc.WordStart(start) && AlwaysMoves(enc, lim, start)
    ensures HaltsWithin(enc, lim, start, enc.Size() - start)
    decreases enc.Size() - start
  {
    if !LastWindow(enc, lim, start) {
      var next := NextStart(enc, lim, start);
      MovesOn(enc, lim, start);
      MovingHalts(enc, lim, next);
      HaltsLonger(enc, lim, next, enc.Size() - next, enc.Size() - start - 1);
    }
  }

  lemma {:induction false} HaltsLonger(enc: Encoding, lim: Limits, start: nat, k: nat, more: nat)
    requires enc.WordStart(start) && HaltsWithin(enc, lim, start, k) && k <= more
    ensures HaltsWithin(enc, lim, start, more)
    decreases k
  {
    if !LastWindow(enc, lim, start) { HaltsLonger(enc, lim, NextStart(enc, lim, start), k - 1, more - 1); }
  }

  lemma {:induction false} HaltingMoves(enc: Encoding, lim: Limits, start: nat, k: nat)
    requires enc.WordStart(start) && HaltsWithin(enc, lim, start, k)
    ensures AlwaysMoves(enc, lim, start)
    decreases k
  {
    if !LastWindow(enc, lim, start) {
      MovesOn(enc, lim, start);
      HaltingMoves(enc, lim, NextStart(enc, lim, start), k - 1);
      if NextStart(enc, lim, start) == start { StuckForever(enc, lim, start, k); }
    }
  }

  /** A window that does not move on is taken again for ever. */
  lemma {:induction false} StuckForever(enc: Encoding, lim: Limits, start: nat, k: nat)
    requires enc.WordStart(start) && !LastWindow(enc, lim, start) && NextStart(enc, lim, start) == start
    ensures !HaltsWithin(enc, lim, start, k)
  {
    if k > 0 { StuckForever(enc, lim, start, k - 1); }
  }

  /** The loop ends exactly when no window it reaches stands still. */
  lemma HaltsExactly(enc: Encoding, lim: Limits)
    requires lim.maxTokens < enc.Size()
    ensures Halts(enc, lim) <==> AlwaysMoves(enc, lim, 0)
  {
    if AlwaysMoves(enc, lim, 0) { MovingHalts(enc, lim, 0); }
    if Halts(enc, lim) {
      var k :| HaltsWithin(enc, lim, 0, k);
      HaltingMoves(enc, lim, 0, k);
    }
  }

  // ---- words of bounded length -----------------------------------------------

  ghost predicate WordsAtMost(enc: Encoding, w: nat) {
    forall i :: enc.WordStart(i) ==> After(enc, i) - i <= w
  }

  /** Words short enough that half the non-overlapping room holds one. */
  predicate ShortWords(lim: Limits, w: nat) {
    2 * w + lim.overlap <= lim.maxTokens + 1
  }

  /**
   * One window under the word bound: within the limit, ending no more than a
   * word short of it, and overlapping the next by `overlap` to `overlap + w - 1`.
   */
  lemma EndUnderBound(enc: Encoding, lim: Limits, w: nat, start: nat)
    requires enc.WordStart(start) && WordsAtMost(enc, w) && ShortWords(lim, w)
    ensures var end := WindowEnd(enc, lim, start);
      && end <= start + lim.maxTokens
      && (end < enc.Size() ==> start + lim.maxTokens < end + w && After(enc, start) + lim.overlap <= end)
  {
    var target := start + lim.maxTokens;
    if target < enc.Size() {
      var b := AtOrBefore(enc, target);
      assert After(enc, b) > target;
      assert enc.WordStart(b);
    }
  }

  lemma WindowUnderBound(enc: Encoding, lim: Limits, w: nat, start: nat)
    requires enc.WordStart(start) && WordsAtMost(enc, w) && ShortWords(lim, w)
    ensures var end := WindowEnd(enc, lim, start);
      && end <= start + lim.maxTokens
      && (end < enc.Size() ==>
            && start + lim.maxTokens < end + w
            && start + 1 <= NextStart(enc, lim, start)
            && NextStart(enc, lim, start) + lim.overlap <= end < NextStart(enc, lim, start) + lim.overlap + w)
  {
    EndUnderBound(enc, lim, w, start);
    if !LastWindow(enc, lim, start) {
      var next := NextStart(enc, lim, start);
      var back := WindowEnd(enc, lim, start) - lim.overlap;
      assert next == AtOrBefore(enc, back) && After(enc, next) > back;
      assert After(enc, start) == enc.Size() || enc.WordStart(After(enc, start));
    }
  }

  lemma {:induction false} ShortWordsMove(enc: Encoding, lim: Limits, w: nat, start: nat)
    requires enc.WordStart(start) && WordsAtMost(enc, w) && ShortWords(lim, w)
    ensures AlwaysMoves(enc, lim, start)
    decreases enc.Size() - start
  {
    if !LastWindow(enc, lim, start) {
      WindowUnderBound(enc, lim, w, start);
      MovesOn(enc, lim, start);
      ShortWordsMove(enc, lim, w, NextStart(enc, lim, start));
    }
  }

  /**
   * A text the loop never finishes: a first word of v tokens, single-token
   * words, and a last word of at most v tokens, one token more than the limit
   * in all. The window cannot end inside the last word, and the overlap reaches
   * back into the first.
   */
  function StuckText(lim: Limits, v: nat): Encoding
    requires 1 <= lim.overlap
  {
    var lastWord := v + lim.overlap - 1;
    Encoding(seq(lim.maxTokens + 1, (i: nat) => if i < v then 0 else if i < lastWord then i else lastWord),
             seq(lim.maxTokens + 1, (i: nat) => (i, i + 1)))
  }

  lemma StuckTextWords(lim: Limits, v: nat)
    requires 1 <= lim.overlap < lim.maxTokens && 2 <= v && v + lim.overlap - 1 <= lim.maxTokens
    requires lim.maxTokens + 2 <= 2 * v + lim.overlap
    ensures WordsAtMost(StuckText(lim, v), v)
  {
    var enc, lastWord := StuckText(lim, v), v + lim.overlap - 1;
    forall i | enc.WordStart(i) ensures After(enc, i) - i <= v {
      assert i == 0 || v <= i <= lastWord;
      if i < lastWord { assert enc.WordStart(if i == 0 then v else i + 1); }
    }
  }

  lemma StuckTextNeverHalts(lim: Limits, v: nat)
    requires 1 <= lim.overlap < lim.maxTokens && 2 <= v && v + lim.overlap - 1 <= lim.maxTokens
    ensures !Halts(StuckText(lim, v), lim)
  {
    var enc, lastWord := StuckText(lim, v), v + lim.overlap - 1;
    assert enc.WordStart(lastWord) && AtOrBefore(enc, lim.maxTokens) == lastWord;
    assert enc.WordStart(0) && AtOrBefore(enc, v - 1) == 0;
    assert WindowEnd(enc, lim, 0) == lastWord && NextStart(enc, lim, 0) == 0;
    forall k: nat ensures !HaltsWithin(enc, lim, 0, k) { StuckForever(enc, lim, 0, k); }
  }

  /**
   * The exact word length the loop tolerates: it ends on every text whose words
   * have at most w tokens if and only if 2w <= maxTokens - overlap + 1.
   */
  lemma ToleratedWordLength(lim: Limits, w: nat)
    requires 1 <= lim.overlap < lim.maxTokens && 1 <= w
    ensures (forall enc: Encoding :: WordsAtMost(enc, w) ==> Halts(enc, lim)) <==> ShortWords(lim, w)
  {
    if ShortWords(lim, w) {
      forall enc: Encoding | WordsAtMost(enc, w) ensures Halts(enc, lim) {
        if lim.maxTokens < enc.Size() {
          ShortWordsMove(enc, lim, w, 0);
          HaltsExactly(enc, lim);
        }
      }
    } else {
      var v := (lim.maxTokens - lim.overlap + 3) / 2;
      StuckTextWords(lim, v);
      StuckTextNeverHalts(lim, v);
      assert WordsAtMost(StuckText(lim, v), w);
    }
  }

  lemma {:induction false} NoOverlapMoves(enc: Encoding, lim: Limits, start: nat)
    requires enc.WordStart(start) && lim.overlap == 0
    ensures AlwaysMoves(enc, lim, start)
    decreases enc.Size() - start
  {
    if !LastWindow(enc, lim, start) {
      MovesOn(enc, lim, start);
      assert enc.WordStart(WindowEnd(enc, lim, start));
      NoOverlapMoves(enc, lim, NextStart(enc, lim, start));
    }
  }

  /** Without an overlap the loop ends on every text. */
  lemma NoOverlapHalts(enc: Encoding, lim: Limits)
    requires lim.overlap == 0
    ensures Halts(enc, lim)
  {
    if lim.maxTokens < enc.Size() {
      NoOverlapMoves(enc, lim, 0);
      HaltsExactly(enc, lim);
    }
  }

  /** The limits the pipeline uses: words of up to 160 tokens, and no more. */
  const CHUNK_LIMITS: Limits := Limits(384, 64)

  lemma ToleratedByPipeline(w: nat)
    requires 1 <= w
    ensures (forall enc: Encoding :: WordsAtMost(enc, w) ==> Halts(enc, CHUNK_LIMITS)) <==> w <= 160
  {
    ToleratedWordLength(CHUNK_LIMITS, w);
  }
}
