/**
 * Splitting a text into chunks along its token windows: what the windows cover,
 * and what their texts add up to.
 */
module Chunking {
  import opened TokenWindows

  /** What the tokenizer guarantees: each token a range of the text, in order. */
  ghost predicate Tokenizes(enc: Encoding, text: string) {
    && |enc.offsets| == enc.Size()
    && (forall i :: 0 <= i < enc.Size() ==> enc.offsets[i].0 <= enc.offsets[i].1 <= |text|)
    && (forall i, j :: 0 <= i < j < enc.Size() ==>
          enc.offsets[i].0 <= enc.offsets[j].0 && enc.offsets[i].1 <= enc.offsets[j].1)
  }

  predicate IsSpan(enc: Encoding, s: Span) {
    s.0 < s.1 <= enc.Size() && |enc.offsets| == enc.Size()
  }

  /** The character range of tokens [s.0, s.1). */
  function FirstChar(enc: Encoding, s: Span): nat
    requires IsSpan(enc, s)
  {
    enc.offsets[s.0].0
  }

  function LastChar(enc: Encoding, s: Span): nat
    requires IsSpan(enc, s)
  {
    enc.offsets[s.1 - 1].1
  }

  /** text[from:to], which is empty rather than an error outside the text. */
  function Slice(text: string, from: nat, to: nat): string {
    if from <= to <= |text| then text[from..to] else if from <= |text| < to then text[from..] else ""
  }

  /** Chunk text is cut from the source by character range. */
  function Piece(text: string, enc: Encoding, s: Span): string
    requires IsSpan(enc, s)
  {
    Slice(text, FirstChar(enc, s), LastChar(enc, s))
  }

  predicate AreSpans(enc: Encoding, ss: seq<Span>) {
    forall k :: 0 <= k < |ss| ==> IsSpan(enc, ss[k])
  }

  /** The windows from `start` on, up to one that stands still. */
  function Spans(enc: Encoding, lim: Limits, start: nat): (ss: seq<Span>)
    requires enc.WordStart(start) && |enc.offsets| == enc.Size()
    ensures |ss| > 0 && ss[0] == (start, WindowEnd(enc, lim, start)) && AreSpans(enc, ss)
    decreases enc.Size() - start
  {
    [(start, WindowEnd(enc, lim, start))] +
    if LastWindow(enc, lim, start) || NextStart(enc, lim, start) == start then []
    else Spans(enc, lim, NextStart(enc, lim, start))
  }

  function Pieces(text: string, enc: Encoding, ss: seq<Span>): seq<(string, nat)>
    requires AreSpans(enc, ss)
  {
    if |ss| == 0 then [] else [(Piece(text, enc, ss[0]), ss[0].1 - ss[0].0)] + Pieces(text, enc, ss[1..])
  }

  function Split(text: string, enc: Encoding, lim: Limits): seq<(string, nat)>
    requires |enc.offsets| == enc.Size()
  {
    if enc.Size() <= lim.maxTokens then [(text, enc.Size())] else Pieces(text, enc, Spans(enc, lim, 0))
  }

  method EndOfWindow(enc: Encoding, lim: Limits, wordStarts: seq<nat>, start: nat) returns (end: nat)
    requires start < enc.Size() && AreWordStarts(enc, wordStarts, enc.Size())
    ensures end == WindowEnd(enc, lim, start)
  {
    var n := enc.Size();
    var targetEnd := start + lim.maxTokens;
    end := n;
    if targetEnd < n {
      end := BoundaryAtOrBefore(enc, wordStarts, targetEnd);
    }
    if end <= start {
      end := BoundaryAfter(enc, wordStarts, start);
    }
  }

  method StartOfNext(enc: Encoding, lim: Limits, wordStarts: seq<nat>, start: nat, end: nat) returns (next: nat)
    requires enc.WordStart(start) && AreWordStarts(enc, wordStarts, enc.Size())
    requires end == WindowEnd(enc, lim, start) < enc.Size()
    ensures next == NextStart(enc, lim, start)
  {
    var targetStart: int := end - lim.overlap;
    next := end;
    if targetStart > start {
      next := BoundaryAtOrBefore(enc, wordStarts, targetStart);
    }
  }

  /** One turn of the loop: the window at `start`, and where the next one is. */
  method TakeWindow(text: string, enc: Encoding, lim: Limits, wordStarts: seq<nat>, start: nat,
                    ghost todo: seq<(string, nat)>) returns (window: (string, nat), next: nat)
    requires Remaining(text, enc, lim, start, todo) && AreWordStarts(enc, wordStarts, enc.Size())
    ensures |todo| > 0 && window == todo[0] && start < next <= enc.Size()
    ensures if next == enc.Size() then todo[1..] == [] else Remaining(text, enc, lim, next, todo[1..])
  {
    hide Remaining, AreWordStarts, NextStart, WindowEnd;
    RemainingStarts(text, enc, lim, start, todo);
    var end := EndOfWindow(enc, lim, wordStarts, start);
    SpansUnfold(text, enc, lim, start, todo);
    window := (Piece(text, enc, (start, end)), end - start);
    next := end;
    if end < enc.Size() {
      next := StartOfNext(enc, lim, wordStarts, start, end);
    }
  }

  /**
   * A text within the limit is one window. Of a longer one the windows lie along
   * ss: token ranges in order that together hold every token.
   */
  method SplitByTokens(text: string, enc: Encoding, lim: Limits)
    returns (windows: seq<(string, nat)>, ghost ss: seq<Span>)
    requires |enc.offsets| == enc.Size() && Halts(enc, lim)
    ensures windows == Split(text, enc, lim)
    ensures enc.Size() <= lim.maxTokens ==> windows == [(text, enc.Size())]
    ensures lim.maxTokens < enc.Size() ==> SplitAlong(text, enc, lim, windows, ss)
  {
    var n := enc.Size();
    ss := [];
    if n <= lim.maxTokens {
      return [(text, n)], ss;
    }
    HaltsExactly(enc, lim);
    ss := Spans(enc, lim, 0);
    windows := AllWindows(text, enc, lim, Pieces(text, enc, ss));
    SplitLies(text, enc, lim);
  }

  method AllWindows(text: string, enc: Encoding, lim: Limits, ghost all: seq<(string, nat)>)
    returns (windows: seq<(string, nat)>)
    requires 0 < enc.Size() && Remaining(text, enc, lim, 0, all)
    ensures windows == all
  {
    hide Remaining, AreWordStarts;
    var n := enc.Size();
    var wordStarts := WordStarts(enc);
    var start := 0;
    windows := [];
    while start < n
      invariant 0 <= start <= n && |windows| <= |all| && windows == all[..|windows|]
      invariant if start == n then |windows| == |all| else Remaining(text, enc, lim, start, all[|windows|..])
      decreases n - start
    {
      ghost var todo := all[|windows|..];
      var window, next := TakeWindow(text, enc, lim, wordStarts, start, todo);
      windows := windows + [window];
      assert todo[1..] == all[|windows|..];
      start := next;
    }
  }

  /** What the loop has still to append when it is at `start`. */
  ghost predicate Remaining(text: string, enc: Encoding, lim: Limits, start: nat, todo: seq<(string, nat)>) {
    && |enc.offsets| == enc.Size() && enc.WordStart(start) && AlwaysMoves(enc, lim, start)
    && todo == Pieces(text, enc, Spans(enc, lim, start))
  }

  lemma RemainingStarts(text: string, enc: Encoding, lim: Limits, start: nat, todo: seq<(string, nat)>)
    requires Remaining(text, enc, lim, start, todo)
    ensures enc.WordStart(start) && |enc.offsets| == enc.Size()
  {
  }

  /** The first window's piece, then those of the windows after it. */
  lemma SpansUnfold(text: string, enc: Encoding, lim: Limits, start: nat, todo: seq<(string, nat)>)
    requires Remaining(text, enc, lim, start, todo)
    ensures var end := WindowEnd(enc, lim, start);
      && |todo| > 0 && todo[0] == (Piece(text, enc, (start, end)), end - start)
      && if end == enc.Size() then todo[1..] == []
         else start < NextStart(enc, lim, start) && Remaining(text, enc, lim, NextStart(enc, lim, start), todo[1..])
  {
    var ss := Spans(enc, lim, start);
    PiecesHead(text, enc, ss);
    if LastWindow(enc, lim, start) {
      assert ss[1..] == [];
    } else {
      MovesOn(enc, lim, start);
      assert ss[1..] == Spans(enc, lim, NextStart(enc, lim, start));
    }
  }

  lemma PiecesHead(text: string, enc: Encoding, ss: seq<Span>)
    requires |ss| > 0 && AreSpans(enc, ss)
    ensures Pieces(text, enc, ss) == [(Piece(text, enc, ss[0]), ss[0].1 - ss[0].0)] + Pieces(text, enc, ss[1..])
  {
  }

  // ---- what the windows cover --------------------------------------------------

  /** Windows in order, each starting inside or right after the one before. */
  ghost predicate Covers(enc: Encoding, ss: seq<Span>, start: nat) {
    && |ss| > 0 && ss[0].0 == start && ss[|ss| - 1].1 == enc.Size()
    && forall i :: 0 <= i < |ss| - 1 ==> ss[i].0 < ss[i + 1].0 <= ss[i].1
  }

  /** Every window is cut between words; only a single word may exceed the limit. */
  ghost predicate WholeWords(enc: Encoding, lim: Limits, ss: seq<Span>) {
    forall s :: s in ss ==>
      && enc.WordStart(s.0) && (s.1 == enc.Size() || enc.WordStart(s.1))
      && (s.1 - s.0 <= lim.maxTokens || s.1 == After(enc, s.0))
  }

  /** The list of windows, one unrolled. */
  lemma SpansHead(enc: Encoding, lim: Limits, start: nat)
    requires enc.WordStart(start) && |enc.offsets| == enc.Size()
    ensures var first := (start, WindowEnd(enc, lim, start));
      Spans(enc, lim, start) == [first] +
        if LastWindow(enc, lim, start) || NextStart(enc, lim, start) == start then []
        else Spans(enc, lim, NextStart(enc, lim, start))
  {
  }

  lemma WindowWhole(enc: Encoding, lim: Limits, start: nat)
    requires enc.WordStart(start)
    ensures var end := WindowEnd(enc, lim, start);
      end <= start + lim.maxTokens || end == After(enc, start)
  {
  }

  /** One more window in front. */
  lemma {:induction false} CoversFrom(enc: Encoding, lim: Limits, first: Span, rest: seq<Span>)
    requires |rest| > 0 && first.0 < rest[0].0 <= first.1
    requires Covers(enc, rest, rest[0].0) && WholeWords(enc, lim, rest) && WholeWords(enc, lim, [first])
    ensures Covers(enc, [first] + rest, first.0) && WholeWords(enc, lim, [first] + rest)
  {
    hide After;
    var ss := [first] + rest;
    assert forall i :: 0 < i < |ss| ==> ss[i] == rest[i - 1];
    forall s | s in ss && s != first ensures s in rest { }
    assert first in [first];
  }

  /** Without any bound on words: a loop that ends has covered every token. */
  lemma {:induction false} HaltingCovers(enc: Encoding, lim: Limits, start: nat)
    requires enc.WordStart(start) && |enc.offsets| == enc.Size() && AlwaysMoves(enc, lim, start)
    ensures Covers(enc, Spans(enc, lim, start), start) && WholeWords(enc, lim, Spans(enc, lim, start))
    decreases enc.Size() - start
  {
    hide AlwaysMoves, AtOrBefore, After;
    SpansHead(enc, lim, start);
    WindowWhole(enc, lim, start);
    var first := (start, WindowEnd(enc, lim, start));
    assert WholeWords(enc, lim, [first]);
    if LastWindow(enc, lim, start) {
      assert Spans(enc, lim, start) == [first];
    } else {
      var next := NextStart(enc, lim, start);
      MovesFurther(enc, lim, start);
      HaltingCovers(enc, lim, next);
      hide Spans, Covers, WholeWords, WindowEnd, NextStart;
      CoversFrom(enc, lim, first, Spans(enc, lim, next));
    }
  }

  lemma {:induction false} MovesFurther(enc: Encoding, lim: Limits, start: nat)
    requires enc.WordStart(start) && AlwaysMoves(enc, lim, start) && !LastWindow(enc, lim, start)
    ensures start < NextStart(enc, lim, start) && AlwaysMoves(enc, lim, NextStart(enc, lim, start))
  {
    MovesOn(enc, lim, start);
  }

  // ---- the windows, spelled out ---------------------------------------------------

  /** Token i belongs to another word than the one before it. */
  ghost predicate NewWord(enc: Encoding, i: nat) {
    i < |enc.words| && (i == 0 || enc.words[i] != enc.words[i - 1])
  }

  /** i is the last token up to `to` that begins a word. */
  ghost predicate LastNewWord(enc: Encoding, i: nat, to: int) {
    NewWord(enc, i) && i <= to && forall k: nat :: i < k <= to ==> !NewWord(enc, k)
  }

  /**
   * A window ends with the text if that is within the limit, else at the last
   * word that begins within it, else, when none does, with its first word.
   */
  ghost predicate EndsRight(enc: Encoding, lim: Limits, s: Span) {
    var n, target := |enc.words|, s.0 + lim.maxTokens;
    s.0 < s.1 <= n &&
    if n <= target then s.1 == n
    else if exists i :: s.0 < i && LastNewWord(enc, i, target) then LastNewWord(enc, s.1, target)
    else (s.1 == n || NewWord(enc, s.1)) && forall k :: s.0 < k < s.1 ==> !NewWord(enc, k)
  }

  /** The next one starts at the last word that begins `overlap` tokens before that, or else right there. */
  ghost predicate StartsRight(enc: Encoding, lim: Limits, s: Span, next: Span) {
    if s.0 < s.1 - lim.overlap then LastNewWord(enc, next.0, s.1 - lim.overlap) else next.0 == s.1
  }

  ghost predicate LaidOut(enc: Encoding, lim: Limits, ss: seq<Span>) {
    && (forall i :: 0 <= i < |ss| ==> EndsRight(enc, lim, ss[i]))
    && (forall i :: 0 <= i < |ss| - 1 ==> ss[i].1 < |enc.words| && StartsRight(enc, lim, ss[i], ss[i + 1]))
  }

  /** The window's text is the source from its first token's start to its last token's end. */
  ghost predicate CutFrom(text: string, enc: Encoding, window: (string, nat), s: Span) {
    && s.0 < s.1 <= |enc.offsets| && window.1 == s.1 - s.0
    && var from, to := enc.offsets[s.0].0, enc.offsets[s.1 - 1].1;
       from <= to <= |text| ==> window.0 == text[from..to]
  }

  ghost predicate SplitAlong(text: string, enc: Encoding, lim: Limits, windows: seq<(string, nat)>, ss: seq<Span>) {
    && |windows| == |ss| > 0 && ss[0].0 == 0 && ss[|ss| - 1].1 == |enc.words| && LaidOut(enc, lim, ss)
    && (forall k :: 0 <= k < |ss| ==> CutFrom(text, enc, windows[k], ss[k]))
    && (forall t :: 0 <= t < |enc.words| ==> IsHeld(ss, t))
  }

  /** Some window holds token t. */
  ghost predicate IsHeld(ss: seq<Span>, t: nat) {
    exists k :: 0 <= k < |ss| && ss[k].0 <= t < ss[k].1
  }

  lemma WindowEndsRight(enc: Encoding, lim: Limits, start: nat)
    requires enc.WordStart(start)
    ensures EndsRight(enc, lim, (start, WindowEnd(enc, lim, start)))
  {
    var target := start + lim.maxTokens;
    assert forall k: nat :: NewWord(enc, k) <==> enc.WordStart(k);
    if target < enc.Size() {
      var b := AtOrBefore(enc, target);
      assert LastNewWord(enc, b, target);
      hide AtOrBefore, After;
      if i :| start < i && LastNewWord(enc, i, target) { assert i == b; }
    }
  }

  lemma NextStartsRight(enc: Encoding, lim: Limits, start: nat)
    requires enc.WordStart(start) && !LastWindow(enc, lim, start)
    ensures var end, next := WindowEnd(enc, lim, start), NextStart(enc, lim, start);
      forall e :: StartsRight(enc, lim, (start, end), (next, e))
  {
    assert forall k: nat :: NewWord(enc, k) <==> enc.WordStart(k);
  }

  lemma {:induction false} LaidFrom(enc: Encoding, lim: Limits, first: Span, rest: seq<Span>)
    requires |rest| > 0 && LaidOut(enc, lim, rest) && EndsRight(enc, lim, first)
    requires first.1 < |enc.words| && StartsRight(enc, lim, first, rest[0])
    ensures LaidOut(enc, lim, [first] + rest)
  {
    hide EndsRight, StartsRight;
    var ss := [first] + rest;
    assert forall i :: 0 < i < |ss| ==> ss[i] == rest[i - 1];
  }

  lemma {:induction false} SpansAreLaidOut(enc: Encoding, lim: Limits, start: nat)
    requires enc.WordStart(start) && |enc.offsets| == enc.Size() && AlwaysMoves(enc, lim, start)
    ensures LaidOut(enc, lim, Spans(enc, lim, start))
    decreases enc.Size() - start
  {
    hide EndsRight, StartsRight, AlwaysMoves, WindowEnd, NextStart;
    SpansHead(enc, lim, start);
    WindowEndsRight(enc, lim, start);
    var first := (start, WindowEnd(enc, lim, start));
    if LastWindow(enc, lim, start) {
      assert Spans(enc, lim, start) == [first];
    } else {
      var next := NextStart(enc, lim, start);
      MovesFurther(enc, lim, start);
      NextStartsRight(enc, lim, start);
      SpansAreLaidOut(enc, lim, next);
      hide Spans, LaidOut;
      LaidFrom(enc, lim, first, Spans(enc, lim, next));
    }
  }

  lemma {:induction false} PiecesAreCut(text: string, enc: Encoding, ss: seq<Span>)
    requires AreSpans(enc, ss)
    ensures |Pieces(text, enc, ss)| == |ss|
    ensures forall k :: 0 <= k < |ss| ==> CutFrom(text, enc, Pieces(text, enc, ss)[k], ss[k])
  {
    if |ss| > 0 {
      PiecesAreCut(text, enc, ss[1..]);
      PiecesHead(text, enc, ss);
    }
  }

  /** Windows that start inside the one before leave out no token. */
  lemma {:induction false} CoveredToken(enc: Encoding, ss: seq<Span>, t: nat)
    requires Covers(enc, ss, 0) && t < enc.Size()
    ensures IsHeld(ss, t)
  {
    var k := 0;
    while ss[k].1 <= t
      invariant k < |ss| && ss[k].0 <= t
      decreases |ss| - k
    {
      k := k + 1;
    }
  }

  /** What splitting a text over the limit leaves. */
  lemma SplitLies(text: string, enc: Encoding, lim: Limits)
    requires |enc.offsets| == enc.Size() && Halts(enc, lim) && lim.maxTokens < enc.Size()
    ensures SplitAlong(text, enc, lim, Split(text, enc, lim), Spans(enc, lim, 0))
  {
    hide EndsRight, StartsRight, AlwaysMoves, CutFrom, LaidOut, IsHeld, WholeWords, Spans, Pieces, WindowEnd, NextStart;
    var ss := Spans(enc, lim, 0);
    HaltsExactly(enc, lim);
    HaltingCovers(enc, lim, 0);
    SpansAreLaidOut(enc, lim, 0);
    PiecesAreCut(text, enc, ss);
    forall t | 0 <= t < |enc.words| ensures IsHeld(ss, t) { CoveredToken(enc, ss, t); }
  }

  /** Consecutive windows share at least `overlap` and fewer than overlap + w tokens. */
  ghost predicate Overlapping(lim: Limits, w: nat, ss: seq<Span>) {
    forall i :: 0 <= i < |ss| - 1 ==> ss[i + 1].0 + lim.overlap <= ss[i].1 < ss[i + 1].0 + lim.overlap + w
  }

  ghost predicate WithinLimit(lim: Limits, ss: seq<Span>) {
    forall s :: s in ss ==> s.1 - s.0 <= lim.maxTokens
  }

  lemma {:induction false} BoundedFrom(lim: Limits, w: nat, first: Span, rest: seq<Span>)
    requires |rest| > 0 && Overlapping(lim, w, rest) && WithinLimit(lim, rest)
    requires rest[0].0 + lim.overlap <= first.1 < rest[0].0 + lim.overlap + w && first.1 - first.0 <= lim.maxTokens
    ensures Overlapping(lim, w, [first] + rest) && WithinLimit(lim, [first] + rest)
  {
    var ss := [first] + rest;
    assert forall i :: 0 < i < |ss| ==> ss[i] == rest[i - 1];
  }

  lemma {:induction false} BoundedWindows(enc: Encoding, lim: Limits, w: nat, start: nat)
    requires enc.WordStart(start) && |enc.offsets| == enc.Size() && WordsAtMost(enc, w) && ShortWords(lim, w)
    ensures var ss := Spans(enc, lim, start); Overlapping(lim, w, ss) && WithinLimit(lim, ss)
    decreases enc.Size() - start
  {
    hide Spans, AtOrBefore, After, WordsAtMost, WindowEnd, NextStart;
    var first := (start, WindowEnd(enc, lim, start));
    WindowUnderBound(enc, lim, w, start);
    SpansHead(enc, lim, start);
    if LastWindow(enc, lim, start) {
      assert Spans(enc, lim, start) == [first];
    } else {
      BoundedWindows(enc, lim, w, NextStart(enc, lim, start));
      hide Overlapping, WithinLimit;
      BoundedFrom(lim, w, first, Spans(enc, lim, NextStart(enc, lim, start)));
    }
  }

  /**
   * A fact of at most overlap + 1 tokens, wherever it stands, lies whole inside
   * some window.
   */
  lemma {:induction false} FactStaysWhole(enc: Encoding, lim: Limits, w: nat, start: nat, a: nat, b: nat)
    requires enc.WordStart(start) && |enc.offsets| == enc.Size() && WordsAtMost(enc, w) && ShortWords(lim, w)
    requires start <= a < b <= enc.Size() && b - a <= lim.overlap + 1
    ensures exists s :: s in Spans(enc, lim, start) && s.0 <= a && b <= s.1
    decreases enc.Size() - start
  {
    var ss := Spans(enc, lim, start);
    WindowUnderBound(enc, lim, w, start);
    if LastWindow(enc, lim, start) || a < NextStart(enc, lim, start) {
      assert ss[0] in ss && ss[0].0 <= a && b <= ss[0].1;
    } else {
      var next := NextStart(enc, lim, start);
      FactStaysWhole(enc, lim, w, next, a, b);
      var s :| s in Spans(enc, lim, next) && s.0 <= a && b <= s.1;
      assert s in ss;
    }
  }

  // ---- what the texts add up to ------------------------------------------------

  /** Put the pieces back together, dropping from each what the last one had. */
  function Glue(text: string, enc: Encoding, ss: seq<Span>): string
    requires |ss| > 0 && AreSpans(enc, ss)
  {
    var n := |ss| - 1;
    var piece := Piece(text, enc, ss[n]);
    if n == 0 then piece
    else
      var shared := LastChar(enc, ss[n - 1]) - FirstChar(enc, ss[n]);
      Glue(text, enc, ss[..n]) + if 0 <= shared <= |piece| then piece[shared..] else piece
  }

  /** Ends grow along the windows, so nothing is glued twice. */
  ghost predicate EndsGrow(ss: seq<Span>) {
    forall i :: 0 <= i < |ss| - 1 ==> ss[i].1 <= ss[i + 1].1
  }

  lemma {:induction false} BoundedEndsGrow(enc: Encoding, lim: Limits, w: nat, start: nat)
    requires enc.WordStart(start) && |enc.offsets| == enc.Size() && WordsAtMost(enc, w) && ShortWords(lim, w)
    ensures EndsGrow(Spans(enc, lim, start))
    decreases enc.Size() - start
  {
    hide Spans, AtOrBefore, After, WordsAtMost, WindowEnd, NextStart;
    var ss := Spans(enc, lim, start);
    WindowUnderBound(enc, lim, w, start);
    SpansHead(enc, lim, start);
    if !LastWindow(enc, lim, start) {
      var next := NextStart(enc, lim, start);
      var rest := Spans(enc, lim, next);
      BoundedEndsGrow(enc, lim, w, next);
      WindowUnderBound(enc, lim, w, next);
      assert ss == [ss[0]] + rest;
      assert forall i :: 0 < i < |ss| ==> ss[i] == rest[i - 1];
      EndsInOrder(enc, lim, start, next);
    }
  }

  lemma EndsInOrder(enc: Encoding, lim: Limits, start: nat, next: nat)
    requires enc.WordStart(start) && enc.WordStart(next) && start < next <= WindowEnd(enc, lim, start)
    ensures WindowEnd(enc, lim, start) <= WindowEnd(enc, lim, next)
  {
    var b, c := WindowEnd(enc, lim, start), WindowEnd(enc, lim, next);
    assert c == enc.Size() || enc.WordStart(c);
    assert b <= c || start + lim.maxTokens < enc.Size() || next + lim.maxTokens < enc.Size();
  }

  /** Each window starts inside the one before it and ends no earlier. */
  ghost predicate Joined(ss: seq<Span>) {
    EndsGrow(ss) && forall i :: 0 <= i < |ss| - 1 ==> ss[i].0 < ss[i + 1].0 < ss[i].1
  }

  lemma {:induction false} GlueIsText(text: string, enc: Encoding, ss: seq<Span>)
    requires Tokenizes(enc, text) && |ss| > 0 && AreSpans(enc, ss) && Joined(ss)
    ensures FirstChar(enc, ss[0]) <= LastChar(enc, ss[|ss| - 1]) <= |text|
    ensures Glue(text, enc, ss) == text[FirstChar(enc, ss[0])..LastChar(enc, ss[|ss| - 1])]
  {
    var n := |ss| - 1;
    TokensInOrder(enc, text, ss[n].0, ss[n].1 - 1);
    hide Tokenizes, Joined;
    if n > 0 {
      var front := ss[..n];
      JoinedFront(ss);
      GlueIsText(text, enc, front);
      GlueLast(text, enc, front[n - 1], ss[n], FirstChar(enc, ss[0]));
    }
  }

  lemma JoinedFront(ss: seq<Span>)
    requires Joined(ss) && |ss| > 1
    ensures Joined(ss[..|ss| - 1])
    ensures ss[|ss| - 2].0 < ss[|ss| - 1].0 < ss[|ss| - 2].1 <= ss[|ss| - 1].1
  {
  }

  /** Dropping the shared characters of the next piece continues the text. */
  lemma GlueLast(text: string, enc: Encoding, prev: Span, last: Span, from: nat)
    requires Tokenizes(enc, text) && IsSpan(enc, prev) && IsSpan(enc, last)
    requires prev.0 < last.0 < prev.1 <= last.1 && from <= LastChar(enc, prev) <= |text|
    ensures var shared, piece := LastChar(enc, prev) - FirstChar(enc, last), Piece(text, enc, last);
      && 0 <= shared <= |piece| && LastChar(enc, prev) <= LastChar(enc, last) <= |text|
      && text[from..LastChar(enc, prev)] + piece[shared..] == text[from..LastChar(enc, last)]
  {
    TokensInOrder(enc, text, last.0, prev.1 - 1);
    TokensInOrder(enc, text, prev.1 - 1, last.1 - 1);
  }

  lemma TokensInOrder(enc: Encoding, text: string, i: nat, j: nat)
    requires Tokenizes(enc, text) && i <= j < enc.Size()
    ensures enc.offsets[i].0 <= enc.offsets[j].1 && enc.offsets[i].1 <= enc.offsets[j].1
  {
  }

  /**
   * Under the word bound and with some overlap, nothing is lost: glued along
   * their overlaps, the windows give back the text from its first token to its
   * last.
   */
  lemma ChunksLoseNothing(text: string, enc: Encoding, lim: Limits, w: nat)
    requires Tokenizes(enc, text) && WordsAtMost(enc, w) && ShortWords(lim, w)
    requires 1 <= lim.overlap && lim.maxTokens < enc.Size()
    ensures var ss := Spans(enc, lim, 0);
      && Covers(enc, ss, 0) && WithinLimit(lim, ss) && Overlapping(lim, w, ss)
      && enc.offsets[0].0 <= enc.offsets[enc.Size() - 1].1 <= |text|
      && Glue(text, enc, ss) == text[enc.offsets[0].0..enc.offsets[enc.Size() - 1].1]
  {
    ShortWordsMove(enc, lim, w, 0);
    HaltingCovers(enc, lim, 0);
    BoundedWindows(enc, lim, w, 0);
    BoundedEndsGrow(enc, lim, w, 0);
    CoveringGlue(text, enc, lim, w, Spans(enc, lim, 0));
  }

  lemma CoveringGlue(text: string, enc: Encoding, lim: Limits, w: nat, ss: seq<Span>)
    requires Tokenizes(enc, text) && Covers(enc, ss, 0) && AreSpans(enc, ss)
    requires Overlapping(lim, w, ss) && EndsGrow(ss) && 1 <= lim.overlap
    ensures enc.offsets[0].0 <= enc.offsets[enc.Size() - 1].1 <= |text|
    ensures Glue(text, enc, ss) == text[enc.offsets[0].0..enc.offsets[enc.Size() - 1].1]
  {
    GlueIsText(text, enc, ss);
  }
}
