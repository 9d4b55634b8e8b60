/**
 * Numbering a filing's chunks: each section is windowed on its own, repeated
 * texts are dropped by hash, and only the kept ones are numbered.
 */
module GoldChunks {
  import opened Chunking
  import opened TokenWindows
  import Sections

  datatype GoldChunk = GoldChunk(
    section: string, itemNo: string, number: nat, text: string, textHash: string,
    charCount: nat, tokenCount: nat)

  /** The tokenizer and the hash are given, as functions of the text. */
  datatype Tools = Tools(encode: string -> Encoding, hash: string -> string)

  /** A window of a section, before repeated ones are dropped. */
  datatype Window = Window(section: Sections.Section, text: string, tokens: nat)

  /** Chunking these sections ends. */
  ghost predicate Chunkable(tools: Tools, sections: seq<Sections.Section>) {
    forall s :: s in sections ==>
      Halts(tools.encode(s.text), CHUNK_LIMITS) && |tools.encode(s.text).offsets| == tools.encode(s.text).Size()
  }

  function Label(section: Sections.Section, pieces: seq<(string, nat)>): seq<Window> {
    seq(|pieces|, i requires 0 <= i < |pieces| => Window(section, pieces[i].0, pieces[i].1))
  }

  ghost function WindowsOf(tools: Tools, sections: seq<Sections.Section>): seq<Window>
    requires Chunkable(tools, sections)
  {
    if |sections| == 0 then []
    else
      var n := |sections| - 1;
      WindowsOf(tools, sections[..n]) +
      Label(sections[n], Split(sections[n].text, tools.encode(sections[n].text), CHUNK_LIMITS))
  }

  ghost predicate Repeats(tools: Tools, ws: seq<Window>, n: nat)
    requires n < |ws|
  {
    exists j :: 0 <= j < n && tools.hash(ws[j].text) == tools.hash(ws[n].text)
  }

  function Numbered(tools: Tools, w: Window, number: nat): GoldChunk {
    GoldChunk(w.section.key, w.section.itemNo, number, w.text, tools.hash(w.text), |w.text|, w.tokens)
  }

  ghost function Kept(tools: Tools, ws: seq<Window>): seq<GoldChunk> {
    if |ws| == 0 then []
    else
      var n := |ws| - 1;
      var front := Kept(tools, ws[..n]);
      if Repeats(tools, ws, n) then front else front + [Numbered(tools, ws[n], |front|)]
  }

  ghost predicate SeenBy(tools: Tools, ws: seq<Window>, seen: set<string>) {
    forall h :: h in seen <==> exists j :: 0 <= j < |ws| && tools.hash(ws[j].text) == h
  }

  lemma RepeatsIfSeen(tools: Tools, done: seq<Window>, n: nat, seen: set<string>)
    requires |done| == n + 1 && SeenBy(tools, done[..n], seen)
    ensures Repeats(tools, done, n) <==> tools.hash(done[n].text) in seen
  {
    assert forall j :: 0 <= j < n ==> done[..n][j] == done[j];
  }

  lemma SeenAfter(tools: Tools, done: seq<Window>, n: nat, before: set<string>)
    requires |done| == n + 1 && SeenBy(tools, done[..n], before)
    ensures SeenBy(tools, done, before + {tools.hash(done[n].text)})
  {
    var front := done[..n];
    forall h ensures h in before + {tools.hash(done[n].text)} <==>
                     exists j :: 0 <= j < |done| && tools.hash(done[j].text) == h {
      if j :| 0 <= j < |done| && tools.hash(done[j].text) == h {
        if j < n { assert front[j] == done[j]; }
      }
      if j :| 0 <= j < |front| && tools.hash(front[j].text) == h { assert done[j] == front[j]; }
    }
  }

  /** One window: dropped if its hash was seen, numbered next if not. */
  method AddWindow(tools: Tools, w: Window, chunks0: seq<GoldChunk>, seen0: set<string>, ghost earlier: seq<Window>)
    returns (chunks: seq<GoldChunk>, seen: set<string>)
    requires chunks0 == Kept(tools, earlier) && SeenBy(tools, earlier, seen0)
    ensures chunks == Kept(tools, earlier + [w]) && SeenBy(tools, earlier + [w], seen)
  {
    ghost var done := earlier + [w];
    assert done[..|earlier|] == earlier;
    RepeatsIfSeen(tools, done, |earlier|, seen0);
    SeenAfter(tools, done, |earlier|, seen0);
    hide SeenBy, Repeats;
    var hash := tools.hash(w.text);
    chunks, seen := chunks0, seen0 + {hash};
    if hash in seen0 {
      assert seen == seen0;
    } else {
      chunks := chunks + [Numbered(tools, w, |chunks|)];
    }
  }

  method AddSection(tools: Tools, section: Sections.Section, pieces: seq<(string, nat)>, chunks0: seq<GoldChunk>,
                    seen0: set<string>, ghost earlier: seq<Window>)
    returns (chunks: seq<GoldChunk>, seen: set<string>)
    requires chunks0 == Kept(tools, earlier) && SeenBy(tools, earlier, seen0)
    ensures chunks == Kept(tools, earlier + Label(section, pieces))
    ensures SeenBy(tools, earlier + Label(section, pieces), seen)
  {
    hide Kept, SeenBy;
    chunks, seen := chunks0, seen0;
    ghost var all := Label(section, pieces);
    assert earlier + all[..0] == earlier;
    for i := 0 to |pieces|
      invariant chunks == Kept(tools, earlier + all[..i]) && SeenBy(tools, earlier + all[..i], seen)
    {
      assert earlier + all[..i + 1] == earlier + all[..i] + [all[i]];
      chunks, seen := AddWindow(tools, Window(section, pieces[i].0, pieces[i].1), chunks, seen, earlier + all[..i]);
    }
    assert all[..|all|] == all;
  }

  /** The nested loops: no section is left without its chunks, however short its text. */
  method ChunkSections(tools: Tools, sections: seq<Sections.Section>) returns (chunks: seq<GoldChunk>)
    requires Chunkable(tools, sections)
    ensures chunks == Kept(tools, WindowsOf(tools, sections))
    ensures forall i :: 0 <= i < |chunks| ==> chunks[i].number == i && chunks[i].textHash == tools.hash(chunks[i].text)
    ensures forall s :: s in sections && tools.encode(s.text).Size() <= 384 ==>
              HasChunk(chunks, tools.hash(s.text))
    ensures forall s :: s in sections && 384 < tools.encode(s.text).Size() ==>
              ReachesChunks(tools, s, chunks)
  {
    chunks := [];
    var seen: set<string> := {};
    for i := 0 to |sections|
      invariant chunks == Kept(tools, WindowsOf(tools, sections[..i]))
      invariant SeenBy(tools, WindowsOf(tools, sections[..i]), seen)
    {
      assert sections[..i + 1][..i] == sections[..i];
      var pieces, ss := SplitByTokens(sections[i].text, tools.encode(sections[i].text), CHUNK_LIMITS);
      chunks, seen := AddSection(tools, sections[i], pieces, chunks, seen, WindowsOf(tools, sections[..i]));
    }
    assert sections[..|sections|] == sections;
    SectionsReach(tools, sections);
  }

  // ---- what chunking a filing promises ---------------------------------------

  /** Chunk i is the window at k, the first with its hash. */
  ghost predicate FirstAt(tools: Tools, ws: seq<Window>, chunk: GoldChunk, i: nat, k: nat) {
    k < |ws| && !Repeats(tools, ws, k) && IsChunkOf(tools, ws[k], i, chunk)
  }

  /** The i-th chunk, made of this window: its section's key and item, its text, hash and counts. */
  ghost predicate IsChunkOf(tools: Tools, w: Window, i: nat, chunk: GoldChunk) {
    && chunk.section == w.section.key && chunk.itemNo == w.section.itemNo && chunk.number == i
    && chunk.text == w.text && chunk.textHash == tools.hash(w.text)
    && chunk.charCount == |w.text| && chunk.tokenCount == w.tokens
  }

  /** at[i] is where chunk i stands among the windows: first of its hash, in order. */
  ghost predicate FirstOccurrences(tools: Tools, ws: seq<Window>, chunks: seq<GoldChunk>, at: seq<nat>) {
    && |at| == |chunks|
    && (forall i :: 0 <= i < |at| ==> FirstAt(tools, ws, chunks[i], i, at[i]))
    && (forall i, j :: 0 <= i < j < |at| ==> at[i] < at[j])
    && AllListed(tools, ws, at)
  }

  ghost predicate AllListed(tools: Tools, ws: seq<Window>, at: seq<nat>) {
    forall k :: 0 <= k < |ws| && !Repeats(tools, ws, k) ==> k in at
  }

  lemma ListExtend(tools: Tools, ws: seq<Window>, n: nat, at: seq<nat>)
    requires |ws| == n + 1 && AllListed(tools, ws[..n], at)
    ensures AllListed(tools, ws, if Repeats(tools, ws, n) then at else at + [n])
  {
    var more := if Repeats(tools, ws, n) then at else at + [n];
    forall k | 0 <= k <= n && !Repeats(tools, ws, k) ensures k in more {
      if k < n {
        RepeatsInFront(tools, ws, ws[..n], k);
        assert k in at;
      }
    }
  }

  lemma RepeatsInFront(tools: Tools, ws: seq<Window>, front: seq<Window>, k: nat)
    requires k < |front| < |ws| && front == ws[..|front|]
    ensures Repeats(tools, front, k) <==> Repeats(tools, ws, k)
  {
    assert forall j :: 0 <= j <= k ==> front[j] == ws[j];
  }

  lemma FirstExtend(tools: Tools, ws: seq<Window>, n: nat, chunks: seq<GoldChunk>, at: seq<nat>)
    requires |ws| == n + 1 && FirstOccurrences(tools, ws[..n], chunks, at)
    ensures Repeats(tools, ws, n) ==> FirstOccurrences(tools, ws, chunks, at)
    ensures !Repeats(tools, ws, n) ==>
      FirstOccurrences(tools, ws, chunks + [Numbered(tools, ws[n], |chunks|)], at + [n])
  {
    ListExtend(tools, ws, n, at);
    forall i | 0 <= i < |at| ensures at[i] < n && FirstAt(tools, ws, chunks[i], i, at[i]) {
      assert FirstAt(tools, ws[..n], chunks[i], i, at[i]);
      RepeatsInFront(tools, ws, ws[..n], at[i]);
    }
    var one := Numbered(tools, ws[n], |chunks|);
    assert !Repeats(tools, ws, n) ==> FirstAt(tools, ws, one, |chunks|, n);
    hide FirstAt, Repeats, Numbered, AllListed;
  }

  lemma NothingOccurs(tools: Tools, ws: seq<Window>)
    requires |ws| == 0
    ensures FirstOccurrences(tools, ws, Kept(tools, ws), [])
  {
  }

  lemma {:induction false} KeptAreFirst(tools: Tools, ws: seq<Window>) returns (at: seq<nat>)
    ensures FirstOccurrences(tools, ws, Kept(tools, ws), at)
  {
    hide FirstOccurrences, Repeats, Numbered;
    if |ws| == 0 {
      at := [];
      NothingOccurs(tools, ws);
    } else {
      var n := |ws| - 1;
      at := KeptAreFirst(tools, ws[..n]);
      FirstExtend(tools, ws, n, Kept(tools, ws[..n]), at);
      if !Repeats(tools, ws, n) { at := at + [n]; }
    }
  }

  lemma {:induction false} HashIsFirstSeen(tools: Tools, ws: seq<Window>, k: nat) returns (first: nat)
    requires k < |ws|
    ensures first <= k && !Repeats(tools, ws, first) && tools.hash(ws[first].text) == tools.hash(ws[k].text)
  {
    first := k;
    if j :| Repeats(tools, ws, k) && 0 <= j < k && tools.hash(ws[j].text) == tools.hash(ws[k].text) {
      first := HashIsFirstSeen(tools, ws, j);
    }
  }

  /** Numbered without gaps, and no hash twice. */
  ghost predicate NumberedApart(chunks: seq<GoldChunk>) {
    && (forall i :: 0 <= i < |chunks| ==> chunks[i].number == i)
    && (forall i, j :: 0 <= i < j < |chunks| ==> chunks[i].textHash != chunks[j].textHash)
  }

  /** Every window is represented, and every chunk is one window. */
  ghost predicate Represents(tools: Tools, ws: seq<Window>, chunks: seq<GoldChunk>) {
    && (forall k :: 0 <= k < |ws| ==> HasChunk(chunks, tools.hash(ws[k].text)))
    && (forall i :: 0 <= i < |chunks| ==> IsWindow(tools, ws, chunks[i], i))
  }

  ghost predicate IsWindow(tools: Tools, ws: seq<Window>, chunk: GoldChunk, i: nat) {
    exists k :: 0 <= k < |ws| && IsChunkOf(tools, ws[k], i, chunk)
  }

  ghost predicate HasChunk(chunks: seq<GoldChunk>, hash: string) {
    exists i :: 0 <= i < |chunks| && chunks[i].textHash == hash
  }

  lemma FirstAreApart(tools: Tools, ws: seq<Window>, chunks: seq<GoldChunk>, at: seq<nat>)
    requires FirstOccurrences(tools, ws, chunks, at)
    ensures NumberedApart(chunks)
  {
    forall i, j | 0 <= i < j < |chunks| ensures chunks[i].textHash != chunks[j].textHash {
      assert FirstAt(tools, ws, chunks[i], i, at[i]) && FirstAt(tools, ws, chunks[j], j, at[j]);
    }
  }

  lemma HashHasChunk(tools: Tools, ws: seq<Window>, chunks: seq<GoldChunk>, at: seq<nat>, k: nat)
    requires FirstOccurrences(tools, ws, chunks, at) && k < |ws|
    ensures HasChunk(chunks, tools.hash(ws[k].text))
  {
    var first := HashIsFirstSeen(tools, ws, k);
    assert first in at;
    var i :| 0 <= i < |at| && at[i] == first;
    assert FirstAt(tools, ws, chunks[i], i, first);
  }

  lemma FirstRepresent(tools: Tools, ws: seq<Window>, chunks: seq<GoldChunk>, at: seq<nat>)
    requires FirstOccurrences(tools, ws, chunks, at)
    ensures Represents(tools, ws, chunks)
  {
    forall k | 0 <= k < |ws| ensures HasChunk(chunks, tools.hash(ws[k].text)) {
      HashHasChunk(tools, ws, chunks, at, k);
    }
    forall i | 0 <= i < |chunks| ensures IsWindow(tools, ws, chunks[i], i) {
      assert FirstAt(tools, ws, chunks[i], i, at[i]);
      assert IsChunkOf(tools, ws[at[i]], i, chunks[i]);
    }
  }

  /**
   * The chunks of a filing: numbered without gaps, no hash twice, every window
   * of every section represented by the chunk of its first occurrence, and each
   * chunk one of those windows.
   */
  lemma ChunksOfFiling(tools: Tools, sections: seq<Sections.Section>)
    requires Chunkable(tools, sections)
    ensures var ws := WindowsOf(tools, sections);
      NumberedApart(Kept(tools, ws)) && Represents(tools, ws, Kept(tools, ws))
  {
    hide Kept, WindowsOf, FirstOccurrences, NumberedApart, Represents, Split;
    var ws := WindowsOf(tools, sections);
    var at := KeptAreFirst(tools, ws);
    FirstAreApart(tools, ws, Kept(tools, ws), at);
    FirstRepresent(tools, ws, Kept(tools, ws), at);
  }

  /** A section over the limit: its text lies in windows, and each has the chunk of its hash. */
  ghost predicate ReachesChunks(tools: Tools, s: Sections.Section, chunks: seq<GoldChunk>) {
    exists pieces: seq<(string, nat)>, ss :: SplitAlong(s.text, tools.encode(s.text), Limits(384, 64), pieces, ss)
      && forall p :: p in pieces ==> HasChunk(chunks, tools.hash(p.0))
  }

  lemma {:induction false} PiecesReach(tools: Tools, sections: seq<Sections.Section>, s: Sections.Section,
                                       p: (string, nat))
    requires Chunkable(tools, sections) && s in sections
    requires p in Split(s.text, tools.encode(s.text), CHUNK_LIMITS)
    ensures Window(s, p.0, p.1) in WindowsOf(tools, sections)
  {
    hide Split;
    var n := |sections| - 1;
    if s == sections[n] {
      var pieces := Split(s.text, tools.encode(s.text), CHUNK_LIMITS);
      var i :| 0 <= i < |pieces| && pieces[i] == p;
      assert Label(s, pieces)[i] == Window(s, p.0, p.1);
    } else {
      assert s in sections[..n];
      PiecesReach(tools, sections[..n], s, p);
    }
  }

  lemma SectionsReach(tools: Tools, sections: seq<Sections.Section>)
    requires Chunkable(tools, sections)
    ensures var chunks := Kept(tools, WindowsOf(tools, sections));
      && (forall i :: 0 <= i < |chunks| ==> chunks[i].number == i && chunks[i].textHash == tools.hash(chunks[i].text))
      && (forall s :: s in sections && tools.encode(s.text).Size() <= CHUNK_LIMITS.maxTokens ==>
            HasChunk(chunks, tools.hash(s.text)))
      && (forall s :: s in sections && CHUNK_LIMITS.maxTokens < tools.encode(s.text).Size() ==>
            ReachesChunks(tools, s, chunks))
  {
    var ws := WindowsOf(tools, sections);
    var chunks := Kept(tools, ws);
    ChunksOfFiling(tools, sections);
    hide Kept, WindowsOf, HasChunk, SplitAlong, ReachesChunks;
    forall i | 0 <= i < |chunks| ensures chunks[i].number == i && chunks[i].textHash == tools.hash(chunks[i].text) {
      assert IsWindow(tools, ws, chunks[i], i);
    }
    forall s | s in sections
      ensures tools.encode(s.text).Size() <= CHUNK_LIMITS.maxTokens ==> HasChunk(chunks, tools.hash(s.text))
      ensures CHUNK_LIMITS.maxTokens < tools.encode(s.text).Size() ==> ReachesChunks(tools, s, chunks)
    {
      SectionReaches(tools, sections, s, ws, chunks);
    }
  }

  lemma SectionReaches(tools: Tools, sections: seq<Sections.Section>, s: Sections.Section, ws: seq<Window>,
                       chunks: seq<GoldChunk>)
    requires Chunkable(tools, sections) && s in sections && ws == WindowsOf(tools, sections)
    requires Represents(tools, ws, chunks)
    ensures tools.encode(s.text).Size() <= CHUNK_LIMITS.maxTokens ==> HasChunk(chunks, tools.hash(s.text))
    ensures CHUNK_LIMITS.maxTokens < tools.encode(s.text).Size() ==> ReachesChunks(tools, s, chunks)
  {
    hide WindowsOf, HasChunk, SplitAlong, Pieces, Spans;
    var enc := tools.encode(s.text);
    var pieces := Split(s.text, enc, CHUNK_LIMITS);
    forall p | p in pieces ensures HasChunk(chunks, tools.hash(p.0)) {
      PiecesReach(tools, sections, s, p);
      var k :| 0 <= k < |ws| && ws[k] == Window(s, p.0, p.1);
      assert HasChunk(chunks, tools.hash(ws[k].text));
    }
    if enc.Size() <= CHUNK_LIMITS.maxTokens {
      assert (s.text, enc.Size()) in pieces;
    } else {
      SplitLies(s.text, enc, CHUNK_LIMITS);
    }
  }

  // ---- in which order -----------------------------------------------------------

  /** Window k is piece places[k].1 of section places[k].0: section by section, piece by piece, all of them. */
  ghost predicate StandInOrder(tools: Tools, sections: seq<Sections.Section>, ws: seq<Window>, places: seq<(nat, nat)>)
    requires Chunkable(tools, sections)
  {
    && |places| == |ws|
    && (forall k :: 0 <= k < |ws| ==> PlacedAt(tools, sections, ws[k], places[k]))
    && (forall j, k :: 0 <= j < k < |ws| ==>
          places[j].0 < places[k].0 || (places[j].0 == places[k].0 && places[j].1 < places[k].1))
  }

  ghost predicate PlacedAt(tools: Tools, sections: seq<Sections.Section>, w: Window, place: (nat, nat))
    requires Chunkable(tools, sections)
  {
    place.0 < |sections| && var s := sections[place.0]; var pieces := Split(s.text, tools.encode(s.text), CHUNK_LIMITS);
    place.1 < |pieces| && w.section == s && w.text == pieces[place.1].0 && w.tokens == pieces[place.1].1
  }

  /** Windows come section by section and, within one, from its start to its end. */
  lemma {:induction false} WindowsInOrder(tools: Tools, sections: seq<Sections.Section>)
    returns (places: seq<(nat, nat)>)
    requires Chunkable(tools, sections)
    ensures StandInOrder(tools, sections, WindowsOf(tools, sections), places)
    ensures forall k :: 0 <= k < |places| ==> places[k].0 < |sections|
  {
    hide Split;
    places := [];
    if |sections| > 0 {
      var n := |sections| - 1;
      var front, s := WindowsOf(tools, sections[..n]), sections[n];
      var pieces := Split(s.text, tools.encode(s.text), CHUNK_LIMITS);
      var earlier := WindowsInOrder(tools, sections[..n]);
      places := earlier + seq(|pieces|, j requires 0 <= j < |pieces| => (n, j));
      var ws := WindowsOf(tools, sections);
      assert ws == front + Label(s, pieces);
      forall k | 0 <= k < |ws| ensures PlacedAt(tools, sections, ws[k], places[k]) {
        if k < |front| { assert PlacedAt(tools, sections[..n], front[k], earlier[k]); }
      }
    }
  }

  ghost predicate FromSection(tools: Tools, sections: seq<Sections.Section>, w: Window)
    requires Chunkable(tools, sections)
  {
    w.section in sections && (w.text, w.tokens) in Split(w.section.text, tools.encode(w.section.text), CHUNK_LIMITS)
  }

  /** No window mixes text of two sections. */
  lemma {:induction false} WindowsComeFromSections(tools: Tools, sections: seq<Sections.Section>, w: Window)
    requires Chunkable(tools, sections) && w in WindowsOf(tools, sections)
    ensures FromSection(tools, sections, w)
  {
    var n := |sections| - 1;
    if w in WindowsOf(tools, sections[..n]) { WindowsComeFromSections(tools, sections[..n], w); }
  }
}
