/**
 * Splitting a filing's text lines into Items: a scan that collects the marker
 * lines, then one section per marker up to the next. What a line matches is
 * given by the two patterns.
 */
module Sections {
  import opened Options

  datatype Form = TenK | TenQ | EightK | OtherForm

  /**
   * The item pattern gives the item number in lower case and the stripped text
   * after it; the part pattern gives the part's number.
   */
  datatype Reader = Reader(
    item: string -> Option<(string, string)>, part: string -> Option<nat>,
    blank: string -> bool, upper: string -> string)

  datatype Marker = Marker(line: nat, itemNo: string, part: nat, inlineHeading: Option<string>)

  datatype Section = Section(key: string, itemNo: string, heading: string, text: string)

  const MAX_INLINE_HEADING_LEN: nat := 200
  const MAX_HEADING_LINE_LEN: nat := 120

  const FORM_10_ITEMS: map<string, string> :=
    map["1" := "business", "1a" := "risk_factors", "2" := "properties", "3" := "legal_proceedings", "7" := "mdna",
        "7a" := "market_risk", "8" := "financial_statements"]

  const FORM_10Q_ITEMS: map<(nat, string), string> :=
    map[(1, "1") := "financial_statements", (1, "2") := "mdna", (1, "3") := "market_risk",
        (1, "4") := "controls_and_procedures", (2, "1") := "legal_proceedings", (2, "1a") := "risk_factors"]

  const FORM_8K_ITEMS: map<string, string> :=
    map["1.01" := "material_agreement", "2.02" := "results_of_operations", "5.02" := "officer_changes",
        "5.07" := "shareholder_votes", "7.01" := "regulation_fd", "8.01" := "other_events",
        "9.01" := "financial_statements_exhibits"]

  function Underscored(s: string): string {
    seq(|s|, i requires 0 <= i < |s| => if s[i] == '.' then '_' else s[i])
  }

  /** The section's key; an 8-K item outside the catalog gets a generic one. */
  function KeyFor(form: Form, part: nat, itemNo: string): Option<string> {
    match form
    case TenK => if itemNo in FORM_10_ITEMS then Some(FORM_10_ITEMS[itemNo]) else None
    case TenQ => if (part, itemNo) in FORM_10Q_ITEMS then Some(FORM_10Q_ITEMS[(part, itemNo)]) else None
    case EightK =>
      Some(if itemNo in FORM_8K_ITEMS then FORM_8K_ITEMS[itemNo] else "item_" + Underscored(itemNo))
    case OtherForm => None
  }

  // ---- markers ---------------------------------------------------------------------

  predicate IsPartLine(r: Reader, form: Form, line: string) {
    form.TenQ? && r.part(line).Some?
  }

  /** A PART line of a 10-Q is never a marker; nor is prose that starts like one. */
  predicate IsMarker(r: Reader, form: Form, line: string) {
    !IsPartLine(r, form, line) && r.item(line).Some? && |r.item(line).value.1| <= MAX_INLINE_HEADING_LEN
  }

  /** The part in force at line i: that of the last PART line before it. */
  function PartAt(r: Reader, form: Form, lines: seq<string>, i: nat): nat
    requires i <= |lines|
  {
    if i == 0 then 1
    else if IsPartLine(r, form, lines[i - 1]) then r.part(lines[i - 1]).value
    else PartAt(r, form, lines, i - 1)
  }

  function MarkerAt(r: Reader, form: Form, lines: seq<string>, i: nat): Marker
    requires i < |lines| && IsMarker(r, form, lines[i])
  {
    var (itemNo, trailing) := r.item(lines[i]).value;
    Marker(i, itemNo, PartAt(r, form, lines, i), if trailing == "" then None else Some(trailing))
  }

  function Markers(r: Reader, form: Form, lines: seq<string>, n: nat): (ms: seq<Marker>)
    requires n <= |lines|
    ensures forall k :: 0 <= k < |ms| ==> ms[k].line < n
  {
    if n == 0 then []
    else
      Markers(r, form, lines, n - 1) +
      if IsMarker(r, form, lines[n - 1]) then [MarkerAt(r, form, lines, n - 1)] else []
  }

  method FindMarkers(r: Reader, form: Form, lines: seq<string>) returns (markers: seq<Marker>)
    ensures markers == Markers(r, form, lines, |lines|)
  {
    markers := [];
    var currentPart := 1;
    for i := 0 to |lines|
      invariant markers == Markers(r, form, lines, i) && currentPart == PartAt(r, form, lines, i)
    {
      if form.TenQ? && r.part(lines[i]).Some? {
        currentPart := r.part(lines[i]).value;
      } else if r.item(lines[i]).Some? {
        var (itemNo, trailing) := r.item(lines[i]).value;
        if |trailing| <= MAX_INLINE_HEADING_LEN {
          markers := markers + [Marker(i, itemNo, currentPart, if trailing == "" then None else Some(trailing))];
        }
      }
    }
  }

  // ---- sections --------------------------------------------------------------------

  /** The line after the marker serves as its heading. */
  predicate TakesNextLine(lines: seq<string>, m: Marker) {
    m.inlineHeading.None? && m.line + 1 < |lines| && 0 < |lines[m.line + 1]| <= MAX_HEADING_LINE_LEN
  }

  function BodyStart(lines: seq<string>, m: Marker): nat {
    if TakesNextLine(lines, m) then m.line + 2 else m.line + 1
  }

  function BodyEnd(lines: seq<string>, ms: seq<Marker>, k: nat): nat
    requires k < |ms|
  {
    if k + 1 < |ms| then ms[k + 1].line else |lines|
  }

  function HeadingOf(lines: seq<string>, m: Marker): string {
    if m.inlineHeading.Some? then m.inlineHeading.value
    else if TakesNextLine(lines, m) then lines[m.line + 1]
    else ""
  }

  /** The lines of lo..hi that are not blank, in order. */
  function BodyLines(r: Reader, lines: seq<string>, lo: nat, hi: nat): (body: seq<nat>)
    requires hi <= |lines|
    ensures forall k :: 0 <= k < |body| ==> lo <= body[k] < hi && !r.blank(lines[body[k]])
  {
    if hi <= lo then []
    else BodyLines(r, lines, lo, hi - 1) + if r.blank(lines[hi - 1]) then [] else [hi - 1]
  }

  function Join(lines: seq<string>, at: seq<nat>): string
    requires forall k :: 0 <= k < |at| ==> at[k] < |lines|
  {
    if |at| == 0 then ""
    else if |at| == 1 then lines[at[0]]
    else Join(lines, at[..|at| - 1]) + "\n" + lines[at[|at| - 1]]
  }

  /** The body is exactly the lines of the range that are not blank, in order. */
  lemma {:induction false} BodyIsRange(r: Reader, lines: seq<string>, lo: nat, hi: nat)
    requires hi <= |lines|
    ensures forall i :: lo <= i < hi && !r.blank(lines[i]) ==> i in BodyLines(r, lines, lo, hi)
    ensures forall a, b :: 0 <= a < b < |BodyLines(r, lines, lo, hi)| ==>
      BodyLines(r, lines, lo, hi)[a] < BodyLines(r, lines, lo, hi)[b]
  {
    if lo < hi { BodyIsRange(r, lines, lo, hi - 1); }
  }

  function LastNewline(s: string): (i: nat)
    requires '\n' in s
    ensures i < |s| && s[i] == '\n' && '\n' !in s[i + 1..]
  {
    if s[|s| - 1] == '\n' then |s| - 1
    else
      assert s == s[..|s| - 1] + [s[|s| - 1]];
      LastNewline(s[..|s| - 1])
  }

  function SplitLines(s: string): seq<string> {
    if '\n' in s then SplitLines(s[..LastNewline(s)]) + [s[LastNewline(s) + 1..]] else [s]
  }

  function Selected(lines: seq<string>, at: seq<nat>): seq<string>
    requires forall k :: 0 <= k < |at| ==> at[k] < |lines|
  {
    seq(|at|, k requires 0 <= k < |at| => lines[at[k]])
  }

  lemma {:induction false} LastNewlineIs(s: string, n: nat)
    requires n < |s| && s[n] == '\n' && forall k :: n < k < |s| ==> s[k] != '\n'
    ensures LastNewline(s) == n
  {
    var i := LastNewline(s);
    forall k | i < k < |s| ensures s[k] != '\n' { assert s[i + 1..][k - i - 1] == s[k]; }
  }

  lemma {:induction false} SplitsAtLast(front: string, last: string)
    requires '\n' !in last
    ensures SplitLines(front + "\n" + last) == SplitLines(front) + [last]
  {
    var s := front + "\n" + last;
    assert forall k :: |front| < k < |s| ==> s[k] == last[k - |front| - 1];
    LastNewlineIs(s, |front|);
    assert s[..|front|] == front && s[|front| + 1..] == last;
  }

  /** Splitting a section's text at its newlines gives back its body lines. */
  lemma {:induction false} JoinSplits(lines: seq<string>, at: seq<nat>)
    requires |at| > 0 && forall k :: 0 <= k < |at| ==> at[k] < |lines| && '\n' !in lines[at[k]]
    ensures SplitLines(Join(lines, at)) == Selected(lines, at)
  {
    var n := |at| - 1;
    if n > 0 {
      JoinSplits(lines, at[..n]);
      SplitsAtLast(Join(lines, at[..n]), lines[at[n]]);
      hide SplitLines;
      assert Selected(lines, at) == Selected(lines, at[..n]) + [lines[at[n]]];
    }
  }

  function SectionOf(r: Reader, lines: seq<string>, ms: seq<Marker>, k: nat, key: string): Section
    requires k < |ms| && BodyEnd(lines, ms, k) <= |lines|
  {
    Section(key, r.upper(ms[k].itemNo), HeadingOf(lines, ms[k]),
            Join(lines, BodyLines(r, lines, BodyStart(lines, ms[k]), BodyEnd(lines, ms, k))))
  }

  ghost predicate InLines(lines: seq<string>, ms: seq<Marker>) {
    forall k :: 0 <= k < |ms| ==> ms[k].line < |lines|
  }

  /** The sections of the first n markers; those without a key give none. */
  ghost function Assembled(r: Reader, form: Form, lines: seq<string>, ms: seq<Marker>, n: nat): seq<Section>
    requires InLines(lines, ms) && n <= |ms|
  {
    if n == 0 then []
    else
      var key := KeyFor(form, ms[n - 1].part, ms[n - 1].itemNo);
      Assembled(r, form, lines, ms, n - 1) + if key.Some? then [SectionOf(r, lines, ms, n - 1, key.value)] else []
  }

  method SplitSections(r: Reader, form: Form, lines: seq<string>) returns (sections: seq<Section>)
    ensures form.OtherForm? ==> sections == []
    ensures !form.OtherForm? ==>
      sections == Assembled(r, form, lines, Markers(r, form, lines, |lines|), |Markers(r, form, lines, |lines|)|)
  {
    hide KeyFor, BodyLines, Join, Markers;
    sections := [];
    if form.OtherForm? {
      return;
    }
    var markers := FindMarkers(r, form, lines);
    for k := 0 to |markers|
      invariant sections == Assembled(r, form, lines, markers, k)
    {
      var m := markers[k];
      var key := KeyFor(form, m.part, m.itemNo);
      if key.Some? {
        var heading, bodyStart := "", m.line + 1;
        if m.inlineHeading.Some? {
          heading := m.inlineHeading.value;
        } else if bodyStart < |lines| && 0 < |lines[bodyStart]| <= MAX_HEADING_LINE_LEN {
          heading := lines[bodyStart];
          bodyStart := bodyStart + 1;
        }
        var end := if k + 1 < |markers| then markers[k + 1].line else |lines|;
        var body := Join(lines, BodyLines(r, lines, bodyStart, end));
        sections := sections + [Section(key.value, r.upper(m.itemNo), heading, body)];
      }
    }
  }

  // ---- what the scan promises --------------------------------------------------------

  /** The part in force at line i: the number on the last PART line before it, one if there is none. */
  ghost predicate InPart(r: Reader, form: Form, lines: seq<string>, i: nat, part: nat)
    requires i <= |lines|
  {
    || (part == 1 && forall l :: 0 <= l < i ==> !(form.TenQ? && r.part(lines[l]).Some?))
    || exists j :: 0 <= j < i && form.TenQ? && r.part(lines[j]) == Some(part)
                   && forall l :: j < l < i ==> r.part(lines[l]).None?
  }

  /**
   * The marker is one of the first n lines, no PART line, with the item that
   * line matches, the part in force, and what trails it, if not too long.
   */
  ghost predicate FromLine(r: Reader, form: Form, lines: seq<string>, n: nat, m: Marker)
    requires n <= |lines|
  {
    && m.line < n && !(form.TenQ? && r.part(lines[m.line]).Some?) && InPart(r, form, lines, m.line, m.part)
    && match r.item(lines[m.line])
       case None => false
       case Some(found) =>
         && m.itemNo == found.0 && |found.1| <= MAX_INLINE_HEADING_LEN
         && m.inlineHeading == if |found.1| == 0 then None else Some(found.1)
  }

  lemma MarkerFromLine(r: Reader, form: Form, lines: seq<string>, n: nat, i: nat)
    requires i < n <= |lines| && IsMarker(r, form, lines[i])
    ensures FromLine(r, form, lines, n, MarkerAt(r, form, lines, i))
  {
    PartInForce(r, form, lines, i);
  }

  lemma {:induction false} PartInForce(r: Reader, form: Form, lines: seq<string>, i: nat)
    requires i <= |lines|
    ensures InPart(r, form, lines, i, PartAt(r, form, lines, i))
  {
    if i > 0 && !IsPartLine(r, form, lines[i - 1]) { PartInForce(r, form, lines, i - 1); }
  }

  ghost predicate IsListed(ms: seq<Marker>, i: nat) {
    exists k :: 0 <= k < |ms| && ms[k].line == i
  }

  /** Markers stand in document order, one for each marker line, with its part. */
  ghost predicate ListsMarkers(r: Reader, form: Form, lines: seq<string>, ms: seq<Marker>, n: nat)
    requires n <= |lines|
  {
    && (forall k :: 0 <= k < |ms| ==> FromLine(r, form, lines, n, ms[k]))
    && (forall j, k :: 0 <= j < k < |ms| ==> ms[j].line < ms[k].line)
    && (forall i :: 0 <= i < n && BeginsItem(r, form, lines[i]) ==> IsListed(ms, i))
  }

  /** Not a PART line, and an item with at most a heading's length of text behind it. */
  ghost predicate BeginsItem(r: Reader, form: Form, line: string) {
    && (form.TenQ? ==> r.part(line) == None)
    && exists itemNo, trailing :: r.item(line) == Some((itemNo, trailing)) && |trailing| <= 200
  }

  lemma MarkerMeans(r: Reader, form: Form, line: string)
    ensures IsMarker(r, form, line) <==> BeginsItem(r, form, line)
  {
    if IsMarker(r, form, line) {
      var (itemNo, trailing) := r.item(line).value;
      assert r.item(line) == Some((itemNo, trailing));
    }
  }

  lemma ListStays(ms: seq<Marker>, more: seq<Marker>, i: nat)
    requires IsListed(ms, i)
    ensures IsListed(ms + more, i)
  {
    var k :| 0 <= k < |ms| && ms[k].line == i;
    assert (ms + more)[k].line == i;
  }

  lemma LastListed(ms: seq<Marker>, m: Marker)
    ensures IsListed(ms + [m], m.line)
  {
    assert (ms + [m])[|ms|] == m;
  }

  lemma ListWithout(r: Reader, form: Form, lines: seq<string>, ms: seq<Marker>, n: nat)
    requires n < |lines| && ListsMarkers(r, form, lines, ms, n) && !IsMarker(r, form, lines[n])
    ensures ListsMarkers(r, form, lines, ms, n + 1)
  {
    forall k | 0 <= k < |ms| ensures FromLine(r, form, lines, n + 1, ms[k]) {
      assert FromLine(r, form, lines, n, ms[k]);
    }
    MarkerMeans(r, form, lines[n]);
    hide FromLine, IsMarker, IsListed, BeginsItem;
  }

  lemma ListWith(r: Reader, form: Form, lines: seq<string>, ms: seq<Marker>, n: nat, m: Marker)
    requires n < |lines| && ListsMarkers(r, form, lines, ms, n)
    requires IsMarker(r, form, lines[n]) && m == MarkerAt(r, form, lines, n)
    ensures ListsMarkers(r, form, lines, ms + [m], n + 1)
  {
    forall k | 0 <= k < |ms| ensures FromLine(r, form, lines, n + 1, ms[k]) && ms[k].line < m.line {
      assert FromLine(r, form, lines, n, ms[k]);
    }
    MarkerFromLine(r, form, lines, n + 1, n);
    hide FromLine, IsMarker, IsListed, MarkerAt, BeginsItem;
    forall i | 0 <= i < n + 1 && BeginsItem(r, form, lines[i]) ensures IsListed(ms + [m], i) {
      if i < n { ListStays(ms, [m], i); } else { LastListed(ms, m); }
    }
  }

  lemma {:induction false} MarkersAreListed(r: Reader, form: Form, lines: seq<string>, n: nat)
    requires n <= |lines|
    ensures ListsMarkers(r, form, lines, Markers(r, form, lines, n), n)
  {
    hide ListsMarkers, IsMarker, PartAt;
    if n == 0 {
      NoneListed(r, form, lines);
    } else {
      MarkersAreListed(r, form, lines, n - 1);
      var front := Markers(r, form, lines, n - 1);
      if IsMarker(r, form, lines[n - 1]) {
        ListWith(r, form, lines, front, n - 1, MarkerAt(r, form, lines, n - 1));
      } else {
        ListWithout(r, form, lines, front, n - 1);
        assert front + [] == front;
      }
    }
  }

  lemma NoneListed(r: Reader, form: Form, lines: seq<string>)
    ensures ListsMarkers(r, form, lines, [], 0)
  {
  }

  /** A marker carries the part of the last PART line before it. */
  lemma {:induction false} PartIsLast(r: Reader, form: Form, lines: seq<string>, j: nat, i: nat)
    requires j < i <= |lines| && IsPartLine(r, form, lines[j])
    requires forall l :: j < l < i ==> !IsPartLine(r, form, lines[l])
    ensures PartAt(r, form, lines, i) == r.part(lines[j]).value
  {
    if j < i - 1 { PartIsLast(r, form, lines, j, i - 1); }
  }

  /** With no PART line before it, part one. */
  lemma {:induction false} PartStartsAtOne(r: Reader, form: Form, lines: seq<string>, i: nat)
    requires i <= |lines| && forall l :: 0 <= l < i ==> !IsPartLine(r, form, lines[l])
    ensures PartAt(r, form, lines, i) == 1
  {
    if i > 0 { PartStartsAtOne(r, form, lines, i - 1); }
  }

  // ---- the sections, spelled out -----------------------------------------------------

  /** The catalog's key for the item; an 8-K item outside it gets a generic one. */
  ghost predicate IsKeyOf(form: Form, part: nat, itemNo: string, key: string) {
    match form
    case TenK => itemNo in FORM_10_ITEMS && key == FORM_10_ITEMS[itemNo]
    case TenQ => (part, itemNo) in FORM_10Q_ITEMS && key == FORM_10Q_ITEMS[(part, itemNo)]
    case EightK =>
      if itemNo in FORM_8K_ITEMS then key == FORM_8K_ITEMS[itemNo]
      else |key| == |itemNo| + 5 && key[..5] == "item_" &&
           forall i :: 0 <= i < |itemNo| ==> key[5 + i] == if itemNo[i] == '.' then '_' else itemNo[i]
    case OtherForm => false
  }

  ghost predicate HasKey(form: Form, part: nat, itemNo: string) {
    form.EightK? || (form.TenK? && itemNo in FORM_10_ITEMS) || (form.TenQ? && (part, itemNo) in FORM_10Q_ITEMS)
  }

  /**
   * The section of marker k: the trailing text as its heading, or else the very
   * next line if it has 1 to 120 characters; the lines from there to the next
   * marker, or the end, as its body.
   */
  ghost predicate IsSectionAt(r: Reader, form: Form, lines: seq<string>, ms: seq<Marker>, k: nat, section: Section) {
    && k < |ms| && IsKeyOf(form, ms[k].part, ms[k].itemNo, section.key)
    && section.itemNo == r.upper(ms[k].itemNo)
    && var next, end := ms[k].line + 1, if k + 1 < |ms| then ms[k + 1].line else |lines|;
       end <= |lines| &&
       match ms[k].inlineHeading
       case Some(text) => section.heading == text && IsBody(r, lines, next, end, section.text)
       case None =>
         if next < |lines| && 1 <= |lines[next]| <= 120
         then section.heading == lines[next] && IsBody(r, lines, next + 1, end, section.text)
         else section.heading == "" && IsBody(r, lines, next, end, section.text)
  }

  /** The text joins the lines of lo..hi that are not blank, in order. */
  ghost predicate IsBody(r: Reader, lines: seq<string>, lo: nat, hi: nat, text: string)
    requires hi <= |lines|
  {
    exists at: seq<nat> ::
      && (forall k :: 0 <= k < |at| ==> lo <= at[k] < hi && !r.blank(lines[at[k]]))
      && (forall j, k :: 0 <= j < k < |at| ==> at[j] < at[k])
      && (forall i :: lo <= i < hi && !r.blank(lines[i]) ==> i in at)
      && text == Join(lines, at)
  }

  lemma KeyMeans(form: Form, part: nat, itemNo: string)
    ensures HasKey(form, part, itemNo) <==> KeyFor(form, part, itemNo).Some?
    ensures KeyFor(form, part, itemNo).Some? ==> IsKeyOf(form, part, itemNo, KeyFor(form, part, itemNo).value)
  {
  }

  lemma BodyMeans(r: Reader, lines: seq<string>, lo: nat, hi: nat)
    requires hi <= |lines|
    ensures IsBody(r, lines, lo, hi, Join(lines, BodyLines(r, lines, lo, hi)))
  {
    BodyIsRange(r, lines, lo, hi);
    hide Join;
  }

  lemma SectionMeans(r: Reader, form: Form, lines: seq<string>, ms: seq<Marker>, k: nat, key: string)
    requires k < |ms| && BodyEnd(lines, ms, k) <= |lines|
    requires KeyFor(form, ms[k].part, ms[k].itemNo) == Some(key)
    ensures IsSectionAt(r, form, lines, ms, k, SectionOf(r, lines, ms, k, key))
  {
    hide KeyFor, IsKeyOf, Join, BodyLines, IsBody;
    KeyMeans(form, ms[k].part, ms[k].itemNo);
    BodyMeans(r, lines, BodyStart(lines, ms[k]), BodyEnd(lines, ms, k));
  }

  /** Section j is that of marker at[j]: of each of the first n with a key, in document order. */
  ghost predicate AreSections(r: Reader, form: Form, lines: seq<string>, ms: seq<Marker>, n: nat,
                              sections: seq<Section>, at: seq<nat>) {
    && |at| == |sections|
    && (forall j :: 0 <= j < |at| ==> at[j] < n && IsSectionAt(r, form, lines, ms, at[j], sections[j]))
    && (forall i, j :: 0 <= i < j < |at| ==> at[i] < at[j])
    && (forall k :: 0 <= k < n <= |ms| && HasKey(form, ms[k].part, ms[k].itemNo) ==> k in at)
  }

  lemma {:induction false} SectionsSkip(r: Reader, form: Form, lines: seq<string>, ms: seq<Marker>, n: nat,
                                        sections: seq<Section>, at: seq<nat>)
    requires n < |ms| && AreSections(r, form, lines, ms, n, sections, at)
    requires !HasKey(form, ms[n].part, ms[n].itemNo)
    ensures AreSections(r, form, lines, ms, n + 1, sections, at)
  {
    hide IsSectionAt, HasKey;
  }

  lemma {:induction false} SectionsTake(r: Reader, form: Form, lines: seq<string>, ms: seq<Marker>, n: nat,
                                        sections: seq<Section>, at: seq<nat>, section: Section)
    requires n < |ms| && AreSections(r, form, lines, ms, n, sections, at)
    requires IsSectionAt(r, form, lines, ms, n, section)
    ensures AreSections(r, form, lines, ms, n + 1, sections + [section], at + [n])
  {
    hide IsSectionAt, HasKey;
    forall k | 0 <= k < n && HasKey(form, ms[k].part, ms[k].itemNo) ensures k in at && k in at + [n] { }
  }

  lemma NoSections(r: Reader, form: Form, lines: seq<string>, ms: seq<Marker>)
    requires InLines(lines, ms)
    ensures AreSections(r, form, lines, ms, 0, Assembled(r, form, lines, ms, 0), [])
  {
    hide IsSectionAt, HasKey;
  }

  /** One more marker. */
  lemma {:induction false} MarkerAssembled(r: Reader, form: Form, lines: seq<string>, ms: seq<Marker>, n: nat)
    requires InLines(lines, ms) && n < |ms|
    ensures var key := KeyFor(form, ms[n].part, ms[n].itemNo);
      && BodyEnd(lines, ms, n) <= |lines|
      && Assembled(r, form, lines, ms, n + 1) == Assembled(r, form, lines, ms, n) +
           if key.Some? then [SectionOf(r, lines, ms, n, key.value)] else []
  {
    hide KeyFor, SectionOf;
  }

  /** For every form: a section for each marker with a key, and for no other. */
  lemma {:induction false} SectionsAre(r: Reader, form: Form, lines: seq<string>, ms: seq<Marker>, n: nat)
    returns (at: seq<nat>)
    requires InLines(lines, ms) && n <= |ms|
    ensures AreSections(r, form, lines, ms, n, Assembled(r, form, lines, ms, n), at)
  {
    hide *;
    if n == 0 {
      at := [];
      NoSections(r, form, lines, ms);
    } else {
      at := SectionsAre(r, form, lines, ms, n - 1);
      var key, front := KeyFor(form, ms[n - 1].part, ms[n - 1].itemNo), Assembled(r, form, lines, ms, n - 1);
      KeyMeans(form, ms[n - 1].part, ms[n - 1].itemNo);
      MarkerAssembled(r, form, lines, ms, n - 1);
      if key.Some? {
        SectionMeans(r, form, lines, ms, n - 1, key.value);
        SectionsTake(r, form, lines, ms, n - 1, front, at, SectionOf(r, lines, ms, n - 1, key.value));
        at := at + [n - 1];
      } else {
        SectionsSkip(r, form, lines, ms, n - 1, front, at);
        assert front + [] == front;
      }
    }
  }

  // ---- an 8-K --------------------------------------------------------------------------

  /** Line i is part of section k: its heading line, or a line of its body. */
  predicate Contains(r: Reader, lines: seq<string>, ms: seq<Marker>, k: nat, i: nat)
    requires k < |ms| && i < |lines|
  {
    || (TakesNextLine(lines, ms[k]) && i == ms[k].line + 1)
    || (BodyStart(lines, ms[k]) <= i < BodyEnd(lines, ms, k) && !r.blank(lines[i]))
  }

  lemma KeyOfEightK(part: nat, itemNo: string)
    ensures KeyFor(EightK, part, itemNo).Some?
  {
  }

  ghost predicate IsSectionOf(r: Reader, lines: seq<string>, ms: seq<Marker>, k: nat, section: Section)
    requires InLines(lines, ms) && k < |ms|
  {
    exists key :: Some(key) == KeyFor(EightK, ms[k].part, ms[k].itemNo) && section == SectionOf(r, lines, ms, k, key)
  }

  lemma NextSection(r: Reader, lines: seq<string>, ms: seq<Marker>, n: nat) returns (section: Section)
    requires InLines(lines, ms) && n < |ms|
    ensures Assembled(r, EightK, lines, ms, n + 1) == Assembled(r, EightK, lines, ms, n) + [section]
    ensures IsSectionOf(r, lines, ms, n, section)
  {
    KeyOfEightK(ms[n].part, ms[n].itemNo);
    hide KeyFor, SectionOf;
    section := SectionOf(r, lines, ms, n, KeyFor(EightK, ms[n].part, ms[n].itemNo).value);
  }

  /** Every marker of an 8-K has its section, in document order. */
  lemma {:induction false} EveryItemHasSection(r: Reader, lines: seq<string>, ms: seq<Marker>, n: nat)
    requires InLines(lines, ms) && n <= |ms|
    ensures |Assembled(r, EightK, lines, ms, n)| == n
    ensures forall k :: 0 <= k < n ==> IsSectionOf(r, lines, ms, k, Assembled(r, EightK, lines, ms, n)[k])
  {
    hide IsSectionOf, KeyFor, SectionOf;
    if n > 0 {
      EveryItemHasSection(r, lines, ms, n - 1);
      var section := NextSection(r, lines, ms, n - 1);
    }
  }

  lemma {:induction false} MarkerBefore(lines: seq<string>, ms: seq<Marker>, n: nat, i: nat) returns (k: nat)
    requires 0 < n <= |ms| && ms[0].line <= i && (n < |ms| ==> i < ms[n].line)
    ensures k < n && ms[k].line <= i && (k + 1 < |ms| ==> i < ms[k + 1].line)
  {
    if ms[n - 1].line <= i {
      k := n - 1;
    } else {
      k := MarkerBefore(lines, ms, n - 1, i);
    }
  }

  /**
   * After the first marker, every line that is neither blank nor a marker
   * belongs to exactly one marker, as its heading or in its body range.
   */
  lemma EachLineHasOneMarker(r: Reader, form: Form, lines: seq<string>, i: nat)
    requires var ms := Markers(r, form, lines, |lines|);
      |ms| > 0 && ms[0].line < i < |lines| && !r.blank(lines[i]) && !IsMarker(r, form, lines[i])
    ensures var ms := Markers(r, form, lines, |lines|);
      exists k :: 0 <= k < |ms| && Contains(r, lines, ms, k, i)
        && forall j :: 0 <= j < |ms| && Contains(r, lines, ms, j, i) ==> j == k
  {
    var ms := Markers(r, form, lines, |lines|);
    MarkersAreListed(r, form, lines, |lines|);
    hide Markers;
    var k := MarkerBefore(lines, ms, |ms|, i);
    assert Contains(r, lines, ms, k, i);
    forall j | 0 <= j < |ms| && Contains(r, lines, ms, j, i) ensures j == k {
      OnlyMarker(r, form, lines, ms, k, j, i);
    }
  }

  /** The marker after j is on a later line than j, no later than k, and not line i. */
  lemma NextBefore(r: Reader, form: Form, lines: seq<string>, ms: seq<Marker>, j: nat, k: nat, i: nat)
    requires ListsMarkers(r, form, lines, ms, |lines|) && i < |lines| && !IsMarker(r, form, lines[i])
    ensures j < k < |ms| ==> ms[j].line < ms[j + 1].line <= ms[k].line && ms[j + 1].line != i
    ensures j < |ms| ==> ms[j].line < |lines|
  {
    if j < |ms| { assert FromLine(r, form, lines, |lines|, ms[j]); }
    if j + 1 < |ms| { assert FromLine(r, form, lines, |lines|, ms[j + 1]); }
  }

  lemma OnlyMarker(r: Reader, form: Form, lines: seq<string>, ms: seq<Marker>, k: nat, j: nat, i: nat)
    requires ListsMarkers(r, form, lines, ms, |lines|) && i < |lines| && !IsMarker(r, form, lines[i])
    requires k < |ms| && ms[k].line <= i && (k + 1 < |ms| ==> i < ms[k + 1].line)
    requires j < |ms| && Contains(r, lines, ms, j, i)
    ensures j == k
  {
    NextBefore(r, form, lines, ms, j, k, i);
    NextBefore(r, form, lines, ms, k, j, i);
    hide ListsMarkers, IsMarker;
  }

  /**
   * In an 8-K, every such line is in exactly one section, as its heading or in
   * its body: there each marker has its section, which other forms may skip.
   */
  lemma {:induction false} EachLineInOneSection(r: Reader, lines: seq<string>, i: nat)
    requires var ms := Markers(r, EightK, lines, |lines|);
      |ms| > 0 && ms[0].line < i < |lines| && !r.blank(lines[i]) && !IsMarker(r, EightK, lines[i])
    ensures var ms := Markers(r, EightK, lines, |lines|);
      var sections := Assembled(r, EightK, lines, ms, |ms|);
      exists k :: 0 <= k < |sections| == |ms|
        && IsSectionOf(r, lines, ms, k, sections[k]) && Contains(r, lines, ms, k, i)
        && forall j :: 0 <= j < |sections| && Contains(r, lines, ms, j, i) ==> j == k
  {
    var ms := Markers(r, EightK, lines, |lines|);
    EachLineHasOneMarker(r, EightK, lines, i);
    EveryItemHasSection(r, lines, ms, |ms|);
    hide Markers, IsMarker, Assembled, IsSectionOf, Contains;
    var k :| 0 <= k < |ms| && Contains(r, lines, ms, k, i)
      && forall j :: 0 <= j < |ms| && Contains(r, lines, ms, j, i) ==> j == k;
    assert IsSectionOf(r, lines, ms, k, Assembled(r, EightK, lines, ms, |ms|)[k]);
  }

  /** Bodies of different sections are disjoint ranges of lines, in order. */
  lemma BodiesDisjoint(r: Reader, form: Form, lines: seq<string>, j: nat, k: nat)
    requires j < k < |Markers(r, form, lines, |lines|)|
    ensures var ms := Markers(r, form, lines, |lines|);
      BodyEnd(lines, ms, j) <= ms[k].line < BodyStart(lines, ms[k])
  {
    MarkersAreListed(r, form, lines, |lines|);
    hide Markers;
  }
}
