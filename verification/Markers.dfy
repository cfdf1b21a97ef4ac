/**
 Generated sections in a file, each between a start and an end tag, among text that belongs to the user. The
 program finds them by offsets and changes them by a list of edits; `Next` and `Outside` say the same on pieces
 of text.
 */
module Markers {
  import opened Basics
  import opened Sorting

  datatype Tags = Tags(start: string, end: string)

  datatype Span = Span(start: nat, end: nat)

  /** The half-open range `start..end` of the file gives way to `with`. */
  datatype Edit = Edit(start: nat, end: nat, with_: string)

  function TagsOf(marker: string): Tags {
    Tags("<!-- " + marker + ":start -->", "<!-- " + marker + ":end -->")
  }

  const ProjectMemory := "wsync:project-memory"
  const AgentContext := "wsync:agent-context"
  const AgentsInclude := "wsync:agents-include"

  /** A tag opens with the only `<` it has and closes with `>`. */
  ghost predicate Tag(s: string) {
    |s| >= 2 && s[0] == '<' && '<' !in s[1..] && s[|s| - 1] == '>'
  }

  ghost predicate Proper(t: Tags) {
    && Tag(t.start) && Tag(t.end)
    && !(t.start <= t.end) && !(t.end <= t.start)
  }

  /** A marker without `<` gives proper tags. */
  lemma PlainMarkersAreProper(marker: string)
    requires '<' !in marker
    ensures Proper(TagsOf(marker))
  {
    hide Tag;
    MarkedIsTag(marker, ":start -->");
    MarkedIsTag(marker, ":end -->");
    MarkedDiffer("<!-- " + marker, ":start -->", ":end -->", 1);
  }

  /** The engine's own three markers are such. */
  lemma OwnMarkersArePlain()
    ensures '<' !in ProjectMemory && '<' !in AgentContext && '<' !in AgentsInclude
  {
  }

  lemma MarkedDiffer(head: string, a: string, b: string, n: nat)
    requires n < |a| && n < |b| && a[n] != b[n]
    ensures !(head + a <= head + b) && !(head + b <= head + a)
  {
    NotPrefixes(head + a, head + b, |head| + n);
  }

  lemma NotPrefixes(a: string, b: string, n: nat)
    requires n < |a| && n < |b| && a[n] != b[n]
    ensures !(a <= b) && !(b <= a)
  {
  }

  lemma MarkedIsTag(marker: string, rest: string)
    requires '<' !in marker && '<' !in rest && rest != "" && rest[|rest| - 1] == '>'
    ensures Tag("<!-- " + marker + rest)
  {
    var s := "<!-- " + marker + rest;
    assert s[1..] == "!-- " + marker + rest;
  }

  // ---------------------------------------------------------------------------
  // Occurrences
  // ---------------------------------------------------------------------------

  predicate OccursAt(text: string, tag: string, i: nat) {
    i + |tag| <= |text| && text[i..i + |tag|] == tag
  }

  ghost predicate Free(text: string, tag: string) {
    forall i: nat :: !OccursAt(text, tag, i)
  }

  /** The first occurrence at or after `from`. */
  function Find(text: string, tag: string, from: nat): (r: Option<nat>)
    requires from <= |text|
    ensures r.Some? ==> from <= r.value && r.value + |tag| <= |text|
    decreases |text| - from
  {
    if OccursAt(text, tag, from) then Some(from)
    else if from == |text| then None
    else Find(text, tag, from + 1)
  }

  lemma {:induction false} FindIsFirst(text: string, tag: string, from: nat)
    requires from <= |text| && tag != ""
    ensures var r := Find(text, tag, from);
            && (r.Some? ==> OccursAt(text, tag, r.value) && forall k: nat | from <= k < r.value :: !OccursAt(text, tag, k))
            && (r.None? ==> forall k: nat | from <= k :: !OccursAt(text, tag, k))
    decreases |text| - from
  {
    if !OccursAt(text, tag, from) && from < |text| { FindIsFirst(text, tag, from + 1); }
  }

  lemma FoundFirst(text: string, tag: string, i: nat)
    requires OccursAt(text, tag, i) && tag != "" && forall k: nat | k < i :: !OccursAt(text, tag, k)
    ensures Find(text, tag, 0) == Some(i)
  {
    FindIsFirst(text, tag, 0);
  }

  lemma OccurrenceSpells(text: string, tag: string, i: nat)
    requires OccursAt(text, tag, i)
    ensures forall k | 0 <= k < |tag| :: text[i + k] == tag[k]
    ensures text == text[..i] + (tag + text[i + |tag|..])
  {
    assert text == text[..i] + (text[i..i + |tag|] + text[i + |tag|..]);
    forall k | 0 <= k < |tag|
      ensures text[i + k] == tag[k]
    {
      assert text[i..i + |tag|][k] == tag[k];
    }
  }

  /** Tags never overlap. */
  lemma TagsAreApart(text: string, a: string, b: string, i: nat, j: nat)
    requires Tag(a) && Tag(b) && OccursAt(text, a, i) && OccursAt(text, b, j) && i < j
    ensures i + |a| <= j
  {
    OccurrenceSpells(text, a, i);
    OccurrenceSpells(text, b, j);
    assert forall k | 1 <= k < |a| :: a[k] == a[1..][k - 1];
    assert text[j + 0] == '<';
  }

  lemma OccursRight(x: string, y: string, tag: string, i: nat)
    requires i >= |x|
    ensures OccursAt(x + y, tag, i) <==> OccursAt(y, tag, i - |x|)
  {
    if i + |tag| <= |x + y| {
      assert (x + y)[i..i + |tag|] == y[i - |x|..i - |x| + |tag|];
    }
  }

  lemma OccursInside(x: string, y: string, tag: string, i: nat)
    requires i + |tag| <= |x|
    ensures OccursAt(x + y, tag, i) <==> OccursAt(x, tag, i)
  {
    assert (x + y)[i..i + |tag|] == x[i..i + |tag|];
  }

  /** No tag reaches across a place where another tag begins. */
  lemma OccursLeft(x: string, y: string, tag: string, i: nat)
    requires Tag(tag) && i < |x| && (y == "" || y[0] == '<')
    ensures OccursAt(x + y, tag, i) <==> OccursAt(x, tag, i)
  {
    if OccursAt(x + y, tag, i) {
      OccurrenceSpells(x + y, tag, i);
      assert forall k | 1 <= k < |tag| :: tag[k] == tag[1..][k - 1];
      assert |y| > 0 ==> (x + y)[i + (|x| - i)] == '<';
    }
    if i + |tag| <= |x| { OccursInside(x, y, tag, i); }
  }

  lemma FindFirst(x: string, tag: string, y: string)
    requires Tag(tag) && Free(x, tag)
    ensures Find(x + (tag + y), tag, 0) == Some(|x|)
  {
    OccursRight(x, tag + y, tag, |x|);
    assert OccursAt(tag + y, tag, 0);
    forall i: nat | i < |x|
      ensures !OccursAt(x + (tag + y), tag, i)
    {
      OccursLeft(x, tag + y, tag, i);
    }
    FoundFirst(x + (tag + y), tag, |x|);
  }

  lemma FindShift(text: string, tag: string, from: nat)
    requires from <= |text| && tag != ""
    ensures var r, q := Find(text, tag, from), Find(text[from..], tag, 0);
            (r.Some? <==> q.Some?) && (r.Some? ==> r.value == from + q.value)
  {
    hide Find, OccursAt;
    var r, q := Find(text, tag, from), Find(text[from..], tag, 0);
    FindIsFirst(text, tag, from);
    FindIsFirst(text[from..], tag, 0);
    assert text == text[..from] + text[from..];
    forall i: nat | i >= from
      ensures OccursAt(text, tag, i) <==> OccursAt(text[from..], tag, i - from)
    {
      OccursRight(text[..from], text[from..], tag, i);
    }
    if r.Some? { assert OccursAt(text[from..], tag, r.value - from); }
    if q.Some? { assert OccursAt(text, tag, from + q.value); }
  }

  /** Newlines around a text make no tag. */
  lemma FreeLines(x: string, n: string, tag: string)
    requires Tag(tag) && forall i | 0 <= i < |n| :: n[i] == '\n'
    ensures Free(x + n, tag) <==> Free(x, tag)
    ensures Free(n + x, tag) <==> Free(x, tag)
  {
    forall i: nat
      ensures OccursAt(x + n, tag, i) <==> OccursAt(x, tag, i)
    {
      if OccursAt(x + n, tag, i) {
        OccurrenceSpells(x + n, tag, i);
        assert (x + n)[i + (|tag| - 1)] == '>';
      }
      if i + |tag| <= |x| { OccursInside(x, n, tag, i); }
    }
    forall i: nat
      ensures OccursAt(n + x, tag, i) ==> i >= |n|
    {
      if OccursAt(n + x, tag, i) {
        OccurrenceSpells(n + x, tag, i);
        assert (n + x)[i + 0] == '<';
      }
    }
    forall i: nat | i >= |n|
      ensures OccursAt(n + x, tag, i) <==> OccursAt(x, tag, i - |n|)
    {
      OccursRight(n, x, tag, i);
    }
    forall i: nat
      ensures OccursAt(x, tag, i) <==> OccursAt(n + x, tag, i + |n|)
    {
      OccursRight(n, x, tag, i + |n|);
    }
  }

  // ---------------------------------------------------------------------------
  // Offsets: scan and edits
  // ---------------------------------------------------------------------------

  function Blocks(t: Tags, text: string, from: nat): seq<Span>
    requires from <= |text| && t.start != ""
    decreases |text| - from
  {
    match Find(text, t.start, from)
    case None => []
    case Some(s) =>
      match Find(text, t.end, s + |t.start|)
      case Some(e) => [Span(s, e + |t.end|)] + Blocks(t, text, e + |t.end|)
      case None => Blocks(t, text, s + |t.start|)
  }

  function Orphans(t: Tags, text: string, from: nat): seq<Span>
    requires from <= |text| && t.start != ""
    decreases |text| - from
  {
    match Find(text, t.start, from)
    case None => []
    case Some(s) =>
      match Find(text, t.end, s + |t.start|)
      case Some(e) => Orphans(t, text, e + |t.end|)
      case None => [Span(s, s + |t.start|)] + Orphans(t, text, s + |t.start|)
  }

  lemma ScanStep(t: Tags, text: string, from: nat)
    requires from <= |text| && t.start != ""
    ensures match Find(text, t.start, from)
            case None => Blocks(t, text, from) == [] && Orphans(t, text, from) == []
            case Some(s) =>
              match Find(text, t.end, s + |t.start|)
              case Some(e) =>
                && Blocks(t, text, from) == [Span(s, e + |t.end|)] + Blocks(t, text, e + |t.end|)
                && Orphans(t, text, from) == Orphans(t, text, e + |t.end|)
              case None =>
                && Blocks(t, text, from) == Blocks(t, text, s + |t.start|)
                && Orphans(t, text, from) == [Span(s, s + |t.start|)] + Orphans(t, text, s + |t.start|)
  {
    hide Find;
  }

  method Scan(t: Tags, text: string) returns (blocks: seq<Span>, orphans: seq<Span>)
    requires t.start != ""
    ensures blocks == Blocks(t, text, 0) && orphans == Orphans(t, text, 0)
  {
    hide Find, Blocks, Orphans;
    blocks, orphans := [], [];
    var cursor := 0;
    var found := Find(text, t.start, cursor);
    while found.Some?
      invariant cursor <= |text| && found == Find(text, t.start, cursor)
      invariant blocks + Blocks(t, text, cursor) == Blocks(t, text, 0)
      invariant orphans + Orphans(t, text, cursor) == Orphans(t, text, 0)
      decreases |text| - cursor
    {
      ScanStep(t, text, cursor);
      var afterStart := found.value + |t.start|;
      match Find(text, t.end, afterStart) {
        case Some(e) =>
          blocks := blocks + [Span(found.value, e + |t.end|)];
          cursor := e + |t.end|;
        case None =>
          orphans := orphans + [Span(found.value, afterStart)];
          cursor := afterStart;
      }
      found := Find(text, t.start, cursor);
    }
    ScanStep(t, text, cursor);
  }

  /** Where a cut ends: one character later if a newline is to go with it and stands there. */
  function CutEnd(text: string, end: nat, newline: bool): nat {
    if newline && end < |text| && text[end] == '\n' then end + 1 else end
  }

  function Cuts(text: string, spans: seq<Span>, newline: bool): (r: seq<Edit>)
    ensures |r| == |spans|
  {
    if spans == [] then []
    else [Edit(spans[0].start, CutEnd(text, spans[0].end, newline), "")] + Cuts(text, spans[1..], newline)
  }

  /** Non-empty ranges of the text, in order, none reaching into the next. */
  ghost predicate Ascending(text: string, edits: seq<Edit>, from: nat) {
    if edits == [] then from <= |text|
    else from <= edits[0].start < edits[0].end && Ascending(text, edits[1..], edits[0].end)
  }

  lemma {:induction false} AscendingFits(text: string, edits: seq<Edit>, from: nat)
    requires Ascending(text, edits, from)
    ensures from <= |text| && forall k | 0 <= k < |edits| :: from <= edits[k].start < edits[k].end <= |text|
  {
    if edits != [] { AscendingFits(text, edits[1..], edits[0].end); }
  }

  /** The text from `from` on with all edits made at once. */
  function Replaced(text: string, edits: seq<Edit>, from: nat): string
    requires Ascending(text, edits, from)
  {
    AscendingFits(text, edits, from);
    if edits == [] then text[from..]
    else text[from..edits[0].start] + (edits[0].with_ + Replaced(text, edits[1..], edits[0].end))
  }

  // ---------------------------------------------------------------------------
  // Pieces: the same on text
  // ---------------------------------------------------------------------------

  /** A text around its first start tag: `inner` is the block's content, or None for an unterminated tag. */
  datatype Piece = Piece(before: string, inner: Option<string>, after: string)

  /** The text before and after the first occurrence of a tag. */
  function Split(text: string, tag: string): (r: Option<(string, string)>)
    ensures r.Some? ==> |r.value.0| + |tag| + |r.value.1| == |text|
  {
    match Find(text, tag, 0)
    case None => None
    case Some(i) => Some((text[..i], text[i + |tag|..]))
  }

  function Next(t: Tags, text: string): (r: Option<Piece>)
    requires t.start != ""
    ensures r.Some? ==> |r.value.after| < |text|
  {
    match Split(text, t.start)
    case None => None
    case Some((before, rest)) =>
      match Split(rest, t.end)
      case Some((inner, after)) => Some(Piece(before, Some(inner), after))
      case None => Some(Piece(before, None, rest))
  }

  function DropNewline(text: string, newline: bool): string {
    if newline && text != "" && text[0] == '\n' then text[1..] else text
  }

  /** The text with every owned span taken out, each with one trailing newline when asked. */
  function Outside(t: Tags, text: string, newline: bool): string
    requires t.start != ""
    decreases |text|
  {
    match Next(t, text)
    case None => text
    case Some(p) => p.before + Outside(t, DropNewline(p.after, newline), newline)
  }

  lemma SplitSpells(text: string, tag: string)
    requires tag != ""
    ensures Split(text, tag).None? <==> Free(text, tag)
    ensures Split(text, tag).Some? ==>
              var (before, after) := Split(text, tag).value; text == before + (tag + after) && Free(before, tag)
  {
    hide Find, OccursAt;
    FindIsFirst(text, tag, 0);
    var s := Find(text, tag, 0);
    if s.Some? {
      OccurrenceSpells(text, tag, s.value);
      FreeBefore(text, tag, s.value);
    }
  }

  lemma SplitFirst(x: string, tag: string, y: string)
    requires Tag(tag) && Free(x, tag)
    ensures Split(x + (tag + y), tag) == Some((x, y))
  {
    hide OccursAt;
    FindFirst(x, tag, y);
    var text := x + (tag + y);
    assert text[..|x|] == x && text[|x| + |tag|..] == y;
  }

  /** The piece around the first start tag spells the text. */
  lemma NextSpells(t: Tags, text: string)
    requires t.start != "" && t.end != ""
    ensures Next(t, text).None? <==> Free(text, t.start)
    ensures Next(t, text).Some? ==> Spells(t, text, Next(t, text).value)
  {
    hide Split;
    SplitSpells(text, t.start);
    match Split(text, t.start)
    case None =>
    case Some((_, rest)) => SplitSpells(rest, t.end);
  }

  ghost predicate Spells(t: Tags, text: string, p: Piece) {
    && Free(p.before, t.start)
    && match p.inner
       case Some(inner) => text == p.before + (t.start + (inner + (t.end + p.after))) && Free(inner, t.end)
       case None => text == p.before + (t.start + p.after) && Free(p.after, t.end)
  }

  lemma FreeBefore(text: string, tag: string, n: nat)
    requires n <= |text| && forall k: nat | k < n :: !OccursAt(text, tag, k)
    requires tag != ""
    ensures Free(text[..n], tag)
  {
    forall i: nat
      ensures !OccursAt(text[..n], tag, i)
    {
      if OccursAt(text[..n], tag, i) {
        assert text[..n][i..i + |tag|] == text[i..i + |tag|];
        assert OccursAt(text, tag, i);
      }
    }
  }

  /** Text free of start tags, a tag, content free of end tags, a tag: that is the next block. */
  lemma NextIsBlock(t: Tags, before: string, inner: string, after: string)
    requires Proper(t) && Free(before, t.start) && Free(inner, t.end)
    ensures Next(t, before + (t.start + (inner + (t.end + after)))) == Some(Piece(before, Some(inner), after))
  {
    var rest := inner + (t.end + after);
    var text := before + (t.start + rest);
    hide Split;
    SplitFirst(before, t.start, rest);
    SplitFirst(inner, t.end, after);
  }

  // ---------------------------------------------------------------------------
  // The edit list says what the pieces say
  // ---------------------------------------------------------------------------

  lemma NewlineIsNoTag(text: string, tag: string, i: nat)
    requires Tag(tag) && i < |text| && text[i] == '\n'
    ensures !OccursAt(text, tag, i)
  {
    if OccursAt(text, tag, i) { OccurrenceSpells(text, tag, i); }
  }

  lemma FindSkips(text: string, tag: string, i: nat)
    requires Tag(tag) && i < |text| && text[i] == '\n'
    ensures Find(text, tag, i) == Find(text, tag, i + 1)
  {
    hide OccursAt;
    NewlineIsNoTag(text, tag, i);
  }

  /** Where no start tag can begin, scanning may start one later. */
  lemma SkipNewline(t: Tags, text: string, from: nat)
    requires Proper(t) && from < |text| && text[from] == '\n'
    ensures Blocks(t, text, from) == Blocks(t, text, from + 1)
    ensures Orphans(t, text, from) == Orphans(t, text, from + 1)
  {
    hide Find;
    FindSkips(text, t.start, from);
  }

  /** An unterminated tag is followed by no block: orphans come last. */
  lemma {:induction false} OrphansFollowBlocks(t: Tags, text: string, from: nat)
    requires Proper(t) && from <= |text| && forall k: nat | from <= k :: !OccursAt(text, t.end, k)
    ensures Blocks(t, text, from) == []
    decreases |text| - from
  {
    hide Find, OccursAt;
    var s := Find(text, t.start, from);
    if s.Some? {
      FindIsFirst(text, t.end, s.value + |t.start|);
      OrphansFollowBlocks(t, text, s.value + |t.start|); }
  }

  /** The edits that cut every owned span from `from` on. */
  function Removal(t: Tags, text: string, from: nat, newline: bool): seq<Edit>
    requires t.start != "" && from <= |text|
  {
    Cuts(text, Blocks(t, text, from), newline) + Cuts(text, Orphans(t, text, from), newline)
  }

  /** Where the span that starts at `s` ends. */
  function SpanEnd(t: Tags, text: string, s: nat): (end: nat)
    requires s + |t.start| <= |text|
    ensures s + |t.start| <= end <= |text|
  {
    match Find(text, t.end, s + |t.start|)
    case Some(e) => e + |t.end|
    case None => s + |t.start|
  }

  lemma RemovalStep(t: Tags, text: string, from: nat, newline: bool)
    requires Proper(t) && from <= |text|
    ensures match Find(text, t.start, from)
            case None => Removal(t, text, from, newline) == []
            case Some(s) =>
              var next := CutEnd(text, SpanEnd(t, text, s), newline);
              Removal(t, text, from, newline) == [Edit(s, next, "")] + Removal(t, text, next, newline)
  {
    hide Find, Removal;
    match Find(text, t.start, from)
    case None => assert Removal(t, text, from, newline) == [] by { NothingToRemove(t, text, from, newline); }
    case Some(s) =>
      var end := SpanEnd(t, text, s);
      if Find(text, t.end, s + |t.start|).Some? {
        BlockStep(t, text, from, newline);
      } else {
        OrphanStep(t, text, from, newline);
      }
      RemovalSkips(t, text, end, newline);
  }

  lemma NothingToRemove(t: Tags, text: string, from: nat, newline: bool)
    requires Proper(t) && from <= |text| && Find(text, t.start, from).None?
    ensures Removal(t, text, from, newline) == []
  {
  }

  lemma RemovalSkips(t: Tags, text: string, end: nat, newline: bool)
    requires Proper(t) && end <= |text|
    ensures Removal(t, text, end, newline) == Removal(t, text, CutEnd(text, end, newline), newline)
  {
    hide Find, Cuts, Blocks, Orphans;
    if end < |text| && text[end] == '\n' { SkipNewline(t, text, end); }
  }

  lemma BlockStep(t: Tags, text: string, from: nat, newline: bool)
    requires Proper(t) && from <= |text| && Find(text, t.start, from).Some?
    requires var s := Find(text, t.start, from).value; Find(text, t.end, s + |t.start|).Some?
    ensures var s := Find(text, t.start, from).value;
            var end := SpanEnd(t, text, s);
            Removal(t, text, from, newline) == [Edit(s, CutEnd(text, end, newline), "")] + Removal(t, text, end, newline)
  {
    hide Find, Cuts;
    var s := Find(text, t.start, from).value;
    var end := SpanEnd(t, text, s);
    CutsFirst(text, Span(s, end), Blocks(t, text, end), newline);
  }

  lemma OrphanStep(t: Tags, text: string, from: nat, newline: bool)
    requires Proper(t) && from <= |text| && Find(text, t.start, from).Some?
    requires var s := Find(text, t.start, from).value; Find(text, t.end, s + |t.start|).None?
    ensures var s := Find(text, t.start, from).value;
            var end := SpanEnd(t, text, s);
            Removal(t, text, from, newline) == [Edit(s, CutEnd(text, end, newline), "")] + Removal(t, text, end, newline)
  {
    hide Find;
    var s := Find(text, t.start, from).value;
    var end := SpanEnd(t, text, s);
    FindIsFirst(text, t.end, s + |t.start|);
    OrphansFollowBlocks(t, text, end);
    CutsFirst(text, Span(s, end), Orphans(t, text, end), newline);
  }

  lemma CutsFirst(text: string, span: Span, spans: seq<Span>, newline: bool)
    ensures Cuts(text, [span] + spans, newline) ==
            [Edit(span.start, CutEnd(text, span.end, newline), "")] + Cuts(text, spans, newline)
  {
    assert ([span] + spans)[1..] == spans;
  }

  lemma SplitShift(text: string, tag: string, from: nat)
    requires from <= |text| && tag != ""
    ensures Split(text[from..], tag) ==
            match Find(text, tag, from)
            case None => None
            case Some(s) => Some((text[from..s], text[s + |tag|..]))
  {
    hide Find;
    FindShift(text, tag, from);
    var s := Find(text, tag, from);
    if s.Some? {
      assert text[from..][..s.value - from] == text[from..s.value];
      assert text[from..][s.value - from + |tag|..] == text[s.value + |tag|..];
    }
  }

  lemma NextShift(t: Tags, text: string, from: nat)
    requires Proper(t) && from <= |text|
    ensures match Find(text, t.start, from)
            case None => Next(t, text[from..]) == None
            case Some(s) =>
              && Next(t, text[from..]).Some?
              && Next(t, text[from..]).value.before == text[from..s]
              && Next(t, text[from..]).value.inner ==
                 (match Find(text, t.end, s + |t.start|)
                  case Some(e) => Some(text[s + |t.start|..e])
                  case None => None)
              && Next(t, text[from..]).value.after == text[SpanEnd(t, text, s)..]
  {
    hide Find, Split;
    SplitShift(text, t.start, from);
    match Find(text, t.start, from)
    case None =>
    case Some(s) => SplitShift(text, t.end, s + |t.start|);
  }

  /** Every owned span cut at once leaves exactly the text outside; the spans are disjoint. */
  lemma {:induction false} RemovalLeavesOutside(t: Tags, text: string, from: nat, newline: bool)
    requires Proper(t) && from <= |text|
    ensures Ascending(text, Removal(t, text, from, newline), from)
    ensures Replaced(text, Removal(t, text, from, newline), from) == Outside(t, text[from..], newline)
    decreases |text| - from
  {
    hide Find, Next, Removal, SpanEnd;
    RemovalStep(t, text, from, newline);
    NextShift(t, text, from);
    var edits := Removal(t, text, from, newline);
    match Find(text, t.start, from)
    case None =>
    case Some(s) =>
      var end := SpanEnd(t, text, s);
      var next := CutEnd(text, end, newline);
      RemovalLeavesOutside(t, text, next, newline);
      assert edits[0] == Edit(s, next, "") && edits[1..] == Removal(t, text, next, newline);
      assert DropNewline(text[end..], newline) == text[next..];
      var rest := Replaced(text, edits[1..], next);
      assert "" + rest == rest;
  }

  // ---------------------------------------------------------------------------
  // Splicing back to front
  // ---------------------------------------------------------------------------

  /** The order edits are made in: the one that starts last comes first. */
  predicate LaterFirst(a: Edit, b: Edit) {
    a.start >= b.start
  }

  function BackToFront(edits: seq<Edit>): seq<Edit> {
    if edits == [] then [] else BackToFront(edits[1..]) + [edits[0]]
  }

  lemma {:induction false} BackToFrontAt(edits: seq<Edit>, k: nat)
    requires k < |edits|
    ensures |BackToFront(edits)| == |edits| && BackToFront(edits)[k] == edits[|edits| - 1 - k]
  {
    if |edits| > 1 { BackToFrontAt(edits[1..], if k < |edits| - 1 then k else 0); }
  }

  lemma {:induction false} BackToFrontKeepsEdits(edits: seq<Edit>)
    ensures multiset(BackToFront(edits)) == multiset(edits)
  {
    if edits != [] {
      BackToFrontKeepsEdits(edits[1..]);
      assert edits == [edits[0]] + edits[1..];
    }
  }

  lemma {:induction false} AscendingStarts(text: string, edits: seq<Edit>, from: nat, i: nat, j: nat)
    requires Ascending(text, edits, from) && i < j < |edits|
    ensures edits[i].start < edits[j].start
  {
    AscendingFits(text, edits[1..], edits[0].end);
    if i > 0 { AscendingStarts(text, edits[1..], edits[0].end, i - 1, j - 1); }
  }

  lemma BackToFrontDescends(text: string, asc: seq<Edit>)
    requires Ascending(text, asc, 0)
    ensures forall i, j | 0 <= i < j < |BackToFront(asc)| :: BackToFront(asc)[i].start > BackToFront(asc)[j].start
  {
    var desc := BackToFront(asc);
    forall i, j | 0 <= i < j < |desc|
      ensures desc[i].start > desc[j].start
    {
      if asc != [] {
        BackToFrontAt(asc, 0);
        BackToFrontAt(asc, i);
        BackToFrontAt(asc, j);
        AscendingStarts(text, asc, 0, |asc| - 1 - j, |asc| - 1 - i);
      }
    }
  }

  lemma DescendingIsSorted(desc: seq<Edit>)
    requires forall i, j | 0 <= i < j < |desc| :: desc[i].start > desc[j].start
    ensures Sorted(desc, LaterFirst) && NoTies(desc, LaterFirst)
  {
  }

  /** Sorting disjoint edits by descending start gives them back to front, however they were collected. */
  lemma SortedBackToFront(text: string, asc: seq<Edit>, edits: seq<Edit>)
    requires Ascending(text, asc, 0) && multiset(edits) == multiset(asc)
    ensures Sort(edits, LaterFirst) == BackToFront(asc)
  {
    hide Sorted, NoTies, Sort, BackToFront;
    BackToFrontKeepsEdits(asc);
    assert TotalOrder(LaterFirst);
    SortSorts(edits, LaterFirst);
    BackToFrontDescends(text, asc);
    DescendingIsSorted(BackToFront(asc));
    SortedIsUnique(BackToFront(asc), Sort(edits, LaterFirst), LaterFirst);
  }

  lemma {:induction false} LaterAscending(text: string, asc: seq<Edit>, from: nat, k: nat)
    requires Ascending(text, asc, from) && k < |asc|
    ensures from <= asc[k].start < asc[k].end <= |text| && Ascending(text, asc[k + 1..], asc[k].end)
  {
    AscendingFits(text, asc, from);
    if k > 0 {
      LaterAscending(text, asc[1..], asc[0].end, k - 1);
      assert asc[1..][k..] == asc[k + 1..];
    }
  }

  /** Text before the first edit stays as it is. */
  lemma SkipTo(text: string, edits: seq<Edit>, from: nat, to: nat)
    requires from <= to && Ascending(text, edits, to)
    ensures Ascending(text, edits, from) && to <= |text|
    ensures Replaced(text, edits, from) == text[from..to] + Replaced(text, edits, to)
  {
    AscendingFits(text, edits, to);
    if edits == [] {
      assert text[from..] == text[from..to] + text[to..];
    } else {
      var s := edits[0].start;
      assert text[from..s] == text[from..to] + text[to..s];
      Associative(text[from..to], text[to..s], edits[0].with_ + Replaced(text, edits[1..], edits[0].end));
    }
  }

  lemma Associative(a: string, b: string, c: string)
    ensures (a + b) + c == a + (b + c)
  {
  }

  lemma SpliceStep(text: string, asc: seq<Edit>, k: nat)
    requires Ascending(text, asc, 0) && k < |asc|
    ensures Ascending(text, asc[k..], 0) && Ascending(text, asc[k + 1..], 0)
    ensures var e, x := asc[k], Replaced(text, asc[k + 1..], 0);
            e.start <= e.end <= |x| && x[..e.start] + (e.with_ + x[e.end..]) == Replaced(text, asc[k..], 0)
  {
    var e := asc[k];
    LaterAscending(text, asc, 0, k);
    SkipTo(text, asc[k + 1..], 0, e.end);
    assert asc[k..][0] == e && asc[k..][1..] == asc[k + 1..];
    var x := Replaced(text, asc[k + 1..], 0);
    assert x[..e.start] == text[0..e.start];
    assert x[e.end..] == Replaced(text, asc[k + 1..], e.end);
  }

  lemma NothingReplaced(text: string)
    ensures Ascending(text, [], 0) && Replaced(text, [], 0) == text
  {
  }

  lemma BackToFrontLength(edits: seq<Edit>)
    ensures |BackToFront(edits)| == |edits|
  {
    if edits != [] { BackToFrontAt(edits, 0); }
  }

  /** Edits made one after the other, last first, are the edits made at once. */
  method Splice(text: string, edits: seq<Edit>, ghost asc: seq<Edit>) returns (r: string)
    requires Ascending(text, asc, 0) && multiset(edits) == multiset(asc)
    ensures r == Replaced(text, asc, 0)
  {
    hide Ascending, Sort, BackToFront, Replaced;
    var sorted := Sort(edits, LaterFirst);
    SortedBackToFront(text, asc, edits);
    ghost var n := |asc|;
    NothingReplaced(text);
    BackToFrontLength(asc);
    assert asc[n..] == [];
    r := text;
    for i := 0 to |sorted|
      invariant |sorted| == n && Ascending(text, asc[n - i..], 0) && r == Replaced(text, asc[n - i..], 0)
    {
      BackToFrontAt(asc, i);
      SpliceStep(text, asc, n - 1 - i);
      r := r[..sorted[i].start] + (sorted[i].with_ + r[sorted[i].end..]);
    }
    assert asc[0..] == asc;
  }

  method CutAll(text: string, spans: seq<Span>, newline: bool) returns (edits: seq<Edit>)
    ensures edits == Cuts(text, spans, newline)
  {
    edits := [];
    for i := 0 to |spans|
      invariant edits + Cuts(text, spans[i..], newline) == Cuts(text, spans, newline)
    {
      assert spans[i..][0] == spans[i] && spans[i..][1..] == spans[i + 1..];
      edits := edits + [Edit(spans[i].start, CutEnd(text, spans[i].end, newline), "")];
    }
  }
}
