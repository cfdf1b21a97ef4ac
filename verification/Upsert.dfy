/**
 Writing a generated block into a file and reading it back. `Before` and `After` are the text around the block
 that `upsert` writes; what is read back, and whether writing again changes anything, depends on start tags there.
 */
module Upsert {
  import opened Basics
  import opened Markers

  // ---------------------------------------------------------------------------
  // Bodies
  // ---------------------------------------------------------------------------

  /** A text without the newlines it begins with. */
  function TrimStart(s: string): (r: string)
    ensures r == "" || r[0] != '\n'
  {
    if s != "" && s[0] == '\n' then TrimStart(s[1..]) else s
  }

  function TrimEnd(s: string): (r: string)
    ensures r <= s
    ensures r == "" || r[|r| - 1] != '\n'
  {
    if s != "" && s[|s| - 1] == '\n' then TrimEnd(s[..|s| - 1]) else s
  }

  function Trim(s: string): (r: string)
    ensures r == "" || (r[0] != '\n' && r[|r| - 1] != '\n')
  {
    TrimEnd(TrimStart(s))
  }

  /** What stands between the tags of a block: a newline and, unless it is empty, the trimmed body and another. */
  function Inner(body: string): string {
    if Trim(body) == "" then "\n" else "\n" + Trim(body) + "\n"
  }

  function Block(t: Tags, body: string): string {
    t.start + (Inner(body) + t.end)
  }

  lemma {:induction false} TrimStartKeepsTags(s: string, tag: string)
    requires Tag(tag)
    ensures Free(TrimStart(s), tag) <==> Free(s, tag)
  {
    if s != "" && s[0] == '\n' {
      TrimStartKeepsTags(s[1..], tag);
      assert s == "\n" + s[1..];
      FreeLines(s[1..], "\n", tag);
    }
  }

  lemma {:induction false} TrimEndKeepsTags(s: string, tag: string)
    requires Tag(tag)
    ensures Free(TrimEnd(s), tag) <==> Free(s, tag)
  {
    if s != "" && s[|s| - 1] == '\n' {
      TrimEndKeepsTags(s[..|s| - 1], tag);
      assert s == s[..|s| - 1] + "\n";
      FreeLines(s[..|s| - 1], "\n", tag);
    }
  }

  /** Trimming newlines neither makes nor breaks a tag. */
  lemma TrimKeepsTags(s: string, tag: string)
    requires Tag(tag)
    ensures Free(Trim(s), tag) <==> Free(s, tag)
  {
    TrimStartKeepsTags(s, tag);
    TrimEndKeepsTags(TrimStart(s), tag);
  }

  lemma InnerKeepsTags(body: string, tag: string)
    requires Tag(tag)
    ensures Free(Inner(body), tag) <==> Free(body, tag)
  {
    TrimKeepsTags(body, tag);
    var y := Trim(body);
    if y == "" {
      FreeLines("", "\n", tag);
      assert "" + "\n" == "\n";
    } else {
      FreeLines(y, "\n", tag);
      FreeLines("\n" + y, "\n", tag);
    }
  }

  lemma TrimmedInner(body: string)
    ensures Trim(Inner(body)) == Trim(body)
  {
    var y, inner := Trim(body), Inner(body);
    if y == "" {
      assert inner[0] == '\n' && inner[1..] == "";
      assert TrimStart(inner) == TrimStart("") == "";
    } else {
      var line := y + "\n";
      assert inner[0] == '\n' && inner[1..] == line && line[..|y|] == y && line[0] == y[0];
      assert TrimStart(inner) == TrimStart(line) == line;
      assert TrimEnd(line) == TrimEnd(y) == y;
      assert Trim(inner) == TrimEnd(TrimStart(inner)) == y;
    }
  }

  predicate Newlines(s: string) {
    forall i | 0 <= i < |s| :: s[i] == '\n'
  }

  lemma {:induction false} TrimStartDrops(a: string, s: string)
    requires Newlines(a) && (s == "" || s[0] != '\n')
    ensures TrimStart(a + s) == s
  {
    if a == "" {
      assert a + s == s;
    } else {
      assert (a + s)[0] == '\n' && (a + s)[1..] == a[1..] + s;
      TrimStartDrops(a[1..], s);
    }
  }

  lemma {:induction false} TrimEndDrops(s: string, b: string)
    requires Newlines(b) && (s == "" || s[|s| - 1] != '\n')
    ensures TrimEnd(s + b) == s
  {
    if b == "" {
      assert s + b == s;
    } else {
      var n := |b| - 1;
      assert (s + b)[|s + b| - 1] == '\n' && (s + b)[..|s + b| - 1] == s + b[..n];
      TrimEndDrops(s, b[..n]);
    }
  }

  /** Trimming takes the newlines at both ends, all of them and nothing else. */
  lemma TrimTakesNewlines(a: string, y: string, b: string)
    requires Newlines(a) && Newlines(b) && (y == "" || (y[0] != '\n' && y[|y| - 1] != '\n'))
    ensures Trim(a + y + b) == y
  {
    if y == "" {
      assert a + y + b == a + b + "" && Newlines(a + b);
      TrimStartDrops(a + b, "");
      TrimEndDrops("", "");
    } else {
      assert a + y + b == a + (y + b) && (y + b)[0] == y[0];
      TrimStartDrops(a, y + b);
      TrimEndDrops(y, b);
    }
  }

  /** A body stands between its tags on lines of its own, whatever newlines it came with; an empty one leaves one line. */
  lemma BlockFormat(t: Tags, a: string, y: string, b: string)
    requires Newlines(a) && Newlines(b) && (y == "" || (y[0] != '\n' && y[|y| - 1] != '\n'))
    ensures Block(t, a + y + b) == t.start + (if y == "" then "\n" else "\n" + y + "\n") + t.end
  {
    hide Trim;
    TrimTakesNewlines(a, y, b);
    assert t.start + (Inner(a + y + b) + t.end) == t.start + Inner(a + y + b) + t.end;
  }

  lemma {:induction false} TrimStartEmpty(s: string)
    requires TrimStart(s) == ""
    ensures forall i | 0 <= i < |s| :: s[i] == '\n'
  {
    if s != "" { TrimStartEmpty(s[1..]); }
  }

  lemma {:induction false} TrimEndEmpty(s: string)
    requires TrimEnd(s) == ""
    ensures forall i | 0 <= i < |s| :: s[i] == '\n'
  {
    if s != "" { TrimEndEmpty(s[..|s| - 1]); }
  }

  lemma NotTrimmedAway(s: string)
    requires '<' in s
    ensures Trim(s) != ""
  {
    if Trim(s) == "" {
      TrimEndEmpty(TrimStart(s));
      assert TrimStart(s) == "";
      TrimStartEmpty(s);
    }
  }

  // ---------------------------------------------------------------------------
  // Reading
  // ---------------------------------------------------------------------------

  /** The trimmed content of the first complete block. */
  function Read(t: Tags, text: string): Option<string>
    requires t.start != ""
  {
    match Next(t, text)
    case Some(Piece(_, Some(inner), _)) => Some(Trim(inner))
    case _ => None
  }

  method Extract(text: string, marker: string) returns (r: Option<string>)
    requires '<' !in marker
    ensures r == Read(TagsOf(marker), text)
  {
    hide Find, Split, Blocks, Orphans, Trim;
    var t := TagsOf(marker);
    PlainMarkersAreProper(marker);
    hide TagsOf;
    var blocks, orphans := Scan(t, text);
    FirstBlock(t, text);
    if blocks == [] {
      return None;
    }
    var innerStart, innerEnd := blocks[0].start + |t.start|, blocks[0].end - |t.end|;
    r := Some(Trim(text[innerStart..innerEnd]));
  }

  /** The first block of the scan is the next piece: orphans never come before blocks. */
  lemma FirstBlock(t: Tags, text: string)
    requires Proper(t)
    ensures var blocks, next := Blocks(t, text, 0), Next(t, text);
            && (blocks == [] <==> next.None? || next.value.inner.None?)
            && (blocks != [] ==>
                  var b, p := blocks[0], next.value;
                  && b.start + |t.start| <= b.end - |t.end| <= b.end <= |text|
                  && p.before == text[..b.start] && p.after == text[b.end..]
                  && p.inner == Some(text[b.start + |t.start|..b.end - |t.end|])
                  && blocks[1..] == Blocks(t, text, b.end)
                  && Orphans(t, text, 0) == Orphans(t, text, b.end))
  {
    hide Find, Next, Blocks, Orphans;
    ScanStep(t, text, 0);
    NextIsSpan(t, text);
    match Find(text, t.start, 0)
    case None =>
    case Some(s) =>
      match Find(text, t.end, s + |t.start|)
      case None =>
        FindIsFirst(text, t.end, s + |t.start|);
        OrphansFollowBlocks(t, text, s + |t.start|);
      case Some(e) =>
        FirstAndRest(Span(s, e + |t.end|), Blocks(t, text, e + |t.end|));
  }

  lemma FirstAndRest(first: Span, rest: seq<Span>)
    ensures ([first] + rest)[0] == first && ([first] + rest)[1..] == rest && [first] + rest != []
  {
  }

  /** The next piece, by the offsets at which its tags are found. */
  lemma NextIsSpan(t: Tags, text: string)
    requires Proper(t)
    ensures match Find(text, t.start, 0)
            case None => Next(t, text) == None
            case Some(s) =>
              match Find(text, t.end, s + |t.start|)
              case None => Next(t, text).Some? && Next(t, text).value.inner.None?
              case Some(e) =>
                Next(t, text) == Some(Piece(text[..s], Some(text[s + |t.start|..e]), text[e + |t.end|..]))
  {
    hide Find, Next;
    NextShift(t, text, 0);
    assert text[0..] == text;
    var s := Find(text, t.start, 0);
    if s.Some? { assert text[0..s.value] == text[..s.value]; }
  }

  // ---------------------------------------------------------------------------
  // Writing
  // ---------------------------------------------------------------------------

  /** The characters with the Unicode property White_Space. */
  predicate IsSpace(c: char) {
    || '\t' <= c <= '\r' || c == ' ' || c == '\U{85}' || c == '\U{A0}' || c == '\U{1680}'
    || '\U{2000}' <= c <= '\U{200A}' || c == '\U{2028}' || c == '\U{2029}' || c == '\U{202F}' || c == '\U{205F}'
    || c == '\U{3000}'
  }

  predicate Blank(text: string) {
    forall i | 0 <= i < |text| :: IsSpace(text[i])
  }

  function Ended(text: string): string {
    if text != "" && text[|text| - 1] == '\n' then text else text + "\n"
  }

  /** A text followed by a blank line, unless it is empty. */
  function Parted(text: string): string {
    if text == "" then "" else Ended(text) + "\n"
  }

  predicate IsFresh(existing: Option<string>) {
    existing.None? || Blank(existing.value)
  }

  /** The first complete block of the file, with the text around it. */
  function Owned(t: Tags, existing: Option<string>): Option<Piece>
    requires t.start != ""
  {
    if IsFresh(existing) then None
    else match Next(t, existing.value) case Some(Piece(b, Some(i), a)) => Some(Piece(b, Some(i), a)) case _ => None
  }

  /** The text `upsert` leaves before the block. */
  function Before(t: Tags, existing: Option<string>, preamble: string): string
    requires t.start != ""
  {
    if IsFresh(existing) then (if Trim(preamble) == "" then "" else Trim(preamble) + "\n\n")
    else
      match Owned(t, existing)
      case Some(p) => p.before
      case None => Parted(Outside(t, existing.value, true))
  }

  /** The text `upsert` leaves after the block. */
  function After(t: Tags, existing: Option<string>): string
    requires t.start != ""
  {
    match Owned(t, existing)
    case Some(p) => Ended(Outside(t, p.after, true))
    case None => "\n"
  }

  function Upserted(t: Tags, existing: Option<string>, body: string, preamble: string): string
    requires t.start != ""
  {
    Before(t, existing, preamble) + (Block(t, body) + After(t, existing))
  }

  method Upsert(existing: Option<string>, marker: string, body: string, preamble: string) returns (text: string)
    requires '<' !in marker
    ensures text == Upserted(TagsOf(marker), existing, body, preamble)
  {
    var t := TagsOf(marker);
    PlainMarkersAreProper(marker);
    hide TagsOf, Next, Block, Outside, Trim, Blank, Proper, Upserted, Parted, Ended;
    var block := Block(t, body);
    if existing.None? || Blank(existing.value) {
      FreshIsUpserted(t, existing, body, preamble);
      var p := Trim(preamble);
      return if p == "" then "" + (block + "\n") else p + "\n\n" + (block + "\n");
    }
    var rewritten, found := Rewrite(t, existing.value, block);
    RewrittenIsUpserted(t, existing.value, body, preamble, rewritten, found);
    text := rewritten;
    if !found {
      text := Part(text);
      text := text + block;
    }
    text := EndLine(text);
  }

  /** Leaves a blank line after a text that is not empty. */
  method Part(text: string) returns (parted: string)
    ensures parted == Parted(text)
  {
    parted := text;
    if parted != "" && parted[|parted| - 1] != '\n' {
      parted := parted + "\n";
    }
    if parted != "" {
      parted := parted + "\n";
    }
  }

  method EndLine(text: string) returns (ended: string)
    ensures ended == Ended(text)
  {
    ended := text;
    if ended == "" || ended[|ended| - 1] != '\n' {
      ended := ended + "\n";
    }
  }

  lemma FreshIsUpserted(t: Tags, existing: Option<string>, body: string, preamble: string)
    requires t.start != "" && IsFresh(existing)
    ensures Upserted(t, existing, body, preamble) ==
            (if Trim(preamble) == "" then "" else Trim(preamble) + "\n\n") + (Block(t, body) + "\n")
  {
    hide Trim, Block, IsFresh;
  }

  /** A rewritten file, parted from a block it does not have yet and ended with a newline, is what `upsert` writes. */
  lemma RewrittenIsUpserted(t: Tags, text: string, body: string, preamble: string, rewritten: string, found: bool)
    requires Proper(t) && !Blank(text)
    requires found <==> Next(t, text).Some? && Next(t, text).value.inner.Some?
    requires found ==>
               rewritten == Next(t, text).value.before + (Block(t, body) + Outside(t, Next(t, text).value.after, true))
    requires !found ==> rewritten == Outside(t, text, true)
    ensures Upserted(t, Some(text), body, preamble) ==
            Ended(if found then rewritten else Parted(rewritten) + Block(t, body))
  {
    hide Next, Block, Outside, Trim, Blank;
    BlockCloses(t, body);
    var x, b := Before(t, Some(text), preamble), Block(t, body);
    if found {
      EndAfter(x, b, Outside(t, Next(t, text).value.after, true));
    } else {
      Associative(x, b, "\n");
      assert (x + b)[|x + b| - 1] == b[|b| - 1];
    }
  }

  lemma BlockCloses(t: Tags, body: string)
    requires Proper(t)
    ensures Block(t, body) != "" && Block(t, body)[|Block(t, body)| - 1] == '>'
  {
    hide Inner;
  }

  lemma EndAfter(x: string, block: string, o: string)
    requires block != "" && block[|block| - 1] != '\n'
    ensures Ended(x + (block + o)) == x + (block + Ended(o))
  {
    var text := x + (block + o);
    assert text[|text| - 1] == (block + o)[|block + o| - 1];
    if o == "" || o[|o| - 1] != '\n' {
      Associative(x, block + o, "\n");
      Associative(block, o, "\n");
    }
  }

  /** Drops orphans and further blocks and puts `block` in the place of the first, by one edit list. */
  method Rewrite(t: Tags, text: string, block: string) returns (r: string, found: bool)
    requires Proper(t)
    ensures found <==> Next(t, text).Some? && Next(t, text).value.inner.Some?
    ensures found ==>
              r == Next(t, text).value.before + (block + Outside(t, Next(t, text).value.after, true))
    ensures !found ==> r == Outside(t, text, true)
  {
    hide Find, Next, Outside, Cuts, Blocks, Orphans;
    var blocks, orphans := Scan(t, text);
    FirstBlock(t, text);
    found := blocks != [];
    ghost var asc := UpsertEdits(t, text, block);
    EditsWriteTheBlock(t, text, block);
    var edits := CutAll(text, orphans, true);
    if found {
      var others := CutAll(text, blocks[1..], true);
      edits := edits + others;
      edits := edits + [Edit(blocks[0].start, blocks[0].end, block)];
    } else {
      assert Cuts(text, blocks, true) == [];
    }
    r := Splice(text, edits, asc);
  }

  /** The edits of `upsert` in the order of the file. */
  ghost function UpsertEdits(t: Tags, text: string, block: string): seq<Edit>
    requires t.start != ""
  {
    var blocks := Blocks(t, text, 0);
    if blocks == [] then Removal(t, text, 0, true)
    else [Edit(blocks[0].start, blocks[0].end, block)]
         + (Cuts(text, blocks[1..], true) + Cuts(text, Orphans(t, text, 0), true))
  }

  lemma EditsWriteTheBlock(t: Tags, text: string, block: string)
    requires Proper(t)
    ensures var asc, next := UpsertEdits(t, text, block), Next(t, text);
            && Ascending(text, asc, 0)
            && Replaced(text, asc, 0) ==
               if Blocks(t, text, 0) == [] then Outside(t, text, true)
               else next.value.before + (block + Outside(t, next.value.after, true))
  {
    hide Find, Next, Outside, Cuts;
    FirstBlock(t, text);
    var blocks := Blocks(t, text, 0);
    if blocks == [] {
      RemovalLeavesOutside(t, text, 0, true);
      assert text[0..] == text;
    } else {
      var b := blocks[0];
      RemovalLeavesOutside(t, text, b.end, true);
      var asc := UpsertEdits(t, text, block);
      assert asc[0] == Edit(b.start, b.end, block) && asc[1..] == Removal(t, text, b.end, true);
      assert text[0..b.start] == text[..b.start];
    }
  }

  // ---------------------------------------------------------------------------
  // Writing first
  // ---------------------------------------------------------------------------

  predicate StartsLine(text: string) {
    "\n" <= text || "\r\n" <= text
  }

  function UpsertedFirst(t: Tags, existing: Option<string>, body: string, preamble: string): string
    requires t.start != ""
  {
    if existing.None? then
      if preamble == "" then Block(t, body) + "\n" else Block(t, body) + ("\n\n" + Trim(preamble) + "\n")
    else
      var notes := Outside(t, existing.value, false);
      Block(t, body) + (if notes == "" then "\n" else if StartsLine(notes) then notes else "\n\n" + notes)
  }

  method UpsertFirst(existing: Option<string>, marker: string, body: string, preamble: string) returns (text: string)
    requires '<' !in marker
    ensures text == UpsertedFirst(TagsOf(marker), existing, body, preamble)
  {
    var t := TagsOf(marker);
    PlainMarkersAreProper(marker);
    var generated := Block(t, body);
    if existing.None? {
      return if preamble == "" then generated + "\n" else generated + ("\n\n" + Trim(preamble) + "\n");
    }
    var blocks, orphans := Scan(t, existing.value);
    var edits := CutAll(existing.value, blocks, false);
    var more := CutAll(existing.value, orphans, false);
    edits := edits + more;
    RemovalLeavesOutside(t, existing.value, 0, false);
    assert existing.value[0..] == existing.value;
    var notes := Splice(existing.value, edits, Removal(t, existing.value, 0, false));
    if notes == "" {
      text := generated + "\n";
    } else if StartsLine(notes) {
      text := generated + notes;
    } else {
      text := generated + ("\n\n" + notes);
    }
  }
}
