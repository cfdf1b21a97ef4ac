/** What holds of writing and reading marker blocks, and exactly when. */
module UpsertLaws {
  import opened Basics
  import opened Markers
  import opened Upsert

  // ---------------------------------------------------------------------------
  // Reading back
  // ---------------------------------------------------------------------------

  lemma Regroup(t: Tags, x: string, body: string, y: string)
    ensures x + (Block(t, body) + y) == x + (t.start + (Inner(body) + (t.end + y)))
  {
    hide Inner;
    Associative(t.start, Inner(body) + t.end, y);
    Associative(Inner(body), t.end, y);
  }

  /** Behind text free of start tags, the written block is the next one. */
  lemma WrittenIsNext(t: Tags, x: string, body: string, y: string)
    requires Proper(t) && Free(x, t.start) && Free(body, t.end)
    ensures Next(t, x + (Block(t, body) + y)) == Some(Piece(x, Some(Inner(body)), y))
  {
    hide Next, Inner, Block;
    Regroup(t, x, body, y);
    InnerKeepsTags(body, t.end);
    NextIsBlock(t, x, Inner(body), y);
  }

  lemma WrittenIsRead(t: Tags, x: string, body: string, y: string)
    requires Proper(t) && Free(x, t.start) && Free(body, t.end)
    ensures Read(t, x + (Block(t, body) + y)) == Some(Trim(body))
  {
    hide Next, Inner, Block, Trim;
    WrittenIsNext(t, x, body, y);
    TrimmedInner(body);
  }

  /** An end tag is nowhere in a start tag. */
  lemma StartHoldsNoEnd(t: Tags)
    requires Proper(t)
    ensures Free(t.start + "\n", t.end)
  {
    FreeLines(t.start, "\n", t.end);
    forall i: nat
      ensures !OccursAt(t.start, t.end, i)
    {
      if OccursAt(t.start, t.end, i) {
        OccurrenceSpells(t.start, t.end, i);
      }
    }
  }

  lemma FreeJoin(x: string, y: string, tag: string)
    requires Tag(tag) && Free(x, tag) && Free(y, tag) && (y == "" || y[0] == '<')
    ensures Free(x + y, tag)
  {
    forall i: nat
      ensures !OccursAt(x + y, tag, i)
    {
      if i < |x| {
        OccursLeft(x, y, tag, i);
      } else {
        OccursRight(x, y, tag, i);
      }
    }
  }

  /** Behind a stray start tag, reading does not give back every body. */
  lemma StrayTagHidesBlock(t: Tags, x: string, y: string)
    requires Proper(t) && !Free(x, t.start)
    ensures Read(t, x + (Block(t, "") + y)) != Some("") || Read(t, x + (Block(t, "x") + y)) != Some("x")
  {
    hide Next, Split, Block;
    SplitSpells(x, t.start);
    var (p, q) := Split(x, t.start).value;
    SplitSpells(q, t.end);
    if Split(q, t.end).Some? {
      var (i, a) := Split(q, t.end).value;
      StrayBlock(t, p, i, a, Block(t, "") + y);
      StrayBlock(t, p, i, a, Block(t, "x") + y);
    } else {
      StrayTag(t, p, q, y);
    }
  }

  lemma StrayBlock(t: Tags, p: string, i: string, a: string, rest: string)
    requires Proper(t) && Free(p, t.start) && Free(i, t.end)
    ensures Read(t, (p + (t.start + (i + (t.end + a)))) + rest) == Some(Trim(i))
  {
    hide Next, Trim;
    Associative(p, t.start + (i + (t.end + a)), rest);
    Associative(t.start, i + (t.end + a), rest);
    Associative(i, t.end + a, rest);
    Associative(t.end, a, rest);
    NextIsBlock(t, p, i, a + rest);
  }

  lemma StrayTag(t: Tags, p: string, q: string, y: string)
    requires Proper(t) && Free(p, t.start) && Free(q, t.end)
    ensures Read(t, (p + (t.start + q)) + (Block(t, "") + y)) != Some("")
  {
    hide Next, Trim;
    var inner := q + (t.start + "\n");
    StartHoldsNoEnd(t);
    FreeJoin(q, t.start + "\n", t.end);
    var text := (p + (t.start + q)) + (Block(t, "") + y);
    assert text == p + (t.start + (inner + (t.end + y))) by {
      ShortBodies(t.start);
      assert Inner("") == "\n";
      Regroup(t, p + (t.start + q), "", y);
    }
    NextIsBlock(t, p, inner, y);
    assert inner[|q|] == '<';
    NotTrimmedAway(inner);
  }

  /** No start tag is left, or made by joining what was apart, in the text before the block. */
  ghost predicate TidyBefore(t: Tags, existing: Option<string>, preamble: string)
    requires t.start != ""
  {
    if IsFresh(existing) then Free(preamble, t.start)
    else Owned(t, existing).Some? || Free(Outside(t, existing.value, true), t.start)
  }

  /** The same of the text after the block. */
  ghost predicate TidyAfter(t: Tags, existing: Option<string>)
    requires t.start != ""
  {
    Owned(t, existing).Some? ==> Free(Outside(t, Owned(t, existing).value.after, true), t.start)
  }

  lemma EndedKeepsTags(text: string, tag: string)
    requires Tag(tag)
    ensures Free(Ended(text), tag) <==> Free(text, tag)
  {
    FreeLines(text, "\n", tag);
  }

  lemma BeforeIsFreeIff(t: Tags, existing: Option<string>, preamble: string)
    requires Proper(t)
    ensures Free(Before(t, existing, preamble), t.start) <==> TidyBefore(t, existing, preamble)
  {
    hide Next, Outside, OccursAt, Trim, Spells;
    if IsFresh(existing) {
      TrimKeepsTags(preamble, t.start);
      FreeLines(Trim(preamble), "\n\n", t.start);
    } else if Owned(t, existing).Some? {
      NextBeforeIsFree(t, existing.value);
    } else {
      var o := Outside(t, existing.value, true);
      EndedKeepsTags(o, t.start);
      FreeLines(Ended(o), "\n", t.start);
    }
  }

  lemma NextBeforeIsFree(t: Tags, text: string)
    requires Proper(t) && Next(t, text).Some?
    ensures Free(Next(t, text).value.before, t.start)
  {
    hide Next;
    NextSpells(t, text);
  }

  lemma AfterIsFreeIff(t: Tags, existing: Option<string>)
    requires Proper(t)
    ensures Free(After(t, existing), t.start) <==> TidyAfter(t, existing)
  {
    hide Outside, OccursAt, Owned;
    if Owned(t, existing).Some? {
      EndedKeepsTags(Outside(t, Owned(t, existing).value.after, true), t.start);
    } else {
      FreeLines("", "\n", t.start);
      assert "" + "\n" == "\n";
      NothingIsFree(t.start);
    }
  }

  lemma NothingIsFree(tag: string)
    requires tag != ""
    ensures Free("", tag)
  {
  }

  ghost predicate ReadsBack(t: Tags, existing: Option<string>, preamble: string, body: string)
    requires t.start != ""
  {
    Read(t, Upserted(t, existing, body, preamble)) == Some(Trim(body))
  }

  /** `extract` after `upsert` gives every body back exactly when no start tag ends up before the block. */
  lemma ExtractReadsUpsertIff(t: Tags, existing: Option<string>, preamble: string)
    requires Proper(t)
    ensures (forall body | Free(body, t.end) :: ReadsBack(t, existing, preamble, body)) <==>
            TidyBefore(t, existing, preamble)
  {
    hide Read, Block, Before, After, Trim, TidyBefore;
    BeforeIsFreeIff(t, existing, preamble);
    var x, y := Before(t, existing, preamble), After(t, existing);
    if Free(x, t.start) {
      forall body | Free(body, t.end)
        ensures ReadsBack(t, existing, preamble, body)
      {
        WrittenIsRead(t, x, body, y);
      }
    } else {
      StrayTagHidesBlock(t, x, y);
      ShortBodies(t.end);
      assert !ReadsBack(t, existing, preamble, "") || !ReadsBack(t, existing, preamble, "x");
    }
  }

  lemma ShortBodies(tag: string)
    requires Tag(tag)
    ensures Free("", tag) && Free("x", tag) && Trim("") == "" && Trim("x") == "x"
  {
    assert Trim("x") == "x";
  }

  // ---------------------------------------------------------------------------
  // Writing again
  // ---------------------------------------------------------------------------

  /** Removing owned spans shortens a text by more than one character, unless there are none. */
  lemma {:induction false} OutsideIsShorter(t: Tags, text: string, newline: bool)
    requires Proper(t)
    ensures |Outside(t, text, newline)| <= |text|
    ensures Free(text, t.start) ==> Outside(t, text, newline) == text
    ensures !Free(text, t.start) ==> |Outside(t, text, newline)| + 2 <= |text|
    decreases |text|
  {
    NextSpells(t, text);
    if Next(t, text).Some? {
      var p := Next(t, text).value;
      hide Next, Split;
      OutsideIsShorter(t, DropNewline(p.after, newline), newline);
    }
  }

  lemma TagsAtWritten(t: Tags, x: string, body: string, y: string)
    requires Proper(t)
    ensures var r := x + (Block(t, body) + y);
            OccursAt(r, t.start, |x|) && OccursAt(r, t.end, |x| + |t.start| + |Inner(body)|)
  {
    hide Inner, Block, OccursAt;
    var rest := Inner(body) + (t.end + y);
    Regroup(t, x, body, y);
    OccursRight(x, t.start + rest, t.start, |x|);
    AtFront(t.start, rest);
    OccursRight(x, t.start + rest, t.end, |x| + |t.start| + |Inner(body)|);
    OccursRight(t.start, rest, t.end, |t.start| + |Inner(body)|);
    OccursRight(Inner(body), t.end + y, t.end, |Inner(body)|);
    AtFront(t.end, y);
  }

  lemma AtFront(tag: string, y: string)
    ensures OccursAt(tag + y, tag, 0)
  {
  }

  /** Before its own end tag, a written block shows no end tag. */
  lemma NoEndInside(t: Tags, x: string, body: string, y: string, k: nat)
    requires Proper(t) && Free(body, t.end)
    requires |x| + |t.start| <= k < |x| + |t.start| + |Inner(body)|
    ensures !OccursAt(x + (Block(t, body) + y), t.end, k)
  {
    hide Inner, Block, OccursAt;
    var rest := Inner(body) + (t.end + y);
    Regroup(t, x, body, y);
    InnerKeepsTags(body, t.end);
    OccursRight(x, t.start + rest, t.end, k);
    OccursRight(t.start, rest, t.end, k - |x|);
    OccursLeft(Inner(body), t.end + y, t.end, k - |x| - |t.start|);
  }

  lemma TagsDiffer(t: Tags, text: string, i: nat)
    requires Proper(t) && OccursAt(text, t.start, i)
    ensures !OccursAt(text, t.end, i)
  {
  }

  /** A block between texts free of start tags stands in one place only. */
  lemma OnePlace(t: Tags, x: string, y: string, p: string, a: string, body: string)
    requires Proper(t) && Free(body, t.end) && Free(p, t.start) && Free(a, t.start)
    requires x + (Block(t, body) + y) == p + (Block(t, body) + a)
    ensures x == p && y == a
  {
    hide Inner, Block, OccursAt;
    var b := Block(t, body);
    var r, k := x + (b + y), |p| + |t.start| + |Inner(body)|;
    assert |b| == |t.start| + |Inner(body)| + |t.end| by { BlockSize(t, body); }
    TagsAtWritten(t, x, body, y);
    TagsAtWritten(t, p, body, a);
    if |x| < |p| {
      OccursLeft(p, b + a, t.start, |x|) by { BlockOpens(t, body); }
    } else if |x| > |p| {
      TagsDiffer(t, r, |x|);
      if |x| > k {
        TagsAreApart(r, t.end, t.start, k, |x|);
        Associative(p, b, a);
        OccursRight(p + b, a, t.start, |x|);
      } else {
        TagsAreApart(r, t.start, t.end, |x|, k);
        NoEndInside(t, x, body, y, k);
      }
    }
    assert r[..|x|] == x && r[..|p|] == p;
    assert r[|x| + |b|..] == y && r[|p| + |b|..] == a;
  }

  lemma BlockSize(t: Tags, body: string)
    ensures |Block(t, body)| == |t.start| + |Inner(body)| + |t.end|
  {
  }

  lemma BlockOpens(t: Tags, body: string)
    requires Proper(t)
    ensures |Block(t, body)| > 0 && Block(t, body)[0] == '<'
  {
  }

  /** What the next piece looks like when writing again changes nothing. */
  lemma StablePiece(t: Tags, x: string, body: string, y: string, preamble: string)
    requires Proper(t) && Free(body, t.end)
    requires var r := x + (Block(t, body) + y); Upserted(t, Some(r), body, preamble) == r && !Blank(r)
    ensures Free(x, t.start) && Free(y, t.start)
  {
    hide Next, Block, Outside, OccursAt, Inner, Blank;
    var b := Block(t, body);
    var r := x + (b + y);
    TagsAtWritten(t, x, body, y);
    NextSpells(t, r);
    var p := Next(t, r).value;
    FirstTagIsEarlier(t, r, |x|);
    if p.inner.None? {
      var k := |x| + |t.start| + |Inner(body)|;
      Associative(p.before, t.start, p.after);
      OccursRight(p.before + t.start, p.after, t.end, k);
    } else {
      var o := Ended(Outside(t, p.after, true));
      Cancel(p.before, b + o, t.start + (p.inner.value + (t.end + p.after)));
      SameBlock(t, body, o, p.inner.value, p.after);
      OutsideIsShorter(t, p.after, true);
      OnePlace(t, x, y, p.before, p.after, body);
    }
  }

  lemma FirstTagIsEarlier(t: Tags, r: string, i: nat)
    requires Proper(t) && OccursAt(r, t.start, i)
    ensures Next(t, r).Some? && |Next(t, r).value.before| <= i
  {
    hide OccursAt;
    FindIsFirst(r, t.start, 0);
  }

  lemma Cancel(x: string, a: string, b: string)
    requires x + a == x + b
    ensures a == b
  {
    assert (x + a)[|x|..] == a && (x + b)[|x|..] == b;
  }

  lemma SameBlock(t: Tags, body: string, o: string, inner: string, after: string)
    requires Proper(t) && Free(body, t.end) && Free(inner, t.end)
    requires Block(t, body) + o == t.start + (inner + (t.end + after))
    ensures inner == Inner(body) && o == after
  {
    hide Inner, Split, OccursAt;
    Associative(t.start, Inner(body) + t.end, o);
    Associative(Inner(body), t.end, o);
    Cancel(t.start, Inner(body) + (t.end + o), inner + (t.end + after));
    InnerKeepsTags(body, t.end);
    SplitFirst(Inner(body), t.end, o);
    SplitFirst(inner, t.end, after);
  }

  lemma WrittenIsNotBlank(t: Tags, x: string, body: string, y: string)
    requires Proper(t)
    ensures !Blank(x + (Block(t, body) + y))
  {
    hide Block;
    BlockOpens(t, body);
    var r := x + (Block(t, body) + y);
    assert r[|x|] == '<' && !IsSpace('<');
  }

  /** A written text is left alone exactly when its block is the only owned thing in it. */
  lemma StableIff(t: Tags, x: string, body: string, y: string, preamble: string)
    requires Proper(t) && Free(body, t.end) && y != "" && y[|y| - 1] == '\n'
    ensures var r := x + (Block(t, body) + y);
            Upserted(t, Some(r), body, preamble) == r <==> Free(x, t.start) && Free(y, t.start)
  {
    hide Block, Next, Outside, OccursAt, Blank, Inner;
    var r := x + (Block(t, body) + y);
    WrittenIsNotBlank(t, x, body, y);
    if Upserted(t, Some(r), body, preamble) == r {
      StablePiece(t, x, body, y, preamble);
    }
    if Free(x, t.start) && Free(y, t.start) {
      WrittenIsNext(t, x, body, y);
      OutsideIsShorter(t, y, true);
    }
  }

  /**
   `upsert` is idempotent exactly when the text around the written block has no start tag. Text free of owned
   spans has none; cutting a span can join two halves of a new one.
   */
  lemma UpsertIsIdempotentIff(t: Tags, existing: Option<string>, body: string, preamble: string)
    requires Proper(t) && Free(body, t.end)
    ensures var r := Upserted(t, existing, body, preamble);
            Upserted(t, Some(r), body, preamble) == r <==> TidyBefore(t, existing, preamble) && TidyAfter(t, existing)
  {
    hide Block, OccursAt, Before, After, TidyBefore, TidyAfter;
    var x, y := Before(t, existing, preamble), After(t, existing);
    BeforeIsFreeIff(t, existing, preamble);
    AfterIsFreeIff(t, existing);
    AfterEndsLine(t, existing);
    StableIff(t, x, body, y, preamble);
  }

  lemma AfterEndsLine(t: Tags, existing: Option<string>)
    requires t.start != ""
    ensures After(t, existing) != "" && After(t, existing)[|After(t, existing)| - 1] == '\n'
  {
    hide Owned, Outside;
  }

  /** With at most one block and no unterminated tag, nothing is cut and `upsert` keeps every promise. */
  lemma SingleBlockIsTidy(t: Tags, text: string, preamble: string)
    requires Proper(t) && !Blank(text)
    requires |Blocks(t, text, 0)| <= 1 && Orphans(t, text, 0) == []
    ensures TidyBefore(t, Some(text), preamble) && TidyAfter(t, Some(text))
  {
    hide Next, OccursAt, Outside, Blank, Find;
    FirstBlock(t, text);
    var blocks := Blocks(t, text, 0);
    if blocks == [] {
      FindIsFirst(text, t.start, 0);
      ScannedEmpty(t, text, 0);
      assert text[0..] == text;
      OutsideIsShorter(t, text, true);
    } else {
      var end := blocks[0].end;
      ScannedEmpty(t, text, end);
      OutsideIsShorter(t, text[end..], true);
    }
  }

  lemma ScannedEmpty(t: Tags, text: string, from: nat)
    requires Proper(t) && from <= |text| && Blocks(t, text, from) == [] && Orphans(t, text, from) == []
    ensures Free(text[from..], t.start)
  {
    hide OccursAt, Find;
    FindShift(text, t.start, from);
    FindIsFirst(text[from..], t.start, 0);
  }

  /** A start tag cut out of the middle of a start tag leaves a start tag: neither promise holds there. */
  lemma SplicedTag(marker: string, preamble: string)
    requires '<' !in marker
    ensures var t := TagsOf(marker);
            var text := t.start[..1] + (t.start + t.start[1..]);
            && Proper(t) && !TidyBefore(t, Some(text), preamble)
            && exists body :: Free(body, t.end) && !ReadsBack(t, Some(text), preamble, body)
  {
    PlainMarkersAreProper(marker);
    var t := TagsOf(marker);
    var head, tail := t.start[..1], t.start[1..];
    var text := head + (t.start + tail);
    assert tail[0] == '!';
    hide TagsOf, Next, Split;
    assert Free(head, t.start);
    assert Free(tail, t.end) by { NoOpenerNoTag(tail, t.end); }
    assert Free(tail, t.start) by { NoOpenerNoTag(tail, t.start); }
    assert Next(t, text) == Some(Piece(head, None, tail)) by { NextIsOrphan(t, head, tail); }
    assert !Blank(text) by { assert text[0] == '<' && !IsSpace('<'); }
    OutsideIsShorter(t, tail, true);
    assert Outside(t, text, true) == head + tail == t.start;
    assert OccursAt(t.start, t.start, 0);
    ExtractReadsUpsertIff(t, Some(text), preamble);
  }

  lemma NoOpenerNoTag(text: string, tag: string)
    requires Tag(tag) && '<' !in text
    ensures Free(text, tag)
  {
    forall i: nat
      ensures !OccursAt(text, tag, i)
    {
      if OccursAt(text, tag, i) {
        OccurrenceSpells(text, tag, i);
      }
    }
  }

  lemma NextIsOrphan(t: Tags, before: string, after: string)
    requires Proper(t) && Free(before, t.start) && Free(after, t.end)
    ensures Next(t, before + (t.start + after)) == Some(Piece(before, None, after))
  {
    hide Split;
    SplitFirst(before, t.start, after);
    SplitSpells(after, t.end);
  }

  // ---------------------------------------------------------------------------
  // Writing first
  // ---------------------------------------------------------------------------

  /** `extract` after `upsert_first` always gives the body back. */
  lemma ExtractReadsUpsertFirst(t: Tags, existing: Option<string>, body: string, preamble: string)
    requires Proper(t) && Free(body, t.end)
    ensures Read(t, UpsertedFirst(t, existing, body, preamble)) == Some(Trim(body))
  {
    hide Read, Block, Outside, Trim;
    var b, r := Block(t, body), UpsertedFirst(t, existing, body, preamble);
    assert r[..|b|] == b;
    var rest := r[|b|..];
    assert r == "" + (b + rest);
    NothingIsFree(t.start);
    WrittenIsRead(t, "", body, rest);
  }

  /** Text that starts a line does so still after the owned spans are cut. */
  lemma LinesStayFirst(t: Tags, text: string)
    requires Proper(t) && StartsLine(text)
    ensures StartsLine(Outside(t, text, false))
  {
    hide Next, Split, OccursAt;
    NextSpells(t, text);
    if Next(t, text).Some? {
      var p := Next(t, text).value;
      assert text[|p.before|] == '<';
    }
  }

  lemma FirstWrittenAgain(t: Tags, body: string, rest: string, preamble: string)
    requires Proper(t) && Free(body, t.end) && StartsLine(rest)
    ensures var r := Block(t, body) + rest;
            UpsertedFirst(t, Some(r), body, preamble) == r <==> Free(rest, t.start)
  {
    hide Block, OccursAt, Inner, StartsLine, Next;
    var r := Block(t, body) + rest;
    assert "" + r == r;
    NothingIsFree(t.start);
    WrittenIsNext(t, "", body, rest);
    var o := Outside(t, rest, false);
    assert Outside(t, r, false) == "" + o == o;
    LinesStayFirst(t, rest);
    LinesAreSomething(o);
    OutsideIsShorter(t, rest, false);
    if Block(t, body) + o == r { Cancel(Block(t, body), o, rest); }
  }

  lemma LinesAreSomething(text: string)
    requires StartsLine(text)
    ensures text != ""
  {
  }

  /** No start tag is left, or made by joining what was apart, in the text after the block. */
  ghost predicate TidyNotes(t: Tags, existing: Option<string>, preamble: string)
    requires t.start != ""
  {
    Free(if existing.None? then preamble else Outside(t, existing.value, false), t.start)
  }

  /** What `upsert_first` puts behind the block. */
  function Behind(t: Tags, existing: Option<string>, preamble: string): string
    requires t.start != ""
  {
    if existing.None? then if preamble == "" then "\n" else "\n\n" + Trim(preamble) + "\n"
    else
      var notes := Outside(t, existing.value, false);
      if notes == "" then "\n" else if StartsLine(notes) then notes else "\n\n" + notes
  }

  lemma BehindIsFreeIff(t: Tags, existing: Option<string>, preamble: string)
    requires Proper(t)
    ensures StartsLine(Behind(t, existing, preamble))
    ensures Free(Behind(t, existing, preamble), t.start) <==> TidyNotes(t, existing, preamble)
  {
    hide OccursAt, Outside, Trim;
    FreeLines("", "\n", t.start);
    assert "" + "\n" == "\n";
    if existing.None? {
      TrimKeepsTags(preamble, t.start);
      FreeLines(Trim(preamble), "\n\n", t.start);
      FreeLines("\n\n" + Trim(preamble), "\n", t.start);
    } else {
      FreeLines(Outside(t, existing.value, false), "\n\n", t.start);
    }
  }

  /** `upsert_first` is idempotent exactly when neither the preamble nor cutting the owned spans leaves a start tag. */
  lemma UpsertFirstIsIdempotentIff(t: Tags, existing: Option<string>, body: string, preamble: string)
    requires Proper(t) && Free(body, t.end)
    ensures var r := UpsertedFirst(t, existing, body, preamble);
            UpsertedFirst(t, Some(r), body, preamble) == r <==> TidyNotes(t, existing, preamble)
  {
    hide Block, OccursAt, Inner, Outside, StartsLine, TidyNotes, Trim;
    BehindIsFreeIff(t, existing, preamble);
    FirstWrittenAgain(t, body, Behind(t, existing, preamble), preamble);
  }
}
