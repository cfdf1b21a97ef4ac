/**
 The `$stepId.path` reference syntax of workflow files: parsing, scanning, dependency collection and
 substitution of stored step results.
 */
module References {
  import opened Basics
  import opened Json

  type StepResults = map<string, Value>

  datatype Reference = Reference(stepId: string, path: seq<string>)

  datatype RefError =
    | BadStepId
    | EmptySegment
    | UnknownStep(stepId: string)
    | MissingSegment(segment: string)

  // ---------------------------------------------------------------------------
  // Syntax
  // ---------------------------------------------------------------------------

  predicate IsIdentStart(c: char) {
    'a' <= c <= 'z' || 'A' <= c <= 'Z' || c == '_'
  }

  predicate IsIdentChar(c: char) {
    IsIdentStart(c) || '0' <= c <= '9' || c == '-'
  }

  predicate ValidIdentifier(id: string) {
    && 1 <= |id| <= 64
    && IsIdentStart(id[0])
    && forall i | 1 <= i < |id| :: IsIdentChar(id[i])
  }

  /** The parts between dots; a text without dots is one part. */
  function SplitDots(s: string): (parts: seq<string>)
    ensures |parts| >= 1
  {
    if s == [] then [[]]
    else
      var rest := SplitDots(s[1..]);
      if s[0] == '.' then [[]] + rest else [[s[0]] + rest[0]] + rest[1..]
  }

  function JoinDots(parts: seq<string>): string
    requires |parts| >= 1
  {
    if |parts| == 1 then parts[0] else parts[0] + "." + JoinDots(parts[1..])
  }

  /** A text that is no reference parses to nothing; one that only begins like a reference is an error. */
  function ParseReference(text: string): Result<Option<Reference>, RefError> {
    if !("$" <= text) || "$$" <= text then Ok(None)
    else
      var parts := SplitDots(text[1..]);
      var stepId, path := parts[0], parts[1..];
      if stepId == [] || !IsIdentStart(stepId[0]) then Ok(None)
      else if !ValidIdentifier(stepId) then Err(BadStepId)
      else if [] in path then Err(EmptySegment)
      else Ok(Some(Reference(stepId, path)))
  }

  /** A reference a document can spell: the identifier is valid, segments are non-empty and dot-free. */
  ghost predicate Spellable(r: Reference) {
    && ValidIdentifier(r.stepId)
    && forall i | 0 <= i < |r.path| :: r.path[i] != [] && '.' !in r.path[i]
  }

  function Spell(r: Reference): string {
    "$" + JoinDots([r.stepId] + r.path)
  }

  lemma {:induction false} SplitInvertsJoin(parts: seq<string>)
    requires |parts| >= 1
    requires forall i | 0 <= i < |parts| :: '.' !in parts[i]
    ensures SplitDots(JoinDots(parts)) == parts
    decreases |parts|, |parts[0]|
  {
    var s := JoinDots(parts);
    if parts[0] == [] {
      if |parts| > 1 {
        SplitInvertsJoin(parts[1..]);
        assert s[1..] == JoinDots(parts[1..]);
      }
    } else {
      var shorter := [parts[0][1..]] + parts[1..];
      SplitInvertsJoin(shorter);
      assert shorter[1..] == parts[1..];
      assert s[0] == parts[0][0] && s[1..] == JoinDots(shorter);
      assert [s[0]] + parts[0][1..] == parts[0];
    }
  }

  lemma {:induction false} JoinInvertsSplit(s: string)
    ensures JoinDots(SplitDots(s)) == s
  {
    if s != [] {
      JoinInvertsSplit(s[1..]);
      var rest, parts := SplitDots(s[1..]), SplitDots(s);
      if s[0] == '.' {
        JoinEmpty(rest, parts);
        assert s == "." + s[1..];
      } else {
        assert parts[0] == [s[0]] + rest[0] && parts[1..] == rest[1..];
        assert s == [s[0]] + s[1..];
        JoinFirst(s[0], rest, parts);
      }
    }
  }

  lemma JoinEmpty(rest: seq<string>, parts: seq<string>)
    requires rest != [] && parts == [[]] + rest
    ensures JoinDots(parts) == "." + JoinDots(rest)
  {
    assert parts[0] == [] && parts[1..] == rest;
  }

  lemma JoinFirst(c: char, rest: seq<string>, parts: seq<string>)
    requires rest != [] && parts != [] && parts[0] == [c] + rest[0] && parts[1..] == rest[1..]
    ensures JoinDots(parts) == [c] + JoinDots(rest)
  {
  }

  lemma {:induction false} SplitLeavesNoDots(s: string)
    ensures forall i | 0 <= i < |SplitDots(s)| :: '.' !in SplitDots(s)[i]
  {
    if s != [] { SplitLeavesNoDots(s[1..]); }
  }

  /** Parsing is exactly the inverse of spelling: it accepts what a spellable reference spells, and only that. */
  lemma ParseIsInverseOfSpell(text: string, r: Reference)
    ensures ParseReference(text) == Ok(Some(r)) <==> Spellable(r) && text == Spell(r)
  {
    if Spellable(r) && text == Spell(r) {
      var parts := [r.stepId] + r.path;
      SplitInvertsJoin(parts);
      assert text[1..] == JoinDots(parts);
      assert r.stepId[0] == text[1];
      assert parts[1..] == r.path;
    }
    if ParseReference(text) == Ok(Some(r)) {
      JoinInvertsSplit(text[1..]);
      SplitLeavesNoDots(text[1..]);
      var parts := SplitDots(text[1..]);
      assert parts == [r.stepId] + r.path;
      assert text == "$" + text[1..];
    }
  }

  /** A text that begins like a reference: `$` and a character that can begin an identifier. */
  predicate LooksLikeReference(text: string) {
    |text| >= 2 && text[0] == '$' && IsIdentStart(text[1])
  }

  /** A dot that nothing follows before the next dot or the end. */
  predicate HasEmptySegment(s: string) {
    exists i | 0 <= i < |s| :: EmptyAfter(s, i)
  }

  predicate EmptyAfter(s: string, i: nat)
    requires i < |s|
  {
    s[i] == '.' && (i + 1 == |s| || s[i + 1] == '.')
  }

  /** Only a text that begins like a reference can be malformed; every other text is left alone. */
  lemma OtherTextsAreNotReferences(text: string)
    ensures ParseReference(text) == Ok(None) <==> !LooksLikeReference(text)
  {
    if |text| >= 2 && text[0] == '$' {
      FirstPartStarts(text[1..]);
      assert text[1..][0] == text[1];
    }
  }

  lemma FirstPartStarts(s: string)
    ensures SplitDots(s)[0] == [] <==> s == [] || s[0] == '.'
    ensures SplitDots(s)[0] != [] ==> SplitDots(s)[0][0] == s[0]
  {
  }

  /** Which error a text that begins like a reference gives: `id` is its part up to the first dot, `rest` the others. */
  lemma MalformedIff(text: string, id: string, rest: string)
    requires LooksLikeReference(text) && text == "$" + id + rest
    requires '.' !in id && (rest == [] || rest[0] == '.')
    ensures ParseReference(text) == Err(BadStepId) <==> !ValidIdentifier(id)
    ensures ParseReference(text) == Err(EmptySegment) <==> ValidIdentifier(id) && HasEmptySegment(rest)
  {
    assert text[1..] == id + rest && text[1..][0] == text[1];
    FirstPartStarts(text[1..]);
    FirstPart(id, rest);
    EmptyParts(rest);
  }

  lemma {:induction false} FirstPart(id: string, rest: string)
    requires '.' !in id && (rest == [] || rest[0] == '.')
    ensures SplitDots(id + rest)[0] == id && SplitDots(id + rest)[1..] == SplitDots(rest)[1..]
  {
    if id == [] {
      assert id + rest == rest;
    } else {
      assert (id + rest)[0] == id[0] && (id + rest)[1..] == id[1..] + rest;
      FirstPart(id[1..], rest);
      assert [id[0]] + id[1..] == id;
    }
  }

  lemma {:induction false} EmptyParts(s: string)
    ensures [] in SplitDots(s)[1..] <==> HasEmptySegment(s)
  {
    if s != [] {
      var t := s[1..];
      EmptyParts(t);
      FirstPartStarts(t);
      EmptySegmentTail(s);
      var parts := SplitDots(t);
      if s[0] == '.' {
        assert SplitDots(s)[1..] == parts && parts == [parts[0]] + parts[1..];
      } else {
        assert SplitDots(s)[1..] == parts[1..];
      }
    }
  }

  lemma EmptySegmentTail(s: string)
    requires s != []
    ensures HasEmptySegment(s) <==> EmptyAfter(s, 0) || HasEmptySegment(s[1..])
  {
    var t := s[1..];
    forall i | 0 <= i < |t|
      ensures EmptyAfter(t, i) <==> EmptyAfter(s, i + 1)
    {
    }
    if i :| 0 <= i < |s| && EmptyAfter(s, i) {
      if i > 0 { assert EmptyAfter(t, i - 1); }
    }
  }

  /** No valid identifier begins with `$`, so a step's id and group survive substitution. */
  lemma IdentifiersArePlain(id: string)
    requires ValidIdentifier(id)
    ensures !("$" <= id) && ParseReference(id) == Ok(None)
  {
  }

  // ---------------------------------------------------------------------------
  // Substitution
  // ---------------------------------------------------------------------------

  function Digits(s: string): Option<nat> {
    if s == [] then Some(0)
    else
      var last := s[|s| - 1];
      match Digits(s[..|s| - 1])
      case Some(n) => if '0' <= last <= '9' then Some(10 * n + (last as int - '0' as int)) else None
      case None => None
  }

  /** An array index: decimal digits, with or without a plus sign in front, that fit in 64 bits. */
  function ParseIndex(s: string): Option<nat> {
    var digits := if "+" <= s then s[1..] else s;
    if digits == [] then None
    else
      match Digits(digits)
      case Some(n) => if n < 0x1_0000_0000_0000_0000 then Some(n) else None
      case None => None
  }

  function Child(v: Value, segment: string): Option<Value> {
    match v
    case Obj(fields) => Get(fields, segment)
    case Arr(items) =>
      (match ParseIndex(segment)
       case Some(i) => if i < |items| then Some(items[i]) else None
       case None => None)
    case _ => None
  }

  function Walk(v: Value, path: seq<string>): Result<Value, RefError>
    decreases |path|
  {
    if path == [] then Ok(v)
    else
      match Child(v, path[0])
      case Some(child) => Walk(child, path[1..])
      case None => Err(MissingSegment(path[0]))
  }

  function Lookup(r: Reference, results: StepResults): Result<Value, RefError> {
    if r.stepId in results then Walk(results[r.stepId], r.path) else Err(UnknownStep(r.stepId))
  }

  /** What one string leaf becomes. */
  function ResolveText(text: string, results: StepResults): Result<Value, RefError> {
    if "$$" <= text then Ok(Str(text[1..]))
    else
      match ParseReference(text)
      case Err(e) => Err(e)
      case Ok(None) => Ok(Str(text))
      case Ok(Some(r)) => Lookup(r, results)
  }

  // Where a path leads, independently of how it is walked: through the entry each segment names.

  function Digit(d: nat): char
    requires d < 10
  {
    '0' + d as char
  }

  /** A number written in decimal, without leading zeros. */
  function Decimal(n: nat): (s: string)
    ensures s != []
  {
    if n < 10 then [Digit(n)] else Decimal(n / 10) + [Digit(n % 10)]
  }

  function Zeros(k: nat): string {
    seq(k, _ => '0')
  }

  /** The spellings of an index: its decimal form, after any zeros and an optional plus sign. */
  ghost predicate SpellsIndex(s: string, n: nat) {
    && n < 0x1_0000_0000_0000_0000
    && exists k: nat :: s == Zeros(k) + Decimal(n) || s == "+" + Zeros(k) + Decimal(n)
  }

  lemma {:induction false} DigitsOfDecimal(k: nat, n: nat)
    ensures Digits(Zeros(k) + Decimal(n)) == Some(n)
    decreases n
  {
    var s := Zeros(k) + Decimal(n);
    if n < 10 {
      assert s[..|s| - 1] == Zeros(k) && s[|s| - 1] == Digit(n);
      DigitsOfZeros(k);
    } else {
      assert s[..|s| - 1] == Zeros(k) + Decimal(n / 10) && s[|s| - 1] == Digit(n % 10);
      DigitsOfDecimal(k, n / 10);
    }
  }

  lemma {:induction false} DigitsOfZeros(k: nat)
    ensures Digits(Zeros(k)) == Some(0)
  {
    if k > 0 {
      DigitsOfZeros(k - 1);
      assert Zeros(k)[..k - 1] == Zeros(k - 1);
    }
  }

  lemma {:induction false} DigitsAreDecimal(s: string) returns (k: nat)
    requires s != [] && Digits(s).Some?
    ensures s == Zeros(k) + Decimal(Digits(s).value)
    decreases |s|
  {
    var t, c := s[..|s| - 1], s[|s| - 1];
    assert s == t + [c];
    k := 0;
    if t != [] {
      k := DigitsAreDecimal(t);
      if Digits(t) == Some(0) {
        assert Decimal(0) == "0" && Zeros(k) + "0" == Zeros(k + 1);
        k := k + 1;
      }
    }
  }

  lemma DecimalIsDigits(n: nat)
    ensures '0' <= Decimal(n)[0] <= '9'
  {
  }

  /** An index parses exactly from its spellings. */
  lemma ParseIndexInvertsSpelling(s: string, n: nat)
    ensures ParseIndex(s) == Some(n) <==> SpellsIndex(s, n)
  {
    hide ParseIndex;
    if ParseIndex(s) == Some(n) { ParsedIsSpelled(s, n); }
    if SpellsIndex(s, n) {
      var k: nat :| s == Zeros(k) + Decimal(n) || s == "+" + Zeros(k) + Decimal(n);
      SpelledParses(s, k, n);
    }
  }

  lemma ParsedIsSpelled(s: string, n: nat)
    requires ParseIndex(s) == Some(n)
    ensures SpellsIndex(s, n)
  {
    hide Digits, Decimal, Zeros;
    if "+" <= s {
      var k := DigitsAreDecimal(s[1..]);
      assert s == "+" + s[1..] && "+" + (Zeros(k) + Decimal(n)) == "+" + Zeros(k) + Decimal(n);
    } else {
      var k := DigitsAreDecimal(s);
    }
  }

  lemma SpelledParses(s: string, k: nat, n: nat)
    requires n < 0x1_0000_0000_0000_0000
    requires s == Zeros(k) + Decimal(n) || s == "+" + Zeros(k) + Decimal(n)
    ensures ParseIndex(s) == Some(n)
  {
    DigitsOfDecimal(k, n);
    DecimalIsDigits(n);
    hide Digits, Decimal;
    var digits := Zeros(k) + Decimal(n);
    assert digits[0] == if k > 0 then '0' else Decimal(n)[0];
    if s != digits {
      assert s == "+" + digits && s[0] == '+' && s[1..] == digits;
    }
  }

  /** Entry `i` of `v` is the one a segment names: the first entry with that key, or the item with that index. */
  ghost predicate NamesEntry(v: Value, segment: string, i: nat) {
    match v
    case Obj(fields) =>
      i < |fields| && fields[i].key == segment && forall j | 0 <= j < i :: fields[j].key != segment
    case Arr(items) => i < |items| && SpellsIndex(segment, i)
    case _ => false
  }

  lemma {:induction false} GetFindsFirst(fields: seq<Field>, key: string) returns (i: nat)
    ensures i <= |fields| && (forall j | 0 <= j < i :: fields[j].key != key)
    ensures i < |fields| ==> fields[i].key == key && Get(fields, key) == Some(fields[i].value)
    ensures i == |fields| ==> Get(fields, key) == None
  {
    i := 0;
    if fields != [] && fields[0].key != key {
      var rest := GetFindsFirst(fields[1..], key);
      i := rest + 1;
    }
  }

  /** A segment's child is the entry it names, and there is none exactly where it names no entry. */
  lemma ChildIsNamedEntry(v: Value, segment: string, i: nat)
    ensures NamesEntry(v, segment, i) ==> i < |Entries(v)| && Child(v, segment) == Some(Entries(v)[i])
    ensures Child(v, segment) == None <==> forall j: nat :: !NamesEntry(v, segment, j)
  {
    match v
    case Obj(fields) =>
      var k := GetFindsFirst(fields, segment);
      if NamesEntry(v, segment, i) { assert i == k; }
      if k < |fields| { assert NamesEntry(v, segment, k); }
    case Arr(items) =>
      ParseIndexInvertsSpelling(segment, i);
      forall j: nat
        ensures ParseIndex(segment) == Some(j) <==> SpellsIndex(segment, j)
      {
        ParseIndexInvertsSpelling(segment, j);
      }
      if Child(v, segment).Some? { assert NamesEntry(v, segment, ParseIndex(segment).value); }
    case _ =>
  }

  /** Following the entries the segments name, one after the other, from `v`. */
  ghost predicate LeadsTo(v: Value, path: seq<string>, p: Pointer)
    decreases |path|
  {
    if path == [] then p == []
    else p != [] && NamesEntry(v, path[0], p[0]) && LeadsTo(Entries(v)[p[0]], path[1..], p[1..])
  }

  /** A path leads to the value at the pointer its segments spell out. */
  lemma {:induction false} WalkFollowsEntries(v: Value, path: seq<string>, p: Pointer)
    requires LeadsTo(v, path, p)
    ensures At(v, p).Some? && Walk(v, path) == Ok(At(v, p).value)
    decreases |path|
  {
    if path != [] {
      ChildIsNamedEntry(v, path[0], p[0]);
      WalkFollowsEntries(Entries(v)[p[0]], path[1..], p[1..]);
    }
  }

  lemma {:induction false} WalkHasPointer(v: Value, path: seq<string>) returns (p: Pointer)
    requires Walk(v, path).Ok?
    ensures LeadsTo(v, path, p)
    decreases |path|
  {
    p := [];
    if path != [] {
      ChildIsNamedEntry(v, path[0], 0);
      var i: nat :| NamesEntry(v, path[0], i);
      ChildIsNamedEntry(v, path[0], i);
      var rest := WalkHasPointer(Entries(v)[i], path[1..]);
      p := [i] + rest;
      assert p[1..] == rest;
    }
  }

  /** A path finds a value exactly where the entries its segments name lead to it. */
  lemma WalkFindsIff(v: Value, path: seq<string>, x: Value)
    ensures Walk(v, path) == Ok(x) <==> exists p :: LeadsTo(v, path, p) && At(v, p) == Some(x)
  {
    if Walk(v, path).Ok? {
      var p := WalkHasPointer(v, path);
      WalkFollowsEntries(v, path, p);
    }
    if p :| LeadsTo(v, path, p) && At(v, p) == Some(x) {
      WalkFollowsEntries(v, path, p);
    }
  }

  /** Walking a path and then another is walking both. */
  lemma {:induction false} WalkAppend(v: Value, p: seq<string>, q: seq<string>)
    ensures Walk(v, p + q) == match Walk(v, p) case Ok(x) => Walk(x, q) case Err(e) => Err(e)
    decreases |p|
  {
    if p == [] {
      assert p + q == q;
    } else {
      assert (p + q)[0] == p[0] && (p + q)[1..] == p[1..] + q;
      if Child(v, p[0]).Some? { WalkAppend(Child(v, p[0]).value, p[1..], q); }
    }
  }

  /** The segments before `path[k]` lead to `p`, and `path[k]` names no entry there. */
  ghost predicate MissesAt(v: Value, path: seq<string>, k: nat, p: Pointer) {
    && k < |path| && LeadsTo(v, path[..k], p) && At(v, p).Some?
    && forall j: nat :: !NamesEntry(At(v, p).value, path[k], j)
  }

  lemma MissesFirst(v: Value, path: seq<string>)
    requires path != [] && forall j: nat :: !NamesEntry(v, path[0], j)
    ensures MissesAt(v, path, 0, [])
  {
    hide NamesEntry;
    assert path[..0] == [];
  }

  lemma MissesBelow(v: Value, path: seq<string>, i: nat, k: nat, p: Pointer)
    requires path != [] && i < |Entries(v)| && NamesEntry(v, path[0], i) && MissesAt(Entries(v)[i], path[1..], k, p)
    ensures MissesAt(v, path, k + 1, [i] + p)
  {
    hide NamesEntry, Entries;
    assert ([i] + p)[1..] == p && path[..k + 1][1..] == path[1..][..k] && path[k + 1] == path[1..][k];
  }

  lemma {:induction false} WalkMisses(v: Value, path: seq<string>) returns (k: nat, p: Pointer)
    requires Walk(v, path).Err?
    ensures k < |path| && MissesAt(v, path, k, p) && Walk(v, path) == Err(MissingSegment(path[k]))
    decreases |path|
  {
    hide NamesEntry, Child, MissesAt;
    ChildIsNamedEntry(v, path[0], 0);
    if Child(v, path[0]).None? {
      k, p := 0, [];
      MissesFirst(v, path);
    } else {
      var i: nat :| NamesEntry(v, path[0], i);
      ChildIsNamedEntry(v, path[0], i);
      var k', p' := WalkMisses(Entries(v)[i], path[1..]);
      MissesBelow(v, path, i, k', p');
      k, p := k' + 1, [i] + p';
    }
  }

  /** A path fails exactly at a segment that names no entry of what the segments before it lead to. */
  lemma WalkMissesIff(v: Value, path: seq<string>, segment: string)
    ensures Walk(v, path) == Err(MissingSegment(segment)) <==>
            exists k: nat, p :: MissesAt(v, path, k, p) && segment == path[k]
  {
    if Walk(v, path).Err? { var k, p := WalkMisses(v, path); }
    if k: nat, p :| MissesAt(v, path, k, p) && segment == path[k] {
      assert path == path[..k] + path[k..];
      WalkAppend(v, path[..k], path[k..]);
      WalkFollowsEntries(v, path[..k], p);
      ChildIsNamedEntry(At(v, p).value, path[k], 0);
    }
  }

  /** An index in decimal picks that item, and a key the field that has it. */
  lemma OneSegment(items: seq<Value>, fields: seq<Field>, i: nat)
    ensures i < |items| && i < 0x1_0000_0000_0000_0000 ==> Walk(Arr(items), [Decimal(i)]) == Ok(items[i])
    ensures i < |fields| && (forall j | 0 <= j < i :: fields[j].key != fields[i].key) ==>
              Walk(Obj(fields), [fields[i].key]) == Ok(fields[i].value)
  {
    assert Zeros(0) + Decimal(i) == Decimal(i);
    if i < |items| && i < 0x1_0000_0000_0000_0000 {
      assert NamesEntry(Arr(items), Decimal(i), i);
      assert LeadsTo(Arr(items), [Decimal(i)], [i]);
      WalkFollowsEntries(Arr(items), [Decimal(i)], [i]);
      assert At(Arr(items), [i]) == Some(items[i]);
    }
    if i < |fields| && forall j | 0 <= j < i :: fields[j].key != fields[i].key {
      assert LeadsTo(Obj(fields), [fields[i].key], [i]);
      WalkFollowsEntries(Obj(fields), [fields[i].key], [i]);
      assert At(Obj(fields), [i]) == Some(fields[i].value);
    }
  }

  /** The value at pointer `q` of the result of the step a text refers to is what the text stands for. */
  ghost predicate StandsFor(text: string, results: StepResults, r: Reference, q: Pointer) {
    && Spellable(r) && text == Spell(r)
    && r.stepId in results && LeadsTo(results[r.stepId], r.path, q)
  }

  /**
   What a string leaf becomes: a doubled `$` loses one, a text that does not begin like a reference stays, and a
   reference becomes the stored value its path leads to.
   */
  lemma TextBecomesIff(text: string, results: StepResults, x: Value)
    ensures ResolveText(text, results) == Ok(x) <==>
            || ("$$" <= text && x == Str(text[1..]))
            || (!("$$" <= text) && !LooksLikeReference(text) && x == Str(text))
            || exists r, q :: StandsFor(text, results, r, q) && At(results[r.stepId], q) == Some(x)
  {
    OtherTextsAreNotReferences(text);
    var parsed := ParseReference(text);
    hide ParseReference;
    if parsed.Ok? && parsed.value.Some? {
      var r := parsed.value.value;
      ParseIsInverseOfSpell(text, r);
      if r.stepId in results {
        WalkFindsIff(results[r.stepId], r.path, x);
        if ResolveText(text, results) == Ok(x) {
          var q :| LeadsTo(results[r.stepId], r.path, q) && At(results[r.stepId], q) == Some(x);
          assert StandsFor(text, results, r, q);
        }
      }
    }
    if r, q :| StandsFor(text, results, r, q) && At(results[r.stepId], q) == Some(x) {
      ParseIsInverseOfSpell(text, r);
      WalkFollowsEntries(results[r.stepId], r.path, q);
      SpelledLooksLike(r);
    }
  }

  /** How a reference fails: its step has no result, or a segment names nothing where the ones before it lead. */
  lemma ReferenceFailsIff(r: Reference, results: StepResults, segment: string)
    requires Spellable(r)
    ensures ResolveText(Spell(r), results) == Err(UnknownStep(r.stepId)) <==> r.stepId !in results
    ensures ResolveText(Spell(r), results) == Err(MissingSegment(segment)) <==>
            && r.stepId in results
            && exists k: nat, p :: MissesAt(results[r.stepId], r.path, k, p) && segment == r.path[k]
  {
    SpelledLooksLike(r);
    ParseIsInverseOfSpell(Spell(r), r);
    if r.stepId in results {
      WalkMissesIff(results[r.stepId], r.path, segment);
      if Walk(results[r.stepId], r.path).Err? { var k, p := WalkMisses(results[r.stepId], r.path); }
    }
  }

  lemma SpelledLooksLike(r: Reference)
    requires Spellable(r)
    ensures LooksLikeReference(Spell(r)) && !("$$" <= Spell(r))
  {
    assert Spell(r)[1] == r.stepId[0];
  }

  function ResolveReferences(v: Value, results: StepResults): Result<Value, RefError> {
    match v
    case Str(text) => ResolveText(text, results)
    case Arr(items) =>
      (match ResolveItems(items, results)
       case Ok(resolved) => Ok(Arr(resolved))
       case Err(e) => Err(e))
    case Obj(fields) =>
      (match ResolveFields(fields, results)
       case Ok(resolved) => Ok(Obj(resolved))
       case Err(e) => Err(e))
    case _ => Ok(v)
  }

  function ResolveItems(items: seq<Value>, results: StepResults): Result<seq<Value>, RefError> {
    if items == [] then Ok([])
    else
      match ResolveReferences(items[0], results)
      case Err(e) => Err(e)
      case Ok(first) =>
        match ResolveItems(items[1..], results)
        case Err(e) => Err(e)
        case Ok(rest) => Ok([first] + rest)
  }

  function ResolveFields(fields: seq<Field>, results: StepResults): Result<seq<Field>, RefError> {
    if fields == [] then Ok([])
    else
      match ResolveReferences(fields[0].value, results)
      case Err(e) => Err(e)
      case Ok(first) =>
        match ResolveFields(fields[1..], results)
        case Err(e) => Err(e)
        case Ok(rest) => Ok([Field(fields[0].key, first)] + rest)
  }

  lemma {:induction false} ItemsPointwise(items: seq<Value>, results: StepResults)
    ensures var r := ResolveItems(items, results);
            && (r.Ok? ==>
                  && |r.value| == |items|
                  && forall i | 0 <= i < |items| :: ResolveReferences(items[i], results) == Ok(r.value[i]))
            && (r.Err? ==> exists i | 0 <= i < |items| :: ResolveReferences(items[i], results) == Err(r.error))
  {
    if items != [] {
      ItemsPointwise(items[1..], results);
      assert forall i | 1 <= i < |items| :: items[i] == items[1..][i - 1];
      assert forall i | 0 <= i < |items| - 1 :: items[1..][i] == items[i + 1];
    }
  }

  lemma {:induction false} FieldsPointwise(fields: seq<Field>, results: StepResults)
    ensures var r := ResolveFields(fields, results);
            && (r.Ok? ==>
                  && |r.value| == |fields|
                  && forall i | 0 <= i < |fields| ::
                       && r.value[i].key == fields[i].key
                       && ResolveReferences(fields[i].value, results) == Ok(r.value[i].value))
            && (r.Err? ==> exists i | 0 <= i < |fields| :: ResolveReferences(fields[i].value, results) == Err(r.error))
  {
    if fields != [] {
      FieldsPointwise(fields[1..], results);
      assert forall i | 1 <= i < |fields| :: fields[i] == fields[1..][i - 1];
      assert forall i | 0 <= i < |fields| - 1 :: fields[1..][i] == fields[i + 1];
    }
  }

  /** One level of substitution, arrays and objects alike. */
  lemma EntriesPointwise(v: Value, results: StepResults)
    requires v.Arr? || v.Obj?
    ensures var r := ResolveReferences(v, results);
            && (r.Ok? ==>
                  && |Entries(r.value)| == |Entries(v)|
                  && forall i | 0 <= i < |Entries(v)| ::
                       ResolveReferences(Entries(v)[i], results) == Ok(Entries(r.value)[i]))
            && (r.Err? ==> exists i | 0 <= i < |Entries(v)| ::
                              ResolveReferences(Entries(v)[i], results) == Err(r.error))
  {
    var r := ResolveReferences(v, results);
    if v.Arr? {
      ItemsPointwise(v.items, results);
      if r.Err? {
        var i :| 0 <= i < |v.items| && ResolveReferences(v.items[i], results) == Err(r.error);
        assert ResolveReferences(Entries(v)[i], results) == Err(r.error);
      }
    } else {
      FieldsPointwise(v.fields, results);
      if r.Err? {
        var i :| 0 <= i < |v.fields| && ResolveReferences(v.fields[i].value, results) == Err(r.error);
        assert ResolveReferences(Entries(v)[i], results) == Err(r.error);
      }
    }
  }

  /** The shape a node keeps: containers keep length and keys, scalars stay, string leaves are substituted. */
  ghost predicate Substituted(before: Value, after: Value, results: StepResults) {
    match before
    case Str(text) => ResolveText(text, results) == Ok(after)
    case Arr(items) => after.Arr? && |after.items| == |items|
    case Obj(fields) =>
      && after.Obj? && |after.fields| == |fields|
      && forall i | 0 <= i < |fields| :: after.fields[i].key == fields[i].key
    case _ => after == before
  }

  /** Every node of the document keeps its place, and only string leaves change. */
  lemma {:induction false} ResolutionKeepsShape(v: Value, results: StepResults, p: Pointer)
    requires ResolveReferences(v, results).Ok?
    requires At(v, p).Some?
    ensures var r := ResolveReferences(v, results).value;
            At(r, p).Some? && Substituted(At(v, p).value, At(r, p).value, results)
    decreases |p|
  {
    if p == [] {
      if v.Obj? { FieldsPointwise(v.fields, results); }
      if v.Arr? { ItemsPointwise(v.items, results); }
    } else {
      EntriesPointwise(v, results);
      ResolutionKeepsShape(Entries(v)[p[0]], results, p[1..]);
    }
  }

  /** Every reference leaf becomes the stored value it stands for. */
  lemma ReferencesAreReplaced(v: Value, results: StepResults, p: Pointer, r: Reference, q: Pointer)
    requires ResolveReferences(v, results).Ok? && At(v, p).Some? && At(v, p).value.Str?
    requires StandsFor(At(v, p).value.text, results, r, q)
    ensures At(results[r.stepId], q).Some?
    ensures At(ResolveReferences(v, results).value, p) == At(results[r.stepId], q)
  {
    ResolutionKeepsShape(v, results, p);
    WalkFollowsEntries(results[r.stepId], r.path, q);
    TextBecomesIff(At(v, p).value.text, results, At(results[r.stepId], q).value);
  }

  /**
   Nothing else appears: a position of the result is a position of the document, or lies inside the value
   inserted at one of its reference leaves. That value stands in the result of the step the leaf names, where the
   leaf's path leads, and is copied as it is, never scanned again.
   */
  lemma {:induction false} ResolutionInsertsVerbatim(v: Value, results: StepResults, p: Pointer)
    requires ResolveReferences(v, results).Ok?
    requires At(ResolveReferences(v, results).value, p).Some?
    ensures At(v, p).Some? || exists k, r, q | 0 <= k < |p| :: InsertedAt(v, results, p, k, r, q)
    decreases |p|
  {
    var x := ResolveReferences(v, results).value;
    if p != [] {
      if v.Str? {
        TextBecomesIff(v.text, results, x);
        var r, q :| StandsFor(v.text, results, r, q) && At(results[r.stepId], q) == Some(x);
        InsertedHere(v, results, p, r, q);
      } else if v.Arr? || v.Obj? {
        EntriesPointwise(v, results);
        var child, rest := Entries(v)[p[0]], p[1..];
        ResolutionInsertsVerbatim(child, results, rest);
        if At(child, rest).None? {
          var k, r, q :| 0 <= k < |rest| && InsertedAt(child, results, rest, k, r, q);
          InsertedBelow(v, results, p, k, r, q);
        }
      }
    }
  }

  lemma {:induction false} AtAppend(v: Value, p: Pointer, q: Pointer)
    requires At(v, p).Some?
    ensures At(v, p + q) == At(At(v, p).value, q)
    decreases |p|
  {
    if p == [] {
      assert p + q == q;
    } else {
      assert (p + q)[0] == p[0] && (p + q)[1..] == p[1..] + q;
      AtAppend(Entries(v)[p[0]], p[1..], q);
    }
  }

  lemma InsertedHere(v: Value, results: StepResults, p: Pointer, r: Reference, q: Pointer)
    requires ResolveReferences(v, results).Ok? && At(ResolveReferences(v, results).value, p).Some?
    requires v.Str? && StandsFor(v.text, results, r, q)
    requires At(results[r.stepId], q) == Some(ResolveReferences(v, results).value)
    ensures InsertedAt(v, results, p, 0, r, q)
  {
    assert p[..0] == [] && p[0..] == p;
    AtAppend(results[r.stepId], q, p);
  }

  lemma InsertedBelow(v: Value, results: StepResults, p: Pointer, k: nat, r: Reference, q: Pointer)
    requires p != [] && k < |p| && p[0] < |Entries(v)| && ResolveReferences(v, results).Ok?
    requires (v.Arr? || v.Obj?) && InsertedAt(Entries(v)[p[0]], results, p[1..], k, r, q)
    ensures InsertedAt(v, results, p, k + 1, r, q)
  {
    EntriesPointwise(v, results);
    assert p[..k + 1][0] == p[0] && p[..k + 1][1..] == p[1..][..k] && p[k + 1..] == p[1..][k..];
    assert At(v, p[..k + 1]) == At(Entries(v)[p[0]], p[1..][..k]);
  }

  /**
   Position `p` of the result lies inside what stands for the reference leaf at `p[..k]`: the value at `q` of the
   result of the step it names.
   */
  ghost predicate InsertedAt(v: Value, results: StepResults, p: Pointer, k: nat, r: Reference, q: Pointer)
    requires k <= |p|
  {
    && At(v, p[..k]).Some? && At(v, p[..k]).value.Str?
    && StandsFor(At(v, p[..k]).value.text, results, r, q)
    && ResolveReferences(v, results).Ok?
    && At(results[r.stepId], q + p[k..]).Some?
    && At(ResolveReferences(v, results).value, p) == At(results[r.stepId], q + p[k..])
  }

  /** Substitution fails exactly when some string leaf of the document does not resolve. */
  lemma {:induction false} ResolutionFailsAtALeaf(v: Value, results: StepResults)
    ensures ResolveReferences(v, results).Err? <==> exists p :: FailingLeaf(v, results, p)
    ensures ResolveReferences(v, results).Err? ==>
              exists p ::
                && FailingLeaf(v, results, p)
                && ResolveText(At(v, p).value.text, results) == Err(ResolveReferences(v, results).error)
    decreases v
  {
    if v.Str? {
      if ResolveReferences(v, results).Err? { assert FailingLeaf(v, results, []); }
    } else if v.Arr? || v.Obj? {
      EntriesPointwise(v, results);
      var r := ResolveReferences(v, results);
      hide ResolveText, ResolveReferences;
      if r.Err? {
        var i :| 0 <= i < |Entries(v)| && ResolveReferences(Entries(v)[i], results) == Err(r.error);
        EntryIsSmaller(v, i);
        ResolutionFailsAtALeaf(Entries(v)[i], results);
        var p :| && FailingLeaf(Entries(v)[i], results, p)
                 && ResolveText(At(Entries(v)[i], p).value.text, results) == Err(r.error);
        LeafBelow(v, i, p);
        assert FailingLeaf(v, results, [i] + p);
      }
      forall p | FailingLeaf(v, results, p)
        ensures r.Err?
      {
        EntryIsSmaller(v, p[0]);
        ResolutionFailsAtALeaf(Entries(v)[p[0]], results);
        assert FailingLeaf(Entries(v)[p[0]], results, p[1..]);
      }
    }
  }

  lemma LeafBelow(v: Value, i: nat, p: Pointer)
    requires i < |Entries(v)|
    ensures At(v, [i] + p) == At(Entries(v)[i], p)
  {
    assert ([i] + p)[0] == i && ([i] + p)[1..] == p;
  }

  ghost predicate FailingLeaf(v: Value, results: StepResults, p: Pointer) {
    At(v, p).Some? && At(v, p).value.Str? && ResolveText(At(v, p).value.text, results).Err?
  }

  lemma EntryIsSmaller(v: Value, i: nat)
    requires i < |Entries(v)|
    ensures Entries(v)[i] < v
  {
    if v.Obj? { assert v.fields[i] < v; }
  }

  // ---------------------------------------------------------------------------
  // Escaping
  // ---------------------------------------------------------------------------

  /** Prefixes `$` to every string that starts with `$`. */
  function Escape(v: Value): Value {
    match v
    case Str(text) => if "$" <= text then Str("$" + text) else v
    case Arr(items) => Arr(EscapeItems(items))
    case Obj(fields) => Obj(EscapeFields(fields))
    case _ => v
  }

  function EscapeItems(items: seq<Value>): seq<Value> {
    if items == [] then [] else [Escape(items[0])] + EscapeItems(items[1..])
  }

  function EscapeFields(fields: seq<Field>): seq<Field> {
    if fields == [] then [] else [Field(fields[0].key, Escape(fields[0].value))] + EscapeFields(fields[1..])
  }

  /** Escaped data is inert: whatever the results, substitution gives back the original value. */
  lemma {:induction false} EscapingIsUndone(v: Value, results: StepResults)
    ensures ResolveReferences(Escape(v), results) == Ok(v)
    decreases v, 0
  {
    match v
    case Str(text) =>
      if "$" <= text {
        var escaped := "$" + text;
        assert escaped[0] == '$' && escaped[1] == '$';
        assert escaped[1..] == text;
      }
    case Arr(items) => EscapingItemsIsUndone(items, results);
    case Obj(fields) => EscapingFieldsIsUndone(fields, results);
    case _ =>
  }

  lemma {:induction false} EscapingItemsIsUndone(items: seq<Value>, results: StepResults)
    ensures ResolveItems(EscapeItems(items), results) == Ok(items)
    decreases items
  {
    if items != [] {
      EscapingIsUndone(items[0], results);
      EscapingItemsIsUndone(items[1..], results);
      assert EscapeItems(items)[1..] == EscapeItems(items[1..]);
      assert [items[0]] + items[1..] == items;
    }
  }

  lemma {:induction false} EscapingFieldsIsUndone(fields: seq<Field>, results: StepResults)
    ensures ResolveFields(EscapeFields(fields), results) == Ok(fields)
    decreases fields
  {
    if fields != [] {
      EscapingIsUndone(fields[0].value, results);
      EscapingFieldsIsUndone(fields[1..], results);
      assert EscapeFields(fields)[1..] == EscapeFields(fields[1..]);
      assert [fields[0]] + fields[1..] == fields;
    }
  }

  // ---------------------------------------------------------------------------
  // Scanning
  // ---------------------------------------------------------------------------

  /** The string leaf at `p` is a reference to step `id`. */
  ghost predicate NamesStep(v: Value, p: Pointer, id: string) {
    && At(v, p).Some? && At(v, p).value.Str?
    && var parsed := ParseReference(At(v, p).value.text);
       parsed.Ok? && parsed.value.Some? && parsed.value.value.stepId == id
  }

  ghost predicate MalformedLeaf(v: Value, p: Pointer) {
    At(v, p).Some? && At(v, p).value.Str? && ParseReference(At(v, p).value.text).Err?
  }

  datatype Found = Found(at: Pointer, stepId: string)

  /** `found` holds exactly the references of the document `v` located at `location`. */
  ghost predicate AllFound(v: Value, location: Pointer, found: set<Found>) {
    && (forall x | x in found :: location <= x.at && NamesStep(v, x.at[|location|..], x.stepId))
    && (forall p, id | NamesStep(v, p, id) :: Found(location + p, id) in found)
  }

  /** `malformed` holds exactly the malformed references of the document `v` located at `location`. */
  ghost predicate AllMalformed(v: Value, location: Pointer, malformed: set<Pointer>) {
    && (forall x | x in malformed :: location <= x && MalformedLeaf(v, x[|location|..]))
    && (forall p | MalformedLeaf(v, p) :: location + p in malformed)
  }

  ghost predicate FoundAmong(v: Value, n: nat, location: Pointer, found: set<Found>) {
    && (forall x | x in found ::
          location < x.at && x.at[|location|] < n && NamesStep(v, x.at[|location|..], x.stepId))
    && (forall p, id | p != [] && p[0] < n && NamesStep(v, p, id) :: Found(location + p, id) in found)
  }

  ghost predicate MalformedAmong(v: Value, n: nat, location: Pointer, malformed: set<Pointer>) {
    && (forall x | x in malformed :: location < x && x[|location|] < n && MalformedLeaf(v, x[|location|..]))
    && (forall p | p != [] && p[0] < n && MalformedLeaf(v, p) :: location + p in malformed)
  }

  /** A pointer below entry `n` of the document at `location`, seen from the document and from the entry. */
  lemma BelowEntry(v: Value, n: nat, location: Pointer, x: Pointer)
    requires n < |Entries(v)| && location + [n] <= x
    ensures location < x && x[|location|] == n
    ensures At(v, x[|location|..]) == At(Entries(v)[n], x[|location| + 1..])
  {
    assert x[|location|] == (location + [n])[|location|];
    assert x[|location|..][1..] == x[|location| + 1..];
  }

  lemma FoundNext(v: Value, n: nat, location: Pointer, found: set<Found>, found': set<Found>)
    requires n < |Entries(v)|
    requires FoundAmong(v, n, location, found)
    requires AllFound(Entries(v)[n], location + [n], found')
    ensures FoundAmong(v, n + 1, location, found + found')
  {
    hide ParseReference;
    forall x | x in found'
      ensures location < x.at && x.at[|location|] == n && NamesStep(v, x.at[|location|..], x.stepId)
    {
      BelowEntry(v, n, location, x.at);
    }
    forall p, id | p != [] && p[0] < n + 1 && NamesStep(v, p, id)
      ensures Found(location + p, id) in found + found'
    {
      if p[0] == n {
        assert NamesStep(Entries(v)[n], p[1..], id);
        assert location + p == location + [n] + p[1..];
      }
    }
  }

  lemma MalformedNext(v: Value, n: nat, location: Pointer, malformed: set<Pointer>, malformed': set<Pointer>)
    requires n < |Entries(v)|
    requires MalformedAmong(v, n, location, malformed)
    requires AllMalformed(Entries(v)[n], location + [n], malformed')
    ensures MalformedAmong(v, n + 1, location, malformed + malformed')
  {
    hide ParseReference;
    forall x | x in malformed'
      ensures location < x && x[|location|] == n && MalformedLeaf(v, x[|location|..])
    {
      BelowEntry(v, n, location, x);
    }
    forall p | p != [] && p[0] < n + 1 && MalformedLeaf(v, p)
      ensures location + p in malformed + malformed'
    {
      if p[0] == n {
        assert MalformedLeaf(Entries(v)[n], p[1..]);
        assert location + p == location + [n] + p[1..];
      }
    }
  }

  ghost function Elements<T(!new)>(s: seq<T>): set<T> {
    set x | x in s
  }

  /** Appends every reference and every malformed leaf of `v`, located under `location`. */
  method ScanReferences(v: Value, location: Pointer, references: seq<Found>, issues: seq<Pointer>)
    returns (references': seq<Found>, issues': seq<Pointer>)
    ensures references <= references' && issues <= issues'
    ensures AllFound(v, location, Elements(references'[|references|..]))
    ensures AllMalformed(v, location, Elements(issues'[|issues|..]))
    decreases v
  {
    references', issues' := references, issues;
    match v
    case Str(text) =>
      if !("$$" <= text) {
        match ParseReference(text)
        case Ok(Some(r)) =>
          references' := references + [Found(location, r.stepId)];
        case Ok(None) =>
        case Err(_) =>
          issues' := issues + [location];
      }
      assert At(v, []) == Some(v) && location + [] == location && location[|location|..] == [];
      assert forall p: Pointer | At(v, p).Some? :: p == [];
    case Arr(_) =>
      references', issues' := ScanEntries(v, location, references, issues);
    case Obj(_) =>
      references', issues' := ScanEntries(v, location, references, issues);
    case _ =>
      assert Elements(references'[|references|..]) == {} && Elements(issues'[|issues|..]) == {};
  }

  method ScanEntries(v: Value, location: Pointer, references: seq<Found>, issues: seq<Pointer>)
    returns (references': seq<Found>, issues': seq<Pointer>)
    requires v.Arr? || v.Obj?
    ensures references <= references' && issues <= issues'
    ensures AllFound(v, location, Elements(references'[|references|..]))
    ensures AllMalformed(v, location, Elements(issues'[|issues|..]))
    decreases v, 0
  {
    NothingFoundYet(v, location);
    hide FoundAmong, MalformedAmong, AllFound, AllMalformed;
    references', issues' := references, issues;
    assert Elements(references'[|references|..]) == {} && Elements(issues'[|issues|..]) == {};
    for i := 0 to |Entries(v)|
      invariant references <= references' && issues <= issues'
      invariant FoundAmong(v, i, location, Elements(references'[|references|..]))
      invariant MalformedAmong(v, i, location, Elements(issues'[|issues|..]))
    {
      EntryIsSmaller(v, i);
      ghost var before, before' := references'[|references|..], issues'[|issues|..];
      var more, more' := ScanReferences(Entries(v)[i], location + [i], references', issues');
      ghost var added, added' := more[|references'|..], more'[|issues'|..];
      FoundNext(v, i, location, Elements(before), Elements(added));
      MalformedNext(v, i, location, Elements(before'), Elements(added'));
      AddedElements(references, references', more);
      AddedElements(issues, issues', more');
      references', issues' := more, more';
    }
    EverythingFound(v, location, Elements(references'[|references|..]), Elements(issues'[|issues|..]));
  }

  lemma AddedElements<T(!new)>(a: seq<T>, b: seq<T>, c: seq<T>)
    requires a <= b <= c
    ensures a <= c && Elements(c[|a|..]) == Elements(b[|a|..]) + Elements(c[|b|..])
  {
    assert c[|a|..] == b[|a|..] + c[|b|..];
  }

  lemma NothingFoundYet(v: Value, location: Pointer)
    ensures FoundAmong(v, 0, location, {}) && MalformedAmong(v, 0, location, {})
  {
  }

  lemma EverythingFound(v: Value, location: Pointer, found: set<Found>, malformed: set<Pointer>)
    requires v.Arr? || v.Obj?
    requires FoundAmong(v, |Entries(v)|, location, found) && MalformedAmong(v, |Entries(v)|, location, malformed)
    ensures AllFound(v, location, found) && AllMalformed(v, location, malformed)
  {
    hide ParseReference;
    assert forall p, id | NamesStep(v, p, id) :: p != [] && p[0] < |Entries(v)|;
    assert forall p | MalformedLeaf(v, p) :: p != [] && p[0] < |Entries(v)|;
  }

  ghost predicate DependsOn(v: Value, id: string) {
    exists p :: NamesStep(v, p, id)
  }

  /** The step a text names, as a list of none or one. */
  function NamedBy(text: string): seq<string> {
    if "$$" <= text then []
    else match ParseReference(text) case Ok(Some(r)) => [r.stepId] case _ => []
  }

  /** The step ids a document names, in document order, as often as they are named. */
  function Named(v: Value): seq<string>
    decreases v, |Entries(v)| + 1
  {
    if v.Str? then NamedBy(v.text) else NamedAmong(v, |Entries(v)|)
  }

  /** Those named in the first `n` entries. */
  function NamedAmong(v: Value, n: nat): seq<string>
    requires n <= |Entries(v)|
    decreases v, n
  {
    if n == 0 then []
    else
      EntryIsSmaller(v, n - 1);
      NamedAmong(v, n - 1) + Named(Entries(v)[n - 1])
  }

  lemma {:induction false} NamedAreDependencies(v: Value, id: string)
    ensures id in Named(v) <==> DependsOn(v, id)
    decreases v, |Entries(v)| + 1
  {
    if v.Str? {
      assert DependsOn(v, id) <==> NamesStep(v, [], id);
    } else {
      NamedAmongAreDependencies(v, |Entries(v)|, id);
      if DependsOn(v, id) {
        var p :| NamesStep(v, p, id);
        assert p != [] && p[0] < |Entries(v)|;
        assert NamesStep(Entries(v)[p[0]], p[1..], id);
        assert DependsOn(Entries(v)[p[0]], id);
      }
    }
  }

  lemma DependsBelow(v: Value, i: nat, id: string)
    requires i < |Entries(v)| && DependsOn(Entries(v)[i], id)
    ensures DependsOn(v, id)
  {
    var entry := Entries(v)[i];
    var p :| NamesStep(entry, p, id);
    assert ([i] + p)[1..] == p;
    assert NamesStep(v, [i] + p, id);
  }

  lemma {:induction false} NamedAmongAreDependencies(v: Value, n: nat, id: string)
    requires n <= |Entries(v)|
    ensures id in NamedAmong(v, n) <==> exists i | 0 <= i < n :: DependsOn(Entries(v)[i], id)
    ensures id in NamedAmong(v, n) ==> DependsOn(v, id)
    decreases v, n
  {
    if n > 0 {
      hide DependsOn, NamesStep;
      EntryIsSmaller(v, n - 1);
      NamedAmongAreDependencies(v, n - 1, id);
      NamedAreDependencies(Entries(v)[n - 1], id);
      if DependsOn(Entries(v)[n - 1], id) { DependsBelow(v, n - 1, id); }
    }
  }

  /** `ordered` with those of `ids` appended that are not there yet. */
  function WithNew(ordered: seq<string>, ids: seq<string>): seq<string> {
    if ids == [] then ordered
    else
      var n := |ids| - 1;
      var r := WithNew(ordered, ids[..n]);
      if ids[n] in r then r else r + [ids[n]]
  }

  lemma {:induction false} WithNewAppend(ordered: seq<string>, a: seq<string>, b: seq<string>)
    ensures WithNew(ordered, a + b) == WithNew(WithNew(ordered, a), b)
    decreases |b|
  {
    if b == [] {
      assert a + b == a;
    } else {
      var n := |b| - 1;
      assert (a + b)[..|a| + n] == a + b[..n];
      WithNewAppend(ordered, a, b[..n]);
    }
  }

  /** `x` is in the list before `y` is. */
  ghost predicate Precedes(all: seq<string>, x: string, y: string) {
    exists k | 0 <= k < |all| :: all[k] == x && y !in all[..k + 1]
  }

  /** The distinct elements of `all`, ordered by where they are first seen. */
  ghost predicate FirstSeen(r: seq<string>, all: seq<string>) {
    && NoDuplicates(r)
    && (forall x :: x in r <==> x in all)
    && (forall i, j | 0 <= i < j < |r| :: Precedes(all, r[i], r[j]))
  }

  lemma PrecedesStays(all: seq<string>, x: string, y: string, z: string)
    ensures Precedes(all, x, y) ==> Precedes(all + [z], x, y)
    ensures x in all && z !in all ==> Precedes(all + [z], x, z)
  {
    if Precedes(all, x, y) {
      var k :| 0 <= k < |all| && all[k] == x && y !in all[..k + 1];
      assert (all + [z])[k] == x && (all + [z])[..k + 1] == all[..k + 1];
    }
    if x in all && z !in all {
      var k :| 0 <= k < |all| && all[k] == x;
      assert (all + [z])[k] == x && (all + [z])[..k + 1] == all[..k + 1];
    }
  }

  lemma FirstSeenNext(r: seq<string>, all: seq<string>, z: string)
    requires FirstSeen(r, all)
    ensures FirstSeen(if z in r then r else r + [z], all + [z])
  {
    var r' := if z in r then r else r + [z];
    forall i, j | 0 <= i < j < |r'|
      ensures Precedes(all + [z], r'[i], r'[j])
    {
      if j < |r| { assert Precedes(all, r[i], r[j]); }
      assert r[i] in r;
      PrecedesStays(all, r'[i], r'[j], z);
    }
  }

  lemma DistinctIsFirstSeen(ordered: seq<string>)
    requires NoDuplicates(ordered)
    ensures FirstSeen(ordered, ordered)
  {
    forall i, j | 0 <= i < j < |ordered|
      ensures Precedes(ordered, ordered[i], ordered[j])
    {
      assert ordered[j] !in ordered[..i + 1];
    }
  }

  lemma {:induction false} WithNewIsFirstSeen(ordered: seq<string>, ids: seq<string>)
    requires NoDuplicates(ordered)
    ensures FirstSeen(WithNew(ordered, ids), ordered + ids)
    decreases |ids|
  {
    hide FirstSeen, NoDuplicates;
    if ids == [] {
      assert ordered + ids == ordered;
      DistinctIsFirstSeen(ordered);
    } else {
      var n := |ids| - 1;
      WithNewIsFirstSeen(ordered, ids[..n]);
      FirstSeenNext(WithNew(ordered, ids[..n]), ordered + ids[..n], ids[n]);
      assert ordered + ids[..n] + [ids[n]] == ordered + ids;
    }
  }

  /** Appends each step `v` depends on once, in the order in which the document first names them. */
  method CollectDependencies(v: Value, ordered: seq<string>) returns (ordered': seq<string>)
    requires NoDuplicates(ordered)
    ensures ordered' == WithNew(ordered, Named(v)) && FirstSeen(ordered', ordered + Named(v))
    ensures forall id :: id in ordered' <==> id in ordered || DependsOn(v, id)
    decreases v
  {
    hide FirstSeen, DependsOn, WithNew, ParseReference, NoDuplicates;
    ordered' := ordered;
    if v.Str? {
      if !("$$" <= v.text) {
        var parsed := ParseReference(v.text);
        if parsed.Ok? && parsed.value.Some? && parsed.value.value.stepId !in ordered {
          ordered' := ordered + [parsed.value.value.stepId];
        }
      }
      WithNewOne(ordered, NamedBy(v.text));
    } else {
      WithNewOne(ordered, []);
      for i := 0 to |Entries(v)|
        invariant ordered' == WithNew(ordered, NamedAmong(v, i)) && NoDuplicates(ordered')
      {
        EntryIsSmaller(v, i);
        WithNewAppend(ordered, NamedAmong(v, i), Named(Entries(v)[i]));
        WithNewIsDistinct(ordered', Named(Entries(v)[i]));
        ordered' := CollectDependencies(Entries(v)[i], ordered');
      }
    }
    CollectedAre(v, ordered);
  }

  lemma WithNewOne(ordered: seq<string>, ids: seq<string>)
    requires |ids| <= 1
    ensures WithNew(ordered, ids) == if ids == [] || ids[0] in ordered then ordered else ordered + ids
  {
    if ids != [] { assert ids[..0] == [] && ids == [ids[0]]; }
  }

  lemma WithNewIsDistinct(ordered: seq<string>, ids: seq<string>)
    requires NoDuplicates(ordered)
    ensures NoDuplicates(WithNew(ordered, ids))
  {
    WithNewIsFirstSeen(ordered, ids);
  }

  lemma CollectedAre(v: Value, ordered: seq<string>)
    requires NoDuplicates(ordered)
    ensures FirstSeen(WithNew(ordered, Named(v)), ordered + Named(v))
    ensures forall id :: id in WithNew(ordered, Named(v)) <==> id in ordered || DependsOn(v, id)
  {
    WithNewIsFirstSeen(ordered, Named(v));
    forall id
      ensures id in Named(v) <==> DependsOn(v, id)
    {
      NamedAreDependencies(v, id);
    }
  }

  /** Substitution reads nothing but the results of the steps the document names. */
  lemma {:induction false} ResolutionReadsDependencies(v: Value, a: StepResults, b: StepResults)
    requires forall p, id | NamesStep(v, p, id) :: id in a && id in b && a[id] == b[id]
    ensures ResolveReferences(v, a) == ResolveReferences(v, b)
    decreases v, 0
  {
    match v
    case Str(text) =>
      var parsed := ParseReference(text);
      if !("$$" <= text) && parsed.Ok? && parsed.value.Some? {
        assert NamesStep(v, [], parsed.value.value.stepId);
      }
    case Arr(items) =>
      forall i, p, id | 0 <= i < |items| && NamesStep(items[i], p, id)
        ensures id in a && id in b && a[id] == b[id]
      {
        assert NamesStep(v, [i] + p, id);
      }
      ItemsReadDependencies(items, a, b);
    case Obj(fields) =>
      forall i, p, id | 0 <= i < |fields| && NamesStep(fields[i].value, p, id)
        ensures id in a && id in b && a[id] == b[id]
      {
        assert Entries(v)[i] == fields[i].value;
        assert NamesStep(v, [i] + p, id);
      }
      FieldsReadDependencies(fields, a, b);
    case _ =>
  }

  lemma {:induction false} ItemsReadDependencies(items: seq<Value>, a: StepResults, b: StepResults)
    requires forall i, p, id | 0 <= i < |items| && NamesStep(items[i], p, id) :: id in a && id in b && a[id] == b[id]
    ensures ResolveItems(items, a) == ResolveItems(items, b)
    decreases items
  {
    if items != [] {
      ResolutionReadsDependencies(items[0], a, b);
      assert forall i | 0 <= i < |items| - 1 :: items[1..][i] == items[i + 1];
      ItemsReadDependencies(items[1..], a, b);
    }
  }

  lemma {:induction false} FieldsReadDependencies(fields: seq<Field>, a: StepResults, b: StepResults)
    requires forall i, p, id | 0 <= i < |fields| && NamesStep(fields[i].value, p, id) ::
               id in a && id in b && a[id] == b[id]
    ensures ResolveFields(fields, a) == ResolveFields(fields, b)
    decreases fields
  {
    if fields != [] {
      ResolutionReadsDependencies(fields[0].value, a, b);
      assert forall i | 0 <= i < |fields| - 1 :: fields[1..][i] == fields[i + 1];
      FieldsReadDependencies(fields[1..], a, b);
    }
  }
}
