/**
 Workflow plans: operations, steps, their JSON form, and the resolution of a step against earlier results.
 */
module Workflow {
  import opened Basics
  import opened Json
  import opened References

  const WORKFLOW_VERSION := 1
  const MAX_WORKFLOW_STEPS := 1024

  datatype Op =
    | Get | Set | New | Rm | Mv | AttrSet | AttrRm | AttrLs | TagAdd | TagRm | Assert
    | Wait | Eval | Capture | Call | Playtest | Upload

  function OpName(op: Op): string {
    match op
    case Get => "get" case Set => "set" case New => "new" case Rm => "rm" case Mv => "mv"
    case AttrSet => "attr-set" case AttrRm => "attr-rm" case AttrLs => "attr-ls"
    case TagAdd => "tag-add" case TagRm => "tag-rm" case Assert => "assert" case Wait => "wait"
    case Eval => "eval" case Capture => "capture" case Call => "call" case Playtest => "playtest"
    case Upload => "upload"
  }

  /** The operations an atomic group may contain. */
  predicate AtomicSafe(op: Op) {
    !(op.Eval? || op.Call? || op.Wait? || op.Capture? || op.Playtest? || op.Upload?)
  }

  /** What may not run in an atomic group, by its name in a plan. */
  lemma UnsafeOperations(op: Op)
    ensures !AtomicSafe(op) <==> OpName(op) in {"eval", "call", "wait", "capture", "playtest", "upload"}
  {
    OpNamesAreUnique(op);
    var unsafe := {"eval", "call", "wait", "capture", "playtest", "upload"};
    if OpName(op) in unsafe { assert OpNamed(OpName(op)).value in {Eval, Call, Wait, Capture, Playtest, Upload}; }
  }

  /** The step entries that are decoded on their own; every other entry stays in `fields`. */
  const HEADER: set<string> := {"id", "verify", "transaction", "op"}

  datatype RawStep =
    Step(id: string, transaction: Option<string>, verify: bool, op: Op, fields: seq<Field>)

  type Step = s: RawStep | forall i | 0 <= i < |s.fields| :: s.fields[i].key !in HEADER
    witness Step("a", None, false, Get, [])

  datatype TransactionGroup = TransactionGroup(id: string, atomic: bool)

  datatype Workflow = Workflow(
    version: nat,
    name: Option<string>,
    idempotencyKey: Option<string>,
    expectedMode: Option<string>,
    expectedPlaceId: Option<string>,
    transactions: seq<TransactionGroup>,
    steps: seq<Step>)

  /**
   The parts of the schema that are taken as given: which operation fields decode, and the per-step checks
   that run both statically and after substitution.
   */
  datatype Schema = Schema(decodes: (Op, seq<Field>) -> bool, passes: Step -> bool)

  // ---------------------------------------------------------------------------
  // Steps as JSON
  // ---------------------------------------------------------------------------

  function HeaderOf(step: Step): seq<Field> {
    [Field("id", Str(step.id))]
    + (if step.verify then [Field("verify", Bool(true))] else [])
    + (if step.transaction.Some? then [Field("transaction", Str(step.transaction.value))] else [])
    + [Field("op", Str(OpName(step.op)))]
  }

  function ToValue(step: Step): Value {
    Obj(HeaderOf(step) + step.fields)
  }

  function OpNamed(name: string): Option<Op> {
    if name == "get" then Some(Get)
    else if name == "set" then Some(Set)
    else if name == "new" then Some(New)
    else if name == "rm" then Some(Rm)
    else if name == "mv" then Some(Mv)
    else if name == "attr-set" then Some(AttrSet)
    else if name == "attr-rm" then Some(AttrRm)
    else if name == "attr-ls" then Some(AttrLs)
    else if name == "tag-add" then Some(TagAdd)
    else if name == "tag-rm" then Some(TagRm)
    else if name == "assert" then Some(Assert)
    else if name == "wait" then Some(Wait)
    else if name == "eval" then Some(Eval)
    else if name == "capture" then Some(Capture)
    else if name == "call" then Some(Call)
    else if name == "playtest" then Some(Playtest)
    else if name == "upload" then Some(Upload)
    else None
  }

  lemma OpNamesAreUnique(op: Op)
    ensures OpNamed(OpName(op)) == Some(op)
  {
  }

  function Body(fields: seq<Field>): (body: seq<Field>)
    ensures forall i | 0 <= i < |body| :: body[i].key !in HEADER
  {
    if fields == [] then []
    else if fields[0].key in HEADER then Body(fields[1..])
    else [fields[0]] + Body(fields[1..])
  }

  function FromValue(v: Value, schema: Schema): Option<Step> {
    if !v.Obj? then None
    else
      match (Json.Get(v.fields, "id"), Json.Get(v.fields, "op"))
      case (Some(Str(id)), Some(Str(name))) =>
        (match (OpNamed(name), DecodeVerify(v.fields), DecodeTransaction(v.fields))
         case (Some(op), Some(verify), Some(transaction)) =>
           var fields := Body(v.fields);
           if schema.decodes(op, fields) then Some(Step(id, transaction, verify, op, fields)) else None
         case _ => None)
      case _ => None
  }

  function DecodeVerify(fields: seq<Field>): Option<bool> {
    match Json.Get(fields, "verify")
    case None => Some(false)
    case Some(Bool(b)) => Some(b)
    case _ => None
  }

  function DecodeTransaction(fields: seq<Field>): Option<Option<string>> {
    match Json.Get(fields, "transaction")
    case None => Some(None)
    case Some(Null) => Some(None)
    case Some(Str(id)) => Some(Some(id))
    case _ => None
  }

  datatype ResolveError = BadReference(error: RefError) | SchemaMismatch | FailedRecheck

  /** A step with its references replaced, if it still decodes and still passes its checks. */
  function ResolveStep(step: Step, results: StepResults, schema: Schema): Result<Step, ResolveError> {
    match ResolveReferences(ToValue(step), results)
    case Err(e) => Err(BadReference(e))
    case Ok(v) =>
      match FromValue(v, schema)
      case None => Err(SchemaMismatch)
      case Some(resolved) => if schema.passes(resolved) then Ok(resolved) else Err(FailedRecheck)
  }

  /** The step's own identity is not reference syntax. */
  predicate PlainHeader(step: Step) {
    && ValidIdentifier(step.id)
    && (step.transaction.Some? ==> ValidIdentifier(step.transaction.value))
  }

  lemma {:induction false} GetAppend(a: seq<Field>, b: seq<Field>, key: string)
    ensures Json.Get(a + b, key) == if Json.Get(a, key).Some? then Json.Get(a, key) else Json.Get(b, key)
  {
    if a == [] {
      assert a + b == b;
    } else {
      assert (a + b)[1..] == a[1..] + b;
      GetAppend(a[1..], b, key);
    }
  }

  lemma {:induction false} GetAbsent(fields: seq<Field>, key: string)
    requires forall i | 0 <= i < |fields| :: fields[i].key != key
    ensures Json.Get(fields, key) == None
  {
    if fields != [] { GetAbsent(fields[1..], key); }
  }

  lemma {:induction false} BodyAppend(a: seq<Field>, b: seq<Field>)
    ensures Body(a + b) == Body(a) + Body(b)
  {
    if a == [] {
      assert a + b == b;
    } else {
      assert (a + b)[1..] == a[1..] + b;
      BodyAppend(a[1..], b);
    }
  }

  lemma {:induction false} BodyOfFields(fields: seq<Field>)
    requires forall i | 0 <= i < |fields| :: fields[i].key !in HEADER
    ensures Body(fields) == fields
  {
    if fields != [] { BodyOfFields(fields[1..]); }
  }

  lemma {:induction false} BodyOfHeader(fields: seq<Field>)
    requires forall i | 0 <= i < |fields| :: fields[i].key in HEADER
    ensures Body(fields) == []
  {
    if fields != [] { BodyOfHeader(fields[1..]); }
  }

  lemma {:induction false} ResolveFieldsAppend(a: seq<Field>, b: seq<Field>, results: StepResults)
    requires forall i | 0 <= i < |a| :: ResolveReferences(a[i].value, results) == Ok(a[i].value)
    ensures ResolveFields(a + b, results) ==
            match ResolveFields(b, results) case Ok(r) => Ok(a + r) case Err(e) => Err(e)
  {
    var rest := ResolveFields(b, results);
    if a == [] {
      assert a + b == b;
      assert rest.Ok? ==> a + rest.value == rest.value;
    } else {
      assert (a + b)[1..] == a[1..] + b;
      ResolveFieldsAppend(a[1..], b, results);
      assert rest.Ok? ==> [a[0]] + (a[1..] + rest.value) == a + rest.value;
    }
  }

  lemma HeaderIsInert(step: Step, results: StepResults)
    requires PlainHeader(step)
    ensures forall i | 0 <= i < |HeaderOf(step)| ::
              ResolveReferences(HeaderOf(step)[i].value, results) == Ok(HeaderOf(step)[i].value)
    ensures forall i | 0 <= i < |HeaderOf(step)| :: HeaderOf(step)[i].key in HEADER
  {
    IdentifiersArePlain(step.id);
    if step.transaction.Some? { IdentifiersArePlain(step.transaction.value); }
    assert OpName(step.op)[0] != '$';
  }

  lemma HeaderDecodes(step: Step, fields: seq<Field>)
    requires forall i | 0 <= i < |fields| :: fields[i].key !in HEADER
    ensures var all := HeaderOf(step) + fields;
            && Json.Get(all, "id") == Some(Str(step.id))
            && Json.Get(all, "op") == Some(Str(OpName(step.op)))
            && DecodeVerify(all) == Some(step.verify)
            && DecodeTransaction(all) == Some(step.transaction)
            && Body(all) == fields
  {
    HeaderLooksUp(step, fields);
    hide HeaderOf, Json.Get, OpName;
    BodyAppend(HeaderOf(step), fields);
    BodyOfHeader(HeaderOf(step)) by { HeaderKeys(step); }
    BodyOfFields(fields);
  }

  lemma HeaderKeys(step: Step)
    ensures forall i | 0 <= i < |HeaderOf(step)| :: HeaderOf(step)[i].key in HEADER
  {
    hide OpName;
  }

  lemma HeaderLooksUp(step: Step, fields: seq<Field>)
    requires forall i | 0 <= i < |fields| :: fields[i].key !in HEADER
    ensures var all := HeaderOf(step) + fields;
            && Json.Get(all, "id") == Some(Str(step.id))
            && Json.Get(all, "op") == Some(Str(OpName(step.op)))
            && Json.Get(all, "verify") == (if step.verify then Some(Bool(true)) else None)
            && Json.Get(all, "transaction") == (if step.transaction.Some? then Some(Str(step.transaction.value)) else None)
  {
    hide OpName;
    var id, op := [Field("id", Str(step.id))], [Field("op", Str(OpName(step.op)))];
    var verify := if step.verify then [Field("verify", Bool(true))] else [];
    var group := if step.transaction.Some? then [Field("transaction", Str(step.transaction.value))] else [];
    var all := HeaderOf(step) + fields;
    assert all == id + (verify + (group + (op + fields)));
    LookupThrough(id, verify, group, op, fields, "id");
    LookupThrough(id, verify, group, op, fields, "verify");
    LookupThrough(id, verify, group, op, fields, "transaction");
    LookupThrough(id, verify, group, op, fields, "op");
    assert "op"[0] != "id"[0];
  }

  lemma LookupThrough(a: seq<Field>, b: seq<Field>, c: seq<Field>, d: seq<Field>, e: seq<Field>, key: string)
    requires forall i | 0 <= i < |e| :: e[i].key != key
    ensures Json.Get(a + (b + (c + (d + e))), key) ==
            if Json.Get(a, key).Some? then Json.Get(a, key)
            else if Json.Get(b, key).Some? then Json.Get(b, key)
            else if Json.Get(c, key).Some? then Json.Get(c, key)
            else Json.Get(d, key)
  {
    GetAppend(a, b + (c + (d + e)), key);
    GetAppend(b, c + (d + e), key);
    GetAppend(c, d + e, key);
    GetAppend(d, e, key);
    GetAbsent(e, key);
  }

  /** A step decodes back from its own JSON. */
  lemma StepRoundTrip(step: Step, schema: Schema)
    ensures FromValue(ToValue(step), schema) == if schema.decodes(step.op, step.fields) then Some(step) else None
  {
    HeaderDecodes(step, step.fields);
    OpNamesAreUnique(step.op);
  }

  /**
   Substitution never changes who a step is: its id, group, operation and verification flag survive, so the
   bracket a resolved step asks for is the one its plan declares.
   */
  lemma ResolvedStepKeepsIdentity(step: Step, results: StepResults, schema: Schema)
    requires PlainHeader(step)
    ensures var r := ResolveStep(step, results, schema);
            r.Ok? ==>
              && r.value == step.(fields := r.value.fields)
              && ResolveFields(step.fields, results) == Ok(r.value.fields)
              && schema.decodes(step.op, r.value.fields) && schema.passes(r.value)
  {
    ResolvedHeaderStays(step, results);
    var resolved := ResolveFields(step.fields, results);
    if resolved.Ok? {
      hide HeaderOf, Json.Get, Body, OpName, OpNamed, DecodeVerify, DecodeTransaction, ResolveFields;
      HeaderDecodes(step, resolved.value);
      OpNamesAreUnique(step.op);
    }
  }

  /**
   When a step resolves: its fields do, they still decode for its operation, and the step passes its checks again;
   otherwise the error says which of the three failed first.
   */
  lemma StepResolvesIff(step: Step, results: StepResults, schema: Schema)
    requires PlainHeader(step)
    ensures var r, fields := ResolveStep(step, results, schema), ResolveFields(step.fields, results);
            && (r.Err? && r.error.BadReference? <==> fields.Err?)
            && (fields.Err? ==> r == Err(BadReference(fields.error)))
            && (r == Err(SchemaMismatch) <==> fields.Ok? && !schema.decodes(step.op, fields.value))
            && (fields.Ok? && schema.decodes(step.op, fields.value) ==>
                  && (forall i | 0 <= i < |fields.value| :: fields.value[i].key !in HEADER)
                  && var resolved := step.(fields := fields.value);
                     r == if schema.passes(resolved) then Ok(resolved) else Err(FailedRecheck))
  {
    ResolvedHeaderStays(step, results);
    var resolved := ResolveFields(step.fields, results);
    if resolved.Ok? {
      hide HeaderOf, Json.Get, Body, OpName, OpNamed, DecodeVerify, DecodeTransaction, ResolveFields;
      HeaderDecodes(step, resolved.value);
      OpNamesAreUnique(step.op);
    }
  }

  /** Only the body of a step's JSON is resolved; its header stays, and no body field gets a header's key. */
  lemma ResolvedHeaderStays(step: Step, results: StepResults)
    requires PlainHeader(step)
    ensures var resolved := ResolveFields(step.fields, results);
            && (resolved.Ok? ==>
                  && ResolveReferences(ToValue(step), results) == Ok(Obj(HeaderOf(step) + resolved.value))
                  && forall i | 0 <= i < |resolved.value| :: resolved.value[i].key !in HEADER)
            && (resolved.Err? ==> ResolveReferences(ToValue(step), results) == Err(resolved.error))
  {
    HeaderIsInert(step, results);
    hide HeaderOf;
    ResolveFieldsAppend(HeaderOf(step), step.fields, results);
    if ResolveFields(step.fields, results).Ok? { FieldsPointwise(step.fields, results); }
  }

  /** With well-formed references to stored results, resolution can only fail inside a result or on the re-check. */
  lemma ResolutionNeverDangles(step: Step, results: StepResults, schema: Schema)
    requires forall p :: !MalformedLeaf(ToValue(step), p)
    requires forall p, id | NamesStep(ToValue(step), p, id) :: id in results
    ensures var r := ResolveStep(step, results, schema);
            r.Err? ==> !r.error.BadReference? || r.error.error.MissingSegment?
  {
    var v := ToValue(step);
    ResolutionFailsAtALeaf(v, results);
    var r := ResolveReferences(v, results);
    if r.Err? {
      var p :| FailingLeaf(v, results, p) && ResolveText(At(v, p).value.text, results) == Err(r.error);
      var text := At(v, p).value.text;
      assert !MalformedLeaf(v, p);
      var parsed := ParseReference(text);
      assert NamesStep(v, p, parsed.value.value.stepId);
      WalkOnlyMissesSegments(results[parsed.value.value.stepId], parsed.value.value.path);
    }
  }

  lemma {:induction false} WalkOnlyMissesSegments(v: Value, path: seq<string>)
    ensures var r := Walk(v, path); r.Err? ==> r.error.MissingSegment? && r.error.segment in path
    decreases |path|
  {
    if path != [] {
      match Child(v, path[0])
      case Some(child) => WalkOnlyMissesSegments(child, path[1..]);
      case None =>
    }
  }
}
