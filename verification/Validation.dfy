/**
 Static validation of a whole plan. `Applies` says, rule by rule and location by location, when an issue is
 due; the validator reports exactly those.
 */
module Validation {
  import opened Basics
  import opened Json
  import opened References
  import opened Workflow

  datatype Issue =
    | UnsupportedVersion
    | InvalidName
    | InvalidIdempotencyKey
    | InvalidExpectedMode
    | InvalidPlaceId
    | EmptyWorkflow
    | TooManySteps
    | InvalidTransactionIdentifier(index: nat)
    | DuplicateTransactionId(index: nat)
    | InvalidStepIdentifier(index: nat)
    | DuplicateStepId(index: nat)
    | FailedStepCheck(index: nat)
    | UnknownTransaction(index: nat)
    | UnsafeAtomicOperation(index: nat)
    | InvalidReference(index: nat, at: Pointer)
    | UnknownReference(index: nat, at: Pointer)
    | SelfReference(index: nat, at: Pointer)
    | ForwardReference(index: nat, at: Pointer)
    | EmptyTransaction(index: nat)
    | NonContiguousAtomicTransaction(index: nat)

  predicate InGroup(wf: Workflow, i: nat, id: string) {
    i < |wf.steps| && wf.steps[i].transaction == Some(id)
  }

  /** Group declarations by id; a repeated id keeps its last declaration. */
  function Definitions(groups: seq<TransactionGroup>): map<string, bool> {
    if groups == [] then map[]
    else
      var last := groups[|groups| - 1];
      Definitions(groups[..|groups| - 1])[last.id := last.atomic]
  }

  /** The step the validator takes `id` to name: the last one carrying it. */
  ghost predicate NamedStep(wf: Workflow, id: string, j: nat) {
    && j < |wf.steps| && wf.steps[j].id == id
    && forall k | j < k < |wf.steps| :: wf.steps[k].id != id
  }

  /** Step `b` is outside the group while an earlier and a later step are inside. */
  ghost predicate HoleAt(wf: Workflow, id: string, b: nat) {
    && !InGroup(wf, b, id)
    && (exists a: nat :: a < b && InGroup(wf, a, id))
    && (exists c: nat :: b < c && InGroup(wf, c, id))
  }

  ghost predicate HasHole(wf: Workflow, id: string) {
    exists b: nat :: HoleAt(wf, id, b)
  }

  predicate IsDigits(s: string) {
    s != [] && forall i | 0 <= i < |s| :: '0' <= s[i] <= '9'
  }

  ghost predicate HeaderApplies(wf: Workflow, x: Issue) {
    match x
    case UnsupportedVersion => wf.version != 1
    case InvalidName => wf.name.Some? && !(1 <= |wf.name.value| <= 128)
    case InvalidIdempotencyKey => wf.idempotencyKey.Some? && !(1 <= |wf.idempotencyKey.value| <= 256)
    case InvalidExpectedMode => wf.expectedMode.Some? && wf.expectedMode.value !in ["edit", "play", "run"]
    case InvalidPlaceId => wf.expectedPlaceId.Some? && !IsDigits(wf.expectedPlaceId.value)
    case EmptyWorkflow => wf.steps == []
    case TooManySteps => |wf.steps| > 1024
    case _ => false
  }

  ghost predicate DeclarationApplies(wf: Workflow, x: Issue) {
    match x
    case InvalidTransactionIdentifier(i) => i < |wf.transactions| && !ValidIdentifier(wf.transactions[i].id)
    case DuplicateTransactionId(i) =>
      i < |wf.transactions| && exists j | 0 <= j < i :: wf.transactions[j].id == wf.transactions[i].id
    case _ => false
  }

  ghost predicate StepIdApplies(wf: Workflow, x: Issue) {
    match x
    case InvalidStepIdentifier(i) => i < |wf.steps| && !ValidIdentifier(wf.steps[i].id)
    case DuplicateStepId(i) => i < |wf.steps| && exists j | 0 <= j < i :: wf.steps[j].id == wf.steps[i].id
    case _ => false
  }

  ghost predicate BodyApplies(wf: Workflow, schema: Schema, x: Issue) {
    match x
    case FailedStepCheck(i) => i < |wf.steps| && !schema.passes(wf.steps[i])
    case UnknownTransaction(i) =>
      && i < |wf.steps| && wf.steps[i].transaction.Some?
      && wf.steps[i].transaction.value !in Definitions(wf.transactions)
    case UnsafeAtomicOperation(i) =>
      && i < |wf.steps| && wf.steps[i].transaction.Some?
      && wf.steps[i].transaction.value in Definitions(wf.transactions)
      && Definitions(wf.transactions)[wf.steps[i].transaction.value]
      && !AtomicSafe(wf.steps[i].op)
    case _ => ReferenceApplies(wf, x)
  }

  ghost predicate ReferenceApplies(wf: Workflow, x: Issue) {
    match x
    case InvalidReference(i, p) => i < |wf.steps| && MalformedLeaf(ToValue(wf.steps[i]), p)
    case UnknownReference(i, p) =>
      i < |wf.steps| && exists id :: NamesStep(ToValue(wf.steps[i]), p, id) && forall j :: !NamedStep(wf, id, j)
    case SelfReference(i, p) =>
      i < |wf.steps| && exists id :: NamesStep(ToValue(wf.steps[i]), p, id) && NamedStep(wf, id, i)
    case ForwardReference(i, p) =>
      i < |wf.steps| && exists id, j: nat :: NamesStep(ToValue(wf.steps[i]), p, id) && NamedStep(wf, id, j) && j > i
    case _ => false
  }

  ghost predicate GroupApplies(wf: Workflow, x: Issue) {
    match x
    case EmptyTransaction(i) => i < |wf.transactions| && forall j :: !InGroup(wf, j, wf.transactions[i].id)
    case NonContiguousAtomicTransaction(i) =>
      i < |wf.transactions| && wf.transactions[i].atomic && HasHole(wf, wf.transactions[i].id)
    case _ => false
  }

  ghost predicate Applies(wf: Workflow, schema: Schema, x: Issue) {
    HeaderApplies(wf, x) || DeclarationApplies(wf, x) || StepIdApplies(wf, x) || BodyApplies(wf, schema, x)
    || GroupApplies(wf, x)
  }

  /** Reports exactly the issues that apply. */
  method ValidationIssues(wf: Workflow, schema: Schema) returns (issues: seq<Issue>)
    ensures forall x :: x in issues <==> Applies(wf, schema, x)
  {
    var header := HeaderIssues(wf);
    var definitions, declarations := DeclarationIssues(wf);
    var named, ids := StepIdIssues(wf);
    var members, bodies := BodyIssues(wf, schema, definitions, named);
    var groups := GroupIssues(wf, members);
    issues := header + declarations + ids + bodies + groups;
  }

  method HeaderIssues(wf: Workflow) returns (issues: seq<Issue>)
    ensures forall x :: x in issues <==> HeaderApplies(wf, x)
  {
    issues := [];
    if wf.version != WORKFLOW_VERSION {
      issues := issues + [UnsupportedVersion];
    }
    if wf.name.Some? && (wf.name.value == [] || |wf.name.value| > 128) {
      issues := issues + [InvalidName];
    }
    if wf.idempotencyKey.Some? && (wf.idempotencyKey.value == [] || |wf.idempotencyKey.value| > 256) {
      issues := issues + [InvalidIdempotencyKey];
    }
    if wf.expectedMode.Some? && wf.expectedMode.value !in ["edit", "play", "run"] {
      issues := issues + [InvalidExpectedMode];
    }
    if wf.expectedPlaceId.Some? && !IsDigits(wf.expectedPlaceId.value) {
      issues := issues + [InvalidPlaceId];
    }
    if wf.steps == [] {
      issues := issues + [EmptyWorkflow];
    } else if |wf.steps| > MAX_WORKFLOW_STEPS {
      issues := issues + [TooManySteps];
    }
  }

  lemma {:induction false} DefinitionsHold(groups: seq<TransactionGroup>, id: string)
    ensures id in Definitions(groups) <==> exists j | 0 <= j < |groups| :: groups[j].id == id
    ensures id in Definitions(groups) ==>
              exists j | 0 <= j < |groups| :: groups[j].id == id && groups[j].atomic == Definitions(groups)[id]
  {
    if groups != [] {
      var n := |groups| - 1;
      DefinitionsHold(groups[..n], id);
      if groups[n].id != id && id in Definitions(groups) {
        var j :| 0 <= j < n && groups[..n][j].id == id && groups[..n][j].atomic == Definitions(groups[..n])[id];
        assert groups[j].id == id && groups[j].atomic == Definitions(groups)[id];
      }
    }
  }

  method DeclarationIssues(wf: Workflow) returns (definitions: map<string, bool>, issues: seq<Issue>)
    ensures definitions == Definitions(wf.transactions)
    ensures forall x :: x in issues <==> DeclarationApplies(wf, x)
  {
    definitions, issues := map[], [];
    for i := 0 to |wf.transactions|
      invariant definitions == Definitions(wf.transactions[..i])
      invariant forall x :: x in issues <==> DeclarationApplies(wf, x) && x.index < i
    {
      var group := wf.transactions[i];
      if !ValidIdentifier(group.id) {
        issues := issues + [InvalidTransactionIdentifier(i)];
      }
      DefinitionsHold(wf.transactions[..i], group.id);
      if group.id in definitions {
        issues := issues + [DuplicateTransactionId(i)];
      }
      definitions := definitions[group.id := group.atomic];
      assert wf.transactions[..i + 1][..i] == wf.transactions[..i];
    }
    assert wf.transactions[..|wf.transactions|] == wf.transactions;
  }

  /** `named` sends every id of the first `n` steps to the last of them carrying it. */
  ghost predicate NamedUpTo(wf: Workflow, n: nat, named: map<string, nat>) {
    && n <= |wf.steps|
    && (forall id | id in named ::
          && named[id] < n && wf.steps[named[id]].id == id
          && forall k | named[id] < k < n :: wf.steps[k].id != id)
    && (forall k | 0 <= k < n :: wf.steps[k].id in named)
  }

  method StepIdIssues(wf: Workflow) returns (named: map<string, nat>, issues: seq<Issue>)
    ensures NamedUpTo(wf, |wf.steps|, named)
    ensures forall x :: x in issues <==> StepIdApplies(wf, x)
  {
    named, issues := map[], [];
    for i := 0 to |wf.steps|
      invariant NamedUpTo(wf, i, named)
      invariant forall x :: x in issues <==> StepIdApplies(wf, x) && x.index < i
    {
      var found := OneIdIssues(wf, i, wf.steps[i].id in named);
      issues := issues + found;
      named := named[wf.steps[i].id := i];
    }
  }

  method OneIdIssues(wf: Workflow, i: nat, repeated: bool) returns (issues: seq<Issue>)
    requires i < |wf.steps|
    requires repeated <==> exists j | 0 <= j < i :: wf.steps[j].id == wf.steps[i].id
    ensures forall x :: x in issues <==> StepIdApplies(wf, x) && x.index == i
  {
    issues := [];
    if !ValidIdentifier(wf.steps[i].id) {
      issues := issues + [InvalidStepIdentifier(i)];
    }
    if repeated {
      issues := issues + [DuplicateStepId(i)];
    }
  }

  /** The steps among the first `n` that belong to a group, in order. */
  function MembersUpTo(wf: Workflow, id: string, n: nat): seq<nat>
    requires n <= |wf.steps|
  {
    if n == 0 then []
    else MembersUpTo(wf, id, n - 1) + (if InGroup(wf, n - 1, id) then [n - 1] else [])
  }

  function Listed(members: map<string, seq<nat>>, id: string): seq<nat> {
    if id in members then members[id] else []
  }

  method BodyIssues(wf: Workflow, schema: Schema, definitions: map<string, bool>, named: map<string, nat>)
    returns (members: map<string, seq<nat>>, issues: seq<Issue>)
    requires definitions == Definitions(wf.transactions)
    requires NamedUpTo(wf, |wf.steps|, named)
    ensures forall id :: Listed(members, id) == MembersUpTo(wf, id, |wf.steps|)
    ensures forall x :: x in issues <==> BodyApplies(wf, schema, x)
  {
    members, issues := map[], [];
    for i := 0 to |wf.steps|
      invariant forall id :: Listed(members, id) == MembersUpTo(wf, id, i)
      invariant forall x :: x in issues <==> BodyApplies(wf, schema, x) && x.index < i
    {
      members := Enlist(wf, i, members);
      var found := StepIssues(wf, schema, i, definitions, named);
      issues := issues + found;
    }
  }

  method Enlist(wf: Workflow, i: nat, members: map<string, seq<nat>>) returns (members': map<string, seq<nat>>)
    requires i < |wf.steps|
    requires forall id :: Listed(members, id) == MembersUpTo(wf, id, i)
    ensures forall id :: Listed(members', id) == MembersUpTo(wf, id, i + 1)
  {
    members' := members;
    if wf.steps[i].transaction.Some? {
      var id := wf.steps[i].transaction.value;
      members' := members[id := Listed(members, id) + [i]];
    }
  }

  method StepIssues(wf: Workflow, schema: Schema, i: nat, definitions: map<string, bool>, named: map<string, nat>)
    returns (issues: seq<Issue>)
    requires i < |wf.steps|
    requires definitions == Definitions(wf.transactions)
    requires NamedUpTo(wf, |wf.steps|, named)
    ensures forall x :: x in issues <==> BodyApplies(wf, schema, x) && x.index == i
  {
    var step := wf.steps[i];
    issues := [];
    if !schema.passes(step) {
      issues := issues + [FailedStepCheck(i)];
    }
    if step.transaction.Some? {
      if step.transaction.value !in definitions {
        issues := issues + [UnknownTransaction(i)];
      } else if definitions[step.transaction.value] && !AtomicSafe(step.op) {
        issues := issues + [UnsafeAtomicOperation(i)];
      }
    }
    var more := ReferenceIssues(wf, i, named);
    issues := issues + more;
  }

  method ReferenceIssues(wf: Workflow, i: nat, named: map<string, nat>) returns (issues: seq<Issue>)
    requires i < |wf.steps|
    requires NamedUpTo(wf, |wf.steps|, named)
    ensures forall x :: x in issues <==> ReferenceApplies(wf, x) && x.index == i
  {
    var references, malformed := ScanReferences(ToValue(wf.steps[i]), [], [], []);
    assert references[0..] == references && malformed[0..] == malformed;
    var unreadable := MalformedIssues(i, malformed);
    var discipline := DisciplineIssues(named, i, references);
    issues := unreadable + discipline;
    ReferenceIssuesApply(wf, i, named, Elements(references), Elements(malformed), issues);
  }

  method MalformedIssues(i: nat, malformed: seq<Pointer>) returns (issues: seq<Issue>)
    ensures forall x :: x in issues <==> x.InvalidReference? && x.index == i && x.at in malformed
  {
    issues := [];
    for k := 0 to |malformed|
      invariant forall x :: x in issues <==> x.InvalidReference? && x.index == i && x.at in malformed[..k]
    {
      issues := issues + [InvalidReference(i, malformed[k])];
    }
  }

  method DisciplineIssues(named: map<string, nat>, i: nat, references: seq<Found>) returns (issues: seq<Issue>)
    ensures forall x :: x in issues <==> exists f | f in references :: ReferenceIssue(named, i, f) == Some(x)
  {
    issues := [];
    for k := 0 to |references|
      invariant forall x :: x in issues <==> exists f | f in references[..k] :: ReferenceIssue(named, i, f) == Some(x)
    {
      var due := ReferenceIssue(named, i, references[k]);
      assert references[..k + 1] == references[..k] + [references[k]];
      if due.Some? {
        issues := issues + [due.value];
      }
    }
    assert references[..|references|] == references;
  }

  /** What is wrong with one reference, if anything, by where its step is. */
  function ReferenceIssue(named: map<string, nat>, i: nat, f: Found): Option<Issue> {
    if f.stepId !in named then Some(UnknownReference(i, f.at))
    else if named[f.stepId] == i then Some(SelfReference(i, f.at))
    else if named[f.stepId] > i then Some(ForwardReference(i, f.at))
    else None
  }

  lemma ReferenceIssuesApply(wf: Workflow, i: nat, named: map<string, nat>,
                             references: set<Found>, malformed: set<Pointer>, issues: seq<Issue>)
    requires i < |wf.steps|
    requires NamedUpTo(wf, |wf.steps|, named)
    requires AllFound(ToValue(wf.steps[i]), [], references)
    requires AllMalformed(ToValue(wf.steps[i]), [], malformed)
    requires forall x :: x in issues <==>
               || (x.InvalidReference? && x.index == i && x.at in malformed)
               || (exists f | f in references :: ReferenceIssue(named, i, f) == Some(x))
    ensures forall x :: x in issues <==> ReferenceApplies(wf, x) && x.index == i
  {
    hide ToValue, NamesStep, MalformedLeaf;
    var body := ToValue(wf.steps[i]);
    forall p
      ensures p in malformed <==> MalformedLeaf(body, p)
    {
      assert [] + p == p && p[0..] == p;
    }
    forall f: Found
      ensures f in references <==> NamesStep(body, f.at, f.stepId)
    {
      assert [] + f.at == f.at && f.at[0..] == f.at;
    }
    forall id, j
      ensures NamedStep(wf, id, j) <==> id in named && named[id] == j
    {
    }
    forall x: Issue | !x.InvalidReference?
      ensures (exists f | f in references :: ReferenceIssue(named, i, f) == Some(x)) <==>
              ReferenceApplies(wf, x) && x.index == i
    {
      if f :| f in references && ReferenceIssue(named, i, f) == Some(x) {
        IssueIsDue(wf, i, named, f);
      }
      if ReferenceApplies(wf, x) && x.index == i {
        var id := DueIssueIsFound(wf, i, named, x);
        assert Found(x.at, id) in references;
      }
    }
  }

  lemma IssueIsDue(wf: Workflow, i: nat, named: map<string, nat>, f: Found)
    requires i < |wf.steps|
    requires NamesStep(ToValue(wf.steps[i]), f.at, f.stepId)
    requires forall id | id in named :: NamedStep(wf, id, named[id])
    requires forall id, j | NamedStep(wf, id, j) :: id in named && named[id] == j
    ensures var x := ReferenceIssue(named, i, f);
            x.Some? ==> !x.value.InvalidReference? && ReferenceApplies(wf, x.value) && x.value.index == i
  {
  }

  lemma DueIssueIsFound(wf: Workflow, i: nat, named: map<string, nat>, x: Issue) returns (id: string)
    requires i < |wf.steps|
    requires !x.InvalidReference? && ReferenceApplies(wf, x) && x.index == i
    requires forall id | id in named :: NamedStep(wf, id, named[id])
    requires forall id, j | NamedStep(wf, id, j) :: id in named && named[id] == j
    ensures NamesStep(ToValue(wf.steps[i]), x.at, id)
    ensures ReferenceIssue(named, i, Found(x.at, id)) == Some(x)
  {
    var body := ToValue(wf.steps[i]);
    match x {
      case UnknownReference(_, p) =>
        id :| NamesStep(body, p, id) && forall j :: !NamedStep(wf, id, j);
      case SelfReference(_, p) =>
        id :| NamesStep(body, p, id) && NamedStep(wf, id, i);
      case ForwardReference(_, p) =>
        var j: nat;
        id, j :| NamesStep(body, p, id) && NamedStep(wf, id, j) && j > i;
    }
  }

  predicate Contiguous(members: seq<nat>) {
    forall k | 0 <= k < |members| - 1 :: members[k + 1] == members[k] + 1
  }

  lemma {:induction false} MembersAreSorted(wf: Workflow, id: string, n: nat)
    requires n <= |wf.steps|
    ensures var m := MembersUpTo(wf, id, n);
            && (forall k | 0 <= k < |m| :: m[k] < n && InGroup(wf, m[k], id))
            && (forall j, k | 0 <= j < k < |m| :: m[j] < m[k])
            && (forall i | 0 <= i < n && InGroup(wf, i, id) :: i in m)
  {
    if n > 0 {
      MembersAreSorted(wf, id, n - 1);
      var before, m := MembersUpTo(wf, id, n - 1), MembersUpTo(wf, id, n);
      if InGroup(wf, n - 1, id) {
        assert m == before + [n - 1];
        assert forall k | 0 <= k < |before| :: m[k] == before[k];
        assert m[|before|] == n - 1;
        forall i | 0 <= i < n && InGroup(wf, i, id)
          ensures i in m
        {
          if i < n - 1 { assert i in before; }
        }
      } else {
        assert m == before;
      }
    }
  }

  lemma {:induction false} NoMembers(wf: Workflow, id: string, n: nat)
    requires n <= |wf.steps|
    ensures MembersUpTo(wf, id, n) == [] <==> forall i | 0 <= i < n :: !InGroup(wf, i, id)
  {
    if n > 0 { NoMembers(wf, id, n - 1); }
  }

  /** Adjacent-pair contiguity of the member list is the absence of a hole in the plan. */
  lemma ContiguousIsHoleFree(wf: Workflow, id: string)
    ensures Contiguous(MembersUpTo(wf, id, |wf.steps|)) <==> !HasHole(wf, id)
  {
    var m := MembersUpTo(wf, id, |wf.steps|);
    if !Contiguous(m) {
      var k :| 0 <= k < |m| - 1 && m[k + 1] != m[k] + 1;
      GapIsHole(wf, id, m, k);
    }
    if b: nat :| HoleAt(wf, id, b) {
      HoleIsGap(wf, id, m, b);
    }
  }

  lemma GapIsHole(wf: Workflow, id: string, m: seq<nat>, k: nat)
    requires m == MembersUpTo(wf, id, |wf.steps|)
    requires k + 1 < |m| && m[k + 1] != m[k] + 1
    ensures HoleAt(wf, id, m[k] + 1)
  {
    MembersAreSorted(wf, id, |wf.steps|);
    var b := m[k] + 1;
    assert m[k] < m[k + 1];
    assert forall j | 0 <= j < |m| :: m[j] <= m[k] || m[k + 1] <= m[j];
    assert b !in m;
    assert InGroup(wf, m[k], id) && InGroup(wf, m[k + 1], id);
  }

  lemma HoleIsGap(wf: Workflow, id: string, m: seq<nat>, b: nat)
    requires m == MembersUpTo(wf, id, |wf.steps|)
    requires HoleAt(wf, id, b)
    ensures !Contiguous(m)
  {
    MembersAreSorted(wf, id, |wf.steps|);
    var a: nat :| a < b && InGroup(wf, a, id);
    var c: nat :| b < c && InGroup(wf, c, id);
    var j :| 0 <= j < |m| && m[j] == a;
    var k :| 0 <= k < |m| && m[k] == c;
    if Contiguous(m) { ContiguousCovers(m, j, k, b); }
  }

  lemma ContiguousCovers(m: seq<nat>, j: nat, k: nat, b: nat)
    requires Contiguous(m)
    requires forall x, y | 0 <= x < y < |m| :: m[x] < m[y]
    requires j < |m| && k < |m| && m[j] < b < m[k]
    ensures b in m
  {
    assert j < k;
    ContiguousRun(m, j, k);
    assert m[j + (b - m[j])] == b;
  }

  lemma {:induction false} ContiguousRun(m: seq<nat>, j: nat, k: nat)
    requires Contiguous(m) && j <= k < |m|
    ensures forall i | j <= i <= k :: m[i] == m[j] + (i - j)
    decreases k - j
  {
    if j < k {
      ContiguousRun(m, j, k - 1);
      assert m[(k - 1) + 1] == m[k - 1] + 1;
    }
  }

  method GroupIssues(wf: Workflow, members: map<string, seq<nat>>) returns (issues: seq<Issue>)
    requires forall id :: Listed(members, id) == MembersUpTo(wf, id, |wf.steps|)
    ensures forall x :: x in issues <==> GroupApplies(wf, x)
  {
    issues := [];
    for i := 0 to |wf.transactions|
      invariant forall x :: x in issues <==> GroupApplies(wf, x) && x.index < i
    {
      var found := OneGroupIssues(wf, i, Listed(members, wf.transactions[i].id));
      issues := issues + found;
    }
  }

  method OneGroupIssues(wf: Workflow, i: nat, listed: seq<nat>) returns (issues: seq<Issue>)
    requires i < |wf.transactions|
    requires listed == MembersUpTo(wf, wf.transactions[i].id, |wf.steps|)
    ensures forall x :: x in issues <==> GroupApplies(wf, x) && x.index == i
  {
    var group := wf.transactions[i];
    GroupRules(wf, i);
    issues := [];
    if listed == [] {
      issues := issues + [EmptyTransaction(i)];
    }
    if group.atomic && !Contiguous(listed) {
      issues := issues + [NonContiguousAtomicTransaction(i)];
    }
  }

  lemma GroupRules(wf: Workflow, i: nat)
    requires i < |wf.transactions|
    ensures var m := MembersUpTo(wf, wf.transactions[i].id, |wf.steps|);
            && (GroupApplies(wf, EmptyTransaction(i)) <==> m == [])
            && (GroupApplies(wf, NonContiguousAtomicTransaction(i)) <==>
                wf.transactions[i].atomic && !Contiguous(m))
  {
    var id := wf.transactions[i].id;
    var m := MembersUpTo(wf, id, |wf.steps|);
    NoMembers(wf, id, |wf.steps|);
    ContiguousIsHoleFree(wf, id);
  }

  // ---------------------------------------------------------------------------
  // What a plan without issues looks like
  // ---------------------------------------------------------------------------

  ghost predicate GoodHeader(wf: Workflow) {
    && wf.version == WORKFLOW_VERSION
    && (wf.name.Some? ==> 1 <= |wf.name.value| <= 128)
    && (wf.idempotencyKey.Some? ==> 1 <= |wf.idempotencyKey.value| <= 256)
    && (wf.expectedMode.Some? ==> wf.expectedMode.value in ["edit", "play", "run"])
    && (wf.expectedPlaceId.Some? ==> IsDigits(wf.expectedPlaceId.value))
    && 1 <= |wf.steps| <= MAX_WORKFLOW_STEPS
  }

  ghost predicate GoodIds(wf: Workflow) {
    && (forall i | 0 <= i < |wf.transactions| :: ValidIdentifier(wf.transactions[i].id))
    && (forall i, j | 0 <= j < i < |wf.transactions| :: wf.transactions[j].id != wf.transactions[i].id)
    && (forall i | 0 <= i < |wf.steps| :: ValidIdentifier(wf.steps[i].id))
    && (forall i, j | 0 <= j < i < |wf.steps| :: wf.steps[j].id != wf.steps[i].id)
  }

  ghost predicate GoodBody(wf: Workflow, schema: Schema, i: nat)
    requires i < |wf.steps|
  {
    && schema.passes(wf.steps[i])
    && (wf.steps[i].transaction.Some? ==>
          var id := wf.steps[i].transaction.value;
          && id in Definitions(wf.transactions)
          && (Definitions(wf.transactions)[id] ==> AtomicSafe(wf.steps[i].op)))
  }

  /** Every step passes its checks and belongs, if to a group, to a declared one that admits its operation. */
  ghost predicate GoodBodies(wf: Workflow, schema: Schema) {
    forall i | 0 <= i < |wf.steps| :: GoodBody(wf, schema, i)
  }

  ghost predicate GoodGroup(wf: Workflow, i: nat)
    requires i < |wf.transactions|
  {
    && (exists j :: InGroup(wf, j, wf.transactions[i].id))
    && (wf.transactions[i].atomic ==> !HasHole(wf, wf.transactions[i].id))
  }

  /** Every group has a member, and no foreign step lies between two members of an atomic one. */
  ghost predicate GoodGroups(wf: Workflow) {
    forall i | 0 <= i < |wf.transactions| :: GoodGroup(wf, i)
  }

  /** Every reference is well formed and names a step strictly before the one that uses it. */
  ghost predicate GoodReferences(wf: Workflow) {
    forall i | 0 <= i < |wf.steps| ::
      && (forall p :: !MalformedLeaf(ToValue(wf.steps[i]), p))
      && (forall p, id | NamesStep(ToValue(wf.steps[i]), p, id) :: exists j: nat :: j < i && wf.steps[j].id == id)
  }

  ghost predicate WellFormed(wf: Workflow, schema: Schema) {
    GoodHeader(wf) && GoodIds(wf) && GoodBodies(wf, schema) && GoodGroups(wf) && GoodReferences(wf)
  }

  ghost predicate NoIssues(wf: Workflow, schema: Schema) {
    forall x :: !Applies(wf, schema, x)
  }

  lemma HeaderWithoutIssues(wf: Workflow)
    ensures (forall x :: !HeaderApplies(wf, x)) <==> GoodHeader(wf)
  {
    if forall x :: !HeaderApplies(wf, x) {
      assert !HeaderApplies(wf, UnsupportedVersion) && !HeaderApplies(wf, InvalidName);
      assert !HeaderApplies(wf, InvalidIdempotencyKey) && !HeaderApplies(wf, InvalidExpectedMode);
      assert !HeaderApplies(wf, InvalidPlaceId);
      assert !HeaderApplies(wf, EmptyWorkflow) && !HeaderApplies(wf, TooManySteps);
    }
  }

  lemma IdsWithoutIssues(wf: Workflow)
    ensures (forall x :: !DeclarationApplies(wf, x) && !StepIdApplies(wf, x)) <==> GoodIds(wf)
  {
    if forall x :: !DeclarationApplies(wf, x) && !StepIdApplies(wf, x) {
      forall i | 0 <= i < |wf.transactions|
        ensures ValidIdentifier(wf.transactions[i].id)
        ensures forall j | 0 <= j < i :: wf.transactions[j].id != wf.transactions[i].id
      {
        assert !DeclarationApplies(wf, InvalidTransactionIdentifier(i));
        assert !DeclarationApplies(wf, DuplicateTransactionId(i));
      }
      forall i | 0 <= i < |wf.steps|
        ensures ValidIdentifier(wf.steps[i].id)
        ensures forall j | 0 <= j < i :: wf.steps[j].id != wf.steps[i].id
      {
        assert !StepIdApplies(wf, InvalidStepIdentifier(i));
        assert !StepIdApplies(wf, DuplicateStepId(i));
      }
    }
  }

  /** The body rules other than the reference discipline. */
  ghost predicate PlainBodyApplies(wf: Workflow, schema: Schema, x: Issue) {
    (x.FailedStepCheck? || x.UnknownTransaction? || x.UnsafeAtomicOperation?) && BodyApplies(wf, schema, x)
  }

  lemma BodiesWithoutIssues(wf: Workflow, schema: Schema)
    ensures (forall x :: !PlainBodyApplies(wf, schema, x)) <==> GoodBodies(wf, schema)
  {
    if forall x :: !PlainBodyApplies(wf, schema, x) {
      forall i | 0 <= i < |wf.steps|
        ensures GoodBody(wf, schema, i)
      {
        assert !PlainBodyApplies(wf, schema, FailedStepCheck(i));
        assert !PlainBodyApplies(wf, schema, UnknownTransaction(i));
        assert !PlainBodyApplies(wf, schema, UnsafeAtomicOperation(i));
      }
    }
    if GoodBodies(wf, schema) {
      forall x: Issue
        ensures !PlainBodyApplies(wf, schema, x)
      {
        if (x.FailedStepCheck? || x.UnknownTransaction? || x.UnsafeAtomicOperation?) && x.index < |wf.steps| {
          assert GoodBody(wf, schema, x.index);
        }
      }
    }
  }

  lemma GroupsWithoutIssues(wf: Workflow)
    ensures (forall x :: !GroupApplies(wf, x)) <==> GoodGroups(wf)
  {
    if forall x :: !GroupApplies(wf, x) {
      forall i | 0 <= i < |wf.transactions|
        ensures GoodGroup(wf, i)
      {
        assert !GroupApplies(wf, EmptyTransaction(i));
        assert !GroupApplies(wf, NonContiguousAtomicTransaction(i));
      }
    }
    if GoodGroups(wf) {
      forall x: Issue
        ensures !GroupApplies(wf, x)
      {
        if (x.EmptyTransaction? || x.NonContiguousAtomicTransaction?) && x.index < |wf.transactions| {
          assert GoodGroup(wf, x.index);
        }
      }
    }
  }

  lemma ReferencesWithoutIssues(wf: Workflow)
    requires GoodIds(wf)
    ensures (forall x :: !ReferenceApplies(wf, x)) <==> GoodReferences(wf)
  {
    if forall x :: !ReferenceApplies(wf, x) {
      forall i, p | 0 <= i < |wf.steps|
        ensures !MalformedLeaf(ToValue(wf.steps[i]), p)
      {
        assert !ReferenceApplies(wf, InvalidReference(i, p));
      }
      forall i, p, id | 0 <= i < |wf.steps| && NamesStep(ToValue(wf.steps[i]), p, id)
        ensures exists j: nat :: j < i && wf.steps[j].id == id
      {
        assert !ReferenceApplies(wf, UnknownReference(i, p));
        assert !ReferenceApplies(wf, SelfReference(i, p)) && !ReferenceApplies(wf, ForwardReference(i, p));
        NamesAnEarlierStep(wf, i, p, id);
      }
    }
    if GoodReferences(wf) {
      forall x
        ensures !ReferenceApplies(wf, x)
      {
        GoodReferencesRaiseNothing(wf, x);
      }
    }
  }

  lemma NamesAnEarlierStep(wf: Workflow, i: nat, p: Pointer, id: string)
    requires i < |wf.steps| && NamesStep(ToValue(wf.steps[i]), p, id)
    requires !ReferenceApplies(wf, UnknownReference(i, p))
    requires !ReferenceApplies(wf, SelfReference(i, p)) && !ReferenceApplies(wf, ForwardReference(i, p))
    ensures exists j: nat :: j < i && wf.steps[j].id == id
  {
    var j: nat :| NamedStep(wf, id, j);
    assert j < i;
  }

  lemma GoodReferencesRaiseNothing(wf: Workflow, x: Issue)
    requires GoodReferences(wf) && GoodIds(wf)
    ensures !ReferenceApplies(wf, x)
  {
    if (x.UnknownReference? || x.SelfReference? || x.ForwardReference?) && x.index < |wf.steps| {
      forall id | NamesStep(ToValue(wf.steps[x.index]), x.at, id)
        ensures exists j: nat :: NamedStep(wf, id, j) && j < x.index
        ensures forall k: nat :: NamedStep(wf, id, k) ==> k < x.index
      {
        var j: nat :| j < x.index && wf.steps[j].id == id;
        assert NamedStep(wf, id, j);
      }
    }
  }

  /** The issue lists of the validator's passes, taken together. */
  lemma IssuesByPass(wf: Workflow, schema: Schema)
    ensures NoIssues(wf, schema) <==>
            && (forall x :: !HeaderApplies(wf, x))
            && (forall x :: !DeclarationApplies(wf, x) && !StepIdApplies(wf, x))
            && (forall x :: !PlainBodyApplies(wf, schema, x))
            && (forall x :: !ReferenceApplies(wf, x))
            && (forall x :: !GroupApplies(wf, x))
  {
    forall x
      ensures Applies(wf, schema, x) <==>
              || HeaderApplies(wf, x) || DeclarationApplies(wf, x) || StepIdApplies(wf, x)
              || PlainBodyApplies(wf, schema, x) || ReferenceApplies(wf, x) || GroupApplies(wf, x)
    {
      BodySplit(wf, schema, x);
    }
  }

  lemma BodySplit(wf: Workflow, schema: Schema, x: Issue)
    ensures BodyApplies(wf, schema, x) <==> PlainBodyApplies(wf, schema, x) || ReferenceApplies(wf, x)
  {
  }

  /** A plan passes validation exactly when it is well formed. */
  lemma ValidationIsWellFormedness(wf: Workflow, schema: Schema)
    ensures NoIssues(wf, schema) <==> WellFormed(wf, schema)
  {
    IssuesByPass(wf, schema);
    HeaderWithoutIssues(wf);
    IdsWithoutIssues(wf);
    BodiesWithoutIssues(wf, schema);
    GroupsWithoutIssues(wf);
    if GoodIds(wf) { ReferencesWithoutIssues(wf); }
  }

  // ---------------------------------------------------------------------------
  // Repeated step ids
  // ---------------------------------------------------------------------------

  ghost predicate Carries(wf: Workflow, j: nat, id: string) {
    j < |wf.steps| && wf.steps[j].id == id
  }

  /** The step taken for `id` is the first that carries it exactly when no duplicate of `id` is reported. */
  lemma NamedStepIsFirstIff(wf: Workflow, id: string, j: nat)
    requires NamedStep(wf, id, j)
    ensures (forall k: nat | k < j :: !Carries(wf, k, id)) <==>
            forall i: nat | Carries(wf, i, id) :: !StepIdApplies(wf, DuplicateStepId(i))
  {
    if k: nat :| k < j && Carries(wf, k, id) {
      assert Carries(wf, j, id) && StepIdApplies(wf, DuplicateStepId(j));
    }
    if i: nat :| Carries(wf, i, id) && StepIdApplies(wf, DuplicateStepId(i)) {
      var k :| 0 <= k < i && wf.steps[k].id == wf.steps[i].id;
      assert i <= j && Carries(wf, k, id);
    }
  }

  lemma {:induction false} LastCarrier(wf: Workflow, id: string, j: nat, n: nat) returns (last: nat)
    requires Carries(wf, j, id) && j < n <= |wf.steps|
    requires forall k | n <= k < |wf.steps| :: wf.steps[k].id != id
    ensures j <= last && NamedStep(wf, id, last)
    decreases n
  {
    if wf.steps[n - 1].id == id {
      last := n - 1;
    } else {
      last := LastCarrier(wf, id, j, n - 1);
    }
  }

  /**
   A reference to an earlier step is still reported, as one to itself or to a later step, exactly when its own step
   or a later one carries the same id.
   */
  lemma EarlierReferenceIsReportedIff(wf: Workflow, i: nat, p: Pointer, id: string, k: nat)
    requires i < |wf.steps| && NamesStep(ToValue(wf.steps[i]), p, id) && k < i && Carries(wf, k, id)
    ensures ReferenceApplies(wf, SelfReference(i, p)) || ReferenceApplies(wf, ForwardReference(i, p)) <==>
            exists j: nat :: i <= j && Carries(wf, j, id)
  {
    hide ToValue;
    if j: nat :| i <= j && Carries(wf, j, id) {
      var last := LastCarrier(wf, id, j, |wf.steps|);
      assert NamedStep(wf, id, last);
    }
    if ReferenceApplies(wf, SelfReference(i, p)) { assert Carries(wf, i, id); }
    if ReferenceApplies(wf, ForwardReference(i, p)) {
      var id', j: nat :| NamesStep(ToValue(wf.steps[i]), p, id') && NamedStep(wf, id', j) && j > i;
      assert id' == id && Carries(wf, j, id);
    }
  }

  /** Step `b` refers to `a`, and there is an `a` before it and another after it. */
  function RepeatedPlan(): Workflow {
    var a, b := Step("a", None, false, Op.Get, []), Step("b", None, false, Op.Get, [Field("path", Str("$a"))]);
    Workflow(WORKFLOW_VERSION, None, None, None, None, [], [a, b, a])
  }

  /** The reference is reported as one to a later step, although the first step carries the id. */
  lemma RepeatedIdMisleads()
    ensures var wf := RepeatedPlan();
            Carries(wf, 0, "a") && |wf.steps| == 3 && ReferenceApplies(wf, ForwardReference(1, [2]))
  {
    var wf := RepeatedPlan();
    var body := ToValue(wf.steps[1]);
    assert At(body, [2]) == Some(Str("$a")) by {
      assert Entries(body)[2] == Str("$a");
      assert [2][1..] == [];
      assert At(Str("$a"), []) == Some(Str("$a"));
    }
    var r := Reference("a", []);
    assert Spell(r) == "$a" by { assert JoinDots(["a"] + []) == "a"; }
    ParseIsInverseOfSpell("$a", r);
    hide ParseReference;
    assert NamesStep(body, [2], "a");
    assert NamedStep(wf, "a", 2);
  }
}
