/**
 Running a validated plan, step by step, against an arbitrary plugin. Every call the loop makes and
 every step outcome it records is an event of the run's log; the safety rules are stated on logs.
 */
module Execute {
  import opened Basics
  import opened Json
  import opened References
  import opened Workflow
  import opened Validation

  // ---------------------------------------------------------------------------
  // Plugin and log
  // ---------------------------------------------------------------------------

  datatype Request =
    | BeginTransaction(id: string)
    | FinishTransaction(id: string, commit: bool)
    | CheckPreconditions(index: nat, step: Step)
    | ExecuteStep(index: nat, step: Step)
    | VerifyStep(index: nat, step: Step, response: Value)

  datatype Reply = Reply(ok: bool, response: Value)

  /** Any behaviour: a reply may depend on everything that happened before. */
  type Plugin = (seq<Event>, Request) -> Reply

  datatype Event =
    | Began(id: string, acknowledged: bool)
    | Finished(id: string, commit: bool, ok: bool)
    | Checked(index: nat, ok: bool)
    | Executed(index: nat, op: Op, ok: bool)
    | Verified(index: nat, ok: bool)
    | Unresolved(index: nat, reason: ResolveError)
    | Reported(index: nat, ok: bool)

  datatype Report = Report(id: string, op: Op, transaction: Option<string>, ok: bool, verified: Option<bool>)

  datatype TransactionOutcome = TransactionOutcome(id: string, commit: bool, ok: bool)

  datatype Outcome = Outcome(
    ok: bool,
    steps: seq<Report>,
    results: StepResults,
    transactions: seq<TransactionOutcome>,
    transactionErrors: seq<string>,
    rollbackErrors: seq<string>,
    rolledBack: bool)

  /** The atomic group a step belongs to. */
  function AtomicOf(wf: Workflow, i: nat): Option<string>
    requires i < |wf.steps|
  {
    Atomic(Definitions(wf.transactions), wf.steps[i].transaction)
  }

  function Atomic(definitions: map<string, bool>, transaction: Option<string>): Option<string> {
    if transaction.Some? && transaction.value in definitions && definitions[transaction.value]
    then transaction else None
  }

  /** The recording open on the plugin's side. A failed commit leaves it open; a rollback attempt gives it up. */
  function Open(log: seq<Event>): Option<string> {
    if log == [] then None
    else
      var before := Open(log[..|log| - 1]);
      match log[|log| - 1]
      case Began(id, acknowledged) => if acknowledged then Some(id) else before
      case Finished(_, commit, ok) => if commit && !ok then before else None
      case _ => before
  }

  function ReportCount(log: seq<Event>): nat {
    if log == [] then 0
    else ReportCount(log[..|log| - 1]) + (if log[|log| - 1].Reported? then 1 else 0)
  }

  function FinishesOf(log: seq<Event>): seq<TransactionOutcome> {
    if log == [] then []
    else
      var before := FinishesOf(log[..|log| - 1]);
      match log[|log| - 1]
      case Finished(id, commit, ok) => before + [TransactionOutcome(id, commit, ok)]
      case _ => before
  }

  /** An event of step `i`. */
  predicate Touches(e: Event, i: nat) {
    (e.Checked? || e.Executed? || e.Verified? || e.Unresolved? || e.Reported?) && e.index == i
  }

  /** A member of an atomic group has failed. */
  ghost predicate MemberFailed(wf: Workflow, log: seq<Event>) {
    exists i | 0 <= i < |wf.steps| && AtomicOf(wf, i).Some? :: Reported(i, false) in log
  }

  /** Why a rollback may be sent. */
  ghost predicate SomethingFailed(log: seq<Event>) {
    (exists i: nat :: Reported(i, false) in log) || (exists id :: Finished(id, true, false) in log)
  }

  // ---------------------------------------------------------------------------
  // What each event requires of the history before it
  // ---------------------------------------------------------------------------

  ghost predicate Allowed(wf: Workflow, log: seq<Event>, e: Event) {
    match e
    case Began(id, _) =>
      && Open(log) == None
      && ReportCount(log) < |wf.steps| && AtomicOf(wf, ReportCount(log)) == Some(id)
      && !MemberFailed(wf, log)
      && (forall b :: Began(id, b) !in log)
      && (forall i | 0 <= i < |wf.steps| && InGroup(wf, i, id) :: forall x | x in log :: !Touches(x, i))
    case Finished(id, commit, _) =>
      && Open(log) == Some(id)
      && (commit ==> forall i | 0 <= i < |wf.steps| && InGroup(wf, i, id) :: Reported(i, true) in log)
      && (!commit ==> SomethingFailed(log))
    case Checked(i, _) => StepMayRun(wf, log, i) && Untouched(log, i)
    case Executed(i, op, _) =>
      && StepMayRun(wf, log, i)
      && op == wf.steps[i].op
      && (Open(log).Some? ==> AtomicSafe(op))
      && Checked(i, true) in log && NotExecuted(log, i)
    case Verified(i, _) =>
      && StepMayRun(wf, log, i)
      && wf.steps[i].verify
      && Executed(i, wf.steps[i].op, true) in log && NotVerified(log, i)
    case Unresolved(i, reason) =>
      && i == ReportCount(log) < |wf.steps|
      && !MemberFailed(wf, log)
      && (reason.BadReference? ==> reason.error.MissingSegment?)
    case Reported(i, ok) =>
      && i == ReportCount(log) < |wf.steps|
      && (ok ==> Open(log) == AtomicOf(wf, i) && Passed(wf, log, i))
      && (!ok ==> Broke(wf, log, i))
      && !MemberFailed(wf, log)
  }

  /** Nothing of step `i` has happened yet. */
  ghost predicate Untouched(log: seq<Event>, i: nat) {
    forall x | x in log :: !Touches(x, i)
  }

  ghost predicate NotExecuted(log: seq<Event>, i: nat) {
    forall op, ok :: Executed(i, op, ok) !in log
  }

  ghost predicate NotVerified(log: seq<Event>, i: nat) {
    forall ok :: Verified(i, ok) !in log
  }

  /** The step's preconditions held, its operation succeeded and, if it asks for it, verification confirmed it. */
  ghost predicate Passed(wf: Workflow, log: seq<Event>, i: nat)
    requires i < |wf.steps|
  {
    && Checked(i, true) in log
    && Executed(i, wf.steps[i].op, true) in log
    && (wf.steps[i].verify ==> Verified(i, true) in log)
  }

  /** Something of the step failed. */
  ghost predicate Broke(wf: Workflow, log: seq<Event>, i: nat)
    requires i < |wf.steps|
  {
    || UnresolvedAt(log, i)
    || Checked(i, false) in log
    || Executed(i, wf.steps[i].op, false) in log
    || Verified(i, false) in log
  }

  ghost predicate UnresolvedAt(log: seq<Event>, k: nat) {
    exists reason :: Unresolved(k, reason) in log
  }

  /** A step runs in plan order, inside exactly the bracket its group asks for, and never after a failed member. */
  ghost predicate StepMayRun(wf: Workflow, log: seq<Event>, i: nat) {
    && i == ReportCount(log) < |wf.steps|
    && Open(log) == AtomicOf(wf, i)
    && !MemberFailed(wf, log)
  }

  /** Every event of the log is allowed by the events before it. */
  ghost predicate Safe(wf: Workflow, log: seq<Event>) {
    log == [] || (Safe(wf, log[..|log| - 1]) && Allowed(wf, log[..|log| - 1], log[|log| - 1]))
  }

  lemma SafeAppend(wf: Workflow, log: seq<Event>, e: Event)
    requires Safe(wf, log) && Allowed(wf, log, e)
    ensures Safe(wf, log + [e])
  {
    assert (log + [e])[..|log|] == log;
  }

  lemma OpenAppend(log: seq<Event>, e: Event)
    ensures Open(log + [e]) ==
            (match e
             case Began(id, acknowledged) => if acknowledged then Some(id) else Open(log)
             case Finished(_, commit, ok) => if commit && !ok then Open(log) else None
             case _ => Open(log))
    ensures ReportCount(log + [e]) == ReportCount(log) + (if e.Reported? then 1 else 0)
    ensures FinishesOf(log + [e]) ==
            FinishesOf(log) + (if e.Finished? then [TransactionOutcome(e.id, e.commit, e.ok)] else [])
  {
    assert (log + [e])[..|log|] == log;
  }

  // ---------------------------------------------------------------------------
  // The loop's mutable state
  // ---------------------------------------------------------------------------

  datatype Progress = Progress(
    log: seq<Event>,
    results: StepResults,
    reports: seq<Report>,
    active: Option<string>,
    failed: bool,
    transactions: seq<TransactionOutcome>,
    transactionErrors: seq<string>,
    rollbackErrors: seq<string>)

  ghost predicate CommitFailed(log: seq<Event>) {
    exists id :: Finished(id, true, false) in log
  }

  ghost predicate RollbackFailed(log: seq<Event>) {
    exists id :: Finished(id, false, false) in log
  }

  ghost predicate ReportsPlan(wf: Workflow, reports: seq<Report>) {
    && |reports| <= |wf.steps|
    && forall k | 0 <= k < |reports| ::
         && reports[k].id == wf.steps[k].id
         && reports[k].op == wf.steps[k].op
         && reports[k].transaction == wf.steps[k].transaction
  }

  ghost predicate AllOk(reports: seq<Report>) {
    forall k | 0 <= k < |reports| :: reports[k].ok
  }

  /** The log is safe and the bracket state and outcome list follow it. */
  ghost predicate Tracks(wf: Workflow, s: Progress) {
    && Safe(wf, s.log)
    && Open(s.log) == s.active
    && s.transactions == FinishesOf(s.log)
    && ReportCount(s.log) == |s.reports|
  }

  /** The ids of the first `n` steps. */
  ghost function IdsBefore(wf: Workflow, n: nat): set<string>
    requires n <= |wf.steps|
  {
    if n == 0 then {} else IdsBefore(wf, n - 1) + {wf.steps[n - 1].id}
  }

  /** Reports and stored results are those of the reported steps. */
  ghost predicate Records(wf: Workflow, log: seq<Event>, reports: seq<Report>, results: StepResults) {
    && ReportsPlan(wf, reports)
    && (forall k: nat, ok :: Reported(k, ok) in log <==> k < |reports| && reports[k].ok == ok)
    && results.Keys == IdsBefore(wf, |reports|)
    && (forall k | 0 <= k < |reports| :: wf.steps[k].id in results && IsOk(results[wf.steps[k].id]) == reports[k].ok)
  }

  ghost predicate Flags(s: Progress) {
    && (s.transactionErrors != [] <==> CommitFailed(s.log))
    && (s.rollbackErrors != [] <==> RollbackFailed(s.log))
    && (s.failed <==> !AllOk(s.reports) || s.transactionErrors != [])
  }

  /** The bookkeeping agrees with the log, at every moment between steps and after the loop. */
  ghost predicate Journal(wf: Workflow, s: Progress) {
    Tracks(wf, s) && Records(wf, s.log, s.reports, s.results) && Flags(s)
  }

  /** A failed step the loop runs past: keep-going, outside atomic groups, with no bracket left open by it. */
  ghost predicate Tolerated(wf: Workflow, s: Progress, keepGoing: bool, k: nat)
    requires k < |s.reports| <= |wf.steps|
  {
    || s.reports[k].ok
    || (&& keepGoing && AtomicOf(wf, k) == None
        && (UnresolvedAt(s.log, k) && k > 0 ==> AtomicOf(wf, k - 1) == None))
  }

  ghost predicate GroupStartsBefore(wf: Workflow, id: string, n: nat) {
    exists j: nat :: j < n && InGroup(wf, j, id)
  }

  /** Only reported steps have left events. */
  ghost predicate TouchedUpTo(log: seq<Event>, n: nat) {
    forall x, k: nat | x in log && Touches(x, k) :: k < n
  }

  /** Every bracket begun so far was acknowledged, belongs to a group already reached, and is open or committed. */
  ghost predicate BracketsKept(wf: Workflow, log: seq<Event>, active: Option<string>, upTo: nat) {
    forall id, b | Began(id, b) in log ::
      b && GroupStartsBefore(wf, id, upTo) && (active == Some(id) || Finished(id, true, true) in log)
  }

  /** Every atomic step done so far ran inside a bracket of its group. */
  ghost predicate GroupsBegun(wf: Workflow, log: seq<Event>, n: nat)
    requires n <= |wf.steps|
  {
    forall k | 0 <= k < n && AtomicOf(wf, k).Some? :: Began(AtomicOf(wf, k).value, true) in log
  }

  ghost predicate AllTolerated(wf: Workflow, s: Progress, keepGoing: bool, n: nat)
    requires n <= |s.reports| <= |wf.steps|
  {
    forall k | 0 <= k < n :: Tolerated(wf, s, keepGoing, k)
  }

  /** Nothing has gone wrong that ends the run; every bracket but the active one is committed. */
  ghost predicate OnCourse(wf: Workflow, s: Progress, keepGoing: bool, upTo: nat) {
    && |s.reports| <= |wf.steps|
    && s.transactionErrors == [] && s.rollbackErrors == []
    && !MemberFailed(wf, s.log)
    && TouchedUpTo(s.log, |s.reports|)
    && BracketsKept(wf, s.log, s.active, upTo)
    && GroupsBegun(wf, s.log, |s.reports|)
    && AllTolerated(wf, s, keepGoing, |s.reports|)
  }

  /** Between steps: the open bracket is the one of the step just done. */
  ghost predicate Running(wf: Workflow, s: Progress, keepGoing: bool) {
    && Journal(wf, s)
    && OnCourse(wf, s, keepGoing, |s.reports|)
    && s.active == (if |s.reports| == 0 then None else AtomicOf(wf, |s.reports| - 1))
  }

  /** About to run the next step: the open bracket is the one it asks for. */
  ghost predicate Poised(wf: Workflow, s: Progress, keepGoing: bool) {
    && Journal(wf, s)
    && OnCourse(wf, s, keepGoing, |s.reports| + 1)
    && |s.reports| < |wf.steps|
    && s.active == AtomicOf(wf, |s.reports|)
    && (s.active.Some? ==> Began(s.active.value, true) in s.log)
  }

  /** After the loop: no bracket is open, and a run that stopped early says why. */
  ghost predicate Ended(wf: Workflow, s: Progress, keepGoing: bool) {
    && Journal(wf, s)
    && s.active == None
    && (|s.reports| > 0 ==> AllTolerated(wf, s, keepGoing, |s.reports| - 1))
    && (|s.reports| < |wf.steps| ==>
          || s.transactionErrors != []
          || (|s.reports| > 0 && !Tolerated(wf, s, keepGoing, |s.reports| - 1)))
    && (!s.failed ==>
          && BracketsKept(wf, s.log, None, |s.reports|)
          && GroupsBegun(wf, s.log, |s.reports|))
  }

  // ---------------------------------------------------------------------------
  // What was asked and answered
  // ---------------------------------------------------------------------------

  function ErrorResponse(code: string): Value {
    Obj([Field("ok", Bool(false)), Field("value", Null), Field("error", Obj([Field("code", Str(code))]))])
  }

  const NotResolved := ErrorResponse("REFERENCE_RESOLUTION")
  const PreconditionFailed := ErrorResponse("PRECONDITION_FAILED")
  const VerifyFailed := ErrorResponse("VERIFY_FAILED")

  /** Step `i` as it stands after `log`: resolved against the results of the steps reported there. */
  ghost function StepNow(plugin: Plugin, wf: Workflow, schema: Schema, log: seq<Event>, i: nat): Result<Step, ResolveError>
    requires i < |wf.steps|
    decreases |log|, 1
  {
    ResolveStep(wf.steps[i], Stored(plugin, wf, schema, log), schema)
  }

  /** The plugin's response when asked, after `log`, to execute step `i` as it stands. */
  ghost function ResponseTo(plugin: Plugin, wf: Workflow, schema: Schema, log: seq<Event>, i: nat): Value
    decreases |log|, 2
  {
    if i < |wf.steps| && StepNow(plugin, wf, schema, log, i).Ok?
    then plugin(log, ExecuteStep(i, StepNow(plugin, wf, schema, log, i).value)).response
    else Null
  }

  /** What the last call of a log makes of its step: an error, or the response to its operation. */
  ghost function Verdict(plugin: Plugin, wf: Workflow, schema: Schema, log: seq<Event>): Value
    decreases |log|, 0
  {
    if log == [] then Null
    else
      var n := |log| - 1;
      match log[n]
      case Unresolved(_, _) => NotResolved
      case Checked(_, _) => PreconditionFailed
      case Executed(i, _, _) => ResponseTo(plugin, wf, schema, log[..n], i)
      case Verified(i, ok) => if ok && n > 0 then ResponseTo(plugin, wf, schema, log[..n - 1], i) else VerifyFailed
      case _ => Null
  }

  /** The results a log leaves: for every reported step the verdict of its last call. */
  ghost function Stored(plugin: Plugin, wf: Workflow, schema: Schema, log: seq<Event>): StepResults
    decreases |log|, 0
  {
    if log == [] then map[]
    else
      var n := |log| - 1;
      var before := Stored(plugin, wf, schema, log[..n]);
      match log[n]
      case Reported(i, _) =>
        if i < |wf.steps| then before[wf.steps[i].id := Verdict(plugin, wf, schema, log[..n])] else before
      case _ => before
  }

  /** The event says what the plugin answered to the request it stands for, asked after `log`. */
  ghost predicate Answer(plugin: Plugin, wf: Workflow, schema: Schema, log: seq<Event>, e: Event) {
    match e
    case Began(id, acknowledged) => acknowledged == plugin(log, BeginTransaction(id)).ok
    case Finished(id, commit, ok) => ok == plugin(log, FinishTransaction(id, commit)).ok
    case Unresolved(i, reason) => i < |wf.steps| && StepNow(plugin, wf, schema, log, i) == Err(reason)
    case Checked(i, ok) =>
      && i < |wf.steps| && StepNow(plugin, wf, schema, log, i).Ok?
      && ok == plugin(log, CheckPreconditions(i, StepNow(plugin, wf, schema, log, i).value)).ok
    case Executed(i, _, ok) =>
      && i < |wf.steps| && StepNow(plugin, wf, schema, log, i).Ok?
      && ok == IsOk(ResponseTo(plugin, wf, schema, log, i))
    case Verified(i, ok) =>
      && i < |wf.steps| && StepNow(plugin, wf, schema, log, i).Ok?
      && log != [] && log[|log| - 1] == Executed(i, wf.steps[i].op, true)
      && var response := ResponseTo(plugin, wf, schema, log[..|log| - 1], i);
         ok == plugin(log, VerifyStep(i, StepNow(plugin, wf, schema, log, i).value, response)).ok
    case Reported(i, ok) =>
      && log != [] && Touches(log[|log| - 1], i) && !log[|log| - 1].Reported?
      && ok == IsOk(Verdict(plugin, wf, schema, log))
  }

  ghost predicate Answered(plugin: Plugin, wf: Workflow, schema: Schema, log: seq<Event>) {
    log == [] ||
    (&& Answered(plugin, wf, schema, log[..|log| - 1])
     && Answer(plugin, wf, schema, log[..|log| - 1], log[|log| - 1]))
  }

  lemma AnsweredAppend(plugin: Plugin, wf: Workflow, schema: Schema, log: seq<Event>, e: Event)
    requires Answered(plugin, wf, schema, log) && Answer(plugin, wf, schema, log, e)
    ensures Answered(plugin, wf, schema, log + [e])
  {
    hide Answer;
    assert (log + [e])[..|log|] == log;
  }

  lemma StoredAppend(plugin: Plugin, wf: Workflow, schema: Schema, log: seq<Event>, e: Event)
    ensures !e.Reported? ==> Stored(plugin, wf, schema, log + [e]) == Stored(plugin, wf, schema, log)
    ensures e.Reported? && e.index < |wf.steps| ==>
              Stored(plugin, wf, schema, log + [e]) ==
              Stored(plugin, wf, schema, log)[wf.steps[e.index].id := Verdict(plugin, wf, schema, log)]
  {
    hide Verdict;
    assert (log + [e])[..|log|] == log;
  }

  /** The ids of the groups whose commits, or whose rollbacks, were refused, in the order of the log. */
  ghost function Refused(log: seq<Event>, commit: bool): seq<string> {
    if log == [] then []
    else
      var before := Refused(log[..|log| - 1], commit);
      match log[|log| - 1]
      case Finished(id, c, ok) => if c == commit && !ok then before + [id] else before
      case _ => before
  }

  lemma RefusedAppend(log: seq<Event>, e: Event, commit: bool)
    ensures Refused(log + [e], commit) ==
            Refused(log, commit) + (if e.Finished? && e.commit == commit && !e.ok then [e.id] else [])
  {
    assert (log + [e])[..|log|] == log;
  }

  /** Reports say what verification found, where there was one. */
  ghost predicate VerdictsShown(log: seq<Event>, reports: seq<Report>) {
    forall k: nat, ok | k < |reports| :: reports[k].verified == Some(ok) <==> Verified(k, ok) in log
  }

  /** Everything in the bookkeeping is what the plugin was asked and answered. */
  ghost predicate Told(plugin: Plugin, wf: Workflow, schema: Schema, s: Progress) {
    && Answered(plugin, wf, schema, s.log) && s.results == Stored(plugin, wf, schema, s.log)
    && s.transactionErrors == Refused(s.log, true) && s.rollbackErrors == Refused(s.log, false)
    && VerdictsShown(s.log, s.reports)
  }

  /** A begin or finish, told as it was answered. */
  lemma ToldBracket(plugin: Plugin, wf: Workflow, schema: Schema, s: Progress, s': Progress, e: Event)
    requires Told(plugin, wf, schema, s) && (e.Began? || e.Finished?) && Answer(plugin, wf, schema, s.log, e)
    requires s'.log == s.log + [e] && s'.results == s.results && s'.reports == s.reports
    requires s'.transactionErrors == s.transactionErrors + (if e.Finished? && e.commit && !e.ok then [e.id] else [])
    requires s'.rollbackErrors == s.rollbackErrors + (if e.Finished? && !e.commit && !e.ok then [e.id] else [])
    ensures Told(plugin, wf, schema, s')
  {
    hide Answer, Answered, Stored, Refused;
    AnsweredAppend(plugin, wf, schema, s.log, e);
    StoredAppend(plugin, wf, schema, s.log, e);
    RefusedAppend(s.log, e, true);
    RefusedAppend(s.log, e, false);
  }

  /** A step's calls and its report, told as they were answered. */
  lemma ToldReport(plugin: Plugin, wf: Workflow, schema: Schema, s: Progress, ext: seq<Event>, verified: Option<bool>)
    requires Told(plugin, wf, schema, s) && |s.reports| < |wf.steps| && Untouched(s.log, |s.reports|)
    requires ext != [] && forall x | x in ext :: Touches(x, |s.reports|) && !x.Reported?
    requires Answered(plugin, wf, schema, s.log + ext)
    requires Stored(plugin, wf, schema, s.log + ext) == Stored(plugin, wf, schema, s.log)
    requires forall ok :: verified == Some(ok) <==> Verified(|s.reports|, ok) in ext
    ensures Told(plugin, wf, schema,
                 Record(wf, s.(log := s.log + ext), Verdict(plugin, wf, schema, s.log + ext), verified))
  {
    hide Answered, Stored, Refused, Verdict;
    var response := Verdict(plugin, wf, schema, s.log + ext);
    var s' := Record(wf, s.(log := s.log + ext), response, verified);
    var e := Reported(|s.reports|, IsOk(response));
    assert s'.log == s.log + ext + [e] && (s.log + ext)[|s.log + ext| - 1] == ext[|ext| - 1];
    assert ext[|ext| - 1] in ext;
    AnsweredAppend(plugin, wf, schema, s.log + ext, e);
    StoredAppend(plugin, wf, schema, s.log + ext, e);
    forall commit
      ensures Refused(s'.log, commit) == Refused(s.log, commit)
    {
      StepsRefuseNothing(s.log, ext, |s.reports|, commit);
      RefusedAppend(s.log + ext, e, commit);
    }
    VerdictAdded(s.log, ext, s.reports, s'.reports, IsOk(response), verified);
  }

  lemma {:induction false} StepsRefuseNothing(log: seq<Event>, ext: seq<Event>, i: nat, commit: bool)
    requires forall x | x in ext :: Touches(x, i)
    ensures Refused(log + ext, commit) == Refused(log, commit)
    decreases |ext|
  {
    if ext == [] {
      assert log + ext == log;
    } else {
      var n := |ext| - 1;
      assert ext[n] in ext && log + ext == log + ext[..n] + [ext[n]];
      StepsRefuseNothing(log, ext[..n], i, commit);
      RefusedAppend(log + ext[..n], ext[n], commit);
    }
  }

  lemma VerdictAdded(log: seq<Event>, ext: seq<Event>, reports: seq<Report>, reports': seq<Report>, ok: bool,
                     verified: Option<bool>)
    requires VerdictsShown(log, reports) && Untouched(log, |reports|)
    requires forall x | x in ext :: Touches(x, |reports|)
    requires |reports'| == |reports| + 1 && reports'[..|reports|] == reports && reports'[|reports|].verified == verified
    requires forall b :: verified == Some(b) <==> Verified(|reports|, b) in ext
    ensures VerdictsShown(log + ext + [Reported(|reports|, ok)], reports')
  {
    var n, log' := |reports|, log + ext + [Reported(|reports|, ok)];
    forall k: nat, b | k < |reports'|
      ensures reports'[k].verified == Some(b) <==> Verified(k, b) in log'
    {
      assert Verified(k, b) in log' <==> Verified(k, b) in log || Verified(k, b) in ext;
      if k < n {
        assert reports'[k] == reports'[..n][k];
        assert !Touches(Verified(k, b), n);
      } else {
        assert Touches(Verified(n, b), n);
      }
    }
  }

  // ---------------------------------------------------------------------------
  // The executor
  // ---------------------------------------------------------------------------

  /** Sends `transaction_finish` and journals its outcome. */
  function Finish(plugin: Plugin, s: Progress, id: string, commit: bool): (Progress, bool) {
    var ok := plugin(s.log, FinishTransaction(id, commit)).ok;
    (s.(log := s.log + [Finished(id, commit, ok)],
        transactions := s.transactions + [TransactionOutcome(id, commit, ok)],
        active := if commit && !ok then s.active else None), ok)
  }

  lemma FinishTracks(plugin: Plugin, wf: Workflow, s: Progress, id: string, commit: bool)
    requires Tracks(wf, s) && s.active == Some(id)
    requires commit ==> forall i | 0 <= i < |wf.steps| && InGroup(wf, i, id) :: Reported(i, true) in s.log
    requires !commit ==> SomethingFailed(s.log)
    ensures Tracks(wf, Finish(plugin, s, id, commit).0)
  {
    var e := Finished(id, commit, Finish(plugin, s, id, commit).1);
    SafeAppend(wf, s.log, e);
    OpenAppend(s.log, e);
  }

  lemma RecordsAppend(wf: Workflow, log: seq<Event>, e: Event, reports: seq<Report>, results: StepResults)
    requires Records(wf, log, reports, results) && !e.Reported?
    ensures Records(wf, log + [e], reports, results)
  {
  }

  /** Rolls the open group back; a refused rollback is recorded. */
  method Rollback(plugin: Plugin, wf: Workflow, schema: Schema, s: Progress, id: string) returns (s': Progress)
    requires Tracks(wf, s) && Records(wf, s.log, s.reports, s.results) && Flags(s) && Told(plugin, wf, schema, s)
    requires s.active == Some(id) && SomethingFailed(s.log)
    ensures Journal(wf, s') && s'.active == None && Told(plugin, wf, schema, s')
    ensures exists ok :: s'.log == s.log + [Finished(id, false, ok)]
    ensures s'.reports == s.reports && s'.failed == s.failed && s'.transactionErrors == s.transactionErrors
  {
    FinishTracks(plugin, wf, s, id, false);
    var (finished, ok) := Finish(plugin, s, id, false);
    RecordsAppend(wf, s.log, Finished(id, false, ok), s.reports, s.results);
    s' := finished;
    if !ok {
      s' := s'.(rollbackErrors := s.rollbackErrors + [id]);
    }
    assert Flags(s') by { FinishFlags(s, s', id, false, ok); }
    assert Told(plugin, wf, schema, s') by { ToldBracket(plugin, wf, schema, s, s', Finished(id, false, ok)); }
    assert s'.log == s.log + [Finished(id, false, ok)];
  }

  lemma FinishFlags(s: Progress, s': Progress, id: string, commit: bool, ok: bool)
    requires Flags(s)
    requires s'.log == s.log + [Finished(id, commit, ok)] && s'.reports == s.reports
    requires s'.transactionErrors == s.transactionErrors + (if commit && !ok then [id] else [])
    requires s'.rollbackErrors == s.rollbackErrors + (if !commit && !ok then [id] else [])
    requires s'.failed == (s.failed || (commit && !ok))
    ensures Flags(s')
  {
    assert Finished(id, commit, ok) in s'.log;
    assert forall x :: x in s'.log <==> x in s.log || x == Finished(id, commit, ok);
  }

  /** Commits the open group; a refused commit is rolled back and ends the run. */
  method Commit(plugin: Plugin, wf: Workflow, schema: Schema, s: Progress, id: string) returns (s': Progress, ok: bool)
    requires Tracks(wf, s) && Records(wf, s.log, s.reports, s.results) && Flags(s) && s.active == Some(id)
    requires Told(plugin, wf, schema, s)
    requires forall i | 0 <= i < |wf.steps| && InGroup(wf, i, id) :: Reported(i, true) in s.log
    ensures Journal(wf, s') && s'.active == None && s'.reports == s.reports && Told(plugin, wf, schema, s')
    ensures ok ==> s' == s.(log := s.log + [Finished(id, true, true)], active := None, transactions := s'.transactions)
    ensures !ok ==> s'.failed && s'.transactionErrors != []
    ensures !ok ==> exists x :: s'.log == s.log + [Finished(id, true, false), Finished(id, false, x)]
  {
    FinishTracks(plugin, wf, s, id, true);
    var (finished, committed) := Finish(plugin, s, id, true);
    ok := committed;
    RecordsAppend(wf, s.log, Finished(id, true, ok), s.reports, s.results);
    s' := finished;
    hide Told;
    if ok {
      FinishFlags(s, s', id, true, ok);
      ToldBracket(plugin, wf, schema, s, s', Finished(id, true, ok));
    } else {
      s' := s'.(failed := true, transactionErrors := s.transactionErrors + [id]);
      FinishFlags(s, s', id, true, ok);
      ToldBracket(plugin, wf, schema, s, s', Finished(id, true, ok));
      s' := AbandonCommit(plugin, wf, schema, s', id, s.log);
    }
  }

  method AbandonCommit(plugin: Plugin, wf: Workflow, schema: Schema, s: Progress, id: string, ghost before: seq<Event>)
    returns (s': Progress)
    requires Tracks(wf, s) && Records(wf, s.log, s.reports, s.results) && Flags(s) && Told(plugin, wf, schema, s)
    requires s.active == Some(id) && s.log == before + [Finished(id, true, false)]
    ensures Journal(wf, s') && s'.active == None && Told(plugin, wf, schema, s')
    ensures exists x :: s'.log == before + [Finished(id, true, false), Finished(id, false, x)]
    ensures s'.reports == s.reports && s'.failed == s.failed && s'.transactionErrors == s.transactionErrors
  {
    assert Finished(id, true, false) in s.log;
    hide Told;
    s' := Rollback(plugin, wf, schema, s, id);
    ghost var x :| s'.log == s.log + [Finished(id, false, x)];
    assert s'.log == before + [Finished(id, true, false), Finished(id, false, x)];
  }

  lemma AtomicGroupsHaveNoHole(wf: Workflow, schema: Schema, id: string)
    requires WellFormed(wf, schema)
    requires Atomic(Definitions(wf.transactions), Some(id)) == Some(id)
    ensures !HasHole(wf, id)
  {
    DefinitionsHold(wf.transactions, id);
    var i :| 0 <= i < |wf.transactions| && wf.transactions[i].id == id && wf.transactions[i].atomic;
    assert GoodGroup(wf, i);
  }

  /** Leaving a group: every member has run and succeeded. */
  lemma GroupIsDone(wf: Workflow, schema: Schema, s: Progress, keepGoing: bool, id: string)
    requires WellFormed(wf, schema) && Running(wf, s, keepGoing) && s.active == Some(id)
    requires |s.reports| < |wf.steps| ==> AtomicOf(wf, |s.reports|) != Some(id)
    ensures forall k | 0 <= k < |wf.steps| && InGroup(wf, k, id) :: Reported(k, true) in s.log
  {
    var n := |s.reports|;
    AtomicGroupsHaveNoHole(wf, schema, id);
    forall k | 0 <= k < |wf.steps| && InGroup(wf, k, id)
      ensures Reported(k, true) in s.log
    {
      assert AtomicOf(wf, k) == Some(id);
      if k > n {
        assert !HoleAt(wf, id, n);
        assert InGroup(wf, n - 1, id);
      }
      assert k < n;
      assert Tolerated(wf, s, keepGoing, k);
    }
  }

  /** Entering a group: none of its members has been touched, and it has never begun. */
  lemma GroupIsFresh(wf: Workflow, schema: Schema, s: Progress, keepGoing: bool, id: string)
    requires WellFormed(wf, schema) && OnCourse(wf, s, keepGoing, |s.reports|) && |s.reports| < |wf.steps|
    requires AtomicOf(wf, |s.reports|) == Some(id)
    requires |s.reports| > 0 ==> AtomicOf(wf, |s.reports| - 1) != Some(id)
    ensures forall k | 0 <= k < |wf.steps| && InGroup(wf, k, id) :: forall x | x in s.log :: !Touches(x, k)
    ensures forall b :: Began(id, b) !in s.log
  {
    var n := |s.reports|;
    AtomicGroupsHaveNoHole(wf, schema, id);
    assert InGroup(wf, n, id);
    assert n > 0 ==> !InGroup(wf, n - 1, id) && !HoleAt(wf, id, n - 1);
    assert !GroupStartsBefore(wf, id, n);
    assert forall k: nat | InGroup(wf, k, id) :: k >= n;
  }

  // Each event of a step, with the part of the state it may change.

  lemma TracksAppend(wf: Workflow, s: Progress, e: Event)
    requires Tracks(wf, s) && Allowed(wf, s.log, e) && !e.Reported? && !e.Finished? && !e.Began?
    ensures Tracks(wf, s.(log := s.log + [e]))
  {
    SafeAppend(wf, s.log, e);
    OpenAppend(s.log, e);
  }

  /** Recording a step's outcome: one more report, one more stored result. */
  function Record(wf: Workflow, s: Progress, response: Value, verified: Option<bool>): Progress
    requires |s.reports| < |wf.steps|
  {
    var i := |s.reports|;
    var step := wf.steps[i];
    var ok := IsOk(response);
    s.(log := s.log + [Reported(i, ok)],
       results := s.results[step.id := response],
       reports := s.reports + [Report(step.id, step.op, step.transaction, ok, verified)],
       failed := s.failed || !ok)
  }

  /** `s'` is `s` after the calls `ext` and one more report. */
  ghost predicate AddsReport(s: Progress, s': Progress, ext: seq<Event>, ok: bool) {
    && |s'.reports| == |s.reports| + 1 && s.reports == s'.reports[..|s.reports|] && s'.reports[|s.reports|].ok == ok
    && s'.log == s.log + ext + [Reported(|s.reports|, ok)]
    && s'.transactionErrors == s.transactionErrors && s'.rollbackErrors == s.rollbackErrors
    && s'.active == s.active
  }

  lemma RecordAddsReport(wf: Workflow, s: Progress, ext: seq<Event>, response: Value, verified: Option<bool>)
    requires |s.reports| < |wf.steps|
    ensures AddsReport(s, Record(wf, s.(log := s.log + ext), response, verified), ext, IsOk(response))
  {
    var s' := Record(wf, s.(log := s.log + ext), response, verified);
    assert s'.reports[..|s.reports|] == s.reports;
  }

  lemma ReportKeepsJournal(wf: Workflow, s: Progress, response: Value, verified: Option<bool>)
    requires GoodIds(wf) && Journal(wf, s) && |s.reports| < |wf.steps|
    requires !MemberFailed(wf, s.log)
    requires IsOk(response) ==> s.active == AtomicOf(wf, |s.reports|) && Passed(wf, s.log, |s.reports|)
    requires !IsOk(response) ==> Broke(wf, s.log, |s.reports|)
    ensures Journal(wf, Record(wf, s, response, verified))
  {
    hide Tracks, Records, Flags, Record, MemberFailed, Passed, Broke;
    ReportKeepsTracks(wf, s, response, verified);
    ReportKeepsRecords(wf, s, response, verified);
    ReportKeepsFlags(wf, s, response, verified);
  }

  lemma ReportKeepsTracks(wf: Workflow, s: Progress, response: Value, verified: Option<bool>)
    requires Tracks(wf, s) && |s.reports| < |wf.steps| && !MemberFailed(wf, s.log)
    requires IsOk(response) ==> s.active == AtomicOf(wf, |s.reports|) && Passed(wf, s.log, |s.reports|)
    requires !IsOk(response) ==> Broke(wf, s.log, |s.reports|)
    ensures Tracks(wf, Record(wf, s, response, verified))
  {
    hide MemberFailed, Passed, Broke, Safe;
    var e := Reported(|s.reports|, IsOk(response));
    SafeAppend(wf, s.log, e);
    OpenAppend(s.log, e);
  }

  lemma ReportKeepsFlags(wf: Workflow, s: Progress, response: Value, verified: Option<bool>)
    requires Flags(s) && |s.reports| < |wf.steps|
    ensures Flags(Record(wf, s, response, verified))
  {
    var s' := Record(wf, s, response, verified);
    assert forall id, commit, ok :: Finished(id, commit, ok) in s'.log <==> Finished(id, commit, ok) in s.log;
    AllOkAppend(s.reports, s'.reports[|s.reports|]);
  }

  lemma AllOkAppend(reports: seq<Report>, report: Report)
    ensures AllOk(reports + [report]) <==> AllOk(reports) && report.ok
  {
    var all := reports + [report];
    assert all[..|reports|] == reports && all[|reports|] == report;
    if AllOk(all) { assert forall k | 0 <= k < |reports| :: reports[k] == all[k]; }
  }

  lemma ReportKeepsRecords(wf: Workflow, s: Progress, response: Value, verified: Option<bool>)
    requires GoodIds(wf) && Records(wf, s.log, s.reports, s.results) && |s.reports| < |wf.steps|
    ensures var s' := Record(wf, s, response, verified);
            Records(wf, s'.log, s'.reports, s'.results)
  {
    var s' := Record(wf, s, response, verified);
    var n := |s.reports|;
    assert forall k: nat, ok :: Reported(k, ok) in s'.log <==> Reported(k, ok) in s.log || (k == n && ok == IsOk(response));
  }

  /** Later events leave the verdict on earlier steps alone. */
  lemma ToleranceIsKept(wf: Workflow, s: Progress, s': Progress, ext: seq<Event>, keepGoing: bool)
    requires |s.reports| <= |s'.reports| <= |wf.steps| && s.reports == s'.reports[..|s.reports|]
    requires s'.log == s.log + ext
    requires forall x | x in ext && x.Unresolved? :: x.index >= |s.reports|
    ensures forall k | 0 <= k < |s.reports| ::
              Tolerated(wf, s, keepGoing, k) <==> Tolerated(wf, s', keepGoing, k)
  {
    forall k | 0 <= k < |s.reports|
      ensures UnresolvedAt(s'.log, k) <==> UnresolvedAt(s.log, k)
      ensures s'.reports[k] == s.reports[k]
    {
      assert forall reason :: Unresolved(k, reason) in s'.log <==> Unresolved(k, reason) in s.log;
      assert s'.reports[..|s.reports|][k] == s'.reports[k];
    }
  }

  /** The events a resolved step adds before its report. */
  ghost predicate OfStep(ext: seq<Event>, i: nat) {
    forall x | x in ext :: Touches(x, i) && !x.Unresolved? && !x.Reported?
  }

  lemma MembersStillFine(wf: Workflow, log: seq<Event>, ext: seq<Event>, i: nat, ok: bool)
    requires i < |wf.steps| && !MemberFailed(wf, log) && forall x | x in ext :: !x.Reported?
    requires ok || AtomicOf(wf, i) == None
    ensures !MemberFailed(wf, log + ext + [Reported(i, ok)])
  {
    var log' := log + ext + [Reported(i, ok)];
    forall k | 0 <= k < |wf.steps| && AtomicOf(wf, k).Some?
      ensures Reported(k, false) !in log'
    {
      assert Reported(k, false) !in log && Reported(k, false) !in ext;
    }
  }

  lemma BracketsStillKept(wf: Workflow, log: seq<Event>, ext: seq<Event>, active: Option<string>, upTo: nat)
    requires BracketsKept(wf, log, active, upTo)
    requires forall x | x in ext :: !x.Began? && !x.Finished?
    ensures BracketsKept(wf, log + ext, active, upTo)
  {
    forall id, b | Began(id, b) in log + ext
      ensures Began(id, b) in log
    {
    }
  }

  lemma StepStaysOnCourse(wf: Workflow, s: Progress, s': Progress, ext: seq<Event>, ok: bool, keepGoing: bool)
    requires OnCourse(wf, s, keepGoing, |s.reports| + 1) && |s.reports| < |wf.steps|
    requires s.active == AtomicOf(wf, |s.reports|)
    requires s.active.Some? ==> Began(s.active.value, true) in s.log
    requires OfStep(ext, |s.reports|) && AddsReport(s, s', ext, ok)
    requires ok || (keepGoing && s.active == None)
    ensures OnCourse(wf, s', keepGoing, |s'.reports|)
  {
    var n := |s.reports|;
    var tail := ext + [Reported(n, ok)];
    assert s'.log == s.log + tail;
    ToleranceIsKept(wf, s, s', tail, keepGoing);
    NotUnresolved(s.log, ext, n, ok);
    MembersStillFine(wf, s.log, ext, n, ok);
    BracketsStillKept(wf, s.log, tail, s.active, n + 1);
    assert TouchedUpTo(s'.log, n + 1);
    assert Tolerated(wf, s', keepGoing, n);
  }

  lemma NotUnresolved(log: seq<Event>, ext: seq<Event>, n: nat, ok: bool)
    requires TouchedUpTo(log, n) && OfStep(ext, n)
    ensures !UnresolvedAt(log + ext + [Reported(n, ok)], n)
  {
    forall reason
      ensures Unresolved(n, reason) !in log + ext + [Reported(n, ok)]
    {
      assert Touches(Unresolved(n, reason), n);
    }
  }

  /** Each event of `ext` is allowed by the log extended with the events before it. */
  ghost predicate SafeExtension(wf: Workflow, log: seq<Event>, ext: seq<Event>)
    decreases |ext|
  {
    ext == [] || (Allowed(wf, log, ext[0]) && SafeExtension(wf, log + [ext[0]], ext[1..]))
  }

  lemma StepMayGoOn(wf: Workflow, log: seq<Event>, i: nat, e: Event)
    requires StepMayRun(wf, log, i) && (e.Checked? || e.Executed? || e.Verified?)
    ensures StepMayRun(wf, log + [e], i)
  {
    OpenAppend(log, e);
    assert !MemberFailed(wf, log + [e]);
  }

  /** One step's calls: each allowed by what came before it and telling what was answered, none storing a result. */
  ghost predicate CallsOf(plugin: Plugin, wf: Workflow, schema: Schema, log: seq<Event>, ext: seq<Event>, i: nat) {
    && SafeExtension(wf, log, ext) && OfStep(ext, i)
    && Answered(plugin, wf, schema, log + ext)
    && Stored(plugin, wf, schema, log + ext) == Stored(plugin, wf, schema, log)
  }

  predicate IsCall(e: Event, i: nat) {
    (e.Checked? || e.Executed? || e.Verified?) && e.index == i
  }

  lemma OneCall(plugin: Plugin, wf: Workflow, schema: Schema, log: seq<Event>, e: Event, i: nat)
    requires Answered(plugin, wf, schema, log) && Allowed(wf, log, e) && Answer(plugin, wf, schema, log, e)
    requires IsCall(e, i)
    ensures CallsOf(plugin, wf, schema, log, [e], i)
  {
    hide Answer, Answered, Stored, Allowed;
    assert [e][0] == e && [e][1..] == [] && SafeExtension(wf, log + [e], []);
    AnsweredAppend(plugin, wf, schema, log, e);
    StoredAppend(plugin, wf, schema, log, e);
  }

  lemma OneMoreCall(plugin: Plugin, wf: Workflow, schema: Schema, log: seq<Event>, e: Event, rest: seq<Event>, i: nat)
    requires CallsOf(plugin, wf, schema, log, [e], i) && CallsOf(plugin, wf, schema, log + [e], rest, i)
    ensures CallsOf(plugin, wf, schema, log, [e] + rest, i)
  {
    hide Answered, Stored, Allowed;
    assert ([e] + rest)[1..] == rest && log + [e] + rest == log + ([e] + rest);
  }

  lemma CallsAreAnswered(plugin: Plugin, wf: Workflow, schema: Schema, log: seq<Event>, ext: seq<Event>, i: nat, j: nat)
    requires CallsOf(plugin, wf, schema, log, ext, i) && j < |wf.steps|
    ensures Answered(plugin, wf, schema, log + ext)
    ensures StepNow(plugin, wf, schema, log + ext, j) == StepNow(plugin, wf, schema, log, j)
  {
    hide Answered, Stored, SafeExtension, OfStep;
  }

  /** All calls one step makes: its check and, if that passes, the rest. */
  method Attempt(plugin: Plugin, wf: Workflow, schema: Schema, log: seq<Event>, i: nat, step: Step)
    returns (response: Value, verified: Option<bool>, ext: seq<Event>)
    requires StepMayRun(wf, log, i) && Untouched(log, i)
    requires step == wf.steps[i].(fields := step.fields)
    requires Answered(plugin, wf, schema, log) && StepNow(plugin, wf, schema, log, i) == Ok(step)
    requires Open(log).Some? ==> AtomicSafe(step.op)
    ensures CallsOf(plugin, wf, schema, log, ext, i) && response == Verdict(plugin, wf, schema, log + ext)
    ensures ext != [] && ext[0].Checked? && (!ext[0].ok ==> ext == [Checked(i, false)])
    ensures IsOk(response) ==> Passed(wf, ext, i)
    ensures !IsOk(response) ==> Broke(wf, ext, i)
    ensures forall ok :: verified == Some(ok) <==> Verified(i, ok) in ext
  {
    hide Answered, StepNow, CallsOf, Verdict, IsOk, Allowed, Answer, Untouched, NotExecuted, NotVerified, Passed, Broke,
         Stored, AtomicOf, MemberFailed, Open, ReportCount;
    var checked := Checked(i, plugin(log, CheckPreconditions(i, step)).ok);
    CheckIsAnswered(plugin, wf, schema, log, i, step);
    hide StepMayRun;
    if checked.ok {
      CallsAreAnswered(plugin, wf, schema, log, [checked], i, i);
      CheckedOnly(log, i, checked);
      var rest;
      response, verified, rest := Perform(plugin, wf, schema, log + [checked], i, step);
      OneMoreCall(plugin, wf, schema, log, checked, rest, i);
      ext := [checked] + rest;
      RestDecides(wf, i, rest, IsOk(response));
      assert log + ext == log + [checked] + rest;
    } else {
      response, verified, ext := PreconditionFailed, None, [checked];
      ErrorsAreNotOk("PRECONDITION_FAILED");
      LastVerdict(plugin, wf, schema, log, checked);
      FailedCheckDecides(wf, i);
    }
  }

  lemma CheckIsAnswered(plugin: Plugin, wf: Workflow, schema: Schema, log: seq<Event>, i: nat, step: Step)
    requires StepMayRun(wf, log, i) && Untouched(log, i)
    requires Answered(plugin, wf, schema, log) && StepNow(plugin, wf, schema, log, i) == Ok(step)
    ensures var checked := Checked(i, plugin(log, CheckPreconditions(i, step)).ok);
            && CallsOf(plugin, wf, schema, log, [checked], i)
            && StepMayRun(wf, log + [checked], i) && Open(log + [checked]) == Open(log)
  {
    hide Answered, StepNow, CallsOf, Untouched, AtomicOf, MemberFailed, ReportCount;
    var checked := Checked(i, plugin(log, CheckPreconditions(i, step)).ok);
    StepMayGoOn(wf, log, i, checked);
    OpenAppend(log, checked);
    hide Open;
    OneCall(plugin, wf, schema, log, checked, i);
  }

  lemma RestDecides(wf: Workflow, i: nat, rest: seq<Event>, ok: bool)
    requires i < |wf.steps|
    requires ok ==> Executed(i, wf.steps[i].op, true) in rest && (wf.steps[i].verify ==> Verified(i, true) in rest)
    requires !ok ==> Executed(i, wf.steps[i].op, false) in rest || Verified(i, false) in rest
    ensures ok ==> Passed(wf, [Checked(i, true)] + rest, i)
    ensures !ok ==> Broke(wf, [Checked(i, true)] + rest, i)
  {
  }

  lemma FailedCheckDecides(wf: Workflow, i: nat)
    requires i < |wf.steps|
    ensures Broke(wf, [Checked(i, false)], i)
  {
  }

  lemma CheckedOnly(log: seq<Event>, i: nat, e: Event)
    requires Untouched(log, i) && e.Checked?
    ensures NotExecuted(log + [e], i) && NotVerified(log + [e], i)
  {
    assert forall op, ok :: Touches(Executed(i, op, ok), i);
    assert forall ok :: Touches(Verified(i, ok), i);
  }

  /** The operation and, when it succeeded and the step asks for it, its verification. */
  method Perform(plugin: Plugin, wf: Workflow, schema: Schema, log: seq<Event>, i: nat, step: Step)
    returns (response: Value, verified: Option<bool>, ext: seq<Event>)
    requires StepMayRun(wf, log, i) && Checked(i, true) in log && NotExecuted(log, i) && NotVerified(log, i)
    requires step == wf.steps[i].(fields := step.fields)
    requires Answered(plugin, wf, schema, log) && StepNow(plugin, wf, schema, log, i) == Ok(step)
    requires Open(log).Some? ==> AtomicSafe(step.op)
    ensures CallsOf(plugin, wf, schema, log, ext, i) && response == Verdict(plugin, wf, schema, log + ext)
    ensures ext != [] && ext[0].Executed? && (!(step.verify && ext[0].ok) ==> |ext| == 1)
    ensures IsOk(response) ==> Executed(i, step.op, true) in ext && (step.verify ==> Verified(i, true) in ext)
    ensures !IsOk(response) ==> Executed(i, step.op, false) in ext || Verified(i, false) in ext
    ensures forall ok :: verified == Some(ok) <==> Verified(i, ok) in ext
  {
    hide Answered, StepNow, CallsOf, Verdict, IsOk;
    response, verified := plugin(log, ExecuteStep(i, step)).response, None;
    var executed := Executed(i, step.op, IsOk(response));
    assert response == ResponseTo(plugin, wf, schema, log, i);
    StepMayGoOn(wf, log, i, executed);
    OneCall(plugin, wf, schema, log, executed, i);
    ext := [executed];
    LastVerdict(plugin, wf, schema, log, executed);
    if step.verify && executed.ok {
      CallsAreAnswered(plugin, wf, schema, log, [executed], i, i);
      var confirmed;
      response, confirmed := Confirm(plugin, wf, schema, log, i, step, executed, response);
      OneMoreCall(plugin, wf, schema, log, executed, [confirmed], i);
      ext := [executed] + [confirmed];
      assert log + ext == log + [executed] + [confirmed];
      verified := Some(confirmed.ok);
    }
  }

  /** Verification of a step that was just executed: what it says decides whether the response stands. */
  method Confirm(plugin: Plugin, wf: Workflow, schema: Schema, log: seq<Event>, i: nat, step: Step,
                 executed: Event, response: Value)
    returns (response': Value, confirmed: Event)
    requires executed == Executed(i, step.op, true) && IsOk(response)
    requires StepMayRun(wf, log + [executed], i) && NotVerified(log, i)
    requires step == wf.steps[i].(fields := step.fields) && step.verify
    requires Answered(plugin, wf, schema, log + [executed]) && StepNow(plugin, wf, schema, log + [executed], i) == Ok(step)
    requires response == ResponseTo(plugin, wf, schema, log, i)
    ensures CallsOf(plugin, wf, schema, log + [executed], [confirmed], i)
    ensures confirmed == Verified(i, IsOk(response'))
    ensures response' == Verdict(plugin, wf, schema, log + [executed] + [confirmed])
  {
    confirmed := Verified(i, plugin(log + [executed], VerifyStep(i, step, response)).ok);
    response' := response;
    assert (log + [executed])[..|log|] == log;
    hide Answered, StepNow, CallsOf, Verdict, IsOk, StepMayRun;
    OneCall(plugin, wf, schema, log + [executed], confirmed, i);
    LastVerdict(plugin, wf, schema, log + [executed], confirmed);
    if !confirmed.ok {
      response' := VerifyFailed;
      ErrorsAreNotOk("VERIFY_FAILED");
    }
  }

  lemma LastVerdict(plugin: Plugin, wf: Workflow, schema: Schema, log: seq<Event>, e: Event)
    ensures e.Unresolved? ==> Verdict(plugin, wf, schema, log + [e]) == NotResolved
    ensures e.Checked? ==> Verdict(plugin, wf, schema, log + [e]) == PreconditionFailed
    ensures e.Executed? ==> Verdict(plugin, wf, schema, log + [e]) == ResponseTo(plugin, wf, schema, log, e.index)
    ensures e.Verified? && e.ok && log != [] ==>
              Verdict(plugin, wf, schema, log + [e]) == ResponseTo(plugin, wf, schema, log[..|log| - 1], e.index)
    ensures e.Verified? && !e.ok ==> Verdict(plugin, wf, schema, log + [e]) == VerifyFailed
  {
    hide ResponseTo;
    assert (log + [e])[..|log|] == log;
    if log != [] { assert (log + [e])[..|log| - 1] == log[..|log| - 1]; }
  }

  /** A step's calls leave the bookkeeping as it was. */
  lemma CallsKeepJournal(wf: Workflow, s: Progress, ext: seq<Event>)
    requires Journal(wf, s) && SafeExtension(wf, s.log, ext) && OfStep(ext, |s.reports|)
    ensures Journal(wf, s.(log := s.log + ext))
  {
    CallsKeepTracks(wf, s, ext, |s.reports|);
    CallsKeepRecords(wf, s.log, ext, |s.reports|, s.reports, s.results);
    CallsKeepFlags(s, ext, |s.reports|);
  }

  lemma {:induction false} CallsKeepTracks(wf: Workflow, s: Progress, ext: seq<Event>, i: nat)
    requires Tracks(wf, s) && SafeExtension(wf, s.log, ext) && OfStep(ext, i)
    ensures Tracks(wf, s.(log := s.log + ext))
    decreases |ext|
  {
    hide Safe, Open, FinishesOf, ReportCount, Allowed, Tracks;
    if ext == [] {
      assert s.log + ext == s.log;
    } else {
      var e := ext[0];
      TracksAppend(wf, s, e);
      CallsKeepTracks(wf, s.(log := s.log + [e]), ext[1..], i);
      assert s.log + [e] + ext[1..] == s.log + ext;
    }
  }

  lemma CallsKeepRecords(wf: Workflow, log: seq<Event>, ext: seq<Event>, i: nat,
                         reports: seq<Report>, results: StepResults)
    requires Records(wf, log, reports, results) && OfStep(ext, i)
    ensures Records(wf, log + ext, reports, results)
  {
    assert forall k: nat, ok :: Reported(k, ok) in log + ext <==> Reported(k, ok) in log;
  }

  lemma CallsKeepFlags(s: Progress, ext: seq<Event>, i: nat)
    requires Flags(s) && OfStep(ext, i)
    ensures Flags(s.(log := s.log + ext))
  {
    assert forall id, commit, ok :: Finished(id, commit, ok) in s.log + ext <==> Finished(id, commit, ok) in s.log;
  }

  lemma CallsKeepState(wf: Workflow, log: seq<Event>, ext: seq<Event>, i: nat)
    requires OfStep(ext, i)
    ensures Open(log + ext) == Open(log)
    ensures MemberFailed(wf, log + ext) <==> MemberFailed(wf, log)
  {
    CallsKeepOpen(log, ext, i);
    assert forall k: nat :: Reported(k, false) in log + ext <==> Reported(k, false) in log;
  }

  lemma {:induction false} CallsKeepOpen(log: seq<Event>, ext: seq<Event>, i: nat)
    requires OfStep(ext, i)
    ensures Open(log + ext) == Open(log)
    decreases |ext|
  {
    if ext == [] {
      assert log + ext == log;
    } else {
      var n := |ext| - 1;
      CallsKeepOpen(log, ext[..n], i);
      OpenAppend(log + ext[..n], ext[n]);
      assert log + ext == log + ext[..n] + [ext[n]];
    }
  }

  lemma CallsDecide(wf: Workflow, log: seq<Event>, ext: seq<Event>, i: nat)
    requires i < |wf.steps|
    ensures Passed(wf, ext, i) ==> Passed(wf, log + ext, i)
    ensures Broke(wf, ext, i) ==> Broke(wf, log + ext, i)
  {
    if reason :| Unresolved(i, reason) in ext { assert Unresolved(i, reason) in log + ext; }
  }

  /** A step's outcome, once its calls have decided it, keeps the bookkeeping. */
  lemma OutcomeKeepsJournal(wf: Workflow, s: Progress, ext: seq<Event>, response: Value, verified: Option<bool>)
    requires GoodIds(wf) && Journal(wf, s) && StepMayRun(wf, s.log, |s.reports|)
    requires SafeExtension(wf, s.log, ext) && OfStep(ext, |s.reports|)
    requires IsOk(response) ==> Passed(wf, ext, |s.reports|)
    requires !IsOk(response) ==> Broke(wf, ext, |s.reports|)
    ensures Journal(wf, Record(wf, s.(log := s.log + ext), response, verified))
  {
    hide Records, Flags, Record, Passed, Broke, SafeExtension, MemberFailed, Safe, FinishesOf;
    CallsKeepJournal(wf, s, ext);
    CallsKeepState(wf, s.log, ext, |s.reports|);
    CallsDecide(wf, s.log, ext, |s.reports|);
    ReportKeepsJournal(wf, s.(log := s.log + ext), response, verified);
  }

  /** Runs one resolved step and records its outcome either way. */
  method RunStep(plugin: Plugin, wf: Workflow, schema: Schema, s: Progress, step: Step)
    returns (s': Progress, ok: bool, ghost ext: seq<Event>)
    requires GoodIds(wf) && Journal(wf, s) && StepMayRun(wf, s.log, |s.reports|) && Untouched(s.log, |s.reports|)
    requires step == wf.steps[|s.reports|].(fields := step.fields)
    requires s.active.Some? ==> AtomicSafe(step.op)
    requires Told(plugin, wf, schema, s) && ResolveStep(wf.steps[|s.reports|], s.results, schema) == Ok(step)
    ensures Told(plugin, wf, schema, s')
    ensures Journal(wf, s') && OfStep(ext, |s.reports|) && AddsReport(s, s', ext, ok)
    ensures ok ==> Passed(wf, ext, |s.reports|)
    ensures !ok ==> Broke(wf, ext, |s.reports|)
  {
    hide Records, Flags, Record, Passed, Broke, SafeExtension, AddsReport, Safe, FinishesOf, Stored, Answered, Verdict;
    var response, verified, calls := Attempt(plugin, wf, schema, s.log, |s.reports|, step);
    ext := calls;
    ok := IsOk(response);
    ToldReport(plugin, wf, schema, s, calls, verified);
    hide Told;
    OutcomeKeepsJournal(wf, s, calls, response, verified);
    RecordAddsReport(wf, s, calls, response, verified);
    s' := Record(wf, s.(log := s.log + calls), response, verified);
  }

  // A step whose references do not resolve.

  lemma UnresolvedKeepsJournal(wf: Workflow, s: Progress, reason: ResolveError)
    requires Journal(wf, s) && |s.reports| < |wf.steps| && !MemberFailed(wf, s.log)
    requires reason.BadReference? ==> reason.error.MissingSegment?
    ensures Journal(wf, s.(log := s.log + [Unresolved(|s.reports|, reason)]))
    ensures !MemberFailed(wf, s.log + [Unresolved(|s.reports|, reason)])
  {
    var e := Unresolved(|s.reports|, reason);
    TracksAppend(wf, s, e);
    RecordsAppend(wf, s.log, e, s.reports, s.results);
    UnresolvedKeepsFlags(s, e);
    assert forall k: nat :: Reported(k, false) in s.log + [e] <==> Reported(k, false) in s.log;
  }

  lemma UnresolvedKeepsFlags(s: Progress, e: Event)
    requires Flags(s) && e.Unresolved?
    ensures Flags(s.(log := s.log + [e]))
  {
    assert forall id, commit, ok :: Finished(id, commit, ok) in s.log + [e] <==> Finished(id, commit, ok) in s.log;
  }

  lemma UnresolvedStaysOnCourse(wf: Workflow, s: Progress, s': Progress, reason: ResolveError)
    requires OnCourse(wf, s, true, |s.reports|) && |s.reports| < |wf.steps|
    requires AtomicOf(wf, |s.reports|) == None && (|s.reports| > 0 ==> AtomicOf(wf, |s.reports| - 1) == None)
    requires AddsReport(s, s', [Unresolved(|s.reports|, reason)], false)
    ensures OnCourse(wf, s', true, |s'.reports|)
  {
    var n := |s.reports|;
    var tail := [Unresolved(n, reason), Reported(n, false)];
    assert s'.log == s.log + tail;
    ToleranceIsKept(wf, s, s', tail, true);
    BracketsStillKept(wf, s.log, tail, s.active, n);
    MembersStillFine(wf, s.log, [Unresolved(n, reason)], n, false);
    BracketsWiden(wf, s'.log, s'.active, n);
    assert Tolerated(wf, s', true, n);
  }

  lemma BracketsWiden(wf: Workflow, log: seq<Event>, active: Option<string>, n: nat)
    requires BracketsKept(wf, log, active, n)
    ensures BracketsKept(wf, log, active, n + 1)
  {
    assert forall id | GroupStartsBefore(wf, id, n) :: GroupStartsBefore(wf, id, n + 1);
  }

  lemma ErrorsAreNotOk(code: string)
    ensures !IsOk(ErrorResponse(code))
  {
  }

  lemma UnresolvedIsReported(wf: Workflow, s: Progress, reason: ResolveError)
    requires GoodIds(wf) && Journal(wf, s) && |s.reports| < |wf.steps| && !MemberFailed(wf, s.log)
    requires reason.BadReference? ==> reason.error.MissingSegment?
    ensures var e := [Unresolved(|s.reports|, reason)];
            var s' := Record(wf, s.(log := s.log + e), NotResolved, None);
            Journal(wf, s') && AddsReport(s, s', e, false)
  {
    hide Tracks, Records, Flags, Record, AddsReport;
    ErrorsAreNotOk("REFERENCE_RESOLUTION");
    var e := Unresolved(|s.reports|, reason);
    UnresolvedKeepsJournal(wf, s, reason);
    assert e in s.log + [e];
    ReportKeepsJournal(wf, s.(log := s.log + [e]), NotResolved, None);
    RecordAddsReport(wf, s, [e], NotResolved, None);
  }

  /** The step is reported failed, and a bracket left open before it is rolled back. */
  ghost predicate GaveUp(s: Progress, s': Progress, reason: ResolveError) {
    && |s'.reports| == |s.reports| + 1 && s.reports == s'.reports[..|s.reports|] && !s'.reports[|s.reports|].ok
    && s'.active == None
    && exists ok ::
         s'.log == s.log + [Unresolved(|s.reports|, reason)] + [Reported(|s.reports|, false)]
                   + RollbackOf(s.active, ok)
  }

  /** The rollback sent for a bracket, if one is open. */
  function RollbackOf(active: Option<string>, ok: bool): seq<Event> {
    if active.Some? then [Finished(active.value, false, ok)] else []
  }

  /** Reports a step that does not resolve as failed, and rolls back the bracket left open before it. */
  method FailUnresolved(plugin: Plugin, wf: Workflow, schema: Schema, s: Progress, reason: ResolveError, keepGoing: bool)
    returns (s': Progress, stop: bool)
    requires GoodIds(wf) && Running(wf, s, keepGoing) && |s.reports| < |wf.steps|
    requires Told(plugin, wf, schema, s) && ResolveStep(wf.steps[|s.reports|], s.results, schema) == Err(reason)
    requires reason.BadReference? ==> reason.error.MissingSegment?
    ensures GaveUp(s, s', reason) && Told(plugin, wf, schema, s')
    ensures stop <==> AtomicOf(wf, |s.reports|).Some? || s.active.Some? || !keepGoing
    ensures !stop ==> Running(wf, s', keepGoing)
    ensures stop ==> Ended(wf, s', keepGoing)
  {
    ToldUnresolved(plugin, wf, schema, s, reason) by {
      assert Untouched(s.log, |s.reports|);
    }
    hide Tracks, Records, Flags, Record, Ended, Told;
    UnresolvedIsReported(wf, s, reason);
    s' := Record(wf, s.(log := s.log + [Unresolved(|s.reports|, reason)]), NotResolved, None);
    stop := AtomicOf(wf, |s.reports|).Some? || s.active.Some? || !keepGoing;
    if !stop {
      UnresolvedStaysOnCourse(wf, s, s', reason);
      assert s'.log == s.log + [Unresolved(|s.reports|, reason)] + [Reported(|s.reports|, false)] + RollbackOf(None, true);
    } else {
      s' := StopUnresolved(plugin, wf, schema, s, s', reason, keepGoing);
    }
  }

  lemma ToldUnresolved(plugin: Plugin, wf: Workflow, schema: Schema, s: Progress, reason: ResolveError)
    requires Told(plugin, wf, schema, s) && |s.reports| < |wf.steps| && Untouched(s.log, |s.reports|)
    requires ResolveStep(wf.steps[|s.reports|], s.results, schema) == Err(reason)
    ensures Told(plugin, wf, schema,
                 Record(wf, s.(log := s.log + [Unresolved(|s.reports|, reason)]), NotResolved, None))
  {
    hide Stored, Answered, Verdict;
    var e := Unresolved(|s.reports|, reason);
    AnsweredAppend(plugin, wf, schema, s.log, e);
    StoredAppend(plugin, wf, schema, s.log, e);
    LastVerdict(plugin, wf, schema, s.log, e);
    ToldReport(plugin, wf, schema, s, [e], None);
  }

  method StopUnresolved(plugin: Plugin, wf: Workflow, schema: Schema, ghost s: Progress, s1: Progress,
                        ghost reason: ResolveError, ghost keepGoing: bool)
    returns (s': Progress)
    requires Told(plugin, wf, schema, s1)
    ensures Told(plugin, wf, schema, s')
    requires |s.reports| < |wf.steps| && AllTolerated(wf, s, keepGoing, |s.reports|)
    requires s.active == if |s.reports| == 0 then None else AtomicOf(wf, |s.reports| - 1)
    requires Journal(wf, s1) && AddsReport(s, s1, [Unresolved(|s.reports|, reason)], false)
    requires AtomicOf(wf, |s.reports|).Some? || s.active.Some? || !keepGoing
    ensures GaveUp(s, s', reason)
    ensures Ended(wf, s', keepGoing)
  {
    hide Tracks, Records, Flags, Ended, Told;
    ghost var done := true;
    s' := s1;
    assert Reported(|s.reports|, false) in s1.log;
    if s1.active.Some? {
      s' := Rollback(plugin, wf, schema, s1, s1.active.value);
      ghost var ok :| s'.log == s1.log + [Finished(s1.active.value, false, ok)];
      done := ok;
    }
    assert s'.log == s1.log + RollbackOf(s.active, done);
    UnresolvedEnds(wf, s, s', reason, done, keepGoing);
  }

  lemma UnresolvedEnds(wf: Workflow, s: Progress, s': Progress, reason: ResolveError, ok: bool, keepGoing: bool)
    requires |s.reports| < |wf.steps| && AllTolerated(wf, s, keepGoing, |s.reports|)
    requires s.active == if |s.reports| == 0 then None else AtomicOf(wf, |s.reports| - 1)
    requires Journal(wf, s') && s'.active == None
    requires |s'.reports| == |s.reports| + 1 && s.reports == s'.reports[..|s.reports|] && !s'.reports[|s.reports|].ok
    requires s'.log == s.log + [Unresolved(|s.reports|, reason)] + [Reported(|s.reports|, false)]
                       + RollbackOf(s.active, ok)
    requires AtomicOf(wf, |s.reports|).Some? || s.active.Some? || !keepGoing
    ensures Ended(wf, s', keepGoing)
  {
    hide Tracks, Records;
    var i := |s.reports|;
    var tail := [Unresolved(i, reason)] + ([Reported(i, false)] + RollbackOf(s.active, ok));
    assert s'.log == s.log + tail;
    ToleranceIsKept(wf, s, s', tail, keepGoing);
    assert UnresolvedAt(s'.log, i) by { assert tail[0] == Unresolved(i, reason); }
    assert !Tolerated(wf, s', keepGoing, i);
    FailureIsFlagged(s', i);
  }

  // Bracket transitions.

  lemma CommitStaysOnCourse(wf: Workflow, s: Progress, s': Progress, keepGoing: bool, id: string)
    requires OnCourse(wf, s, keepGoing, |s.reports|) && s.active == Some(id)
    requires s'.log == s.log + [Finished(id, true, true)] && s'.active == None && s'.reports == s.reports
    requires s'.transactionErrors == s.transactionErrors && s'.rollbackErrors == s.rollbackErrors
    ensures OnCourse(wf, s', keepGoing, |s'.reports|)
  {
    assert s.reports[..|s.reports|] == s.reports;
    ToleranceIsKept(wf, s, s', [Finished(id, true, true)], keepGoing);
    assert forall x :: x in s'.log <==> x in s.log || x == Finished(id, true, true);
    assert !MemberFailed(wf, s'.log) by {
      assert forall k: nat :: Reported(k, false) in s'.log <==> Reported(k, false) in s.log;
    }
  }

  lemma CommitRefusedEnds(wf: Workflow, s: Progress, s': Progress, keepGoing: bool, id: string, x: bool)
    requires |s.reports| <= |wf.steps| && AllTolerated(wf, s, keepGoing, |s.reports|)
    requires Journal(wf, s') && s'.active == None && s'.reports == s.reports
    requires s'.failed && s'.transactionErrors != []
    requires s'.log == s.log + [Finished(id, true, false), Finished(id, false, x)]
    ensures Ended(wf, s', keepGoing)
  {
    assert s.reports[..|s.reports|] == s.reports;
    ToleranceIsKept(wf, s, s', [Finished(id, true, false), Finished(id, false, x)], keepGoing);
  }

  /** Commits the group the last step belonged to, when the next one is not part of it. */
  method LeaveBracket(plugin: Plugin, wf: Workflow, schema: Schema, s: Progress, keepGoing: bool)
    returns (s': Progress, refused: bool)
    requires WellFormed(wf, schema) && Running(wf, s, keepGoing) && s.active.Some?
    requires |s.reports| < |wf.steps| ==> AtomicOf(wf, |s.reports|) != s.active
    requires Told(plugin, wf, schema, s)
    ensures s'.reports == s.reports && s'.active == None && Told(plugin, wf, schema, s')
    ensures !refused ==> s'.results == s.results
    ensures refused ==> Ended(wf, s', keepGoing)
    ensures !refused ==> Journal(wf, s') && OnCourse(wf, s', keepGoing, |s'.reports|)
  {
    hide Told;
    var id := s.active.value;
    GroupIsDone(wf, schema, s, keepGoing, id);
    var ok;
    s', ok := Commit(plugin, wf, schema, s, id);
    refused := !ok;
    if refused {
      ghost var x :| s'.log == s.log + [Finished(id, true, false), Finished(id, false, x)];
      CommitRefusedEnds(wf, s, s', keepGoing, id, x);
    } else {
      CommitStaysOnCourse(wf, s, s', keepGoing, id);
    }
  }

  lemma BeginIsAllowed(wf: Workflow, schema: Schema, s: Progress, keepGoing: bool, id: string, acknowledged: bool)
    requires WellFormed(wf, schema) && OnCourse(wf, s, keepGoing, |s.reports|) && |s.reports| < |wf.steps|
    requires AtomicOf(wf, |s.reports|) == Some(id) && Open(s.log) == None && ReportCount(s.log) == |s.reports|
    requires |s.reports| > 0 ==> AtomicOf(wf, |s.reports| - 1) != Some(id)
    ensures Allowed(wf, s.log, Began(id, acknowledged))
  {
    GroupIsFresh(wf, schema, s, keepGoing, id);
  }

  lemma BeginKeepsJournal(wf: Workflow, s: Progress, id: string)
    requires Journal(wf, s) && Allowed(wf, s.log, Began(id, true))
    ensures Journal(wf, s.(log := s.log + [Began(id, true)], active := Some(id)))
  {
    var e := Began(id, true);
    SafeAppend(wf, s.log, e);
    OpenAppend(s.log, e);
    RecordsAppend(wf, s.log, e, s.reports, s.results);
    assert forall i, commit, ok :: Finished(i, commit, ok) in s.log + [e] <==> Finished(i, commit, ok) in s.log;
  }

  lemma BeginStaysOnCourse(wf: Workflow, s: Progress, s': Progress, keepGoing: bool, id: string)
    requires OnCourse(wf, s, keepGoing, |s.reports|) && |s.reports| < |wf.steps| && s.active == None
    requires AtomicOf(wf, |s.reports|) == Some(id)
    requires s' == s.(log := s.log + [Began(id, true)], active := Some(id))
    ensures OnCourse(wf, s', keepGoing, |s'.reports| + 1)
  {
    var n := |s.reports|;
    assert s.reports[..n] == s.reports;
    ToleranceIsKept(wf, s, s', [Began(id, true)], keepGoing);
    assert InGroup(wf, n, id);
    assert forall i | GroupStartsBefore(wf, i, n) :: GroupStartsBefore(wf, i, n + 1);
    assert forall x :: x in s'.log <==> x in s.log || x == Began(id, true);
    assert !MemberFailed(wf, s'.log) by {
      assert forall k: nat :: Reported(k, false) in s'.log <==> Reported(k, false) in s.log;
    }
  }

  lemma CourseWidens(wf: Workflow, s: Progress, keepGoing: bool)
    requires OnCourse(wf, s, keepGoing, |s.reports|)
    ensures OnCourse(wf, s, keepGoing, |s.reports| + 1)
  {
    BracketsWiden(wf, s.log, s.active, |s.reports|);
  }

  datatype Transition = Entered | CommitRefused | BeginRefused(id: string)

  /** Brings the open bracket to the one the next step asks for. */
  method EnterBracket(plugin: Plugin, wf: Workflow, schema: Schema, s: Progress, desired: Option<string>, keepGoing: bool)
    returns (s': Progress, t: Transition)
    requires WellFormed(wf, schema) && Running(wf, s, keepGoing) && |s.reports| < |wf.steps|
    requires desired == AtomicOf(wf, |s.reports|) && Told(plugin, wf, schema, s)
    ensures s'.reports == s.reports && Told(plugin, wf, schema, s')
    ensures t == Entered ==> Poised(wf, s', keepGoing) && s'.results == s.results
    ensures t == CommitRefused ==> Ended(wf, s', keepGoing)
    ensures t.BeginRefused? ==>
              Safe(wf, s'.log) && Open(s'.log) == None && s'.log != [] && s'.log[|s'.log| - 1] == Began(t.id, false)
  {
    hide WellFormed, Safe, Open, Poised, Ended, Told;
    s', t := s, Entered;
    if s.active == desired {
      AlreadyInside(wf, s, keepGoing);
    } else {
      if s.active.Some? {
        var refused;
        s', refused := LeaveBracket(plugin, wf, schema, s, keepGoing);
        if refused {
          return s', CommitRefused;
        }
      }
      if desired.Some? {
        s', t := BeginBracket(plugin, wf, schema, s', desired.value, keepGoing);
      } else {
        NoBracketNeeded(wf, s', keepGoing);
      }
    }
  }

  lemma NoBracketNeeded(wf: Workflow, s: Progress, keepGoing: bool)
    requires Journal(wf, s) && OnCourse(wf, s, keepGoing, |s.reports|)
    requires |s.reports| < |wf.steps| && s.active == AtomicOf(wf, |s.reports|) == None
    ensures Poised(wf, s, keepGoing)
  {
    CourseWidens(wf, s, keepGoing);
  }

  lemma AlreadyInside(wf: Workflow, s: Progress, keepGoing: bool)
    requires Running(wf, s, keepGoing) && |s.reports| < |wf.steps| && s.active == AtomicOf(wf, |s.reports|)
    ensures Poised(wf, s, keepGoing)
  {
    CourseWidens(wf, s, keepGoing);
  }

  method BeginBracket(plugin: Plugin, wf: Workflow, schema: Schema, s: Progress, id: string, keepGoing: bool)
    returns (s': Progress, t: Transition)
    requires WellFormed(wf, schema) && Journal(wf, s) && OnCourse(wf, s, keepGoing, |s.reports|)
    requires |s.reports| < |wf.steps| && AtomicOf(wf, |s.reports|) == Some(id) && s.active == None
    requires |s.reports| > 0 ==> AtomicOf(wf, |s.reports| - 1) != Some(id)
    requires Told(plugin, wf, schema, s)
    ensures s'.reports == s.reports && s'.results == s.results && Told(plugin, wf, schema, s')
    ensures t == Entered ==> Poised(wf, s', keepGoing)
    ensures t != CommitRefused
    ensures t.BeginRefused? ==>
              Safe(wf, s'.log) && Open(s'.log) == None && s'.log != [] && s'.log[|s'.log| - 1] == Began(t.id, false)
  {
    var acknowledged := plugin(s.log, BeginTransaction(id)).ok;
    BeginIsAllowed(wf, schema, s, keepGoing, id, acknowledged);
    s' := s.(log := s.log + [Began(id, acknowledged)]);
    ToldBracket(plugin, wf, schema, s, s', Began(id, acknowledged));
    if acknowledged {
      BeginKeepsJournal(wf, s, id);
      s', t := s'.(active := Some(id)), Entered;
      ToldBracket(plugin, wf, schema, s, s', Began(id, true));
      BeginStaysOnCourse(wf, s, s', keepGoing, id);
    } else {
      SafeAppend(wf, s.log, Began(id, false));
      OpenAppend(s.log, Began(id, false));
      t := BeginRefused(id);
    }
  }

  lemma StepFailureEnds(wf: Workflow, s: Progress, s': Progress, ext: seq<Event>, ok: bool, keepGoing: bool)
    requires |s.reports| < |wf.steps| && AllTolerated(wf, s, keepGoing, |s.reports|)
    requires Journal(wf, s') && s'.active == None && OfStep(ext, |s.reports|)
    requires |s'.reports| == |s.reports| + 1 && s.reports == s'.reports[..|s.reports|]
    requires !s'.reports[|s.reports|].ok && (AtomicOf(wf, |s.reports|).Some? || !keepGoing)
    requires s'.log == s.log + ext + [Reported(|s.reports|, false)] + RollbackOf(s.active, ok)
    ensures Ended(wf, s', keepGoing)
  {
    hide Tracks, Records;
    var tail := ext + ([Reported(|s.reports|, false)] + RollbackOf(s.active, ok));
    assert s'.log == s.log + tail;
    ToleranceIsKept(wf, s, s', tail, keepGoing);
    assert !Tolerated(wf, s', keepGoing, |s.reports|);
    FailureIsFlagged(s', |s.reports|);
  }

  lemma FailureIsFlagged(s: Progress, k: nat)
    requires Flags(s) && k < |s.reports| && !s.reports[k].ok
    ensures s.failed
  {
  }

  lemma BracketedStepsAreSafe(wf: Workflow, schema: Schema, i: nat)
    requires WellFormed(wf, schema) && i < |wf.steps|
    ensures AtomicOf(wf, i).Some? ==> AtomicSafe(wf.steps[i].op)
  {
    assert GoodBody(wf, schema, i);
  }

  /** Runs a resolved step inside its bracket; a failed member rolls its group back and ends the run. */
  method TakeStep(plugin: Plugin, wf: Workflow, schema: Schema, s: Progress, step: Step, keepGoing: bool)
    returns (s': Progress, stop: bool)
    requires WellFormed(wf, schema) && Poised(wf, s, keepGoing)
    requires step == wf.steps[|s.reports|].(fields := step.fields)
    requires Told(plugin, wf, schema, s) && ResolveStep(wf.steps[|s.reports|], s.results, schema) == Ok(step)
    ensures |s'.reports| == |s.reports| + 1 && Told(plugin, wf, schema, s')
    ensures !stop ==> Running(wf, s', keepGoing)
    ensures stop ==> Ended(wf, s', keepGoing)
  {
    BracketedStepsAreSafe(wf, schema, |s.reports|);
    PoisedMayRun(wf, schema, s, keepGoing);
    hide WellFormed, Poised, Running, Journal, Ended, Passed, Broke, OfStep, AtomicOf, StepMayRun, Untouched, AllTolerated, Told;
    var ok;
    ghost var ext;
    s', ok, ext := RunStep(plugin, wf, schema, s, step);
    stop := !ok && (s'.active.Some? || !keepGoing);
    if !stop {
      StepRunsOn(wf, s, s', ext, ok, keepGoing);
    } else {
      s' := StopFailed(plugin, wf, schema, s, s', ext, keepGoing);
    }
  }

  lemma PoisedMayRun(wf: Workflow, schema: Schema, s: Progress, keepGoing: bool)
    requires WellFormed(wf, schema) && Poised(wf, s, keepGoing)
    ensures GoodIds(wf) && Journal(wf, s) && |s.reports| < |wf.steps|
    ensures StepMayRun(wf, s.log, |s.reports|) && Untouched(s.log, |s.reports|)
    ensures s.active == AtomicOf(wf, |s.reports|) && AllTolerated(wf, s, keepGoing, |s.reports|)
  {
    hide Records, Flags, Safe, BracketsKept, GroupsBegun, MemberFailed, AtomicOf, FinishesOf;
  }

  lemma StepRunsOn(wf: Workflow, s: Progress, s': Progress, ext: seq<Event>, ok: bool, keepGoing: bool)
    requires Poised(wf, s, keepGoing) && Journal(wf, s') && OfStep(ext, |s.reports|) && AddsReport(s, s', ext, ok)
    requires ok || (keepGoing && s.active == None)
    ensures Running(wf, s', keepGoing)
  {
    hide Journal, OfStep, OnCourse, AtomicOf;
    StepStaysOnCourse(wf, s, s', ext, ok, keepGoing);
  }

  method StopFailed(plugin: Plugin, wf: Workflow, schema: Schema, ghost s: Progress, s1: Progress,
                    ghost ext: seq<Event>, ghost keepGoing: bool)
    returns (s': Progress)
    requires Told(plugin, wf, schema, s1)
    ensures Told(plugin, wf, schema, s')
    requires |s.reports| < |wf.steps| && AllTolerated(wf, s, keepGoing, |s.reports|)
    requires s.active == AtomicOf(wf, |s.reports|)
    requires Journal(wf, s1) && OfStep(ext, |s.reports|) && AddsReport(s, s1, ext, false)
    requires s1.active.Some? || !keepGoing
    ensures |s'.reports| == |s.reports| + 1
    ensures Ended(wf, s', keepGoing)
  {
    hide Tracks, Records, Flags, Ended, Told;
    assert Reported(|s.reports|, false) in s1.log;
    ghost var done := true;
    s' := s1;
    if s1.active.Some? {
      s' := Rollback(plugin, wf, schema, s1, s1.active.value);
      ghost var ok :| s'.log == s1.log + [Finished(s1.active.value, false, ok)];
      done := ok;
    }
    assert s'.log == s1.log + RollbackOf(s.active, done);
    StepFailureEnds(wf, s, s', ext, done, keepGoing);
  }

  lemma NothingRunsYet(wf: Workflow, keepGoing: bool)
    ensures Running(wf, Progress([], map[], [], None, false, [], [], []), keepGoing)
  {
  }

  lemma IdsBeforeAre(wf: Workflow, n: nat, id: string)
    requires n <= |wf.steps|
    ensures id in IdsBefore(wf, n) <==> exists j: nat :: j < n && wf.steps[j].id == id
  {
    if n > 0 { IdsBeforeAre(wf, n - 1, id); }
  }

  /** At every step the stored results are exactly those of the earlier steps, so no reference dangles. */
  lemma StoredResultsSuffice(wf: Workflow, schema: Schema, s: Progress)
    requires WellFormed(wf, schema) && Records(wf, s.log, s.reports, s.results) && |s.reports| < |wf.steps|
    ensures var r := ResolveStep(wf.steps[|s.reports|], s.results, schema);
            && (r.Err? && r.error.BadReference? ==> r.error.error.MissingSegment?)
            && (r.Ok? ==> r.value == wf.steps[|s.reports|].(fields := r.value.fields))
  {
    var i := |s.reports|;
    var body := ToValue(wf.steps[i]);
    forall p, id | NamesStep(body, p, id)
      ensures id in s.results
    {
      IdsBeforeAre(wf, i, id);
    }
    ResolutionNeverDangles(wf.steps[i], s.results, schema);
    GroupIdsArePlain(wf, schema, i);
    ResolvedStepKeepsIdentity(wf.steps[i], s.results, schema);
  }

  lemma GroupIdsArePlain(wf: Workflow, schema: Schema, i: nat)
    requires WellFormed(wf, schema) && i < |wf.steps|
    ensures PlainHeader(wf.steps[i])
  {
    assert GoodBody(wf, schema, i);
    if wf.steps[i].transaction.Some? {
      DefinitionsHold(wf.transactions, wf.steps[i].transaction.value);
    }
  }

  lemma AllStepsDone(wf: Workflow, s: Progress, keepGoing: bool)
    requires Journal(wf, s) && OnCourse(wf, s, keepGoing, |s.reports|) && s.active == None
    requires |s.reports| == |wf.steps|
    ensures Ended(wf, s, keepGoing)
  {
  }

  function OutcomeOf(s: Progress): Outcome {
    Outcome(!s.failed, s.reports, s.results, s.transactions, s.transactionErrors, s.rollbackErrors,
            exists t | t in s.transactions :: !t.commit && t.ok)
  }

  /** The outcome's reports, transaction outcomes and error lists are those of the log. */
  ghost predicate Faithful(wf: Workflow, log: seq<Event>, outcome: Outcome) {
    && Records(wf, log, outcome.steps, outcome.results)
    && ReportCount(log) == |outcome.steps|
    && outcome.transactions == FinishesOf(log)
    && (outcome.transactionErrors != [] <==> CommitFailed(log))
    && (outcome.rollbackErrors != [] <==> RollbackFailed(log))
    && (outcome.rolledBack <==> exists id :: Finished(id, false, true) in log)
  }

  /** The outcome shows what was answered: each step's result, its verification, and every refused finish by name. */
  ghost predicate ShowsAnswers(plugin: Plugin, wf: Workflow, schema: Schema, log: seq<Event>, outcome: Outcome) {
    && outcome.results == Stored(plugin, wf, schema, log)
    && outcome.transactionErrors == Refused(log, true) && outcome.rollbackErrors == Refused(log, false)
    && VerdictsShown(log, outcome.steps)
  }

  lemma NothingToldYet(plugin: Plugin, wf: Workflow, schema: Schema)
    ensures Told(plugin, wf, schema, Progress([], map[], [], None, false, [], [], []))
  {
  }

  lemma ToldOutcome(plugin: Plugin, wf: Workflow, schema: Schema, s: Progress)
    requires Told(plugin, wf, schema, s)
    ensures Answered(plugin, wf, schema, s.log) && ShowsAnswers(plugin, wf, schema, s.log, OutcomeOf(s))
  {
    hide Answered, Stored;
  }

  /** A failure the run may pass over: keep-going, outside atomic groups, and not the end of an open group. */
  ghost predicate MayPassOver(wf: Workflow, log: seq<Event>, outcome: Outcome, keepGoing: bool, k: nat)
    requires k < |outcome.steps| <= |wf.steps|
  {
    || outcome.steps[k].ok
    || (&& keepGoing && AtomicOf(wf, k) == None
        && (UnresolvedAt(log, k) && k > 0 ==> AtomicOf(wf, k - 1) == None))
  }

  /** The run passes over every failure it may and stops at the first one it may not. */
  ghost predicate StopsWhereItMust(wf: Workflow, log: seq<Event>, outcome: Outcome, keepGoing: bool)
    requires |outcome.steps| <= |wf.steps|
  {
    && (forall k | 0 <= k < |outcome.steps| - 1 :: MayPassOver(wf, log, outcome, keepGoing, k))
    && (|outcome.steps| < |wf.steps| ==>
          || outcome.transactionErrors != []
          || (|outcome.steps| > 0 && !MayPassOver(wf, log, outcome, keepGoing, |outcome.steps| - 1)))
  }

  lemma EndedIsFaithful(wf: Workflow, s: Progress, keepGoing: bool)
    requires Ended(wf, s, keepGoing)
    ensures Faithful(wf, s.log, OutcomeOf(s)) && StopsWhereItMust(wf, s.log, OutcomeOf(s), keepGoing)
    ensures Safe(wf, s.log) && Open(s.log) == None
    ensures OutcomeOf(s).ok <==> AllOk(OutcomeOf(s).steps) && OutcomeOf(s).transactionErrors == []
  {
    hide Safe;
    FinishesAre(s.log);
    assert (exists t | t in s.transactions :: !t.commit && t.ok) <==> exists id :: Finished(id, false, true) in s.log by {
      if t :| t in s.transactions && !t.commit && t.ok { assert Finished(t.id, false, true) in s.log; }
      if id :| Finished(id, false, true) in s.log { assert TransactionOutcome(id, false, true) in s.transactions; }
    }
    assert forall k | 0 <= k < |s.reports| ::
        Tolerated(wf, s, keepGoing, k) <==> MayPassOver(wf, s.log, OutcomeOf(s), keepGoing, k);
  }

  lemma {:induction false} FinishesAre(log: seq<Event>)
    ensures forall id, commit, ok ::
              TransactionOutcome(id, commit, ok) in FinishesOf(log) <==> Finished(id, commit, ok) in log
    decreases |log|
  {
    if log != [] {
      FinishesAre(log[..|log| - 1]);
      assert log == log[..|log| - 1] + [log[|log| - 1]];
    }
  }

  /** The whole plan ran: every step reported ok, every atomic group committed, nothing rolled back. */
  ghost predicate Complete(wf: Workflow, log: seq<Event>) {
    && (forall i | 0 <= i < |wf.steps| :: Reported(i, true) in log)
    && (forall g | g in wf.transactions && g.atomic :: CommittedOnce(log, g.id))
    && (forall id, ok :: Finished(id, false, ok) !in log)
    && (forall id :: Finished(id, true, false) !in log)
  }

  ghost predicate CommittedOnce(log: seq<Event>, id: string) {
    && Finished(id, true, true) in log
    && forall a, b | 0 <= a < b < |log| :: !(log[a] == Finished(id, true, true) && log[b] == Finished(id, true, true))
  }

  /**
   Runs a plan that passed validation. For every plugin the log is safe and leaves no bracket open; `Err`
   means a begin was refused, anything else is part of the outcome.
   */
  method Execute(plugin: Plugin, wf: Workflow, schema: Schema, keepGoing: bool)
    returns (r: Result<Outcome, string>, log: seq<Event>)
    requires NoIssues(wf, schema)
    ensures Safe(wf, log) && Open(log) == None && Answered(plugin, wf, schema, log)
    ensures r.Ok? ==> ShowsAnswers(plugin, wf, schema, log, r.value)
    ensures r.Err? ==> log != [] && log[|log| - 1] == Began(r.error, false)
    ensures r.Ok? ==> Faithful(wf, log, r.value) && StopsWhereItMust(wf, log, r.value, keepGoing)
    ensures r.Ok? ==> (r.value.ok <==> AllOk(r.value.steps) && r.value.transactionErrors == [])
    ensures r.Ok? && r.value.ok ==> Complete(wf, log)
  {
    hide NoIssues, Safe, Faithful, StopsWhereItMust, Complete, Ended, OnCourse, Poised, Definitions;
    hide GoodHeader, GoodIds, GoodBodies, GoodGroups, GoodReferences;
    ValidationIsWellFormedness(wf, schema);
    NothingRunsYet(wf, keepGoing);
    NothingToldYet(plugin, wf, schema);
    hide Told;
    var s := Progress([], map[], [], None, false, [], [], []);
    var stop := false;
    while !stop && |s.reports| < |wf.steps|
      invariant stop ==> Ended(wf, s, keepGoing)
      invariant !stop ==> Running(wf, s, keepGoing)
      invariant Told(plugin, wf, schema, s)
      decreases |wf.steps| - |s.reports|, !stop
    {
      StoredResultsSuffice(wf, schema, s);
      match ResolveStep(wf.steps[|s.reports|], s.results, schema) {
        case Err(reason) =>
          s, stop := FailUnresolved(plugin, wf, schema, s, reason, keepGoing);
        case Ok(step) =>
          var t;
          s, t := EnterBracket(plugin, wf, schema, s, Atomic(Definitions(wf.transactions), step.transaction), keepGoing);
          match t {
            case BeginRefused(id) =>
              ToldOutcome(plugin, wf, schema, s);
              return Err(id), s.log;
            case CommitRefused => stop := true;
            case Entered => s, stop := TakeStep(plugin, wf, schema, s, step, keepGoing);
          }
      }
    }
    if !stop {
      if s.active.Some? {
        s, stop := LeaveBracket(plugin, wf, schema, s, keepGoing);
      }
      if !stop {
        AllStepsDone(wf, s, keepGoing);
      }
    }
    EndedIsFaithful(wf, s, keepGoing);
    ToldOutcome(plugin, wf, schema, s);
    if !s.failed { SuccessIsComplete(wf, schema, s, keepGoing); }
    r, log := Ok(OutcomeOf(s)), s.log;
  }

  // ---------------------------------------------------------------------------
  // What the log says about the plugin's answers
  // ---------------------------------------------------------------------------

  lemma {:induction false} AnsweredAt(plugin: Plugin, wf: Workflow, schema: Schema, log: seq<Event>, k: nat)
    requires Answered(plugin, wf, schema, log) && k < |log|
    ensures Answered(plugin, wf, schema, log[..k]) && Answer(plugin, wf, schema, log[..k], log[k])
    decreases |log|
  {
    hide Answer;
    var before := log[..|log| - 1];
    if k < |before| {
      AnsweredAt(plugin, wf, schema, before, k);
      assert before[..k] == log[..k] && before[k] == log[k];
    }
  }

  /** Every begin and finish in the log is the plugin's reply to that very request, for that very group. */
  lemma BracketsAreAnswered(plugin: Plugin, wf: Workflow, schema: Schema, log: seq<Event>, k: nat)
    requires Answered(plugin, wf, schema, log) && k < |log|
    ensures log[k].Began? ==> log[k].acknowledged == plugin(log[..k], BeginTransaction(log[k].id)).ok
    ensures log[k].Finished? ==> log[k].ok == plugin(log[..k], FinishTransaction(log[k].id, log[k].commit)).ok
  {
    AnsweredAt(plugin, wf, schema, log, k);
  }

  /**
   Every call of a step carries the step resolved against the results of the steps before it, and the log says
   what the plugin answered; verification is shown the response of the operation it follows.
   */
  lemma CallsAreAnswers(plugin: Plugin, wf: Workflow, schema: Schema, log: seq<Event>, k: nat) returns (step: Step)
    requires Answered(plugin, wf, schema, log) && k < |log|
    requires log[k].Checked? || log[k].Executed? || log[k].Verified?
    ensures log[k].index < |wf.steps|
    ensures ResolveStep(wf.steps[log[k].index], Stored(plugin, wf, schema, log[..k]), schema) == Ok(step)
    ensures log[k].Checked? ==> log[k].ok == plugin(log[..k], CheckPreconditions(log[k].index, step)).ok
    ensures log[k].Executed? ==> log[k].ok == IsOk(plugin(log[..k], ExecuteStep(log[k].index, step)).response)
    ensures log[k].Verified? ==>
              && k > 0 && log[k - 1] == Executed(log[k].index, wf.steps[log[k].index].op, true)
              && log[k].ok == plugin(log[..k], VerifyStep(log[k].index, step,
                                plugin(log[..k - 1], ExecuteStep(log[k].index, step)).response)).ok
  {
    AnsweredAt(plugin, wf, schema, log, k);
    hide Answered, Stored;
    step := StepNow(plugin, wf, schema, log[..k], log[k].index).value;
    if log[k].Verified? {
      OperationBefore(plugin, wf, schema, log, k);
    }
  }

  /** The step verified is the step executed just before. */
  lemma OperationBefore(plugin: Plugin, wf: Workflow, schema: Schema, log: seq<Event>, k: nat)
    requires Answered(plugin, wf, schema, log) && 0 < k < |log| && log[k].Verified? && log[k - 1].Executed?
    requires log[k].index < |wf.steps| && log[k - 1].index == log[k].index
    ensures log[..k][..k - 1] == log[..k - 1]
    ensures StepNow(plugin, wf, schema, log[..k - 1], log[k].index) == StepNow(plugin, wf, schema, log[..k], log[k].index)
    ensures StepNow(plugin, wf, schema, log[..k], log[k].index).Ok?
    ensures ResponseTo(plugin, wf, schema, log[..k - 1], log[k].index) ==
            plugin(log[..k - 1], ExecuteStep(log[k].index,
                   StepNow(plugin, wf, schema, log[..k], log[k].index).value)).response
  {
    AnsweredAt(plugin, wf, schema, log, k);
    hide Answered, Answer, Stored;
    assert log[..k] == log[..k - 1] + [log[k - 1]];
    StoredAppend(plugin, wf, schema, log[..k - 1], log[k - 1]);
  }

  /** What the results say of a reported step: the response to its own operation, or the error it ended with. */
  ghost predicate ResultOf(plugin: Plugin, wf: Workflow, schema: Schema, log: seq<Event>, k: nat, result: Value)
    requires 0 < k < |log| && log[k].Reported? && log[k].index < |wf.steps|
  {
    var i := log[k].index;
    match log[k - 1]
    case Unresolved(_, _) => result == NotResolved && !log[k].ok
    case Checked(_, _) => result == PreconditionFailed && !log[k].ok
    case Executed(_, _, ok) => Responded(plugin, wf, schema, log, k - 1, i, result) && log[k].ok == ok
    case Verified(_, ok) =>
      if ok
      then k > 1 && log[k - 2] == Executed(i, wf.steps[i].op, true) && Responded(plugin, wf, schema, log, k - 2, i, result)
      else result == VerifyFailed && !log[k].ok
    case _ => false
  }

  /** The plugin gave this response when it was asked, at `a`, to execute the step as resolved there. */
  ghost predicate Responded(plugin: Plugin, wf: Workflow, schema: Schema, log: seq<Event>, a: nat, i: nat, result: Value)
    requires a < |log| && i < |wf.steps|
  {
    var step := ResolveStep(wf.steps[i], Stored(plugin, wf, schema, log[..a]), schema);
    step.Ok? && result == plugin(log[..a], ExecuteStep(i, step.value)).response
  }

  /**
   The stored result of every reported step is the plugin's response to that step's own operation, or the error
   the step ended with; later steps do not change it.
   */
  lemma {:induction false} ResultsAreReplies(plugin: Plugin, wf: Workflow, schema: Schema, log: seq<Event>, k: nat)
    requires GoodIds(wf) && Answered(plugin, wf, schema, log) && Safe(wf, log)
    requires k < |log| && log[k].Reported?
    ensures k > 0 && log[k].index < |wf.steps| && wf.steps[log[k].index].id in Stored(plugin, wf, schema, log)
    ensures ResultOf(plugin, wf, schema, log, k, Stored(plugin, wf, schema, log)[wf.steps[log[k].index].id])
    decreases |log|
  {
    var n := |log| - 1;
    var before := log[..n];
    hide Stored, ResultOf, Answer, Allowed, Verdict;
    assert log == before + [log[n]];
    StoredAppend(plugin, wf, schema, before, log[n]);
    if k == n {
      VerdictIsResult(plugin, wf, schema, log, k);
    } else {
      ResultsAreReplies(plugin, wf, schema, before, k);
      ResultStays(plugin, wf, schema, log, n, k, Stored(plugin, wf, schema, before)[wf.steps[log[k].index].id]);
      if log[n].Reported? { ReportsAdvance(wf, log, k, n); }
    }
  }

  lemma VerdictIsResult(plugin: Plugin, wf: Workflow, schema: Schema, log: seq<Event>, k: nat)
    requires Answered(plugin, wf, schema, log) && Safe(wf, log) && k < |log| && log[k].Reported?
    ensures k > 0 && log[k].index < |wf.steps|
    ensures ResultOf(plugin, wf, schema, log, k, Verdict(plugin, wf, schema, log[..k]))
  {
    ReportFollowsCall(plugin, wf, schema, log, k);
    hide Answered, Safe, Verdict, Responded, IsOk;
    assert log[..k] == log[..k - 1] + [log[k - 1]];
    LastVerdict(plugin, wf, schema, log[..k - 1], log[k - 1]);
    ErrorsAreNotOk("REFERENCE_RESOLUTION");
    ErrorsAreNotOk("PRECONDITION_FAILED");
    ErrorsAreNotOk("VERIFY_FAILED");
    hide NotResolved, PreconditionFailed, VerifyFailed;
    if log[k - 1].Executed? {
      OperationResponded(plugin, wf, schema, log, k - 1);
    } else if log[k - 1].Verified? {
      VerifiedResponded(plugin, wf, schema, log, k - 1);
    }
  }

  /** A report comes right after the last call of its step, and says what that call made of it. */
  lemma ReportFollowsCall(plugin: Plugin, wf: Workflow, schema: Schema, log: seq<Event>, k: nat)
    requires Answered(plugin, wf, schema, log) && Safe(wf, log) && k < |log| && log[k].Reported?
    ensures k > 0 && log[k].index < |wf.steps| && Touches(log[k - 1], log[k].index) && !log[k - 1].Reported?
    ensures log[k].ok == IsOk(Verdict(plugin, wf, schema, log[..k]))
  {
    SafeAt(wf, log, k);
    AnsweredAt(plugin, wf, schema, log, k);
    hide Answered, Safe, Verdict, IsOk;
  }

  lemma OperationResponded(plugin: Plugin, wf: Workflow, schema: Schema, log: seq<Event>, a: nat)
    requires Answered(plugin, wf, schema, log) && a < |log| && log[a].Executed?
    ensures log[a].index < |wf.steps| && log[a].ok == IsOk(ResponseTo(plugin, wf, schema, log[..a], log[a].index))
    ensures Responded(plugin, wf, schema, log, a, log[a].index, ResponseTo(plugin, wf, schema, log[..a], log[a].index))
  {
    AnsweredAt(plugin, wf, schema, log, a);
    hide Answered, Stored, IsOk;
  }

  lemma VerifiedResponded(plugin: Plugin, wf: Workflow, schema: Schema, log: seq<Event>, a: nat)
    requires Answered(plugin, wf, schema, log) && a < |log| && log[a].Verified?
    ensures a > 0 && log[a].index < |wf.steps|
    ensures log[a - 1] == Executed(log[a].index, wf.steps[log[a].index].op, true) && log[..a] != []
    ensures log[..a][..a - 1] == log[..a - 1]
    ensures var r := ResponseTo(plugin, wf, schema, log[..a - 1], log[a].index);
            IsOk(r) && Responded(plugin, wf, schema, log, a - 1, log[a].index, r)
  {
    AnsweredAt(plugin, wf, schema, log, a);
    hide Answered, Stored, IsOk, StepNow, ResponseTo, Responded;
    OperationResponded(plugin, wf, schema, log, a - 1);
  }

  lemma ResultStays(plugin: Plugin, wf: Workflow, schema: Schema, log: seq<Event>, n: nat, k: nat, result: Value)
    requires 0 < k < n <= |log| && log[k].Reported? && log[k].index < |wf.steps|
    requires ResultOf(plugin, wf, schema, log[..n], k, result)
    ensures ResultOf(plugin, wf, schema, log, k, result)
  {
    assert log[..n][..k - 1] == log[..k - 1];
    if k > 1 { assert log[..n][..k - 2] == log[..k - 2]; }
  }

  /** Reports come in plan order. */
  lemma ReportsAdvance(wf: Workflow, log: seq<Event>, a: nat, b: nat)
    requires Safe(wf, log) && a < b < |log| && log[a].Reported? && log[b].Reported?
    ensures log[a].index < log[b].index
  {
    hide Safe, ReportCount;
    ReportIsNext(wf, log, a);
    ReportIsNext(wf, log, b);
    ReportCountGrows(log, a + 1, b);
  }

  lemma ReportIsNext(wf: Workflow, log: seq<Event>, k: nat)
    requires Safe(wf, log) && k < |log| && log[k].Reported?
    ensures log[k].index == ReportCount(log[..k]) && ReportCount(log[..k + 1]) == ReportCount(log[..k]) + 1
  {
    hide Safe;
    SafeAt(wf, log, k);
    hide Allowed, Open, FinishesOf, ReportCount;
    assert log[..k + 1] == log[..k] + [log[k]];
    OpenAppend(log[..k], log[k]);
  }

  lemma {:induction false} ReportCountGrows(log: seq<Event>, a: nat, b: nat)
    requires a <= b <= |log|
    ensures ReportCount(log[..a]) <= ReportCount(log[..b])
    decreases b - a
  {
    if a < b {
      ReportCountGrows(log, a, b - 1);
      assert log[..b] == log[..b - 1] + [log[b - 1]];
      OpenAppend(log[..b - 1], log[b - 1]);
    }
  }

  // ---------------------------------------------------------------------------
  // What safe logs look like
  // ---------------------------------------------------------------------------

  lemma {:induction false} SafeAt(wf: Workflow, log: seq<Event>, k: nat)
    requires Safe(wf, log) && k < |log|
    ensures Safe(wf, log[..k]) && Allowed(wf, log[..k], log[k])
    decreases |log|
  {
    var before := log[..|log| - 1];
    if k < |before| {
      SafeAt(wf, before, k);
      assert before[..k] == log[..k] && before[k] == log[k];
    }
  }

  lemma OpenAt(log: seq<Event>, k: nat)
    requires k < |log|
    ensures log[..k + 1] == log[..k] + [log[k]]
    ensures log[k].Began? && log[k].acknowledged ==> Open(log[..k + 1]) == Some(log[k].id)
    ensures !log[k].Began? && !log[k].Finished? ==> Open(log[..k + 1]) == Open(log[..k])
    ensures log[k].Finished? && !(log[k].commit && !log[k].ok) ==> Open(log[..k + 1]) == None
    ensures log[k].Began? && !log[k].acknowledged ==> Open(log[..k + 1]) == Open(log[..k])
    ensures log[k].Finished? && log[k].commit && !log[k].ok ==> Open(log[..k + 1]) == Open(log[..k])
  {
    assert log[..k + 1] == log[..k] + [log[k]];
    OpenAppend(log[..k], log[k]);
  }

  /** An open recording stays open, and no other begins, until a finish is sent. */
  lemma {:induction false} StaysOpen(wf: Workflow, log: seq<Event>, a: nat, b: nat, id: string)
    requires Safe(wf, log) && a <= b <= |log| && Open(log[..a]) == Some(id)
    requires forall c | a <= c < b :: !log[c].Finished?
    ensures Open(log[..b]) == Some(id)
    ensures forall c | a <= c < b :: !log[c].Began?
    decreases b - a
  {
    if a < b {
      hide Safe, Open, Allowed;
      StaysOpen(wf, log, a, b - 1, id);
      OpenStep(wf, log, b - 1, id);
    }
  }

  lemma OpenStep(wf: Workflow, log: seq<Event>, k: nat, id: string)
    requires Safe(wf, log) && k < |log| && Open(log[..k]) == Some(id) && !log[k].Finished?
    ensures Open(log[..k + 1]) == Some(id) && !log[k].Began?
  {
    hide Safe;
    SafeAt(wf, log, k);
    hide Open;
    OpenAt(log, k);
  }

  /** What is open was begun, and no finish has ended it since. */
  lemma {:induction false} OpenWasBegun(wf: Workflow, log: seq<Event>, b: nat) returns (a: nat)
    requires Safe(wf, log) && b <= |log| && Open(log[..b]).Some?
    ensures a < b && log[a] == Began(Open(log[..b]).value, true)
    ensures forall c | a < c < b && log[c].Finished? :: log[c].commit && !log[c].ok
    decreases b
  {
    assert log[..0] == [];
    OpenAt(log, b - 1);
    if log[b - 1].Began? && log[b - 1].acknowledged {
      a := b - 1;
    } else {
      a := OpenWasBegun(wf, log, b - 1);
    }
  }

  /** Brackets never nest: between an acknowledged begin and any later begin a finish is sent. */
  lemma BracketsNeverNest(wf: Workflow, log: seq<Event>, a: nat, b: nat)
    requires Safe(wf, log) && a < b < |log|
    requires log[a].Began? && log[a].acknowledged && log[b].Began?
    ensures exists c :: a < c < b && log[c].Finished?
  {
    OpenAt(log, a);
    SafeAt(wf, log, b);
    if forall c | a < c < b :: !log[c].Finished? {
      StaysOpen(wf, log, a + 1, b, log[a].id);
    }
  }

  /** A group is begun at most once. */
  lemma GroupsBeginOnce(wf: Workflow, log: seq<Event>, a: nat, b: nat)
    requires Safe(wf, log) && a < b < |log| && log[a].Began? && log[b].Began?
    ensures log[a].id != log[b].id
  {
    SafeAt(wf, log, b);
    assert log[a] in log[..b];
  }

  /** A group is begun at its first member: the next step belongs to it, and no earlier step does. */
  lemma GroupsBeginAtFirstMember(wf: Workflow, log: seq<Event>, a: nat)
    requires Safe(wf, log) && a < |log| && log[a].Began?
    ensures var i := ReportCount(log[..a]);
            && i < |wf.steps| && AtomicOf(wf, i) == Some(log[a].id)
            && forall j | 0 <= j < i :: !InGroup(wf, j, log[a].id)
  {
    SafeAt(wf, log, a);
    var i := ReportCount(log[..a]);
    forall j | 0 <= j < i
      ensures !InGroup(wf, j, log[a].id)
    {
      var ok := ReportsArePresent(wf, log[..a], j);
      assert Touches(Reported(j, ok), j);
    }
  }

  lemma {:induction false} ReportsArePresent(wf: Workflow, log: seq<Event>, j: nat) returns (ok: bool)
    requires Safe(wf, log) && j < ReportCount(log)
    ensures Reported(j, ok) in log
    decreases |log|
  {
    var before := log[..|log| - 1];
    if j < ReportCount(before) {
      ok := ReportsArePresent(wf, before, j);
    } else {
      ok := log[|log| - 1].ok;
    }
  }

  /**
   Every acknowledged begin is finished before the run returns, by a finish of the same group, and only members
   of the group are checked, executed or verified in between.
   */
  lemma EveryBeginIsFinished(wf: Workflow, log: seq<Event>, a: nat) returns (c: nat)
    requires Safe(wf, log) && Open(log) == None
    requires a < |log| && log[a].Began? && log[a].acknowledged
    ensures a < c < |log| && log[c].Finished? && log[c].id == log[a].id
    ensures forall b | a < b < c :: !log[b].Finished? && !log[b].Began?
    ensures forall b | a < b < c && (log[b].Checked? || log[b].Executed? || log[b].Verified?) ::
              log[b].index < |wf.steps| && InGroup(wf, log[b].index, log[a].id)
  {
    OpenAt(log, a);
    c := a + 1;
    while c < |log| && !log[c].Finished?
      invariant a < c <= |log|
      invariant forall b | a < b < c :: !log[b].Finished?
    {
      c := c + 1;
    }
    StaysOpen(wf, log, a + 1, c, log[a].id);
    assert log[..|log|] == log;
    SafeAt(wf, log, c);
    forall b | a < b < c && (log[b].Checked? || log[b].Executed? || log[b].Verified?)
      ensures log[b].index < |wf.steps| && InGroup(wf, log[b].index, log[a].id)
    {
      StaysOpen(wf, log, a + 1, b, log[a].id);
      SafeAt(wf, log, b);
    }
  }

  /**
   A commit is sent only after every member of the group ran and succeeded, after the group's own begin.
   */
  lemma CommitsAreSound(wf: Workflow, log: seq<Event>, c: nat, i: nat) returns (a: nat, b: nat)
    requires Safe(wf, log) && c < |log| && log[c].Finished? && log[c].commit
    requires i < |wf.steps| && InGroup(wf, i, log[c].id)
    ensures a < b < c && log[a] == Began(log[c].id, true) && log[b] == Reported(i, true)
  {
    SafeAt(wf, log, c);
    a := OpenWasBegun(wf, log, c);
    assert Reported(i, true) in log[..c];
    b :| 0 <= b < c && log[b] == Reported(i, true);
    SafeAt(wf, log, a);
    assert b < a ==> log[b] in log[..a] && Touches(log[b], i);
  }

  /** Once a member of an atomic group has failed, nothing but finishes is sent. */
  lemma NothingRunsAfterAFailedMember(wf: Workflow, log: seq<Event>, b: nat, c: nat)
    requires Safe(wf, log) && b < c < |log|
    requires log[b].Reported? && !log[b].ok && log[b].index < |wf.steps| && AtomicOf(wf, log[b].index).Some?
    ensures log[c].Finished?
  {
    SafeAt(wf, log, c);
    assert Reported(log[b].index, false) in log[..c];
  }

  /** Inside a bracket only operations of the group run, and only atomic-safe ones. */
  lemma BracketsRunSafeOperations(wf: Workflow, log: seq<Event>, b: nat)
    requires Safe(wf, log) && b < |log| && log[b].Executed? && Open(log[..b]).Some?
    ensures AtomicSafe(log[b].op) && log[b].index < |wf.steps| && wf.steps[log[b].index].op == log[b].op
    ensures AtomicOf(wf, log[b].index) == Open(log[..b])
  {
    SafeAt(wf, log, b);
  }

  /** An operation runs only after its step was checked and the check passed. */
  lemma OperationsFollowChecks(wf: Workflow, log: seq<Event>, b: nat) returns (a: nat)
    requires Safe(wf, log) && b < |log| && log[b].Executed?
    ensures a < b && log[a] == Checked(log[b].index, true)
  {
    SafeAt(wf, log, b);
    a :| 0 <= a < b && log[a] == Checked(log[b].index, true);
  }

  /** A check is the first thing that happens to a step, and happens once. */
  lemma ChecksComeFirst(wf: Workflow, log: seq<Event>, a: nat, b: nat)
    requires Safe(wf, log) && a < b < |log| && log[b].Checked?
    ensures !Touches(log[a], log[b].index)
  {
    SafeAt(wf, log, b);
    assert log[a] in log[..b];
  }

  /** After a failed check the step's operation never runs, and is never verified. */
  lemma NothingRunsAfterAFailedCheck(wf: Workflow, log: seq<Event>, a: nat, b: nat)
    requires Safe(wf, log) && a < |log| && b < |log| && log[a].Checked? && !log[a].ok
    ensures log[b].Executed? || log[b].Verified? ==> log[b].index != log[a].index
  {
    if (log[b].Executed? || log[b].Verified?) && log[b].index == log[a].index {
      var e := b;
      if log[b].Verified? { e := VerificationsFollowSuccess(wf, log, b); }
      var c := OperationsFollowChecks(wf, log, e);
      if a < c { ChecksComeFirst(wf, log, a, c); }
      if c < a { ChecksComeFirst(wf, log, c, a); }
    }
  }

  /** Verification happens only where the step asks for it, after its operation ran and succeeded. */
  lemma VerificationsFollowSuccess(wf: Workflow, log: seq<Event>, b: nat) returns (a: nat)
    requires Safe(wf, log) && b < |log| && log[b].Verified?
    ensures log[b].index < |wf.steps| && wf.steps[log[b].index].verify
    ensures a < b && log[a] == Executed(log[b].index, wf.steps[log[b].index].op, true)
  {
    SafeAt(wf, log, b);
    a :| 0 <= a < b && log[a] == Executed(log[b].index, wf.steps[log[b].index].op, true);
  }

  /** No step's operation runs twice. */
  lemma OperationsRunOnce(wf: Workflow, log: seq<Event>, a: nat, b: nat)
    requires Safe(wf, log) && a < b < |log| && log[a].Executed? && log[b].Executed?
    ensures log[a].index != log[b].index
  {
    SafeAt(wf, log, b);
    assert log[a] in log[..b];
    assert log[a] == Executed(log[a].index, log[a].op, log[a].ok);
  }

  /** A group is committed at most once, and never touched again after its commit. */
  lemma CommitsHappenOnce(wf: Workflow, log: seq<Event>, a: nat, b: nat)
    requires Safe(wf, log) && a < b < |log|
    requires log[a].Finished? && log[a].commit && log[a].ok && log[b].Finished?
    ensures log[a].id != log[b].id
  {
    SafeAt(wf, log, a);
    SafeAt(wf, log, b);
    var x := OpenWasBegun(wf, log, a);
    var y := OpenWasBegun(wf, log, b);
    if x < y { GroupsBeginOnce(wf, log, x, y); }
    if y < x { GroupsBeginOnce(wf, log, y, x); }
  }

  lemma SuccessIsComplete(wf: Workflow, schema: Schema, s: Progress, keepGoing: bool)
    requires WellFormed(wf, schema) && Ended(wf, s, keepGoing) && !s.failed
    ensures Complete(wf, s.log)
  {
    assert |s.reports| == |wf.steps|;
    forall g | g in wf.transactions && g.atomic
      ensures CommittedOnce(s.log, g.id)
    {
      GroupWasCommitted(wf, schema, s, g.id);
      forall a, b | 0 <= a < b < |s.log| && s.log[a] == Finished(g.id, true, true)
        ensures s.log[b] != Finished(g.id, true, true)
      {
        if s.log[b].Finished? { CommitsHappenOnce(wf, s.log, a, b); }
      }
    }
    forall id, ok
      ensures Finished(id, false, ok) !in s.log
    {
      NoRollbackWithoutFailure(wf, s, id, ok);
    }
  }

  lemma GroupWasCommitted(wf: Workflow, schema: Schema, s: Progress, id: string)
    requires WellFormed(wf, schema) && |s.reports| == |wf.steps|
    requires BracketsKept(wf, s.log, None, |s.reports|) && GroupsBegun(wf, s.log, |s.reports|)
    requires TransactionGroup(id, true) in wf.transactions
    ensures Finished(id, true, true) in s.log
  {
    var t :| 0 <= t < |wf.transactions| && wf.transactions[t] == TransactionGroup(id, true);
    assert GoodGroup(wf, t);
    var j :| InGroup(wf, j, id);
    DefinitionsHold(wf.transactions, id);
    assert Definitions(wf.transactions)[id];
    assert AtomicOf(wf, j) == Some(id);
  }

  lemma NoRollbackWithoutFailure(wf: Workflow, s: Progress, id: string, ok: bool)
    requires Journal(wf, s) && !s.failed
    ensures Finished(id, false, ok) !in s.log
  {
    if Finished(id, false, ok) in s.log {
      var k :| 0 <= k < |s.log| && s.log[k] == Finished(id, false, ok);
      SafeAt(wf, s.log, k);
      RollbackHasReason(s.log, k);
    }
  }

  lemma RollbackHasReason(log: seq<Event>, k: nat)
    requires k < |log| && SomethingFailed(log[..k])
    ensures SomethingFailed(log)
  {
    if i: nat :| Reported(i, false) in log[..k] { assert Reported(i, false) in log; }
    if id :| Finished(id, true, false) in log[..k] { assert Finished(id, true, false) in log; }
  }
}
