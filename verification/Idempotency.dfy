/**
 The at-most-once protocol of workflow runs that share an idempotency key: look for a record, take the lock
 file, look again, execute, rename the record into place, drop the lock. Runs interleave at every file
 operation; any run may hit an I/O error or be killed at any point.
 */
module Idempotency {
  import opened Basics
  import opened Json
  import opened Steps

  type RunId = nat

  /** The journalled outcome of a successful run. */
  datatype Record = Record(hash: string, outcome: Value)

  datatype RunResult =
    | Replayed(outcome: Value)
    | Collision
    | AlreadyRunning
    | Failed
    | Succeeded(outcome: Value)

  datatype Pc =
    | FirstLook
    | FirstRead
    | Missed
    | SecondLook
    | SecondRead
    | Executing
    | Recording(outcome: Value)
    | Releasing(result: RunResult)
    | Done(result: RunResult)
    | Killed

  datatype Run = Run(hash: string, pc: Pc)

  /** `executions` and `recorders` are history: who began executing, who renamed a record into place. */
  datatype State = State(
    lock: Option<RunId>,
    record: Option<Record>,
    runs: map<RunId, Run>,
    executions: seq<RunId>,
    recorders: seq<RunId>)

  datatype Action =
    | Arrive(run: RunId, hash: string)
    | Look(run: RunId)
    | Read(run: RunId)
    | CreateLock(run: RunId)
    | EndBadly(run: RunId)
    | EndWell(run: RunId, outcome: Value)
    | Rename(run: RunId)
    | IoError(run: RunId)
    | DropLock(run: RunId, removed: bool)
    | Kill(run: RunId)
    | ClearStaleLock

  /** Between creating the lock file and dropping it. */
  predicate PastLock(pc: Pc) {
    pc.SecondLook? || pc.SecondRead? || pc.Executing? || pc.Recording? || pc.Releasing?
  }

  predicate Active(pc: Pc) {
    !pc.Done? && !pc.Killed?
  }

  const Init := State(None, None, map[], [], [])

  function Goto(s: State, r: RunId, pc: Pc): State
    requires r in s.runs
  {
    s.(runs := s.runs[r := s.runs[r].(pc := pc)])
  }

  /** What a record means to a run: its outcome if the hashes agree, a collision if not. */
  function Replay(record: Record, hash: string): RunResult {
    if record.hash == hash then Replayed(record.outcome) else Collision
  }

  /** One file operation (or one uninterrupted execution) of one run; `None` when the action is not enabled. */
  function Next(s: State, a: Action): Option<State> {
    match a
    case Arrive(r, hash) => if r in s.runs then None else Some(s.(runs := s.runs[r := Run(hash, FirstLook)]))
    case ClearStaleLock =>
      if s.lock.Some? && (s.lock.value in s.runs ==> !Active(s.runs[s.lock.value].pc)) then Some(s.(lock := None))
      else None
    case _ => if a.run in s.runs then NextOf(s, a, a.run, s.runs[a.run].pc) else None
  }

  function NextOf(s: State, a: Action, r: RunId, pc: Pc): Option<State>
    requires r in s.runs
  {
    if a.Kill? then if Active(pc) then Some(Goto(s, r, Killed)) else None
    else if a.IoError? then
      if !Active(pc) || pc.Releasing? then None
      else Some(Goto(s, r, if PastLock(pc) then Releasing(Failed) else Done(Failed)))
    else
      match pc
      case FirstLook => if a.Look? then Some(Goto(s, r, if s.record.Some? then FirstRead else Missed)) else None
      case FirstRead =>
        if a.Read? && s.record.Some? then Some(Goto(s, r, Done(Replay(s.record.value, s.runs[r].hash)))) else None
      case Missed =>
        if !a.CreateLock? then None
        else if s.lock.None? then Some(Goto(s, r, SecondLook).(lock := Some(r)))
        else Some(Goto(s, r, Done(AlreadyRunning)))
      case SecondLook =>
        if !a.Look? then None
        else if s.record.Some? then Some(Goto(s, r, SecondRead))
        else Some(Goto(s, r, Executing).(executions := s.executions + [r]))
      case SecondRead =>
        if a.Read? && s.record.Some? then Some(Goto(s, r, Releasing(Replay(s.record.value, s.runs[r].hash)))) else None
      case Executing =>
        if a.EndBadly? then Some(Goto(s, r, Releasing(Failed)))
        else if a.EndWell? then Some(Goto(s, r, Recording(a.outcome)))
        else None
      case Recording(outcome) =>
        if !a.Rename? then None
        else
          Some(Goto(s, r, Releasing(Succeeded(outcome)))
               .(record := Some(Record(s.runs[r].hash, outcome)), recorders := s.recorders + [r]))
      case Releasing(result) =>
        if a.DropLock? then Some(Goto(s, r, Done(result)).(lock := if a.removed then None else s.lock)) else None
      case Done(_) => None
      case Killed => None
  }

  /** A run of the whole system: any actions in any order, each enabled where it happens. */
  ghost predicate Behavior(states: seq<State>, actions: seq<Action>) {
    && |states| == |actions| + 1 && states[0] == Init
    && forall k | 0 <= k < |actions| :: Next(states[k], actions[k]) == Some(states[k + 1])
  }

  // ---------------------------------------------------------------------------
  // The inductive invariant
  // ---------------------------------------------------------------------------

  ghost predicate RunOk(s: State, r: RunId, run: Run) {
    && (PastLock(run.pc) ==> s.lock == Some(r))
    && (run.pc.FirstRead? || run.pc.SecondRead? ==> s.record.Some?)
    && (run.pc.Executing? || run.pc.Recording? ==> s.record.None? && s.executions != [] && r == Last(s.executions))
    && (run.pc.Releasing? || run.pc.Done? ==> ResultOk(s, r, run.hash, run.pc.result))
  }

  ghost predicate ResultOk(s: State, r: RunId, hash: string, result: RunResult) {
    match result
    case Replayed(outcome) => s.record == Some(Record(hash, outcome))
    case Collision => s.record.Some? && s.record.value.hash != hash
    case Succeeded(outcome) => s.recorders == [r] && s.record == Some(Record(hash, outcome))
    case _ => true
  }

  function Last(xs: seq<RunId>): RunId
    requires xs != []
  {
    xs[|xs| - 1]
  }

  ghost predicate RecordOk(s: State) {
    && (s.record.None? <==> s.recorders == [])
    && |s.recorders| <= 1
    && (s.recorders != [] ==>
          && s.executions != [] && s.recorders[0] == Last(s.executions)
          && s.recorders[0] in s.runs && s.record.value.hash == s.runs[s.recorders[0]].hash)
    && (forall i | 0 <= i < |s.executions| :: s.executions[i] in s.runs)
    && (forall i, j | 0 <= i < j < |s.executions| :: s.executions[i] != s.executions[j])
    && (forall i | 0 <= i < |s.executions| ::
          var pc := s.runs[s.executions[i]].pc;
          pc.Executing? || pc.Recording? || pc.Releasing? || pc.Done? || pc.Killed?)
  }

  ghost predicate Inv(s: State) {
    && RecordOk(s)
    && (forall r | r in s.runs :: RunOk(s, r, s.runs[r]))
    && LockOk(s)
  }

  /** The lock is that of a run past it, or was left behind by a run that is over. */
  ghost predicate LockOk(s: State) {
    s.lock.Some? ==>
      s.lock.value in s.runs && (PastLock(s.runs[s.lock.value].pc) || !Active(s.runs[s.lock.value].pc))
  }

  lemma GotoKeepsOthers(s: State, s': State, r: RunId, pc: Pc)
    requires Inv(s) && r in s.runs
    requires s'.runs == s.runs[r := s.runs[r].(pc := pc)]
    requires s'.record == s.record || (s.recorders == [] && s'.record.Some?)
    requires s.recorders != [] ==> s'.recorders == s.recorders
    requires s'.lock == s.lock || forall q | q in s.runs && q != r :: !PastLock(s.runs[q].pc)
    requires (s'.executions == s.executions && s'.record == s.record)
             || forall q | q in s.runs && q != r :: !s.runs[q].pc.Executing? && !s.runs[q].pc.Recording?
    ensures forall q | q in s'.runs && q != r :: RunOk(s', q, s'.runs[q])
  {
  }

  lemma NextKeepsInv(s: State, a: Action)
    requires Inv(s) && Next(s, a).Some?
    ensures Inv(Next(s, a).value)
  {
    match a
    case Arrive(r, hash) =>
    case ClearStaleLock =>
    case _ =>
      var s' := NextOf(s, a, a.run, s.runs[a.run].pc).value;
      NextOfKeepsInv(s, s', a, a.run);
  }

  lemma NextOfKeepsInv(s: State, s': State, a: Action, r: RunId)
    requires Inv(s) && r in s.runs && NextOf(s, a, r, s.runs[r].pc) == Some(s')
    ensures Inv(s')
  {
    NextKeepsOwnRun(s, s', a, r);
    NextKeepsRecord(s, s', a, r);
    NextKeepsOthers(s, s', a, r);
  }

  lemma NextKeepsOwnRun(s: State, s': State, a: Action, r: RunId)
    requires RecordOk(s) && r in s.runs && RunOk(s, r, s.runs[r])
    requires NextOf(s, a, r, s.runs[r].pc) == Some(s')
    ensures r in s'.runs && RunOk(s', r, s'.runs[r])
  {
  }

  lemma NextKeepsRecord(s: State, s': State, a: Action, r: RunId)
    requires RecordOk(s) && r in s.runs && RunOk(s, r, s.runs[r])
    requires NextOf(s, a, r, s.runs[r].pc) == Some(s')
    ensures RecordOk(s')
  {
    if s.runs[r].pc.SecondLook? {
      assert r !in s.executions;
    } else {
      assert s'.executions == s.executions;
    }
  }

  lemma NextKeepsOthers(s: State, s': State, a: Action, r: RunId)
    requires Inv(s) && r in s.runs && NextOf(s, a, r, s.runs[r].pc) == Some(s')
    ensures forall q | q in s'.runs && q != r :: RunOk(s', q, s'.runs[q])
    ensures LockOk(s')
  {
    var pc := s.runs[r].pc;
    assert pc.Missed? && s'.lock != s.lock ==> forall q | q in s.runs :: !PastLock(s.runs[q].pc);
    GotoKeepsOthers(s, s', r, s'.runs[r].pc);
  }

  lemma {:induction false} InvAlways(states: seq<State>, actions: seq<Action>, k: nat)
    requires Behavior(states, actions) && k < |states|
    ensures Inv(states[k])
  {
    if k > 0 {
      InvAlways(states, actions, k - 1);
      NextKeepsInv(states[k - 1], actions[k - 1]);
    }
  }

  // ---------------------------------------------------------------------------
  // What every interleaving keeps
  // ---------------------------------------------------------------------------

  /** At any moment at most one run is between taking the lock and dropping it. */
  lemma MutualExclusion(states: seq<State>, actions: seq<Action>, k: nat, q: RunId, r: RunId)
    requires Behavior(states, actions) && k < |states|
    requires q in states[k].runs && PastLock(states[k].runs[q].pc)
    requires r in states[k].runs && PastLock(states[k].runs[r].pc)
    ensures q == r
  {
    InvAlways(states, actions, k);
  }

  /**
   At most one run ever records success, it is the last that executed, and every run that reports success is
   that one.
   */
  lemma AtMostOneRecords(states: seq<State>, actions: seq<Action>, k: nat)
    requires Behavior(states, actions) && k < |states|
    ensures |states[k].recorders| <= 1
    ensures states[k].recorders != [] ==>
              states[k].executions != [] && states[k].recorders[0] == Last(states[k].executions)
    ensures forall r | r in states[k].runs && states[k].runs[r].pc.Done? && states[k].runs[r].pc.result.Succeeded? ::
              states[k].recorders == [r]
    ensures forall i, j | 0 <= i < j < |states[k].executions| ::
              states[k].executions[i] !in states[k].recorders && states[k].executions[i] != states[k].executions[j]
  {
    InvAlways(states, actions, k);
    assert forall r | r in states[k].runs :: RunOk(states[k], r, states[k].runs[r]);
  }

  lemma RecordIsPermanent(s: State, a: Action)
    requires Inv(s) && s.record.Some? && Next(s, a).Some?
    ensures var s' := Next(s, a).value;
            s'.record == s.record && s'.executions == s.executions && s'.recorders == s.recorders
  {
    if !a.Arrive? && !a.ClearStaleLock? {
      assert RunOk(s, a.run, s.runs[a.run]);
    }
  }

  /** Once a record exists it never changes, and no run begins executing any more. */
  lemma {:induction false} RecordEndsExecution(states: seq<State>, actions: seq<Action>, k: nat, m: nat)
    requires Behavior(states, actions) && k <= m < |states| && states[k].record.Some?
    ensures states[m].record == states[k].record
    ensures states[m].executions == states[k].executions
    ensures states[m].recorders == states[k].recorders
    decreases m - k
  {
    if k < m {
      hide Next, Inv;
      RecordEndsExecution(states, actions, k, m - 1);
      InvAlways(states, actions, m - 1);
      assert Next(states[m - 1], actions[m - 1]) == Some(states[(m - 1) + 1]);
      RecordIsPermanent(states[m - 1], actions[m - 1]);
    }
  }

  /** What a run that arrives after the record can be doing: reading it, or done with what it says. */
  ghost predicate OnlyReplays(s: State, r: RunId, record: Record) {
    r in s.runs ==>
      match s.runs[r].pc
      case FirstLook => true
      case FirstRead => true
      case Killed => true
      case Done(result) => result == Failed || result == Replay(record, s.runs[r].hash)
      case _ => false
  }

  /** A run that arrives once a record exists replays it or reports the collision, and never touches the lock. */
  lemma {:induction false} LateRunsOnlyReplay(states: seq<State>, actions: seq<Action>, k: nat, m: nat, r: RunId)
    requires Behavior(states, actions) && k <= m < |states|
    requires states[k].record.Some? && r !in states[k].runs
    ensures OnlyReplays(states[m], r, states[k].record.value)
    ensures r !in states[m].executions
    decreases m - k
  {
    InvAlways(states, actions, m);
    RecordEndsExecution(states, actions, k, m);
    InvAlways(states, actions, k);
    if k < m {
      LateRunsOnlyReplay(states, actions, k, m - 1, r);
      RecordEndsExecution(states, actions, k, m - 1);
      ReplayStep(states[m - 1], actions[m - 1], r);
    }
  }

  lemma ReplayStep(s: State, a: Action, r: RunId)
    requires s.record.Some? && OnlyReplays(s, r, s.record.value) && Next(s, a).Some?
    ensures OnlyReplays(Next(s, a).value, r, s.record.value)
  {
  }

  /**
   A run that did not make the record ends without success: it replays the record of its own hash, reports the
   collision with a record of another hash, finds the lock taken, or fails.
   */
  lemma EarlyRunsNeverRepeat(states: seq<State>, actions: seq<Action>, k: nat, m: nat, r: RunId)
    requires Behavior(states, actions) && k <= m < |states|
    requires states[k].record.Some? && r !in states[k].recorders && r in states[m].runs && states[m].runs[r].pc.Done?
    ensures var result := states[m].runs[r].pc.result;
            && !result.Succeeded?
            && (result.Replayed? ==> states[k].record == Some(Record(states[m].runs[r].hash, result.outcome)))
            && (result.Collision? ==> states[k].record.value.hash != states[m].runs[r].hash)
  {
    InvAlways(states, actions, m);
    RecordEndsExecution(states, actions, k, m);
    assert RunOk(states[m], r, states[m].runs[r]);
  }

  // ---------------------------------------------------------------------------
  // What a run does when nothing stops it
  // ---------------------------------------------------------------------------

  /** A run that executes well and writes its record. */
  function Success(r: RunId, outcome: Value): seq<Action> {
    [EndWell(r, outcome), Rename(r), DropLock(r, true)]
  }

  lemma AfterThree(s: State, a: Action, b: Action, c: Action, s1: State, s2: State)
    requires Next(s, a) == Some(s1) && Next(s1, b) == Some(s2)
    ensures After(Next, s, [a, b, c]) == Next(s2, c)
  {
    hide Next;
    assert [a, b, c][1..] == [b, c];
    AfterTwo(Next, s1, b, c);
  }

  /**
   From wherever it executes, a run that ends well can write its record and drop its lock; it then reports its
   success, the record holds its hash and its outcome, and it is the one recorder.
   */
  lemma SuccessLeavesARecord(states: seq<State>, actions: seq<Action>, k: nat, r: RunId, outcome: Value)
    requires Behavior(states, actions) && k < |states|
    requires r in states[k].runs && states[k].runs[r].pc.Executing?
    ensures var s := states[k];
            After(Next, s, Success(r, outcome)) ==
            Some(State(None, Some(Record(s.runs[r].hash, outcome)),
                       s.runs[r := Run(s.runs[r].hash, Done(Succeeded(outcome)))], s.executions, [r]))
  {
    InvAlways(states, actions, k);
    var s := states[k];
    assert RunOk(s, r, s.runs[r]);
    hide Inv, RunOk;
    SuccessFrom(s, r, outcome);
  }

  lemma SuccessFrom(s: State, r: RunId, outcome: Value)
    requires r in s.runs && s.runs[r].pc.Executing? && s.recorders == []
    ensures After(Next, s, Success(r, outcome)) ==
            Some(State(None, Some(Record(s.runs[r].hash, outcome)),
                       s.runs[r := Run(s.runs[r].hash, Done(Succeeded(outcome)))], s.executions, [r]))
  {
    var hash := s.runs[r].hash;
    var s1 := Goto(s, r, Recording(outcome));
    var s2 := State(s.lock, Some(Record(hash, outcome)), s.runs[r := Run(hash, Releasing(Succeeded(outcome)))],
                    s.executions, [r]);
    assert s1.runs[r := Run(hash, Releasing(Succeeded(outcome)))] == s2.runs && s.recorders + [r] == [r];
    assert s2.runs[r := Run(hash, Done(Succeeded(outcome)))] == s.runs[r := Run(hash, Done(Succeeded(outcome)))];
    AfterThree(s, EndWell(r, outcome), Rename(r), DropLock(r, true), s1, s2);
  }

  /** A run that ends badly frees the lock, leaves no record and reports a failure. */
  lemma FailureLeavesNothing(s: State, r: RunId)
    requires r in s.runs && s.runs[r].pc.Executing?
    ensures After(Next, s, [EndBadly(r), DropLock(r, true)]) ==
            Some(s.(lock := None, runs := s.runs[r := Run(s.runs[r].hash, Done(Failed))]))
  {
    var s1 := Goto(s, r, Releasing(Failed));
    assert Next(s, EndBadly(r)) == Some(s1);
    assert s1.runs[r := Run(s.runs[r].hash, Done(Failed))] == s.runs[r := Run(s.runs[r].hash, Done(Failed))];
    assert Next(s1, DropLock(r, true)) ==
           Some(s.(lock := None, runs := s.runs[r := Run(s.runs[r].hash, Done(Failed))]));
    hide Next;
    AfterTwo(Next, s, EndBadly(r), DropLock(r, true));
  }

  /** A run that arrives after the record answers from it and changes nothing else. */
  lemma LateRunAnswers(s: State, r: RunId, hash: string)
    requires r !in s.runs && s.record.Some?
    ensures After(Next, s, [Arrive(r, hash), Look(r), Read(r)]) ==
            Some(s.(runs := s.runs[r := Run(hash, Done(Replay(s.record.value, hash)))]))
  {
    var s1 := s.(runs := s.runs[r := Run(hash, FirstLook)]);
    var s2 := s.(runs := s.runs[r := Run(hash, FirstRead)]);
    assert s1.runs[r := Run(hash, FirstRead)] == s2.runs;
    var done := Run(hash, Done(Replay(s.record.value, hash)));
    assert s2.runs[r := done] == s.runs[r := done];
    AfterThree(s, Arrive(r, hash), Look(r), Read(r), s1, s2);
  }

  /** A run that missed the record but finds it after taking the lock answers from it and frees the lock. */
  lemma SecondLookAnswers(s: State, r: RunId)
    requires r in s.runs && s.runs[r].pc.SecondLook? && s.record.Some?
    ensures After(Next, s, [Look(r), Read(r), DropLock(r, true)]) ==
            Some(s.(lock := None,
                    runs := s.runs[r := Run(s.runs[r].hash, Done(Replay(s.record.value, s.runs[r].hash)))]))
  {
    var hash := s.runs[r].hash;
    var answer := Replay(s.record.value, hash);
    var s1 := Goto(s, r, SecondRead);
    var s2 := s.(runs := s.runs[r := Run(hash, Releasing(answer))]);
    assert s1.runs[r := Run(hash, Releasing(answer))] == s2.runs;
    assert s2.runs[r := Run(hash, Done(answer))] == s.runs[r := Run(hash, Done(answer))];
    AfterThree(s, Look(r), Read(r), DropLock(r, true), s1, s2);
  }

  /** A run that finds the lock taken gives up without touching anything. */
  lemma TakenLockIsRespected(s: State, r: RunId)
    requires r in s.runs && s.runs[r].pc.Missed? && s.lock.Some?
    ensures Next(s, CreateLock(r)) == Some(s.(runs := s.runs[r := Run(s.runs[r].hash, Done(AlreadyRunning))]))
  {
  }

  /** The first run executes and records; the second arrives later. */
  function RecordScript(hash: string, outcome: Value, later: string): seq<Action> {
    Solo(0, hash, false) + Success(0, outcome) + [Arrive(1, later), Look(1), Read(1)]
  }

  /** One execution: the second run of the same workflow answers with the first one's outcome. */
  lemma RecordedRunIsNotRepeated(hash: string, outcome: Value, later: string)
    ensures Executes(RecordScript(hash, outcome, later), [0])
    ensures After(Next, Init, RecordScript(hash, outcome, later)).value.runs ==
            map[0 := Run(hash, Done(Succeeded(outcome))),
                1 := Run(later, Done(if later == hash then Replayed(outcome) else Collision))]
    ensures After(Next, Init, RecordScript(hash, outcome, later)).value.record == Some(Record(hash, outcome))
  {
    hide After, Solo, Next, Success;
    var first, last := Solo(0, hash, false), [Arrive(1, later), Look(1), Read(1)];
    var s := Lone(hash, Executing, Some(0));
    FirstRunExecutes(hash);
    SuccessFrom(s, 0, outcome);
    var t := After(Next, s, Success(0, outcome)).value;
    assert t.runs == map[0 := Run(hash, Done(Succeeded(outcome)))];
    LateRunAnswers(t, 1, later);
    AfterAppend(Next, Init, first, Success(0, outcome));
    AfterAppend(Next, Init, first + Success(0, outcome), last);
    TraceSteps(Next, Init, RecordScript(hash, outcome, later));
  }

  // ---------------------------------------------------------------------------
  // When effects repeat
  // ---------------------------------------------------------------------------

  /** A run that is over without a record to show for it: a failure, an I/O error, or a kill. */
  predicate Unrecorded(pc: Pc) {
    pc == Done(Failed) || pc.Killed?
  }

  /** Every run that executed before the last one is over and left no record; what the last one ends in is known. */
  ghost predicate ExecutorsOk(s: State) {
    && (forall i | 0 <= i < |s.executions| :: s.executions[i] in s.runs)
    && (forall i | 0 <= i < |s.executions| - 1 :: Unrecorded(s.runs[s.executions[i]].pc))
    && (s.executions != [] ==> LastOk(s.runs[Last(s.executions)].pc))
  }

  predicate LastOk(pc: Pc) {
    match pc
    case Executing => true
    case Recording(_) => true
    case Releasing(result) => result == Failed || result.Succeeded?
    case Done(result) => result == Failed || result.Succeeded?
    case Killed => true
    case _ => false
  }

  /** Nobody is past the lock. */
  ghost predicate Unlocked(s: State) {
    forall q | q in s.runs :: !PastLock(s.runs[q].pc)
  }

  /** Without a record and with nobody past the lock, every run that ever executed is over and unrecorded. */
  lemma AllExecutorsUnrecorded(s: State)
    requires Inv(s) && ExecutorsOk(s) && s.record.None?
    requires s.executions != [] ==> !PastLock(s.runs[Last(s.executions)].pc)
    ensures forall q | q in s.executions :: Unrecorded(s.runs[q].pc)
  {
    if s.executions != [] {
      assert RunOk(s, Last(s.executions), s.runs[Last(s.executions)]);
      assert Unrecorded(s.runs[Last(s.executions)].pc);
    }
  }

  /** What one step does to the run that takes it, as far as executing goes. */
  lemma StepOfRun(s: State, s': State, a: Action, r: RunId)
    requires r in s.runs && NextOf(s, a, r, s.runs[r].pc) == Some(s')
    ensures s'.runs.Keys == s.runs.Keys && forall q | q in s.runs && q != r :: s'.runs[q] == s.runs[q]
    ensures !Unrecorded(s.runs[r].pc)
    ensures LastOk(s.runs[r].pc) ==> LastOk(s'.runs[r].pc) && s'.executions == s.executions
    ensures s'.executions == s.executions
            || (&& s.runs[r].pc.SecondLook? && s.record.None?
                && s'.executions == s.executions + [r] && s'.runs[r].pc == Executing)
  {
  }

  lemma NextOfKeepsExecutors(s: State, s': State, a: Action, r: RunId)
    requires Inv(s) && ExecutorsOk(s) && r in s.runs && NextOf(s, a, r, s.runs[r].pc) == Some(s')
    ensures ExecutorsOk(s')
  {
    StepOfRun(s, s', a, r);
    assert RunOk(s, r, s.runs[r]);
    hide NextOf;
    if s'.executions != s.executions {
      if s.executions != [] { assert RunOk(s, Last(s.executions), s.runs[Last(s.executions)]); }
      AllExecutorsUnrecorded(s);
    }
  }

  lemma NextKeepsExecutors(s: State, a: Action)
    requires Inv(s) && ExecutorsOk(s) && Next(s, a).Some?
    ensures ExecutorsOk(Next(s, a).value)
  {
    hide Inv, NextOf;
    if !a.Arrive? && !a.ClearStaleLock? { NextOfKeepsExecutors(s, Next(s, a).value, a, a.run); }
  }

  lemma {:induction false} ExecutorsAlways(states: seq<State>, actions: seq<Action>, k: nat)
    requires Behavior(states, actions) && k < |states|
    ensures Inv(states[k]) && ExecutorsOk(states[k])
  {
    InvAlways(states, actions, k);
    if k > 0 {
      hide Inv, Next;
      ExecutorsAlways(states, actions, k - 1);
      assert Next(states[k - 1], actions[k - 1]) == Some(states[(k - 1) + 1]);
      NextKeepsExecutors(states[k - 1], actions[k - 1]);
    }
  }

  predicate IsBy(a: Action, r: RunId) {
    a.ClearStaleLock? || a.run == r
  }

  ghost predicate AllBy(actions: seq<Action>, r: RunId) {
    forall a | a in actions :: IsBy(a, r)
  }

  /** With nobody else moving, and stale locks cleared, run `r` gets to execute. */
  ghost predicate MayExecute(s: State, r: RunId) {
    exists actions ::
      AllBy(actions, r) && After(Next, s, actions).Some? && After(Next, s, actions).value.executions == s.executions + [r]
  }

  /** What a run does on its own up to executing. */
  function Solo(r: RunId, hash: string, stale: bool): seq<Action> {
    [Arrive(r, hash), Look(r)] + (if stale then [ClearStaleLock] else []) + [CreateLock(r), Look(r)]
  }

  lemma SoloArrives(s: State, r: RunId, hash: string)
    requires r !in s.runs && s.record.None?
    ensures After(Next, s, [Arrive(r, hash), Look(r)]) == Some(s.(runs := s.runs[r := Run(hash, Missed)]))
  {
    var t := s.(runs := s.runs[r := Run(hash, FirstLook)]);
    AfterTwo(Next, s, Arrive(r, hash), Look(r));
    assert t.runs[r := Run(hash, Missed)] == s.runs[r := Run(hash, Missed)];
  }

  lemma SoloLocks(s: State, r: RunId)
    requires r in s.runs && s.runs[r].pc.Missed? && s.record.None? && s.lock.None?
    ensures After(Next, s, [CreateLock(r), Look(r)]) ==
            Some(State(Some(r), None, s.runs[r := s.runs[r].(pc := Executing)], s.executions + [r], s.recorders))
  {
    AfterTwo(Next, s, CreateLock(r), Look(r));
    var t := Next(s, CreateLock(r)).value;
    assert t.runs[r := s.runs[r].(pc := Executing)] == s.runs[r := s.runs[r].(pc := Executing)];
  }

  /** On its own, a fresh run executes when there is no record and nobody is past the lock. */
  lemma SoloExecutes(s: State, r: RunId, hash: string)
    requires LockOk(s) && r !in s.runs && s.record.None? && Unlocked(s)
    ensures After(Next, s, Solo(r, hash, s.lock.Some?)) ==
            Some(State(Some(r), None, s.runs[r := Run(hash, Executing)], s.executions + [r], s.recorders))
    ensures MayExecute(s, r)
  {
    var s1 := s.(runs := s.runs[r := Run(hash, Missed)]);
    var first, last := [Arrive(r, hash), Look(r)], [CreateLock(r), Look(r)];
    SoloArrives(s, r, hash);
    var s2 := s1.(lock := None);
    SoloLocks(s2, r);
    assert s2.runs[r := Run(hash, Executing)] == s.runs[r := Run(hash, Executing)];
    var actions := Solo(r, hash, s.lock.Some?);
    if s.lock.Some? {
      assert Next(s1, ClearStaleLock) == Some(s2);
      AfterOne(Next, s1, ClearStaleLock);
      AfterAppend(Next, s, first, [ClearStaleLock]);
      AfterAppend(Next, s, first + [ClearStaleLock], last);
    } else {
      assert s2 == s1 && actions == first + last;
      AfterAppend(Next, s, first, last);
    }
    assert AllBy(actions, r);
  }

  lemma {:induction false} RecordBlocks(s: State, actions: seq<Action>)
    requires Inv(s) && s.record.Some? && After(Next, s, actions).Some?
    ensures After(Next, s, actions).value.executions == s.executions
    decreases |actions|
  {
    if actions != [] {
      hide Next, Inv;
      RecordIsPermanent(s, actions[0]);
      NextKeepsInv(s, actions[0]);
      RecordBlocks(Next(s, actions[0]).value, actions[1..]);
    }
  }

  /** A run past the lock, standing still: it holds the lock, and `r` is not past it. */
  ghost predicate Holding(s: State, q: RunId, r: RunId) {
    && q != r && q in s.runs && PastLock(s.runs[q].pc) && s.lock == Some(q)
    && (r in s.runs ==> !PastLock(s.runs[r].pc))
  }

  lemma StandingStill(s: State, a: Action, q: RunId, r: RunId)
    requires Holding(s, q, r) && IsBy(a, r) && Next(s, a).Some?
    ensures Holding(Next(s, a).value, q, r) && Next(s, a).value.executions == s.executions
  {
  }

  lemma {:induction false} HolderBlocks(s: State, actions: seq<Action>, q: RunId, r: RunId)
    requires Holding(s, q, r) && AllBy(actions, r) && After(Next, s, actions).Some?
    ensures After(Next, s, actions).value.executions == s.executions
    decreases |actions|
  {
    if actions != [] {
      hide Next, Holding;
      StandingStill(s, actions[0], q, r);
      HolderBlocks(Next(s, actions[0]).value, actions[1..], q, r);
    }
  }

  /**
   Exactly when effects can be repeated on the spot. A further run gets to execute if and only if there is no
   record, nobody is past the lock, and every run that executed before is over without a record: it failed, could
   not write its record, or was killed.
   */
  lemma FurtherExecutionIff(states: seq<State>, actions: seq<Action>, k: nat, r: RunId)
    requires Behavior(states, actions) && k < |states| && r !in states[k].runs
    ensures MayExecute(states[k], r) <==>
            && states[k].record.None? && Unlocked(states[k])
            && forall q | q in states[k].executions :: q in states[k].runs && Unrecorded(states[k].runs[q].pc)
  {
    ExecutorsAlways(states, actions, k);
    var s := states[k];
    if s.record.None? && Unlocked(s) {
      AllExecutorsUnrecorded(s);
      SoloExecutes(s, r, "");
    }
    if MayExecute(s, r) {
      var more :| AllBy(more, r) && After(Next, s, more).Some? && After(Next, s, more).value.executions == s.executions + [r];
      if s.record.Some? { RecordBlocks(s, more); }
      forall q | q in s.runs
        ensures !PastLock(s.runs[q].pc)
      {
        if PastLock(s.runs[q].pc) {
          assert RunOk(s, q, s.runs[q]);
          HolderBlocks(s, more, q, r);
        }
      }
    }
  }

  /** Whatever the others do, a further execution stays possible exactly as long as there is no record. */
  lemma OnlyARecordEndsRepetition(states: seq<State>, actions: seq<Action>, k: nat, r: RunId)
    requires Behavior(states, actions) && k < |states| && r !in states[k].runs
    ensures states[k].record.None? <==>
            exists more :: After(Next, states[k], more).Some? && r in After(Next, states[k], more).value.executions
  {
    ExecutorsAlways(states, actions, k);
    var s := states[k];
    assert r !in s.executions;
    if s.record.Some? {
      forall more | After(Next, s, more).Some?
        ensures r !in After(Next, s, more).value.executions
      {
        RecordBlocks(s, more);
      }
    } else if Unlocked(s) {
      SoloExecutes(s, r, "");
    } else {
      var q :| q in s.runs && PastLock(s.runs[q].pc);
      KilledHolderFreesTheWay(s, q, r);
    }
  }

  lemma KilledHolderFreesTheWay(s: State, q: RunId, r: RunId)
    requires Inv(s) && q in s.runs && PastLock(s.runs[q].pc) && r !in s.runs && s.record.None?
    ensures exists more :: After(Next, s, more).Some? && r in After(Next, s, more).value.executions
  {
    assert RunOk(s, q, s.runs[q]);
    assert forall p | p in s.runs && p != q :: RunOk(s, p, s.runs[p]) && !PastLock(s.runs[p].pc);
    var t := Next(s, Kill(q)).value;
    NextKeepsInv(s, Kill(q));
    hide Inv;
    SoloExecutes(t, r, "");
    var rest := Solo(r, "", t.lock.Some?);
    var more := [Kill(q)] + rest;
    assert more[0] == Kill(q) && more[1..] == rest;
    assert After(Next, s, more) == After(Next, t, rest);
  }

  /** A run only begins to execute when there is no record and all that executed before is over and unrecorded. */
  lemma RepeatsFollowUnrecordedRuns(states: seq<State>, actions: seq<Action>, k: nat)
    requires Behavior(states, actions) && k < |actions| && states[k + 1].executions != states[k].executions
    ensures actions[k].Look? && states[k + 1].executions == states[k].executions + [actions[k].run]
    ensures states[k].record.None?
    ensures forall q | q in states[k].executions :: q in states[k].runs && Unrecorded(states[k].runs[q].pc)
  {
    ExecutorsAlways(states, actions, k);
    var s, a := states[k], actions[k];
    assert Next(s, a) == Some(states[k + 1]);
    StepOfRun(s, states[k + 1], a, a.run);
    assert RunOk(s, a.run, s.runs[a.run]);
    if s.executions != [] { assert RunOk(s, Last(s.executions), s.runs[Last(s.executions)]); }
    AllExecutorsUnrecorded(s);
  }

  // ---------------------------------------------------------------------------
  // Two runs that repeat
  // ---------------------------------------------------------------------------

  /** The first run executes, is killed, its lock is cleared, and the second run executes too. */
  function KillScript(hash: string): seq<Action> {
    Solo(0, hash, false) + [Kill(0)] + Solo(1, hash, true)
  }

  /** The first run executes well, cannot write its record, drops its lock, and the second run executes too. */
  function WriteErrorScript(hash: string, outcome: Value): seq<Action> {
    Solo(0, hash, false) + [EndWell(0, outcome), IoError(0), DropLock(0, true)] + Solo(1, hash, false)
  }

  /** A script is a run of the whole system that ends with this many executions. */
  ghost predicate Executes(script: seq<Action>, executions: seq<RunId>) {
    && After(Next, Init, script).Some? && After(Next, Init, script).value.executions == executions
    && Behavior(Trace(Next, Init, script), script)
  }

  lemma SecondRunExecutes(first: seq<Action>, hash: string, stale: bool)
    requires After(Next, Init, first).Some?
    requires var s := After(Next, Init, first).value;
             && LockOk(s) && Unlocked(s) && s.record.None? && 1 !in s.runs && s.executions == [0]
             && s.lock.Some? == stale
    ensures Executes(first + Solo(1, hash, stale), [0, 1])
  {
    hide Next;
    var s := After(Next, Init, first).value;
    SoloExecutes(s, 1, hash);
    AfterAppend(Next, Init, first, Solo(1, hash, stale));
    TraceSteps(Next, Init, first + Solo(1, hash, stale));
  }

  /** The state with run 0 alone, where it stands, after it executed. */
  function Lone(hash: string, pc: Pc, lock: Option<RunId>): State {
    State(lock, None, map[0 := Run(hash, pc)], [0], [])
  }

  lemma FirstRunExecutes(hash: string)
    ensures After(Next, Init, Solo(0, hash, false)) == Some(Lone(hash, Executing, Some(0)))
  {
    hide After, Solo;
    SoloExecutes(Init, 0, hash);
    assert Init.runs[0 := Run(hash, Executing)] == map[0 := Run(hash, Executing)];
    assert Init.executions + [0] == [0];
  }

  lemma LoneMoves(hash: string, pc: Pc, pc': Pc)
    ensures map[0 := Run(hash, pc)][0 := Run(hash, pc')] == map[0 := Run(hash, pc')]
  {
  }

  /** Two runs of one workflow both execute when the first is killed and its lock cleared. */
  lemma KilledRunIsRepeated(hash: string)
    ensures Executes(KillScript(hash), [0, 1])
  {
    var first, s := Solo(0, hash, false), Lone(hash, Executing, Some(0));
    FirstRunExecutes(hash);
    LoneMoves(hash, Executing, Killed);
    assert Next(s, Kill(0)) == Some(Lone(hash, Killed, Some(0)));
    hide After, Solo, Next, Executes;
    AfterOne(Next, s, Kill(0));
    AfterAppend(Next, Init, first, [Kill(0)]);
    SecondRunExecutes(first + [Kill(0)], hash, true);
  }

  /** Two runs of one workflow both execute when the first cannot write its record: no kill, no stale lock. */
  lemma WriteErrorIsRepeated(hash: string, outcome: Value)
    ensures Executes(WriteErrorScript(hash, outcome), [0, 1])
  {
    hide After, Solo, Next, Executes;
    var first, failing := Solo(0, hash, false), [EndWell(0, outcome), IoError(0), DropLock(0, true)];
    FirstRunExecutes(hash);
    FailsToRecord(hash, outcome);
    AfterAppend(Next, Init, first, failing);
    SecondRunExecutes(first + failing, hash, false);
  }

  lemma FailsToRecord(hash: string, outcome: Value)
    ensures After(Next, Lone(hash, Executing, Some(0)), [EndWell(0, outcome), IoError(0), DropLock(0, true)]) ==
            Some(Lone(hash, Done(Failed), None))
  {
    var s, s1 := Lone(hash, Executing, Some(0)), Lone(hash, Recording(outcome), Some(0));
    var s2 := Lone(hash, Releasing(Failed), Some(0));
    LoneMoves(hash, Executing, Recording(outcome));
    LoneMoves(hash, Recording(outcome), Releasing(Failed));
    LoneMoves(hash, Releasing(Failed), Done(Failed));
    assert Next(s, EndWell(0, outcome)) == Some(s1) && Next(s1, IoError(0)) == Some(s2);
    assert Next(s2, DropLock(0, true)) == Some(Lone(hash, Done(Failed), None));
    hide Next;
    var rest := [IoError(0), DropLock(0, true)];
    assert [EndWell(0, outcome), IoError(0), DropLock(0, true)][1..] == rest;
    AfterTwo(Next, s1, IoError(0), DropLock(0, true));
  }

  /** Removing the lock of a run that is still active breaks mutual exclusion at the next acquisition. */
  lemma ClearingALiveLockIsUnsafe(s: State, q: RunId, r: RunId)
    requires Inv(s) && q in s.runs && PastLock(s.runs[q].pc) && r in s.runs && s.runs[r].pc.Missed?
    ensures Next(s, ClearStaleLock).None?
    ensures var s' := Next(s.(lock := None), CreateLock(r));
            && s'.Some? && q in s'.value.runs && PastLock(s'.value.runs[q].pc)
            && r in s'.value.runs && PastLock(s'.value.runs[r].pc) && q != r
  {
    assert RunOk(s, q, s.runs[q]);
  }
}
