/**
 What is counted on the way of messages to one listener. Producers, mark readers and confirmations hold the exclusive
 queue lock; the one consumer does not. Every atomic load, add and max is a step of its own, so producers,
 readers and the consumer interleave between any two of them.
 */
module Flow {
  import opened Basics
  import opened Steps

  datatype FlowMark = FlowMark(
    pushed: nat,
    pushedChanges: nat,
    settled: nat,
    settledChanges: nat,
    confirmedChanges: nat)

  function Monus(a: nat, b: nat): nat {
    if a < b then 0 else a - b
  }

  function QueuedChanges(m: FlowMark): nat {
    Monus(m.pushedChanges, m.settledChanges)
  }

  /** Who holds the queue lock, and how far it has come. */
  datatype Holder =
    | Free
    | Pushing(changes: nat)
    | PushedChanges(changes: nat)
    | PushedMessage(changes: nat)
    | Marking(loads: nat, mark: FlowMark)

  /** Where the consumer is between two messages. */
  datatype Consumer =
    | Away
    | Back
    | LoadedChanges(value: nat)
    | SettledChanges
    | LoadedMessages(count: nat)
    | Receiving
    | Received(changes: nat)
    | TookChanges

  /**
   `sent` is every message that went into the channel, by its change count; `received` of them came out;
   `backFor` is how many the consumer had taken when it last came back; `marks` are the marks read of this channel;
   `epoch` counts the subscriptions of the id, and `stale` are the marks read in earlier ones.
   */
  datatype State = State(
    pushed: nat, pushedChanges: nat,
    taken: nat, takenChanges: nat,
    settled: nat, settledChanges: nat,
    confirmedChanges: nat,
    holder: Holder,
    consumer: Consumer,
    sent: seq<nat>,
    received: nat,
    backFor: nat,
    marks: set<FlowMark>,
    epoch: nat,
    stale: set<FlowMark>)

  const NoMark := FlowMark(0, 0, 0, 0, 0)

  const Init := Fresh(0, {})

  /** A channel just created: every counter at zero. */
  function Fresh(epoch: nat, stale: set<FlowMark>): State {
    State(0, 0, 0, 0, 0, 0, 0, Free, Away, [], 0, 0, {}, epoch, stale)
  }

  datatype Action =
    | StartPush(changes: nat)
    | AddPushedChanges
    | AddPushed
    | Send
    | StartMark
    | LoadMark
    | ConfirmMark(mark: FlowMark)
    | ConfirmBarrier(target: FlowMark, mark: FlowMark)
    | ComeBack
    | LoadTakenChanges
    | MaxSettledChanges
    | LoadTaken
    | MaxSettled
    | Receive
    | TimeOut
    | AddTakenChanges
    | AddTaken
    | Resubscribe

  function Max(a: nat, b: nat): nat {
    if a < b then b else a
  }

  function Next(s: State, a: Action): Option<State> {
    match a
    case StartPush(n) => if s.holder.Free? then Some(s.(holder := Pushing(n))) else None
    case AddPushedChanges =>
      if s.holder.Pushing?
      then Some(s.(pushedChanges := s.pushedChanges + s.holder.changes, holder := PushedChanges(s.holder.changes)))
      else None
    case AddPushed =>
      if s.holder.PushedChanges? then Some(s.(pushed := s.pushed + 1, holder := PushedMessage(s.holder.changes)))
      else None
    case Send =>
      if s.holder.PushedMessage? then Some(s.(sent := s.sent + [s.holder.changes], holder := Free)) else None
    case StartMark => if s.holder.Free? then Some(s.(holder := Marking(0, NoMark))) else None
    case LoadMark => if s.holder.Marking? then Some(Load(s, s.holder.loads, s.holder.mark)) else None
    case ConfirmMark(m) => if s.holder.Free? && m in s.marks then Some(Confirm(s, m.settledChanges)) else None
    case ConfirmBarrier(target, m) =>
      if s.holder.Free? && target in s.marks && m in s.marks && m.settled >= target.pushed
      then Some(Confirm(s, target.pushedChanges))
      else None
    case Resubscribe =>
      if s.holder.Free? && s.consumer.Away? then Some(Fresh(s.epoch + 1, s.stale + s.marks)) else None
    case _ => NextConsumer(s, a)
  }

  /** Confirming raises the confirmed changes, or leaves them. */
  function Confirm(s: State, changes: nat): State {
    s.(confirmedChanges := Max(s.confirmedChanges, changes))
  }

  /** The five loads of a mark, in their order. */
  function Load(s: State, loads: nat, m: FlowMark): State {
    if loads == 0 then s.(holder := Marking(1, m.(pushed := s.pushed)))
    else if loads == 1 then s.(holder := Marking(2, m.(pushedChanges := s.pushedChanges)))
    else if loads == 2 then s.(holder := Marking(3, m.(settled := s.settled)))
    else if loads == 3 then s.(holder := Marking(4, m.(settledChanges := s.settledChanges)))
    else s.(holder := Free, marks := s.marks + {m.(confirmedChanges := s.confirmedChanges)})
  }

  /** The consumer: come back, settle what was taken, receive, count what was received. */
  function NextConsumer(s: State, a: Action): Option<State> {
    match s.consumer
    case Away => if a.ComeBack? && s.holder == Free then Some(s.(consumer := Back)) else None
    case Back => if a.LoadTakenChanges? then Some(s.(consumer := LoadedChanges(s.takenChanges))) else None
    case LoadedChanges(v) =>
      if a.MaxSettledChanges?
      then Some(s.(settledChanges := Max(s.settledChanges, v), backFor := s.received, consumer := SettledChanges))
      else None
    case SettledChanges => if a.LoadTaken? then Some(s.(consumer := LoadedMessages(s.taken))) else None
    case LoadedMessages(v) =>
      if a.MaxSettled? then Some(s.(settled := Max(s.settled, v), consumer := Receiving)) else None
    case Receiving =>
      if a.TimeOut? then Some(s.(consumer := Away))
      else if a.Receive? && s.received < |s.sent|
      then Some(s.(consumer := Received(s.sent[s.received]), received := s.received + 1))
      else None
    case Received(n) =>
      if a.AddTakenChanges? then Some(s.(takenChanges := s.takenChanges + n, consumer := TookChanges)) else None
    case TookChanges => if a.AddTaken? then Some(s.(taken := s.taken + 1, consumer := Away)) else None
  }

  ghost predicate Behavior(states: seq<State>, actions: seq<Action>) {
    && |states| == |actions| + 1 && states[0] == Init
    && forall k | 0 <= k < |actions| :: Next(states[k], actions[k]) == Some(states[k + 1])
  }

  // ---------------------------------------------------------------------------
  // Prefix sums
  // ---------------------------------------------------------------------------

  /** The changes carried by the first `n` messages. */
  function Total(sent: seq<nat>, n: nat): nat
    requires n <= |sent|
  {
    if n == 0 then 0 else Total(sent, n - 1) + sent[n - 1]
  }

  lemma {:induction false} TotalMonotone(sent: seq<nat>, m: nat, n: nat)
    requires m <= n <= |sent|
    ensures Total(sent, m) <= Total(sent, n)
    decreases n - m
  {
    if m < n { TotalMonotone(sent, m, n - 1); }
  }

  lemma {:induction false} TotalOfPrefix(sent: seq<nat>, more: seq<nat>, n: nat)
    requires n <= |sent|
    ensures Total(sent + more, n) == Total(sent, n)
  {
    if n > 0 { TotalOfPrefix(sent, more, n - 1); }
  }

  lemma {:induction false} EqualTotalsCarryNothing(sent: seq<nat>, m: nat, n: nat, i: nat)
    requires m <= i < n <= |sent| && Total(sent, m) >= Total(sent, n)
    ensures sent[i] == 0
  {
    TotalMonotone(sent, m, i);
    TotalMonotone(sent, i + 1, n);
  }

  // ---------------------------------------------------------------------------
  // The inductive invariant
  // ---------------------------------------------------------------------------

  /** The counters are the prefix sums of the messages that reached each stage. */
  ghost predicate Counted(s: State) {
    && s.backFor <= s.received <= |s.sent|
    && s.pushed == |s.sent| + (if s.holder.PushedMessage? then 1 else 0)
    && s.pushedChanges == Total(s.sent, |s.sent|)
                          + (if s.holder.PushedChanges? || s.holder.PushedMessage? then s.holder.changes else 0)
    && s.settledChanges == Total(s.sent, s.backFor)
    && s.received - 1 <= s.settled <= s.backFor
    && ConsumerCounted(s)
  }

  ghost predicate ConsumerCounted(s: State)
    requires s.backFor <= s.received <= |s.sent|
  {
    if s.consumer.Received? || s.consumer.TookChanges? then
      && s.received > 0 && s.taken == s.received - 1 == s.backFor
      && (s.consumer.Received? ==>
            s.consumer.changes == s.sent[s.received - 1] && s.takenChanges == Total(s.sent, s.received - 1))
      && (s.consumer.TookChanges? ==> s.takenChanges == Total(s.sent, s.received))
    else
      && s.takenChanges == Total(s.sent, s.received) && s.taken == s.received
      && (s.consumer.LoadedChanges? ==> s.consumer.value == s.takenChanges)
      && (s.consumer.SettledChanges? ==> s.backFor == s.received)
      && (s.consumer.LoadedMessages? ==> s.backFor == s.received && s.consumer.count == s.taken)
      && (s.consumer.Receiving? ==> s.backFor == s.received == s.settled)
  }

  /** A mark's loads so far: the push side cannot move, the settled side only grows. */
  ghost predicate MarkOk(s: State, loads: nat, m: FlowMark) {
    && (loads >= 1 ==> m.pushed <= |s.sent|)
    && (loads >= 2 ==> m.pushedChanges == Total(s.sent, m.pushed))
    && (loads >= 3 ==> m.settled <= s.backFor && m.settled <= m.pushed)
    && (loads >= 4 ==> exists n | 0 <= n <= s.backFor && n <= m.pushed :: m.settledChanges == Total(s.sent, n))
    && (loads >= 5 ==> m.confirmedChanges <= m.pushedChanges)
  }

  ghost predicate Inv(s: State) {
    && Counted(s)
    && s.confirmedChanges <= s.settledChanges
    && (s.holder.Marking? ==>
          && MarkOk(s, s.holder.loads, s.holder.mark)
          && (s.holder.loads >= 1 ==> s.holder.mark.pushed == |s.sent|))
    && (forall m | m in s.marks :: MarkOk(s, 5, m))
  }

  lemma MarkStaysOk(s: State, s': State, loads: nat, m: FlowMark)
    requires MarkOk(s, loads, m) && s.backFor <= s'.backFor <= |s'.sent| && s.backFor <= |s.sent| && s.sent <= s'.sent
    ensures MarkOk(s', loads, m)
  {
    var more := s'.sent[|s.sent|..];
    assert s'.sent == s.sent + more;
    if loads >= 2 { TotalOfPrefix(s.sent, more, m.pushed); }
    if loads >= 4 {
      var n :| 0 <= n <= s.backFor && n <= m.pushed && m.settledChanges == Total(s.sent, n);
      TotalOfPrefix(s.sent, more, n);
      assert m.settledChanges == Total(s'.sent, n);
    }
  }

  lemma CountedNext(s: State, a: Action, s': State)
    requires Counted(s) && Next(s, a) == Some(s') && !a.Resubscribe?
    ensures Counted(s')
    ensures s.backFor <= s'.backFor && s.sent <= s'.sent
    ensures s.settledChanges <= s'.settledChanges
  {
    hide Counted, NextConsumer;
    if a.Send? {
      SendCounted(s, s');
    } else if ByHolder(a) {
      HolderCountedNext(s, a, s');
    } else {
      ConsumerCountedNext(s, a, s');
    }
  }

  /** A step taken under the queue lock that sends nothing. */
  predicate ByHolder(a: Action) {
    a.StartPush? || a.AddPushedChanges? || a.AddPushed? || a.StartMark? || a.LoadMark? || a.ConfirmMark? || a.ConfirmBarrier?
  }

  lemma HolderCountedNext(s: State, a: Action, s': State)
    requires Counted(s) && ByHolder(a) && Next(s, a) == Some(s')
    ensures Counted(s')
    ensures s'.backFor == s.backFor && s'.sent == s.sent && s'.settledChanges == s.settledChanges
  {
    hide Total, NextConsumer;
  }

  lemma ConsumerCountedNext(s: State, a: Action, s': State)
    requires Counted(s) && NextConsumer(s, a) == Some(s')
    ensures Counted(s')
    ensures s.backFor <= s'.backFor && s.sent == s'.sent
    ensures s.settledChanges <= s'.settledChanges
  {
    hide Total, Next;
    TotalMonotone(s.sent, s.backFor, s.received);
    if s.received > 0 { TotalStep(s.sent, s.received); }
  }

  lemma TotalStep(sent: seq<nat>, n: nat)
    requires 0 < n <= |sent|
    ensures Total(sent, n) == Total(sent, n - 1) + sent[n - 1]
  {
  }

  lemma SendCounted(s: State, s': State)
    requires Counted(s) && s.holder.PushedMessage? && s' == s.(sent := s.sent + [s.holder.changes], holder := Free)
    ensures Counted(s') && s.sent <= s'.sent
  {
    var more := [s.holder.changes];
    TotalOfPrefix(s.sent, more, |s.sent|);
    TotalOfPrefix(s.sent, more, s.backFor);
    TotalOfPrefix(s.sent, more, s.received);
    if s.received > 0 { TotalOfPrefix(s.sent, more, s.received - 1); }
  }

  /** Reading a mark: the lock keeps the push side still, so what settles meanwhile was pushed before. */
  lemma LoadKeepsMark(s: State, s': State)
    requires Inv(s) && s.holder.Marking? && Next(s, LoadMark) == Some(s')
    ensures s'.holder.Marking? ==>
              && MarkOk(s', s'.holder.loads, s'.holder.mark)
              && s'.holder.mark.pushed == |s'.sent|
    ensures forall m | m in s'.marks && m !in s.marks :: MarkOk(s', 5, m)
  {
    TotalMonotone(s.sent, s.backFor, |s.sent|);
    assert s.settledChanges == Total(s.sent, s.backFor);
  }

  lemma ConfirmedNext(s: State, a: Action, s': State)
    requires Inv(s) && Next(s, a) == Some(s') && !a.Resubscribe? && s.settledChanges <= s'.settledChanges
    ensures s'.confirmedChanges <= s'.settledChanges
  {
    if a.ConfirmMark? {
      assert MarkOk(s, 5, a.mark);
      var n :| 0 <= n <= s.backFor && n <= a.mark.pushed && a.mark.settledChanges == Total(s.sent, n);
      TotalMonotone(s.sent, n, s.backFor);
    } else if a.ConfirmBarrier? {
      assert MarkOk(s, 5, a.target) && MarkOk(s, 5, a.mark);
      TotalMonotone(s.sent, a.target.pushed, s.backFor);
    }
  }

  lemma NextKeepsInv(s: State, a: Action, s': State)
    requires Inv(s) && Next(s, a) == Some(s')
    ensures Inv(s')
  {
    if !a.Resubscribe? { StepKeepsInv(s, a, s'); }
  }

  lemma StepKeepsInv(s: State, a: Action, s': State)
    requires Inv(s) && Next(s, a) == Some(s') && !a.Resubscribe?
    ensures Inv(s')
  {
    CountedNext(s, a, s');
    ConfirmedNext(s, a, s');
    MarksNext(s, a, s');
    hide Next, Counted, MarkOk;
  }

  lemma MarksNext(s: State, a: Action, s': State)
    requires Inv(s) && Next(s, a) == Some(s') && !a.Resubscribe?
    requires Counted(s') && s.backFor <= s'.backFor && s.sent <= s'.sent
    ensures forall m | m in s'.marks :: MarkOk(s', 5, m)
    ensures s'.holder.Marking? ==>
              && MarkOk(s', s'.holder.loads, s'.holder.mark)
              && (s'.holder.loads >= 1 ==> s'.holder.mark.pushed == |s'.sent|)
  {
    forall m | m in s.marks
      ensures MarkOk(s', 5, m)
    {
      MarkStaysOk(s, s', 5, m);
    }
    if a.LoadMark? {
      LoadKeepsMark(s, s');
    } else {
      MarkingGoesOn(s, a, s');
      if s.holder.Marking? { MarkStaysOk(s, s', s.holder.loads, s.holder.mark); }
    }
  }

  /** Only loads move a mark on, and while one is read nothing is sent. */
  lemma MarkingGoesOn(s: State, a: Action, s': State)
    requires Next(s, a) == Some(s') && !a.Resubscribe? && !a.LoadMark?
    ensures s'.marks == s.marks
    ensures s'.holder.Marking? && s.holder.Marking? ==> s'.holder == s.holder && s'.sent == s.sent
    ensures s'.holder.Marking? && !s.holder.Marking? ==> s'.holder == Marking(0, NoMark)
  {
  }

  lemma {:induction false} InvAlways(states: seq<State>, actions: seq<Action>, k: nat)
    requires Behavior(states, actions) && k < |states|
    ensures Inv(states[k])
  {
    if k > 0 {
      InvAlways(states, actions, k - 1);
      assert Next(states[k - 1], actions[k - 1]) == Some(states[(k - 1) + 1]);
      NextKeepsInv(states[k - 1], actions[k - 1], states[k]);
    }
  }

  // ---------------------------------------------------------------------------
  // What every interleaving keeps
  // ---------------------------------------------------------------------------

  predicate Ordered(s: State) {
    && s.confirmedChanges <= s.settledChanges <= s.takenChanges <= s.pushedChanges
    && s.settled <= s.taken <= s.pushed
  }

  /** Confirmed, settled, taken and pushed stay in this order, in changes and in messages, at every step. */
  lemma FlowStaysOrdered(states: seq<State>, actions: seq<Action>, k: nat)
    requires Behavior(states, actions) && k < |states|
    ensures Ordered(states[k])
  {
    InvAlways(states, actions, k);
    var s := states[k];
    TotalMonotone(s.sent, s.backFor, if s.consumer.Received? then s.received - 1 else s.received);
    TotalMonotone(s.sent, if s.consumer.Received? then s.received - 1 else s.received, |s.sent|);
  }

  /** A consumer that waits for a message has settled all it took; at any time at most one message is unsettled. */
  lemma WaitingMeansSettled(states: seq<State>, actions: seq<Action>, k: nat)
    requires Behavior(states, actions) && k < |states|
    ensures states[k].taken <= states[k].settled + 1
    ensures states[k].consumer.Receiving? ==>
              states[k].settled == states[k].taken && states[k].settledChanges == states[k].takenChanges
  {
    InvAlways(states, actions, k);
  }

  /** With every message received, its consumer waiting and no push under way, every count is that of the messages. */
  lemma QuietChannelIsSettled(states: seq<State>, actions: seq<Action>, k: nat)
    requires Behavior(states, actions) && k < |states|
    requires states[k].consumer.Receiving? && states[k].received == |states[k].sent|
    requires states[k].holder.Free? || states[k].holder.Marking?
    ensures var s := states[k];
            && s.pushed == s.taken == s.settled == |s.sent|
            && s.pushedChanges == s.takenChanges == s.settledChanges == Total(s.sent, |s.sent|)
  {
    InvAlways(states, actions, k);
  }

  /** Confirming with a mark confirms what it saw settled; confirming a barrier, what its target had pushed. */
  lemma ConfirmingRaises(s: State, a: Action, s': State)
    requires Next(s, a) == Some(s') && (a.ConfirmMark? || a.ConfirmBarrier?)
    ensures s' == s.(confirmedChanges := s'.confirmedChanges)
    ensures var changes := if a.ConfirmMark? then a.mark.settledChanges else a.target.pushedChanges;
            && s'.confirmedChanges >= changes && s'.confirmedChanges >= s.confirmedChanges
            && (s'.confirmedChanges == changes || s'.confirmedChanges == s.confirmedChanges)
  {
  }

  /** Within one subscription no counter ever moves backwards. */
  lemma {:induction false} FlowNeverGoesBack(states: seq<State>, actions: seq<Action>, j: nat, k: nat)
    requires Behavior(states, actions) && j <= k < |states|
    ensures states[j].epoch <= states[k].epoch
    ensures var s, s' := states[j], states[k];
            s.epoch == s'.epoch ==>
            && s.pushed <= s'.pushed && s.pushedChanges <= s'.pushedChanges
            && s.taken <= s'.taken && s.takenChanges <= s'.takenChanges
            && s.settled <= s'.settled && s.settledChanges <= s'.settledChanges
            && s.confirmedChanges <= s'.confirmedChanges
    decreases k - j
  {
    if j < k {
      FlowNeverGoesBack(states, actions, j, k - 1);
      assert Next(states[k - 1], actions[k - 1]) == Some(states[(k - 1) + 1]);
    }
  }

  /**
   A mark is consistent although the consumer runs while it is read: what it calls settled was pushed, and its
   push side is the exact total of the messages sent before it.
   */
  lemma MarksAreConsistent(states: seq<State>, actions: seq<Action>, k: nat, m: FlowMark)
    requires Behavior(states, actions) && k < |states| && m in states[k].marks
    ensures m.settled <= m.pushed && QueuedChanges(m) + m.settledChanges == m.pushedChanges
    ensures m.pushed <= |states[k].sent| && m.pushedChanges == Total(states[k].sent, m.pushed)
  {
    InvAlways(states, actions, k);
    var s := states[k];
    assert MarkOk(s, 5, m);
    var n :| 0 <= n <= s.backFor && n <= m.pushed && m.settledChanges == Total(s.sent, n);
    TotalMonotone(s.sent, n, m.pushed);
  }

  /**
   A mark with nothing queued means every change pushed before it was taken and its consumer came back: any
   message among those pushed that carries a change is one the consumer has returned from.
   */
  lemma NothingQueuedMeansDelivered(states: seq<State>, actions: seq<Action>, k: nat, m: FlowMark, i: nat)
    requires Behavior(states, actions) && k < |states| && m in states[k].marks
    requires QueuedChanges(m) == 0 && i < m.pushed && i < |states[k].sent| && states[k].sent[i] > 0
    ensures i < states[k].backFor <= states[k].received
  {
    InvAlways(states, actions, k);
    var s := states[k];
    assert MarkOk(s, 5, m);
    var n :| 0 <= n <= s.backFor && n <= m.pushed && m.settledChanges == Total(s.sent, n);
    if n <= i { EqualTotalsCarryNothing(s.sent, n, m.pushed, i); }
  }

  /**
   The barrier: once a later mark has settled as many messages as the target had pushed, every message of the
   target is one the consumer has returned from, so confirming the target's changes confirms nothing undelivered.
   */
  lemma BarrierCoversTarget(states: seq<State>, actions: seq<Action>, k: nat, target: FlowMark, m: FlowMark)
    requires Behavior(states, actions) && k < |states| && target in states[k].marks && m in states[k].marks
    requires m.settled >= target.pushed
    ensures target.pushed <= states[k].backFor
    ensures target.pushedChanges <= states[k].settledChanges
  {
    InvAlways(states, actions, k);
    var s := states[k];
    assert MarkOk(s, 5, target) && MarkOk(s, 5, m);
    TotalMonotone(s.sent, target.pushed, s.backFor);
  }

  // ---------------------------------------------------------------------------
  // Where the guarantee ends
  // ---------------------------------------------------------------------------

  /**
   Confirming with a mark kept from an earlier subscription of the same id keeps the order exactly when the new
   channel has already settled as many changes as the mark had.
   */
  lemma StaleConfirmIsSoundIff(states: seq<State>, actions: seq<Action>, k: nat, m: FlowMark)
    requires Behavior(states, actions) && k < |states| && m in states[k].stale
    ensures Ordered(Confirm(states[k], m.settledChanges)) <==> m.settledChanges <= states[k].settledChanges
  {
    FlowStaysOrdered(states, actions, k);
  }

  /** Confirming with a mark of the channel itself always keeps it. */
  lemma OwnConfirmIsSound(states: seq<State>, actions: seq<Action>, k: nat, m: FlowMark)
    requires Behavior(states, actions) && k < |states| && m in states[k].marks
    ensures Ordered(Confirm(states[k], m.settledChanges))
  {
    FlowStaysOrdered(states, actions, k);
    InvAlways(states, actions, k);
    var s := states[k];
    assert MarkOk(s, 5, m);
    var n :| 0 <= n <= s.backFor && n <= m.pushed && m.settledChanges == Total(s.sent, n);
    TotalMonotone(s.sent, n, s.backFor);
  }

  /** Re-subscribing turns every mark of the channel stale, and harmless exactly if it had settled nothing. */
  lemma MarksDoNotOutliveTheirChannel(states: seq<State>, actions: seq<Action>, m: FlowMark)
    requires Behavior(states, actions) && m in states[|actions|].marks
    requires states[|actions|].holder.Free? && states[|actions|].consumer.Away?
    ensures var s := Next(states[|actions|], Resubscribe);
            && s.Some? && Behavior(states + [s.value], actions + [Resubscribe]) && m in s.value.stale
            && (Ordered(Confirm(s.value, m.settledChanges)) <==> m.settledChanges == 0)
  {
    var s, n := Next(states[|actions|], Resubscribe).value, |actions|;
    var states', actions' := states + [s], actions + [Resubscribe];
    forall k | 0 <= k < |actions'|
      ensures Next(states'[k], actions'[k]) == Some(states'[k + 1])
    {
      if k < n { assert Next(states[k], actions[k]) == Some(states[k + 1]); }
    }
    StaleConfirmIsSoundIff(states', actions', n + 1, m);
  }

  // ---------------------------------------------------------------------------
  // A run with such a mark
  // ---------------------------------------------------------------------------

  /** The channel with one change sent, `taken` of it taken and `settled` of it settled, and the consumer there. */
  function OneSent(taken: nat, settled: nat, consumer: Consumer): State {
    State(1, 1, taken, taken, settled, settled, 0, Free, consumer, [1], taken, settled, {}, 0, {})
  }

  const DeliveredMark := FlowMark(1, 1, 1, 1, 0)

  /** One change was pushed and taken, its consumer came back and waited in vain, and a mark was read. */
  const Delivered := OneSent(1, 1, Away).(marks := {DeliveredMark})

  lemma OneIsPushed()
    ensures Leads(Next, Init, OneSent(0, 0, Away))
  {
    assert After(Next, Init, []) == Some(Init);
    LeadsOn(Next, Init, Init, StartPush(1), Init.(holder := Pushing(1)));
    var s := Init.(holder := PushedChanges(1), pushedChanges := 1);
    LeadsOn(Next, Init, Init.(holder := Pushing(1)), AddPushedChanges, s);
    var t := s.(holder := PushedMessage(1), pushed := 1);
    LeadsOn(Next, Init, s, AddPushed, t);
    assert [] + [1] == [1];
    LeadsOn(Next, Init, t, Send, OneSent(0, 0, Away));
  }

  lemma ConsumerComesBack(taken: nat, settled: nat)
    requires Leads(Next, Init, OneSent(taken, settled, Away)) && settled <= taken
    ensures Leads(Next, Init, OneSent(taken, taken, Receiving))
  {
    var s := OneSent(taken, settled, Away);
    LeadsOn(Next, Init, s, ComeBack, s.(consumer := Back));
    LeadsOn(Next, Init, s.(consumer := Back), LoadTakenChanges, s.(consumer := LoadedChanges(taken)));
    var t := s.(settledChanges := taken, backFor := taken, consumer := SettledChanges);
    LeadsOn(Next, Init, s.(consumer := LoadedChanges(taken)), MaxSettledChanges, t);
    LeadsOn(Next, Init, t, LoadTaken, t.(consumer := LoadedMessages(taken)));
    LeadsOn(Next, Init, t.(consumer := LoadedMessages(taken)), MaxSettled, OneSent(taken, taken, Receiving));
  }

  lemma OneIsTaken()
    requires Leads(Next, Init, OneSent(0, 0, Receiving))
    ensures Leads(Next, Init, OneSent(1, 0, Away))
  {
    var s := OneSent(0, 0, Receiving);
    var t := s.(received := 1, consumer := Received(1));
    LeadsOn(Next, Init, s, Receive, t);
    var u := t.(takenChanges := 1, consumer := TookChanges);
    LeadsOn(Next, Init, t, AddTakenChanges, u);
    LeadsOn(Next, Init, u, AddTaken, OneSent(1, 0, Away));
  }

  lemma MarkIsRead()
    requires Leads(Next, Init, OneSent(1, 1, Away))
    ensures Leads(Next, Init, Delivered)
  {
    var s := OneSent(1, 1, Away);
    var s0, s1 := s.(holder := Marking(0, NoMark)), s.(holder := Marking(1, FlowMark(1, 0, 0, 0, 0)));
    var s2, s3 := s.(holder := Marking(2, FlowMark(1, 1, 0, 0, 0))), s.(holder := Marking(3, FlowMark(1, 1, 1, 0, 0)));
    var s4 := s.(holder := Marking(4, FlowMark(1, 1, 1, 1, 0)));
    LeadsOn(Next, Init, s, StartMark, s0);
    LeadsOn(Next, Init, s0, LoadMark, s1);
    LeadsOn(Next, Init, s1, LoadMark, s2);
    LeadsOn(Next, Init, s2, LoadMark, s3);
    LeadsOn(Next, Init, s3, LoadMark, s4);
    assert {} + {DeliveredMark} == {DeliveredMark};
    LeadsOn(Next, Init, s4, LoadMark, Delivered);
  }

  lemma DeliveredIsReached()
    ensures Leads(Next, Init, Delivered)
  {
    OneIsPushed();
    ConsumerComesBack(0, 0);
    OneIsTaken();
    ConsumerComesBack(1, 0);
    LeadsOn(Next, Init, OneSent(1, 1, Receiving), TimeOut, OneSent(1, 1, Away));
    MarkIsRead();
  }

  /** A run that ends in a state. */
  ghost predicate Reaches(states: seq<State>, actions: seq<Action>, s: State) {
    Behavior(states, actions) && states[|actions|] == s
  }

  /** After one delivery, a re-subscription and a confirmation with the old mark, more is confirmed than settled. */
  lemma StaleMarkBreaksTheOrder()
    ensures exists states, actions :: Reaches(states, actions, Delivered)
    ensures var s := Next(Delivered, Resubscribe);
            s.Some? && DeliveredMark in s.value.stale && !Ordered(Confirm(s.value, DeliveredMark.settledChanges))
  {
    DeliveredIsReached();
    var actions: seq<Action> :| After(Next, Init, actions) == Some(Delivered);
    TraceSteps(Next, Init, actions);
    var states := Trace(Next, Init, actions);
    assert Reaches(states, actions, Delivered);
    MarksDoNotOutliveTheirChannel(states, actions, DeliveredMark);
  }
}
