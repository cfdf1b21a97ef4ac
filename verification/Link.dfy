/**
 The desktop app's reconnecting WebSocket link. `Link` is everything the link owns together with the runtime it
 leans on: the timers still pending and the sockets still open. The class updates the same state in place.
 */
module Link {
  import opened Basics

  datatype Target = Target(projectId: string, base: string)

  datatype LinkState = Idle | Connecting | Live | Reconnecting | Stopped

  datatype TimerKind = RetryTimer | IdleTimer

  datatype Timer = Timer(kind: TimerKind, delay: int)

  datatype Link = Link(
    target: Option<Target>, socket: Option<nat>, attempt: nat, retryTimer: Option<nat>, idleTimer: Option<nat>,
    state: LinkState, destroyed: bool, serverHello: Option<string>,
    timers: map<nat, Timer>, sockets: set<nat>, nextHandle: nat)

  /** A server frame after parsing: `name` is what the hello carries. */
  datatype Frame = Unreadable | NotAnObject | Ping | Hello(name: string) | Shutdown(retryable: bool) | Other

  /** A random number, from zero up to but not including one. */
  type Jitter = r: real | 0.0 <= r < 1.0 witness 0.0

  /** What the world decides while an event is handled: whether opening a socket throws, and the jitter. */
  datatype World = World(opens: bool, jitter: Jitter)

  datatype Event =
    | SetTarget(next: Option<Target>, w: World)
    | RetryNow(w: World)
    | Destroy
    | TimerFires(timer: nat, w: World)
    | SocketOpens(socket: nat)
    | SocketSends(socket: nat, frame: Frame, w: World)
    | SocketFails(socket: nat)
    | SocketCloses(socket: nat, w: World)

  const IdleTimeoutMs := 30000

  // ---------------------------------------------------------------------------
  // Backoff
  // ---------------------------------------------------------------------------

  function Power(n: nat): (p: nat)
    ensures p >= 1
  {
    if n == 0 then 1 else 2 * Power(n - 1)
  }

  function BackoffBase(attempt: nat): (base: int)
    ensures 1000 <= base <= 30000 && base % 1000 == 0
  {
    var grown := 1000 * Power(if attempt == 0 then 0 else attempt - 1);
    if grown < 30000 then grown else 30000
  }

  /** The wait starts at a second and doubles with each attempt until it reaches half a minute. */
  lemma BackoffDoubles(attempt: nat)
    ensures BackoffBase(0) == 1000 && BackoffBase(1) == 1000
    ensures attempt >= 1 && BackoffBase(attempt) <= 15000 ==> BackoffBase(attempt + 1) == 2 * BackoffBase(attempt)
    ensures attempt >= 1 && BackoffBase(attempt) > 15000 ==> BackoffBase(attempt + 1) == 30000
  {
    if attempt >= 1 { assert Power(attempt) == 2 * Power(attempt - 1); }
  }

  /** The nearest integer, the larger one of two. */
  function Round(x: real): int {
    (x + 0.5).Floor
  }

  function BackoffMs(attempt: nat, jitter: Jitter): (wait: int)
    ensures 800 <= wait <= 36000 && Jittered(BackoffBase(attempt), wait)
  {
    var factor := 0.8 + jitter * 0.4;
    JitterIsBounded(BackoffBase(attempt), factor);
    Round(BackoffBase(attempt) as real * factor)
  }

  /** Within a fifth of the base, on either side. */
  predicate Jittered(base: int, wait: int) {
    4 * base <= 5 * wait <= 6 * base
  }

  lemma JitterIsBounded(base: int, factor: real)
    requires base >= 0 && base % 1000 == 0 && 0.8 <= factor <= 1.2
    ensures Jittered(base, Round(base as real * factor))
  {
    var x := base as real * factor;
    ScaledWithin(base, factor, x);
    hide Round;
    RoundsBetween(x, 4 * (base / 5), 6 * (base / 5));
  }

  lemma ScaledWithin(base: int, factor: real, x: real)
    requires base >= 0 && base % 5 == 0 && 0.8 <= factor <= 1.2 && x == base as real * factor
    ensures (4 * (base / 5)) as real <= x <= (6 * (base / 5)) as real
  {
    var low, high := factor - 0.8, 1.2 - factor;
    assert base as real * low >= 0.0 && base as real * high >= 0.0;
    assert x == base as real * 0.8 + base as real * low;
    assert x == base as real * 1.2 - base as real * high;
    assert base == 5 * (base / 5);
  }

  lemma RoundsBetween(x: real, low: int, high: int)
    requires low as real <= x <= high as real
    ensures low <= Round(x) <= high
  {
  }

  // ---------------------------------------------------------------------------
  // The handlers
  // ---------------------------------------------------------------------------

  function Init(): Link {
    Link(None, None, 0, None, None, Idle, false, None, map[], {}, 0)
  }

  function Cleared(l: Link, timer: Option<nat>): Link {
    if timer.Some? then l.(timers := l.timers - {timer.value}) else l
  }

  function ClearTimers(l: Link): Link {
    Cleared(Cleared(l, l.retryTimer), l.idleTimer).(retryTimer := None, idleTimer := None)
  }

  function DropSocket(l: Link): Link {
    if l.socket.None? then l else l.(sockets := l.sockets - {l.socket.value}, socket := None)
  }

  function TouchIdleTimer(l: Link): Link {
    var l' := Cleared(l, l.idleTimer);
    l'.(idleTimer := Some(l.nextHandle), timers := l'.timers[l.nextHandle := Timer(IdleTimer, IdleTimeoutMs)],
        nextHandle := l.nextHandle + 1)
  }

  function ScheduleReconnect(l: Link, w: World): Link {
    if l.destroyed || l.target.None? then l
    else
      var wait := BackoffMs(l.attempt + 1, w.jitter);
      l.(attempt := l.attempt + 1, state := Reconnecting, retryTimer := Some(l.nextHandle),
         timers := l.timers[l.nextHandle := Timer(RetryTimer, wait)], nextHandle := l.nextHandle + 1)
  }

  function Connect(l: Link, w: World): Link {
    if l.destroyed || l.target.None? then l
    else
      var l' := DropSocket(ClearTimers(l)).(state := if l.attempt == 0 then Connecting else Reconnecting);
      if w.opens then
        l'.(socket := Some(l.nextHandle), sockets := l'.sockets + {l.nextHandle}, nextHandle := l.nextHandle + 1)
      else ScheduleReconnect(l', w)
  }

  function OnTimer(l: Link, timer: nat, w: World): Link {
    if timer !in l.timers then l
    else
      var l' := l.(timers := l.timers - {timer});
      match l.timers[timer].kind
      case RetryTimer => Connect(l'.(retryTimer := None), w)
      case IdleTimer => if l.socket.None? then l' else ScheduleReconnect(DropSocket(l'), w)
  }

  function OnOpen(l: Link, socket: nat): Link {
    if socket !in l.sockets || l.socket != Some(socket) then l
    else TouchIdleTimer(l.(state := Connecting))
  }

  function OnMessage(l: Link, socket: nat, frame: Frame, w: World): Link {
    if socket !in l.sockets || l.socket != Some(socket) then l
    else
      var l' := TouchIdleTimer(l);
      match frame
      case Hello(name) => l'.(serverHello := Some(name), attempt := 0, state := Live)
      case Shutdown(retryable) =>
        var down := ClearTimers(DropSocket(l'));
        if retryable then ScheduleReconnect(down, w) else down.(attempt := 0, state := Stopped)
      case _ => l'
  }

  function OnClose(l: Link, socket: nat, w: World): Link {
    if socket !in l.sockets then l
    else
      var l' := l.(sockets := l.sockets - {socket});
      if l.socket != Some(socket) then l'
      else ScheduleReconnect(l'.(socket := None, serverHello := None), w)
  }

  function Retargeted(l: Link, next: Option<Target>, w: World): Link {
    if l.destroyed || next == l.target then l
    else
      if next.None? then Quieted(l, next).(state := Idle) else Connect(Quieted(l, next), w)
  }

  /** Everything dropped, and the target changed. */
  function Quieted(l: Link, next: Option<Target>): Link {
    DropSocket(ClearTimers(l)).(serverHello := None, attempt := 0, target := next)
  }

  function RetriedNow(l: Link, w: World): Link {
    if l.destroyed || l.target.None? then l else Connect(ClearTimers(l).(attempt := 0), w)
  }

  function Destroyed(l: Link): Link {
    DropSocket(ClearTimers(l.(destroyed := true))).(target := None, state := Idle)
  }

  function Step(l: Link, e: Event): Link {
    match e
    case SetTarget(next, w) => Retargeted(l, next, w)
    case RetryNow(w) => RetriedNow(l, w)
    case Destroy => Destroyed(l)
    case TimerFires(timer, w) => OnTimer(l, timer, w)
    case SocketOpens(socket) => OnOpen(l, socket)
    case SocketSends(socket, frame, w) => OnMessage(l, socket, frame, w)
    case SocketFails(_) => l
    case SocketCloses(socket, w) => OnClose(l, socket, w)
  }

  function Run(l: Link, events: seq<Event>): Link {
    if events == [] then l else Step(Run(l, events[..|events| - 1]), events[|events| - 1])
  }

  // ---------------------------------------------------------------------------
  // What every event keeps
  // ---------------------------------------------------------------------------

  /** The link wants a connection: it has a target and was told neither to stop nor to go away. */
  predicate Wanted(l: Link) {
    l.target.Some? && !l.destroyed && l.state != Stopped
  }

  ghost predicate RuntimeMatches(l: Link) {
    && l.sockets == (if l.socket.Some? then {l.socket.value} else {})
    && (l.retryTimer.Some? ==> l.retryTimer.value in l.timers && l.timers[l.retryTimer.value].kind == RetryTimer)
    && (forall t | t in l.timers ::
          (if l.timers[t].kind == RetryTimer then l.retryTimer else l.idleTimer) == Some(t))
    && (l.idleTimer.Some? && l.idleTimer.value in l.timers ==> l.timers[l.idleTimer.value].kind == IdleTimer)
    && (l.idleTimer.Some? ==> l.idleTimer.value < l.nextHandle)
    && (forall t | t in l.timers :: t < l.nextHandle)
    && (forall t | t in l.timers && l.timers[t].kind == RetryTimer :: 800 <= l.timers[t].delay <= 36000)
    && (forall t | t in l.timers && l.timers[t].kind == IdleTimer :: l.timers[t].delay == 30000)
  }

  /** The wait of a pending retry grew with the attempts so far. */
  ghost predicate WaitMatches(l: Link) {
    l.retryTimer.Some? && l.retryTimer.value in l.timers ==>
      l.attempt >= 1 && Jittered(BackoffBase(l.attempt), l.timers[l.retryTimer.value].delay)
  }

  ghost predicate StateMatches(l: Link) {
    && (l.socket.Some? || l.retryTimer.Some? ==> Wanted(l))
    && (Wanted(l) ==> (l.socket.Some? <==> l.retryTimer.None?))
    && (l.state == Live ==> l.socket.Some? && l.attempt == 0 && l.serverHello.Some?)
    && (l.state == Idle <==> l.target.None?)
    && (l.state == Stopped ==> l.timers == map[])
    && (l.destroyed ==> l.target.None?)
    && (l.target.None? ==> l.timers == map[])
    && WaitMatches(l)
  }

  ghost predicate Inv(l: Link) {
    RuntimeMatches(l) && StateMatches(l)
  }

  /** Clearing both handles leaves no timer pending. */
  lemma ClearedRuntime(l: Link)
    requires RuntimeMatches(l)
    ensures ClearTimers(l).timers == map[] && RuntimeMatches(ClearTimers(l))
    ensures RuntimeMatches(DropSocket(l)) && DropSocket(l).sockets == {}
  {
    forall t
      ensures t !in ClearTimers(l).timers
    {
    }
  }

  ghost predicate Quiet(l: Link) {
    l.timers == map[] && l.sockets == {} && l.socket.None? && l.retryTimer.None? && l.idleTimer.None?
  }

  lemma QuietConnectKeeps(l: Link, w: World)
    requires Quiet(l) && l.target.Some? && !l.destroyed
    ensures Inv(Connect(l, w)) && Connect(l, w).target == l.target
  {
    assert DropSocket(ClearTimers(l)) == l;
    var l' := l.(state := if l.attempt == 0 then Connecting else Reconnecting);
  }

  lemma ConnectKeeps(l: Link, w: World)
    requires RuntimeMatches(l) && l.target.Some? && !l.destroyed
    ensures Inv(Connect(l, w)) && Connect(l, w).target == l.target
  {
    ClearedRuntime(l);
    ClearedRuntime(ClearTimers(l));
    var quiet := DropSocket(ClearTimers(l));
    assert DropSocket(ClearTimers(quiet)) == quiet;
    QuietConnectKeeps(quiet, w);
  }

  lemma TouchKeeps(l: Link)
    requires Inv(l) && Wanted(l)
    ensures Inv(TouchIdleTimer(l))
  {
  }

  lemma TimerKeeps(l: Link, timer: nat, w: World)
    requires Inv(l)
    ensures Inv(OnTimer(l, timer, w))
  {
    if timer in l.timers {
      var l' := l.(timers := l.timers - {timer});
      if l.timers[timer].kind == RetryTimer {
        ConnectKeeps(l'.(retryTimer := None), w);
      } else if l.socket.Some? {
      }
    }
  }

  lemma MessageKeeps(l: Link, socket: nat, frame: Frame, w: World)
    requires Inv(l)
    ensures Inv(OnMessage(l, socket, frame, w))
  {
    if l.socket == Some(socket) {
      TouchKeeps(l);
      var l' := TouchIdleTimer(l);
      ClearedRuntime(l');
      var down := ClearTimers(DropSocket(l'));
      ClearedRuntime(DropSocket(l'));
    }
  }

  lemma CloseKeeps(l: Link, socket: nat, w: World)
    requires Inv(l)
    ensures Inv(OnClose(l, socket, w))
  {
    if l.socket == Some(socket) {
    }
  }

  lemma CommandKeeps(l: Link, e: Event)
    requires Inv(l) && (e.SetTarget? || e.RetryNow? || e.Destroy?)
    ensures Inv(Step(l, e))
  {
    hide Inv, Connect;
    match e
    case SetTarget(next, w) => RetargetKeeps(l, next, w);
    case RetryNow(w) => RetryKeeps(l, w);
    case Destroy => DestroyKeeps(l);
    case _ =>
  }

  lemma RetargetKeeps(l: Link, next: Option<Target>, w: World)
    requires Inv(l)
    ensures Inv(Retargeted(l, next, w))
  {
    ClearedRuntime(l);
    ClearedRuntime(ClearTimers(l));
    hide Connect;
    if !l.destroyed && next != l.target && next.Some? { ConnectKeeps(Quieted(l, next), w); }
  }

  lemma RetryKeeps(l: Link, w: World)
    requires Inv(l)
    ensures Inv(RetriedNow(l, w))
  {
    ClearedRuntime(l);
    hide Connect;
    if !l.destroyed && l.target.Some? { ConnectKeeps(ClearTimers(l).(attempt := 0), w); }
  }

  lemma DestroyKeeps(l: Link)
    requires Inv(l)
    ensures Inv(Destroyed(l))
  {
    ClearedRuntime(l.(destroyed := true));
    ClearedRuntime(ClearTimers(l.(destroyed := true)));
  }

  /** Every event keeps the invariant. */
  lemma StepKeeps(l: Link, e: Event)
    requires Inv(l)
    ensures Inv(Step(l, e))
  {
    match e
    case TimerFires(timer, w) => TimerKeeps(l, timer, w);
    case SocketOpens(socket) => if l.socket == Some(socket) { TouchKeeps(l.(state := Connecting)); }
    case SocketSends(socket, frame, w) => MessageKeeps(l, socket, frame, w);
    case SocketFails(_) =>
    case SocketCloses(socket, w) => CloseKeeps(l, socket, w);
    case _ => CommandKeeps(l, e);
  }

  lemma {:induction false} RunKeeps(events: seq<Event>)
    ensures Inv(Run(Init(), events))
  {
    if events != [] {
      RunKeeps(events[..|events| - 1]);
      StepKeeps(Run(Init(), events[..|events| - 1]), events[|events| - 1]);
    }
  }

  /** Every socket and timer there is was handed out from `handle` on. */
  ghost predicate OnlyNewHandles(l: Link, handle: nat) {
    (forall q | q in l.sockets :: q >= handle) && forall t | t in l.timers :: t >= handle
  }

  /** Connecting: whatever was open or pending is gone, and there is a new socket or, if that throws, a new retry. */
  ghost predicate Reopened(l: Link, l': Link, w: World) {
    if l.destroyed || l.target.None? then l' == l
    else
      && Inv(l') && l'.target == l.target && l'.serverHello == l.serverHello
      && (l'.socket.Some? <==> w.opens) && l'.attempt == l.attempt + (if w.opens then 0 else 1)
      && OnlyNewHandles(l', l.nextHandle)
  }

  lemma ConnectReopens(l: Link, w: World)
    requires RuntimeMatches(l)
    ensures Reopened(l, Connect(l, w), w)
  {
    hide Inv, RuntimeMatches, StateMatches, BackoffMs;
    if !l.destroyed && l.target.Some? {
      ConnectKeeps(l, w);
      ClearedRuntime(l);
      ClearedRuntime(ClearTimers(l));
    }
  }

  /** The same target changes nothing; another one drops all that was open or pending and starts anew. */
  ghost predicate SwitchedTo(l: Link, l': Link, next: Option<Target>, w: World) {
    if l.destroyed || next == l.target then l' == l
    else
      && Inv(l') && l'.target == next && l'.serverHello == None && OnlyNewHandles(l', l.nextHandle)
      && (next.None? ==> l'.state == Idle)
      && (next.Some? ==> (l'.socket.Some? <==> w.opens) && l'.attempt == if w.opens then 0 else 1)
  }

  lemma QuietedIsQuiet(l: Link, next: Option<Target>)
    requires RuntimeMatches(l)
    ensures Quiet(Quieted(l, next)) && RuntimeMatches(Quieted(l, next)) && Quieted(l, next).nextHandle == l.nextHandle
  {
    ClearedRuntime(l);
    ClearedRuntime(ClearTimers(l));
  }

  lemma RetargetingSwitches(l: Link, next: Option<Target>, w: World)
    requires Inv(l)
    ensures SwitchedTo(l, Retargeted(l, next, w), next, w)
  {
    StepKeeps(l, SetTarget(next, w));
    QuietedIsQuiet(l, next);
    ConnectReopens(Quieted(l, next), w);
    hide Connect;
  }

  /** Retrying by hand: as if the target were new, even from a stop. */
  ghost predicate StartedAfresh(l: Link, l': Link, w: World) {
    if l.destroyed || l.target.None? then l' == l
    else
      && Inv(l') && Wanted(l') && l'.target == l.target && l'.serverHello == l.serverHello
      && (l'.socket.Some? <==> w.opens) && l'.attempt == (if w.opens then 0 else 1)
      && OnlyNewHandles(l', l.nextHandle)
  }

  /** Asked to retry, a link with a target opens a socket or, if that throws, schedules a first retry. */
  lemma RetryingStartsAfresh(l: Link, w: World)
    requires Inv(l)
    ensures StartedAfresh(l, RetriedNow(l, w), w)
  {
    StepKeeps(l, RetryNow(w));
    ClearedRuntime(l);
    ConnectReopens(ClearTimers(l).(attempt := 0), w);
    hide Connect;
  }

  /** The socket is gone and a retry is pending, one attempt further. */
  ghost predicate LostSocket(l: Link, l': Link) {
    && l'.target == l.target && l'.sockets == {} && l'.socket.None?
    && l'.state == Reconnecting && l'.attempt == l.attempt + 1
    && l'.retryTimer == Some(l.nextHandle) && l.nextHandle in l'.timers
    && l'.timers[l.nextHandle].kind == RetryTimer
    && Jittered(BackoffBase(l.attempt + 1), l'.timers[l.nextHandle].delay)
  }

  /** A socket that stays silent too long is given up for a retry. */
  lemma SilenceReconnects(l: Link, w: World)
    requires Inv(l) && l.socket.Some? && l.idleTimer.Some? && l.idleTimer.value in l.timers
    ensures LostSocket(l, Step(l, TimerFires(l.idleTimer.value, w)))
  {
  }

  /** A socket that closes is replaced by a retry, and what its server said is forgotten. */
  lemma ClosingReconnects(l: Link, w: World)
    requires Inv(l) && l.socket.Some?
    ensures LostSocket(l, Step(l, SocketCloses(l.socket.value, w)))
    ensures Step(l, SocketCloses(l.socket.value, w)).serverHello == None
  {
  }

  /** A socket that opens starts the idle clock; the link is not live before a hello. */
  lemma OpeningStartsTheClock(l: Link)
    requires Inv(l) && l.socket.Some?
    ensures var l' := Step(l, SocketOpens(l.socket.value));
            IdleRestarted(l, l') && l'.state == Connecting && l'.attempt == l.attempt && l'.target == l.target
  {
    TouchingRestarts(l.(state := Connecting));
  }

  /** Sockets and timers of the past change nothing. */
  lemma StaleEventsAreIgnored(l: Link, e: Event)
    requires Inv(l)
    requires e.SocketOpens? || e.SocketSends? || e.SocketCloses? ==> l.socket != Some(e.socket)
    requires e.TimerFires? ==> e.timer !in l.timers
    requires !e.SetTarget? && !e.RetryNow? && !e.Destroy?
    ensures Step(l, e) == l
  {
  }

  /**
   A frame from the current socket. A hello makes the link live; a shutdown closes the socket and leaves one retry
   or, if it must not be retried, nothing at all; any other frame only restarts the idle timer.
   */
  ghost predicate Heard(l: Link, l': Link, socket: nat, frame: Frame) {
    if l.socket != Some(socket) then l' == l
    else
      && Inv(l') && l'.target == l.target
      && match frame
         case Shutdown(true) =>
           && l'.state == Reconnecting && l'.attempt == l.attempt + 1 && l'.sockets == {}
           && l'.retryTimer.Some? && l'.timers.Keys == {l'.retryTimer.value}
         case Shutdown(false) => l'.state == Stopped && l'.attempt == 0 && l'.sockets == {} && l'.timers == map[]
         case Hello(name) =>
           IdleRestarted(l, l') && l'.state == Live && l'.attempt == 0 && l'.serverHello == Some(name)
         case _ =>
           && IdleRestarted(l, l') && l'.state == l.state && l'.attempt == l.attempt
           && l'.serverHello == l.serverHello
  }

  ghost predicate IdleRestarted(l: Link, l': Link) {
    && l'.sockets == l.sockets && l'.socket == l.socket
    && l'.idleTimer == Some(l.nextHandle) && l.nextHandle in l'.timers
    && l'.timers[l.nextHandle] == Timer(IdleTimer, 30000)
    && forall t | t in l'.timers && l'.timers[t].kind == IdleTimer :: t == l.nextHandle
  }

  lemma MessageIsHeard(l: Link, socket: nat, frame: Frame, w: World)
    requires Inv(l)
    ensures Heard(l, OnMessage(l, socket, frame, w), socket, frame)
  {
    MessageKeeps(l, socket, frame, w);
    if l.socket == Some(socket) {
      hide Inv, TouchIdleTimer, IdleRestarted;
      if frame.Shutdown? {
        ShutdownIsHeard(l, socket, frame, w);
      } else {
        TouchingRestarts(l);
      }
    }
  }

  lemma TouchingRestarts(l: Link)
    requires Inv(l) && Wanted(l)
    ensures var l' := TouchIdleTimer(l);
            && IdleRestarted(l, l') && l'.target == l.target
            && l'.state == l.state && l'.attempt == l.attempt && l'.serverHello == l.serverHello
  {
  }

  lemma ShutdownIsHeard(l: Link, socket: nat, frame: Frame, w: World)
    requires Inv(l) && l.socket == Some(socket) && frame.Shutdown?
    ensures var l' := OnMessage(l, socket, frame, w);
            && l'.target == l.target && l'.sockets == {}
            && (frame.retryable ==>
                  && l'.state == Reconnecting && l'.attempt == l.attempt + 1
                  && l'.retryTimer.Some? && l'.timers.Keys == {l'.retryTimer.value})
            && (!frame.retryable ==> l'.state == Stopped && l'.attempt == 0 && l'.timers == map[])
  {
    TouchKeeps(l);
    var l' := TouchIdleTimer(l);
    ClearedRuntime(l');
    ClearedRuntime(DropSocket(l'));
  }

  // ---------------------------------------------------------------------------
  // What every run shows
  // ---------------------------------------------------------------------------

  function PendingRetries(l: Link): set<nat> {
    set t | t in l.timers && l.timers[t].kind == RetryTimer
  }

  /** A wanted link has exactly one open socket or one pending retry, never both; any other has neither. */
  lemma OneLifeline(events: seq<Event>)
    ensures var l := Run(Init(), events);
            |l.sockets| + |PendingRetries(l)| == if Wanted(l) then 1 else 0
  {
    RunKeeps(events);
    var l := Run(Init(), events);
    if l.retryTimer.Some? {
      assert PendingRetries(l) == {l.retryTimer.value};
    } else {
      assert PendingRetries(l) == {};
    }
  }

  lemma LiveMeansConnected(events: seq<Event>)
    ensures var l := Run(Init(), events);
            l.state == Live ==>
              && l.target.Some? && l.socket.Some? && l.sockets == {l.socket.value}
              && l.attempt == 0 && l.serverHello.Some?
  {
    RunKeeps(events);
  }

  /** A pending retry waits the base of its attempt, give or take a fifth; an idle link is given half a minute. */
  lemma WaitsAreBounded(events: seq<Event>)
    ensures var l := Run(Init(), events);
            && (forall t | t in PendingRetries(l) ::
                  && 800 <= l.timers[t].delay <= 36000
                  && l.attempt >= 1 && Jittered(BackoffBase(l.attempt), l.timers[t].delay))
            && (forall t | t in l.timers && l.timers[t].kind == IdleTimer :: l.timers[t].delay == 30000)
  {
    RunKeeps(events);
  }

  /** Events that cannot revive a stopped link: anything but a new target, `retryNow` and `destroy`. */
  predicate Passive(l: Link, e: Event) {
    !e.RetryNow? && !e.Destroy? && (e.SetTarget? ==> e.next == l.target)
  }

  /** A stopped link stays exactly as it is through any run of socket and timer events. */
  lemma {:induction false} StoppedStaysStopped(events: seq<Event>, more: seq<Event>)
    requires Run(Init(), events).state == Stopped
    requires forall e | e in more :: Passive(Run(Init(), events), e)
    ensures Run(Run(Init(), events), more) == Run(Init(), events)
    decreases |more|
  {
    var l := Run(Init(), events);
    RunKeeps(events);
    if more != [] {
      var n := |more| - 1;
      StoppedStaysStopped(events, more[..n]);
      assert more[n] in more;
    }
  }

  /** A destroyed link has nothing open and nothing pending, whatever happens next. */
  lemma {:induction false} DestroyedIsFinal(events: seq<Event>, more: seq<Event>)
    requires Run(Init(), events).destroyed
    ensures var l := Run(Run(Init(), events), more);
            l.destroyed && l.sockets == {} && l.timers == map[] && l.state == Idle
    decreases |more|
  {
    RunKeeps(events);
    if more != [] {
      var n := |more| - 1;
      DestroyedIsFinal(events, more[..n]);
      var l := Run(Run(Init(), events), more[..n]);
      Concatenated(events, more[..n]);
      RunKeeps(events + more[..n]);
      StepKeeps(l, more[n]);
    }
  }

  lemma {:induction false} Concatenated(a: seq<Event>, b: seq<Event>)
    ensures Run(Init(), a + b) == Run(Run(Init(), a), b)
    decreases |b|
  {
    if b == [] {
      assert a + b == a;
    } else {
      var n := |b| - 1;
      Concatenated(a, b[..n]);
      assert (a + b)[..|a + b| - 1] == a + b[..n];
    }
  }

  /** When its retry fires, a wanted link opens a socket or, if that throws, schedules the next retry. */
  lemma RetriesGoOn(events: seq<Event>, w: World)
    requires Wanted(Run(Init(), events)) && Run(Init(), events).sockets == {}
    ensures var l := Run(Init(), events);
            && l.retryTimer.Some?
            && var l' := Step(l, TimerFires(l.retryTimer.value, w));
               Wanted(l') && (w.opens <==> l'.socket.Some?) && l'.attempt == if w.opens then l.attempt else l.attempt + 1
  {
    RunKeeps(events);
    var l := Run(Init(), events);
    StepKeeps(l, TimerFires(l.retryTimer.value, w));
  }

  // ---------------------------------------------------------------------------
  // The link object
  // ---------------------------------------------------------------------------

  class DaemonLink {
    var target: Option<Target>
    var socket: Option<nat>
    var attempt: nat
    var retryTimer: Option<nat>
    var idleTimer: Option<nat>
    var state: LinkState
    var destroyed: bool
    var serverHello: Option<string>
    /** The runtime: timers not yet fired or cleared, sockets not yet closed, and the next handle it gives out. */
    var timers: map<nat, Timer>
    var sockets: set<nat>
    var nextHandle: nat

    function View(): Link
      reads this
    {
      Link(target, socket, attempt, retryTimer, idleTimer, state, destroyed, serverHello, timers, sockets, nextHandle)
    }

    constructor ()
      ensures View() == Init() && Inv(View())
    {
      target, socket, attempt, retryTimer, idleTimer := None, None, 0, None, None;
      state, destroyed, serverHello := Idle, false, None;
      timers, sockets, nextHandle := map[], {}, 0;
    }

    method SetTimeout(timer: Timer) returns (handle: nat)
      modifies this`timers, this`nextHandle
      ensures handle == old(nextHandle) && nextHandle == handle + 1 && timers == old(timers)[handle := timer]
    {
      handle := nextHandle;
      timers, nextHandle := timers[handle := timer], handle + 1;
    }

    method StopTimers()
      modifies this`timers, this`retryTimer, this`idleTimer
      ensures View() == ClearTimers(old(View()))
    {
      if retryTimer.Some? {
        timers := timers - {retryTimer.value};
        retryTimer := None;
      }
      if idleTimer.Some? {
        timers := timers - {idleTimer.value};
        idleTimer := None;
      }
    }

    method CloseSocket()
      modifies this`sockets, this`socket
      ensures View() == DropSocket(old(View()))
    {
      if socket.Some? {
        sockets := sockets - {socket.value};
        socket := None;
      }
    }

    method RestartIdleTimer()
      modifies this`timers, this`idleTimer, this`nextHandle
      ensures View() == TouchIdleTimer(old(View()))
    {
      if idleTimer.Some? {
        timers := timers - {idleTimer.value};
      }
      var handle := SetTimeout(Timer(IdleTimer, IdleTimeoutMs));
      idleTimer := Some(handle);
    }

    method Reconnect(w: World)
      modifies this`attempt, this`state, this`retryTimer, this`timers, this`nextHandle
      ensures View() == ScheduleReconnect(old(View()), w)
    {
      if destroyed || target.None? {
        return;
      }
      attempt := attempt + 1;
      var wait := BackoffMs(attempt, w.jitter);
      state := Reconnecting;
      var handle := SetTimeout(Timer(RetryTimer, wait));
      retryTimer := Some(handle);
    }

    method OpenSocket(w: World)
      requires RuntimeMatches(View())
      modifies this
      ensures View() == Connect(old(View()), w) && Reopened(old(View()), View(), w)
    {
      ConnectReopens(View(), w);
      hide Reopened, RuntimeMatches;
      if destroyed || target.None? {
        return;
      }
      StopTimers();
      CloseSocket();
      state := if attempt == 0 then Connecting else Reconnecting;
      if !w.opens {
        Reconnect(w);
        return;
      }
      socket := Some(nextHandle);
      sockets := sockets + {nextHandle};
      nextHandle := nextHandle + 1;
    }

    method FireTimer(timer: nat, w: World)
      requires Inv(View())
      modifies this
      ensures View() == OnTimer(old(View()), timer, w)
    {
      if timer !in timers {
        return;
      }
      var kind := timers[timer].kind;
      timers := timers - {timer};
      if kind == RetryTimer {
        retryTimer := None;
        OpenSocket(w);
      } else if socket.Some? {
        CloseSocket();
        Reconnect(w);
      }
    }

    method Receive(mine: nat, frame: Frame, w: World)
      requires Inv(View())
      modifies this
      ensures View() == OnMessage(old(View()), mine, frame, w) && Heard(old(View()), View(), mine, frame)
    {
      MessageIsHeard(View(), mine, frame, w);
      hide Heard, Inv;
      if mine !in sockets || Some(mine) != socket {
        return;
      }
      RestartIdleTimer();
      if frame.Hello? {
        serverHello := Some(frame.name);
        attempt := 0;
        state := Live;
      }
      if frame.Shutdown? {
        CloseSocket();
        StopTimers();
        if frame.retryable {
          Reconnect(w);
        } else {
          attempt := 0;
          state := Stopped;
        }
      }
    }

    method Opened(mine: nat)
      modifies this
      ensures View() == OnOpen(old(View()), mine)
    {
      if mine !in sockets || Some(mine) != socket {
        return;
      }
      state := Connecting;
      RestartIdleTimer();
    }

    method Closed(mine: nat, w: World)
      modifies this
      ensures View() == OnClose(old(View()), mine, w)
    {
      if mine !in sockets {
        return;
      }
      sockets := sockets - {mine};
      if Some(mine) != socket {
        return;
      }
      socket := None;
      serverHello := None;
      Reconnect(w);
    }

    method DropAll(next: Option<Target>)
      modifies this`timers, this`retryTimer, this`idleTimer, this`sockets, this`socket
      modifies this`serverHello, this`attempt, this`target
      ensures View() == Quieted(old(View()), next)
    {
      hide ClearTimers, DropSocket;
      StopTimers();
      CloseSocket();
      serverHello := None;
      attempt := 0;
      target := next;
    }

    method SetTarget(next: Option<Target>, w: World)
      requires Inv(View())
      modifies this
      ensures View() == Retargeted(old(View()), next, w) && SwitchedTo(old(View()), View(), next, w)
    {
      RetargetingSwitches(View(), next, w);
      QuietedIsQuiet(View(), next);
      hide RuntimeMatches, StateMatches, Connect, SwitchedTo, Reopened, Quiet, Quieted;
      if destroyed {
        return;
      }
      var same := (next.None? && target.None?) ||
                  (next.Some? && target.Some? && next.value.base == target.value.base &&
                   next.value.projectId == target.value.projectId);
      if same {
        return;
      }
      DropAll(next);
      if target.None? {
        state := Idle;
        return;
      }
      OpenSocket(w);
    }

    method RetryNow(w: World)
      requires Inv(View())
      modifies this
      ensures View() == RetriedNow(old(View()), w) && StartedAfresh(old(View()), View(), w)
    {
      RetryingStartsAfresh(View(), w);
      ClearedRuntime(View());
      hide RuntimeMatches, StateMatches, Connect, StartedAfresh, Reopened, ClearTimers;
      if destroyed || target.None? {
        return;
      }
      StopTimers();
      attempt := 0;
      OpenSocket(w);
    }

    method Destroy()
      modifies this
      ensures View() == Destroyed(old(View()))
    {
      destroyed := true;
      StopTimers();
      CloseSocket();
      target := None;
      state := Idle;
    }

    /** Any event, whichever handler it reaches: the state machine's step, and its invariant kept. */
    method Handle(e: Event)
      requires Inv(View())
      modifies this
      ensures View() == Step(old(View()), e) && Inv(View())
    {
      StepKeeps(View(), e);
      match e {
        case SetTarget(next, w) => SetTarget(next, w);
        case RetryNow(w) => RetryNow(w);
        case Destroy => Destroy();
        case TimerFires(timer, w) => FireTimer(timer, w);
        case SocketOpens(mine) => Opened(mine);
        case SocketSends(mine, frame, w) => Receive(mine, frame, w);
        case SocketFails(_) =>
        case SocketCloses(mine, w) => Closed(mine, w);
      }
    }
  }
}
