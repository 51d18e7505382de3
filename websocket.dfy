/**
 * The `useWebSocket` hook's connection logic: the sockets it opens, the reconnection
 * attempt counter, the reconnect timers and the "Connection Lost" notice.
 *
 * Each socket's readyState and each timer are tracked by their creation index. Browser
 * callbacks (`onopen`, `onclose`, `onmessage`, a timer firing) and the hook's own calls
 * (`connect`, `disconnect`, `sendMessage`) are events. `Step` is the hook as written;
 * `StepFixed` is the corrected hook the `ReconnectingSocket` class follows.
 */
module WebSocketHook {
  import opened Wrappers
  import opened Schema

  datatype ReadyState = Connecting | Open | Closing | Closed
  datatype TimerState = Pending | Fired | Cleared
  datatype Timer = Timer(delayMs: nat, state: TimerState)

  datatype Config = Config(reconnectInterval: nat, maxReconnectAttempts: nat)

  const Defaults := Config(3000, 5)

  datatype HookState = HookState(
    sockets: seq<ReadyState>,   // every socket created, by creation order
    current: Option<nat>,       // `ws.current`
    attempts: nat,              // `reconnectAttempts.current`
    timerId: Option<nat>,       // `reconnectTimeoutId.current`
    timers: seq<Timer>,         // every reconnect timer scheduled
    notices: nat,               // "Connection Lost" toasts shown
    delivered: seq<Json>,       // messages handed to `onMessage`
    sent: seq<Json>)            // messages passed to `ws.send`

  const Initial := HookState([], None, 0, None, [], 0, [], [])

  datatype Event =
    | ConnectCall                                  // `connect()`: the mount effect or `reconnect`
    | SocketOpened(socket: nat)                    // a socket's `onopen`
    | SocketClosed(socket: nat)                    // a socket's `onclose`
    | TimerFired(timer: nat)                       // a reconnect timer's callback
    | DisconnectCall                               // `disconnect()`: the effect cleanup
    | MessageReceived(socket: nat, frame: Option<Json>)  // `onmessage`; None when the frame is not JSON
    | SendCall(message: Json)                      // `sendMessage(message)`

  predicate Live(r: ReadyState) {
    r == Connecting || r == Open || r == Closing
  }

  /** `ws.current?.readyState === WebSocket.OPEN`. */
  predicate CurrentOpen(s: HookState) {
    s.current.Some? && s.current.value < |s.sockets| && s.sockets[s.current.value] == Open
  }

  /** `connect()`: nothing while the current socket is open; otherwise a new socket becomes current. */
  function Connect(s: HookState): (r: HookState)
    ensures CurrentOpen(s) ==> r == s
    ensures !CurrentOpen(s) ==> r.sockets == s.sockets + [Connecting] && r.current == Some(|s.sockets|)
    ensures r.attempts == s.attempts && r.timers == s.timers && r.notices == s.notices
  {
    if CurrentOpen(s) then s
    else s.(sockets := s.sockets + [Connecting], current := Some(|s.sockets|))
  }

  /** `onopen`: the socket is open and the attempt counter is reset. */
  function OnOpen(s: HookState, i: nat): (r: HookState)
    ensures i < |s.sockets| && s.sockets[i] == Connecting ==>
      r.sockets == s.sockets[i := Open] && r.attempts == 0
    ensures !(i < |s.sockets| && s.sockets[i] == Connecting) ==> r == s
    ensures r.current == s.current && r.timers == s.timers && r.timerId == s.timerId && r.notices == s.notices
  {
    if i < |s.sockets| && s.sockets[i] == Connecting then
      s.(sockets := s.sockets[i := Open], attempts := 0)
    else s
  }

  /**
   * `onclose`, as written: whichever socket closed, a reconnect timer is scheduled while
   * the counter is below the maximum, and the notice is shown otherwise.
   */
  function OnClose(cfg: Config, s: HookState, i: nat): (r: HookState)
    ensures !(i < |s.sockets| && Live(s.sockets[i])) ==> r == s
    ensures i < |s.sockets| && Live(s.sockets[i]) ==>
      && r.sockets == s.sockets[i := Closed] && r.current == s.current && r.attempts == s.attempts
      && (s.attempts < cfg.maxReconnectAttempts ==>
            && r.timers == s.timers + [Timer(cfg.reconnectInterval, Pending)]
            && r.timerId == Some(|s.timers|) && r.notices == s.notices)
      && (s.attempts >= cfg.maxReconnectAttempts ==>
            r.timers == s.timers && r.timerId == s.timerId && r.notices == s.notices + 1)
  {
    if i < |s.sockets| && Live(s.sockets[i]) then
      var closed := s.(sockets := s.sockets[i := Closed]);
      if s.attempts < cfg.maxReconnectAttempts then
        closed.(timers := s.timers + [Timer(cfg.reconnectInterval, Pending)], timerId := Some(|s.timers|))
      else
        closed.(notices := s.notices + 1)
    else s
  }

  /** A reconnect timer's callback: count the attempt, then `connect()`. */
  function OnTimer(s: HookState, t: nat): (r: HookState)
    ensures !(t < |s.timers| && s.timers[t].state == Pending) ==> r == s
    ensures t < |s.timers| && s.timers[t].state == Pending ==>
      && r.attempts == s.attempts + 1
      && r.timers == s.timers[t := s.timers[t].(state := Fired)]
      && r.notices == s.notices
      && (CurrentOpen(s) ==> r.sockets == s.sockets && r.current == s.current)
      && (!CurrentOpen(s) ==> r.sockets == s.sockets + [Connecting] && r.current == Some(|s.sockets|))
  {
    if t < |s.timers| && s.timers[t].state == Pending then
      Connect(s.(timers := s.timers[t := s.timers[t].(state := Fired)], attempts := s.attempts + 1))
    else s
  }

  /** `clearTimeout(reconnectTimeoutId.current)`: cancels the last timer scheduled, if it is still pending. */
  function ClearLastTimer(s: HookState): (r: HookState)
    ensures |r.timers| == |s.timers|
    ensures s.timerId.Some? && s.timerId.value < |s.timers| ==> r.timers[s.timerId.value].state != Pending
    ensures forall j :: 0 <= j < |s.timers| && s.timerId != Some(j) ==> r.timers[j] == s.timers[j]
    ensures r.sockets == s.sockets && r.current == s.current && r.attempts == s.attempts
    ensures r.timerId == s.timerId && r.notices == s.notices
  {
    if s.timerId.Some? && s.timerId.value < |s.timers| && s.timers[s.timerId.value].state == Pending then
      s.(timers := s.timers[s.timerId.value := s.timers[s.timerId.value].(state := Cleared)])
    else s
  }

  /** `disconnect()`: cancel the last timer, close the current socket and forget it. */
  function Disconnect(s: HookState): (r: HookState)
    ensures r.current == None && |r.sockets| == |s.sockets|
    ensures s.current.Some? && s.current.value < |s.sockets| && s.sockets[s.current.value] in {Connecting, Open} ==>
      r.sockets[s.current.value] == Closing
    ensures forall j :: 0 <= j < |s.sockets| && s.current != Some(j) ==> r.sockets[j] == s.sockets[j]
    ensures |r.timers| == |s.timers| && r.attempts == s.attempts && r.notices == s.notices
    ensures s.timerId.Some? && s.timerId.value < |s.timers| ==> r.timers[s.timerId.value].state != Pending
  {
    var s1 := ClearLastTimer(s);
    var s2 :=
      if s1.current.Some? && s1.current.value < |s1.sockets| && s1.sockets[s1.current.value] in {Connecting, Open} then
        s1.(sockets := s1.sockets[s1.current.value := Closing])
      else s1;
    s2.(current := None)
  }

  /** `onmessage`: a frame that parses as JSON is handed on; any open socket's frames are. */
  function OnMessage(s: HookState, i: nat, frame: Option<Json>): (r: HookState)
    ensures r.delivered == if i < |s.sockets| && s.sockets[i] == Open && frame.Some? then s.delivered + [frame.value] else s.delivered
  {
    if i < |s.sockets| && s.sockets[i] == Open && frame.Some? then s.(delivered := s.delivered + [frame.value]) else s
  }

  /** `sendMessage`: only sent while the current socket is open. */
  function Send(s: HookState, message: Json): (r: HookState)
    ensures r.sent == if CurrentOpen(s) then s.sent + [message] else s.sent
    ensures r.sockets == s.sockets && r.current == s.current
  {
    if CurrentOpen(s) then s.(sent := s.sent + [message]) else s
  }

  /** A closed socket stays closed, and a socket, a timer or a notice once made is never taken back. */
  ghost predicate Grows(s: HookState, r: HookState) {
    && |s.sockets| <= |r.sockets| && |s.timers| <= |r.timers| && s.notices <= r.notices
    && forall j :: 0 <= j < |s.sockets| && s.sockets[j] == Closed ==> r.sockets[j] == Closed
  }

  /**
   * The hook as written. The counter is only reset by an open, raised by one by a timer,
   * and otherwise kept.
   */
  function Step(cfg: Config, s: HookState, e: Event): (r: HookState)
    ensures r.attempts == s.attempts || (e.SocketOpened? && r.attempts == 0) || (e.TimerFired? && r.attempts == s.attempts + 1)
  {
    match e
    case ConnectCall => Connect(s)
    case SocketOpened(i) => OnOpen(s, i)
    case SocketClosed(i) => OnClose(cfg, s, i)
    case TimerFired(t) => OnTimer(s, t)
    case DisconnectCall => Disconnect(s)
    case MessageReceived(i, frame) => OnMessage(s, i, frame)
    case SendCall(m) => Send(s, m)
  }

  /** One event of the hook as written takes nothing back. */
  lemma StepGrows(cfg: Config, s: HookState, e: Event)
    ensures Grows(s, Step(cfg, s, e))
  {
  }

  /** The events applied in turn. */
  function Run(cfg: Config, s: HookState, events: seq<Event>): HookState
    decreases |events|
  {
    if events == [] then s else Run(cfg, Step(cfg, s, events[0]), events[1..])
  }

  /** Over any run of the hook as written, sockets, timers and notices only accumulate, and closed sockets stay closed. */
  lemma {:induction false} RunGrows(cfg: Config, s: HookState, events: seq<Event>)
    ensures Grows(s, Run(cfg, s, events))
    decreases |events|
  {
    if events != [] {
      var s1 := Step(cfg, s, events[0]);
      StepGrows(cfg, s, events[0]);
      RunGrows(cfg, s1, events[1..]);
    }
  }

  // ---- The hook as written: two traces the source does not intend ----

  lemma {:induction false} RunAppend(cfg: Config, s: HookState, a: seq<Event>, b: seq<Event>)
    ensures Run(cfg, s, a + b) == Run(cfg, Run(cfg, s, a), b)
    decreases |a|
  {
    if a == [] {
      assert a + b == b;
    } else {
      assert (a + b)[0] == a[0] && (a + b)[1..] == a[1..] + b;
      RunAppend(cfg, Step(cfg, s, a[0]), a[1..], b);
    }
  }

  /** Both of two connecting sockets close and both reconnect timers fire. */
  function Round(n: nat, k: nat): seq<Event> {
    [SocketClosed(n), SocketClosed(n + 1), TimerFired(k), TimerFired(k + 1)]
  }

  /**
   * With two sockets connecting (the later one current) and the counter below the
   * maximum, a round leaves two new sockets connecting and the counter two higher.
   */
  lemma TwoChainsRound(cfg: Config, s: HookState)
    requires |s.sockets| >= 2
    requires s.sockets[|s.sockets| - 2] == Connecting && s.sockets[|s.sockets| - 1] == Connecting
    requires s.current == Some(|s.sockets| - 1)
    requires s.attempts < cfg.maxReconnectAttempts
    ensures var r := Run(cfg, s, Round(|s.sockets| - 2, |s.timers|));
      && |r.sockets| == |s.sockets| + 2
      && r.sockets[|s.sockets|] == Connecting && r.sockets[|s.sockets| + 1] == Connecting
      && r.current == Some(|s.sockets| + 1)
      && r.attempts == s.attempts + 2
      && |r.timers| == |s.timers| + 2
  {
    var n, k := |s.sockets| - 2, |s.timers|;
    var s1 := Step(cfg, s, SocketClosed(n));
    var s2 := Step(cfg, s1, SocketClosed(n + 1));
    assert |s2.timers| == k + 2 && s2.timers[k].state == Pending && s2.timers[k + 1].state == Pending;
    var s3 := Step(cfg, s2, TimerFired(k));
    assert s3.sockets == s2.sockets + [Connecting] && s3.current == Some(n + 2);
    var s4 := Step(cfg, s3, TimerFired(k + 1));
    assert s4.sockets == s3.sockets + [Connecting];
    var es := Round(n, k);
    assert es[1..] == [SocketClosed(n + 1), TimerFired(k), TimerFired(k + 1)];
    assert es[1..][1..] == [TimerFired(k), TimerFired(k + 1)];
    assert es[1..][1..][1..] == [TimerFired(k + 1)];
    assert Run(cfg, s4, []) == s4;
    assert Run(cfg, s3, [TimerFired(k + 1)]) == s4;
    assert Run(cfg, s2, [TimerFired(k), TimerFired(k + 1)]) == s4;
    assert Run(cfg, s1, es[1..]) == s4;
  }

  /** Two sockets started back to back, then three rounds of both chains reconnecting. */
  function DoubleChainTrace(): seq<Event> {
    [ConnectCall, ConnectCall] + Round(0, 0) + Round(2, 2) + Round(4, 4)
  }

  /**
   * `reconnect()` while the first socket is still connecting leaves two sockets whose
   * `onclose` both schedule reconnects; the two chains together count six attempts
   * against a maximum of five.
   */
  lemma ExceedsMaxAttempts()
    ensures Run(Defaults, Initial, DoubleChainTrace()).attempts == 6 > Defaults.maxReconnectAttempts
  {
    var start, r1, r2, r3 := [ConnectCall, ConnectCall], Round(0, 0), Round(2, 2), Round(4, 4);
    var s0 := Run(Defaults, Initial, start);
    StartTwoSockets();
    TwoChainsRound(Defaults, s0);
    var s1 := Run(Defaults, s0, r1);
    assert |s1.sockets| - 2 == 2 && |s1.timers| == 2;
    TwoChainsRound(Defaults, s1);
    var s2 := Run(Defaults, s1, r2);
    assert |s2.sockets| - 2 == 4 && |s2.timers| == 4;
    TwoChainsRound(Defaults, s2);
    RunAppend(Defaults, Initial, start, r1);
    RunAppend(Defaults, Initial, start + r1, r2);
    RunAppend(Defaults, Initial, start + r1 + r2, r3);
  }

  /**
   * The mount effect re-run (`disconnect()` then `connect()`, as happens whenever
   * `connect` changes identity) while the first socket is still connecting, then the
   * old socket's close and its retry, then one socket of the pair closing and retrying.
   */
  function RerunPrefix(): seq<Event> {
    [ConnectCall, DisconnectCall, ConnectCall, SocketClosed(0), TimerFired(0), SocketClosed(1), TimerFired(1)]
  }

  /**
   * A live socket other than the connecting current one closes below the maximum, and
   * its retry fires: it is closed, and one more socket is connecting and current.
   */
  lemma CloseAndRetry(cfg: Config, s: HookState, n: nat)
    requires n < |s.sockets| && Live(s.sockets[n])
    requires s.current.Some? && s.current.value < |s.sockets| && s.current.value != n
    requires s.sockets[s.current.value] == Connecting
    requires s.attempts < cfg.maxReconnectAttempts
    ensures var r := Run(cfg, s, [SocketClosed(n), TimerFired(|s.timers|)]);
      && r.sockets == s.sockets[n := Closed] + [Connecting] && r.current == Some(|s.sockets|)
      && r.attempts == s.attempts + 1 && |r.timers| == |s.timers| + 1
  {
    var es := [SocketClosed(n), TimerFired(|s.timers|)];
    var s1 := Step(cfg, s, SocketClosed(n));
    assert !CurrentOpen(s1);
    var s2 := Step(cfg, s1, TimerFired(|s.timers|));
    assert es[1..] == [TimerFired(|s.timers|)] && es[1..][1..] == [];
    assert Run(cfg, s1, es[1..]) == s2;
  }

  /** `connect()`, `disconnect()`, `connect()`: the first socket is closing, the second connecting and current. */
  lemma RerunStart()
    ensures var s := Run(Defaults, Initial, [ConnectCall, DisconnectCall, ConnectCall]);
      s.sockets == [Closing, Connecting] && s.current == Some(1) && s.attempts == 0 && s.timers == []
  {
    var es := [ConnectCall, DisconnectCall, ConnectCall];
    assert es[1..] == [DisconnectCall, ConnectCall] && es[1..][1..] == [ConnectCall] && es[1..][1..][1..] == [];
    var s1 := Step(Defaults, Initial, ConnectCall);
    var s2 := Step(Defaults, s1, DisconnectCall);
    assert s2.sockets == [Closing] && s2.current == None;
  }

  /** After the effect re-run, two chains are connecting with the counter at two. */
  lemma RerunLeavesTwoChains()
    ensures var s := Run(Defaults, Initial, RerunPrefix());
      && |s.sockets| == 4 && s.sockets[2] == Connecting && s.sockets[3] == Connecting
      && s.current == Some(3) && s.attempts == 2 && |s.timers| == 2
  {
    var p1, p2, p3 := [ConnectCall, DisconnectCall, ConnectCall], [SocketClosed(0), TimerFired(0)], [SocketClosed(1), TimerFired(1)];
    assert RerunPrefix() == p1 + p2 + p3;
    RunAppend(Defaults, Initial, p1, p2);
    RunAppend(Defaults, Initial, p1 + p2, p3);
    RerunStart();
    var s3 := Run(Defaults, Initial, p1);
    CloseAndRetry(Defaults, s3, 0);
    var s5 := Run(Defaults, s3, p2);
    assert s5.sockets[1] == Connecting && s5.sockets[2] == Connecting && s5.current == Some(2);
    CloseAndRetry(Defaults, s5, 1);
  }

  /**
   * The app never calls `reconnect()`, but the effect re-run reaches the same two chains:
   * after it, two more rounds count six attempts against a maximum of five.
   */
  lemma EffectRerunExceedsMaxAttempts()
    ensures Run(Defaults, Initial, RerunPrefix() + Round(2, 2) + Round(4, 4)).attempts == 6 > Defaults.maxReconnectAttempts
  {
    var start, r1, r2 := RerunPrefix(), Round(2, 2), Round(4, 4);
    var s0 := Run(Defaults, Initial, start);
    RerunLeavesTwoChains();
    TwoChainsRound(Defaults, s0);
    var s1 := Run(Defaults, s0, r1);
    assert |s1.sockets| - 2 == 4 && |s1.timers| == 4;
    TwoChainsRound(Defaults, s1);
    RunAppend(Defaults, Initial, start, r1);
    RunAppend(Defaults, Initial, start + r1, r2);
  }

  /** Calling `connect()` twice before the first socket opens leaves two sockets connecting. */
  lemma StartTwoSockets()
    ensures var s := Run(Defaults, Initial, [ConnectCall, ConnectCall]);
      s.sockets == [Connecting, Connecting] && s.current == Some(1) && s.timers == [] && s.attempts == 0
  {
    var start := [ConnectCall, ConnectCall];
    assert start[1..] == [ConnectCall] && start[1..][1..] == [];
    assert Run(Defaults, Initial, start) == Step(Defaults, Step(Defaults, Initial, ConnectCall), ConnectCall);
  }

  /**
   * Unmounting closes the socket, but its `onclose` still schedules a reconnect, and the
   * timer opens a new socket after `disconnect()`.
   */
  lemma DisconnectStillReconnects()
    ensures var s := Run(Defaults, Initial, [ConnectCall, SocketOpened(0), DisconnectCall, SocketClosed(0), TimerFired(0)]);
      |s.sockets| == 2 && s.current == Some(1) && s.sockets[1] == Connecting
  {
    var s1 := Step(Defaults, Step(Defaults, Initial, ConnectCall), SocketOpened(0));
    var s2 := Step(Defaults, s1, DisconnectCall);
    assert s2.current == None && s2.sockets == [Closing];
    var s3 := Step(Defaults, s2, SocketClosed(0));
    assert s3.timers == [Timer(3000, Pending)];
  }

  // ---- The corrected hook ----

  /** `connect()`, corrected: a pending reconnect is cancelled before a new socket is made. */
  function ConnectFixed(s: HookState): HookState {
    if CurrentOpen(s) then s else Connect(ClearLastTimer(s))
  }

  /**
   * `onclose`, corrected: only the current socket's closing reconnects or raises the
   * notice; a socket that was replaced or disconnected closes quietly.
   */
  function OnCloseFixed(cfg: Config, s: HookState, i: nat): HookState {
    if i < |s.sockets| && Live(s.sockets[i]) then
      if s.current == Some(i) then OnClose(cfg, s, i) else s.(sockets := s.sockets[i := Closed])
    else s
  }

  function OnTimerFixed(s: HookState, t: nat): HookState {
    if t < |s.timers| && s.timers[t].state == Pending then
      ConnectFixed(s.(timers := s.timers[t := s.timers[t].(state := Fired)], attempts := s.attempts + 1))
    else s
  }

  function StepFixed(cfg: Config, s: HookState, e: Event): HookState {
    match e
    case ConnectCall => ConnectFixed(s)
    case SocketOpened(i) => OnOpen(s, i)
    case SocketClosed(i) => OnCloseFixed(cfg, s, i)
    case TimerFired(t) => OnTimerFixed(s, t)
    case DisconnectCall => Disconnect(s)
    case MessageReceived(i, frame) => OnMessage(s, i, frame)
    case SendCall(m) => Send(s, m)
  }

  function RunFixed(cfg: Config, s: HookState, events: seq<Event>): HookState
    decreases |events|
  {
    if events == [] then s else RunFixed(cfg, StepFixed(cfg, s, events[0]), events[1..])
  }

  /**
   * What the corrected hook keeps: the counter stays within the maximum, and a pending
   * timer is the last one scheduled, was scheduled below the maximum, and waits for a
   * current socket that has closed.
   */
  ghost predicate FixedInv(cfg: Config, s: HookState) {
    && (s.current.Some? ==> s.current.value < |s.sockets|)
    && s.attempts <= cfg.maxReconnectAttempts
    && forall t :: 0 <= t < |s.timers| && s.timers[t].state == Pending ==>
         && s.timerId == Some(t) && s.attempts < cfg.maxReconnectAttempts
         && s.current.Some? && s.sockets[s.current.value] == Closed
  }

  /** No socket is current and no reconnect is pending. */
  ghost predicate Quiet(s: HookState) {
    s.current.None? && forall t :: 0 <= t < |s.timers| ==> s.timers[t].state != Pending
  }

  lemma ClearLastTimerQuiets(cfg: Config, s: HookState)
    requires FixedInv(cfg, s)
    ensures var r := ClearLastTimer(s);
      && r.sockets == s.sockets && r.current == s.current && r.attempts == s.attempts
      && |r.timers| == |s.timers| && r.timerId == s.timerId
      && forall t :: 0 <= t < |r.timers| ==> r.timers[t].state != Pending
  {
  }

  lemma FixedStepKeepsInv(cfg: Config, s: HookState, e: Event)
    requires FixedInv(cfg, s)
    ensures FixedInv(cfg, StepFixed(cfg, s, e))
  {
    match e
    case ConnectCall =>
      if !CurrentOpen(s) { ClearLastTimerQuiets(cfg, s); }
    case SocketOpened(i) =>
    case SocketClosed(i) =>
      if i < |s.sockets| && Live(s.sockets[i]) && s.current == Some(i) {
        assert forall t :: 0 <= t < |s.timers| ==> s.timers[t].state != Pending;
      }
    case TimerFired(t) =>
      if t < |s.timers| && s.timers[t].state == Pending {
        var f := s.(timers := s.timers[t := s.timers[t].(state := Fired)], attempts := s.attempts + 1);
        assert !CurrentOpen(f);
        ClearLastTimerQuiets(cfg, f.(attempts := s.attempts));
      }
    case DisconnectCall =>
      ClearLastTimerQuiets(cfg, s);
    case MessageReceived(i, frame) =>
    case SendCall(m) =>
  }

  lemma {:induction false} FixedRunKeepsInv(cfg: Config, s: HookState, events: seq<Event>)
    requires FixedInv(cfg, s)
    ensures FixedInv(cfg, RunFixed(cfg, s, events))
    decreases |events|
  {
    if events != [] {
      FixedStepKeepsInv(cfg, s, events[0]);
      FixedRunKeepsInv(cfg, StepFixed(cfg, s, events[0]), events[1..]);
    }
  }

  /** Corrected: however the callbacks interleave, the counter never passes the maximum. */
  lemma FixedAttemptsBounded(cfg: Config, events: seq<Event>)
    ensures RunFixed(cfg, Initial, events).attempts <= cfg.maxReconnectAttempts
  {
    FixedRunKeepsInv(cfg, Initial, events);
  }

  lemma QuietStep(cfg: Config, s: HookState, e: Event)
    requires Quiet(s) && !e.ConnectCall?
    ensures Quiet(StepFixed(cfg, s, e)) && |StepFixed(cfg, s, e).sockets| == |s.sockets|
  {
  }

  lemma {:induction false} QuietRun(cfg: Config, s: HookState, events: seq<Event>)
    requires Quiet(s)
    requires forall i :: 0 <= i < |events| ==> !events[i].ConnectCall?
    ensures Quiet(RunFixed(cfg, s, events)) && |RunFixed(cfg, s, events).sockets| == |s.sockets|
    decreases |events|
  {
    if events != [] {
      QuietStep(cfg, s, events[0]);
      QuietRun(cfg, StepFixed(cfg, s, events[0]), events[1..]);
    }
  }

  /** Corrected: after `disconnect()`, no socket is opened again until `connect()` is called. */
  lemma FixedQuietAfterDisconnect(cfg: Config, s: HookState, events: seq<Event>)
    requires FixedInv(cfg, s)
    requires forall i :: 0 <= i < |events| ==> !events[i].ConnectCall?
    ensures |RunFixed(cfg, StepFixed(cfg, s, DisconnectCall), events).sockets| == |s.sockets|
  {
    ClearLastTimerQuiets(cfg, s);
    QuietRun(cfg, StepFixed(cfg, s, DisconnectCall), events);
  }

  /**
   * The hook's refs (`ws`, `reconnectAttempts`, `reconnectTimeoutId`) together with the
   * sockets and timers they point to, following the corrected callbacks.
   */
  class ReconnectingSocket {
    const config: Config
    var sockets: seq<ReadyState>
    var current: Option<nat>
    var attempts: nat
    var timerId: Option<nat>
    var timers: seq<Timer>
    var notices: nat
    var delivered: seq<Json>
    var sent: seq<Json>

    function State(): HookState
      reads this
    {
      HookState(sockets, current, attempts, timerId, timers, notices, delivered, sent)
    }

    ghost predicate Valid()
      reads this
    {
      FixedInv(config, State())
    }

    /** `isConnected`. */
    predicate IsConnected()
      reads this
    {
      CurrentOpen(State())
    }

    /** `useRef(null)`, `useRef(0)`, `useRef(null)`: no socket, no attempt, no timer. */
    constructor(config: Config)
      ensures this.config == config && State() == Initial && Valid()
    {
      this.config := config;
      sockets, current, attempts, timerId, timers := [], None, 0, None, [];
      notices, delivered, sent := 0, [], [];
    }

    /** `connect()`: the mount effect and `reconnect`. */
    method Connect()
      requires Valid()
      modifies this
      ensures Valid() && State() == StepFixed(config, old(State()), ConnectCall)
    {
      FixedStepKeepsInv(config, State(), ConnectCall);
      if current.Some? && current.value < |sockets| && sockets[current.value] == Open {
        return;
      }
      CancelReconnect();
      sockets := sockets + [Connecting];
      current := Some(|sockets| - 1);
    }

    /** `clearTimeout(reconnectTimeoutId.current)`. */
    method CancelReconnect()
      modifies this
      ensures State() == ClearLastTimer(old(State()))
    {
      if timerId.Some? && timerId.value < |timers| && timers[timerId.value].state == Pending {
        timers := timers[timerId.value := timers[timerId.value].(state := Cleared)];
      }
    }

    /** `onopen` of socket `i`. */
    method HandleOpen(i: nat)
      requires Valid() && i < |sockets| && sockets[i] == Connecting
      modifies this
      ensures Valid() && State() == StepFixed(config, old(State()), SocketOpened(i))
      ensures attempts == 0
    {
      FixedStepKeepsInv(config, State(), SocketOpened(i));
      sockets := sockets[i := Open];
      attempts := 0;
    }

    /** `onclose` of socket `i`. */
    method HandleClose(i: nat)
      requires Valid() && i < |sockets| && Live(sockets[i])
      modifies this
      ensures Valid() && State() == StepFixed(config, old(State()), SocketClosed(i))
      ensures sockets == old(sockets)[i := Closed] && attempts == old(attempts)
      ensures old(current) == Some(i) && old(attempts) < config.maxReconnectAttempts ==>
        timers == old(timers) + [Timer(config.reconnectInterval, Pending)] && notices == old(notices)
      ensures old(current) == Some(i) && old(attempts) >= config.maxReconnectAttempts ==>
        timers == old(timers) && notices == old(notices) + 1
      ensures old(current) != Some(i) ==> timers == old(timers) && notices == old(notices)
    {
      FixedStepKeepsInv(config, State(), SocketClosed(i));
      var wasCurrent := current == Some(i);
      sockets := sockets[i := Closed];
      if wasCurrent {
        if attempts < config.maxReconnectAttempts {
          timers := timers + [Timer(config.reconnectInterval, Pending)];
          timerId := Some(|timers| - 1);
        } else {
          notices := notices + 1;
        }
      }
    }

    /** The callback of reconnect timer `t`. */
    method HandleTimer(t: nat)
      requires Valid() && t < |timers| && timers[t].state == Pending
      modifies this
      ensures Valid() && State() == StepFixed(config, old(State()), TimerFired(t))
      ensures attempts == old(attempts) + 1 <= config.maxReconnectAttempts
      ensures sockets == old(sockets) + [Connecting] && current == Some(|old(sockets)|)
    {
      FixedStepKeepsInv(config, State(), TimerFired(t));
      timers := timers[t := timers[t].(state := Fired)];
      attempts := attempts + 1;
      Connect();
    }

    /** `onmessage` of socket `i`; `frame` is None when the data is not JSON. */
    method HandleMessage(i: nat, frame: Option<Json>)
      requires Valid() && i < |sockets|
      modifies this
      ensures Valid() && State() == StepFixed(config, old(State()), MessageReceived(i, frame))
    {
      FixedStepKeepsInv(config, State(), MessageReceived(i, frame));
      if sockets[i] == Open && frame.Some? {
        delivered := delivered + [frame.value];
      }
    }

    /** `disconnect()`: the effect cleanup. */
    method Disconnect()
      requires Valid()
      modifies this
      ensures Valid() && State() == StepFixed(config, old(State()), DisconnectCall)
    {
      FixedStepKeepsInv(config, State(), DisconnectCall);
      CancelReconnect();
      if current.Some? && current.value < |sockets| && sockets[current.value] in {Connecting, Open} {
        sockets := sockets[current.value := Closing];
      }
      current := None;
    }

    /** `sendMessage`: true when the message went out on the open current socket. */
    method SendMessage(message: Json) returns (wasSent: bool)
      requires Valid()
      modifies this
      ensures Valid() && State() == StepFixed(config, old(State()), SendCall(message))
      ensures wasSent <==> old(IsConnected())
    {
      FixedStepKeepsInv(config, State(), SendCall(message));
      wasSent := IsConnected();
      if wasSent {
        sent := sent + [message];
      }
    }
  }
}
