/** The daemon's outbound connection to HQ: connect, authenticate, heartbeat, reconnect with backoff
    (src/daemon/client.ts).  Each constructed socket has a number; a socket that was closed delivers nothing further. */
module DaemonClient {
  import opened Optional
  import Backoff

  const RECONNECT_DELAY_MS := 1_000
  const RECONNECT_MAX_DELAY_MS := 30_000
  const RECONNECT_BACKOFF_MULTIPLIER := 2
  const WS_CLOSE_AUTH_REJECTED := 4001

  /** `live` holds the sockets that are not closed and still have this client's listeners; `retries` counts the
      reconnections scheduled since a socket last opened. */
  datatype State = State(
    ws: Option<nat>, live: set<nat>, created: nat, heartbeat: bool, timer: Option<int>, delay: int,
    authenticated: bool, shouldReconnect: bool, exited: bool, retries: nat)

  const INITIAL := State(None, {}, 0, false, None, RECONNECT_DELAY_MS, false, true, false, 0)

  datatype Op =
    | Connect(constructed: bool)
    | Disconnect
    | Opened(socket: nat)
    | AuthAccepted(socket: nat)
    | AuthRejected(socket: nat)
    | SocketClosed(socket: nat, code: int)
    | TimerFires(constructed: bool)

  function Schedule(s: State): State {
    if s.timer.Some? then s
    else s.(timer := Some(s.delay),
            delay := Backoff.Min(s.delay * RECONNECT_BACKOFF_MULTIPLIER, RECONNECT_MAX_DELAY_MS),
            retries := s.retries + 1)
  }

  function Cleanup(s: State): State {
    s.(heartbeat := false, authenticated := false, timer := None)
  }

  function DoConnect(s: State, constructed: bool): State {
    if s.ws.Some? then s
    else if !constructed then Schedule(s)
    else s.(ws := Some(s.created), live := s.live + {s.created}, created := s.created + 1)
  }

  function OnClose(s: State, socket: nat, code: int): State {
    var t := Cleanup(s.(live := s.live - {socket}));
    if code == WS_CLOSE_AUTH_REJECTED then t.(exited := true)
    else if t.shouldReconnect then Schedule(t)
    else t
  }

  function DoDisconnect(s: State): State {
    var t := Cleanup(s.(shouldReconnect := false));
    if t.ws.None? then t else t.(live := t.live - {t.ws.value}, ws := None)
  }

  /** Events of sockets without listeners, a timer that is not set, and anything after exit have no effect. */
  function Step(s: State, op: Op): State {
    if s.exited then s
    else
      match op
      case Connect(constructed) => DoConnect(s, constructed)
      case Disconnect => DoDisconnect(s)
      case Opened(k) => if k in s.live then s.(delay := RECONNECT_DELAY_MS, retries := 0) else s
      case AuthAccepted(k) => if k in s.live then s.(authenticated := true, heartbeat := true) else s
      case AuthRejected(k) => if k in s.live then s.(authenticated := false) else s
      case SocketClosed(k, code) => if k in s.live then OnClose(s, k, code) else s
      case TimerFires(constructed) => if s.timer.None? then s else DoConnect(s.(timer := None, ws := None), constructed)
  }

  function Run(ops: seq<Op>): State {
    if ops == [] then INITIAL else Step(Run(ops[..|ops| - 1]), ops[|ops| - 1])
  }

  // ---- what every run keeps ----

  predicate WaitsFor(s: State) {
    (s.ws.Some? && s.ws.value in s.live) || s.timer.Some?
  }

  ghost predicate Sound(s: State) {
    && (s.authenticated ==> s.heartbeat)
    && s.delay == Backoff.ClosedForm(RECONNECT_DELAY_MS, RECONNECT_MAX_DELAY_MS, s.retries)
    && (s.exited || !s.shouldReconnect || (s.ws.Some? ==> WaitsFor(s)))
  }

  lemma ScheduleKeepsBackoff(s: State)
    requires s.delay == Backoff.ClosedForm(RECONNECT_DELAY_MS, RECONNECT_MAX_DELAY_MS, s.retries)
    ensures var t := Schedule(s);
            t.delay == Backoff.ClosedForm(RECONNECT_DELAY_MS, RECONNECT_MAX_DELAY_MS, t.retries)
  {
    Backoff.IteratedIsClosedForm(RECONNECT_DELAY_MS, RECONNECT_MAX_DELAY_MS, s.retries);
    Backoff.IteratedIsClosedForm(RECONNECT_DELAY_MS, RECONNECT_MAX_DELAY_MS, s.retries + 1);
  }

  lemma StepKeepsSound(s: State, op: Op)
    requires Sound(s)
    ensures Sound(Step(s, op))
    ensures WaitsFor(s) || op.Connect? ==>
            var t := Step(s, op); t.exited || !t.shouldReconnect || WaitsFor(t)
  {
    match op
    case Connect(_) => ScheduleKeepsBackoff(s);
    case SocketClosed(k, _) => ScheduleKeepsBackoff(Cleanup(s.(live := s.live - {k})));
    case TimerFires(_) => ScheduleKeepsBackoff(s.(timer := None, ws := None));
    case _ =>
  }

  ghost predicate Started(ops: seq<Op>) {
    exists i :: 0 <= i < |ops| && ops[i].Connect?
  }

  /** In every run being authenticated implies a running heartbeat, the delay to come is min(1000·2^n, 30000) after n
      consecutive retries, and a client that was started waits for a live socket or a retry unless it gave up. */
  lemma {:induction false} RunIsSound(ops: seq<Op>)
    ensures var s := Run(ops);
            && (s.authenticated ==> s.heartbeat)
            && s.delay == Backoff.ClosedForm(RECONNECT_DELAY_MS, RECONNECT_MAX_DELAY_MS, s.retries)
            && Sound(s)
            && (Started(ops) ==> s.exited || !s.shouldReconnect || WaitsFor(s))
  {
    if ops != [] {
      var before, last := ops[..|ops| - 1], ops[|ops| - 1];
      RunIsSound(before);
      StepKeepsSound(Run(before), last);
      if Started(ops) && !last.Connect? {
        var i :| 0 <= i < |ops| && ops[i].Connect?;
        assert before[i].Connect?;
      }
      GivenUpStays(Run(before), last);
    }
  }

  lemma GivenUpStays(s: State, op: Op)
    ensures s.exited || !s.shouldReconnect ==> var t := Step(s, op); t.exited || !t.shouldReconnect
  {
  }

  /** The retry scheduled after n consecutive ones waits min(1000·2^n, 30000) ms, the closed form the browser manager
      uses. */
  lemma NthRetryDelay(ops: seq<Op>, op: Op)
    requires Step(Run(ops), op).retries == Run(ops).retries + 1
    ensures Step(Run(ops), op).timer ==
            Some(Backoff.ClosedForm(RECONNECT_DELAY_MS, RECONNECT_MAX_DELAY_MS, Run(ops).retries))
  {
    RunIsSound(ops);
  }

  // ---- one socket at a time ----

  /** Socket numbers are handed out in order. */
  ghost predicate Numbered(s: State) {
    forall k :: k in s.live ==> k < s.created
  }

  /** The step constructs a socket: a `connect` that finds none, or a retry. */
  predicate Constructs(s: State, op: Op) {
    !s.exited && ((op == Connect(true) && s.ws.None?) || (op == TimerFires(true) && s.timer.Some?))
  }

  /** With at most one live socket, a step leaves more than one exactly when it constructs a socket beside the live
      one. */
  lemma OneSocketIsKeptExactly(s: State, op: Op)
    requires Numbered(s) && |s.live| <= 1
    ensures Numbered(Step(s, op))
    ensures |Step(s, op).live| <= 1 <==> !(Constructs(s, op) && s.live != {})
  {
    LiveAfter(s, op);
    var t := Step(s, op);
    if Constructs(s, op) {
      assert |s.live + {s.created}| == |s.live| + 1;
    } else {
      SubsetSize(t.live, s.live);
    }
  }

  lemma LiveAfter(s: State, op: Op)
    requires Numbered(s)
    ensures Numbered(Step(s, op))
    ensures if Constructs(s, op) then Step(s, op).live == s.live + {s.created} && s.created !in s.live
            else Step(s, op).live <= s.live
  {
  }

  lemma SubsetSize(a: set<nat>, b: set<nat>)
    requires a <= b
    ensures |a| <= |b|
  {
    assert b == a + (b - a);
  }

  lemma {:induction false} RunIsNumbered(ops: seq<Op>)
    ensures Numbered(Run(ops))
  {
    if ops != [] {
      RunIsNumbered(ops[..|ops| - 1]);
      LiveAfter(Run(ops[..|ops| - 1]), ops[|ops| - 1]);
    }
  }

  /** There is never more than one live socket during the run. */
  ghost predicate AlwaysSingle(ops: seq<Op>) {
    forall t :: 0 <= t <= |ops| ==> |Run(ops[..t]).live| <= 1
  }

  /** No step of the run constructs a socket beside a live one. */
  ghost predicate NeverBeside(ops: seq<Op>) {
    forall i :: 0 <= i < |ops| ==> !(Constructs(Run(ops[..i]), ops[i]) && Run(ops[..i]).live != {})
  }

  lemma AlwaysSingleSnoc(before: seq<Op>, op: Op)
    ensures AlwaysSingle(before + [op]) <==> AlwaysSingle(before) && |Run(before + [op]).live| <= 1
  {
    var ops := before + [op];
    assert forall t :: 0 <= t <= |before| ==> ops[..t] == before[..t];
    assert ops[..|ops|] == ops;
  }

  lemma NeverBesideSnoc(before: seq<Op>, op: Op)
    ensures NeverBeside(before + [op]) <==>
            NeverBeside(before) && !(Constructs(Run(before), op) && Run(before).live != {})
  {
    var ops := before + [op];
    assert forall i :: 0 <= i <= |before| ==> ops[..i] == before[..i];
    assert before[..|before|] == before;
    assert forall i :: 0 <= i < |before| ==> ops[i] == before[i];
    assert ops[|before|] == op;
  }

  /** A run never has more than one live socket if and only if it never constructs one beside a live one. */
  lemma {:induction false} SingleSocketExactly(ops: seq<Op>)
    ensures AlwaysSingle(ops) <==> NeverBeside(ops)
  {
    if ops == [] {
      assert Run(ops[..0]).live == {};
    } else {
      var before, op := ops[..|ops| - 1], ops[|ops| - 1];
      assert ops == before + [op];
      SingleSocketExactly(before);
      AlwaysSingleSnoc(before, op);
      NeverBesideSnoc(before, op);
      RunIsNumbered(before);
      if AlwaysSingle(before) {
        assert before[..|before|] == before;
        OneSocketIsKeptExactly(Run(before), op);
        assert Run(ops) == Step(Run(before), op);
      }
    }
  }

  /** Only the current socket is live, and none is while a retry is pending. */
  ghost predicate RetryIsAlone(s: State) {
    && s.live <= (if s.ws.Some? then {s.ws.value} else {})
    && (s.timer.Some? ==> s.live == {})
    && Numbered(s)
  }

  /** A caller breaks this exactly by a `connect` that finds no socket while a retry is pending, after a failed
      construction: the retry will then replace the socket constructed now without closing it. */
  lemma RetryIsAloneExactly(s: State, op: Op)
    requires RetryIsAlone(s)
    ensures RetryIsAlone(Step(s, op)) <==> s.exited || !(op == Connect(true) && s.ws.None? && s.timer.Some?)
  {
    if op == Connect(true) && !s.exited && s.ws.None? { assert s.created in Step(s, op).live; }
  }

  ghost predicate NoConnectBesideRetry(ops: seq<Op>) {
    forall i :: 0 <= i < |ops| ==>
      !(ops[i] == Connect(true) && Run(ops[..i]).ws.None? && Run(ops[..i]).timer.Some?)
  }

  /** So a client that does not do that has only its current socket, and none while a retry is pending. */
  lemma {:induction false} SingleSocket(ops: seq<Op>)
    requires NoConnectBesideRetry(ops)
    ensures RetryIsAlone(Run(ops)) && |Run(ops).live| <= 1
  {
    if ops != [] {
      var before := ops[..|ops| - 1];
      assert forall i :: 0 <= i < |before| ==> before[i] == ops[i] && before[..i] == ops[..i];
      SingleSocket(before);
      RetryIsAloneExactly(Run(before), ops[|ops| - 1]);
    }
    AtMostOne(Run(ops));
  }

  lemma AtMostOne(s: State)
    requires RetryIsAlone(s)
    ensures |s.live| <= 1
  {
    SubsetSize(s.live, if s.ws.Some? then {s.ws.value} else {});
  }

  lemma SocketCanLeak()
    ensures Run([Connect(false), Connect(true), TimerFires(true)]).live == {0, 1}
  {
    var a, b, c := Connect(false), Connect(true), TimerFires(true);
    assert [a, b, c][..2] == [a, b] && [a, b][..1] == [a] && [a][..0] == [];
    assert Run([a]) == Schedule(INITIAL);
    assert Run([a, b]).live == {0} && Run([a, b]).timer.Some? && Run([a, b]).created == 1;
  }

  // ---- the client object ----

  class DaemonWebSocketClient {
    var ws: Option<nat>
    var live: set<nat>
    var created: nat
    var heartbeatTimer: bool
    var reconnectTimer: Option<int>
    var reconnectDelay: int
    var authenticated: bool
    var shouldReconnect: bool
    var exited: bool
    ghost var retries: nat

    ghost function View(): State
      reads this
    {
      State(ws, live, created, heartbeatTimer, reconnectTimer, reconnectDelay,
            authenticated, shouldReconnect, exited, retries)
    }

    constructor ()
      ensures View() == INITIAL
    {
      ws, live, created, heartbeatTimer, reconnectTimer := None, {}, 0, false, None;
      reconnectDelay, authenticated, shouldReconnect, exited, retries := RECONNECT_DELAY_MS, false, true, false, 0;
    }

    method ConnectToHq(constructed: bool)
      requires !exited
      modifies this
      ensures View() == Step(old(View()), Connect(constructed))
    {
      if ws.Some? { return; }
      if !constructed {
        ScheduleReconnect();
        return;
      }
      ws := Some(created);
      live := live + {created};
      created := created + 1;
    }

    method ScheduleReconnect()
      modifies this
      ensures View() == Schedule(old(View()))
    {
      if reconnectTimer.Some? { return; }
      reconnectTimer := Some(reconnectDelay);
      reconnectDelay := Backoff.Min(reconnectDelay * RECONNECT_BACKOFF_MULTIPLIER, RECONNECT_MAX_DELAY_MS);
      retries := retries + 1;
    }

    method CleanUp()
      modifies this
      ensures View() == Cleanup(old(View()))
    {
      heartbeatTimer := false;
      authenticated := false;
      reconnectTimer := None;
    }

    method HandleOpen(socket: nat)
      requires !exited && socket in live
      modifies this
      ensures View() == Step(old(View()), Opened(socket))
    {
      reconnectDelay := RECONNECT_DELAY_MS;
      retries := 0;
    }

    method HandleAuthAccept(socket: nat)
      requires !exited && socket in live
      modifies this
      ensures View() == Step(old(View()), AuthAccepted(socket))
    {
      authenticated := true;
      heartbeatTimer := true;
    }

    method HandleAuthReject(socket: nat)
      requires !exited && socket in live
      modifies this
      ensures View() == Step(old(View()), AuthRejected(socket))
    {
      authenticated := false;
    }

    method HandleClose(socket: nat, code: int)
      requires !exited && socket in live
      modifies this
      ensures View() == Step(old(View()), SocketClosed(socket, code))
    {
      live := live - {socket};
      CleanUp();
      if code == WS_CLOSE_AUTH_REJECTED {
        exited := true;
        return;
      }
      if shouldReconnect {
        ScheduleReconnect();
      }
    }

    method HandleTimer(constructed: bool)
      requires !exited && reconnectTimer.Some?
      modifies this
      ensures View() == Step(old(View()), TimerFires(constructed))
    {
      reconnectTimer := None;
      ws := None;
      ConnectToHq(constructed);
    }

    method DisconnectFromHq()
      requires !exited
      modifies this
      ensures View() == Step(old(View()), Disconnect)
    {
      shouldReconnect := false;
      CleanUp();
      if ws.Some? {
        live := live - {ws.value};
        ws := None;
      }
    }
  }
}
