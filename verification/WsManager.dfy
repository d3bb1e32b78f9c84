/** The browser's reconnecting WebSocket manager (src/client/services/ws.ts): subscriptions, the offline queue, and
    resubscribe-then-flush against a server that starts each connection with no channels (src/server/ws/connections.ts).
    A socket becoming open and `onopen`, and a socket becoming closed and `onclose`, are one step each. */
module WsManager {
  import opened Optional
  import opened Sequences
  import Backoff

  datatype Channel = CopilotChannel | TerminalChannel | DaemonChannel | TunnelChannel | PreviewChannel | WorkflowChannel

  datatype Message = Subscribe(channel: Channel) | Unsubscribe(channel: Channel) | Ping | Other(body: string)

  datatype Status = Disconnected | ConnectingStatus | Connected | Reconnecting

  datatype ReadyState = Connecting | Open | Closing | Closed

  /** The newest socket; `wired` means its handlers are still attached. */
  datatype Socket = NoSocket | Socket(state: ReadyState, wired: bool)

  datatype Config = Config(reconnectDelay: int, maxReconnectDelay: int, maxQueueSize: int)

  /** `sent` is what went out on the newest socket; `dropped` counts messages a full queue refused. */
  datatype State = State(
    socket: Socket, status: Status, attempt: nat, timer: Option<int>, pinging: bool, disposed: bool,
    queue: seq<Message>, subscriptions: seq<Channel>, handlers: map<Channel, set<int>>,
    sent: seq<Message>, dropped: nat)

  const INITIAL := State(NoSocket, Disconnected, 0, None, false, false, [], [], map[], [], 0)

  datatype Op =
    | Connect(constructed: bool)
    | Dispose
    | AddHandler(channel: Channel, handler: int)
    | RemoveHandler(channel: Channel, handler: int)
    | Send(message: Message)
    | SocketOpens
    | SocketCloses(callback: bool)
    | TimerFires(constructed: bool)
    | PingFires

  predicate IsOpen(s: Socket) { s.Socket? && s.state.Open? }

  predicate IsLive(s: Socket) { s.Socket? && (s.state.Open? || s.state.Connecting?) }

  // ---- the step function ----

  function DoSend(c: Config, s: State, m: Message): State {
    if IsOpen(s.socket) then s.(sent := s.sent + [m])
    else if |s.queue| < c.maxQueueSize then s.(queue := s.queue + [m])
    else s.(dropped := s.dropped + 1)
  }

  function ScheduleReconnect(c: Config, s: State): State {
    if s.disposed then s
    else s.(status := Reconnecting, attempt := s.attempt + 1,
            timer := Some(Backoff.ClosedForm(c.reconnectDelay, c.maxReconnectDelay, s.attempt)))
  }

  /** The old socket's handlers are detached first; construction may throw. */
  function CreateSocket(c: Config, s: State, constructed: bool): State {
    var detached := if s.socket.NoSocket? then s else s.(socket := s.socket.(wired := false));
    if constructed then detached.(socket := Socket(Connecting, true), sent := []) else ScheduleReconnect(c, detached)
  }

  function DoConnect(c: Config, s: State, constructed: bool): State {
    if s.disposed || IsLive(s.socket) then s
    else CreateSocket(c, s.(status := ConnectingStatus), constructed)
  }

  function WithChannel(subscriptions: seq<Channel>, channel: Channel): seq<Channel> {
    if channel in subscriptions then subscriptions else subscriptions + [channel]
  }

  function DoSubscribe(c: Config, s: State, channel: Channel, handler: int): State {
    var known := if channel in s.handlers then s.handlers[channel] else {};
    DoSend(c, s.(subscriptions := WithChannel(s.subscriptions, channel),
                 handlers := s.handlers[channel := known + {handler}]),
           Subscribe(channel))
  }

  /** The function `subscribe` returned: only removing the last handler unsubscribes. */
  function DoUnsubscribe(c: Config, s: State, channel: Channel, handler: int): State {
    if channel !in s.handlers then s
    else
      var left := s.handlers[channel] - {handler};
      if left != {} then s.(handlers := s.handlers[channel := left])
      else
        DoSend(c, s.(subscriptions := Without(s.subscriptions, {channel}), handlers := s.handlers - {channel}),
               Unsubscribe(channel))
  }

  function Resubscriptions(subscriptions: seq<Channel>): seq<Message> {
    if subscriptions == [] then [] else [Subscribe(subscriptions[0])] + Resubscriptions(subscriptions[1..])
  }

  function OnOpen(s: State): State {
    s.(socket := Socket(Open, true), attempt := 0, status := Connected, pinging := true, queue := [],
       sent := s.sent + Resubscriptions(s.subscriptions) + s.queue)
  }

  function OnClose(c: Config, s: State): State {
    ScheduleReconnect(c, s.(socket := Socket(Closed, true), pinging := false))
  }

  function DoDispose(s: State): State {
    s.(disposed := true, timer := None, pinging := false, socket := NoSocket, status := Disconnected,
       handlers := map[], queue := [])
  }

  /** Events that cannot happen in a state leave it as it is. */
  function Step(c: Config, s: State, op: Op): State {
    match op
    case Connect(constructed) => DoConnect(c, s, constructed)
    case Dispose => DoDispose(s)
    case AddHandler(channel, handler) => DoSubscribe(c, s, channel, handler)
    case RemoveHandler(channel, handler) => DoUnsubscribe(c, s, channel, handler)
    case Send(m) => DoSend(c, s, m)
    case SocketOpens => if s.socket.Socket? && s.socket.state.Connecting? && s.socket.wired then OnOpen(s) else s
    case SocketCloses(callback) =>
      if s.socket.NoSocket? || s.socket.state.Closed? then s
      else if !callback then s.(socket := s.socket.(state := Closing))
      else if s.socket.wired then OnClose(c, s)
      else s.(socket := s.socket.(state := Closed))
    case TimerFires(constructed) => if s.timer.None? then s else DoConnect(c, s.(timer := None), constructed)
    case PingFires => if s.pinging then DoSend(c, s, Ping) else s
  }

  function Run(c: Config, ops: seq<Op>): State {
    if ops == [] then INITIAL else Step(c, Run(c, ops[..|ops| - 1]), ops[|ops| - 1])
  }

  // ---- the manager object ----

  class WebSocketManager {
    var socket: Socket
    var status: Status
    var reconnectAttempt: nat
    var reconnectTimer: Option<int>
    var pinging: bool
    var disposed: bool
    var messageQueue: seq<Message>
    var subscriptions: seq<Channel>
    var channelHandlers: map<Channel, set<int>>
    var wire: seq<Message>
    var dropped: nat
    const config: Config

    ghost function View(): State
      reads this
    {
      State(socket, status, reconnectAttempt, reconnectTimer, pinging, disposed, messageQueue, subscriptions,
            channelHandlers, wire, dropped)
    }

    constructor (config: Config)
      ensures View() == INITIAL && this.config == config
    {
      this.config := config;
      socket, status, reconnectAttempt := NoSocket, Disconnected, 0;
      reconnectTimer, pinging, disposed := None, false, false;
      messageQueue, subscriptions, channelHandlers, wire, dropped := [], [], map[], [], 0;
    }

    method ConnectSocket(constructed: bool)
      modifies this
      ensures View() == DoConnect(config, old(View()), constructed)
    {
      if disposed { return; }
      if socket.Socket? && (socket.state.Open? || socket.state.Connecting?) { return; }
      status := ConnectingStatus;
      if socket.Socket? {
        socket := socket.(wired := false);
      }
      if !constructed {
        ScheduleRetry();
        return;
      }
      socket := Socket(Connecting, true);
      wire := [];
    }

    method ScheduleRetry()
      modifies this
      ensures View() == ScheduleReconnect(config, old(View()))
    {
      if disposed { return; }
      status := Reconnecting;
      var delay := Backoff.Min(config.reconnectDelay * Backoff.Pow2(reconnectAttempt), config.maxReconnectDelay);
      reconnectTimer := Some(delay);
      reconnectAttempt := reconnectAttempt + 1;
    }

    method DisposeAll()
      modifies this
      ensures View() == DoDispose(old(View()))
    {
      disposed := true;
      reconnectTimer, pinging := None, false;
      socket := NoSocket;
      status := Disconnected;
      channelHandlers, messageQueue := map[], [];
    }

    method SendMessage(message: Message)
      modifies this
      ensures View() == DoSend(config, old(View()), message)
    {
      if socket.Socket? && socket.state.Open? {
        wire := wire + [message];
      } else if |messageQueue| < config.maxQueueSize {
        messageQueue := messageQueue + [message];
      } else {
        dropped := dropped + 1;
      }
    }

    method SubscribeTo(channel: Channel, handler: int)
      modifies this
      ensures View() == DoSubscribe(config, old(View()), channel, handler)
    {
      if channel !in subscriptions {
        subscriptions := subscriptions + [channel];
      }
      var known := if channel in channelHandlers then channelHandlers[channel] else {};
      channelHandlers := channelHandlers[channel := known + {handler}];
      SendMessage(Subscribe(channel));
    }

    method UnsubscribeFrom(channel: Channel, handler: int)
      modifies this
      ensures View() == DoUnsubscribe(config, old(View()), channel, handler)
    {
      if channel in channelHandlers {
        var left := channelHandlers[channel] - {handler};
        if |left| == 0 {
          channelHandlers := channelHandlers - {channel};
          subscriptions := Without(subscriptions, {channel});
          SendMessage(Unsubscribe(channel));
        } else {
          channelHandlers := channelHandlers[channel := left];
        }
      }
    }

    method HandleOpen()
      requires socket == Socket(Connecting, true)
      modifies this
      ensures View() == OnOpen(old(View()))
    {
      socket := Socket(Open, true);
      reconnectAttempt := 0;
      status := Connected;
      Resubscribe();
      FlushQueue();
      pinging := true;
    }

    method Resubscribe()
      requires IsOpen(socket)
      modifies this
      ensures View() == old(View()).(sent := old(wire) + Resubscriptions(old(subscriptions)))
    {
      for i := 0 to |subscriptions|
        invariant View() == old(View()).(sent := wire)
        invariant wire + Resubscriptions(subscriptions[i..]) == old(wire) + Resubscriptions(subscriptions)
      {
        ConcatAssociates(wire, [Subscribe(subscriptions[i])], Resubscriptions(subscriptions[i + 1..]));
        SendMessage(Subscribe(subscriptions[i]));
      }
    }

    method FlushQueue()
      requires IsOpen(socket)
      modifies this
      ensures View() == old(View()).(sent := old(wire) + old(messageQueue), queue := [])
    {
      var queued := messageQueue;
      messageQueue := [];
      for i := 0 to |queued|
        invariant View() == old(View()).(sent := old(wire) + queued[..i], queue := [])
      {
        SendMessage(queued[i]);
      }
    }

    method HandleClose()
      requires socket.Socket? && socket.wired
      modifies this
      ensures View() == OnClose(config, old(View()))
    {
      socket := Socket(Closed, true);
      pinging := false;
      if !disposed {
        ScheduleRetry();
      }
    }

    method HandleTimer(constructed: bool)
      requires reconnectTimer.Some?
      modifies this
      ensures View() == Step(config, old(View()), TimerFires(constructed))
    {
      reconnectTimer := None;
      ConnectSocket(constructed);
    }
  }
}
