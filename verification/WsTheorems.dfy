/** Subscription convergence and progress of the browser's WebSocket manager, over every run. */
module WsTheorems {
  import opened Optional
  import opened Sequences
  import opened WsManager

  // ---- the server's view of a connection ----

  /** A subscription message applied to a set of channels. */
  function Applied(channels: set<Channel>, m: Message): set<Channel> {
    match m
    case Subscribe(c) => channels + {c}
    case Unsubscribe(c) => channels - {c}
    case Ping => channels
    case Other(_) => channels
  }

  /** The channel set of a connection after these messages. */
  function ServerChannels(start: set<Channel>, messages: seq<Message>): set<Channel> {
    if messages == [] then start
    else Applied(ServerChannels(start, messages[..|messages| - 1]), messages[|messages| - 1])
  }

  /** Whether the last subscription message about a channel asks for it; None if there is none. */
  function LastWish(messages: seq<Message>, channel: Channel): Option<bool> {
    if messages == [] then None
    else
      var m := messages[|messages| - 1];
      if m == Subscribe(channel) then Some(true)
      else if m == Unsubscribe(channel) then Some(false)
      else LastWish(messages[..|messages| - 1], channel)
  }

  lemma {:induction false} ServerFollowsLastWish(start: set<Channel>, messages: seq<Message>, channel: Channel)
    ensures channel in ServerChannels(start, messages) <==> LastWish(messages, channel).GetOr(channel in start)
  {
    if messages != [] { ServerFollowsLastWish(start, messages[..|messages| - 1], channel); }
  }

  lemma {:induction false} ServerConcat(start: set<Channel>, a: seq<Message>, b: seq<Message>)
    ensures ServerChannels(start, a + b) == ServerChannels(ServerChannels(start, a), b)
  {
    if b == [] {
      assert a + b == a;
    } else {
      assert (a + b)[..|a + b| - 1] == a + b[..|b| - 1];
      ServerConcat(start, a, b[..|b| - 1]);
    }
  }

  lemma {:induction false} ResubscribingRestores(subscriptions: seq<Channel>)
    ensures ServerChannels({}, Resubscriptions(subscriptions)) == Elems(subscriptions)
  {
    if subscriptions != [] {
      var last := |subscriptions| - 1;
      ResubscriptionsAppend(subscriptions[..last], subscriptions[last]);
      assert subscriptions == subscriptions[..last] + [subscriptions[last]];
      ResubscribingRestores(subscriptions[..last]);
      var messages := Resubscriptions(subscriptions);
      assert messages[..|messages| - 1] == Resubscriptions(subscriptions[..last]);
      assert Elems(subscriptions) == Elems(subscriptions[..last]) + {subscriptions[last]};
    }
  }

  lemma {:induction false} ResubscriptionsAppend(subscriptions: seq<Channel>, c: Channel)
    ensures Resubscriptions(subscriptions + [c]) == Resubscriptions(subscriptions) + [Subscribe(c)]
  {
    if subscriptions == [] {
      assert [] + [c] == [c];
    } else {
      assert (subscriptions + [c])[1..] == subscriptions[1..] + [c];
      ResubscriptionsAppend(subscriptions[1..], c);
    }
  }

  /** The last queued message about each channel, if any, agrees with the subscriptions. */
  ghost predicate QueueAgrees(queue: seq<Message>, subscriptions: set<Channel>) {
    forall c :: LastWish(queue, c).Some? ==> (LastWish(queue, c).value <==> c in subscriptions)
  }

  /** On opening a fresh connection the server ends with exactly the subscriptions if and only if the queue agrees with
      them. */
  lemma OpeningConvergesExactly(s: State)
    requires s.sent == []
    ensures ServerChannels({}, OnOpen(s).sent) == Elems(s.subscriptions) <==>
            QueueAgrees(s.queue, Elems(s.subscriptions))
  {
    var restored := Resubscriptions(s.subscriptions);
    assert OnOpen(s).sent == restored + s.queue;
    ResubscribingRestores(s.subscriptions);
    ServerConcat({}, restored, s.queue);
    var server := ServerChannels(Elems(s.subscriptions), s.queue);
    forall c
      ensures c in server <==> LastWish(s.queue, c).GetOr(c in Elems(s.subscriptions))
    {
      ServerFollowsLastWish(Elems(s.subscriptions), s.queue, c);
    }
    if server == Elems(s.subscriptions) {
      assert QueueAgrees(s.queue, Elems(s.subscriptions));
    }
    if QueueAgrees(s.queue, Elems(s.subscriptions)) {
      assert forall c :: c in server <==> c in Elems(s.subscriptions);
    }
  }

  // ---- convergence over every run ----

  /** The queue agrees while there is no open connection; while there is one, the server will hold exactly the
      subscriptions. */
  ghost predicate Converging(s: State) {
    && Elems(s.subscriptions) == s.handlers.Keys
    && (forall c :: c in s.handlers ==> s.handlers[c] != {})
    && (s.socket.Socket? && s.socket.state.Connecting? ==> s.sent == [])
    && (if IsOpen(s.socket) then s.queue == [] && ServerChannels({}, s.sent) == Elems(s.subscriptions)
        else QueueAgrees(s.queue, Elems(s.subscriptions)))
  }

  lemma WishAfter(queue: seq<Message>, m: Message, c: Channel)
    ensures LastWish(queue + [m], c) ==
            if m == Subscribe(c) then Some(true) else if m == Unsubscribe(c) then Some(false) else LastWish(queue, c)
  {
    assert (queue + [m])[..|queue|] == queue;
  }

  lemma ServerAfter(sent: seq<Message>, m: Message)
    ensures ServerChannels({}, sent + [m]) == Applied(ServerChannels({}, sent), m)
  {
    assert (sent + [m])[..|sent|] == sent;
  }

  lemma QueuedMessageAgrees(queue: seq<Message>, m: Message, before: set<Channel>)
    requires QueueAgrees(queue, before)
    ensures QueueAgrees(queue + [m], Applied(before, m))
  {
    forall k
      ensures LastWish(queue + [m], k) ==
              if m == Subscribe(k) then Some(true) else if m == Unsubscribe(k) then Some(false) else LastWish(queue, k)
    {
      WishAfter(queue, m, k);
    }
  }

  /** Sending the message that reports a change of the subscriptions keeps convergence, unless it is dropped. */
  lemma SendKeepsConverging(c: Config, s: State, m: Message, before: set<Channel>)
    requires Elems(s.subscriptions) == Applied(before, m)
    requires Elems(s.subscriptions) == s.handlers.Keys && forall k :: k in s.handlers ==> s.handlers[k] != {}
    requires s.socket.Socket? && s.socket.state.Connecting? ==> s.sent == []
    requires if IsOpen(s.socket) then s.queue == [] && ServerChannels({}, s.sent) == before
             else QueueAgrees(s.queue, before)
    requires DoSend(c, s, m).dropped == s.dropped
    ensures Converging(DoSend(c, s, m))
  {
    if IsOpen(s.socket) {
      ServerAfter(s.sent, m);
    } else {
      QueuedMessageAgrees(s.queue, m, before);
    }
  }

  lemma SubscribeKeepsConverging(c: Config, s: State, channel: Channel, handler: int)
    requires Converging(s) && DoSubscribe(c, s, channel, handler).dropped == s.dropped
    ensures Converging(DoSubscribe(c, s, channel, handler))
  {
    var known := if channel in s.handlers then s.handlers[channel] else {};
    var t := s.(subscriptions := WithChannel(s.subscriptions, channel),
                handlers := s.handlers[channel := known + {handler}]);
    assert handler in known + {handler};
    assert Elems(t.subscriptions) == Elems(s.subscriptions) + {channel};
    SendKeepsConverging(c, t, Subscribe(channel), Elems(s.subscriptions));
  }

  lemma UnsubscribeKeepsConverging(c: Config, s: State, channel: Channel, handler: int)
    requires Converging(s) && DoUnsubscribe(c, s, channel, handler).dropped == s.dropped
    ensures Converging(DoUnsubscribe(c, s, channel, handler))
  {
    if channel in s.handlers && s.handlers[channel] - {handler} == {} {
      var t := s.(subscriptions := Without(s.subscriptions, {channel}), handlers := s.handlers - {channel});
      assert Elems(t.subscriptions) == Elems(s.subscriptions) - {channel};
      SendKeepsConverging(c, t, Unsubscribe(channel), Elems(s.subscriptions));
    } else if channel in s.handlers {
      assert s.handlers[channel := s.handlers[channel] - {handler}].Keys == s.handlers.Keys;
    }
  }

  predicate IsSubscription(m: Message) { m.Subscribe? || m.Unsubscribe? }

  /** Subscription messages go out only through subscribe and unsubscribe. */
  ghost predicate Orderly(op: Op) {
    !op.Dispose? && (op.Send? ==> !IsSubscription(op.message))
  }

  lemma StepKeepsConverging(c: Config, s: State, op: Op)
    requires Converging(s) && Orderly(op) && Step(c, s, op).dropped == s.dropped
    ensures Converging(Step(c, s, op))
  {
    match op
    case AddHandler(channel, handler) => SubscribeKeepsConverging(c, s, channel, handler);
    case RemoveHandler(channel, handler) => UnsubscribeKeepsConverging(c, s, channel, handler);
    case Send(m) => SendKeepsConverging(c, s, m, Elems(s.subscriptions));
    case PingFires => if s.pinging { SendKeepsConverging(c, s, Ping, Elems(s.subscriptions)); }
    case SocketOpens => if s.socket == Socket(Connecting, true) { OpeningConvergesExactly(s); }
    case SocketCloses(callback) => CloseKeepsConverging(c, s, callback);
    case Connect(constructed) => ConnectKeepsConverging(c, s, constructed);
    case TimerFires(constructed) => if s.timer.Some? { ConnectKeepsConverging(c, s.(timer := None), constructed); }
  }

  lemma CloseKeepsConverging(c: Config, s: State, callback: bool)
    requires Converging(s)
    ensures Converging(Step(c, s, SocketCloses(callback)))
  {
    LeavingOpenConverges(s, Step(c, s, SocketCloses(callback)));
  }

  lemma ConnectKeepsConverging(c: Config, s: State, constructed: bool)
    requires Converging(s)
    ensures Converging(DoConnect(c, s, constructed))
  {
    LeavingOpenConverges(s, DoConnect(c, s, constructed));
  }

  /** Losing or replacing the socket: an open connection left nothing queued. */
  lemma LeavingOpenConverges(s: State, t: State)
    requires Converging(s)
    requires t.queue == s.queue && t.subscriptions == s.subscriptions && t.handlers == s.handlers
    requires IsOpen(t.socket) ==> IsOpen(s.socket) && t.sent == s.sent
    requires t.socket.Socket? && t.socket.state.Connecting? ==>
               t.sent == [] || (t.socket == s.socket && t.sent == s.sent)
    ensures Converging(t)
  {
    EmptyQueueAgrees(Elems(s.subscriptions));
  }

  lemma EmptyQueueAgrees(subscriptions: set<Channel>)
    ensures QueueAgrees([], subscriptions)
  {
  }

  lemma DroppedGrows(c: Config, s: State, op: Op)
    ensures Step(c, s, op).dropped >= s.dropped
  {
  }

  /** Over any run before dispose in which no message was dropped: whenever the connection is open, a server that has
      processed everything sent on it holds exactly the current subscriptions, which are the channels with a handler. */
  lemma {:induction false} RunKeepsConverging(c: Config, ops: seq<Op>)
    requires forall i :: 0 <= i < |ops| ==> Orderly(ops[i])
    requires Run(c, ops).dropped == 0
    ensures Converging(Run(c, ops))
  {
    if ops == [] {
      EmptyQueueAgrees({});
    } else {
      var before := ops[..|ops| - 1];
      assert forall i :: 0 <= i < |before| ==> before[i] == ops[i];
      DroppedGrows(c, Run(c, before), ops[|ops| - 1]);
      RunKeepsConverging(c, before);
      StepKeepsConverging(c, Run(c, before), ops[|ops| - 1]);
    }
  }

  /** A full queue does harm exactly when the refused message contradicts the last queued one about its channel. */
  lemma DropHarmsExactly(c: Config, s: State, m: Message, before: set<Channel>)
    requires IsSubscription(m) && !IsOpen(s.socket) && |s.queue| >= c.maxQueueSize
    requires QueueAgrees(s.queue, before) && Elems(s.subscriptions) == Applied(before, m)
    ensures DoSend(c, s, m) == s.(dropped := s.dropped + 1)
    ensures QueueAgrees(DoSend(c, s, m).queue, Elems(s.subscriptions)) <==>
            LastWish(s.queue, m.channel) != Some(m.Unsubscribe?)
  {
    var now := Elems(s.subscriptions);
    assert forall k :: k != m.channel ==> (k in now <==> k in before);
    assert m.channel in now <==> m.Subscribe?;
  }

  const NARROW := Config(1000, 30000, 1)

  /** Subscribed and unsubscribed offline, with room for one message only. */
  lemma WishIsQueued()
    ensures var s := Run(NARROW, [AddHandler(DaemonChannel, 1), RemoveHandler(DaemonChannel, 1)]);
            s.queue == [Subscribe(DaemonChannel)] && s.subscriptions == [] && s.socket == NoSocket && !s.disposed
  {
    var a, b := AddHandler(DaemonChannel, 1), RemoveHandler(DaemonChannel, 1);
    var s := DoSubscribe(NARROW, INITIAL, DaemonChannel, 1);
    assert [a, b][..1] == [a] && [a][..0] == [];
    assert Run(NARROW, [a]) == s && s.queue == [Subscribe(DaemonChannel)] && s.handlers[DaemonChannel] == {1};
    assert s.handlers[DaemonChannel] - {1} == {};
  }

  lemma OpensWithQueue(s: State, m: Message)
    requires s.queue == [m] && s.subscriptions == [] && s.socket == NoSocket && !s.disposed
    ensures var t := Step(NARROW, Step(NARROW, s, Connect(true)), SocketOpens);
            IsOpen(t.socket) && t.subscriptions == [] && t.sent == [m]
  {
    assert [] + [] + [m] == [m];
  }

  /** With room for one message: subscribing and unsubscribing while offline leaves the server subscribed. */
  lemma DropCanDiverge()
    ensures var ops := [AddHandler(DaemonChannel, 1), RemoveHandler(DaemonChannel, 1), Connect(true), SocketOpens];
            var s := Run(NARROW, ops);
            IsOpen(s.socket) && s.subscriptions == [] && ServerChannels({}, s.sent) == {DaemonChannel}
  {
    var a, b, d, o := AddHandler(DaemonChannel, 1), RemoveHandler(DaemonChannel, 1), Connect(true), SocketOpens;
    assert [a, b, d, o][..3] == [a, b, d] && [a, b, d][..2] == [a, b];
    WishIsQueued();
    OpensWithQueue(Run(NARROW, [a, b]), Subscribe(DaemonChannel));
    assert [Subscribe(DaemonChannel)][..0] == [];
  }

  // ---- progress ----

  ghost predicate Started(ops: seq<Op>) {
    exists i :: 0 <= i < |ops| && ops[i].Connect?
  }

  /** A wired socket that is not closed yet, or a pending retry. */
  ghost predicate WillProgress(s: State) {
    (s.socket.Socket? && s.socket.wired && !s.socket.state.Closed?) || s.timer.Some?
  }

  lemma StartedGrows(ops: seq<Op>)
    requires ops != []
    ensures Started(ops) <==> Started(ops[..|ops| - 1]) || ops[|ops| - 1].Connect?
  {
    var before := ops[..|ops| - 1];
    if Started(before) {
      var i :| 0 <= i < |before| && before[i].Connect?;
      assert ops[i].Connect?;
    }
    if Started(ops) {
      var i :| 0 <= i < |ops| && ops[i].Connect?;
      if i < |before| { assert before[i].Connect?; }
    }
  }

  /** Live sockets are wired: `createSocket` detaches only sockets that are closing or closed. */
  ghost predicate LiveIsWired(s: State) {
    !s.disposed && (IsLive(s.socket) ==> s.socket.wired)
  }

  /** Once connected, and until dispose, the manager always has a socket whose events it will see or a retry pending. */
  lemma {:induction false} NeverStalls(c: Config, ops: seq<Op>)
    requires forall i :: 0 <= i < |ops| ==> !ops[i].Dispose?
    ensures LiveIsWired(Run(c, ops))
    ensures Started(ops) ==> WillProgress(Run(c, ops))
  {
    if ops != [] {
      var before := ops[..|ops| - 1];
      assert forall i :: 0 <= i < |before| ==> before[i] == ops[i];
      NeverStalls(c, before);
      StartedGrows(ops);
      ProgressStep(c, Run(c, before), ops[|ops| - 1]);
    }
  }

  lemma ProgressStep(c: Config, s: State, op: Op)
    requires LiveIsWired(s) && !op.Dispose?
    ensures LiveIsWired(Step(c, s, op))
    ensures WillProgress(s) || op.Connect? ==> WillProgress(Step(c, s, op))
  {
  }
}
