/** The browser's WebSocket manager told by the calls made on it: which handlers and subscriptions there are, which
    messages went out and in what order, when a retry is due, and what the status says. */
module WsHistory {
  import opened Optional
  import opened Sequences
  import opened WsManager
  import opened WsTheorems
  import Backoff

  // ---- handlers and subscriptions ----

  /** A handler is given up by the function that its `subscribe` returned, and by dispose. */
  predicate GivesUp(op: Op, channel: Channel, handler: int) {
    op == Dispose || op == RemoveHandler(channel, handler)
  }

  /** The handler was added to the channel and not given up since. */
  ghost predicate IsHandler(ops: seq<Op>, channel: Channel, handler: int) {
    exists i :: 0 <= i < |ops| && ops[i] == AddHandler(channel, handler) &&
      forall j :: i < j < |ops| ==> !GivesUp(ops[j], channel, handler)
  }

  ghost predicate HasHandler(ops: seq<Op>, channel: Channel) {
    exists handler :: IsHandler(ops, channel, handler)
  }

  lemma IsHandlerSnoc(before: seq<Op>, op: Op, channel: Channel, handler: int)
    ensures IsHandler(before + [op], channel, handler) <==>
            op == AddHandler(channel, handler) || (IsHandler(before, channel, handler) &&
              !GivesUp(op, channel, handler))
  {
    var ops := before + [op];
    assert ops[|before|] == op;
    assert forall i :: 0 <= i < |before| ==> ops[i] == before[i];
    if IsHandler(before, channel, handler) && !GivesUp(op, channel, handler) {
      var i :| 0 <= i < |before| && before[i] == AddHandler(channel, handler) &&
        forall j :: i < j < |before| ==> !GivesUp(before[j], channel, handler);
      assert ops[i] == AddHandler(channel, handler);
    }
    if IsHandler(ops, channel, handler) && op != AddHandler(channel, handler) {
      var i :| 0 <= i < |ops| && ops[i] == AddHandler(channel, handler) &&
        forall j :: i < j < |ops| ==> !GivesUp(ops[j], channel, handler);
      assert i < |before| && before[i] == AddHandler(channel, handler);
      assert forall j :: i < j < |before| ==> !GivesUp(ops[j], channel, handler);
    }
  }

  /** The state holds this handler for the channel. */
  predicate Holds(s: State, channel: Channel, handler: int) {
    channel in s.handlers && handler in s.handlers[channel]
  }

  ghost predicate NoneIsEmpty(s: State) {
    forall channel :: channel in s.handlers ==> s.handlers[channel] != {}
  }

  lemma SendingKeepsHandlers(c: Config, s: State, m: Message)
    ensures DoSend(c, s, m).handlers == s.handlers && DoSend(c, s, m).subscriptions == s.subscriptions
  {
  }

  lemma AddStep(c: Config, s: State, ch: Channel, h: int, channel: Channel, handler: int)
    requires NoneIsEmpty(s)
    ensures var t := DoSubscribe(c, s, ch, h);
            && NoneIsEmpty(t)
            && (Holds(t, channel, handler) <==> (ch == channel && h == handler) || Holds(s, channel, handler))
  {
    var known := if ch in s.handlers then s.handlers[ch] else {};
    assert h in known + {h};
    assert DoSubscribe(c, s, ch, h).handlers == s.handlers[ch := known + {h}];
  }

  lemma RemovedFrom(c: Config, s: State, ch: Channel, h: int)
    ensures DoUnsubscribe(c, s, ch, h).handlers ==
            if ch !in s.handlers then s.handlers
            else if s.handlers[ch] - {h} == {} then s.handlers - {ch}
            else s.handlers[ch := s.handlers[ch] - {h}]
    ensures DoUnsubscribe(c, s, ch, h).subscriptions ==
            if ch in s.handlers && s.handlers[ch] - {h} == {} then Without(s.subscriptions, {ch}) else s.subscriptions
  {
  }

  lemma RemoveStep(c: Config, s: State, ch: Channel, h: int, channel: Channel, handler: int)
    requires NoneIsEmpty(s)
    ensures var t := DoUnsubscribe(c, s, ch, h);
            && NoneIsEmpty(t)
            && (Holds(t, channel, handler) <==> !(ch == channel && h == handler) && Holds(s, channel, handler))
  {
    RemovedFrom(c, s, ch, h);
    var t := DoUnsubscribe(c, s, ch, h);
    assert channel != ch ==> (channel in t.handlers <==> channel in s.handlers);
    if ch in s.handlers {
      assert handler in s.handlers[ch] - {h} <==> handler in s.handlers[ch] && handler != h;
    }
  }

  lemma OtherOpsKeepHandlers(c: Config, s: State, op: Op)
    requires !op.AddHandler? && !op.RemoveHandler? && !op.Dispose?
    ensures Step(c, s, op).handlers == s.handlers && Step(c, s, op).subscriptions == s.subscriptions
  {
  }

  lemma HandlerStep(c: Config, s: State, op: Op, channel: Channel, handler: int)
    requires NoneIsEmpty(s)
    ensures NoneIsEmpty(Step(c, s, op))
    ensures Holds(Step(c, s, op), channel, handler) <==>
            op == AddHandler(channel, handler) || (Holds(s, channel, handler) && !GivesUp(op, channel, handler))
  {
    match op
    case AddHandler(ch, h) => AddStep(c, s, ch, h, channel, handler);
    case RemoveHandler(ch, h) => RemoveStep(c, s, ch, h, channel, handler);
    case Dispose =>
    case _ => OtherOpsKeepHandlers(c, s, op);
  }

  /** After any operations whatever, a channel's handlers are those added to it and not given up since, and a channel is
      kept only while it has one. */
  lemma {:induction false} HandlersFollowHistory(c: Config, ops: seq<Op>)
    ensures NoneIsEmpty(Run(c, ops))
    ensures forall channel, handler :: Holds(Run(c, ops), channel, handler) <==> IsHandler(ops, channel, handler)
    ensures forall channel :: channel in Run(c, ops).handlers <==> HasHandler(ops, channel)
  {
    if ops != [] {
      var before, op := ops[..|ops| - 1], ops[|ops| - 1];
      assert ops == before + [op];
      HandlersFollowHistory(c, before);
      forall channel, handler
        ensures Holds(Run(c, ops), channel, handler) <==> IsHandler(ops, channel, handler)
        ensures NoneIsEmpty(Run(c, ops))
      {
        HandlerStep(c, Run(c, before), op, channel, handler);
        IsHandlerSnoc(before, op, channel, handler);
      }
      assert NoneIsEmpty(Run(c, ops)) by { HandlerStep(c, Run(c, before), op, DaemonChannel, 0); }
    }
    KeptWhileHeld(Run(c, ops), ops);
  }

  lemma AnyOf(handlers: set<int>) returns (handler: int)
    requires handlers != {}
    ensures handler in handlers
  {
    assert (forall h :: h !in handlers) ==> handlers == {};
    handler :| handler in handlers;
  }

  lemma KeptWhileHeld(s: State, ops: seq<Op>)
    requires NoneIsEmpty(s)
    requires forall channel, handler :: Holds(s, channel, handler) <==> IsHandler(ops, channel, handler)
    ensures forall channel :: channel in s.handlers <==> HasHandler(ops, channel)
  {
    forall channel
      ensures channel in s.handlers <==> HasHandler(ops, channel)
    {
      if channel in s.handlers {
        var handler := AnyOf(s.handlers[channel]);
        assert Holds(s, channel, handler);
      }
      if HasHandler(ops, channel) {
        var handler :| IsHandler(ops, channel, handler);
        assert Holds(s, channel, handler);
      }
    }
  }

  /** The channels with a handler, in the order in which they came to have one. */
  ghost function Listed(ops: seq<Op>): seq<Channel> {
    if ops == [] then []
    else
      var before, op := ops[..|ops| - 1], ops[|ops| - 1];
      if op.AddHandler? && !HasHandler(before, op.channel) then Listed(before) + [op.channel]
      else if op.RemoveHandler? && !HasHandler(ops, op.channel) then Without(Listed(before), {op.channel})
      else Listed(before)
  }

  ghost predicate NeverDisposed(ops: seq<Op>) {
    forall i :: 0 <= i < |ops| ==> !ops[i].Dispose?
  }

  lemma NeverDisposedBefore(ops: seq<Op>)
    requires ops != [] && NeverDisposed(ops)
    ensures NeverDisposed(ops[..|ops| - 1]) && !ops[|ops| - 1].Dispose?
  {
    assert forall i :: 0 <= i < |ops| - 1 ==> ops[..|ops| - 1][i] == ops[i];
  }

  lemma AddLists(c: Config, s: State, channel: Channel, handler: int)
    requires Elems(s.subscriptions) == s.handlers.Keys
    ensures DoSubscribe(c, s, channel, handler).subscriptions ==
            if channel in s.handlers then s.subscriptions else s.subscriptions + [channel]
  {
    assert channel in s.subscriptions <==> channel in Elems(s.subscriptions);
  }

  lemma RemoveUnlists(c: Config, s: State, channel: Channel, handler: int)
    requires Elems(s.subscriptions) == s.handlers.Keys
    ensures var t := DoUnsubscribe(c, s, channel, handler);
            t.subscriptions == if channel in t.handlers then s.subscriptions else Without(s.subscriptions, {channel})
  {
    RemovedFrom(c, s, channel, handler);
    if channel !in s.handlers {
      assert channel !in Elems(s.subscriptions);
      WithoutNothing(s.subscriptions, {channel});
    }
  }

  lemma ListedStep(c: Config, ops: seq<Op>)
    requires ops != [] && !ops[|ops| - 1].Dispose?
    requires var before := ops[..|ops| - 1];
             Run(c, before).subscriptions == Listed(before) && Elems(Listed(before)) == Run(c, before).handlers.Keys
    ensures Run(c, ops).subscriptions == Listed(ops)
  {
    var before, op := ops[..|ops| - 1], ops[|ops| - 1];
    HandlersFollowHistory(c, ops);
    HandlersFollowHistory(c, before);
    match op
    case AddHandler(channel, handler) => AddLists(c, Run(c, before), channel, handler);
    case RemoveHandler(channel, handler) => RemoveUnlists(c, Run(c, before), channel, handler);
    case _ => OtherOpsKeepHandlers(c, Run(c, before), op);
  }

  lemma ListedChannels(before: seq<Op>, op: Op, channel: Channel)
    requires !op.Dispose? && (channel in Listed(before) <==> HasHandler(before, channel))
    ensures channel in Listed(before + [op]) <==> HasHandler(before + [op], channel)
  {
    HasHandlerSnoc(before, op, channel);
    ListedSnoc(before, op);
  }

  lemma ListedSnoc(before: seq<Op>, op: Op)
    ensures Listed(before + [op]) ==
            if op.AddHandler? && !HasHandler(before, op.channel) then Listed(before) + [op.channel]
            else if op.RemoveHandler? && !HasHandler(before + [op], op.channel) then
              Without(Listed(before), {op.channel})
            else Listed(before)
  {
    assert (before + [op])[..|before|] == before;
  }

  lemma HasHandlerSnoc(before: seq<Op>, op: Op, channel: Channel)
    requires !op.Dispose?
    ensures !op.RemoveHandler? || op.channel != channel ==>
            (HasHandler(before + [op], channel) <==>
             HasHandler(before, channel) || (op.AddHandler? && op.channel == channel))
    ensures HasHandler(before + [op], channel) && op.RemoveHandler? ==> HasHandler(before, channel)
  {
    if op.AddHandler? && op.channel == channel {
      IsHandlerSnoc(before, op, channel, op.handler);
    }
    if HasHandler(before, channel) {
      var handler :| IsHandler(before, channel, handler);
      IsHandlerSnoc(before, op, channel, handler);
    }
    if HasHandler(before + [op], channel) {
      var handler :| IsHandler(before + [op], channel, handler);
      IsHandlerSnoc(before, op, channel, handler);
    }
  }

  lemma ListedOnce(before: seq<Op>, op: Op)
    requires NoDup(Listed(before)) && forall channel :: channel in Listed(before) <==> HasHandler(before, channel)
    ensures NoDup(Listed(before + [op]))
  {
    ListedSnoc(before, op);
    match op
    case AddHandler(channel, _) => if channel !in Listed(before) { NoDupAppend(Listed(before), channel); }
    case RemoveHandler(channel, _) => WithoutKeepsNoDup(Listed(before), {channel});
    case _ =>
  }

  /** Until dispose, the subscriptions are exactly the channels with a handler, each once, in that order. */
  lemma {:induction false} SubscriptionsFollowHistory(c: Config, ops: seq<Op>)
    requires NeverDisposed(ops)
    ensures Run(c, ops).subscriptions == Listed(ops)
    ensures forall channel :: channel in Listed(ops) <==> HasHandler(ops, channel)
    ensures NoDup(Listed(ops))
  {
    if ops != [] {
      var before := ops[..|ops| - 1];
      NeverDisposedBefore(ops);
      SubscriptionsFollowHistory(c, before);
      HandlersFollowHistory(c, before);
      assert Elems(Listed(before)) == Run(c, before).handlers.Keys;
      ListedStep(c, ops);
      var op := ops[|ops| - 1];
      assert ops == before + [op];
      ListedOnce(before, op);
      forall channel ensures channel in Listed(before + [op]) <==> HasHandler(before + [op], channel) {
        ListedChannels(before, op, channel);
      }
    }
  }

  /** Over any run before dispose in which no message was dropped: whenever the connection is open, a server that has
      processed everything sent on it holds a channel if and only if some handler was added to it and not given up
      since. */
  lemma SubscriptionsConverge(c: Config, ops: seq<Op>)
    requires forall i :: 0 <= i < |ops| ==> Orderly(ops[i])
    requires Run(c, ops).dropped == 0 && IsOpen(Run(c, ops).socket)
    ensures forall channel :: channel in ServerChannels({}, Run(c, ops).sent) <==> HasHandler(ops, channel)
  {
    RunKeepsConverging(c, ops);
    SubscriptionsFollowHistory(c, ops);
    var s := Run(c, ops);
    assert forall channel :: channel in Elems(s.subscriptions) <==> channel in s.subscriptions;
  }

  // ---- messages ----

  /** The messages an operation asks to be sent: a subscription for every handler added, an unsubscription when the last
      handler of a channel goes, a `send`, and a ping. */
  ghost function Requested(before: seq<Op>, op: Op, pinging: bool): seq<Message> {
    match op
    case AddHandler(channel, _) => [Subscribe(channel)]
    case RemoveHandler(channel, _) =>
      if HasHandler(before, channel) && !HasHandler(before + [op], channel) then [Unsubscribe(channel)] else []
    case Send(m) => [m]
    case PingFires => if pinging then [Ping] else []
    case _ => []
  }

  /** What is asked for is refused exactly when there is no open connection and the queue is full. */
  predicate Refuses(c: Config, s: State) {
    !(s.socket.Socket? && s.socket.state == Open) && |s.queue| >= c.maxQueueSize
  }

  /** Everything asked for and not refused, in order. */
  ghost function Accepted(c: Config, ops: seq<Op>): seq<Message> {
    if ops == [] then []
    else
      var before, op := ops[..|ops| - 1], ops[|ops| - 1];
      Accepted(c, before) +
      if Refuses(c, Run(c, before)) then [] else Requested(before, op, Run(c, before).pinging)
  }

  /** The step opens the connection. */
  predicate Opens(s: State, op: Op) {
    op == SocketOpens && s.socket == Socket(Connecting, true)
  }

  /** What a step put on the wire: a new socket starts with nothing sent. */
  function Emitted(s: State, t: State): seq<Message> {
    if s.sent <= t.sent then t.sent[|s.sent|..] else t.sent
  }

  /** What went out over all connections, without the subscriptions repeated when a connection opens. */
  ghost function Delivered(c: Config, ops: seq<Op>): seq<Message> {
    if ops == [] then []
    else
      var before, op := ops[..|ops| - 1], ops[|ops| - 1];
      var s := Run(c, before);
      var out := Emitted(s, Step(c, s, op));
      Delivered(c, before) + if Opens(s, op) && |Listed(before)| <= |out| then out[|Listed(before)|..] else out
  }

  /** Nothing is sent before a socket opens, and nothing stays queued once it has. */
  ghost predicate QueueIsOffline(s: State) {
    && (s.socket.Socket? && s.socket.state.Connecting? ==> s.sent == [])
    && (IsOpen(s.socket) ==> s.queue == [])
  }

  lemma ResubscriptionsAre(subscriptions: seq<Channel>)
    ensures |Resubscriptions(subscriptions)| == |subscriptions|
    ensures forall i :: 0 <= i < |subscriptions| ==> Resubscriptions(subscriptions)[i] == Subscribe(subscriptions[i])
  {
    if subscriptions != [] {
      ResubscriptionsAre(subscriptions[1..]);
    }
  }

  /** What a step puts on the wire and leaves queued, after what was queued before it. */
  ghost predicate PassesOn(s: State, t: State, requested: seq<Message>) {
    Emitted(s, t) + t.queue == s.queue + requested
  }

  lemma SendPassesOn(c: Config, s: State, s0: State, m: Message)
    requires QueueIsOffline(s) && s0.sent == s.sent && s0.queue == s.queue && s0.socket == s.socket
    ensures QueueIsOffline(DoSend(c, s0, m))
    ensures PassesOn(s, DoSend(c, s0, m), if Refuses(c, s) then [] else [m])
    ensures DoSend(c, s0, m).dropped == s0.dropped + if Refuses(c, s) then 1 else 0
  {
  }

  lemma QuietPassesOn(s: State, t: State)
    requires t.queue == s.queue && (t.sent == s.sent || t.sent == [])
    ensures PassesOn(s, t, [])
  {
  }

  lemma UnsubscribePassesOn(c: Config, s: State, channel: Channel, handler: int)
    requires QueueIsOffline(s)
    ensures var t := DoUnsubscribe(c, s, channel, handler);
            var asked := if channel in s.handlers && channel !in t.handlers then [Unsubscribe(channel)] else [];
            && QueueIsOffline(t)
            && PassesOn(s, t, if Refuses(c, s) then [] else asked)
            && t.dropped == s.dropped + if Refuses(c, s) then |asked| else 0
  {
    RemovedFrom(c, s, channel, handler);
    if channel in s.handlers && s.handlers[channel] - {handler} == {} {
      var s0 := s.(subscriptions := Without(s.subscriptions, {channel}), handlers := s.handlers - {channel});
      SendPassesOn(c, s, s0, Unsubscribe(channel));
    }
  }

  lemma ConnectPassesOn(c: Config, s: State, timer: Option<int>, constructed: bool)
    requires QueueIsOffline(s)
    ensures var t := DoConnect(c, s.(timer := timer), constructed);
            QueueIsOffline(t) && PassesOn(s, t, []) && t.dropped == s.dropped
  {
    QuietPassesOn(s, DoConnect(c, s.(timer := timer), constructed));
  }

  lemma ClosePassesOn(c: Config, s: State, callback: bool)
    requires QueueIsOffline(s)
    ensures var t := Step(c, s, SocketCloses(callback));
            QueueIsOffline(t) && PassesOn(s, t, []) && t.dropped == s.dropped
  {
    QuietPassesOn(s, Step(c, s, SocketCloses(callback)));
  }

  /** Any step but dispose and the opening of a connection passes on exactly what it asks for, unless refused. */
  lemma StepPassesOn(c: Config, before: seq<Op>, op: Op)
    requires var s := Run(c, before); QueueIsOffline(s) && !Opens(s, op) && !op.Dispose?
    ensures var s := Run(c, before);
            var t, asked := Step(c, s, op), Requested(before, op, s.pinging);
            && QueueIsOffline(t)
            && PassesOn(s, t, if Refuses(c, s) then [] else asked)
            && t.dropped == s.dropped + if Refuses(c, s) then |asked| else 0
  {
    var s := Run(c, before);
    match op
    case AddHandler(channel, handler) =>
      var known := if channel in s.handlers then s.handlers[channel] else {};
      SendPassesOn(c, s, s.(subscriptions := WithChannel(s.subscriptions, channel),
                            handlers := s.handlers[channel := known + {handler}]), Subscribe(channel));
    case RemoveHandler(channel, handler) =>
      UnsubscribePassesOn(c, s, channel, handler);
      HandlersFollowHistory(c, before);
      assert (before + [op])[..|before|] == before;
      HandlersFollowHistory(c, before + [op]);
    case Send(m) => SendPassesOn(c, s, s, m);
    case PingFires => if s.pinging { SendPassesOn(c, s, s, Ping); } else { QuietPassesOn(s, s); }
    case Connect(constructed) => ConnectPassesOn(c, s, s.timer, constructed);
    case TimerFires(constructed) =>
      if s.timer.Some? { ConnectPassesOn(c, s, None, constructed); } else { QuietPassesOn(s, s); }
    case SocketCloses(callback) => ClosePassesOn(c, s, callback);
    case SocketOpens => QuietPassesOn(s, s);
  }

  /** What a step sends that opens a connection: the subscriptions again, then the queue. */
  ghost predicate Restores(s: State, t: State, listed: seq<Channel>) {
    && |Emitted(s, t)| == |listed| + |s.queue|
    && (forall i :: 0 <= i < |listed| ==> Emitted(s, t)[i] == Subscribe(listed[i]))
    && Emitted(s, t)[|listed|..] == s.queue
  }

  lemma OpeningEmits(s: State, listed: seq<Channel>)
    requires s.sent == [] && s.subscriptions == listed
    ensures Restores(s, OnOpen(s), listed)
  {
    var restored := Resubscriptions(listed);
    ResubscriptionsAre(listed);
    assert OnOpen(s).sent == restored + s.queue;
    ConcatSuffix(restored, s.queue);
  }

  /** Opening a connection sends one subscription for each channel that has a handler, in the order in which they came
      to have one, and then the queue. */
  lemma OpeningResubscribes(c: Config, ops: seq<Op>)
    requires NeverDisposed(ops) && QueueIsOffline(Run(c, ops)) && Opens(Run(c, ops), SocketOpens)
    ensures var s, t := Run(c, ops), Step(c, Run(c, ops), SocketOpens);
            Restores(s, t, Listed(ops)) && QueueIsOffline(t) && t.queue == [] && t.dropped == s.dropped
  {
    SubscriptionsFollowHistory(c, ops);
    OpeningEmits(Run(c, ops), Listed(ops));
  }

  /** Until dispose, what went out over all connections, followed by the queue, is everything that was asked for and not
      refused, in the order in which it was asked for. */
  lemma {:induction false} MessagesGoOutInOrder(c: Config, ops: seq<Op>)
    requires NeverDisposed(ops)
    ensures QueueIsOffline(Run(c, ops))
    ensures Delivered(c, ops) + Run(c, ops).queue == Accepted(c, ops)
  {
    if ops != [] {
      var before, op := ops[..|ops| - 1], ops[|ops| - 1];
      NeverDisposedBefore(ops);
      MessagesGoOutInOrder(c, before);
      if Opens(Run(c, before), op) {
        OpeningResubscribes(c, before);
      } else {
        StepPassesOn(c, before, op);
      }
      DeliveredStep(c, ops);
    }
  }

  lemma DeliveredStep(c: Config, ops: seq<Op>)
    requires ops != []
    requires var before, op := ops[..|ops| - 1], ops[|ops| - 1];
             var s := Run(c, before);
             var t := Step(c, s, op);
             && Delivered(c, before) + s.queue == Accepted(c, before)
             && if Opens(s, op) then Restores(s, t, Listed(before)) && t.queue == []
                else PassesOn(s, t, if Refuses(c, s) then [] else Requested(before, op, s.pinging))
    ensures Delivered(c, ops) + Run(c, ops).queue == Accepted(c, ops)
  {
    var before, op := ops[..|ops| - 1], ops[|ops| - 1];
    var s := Run(c, before);
    var t := Step(c, s, op);
    if !Opens(s, op) {
      ConcatAssociates(Delivered(c, before), Emitted(s, t), t.queue);
      ConcatAssociates(Delivered(c, before), s.queue, if Refuses(c, s) then [] else Requested(before, op, s.pinging));
    }
  }

  /** Everything asked for, in order. */
  ghost function AllRequested(c: Config, ops: seq<Op>): seq<Message> {
    if ops == [] then []
    else
      var before, op := ops[..|ops| - 1], ops[|ops| - 1];
      AllRequested(c, before) + Requested(before, op, Run(c, before).pinging)
  }

  /** So while the queue never was full when it was needed, nothing is lost, repeated or reordered. */
  lemma {:induction false} NothingIsLost(c: Config, ops: seq<Op>)
    requires NeverDisposed(ops) && Run(c, ops).dropped == 0
    ensures Delivered(c, ops) + Run(c, ops).queue == AllRequested(c, ops)
    ensures Accepted(c, ops) == AllRequested(c, ops)
  {
    MessagesGoOutInOrder(c, ops);
    if ops != [] {
      var before, op := ops[..|ops| - 1], ops[|ops| - 1];
      NeverDisposedBefore(ops);
      DroppedGrows(c, Run(c, before), op);
      NothingIsLost(c, before);
      MessagesGoOutInOrder(c, before);
      if !Opens(Run(c, before), op) { StepPassesOn(c, before, op); }
    }
  }

  /** The queue never holds more than its maximum. */
  lemma {:induction false} QueueIsBounded(c: Config, ops: seq<Op>)
    ensures |Run(c, ops).queue| <= if c.maxQueueSize > 0 then c.maxQueueSize else 0
  {
    if ops != [] {
      QueueIsBounded(c, ops[..|ops| - 1]);
      QueueStep(c, Run(c, ops[..|ops| - 1]), ops[|ops| - 1]);
    }
  }

  lemma QueueStep(c: Config, s: State, op: Op)
    ensures |Step(c, s, op).queue| <= |s.queue| || |Step(c, s, op).queue| <= c.maxQueueSize
  {
  }

  // ---- retries, status and dispose ----

  ghost predicate IsDisposed(ops: seq<Op>) {
    exists i :: 0 <= i < |ops| && ops[i].Dispose?
  }

  lemma IsDisposedSnoc(ops: seq<Op>)
    requires ops != []
    ensures IsDisposed(ops) <==> IsDisposed(ops[..|ops| - 1]) || ops[|ops| - 1].Dispose?
  {
    var before := ops[..|ops| - 1];
    if IsDisposed(before) {
      var i :| 0 <= i < |before| && before[i].Dispose?;
      assert ops[i].Dispose?;
    }
    if IsDisposed(ops) {
      var i :| 0 <= i < |ops| && ops[i].Dispose?;
      if i < |before| { assert before[i].Dispose?; }
    }
  }

  /** A retry becomes due when a socket that is still listened to closes, and when a socket is wanted but cannot be
      constructed. */
  predicate NeedsRetry(s: State, op: Op) {
    !s.disposed &&
    match op
    case SocketCloses(true) => s.socket.Socket? && s.socket.wired && s.socket.state != Closed
    case Connect(false) => s.socket.NoSocket? || s.socket.state == Closing || s.socket.state == Closed
    case TimerFires(false) =>
      s.timer.Some? && (s.socket.NoSocket? || s.socket.state == Closing || s.socket.state == Closed)
    case _ => false
  }

  /** The retries that became due since a connection last opened. */
  function Retries(c: Config, ops: seq<Op>): nat {
    if ops == [] then 0
    else
      var s, op := Run(c, ops[..|ops| - 1]), ops[|ops| - 1];
      if Opens(s, op) then 0
      else Retries(c, ops[..|ops| - 1]) + if NeedsRetry(s, op) then 1 else 0
  }

  /** `min(base * 2^n, cap)` */
  function RetryDelay(c: Config, n: nat): int {
    var delay := c.reconnectDelay * Backoff.Pow2(n);
    if delay <= c.maxReconnectDelay then delay else c.maxReconnectDelay
  }

  lemma DocumentedDelays(n: nat, maxQueueSize: int)
    ensures RetryDelay(Config(1000, 30000, maxQueueSize), n) ==
            if n == 0 then 1000 else if n == 1 then 2000 else if n == 2 then 4000 else if n == 3 then 8000
            else if n == 4 then 16000 else 30000
  {
    Powers();
    if n >= 5 { PowersGrow(n); }
  }

  lemma Powers()
    ensures Backoff.Pow2(0) == 1 && Backoff.Pow2(1) == 2 && Backoff.Pow2(2) == 4 && Backoff.Pow2(3) == 8
    ensures Backoff.Pow2(4) == 16
  {
    assert Backoff.Pow2(2) == 2 * Backoff.Pow2(1) && Backoff.Pow2(3) == 2 * Backoff.Pow2(2);
  }

  lemma {:induction false} PowersGrow(n: nat)
    requires n >= 5
    ensures Backoff.Pow2(n) >= 32
  {
    if n == 5 { Powers(); } else { PowersGrow(n - 1); }
  }

  ghost predicate IsAboutSocket(op: Op) {
    op.Connect? || op.TimerFires? || op.SocketOpens? || op.SocketCloses?
  }

  lemma OtherOpsKeepConnection(c: Config, s: State, op: Op)
    requires !IsAboutSocket(op) && !op.Dispose?
    ensures var t := Step(c, s, op);
            && t.attempt == s.attempt && t.timer == s.timer && t.socket == s.socket && t.status == s.status
            && t.pinging == s.pinging && t.disposed == s.disposed
  {
  }

  lemma RetryStep(c: Config, s: State, op: Op)
    ensures var t := Step(c, s, op);
            && t.attempt == (if Opens(s, op) then 0 else s.attempt + if NeedsRetry(s, op) then 1 else 0)
            && t.timer == (if NeedsRetry(s, op) then Some(RetryDelay(c, s.attempt))
                           else if op.TimerFires? || op.Dispose? then None else s.timer)
  {
    if !IsAboutSocket(op) && !op.Dispose? { OtherOpsKeepConnection(c, s, op); }
  }

  /** The retry that becomes due after n others since a connection last opened waits min(base * 2^n, max); it is given
      up only when it fires and on dispose, and any later one takes its place. */
  lemma {:induction false} RetriesFollowHistory(c: Config, ops: seq<Op>, op: Op)
    ensures Run(c, ops).attempt == Retries(c, ops)
    ensures var s, t := Run(c, ops), Step(c, Run(c, ops), op);
            t.timer == if NeedsRetry(s, op) then Some(RetryDelay(c, Retries(c, ops)))
                       else if op.TimerFires? || op.Dispose? then None else s.timer
  {
    if ops != [] {
      RetriesFollowHistory(c, ops[..|ops| - 1], ops[|ops| - 1]);
      RetryStep(c, Run(c, ops[..|ops| - 1]), ops[|ops| - 1]);
    }
    RetryStep(c, Run(c, ops), op);
  }

  /** What the status says of the socket and the retry timer. */
  ghost predicate StatusIsTruthful(s: State) {
    && (s.disposed ==> s.status == Disconnected && s.socket == NoSocket && s.timer == None && !s.pinging)
    && (s.socket.Socket? && s.socket.state == Open ==> s.status == Connected && s.pinging && s.attempt == 0)
    && (s.socket.Socket? && s.socket.state == Connecting ==> s.status == ConnectingStatus)
    && (s.socket.Socket? && s.socket.state == Closed && s.socket.wired ==> s.status == Reconnecting)
    && (match s.status
        case Disconnected => s.socket == NoSocket && s.timer == None && !s.pinging
        case Connected => s.socket.Socket? && s.socket.wired && (s.socket.state == Open || s.socket.state == Closing)
        case ConnectingStatus =>
          s.socket.Socket? && s.socket.wired && (s.socket.state == Connecting || s.socket.state == Closing)
        case Reconnecting =>
          s.timer.Some? && (s.socket.NoSocket? || s.socket.state == Closing || s.socket.state == Closed))
  }

  lemma ConnectKeepsStatus(c: Config, s: State, timer: Option<int>, constructed: bool)
    requires StatusIsTruthful(s) && (timer == s.timer || timer.None?)
    ensures StatusIsTruthful(DoConnect(c, s.(timer := timer), constructed))
    ensures DoConnect(c, s.(timer := timer), constructed).disposed == s.disposed
    ensures !s.disposed ==> DoConnect(c, s.(timer := timer), constructed).status != Disconnected
  {
  }

  lemma SocketKeepsStatus(c: Config, s: State, op: Op)
    requires StatusIsTruthful(s) && (op.SocketOpens? || op.SocketCloses? || op.Dispose?)
    ensures StatusIsTruthful(Step(c, s, op))
    ensures Step(c, s, op).disposed <==> s.disposed || op == Dispose
    ensures Step(c, s, op).status == Disconnected <==> op == Dispose || s.status == Disconnected
  {
  }

  lemma StatusStep(c: Config, s: State, op: Op)
    requires StatusIsTruthful(s)
    ensures StatusIsTruthful(Step(c, s, op))
    ensures Step(c, s, op).disposed <==> s.disposed || op == Dispose
    ensures Step(c, s, op).status == Disconnected <==>
            op == Dispose || (s.status == Disconnected && (s.disposed || !op.Connect?))
  {
    match op
    case Connect(constructed) => ConnectKeepsStatus(c, s, s.timer, constructed);
    case TimerFires(constructed) => if s.timer.Some? { ConnectKeepsStatus(c, s, None, constructed); }
    case SocketOpens => SocketKeepsStatus(c, s, op);
    case SocketCloses(_) => SocketKeepsStatus(c, s, op);
    case Dispose => SocketKeepsStatus(c, s, op);
    case _ => OtherOpsKeepConnection(c, s, op);
  }

  /** In every state the status tells what the manager has: `connected` an open socket or one on its way to closing,
      `connecting` likewise, `reconnecting` a pending retry and no live socket, and `disconnected` nothing at all, which
      is so exactly before the first `connect` and after dispose. */
  lemma {:induction false} StatusFollowsHistory(c: Config, ops: seq<Op>)
    ensures StatusIsTruthful(Run(c, ops))
    ensures Run(c, ops).disposed <==> IsDisposed(ops)
    ensures Run(c, ops).status == Disconnected <==> IsDisposed(ops) || !Started(ops)
  {
    if ops != [] {
      StatusFollowsHistory(c, ops[..|ops| - 1]);
      StatusStep(c, Run(c, ops[..|ops| - 1]), ops[|ops| - 1]);
      StartedGrows(ops);
      IsDisposedSnoc(ops);
    }
  }

  predicate IsIn(s: State, state: ReadyState) {
    s.socket.Socket? && s.socket.state == state
  }

  /** The step constructs a socket: `connect` or a retry finds none that is connecting or open. */
  predicate Constructs(s: State, op: Op) {
    !s.disposed && !IsIn(s, Connecting) && !IsIn(s, Open) &&
    (op == Connect(true) || (op == TimerFires(true) && s.timer.Some?))
  }

  /** A socket that is still listened to closes. */
  predicate HearsClose(s: State, op: Op) {
    op == SocketCloses(true) && s.socket.Socket? && s.socket.wired && s.socket.state != Closed
  }

  /** The newest socket after an operation: forgotten on dispose, replaced by one that is constructed, no longer
      listened to when that fails, opened, closing or closed. */
  function NewestSocket(s: State, op: Op): Socket {
    if op.Dispose? then NoSocket
    else if Constructs(s, op) then Socket(Connecting, true)
    else if s.socket.NoSocket? then NoSocket
    else if NeedsRetry(s, op) && !op.SocketCloses? then Socket(s.socket.state, false)
    else if op.SocketOpens? && s.socket.state == Connecting then Socket(Open, true)
    else if op.SocketCloses? && s.socket.state != Closed then
      Socket(if op.callback then Closed else Closing, s.socket.wired)
    else s.socket
  }

  /** In every run, what becomes of the newest socket, and when pings are sent: from the opening of a connection until
      its close is heard or dispose. */
  lemma ConnectionFollowsHistory(c: Config, ops: seq<Op>, op: Op)
    ensures var s, t := Run(c, ops), Step(c, Run(c, ops), op);
            && t.socket == NewestSocket(s, op)
            && (t.pinging <==> Opens(s, op) || (s.pinging && !HearsClose(s, op) && !op.Dispose?))
  {
    StatusFollowsHistory(c, ops);
    ConnectionStep(c, Run(c, ops), op);
  }

  lemma ConnectionStep(c: Config, s: State, op: Op)
    requires StatusIsTruthful(s)
    ensures var t := Step(c, s, op);
            && t.socket == NewestSocket(s, op)
            && (t.pinging <==> Opens(s, op) || (s.pinging && !HearsClose(s, op) && !op.Dispose?))
  {
    if !IsAboutSocket(op) && !op.Dispose? { OtherOpsKeepConnection(c, s, op); }
  }

  /** Dispose forgets handlers and queue. */
  lemma DisposeForgets(c: Config, ops: seq<Op>)
    ensures var t := Run(c, ops + [Dispose]);
            t.handlers == map[] && t.queue == [] && t.subscriptions == Run(c, ops).subscriptions
  {
    assert (ops + [Dispose])[..|ops|] == ops;
  }

  /** After dispose nothing goes out, no connection opens and no retry becomes due, whatever is called. */
  lemma DisposeIsFinal(c: Config, ops: seq<Op>, op: Op)
    requires IsDisposed(ops)
    ensures var t := Run(c, ops + [op]);
            t.socket == NoSocket && t.timer == None && !t.pinging && t.sent == Run(c, ops).sent
  {
    StatusFollowsHistory(c, ops);
    StatusFollowsHistory(c, ops + [op]);
    assert (ops + [op])[..|ops|] == ops;
    IsDisposedSnoc(ops + [op]);
    SilentStep(c, Run(c, ops), op);
  }

  lemma SilentStep(c: Config, s: State, op: Op)
    requires s.disposed && s.socket == NoSocket
    ensures Step(c, s, op).sent == s.sent
  {
  }
}
