/** The daemon's connection to HQ told by the operations alone: when it exits, when it stops reconnecting, which sockets
    it listens to, when a retry is due and after how long, and when it is authenticated. */
module DaemonHistory {
  import opened Optional
  import opened DaemonClient
  import Backoff

  // ---- exit and disconnect ----

  /** A callback of this socket reaches the client. */
  predicate Hears(s: State, socket: nat) {
    !s.exited && socket in s.live
  }

  /** The server rejected the token: the only close that ends the process. */
  predicate IsFatal(s: State, op: Op) {
    op.SocketClosed? && op.code == 4001 && Hears(s, op.socket)
  }

  lemma ExitStep(s: State, op: Op)
    ensures Step(s, op).exited <==> s.exited || IsFatal(s, op)
    ensures Step(s, op).shouldReconnect <==> s.shouldReconnect && (s.exited || op != Disconnect)
  {
  }

  ghost predicate FatalAt(ops: seq<Op>, i: nat)
    requires i < |ops|
  {
    IsFatal(Run(ops[..i]), ops[i])
  }

  lemma PrefixesAgree(before: seq<Op>, op: Op, i: nat)
    requires i < |before|
    ensures (before + [op])[..i] == before[..i] && (before + [op])[i] == before[i]
  {
  }

  lemma LastAgrees(before: seq<Op>, op: Op)
    ensures (before + [op])[..|before|] == before && (before + [op])[|before|] == op
  {
  }

  lemma FatalSnoc(before: seq<Op>, op: Op)
    ensures (exists i :: 0 <= i < |before + [op]| && FatalAt(before + [op], i)) <==>
            (exists i :: 0 <= i < |before| && FatalAt(before, i)) || IsFatal(Run(before), op)
  {
    var ops := before + [op];
    LastAgrees(before, op);
    assert FatalAt(ops, |before|) <==> IsFatal(Run(before), op);
    forall i | 0 <= i < |before|
      ensures FatalAt(ops, i) <==> FatalAt(before, i)
    {
      PrefixesAgree(before, op, i);
    }
  }

  /** The process exits exactly when a socket it listens to closes with code 4001. */
  lemma {:induction false} ExitsExactly(ops: seq<Op>)
    ensures Run(ops).exited <==> exists i :: 0 <= i < |ops| && FatalAt(ops, i)
  {
    if ops != [] {
      var before, op := ops[..|ops| - 1], ops[|ops| - 1];
      assert ops == before + [op];
      ExitsExactly(before);
      ExitStep(Run(before), op);
      FatalSnoc(before, op);
    }
  }

  ghost predicate NeverDisconnects(ops: seq<Op>) {
    forall i :: 0 <= i < |ops| ==> ops[i] != Disconnect
  }

  lemma NeverDisconnectsBefore(ops: seq<Op>)
    requires ops != []
    ensures NeverDisconnects(ops) <==> NeverDisconnects(ops[..|ops| - 1]) && ops[|ops| - 1] != Disconnect
  {
    var before := ops[..|ops| - 1];
    assert forall i :: 0 <= i < |before| ==> ops[i] == before[i];
  }

  /** A running process reconnects exactly until the first `disconnect`. */
  lemma {:induction false} ReconnectsExactly(ops: seq<Op>)
    ensures !Run(ops).exited ==> (Run(ops).shouldReconnect <==> NeverDisconnects(ops))
  {
    if ops != [] {
      ReconnectsExactly(ops[..|ops| - 1]);
      NeverDisconnectsBefore(ops);
      ExitStep(Run(ops[..|ops| - 1]), ops[|ops| - 1]);
    }
  }

  /** No socket closes with the fatal code. */
  ghost predicate NeverRejected(ops: seq<Op>) {
    forall i :: 0 <= i < |ops| ==> !(ops[i].SocketClosed? && ops[i].code == 4001)
  }

  /** After `connect`, without `disconnect` and without a close of code 4001, the process runs on, and has a socket it
      listens to or a pending retry. */
  lemma NeverStalls(ops: seq<Op>)
    requires Started(ops) && NeverDisconnects(ops) && NeverRejected(ops)
    ensures var s := Run(ops);
            !s.exited && s.shouldReconnect && ((s.ws.Some? && s.ws.value in s.live) || s.timer.Some?)
  {
    ExitsExactly(ops);
    ReconnectsExactly(ops);
    RunIsSound(ops);
  }

  // ---- sockets ----

  /** After an operation the client listens to the sockets it listened to, and one it constructed, without the one that
      closed and the current one on `disconnect`; its current socket is the one constructed last, until a retry fires or
      it disconnects. */
  lemma SocketsFollowHistory(s: State, op: Op, k: nat)
    ensures var t := Step(s, op);
            k in t.live <==>
              (Constructs(s, op) && k == s.created) ||
              (k in s.live && (s.exited || (!(op.SocketClosed? && op.socket == k) &&
                !(op == Disconnect && s.ws == Some(k)))))
    ensures Step(s, op).ws ==
            if Constructs(s, op) then Some(s.created)
            else if !s.exited && (op == Disconnect || (op.TimerFires? && s.timer.Some?)) then None
            else s.ws
    ensures Step(s, op).created == s.created + if Constructs(s, op) then 1 else 0
  {
  }

  // ---- retries ----

  /** A retry becomes due when a socket closes that the client listens to, and when a socket is wanted that cannot be
      constructed. */
  predicate NeedsRetry(s: State, op: Op) {
    !s.exited &&
    match op
    case SocketClosed(k, code) => k in s.live && code != 4001 && s.shouldReconnect
    case Connect(false) => s.ws.None? && s.timer.None?
    case TimerFires(false) => s.timer.Some?
    case _ => false
  }

  /** What ends a pending retry: it fires, the client disconnects, or a socket it listens to closes. */
  predicate EndsRetry(s: State, op: Op) {
    !s.exited && (op == Disconnect || op.TimerFires? || (op.SocketClosed? && op.socket in s.live))
  }

  /** The retries that became due since a socket last opened. */
  function Retries(ops: seq<Op>): nat {
    if ops == [] then 0
    else
      var s, op := Run(ops[..|ops| - 1]), ops[|ops| - 1];
      if op.Opened? && Hears(s, op.socket) then 0
      else Retries(ops[..|ops| - 1]) + if NeedsRetry(s, op) then 1 else 0
  }

  /** `min(1000 * 2^n, 30000)` */
  function RetryDelay(n: nat): int {
    if 1000 * Backoff.Pow2(n) <= 30000 then 1000 * Backoff.Pow2(n) else 30000
  }

  lemma RetryStep(s: State, op: Op)
    requires Sound(s)
    ensures Step(s, op).retries ==
            if op.Opened? && Hears(s, op.socket) then 0 else s.retries + if NeedsRetry(s, op) then 1 else 0
    ensures Step(s, op).timer ==
            if NeedsRetry(s, op) then Some(RetryDelay(s.retries)) else if EndsRetry(s, op) then None else s.timer
  {
  }

  lemma {:induction false} RetriesAre(ops: seq<Op>)
    ensures Run(ops).retries == Retries(ops)
  {
    if ops != [] {
      RetriesAre(ops[..|ops| - 1]);
      RunIsSound(ops[..|ops| - 1]);
      RetryStep(Run(ops[..|ops| - 1]), ops[|ops| - 1]);
    }
  }

  /** The retry that becomes due after n others since a socket last opened waits min(1000 * 2^n, 30000) ms, and is
      pending until it ends. */
  lemma RetriesFollowHistory(ops: seq<Op>, op: Op)
    ensures Step(Run(ops), op).timer ==
            if NeedsRetry(Run(ops), op) then Some(RetryDelay(Retries(ops)))
            else if EndsRetry(Run(ops), op) then None
            else Run(ops).timer
  {
    RetriesAre(ops);
    RunIsSound(ops);
    RetryStep(Run(ops), op);
  }

  // ---- authentication ----

  predicate Accepts(s: State, op: Op) {
    op.AuthAccepted? && Hears(s, op.socket)
  }

  /** What stops the heartbeat: a socket the client listens to closes, or it disconnects. */
  predicate Stops(s: State, op: Op) {
    !s.exited && (op == Disconnect || (op.SocketClosed? && op.socket in s.live))
  }

  /** What ends the authentication: that, or a rejection. */
  predicate Rejects(s: State, op: Op) {
    Stops(s, op) || (op.AuthRejected? && Hears(s, op.socket))
  }

  lemma AuthStep(s: State, op: Op)
    ensures Step(s, op).authenticated <==> Accepts(s, op) || (s.authenticated && !Rejects(s, op))
    ensures Step(s, op).heartbeat <==> Accepts(s, op) || (s.heartbeat && !Stops(s, op))
  {
  }

  ghost predicate AcceptedAt(ops: seq<Op>, i: nat)
    requires i < |ops|
  {
    Accepts(Run(ops[..i]), ops[i])
  }

  ghost predicate RejectedAt(ops: seq<Op>, i: nat)
    requires i < |ops|
  {
    Rejects(Run(ops[..i]), ops[i])
  }

  ghost predicate StoppedAt(ops: seq<Op>, i: nat)
    requires i < |ops|
  {
    Stops(Run(ops[..i]), ops[i])
  }

  ghost predicate IsAuthenticated(ops: seq<Op>) {
    exists i :: 0 <= i < |ops| && AcceptedAt(ops, i) && forall j :: i < j < |ops| ==> !RejectedAt(ops, j)
  }

  ghost predicate Beats(ops: seq<Op>) {
    exists i :: 0 <= i < |ops| && AcceptedAt(ops, i) && forall j :: i < j < |ops| ==> !StoppedAt(ops, j)
  }

  lemma EarlierAgree(before: seq<Op>, op: Op)
    ensures forall i | 0 <= i < |before| ::
              && (AcceptedAt(before + [op], i) <==> AcceptedAt(before, i))
              && (RejectedAt(before + [op], i) <==> RejectedAt(before, i))
              && (StoppedAt(before + [op], i) <==> StoppedAt(before, i))
  {
    forall i | 0 <= i < |before|
      ensures && (AcceptedAt(before + [op], i) <==> AcceptedAt(before, i))
              && (RejectedAt(before + [op], i) <==> RejectedAt(before, i))
              && (StoppedAt(before + [op], i) <==> StoppedAt(before, i))
    {
      PrefixesAgree(before, op, i);
    }
  }

  lemma LatestIs(before: seq<Op>, op: Op)
    ensures AcceptedAt(before + [op], |before|) <==> Accepts(Run(before), op)
    ensures RejectedAt(before + [op], |before|) <==> Rejects(Run(before), op)
    ensures StoppedAt(before + [op], |before|) <==> Stops(Run(before), op)
  {
    LastAgrees(before, op);
  }

  lemma IsAuthenticatedSnoc(before: seq<Op>, op: Op)
    ensures IsAuthenticated(before + [op]) <==>
            Accepts(Run(before), op) || (IsAuthenticated(before) && !Rejects(Run(before), op))
  {
    var ops := before + [op];
    EarlierAgree(before, op);
    LatestIs(before, op);
    if IsAuthenticated(before) && !Rejects(Run(before), op) {
      var i :| 0 <= i < |before| && AcceptedAt(before, i) && forall j :: i < j < |before| ==> !RejectedAt(before, j);
      assert AcceptedAt(ops, i);
    }
  }

  lemma BeatsSnoc(before: seq<Op>, op: Op)
    ensures Beats(before + [op]) <==> Accepts(Run(before), op) || (Beats(before) && !Stops(Run(before), op))
  {
    var ops := before + [op];
    EarlierAgree(before, op);
    LatestIs(before, op);
    if Beats(before) && !Stops(Run(before), op) {
      var i :| 0 <= i < |before| && AcceptedAt(before, i) && forall j :: i < j < |before| ==> !StoppedAt(before, j);
      assert AcceptedAt(ops, i);
    }
  }

  /** The client is authenticated exactly when it was accepted and, since the last time, neither rejected nor
      disconnected and no socket it listened to closed; it sends heartbeats likewise, a rejection notwithstanding. */
  lemma {:induction false} AuthenticationFollowsHistory(ops: seq<Op>)
    ensures Run(ops).authenticated <==> IsAuthenticated(ops)
    ensures Run(ops).heartbeat <==> Beats(ops)
  {
    if ops != [] {
      var before, op := ops[..|ops| - 1], ops[|ops| - 1];
      assert ops == before + [op];
      AuthenticationFollowsHistory(before);
      AuthStep(Run(before), op);
      IsAuthenticatedSnoc(before, op);
      BeatsSnoc(before, op);
    }
  }
}
