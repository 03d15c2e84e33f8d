/** Which phase a turn leaves the driver in, and what the offline phases hold. */
module DriverOffline {
  import opened Wire
  import P = ProtocolSpec
  import opened DriverSpec

  // ----- What an operation leaves alone -----

  /** The frames added to the wire contain no join. */
  ghost predicate NoJoinSent(c: Client, d: Client) {
    && |c.trace.wire| <= |d.trace.wire|
    && d.trace.wire[..|c.trace.wire|] == c.trace.wire
    && forall i :: |c.trace.wire| <= i < |d.trace.wire| ==> !d.trace.wire[i].HandedJoin?
  }

  /** No load, rejoin timer or phase has changed, and no join was sent. */
  ghost predicate Steady(c: Client, d: Client) {
    && d.phase == c.phase && d.nextPayload == c.nextPayload
    && d.payloads == c.payloads && d.rejoins == c.rejoins
    && d.trace.latest == c.trace.latest
    && NoJoinSent(c, d)
  }

  lemma SteadyChain(c: Client, d: Client, e: Client)
    requires Steady(c, d) && Steady(d, e)
    ensures Steady(c, e)
  {
    forall i | |c.trace.wire| <= i < |e.trace.wire| ensures !e.trace.wire[i].HandedJoin? {
      if i < |d.trace.wire| {
        assert e.trace.wire[..|d.trace.wire|][i] == d.trace.wire[i];
      }
    }
    forall i | 0 <= i < |c.trace.wire| ensures e.trace.wire[i] == c.trace.wire[i] {
      assert e.trace.wire[..|d.trace.wire|][i] == d.trace.wire[i];
      assert d.trace.wire[..|c.trace.wire|][i] == c.trace.wire[i];
    }
  }

  /** Sending a frame touches the wire alone. */
  lemma SendFrameIsJust(c: Client, net: Net, frame: Handed)
    ensures var d := SendFrame(c, net, frame).client;
            d.books == c.books && d.channels == c.channels && d.ledger == c.ledger
  {}

  lemma SendFrameIsSteady(c: Client, net: Net, frame: Handed)
    requires !frame.HandedJoin?
    ensures var d := SendFrame(c, net, frame).client;
            Steady(c, d) && d.books == c.books && d.channels == c.channels && d.ledger == c.ledger
  {}

  /** Sending a push changes neither a topic's state nor its record. */
  lemma PushIsSteady(c: Client, net: Net, t: Topic, p: Push)
    ensures var d := SendPush(c, net, t, p).client;
            Steady(c, d) && d.books.proto.channels == c.books.proto.channels && d.channels == c.channels
  {
    if !Unsendable(net, p) {
      if p.isCall { CallIsSteady(c, net, t, p); } else { CastIsSteady(c, net, t, p); }
    }
  }

  lemma CallIsSteady(c: Client, net: Net, t: Topic, p: Push)
    ensures var d := SendCall(c, net, t, p).client;
            Steady(c, d) && d.books.proto.channels == c.books.proto.channels && d.channels == c.channels
  {}

  lemma CastIsSteady(c: Client, net: Net, t: Topic, p: Push)
    ensures var d := SendCast(c, net, t, p).client;
            Steady(c, d) && d.books.proto.channels == c.books.proto.channels && d.channels == c.channels
  {}

  /** Flushing shortens one queue and changes nothing else a rejoin depends on. */
  lemma {:induction false} FlushIsSteady(c: Client, net: Net, t: Topic)
    ensures var d := Flush(c, net, t).client;
            && Steady(c, d) && d.books.proto.channels == c.books.proto.channels
            && d.channels.Keys == c.channels.Keys
            && (forall u :: u in c.channels ==> d.channels[u] == c.channels[u].(queued := d.channels[u].queued))
    decreases if t in c.channels then |c.channels[t].queued| else 0
  {
    if t in c.channels && c.channels[t].queued != [] {
      var p := c.channels[t].queued[0];
      var c1 := PopQueue(c, t);
      var turn := SendPush(c1, net, t, p);
      PushIsSteady(c1, net, t, p);
      SteadyChain(c, c1, turn.client);
      if turn.exit.None? {
        FlushIsSteady(turn.client, Spend(net, p), t);
        SteadyChain(c, turn.client, Flush(c, net, t).client);
      }
    }
  }

  lemma StopChannelIsSteady(c: Client, t: Topic)
    ensures Steady(c, StopChannel(c, t))
  {}

  lemma StartLeaveIsSteady(c: Client, net: Net, t: Topic, leave: PendingLeave)
    ensures var d := StartLeave(c, net, t, leave).client;
            Steady(c, d) && d.channels == c.channels
  {}

  lemma ForgetIsSteady(c: Client, t: Topic)
    ensures Steady(c, Forget(c, t))
  {
    StopChannelIsSteady(c, t);
  }

  lemma UnregisterIsSteady(c: Client, net: Net, t: Topic)
    ensures Steady(c, Unregister(c, net, t).client)
  {
    ForgetIsSteady(c, t);
    if P.IsJoined(c.books.proto, t) {
      var c0 := c.(books := c.books.(proto := P.Leave(c.books.proto, t).0));
      var d := Forget(c0, t);
      ForgetIsSteady(c0, t);
      SteadyChain(c, c0, d);
      SendFrameIsSteady(d, net, HandedLeave(t, GenerationAccepted(c, t)));
      SteadyChain(c, d, Unregister(c, net, t).client);
    }
  }

  lemma RequestPushIsSteady(c: Client, net: Net, t: Topic, id: ReqId, isCall: bool, event: string, payload: Payload)
    ensures Steady(c, RequestPush(c, net, t, id, isCall, event, payload).client)
  {
    var p := Push(id, isCall, event, payload, c.trace.stamps);
    var c1 := Stamp(c, t, id);
    if c.phase.Connected? && P.IsJoined(c.books.proto, t) {
      PushIsSteady(c1, net, t, p);
      SteadyChain(c, c1, SendPush(c1, net, t, p).client);
    } else {
      EnqueueIsSteady(c1, t, p);
      SteadyChain(c, c1, Enqueue(c1, t, p));
    }
  }

  lemma EnqueueIsSteady(c: Client, t: Topic, p: Push)
    ensures Steady(c, Enqueue(c, t, p))
  {}

  lemma RequestLeaveIsSteady(c: Client, net: Net, t: Topic, id: ReqId)
    ensures Steady(c, RequestLeave(c, net, t, id).client)
  {
    var state := P.StateOf(c.books.proto, t);
    var status := if c.phase.Connected? && (state == Some(P.Joined) || state == Some(P.Joining)) then Leaving else Left;
    var c1 := SetStatus(Enter(c, id, Deferred(t)), t, status);
    var c2 := StopChannel(c1, t);
    StopChannelIsSteady(c1, t);
    SteadyChain(c, c1, c2);
    if c.phase.Connected? && state == Some(P.Joined) {
      StartLeaveIsSteady(c2, net, t, PendingLeave(id, true));
      SteadyChain(c, c2, StartLeave(c2, net, t, PendingLeave(id, true)).client);
    }
  }

  lemma CancelIsSteady(c: Client, id: ReqId)
    ensures Steady(c, Cancel(c, id))
  {
    if id in c.ledger && c.ledger[id].At? {
      match c.ledger[id].place
      case Waiter(t) =>
      case _ =>
    }
  }

  lemma OnJoinedIsSteady(c: Client, net: Net, t: Topic, r: Ref, response: Payload)
    ensures Steady(c, OnJoined(c, net, t, r, response).client)
  {
    var c1 := MarkJoined(c, t, r, response);
    if t in c.channels && c.channels[t].deferred.Some? {
      StartLeaveIsSteady(c1, net, t, c.channels[t].deferred.value);
    } else {
      FlushIsSteady(c1, net, t);
    }
    SteadyChain(c, c1, OnJoined(c, net, t, r, response).client);
  }

  // ----- Phases -----

  lemma {:induction false} LoadAllKeepsPhase(c: Client, order: seq<Topic>)
    ensures LoadAll(c, order).phase == c.phase
    decreases |order|
  {
    if order != [] {
      LoadAllKeepsPhase(LoadPayload(SetStatus(c, order[0], WaitingToJoin), order[0]), order[1..]);
    }
  }

  predicate ChangesPhase(a: Action) {
    a.DoConnect? || a.DoShutdown? || a.AttemptSucceeded? || a.AttemptFailed? || a.BackoffElapsed?
  }

  lemma ReactKeepsPhase(c: Client, net: Net, event: P.Event)
    ensures React(c, net, event).client.phase == c.phase
  {
    match event
    case JoinAccepted(t, r, response) => OnJoinedIsSteady(c, net, t, r, response);
    case _ =>
  }

  /** Until it ends the connection, a turn stays in its phase. */
  lemma ActKeepsPhase(c: Client, net: Net, a: Action)
    requires !ChangesPhase(a)
    ensures Act(c, net, a).client.phase == c.phase
  {
    if IsRequest(a) {
      RequestKeepsPhase(c, net, a);
    } else if a.FrameArrived? {
      var (proto, result) := P.Receive(c.books.proto, a.frame);
      if result.Ok? { ReactKeepsPhase(c.(books := c.books.(proto := proto)), net, result.value); }
    }
  }

  lemma RequestKeepsPhase(c: Client, net: Net, a: Action)
    requires IsRequest(a)
    ensures Act(c, net, a).client.phase == c.phase
  {
    match a
    case DoUnregister(t) => if c.phase.Connected? { UnregisterIsSteady(c, net, t); } else { StopChannelIsSteady(c, t); }
    case DoCancel(id) => CancelIsSteady(c, id);
    case DoPush(t, id, isCall, event, payload) => RequestPushIsSteady(c, net, t, id, isCall, event, payload);
    case DoLeave(t, id) => RequestLeaveIsSteady(c, net, t, id);
    case _ =>
  }

  // ----- Offline -----

  predicate QuietRecord(rec: Record) {
    rec.activePayload.None? && !rec.rejoinScheduled && rec.deferred.None?
  }

  /** Nothing transmitted is outstanding: only queued pushes and join waiters remain. */
  ghost predicate Quiet(c: Client) {
    && c.books.proto.pending == map[]
    && (forall t :: t in c.books.proto.channels ==> c.books.proto.channels[t].state.Disconnected?)
    && c.books == Books(c.books.proto, map[], map[], map[], map[], None, {})
    && c.payloads == {} && c.rejoins == multiset{}
    && forall t :: t in c.channels ==> QuietRecord(c.channels[t])
  }

  predicate IsOffline(phase: Phase) {
    phase.Idle? || phase.Connecting? || phase.Backoff?
  }

  ghost predicate OfflineQuiet(c: Client) {
    IsOffline(c.phase) ==> Quiet(c)
  }

  lemma DisconnectIsQuiet(c: Client, phase: Phase)
    ensures Quiet(OnDisconnect(c, phase))
  {}

  lemma QuietIsNotJoined(c: Client)
    requires Quiet(c)
    ensures forall t :: !P.Active(c.books.proto, t)
  {}

  lemma ForgetIsQuiet(c: Client, t: Topic)
    requires Quiet(c)
    ensures Quiet(Forget(c, t))
  {
    StopIsQuiet(c, t);
    var c1 := StopChannel(c, t);
    assert BookDiscard(c1.books, t).proto.pending == map[];
  }

  lemma StopIsQuiet(c: Client, t: Topic)
    requires Quiet(c)
    ensures Quiet(StopChannel(c, t))
  {}

  lemma CancelIsQuiet(c: Client, id: ReqId)
    requires Quiet(c)
    ensures Quiet(Cancel(c, id))
  {
    if id in c.ledger && c.ledger[id].At? {
      match c.ledger[id].place
      case Waiter(t) => if t in c.channels { CancelWaiterIsQuiet(c, t, id); }
      case Calling(r) => assert c.books.pendingCalls - {r} == map[];
      case Pinging(r) => assert c.books.pendingPings - {r} == map[];
      case _ =>
    }
  }

  lemma CancelWaiterIsQuiet(c: Client, t: Topic, id: ReqId)
    requires Quiet(c) && t in c.channels
    ensures Quiet(CancelWaiter(c, t, id))
  {
    var b := BookDiscard(BookDropJoins(c.books, t), t);
    assert b.pendingJoins == map[] && b.proto.pending == map[];
  }

  lemma OfflineRequestIsQuiet(c: Client, net: Net, a: Action)
    requires Quiet(c) && IsOffline(c.phase)
    requires a.DoRegister? || a.DoJoin? || a.DoPush? || a.DoLeave? || a.DoPing?
    ensures Quiet(Act(c, net, a).client)
  {
    QuietIsNotJoined(c);
    match a
    case DoPush(t, id, isCall, event, payload) =>
    case DoLeave(t, id) => StopIsQuiet(SetStatus(Enter(c, id, Deferred(t)), t, Left), t);
    case _ =>
  }

  /** An offline turn that stays offline keeps the driver quiet. */
  lemma OfflineActIsQuiet(c: Client, net: Net, a: Action)
    requires Quiet(c) && IsOffline(c.phase) && Enabled(c, a) && !a.AttemptSucceeded?
    ensures Quiet(Act(c, net, a).client) || a.DoShutdown?
  {
    match a
    case DoUnregister(t) => ForgetIsQuiet(c, t);
    case DoCancel(id) => CancelIsQuiet(c, id);
    case DoConnect =>
    case DoDisconnect =>
    case DoShutdown =>
    case AttemptFailed =>
    case BackoffElapsed =>
    case _ => OfflineRequestIsQuiet(c, net, a);
  }

  /** A turn that does not end the connection. */
  lemma ActIsQuiet(c: Client, net: Net, a: Action)
    requires OfflineQuiet(c) && Enabled(c, a)
    ensures OfflineQuiet(Act(c, net, a).client)
    ensures a.AttemptFailed? ==> Quiet(Act(c, net, a).client)
  {
    if a.AttemptSucceeded? {
      LoadAllKeepsPhase(Opened(c), a.order);
    } else if c.phase.Connected? {
      if !ChangesPhase(a) { ActKeepsPhase(c, net, a); }
    } else {
      OfflineActIsQuiet(c, net, a);
    }
  }

  /** Every turn leaves an offline driver with nothing transmitted outstanding. */
  lemma NextIsQuiet(c: Client, net: Net, a: Action, retry: bool)
    requires OfflineQuiet(c) && Enabled(c, a)
    ensures OfflineQuiet(Next(c, net, a, retry))
  {
    var turn := Act(c, net, a);
    if turn.exit.Some? {
      DisconnectIsQuiet(turn.client, Idle);
      DisconnectIsQuiet(turn.client, Backoff);
    } else {
      ActIsQuiet(c, net, a);
    }
  }
}
