/** Every turn of the driver keeps its books in agreement with the protocol and never
    asks the protocol for something it refuses. */
module DriverLinks {
  import opened Wire
  import P = ProtocolSpec
  import L = ProtocolLaws
  import opened DriverSpec
  import opened DriverBooks

  ghost predicate Rooted(c: Client) {
    forall t :: t in c.books.proto.channels ==> t in c.channels
  }

  ghost predicate Sound(c: Client) {
    Linked(c.books) && Rooted(c)
  }

  /** A turn never misuses the protocol, and its books agree unless it is about to end
      the connection; even then the protocol stays coherent. */
  ghost predicate SoundTurn(turn: Turn) {
    && turn.exit != Some(ProtocolMisused)
    && L.Coherent(turn.client.books.proto)
    && Rooted(turn.client)
    && (turn.exit.None? ==> Linked(turn.client.books))
  }

  lemma SendFrameIsSound(c: Client, net: Net, frame: Handed)
    requires Sound(c)
    ensures SoundTurn(SendFrame(c, net, frame))
  {
    assert SendFrame(c, net, frame).client.books == c.books;
    assert SendFrame(c, net, frame).client.channels == c.channels;
  }

  lemma CallIsSound(c: Client, net: Net, t: Topic, p: Push)
    requires Sound(c) && P.IsJoined(c.books.proto, t)
    ensures SoundTurn(SendCall(c, net, t, p))
    ensures SendCall(c, net, t, p).client.books.proto.channels == c.books.proto.channels
  {
    CallStaysLinked(c.books, t, p);
    var (books, result) := BookCall(c.books, t, p);
    SendFrameIsSound(c.(books := books, ledger := Settle(c.ledger, p.id, At(Calling(result.value)))),
                     net, HandOver(c, t, p));
  }

  lemma PushIsSound(c: Client, net: Net, t: Topic, p: Push)
    requires Sound(c) && P.IsJoined(c.books.proto, t)
    ensures SoundTurn(SendPush(c, net, t, p))
    ensures SendPush(c, net, t, p).client.books.proto.channels == c.books.proto.channels
  {
    if !Unsendable(net, p) {
      if p.isCall {
        CallIsSound(c, net, t, p);
      } else {
        assert SendCast(c, net, t, p).client.books == c.books;
      }
    }
  }

  lemma {:induction false} FlushIsSound(c: Client, net: Net, t: Topic)
    requires Sound(c) && P.IsJoined(c.books.proto, t)
    ensures SoundTurn(Flush(c, net, t))
    ensures Flush(c, net, t).client.books.proto.channels == c.books.proto.channels
    decreases if t in c.channels then |c.channels[t].queued| else 0
  {
    if t in c.channels && c.channels[t].queued != [] {
      var p := c.channels[t].queued[0];
      PushIsSound(PopQueue(c, t), net, t, p);
      var turn := SendPush(PopQueue(c, t), net, t, p);
      if turn.exit.None? {
        FlushIsSound(turn.client, Spend(net, p), t);
      }
    }
  }

  lemma StartLeaveIsSound(c: Client, net: Net, t: Topic, leave: PendingLeave)
    requires Sound(c) && P.IsJoined(c.books.proto, t)
    ensures SoundTurn(StartLeave(c, net, t, leave))
  {
    LeaveStaysLinked(c.books, t, leave);
    var (books, result) := BookLeave(c.books, t, leave);
    SendFrameIsSound(
      c.(books := books, ledger := if leave.open then Settle(c.ledger, leave.id, At(LeavingOn(result.value))) else c.ledger),
      net, HandedLeave(t, GenerationAccepted(c, t)));
  }

  lemma StartJoinIsSound(c: Client, net: Net, t: Topic, load: nat, params: Value)
    requires Sound(c) && t in c.channels && !P.Active(c.books.proto, t)
    ensures SoundTurn(StartJoin(c, net, t, load, params))
  {
    JoinStaysLinked(c.books, t, params);
    SendFrameIsSound(SetStatus(c, t, Joining).(books := BookJoin(c.books, t, params).0),
                     net, HandedJoin(t, load, t in c.trace.latest && c.trace.latest[t] == load));
  }

  // ----- Requests -----

  lemma ForgetIsSound(c: Client, t: Topic)
    requires Sound(c)
    ensures Sound(Forget(c, t))
  {
    DiscardStaysLinked(c.books, t);
    assert StopChannel(c, t).books == c.books;
  }

  /** A leave whose topic is discarded at once only burns its reference. */
  lemma LeaveThenDiscardStaysLinked(b: Books, t: Topic)
    requires Linked(b) && P.IsJoined(b.proto, t)
    ensures Linked(BookDiscard(b.(proto := P.Leave(b.proto, t).0), t))
  {
    LeaveThenDiscardBurns(b, t);
    DiscardStaysLinked(b, t);
    BurnStaysLinked(BookDiscard(b, t), BookDiscard(b.(proto := P.Leave(b.proto, t).0), t));
  }

  lemma LeaveThenDiscardBurns(b: Books, t: Topic)
    requires P.IsJoined(b.proto, t) && L.Coherent(b.proto)
    ensures BookDiscard(b.(proto := P.Leave(b.proto, t).0), t) ==
            BookDiscard(b, t).(proto := BookDiscard(b, t).proto.(next := BookDiscard(b, t).proto.next + 1))
  {
    LeaveThenDiscard(b.proto, t);
  }

  lemma LeaveThenDiscard(v: P.View, t: Topic)
    requires P.IsJoined(v, t) && L.Coherent(v)
    ensures P.Discard(P.Leave(v, t).0, t) == P.Discard(v, t).(next := v.next + 1)
  {
    var left := P.Discard(P.Leave(v, t).0, t);
    assert left.channels == P.Discard(v, t).channels;
    assert left.pending == P.Discard(v, t).pending;
  }

  lemma BurnStaysLinked(b: Books, d: Books)
    requires Linked(b) && d == b.(proto := b.proto.(next := b.proto.next + 1))
    ensures Linked(d)
  {
    L.OthersKeepCoherence(b.proto, d.proto);
    L.OthersKeepAwaiting(b.proto, d.proto);
    forall s | s in d.proto.pending ensures Tracked(d, s) {
      assert Tracked(b, s);
    }
    forall timer | timer in d.timers ensures OwnTimer(d, timer) {
      assert OwnTimer(b, timer);
    }
    assert forall s :: Beating(b, s) ==> Beating(d, s);
  }

  lemma UnregisterIsSound(c: Client, net: Net, t: Topic)
    requires Sound(c)
    ensures SoundTurn(Unregister(c, net, t))
  {
    if !P.IsJoined(c.books.proto, t) {
      ForgetIsSound(c, t);
    } else {
      LeaveThenDiscardStaysLinked(c.books, t);
      var c1 := Forget(c.(books := c.books.(proto := P.Leave(c.books.proto, t).0)), t);
      assert c1.books == BookDiscard(c.books.(proto := P.Leave(c.books.proto, t).0), t);
      SendFrameIsSound(c1, net, HandedLeave(t, GenerationAccepted(c, t)));
    }
  }

  lemma RequestPushIsSound(c: Client, net: Net, t: Topic, id: ReqId, isCall: bool, event: string, payload: Payload)
    requires Sound(c)
    ensures SoundTurn(RequestPush(c, net, t, id, isCall, event, payload))
  {
    var p := Push(id, isCall, event, payload, c.trace.stamps);
    var c1 := Stamp(c, t, id);
    if c.phase.Connected? && P.IsJoined(c.books.proto, t) {
      PushIsSound(c1, net, t, p);
    } else {
      EnqueueIsQuiet(c1, t, p);
    }
  }

  lemma EnqueueIsQuiet(c: Client, t: Topic, p: Push)
    ensures Enqueue(c, t, p).books == c.books && Enqueue(c, t, p).channels.Keys == c.channels.Keys
  {
    if t in c.channels {
      var rec := c.channels[t];
      if rec.everJoined && !rec.desired {
      } else if |rec.queued| < c.capacity {
      }
    }
  }

  lemma RequestPingIsSound(c: Client, net: Net, id: ReqId)
    requires Sound(c)
    ensures SoundTurn(RequestPing(c, net, id))
  {
    if c.phase.Connected? {
      PingStaysLinked(c.books, id);
      SendFrameIsSound(Enter(c, id, Pinging(c.books.proto.next + 1)).(books := BookPing(c.books, id)), net, HandedHeartbeat);
    }
  }

  lemma LoadPayloadIsQuiet(c: Client, t: Topic)
    ensures LoadPayload(c, t).books == c.books && LoadPayload(c, t).channels.Keys == c.channels.Keys
  {}

  lemma RequestJoinIsQuiet(c: Client, t: Topic, id: ReqId)
    ensures RequestJoin(c, t, id).books == c.books && RequestJoin(c, t, id).channels.Keys == c.channels.Keys
  {
    if t in c.channels && c.phase.Connected? && !P.IsJoined(c.books.proto, t) {
      var rec := c.channels[t];
      LoadPayloadIsQuiet(
        SetRecord(Enter(c, id, Waiter(t)), t,
                  rec.(desired := true, status := WaitingToJoin, waiters := rec.waiters + {id})), t);
    }
  }

  lemma RequestLeaveIsSound(c: Client, net: Net, t: Topic, id: ReqId)
    requires Sound(c)
    ensures SoundTurn(RequestLeave(c, net, t, id))
  {
    var c1 := Enter(c, id, Deferred(t));
    if c.phase.Connected? {
      var state := P.StateOf(c.books.proto, t);
      var status := if state == Some(P.Joined) || state == Some(P.Joining) then Leaving else Left;
      var c2 := StopChannel(SetStatus(c1, t, status), t);
      assert c2.books == c.books && c2.channels.Keys == c.channels.Keys;
      if state == Some(P.Joined) {
        StartLeaveIsSound(c2, net, t, PendingLeave(id, true));
      }
    } else {
      var c2 := StopChannel(SetStatus(c1, t, Left), t);
      assert c2.books == c.books && c2.channels.Keys == c.channels.Keys;
    }
  }

  lemma CancelIsSound(c: Client, id: ReqId)
    requires Sound(c)
    requires id in c.ledger && c.ledger[id].At? && c.ledger[id].place.Pinging? ==> c.ledger[id].place.reference in c.books.pendingPings
    ensures Sound(Cancel(c, id))
  {
    if id in c.ledger && c.ledger[id].At? {
      if c.ledger[id].place.Waiter? || c.ledger[id].place.Deferred? || c.ledger[id].place.Queue? {
        CancelHeldIsSound(c, id);
      } else {
        CancelSentIsSound(c, id);
      }
    }
  }

  lemma CancelHeldIsSound(c: Client, id: ReqId)
    requires Sound(c) && id in c.ledger && c.ledger[id].At?
    requires c.ledger[id].place.Waiter? || c.ledger[id].place.Deferred? || c.ledger[id].place.Queue?
    ensures Sound(Cancel(c, id))
  {
    var t := c.ledger[id].place.topic;
    if c.ledger[id].place.Waiter? {
      DropAndDiscardStaysLinked(c.books, t);
      assert t in c.channels ==> Cancel(c, id).channels.Keys == c.channels.Keys;
    } else {
      assert Cancel(c, id).books == c.books && Cancel(c, id).channels.Keys == c.channels.Keys;
    }
  }

  lemma CancelSentIsSound(c: Client, id: ReqId)
    requires Sound(c) && id in c.ledger && c.ledger[id].At?
    requires c.ledger[id].place.Calling? || c.ledger[id].place.Pinging? || c.ledger[id].place.LeavingOn?
    requires c.ledger[id].place.Pinging? ==> c.ledger[id].place.reference in c.books.pendingPings
    ensures Sound(Cancel(c, id))
  {
    var r := c.ledger[id].place.reference;
    if c.ledger[id].place.Calling? {
      ForgetCallStaysLinked(c.books, r);
    } else if c.ledger[id].place.Pinging? {
      ForgetPingStaysLinked(c.books, r);
    } else if r in c.books.pendingLeaves {
      CloseLeaveStaysLinked(c.books, r);
    }
    assert Cancel(c, id).channels == c.channels;
  }

  // ----- Completions -----

  lemma PayloadReadyIsSound(c: Client, net: Net, t: Topic, load: nat, loaded: Option<Value>)
    requires Sound(c)
    ensures SoundTurn(PayloadReady(c, net, t, load, loaded))
  {
    var c1 := c.(payloads := c.payloads - {(t, load)});
    if t in c.channels && c.channels[t].activePayload == Some(load) {
      var rec := c.channels[t].(activePayload := None);
      var c2 := SetRecord(c1, t, rec);
      if rec.desired && loaded.Some? && !P.Active(c.books.proto, t) {
        StartJoinIsSound(c2, net, t, load, loaded.value);
      }
    }
  }

  lemma HeartbeatTickIsSound(c: Client, net: Net)
    requires Sound(c)
    ensures SoundTurn(HeartbeatTick(c, net))
  {
    if c.books.heartbeat.None? {
      HeartbeatStaysLinked(c.books);
      SendFrameIsSound(c.(books := BookHeartbeat(c.books)), net, HandedHeartbeat);
    }
  }

  lemma RejoinFiredIsQuiet(c: Client, t: Topic)
    ensures RejoinFired(c, t).books == c.books && RejoinFired(c, t).channels.Keys == c.channels.Keys
  {
    if t in c.channels {
      LoadPayloadIsQuiet(
        SetRecord(c.(rejoins := c.rejoins - multiset{t}), t, c.channels[t].(rejoinScheduled := false)), t);
    }
  }

  lemma JoinTimedOutIsSound(c: Client, t: Topic, r: Ref)
    requires Sound(c) && JoinTimer(t, r) in c.books.timers
    ensures Sound(JoinTimedOut(c, t, r))
  {
    assert OwnTimer(c.books, JoinTimer(t, r));
    var d := JoinTimedOut(c, t, r);
    if r in c.books.pendingJoins {
      JoinTimeoutStaysLinked(c.books, t, r);
      if t in c.channels {
        if c.channels[t].deferred.Some? {
        } else if c.channels[t].desired {
        }
      }
      assert d.books == BookDiscard(BookJoinTimeout(c.books, t, r), t);
      assert d.channels.Keys == c.channels.Keys;
    } else {
      LateJoinTimeoutStaysLinked(c.books, t, r);
    }
  }

  lemma LeaveTimedOutIsSound(c: Client, t: Topic, r: Ref)
    requires Sound(c) && LeaveTimer(t, r) in c.books.timers
    ensures Sound(LeaveTimedOut(c, t, r))
  {
    var d := LeaveTimedOut(c, t, r);
    if r in c.books.pendingLeaves {
      LeaveTimeoutStaysLinked(c.books, t, r);
      assert d.books == BookDiscard(c.books.(timers := c.books.timers - {LeaveTimer(t, r)}, pendingLeaves := c.books.pendingLeaves - {r}), t);
      assert d.channels.Keys == c.channels.Keys;
    } else {
      TimerMayGo(c.books, LeaveTimer(t, r));
    }
  }

  // ----- Incoming frames -----

  /** What `React` finds: the protocol has taken the frame, and removing the event's
      entries restores agreement. */
  ghost predicate Reacting(c: Client, before: Books, event: P.Event) {
    && Rooted(c)
    && L.Coherent(c.books.proto)
    && c.books == before.(proto := c.books.proto)
    && Linked(BookComplete(before, c.books.proto, event))
    && (event.JoinAccepted? ==> P.IsJoined(c.books.proto, event.topic))
  }

  lemma OnJoinedIsSound(c: Client, before: Books, net: Net, t: Topic, r: Ref, response: Payload)
    requires Reacting(c, before, P.JoinAccepted(t, r, response))
    ensures SoundTurn(OnJoined(c, net, t, r, response))
  {
    var c1 := MarkJoined(c, t, r, response);
    assert c1.books == BookComplete(before, c.books.proto, P.JoinAccepted(t, r, response));
    assert c1.channels.Keys == c.channels.Keys;
    if t in c.channels && c.channels[t].deferred.Some? {
      StartLeaveIsSound(c1, net, t, c.channels[t].deferred.value);
    } else {
      FlushIsSound(c1, net, t);
    }
  }

  lemma OnJoinRejectedIsSound(c: Client, before: Books, t: Topic, r: Ref, response: Payload)
    requires Reacting(c, before, P.JoinRejected(t, r, response))
    ensures Sound(OnJoinRejected(c, t, r, response))
  {
    var d := OnJoinRejected(c, t, r, response);
    assert d.books == BookComplete(before, c.books.proto, P.JoinRejected(t, r, response));
    assert d.channels.Keys == c.channels.Keys;
  }

  lemma OnLeftIsSound(c: Client, before: Books, t: Topic, r: Ref, response: Payload)
    requires Reacting(c, before, P.Left(t, r, response))
    ensures Sound(OnLeft(c, t, r, response))
  {
    OnLeftBooks(c, t, r, response);
  }

  lemma OnLeftBooks(c: Client, t: Topic, r: Ref, response: Payload)
    ensures var d := OnLeft(c, t, r, response);
            d.books == c.books.(pendingLeaves := c.books.pendingLeaves - {r}) && d.channels.Keys == c.channels.Keys
  {
    assert r !in c.books.pendingLeaves ==> c.books.pendingLeaves - {r} == c.books.pendingLeaves;
  }

  lemma OnReplyIsSound(c: Client, before: Books, t: Topic, e: string, r: Ref, status: P.ReplyStatus, response: Payload)
    requires Reacting(c, before, P.Replied(t, e, r, status, response))
    ensures Sound(OnReply(c, r, status, response))
  {
    var d := OnReply(c, r, status, response);
    assert r !in before.pendingCalls ==> before.pendingCalls - {r} == before.pendingCalls;
    assert d.books == BookComplete(before, c.books.proto, P.Replied(t, e, r, status, response));
  }

  lemma OnHeartbeatIsSound(c: Client, before: Books, r: Ref, status: P.ReplyStatus)
    requires Reacting(c, before, P.HeartbeatAck(r, status))
    ensures Sound(OnHeartbeat(c, r))
  {
    var d := OnHeartbeat(c, r);
    assert r !in before.pendingPings ==> before.pendingPings - {r} == before.pendingPings;
    assert d.books == BookComplete(before, c.books.proto, P.HeartbeatAck(r, status));
  }

  lemma FailureIsQuiet(c: Client, t: Topic)
    ensures var c1 := c.(books := BookDropJoins(c.books, t));
            var failed, closed := ScheduleRejoin(SetStatus(c1, t, Errored), t), StopChannel(SetStatus(c1, t, Status.Closed), t);
            && failed.books == c1.books && failed.channels.Keys == c.channels.Keys
            && closed.books == c1.books && closed.channels.Keys == c.channels.Keys
  {}

  lemma ReactIsSound(c: Client, before: Books, net: Net, event: P.Event)
    requires Reacting(c, before, event)
    ensures SoundTurn(React(c, net, event))
  {
    match event
    case JoinAccepted(t, r, response) => OnJoinedIsSound(c, before, net, t, r, response);
    case JoinRejected(t, r, response) => OnJoinRejectedIsSound(c, before, t, r, response);
    case Left(t, r, response) => OnLeftIsSound(c, before, t, r, response);
    case Replied(t, e, r, status, response) => OnReplyIsSound(c, before, t, e, r, status, response);
    case HeartbeatAck(r, status) => OnHeartbeatIsSound(c, before, r, status);
    case ChannelFailed(t, _) => FailureIsQuiet(c, t);
    case ChannelClosed(t, _) => FailureIsQuiet(c, t);
    case _ =>
      assert BookComplete(before, c.books.proto, event) == c.books;
  }

  lemma IncomingIsSound(c: Client, net: Net, f: Frame)
    requires Sound(c)
    ensures SoundTurn(Incoming(c, net, f))
  {
    var (proto, result) := P.Receive(c.books.proto, f);
    var c1 := c.(books := c.books.(proto := proto));
    L.ReceiveKeepsCoherence(c.books.proto, f);
    ReceiveNamesKnownTopics(c.books.proto, f);
    if result.Ok? {
      ReceiveStaysLinked(c.books, f);
      if result.value.JoinAccepted? {
        AcceptedTopicIsJoined(c.books, f);
      }
      ReactIsSound(c1, c.books, net, result.value);
    }
  }

  lemma ReceiveNamesKnownTopics(v: P.View, f: Frame)
    ensures P.Receive(v, f).0.channels.Keys <= v.channels.Keys
  {}

  // ----- Turns -----

  lemma {:induction false} LoadAllIsQuiet(c: Client, order: seq<Topic>)
    ensures LoadAll(c, order).books == c.books && LoadAll(c, order).channels.Keys == c.channels.Keys
    decreases |order|
  {
    if order != [] {
      var c1 := SetStatus(c, order[0], WaitingToJoin);
      assert c1.channels.Keys == c.channels.Keys;
      LoadPayloadIsQuiet(c1, order[0]);
      LoadAllIsQuiet(LoadPayload(c1, order[0]), order[1..]);
    }
  }

  /** The ping that a request's ledger entry names is registered. */
  ghost predicate PingsRegistered(c: Client) {
    forall id :: id in c.ledger && c.ledger[id].At? && c.ledger[id].place.Pinging? ==>
      c.ledger[id].place.reference in c.books.pendingPings
  }

  lemma ActIsSound(c: Client, net: Net, a: Action)
    requires Sound(c) && PingsRegistered(c) && Enabled(c, a)
    ensures SoundTurn(Act(c, net, a))
  {
    match a
    case DoRegister(t) =>
    case DoUnregister(t) => if c.phase.Connected? { UnregisterIsSound(c, net, t); } else { ForgetIsSound(c, t); }
    case DoCancel(id) => CancelIsSound(c, id);
    case DoJoin(t, id) => RequestJoinIsQuiet(c, t, id);
    case DoPush(t, id, isCall, event, payload) => RequestPushIsSound(c, net, t, id, isCall, event, payload);
    case DoLeave(t, id) => RequestLeaveIsSound(c, net, t, id);
    case DoPing(id) => RequestPingIsSound(c, net, id);
    case AttemptSucceeded(order) =>
      var c1 := Opened(c);
      LoadAllIsQuiet(c1, order);
    case FrameArrived(f) => IncomingIsSound(c, net, f);
    case HeartbeatDue => HeartbeatTickIsSound(c, net);
    case LoadFinished(t, load, loaded) => PayloadReadyIsSound(c, net, t, load, loaded);
    case RejoinDue(t) => RejoinFiredIsQuiet(c, t);
    case TimerDue(JoinTimer(t, r)) => JoinTimedOutIsSound(c, t, r);
    case TimerDue(LeaveTimer(t, r)) => LeaveTimedOutIsSound(c, t, r);
    case _ =>
  }

  lemma DisconnectIsSound(c: Client, phase: Phase)
    requires L.Coherent(c.books.proto) && Rooted(c)
    ensures Sound(OnDisconnect(c, phase))
  {
    ResetIsLinked(c.books);
  }

  lemma AfterTurnIsSound(turn: Turn, a: Action, retry: bool)
    requires SoundTurn(turn)
    ensures Sound(AfterTurn(turn, a, retry))
  {
    DisconnectIsSound(turn.client, Idle);
    DisconnectIsSound(turn.client, Backoff);
  }

  lemma NextIsSound(c: Client, net: Net, a: Action, retry: bool)
    requires Sound(c) && PingsRegistered(c) && Enabled(c, a)
    ensures Sound(Next(c, net, a, retry))
    ensures Act(c, net, a).exit != Some(ProtocolMisused)
  {
    ActIsSound(c, net, a);
    AfterTurnIsSound(Act(c, net, a), a, retry);
  }
}
