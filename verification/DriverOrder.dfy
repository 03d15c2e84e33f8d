/** Every turn of the driver keeps the wire in order and joined topics drained. */
module DriverOrder {
  import opened Wire
  import P = ProtocolSpec
  import opened DriverSpec
  import opened DriverBooks
  import opened DriverFates
  import opened DriverFlow
  import G = DriverLedger
  import C = DriverConservation
  import K = DriverLinks

  // ----- Incoming frames -----

  /** What a well-formed frame does to the protocol's channels, by the event it becomes. */
  lemma ReceiveEffect(v: P.View, f: Frame)
    requires P.Receive(v, f).1.Ok?
    ensures var (w, result) := P.Receive(v, f);
            match result.value
            case JoinAccepted(t, _, _) => w.channels - {t} == v.channels - {t}
            case JoinRejected(t, _, _) => w.channels - {t} == v.channels - {t} && !P.IsJoined(w, t)
            case Left(t, _, _) => w.channels == v.channels - {t}
            case ChannelFailed(t, _) => w.channels - {t} == v.channels - {t} && !P.IsJoined(w, t)
            case ChannelClosed(t, _) => w.channels - {t} == v.channels - {t} && !P.IsJoined(w, t)
            case _ => w.channels == v.channels
  {}

  /** The topic has just been marked joined: its queue drains next. */
  lemma MarkJoinedDrains(c: Client, proto: P.View, t: Topic, r: Ref, response: Payload)
    requires Flowing(c) && proto.channels - {t} == c.books.proto.channels - {t}
    requires P.IsJoined(proto, t) && proto.channels[t].joinRef == r
    ensures Draining(MarkJoined(c.(books := c.books.(proto := proto)), t, r, response), t)
  {
    var d := MarkJoined(c.(books := c.books.(proto := proto)), t, r, response);
    var e := d.(trace := c.trace);
    if t in c.channels {
      SettleAllGrows(c.ledger, c.channels[t].waiters, Accepted(response));
    }
    GrowsNeverRequeues(c.ledger, d.ledger);
    CalmKeepsOrder(c, e);
    assert Ordered(d);
    forall u | u != t ensures TopicFlows(d, u) {
      assert TopicFlows(c, u);
      SameElsewhere(proto, c.books.proto, t, u);
    }
  }

  lemma SameElsewhere(v: P.View, w: P.View, t: Topic, u: Topic)
    requires v.channels - {t} == w.channels - {t} && u != t
    ensures u in v.channels <==> u in w.channels
    ensures u in v.channels ==> v.channels[u] == w.channels[u]
  {
    assert u in v.channels - {t} <==> u in w.channels - {t};
    if u in v.channels {
      assert (v.channels - {t})[u] == (w.channels - {t})[u];
    }
  }

  lemma OnJoinedFlows(c: Client, proto: P.View, net: Net, t: Topic, r: Ref, response: Payload)
    requires Flowing(c) && G.Conserved(c) && proto.channels - {t} == c.books.proto.channels - {t}
    requires P.IsJoined(proto, t) && proto.channels[t].joinRef == r
    requires Linked(BookJoinDone(c.books.(proto := proto), r))
    ensures TurnFlows(OnJoined(c.(books := c.books.(proto := proto)), net, t, r, response))
  {
    var c1 := c.(books := c.books.(proto := proto));
    var d := MarkJoined(c1, t, r, response);
    MarkJoinedDrains(c, proto, t, r, response);
    G.SameHoldersBalance(c, c1, {});
    if t in c.channels {
      C.MarkJoinedBalances(c1, t, r, response);
      if c.channels[t].deferred.Some? {
        DrainingLeaveFlows(d, net, t, c.channels[t].deferred.value);
      } else {
        FlushFlows(d, net, t);
      }
    } else {
      G.SameHoldersBalance(c1, d, {});
      FlushFlows(d, net, t);
    }
  }

  lemma OnJoinRejectedFlows(c: Client, proto: P.View, t: Topic, r: Ref, response: Payload)
    requires Flowing(c) && proto.channels - {t} == c.books.proto.channels - {t} && !P.IsJoined(proto, t)
    ensures Flowing(OnJoinRejected(c.(books := c.books.(proto := proto)), t, r, response))
  {
    var c1 := c.(books := BookJoinDone(c.books.(proto := proto), r));
    if t !in c.channels {
      DroppedFlows(c, c1, t);
    } else {
      var rec := c.channels[t];
      var l1 := SettleLeave(c.ledger, rec.deferred, Accepted(EMPTY_OBJECT));
      var l2 := SettleAll(l1, rec.waiters, Answered(JoinRefused(response)));
      SettleLeaveGrows(c.ledger, rec.deferred, Accepted(EMPTY_OBJECT));
      SettleAllGrows(l1, rec.waiters, JoinRefused(response));
      Chain(c.ledger, l1, l2);
      var d := SetRecord(c1, t, rec.(status := if rec.deferred.Some? then Status.Left else Errored, deferred := None, waiters := {}))
                 .(ledger := l2);
      DroppedFlows(c, d, t);
      ScheduleRejoinFlows(d, t);
    }
  }

  lemma OnLeftFlows(c: Client, proto: P.View, t: Topic, r: Ref, response: Payload)
    requires Flowing(c) && proto.channels == c.books.proto.channels - {t}
    ensures Flowing(OnLeft(c.(books := c.books.(proto := proto)), t, r, response))
  {
    var c0 := c.(books := c.books.(proto := proto));
    var c1 := if r in c.books.pendingLeaves then
                c0.(books := c0.books.(pendingLeaves := c.books.pendingLeaves - {r}),
                    ledger := SettleLeave(c.ledger, Some(c.books.pendingLeaves[r]), Accepted(response)))
              else c0;
    if r in c.books.pendingLeaves {
      SettleLeaveGrows(c.ledger, Some(c.books.pendingLeaves[r]), Accepted(response));
    }
    assert Grows(c.ledger, c1.ledger);
    if t in c.channels && c.channels[t].desired {
      DroppedFlows(c, SetStatus(c1, t, WaitingToJoin), t);
      LoadPayloadFlows(SetStatus(c1, t, WaitingToJoin), t);
    } else {
      DroppedFlows(c, SetStatus(c1, t, Status.Left), t);
    }
  }

  lemma OnReplyFlows(c: Client, proto: P.View, r: Ref, status: P.ReplyStatus, response: Payload)
    requires Flowing(c) && proto.channels == c.books.proto.channels
    ensures Flowing(OnReply(c.(books := c.books.(proto := proto)), r, status, response))
  {
    if r in c.books.pendingCalls {
      SettleGrows(c.ledger, c.books.pendingCalls[r].id, Answered(Answer.Replied(status, response)));
    }
    QuietFlows(c, OnReply(c.(books := c.books.(proto := proto)), r, status, response));
  }

  lemma OnHeartbeatFlows(c: Client, proto: P.View, r: Ref)
    requires Flowing(c) && proto.channels == c.books.proto.channels
    ensures Flowing(OnHeartbeat(c.(books := c.books.(proto := proto)), r))
  {
    if r in c.books.pendingPings {
      SettleGrows(c.ledger, c.books.pendingPings[r], Answered(Pong));
    }
    QuietFlows(c, OnHeartbeat(c.(books := c.books.(proto := proto)), r));
  }

  lemma OnFailedFlows(c: Client, proto: P.View, t: Topic)
    requires Flowing(c) && proto.channels - {t} == c.books.proto.channels - {t} && !P.IsJoined(proto, t)
    ensures var c1 := c.(books := BookDropJoins(c.books.(proto := proto), t));
            Flowing(ScheduleRejoin(SetStatus(c1, t, Errored), t)) && Flowing(StopChannel(SetStatus(c1, t, Status.Closed), t))
  {
    var c1 := c.(books := BookDropJoins(c.books.(proto := proto), t));
    DroppedFlows(c, SetStatus(c1, t, Errored), t);
    ScheduleRejoinFlows(SetStatus(c1, t, Errored), t);
    var d := SetStatus(c1, t, Status.Closed);
    DroppedFlows(c, d, t);
    StopChannelIsCalm(d, t);
    CalmKeepsFlow(d, StopChannel(d, t));
  }

  lemma IncomingFlows(c: Client, net: Net, f: Frame)
    requires Flowing(c) && G.Conserved(c) && Linked(c.books)
    ensures TurnFlows(Incoming(c, net, f))
  {
    var (proto, result) := P.Receive(c.books.proto, f);
    if result.Ok? {
      ReceiveEffect(c.books.proto, f);
      EventFlows(c, net, f, proto, result.value);
    }
  }

  lemma EventFlows(c: Client, net: Net, f: Frame, proto: P.View, event: P.Event)
    requires Flowing(c) && G.Conserved(c) && Linked(c.books)
    requires P.Receive(c.books.proto, f) == (proto, Ok(event))
    ensures TurnFlows(React(c.(books := c.books.(proto := proto)), net, event))
  {
    ReceiveEffect(c.books.proto, f);
    match event
    case JoinAccepted(t, r, response) =>
      AcceptedTopicIsJoined(c.books, f);
      ReceiveStaysLinked(c.books, f);
      OnJoinedFlows(c, proto, net, t, r, response);
    case JoinRejected(t, r, response) => OnJoinRejectedFlows(c, proto, t, r, response);
    case Left(t, r, response) => OnLeftFlows(c, proto, t, r, response);
    case Replied(_, _, r, status, response) => OnReplyFlows(c, proto, r, status, response);
    case HeartbeatAck(r, _) => OnHeartbeatFlows(c, proto, r);
    case ChannelFailed(t, _) => OnFailedFlows(c, proto, t);
    case ChannelClosed(t, _) => OnFailedFlows(c, proto, t);
    case _ => QuietFlows(c, c.(books := c.books.(proto := proto)));
  }

  // ----- Turns -----

  lemma RegisterFlows(c: Client, t: Topic)
    requires Flowing(c)
    ensures Flowing(Register(c, t))
  {
    FlowFacts(c);
    CalmKeepsFlow(c, Register(c, t));
  }

  lemma PhaseFlows(c: Client, phase: Phase)
    requires Flowing(c)
    ensures Flowing(c.(phase := phase))
  {
    QuietFlows(c, c.(phase := phase));
  }

  lemma ShutdownFlows(c: Client)
    requires Flowing(c)
    ensures Flowing(Shutdown(c))
  {
    FlowFacts(c);
    CalmKeepsFlow(c, Shutdown(c));
  }

  lemma ActFlows(c: Client, net: Net, a: Action)
    requires Flowing(c) && G.Conserved(c) && Linked(c.books) && Enabled(c, a)
    requires !c.phase.Connected? ==> forall t :: !P.IsJoined(c.books.proto, t)
    ensures TurnFlows(Act(c, net, a))
  {
    match a
    case DoRegister(t) => RegisterFlows(c, t);
    case DoUnregister(t) =>
      if c.phase.Connected? {
        UnregisterFlows(c, net, t);
      } else {
        ForgetIsCalm(c, t);
        CalmKeepsFlow(c, Forget(c, t));
      }
    case DoCancel(id) => CancelFlows(c, id);
    case DoJoin(t, id) => RequestJoinFlows(c, t, id);
    case DoPush(t, id, isCall, event, payload) => RequestPushFlows(c, net, t, id, isCall, event, payload);
    case DoLeave(t, id) => RequestLeaveFlows(c, net, t, id);
    case DoPing(id) => RequestPingFlows(c, net, id);
    case DoConnect => PhaseFlows(c, Connecting);
    case DoShutdown => ShutdownFlows(c);
    case AttemptSucceeded(order) => OnConnectFlows(c, order);
    case AttemptFailed => PhaseFlows(c, Backoff);
    case BackoffElapsed => PhaseFlows(c, Connecting);
    case FrameArrived(f) => IncomingFlows(c, net, f);
    case HeartbeatDue => HeartbeatTickFlows(c, net);
    case LoadFinished(t, load, loaded) => PayloadReadyFlows(c, net, t, load, loaded);
    case RejoinDue(t) => RejoinFiredFlows(c, t);
    case TimerDue(JoinTimer(t, r)) => JoinTimedOutFlows(c, t, r);
    case TimerDue(LeaveTimer(t, r)) => LeaveTimedOutFlows(c, t, r);
    case _ =>
  }

  lemma NextFlows(c: Client, net: Net, a: Action, retry: bool)
    requires Flowing(c) && G.Conserved(c) && Linked(c.books) && Enabled(c, a)
    requires !c.phase.Connected? ==> forall t :: !P.IsJoined(c.books.proto, t)
    ensures Flowing(Next(c, net, a, retry))
  {
    ActFlows(c, net, a);
    AfterTurnFlows(Act(c, net, a), a, retry);
  }

  lemma AfterTurnFlows(turn: Turn, a: Action, retry: bool)
    requires TurnFlows(turn)
    ensures Flowing(AfterTurn(turn, a, retry))
  {
    if turn.exit.None? {
      PhaseFlows(turn.client, Idle);
    } else {
      DisconnectFlows(turn.client, Idle);
      DisconnectFlows(turn.client, Backoff);
    }
  }
}
