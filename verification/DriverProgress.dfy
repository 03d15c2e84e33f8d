/** No stuck channel: while connected, every desired topic has something outstanding
    that will move it on. */
module DriverProgress {
  import opened Wire
  import P = ProtocolSpec
  import L = ProtocolLaws
  import opened DriverSpec
  import opened DriverBooks
  import opened DriverOffline
  import opened DriverOrder

  // ----- The invariant -----

  /** A desired topic is active in the protocol, is loading its join payload, or waits
      for a rejoin timer; a load or timer the record names is outstanding. */
  predicate TopicMoves(c: Client, t: Topic) {
    t in c.channels ==>
      var rec := c.channels[t];
      && (rec.desired ==> P.Active(c.books.proto, t) || rec.activePayload.Some? || t in c.rejoins)
      && (rec.activePayload.Some? ==> (t, rec.activePayload.value) in c.payloads)
      && (rec.rejoinScheduled ==> t in c.rejoins)
  }

  ghost predicate Moves(c: Client) {
    forall t :: TopicMoves(c, t)
  }

  ghost predicate Moving(c: Client) {
    c.phase.Connected? ==> Moves(c)
  }

  /** What keeps a desired topic moving, with the entry and the timer that will fire. */
  ghost predicate Unstuck(c: Client, t: Topic)
    requires t in c.channels
  {
    var rec := c.channels[t];
    || P.IsJoined(c.books.proto, t)
    || (P.StateOf(c.books.proto, t) == Some(P.Joining) &&
        TrackedJoin(c.books, c.books.proto.channels[t].joinRef, t))
    || (P.StateOf(c.books.proto, t) == Some(P.Leaving) && exists r :: TrackedLeave(c.books, r, t))
    || (rec.activePayload.Some? && (t, rec.activePayload.value) in c.payloads)
    || t in c.rejoins
  }

  lemma MovingIsUnstuck(c: Client, t: Topic)
    requires Moves(c) && Linked(c.books) && t in c.channels && c.channels[t].desired
    ensures Unstuck(c, t)
  {
    assert TopicMoves(c, t);
    if P.Active(c.books.proto, t) {
      assert L.TopicAwaiting(c.books.proto, t);
      match c.books.proto.channels[t].state
      case Joined =>
      case Joining => assert Tracked(c.books, c.books.proto.channels[t].joinRef);
      case Leaving =>
        var r :| r in c.books.proto.pending && c.books.proto.pending[r] == P.PendingLeave(t);
        assert Tracked(c.books, r);
        assert TrackedLeave(c.books, r, t);
    }
  }

  /** While connected, no desired topic is stuck. */
  ghost predicate NothingStuck(c: Client) {
    c.phase.Connected? ==> forall t :: t in c.channels && c.channels[t].desired ==> Unstuck(c, t)
  }

  lemma MovingIsNothingStuck(c: Client)
    requires Moving(c) && Linked(c.books)
    ensures NothingStuck(c)
  {
    if c.phase.Connected? {
      forall t | t in c.channels && c.channels[t].desired ensures Unstuck(c, t) {
        MovingIsUnstuck(c, t);
      }
    }
  }

  // ----- Operations that concern one topic -----

  /** Everything about the topics other than `t` is as it was. */
  ghost predicate Touches(c: Client, d: Client, t: Topic) {
    && d.channels - {t} == c.channels - {t}
    && d.books.proto.channels - {t} == c.books.proto.channels - {t}
    && (forall u, p :: u != t && (u, p) in c.payloads ==> (u, p) in d.payloads)
    && (forall u :: u != t && u in c.rejoins ==> u in d.rejoins)
  }

  lemma Elsewhere<V>(m: map<Topic, V>, n: map<Topic, V>, t: Topic, u: Topic)
    requires m - {t} == n - {t} && u != t
    ensures u in m <==> u in n
    ensures u in m ==> m[u] == n[u]
  {
    assert u in m - {t} <==> u in n - {t};
    if u in m {
      assert (m - {t})[u] == (n - {t})[u];
    }
  }

  lemma TouchedMoves(c: Client, d: Client, t: Topic)
    requires Moves(c) && Touches(c, d, t) && TopicMoves(d, t)
    ensures Moves(d)
  {
    forall u ensures TopicMoves(d, u) {
      assert TopicMoves(c, u);
      if u != t {
        Elsewhere(c.channels, d.channels, t, u);
        Elsewhere(c.books.proto.channels, d.books.proto.channels, t, u);
      }
    }
  }

  /** Only queues, waiters, statuses or the books have changed. */
  ghost predicate SameMotion(c: Client, d: Client) {
    && d.channels.Keys == c.channels.Keys
    && (forall t :: t in c.channels ==>
          d.channels[t].desired == c.channels[t].desired &&
          d.channels[t].activePayload == c.channels[t].activePayload &&
          d.channels[t].rejoinScheduled == c.channels[t].rejoinScheduled)
    && (forall t :: P.Active(c.books.proto, t) ==> P.Active(d.books.proto, t))
    && d.payloads == c.payloads && d.rejoins == c.rejoins
  }

  lemma SameMotionMoves(c: Client, d: Client)
    requires Moves(c) && SameMotion(c, d)
    ensures Moves(d)
  {
    forall t ensures TopicMoves(d, t) {
      assert TopicMoves(c, t);
    }
  }

  // ----- Loads and rejoin timers -----

  lemma LoadPayloadTouches(c: Client, t: Topic)
    ensures Touches(c, LoadPayload(c, t), t)
  {}

  lemma ScheduleRejoinTouches(c: Client, t: Topic)
    ensures Touches(c, ScheduleRejoin(c, t), t)
  {}

  lemma TouchesChain(c: Client, d: Client, e: Client, t: Topic)
    requires Touches(c, d, t) && Touches(d, e, t)
    ensures Touches(c, e, t)
  {}

  /** The record names no load or timer that is not outstanding. */
  predicate Backed(c: Client, t: Topic) {
    t in c.channels ==>
      && (c.channels[t].activePayload.Some? ==> (t, c.channels[t].activePayload.value) in c.payloads)
      && (c.channels[t].rejoinScheduled ==> t in c.rejoins)
  }

  /** Loading moves the topic on whatever state it was in. */
  lemma LoadPayloadMoves(c: Client, d: Client, t: Topic)
    requires Moves(c) && Touches(c, d, t) && Backed(d, t)
    ensures Moves(LoadPayload(d, t))
  {
    LoadPayloadTouches(d, t);
    TouchesChain(c, d, LoadPayload(d, t), t);
    TouchedMoves(c, LoadPayload(d, t), t);
  }

  /** So does a rejoin timer. */
  lemma ScheduleRejoinMoves(c: Client, d: Client, t: Topic)
    requires Moves(c) && Touches(c, d, t) && Backed(d, t)
    ensures Moves(ScheduleRejoin(d, t))
  {
    ScheduleRejoinTouches(d, t);
    TouchesChain(c, d, ScheduleRejoin(d, t), t);
    TouchedMoves(c, ScheduleRejoin(d, t), t);
  }

  /** A topic that is not desired needs nothing. */
  lemma UndesiredMoves(c: Client, d: Client, t: Topic)
    requires Moves(c) && Touches(c, d, t) && Backed(d, t)
    requires t in d.channels ==> !d.channels[t].desired
    ensures Moves(d)
  {
    TouchedMoves(c, d, t);
  }

  // ----- Requests -----

  lemma StopChannelTouches(c: Client, t: Topic)
    ensures var d := StopChannel(c, t);
            Touches(c, d, t) && Backed(d, t) && (t in d.channels ==> !d.channels[t].desired)
  {}

  lemma ForgetTouches(c: Client, t: Topic)
    ensures Touches(c, Forget(c, t), t) && t !in Forget(c, t).channels
  {
    StopChannelTouches(c, t);
    var c1 := StopChannel(c, t);
    assert Touches(c1, Forget(c, t), t);
    TouchesChain(c, c1, Forget(c, t), t);
  }

  lemma ForgetMoves(c: Client, d: Client, t: Topic)
    requires Moves(c) && Touches(c, d, t)
    ensures Moves(Forget(d, t))
  {
    ForgetTouches(d, t);
    TouchesChain(c, d, Forget(d, t), t);
    UndesiredMoves(c, Forget(d, t), t);
  }

  lemma UnregisterMoves(c: Client, net: Net, t: Topic)
    requires Moves(c)
    ensures Moves(Unregister(c, net, t).client)
  {
    if !P.IsJoined(c.books.proto, t) {
      ForgetMoves(c, c, t);
    } else {
      var c0 := c.(books := c.books.(proto := P.Leave(c.books.proto, t).0));
      assert Touches(c, c0, t);
      ForgetMoves(c, c0, t);
      SendFrameIsSteady(Forget(c0, t), net, HandedLeave(t, GenerationAccepted(c, t)));
      SameMotionMoves(Forget(c0, t), Unregister(c, net, t).client);
    }
  }

  lemma RequestJoinMoves(c: Client, t: Topic, id: ReqId)
    requires Moves(c) && c.phase.Connected?
    ensures Moves(RequestJoin(c, t, id))
  {
    var c1 := Enter(c, id, Waiter(t));
    assert TopicMoves(c, t);
    if t !in c.channels {
      SameMotionMoves(c, RequestJoin(c, t, id));
    } else if P.IsJoined(c.books.proto, t) {
      TouchedMoves(c, RequestJoin(c, t, id), t);
    } else {
      var rec := c.channels[t];
      LoadPayloadMoves(c, SetRecord(c1, t, rec.(desired := true, status := WaitingToJoin, waiters := rec.waiters + {id})), t);
    }
  }

  lemma RequestPushMoves(c: Client, net: Net, t: Topic, id: ReqId, isCall: bool, event: string, payload: Payload)
    requires Moves(c)
    ensures Moves(RequestPush(c, net, t, id, isCall, event, payload).client)
  {
    var p := Push(id, isCall, event, payload, c.trace.stamps);
    var c1 := Stamp(c, t, id);
    if c.phase.Connected? && P.IsJoined(c.books.proto, t) {
      PushIsSteady(c1, net, t, p);
      SameMotionMoves(c, SendPush(c1, net, t, p).client);
    } else {
      EnqueueKeepsMotion(c1, t, p);
      SameMotionMoves(c, Enqueue(c1, t, p));
    }
  }

  lemma EnqueueKeepsMotion(c: Client, t: Topic, p: Push)
    ensures SameMotion(c, Enqueue(c, t, p))
  {}

  lemma StartLeaveTouches(c: Client, net: Net, t: Topic, leave: PendingLeave)
    ensures Touches(c, StartLeave(c, net, t, leave).client, t)
    ensures StartLeave(c, net, t, leave).client.channels == c.channels
    ensures P.IsJoined(c.books.proto, t) ==> P.Active(StartLeave(c, net, t, leave).client.books.proto, t)
  {
    StartLeaveIsSteady(c, net, t, leave);
    var (books, result) := BookLeave(c.books, t, leave);
    assert books.proto.channels - {t} == c.books.proto.channels - {t};
  }

  lemma RequestLeaveMoves(c: Client, net: Net, t: Topic, id: ReqId)
    requires Moves(c) && c.phase.Connected?
    ensures Moves(RequestLeave(c, net, t, id).client)
  {
    var state := P.StateOf(c.books.proto, t);
    var status := if state == Some(P.Joined) || state == Some(P.Joining) then Leaving else Left;
    var c1 := SetStatus(Enter(c, id, Deferred(t)), t, status);
    var c2 := StopChannel(c1, t);
    assert Touches(c, c1, t);
    StopChannelTouches(c1, t);
    TouchesChain(c, c1, c2, t);
    UndesiredMoves(c, c2, t);
    if state == Some(P.Joined) {
      StartLeaveTouches(c2, net, t, PendingLeave(id, true));
      StartLeaveIsSteady(c2, net, t, PendingLeave(id, true));
      UndesiredMoves(c2, StartLeave(c2, net, t, PendingLeave(id, true)).client, t);
    } else {
      SameMotionMoves(c2, RequestLeave(c, net, t, id).client);
    }
  }

  lemma CancelMoves(c: Client, id: ReqId)
    requires Moves(c)
    ensures Moves(Cancel(c, id))
  {
    if id in c.ledger && c.ledger[id].At? {
      match c.ledger[id].place
      case Waiter(t) => if t in c.channels { CancelWaiterMoves(c, t, id); }
      case _ => SameMotionMoves(c, Cancel(c, id));
    }
  }

  lemma CancelWaiterMoves(c: Client, t: Topic, id: ReqId)
    requires Moves(c) && t in c.channels
    ensures Moves(CancelWaiter(c, t, id))
  {
    var d := CancelWaiter(c, t, id);
    assert TopicMoves(c, t);
    if c.channels[t].waiters - {id} == {} && !c.channels[t].everJoined {
      assert d.books.proto.channels - {t} == c.books.proto.channels - {t};
      UndesiredMoves(c, d, t);
    } else {
      SameMotionMoves(c, d);
    }
  }

  // ----- Completions -----

  /** The turn that starts a join leaves its topic joining. */
  lemma PayloadReadyMoves(c: Client, net: Net, t: Topic, load: nat, loaded: Option<Value>)
    requires Moves(c)
    ensures var turn := PayloadReady(c, net, t, load, loaded);
            turn.exit.None? ==> Moves(turn.client)
  {
    var turn := PayloadReady(c, net, t, load, loaded);
    var c1 := c.(payloads := c.payloads - {(t, load)});
    assert TopicMoves(c, t);
    assert Touches(c, c1, t);
    if t !in c.channels || c.channels[t].activePayload != Some(load) {
      TouchedMoves(c, c1, t);
    } else {
      var rec := c.channels[t].(activePayload := None);
      var c2 := SetRecord(c1, t, rec);
      assert Touches(c, c2, t);
      if rec.desired && loaded.Some? && !P.Active(c.books.proto, t) {
        StartJoinTouches(c2, net, t, load, loaded.value);
        TouchesChain(c, c2, turn.client, t);
      }
      if turn.exit.None? {
        TouchedMoves(c, turn.client, t);
      }
    }
  }

  lemma StartJoinTouches(c: Client, net: Net, t: Topic, load: nat, params: Value)
    requires t in c.channels && !P.Active(c.books.proto, t)
    ensures var d := StartJoin(c, net, t, load, params).client;
            && Touches(c, d, t) && P.Active(d.books.proto, t)
            && d.channels == c.channels[t := c.channels[t].(status := Joining)]
            && d.payloads == c.payloads && d.rejoins == c.rejoins
  {
    BookJoinTouches(c.books, t, params);
    var (books, ok) := BookJoin(c.books, t, params);
    var frame := HandedJoin(t, load, t in c.trace.latest && c.trace.latest[t] == load);
    var d := SetStatus(c, t, Joining).(books := books);
    assert StartJoin(c, net, t, load, params) == SendFrame(d, net, frame);
  }

  lemma BookJoinTouches(b: Books, t: Topic, params: Value)
    requires !P.Active(b.proto, t)
    ensures var (d, ok) := BookJoin(b, t, params);
            ok && d.proto.channels - {t} == b.proto.channels - {t} && P.Active(d.proto, t)
  {}

  lemma RejoinFiredMoves(c: Client, t: Topic)
    requires Moves(c)
    ensures Moves(RejoinFired(c, t))
  {
    assert TopicMoves(c, t);
    var c1 := c.(rejoins := c.rejoins - multiset{t});
    assert Touches(c, c1, t);
    if t !in c.channels {
      TouchedMoves(c, c1, t);
    } else {
      var c2 := SetRecord(c1, t, c.channels[t].(rejoinScheduled := false));
      if c.channels[t].desired {
        LoadPayloadMoves(c, c2, t);
      } else {
        UndesiredMoves(c, c2, t);
      }
    }
  }

  /** The timed-out join would strand its topic: a leave is deferred on it, it was
      desired again meanwhile, and no rejoin timer of it is outstanding. */
  predicate Strands(c: Client, t: Topic, r: Ref) {
    && r in c.books.pendingJoins && c.books.pendingJoins[r] == t
    && t in c.channels && c.channels[t].deferred.Some? && c.channels[t].desired && t !in c.rejoins
  }

  lemma JoinTimedOutMovesIff(c: Client, t: Topic, r: Ref)
    requires Moves(c)
    ensures Moves(JoinTimedOut(c, t, r)) <==> !Strands(c, t, r)
  {
    var d := JoinTimedOut(c, t, r);
    var c1 := c.(books := BookJoinTimeout(c.books, t, r));
    assert TopicMoves(c, t);
    if r !in c.books.pendingJoins || c.books.pendingJoins[r] != t {
      SameMotionMoves(c, c1);
    } else {
      var c2 := c1.(books := BookDiscard(c1.books, t));
      assert c2.books.proto.channels - {t} == c.books.proto.channels - {t};
      if t !in c.channels {
        UndesiredMoves(c, c2, t);
      } else {
        var rec := c.channels[t].(activePayload := None);
        if rec.deferred.Some? {
          assert Touches(c, d, t);
          if Strands(c, t, r) {
            assert !TopicMoves(d, t);
          } else {
            TouchedMoves(c, d, t);
          }
        } else if rec.desired {
          var c3 := SetRecord(c2, t, rec.(status := Errored, waiters := {}))
                      .(ledger := SettleAll(c.ledger, rec.waiters, Answered(Timeout(JoinOp))));
          ScheduleRejoinMoves(c, c3, t);
        } else {
          UndesiredMoves(c, d, t);
        }
      }
    }
  }

  /** Nothing is left that would ever move a stranded topic on. */
  lemma StrandedIsStuck(c: Client, t: Topic, r: Ref)
    requires Moves(c) && Strands(c, t, r)
    ensures var d := JoinTimedOut(c, t, r); t in d.channels && d.channels[t].desired && !Unstuck(d, t)
  {
    var d := JoinTimedOut(c, t, r);
    assert t !in d.books.proto.channels && d.channels[t].activePayload.None? && d.rejoins == c.rejoins;
  }

  lemma LeaveTimedOutMoves(c: Client, t: Topic, r: Ref)
    requires Moves(c)
    ensures Moves(LeaveTimedOut(c, t, r))
  {
    assert TopicMoves(c, t);
    var c1 := c.(books := c.books.(timers := c.books.timers - {LeaveTimer(t, r)}));
    if r !in c.books.pendingLeaves {
      SameMotionMoves(c, c1);
    } else {
      var c2 := c1.(ledger := SettleLeave(c.ledger, Some(c.books.pendingLeaves[r]), Timeout(LeaveOp)),
                    books := BookDiscard(c1.books.(pendingLeaves := c.books.pendingLeaves - {r}), t));
      assert c2.books.proto.channels - {t} == c.books.proto.channels - {t};
      ReleasedMoves(c, c2, t);
    }
  }

  /** The topic has left the protocol: it loads again if it is desired. */
  lemma ReleasedMoves(c: Client, d: Client, t: Topic)
    requires Moves(c) && Touches(c, d, t) && d.channels == c.channels
    requires d.payloads == c.payloads && d.rejoins == c.rejoins
    ensures Moves(if t in d.channels && d.channels[t].desired then LoadPayload(SetStatus(d, t, WaitingToJoin), t)
                  else SetStatus(d, t, Left))
  {
    assert TopicMoves(c, t);
    if t in d.channels && d.channels[t].desired {
      LoadPayloadMoves(c, SetStatus(d, t, WaitingToJoin), t);
    } else {
      UndesiredMoves(c, SetStatus(d, t, Left), t);
    }
  }

  // ----- Incoming frames -----

  lemma MarkJoinedMoves(c: Client, proto: P.View, t: Topic, r: Ref, response: Payload)
    requires Moves(c) && proto.channels - {t} == c.books.proto.channels - {t} && P.IsJoined(proto, t)
    ensures var d := MarkJoined(c.(books := c.books.(proto := proto)), t, r, response);
            Moves(d) && d.books.proto == proto && Backed(d, t)
  {
    var d := MarkJoined(c.(books := c.books.(proto := proto)), t, r, response);
    assert TopicMoves(c, t);
    TouchedMoves(c, d, t);
  }

  lemma OnJoinedMoves(c: Client, proto: P.View, net: Net, t: Topic, r: Ref, response: Payload)
    requires Moves(c) && proto.channels - {t} == c.books.proto.channels - {t} && P.IsJoined(proto, t)
    ensures Moves(OnJoined(c.(books := c.books.(proto := proto)), net, t, r, response).client)
  {
    var c1 := c.(books := c.books.(proto := proto));
    var c2 := MarkJoined(c1, t, r, response);
    var d := OnJoined(c1, net, t, r, response).client;
    MarkJoinedMoves(c, proto, t, r, response);
    if t in c.channels && c.channels[t].deferred.Some? {
      StartLeaveTouches(c2, net, t, c.channels[t].deferred.value);
      StartLeaveIsSteady(c2, net, t, c.channels[t].deferred.value);
      TouchedMoves(c2, d, t);
    } else {
      FlushIsSteady(c2, net, t);
      SameMotionMoves(c2, d);
    }
  }

  lemma OnJoinRejectedMoves(c: Client, proto: P.View, t: Topic, r: Ref, response: Payload)
    requires Moves(c) && proto.channels - {t} == c.books.proto.channels - {t}
    ensures Moves(OnJoinRejected(c.(books := c.books.(proto := proto)), t, r, response))
  {
    var c1 := c.(books := BookJoinDone(c.books.(proto := proto), r));
    assert TopicMoves(c, t);
    if t !in c.channels {
      UndesiredMoves(c, c1, t);
    } else {
      var rec := c.channels[t];
      var l1 := SettleLeave(c.ledger, rec.deferred, Accepted(EMPTY_OBJECT));
      var c2 := SetRecord(c1, t, rec.(status := if rec.deferred.Some? then Status.Left else Errored, deferred := None, waiters := {}))
                  .(ledger := SettleAll(l1, rec.waiters, Answered(JoinRefused(response))));
      ScheduleRejoinMoves(c, c2, t);
    }
  }

  lemma OnLeftMoves(c: Client, proto: P.View, t: Topic, r: Ref, response: Payload)
    requires Moves(c) && proto.channels == c.books.proto.channels - {t}
    ensures Moves(OnLeft(c.(books := c.books.(proto := proto)), t, r, response))
  {
    var c0 := c.(books := c.books.(proto := proto));
    var c1 := if r in c.books.pendingLeaves then
                c0.(books := c0.books.(pendingLeaves := c.books.pendingLeaves - {r}),
                    ledger := SettleLeave(c.ledger, Some(c.books.pendingLeaves[r]), Accepted(response)))
              else c0;
    assert proto.channels - {t} == c.books.proto.channels - {t};
    ReleasedMoves(c, c1, t);
  }

  lemma OnFailedMoves(c: Client, proto: P.View, t: Topic)
    requires Moves(c) && proto.channels - {t} == c.books.proto.channels - {t}
    ensures var c1 := c.(books := BookDropJoins(c.books.(proto := proto), t));
            Moves(ScheduleRejoin(SetStatus(c1, t, Errored), t)) && Moves(StopChannel(SetStatus(c1, t, Status.Closed), t))
  {
    var c1 := c.(books := BookDropJoins(c.books.(proto := proto), t));
    assert TopicMoves(c, t);
    ScheduleRejoinMoves(c, SetStatus(c1, t, Errored), t);
    var c2 := SetStatus(c1, t, Status.Closed);
    StopChannelTouches(c2, t);
    TouchesChain(c, c2, StopChannel(c2, t), t);
    UndesiredMoves(c, StopChannel(c2, t), t);
  }

  lemma ReplyMoves(c: Client, d: Client, r: Ref, status: P.ReplyStatus, response: Payload)
    requires Moves(c) && SameMotion(c, d)
    ensures Moves(OnReply(d, r, status, response)) && Moves(OnHeartbeat(d, r))
  {
    SameMotionMoves(c, OnReply(d, r, status, response));
    SameMotionMoves(c, OnHeartbeat(d, r));
  }

  lemma EventMoves(c: Client, proto: P.View, net: Net, f: Frame, event: P.Event)
    requires Moves(c) && Linked(c.books) && P.Receive(c.books.proto, f) == (proto, Ok(event))
    ensures var turn := React(c.(books := c.books.(proto := proto)), net, event);
            turn.exit.None? ==> Moves(turn.client)
  {
    ReceiveEffect(c.books.proto, f);
    var c1 := c.(books := c.books.(proto := proto));
    match event
    case JoinAccepted(t, r, response) =>
      AcceptedTopicIsJoined(c.books, f);
      OnJoinedMoves(c, proto, net, t, r, response);
    case JoinRejected(t, r, response) => OnJoinRejectedMoves(c, proto, t, r, response);
    case Left(t, r, response) => OnLeftMoves(c, proto, t, r, response);
    case Replied(_, _, r, status, response) => ReplyMoves(c, c1, r, status, response);
    case HeartbeatAck(r, _) => ReplyMoves(c, c1, r, P.StatusOk, EMPTY_OBJECT);
    case ChannelFailed(t, _) => OnFailedMoves(c, proto, t);
    case ChannelClosed(t, _) => OnFailedMoves(c, proto, t);
    case _ => SameMotionMoves(c, c1);
  }

  // ----- Connections -----

  /** The records of a fresh connection, of which `todo` are still to be loaded. */
  ghost predicate Connecting(c: Client, todo: seq<Topic>) {
    forall t :: t in c.channels ==>
      && Backed(c, t)
      && (t in todo || TopicMoves(c, t))
  }

  lemma {:induction false} LoadAllMoves(c: Client, order: seq<Topic>)
    requires Connecting(c, order)
    ensures Moves(LoadAll(c, order))
    decreases |order|
  {
    if order == [] {
      forall t ensures TopicMoves(c, t) {}
    } else {
      var t := order[0];
      var c1 := SetStatus(c, t, WaitingToJoin);
      var d := LoadPayload(c1, t);
      assert Backed(c1, t);
      LoadPayloadTouches(c1, t);
      assert Touches(c, c1, t);
      TouchesChain(c, c1, d, t);
      forall u | u in d.channels ensures Backed(d, u) && (u in order[1..] || TopicMoves(d, u)) {
        if u != t { MovesElsewhere(c, d, t, u); }
      }
      LoadAllMoves(d, order[1..]);
    }
  }

  lemma MovesElsewhere(c: Client, d: Client, t: Topic, u: Topic)
    requires Touches(c, d, t) && u in d.channels && u != t
    ensures u in c.channels && d.channels[u] == c.channels[u]
    ensures P.Active(c.books.proto, u) <==> P.Active(d.books.proto, u)
    ensures Backed(c, u) ==> Backed(d, u)
    ensures TopicMoves(c, u) ==> TopicMoves(d, u)
  {
    Elsewhere(c.channels, d.channels, t, u);
    Elsewhere(c.books.proto.channels, d.books.proto.channels, t, u);
  }

  /** Connecting loads every desired topic. */
  lemma OnConnectMoves(c: Client, order: seq<Topic>)
    requires Quiet(c) && forall t :: t in order <==> t in c.channels && c.channels[t].desired
    ensures Moves(OnConnect(c, order))
  {
    var c1 := Opened(c);
    forall t | t in c1.channels ensures Backed(c1, t) && (t in order || TopicMoves(c1, t)) {
      assert QuietRecord(c.channels[t]);
    }
    LoadAllMoves(c1, order);
  }

  // ----- Turns -----

  /** The one turn that can strand a topic. */
  predicate Stranding(c: Client, a: Action) {
    a.TimerDue? && a.timer.JoinTimer? && Strands(c, a.timer.topic, a.timer.reference)
  }

  lemma RegisterMoves(c: Client, t: Topic)
    requires Moves(c)
    ensures Moves(Register(c, t))
  {
    assert TopicMoves(c, t);
    assert Touches(c, Register(c, t), t);
    TouchedMoves(c, Register(c, t), t);
  }

  lemma HeartbeatMoves(c: Client, net: Net, id: ReqId)
    requires Moves(c) && c.phase.Connected?
    ensures Moves(RequestPing(c, net, id).client) && Moves(HeartbeatTick(c, net).client)
  {
    var c1 := Enter(c, id, Pinging(c.books.proto.next + 1)).(books := BookPing(c.books, id));
    SendFrameIsSteady(c1, net, HandedHeartbeat);
    SameMotionMoves(c, RequestPing(c, net, id).client);
    if c.books.heartbeat.None? {
      SendFrameIsSteady(c.(books := BookHeartbeat(c.books)), net, HandedHeartbeat);
    }
    SameMotionMoves(c, HeartbeatTick(c, net).client);
  }

  lemma ConnectedRequestMoves(c: Client, net: Net, a: Action)
    requires Moves(c) && c.phase.Connected?
    requires a.DoRegister? || a.DoUnregister? || a.DoCancel? || a.DoJoin? || a.DoPush? || a.DoLeave? || a.DoPing? || a.DoShutdown?
    ensures Moves(Act(c, net, a).client)
  {
    match a
    case DoRegister(t) => RegisterMoves(c, t);
    case DoUnregister(t) => UnregisterMoves(c, net, t);
    case DoCancel(id) => CancelMoves(c, id);
    case DoJoin(t, id) => RequestJoinMoves(c, t, id);
    case DoPush(t, id, isCall, event, payload) => RequestPushMoves(c, net, t, id, isCall, event, payload);
    case DoLeave(t, id) => RequestLeaveMoves(c, net, t, id);
    case DoPing(id) => HeartbeatMoves(c, net, id);
    case DoShutdown => SameMotionMoves(c, Shutdown(c));
  }

  lemma ConnectedActMoves(c: Client, net: Net, a: Action)
    requires Moves(c) && c.phase.Connected? && Linked(c.books) && Enabled(c, a) && !Stranding(c, a)
    ensures var turn := Act(c, net, a); turn.exit.None? ==> Moves(turn.client)
  {
    match a
    case FrameArrived(f) =>
      var (proto, result) := P.Receive(c.books.proto, f);
      if result.Ok? { EventMoves(c, proto, net, f, result.value); }
    case HeartbeatDue => HeartbeatMoves(c, net, 0);
    case LoadFinished(t, load, loaded) => PayloadReadyMoves(c, net, t, load, loaded);
    case RejoinDue(t) => RejoinFiredMoves(c, t);
    case TimerDue(JoinTimer(t, r)) => JoinTimedOutMovesIff(c, t, r);
    case TimerDue(LeaveTimer(t, r)) => LeaveTimedOutMoves(c, t, r);
    case DoConnect =>
    case DoDisconnect =>
    case FrameUndecodable =>
    case TransportEnded(_) =>
    case _ => ConnectedRequestMoves(c, net, a);
  }

  lemma StrandingStrands(c: Client, net: Net, a: Action, retry: bool)
    requires Moves(c) && Enabled(c, a) && Stranding(c, a)
    ensures !Moving(Next(c, net, a, retry)) && !NothingStuck(Next(c, net, a, retry))
  {
    JoinTimedOutMovesIff(c, a.timer.topic, a.timer.reference);
    StrandedIsStuck(c, a.timer.topic, a.timer.reference);
    ActKeepsPhase(c, net, a);
  }

  lemma AfterTurnMoves(turn: Turn, a: Action, retry: bool)
    requires turn.exit.None? ==> Moving(turn.client)
    ensures Moving(AfterTurn(turn, a, retry))
  {}

  lemma ActMoves(c: Client, net: Net, a: Action)
    requires Moving(c) && OfflineQuiet(c) && Linked(c.books) && Enabled(c, a) && !Stranding(c, a)
    ensures var turn := Act(c, net, a); turn.exit.None? ==> Moving(turn.client)
  {
    if a.AttemptSucceeded? {
      OnConnectMoves(c, a.order);
    } else if c.phase.Connected? {
      ConnectedActMoves(c, net, a);
    } else if !ChangesPhase(a) {
      ActKeepsPhase(c, net, a);
    }
  }

  /** Every turn but the stranding one keeps every desired topic moving; the stranding
      one leaves its topic stuck. */
  lemma NextMovesIff(c: Client, net: Net, a: Action, retry: bool)
    requires Moving(c) && OfflineQuiet(c) && Linked(c.books) && Enabled(c, a)
    ensures Moving(Next(c, net, a, retry)) <==> !Stranding(c, a)
    ensures Stranding(c, a) ==> !NothingStuck(Next(c, net, a, retry))
  {
    if Stranding(c, a) {
      StrandingStrands(c, net, a, retry);
    } else {
      ActMoves(c, net, a);
      AfterTurnMoves(Act(c, net, a), a, retry);
    }
  }
}
