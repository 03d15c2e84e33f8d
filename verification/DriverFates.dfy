/** How fates evolve: final ones never change, a request is silenced only by its own
    cancel, and no request enters a queue after it has been anywhere else. */
module DriverFates {
  import opened Wire
  import P = ProtocolSpec
  import opened DriverSpec
  import opened DriverBooks

  /** One request's fate may change from `f` to `g`. */
  predicate May(f: Fate, g: Fate) {
    && (f.At? || g == f || g == Twice)
    && (g.Silenced? ==> f.Silenced?)
    && (g.At? && g.place.Queue? ==> f == g)
  }

  ghost predicate Grows(l: Ledger, m: Ledger) {
    forall id :: id in l ==> id in m && May(l[id], m[id])
  }

  lemma Chain(l: Ledger, m: Ledger, n: Ledger)
    requires Grows(l, m) && Grows(m, n)
    ensures Grows(l, n)
  {}

  lemma SettleGrows(l: Ledger, id: ReqId, f: Fate)
    requires f.Answered? || (f.At? && (f.place.Queue? ==> id in l ==> l[id] == f))
    ensures Grows(l, Settle(l, id, f))
  {}

  lemma SettleAllGrows(l: Ledger, ids: set<ReqId>, a: Answer)
    ensures Grows(l, SettleAll(l, ids, Answered(a)))
  {}

  lemma SettleLeaveGrows(l: Ledger, leave: Option<PendingLeave>, a: Answer)
    ensures Grows(l, SettleLeave(l, leave, a))
  {}

  lemma {:induction false} SettleQueueGrows(l: Ledger, queued: seq<Push>)
    ensures Grows(l, SettleQueue(l, queued))
    decreases |queued|
  {
    if queued != [] {
      var m := Settle(l, queued[0].id, Answered(Interrupted(OperationOf(queued[0]))));
      SettleQueueGrows(m, queued[1..]);
      Chain(l, m, SettleQueue(m, queued[1..]));
    }
  }

  lemma StopChannelGrows(c: Client, t: Topic)
    ensures Grows(c.ledger, StopChannel(c, t).ledger)
  {
    if t in c.channels {
      var rec := c.channels[t];
      var l1 := SettleLeave(c.ledger, rec.deferred, Interrupted(LeaveOp));
      var l2 := SettleAll(l1, rec.waiters, Answered(Interrupted(JoinOp)));
      SettleLeaveGrows(c.ledger, rec.deferred, Interrupted(LeaveOp));
      SettleAllGrows(l1, rec.waiters, Interrupted(JoinOp));
      SettleQueueGrows(l2, rec.queued);
      Chain(c.ledger, l1, l2);
      Chain(c.ledger, l2, SettleQueue(l2, rec.queued));
    }
  }

  lemma PushGrows(c: Client, net: Net, t: Topic, p: Push)
    requires P.IsJoined(c.books.proto, t)
    ensures Grows(c.ledger, SendPush(c, net, t, p).client.ledger)
  {
    if !Unsendable(net, p) && p.isCall {
      var r := BookCall(c.books, t, p).1.value;
      SettleGrows(c.ledger, p.id, At(Calling(r)));
    }
  }

  lemma {:induction false} FlushGrows(c: Client, net: Net, t: Topic)
    requires Linked(c.books) && P.IsJoined(c.books.proto, t)
    ensures Grows(c.ledger, Flush(c, net, t).client.ledger)
    decreases if t in c.channels then |c.channels[t].queued| else 0
  {
    if t in c.channels && c.channels[t].queued != [] {
      var p := c.channels[t].queued[0];
      var c1 := PopQueue(c, t);
      PushGrows(c1, net, t, p);
      CallStaysLinked(c1.books, t, p);
      var turn := SendPush(c1, net, t, p);
      if turn.exit.None? {
        FlushGrows(turn.client, Spend(net, p), t);
        Chain(c.ledger, turn.client.ledger, Flush(turn.client, Spend(net, p), t).client.ledger);
      }
    }
  }

  lemma StartLeaveGrows(c: Client, net: Net, t: Topic, leave: PendingLeave)
    requires P.IsJoined(c.books.proto, t)
    ensures Grows(c.ledger, StartLeave(c, net, t, leave).client.ledger)
  {
    var r := BookLeave(c.books, t, leave).1.value;
    SettleGrows(c.ledger, leave.id, At(LeavingOn(r)));
  }

  // ----- Requests -----

  lemma RequestPushGrows(c: Client, net: Net, t: Topic, id: ReqId, isCall: bool, event: string, payload: Payload)
    requires id !in c.ledger
    ensures Grows(c.ledger, RequestPush(c, net, t, id, isCall, event, payload).client.ledger)
  {
    var p := Push(id, isCall, event, payload, c.trace.stamps);
    var c1 := Stamp(c, t, id);
    assert Grows(c.ledger, c1.ledger);
    if c.phase.Connected? && P.IsJoined(c.books.proto, t) {
      PushGrows(c1, net, t, p);
      Chain(c.ledger, c1.ledger, SendPush(c1, net, t, p).client.ledger);
    } else {
      EnqueueGrows(c1, t, p);
      Chain(c.ledger, c1.ledger, Enqueue(c1, t, p).ledger);
    }
  }

  lemma EnqueueGrows(c: Client, t: Topic, p: Push)
    requires p.id in c.ledger && c.ledger[p.id] == At(Queue(t))
    ensures Grows(c.ledger, Enqueue(c, t, p).ledger)
  {
    if t in c.channels {
      var rec := c.channels[t];
      if rec.everJoined && !rec.desired {
      } else if |rec.queued| < c.capacity {
      }
    }
  }

  lemma RequestLeaveGrows(c: Client, net: Net, t: Topic, id: ReqId)
    requires id !in c.ledger
    ensures Grows(c.ledger, RequestLeave(c, net, t, id).client.ledger)
  {
    var c1 := Enter(c, id, Deferred(t));
    assert Grows(c.ledger, c1.ledger);
    var state := P.StateOf(c.books.proto, t);
    var status := if c.phase.Connected? && (state == Some(P.Joined) || state == Some(P.Joining)) then Leaving else Left;
    var c2 := StopChannel(SetStatus(c1, t, status), t);
    StopChannelGrows(SetStatus(c1, t, status), t);
    Chain(c.ledger, c1.ledger, c2.ledger);
    var d := RequestLeave(c, net, t, id).client;
    if c.phase.Connected? && state == Some(P.Joined) {
      StartLeaveGrows(c2, net, t, PendingLeave(id, true));
    } else if c.phase.Connected? && state == Some(P.Joining) && t in c2.channels {
      SettleGrows(c2.ledger, id, At(Deferred(t)));
    } else {
      SettleGrows(c2.ledger, id, Answered(Accepted(EMPTY_OBJECT)));
    }
    Chain(c.ledger, c2.ledger, d.ledger);
  }

  lemma RequestJoinGrows(c: Client, t: Topic, id: ReqId)
    requires id !in c.ledger
    ensures Grows(c.ledger, RequestJoin(c, t, id).ledger)
  {}

  lemma UnregisterGrows(c: Client, net: Net, t: Topic)
    ensures Grows(c.ledger, Unregister(c, net, t).client.ledger)
  {
    StopChannelGrows(c, t);
    if P.IsJoined(c.books.proto, t) {
      var c1 := c.(books := c.books.(proto := P.Leave(c.books.proto, t).0));
      StopChannelGrows(c1, t);
    }
  }

  // ----- Completions and frames -----

  lemma PayloadReadyGrows(c: Client, net: Net, t: Topic, load: nat, loaded: Option<Value>)
    ensures Grows(c.ledger, PayloadReady(c, net, t, load, loaded).client.ledger)
  {
    if t in c.channels && c.channels[t].activePayload == Some(load) {
      SettleAllGrows(c.ledger, c.channels[t].waiters, LoaderFailed);
      StartJoinKeepsLedger(c, net, t, load);
    }
  }

  lemma StartJoinKeepsLedger(c: Client, net: Net, t: Topic, load: nat)
    ensures forall d: Client, params :: StartJoin(d, net, t, load, params).client.ledger == d.ledger
  {}

  lemma JoinTimedOutGrows(c: Client, t: Topic, r: Ref)
    ensures Grows(c.ledger, JoinTimedOut(c, t, r).ledger)
  {
    if t in c.channels {
      SettleAllGrows(c.ledger, c.channels[t].waiters, Timeout(JoinOp));
      SettleLeaveGrows(c.ledger, c.channels[t].deferred, Timeout(LeaveOp));
      if c.channels[t].deferred.Some? {
      } else if c.channels[t].desired {
      }
    }
  }

  lemma LeaveTimedOutGrows(c: Client, t: Topic, r: Ref)
    ensures Grows(c.ledger, LeaveTimedOut(c, t, r).ledger)
  {
    if r in c.books.pendingLeaves {
      SettleLeaveGrows(c.ledger, Some(c.books.pendingLeaves[r]), Timeout(LeaveOp));
    }
  }

  lemma OnJoinedGrows(c: Client, net: Net, t: Topic, r: Ref, response: Payload)
    requires Linked(BookJoinDone(c.books, r)) && P.IsJoined(c.books.proto, t)
    ensures Grows(c.ledger, OnJoined(c, net, t, r, response).client.ledger)
  {
    var c1 := MarkJoined(c, t, r, response);
    if t in c.channels {
      SettleAllGrows(c.ledger, c.channels[t].waiters, Accepted(response));
    }
    assert Grows(c.ledger, c1.ledger);
    if t in c.channels && c.channels[t].deferred.Some? {
      StartLeaveGrows(c1, net, t, c.channels[t].deferred.value);
    } else {
      FlushGrows(c1, net, t);
    }
    Chain(c.ledger, c1.ledger, OnJoined(c, net, t, r, response).client.ledger);
  }

  lemma OnJoinRejectedGrows(c: Client, t: Topic, r: Ref, response: Payload)
    ensures Grows(c.ledger, OnJoinRejected(c, t, r, response).ledger)
  {
    if t in c.channels {
      var l1 := SettleLeave(c.ledger, c.channels[t].deferred, Accepted(EMPTY_OBJECT));
      SettleLeaveGrows(c.ledger, c.channels[t].deferred, Accepted(EMPTY_OBJECT));
      SettleAllGrows(l1, c.channels[t].waiters, JoinRefused(response));
      Chain(c.ledger, l1, SettleAll(l1, c.channels[t].waiters, Answered(JoinRefused(response))));
    }
  }

  lemma OnLeftGrows(c: Client, t: Topic, r: Ref, response: Payload)
    ensures Grows(c.ledger, OnLeft(c, t, r, response).ledger)
  {
    if r in c.books.pendingLeaves {
      SettleLeaveGrows(c.ledger, Some(c.books.pendingLeaves[r]), Accepted(response));
    }
  }

  lemma ReactGrows(c: Client, net: Net, event: P.Event)
    requires event.JoinAccepted? ==> Linked(BookJoinDone(c.books, event.reference)) && P.IsJoined(c.books.proto, event.topic)
    ensures Grows(c.ledger, React(c, net, event).client.ledger)
  {
    match event
    case JoinAccepted(t, r, response) => OnJoinedGrows(c, net, t, r, response);
    case JoinRejected(t, r, response) => OnJoinRejectedGrows(c, t, r, response);
    case Left(t, r, response) => OnLeftGrows(c, t, r, response);
    case Replied(_, _, r, status, response) =>
      if r in c.books.pendingCalls { SettleGrows(c.ledger, c.books.pendingCalls[r].id, Answered(Replied(status, response))); }
    case HeartbeatAck(r, _) =>
      if r in c.books.pendingPings { SettleGrows(c.ledger, c.books.pendingPings[r], Answered(Pong)); }
    case ChannelClosed(t, _) => StopChannelGrows(SetStatus(c.(books := BookDropJoins(c.books, t)), t, Closed), t);
    case _ =>
  }

  lemma IncomingGrows(c: Client, net: Net, f: Frame)
    requires Linked(c.books)
    ensures Grows(c.ledger, Incoming(c, net, f).client.ledger)
  {
    var (proto, result) := P.Receive(c.books.proto, f);
    var c1 := c.(books := c.books.(proto := proto));
    if result.Ok? {
      if result.value.JoinAccepted? {
        ReceiveStaysLinked(c.books, f);
        AcceptedTopicIsJoined(c.books, f);
        assert BookComplete(c.books, proto, result.value) == BookJoinDone(c1.books, result.value.reference);
      }
      ReactGrows(c1, net, result.value);
    }
  }

  lemma InterruptGrows(c: Client)
    ensures Grows(c.ledger, InterruptAll(c))
  {
    var l1 := SettleAll(c.ledger, CallIds(c.books.pendingCalls), Answered(Interrupted(CallOp)));
    var l2 := SettleAll(l1, c.books.pendingPings.Values, Answered(Interrupted(PingOp)));
    var l3 := SettleAll(l2, OpenLeaves(c.books.pendingLeaves), Answered(Interrupted(LeaveOp)));
    SettleAllGrows(c.ledger, CallIds(c.books.pendingCalls), Interrupted(CallOp));
    SettleAllGrows(l1, c.books.pendingPings.Values, Interrupted(PingOp));
    SettleAllGrows(l2, OpenLeaves(c.books.pendingLeaves), Interrupted(LeaveOp));
    SettleAllGrows(l3, OpenDeferred(c.channels), Interrupted(LeaveOp));
    Chain(c.ledger, l1, l2);
    Chain(c.ledger, l2, l3);
    Chain(c.ledger, l3, InterruptAll(c));
  }

  lemma {:induction false} LoadAllKeepsLedger(c: Client, order: seq<Topic>)
    ensures LoadAll(c, order).ledger == c.ledger
    decreases |order|
  {
    if order != [] {
      LoadAllKeepsLedger(LoadPayload(SetStatus(c, order[0], WaitingToJoin), order[0]), order[1..]);
    }
  }

  // ----- Turns -----

  lemma RequestGrows(c: Client, net: Net, a: Action)
    requires Enabled(c, a) && IsRequest(a) && !a.DoCancel?
    ensures Grows(c.ledger, Act(c, net, a).client.ledger)
  {
    match a
    case DoRegister(t) =>
    case DoUnregister(t) => UnregisterGrows(c, net, t); StopChannelGrows(c, t);
    case DoJoin(t, id) => RequestJoinGrows(c, t, id);
    case DoPush(t, id, isCall, event, payload) => RequestPushGrows(c, net, t, id, isCall, event, payload);
    case DoLeave(t, id) => RequestLeaveGrows(c, net, t, id);
    case DoPing(id) =>
  }

  /** Every action but a cancel only grows the ledger; a cancel also silences its own
      request. */
  lemma ActGrows(c: Client, net: Net, a: Action)
    requires Linked(c.books) && Enabled(c, a) && !a.DoCancel?
    ensures Grows(c.ledger, Act(c, net, a).client.ledger)
  {
    if IsRequest(a) {
      RequestGrows(c, net, a);
    } else {
      match a
      case AttemptSucceeded(order) =>
        LoadAllKeepsLedger(Opened(c), order);
      case FrameArrived(f) => IncomingGrows(c, net, f);
      case LoadFinished(t, load, loaded) => PayloadReadyGrows(c, net, t, load, loaded);
      case TimerDue(JoinTimer(t, r)) => JoinTimedOutGrows(c, t, r);
      case TimerDue(LeaveTimer(t, r)) => LeaveTimedOutGrows(c, t, r);
      case _ =>
    }
  }

  /** At most the fate of `id` changes, and only from pending to silenced. */
  ghost predicate OnlySilences(l: Ledger, m: Ledger, id: ReqId) {
    forall i :: i in l ==> i in m && (m[i] == l[i] || (i == id && l[i].At? && m[i].Silenced?))
  }

  lemma CancelSilencesOne(c: Client, id: ReqId)
    ensures OnlySilences(c.ledger, Cancel(c, id).ledger, id)
  {}

  /** Over one turn no fate that is final changes, except that a second answer would
      show as `Twice`. A cancel silences at most its own request; no other turn silences
      any. */
  lemma NextGrows(c: Client, net: Net, a: Action, retry: bool)
    requires Linked(c.books) && Enabled(c, a)
    ensures var m := Next(c, net, a, retry).ledger;
            if a.DoCancel? then OnlySilences(c.ledger, m, a.id) else Grows(c.ledger, m)
  {
    if a.DoCancel? {
      CancelSilencesOne(c, a.id);
    } else {
      ActGrows(c, net, a);
      AfterTurnGrows(Act(c, net, a), a, retry);
      Chain(c.ledger, Act(c, net, a).client.ledger, Next(c, net, a, retry).ledger);
    }
  }

  lemma AfterTurnGrows(turn: Turn, a: Action, retry: bool)
    ensures Grows(turn.client.ledger, AfterTurn(turn, a, retry).ledger)
  {
    if turn.exit.Some? {
      InterruptGrows(turn.client);
    }
  }
}
