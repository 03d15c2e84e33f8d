/** No topic is desired while a leave is deferred on it, as long as no join is requested
    then: the condition under which no turn strands a topic. */
module DriverDeferral {
  import opened Wire
  import P = ProtocolSpec
  import opened DriverSpec
  import opened DriverOffline
  import opened DriverProgress
  import opened DriverBooks
  import opened DriverLedger
  import F = DriverFates
  import C = DriverConservation

  ghost predicate DeferralSettled(c: Client) {
    forall t :: t in c.channels && c.channels[t].deferred.Some? ==> !c.channels[t].desired
  }

  /** A join is requested for a topic whose leave is deferred. */
  predicate Rejoins(c: Client, a: Action) {
    a.DoJoin? && a.topic in c.channels && c.channels[a.topic].deferred.Some?
  }

  lemma SettledNeverStrands(c: Client, a: Action)
    requires DeferralSettled(c)
    ensures !Stranding(c, a)
  {}

  /** A deferred leave whose responder is gone was silenced by its own cancel. */
  ghost predicate ClosedSilenced(c: Client) {
    forall t :: t in c.channels && c.channels[t].deferred.Some? && !c.channels[t].deferred.value.open ==>
      c.channels[t].deferred.value.id in c.ledger && c.ledger[c.channels[t].deferred.value.id].Silenced?
  }

  ghost predicate ClosedKept(c: Client, d: Client) {
    forall t :: t in d.channels && d.channels[t].deferred.Some? && !d.channels[t].deferred.value.open ==>
      t in c.channels && c.channels[t].deferred == d.channels[t].deferred
  }

  /** No topic newly becomes desired or has a leave newly deferred. */
  ghost predicate Settles(c: Client, d: Client) {
    forall t :: t in d.channels ==>
      && (d.channels[t].desired ==> t in c.channels && c.channels[t].desired)
      && (d.channels[t].deferred.Some? ==> t in c.channels && c.channels[t].deferred == d.channels[t].deferred)
  }

  lemma FlushSettles(c: Client, net: Net, t: Topic)
    ensures Settles(c, Flush(c, net, t).client)
  {
    FlushIsSteady(c, net, t);
  }

  lemma OnJoinedSettles(c: Client, net: Net, t: Topic, r: Ref, response: Payload)
    ensures Settles(c, OnJoined(c, net, t, r, response).client)
  {
    var c1 := MarkJoined(c, t, r, response);
    FlushSettles(c1, net, t);
    if t in c.channels && c.channels[t].deferred.Some? {
      StartLeaveIsSteady(c1, net, t, c.channels[t].deferred.value);
    }
  }

  lemma RequestPushSettles(c: Client, net: Net, t: Topic, id: ReqId, isCall: bool, event: string, payload: Payload)
    ensures Settles(c, RequestPush(c, net, t, id, isCall, event, payload).client)
  {
    var p := Push(id, isCall, event, payload, c.trace.stamps);
    PushIsSteady(Stamp(c, t, id), net, t, p);
    EnqueueSettles(Stamp(c, t, id), t, p);
  }

  lemma EnqueueSettles(c: Client, t: Topic, p: Push)
    ensures Settles(c, Enqueue(c, t, p))
  {}

  lemma RequestLeaveSettles(c: Client, net: Net, t: Topic, id: ReqId)
    ensures DeferralSettled(c) ==> DeferralSettled(RequestLeave(c, net, t, id).client)
    ensures ClosedKept(c, RequestLeave(c, net, t, id).client)
  {
    var state := P.StateOf(c.books.proto, t);
    var status := if c.phase.Connected? && (state == Some(P.Joined) || state == Some(P.Joining)) then Leaving else Left;
    var c2 := StopChannel(SetStatus(Enter(c, id, Deferred(t)), t, status), t);
    assert Settles(c, c2);
    if c.phase.Connected? && state == Some(P.Joined) {
      StartLeaveIsSteady(c2, net, t, PendingLeave(id, true));
    }
  }

  lemma CancelSettles(c: Client, id: ReqId)
    ensures DeferralSettled(c) ==> DeferralSettled(Cancel(c, id))
  {
    if id in c.ledger && c.ledger[id].At? {
      match c.ledger[id].place
      case Waiter(t) =>
      case _ =>
    }
  }

  lemma CancelKeepsClosed(c: Client, id: ReqId)
    requires Conserved(c) && ClosedSilenced(c)
    ensures ClosedSilenced(Cancel(c, id))
  {
    if id in c.ledger && c.ledger[id].At? {
      var place := c.ledger[id].place;
      assert Pending(c.ledger, id) && Holds(c, id, place);
      match place
      case Waiter(t) =>
      case Deferred(t) =>
      case Queue(t) =>
      case Calling(r) => assert Cancel(c, id).channels == c.channels;
      case Pinging(r) => assert Cancel(c, id).channels == c.channels;
      case LeavingOn(r) => assert Cancel(c, id).channels == c.channels;
    }
  }

  lemma JoinTimedOutSettles(c: Client, t: Topic, r: Ref)
    ensures Settles(c, JoinTimedOut(c, t, r))
  {
    if r in c.books.pendingJoins && c.books.pendingJoins[r] == t && t in c.channels {
      if c.channels[t].deferred.Some? {
      } else if c.channels[t].desired {
      }
    }
  }

  lemma {:induction false} LoadAllSettles(c: Client, order: seq<Topic>)
    ensures Settles(c, LoadAll(c, order))
    decreases |order|
  {
    if order != [] {
      LoadAllSettles(LoadPayload(SetStatus(c, order[0], WaitingToJoin), order[0]), order[1..]);
    }
  }

  lemma OnJoinRejectedSettles(c: Client, t: Topic, r: Ref, response: Payload)
    ensures Settles(c, OnJoinRejected(c, t, r, response))
  {}

  lemma OnFailedSettles(c: Client, t: Topic)
    ensures var c1 := c.(books := BookDropJoins(c.books, t));
            Settles(c, ScheduleRejoin(SetStatus(c1, t, Errored), t)) && Settles(c, StopChannel(SetStatus(c1, t, Closed), t))
  {}

  lemma OnLeftSettles(c: Client, t: Topic, r: Ref, response: Payload)
    ensures Settles(c, OnLeft(c, t, r, response))
  {}

  lemma ReactSettles(c: Client, net: Net, event: P.Event)
    ensures Settles(c, React(c, net, event).client)
  {
    match event
    case JoinAccepted(t, r, response) => OnJoinedSettles(c, net, t, r, response);
    case JoinRejected(t, r, response) => OnJoinRejectedSettles(c, t, r, response);
    case Left(t, r, response) => OnLeftSettles(c, t, r, response);
    case Replied(_, _, r, status, response) => assert OnReply(c, r, status, response).channels == c.channels;
    case HeartbeatAck(r, _) => assert OnHeartbeat(c, r).channels == c.channels;
    case ChannelFailed(t, _) => OnFailedSettles(c, t);
    case ChannelClosed(t, _) => OnFailedSettles(c, t);
    case _ =>
  }

  lemma UnregisterSettles(c: Client, net: Net, t: Topic)
    ensures Settles(c, Unregister(c, net, t).client) && Settles(c, Forget(c, t))
  {
    ForgetSettles(c, t);
    if P.IsJoined(c.books.proto, t) {
      var c0 := c.(books := c.books.(proto := P.Leave(c.books.proto, t).0));
      ForgetSettles(c0, t);
      SendFrameIsSteady(Forget(c0, t), net, HandedLeave(t, GenerationAccepted(c, t)));
    }
  }

  lemma ForgetSettles(c: Client, t: Topic)
    ensures Settles(c, Forget(c, t))
  {}

  lemma HeartbeatSettles(c: Client, net: Net, id: ReqId)
    ensures RequestPing(c, net, id).client.channels == c.channels && HeartbeatTick(c, net).client.channels == c.channels
  {}

  lemma CompletionSettles(c: Client, net: Net, a: Action)
    requires a.LoadFinished? || a.RejoinDue? || a.TimerDue?
    ensures Settles(c, Act(c, net, a).client)
  {
    match a
    case LoadFinished(t, load, loaded) => LoadFinishedSettles(c, net, t, load, loaded);
    case TimerDue(JoinTimer(t, r)) => JoinTimedOutSettles(c, t, r);
    case TimerDue(LeaveTimer(t, r)) => LeaveTimedOutSettles(c, t, r);
    case RejoinDue(t) => RejoinFiredSettles(c, t);
  }

  lemma LoadFinishedSettles(c: Client, net: Net, t: Topic, load: nat, loaded: Option<Value>)
    ensures Settles(c, PayloadReady(c, net, t, load, loaded).client)
  {
    if t in c.channels && c.channels[t].activePayload == Some(load) && c.channels[t].desired && loaded.Some? && !P.Active(c.books.proto, t) {
      StartJoinTouches(SetRecord(c.(payloads := c.payloads - {(t, load)}), t, c.channels[t].(activePayload := None)), net, t, load, loaded.value);
    }
  }

  lemma LeaveTimedOutSettles(c: Client, t: Topic, r: Ref)
    ensures Settles(c, LeaveTimedOut(c, t, r))
  {}

  lemma RejoinFiredSettles(c: Client, t: Topic)
    ensures Settles(c, RejoinFired(c, t))
  {}

  lemma RequestSettles(c: Client, net: Net, a: Action)
    requires IsRequest(a)
    ensures DeferralSettled(c) && !Rejoins(c, a) ==> DeferralSettled(Act(c, net, a).client)
    ensures a.DoCancel? || ClosedKept(c, Act(c, net, a).client)
  {
    match a
    case DoRegister(t) => assert Settles(c, Register(c, t));
    case DoUnregister(t) => UnregisterSettles(c, net, t);
    case DoCancel(id) => CancelSettles(c, id);
    case DoJoin(t, id) => RequestJoinSettles(c, t, id);
    case DoPush(t, id, isCall, event, payload) => RequestPushSettles(c, net, t, id, isCall, event, payload);
    case DoLeave(t, id) => RequestLeaveSettles(c, net, t, id);
    case DoPing(id) => HeartbeatSettles(c, net, id);
  }

  lemma ActSettles(c: Client, net: Net, a: Action)
    ensures DeferralSettled(c) && !Rejoins(c, a) ==> DeferralSettled(Act(c, net, a).client)
    ensures a.DoCancel? || ClosedKept(c, Act(c, net, a).client)
  {
    if IsRequest(a) {
      RequestSettles(c, net, a);
    } else {
      match a
      case HeartbeatDue => HeartbeatSettles(c, net, 0);
      case AttemptSucceeded(order) => OnConnectSettles(c, order);
      case FrameArrived(f) =>
        var (proto, result) := P.Receive(c.books.proto, f);
        if result.Ok? { ReactSettles(c.(books := c.books.(proto := proto)), net, result.value); }
      case LoadFinished(_, _, _) => CompletionSettles(c, net, a);
      case RejoinDue(_) => CompletionSettles(c, net, a);
      case TimerDue(_) => CompletionSettles(c, net, a);
      case DoShutdown => assert Settles(c, Shutdown(c));
      case _ =>
    }
  }

  lemma RequestJoinSettles(c: Client, t: Topic, id: ReqId)
    ensures DeferralSettled(c) && !Rejoins(c, DoJoin(t, id)) ==> DeferralSettled(RequestJoin(c, t, id))
    ensures ClosedKept(c, RequestJoin(c, t, id))
  {
    if t in c.channels {
      if !c.phase.Connected? {
      } else if P.IsJoined(c.books.proto, t) {
      } else {
      }
    }
  }

  lemma OnConnectSettles(c: Client, order: seq<Topic>)
    ensures Settles(c, OnConnect(c, order))
  {
    LoadAllSettles(Opened(c), order);
  }

  lemma NextSettles(c: Client, net: Net, a: Action, retry: bool)
    requires DeferralSettled(c) && !Rejoins(c, a)
    ensures DeferralSettled(Next(c, net, a, retry))
  {
    ActSettles(c, net, a);
    AfterTurnSettles(Act(c, net, a), a, retry);
  }

  lemma AfterTurnSettles(turn: Turn, a: Action, retry: bool)
    requires DeferralSettled(turn.client)
    ensures DeferralSettled(AfterTurn(turn, a, retry))
  {
    var d := OnDisconnect(turn.client, AfterTurn(turn, a, retry).phase);
    assert forall t :: t in d.channels ==> d.channels[t].deferred.None?;
  }

  // ----- Leaves on the wire -----

  /** So was a transmitted leave whose responder is gone. */
  ghost predicate ClosedLeavesSilenced(c: Client) {
    forall r :: r in c.books.pendingLeaves && !c.books.pendingLeaves[r].open ==>
      c.books.pendingLeaves[r].id in c.ledger && c.ledger[c.books.pendingLeaves[r].id].Silenced?
  }

  predicate DeferredOn(c: Client, t: Topic, leave: PendingLeave) {
    t in c.channels && c.channels[t].deferred == Some(leave)
  }

  ghost predicate LeavesKept(c: Client, d: Client) {
    forall r :: r in d.books.pendingLeaves && !d.books.pendingLeaves[r].open ==>
      || (r in c.books.pendingLeaves && c.books.pendingLeaves[r] == d.books.pendingLeaves[r])
      || exists t :: DeferredOn(c, t, d.books.pendingLeaves[r])
  }

  lemma StartLeaveKeepsLeaves(c: Client, net: Net, t: Topic, leave: PendingLeave)
    ensures var d := StartLeave(c, net, t, leave).client;
            forall r :: r in d.books.pendingLeaves ==>
              (r in c.books.pendingLeaves && d.books.pendingLeaves[r] == c.books.pendingLeaves[r]) || d.books.pendingLeaves[r] == leave
  {}

  lemma {:induction false} FlushKeepsLeaves(c: Client, net: Net, t: Topic)
    ensures Flush(c, net, t).client.books.pendingLeaves == c.books.pendingLeaves
    decreases if t in c.channels then |c.channels[t].queued| else 0
  {
    if t in c.channels && c.channels[t].queued != [] {
      var p := c.channels[t].queued[0];
      PushKeepsLeaves(PopQueue(c, t), net, t, p);
      var turn := SendPush(PopQueue(c, t), net, t, p);
      if turn.exit.None? { FlushKeepsLeaves(turn.client, Spend(net, p), t); }
    }
  }

  lemma PushKeepsLeaves(c: Client, net: Net, t: Topic, p: Push)
    ensures SendPush(c, net, t, p).client.books.pendingLeaves == c.books.pendingLeaves
    ensures Enqueue(c, t, p).books.pendingLeaves == c.books.pendingLeaves
  {}

  lemma OnJoinedKeepsLeaves(c: Client, net: Net, t: Topic, r: Ref, response: Payload)
    ensures LeavesKept(c, OnJoined(c, net, t, r, response).client)
  {
    var c1 := MarkJoined(c, t, r, response);
    if t in c.channels && c.channels[t].deferred.Some? {
      StartLeaveKeepsLeaves(c1, net, t, c.channels[t].deferred.value);
      assert DeferredOn(c, t, c.channels[t].deferred.value);
    } else {
      FlushKeepsLeaves(c1, net, t);
    }
  }

  lemma RequestLeaveKeepsLeaves(c: Client, net: Net, t: Topic, id: ReqId)
    ensures LeavesKept(c, RequestLeave(c, net, t, id).client)
  {
    var state := P.StateOf(c.books.proto, t);
    var status := if c.phase.Connected? && (state == Some(P.Joined) || state == Some(P.Joining)) then Leaving else Left;
    var c2 := StopChannel(SetStatus(Enter(c, id, Deferred(t)), t, status), t);
    StartLeaveKeepsLeaves(c2, net, t, PendingLeave(id, true));
  }

  lemma {:induction false} LoadAllKeepsBooks(c: Client, order: seq<Topic>)
    ensures LoadAll(c, order).books == c.books
    decreases |order|
  {
    if order != [] { LoadAllKeepsBooks(LoadPayload(SetStatus(c, order[0], WaitingToJoin), order[0]), order[1..]); }
  }

  lemma RejectedKeepsLeaves(c: Client, t: Topic, r: Ref, response: Payload)
    ensures OnJoinRejected(c, t, r, response).books.pendingLeaves == c.books.pendingLeaves
  {}

  lemma FailedKeepsLeaves(c: Client, t: Topic)
    ensures var c1 := c.(books := BookDropJoins(c.books, t));
            && ScheduleRejoin(SetStatus(c1, t, Errored), t).books.pendingLeaves == c.books.pendingLeaves
            && StopChannel(SetStatus(c1, t, Closed), t).books.pendingLeaves == c.books.pendingLeaves
  {}

  lemma OnLeftKeepsLeaves(c: Client, t: Topic, r: Ref, response: Payload)
    ensures LeavesKept(c, OnLeft(c, t, r, response))
  {}

  lemma ReplyKeepsLeaves(c: Client, r: Ref, status: P.ReplyStatus, response: Payload)
    ensures OnReply(c, r, status, response).books.pendingLeaves == c.books.pendingLeaves
    ensures OnHeartbeat(c, r).books.pendingLeaves == c.books.pendingLeaves
  {}

  lemma ReactKeepsLeaves(c: Client, net: Net, event: P.Event)
    ensures LeavesKept(c, React(c, net, event).client)
  {
    match event
    case JoinAccepted(t, r, response) => OnJoinedKeepsLeaves(c, net, t, r, response);
    case JoinRejected(t, r, response) => RejectedKeepsLeaves(c, t, r, response);
    case Left(t, r, response) => OnLeftKeepsLeaves(c, t, r, response);
    case Replied(_, _, r, status, response) => ReplyKeepsLeaves(c, r, status, response);
    case HeartbeatAck(r, status) => ReplyKeepsLeaves(c, r, status, EMPTY_OBJECT);
    case ChannelFailed(t, _) => FailedKeepsLeaves(c, t);
    case ChannelClosed(t, _) => FailedKeepsLeaves(c, t);
    case _ =>
  }

  lemma LoadFinishedKeepsLeaves(c: Client, net: Net, t: Topic, load: nat, loaded: Option<Value>)
    ensures PayloadReady(c, net, t, load, loaded).client.books.pendingLeaves == c.books.pendingLeaves
  {
    if t in c.channels && c.channels[t].activePayload == Some(load) && c.channels[t].desired && loaded.Some? && !P.Active(c.books.proto, t) {
      StartJoinKeepsLeaves(SetRecord(c.(payloads := c.payloads - {(t, load)}), t, c.channels[t].(activePayload := None)), net, t, load, loaded.value);
    }
  }

  lemma StartJoinKeepsLeaves(c: Client, net: Net, t: Topic, load: nat, params: Value)
    ensures StartJoin(c, net, t, load, params).client.books.pendingLeaves == c.books.pendingLeaves
  {}

  lemma JoinTimedOutKeepsLeaves(c: Client, t: Topic, r: Ref)
    ensures JoinTimedOut(c, t, r).books.pendingLeaves == c.books.pendingLeaves
  {}

  lemma LeaveTimedOutKeepsLeaves(c: Client, t: Topic, r: Ref)
    ensures LeavesKept(c, LeaveTimedOut(c, t, r))
  {}

  lemma UnregisterKeepsLeaves(c: Client, net: Net, t: Topic)
    ensures Unregister(c, net, t).client.books.pendingLeaves == c.books.pendingLeaves
    ensures Forget(c, t).books.pendingLeaves == c.books.pendingLeaves
  {}

  lemma HeartbeatKeepsLeaves(c: Client, net: Net, id: ReqId)
    ensures RequestPing(c, net, id).client.books.pendingLeaves == c.books.pendingLeaves
    ensures HeartbeatTick(c, net).client.books.pendingLeaves == c.books.pendingLeaves
  {}

  lemma RequestKeepsLeaves(c: Client, net: Net, a: Action)
    requires IsRequest(a) && !a.DoCancel?
    ensures LeavesKept(c, Act(c, net, a).client)
  {
    match a
    case DoRegister(t) => assert Register(c, t).books == c.books;
    case DoUnregister(t) => UnregisterKeepsLeaves(c, net, t);
    case DoJoin(t, id) => assert RequestJoin(c, t, id).books == c.books;
    case DoPush(t, id, isCall, event, payload) => PushKeepsLeaves(Stamp(c, t, id), net, t, Push(id, isCall, event, payload, c.trace.stamps));
    case DoLeave(t, id) => RequestLeaveKeepsLeaves(c, net, t, id);
    case DoPing(id) => HeartbeatKeepsLeaves(c, net, id);
  }

  lemma ActKeepsLeaves(c: Client, net: Net, a: Action)
    requires !a.DoCancel?
    ensures LeavesKept(c, Act(c, net, a).client)
  {
    if IsRequest(a) {
      RequestKeepsLeaves(c, net, a);
    } else {
      match a
      case AttemptSucceeded(order) =>
        LoadAllKeepsBooks(Opened(c), order);
      case FrameArrived(f) => IncomingKeepsLeaves(c, net, f);
      case LoadFinished(t, load, loaded) => LoadFinishedKeepsLeaves(c, net, t, load, loaded);
      case TimerDue(JoinTimer(t, r)) => JoinTimedOutKeepsLeaves(c, t, r);
      case TimerDue(LeaveTimer(t, r)) => LeaveTimedOutKeepsLeaves(c, t, r);
      case HeartbeatDue => HeartbeatKeepsLeaves(c, net, 0);
      case _ =>
    }
  }

  lemma IncomingKeepsLeaves(c: Client, net: Net, f: Frame)
    ensures LeavesKept(c, Incoming(c, net, f).client)
  {
    var (proto, result) := P.Receive(c.books.proto, f);
    var c1 := c.(books := c.books.(proto := proto));
    if result.Ok? {
      ReactKeepsLeaves(c1, net, result.value);
      assert forall t, leave :: DeferredOn(c1, t, leave) ==> DeferredOn(c, t, leave);
    }
  }

  lemma CancelKeepsClosedLeaves(c: Client, id: ReqId)
    requires Conserved(c) && ClosedLeavesSilenced(c)
    ensures ClosedLeavesSilenced(Cancel(c, id))
  {
    if id in c.ledger && c.ledger[id].At? {
      var place := c.ledger[id].place;
      assert Pending(c.ledger, id) && Holds(c, id, place);
      match place
      case Waiter(t) =>
      case LeavingOn(r) =>
      case _ => assert Cancel(c, id).books.pendingLeaves == c.books.pendingLeaves;
    }
  }

  // ----- Turns -----

  ghost predicate ClosedBySelf(c: Client) {
    ClosedSilenced(c) && ClosedLeavesSilenced(c)
  }

  lemma SilencedStays(l: Ledger, m: Ledger, id: ReqId)
    requires F.Grows(l, m) && id in l && l[id].Silenced?
    requires forall i :: i in m ==> m[i] != Twice
    ensures id in m && m[id].Silenced?
  {
    assert F.May(l[id], m[id]);
  }

  lemma KeptIsSilenced(c: Client, d: Client)
    requires ClosedBySelf(c) && ClosedKept(c, d) && LeavesKept(c, d) && F.Grows(c.ledger, d.ledger) && Conserved(d)
    ensures ClosedBySelf(d)
  {
    forall t | t in d.channels && d.channels[t].deferred.Some? && !d.channels[t].deferred.value.open
      ensures d.channels[t].deferred.value.id in d.ledger && d.ledger[d.channels[t].deferred.value.id].Silenced? {
      SilencedStays(c.ledger, d.ledger, c.channels[t].deferred.value.id);
    }
    forall r | r in d.books.pendingLeaves && !d.books.pendingLeaves[r].open
      ensures d.books.pendingLeaves[r].id in d.ledger && d.ledger[d.books.pendingLeaves[r].id].Silenced? {
      if !(r in c.books.pendingLeaves && c.books.pendingLeaves[r] == d.books.pendingLeaves[r]) {
        var t :| DeferredOn(c, t, d.books.pendingLeaves[r]);
        assert c.channels[t].deferred.Some?;
      }
      SilencedStays(c.ledger, d.ledger, d.books.pendingLeaves[r].id);
    }
  }

  /** The responder of a leave goes before its answer only by cancelling that leave. */
  lemma NextKeepsClosed(c: Client, net: Net, a: Action, retry: bool)
    requires ClosedBySelf(c) && Linked(c.books) && Conserved(c) && Enabled(c, a)
    ensures ClosedBySelf(Next(c, net, a, retry))
  {
    var d := Act(c, net, a).client;
    if a.DoCancel? {
      CancelKeepsClosed(c, a.id);
      CancelKeepsClosedLeaves(c, a.id);
    } else {
      ActSettles(c, net, a);
      ActKeepsLeaves(c, net, a);
      F.ActGrows(c, net, a);
      C.ActConserves(c, net, a);
      KeptIsSilenced(c, d);
    }
    DisconnectDropsLeaves(d, Idle);
    DisconnectDropsLeaves(d, Backoff);
  }

  lemma DisconnectDropsLeaves(c: Client, phase: Phase)
    ensures ClosedBySelf(OnDisconnect(c, phase))
  {
    var d := OnDisconnect(c, phase);
    assert forall t :: t in d.channels ==> d.channels[t].deferred.None?;
  }
}
