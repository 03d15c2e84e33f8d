/** Join payload freshness: a load yields at most one join, the join carries its
    topic's latest load, and an abandoned load yields none. */
module DriverLoads {
  import opened Wire
  import P = ProtocolSpec
  import opened DriverSpec
  import opened DriverOffline

  // ----- The invariant -----

  ghost predicate Unsent(wire: seq<Handed>, load: nat) {
    forall i :: 0 <= i < |wire| && wire[i].HandedJoin? ==> wire[i].load != load
  }

  /** Every join sent carried its topic's latest load, and no two carried the same. */
  ghost predicate JoinsFresh(wire: seq<Handed>, last: nat) {
    && (forall i :: 0 <= i < |wire| && wire[i].HandedJoin? ==> wire[i].latest && wire[i].load <= last)
    && (forall i, j :: 0 <= i < j < |wire| && wire[i].HandedJoin? && wire[j].HandedJoin? ==> wire[i].load != wire[j].load)
  }

  predicate Owns(latest: map<Topic, nat>, t: Topic, load: nat) {
    t in latest && latest[t] == load
  }

  /** A topic's active load is its latest and has not been sent; no two topics share one. */
  ghost predicate Fresh(c: Client) {
    && JoinsFresh(c.trace.wire, c.nextPayload)
    && (forall t :: t in c.trace.latest ==> c.trace.latest[t] <= c.nextPayload)
    && (forall t, u, load: nat :: Owns(c.trace.latest, t, load) && Owns(c.trace.latest, u, load) ==> t == u)
    && (forall t :: t in c.channels && c.channels[t].activePayload.Some? ==>
          Owns(c.trace.latest, t, c.channels[t].activePayload.value) &&
          Unsent(c.trace.wire, c.channels[t].activePayload.value))
  }

  /** The load is the active one of some topic. */
  ghost predicate Wanted(c: Client, load: nat) {
    exists t :: t in c.channels && c.channels[t].activePayload == Some(load)
  }

  /** A load that was started and that no topic waits for any more. */
  ghost predicate Dead(c: Client, load: nat) {
    load <= c.nextPayload && !Wanted(c, load)
  }

  // ----- Steps -----

  /** Loads become wanted only by being started, and only wanted loads are sent. */
  ghost predicate LoadStep(c: Client, d: Client) {
    && c.nextPayload <= d.nextPayload
    && |c.trace.wire| <= |d.trace.wire| && d.trace.wire[..|c.trace.wire|] == c.trace.wire
    && (forall load: nat :: Wanted(d, load) ==> Wanted(c, load) || load > c.nextPayload)
    && (forall i :: |c.trace.wire| <= i < |d.trace.wire| && d.trace.wire[i].HandedJoin? ==>
          Wanted(c, d.trace.wire[i].load) || d.trace.wire[i].load > c.nextPayload)
  }

  ghost predicate FreshStep(c: Client, d: Client) {
    LoadStep(c, d) && (Fresh(c) ==> Fresh(d))
  }

  lemma StepChain(c: Client, d: Client, e: Client)
    requires FreshStep(c, d) && FreshStep(d, e)
    ensures FreshStep(c, e)
  {
    var n := |c.trace.wire|;
    forall i | 0 <= i < |d.trace.wire| ensures e.trace.wire[i] == d.trace.wire[i] {
      assert e.trace.wire[..|d.trace.wire|][i] == d.trace.wire[i];
    }
    forall i | 0 <= i < n ensures e.trace.wire[i] == c.trace.wire[i] {
      assert d.trace.wire[..n][i] == c.trace.wire[i];
    }
    forall i | n <= i < |e.trace.wire| && e.trace.wire[i].HandedJoin?
      ensures Wanted(c, e.trace.wire[i].load) || e.trace.wire[i].load > c.nextPayload {
      if i >= |d.trace.wire| {
        assert Wanted(d, e.trace.wire[i].load) || e.trace.wire[i].load > d.nextPayload;
      }
    }
    assert e.trace.wire[..n] == c.trace.wire;
  }

  /** A dead load stays dead and is not sent. */
  lemma DeadStaysDead(c: Client, d: Client, load: nat)
    requires FreshStep(c, d) && Dead(c, load)
    ensures Dead(d, load)
    ensures Unsent(d.trace.wire[|c.trace.wire|..], load)
  {
    var sent := d.trace.wire[|c.trace.wire|..];
    forall i | 0 <= i < |sent| && sent[i].HandedJoin? ensures sent[i].load != load {
      assert sent[i] == d.trace.wire[|c.trace.wire| + i];
    }
  }

  /** No load is started or sent; some may be abandoned. */
  ghost predicate Shrinks(c: Client, d: Client) {
    && d.nextPayload == c.nextPayload && d.trace.latest == c.trace.latest && NoJoinSent(c, d)
    && (forall t :: t in d.channels && d.channels[t].activePayload.Some? ==>
          t in c.channels && c.channels[t].activePayload == d.channels[t].activePayload)
  }

  lemma ShrinksIsFresh(c: Client, d: Client)
    requires Shrinks(c, d)
    ensures FreshStep(c, d)
  {
    var n := |c.trace.wire|;
    forall i | 0 <= i < n ensures d.trace.wire[i] == c.trace.wire[i] {
      assert d.trace.wire[..n][i] == c.trace.wire[i];
    }
    if Fresh(c) {
      forall t | t in d.channels && d.channels[t].activePayload.Some?
        ensures Unsent(d.trace.wire, d.channels[t].activePayload.value) {
        assert Unsent(c.trace.wire, c.channels[t].activePayload.value);
      }
    }
  }

  lemma LoadPayloadIsFresh(c: Client, t: Topic)
    ensures FreshStep(c, LoadPayload(c, t))
  {
    var d := LoadPayload(c, t);
    if Fresh(c) && d != c {
      forall u | u in d.channels && d.channels[u].activePayload.Some?
        ensures Owns(d.trace.latest, u, d.channels[u].activePayload.value)
        ensures Unsent(d.trace.wire, d.channels[u].activePayload.value) {
        if u != t {
          assert Owns(c.trace.latest, u, c.channels[u].activePayload.value);
        }
      }
      forall a, b, load: nat | Owns(d.trace.latest, a, load) && Owns(d.trace.latest, b, load) ensures a == b {
        assert a != t ==> Owns(c.trace.latest, a, load);
        assert b != t ==> Owns(c.trace.latest, b, load);
      }
    }
    forall load: nat | Wanted(d, load) ensures Wanted(c, load) || load > c.nextPayload {
      var u :| u in d.channels && d.channels[u].activePayload == Some(load);
      if u != t || d == c {
        assert u in c.channels && c.channels[u].activePayload == Some(load);
      }
    }
  }

  lemma SteadyShrinks(c: Client, d: Client)
    requires Steady(c, d)
    requires forall t :: t in d.channels && d.channels[t].activePayload.Some? ==>
               t in c.channels && c.channels[t].activePayload == d.channels[t].activePayload
    ensures FreshStep(c, d)
  {
    ShrinksIsFresh(c, d);
  }

  // ----- Requests -----

  lemma StopChannelShrinks(c: Client, t: Topic)
    ensures Shrinks(c, StopChannel(c, t)) && Shrinks(c, Forget(c, t))
  {}

  lemma UnregisterIsFresh(c: Client, net: Net, t: Topic)
    ensures FreshStep(c, Unregister(c, net, t).client)
    ensures t !in Unregister(c, net, t).client.channels
    ensures Unregister(c, net, t).client.trace.latest == c.trace.latest
  {
    UnregisterIsSteady(c, net, t);
    SteadyShrinks(c, Unregister(c, net, t).client);
  }

  lemma RequestPushIsFresh(c: Client, net: Net, t: Topic, id: ReqId, isCall: bool, event: string, payload: Payload)
    ensures FreshStep(c, RequestPush(c, net, t, id, isCall, event, payload).client)
  {
    var p := Push(id, isCall, event, payload, c.trace.stamps);
    RequestPushIsSteady(c, net, t, id, isCall, event, payload);
    PushIsSteady(Stamp(c, t, id), net, t, p);
    EnqueueKeepsLoads(Stamp(c, t, id), t, p);
    SteadyShrinks(c, RequestPush(c, net, t, id, isCall, event, payload).client);
  }

  lemma EnqueueKeepsLoads(c: Client, t: Topic, p: Push)
    ensures var d := Enqueue(c, t, p);
            d.channels.Keys == c.channels.Keys && forall u :: u in c.channels ==> d.channels[u].activePayload == c.channels[u].activePayload
  {}

  lemma RequestJoinIsFresh(c: Client, t: Topic, id: ReqId)
    ensures FreshStep(c, RequestJoin(c, t, id))
  {
    if t in c.channels && c.phase.Connected? && !P.IsJoined(c.books.proto, t) {
      var rec := c.channels[t];
      var c1 := SetRecord(Enter(c, id, Waiter(t)), t, rec.(desired := true, status := WaitingToJoin, waiters := rec.waiters + {id}));
      ShrinksIsFresh(c, c1);
      LoadPayloadIsFresh(c1, t);
      StepChain(c, c1, LoadPayload(c1, t));
    } else {
      ShrinksIsFresh(c, RequestJoin(c, t, id));
    }
  }

  lemma RequestLeaveIsFresh(c: Client, net: Net, t: Topic, id: ReqId)
    ensures var d := RequestLeave(c, net, t, id).client;
            FreshStep(c, d) && d.trace.latest == c.trace.latest && (t in d.channels ==> d.channels[t].activePayload.None?)
  {
    var d := RequestLeave(c, net, t, id).client;
    RequestLeaveIsSteady(c, net, t, id);
    LeaveDropsLoad(c, net, t, id);
    SteadyShrinks(c, d);
  }

  lemma LeaveDropsLoad(c: Client, net: Net, t: Topic, id: ReqId)
    ensures var d := RequestLeave(c, net, t, id).client;
            && d.channels.Keys == c.channels.Keys
            && (forall u :: u in d.channels && u != t ==> d.channels[u].activePayload == c.channels[u].activePayload)
            && (t in d.channels ==> d.channels[t].activePayload.None?)
  {
    var state := P.StateOf(c.books.proto, t);
    var status := if c.phase.Connected? && (state == Some(P.Joined) || state == Some(P.Joining)) then Leaving else Left;
    var c2 := StopChannel(SetStatus(Enter(c, id, Deferred(t)), t, status), t);
    StartLeaveIsSteady(c2, net, t, PendingLeave(id, true));
  }

  lemma CancelShrinks(c: Client, id: ReqId)
    ensures Shrinks(c, Cancel(c, id))
  {
    CancelIsSteady(c, id);
    if id in c.ledger && c.ledger[id].At? {
      match c.ledger[id].place
      case Waiter(t) =>
      case _ =>
    }
  }

  lemma FrameIsFresh(c: Client, d: Client, net: Net, frame: Handed)
    requires Shrinks(c, d) && d.trace == c.trace && !frame.HandedJoin?
    ensures FreshStep(c, SendFrame(d, net, frame).client)
  {
    SendFrameIsSteady(d, net, frame);
    ShrinksIsFresh(c, SendFrame(d, net, frame).client);
  }

  // ----- Completions -----

  /** The only turn that sends a join: the finished load was its topic's active one, so it
      is the latest and no other topic waits for it. */
  lemma PayloadReadyIsFresh(c: Client, net: Net, t: Topic, load: nat, loaded: Option<Value>)
    ensures FreshStep(c, PayloadReady(c, net, t, load, loaded).client)
  {
    var c1 := c.(payloads := c.payloads - {(t, load)});
    if t in c.channels && c.channels[t].activePayload == Some(load) && c.channels[t].desired && loaded.Some? && !P.Active(c.books.proto, t) {
      StartJoinIsFresh(c, net, t, load, loaded.value);
    } else {
      ShrinksIsFresh(c, PayloadReady(c, net, t, load, loaded).client);
    }
  }

  lemma StartJoinIsFresh(c: Client, net: Net, t: Topic, load: nat, params: Value)
    requires t in c.channels && c.channels[t].activePayload == Some(load)
    ensures var c2 := SetRecord(c.(payloads := c.payloads - {(t, load)}), t, c.channels[t].(activePayload := None));
            FreshStep(c, StartJoin(c2, net, t, load, params).client)
  {
    var c2 := SetRecord(c.(payloads := c.payloads - {(t, load)}), t, c.channels[t].(activePayload := None));
    var (books, ok) := BookJoin(c2.books, t, params);
    var frame := HandedJoin(t, load, Owns(c.trace.latest, t, load));
    var c3 := SetStatus(c2, t, Joining).(books := books);
    var d := StartJoin(c2, net, t, load, params).client;
    if !ok || (net.budget == 0 && !net.encodes) {
      ShrinksIsFresh(c, d);
    } else {
      assert d == Hand(c3, frame);
      assert d.trace.wire[..|c.trace.wire|] == c.trace.wire;
      assert Wanted(c, load);
      forall other: nat | Wanted(d, other) ensures Wanted(c, other) {
        var u :| u in d.channels && d.channels[u].activePayload == Some(other);
        assert u in c.channels && c.channels[u].activePayload == Some(other);
      }
      if Fresh(c) {
        JoinSentIsFresh(c, d, t, load);
      }
    }
  }

  lemma JoinSentIsFresh(c: Client, d: Client, t: Topic, load: nat)
    requires Fresh(c) && t in c.channels && c.channels[t].activePayload == Some(load)
    requires d.trace == c.trace.(wire := c.trace.wire + [HandedJoin(t, load, Owns(c.trace.latest, t, load))])
    requires d.nextPayload == c.nextPayload && d.channels.Keys == c.channels.Keys && d.channels[t].activePayload.None?
    requires forall u :: u in c.channels && u != t ==> d.channels[u].activePayload == c.channels[u].activePayload
    ensures Fresh(d)
  {
    assert Owns(c.trace.latest, t, load) && Unsent(c.trace.wire, load);
    forall u | u in d.channels && d.channels[u].activePayload.Some?
      ensures Unsent(d.trace.wire, d.channels[u].activePayload.value) {
      var other := c.channels[u].activePayload.value;
      assert Owns(c.trace.latest, u, other) && Unsent(c.trace.wire, other);
      assert other != load;
    }
  }

  lemma RejoinFiredIsFresh(c: Client, t: Topic)
    ensures FreshStep(c, RejoinFired(c, t))
  {
    var c1 := c.(rejoins := c.rejoins - multiset{t});
    ShrinksIsFresh(c, c1);
    if t in c.channels {
      var c2 := SetRecord(c1, t, c.channels[t].(rejoinScheduled := false));
      ShrinksIsFresh(c, c2);
      LoadPayloadIsFresh(c2, t);
      StepChain(c, c2, LoadPayload(c2, t));
    }
  }

  lemma JoinTimedOutShrinks(c: Client, t: Topic, r: Ref)
    ensures Shrinks(c, JoinTimedOut(c, t, r))
  {
    if r in c.books.pendingJoins && c.books.pendingJoins[r] == t && t in c.channels {
      if c.channels[t].deferred.Some? {
      } else if c.channels[t].desired {
      }
    }
  }

  /** The topic has left the protocol: it may start a new load. */
  lemma ReleasedIsFresh(c: Client, d: Client, t: Topic)
    requires Shrinks(c, d)
    ensures FreshStep(c, LoadPayload(SetStatus(d, t, WaitingToJoin), t)) && FreshStep(c, SetStatus(d, t, Left))
  {
    ShrinksIsFresh(c, SetStatus(d, t, Left));
    ShrinksIsFresh(c, SetStatus(d, t, WaitingToJoin));
    LoadPayloadIsFresh(SetStatus(d, t, WaitingToJoin), t);
    StepChain(c, SetStatus(d, t, WaitingToJoin), LoadPayload(SetStatus(d, t, WaitingToJoin), t));
  }

  lemma LeaveTimedOutIsFresh(c: Client, t: Topic, r: Ref)
    ensures FreshStep(c, LeaveTimedOut(c, t, r))
  {
    var c1 := c.(books := c.books.(timers := c.books.timers - {LeaveTimer(t, r)}));
    if r !in c.books.pendingLeaves {
      ShrinksIsFresh(c, c1);
    } else {
      var c2 := c1.(ledger := SettleLeave(c.ledger, Some(c.books.pendingLeaves[r]), Timeout(LeaveOp)),
                    books := BookDiscard(c1.books.(pendingLeaves := c.books.pendingLeaves - {r}), t));
      ReleasedIsFresh(c, c2, t);
    }
  }

  // ----- Incoming frames -----

  lemma OnJoinedIsFresh(c: Client, net: Net, t: Topic, r: Ref, response: Payload)
    ensures FreshStep(c, OnJoined(c, net, t, r, response).client)
  {
    OnJoinedIsSteady(c, net, t, r, response);
    var c1 := MarkJoined(c, t, r, response);
    if t in c.channels && c.channels[t].deferred.Some? {
      StartLeaveIsSteady(c1, net, t, c.channels[t].deferred.value);
    } else {
      FlushIsSteady(c1, net, t);
    }
    SteadyShrinks(c, OnJoined(c, net, t, r, response).client);
  }

  lemma OnLeftIsFresh(c: Client, t: Topic, r: Ref, response: Payload)
    ensures FreshStep(c, OnLeft(c, t, r, response))
  {
    var c1 := if r in c.books.pendingLeaves then
                c.(books := c.books.(pendingLeaves := c.books.pendingLeaves - {r}),
                   ledger := SettleLeave(c.ledger, Some(c.books.pendingLeaves[r]), Accepted(response)))
              else c;
    ReleasedIsFresh(c, c1, t);
  }

  lemma OnJoinRejectedShrinks(c: Client, t: Topic, r: Ref, response: Payload)
    ensures Shrinks(c, OnJoinRejected(c, t, r, response))
  {}

  lemma OnFailedShrinks(c: Client, t: Topic)
    ensures var c1 := c.(books := BookDropJoins(c.books, t));
            Shrinks(c, ScheduleRejoin(SetStatus(c1, t, Errored), t)) && Shrinks(c, StopChannel(SetStatus(c1, t, Closed), t))
  {
    var c1 := SetStatus(c.(books := BookDropJoins(c.books, t)), t, Closed);
    StopChannelShrinks(c1, t);
  }

  lemma ReactIsFresh(c: Client, net: Net, event: P.Event)
    ensures FreshStep(c, React(c, net, event).client)
  {
    match event
    case JoinAccepted(t, r, response) => OnJoinedIsFresh(c, net, t, r, response);
    case JoinRejected(t, r, response) =>
      OnJoinRejectedShrinks(c, t, r, response);
      ShrinksIsFresh(c, OnJoinRejected(c, t, r, response));
    case Left(t, r, response) => OnLeftIsFresh(c, t, r, response);
    case Replied(_, _, r, status, response) => ShrinksIsFresh(c, OnReply(c, r, status, response));
    case HeartbeatAck(r, _) => ShrinksIsFresh(c, OnHeartbeat(c, r));
    case ChannelFailed(t, _) =>
      OnFailedShrinks(c, t);
      ShrinksIsFresh(c, React(c, net, event).client);
    case ChannelClosed(t, _) =>
      OnFailedShrinks(c, t);
      ShrinksIsFresh(c, React(c, net, event).client);
    case _ => ShrinksIsFresh(c, c);
  }

  lemma IncomingIsFresh(c: Client, net: Net, f: Frame)
    ensures FreshStep(c, Incoming(c, net, f).client)
  {
    var (proto, result) := P.Receive(c.books.proto, f);
    var c1 := c.(books := c.books.(proto := proto));
    ShrinksIsFresh(c, c1);
    if result.Ok? {
      ReactIsFresh(c1, net, result.value);
      StepChain(c, c1, React(c1, net, result.value).client);
    }
  }

  // ----- Turns -----

  lemma {:induction false} LoadAllIsFresh(c: Client, order: seq<Topic>)
    ensures FreshStep(c, LoadAll(c, order))
    decreases |order|
  {
    if order == [] {
      ShrinksIsFresh(c, c);
    } else {
      var c1 := SetStatus(c, order[0], WaitingToJoin);
      ShrinksIsFresh(c, c1);
      LoadPayloadIsFresh(c1, order[0]);
      StepChain(c, c1, LoadPayload(c1, order[0]));
      LoadAllIsFresh(LoadPayload(c1, order[0]), order[1..]);
      StepChain(c, LoadPayload(c1, order[0]), LoadAll(c, order));
    }
  }

  lemma OnConnectIsFresh(c: Client, order: seq<Topic>)
    ensures FreshStep(c, OnConnect(c, order))
  {
    var c1 := Opened(c);
    ShrinksIsFresh(c, c1);
    LoadAllIsFresh(c1, order);
    StepChain(c, c1, LoadAll(c1, order));
  }

  lemma HeartbeatIsFresh(c: Client, net: Net, id: ReqId)
    ensures FreshStep(c, RequestPing(c, net, id).client) && FreshStep(c, HeartbeatTick(c, net).client)
  {
    PingIsFresh(c, net, id);
    if c.books.heartbeat.None? {
      FrameIsFresh(c, c.(books := BookHeartbeat(c.books)), net, HandedHeartbeat);
    } else {
      ShrinksIsFresh(c, c);
    }
  }

  lemma PingIsFresh(c: Client, net: Net, id: ReqId)
    ensures FreshStep(c, RequestPing(c, net, id).client)
  {
    if c.phase.Connected? {
      FrameIsFresh(c, Enter(c, id, Pinging(c.books.proto.next + 1)).(books := BookPing(c.books, id)), net, HandedHeartbeat);
    } else {
      ShrinksIsFresh(c, RequestPing(c, net, id).client);
    }
  }

  lemma RequestIsFresh(c: Client, net: Net, a: Action)
    requires a.DoRegister? || a.DoUnregister? || a.DoCancel? || a.DoJoin? || a.DoPush? || a.DoLeave? || a.DoPing?
    ensures FreshStep(c, Act(c, net, a).client)
  {
    match a
    case DoRegister(t) => ShrinksIsFresh(c, Register(c, t));
    case DoUnregister(t) =>
      if c.phase.Connected? {
        UnregisterIsFresh(c, net, t);
      } else {
        StopChannelShrinks(c, t);
        ShrinksIsFresh(c, Forget(c, t));
      }
    case DoCancel(id) =>
      CancelShrinks(c, id);
      ShrinksIsFresh(c, Cancel(c, id));
    case DoJoin(t, id) => RequestJoinIsFresh(c, t, id);
    case DoPush(t, id, isCall, event, payload) => RequestPushIsFresh(c, net, t, id, isCall, event, payload);
    case DoLeave(t, id) => RequestLeaveIsFresh(c, net, t, id);
    case DoPing(id) => HeartbeatIsFresh(c, net, id);
  }

  lemma ActIsFresh(c: Client, net: Net, a: Action)
    ensures FreshStep(c, Act(c, net, a).client)
  {
    match a
    case AttemptSucceeded(order) => OnConnectIsFresh(c, order);
    case FrameArrived(f) => IncomingIsFresh(c, net, f);
    case HeartbeatDue => HeartbeatIsFresh(c, net, 0);
    case LoadFinished(t, load, loaded) => PayloadReadyIsFresh(c, net, t, load, loaded);
    case RejoinDue(t) => RejoinFiredIsFresh(c, t);
    case TimerDue(JoinTimer(t, r)) =>
      JoinTimedOutShrinks(c, t, r);
      ShrinksIsFresh(c, JoinTimedOut(c, t, r));
    case TimerDue(LeaveTimer(t, r)) => LeaveTimedOutIsFresh(c, t, r);
    case DoConnect => ShrinksIsFresh(c, Act(c, net, a).client);
    case DoDisconnect => ShrinksIsFresh(c, c);
    case DoShutdown => ShrinksIsFresh(c, Shutdown(c));
    case AttemptFailed => ShrinksIsFresh(c, Act(c, net, a).client);
    case BackoffElapsed => ShrinksIsFresh(c, Act(c, net, a).client);
    case FrameUndecodable => ShrinksIsFresh(c, c);
    case TransportEnded(_) => ShrinksIsFresh(c, c);
    case _ => RequestIsFresh(c, net, a);
  }

  lemma NextIsFresh(c: Client, net: Net, a: Action, retry: bool)
    ensures FreshStep(c, Next(c, net, a, retry))
  {
    ActIsFresh(c, net, a);
    AfterTurnIsFresh(Act(c, net, a), a, retry);
    StepChain(c, Act(c, net, a).client, Next(c, net, a, retry));
  }

  lemma AfterTurnIsFresh(turn: Turn, a: Action, retry: bool)
    ensures FreshStep(turn.client, AfterTurn(turn, a, retry))
  {
    ShrinksIsFresh(turn.client, AfterTurn(turn, a, retry));
  }

  // ----- Abandoned loads -----

  /** A topic that drops its active load abandons it for good. */
  lemma DroppedIsDead(c: Client, d: Client, t: Topic, load: nat)
    requires Fresh(c) && FreshStep(c, d) && d.trace.latest == c.trace.latest
    requires t in c.channels && c.channels[t].activePayload == Some(load)
    requires t in d.channels ==> d.channels[t].activePayload != Some(load)
    ensures Dead(d, load)
  {
    assert Owns(c.trace.latest, t, load);
    forall u | u in d.channels && u != t ensures d.channels[u].activePayload != Some(load) {
      assert d.channels[u].activePayload.Some? ==> Owns(d.trace.latest, u, d.channels[u].activePayload.value);
    }
  }

  lemma LeaveAbandons(c: Client, net: Net, t: Topic, id: ReqId, load: nat)
    requires Fresh(c) && t in c.channels && c.channels[t].activePayload == Some(load)
    ensures Dead(RequestLeave(c, net, t, id).client, load)
  {
    RequestLeaveIsFresh(c, net, t, id);
    DroppedIsDead(c, RequestLeave(c, net, t, id).client, t, load);
  }

  lemma UnregisterAbandons(c: Client, net: Net, t: Topic, load: nat)
    requires Fresh(c) && t in c.channels && c.channels[t].activePayload == Some(load)
    ensures Dead(Unregister(c, net, t).client, load)
  {
    UnregisterIsFresh(c, net, t);
    DroppedIsDead(c, Unregister(c, net, t).client, t, load);
  }

  /** Cancelling the last waiter of a channel that never joined. */
  lemma CancelAbandons(c: Client, t: Topic, id: ReqId, load: nat)
    requires Fresh(c) && t in c.channels && c.channels[t].activePayload == Some(load)
    requires id in c.ledger && c.ledger[id] == At(Waiter(t))
    requires c.channels[t].waiters == {id} && !c.channels[t].everJoined
    ensures Dead(Cancel(c, id), load)
  {
    CancelShrinks(c, id);
    ShrinksIsFresh(c, Cancel(c, id));
    assert c.channels[t].waiters - {id} == {};
    DroppedIsDead(c, Cancel(c, id), t, load);
  }

  lemma JoinTimeoutAbandons(c: Client, t: Topic, r: Ref, load: nat)
    requires Fresh(c) && t in c.channels && c.channels[t].activePayload == Some(load)
    requires r in c.books.pendingJoins && c.books.pendingJoins[r] == t
    ensures Dead(JoinTimedOut(c, t, r), load)
  {
    JoinTimedOutShrinks(c, t, r);
    ShrinksIsFresh(c, JoinTimedOut(c, t, r));
    if c.channels[t].deferred.Some? {
    } else if c.channels[t].desired {
    }
    DroppedIsDead(c, JoinTimedOut(c, t, r), t, load);
  }

  lemma DisconnectAbandons(c: Client, phase: Phase, t: Topic, load: nat)
    requires Fresh(c) && t in c.channels && c.channels[t].activePayload == Some(load)
    ensures Dead(OnDisconnect(c, phase), load)
  {
    ShrinksIsFresh(c, OnDisconnect(c, phase));
    DroppedIsDead(c, OnDisconnect(c, phase), t, load);
  }
}
