/** Each turn hands over exactly the frames the table gives it, in order and as far as the
    transport takes them, and ends the connection exactly when the table says. */
module DriverOutbox {
  import opened Wire
  import P = ProtocolSpec
  import opened DriverSpec
  import opened DriverBooks
  import opened DriverFlow
  import opened DriverTable
  import G = DriverLedger
  import C = DriverConservation
  import J = DriverLoads
  import F = DriverOffline

  /** The turn has handed over `out` as far as it could, and ended for no other reason. */
  ghost predicate Sends(c: Client, net: Net, turn: Turn, out: seq<Handed>) {
    && turn.client.trace.wire == c.trace.wire + out[..Min(|out|, Room(net))]
    && turn.exit == if |out| > net.budget then Some(if net.encodes then TransportFailed else CodecFailed) else None
  }

  lemma SendsNothing(c: Client, net: Net, turn: Turn)
    requires turn.client.trace.wire == c.trace.wire && turn.exit.None?
    ensures Sends(c, net, turn, [])
  {
    assert c.trace.wire + [] == c.trace.wire;
  }

  lemma FrameSends(c: Client, d: Client, net: Net, frame: Handed)
    requires d.trace.wire == c.trace.wire
    ensures Sends(c, net, SendFrame(d, net, frame), [frame])
  {
    assert [frame][..1] == [frame] && [frame][..0] == [];
    assert c.trace.wire + [] == c.trace.wire;
  }

  // ----- Pushes -----

  lemma FramesCons(t: Topic, joinRef: Ref, next: Ref, p: Push, rest: seq<Push>)
    ensures FramesOf(t, joinRef, next, [p] + rest) ==
            [HandedPush(t, p.id, p.stamp, true, Frame(Some(joinRef), if p.isCall then Some(next + 1) else None, t, p.event, p.payload))]
            + FramesOf(t, joinRef, next + (if p.isCall then 1 else 0), rest)
  {
    var all := [p] + rest;
    assert all[..0] == [];
    var tail := FramesOf(t, joinRef, next + (if p.isCall then 1 else 0), rest);
    forall k | 0 <= k < |rest| ensures FramesOf(t, joinRef, next, all)[k + 1] == tail[k] {
      CallsCons(p, rest, k);
      assert all[k + 1] == rest[k];
    }
  }

  lemma CallsCons(p: Push, rest: seq<Push>, k: nat)
    requires k <= |rest|
    ensures CallsIn(([p] + rest)[..k + 1]) == (if p.isCall then 1 else 0) + CallsIn(rest[..k])
  {
    assert ([p] + rest)[..k + 1][1..] == rest[..k];
  }

  /** Sending one push hands over its frame, unless the transport cannot carry it. */
  lemma PushSends(c: Client, net: Net, t: Topic, p: Push)
    requires P.IsJoined(c.books.proto, t) && GenerationAccepted(c, t)
    ensures Sends(c, net, SendPush(c, net, t, p),
                  FramesOf(t, c.books.proto.channels[t].joinRef, c.books.proto.next, Sendables([p], net.binary)))
  {
    assert [p][1..] == [];
    var joinRef, next := c.books.proto.channels[t].joinRef, c.books.proto.next;
    if p.payload.Binary? && !net.binary {
      assert Sendables([p], net.binary) == [];
      SendsNothing(c, net, SendPush(c, net, t, p));
    } else {
      assert Sendables([p], net.binary) == [p] == [p] + [];
      FramesCons(t, joinRef, next, p, []);
      FrameSends(c, c, net, HandOver(c, t, p));
      if p.isCall {
        FrameSends(c, c.(books := BookCall(c.books, t, p).0, ledger := Settle(c.ledger, p.id, At(Calling(next + 1)))), net, HandOver(c, t, p));
      }
    }
  }

  /** What sending a push leaves of the protocol: a call takes one reference. */
  lemma PushLeaves(c: Client, net: Net, t: Topic, p: Push)
    requires P.IsJoined(c.books.proto, t)
    ensures var d := SendPush(c, net, t, p).client;
            && d.books.proto.channels == c.books.proto.channels && d.trace.accepted == c.trace.accepted && d.channels == c.channels
            && d.books.proto.next == c.books.proto.next + (if p.isCall && !(p.payload.Binary? && !net.binary) then 1 else 0)
  {
    if p.payload.Binary? && !net.binary {
    } else if p.isCall {
    } else {
    }
  }

  lemma SendsThen(c: Client, m: Client, net: Net, turn: Turn, first: Handed, rest: seq<Handed>)
    requires net.budget > 0 && m.trace.wire == c.trace.wire + [first]
    requires Sends(m, net.(budget := net.budget - 1), turn, rest)
    ensures Sends(c, net, turn, [first] + rest)
  {
    var n := Min(|rest|, Room(net) - 1);
    assert ([first] + rest)[..n + 1] == [first] + rest[..n];
    assert c.trace.wire + ([first] + rest[..n]) == (c.trace.wire + [first]) + rest[..n];
  }

  /** The frames of a joined topic's queue. */
  function QueueFrames(c: Client, t: Topic, binary: bool): seq<Handed>
    requires P.IsJoined(c.books.proto, t) && t in c.channels
  {
    FramesOf(t, c.books.proto.channels[t].joinRef, c.books.proto.next, Sendables(c.channels[t].queued, binary))
  }

  /** The state after the head of a queue has been sent. */
  function HeadSent(c: Client, net: Net, t: Topic): Turn
    requires t in c.channels && c.channels[t].queued != []
  {
    SendPush(PopQueue(c, t), net, t, c.channels[t].queued[0])
  }

  lemma HeadSkipped(c: Client, net: Net, t: Topic)
    requires P.IsJoined(c.books.proto, t) && GenerationAccepted(c, t) && t in c.channels && c.channels[t].queued != []
    requires c.channels[t].queued[0].payload.Binary? && !net.binary
    ensures HeadSent(c, net, t).exit.None? && HeadSent(c, net, t).client.trace == c.trace
    ensures QueueFrames(c, t, net.binary) == QueueFrames(HeadSent(c, net, t).client, t, net.binary)
  {
    var rest := Sendables(c.channels[t].queued[1..], net.binary);
    assert [] + rest == rest;
  }

  lemma HeadFrame(c: Client, net: Net, t: Topic)
    requires P.IsJoined(c.books.proto, t) && GenerationAccepted(c, t) && t in c.channels && c.channels[t].queued != []
    requires !(c.channels[t].queued[0].payload.Binary? && !net.binary)
    ensures var d, frames := HeadSent(c, net, t).client, QueueFrames(c, t, net.binary);
            && frames != [] && Sends(c, net, HeadSent(c, net, t), [frames[0]])
            && frames == [frames[0]] + QueueFrames(d, t, net.binary)
            && GenerationAccepted(d, t)
  {
    var queued, joinRef, next := c.channels[t].queued, c.books.proto.channels[t].joinRef, c.books.proto.next;
    var p, c1 := queued[0], PopQueue(c, t);
    PushSends(c1, net, t, p);
    PushLeaves(c1, net, t, p);
    assert [p][1..] == [];
    assert Sendables([p], net.binary) == [p] + [] == [p];
    FramesCons(t, joinRef, next, p, []);
    FramesCons(t, joinRef, next, p, Sendables(queued[1..], net.binary));
  }

  lemma HeadFailed(c: Client, net: Net, turn: Turn, frames: seq<Handed>)
    requires frames != [] && net.budget == 0 && Sends(c, net, turn, [frames[0]])
    ensures Sends(c, net, turn, frames)
  {
    assert frames[..Min(|frames|, Room(net))] == [frames[0]][..Min(1, Room(net))];
  }

  /** Flushing hands over the frames of the queue in order, the calls on consecutive
      references. */
  lemma {:induction false} FlushSends(c: Client, net: Net, t: Topic)
    requires P.IsJoined(c.books.proto, t) && GenerationAccepted(c, t) && t in c.channels
    ensures Sends(c, net, Flush(c, net, t), QueueFrames(c, t, net.binary))
    decreases |c.channels[t].queued|
  {
    if c.channels[t].queued == [] {
      SendsNothing(c, net, Flush(c, net, t));
    } else {
      var p, turn := c.channels[t].queued[0], HeadSent(c, net, t);
      PushLeaves(PopQueue(c, t), net, t, p);
      if p.payload.Binary? && !net.binary {
        HeadSkipped(c, net, t);
        FlushSends(turn.client, net, t);
      } else {
        HeadFrame(c, net, t);
        var frames := QueueFrames(c, t, net.binary);
        if net.budget > 0 {
          assert [frames[0]][..1] == [frames[0]];
          FlushSends(turn.client, Spend(net, p), t);
          SendsThen(c, turn.client, net, Flush(c, net, t), frames[0], QueueFrames(turn.client, t, net.binary));
        } else {
          HeadFailed(c, net, turn, frames);
        }
      }
    }
  }

  // ----- Turns -----

  /** The turn does what the table says of the wire and the connection. */
  ghost predicate Tabled(c: Client, net: Net, a: Action) {
    Act(c, net, a).client.trace.wire == WireAfter(c, net, a) && Act(c, net, a).exit == Ending(c, net, a)
  }

  lemma SendsIsTabled(c: Client, net: Net, a: Action)
    requires Sends(c, net, Act(c, net, a), Outbox(c, net.binary, a))
    requires !a.DoDisconnect? && !a.FrameUndecodable? && !a.TransportEnded?
    requires a.FrameArrived? ==> P.Receive(c.books.proto, a.frame).1.Ok?
    requires a.HeartbeatDue? ==> c.books.heartbeat.None?
    ensures Tabled(c, net, a)
  {}

  lemma UnregisterSends(c: Client, net: Net, t: Topic)
    requires Flowing(c)
    ensures Sends(c, net, Act(c, net, DoUnregister(t)), Outbox(c, net.binary, DoUnregister(t)))
  {
    FlowFacts(c);
    if Open(c, t) {
      assert P.IsJoined(c.books.proto, t);
      var c1 := Forget(c.(books := c.books.(proto := P.Leave(c.books.proto, t).0)), t);
      FrameSends(c, c1, net, HandedLeave(t, true));
    } else {
      SendsNothing(c, net, Act(c, net, DoUnregister(t)));
    }
  }

  lemma StartLeaveSends(c: Client, net: Net, t: Topic, leave: PendingLeave)
    requires P.IsJoined(c.books.proto, t) && GenerationAccepted(c, t)
    ensures Sends(c, net, StartLeave(c, net, t, leave), [HandedLeave(t, true)])
  {
    var (books, result) := BookLeave(c.books, t, leave);
    var d := c.(books := books, ledger := if leave.open then Settle(c.ledger, leave.id, At(LeavingOn(result.value))) else c.ledger);
    FrameSends(c, d, net, HandedLeave(t, true));
  }

  lemma LeaveSends(c: Client, net: Net, t: Topic, id: ReqId)
    requires Flowing(c)
    ensures Sends(c, net, RequestLeave(c, net, t, id), Outbox(c, net.binary, DoLeave(t, id)))
  {
    FlowFacts(c);
    if Open(c, t) {
      assert P.IsJoined(c.books.proto, t);
      var c2 := StopChannel(SetStatus(Enter(c, id, Deferred(t)), t, Leaving), t);
      assert c2.trace == c.trace && c2.books == c.books;
      StartLeaveSends(c2, net, t, PendingLeave(id, true));
    } else {
      LeaveSendsNothing(c, net, t, id);
      SendsNothing(c, net, RequestLeave(c, net, t, id));
    }
  }

  lemma LeaveSendsNothing(c: Client, net: Net, t: Topic, id: ReqId)
    requires !Open(c, t)
    ensures RequestLeave(c, net, t, id).client.trace == c.trace && RequestLeave(c, net, t, id).exit.None?
  {}

  lemma RequestPushSends(c: Client, net: Net, t: Topic, id: ReqId, isCall: bool, event: string, payload: Payload)
    requires Flowing(c)
    ensures Sends(c, net, RequestPush(c, net, t, id, isCall, event, payload), Outbox(c, net.binary, DoPush(t, id, isCall, event, payload)))
  {
    FlowFacts(c);
    if Open(c, t) {
      assert P.IsJoined(c.books.proto, t);
      PushSends(Stamp(c, t, id), net, t, Push(id, isCall, event, payload, c.trace.stamps));
    } else {
      SendsNothing(c, net, RequestPush(c, net, t, id, isCall, event, payload));
    }
  }

  lemma HeartbeatSends(c: Client, net: Net, id: ReqId)
    ensures Sends(c, net, RequestPing(c, net, id), Outbox(c, net.binary, DoPing(id)))
    ensures c.books.heartbeat.None? ==> Sends(c, net, HeartbeatTick(c, net), [HandedHeartbeat])
  {
    if c.phase.Connected? {
      FrameSends(c, Enter(c, id, Pinging(c.books.proto.next + 1)).(books := BookPing(c.books, id)), net, HandedHeartbeat);
    } else {
      SendsNothing(c, net, RequestPing(c, net, id));
    }
    FrameSends(c, c.(books := BookHeartbeat(c.books)), net, HandedHeartbeat);
  }

  lemma StartJoinSends(c: Client, net: Net, t: Topic, load: nat, params: Value)
    requires !P.Active(c.books.proto, t) && J.Owns(c.trace.latest, t, load)
    ensures Sends(c, net, StartJoin(c, net, t, load, params), [HandedJoin(t, load, true)])
  {
    BookJoinUnjoins(c.books, t, params);
    FrameSends(c, SetStatus(c, t, Joining).(books := BookJoin(c.books, t, params).0), net, HandedJoin(t, load, true));
  }

  lemma PayloadSends(c: Client, net: Net, t: Topic, load: nat, loaded: Option<Value>)
    requires J.Fresh(c)
    ensures Sends(c, net, PayloadReady(c, net, t, load, loaded), Outbox(c, net.binary, LoadFinished(t, load, loaded)))
  {
    if t in c.channels && c.channels[t].activePayload == Some(load) && c.channels[t].desired && loaded.Some? && !P.Active(c.books.proto, t) {
      var c2 := SetRecord(c.(payloads := c.payloads - {(t, load)}), t, c.channels[t].(activePayload := None));
      StartJoinSends(c2, net, t, load, loaded.value);
    } else {
      SendsNothing(c, net, PayloadReady(c, net, t, load, loaded));
    }
  }

  lemma AcceptedSends(c: Client, net: Net, f: Frame, t: Topic, r: Ref, response: Payload)
    requires Linked(c.books) && P.Receive(c.books.proto, f).1 == Ok(P.JoinAccepted(t, r, response))
    ensures Sends(c, net, Incoming(c, net, f), Outbox(c, net.binary, FrameArrived(f)))
  {
    var proto := P.Receive(c.books.proto, f).0;
    AcceptedTopicIsJoined(c.books, f);
    ReceiveKeepsNext(c.books.proto, f);
    ReactsToAccepted(c, net, f, proto, t, r, response);
    OnJoinedSends(c.(books := c.books.(proto := proto)), net, t, r, response);
  }

  lemma ReceiveKeepsNext(v: P.View, f: Frame)
    ensures P.Receive(v, f).0.next == v.next
  {}

  lemma ReactsToAccepted(c: Client, net: Net, f: Frame, proto: P.View, t: Topic, r: Ref, response: Payload)
    requires P.Receive(c.books.proto, f) == (proto, Ok(P.JoinAccepted(t, r, response)))
    ensures Incoming(c, net, f) == OnJoined(c.(books := c.books.(proto := proto)), net, t, r, response)
    ensures Outbox(c, net.binary, FrameArrived(f)) == AfterAcceptance(c, net.binary, t, r)
  {}

  /** The frames that follow an accepted join. */
  function AfterAcceptance(c: Client, binary: bool, t: Topic, r: Ref): seq<Handed> {
    if t !in c.channels then []
    else if c.channels[t].deferred.Some? then [HandedLeave(t, true)]
    else FramesOf(t, r, c.books.proto.next, Sendables(c.channels[t].queued, binary))
  }

  lemma OnJoinedSends(c: Client, net: Net, t: Topic, r: Ref, response: Payload)
    requires P.IsJoined(c.books.proto, t) && c.books.proto.channels[t].joinRef == r
    ensures Sends(c, net, OnJoined(c, net, t, r, response), AfterAcceptance(c, net.binary, t, r))
  {
    var c1 := MarkJoined(c, t, r, response);
    if t !in c.channels {
      SendsNothing(c, net, OnJoined(c, net, t, r, response));
    } else if c.channels[t].deferred.Some? {
      StartLeaveSends(c1, net, t, c.channels[t].deferred.value);
    } else {
      FlushSends(c1, net, t);
    }
  }

  lemma IncomingIsTabled(c: Client, net: Net, f: Frame)
    requires Linked(c.books)
    ensures Tabled(c, net, FrameArrived(f))
  {
    var result := P.Receive(c.books.proto, f).1;
    match result
    case Err(_) => MalformedIsTabled(c, net, f);
    case Ok(JoinAccepted(t, r, response)) =>
      AcceptedSends(c, net, f, t, r, response);
      HeardIsTabled(c, net, f);
    case Ok(event) =>
      QuietEventSends(c, net, f, event);
      HeardIsTabled(c, net, f);
  }

  lemma MalformedIsTabled(c: Client, net: Net, f: Frame)
    requires P.Receive(c.books.proto, f).1.Err?
    ensures Tabled(c, net, FrameArrived(f))
  {
    assert c.trace.wire + [] == c.trace.wire;
  }

  lemma HeardIsTabled(c: Client, net: Net, f: Frame)
    requires P.Receive(c.books.proto, f).1.Ok? && Sends(c, net, Incoming(c, net, f), Outbox(c, net.binary, FrameArrived(f)))
    ensures Tabled(c, net, FrameArrived(f))
  {
    SendsIsTabled(c, net, FrameArrived(f));
  }

  lemma QuietEventSends(c: Client, net: Net, f: Frame, event: P.Event)
    requires P.Receive(c.books.proto, f).1 == Ok(event) && !event.JoinAccepted?
    ensures Sends(c, net, Incoming(c, net, f), Outbox(c, net.binary, FrameArrived(f)))
  {
    SendsNothing(c, net, Incoming(c, net, f));
  }

  lemma {:induction false} LoadAllSendsNothing(c: Client, order: seq<Topic>)
    ensures LoadAll(c, order).trace.wire == c.trace.wire
    decreases |order|
  {
    if order != [] { LoadAllSendsNothing(LoadPayload(SetStatus(c, order[0], WaitingToJoin), order[0]), order[1..]); }
  }

  lemma QuietActSends(c: Client, net: Net, a: Action)
    requires a.DoRegister? || a.DoCancel? || a.DoJoin? || a.DoConnect? || a.DoShutdown? || a.AttemptSucceeded? ||
             a.AttemptFailed? || a.BackoffElapsed? || a.RejoinDue? || a.TimerDue?
    ensures Act(c, net, a).client.trace.wire == c.trace.wire && Act(c, net, a).exit.None?
  {
    match a
    case AttemptSucceeded(order) => LoadAllSendsNothing(Opened(c), order);
    case DoCancel(id) => CancelSendsNothing(c, id);
    case TimerDue(JoinTimer(t, r)) => JoinTimeoutSendsNothing(c, t, r);
    case _ =>
  }

  lemma CancelSendsNothing(c: Client, id: ReqId)
    ensures Cancel(c, id).trace == c.trace
  {}

  lemma JoinTimeoutSendsNothing(c: Client, t: Topic, r: Ref)
    ensures JoinTimedOut(c, t, r).trace == c.trace
  {}

  /** The wire and the end of the connection, for every turn. */
  lemma ActIsTabled(c: Client, net: Net, a: Action)
    requires Linked(c.books) && Flowing(c) && J.Fresh(c)
    ensures Tabled(c, net, a)
  {
    match a
    case FrameArrived(f) => IncomingIsTabled(c, net, f);
    case HeartbeatDue => HeartbeatDueIsTabled(c, net);
    case DoDisconnect => EndIsTabled(c, net, a);
    case FrameUndecodable => EndIsTabled(c, net, a);
    case TransportEnded(_) => EndIsTabled(c, net, a);
    case _ =>
      SendingActs(c, net, a);
      SendsIsTabled(c, net, a);
  }

  lemma EndIsTabled(c: Client, net: Net, a: Action)
    requires a.DoDisconnect? || a.FrameUndecodable? || a.TransportEnded?
    ensures Tabled(c, net, a)
  {
    assert c.trace.wire + [] == c.trace.wire;
  }

  lemma SendingActs(c: Client, net: Net, a: Action)
    requires Linked(c.books) && Flowing(c) && J.Fresh(c)
    requires !a.FrameArrived? && !a.HeartbeatDue? && !a.DoDisconnect? && !a.FrameUndecodable? && !a.TransportEnded?
    ensures Sends(c, net, Act(c, net, a), Outbox(c, net.binary, a))
  {
    match a
    case DoUnregister(t) => UnregisterSends(c, net, t);
    case DoLeave(t, id) => LeaveSends(c, net, t, id);
    case DoPush(t, id, isCall, event, payload) => RequestPushSends(c, net, t, id, isCall, event, payload);
    case DoPing(id) => HeartbeatSends(c, net, id);
    case LoadFinished(t, load, loaded) => PayloadSends(c, net, t, load, loaded);
    case _ =>
      QuietActSends(c, net, a);
      SendsNothing(c, net, Act(c, net, a));
  }

  lemma HeartbeatDueIsTabled(c: Client, net: Net)
    ensures Tabled(c, net, HeartbeatDue)
  {
    if c.books.heartbeat.None? {
      HeartbeatSends(c, net, 0);
      SendsIsTabled(c, net, HeartbeatDue);
    } else {
      assert c.trace.wire + [] == c.trace.wire;
    }
  }

  lemma ActPhase(c: Client, net: Net, a: Action)
    ensures Act(c, net, a).client.phase ==
            match a
            case DoConnect => if c.phase == Idle then Connecting else c.phase
            case DoShutdown => Stopped
            case AttemptSucceeded(_) => Connected
            case AttemptFailed => Backoff
            case BackoffElapsed => Connecting
            case _ => c.phase
  {
    if a.AttemptSucceeded? {
      F.LoadAllKeepsPhase(Opened(c), a.order);
    } else if !F.ChangesPhase(a) {
      F.ActKeepsPhase(c, net, a);
    }
  }

  /** After the whole turn: the wire has grown by those frames and the driver is in the
      phase the table gives. */
  lemma NextIsTabled(c: Client, net: Net, a: Action, retry: bool)
    requires Linked(c.books) && Flowing(c) && J.Fresh(c)
    ensures Next(c, net, a, retry).trace.wire == WireAfter(c, net, a)
    ensures Next(c, net, a, retry).phase == PhaseAfter(c, net, a, retry)
  {
    ActIsTabled(c, net, a);
    ActPhase(c, net, a);
    AfterTurnEnds(Act(c, net, a), a, retry);
  }

  lemma AfterTurnEnds(turn: Turn, a: Action, retry: bool)
    ensures AfterTurn(turn, a, retry).trace.wire == turn.client.trace.wire
    ensures AfterTurn(turn, a, retry).phase ==
            match turn.exit
            case Some(Requested) => Idle
            case Some(_) => if retry then Backoff else Idle
            case None => if a.AttemptFailed? && !retry then Idle else turn.client.phase
  {}
}
