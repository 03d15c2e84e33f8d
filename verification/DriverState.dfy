/** The managed client's driver in the source's own form: an object that updates its
    maps, queues and flags in place. Each method is tied to the function of the same
    name in `DriverSpec`; what holds over every run is proved about those functions.

    `ledger` and `trace` record what an observer sees: which responders have been used
    and which frames were handed to the transport. `net` is the transport's side of a
    turn: how many frames it still takes. */
module DriverObject {
  import opened Wire
  import opened ProtocolObject
  import P = ProtocolSpec
  import opened S = DriverSpec
  import opened DriverLedger
  import opened DriverDeferral
  import C = DriverConservation
  import R = DriverRuns

  // ----- Draining a set of responders one at a time -----

  lemma SettleNone(l: Ledger, f: Fate)
    ensures SettleAll(l, {}, f) == l
  {}

  lemma SettleOneMore(l: Ledger, done: set<ReqId>, id: ReqId, f: Fate)
    requires id !in done
    ensures SettleAll(l, done + {id}, f) == Settle(SettleAll(l, done, f), id, f)
  {
    assert SettleAll(l, done + {id}, f).Keys == Settle(SettleAll(l, done, f), id, f).Keys;
  }

  lemma NothingDrained(l: Ledger, all: set<ReqId>, f: Fate)
    ensures SettleAll(l, all - all, f) == l
  {
    assert all - all == {};
  }

  /** One more of `all` is settled; `rest` are still to come. */
  lemma OneMoreDrained(l: Ledger, all: set<ReqId>, rest: set<ReqId>, id: ReqId, f: Fate)
    requires rest + {id} <= all && id !in rest
    ensures SettleAll(l, all - rest, f) == Settle(SettleAll(l, all - (rest + {id}), f), id, f)
  {
    assert all - rest == (all - (rest + {id})) + {id};
    SettleOneMore(l, all - (rest + {id}), id, f);
  }

  // ----- Removing a queued push -----

  lemma {:induction false} WithoutIdAt(queued: seq<Push>, i: nat)
    requires i < |queued| && forall j :: 0 <= j < i ==> queued[j].id != queued[i].id
    ensures WithoutId(queued, queued[i].id) == queued[..i] + queued[i + 1..]
    decreases i
  {
    if i == 0 {
      assert queued[..0] + queued[1..] == queued[1..];
    } else {
      var tail := queued[1..];
      assert forall j :: 0 <= j < |tail| ==> tail[j] == queued[j + 1];
      WithoutIdAt(tail, i - 1);
      assert [queued[0]] + (tail[..i - 1] + tail[i..]) == queued[..i] + queued[i + 1..];
    }
  }

  datatype Held = InDeferred(topic: Topic) | InQueue(topic: Topic, index: nat) | Nowhere

  class DriverState {
    const protocol: Protocol
    const pushBufferCapacity: nat
    var channels: map<Topic, Record>
    var pendingJoins: map<Ref, Topic>
    var pendingCalls: map<Ref, PendingCall>
    var pendingPings: map<Ref, ReqId>
    var pendingLeaves: map<Ref, PendingLeave>
    var nextPayloadId: nat
    // what `run` and `run_connected` keep beside the object
    var phase: Phase
    var payloads: set<(Topic, nat)>
    var rejoins: multiset<Topic>
    var operationTimeouts: set<Timer>
    var heartbeatReference: Option<Ref>
    // what an observer sees
    var ledger: Ledger
    var trace: Trace

    ghost function BooksView(): Books
      reads this, protocol
    {
      Books(protocol.View(), pendingJoins, pendingCalls, pendingPings, pendingLeaves, heartbeatReference, operationTimeouts)
    }

    ghost function View(): Client
      reads this, protocol
    {
      Client(BooksView(), channels, nextPayloadId, pushBufferCapacity, phase, payloads, rejoins, ledger, trace)
    }

    constructor (capacity: nat, connectOnStart: bool)
      ensures View() == Start(capacity, connectOnStart)
      ensures fresh(protocol)
    {
      protocol := new Protocol();
      pushBufferCapacity := capacity;
      channels, pendingJoins, pendingCalls, pendingPings, pendingLeaves := map[], map[], map[], map[], map[];
      nextPayloadId := 0;
      phase := if connectOnStart then Connecting else Idle;
      payloads, rejoins, operationTimeouts, heartbeatReference := {}, multiset{}, {}, None;
      ledger, trace := map[], Trace([], 0, {}, map[]);
    }

    // ----- Responders -----

    method Send(id: ReqId, a: Answer)
      modifies this`ledger
      ensures View() == Respond(old(View()), id, a)
    {
      ledger := Settle(ledger, id, Answered(a));
    }

    /** Answers and removes every join waiter of a topic. */
    method DrainWaiters(t: Topic, a: Answer)
      requires t in channels
      modifies this`ledger, this`channels
      ensures channels == old(channels)[t := old(channels)[t].(waiters := {})]
      ensures ledger == SettleAll(old(ledger), old(channels)[t].waiters, Answered(a))
    {
      var left := channels[t].waiters;
      ghost var done := {};
      SettleNone(ledger, Answered(a));
      while left != {}
        invariant channels == old(channels)
        invariant done !! left && done + left == old(channels)[t].waiters
        invariant ledger == SettleAll(old(ledger), done, Answered(a))
        decreases left
      {
        var id :| id in left;
        SettleOneMore(old(ledger), done, id, Answered(a));
        left := left - {id};
        done := done + {id};
        ledger := Settle(ledger, id, Answered(a));
      }
      assert done == old(channels)[t].waiters;
      channels := channels[t := channels[t].(waiters := {})];
    }

    /** Interrupts and removes every queued push of a topic, oldest first. */
    method DrainQueue(t: Topic)
      requires t in channels
      modifies this`ledger, this`channels
      ensures channels == old(channels)[t := old(channels)[t].(queued := [])]
      ensures ledger == SettleQueue(old(ledger), old(channels)[t].queued)
    {
      var queued := channels[t].queued;
      while queued != []
        invariant channels == old(channels)
        invariant SettleQueue(ledger, queued) == SettleQueue(old(ledger), old(channels)[t].queued)
        decreases |queued|
      {
        ledger := Settle(ledger, queued[0].id, Answered(Interrupted(OperationOf(queued[0]))));
        queued := queued[1..];
      }
      channels := channels[t := channels[t].(queued := [])];
    }

    method TakeDeferred(t: Topic, a: Answer)
      requires t in channels
      modifies this`ledger, this`channels
      ensures channels == old(channels)[t := old(channels)[t].(deferred := None)]
      ensures ledger == SettleLeave(old(ledger), old(channels)[t].deferred, a)
    {
      var pending := channels[t].deferred;
      channels := channels[t := channels[t].(deferred := None)];
      if pending.Some? && pending.value.open {
        Send(pending.value.id, a);
      }
    }

    method SetStatus(t: Topic, status: Status)
      modifies this`channels
      ensures View() == S.SetStatus(old(View()), t, status)
      ensures channels == if t in old(channels) then old(channels)[t := old(channels)[t].(status := status)] else old(channels)
    {
      if t in channels {
        channels := channels[t := channels[t].(status := status)];
      }
    }

    // ----- Channels -----

    method Register(t: Topic)
      modifies this`channels
      ensures View() == S.Register(old(View()), t)
    {
      if t !in channels {
        channels := channels[t := FRESH];
      }
    }

    method StopChannel(t: Topic)
      modifies this`channels, this`ledger
      ensures View() == S.StopChannel(old(View()), t)
    {
      if t in channels {
        StopKnown(t);
      }
    }

    method StopKnown(t: Topic)
      requires t in channels
      modifies this`channels, this`ledger
      ensures var rec := old(channels)[t];
              channels == old(channels)[t := rec.(desired := false, activePayload := None, rejoinScheduled := false,
                                                  deferred := None, waiters := {}, queued := [])]
      ensures var rec := old(channels)[t];
              var l1 := SettleLeave(old(ledger), rec.deferred, Interrupted(LeaveOp));
              ledger == SettleQueue(SettleAll(l1, rec.waiters, Answered(Interrupted(JoinOp))), rec.queued)
    {
      channels := channels[t := channels[t].(desired := false, activePayload := None, rejoinScheduled := false)];
      TakeDeferred(t, Interrupted(LeaveOp));
      DrainWaiters(t, Interrupted(JoinOp));
      DrainQueue(t);
    }

    method Unregister(t: Topic)
      modifies this, protocol
      ensures View() == Forget(old(View()), t)
    {
      StopChannel(t);
      channels := channels - {t};
      var _ := protocol.DiscardChannel(t);
    }

    method Queue(t: Topic, p: Push)
      modifies this`channels, this`ledger
      ensures View() == Enqueue(old(View()), t, p)
    {
      if t in channels {
        var channel := channels[t];
        if channel.everJoined && !channel.desired {
          Send(p.id, ChannelNotJoined);
          return;
        }
        if |channel.queued| < pushBufferCapacity {
          channels := channels[t := channel.(queued := channel.queued + [p])];
          ledger := Settle(ledger, p.id, At(Place.Queue(t)));
        } else {
          Send(p.id, PushBufferFull);
        }
      } else {
        Send(p.id, Interrupted(OperationOf(p)));
      }
    }

    method LoadPayload(t: Topic)
      modifies this`channels, this`nextPayloadId, this`payloads, this`trace
      ensures View() == S.LoadPayload(old(View()), t)
    {
      if t !in channels {
        return;
      }
      if !channels[t].desired || channels[t].activePayload.Some? {
        return;
      }
      var state := protocol.ChannelState(t);
      if state == Some(P.Joining) || state == Some(P.Joined) || state == Some(P.Leaving) {
        assert P.Active(protocol.View(), t);
        return;
      }
      assert !P.Active(protocol.View(), t);
      StartLoad(t);
    }

    method StartLoad(t: Topic)
      requires t in channels
      modifies this`channels, this`nextPayloadId, this`payloads, this`trace
      ensures var id := old(nextPayloadId) + 1;
              && nextPayloadId == id && payloads == old(payloads) + {(t, id)}
              && channels == old(channels)[t := old(channels)[t].(status := WaitingToJoin, activePayload := Some(id))]
              && trace == old(trace).(latest := old(trace).latest[t := id])
    {
      nextPayloadId := nextPayloadId + 1;
      channels := channels[t := channels[t].(status := WaitingToJoin, activePayload := Some(nextPayloadId))];
      payloads := payloads + {(t, nextPayloadId)};
      trace := trace.(latest := trace.latest[t := nextPayloadId]);
    }

    method ScheduleRejoin(t: Topic)
      modifies this`channels, this`rejoins
      ensures View() == S.ScheduleRejoin(old(View()), t)
    {
      if t !in channels {
        return;
      }
      if !channels[t].desired || channels[t].rejoinScheduled {
        return;
      }
      channels := channels[t := channels[t].(rejoinScheduled := true)];
      rejoins := rejoins + multiset{t};
    }

    // ----- Frames -----

    method SendFrame(net: Net, frame: Handed) returns (exit: Option<Reason>)
      modifies this`trace
      ensures Turn(View(), exit) == S.SendFrame(old(View()), net, frame)
    {
      if net.budget == 0 && !net.encodes {
        return Some(CodecFailed);
      }
      trace := trace.(wire := trace.wire + [frame]);
      exit := if net.budget > 0 then None else Some(TransportFailed);
    }

    function Backed(t: Topic): (b: bool)
      reads this, protocol
      ensures b == GenerationAccepted(View(), t)
    {
      t in protocol.channels && protocol.channels[t].joinRef in trace.accepted
    }

    method SendPush(net: Net, t: Topic, p: Push) returns (exit: Option<Reason>)
      modifies this, protocol
      ensures Turn(View(), exit) == S.SendPush(old(View()), net, t, p)
    {
      if p.payload.Binary? && !net.binary {
        Send(p.id, BinaryNotSupported);
        return None;
      }
      var backed := Backed(t);
      if p.isCall {
        var outbound := protocol.Push(t, p.event, p.payload);
        if outbound.Err? {
          ledger := Settle(ledger, p.id, Silenced);
          return Some(ProtocolMisused);
        }
        var reference := outbound.value.reference;
        pendingCalls := pendingCalls[reference := PendingCall(p.id, t)];
        ledger := Settle(ledger, p.id, At(Calling(reference)));
        exit := SendFrame(net, HandedPush(t, p.id, p.stamp, backed, outbound.value.frame));
      } else {
        var frame := protocol.Cast(t, p.event, p.payload);
        if frame.Err? {
          ledger := Settle(ledger, p.id, Silenced);
          return Some(ProtocolMisused);
        }
        exit := SendFrame(net, HandedPush(t, p.id, p.stamp, backed, frame.value));
        Send(p.id, if exit.None? then Sent else Interrupted(CastOp));
      }
    }

    method Flush(start: Net, t: Topic) returns (exit: Option<Reason>)
      modifies this, protocol
      ensures Turn(View(), exit) == S.Flush(old(View()), start, t)
    {
      var net := start;
      while t in channels && channels[t].queued != []
        invariant S.Flush(View(), net, t) == S.Flush(old(View()), start, t)
        decreases if t in channels then |channels[t].queued| else 0
      {
        var push := channels[t].queued[0];
        ghost var before := View();
        channels := channels[t := channels[t].(queued := channels[t].queued[1..])];
        assert View() == PopQueue(before, t);
        exit := SendPush(net, t, push);
        if exit.Some? {
          return;
        }
        net := Spend(net, push);
      }
      exit := None;
    }

    // ----- Requests -----

    method RequestPush(net: Net, t: Topic, id: ReqId, isCall: bool, event: string, payload: Payload) returns (exit: Option<Reason>)
      modifies this, protocol
      ensures Turn(View(), exit) == S.RequestPush(old(View()), net, t, id, isCall, event, payload)
    {
      var push := Push.Push(id, isCall, event, payload, trace.stamps);
      ledger := ledger[id := At(Place.Queue(t))];
      trace := trace.(stamps := trace.stamps + 1);
      assert View() == Stamp(old(View()), t, id);
      var state := protocol.ChannelState(t);
      if phase.Connected? && state == Some(P.Joined) {
        exit := SendPush(net, t, push);
      } else {
        Queue(t, push);
        exit := None;
      }
    }

    method RequestPing(net: Net, id: ReqId) returns (exit: Option<Reason>)
      modifies this, protocol
      ensures Turn(View(), exit) == S.RequestPing(old(View()), net, id)
    {
      if !phase.Connected? {
        ledger := ledger[id := At(Pinging(0))];
        Send(id, SocketNotConnected);
        return None;
      }
      var outbound := protocol.Heartbeat();
      ledger := ledger[id := At(Pinging(outbound.reference))];
      pendingPings := pendingPings[outbound.reference := id];
      exit := SendFrame(net, HandedHeartbeat);
    }

    method RequestJoin(t: Topic, id: ReqId)
      modifies this
      ensures View() == S.RequestJoin(old(View()), t, id)
    {
      ledger := ledger[id := At(Waiter(t))];
      var state := protocol.ChannelState(t);
      if t !in channels {
        Send(id, UnknownTopic);
        return;
      }
      var channel := channels[t];
      if !phase.Connected? {
        channels := channels[t := channel.(desired := true, status := WaitingForSocket, waiters := channel.waiters + {id})];
      } else if state == Some(P.Joined) {
        channels := channels[t := channel.(desired := true, status := Joined)];
        Send(id, AlreadyJoined);
      } else {
        channels := channels[t := channel.(desired := true, status := WaitingToJoin, waiters := channel.waiters + {id})];
        LoadPayload(t);
      }
    }

    method StartLeave(net: Net, t: Topic, leave: PendingLeave) returns (exit: Option<Reason>)
      modifies this, protocol
      ensures Turn(View(), exit) == S.StartLeave(old(View()), net, t, leave)
    {
      var backed := Backed(t);
      var outbound := protocol.Leave(t);
      if outbound.Err? {
        if leave.open {
          ledger := Settle(ledger, leave.id, Silenced);
        }
        return Some(ProtocolMisused);
      }
      var reference := outbound.value.reference;
      pendingLeaves := pendingLeaves[reference := leave];
      if leave.open {
        ledger := Settle(ledger, leave.id, At(LeavingOn(reference)));
      }
      operationTimeouts := operationTimeouts + {LeaveTimer(t, reference)};
      exit := SendFrame(net, HandedLeave(t, backed));
    }

    method RequestLeave(net: Net, t: Topic, id: ReqId) returns (exit: Option<Reason>)
      modifies this, protocol
      ensures Turn(View(), exit) == S.RequestLeave(old(View()), net, t, id)
    {
      ledger := ledger[id := At(Deferred(t))];
      if !phase.Connected? {
        SetStatus(t, Left);
        StopChannel(t);
        Send(id, Accepted(EMPTY_OBJECT));
        return None;
      }
      var state := protocol.ChannelState(t);
      SetStatus(t, if state == Some(P.Joined) || state == Some(P.Joining) then Leaving else Left);
      StopChannel(t);
      if state == Some(P.Joined) {
        exit := StartLeave(net, t, PendingLeave.PendingLeave(id, true));
        return;
      }
      if state == Some(P.Joining) && t in channels {
        channels := channels[t := channels[t].(deferred := Some(PendingLeave.PendingLeave(id, true)))];
        ledger := Settle(ledger, id, At(Deferred(t)));
      } else {
        Send(id, Accepted(EMPTY_OBJECT));
      }
      exit := None;
    }

    /** The leave of a joined topic is asked for before the topic is forgotten, and sent
        after; nobody waits for its reply. */
    method RequestUnregister(net: Net, t: Topic) returns (exit: Option<Reason>)
      modifies this, protocol
      ensures Turn(View(), exit) == S.Unregister(old(View()), net, t)
    {
      var state := protocol.ChannelState(t);
      if state != Some(P.Joined) {
        Unregister(t);
        return None;
      }
      var backed := Backed(t);
      var leave := protocol.Leave(t);
      Unregister(t);
      if leave.Ok? {
        exit := SendFrame(net, HandedLeave(t, backed));
      } else {
        exit := None;
      }
    }

    // ----- Cancelling -----

    method FindWaiter(id: ReqId) returns (found: Option<Topic>)
      ensures found.Some? ==> found.value in channels && id in channels[found.value].waiters
      ensures found.None? ==> forall t :: t in channels ==> id !in channels[t].waiters
    {
      var left := channels.Keys;
      while left != {}
        invariant left <= channels.Keys
        invariant forall t :: t in channels && t !in left ==> id !in channels[t].waiters
        decreases left
      {
        var t :| t in left;
        if id in channels[t].waiters {
          return Some(t);
        }
        left := left - {t};
      }
      found := None;
    }

    method PositionOf(queued: seq<Push>, id: ReqId) returns (position: Option<nat>)
      ensures position.Some? ==> position.value < |queued| && queued[position.value].id == id
      ensures position.Some? ==> forall j :: 0 <= j < position.value ==> queued[j].id != id
      ensures position.None? ==> forall p :: p in queued ==> p.id != id
    {
      var i := 0;
      while i < |queued|
        invariant 0 <= i <= |queued|
        invariant forall j :: 0 <= j < i ==> queued[j].id != id
      {
        if queued[i].id == id {
          return Some(i);
        }
        i := i + 1;
      }
      position := None;
    }

    method FindHeld(id: ReqId) returns (held: Held)
      ensures held.InDeferred? ==>
                held.topic in channels && channels[held.topic].deferred.Some? && channels[held.topic].deferred.value.id == id
      ensures held.InQueue? ==>
                held.topic in channels && held.index < |channels[held.topic].queued| && channels[held.topic].queued[held.index].id == id &&
                forall j :: 0 <= j < held.index ==> channels[held.topic].queued[j].id != id
      ensures held.Nowhere? ==> forall t :: t in channels ==>
                (channels[t].deferred.Some? ==> channels[t].deferred.value.id != id) && forall p :: p in channels[t].queued ==> p.id != id
    {
      var left := channels.Keys;
      while left != {}
        invariant left <= channels.Keys
        invariant forall t :: t in channels && t !in left ==>
                    (channels[t].deferred.Some? ==> channels[t].deferred.value.id != id) && forall p :: p in channels[t].queued ==> p.id != id
        decreases left
      {
        var t :| t in left;
        if channels[t].deferred.Some? && channels[t].deferred.value.id == id {
          return InDeferred(t);
        }
        var position := PositionOf(channels[t].queued, id);
        if position.Some? {
          return InQueue(t, position.value);
        }
        left := left - {t};
      }
      held := Nowhere;
    }

    method FindCall(id: ReqId) returns (found: Option<Ref>)
      ensures found.Some? ==> found.value in pendingCalls && pendingCalls[found.value].id == id
      ensures found.None? ==> forall r :: r in pendingCalls ==> pendingCalls[r].id != id
    {
      var left := pendingCalls.Keys;
      while left != {}
        invariant left <= pendingCalls.Keys
        invariant forall r :: r in pendingCalls && r !in left ==> pendingCalls[r].id != id
        decreases left
      {
        var r :| r in left;
        if pendingCalls[r].id == id {
          return Some(r);
        }
        left := left - {r};
      }
      found := None;
    }

    method FindPing(id: ReqId) returns (found: Option<Ref>)
      ensures found.Some? ==> found.value in pendingPings && pendingPings[found.value] == id
      ensures found.None? ==> forall r :: r in pendingPings ==> pendingPings[r] != id
    {
      var left := pendingPings.Keys;
      while left != {}
        invariant left <= pendingPings.Keys
        invariant forall r :: r in pendingPings && r !in left ==> pendingPings[r] != id
        decreases left
      {
        var r :| r in left;
        if pendingPings[r] == id {
          return Some(r);
        }
        left := left - {r};
      }
      found := None;
    }

    method FindLeave(id: ReqId) returns (found: Option<Ref>)
      ensures found.Some? ==> found.value in pendingLeaves && pendingLeaves[found.value].id == id
      ensures found.None? ==> forall r :: r in pendingLeaves ==> pendingLeaves[r].id != id
    {
      var left := pendingLeaves.Keys;
      while left != {}
        invariant left <= pendingLeaves.Keys
        invariant forall r :: r in pendingLeaves && r !in left ==> pendingLeaves[r].id != id
        decreases left
      {
        var r :| r in left;
        if pendingLeaves[r].id == id {
          return Some(r);
        }
        left := left - {r};
      }
      found := None;
    }

    /** Searches the containers for the request's responder, in the source's order, and
        drops it. That this silences exactly the request rests on the conservation of
        responders. */
    method Cancel(id: ReqId)
      requires Conserved(View()) && ClosedBySelf(View())
      modifies this, protocol
      ensures View() == S.Cancel(old(View()), id)
    {
      ghost var before := View();
      var waiting := FindWaiter(id);
      if waiting.Some? {
        assert Holds(before, id, Waiter(waiting.value));
        CancelWaiter(waiting.value, id);
        return;
      }
      var held := FindHeld(id);
      match held
      case InDeferred(t) =>
        var pending := channels[t].deferred.value;
        assert pending.open ==> Holds(before, id, Deferred(t));
        if pending.open {
          ledger := Settle(ledger, id, Silenced);
        }
        channels := channels[t := channels[t].(deferred := Some(pending.(open := false)))];
        assert !pending.open ==> channels == before.channels;
      case InQueue(t, index) =>
        var queued := channels[t].queued;
        assert queued[index] in queued;
        assert Holds(before, id, Place.Queue(t));
        WithoutIdAt(queued, index);
        ledger := Settle(ledger, id, Silenced);
        channels := channels[t := channels[t].(queued := queued[..index] + queued[index + 1..])];
      case Nowhere =>
        assert IsAt(before, id) ==> Pending(before.ledger, id) && Holds(before, id, before.ledger[id].place);
        CancelTransmitted(id);
    }

    method CancelWaiter(t: Topic, id: ReqId)
      requires t in channels && id in channels[t].waiters
      modifies this, protocol
      ensures View() == S.CancelWaiter(old(View()), t, id)
    {
      var channel := channels[t];
      ledger := Settle(ledger, id, Silenced);
      channels := channels[t := channel.(waiters := channel.waiters - {id})];
      if channels[t].waiters == {} && !channel.everJoined {
        channels := channels[t := channels[t].(desired := false, activePayload := None, status := Left)];
        pendingJoins := map r | r in pendingJoins && pendingJoins[r] != t :: pendingJoins[r];
        var _ := protocol.DiscardChannel(t);
      }
    }

    method ForgetCall(id: ReqId)
      requires Conserved(View())
      modifies this, protocol
      ensures View() == if IsAt(old(View()), id) && old(ledger)[id].place.Calling? then S.Cancel(old(View()), id) else old(View())
    {
      ghost var before := View();
      assert IsAt(before, id) ==> Pending(before.ledger, id) && Holds(before, id, before.ledger[id].place);
      var call := FindCall(id);
      if call.Some? {
        assert Holds(before, id, Calling(call.value));
        ledger := Settle(ledger, id, Silenced);
        pendingCalls := pendingCalls - {call.value};
        var _ := protocol.ForgetPush(call.value);
      }
    }

    method ForgetPing(id: ReqId)
      requires Conserved(View())
      modifies this, protocol
      ensures View() == if IsAt(old(View()), id) && old(ledger)[id].place.Pinging? then S.Cancel(old(View()), id) else old(View())
    {
      ghost var before := View();
      assert IsAt(before, id) ==> Pending(before.ledger, id) && Holds(before, id, before.ledger[id].place);
      var ping := FindPing(id);
      if ping.Some? {
        assert Holds(before, id, Pinging(ping.value));
        ledger := Settle(ledger, id, Silenced);
        pendingPings := pendingPings - {ping.value};
        var _ := protocol.ForgetHeartbeat(ping.value);
      }
    }

    method CloseLeave(id: ReqId)
      requires Conserved(View()) && ClosedBySelf(View())
      modifies this
      ensures View() == if IsAt(old(View()), id) && old(ledger)[id].place.LeavingOn? then S.Cancel(old(View()), id) else old(View())
    {
      ghost var before := View();
      assert IsAt(before, id) ==> Pending(before.ledger, id) && Holds(before, id, before.ledger[id].place);
      var leave := FindLeave(id);
      if leave.Some? {
        var pending := pendingLeaves[leave.value];
        assert pending.open ==> Holds(before, id, LeavingOn(leave.value));
        if pending.open {
          ledger := Settle(ledger, id, Silenced);
        }
        pendingLeaves := pendingLeaves[leave.value := pending.(open := false)];
        assert !pending.open ==> pendingLeaves == before.books.pendingLeaves;
      }
    }

    /** The three searches over what has been transmitted; at most one finds the request. */
    method CancelTransmitted(id: ReqId)
      requires Conserved(View()) && ClosedBySelf(View())
      requires IsAt(View(), id) ==> !ledger[id].place.Waiter? && !ledger[id].place.Deferred? && !ledger[id].place.Queue?
      modifies this, protocol
      ensures View() == S.Cancel(old(View()), id)
    {
      CancelledOnce(View(), id);
      ForgetCall(id);
      ForgetPing(id);
      CloseLeave(id);
    }

    // ----- Completions of one connection -----

    method HandlePayload(net: Net, t: Topic, load: nat, loaded: Option<Value>) returns (exit: Option<Reason>)
      modifies this, protocol
      ensures Turn(View(), exit) == PayloadReady(old(View()), net, t, load, loaded)
    {
      exit := None;
      payloads := payloads - {(t, load)};
      if t in channels && channels[t].activePayload == Some(load) {
        channels := channels[t := channels[t].(activePayload := None)];
        if channels[t].desired {
          if loaded.None? {
            FailJoin(t, Errored, LoaderFailed, false);
          } else {
            var state := protocol.ChannelState(t);
            if state != Some(P.Joining) && state != Some(P.Joined) && state != Some(P.Leaving) {
              assert !P.Active(protocol.View(), t);
              exit := SendJoin(net, t, load, loaded.value);
            }
          }
        }
      }
    }

    /** Answers every join waiter with a failure. */
    method FailJoin(t: Topic, status: Status, a: Answer, desired: bool)
      requires t in channels
      modifies this`channels, this`ledger
      ensures View() == SetRecord(old(View()), t, old(channels)[t].(desired := desired, status := status, waiters := {}))
                          .(ledger := SettleAll(old(ledger), old(channels)[t].waiters, Answered(a)))
    {
      ghost var rec := channels[t];
      channels := channels[t := channels[t].(desired := desired, status := status)];
      DrainWaiters(t, a);
      assert channels == old(channels)[t := rec.(desired := desired, status := status, waiters := {})];
    }

    method BookJoin(t: Topic, params: Value) returns (ok: bool)
      modifies this`pendingJoins, this`operationTimeouts, protocol
      ensures (BooksView(), ok) == S.BookJoin(old(BooksView()), t, params)
    {
      var outbound;
      var state := protocol.ChannelState(t);
      if state.Some? {
        outbound := protocol.Rejoin(t, params);
      } else {
        outbound := protocol.Join(t, params);
      }
      ok := outbound.Ok?;
      if ok {
        pendingJoins := pendingJoins[outbound.value.reference := t];
        operationTimeouts := operationTimeouts + {JoinTimer(t, outbound.value.reference)};
      }
    }

    method SendJoin(net: Net, t: Topic, load: nat, params: Value) returns (exit: Option<Reason>)
      modifies this, protocol
      ensures Turn(View(), exit) == StartJoin(old(View()), net, t, load, params)
    {
      var ok := BookJoin(t, params);
      if !ok {
        return Some(ProtocolMisused);
      }
      SetStatus(t, Joining);
      exit := SendFrame(net, HandedJoin(t, load, t in trace.latest && trace.latest[t] == load));
    }

    method HandleHeartbeat(net: Net) returns (exit: Option<Reason>)
      modifies this, protocol
      ensures Turn(View(), exit) == HeartbeatTick(old(View()), net)
    {
      if heartbeatReference.Some? {
        return Some(HeartbeatTimeout);
      }
      var outbound := protocol.Heartbeat();
      heartbeatReference := Some(outbound.reference);
      exit := SendFrame(net, HandedHeartbeat);
    }

    method HandleRejoin(t: Topic)
      modifies this
      ensures View() == RejoinFired(old(View()), t)
    {
      rejoins := rejoins - multiset{t};
      if t in channels {
        channels := channels[t := channels[t].(rejoinScheduled := false)];
        if channels[t].desired {
          LoadPayload(t);
        }
      }
    }

    method HandleJoinTimeout(t: Topic, r: Ref)
      modifies this, protocol
      ensures View() == JoinTimedOut(old(View()), t, r)
    {
      JoinTimedOutExpires(View(), t, r);
      var own := r in pendingJoins && pendingJoins[r] == t;
      pendingJoins := pendingJoins - {r};
      operationTimeouts := operationTimeouts - {JoinTimer(t, r)};
      if own {
        var _ := protocol.DiscardChannel(t);
        ExpireJoin(t);
      }
    }

    method ExpireJoin(t: Topic)
      modifies this
      ensures View() == JoinExpired(old(View()), t)
    {
      if t in channels {
        ghost var rec := channels[t].(activePayload := None);
        channels := channels[t := channels[t].(activePayload := None)];
        ghost var dropped := View();
        if channels[t].deferred.Some? {
          TimeOutDeferred(t);
        } else if channels[t].desired {
          RetryJoin(t);
        } else {
          SetStatus(t, Left);
        }
        RecordedTwice(old(View()), t, rec);
        assert dropped == SetRecord(old(View()), t, rec);
      }
    }

    lemma RecordedTwice(c: Client, t: Topic, rec: Record)
      ensures forall later: Record :: SetRecord(SetRecord(c, t, rec), t, later) == SetRecord(c, t, later)
    {
      forall later: Record ensures SetRecord(SetRecord(c, t, rec), t, later) == SetRecord(c, t, later) {
        assert c.channels[t := rec][t := later] == c.channels[t := later];
      }
    }

    method RetryJoin(t: Topic)
      requires t in channels && channels[t].desired
      modifies this`channels, this`ledger, this`rejoins
      ensures var rec := old(channels)[t];
              View() == S.ScheduleRejoin(SetRecord(old(View()), t, rec.(status := Errored, waiters := {}))
                                           .(ledger := SettleAll(old(ledger), rec.waiters, Answered(Timeout(JoinOp)))), t)
    {
      FailJoin(t, Errored, Timeout(JoinOp), true);
      ScheduleRejoin(t);
    }

    method TimeOutDeferred(t: Topic)
      requires t in channels
      modifies this`channels, this`ledger
      ensures View() == SetRecord(old(View()), t, old(channels)[t].(deferred := None, status := Left))
                          .(ledger := SettleLeave(old(ledger), old(channels)[t].deferred, Timeout(LeaveOp)))
    {
      ghost var rec := channels[t];
      TakeDeferred(t, Timeout(LeaveOp));
      SetStatus(t, Left);
      assert channels == old(channels)[t := rec.(deferred := None, status := Left)];
    }

    method HandleLeaveTimeout(t: Topic, r: Ref)
      modifies this, protocol
      ensures View() == LeaveTimedOut(old(View()), t, r)
    {
      operationTimeouts := operationTimeouts - {LeaveTimer(t, r)};
      if r !in pendingLeaves {
        return;
      }
      var pending := pendingLeaves[r];
      pendingLeaves := pendingLeaves - {r};
      if pending.open {
        Send(pending.id, Timeout(LeaveOp));
      }
      var _ := protocol.DiscardChannel(t);
      Released(t);
    }

    /** The topic has left the protocol: it loads its payload again if it is desired. */
    method Released(t: Topic)
      modifies this
      ensures View() == if t in old(channels) && old(channels)[t].desired then S.LoadPayload(S.SetStatus(old(View()), t, WaitingToJoin), t)
                        else S.SetStatus(old(View()), t, Left)
    {
      var again := t in channels && channels[t].desired;
      SetStatus(t, if again then WaitingToJoin else Left);
      if again {
        LoadPayload(t);
      }
    }

    // ----- Incoming frames -----

    method HandleIncoming(net: Net, f: Frame) returns (exit: Option<Reason>)
      modifies this, protocol
      ensures Turn(View(), exit) == Incoming(old(View()), net, f)
    {
      var received := protocol.Receive(f);
      if received.Err? {
        return Some(MalformedReply);
      }
      exit := React(net, received.value);
    }

    method React(net: Net, event: P.Event) returns (exit: Option<Reason>)
      modifies this, protocol
      ensures Turn(View(), exit) == S.React(old(View()), net, event)
    {
      exit := None;
      match event
      case JoinAccepted(t, r, response) =>
        exit := OnJoined(net, t, r, response);
      case JoinRejected(t, r, response) =>
        OnJoinRejected(t, r, response);
      case Left(t, r, response) =>
        OnLeft(t, r, response);
      case Replied(_, _, r, status, response) =>
        OnReply(r, status, response);
      case HeartbeatAck(r, _) =>
        OnHeartbeat(r);
      case ChannelFailed(t, _) =>
        DropJoins(t);
        SetStatus(t, Errored);
        ScheduleRejoin(t);
      case ChannelClosed(t, _) =>
        DropJoins(t);
        SetStatus(t, Status.Closed);
        StopChannel(t);
      case _ =>
    }

    method DropJoins(t: Topic)
      modifies this`pendingJoins
      ensures View() == old(View()).(books := BookDropJoins(old(BooksView()), t))
    {
      pendingJoins := map r | r in pendingJoins && pendingJoins[r] != t :: pendingJoins[r];
    }

    method MarkJoined(t: Topic, r: Ref, response: Payload) returns (deferred: Option<PendingLeave>)
      modifies this
      ensures View() == S.MarkJoined(old(View()), t, r, response)
      ensures deferred == if t in old(channels) then old(channels)[t].deferred else None
    {
      pendingJoins := pendingJoins - {r};
      trace := trace.(accepted := trace.accepted + {r});
      deferred := None;
      if t in channels {
        deferred := channels[t].deferred;
        MarkChannel(t, response);
      }
    }

    method MarkChannel(t: Topic, response: Payload)
      requires t in channels
      modifies this`channels, this`ledger
      ensures var rec := old(channels)[t];
              channels == old(channels)[t := rec.(everJoined := true, rejoinScheduled := false, deferred := None, waiters := {},
                                                  status := if rec.deferred.Some? then Leaving else Joined)]
      ensures ledger == SettleAll(old(ledger), old(channels)[t].waiters, Answered(Accepted(response)))
    {
      var deferred := channels[t].deferred;
      channels := channels[t := channels[t].(everJoined := true, rejoinScheduled := false, deferred := None)];
      SetStatus(t, if deferred.Some? then Leaving else Joined);
      DrainWaiters(t, Accepted(response));
    }

    method OnJoined(net: Net, t: Topic, r: Ref, response: Payload) returns (exit: Option<Reason>)
      modifies this, protocol
      ensures Turn(View(), exit) == S.OnJoined(old(View()), net, t, r, response)
    {
      var deferred := MarkJoined(t, r, response);
      if deferred.Some? {
        exit := StartLeave(net, t, deferred.value);
      } else {
        exit := Flush(net, t);
      }
    }

    method RejectJoin(t: Topic, response: Payload)
      requires t in channels
      modifies this`channels, this`ledger
      ensures var rec := old(channels)[t];
              channels == old(channels)[t := rec.(status := if rec.deferred.Some? then Left else Errored, deferred := None, waiters := {})]
      ensures var rec := old(channels)[t];
              ledger == SettleAll(SettleLeave(old(ledger), rec.deferred, Accepted(EMPTY_OBJECT)), rec.waiters, Answered(JoinRefused(response)))
    {
      var leaving := channels[t].deferred.Some?;
      SetStatus(t, if leaving then Left else Errored);
      TakeDeferred(t, Accepted(EMPTY_OBJECT));
      DrainWaiters(t, JoinRefused(response));
    }

    method OnJoinRejected(t: Topic, r: Ref, response: Payload)
      modifies this
      ensures View() == S.OnJoinRejected(old(View()), t, r, response)
    {
      pendingJoins := pendingJoins - {r};
      if t in channels {
        RejectJoin(t, response);
      }
      ScheduleRejoin(t);
    }

    method OnLeft(t: Topic, r: Ref, response: Payload)
      modifies this
      ensures View() == S.OnLeft(old(View()), t, r, response)
    {
      if r in pendingLeaves {
        var pending := pendingLeaves[r];
        pendingLeaves := pendingLeaves - {r};
        if pending.open {
          Send(pending.id, Accepted(response));
        }
      }
      Released(t);
    }

    method OnReply(r: Ref, status: P.ReplyStatus, response: Payload)
      modifies this
      ensures View() == S.OnReply(old(View()), r, status, response)
    {
      if r in pendingCalls {
        var pending := pendingCalls[r];
        pendingCalls := pendingCalls - {r};
        Send(pending.id, Replied(status, response));
      }
    }

    method OnHeartbeat(r: Ref)
      modifies this
      ensures View() == S.OnHeartbeat(old(View()), r)
    {
      if heartbeatReference == Some(r) {
        heartbeatReference := None;
      } else if r in pendingPings {
        var id := pendingPings[r];
        pendingPings := pendingPings - {r};
        Send(id, Pong);
      }
    }

    // ----- The end of a connection -----

    method InterruptCalls()
      requires DistinctCalls(pendingCalls)
      modifies this`pendingCalls, this`ledger
      ensures pendingCalls == map[]
      ensures ledger == SettleAll(old(ledger), CallIds(old(pendingCalls)), Answered(Interrupted(CallOp)))
    {
      ghost var before, all := ledger, CallIds(pendingCalls);
      NothingDrained(before, all, Answered(Interrupted(CallOp)));
      while pendingCalls != map[]
        invariant CallsDrained(before, ledger, all, pendingCalls)
        decreases |pendingCalls|
      {
        var r :| r in pendingCalls;
        OneCallDrained(before, ledger, all, pendingCalls, r);
        ledger := Settle(ledger, pendingCalls[r].id, Answered(Interrupted(CallOp)));
        pendingCalls := pendingCalls - {r};
      }
      assert all - CallIds(map[]) == all;
    }

    method InterruptPings()
      requires DistinctPings(pendingPings)
      modifies this`pendingPings, this`ledger
      ensures pendingPings == map[]
      ensures ledger == SettleAll(old(ledger), old(pendingPings).Values, Answered(Interrupted(PingOp)))
    {
      ghost var before, all := ledger, pendingPings.Values;
      NothingDrained(before, all, Answered(Interrupted(PingOp)));
      while pendingPings != map[]
        invariant PingsDrained(before, ledger, all, pendingPings)
        decreases |pendingPings|
      {
        var r :| r in pendingPings;
        OnePingDrained(before, ledger, all, pendingPings, r);
        ledger := Settle(ledger, pendingPings[r], Answered(Interrupted(PingOp)));
        pendingPings := pendingPings - {r};
      }
      assert all - pendingPings.Values == all;
    }

    method InterruptLeaves()
      requires DistinctLeaves(pendingLeaves)
      modifies this`pendingLeaves, this`ledger
      ensures pendingLeaves == map[]
      ensures ledger == SettleAll(old(ledger), OpenLeaves(old(pendingLeaves)), Answered(Interrupted(LeaveOp)))
    {
      ghost var before, all := ledger, OpenLeaves(pendingLeaves);
      NothingDrained(before, all, Answered(Interrupted(LeaveOp)));
      while pendingLeaves != map[]
        invariant LeavesDrained(before, ledger, all, pendingLeaves)
        decreases |pendingLeaves|
      {
        var r :| r in pendingLeaves;
        OneLeaveDrained(before, ledger, all, pendingLeaves, r);
        if pendingLeaves[r].open {
          ledger := Settle(ledger, pendingLeaves[r].id, Answered(Interrupted(LeaveOp)));
        }
        pendingLeaves := pendingLeaves - {r};
      }
      assert all - OpenLeaves(map[]) == all;
    }

    /** Every record goes offline; a deferred leave is interrupted. */
    method SuspendChannels()
      requires DistinctDeferred(channels)
      modifies this`channels, this`ledger
      ensures channels == map t | t in old(channels) :: Offline(old(channels)[t])
      ensures ledger == SettleAll(old(ledger), OpenDeferred(old(channels)), Answered(Interrupted(LeaveOp)))
    {
      var left := channels.Keys;
      ghost var before, was := ledger, channels;
      NothingSuspended(before, was);
      while left != {}
        invariant left <= was.Keys && channels == Suspended(was, left)
        invariant DeferredDrained(before, ledger, was, left)
        decreases left
      {
        var t :| t in left;
        OneDeferredDrained(before, ledger, was, left, t);
        SuspendChannel(t);
        left := left - {t};
        assert channels == Suspended(was, left);
      }
      assert OpenDeferred(was) - OpenDeferred(Awaiting(was, {})) == OpenDeferred(was);
    }

    method SuspendChannel(t: Topic)
      requires t in channels
      modifies this`channels, this`ledger
      ensures channels == old(channels)[t := Offline(old(channels)[t])]
      ensures ledger == SettleLeave(old(ledger), old(channels)[t].deferred, Interrupted(LeaveOp))
    {
      TakeDeferred(t, Interrupted(LeaveOp));
      channels := channels[t := channels[t].(activePayload := None, rejoinScheduled := false,
                                             status := if channels[t].desired then WaitingForSocket else Left)];
    }

    method InterruptTransmitted()
      requires DistinctCalls(pendingCalls) && DistinctPings(pendingPings) && DistinctLeaves(pendingLeaves) && DistinctDeferred(channels)
      modifies this`pendingCalls, this`pendingPings, this`pendingLeaves, this`channels, this`ledger
      ensures pendingCalls == map[] && pendingPings == map[] && pendingLeaves == map[]
      ensures channels == map t | t in old(channels) :: Offline(old(channels)[t])
      ensures ledger == InterruptAll(old(View()))
    {
      InterruptCalls();
      InterruptPings();
      InterruptLeaves();
      SuspendChannels();
    }

    method HandleDisconnect(next: Phase)
      requires Conserved(View())
      modifies this, protocol
      ensures View() == OnDisconnect(old(View()), next)
    {
      ghost var c := View();
      HeldOnce(c);
      var _ := protocol.ResetConnection();
      pendingJoins := map[];
      InterruptTransmitted();
      assert ledger == InterruptAll(c);
      EndConnection(next);
      assert BooksView() == BookReset(c.books);
    }

    /** The connection's own completions end with it. */
    method EndConnection(next: Phase)
      modifies this`payloads, this`rejoins, this`operationTimeouts, this`heartbeatReference, this`phase, this`trace
      ensures operationTimeouts == {} && heartbeatReference == None
      ensures payloads == {} && rejoins == multiset{} && phase == next && trace == old(trace).(accepted := {})
    {
      payloads, rejoins, operationTimeouts, heartbeatReference := {}, multiset{}, {}, None;
      phase := next;
      trace := trace.(accepted := {});
    }

    // ----- The start of a connection -----

    method Connect(order: seq<Topic>)
      modifies this
      ensures View() == OnConnect(old(View()), order)
    {
      phase := Connected;
      channels := map t | t in channels :: channels[t].(rejoinScheduled := false);
      ghost var before := View();
      var i := 0;
      assert order[0..] == order;
      while i < |order|
        invariant 0 <= i <= |order|
        invariant LoadAll(View(), order[i..]) == LoadAll(before, order)
      {
        SetStatus(order[i], WaitingToJoin);
        LoadPayload(order[i]);
        i := i + 1;
      }
    }

    // ----- The loop -----

    method HandleLifecycle(net: Net, a: Action) returns (exit: Option<Reason>)
      requires a.DoRegister? || a.DoUnregister? || a.DoCancel?
      requires Conserved(View()) && ClosedBySelf(View())
      modifies this, protocol
      ensures Turn(View(), exit) == Act(old(View()), net, a)
    {
      exit := None;
      match a
      case DoRegister(t) =>
        Register(t);
      case DoUnregister(t) =>
        if phase.Connected? {
          exit := RequestUnregister(net, t);
        } else {
          Unregister(t);
        }
      case DoCancel(id) =>
        Cancel(id);
    }

    method HandleCommand(net: Net, a: Action) returns (exit: Option<Reason>)
      requires a.DoJoin? || a.DoPush? || a.DoLeave? || a.DoPing?
      modifies this, protocol
      ensures Turn(View(), exit) == Act(old(View()), net, a)
    {
      exit := None;
      match a
      case DoJoin(t, id) =>
        RequestJoin(t, id);
      case DoPush(t, id, isCall, event, payload) =>
        exit := RequestPush(net, t, id, isCall, event, payload);
      case DoLeave(t, id) =>
        exit := RequestLeave(net, t, id);
      case DoPing(id) =>
        exit := RequestPing(net, id);
    }

    method HandleControl(a: Action) returns (exit: Option<Reason>)
      requires a.DoConnect? || a.DoDisconnect? || a.DoShutdown? || a.AttemptSucceeded? || a.AttemptFailed? || a.BackoffElapsed?
      modifies this
      ensures Turn(View(), exit) == Act(old(View()), Net(true, 0, true), a)
    {
      exit := None;
      match a
      case DoConnect =>
        if phase.Idle? {
          phase := Connecting;
        }
      case DoDisconnect =>
        if !phase.Idle? {
          exit := Some(Requested);
        }
      case DoShutdown =>
        phase := Stopped;
        channels := map t | t in channels :: channels[t].(status := Status.Closed);
      case AttemptSucceeded(order) =>
        Connect(order);
      case AttemptFailed =>
        phase := Backoff;
      case BackoffElapsed =>
        phase := Connecting;
    }

    /** The arms of `run_connected` that hear from the transport or beat to it. */
    method HandleTransport(net: Net, a: Action) returns (exit: Option<Reason>)
      requires a.FrameArrived? || a.FrameUndecodable? || a.TransportEnded? || a.HeartbeatDue?
      modifies this, protocol
      ensures Turn(View(), exit) == Act(old(View()), net, a)
    {
      match a
      case FrameArrived(f) =>
        exit := HandleIncoming(net, f);
      case FrameUndecodable =>
        exit := Some(CodecFailed);
      case TransportEnded(failed) =>
        exit := Some(if failed then TransportFailed else TransportClosed);
      case HeartbeatDue =>
        exit := HandleHeartbeat(net);
    }

    /** The arms of `run_connected` for its own completions. */
    method HandleCompletion(net: Net, a: Action) returns (exit: Option<Reason>)
      requires a.LoadFinished? || a.RejoinDue? || a.TimerDue?
      modifies this, protocol
      ensures Turn(View(), exit) == Act(old(View()), net, a)
    {
      exit := None;
      match a
      case LoadFinished(t, load, loaded) =>
        exit := HandlePayload(net, t, load, loaded);
      case RejoinDue(t) =>
        HandleRejoin(t);
      case TimerDue(timer) =>
        HandleOperationTimeout(timer);
    }

    method HandleOperationTimeout(timer: Timer)
      modifies this, protocol
      ensures View() == match timer
                        case JoinTimer(t, r) => JoinTimedOut(old(View()), t, r)
                        case LeaveTimer(t, r) => LeaveTimedOut(old(View()), t, r)
    {
      match timer
      case JoinTimer(t, r) =>
        HandleJoinTimeout(t, r);
      case LeaveTimer(t, r) =>
        HandleLeaveTimeout(t, r);
    }

    method Handle(net: Net, a: Action) returns (exit: Option<Reason>)
      requires Conserved(View()) && ClosedBySelf(View())
      modifies this, protocol
      ensures Turn(View(), exit) == Act(old(View()), net, a)
    {
      if a.DoRegister? || a.DoUnregister? || a.DoCancel? {
        exit := HandleLifecycle(net, a);
      } else if a.DoJoin? || a.DoPush? || a.DoLeave? || a.DoPing? {
        exit := HandleCommand(net, a);
      } else if a.DoConnect? || a.DoDisconnect? || a.DoShutdown? || a.AttemptSucceeded? || a.AttemptFailed? || a.BackoffElapsed? {
        exit := HandleControl(a);
      } else if a.LoadFinished? || a.RejoinDue? || a.TimerDue? {
        exit := HandleCompletion(net, a);
      } else {
        exit := HandleTransport(net, a);
      }
    }

    /** One turn, with what follows the end of a connection. */
    method TakeTurn(s: R.Step)
      requires R.Inv(View()) && Enabled(View(), s.action)
      modifies this, protocol
      ensures View() == Next(old(View()), s.net, s.action, s.retry)
      ensures R.Inv(View())
    {
      R.NextHolds(View(), s);
      C.ActConserves(View(), s.net, s.action);
      var exit := Handle(s.net, s.action);
      if exit.Some? {
        HandleDisconnect(if exit.value == Requested || !s.retry then Idle else Backoff);
      } else if s.action.AttemptFailed? && !s.retry {
        phase := Idle;
      }
    }

    /** The driver's life: the object goes through exactly the states of the run. */
    method Run(steps: seq<R.Step>)
      requires R.Inv(View()) && R.AllEnabled(View(), steps)
      modifies this, protocol
      ensures View() == R.Run(old(View()), steps)
      ensures R.Inv(View())
    {
      var i := 0;
      assert steps[0..] == steps;
      while i < |steps|
        invariant 0 <= i <= |steps|
        invariant R.Inv(View()) && R.AllEnabled(View(), steps[i..])
        invariant R.Run(View(), steps[i..]) == R.Run(old(View()), steps)
      {
        assert steps[i..][1..] == steps[i + 1..];
        TakeTurn(steps[i]);
        i := i + 1;
      }
    }
  }

  /** What a timed-out join leaves of its topic once the protocol has dropped it. */
  function JoinExpired(c: Client, t: Topic): Client {
    if t !in c.channels then c
    else
      var rec := c.channels[t].(activePayload := None);
      if rec.deferred.Some? then
        SetRecord(c, t, rec.(deferred := None, status := Left)).(ledger := SettleLeave(c.ledger, rec.deferred, Timeout(LeaveOp)))
      else if rec.desired then
        S.ScheduleRejoin(SetRecord(c, t, rec.(desired := true, status := Errored, waiters := {}))
                           .(ledger := SettleAll(c.ledger, rec.waiters, Answered(Timeout(JoinOp)))), t)
      else SetRecord(c, t, rec.(status := Left))
  }

  lemma JoinTimedOutExpires(c: Client, t: Topic, r: Ref)
    ensures JoinTimedOut(c, t, r) ==
            var c1 := c.(books := BookJoinTimeout(c.books, t, r));
            if r !in c.books.pendingJoins || c.books.pendingJoins[r] != t then c1
            else JoinExpired(c1.(books := BookDiscard(c1.books, t)), t)
  {
    if t in c.channels && c.channels[t].deferred.None? && c.channels[t].desired {
      assert c.channels[t].(activePayload := None, desired := true) == c.channels[t].(activePayload := None);
    }
  }

  // ----- Responders of different entries are different -----

  predicate SameDeferred(a: Record, b: Record) {
    a.deferred.Some? && b.deferred.Some? && a.deferred.value.open && b.deferred.value.open && a.deferred.value.id == b.deferred.value.id
  }

  ghost predicate DistinctCalls(calls: map<Ref, PendingCall>) {
    forall r, q :: r in calls && q in calls && calls[r].id == calls[q].id ==> r == q
  }

  ghost predicate DistinctPings(pings: map<Ref, ReqId>) {
    forall r, q :: r in pings && q in pings && pings[r] == pings[q] ==> r == q
  }

  ghost predicate DistinctLeaves(leaves: map<Ref, PendingLeave>) {
    forall r, q :: r in leaves && q in leaves && leaves[r].open && leaves[q].open && leaves[r].id == leaves[q].id ==> r == q
  }

  ghost predicate DistinctDeferred(channels: map<Topic, Record>) {
    forall t, u :: t in channels && u in channels && t != u ==> !SameDeferred(channels[t], channels[u])
  }

  function Awaiting(channels: map<Topic, Record>, left: set<Topic>): map<Topic, Record> {
    map t | t in channels && t in left :: channels[t]
  }

  lemma OneCallFewer(calls: map<Ref, PendingCall>, r: Ref)
    requires r in calls && DistinctCalls(calls)
    ensures CallIds(calls) == CallIds(calls - {r}) + {calls[r].id} && calls[r].id !in CallIds(calls - {r})
    ensures DistinctCalls(calls - {r})
  {
    forall id | id in CallIds(calls) ensures id in CallIds(calls - {r}) || id == calls[r].id {
      var q :| q in calls && calls[q].id == id;
      assert q != r ==> q in calls - {r} && (calls - {r})[q].id == id;
    }
  }

  lemma OnePingFewer(pings: map<Ref, ReqId>, r: Ref)
    requires r in pings && DistinctPings(pings)
    ensures pings.Values == (pings - {r}).Values + {pings[r]} && pings[r] !in (pings - {r}).Values
    ensures DistinctPings(pings - {r})
  {
    forall id | id in pings.Values ensures id in (pings - {r}).Values || id == pings[r] {
      var q :| q in pings && pings[q] == id;
      assert q != r ==> q in pings - {r} && (pings - {r})[q] == id;
    }
  }

  lemma OneLeaveFewer(leaves: map<Ref, PendingLeave>, r: Ref)
    requires r in leaves && DistinctLeaves(leaves)
    ensures OpenLeaves(leaves) == OpenLeaves(leaves - {r}) + (if leaves[r].open then {leaves[r].id} else {})
    ensures leaves[r].open ==> leaves[r].id !in OpenLeaves(leaves - {r})
    ensures DistinctLeaves(leaves - {r})
  {
    forall id | id in OpenLeaves(leaves) ensures id in OpenLeaves(leaves - {r}) || (leaves[r].open && id == leaves[r].id) {
      var q :| q in leaves && leaves[q].open && leaves[q].id == id;
      assert q != r ==> q in leaves - {r} && (leaves - {r})[q].open && (leaves - {r})[q].id == id;
    }
  }

  lemma OneDeferredFewer(channels: map<Topic, Record>, left: set<Topic>, t: Topic)
    requires t in left && left <= channels.Keys && DistinctDeferred(channels)
    ensures var rest := OpenDeferred(Awaiting(channels, left - {t}));
            var leave := channels[t].deferred;
            && OpenDeferred(Awaiting(channels, left)) == rest + LeaveIds(leave)
            && (leave.Some? && leave.value.open ==> leave.value.id !in rest)
  {
    var a, b := Awaiting(channels, left - {t}), Awaiting(channels, left);
    forall id | id in OpenDeferred(b) ensures id in OpenDeferred(a) || id in LeaveIds(channels[t].deferred) {
      var u :| u in b && b[u].deferred.Some? && b[u].deferred.value.open && b[u].deferred.value.id == id;
      assert u != t ==> u in a && a[u] == b[u];
    }
    forall id | id in OpenDeferred(a) ensures id in OpenDeferred(b) {
      var u :| u in a && a[u].deferred.Some? && a[u].deferred.value.open && a[u].deferred.value.id == id;
      assert u in b && b[u] == a[u];
    }
    if channels[t].deferred.Some? && channels[t].deferred.value.open {
      assert t in b && b[t].deferred.value.id in OpenDeferred(b);
      forall u | u in a ensures !SameDeferred(a[u], channels[t]) {}
    }
  }

  // What a drain has done so far: `rest` are still to come.

  ghost predicate CallsDrained(before: Ledger, l: Ledger, all: set<ReqId>, rest: map<Ref, PendingCall>) {
    DistinctCalls(rest) && CallIds(rest) <= all && l == SettleAll(before, all - CallIds(rest), Answered(Interrupted(CallOp)))
  }

  lemma OneCallDrained(before: Ledger, l: Ledger, all: set<ReqId>, rest: map<Ref, PendingCall>, r: Ref)
    requires CallsDrained(before, l, all, rest) && r in rest
    ensures CallsDrained(before, Settle(l, rest[r].id, Answered(Interrupted(CallOp))), all, rest - {r})
  {
    OneCallFewer(rest, r);
    OneMoreDrained(before, all, CallIds(rest - {r}), rest[r].id, Answered(Interrupted(CallOp)));
  }

  ghost predicate PingsDrained(before: Ledger, l: Ledger, all: set<ReqId>, rest: map<Ref, ReqId>) {
    DistinctPings(rest) && rest.Values <= all && l == SettleAll(before, all - rest.Values, Answered(Interrupted(PingOp)))
  }

  lemma OnePingDrained(before: Ledger, l: Ledger, all: set<ReqId>, rest: map<Ref, ReqId>, r: Ref)
    requires PingsDrained(before, l, all, rest) && r in rest
    ensures PingsDrained(before, Settle(l, rest[r], Answered(Interrupted(PingOp))), all, rest - {r})
  {
    OnePingFewer(rest, r);
    OneMoreDrained(before, all, (rest - {r}).Values, rest[r], Answered(Interrupted(PingOp)));
  }

  ghost predicate LeavesDrained(before: Ledger, l: Ledger, all: set<ReqId>, rest: map<Ref, PendingLeave>) {
    DistinctLeaves(rest) && OpenLeaves(rest) <= all && l == SettleAll(before, all - OpenLeaves(rest), Answered(Interrupted(LeaveOp)))
  }

  lemma OneLeaveDrained(before: Ledger, l: Ledger, all: set<ReqId>, rest: map<Ref, PendingLeave>, r: Ref)
    requires LeavesDrained(before, l, all, rest) && r in rest
    ensures LeavesDrained(before, if rest[r].open then Settle(l, rest[r].id, Answered(Interrupted(LeaveOp))) else l, all, rest - {r})
  {
    OneLeaveFewer(rest, r);
    if rest[r].open {
      OneMoreDrained(before, all, OpenLeaves(rest - {r}), rest[r].id, Answered(Interrupted(LeaveOp)));
    }
  }

  function Suspended(was: map<Topic, Record>, left: set<Topic>): map<Topic, Record> {
    map t | t in was :: if t in left then was[t] else Offline(was[t])
  }

  ghost predicate DeferredDrained(before: Ledger, l: Ledger, was: map<Topic, Record>, left: set<Topic>) {
    && DistinctDeferred(was)
    && l == SettleAll(before, OpenDeferred(was) - OpenDeferred(Awaiting(was, left)), Answered(Interrupted(LeaveOp)))
  }

  lemma NothingSuspended(before: Ledger, was: map<Topic, Record>)
    requires DistinctDeferred(was)
    ensures DeferredDrained(before, before, was, was.Keys) && Suspended(was, was.Keys) == was
  {
    assert Awaiting(was, was.Keys) == was;
    NothingDrained(before, OpenDeferred(was), Answered(Interrupted(LeaveOp)));
  }

  lemma OneDeferredDrained(before: Ledger, l: Ledger, was: map<Topic, Record>, left: set<Topic>, t: Topic)
    requires DeferredDrained(before, l, was, left) && t in left && left <= was.Keys
    ensures DeferredDrained(before, SettleLeave(l, was[t].deferred, Interrupted(LeaveOp)), was, left - {t})
  {
    OneDeferredFewer(was, left, t);
    var rest := OpenDeferred(Awaiting(was, left - {t}));
    if was[t].deferred.Some? && was[t].deferred.value.open {
      assert t in was && was[t].deferred.value.id in OpenDeferred(was);
      forall id | id in rest ensures id in OpenDeferred(was) {
        var u :| u in Awaiting(was, left - {t}) && was[u].deferred.Some? && was[u].deferred.value.open && was[u].deferred.value.id == id;
        assert u in was;
      }
      OneMoreDrained(before, OpenDeferred(was), rest, was[t].deferred.value.id, Answered(Interrupted(LeaveOp)));
    }
  }

  lemma HeldOnce(c: Client)
    requires Conserved(c)
    ensures DistinctCalls(c.books.pendingCalls) && DistinctPings(c.books.pendingPings)
    ensures DistinctLeaves(c.books.pendingLeaves) && DistinctDeferred(c.channels)
  {
    forall r | r in c.books.pendingCalls ensures Holds(c, c.books.pendingCalls[r].id, Calling(r)) {}
    forall r | r in c.books.pendingPings ensures Holds(c, c.books.pendingPings[r], Pinging(r)) {}
    forall r | r in c.books.pendingLeaves && c.books.pendingLeaves[r].open ensures Holds(c, c.books.pendingLeaves[r].id, LeavingOn(r)) {}
    forall t | t in c.channels && c.channels[t].deferred.Some? && c.channels[t].deferred.value.open
      ensures Holds(c, c.channels[t].deferred.value.id, Deferred(t)) {}
  }

  predicate IsAt(c: Client, id: ReqId) {
    id in c.ledger && c.ledger[id].At?
  }

  lemma CancelledOnce(c: Client, id: ReqId)
    requires Conserved(c) && ClosedBySelf(c)
    ensures var d := S.Cancel(c, id); Conserved(d) && ClosedBySelf(d) && !IsAt(d, id)
  {
    C.CancelConserves(c, id);
    CancelKeepsClosed(c, id);
    CancelKeepsClosedLeaves(c, id);
    if IsAt(c, id) {
      assert Pending(c.ledger, id) && Holds(c, id, c.ledger[id].place);
    }
  }
}
