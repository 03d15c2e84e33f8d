/** Every action of the driver conserves responders. */
module DriverConservation {
  import opened Wire
  import P = ProtocolSpec
  import opened DriverSpec
  import opened DriverBooks
  import opened DriverLedger

  lemma SendFrameBalances(c: Client, net: Net, frame: Handed, loose: set<ReqId>)
    requires Balanced(c, loose)
    ensures Balanced(SendFrame(c, net, frame).client, loose)
  {
    var d := SendFrame(c, net, frame).client;
    assert d.books == c.books && d.channels == c.channels && d.ledger == c.ledger;
    SameHoldersBalance(c, d, loose);
  }

  // ----- Sending -----

  lemma CallBalances(c: Client, net: Net, t: Topic, p: Push, loose: set<ReqId>)
    requires Linked(c.books) && P.IsJoined(c.books.proto, t)
    requires Balanced(c, loose) && p.id in loose
    ensures Balanced(SendCall(c, net, t, p).client, loose - {p.id})
  {
    var (books, result) := BookCall(c.books, t, p);
    var r := c.books.proto.next + 1;
    var d := c.(books := books, ledger := Settle(c.ledger, p.id, At(Calling(r))));
    assert r !in c.books.pendingCalls;
    CallIsStored(c, d, t, p, r);
    StoreBalances(c, d, loose, p.id, Calling(r));
    SendFrameBalances(d, net, HandOver(c, t, p), loose - {p.id});
  }

  lemma CallIsStored(c: Client, d: Client, t: Topic, p: Push, r: Ref)
    requires r !in c.books.pendingCalls
    requires d.books.pendingCalls == c.books.pendingCalls[r := PendingCall(p.id, t)]
    requires d.books.pendingPings == c.books.pendingPings && d.books.pendingLeaves == c.books.pendingLeaves
    requires d.channels == c.channels && d.ledger == Settle(c.ledger, p.id, At(Calling(r)))
    requires forall u :: u in c.channels ==> DistinctIds(c.channels[u].queued)
    ensures Stored(c, d, p.id, Calling(r))
  {
    forall i, q ensures Holds(d, i, q) <==> Holds(c, i, q) || (i == p.id && q == Calling(r)) {}
  }

  lemma CastBalances(c: Client, net: Net, t: Topic, p: Push, loose: set<ReqId>)
    requires Balanced(c, loose) && p.id in loose && P.IsJoined(c.books.proto, t)
    ensures Balanced(SendCast(c, net, t, p).client, loose - {p.id})
  {
    var frame := HandOver(c, t, p);
    var turn := SendFrame(c, net, frame);
    SendFrameBalances(c, net, frame, loose);
    RespondBalances(turn.client, p.id, if turn.exit.None? then Sent else Interrupted(CastOp), loose);
  }

  lemma PushBalances(c: Client, net: Net, t: Topic, p: Push, loose: set<ReqId>)
    requires Linked(c.books) && P.IsJoined(c.books.proto, t)
    requires Balanced(c, loose) && p.id in loose
    ensures Balanced(SendPush(c, net, t, p).client, loose - {p.id})
  {
    if Unsendable(net, p) {
      RespondBalances(c, p.id, BinaryNotSupported, loose);
    } else if p.isCall {
      CallBalances(c, net, t, p, loose);
    } else {
      CastBalances(c, net, t, p, loose);
    }
  }

  lemma PopLoosens(c: Client, t: Topic)
    requires Conserved(c) && t in c.channels && c.channels[t].queued != []
    ensures Balanced(PopQueue(c, t), {c.channels[t].queued[0].id})
  {
    var d := PopQueue(c, t);
    var queued := c.channels[t].queued;
    IdsOfCons(queued);
    assert Holds(c, queued[0].id, Queue(t)) by { assert queued[0] in queued; }
    forall i, q | Holds(c, i, q) && i != queued[0].id ensures Holds(d, i, q) {}
    forall i, q | Holds(d, i, q) ensures Holds(c, i, q) && i != queued[0].id {
      assert Holds(c, i, q);
      assert i == queued[0].id ==> q == Queue(t);
    }
    LoosenBalances(c, d, {}, {queued[0].id});
    assert {} + {queued[0].id} == {queued[0].id};
  }

  lemma PushKeepsJoined(c: Client, net: Net, t: Topic, p: Push)
    requires Linked(c.books) && P.IsJoined(c.books.proto, t)
    ensures SendPush(c, net, t, p).client.books.proto.channels == c.books.proto.channels
    ensures Linked(SendPush(c, net, t, p).client.books)
  {
    if !Unsendable(net, p) && p.isCall {
      CallStaysLinked(c.books, t, p);
      assert SendCall(c, net, t, p).client.books == BookCall(c.books, t, p).0;
    } else {
      assert SendPush(c, net, t, p).client.books == c.books;
    }
  }

  lemma {:induction false} FlushConserves(c: Client, net: Net, t: Topic)
    requires Linked(c.books) && P.IsJoined(c.books.proto, t) && Conserved(c)
    ensures Conserved(Flush(c, net, t).client)
    decreases if t in c.channels then |c.channels[t].queued| else 0
  {
    if t in c.channels && c.channels[t].queued != [] {
      var p := c.channels[t].queued[0];
      var c1 := PopQueue(c, t);
      PopLoosens(c, t);
      PushBalances(c1, net, t, p, {p.id});
      assert {p.id} - {p.id} == {};
      PushKeepsJoined(c1, net, t, p);
      var turn := SendPush(c1, net, t, p);
      if turn.exit.None? {
        FlushConserves(turn.client, Spend(net, p), t);
      }
    }
  }

  lemma StartLeaveBalances(c: Client, net: Net, t: Topic, leave: PendingLeave, loose: set<ReqId>)
    requires Linked(c.books) && P.IsJoined(c.books.proto, t)
    requires Balanced(c, loose) && LeaveIds(Some(leave)) <= loose
    ensures Balanced(StartLeave(c, net, t, leave).client, loose - LeaveIds(Some(leave)))
  {
    var (books, result) := BookLeave(c.books, t, leave);
    var r := c.books.proto.next + 1;
    assert r !in c.books.pendingLeaves;
    var d := c.(books := books, ledger := if leave.open then Settle(c.ledger, leave.id, At(LeavingOn(r))) else c.ledger);
    LeavingBalances(c, d, leave, r, loose);
    SendFrameBalances(d, net, HandedLeave(t, GenerationAccepted(c, t)), loose - LeaveIds(Some(leave)));
  }

  lemma LeavingBalances(c: Client, d: Client, leave: PendingLeave, r: Ref, loose: set<ReqId>)
    requires Balanced(c, loose) && LeaveIds(Some(leave)) <= loose && r !in c.books.pendingLeaves
    requires d.channels == c.channels && d.books.pendingCalls == c.books.pendingCalls && d.books.pendingPings == c.books.pendingPings
    requires d.books.pendingLeaves == c.books.pendingLeaves[r := leave]
    requires d.ledger == if leave.open then Settle(c.ledger, leave.id, At(LeavingOn(r))) else c.ledger
    ensures Balanced(d, loose - LeaveIds(Some(leave)))
  {
    if leave.open {
      forall i, q ensures Holds(d, i, q) <==> Holds(c, i, q) || (i == leave.id && q == LeavingOn(r)) {}
      StoreBalances(c, d, loose, leave.id, LeavingOn(r));
    } else {
      forall i, q ensures Holds(d, i, q) <==> Holds(c, i, q) {}
      LoosenBalances(c, d, loose, {});
      assert loose + {} == loose;
    }
  }

  // ----- Emptying a record -----

  function HeldBy(rec: Record): set<ReqId> {
    LeaveIds(rec.deferred) + rec.waiters + Ids(rec.queued)
  }

  lemma RecordHolds(c: Client, t: Topic, id: ReqId)
    requires t in c.channels
    ensures id in HeldBy(c.channels[t]) <==> Holds(c, id, Waiter(t)) || Holds(c, id, Queue(t)) || Holds(c, id, Deferred(t))
  {}

  lemma StopFinishes(c: Client, t: Topic, loose: set<ReqId>)
    requires Balanced(c, loose) && t in c.channels
    ensures Finished(c.ledger, StopChannel(c, t).ledger, HeldBy(c.channels[t]))
  {
    var rec := c.channels[t];
    var l1 := SettleLeave(c.ledger, rec.deferred, Interrupted(LeaveOp));
    var l2 := SettleAll(l1, rec.waiters, Answered(Interrupted(JoinOp)));
    forall id | id in LeaveIds(rec.deferred) ensures Pending(c.ledger, id) && c.ledger[id] == At(Deferred(t)) {
      assert Holds(c, id, Deferred(t));
    }
    SettleLeaveFinishes(c.ledger, rec.deferred, Interrupted(LeaveOp));
    forall id | id in rec.waiters ensures Pending(l1, id) && c.ledger[id] == At(Waiter(t)) {
      assert Holds(c, id, Waiter(t));
    }
    SettleAllFinishes(l1, rec.waiters, Answered(Interrupted(JoinOp)));
    forall id | id in Ids(rec.queued) ensures Pending(l2, id) {
      assert Holds(c, id, Queue(t));
    }
    SettleQueueFinishes(l2, rec.queued);
    FinishedTwice(c.ledger, l1, l2, LeaveIds(rec.deferred), rec.waiters);
    FinishedTwice(c.ledger, l2, SettleQueue(l2, rec.queued), LeaveIds(rec.deferred) + rec.waiters, Ids(rec.queued));
  }

  lemma StopChannelBalances(c: Client, t: Topic, loose: set<ReqId>)
    requires Balanced(c, loose)
    ensures Balanced(StopChannel(c, t), loose)
  {
    if t in c.channels {
      var d := StopChannel(c, t);
      var ids := HeldBy(c.channels[t]);
      StopFinishes(c, t, loose);
      forall id | id in ids ensures id !in loose { RecordHolds(c, t, id); }
      EmptiedRecord(c, d, t);
      forall i, q | Holds(d, i, q) ensures Holds(c, i, q) && i !in ids {
        if i in ids { RecordHolds(c, t, i); }
      }
      ReleaseBalances(c, d, loose, ids);
      assert loose - ids == loose;
    }
  }

  /** What remains held when the record of `t` is emptied. */
  lemma EmptiedRecord(c: Client, d: Client, t: Topic)
    requires t in c.channels
    requires d.books.pendingCalls == c.books.pendingCalls && d.books.pendingPings == c.books.pendingPings
    requires d.books.pendingLeaves == c.books.pendingLeaves
    requires t in d.channels && d.channels == c.channels[t := d.channels[t]]
    requires d.channels[t].waiters == {} && d.channels[t].queued == [] && d.channels[t].deferred.None?
    ensures forall i, q :: Holds(d, i, q) <==> Holds(c, i, q) && q != Waiter(t) && q != Queue(t) && q != Deferred(t)
    ensures forall i, q :: Holds(c, i, q) && i !in HeldBy(c.channels[t]) ==> Holds(d, i, q)
  {
    forall i, q ensures Holds(d, i, q) <==> Holds(c, i, q) && q != Waiter(t) && q != Queue(t) && q != Deferred(t) {}
    forall i, q | Holds(c, i, q) && i !in HeldBy(c.channels[t]) ensures Holds(d, i, q) {
      RecordHolds(c, t, i);
    }
  }

  lemma ForgetConserves(c: Client, t: Topic)
    requires Conserved(c)
    ensures Conserved(Forget(c, t))
  {
    StopChannelBalances(c, t, {});
    var c1 := StopChannel(c, t);
    var d := Forget(c, t);
    assert d.ledger == c1.ledger;
    forall i, q ensures Holds(c1, i, q) <==> Holds(d, i, q) {}
    LoosenBalances(c1, d, {}, {});
  }

  lemma StatusBalances(c: Client, t: Topic, status: Status, loose: set<ReqId>)
    requires Balanced(c, loose)
    ensures Balanced(SetStatus(c, t, status), loose)
  {
    SameHoldersBalance(c, SetStatus(c, t, status), loose);
  }

  lemma LoadPayloadBalances(c: Client, t: Topic, loose: set<ReqId>)
    requires Balanced(c, loose)
    ensures Balanced(LoadPayload(c, t), loose)
  {
    SameHoldersBalance(c, LoadPayload(c, t), loose);
  }

  lemma ScheduleRejoinBalances(c: Client, t: Topic, loose: set<ReqId>)
    requires Balanced(c, loose)
    ensures Balanced(ScheduleRejoin(c, t), loose)
  {
    SameHoldersBalance(c, ScheduleRejoin(c, t), loose);
  }

  // ----- Requests -----

  lemma UnregisterConserves(c: Client, net: Net, t: Topic)
    requires Conserved(c)
    ensures Conserved(Unregister(c, net, t).client)
  {
    if !P.IsJoined(c.books.proto, t) {
      ForgetConserves(c, t);
    } else {
      var c1 := c.(books := c.books.(proto := P.Leave(c.books.proto, t).0));
      SameHoldersBalance(c, c1, {});
      ForgetConserves(c1, t);
      SendFrameBalances(Forget(c1, t), net, HandedLeave(t, GenerationAccepted(c, t)), {});
    }
  }

  lemma IdsOfAppend(queued: seq<Push>, p: Push)
    requires DistinctIds(queued) && p.id !in Ids(queued)
    ensures Ids(queued + [p]) == Ids(queued) + {p.id} && DistinctIds(queued + [p])
  {
    forall i | 0 <= i < |queued| ensures queued[i].id != p.id {
      assert queued[i] in queued;
    }
    assert p in queued + [p];
    assert forall x :: x in queued ==> x in queued + [p];
  }

  lemma EnqueueConserves(c: Client, t: Topic, p: Push)
    requires Balanced(c, {p.id})
    ensures Conserved(Enqueue(c, t, p))
  {
    assert {p.id} - {p.id} == {};
    if t !in c.channels {
      RespondBalances(c, p.id, Interrupted(OperationOf(p)), {p.id});
    } else {
      var rec := c.channels[t];
      if rec.everJoined && !rec.desired {
        RespondBalances(c, p.id, ChannelNotJoined, {p.id});
      } else if |rec.queued| < c.capacity {
        QueueingConserves(c, t, p);
      } else {
        RespondBalances(c, p.id, PushBufferFull, {p.id});
      }
    }
  }

  lemma QueueingConserves(c: Client, t: Topic, p: Push)
    requires Balanced(c, {p.id}) && t in c.channels
    ensures var rec := c.channels[t];
            Conserved(SetRecord(c, t, rec.(queued := rec.queued + [p])).(ledger := Settle(c.ledger, p.id, At(Queue(t)))))
  {
    var rec := c.channels[t];
    var d := SetRecord(c, t, rec.(queued := rec.queued + [p])).(ledger := Settle(c.ledger, p.id, At(Queue(t))));
    if p.id in Ids(rec.queued) {
      assert Holds(c, p.id, Queue(t));
      assert false;
    }
    IdsOfAppend(rec.queued, p);
    forall i, q ensures Holds(d, i, q) <==> Holds(c, i, q) || (i == p.id && q == Queue(t)) {}
    StoreBalances(c, d, {p.id}, p.id, Queue(t));
    assert {p.id} - {p.id} == {};
  }

  lemma RequestPushConserves(c: Client, net: Net, t: Topic, id: ReqId, isCall: bool, event: string, payload: Payload)
    requires Linked(c.books) && Conserved(c) && id !in c.ledger
    ensures Conserved(RequestPush(c, net, t, id, isCall, event, payload).client)
  {
    var p := Push(id, isCall, event, payload, c.trace.stamps);
    EnterBalances(c, id, Queue(t), {});
    assert {} + {id} == {id} && {id} - {id} == {};
    var c1 := Stamp(c, t, id);
    SameHoldersBalance(Enter(c, id, Queue(t)), c1, {id});
    if c.phase.Connected? && P.IsJoined(c.books.proto, t) {
      PushBalances(c1, net, t, p, {id});
    } else {
      EnqueueConserves(c1, t, p);
    }
  }

  lemma PingingConserves(c: Client, id: ReqId)
    requires Linked(c.books) && Balanced(c, {id})
    requires c.ledger[id] == At(Pinging(c.books.proto.next + 1))
    ensures Conserved(c.(books := BookPing(c.books, id)))
  {
    var r := c.books.proto.next + 1;
    var d := c.(books := BookPing(c.books, id));
    assert r !in c.books.pendingPings by { assert r in c.books.pendingPings ==> Beating(c.books, r); }
    forall i, q ensures Holds(d, i, q) <==> Holds(c, i, q) || (i == id && q == Pinging(r)) {}
    assert Pending(c.ledger, id);
    assert d.ledger == Settle(c.ledger, id, At(Pinging(r)));
    StoreBalances(c, d, {id}, id, Pinging(r));
    assert {id} - {id} == {};
  }

  lemma RequestPingConserves(c: Client, net: Net, id: ReqId)
    requires Linked(c.books) && Conserved(c) && id !in c.ledger
    ensures Conserved(RequestPing(c, net, id).client)
  {
    var r := if c.phase.Connected? then c.books.proto.next + 1 else 0;
    var c1 := Enter(c, id, Pinging(r));
    EnterBalances(c, id, Pinging(r), {});
    assert {} + {id} == {id} && {id} - {id} == {};
    if !c.phase.Connected? {
      RespondBalances(c1, id, SocketNotConnected, {id});
    } else {
      PingingConserves(c1, id);
      SendFrameBalances(c1.(books := BookPing(c1.books, id)), net, HandedHeartbeat, {});
    }
  }

  lemma WaitingConserves(c: Client, d: Client, t: Topic, id: ReqId)
    requires Balanced(c, {id}) && t in c.channels && c.ledger[id] == At(Waiter(t))
    requires d.books == c.books && d.ledger == c.ledger && t in d.channels
    requires d.channels == c.channels[t := d.channels[t]]
    requires SameRecordHolders(c.channels[t].(waiters := c.channels[t].waiters + {id}), d.channels[t])
    ensures Conserved(d)
  {
    forall i, q ensures Holds(d, i, q) <==> Holds(c, i, q) || (i == id && q == Waiter(t)) {}
    assert Pending(c.ledger, id);
    assert d.ledger == Settle(c.ledger, id, At(Waiter(t)));
    StoreBalances(c, d, {id}, id, Waiter(t));
    assert {id} - {id} == {};
  }

  lemma RequestJoinConserves(c: Client, t: Topic, id: ReqId)
    requires Conserved(c) && id !in c.ledger
    ensures Conserved(RequestJoin(c, t, id))
  {
    var c1 := Enter(c, id, Waiter(t));
    EnterBalances(c, id, Waiter(t), {});
    assert {} + {id} == {id} && {id} - {id} == {};
    if t !in c.channels {
      RespondBalances(c1, id, UnknownTopic, {id});
    } else {
      var rec := c.channels[t];
      if !c.phase.Connected? {
        WaitingConserves(c1, RequestJoin(c, t, id), t, id);
      } else if P.IsJoined(c.books.proto, t) {
        var c2 := SetRecord(c1, t, rec.(desired := true, status := Joined));
        SameHoldersBalance(c1, c2, {id});
        RespondBalances(c2, id, AlreadyJoined, {id});
      } else {
        var c2 := SetRecord(c1, t, rec.(desired := true, status := WaitingToJoin, waiters := rec.waiters + {id}));
        WaitingConserves(c1, c2, t, id);
        LoadPayloadBalances(c2, t, {});
      }
    }
  }

  lemma StoppedBalances(c: Client, t: Topic, status: Status, id: ReqId)
    requires Conserved(c) && id !in c.ledger
    ensures Balanced(StopChannel(SetStatus(Enter(c, id, Deferred(t)), t, status), t), {id})
  {
    var c1 := Enter(c, id, Deferred(t));
    EnterBalances(c, id, Deferred(t), {});
    assert {} + {id} == {id};
    StatusBalances(c1, t, status, {id});
    StopChannelBalances(SetStatus(c1, t, status), t, {id});
  }

  lemma RequestLeaveConserves(c: Client, net: Net, t: Topic, id: ReqId)
    requires Linked(c.books) && Conserved(c) && id !in c.ledger
    ensures Conserved(RequestLeave(c, net, t, id).client)
  {
    var c1 := Enter(c, id, Deferred(t));
    assert {id} - {id} == {};
    if !c.phase.Connected? {
      StoppedBalances(c, t, Left, id);
      RespondBalances(StopChannel(SetStatus(c1, t, Left), t), id, Accepted(EMPTY_OBJECT), {id});
    } else {
      var state := P.StateOf(c.books.proto, t);
      var status := if state == Some(P.Joined) || state == Some(P.Joining) then Leaving else Left;
      StoppedBalances(c, t, status, id);
      var c2 := StopChannel(SetStatus(c1, t, status), t);
      if state == Some(P.Joined) {
        StartLeaveBalances(c2, net, t, PendingLeave(id, true), {id});
      } else if state == Some(P.Joining) && t in c2.channels {
        DeferringConserves(c2, t, id);
      } else {
        RespondBalances(c2, id, Accepted(EMPTY_OBJECT), {id});
      }
    }
  }

  lemma DeferringConserves(c: Client, t: Topic, id: ReqId)
    requires Balanced(c, {id}) && t in c.channels && c.channels[t].deferred.None?
    ensures Conserved(SetRecord(c, t, c.channels[t].(deferred := Some(PendingLeave(id, true)))).(ledger := Settle(c.ledger, id, At(Deferred(t)))))
  {
    var d := SetRecord(c, t, c.channels[t].(deferred := Some(PendingLeave(id, true)))).(ledger := Settle(c.ledger, id, At(Deferred(t))));
    forall i, q ensures Holds(d, i, q) <==> Holds(c, i, q) || (i == id && q == Deferred(t)) {}
    StoreBalances(c, d, {id}, id, Deferred(t));
    assert {id} - {id} == {};
  }

  // ----- Cancellation -----

  /** Emptying one container takes out exactly the requests it held. */
  lemma PlaceEmptied(c: Client, d: Client, ids: set<ReqId>, p: Place)
    requires Conserved(c)
    requires forall i :: i in ids <==> Holds(c, i, p)
    requires forall i, q :: Holds(d, i, q) <==> Holds(c, i, q) && q != p
    ensures forall i, q :: Holds(d, i, q) <==> Holds(c, i, q) && i !in ids
  {
    forall i, q | Holds(c, i, q) && i in ids ensures q == p {
      assert Holds(c, i, p);
    }
  }

  lemma {:induction false} WithoutIdDrops(queued: seq<Push>, id: ReqId)
    requires DistinctIds(queued)
    ensures Ids(WithoutId(queued, id)) == Ids(queued) - {id} && DistinctIds(WithoutId(queued, id))
    decreases |queued|
  {
    if queued != [] {
      IdsOfCons(queued);
      if queued[0].id != id {
        var tail := queued[1..];
        WithoutIdDrops(tail, id);
        var rest := WithoutId(tail, id);
        forall i | 0 <= i < |rest| ensures rest[i].id != queued[0].id {
          assert rest[i] in rest && rest[i].id in Ids(rest);
        }
        var all := [queued[0]] + rest;
        assert DistinctIds(all);
        IdsOfCons(all);
        assert all[1..] == rest;
      } else if id in Ids(queued[1..]) {
      }
    }
  }

  /** Taking request `id` out of the one container that holds it and silencing it. */
  lemma SilencingConserves(c: Client, d: Client, id: ReqId)
    requires Conserved(c) && Pending(c.ledger, id)
    requires d.ledger == Settle(c.ledger, id, Silenced)
    requires forall i, q :: Holds(d, i, q) <==> Holds(c, i, q) && i != id
    requires forall u :: u in d.channels ==> DistinctIds(d.channels[u].queued)
    ensures Conserved(d)
  {
    SettleFinishes(c.ledger, id, Silenced);
    ReleaseBalances(c, d, {}, {id});
    assert {} - {id} == {};
  }

  /** The only holder of a pending request is the one its ledger entry names. */
  lemma OneHolder(c: Client, id: ReqId)
    requires Conserved(c) && Pending(c.ledger, id)
    ensures forall q :: Holds(c, id, q) <==> q == c.ledger[id].place
  {
    assert Holds(c, id, c.ledger[id].place);
    forall q | Holds(c, id, q) ensures q == c.ledger[id].place {}
  }

  lemma CancelConserves(c: Client, id: ReqId)
    requires Conserved(c)
    ensures Conserved(Cancel(c, id))
  {
    if Pending(c.ledger, id) {
      OneHolder(c, id);
      var place := c.ledger[id].place;
      assert Holds(c, id, place);
      match place
      case Waiter(t) => CancelWaiterConserves(c, t, id);
      case Deferred(t) => CancelDeferredConserves(c, t, id);
      case Queue(t) => CancelQueuedConserves(c, t, id);
      case Calling(r) => CancelCallConserves(c, r, id);
      case Pinging(r) => CancelPingConserves(c, r, id);
      case LeavingOn(r) => CancelLeaveConserves(c, r, id);
    }
  }

  lemma CancelCallConserves(c: Client, r: Ref, id: ReqId)
    requires Conserved(c) && Holds(c, id, Calling(r))
    ensures Conserved(c.(ledger := Settle(c.ledger, id, Silenced), books := BookForgetCall(c.books, r)))
  {
    OneHolder(c, id);
    var d := c.(ledger := Settle(c.ledger, id, Silenced), books := BookForgetCall(c.books, r));
    forall i, q ensures Holds(d, i, q) <==> Holds(c, i, q) && q != Calling(r) {}
    PlaceEmptied(c, d, {id}, Calling(r));
    SilencingConserves(c, d, id);
  }

  lemma CancelPingConserves(c: Client, r: Ref, id: ReqId)
    requires Conserved(c) && Holds(c, id, Pinging(r))
    ensures Conserved(c.(ledger := Settle(c.ledger, id, Silenced), books := BookForgetPing(c.books, r)))
  {
    OneHolder(c, id);
    var d := c.(ledger := Settle(c.ledger, id, Silenced), books := BookForgetPing(c.books, r));
    forall i, q ensures Holds(d, i, q) <==> Holds(c, i, q) && q != Pinging(r) {}
    PlaceEmptied(c, d, {id}, Pinging(r));
    SilencingConserves(c, d, id);
  }

  lemma CancelLeaveConserves(c: Client, r: Ref, id: ReqId)
    requires Conserved(c) && Holds(c, id, LeavingOn(r))
    ensures Conserved(c.(ledger := Settle(c.ledger, id, Silenced), books := BookCloseLeave(c.books, r)))
  {
    OneHolder(c, id);
    var d := c.(ledger := Settle(c.ledger, id, Silenced), books := BookCloseLeave(c.books, r));
    forall s | s in c.books.pendingLeaves && HeldLeave(Some(c.books.pendingLeaves[s]), id) ensures s == r {
      assert Holds(c, id, LeavingOn(s));
    }
    forall i, q ensures Holds(d, i, q) <==> Holds(c, i, q) && i != id {}
    SilencingConserves(c, d, id);
  }

  lemma CancelWaiterConserves(c: Client, t: Topic, id: ReqId)
    requires Conserved(c) && Holds(c, id, Waiter(t))
    ensures Conserved(CancelWaiter(c, t, id))
  {
    OneHolder(c, id);
    var rec := c.channels[t];
    var left := rec.(waiters := rec.waiters - {id});
    var c1 := SetRecord(c, t, left).(ledger := Settle(c.ledger, id, Silenced));
    forall i, q ensures Holds(c1, i, q) <==> Holds(c, i, q) && i != id {}
    SilencingConserves(c, c1, id);
    SameHoldersBalance(c1, CancelWaiter(c, t, id), {});
  }

  lemma CancelDeferredConserves(c: Client, t: Topic, id: ReqId)
    requires Conserved(c) && Holds(c, id, Deferred(t))
    ensures Conserved(Cancel(c, id))
  {
    OneHolder(c, id);
    var d := Cancel(c, id);
    assert c.ledger[id] == At(Deferred(t));
    forall i, q ensures Holds(d, i, q) <==> Holds(c, i, q) && i != id {}
    SilencingConserves(c, d, id);
  }

  lemma CancelQueuedConserves(c: Client, t: Topic, id: ReqId)
    requires Conserved(c) && Holds(c, id, Queue(t))
    ensures Conserved(Cancel(c, id))
  {
    OneHolder(c, id);
    var d := Cancel(c, id);
    assert c.ledger[id] == At(Queue(t));
    WithoutIdDrops(c.channels[t].queued, id);
    forall i, q ensures Holds(d, i, q) <==> Holds(c, i, q) && i != id {}
    SilencingConserves(c, d, id);
  }

  // ----- Completions -----

  /** The waiters of a topic are answered and its record's other holders stay. */
  lemma AnswerWaitersConserves(c: Client, d: Client, t: Topic, a: Answer)
    requires Conserved(c) && t in c.channels
    requires d.ledger == SettleAll(c.ledger, c.channels[t].waiters, Answered(a))
    requires d.books.pendingCalls == c.books.pendingCalls && d.books.pendingPings == c.books.pendingPings
    requires d.books.pendingLeaves == c.books.pendingLeaves
    requires t in d.channels && d.channels == c.channels[t := d.channels[t]]
    requires SameRecordHolders(c.channels[t].(waiters := {}), d.channels[t])
    ensures Conserved(d)
  {
    var ids := c.channels[t].waiters;
    forall id | id in ids ensures Pending(c.ledger, id) && c.ledger[id] == At(Waiter(t)) {
      assert Holds(c, id, Waiter(t));
    }
    SettleAllFinishes(c.ledger, ids, Answered(a));
    forall i, q ensures Holds(d, i, q) <==> Holds(c, i, q) && q != Waiter(t) {}
    PlaceEmptied(c, d, ids, Waiter(t));
    ReleaseBalances(c, d, {}, ids);
    assert {} - ids == {};
  }

  /** The deferred leave of a topic is answered, the other holders stay. */
  lemma AnswerDeferredConserves(c: Client, d: Client, t: Topic, a: Answer)
    requires Conserved(c) && t in c.channels
    requires d.ledger == SettleLeave(c.ledger, c.channels[t].deferred, a)
    requires d.books.pendingCalls == c.books.pendingCalls && d.books.pendingPings == c.books.pendingPings
    requires d.books.pendingLeaves == c.books.pendingLeaves
    requires t in d.channels && d.channels == c.channels[t := d.channels[t]]
    requires SameRecordHolders(c.channels[t].(deferred := None), d.channels[t])
    ensures Conserved(d)
  {
    var ids := LeaveIds(c.channels[t].deferred);
    forall id | id in ids ensures Pending(c.ledger, id) && c.ledger[id] == At(Deferred(t)) {
      assert Holds(c, id, Deferred(t));
    }
    SettleLeaveFinishes(c.ledger, c.channels[t].deferred, a);
    forall i, q ensures Holds(d, i, q) <==> Holds(c, i, q) && q != Deferred(t) {}
    PlaceEmptied(c, d, ids, Deferred(t));
    ReleaseBalances(c, d, {}, ids);
    assert {} - ids == {};
  }

  lemma StartJoinConserves(c: Client, net: Net, t: Topic, load: nat, params: Value)
    requires Conserved(c)
    ensures Conserved(StartJoin(c, net, t, load, params).client)
  {
    var (books, ok) := BookJoin(c.books, t, params);
    SameHoldersBalance(c, c.(books := books), {});
    var d := SetStatus(c, t, Joining).(books := books);
    SameHoldersBalance(c, d, {});
    SendFrameBalances(d, net, HandedJoin(t, load, t in c.trace.latest && c.trace.latest[t] == load), {});
  }

  lemma PayloadReadyConserves(c: Client, net: Net, t: Topic, load: nat, loaded: Option<Value>)
    requires Conserved(c)
    ensures Conserved(PayloadReady(c, net, t, load, loaded).client)
  {
    var c1 := c.(payloads := c.payloads - {(t, load)});
    SameHoldersBalance(c, c1, {});
    if t in c.channels && c.channels[t].activePayload == Some(load) {
      var rec := c.channels[t].(activePayload := None);
      var c2 := SetRecord(c1, t, rec);
      SameHoldersBalance(c1, c2, {});
      if rec.desired && loaded.None? {
        AnswerWaitersConserves(c, PayloadReady(c, net, t, load, loaded).client, t, LoaderFailed);
      } else if rec.desired && !P.Active(c.books.proto, t) {
        StartJoinConserves(c2, net, t, load, loaded.value);
      }
    }
  }

  lemma RejoinFiredConserves(c: Client, t: Topic)
    requires Conserved(c)
    ensures Conserved(RejoinFired(c, t))
  {
    var c1 := c.(rejoins := c.rejoins - multiset{t});
    SameHoldersBalance(c, c1, {});
    if t in c.channels {
      var c2 := SetRecord(c1, t, c.channels[t].(rejoinScheduled := false));
      SameHoldersBalance(c1, c2, {});
      LoadPayloadBalances(c2, t, {});
    }
  }

  lemma JoinTimedOutConserves(c: Client, t: Topic, r: Ref)
    requires Conserved(c)
    ensures Conserved(JoinTimedOut(c, t, r))
  {
    if r in c.books.pendingJoins && c.books.pendingJoins[r] == t {
      JoinExpiredConserves(c, t, r);
    } else {
      SameHoldersBalance(c, JoinTimedOut(c, t, r), {});
    }
  }

  lemma JoinExpiredConserves(c: Client, t: Topic, r: Ref)
    requires Conserved(c) && r in c.books.pendingJoins && c.books.pendingJoins[r] == t
    ensures Conserved(JoinTimedOut(c, t, r))
  {
    var c2 := c.(books := BookDiscard(BookJoinTimeout(c.books, t, r), t));
    SameHoldersBalance(c, c2, {});
    if t in c.channels {
      var rec := c.channels[t].(activePayload := None);
      if rec.deferred.Some? {
        AnswerDeferredConserves(c, JoinTimedOut(c, t, r), t, Timeout(LeaveOp));
      } else if rec.desired {
        var c3 := SetRecord(c2, t, rec.(status := Errored, waiters := {}))
                    .(ledger := SettleAll(c.ledger, rec.waiters, Answered(Timeout(JoinOp))));
        AnswerWaitersConserves(c, c3, t, Timeout(JoinOp));
        ScheduleRejoinBalances(c3, t, {});
      } else {
        SameHoldersBalance(c2, SetRecord(c2, t, rec.(status := Left)), {});
      }
    }
  }

  /** A pending leave is answered and removed. */
  lemma AnswerLeaveConserves(c: Client, d: Client, r: Ref, a: Answer)
    requires Conserved(c) && r in c.books.pendingLeaves
    requires d.ledger == SettleLeave(c.ledger, Some(c.books.pendingLeaves[r]), a)
    requires d.books.pendingCalls == c.books.pendingCalls && d.books.pendingPings == c.books.pendingPings
    requires d.books.pendingLeaves == c.books.pendingLeaves - {r} && d.channels == c.channels
    ensures Conserved(d)
  {
    var ids := LeaveIds(Some(c.books.pendingLeaves[r]));
    forall id | id in ids ensures Pending(c.ledger, id) && c.ledger[id] == At(LeavingOn(r)) {
      assert Holds(c, id, LeavingOn(r));
    }
    SettleLeaveFinishes(c.ledger, Some(c.books.pendingLeaves[r]), a);
    forall i, q ensures Holds(d, i, q) <==> Holds(c, i, q) && q != LeavingOn(r) {}
    PlaceEmptied(c, d, ids, LeavingOn(r));
    ReleaseBalances(c, d, {}, ids);
    assert {} - ids == {};
  }

  lemma LeaveTimedOutConserves(c: Client, t: Topic, r: Ref)
    requires Conserved(c)
    ensures Conserved(LeaveTimedOut(c, t, r))
  {
    var c1 := c.(books := c.books.(timers := c.books.timers - {LeaveTimer(t, r)}));
    SameHoldersBalance(c, c1, {});
    if r in c.books.pendingLeaves {
      var c2 := c1.(ledger := SettleLeave(c.ledger, Some(c.books.pendingLeaves[r]), Timeout(LeaveOp)),
                    books := BookDiscard(c1.books.(pendingLeaves := c.books.pendingLeaves - {r}), t));
      AnswerLeaveConserves(c, c2, r, Timeout(LeaveOp));
      StatusThenLoadConserves(c2, t);
    }
  }

  lemma StatusThenLoadConserves(c: Client, t: Topic)
    requires Conserved(c)
    ensures Conserved(LoadPayload(SetStatus(c, t, WaitingToJoin), t)) && Conserved(SetStatus(c, t, Left))
  {
    StatusBalances(c, t, WaitingToJoin, {});
    StatusBalances(c, t, Left, {});
    LoadPayloadBalances(SetStatus(c, t, WaitingToJoin), t, {});
  }

  // ----- Incoming frames -----

  lemma OnJoinedConserves(c: Client, net: Net, t: Topic, r: Ref, response: Payload)
    requires Conserved(c) && Linked(BookJoinDone(c.books, r)) && P.IsJoined(c.books.proto, t)
    ensures Conserved(OnJoined(c, net, t, r, response).client)
  {
    var c1 := MarkJoined(c, t, r, response);
    if t in c.channels {
      var leave := c.channels[t].deferred;
      MarkJoinedBalances(c, t, r, response);
      if leave.Some? {
        StartLeaveBalances(c1, net, t, leave.value, LeaveIds(leave));
        assert LeaveIds(leave) - LeaveIds(leave) == {};
      } else {
        FlushConserves(c1, net, t);
      }
    } else {
      SameHoldersBalance(c, c1, {});
      FlushConserves(c1, net, t);
    }
  }

  lemma MarkJoinedBalances(c: Client, t: Topic, r: Ref, response: Payload)
    requires Conserved(c) && t in c.channels
    ensures Balanced(MarkJoined(c, t, r, response), LeaveIds(c.channels[t].deferred))
  {
    var d := MarkJoined(c, t, r, response);
    var leave := c.channels[t].deferred;
    var e := SetRecord(d, t, d.channels[t].(deferred := leave));
    AnswerWaitersConserves(c, e, t, Accepted(response));
    forall id | id in LeaveIds(leave) ensures Pending(e.ledger, id) && e.ledger[id] == At(Deferred(t)) {
      assert Holds(e, id, Deferred(t));
    }
    forall i, q ensures Holds(d, i, q) <==> Holds(e, i, q) && q != Deferred(t) {}
    forall i ensures i in LeaveIds(leave) <==> Holds(e, i, Deferred(t)) {}
    PlaceEmptied(e, d, LeaveIds(leave), Deferred(t));
    LoosenBalances(e, d, {}, LeaveIds(leave));
    assert {} + LeaveIds(leave) == LeaveIds(leave);
  }

  lemma OnJoinRejectedConserves(c: Client, t: Topic, r: Ref, response: Payload)
    requires Conserved(c)
    ensures Conserved(OnJoinRejected(c, t, r, response))
  {
    var c1 := c.(books := BookJoinDone(c.books, r));
    SameHoldersBalance(c, c1, {});
    if t in c.channels {
      var rec := c.channels[t];
      var c2 := SetRecord(c1, t, rec.(deferred := None)).(ledger := SettleLeave(c.ledger, rec.deferred, Accepted(EMPTY_OBJECT)));
      AnswerDeferredConserves(c1, c2, t, Accepted(EMPTY_OBJECT));
      var c3 := SetRecord(c1, t, rec.(status := if rec.deferred.Some? then Left else Errored, deferred := None, waiters := {}))
                  .(ledger := SettleAll(c2.ledger, rec.waiters, Answered(JoinRefused(response))));
      RejectedWaitersConserve(c2, c3, t, response);
      ScheduleRejoinBalances(c3, t, {});
    }
  }

  lemma RejectedWaitersConserve(c: Client, d: Client, t: Topic, response: Payload)
    requires Conserved(c) && t in c.channels && t in d.channels && c.channels[t].deferred.None?
    requires d.books == c.books && d.channels == c.channels[t := d.channels[t]]
    requires d.channels[t].waiters == {} && d.channels[t].deferred.None? && d.channels[t].queued == c.channels[t].queued
    requires d.ledger == SettleAll(c.ledger, c.channels[t].waiters, Answered(JoinRefused(response)))
    ensures Conserved(d)
  {
    AnswerWaitersConserves(c, d, t, JoinRefused(response));
  }

  lemma OnLeftConserves(c: Client, t: Topic, r: Ref, response: Payload)
    requires Conserved(c)
    ensures Conserved(OnLeft(c, t, r, response))
  {
    if r in c.books.pendingLeaves {
      var c1 := c.(books := c.books.(pendingLeaves := c.books.pendingLeaves - {r}),
                   ledger := SettleLeave(c.ledger, Some(c.books.pendingLeaves[r]), Accepted(response)));
      AnswerLeaveConserves(c, c1, r, Accepted(response));
      StatusThenLoadConserves(c1, t);
    } else {
      StatusThenLoadConserves(c, t);
    }
  }

  lemma OnReplyConserves(c: Client, r: Ref, status: P.ReplyStatus, response: Payload)
    requires Conserved(c)
    ensures Conserved(OnReply(c, r, status, response))
  {
    if r in c.books.pendingCalls {
      var id := c.books.pendingCalls[r].id;
      assert Holds(c, id, Calling(r));
      OneHolder(c, id);
      var d := OnReply(c, r, status, response);
      SettleFinishes(c.ledger, id, Answered(Replied(status, response)));
      forall i, q ensures Holds(d, i, q) <==> Holds(c, i, q) && q != Calling(r) {}
      PlaceEmptied(c, d, {id}, Calling(r));
      ReleaseBalances(c, d, {}, {id});
      assert {} - {id} == {};
    }
  }

  lemma OnHeartbeatConserves(c: Client, r: Ref)
    requires Conserved(c)
    ensures Conserved(OnHeartbeat(c, r))
  {
    if c.books.heartbeat == Some(r) {
      SameHoldersBalance(c, OnHeartbeat(c, r), {});
    } else if r in c.books.pendingPings {
      var id := c.books.pendingPings[r];
      assert Holds(c, id, Pinging(r));
      OneHolder(c, id);
      var d := OnHeartbeat(c, r);
      SettleFinishes(c.ledger, id, Answered(Pong));
      forall i, q ensures Holds(d, i, q) <==> Holds(c, i, q) && q != Pinging(r) {}
      PlaceEmptied(c, d, {id}, Pinging(r));
      ReleaseBalances(c, d, {}, {id});
      assert {} - {id} == {};
    }
  }

  lemma IncomingConserves(c: Client, net: Net, f: Frame)
    requires Linked(c.books) && Conserved(c)
    ensures Conserved(Incoming(c, net, f).client)
  {
    var (proto, result) := P.Receive(c.books.proto, f);
    var c1 := c.(books := c.books.(proto := proto));
    SameHoldersBalance(c, c1, {});
    if result.Ok? {
      if result.value.JoinAccepted? {
        ReceiveStaysLinked(c.books, f);
        AcceptedTopicIsJoined(c.books, f);
        assert BookComplete(c.books, proto, result.value) == BookJoinDone(c1.books, result.value.reference);
      }
      ReactConserves(c1, net, result.value);
    }
  }

  lemma ReactConserves(c: Client, net: Net, event: P.Event)
    requires Conserved(c)
    requires event.JoinAccepted? ==> Linked(BookJoinDone(c.books, event.reference)) && P.IsJoined(c.books.proto, event.topic)
    ensures Conserved(React(c, net, event).client)
  {
    match event
    case JoinAccepted(t, r, response) => OnJoinedConserves(c, net, t, r, response);
    case JoinRejected(t, r, response) => OnJoinRejectedConserves(c, t, r, response);
    case Left(t, r, response) => OnLeftConserves(c, t, r, response);
    case Replied(_, _, r, status, response) => OnReplyConserves(c, r, status, response);
    case HeartbeatAck(r, _) => OnHeartbeatConserves(c, r);
    case ChannelFailed(t, _) => FailureConserves(c, t);
    case ChannelClosed(t, _) => FailureConserves(c, t);
    case _ =>
  }

  lemma FailureConserves(c: Client, t: Topic)
    requires Conserved(c)
    ensures Conserved(ScheduleRejoin(SetStatus(c.(books := BookDropJoins(c.books, t)), t, Errored), t))
    ensures Conserved(StopChannel(SetStatus(c.(books := BookDropJoins(c.books, t)), t, Closed), t))
  {
    var c1 := c.(books := BookDropJoins(c.books, t));
    SameHoldersBalance(c, c1, {});
    StatusBalances(c1, t, Errored, {});
    StatusBalances(c1, t, Closed, {});
    ScheduleRejoinBalances(SetStatus(c1, t, Errored), t, {});
    StopChannelBalances(SetStatus(c1, t, Closed), t, {});
  }

  // ----- Connections -----

  lemma {:induction false} LoadAllConserves(c: Client, order: seq<Topic>)
    requires Conserved(c)
    ensures Conserved(LoadAll(c, order))
    decreases |order|
  {
    if order != [] {
      StatusThenLoadConserves(c, order[0]);
      LoadAllConserves(LoadPayload(SetStatus(c, order[0], WaitingToJoin), order[0]), order[1..]);
    }
  }

  lemma OnConnectConserves(c: Client, order: seq<Topic>)
    requires Conserved(c)
    ensures Conserved(OnConnect(c, order))
  {
    var c1 := Opened(c);
    SameHoldersBalance(c, c1, {});
    LoadAllConserves(c1, order);
  }

  predicate Transmitted(p: Place) {
    p.Calling? || p.Pinging? || p.LeavingOn? || p.Deferred?
  }

  /** `ids` are the requests that containers of some kinds hold. */
  ghost predicate HeldIn(c: Client, ids: set<ReqId>, calls: bool, pings: bool, leaves: bool, deferred: bool) {
    forall id :: id in ids <==> (Pending(c.ledger, id) && IsKind(c.ledger[id].place, calls, pings, leaves, deferred))
  }

  predicate IsKind(p: Place, calls: bool, pings: bool, leaves: bool, deferred: bool) {
    match p
    case Calling(_) => calls
    case Pinging(_) => pings
    case LeavingOn(_) => leaves
    case Deferred(_) => deferred
    case _ => false
  }

  lemma CallsHeld(c: Client)
    requires Conserved(c)
    ensures HeldIn(c, CallIds(c.books.pendingCalls), true, false, false, false)
  {
    forall r | r in c.books.pendingCalls ensures Holds(c, c.books.pendingCalls[r].id, Calling(r)) {}
    forall id | Pending(c.ledger, id) ensures Holds(c, id, c.ledger[id].place) {}
  }

  lemma PingsHeld(c: Client)
    requires Conserved(c)
    ensures HeldIn(c, c.books.pendingPings.Values, false, true, false, false)
  {
    forall r | r in c.books.pendingPings ensures Holds(c, c.books.pendingPings[r], Pinging(r)) {}
    forall id | Pending(c.ledger, id) ensures Holds(c, id, c.ledger[id].place) {}
  }

  lemma LeavesHeld(c: Client)
    requires Conserved(c)
    ensures HeldIn(c, OpenLeaves(c.books.pendingLeaves), false, false, true, false)
  {
    forall r | r in c.books.pendingLeaves && c.books.pendingLeaves[r].open ensures Holds(c, c.books.pendingLeaves[r].id, LeavingOn(r)) {}
    forall id | Pending(c.ledger, id) ensures Holds(c, id, c.ledger[id].place) {}
  }

  lemma DeferredHeld(c: Client)
    requires Conserved(c)
    ensures HeldIn(c, OpenDeferred(c.channels), false, false, false, true)
  {
    forall t | t in c.channels && c.channels[t].deferred.Some? && c.channels[t].deferred.value.open
      ensures Holds(c, c.channels[t].deferred.value.id, Deferred(t)) {}
    forall id | Pending(c.ledger, id) ensures Holds(c, id, c.ledger[id].place) {}
  }

  /** All of `ids`, which were pending, now have the fate `f`, and nothing else changed. */
  ghost predicate FinishedWith(l: Ledger, m: Ledger, ids: set<ReqId>, f: Fate) {
    && m.Keys == l.Keys
    && forall id :: id in l ==> m[id] == if id in ids then f else l[id]
  }

  ghost predicate AllPending(l: Ledger, ids: set<ReqId>) {
    forall id :: id in ids ==> Pending(l, id)
  }

  lemma SettleAllWith(l: Ledger, ids: set<ReqId>, f: Fate)
    requires AllPending(l, ids)
    ensures FinishedWith(l, SettleAll(l, ids, f), ids, f)
  {
    forall id | id in ids ensures id in l { assert Pending(l, id); }
    assert SettleAll(l, ids, f).Keys == l.Keys + ids == l.Keys;
  }

  lemma StillPending(l: Ledger, m: Ledger, done: set<ReqId>, f: Fate, ids: set<ReqId>)
    requires FinishedWith(l, m, done, f) && AllPending(l, ids) && done !! ids
    ensures AllPending(m, ids)
  {
    forall id | id in ids ensures Pending(m, id) { assert Pending(l, id); }
  }

  /** The answer a transmitted request gets when its connection is lost. */
  function LossOf(p: Place): Answer {
    match p
    case Calling(_) => Interrupted(CallOp)
    case Pinging(_) => Interrupted(PingOp)
    case _ => Interrupted(LeaveOp)
  }

  lemma PendingKinds(c: Client)
    requires Conserved(c)
    ensures AllPending(c.ledger, CallIds(c.books.pendingCalls)) && AllPending(c.ledger, c.books.pendingPings.Values)
    ensures AllPending(c.ledger, OpenLeaves(c.books.pendingLeaves)) && AllPending(c.ledger, OpenDeferred(c.channels))
    ensures CallIds(c.books.pendingCalls) !! c.books.pendingPings.Values
    ensures CallIds(c.books.pendingCalls) + c.books.pendingPings.Values !! OpenLeaves(c.books.pendingLeaves)
    ensures CallIds(c.books.pendingCalls) + c.books.pendingPings.Values + OpenLeaves(c.books.pendingLeaves) !! OpenDeferred(c.channels)
  {
    CallsHeld(c);
    PingsHeld(c);
    LeavesHeld(c);
    DeferredHeld(c);
  }

  lemma InterruptChain(l: Ledger, calls: set<ReqId>, pings: set<ReqId>, leaves: set<ReqId>, deferred: set<ReqId>)
    requires AllPending(l, calls) && AllPending(l, pings) && AllPending(l, leaves) && AllPending(l, deferred)
    requires calls !! pings && calls + pings !! leaves && calls + pings + leaves !! deferred
    ensures var l1 := SettleAll(l, calls, Answered(Interrupted(CallOp)));
            var l2 := SettleAll(l1, pings, Answered(Interrupted(PingOp)));
            var l3 := SettleAll(l2, leaves, Answered(Interrupted(LeaveOp)));
            var l4 := SettleAll(l3, deferred, Answered(Interrupted(LeaveOp)));
            && FinishedWith(l, l1, calls, Answered(Interrupted(CallOp)))
            && FinishedWith(l1, l2, pings, Answered(Interrupted(PingOp)))
            && FinishedWith(l2, l3, leaves, Answered(Interrupted(LeaveOp)))
            && FinishedWith(l3, l4, deferred, Answered(Interrupted(LeaveOp)))
  {
    var call, ping, leave := Answered(Interrupted(CallOp)), Answered(Interrupted(PingOp)), Answered(Interrupted(LeaveOp));
    var l1 := SettleAll(l, calls, call);
    SettleAllWith(l, calls, call);
    StillPending(l, l1, calls, call, pings);
    StillPending(l, l1, calls, call, leaves);
    StillPending(l, l1, calls, call, deferred);
    var l2 := SettleAll(l1, pings, ping);
    SettleAllWith(l1, pings, ping);
    StillPending(l1, l2, pings, ping, leaves);
    StillPending(l1, l2, pings, ping, deferred);
    var l3 := SettleAll(l2, leaves, leave);
    SettleAllWith(l2, leaves, leave);
    StillPending(l2, l3, leaves, leave, deferred);
    SettleAllWith(l3, deferred, leave);
  }

  /** A lost connection answers every transmitted call, ping and leave, and every
      deferred leave, with its interruption, and leaves every other request as it is:
      queued pushes and join waiters stay pending. */
  lemma DisconnectInterrupts(c: Client, phase: Phase)
    requires Conserved(c)
    ensures var l := OnDisconnect(c, phase).ledger;
            && l.Keys == c.ledger.Keys
            && forall id :: id in l ==>
                 l[id] == if Pending(c.ledger, id) && Transmitted(c.ledger[id].place) then Answered(LossOf(c.ledger[id].place))
                          else c.ledger[id]
  {
    PendingKinds(c);
    InterruptChain(c.ledger, CallIds(c.books.pendingCalls), c.books.pendingPings.Values,
                   OpenLeaves(c.books.pendingLeaves), OpenDeferred(c.channels));
    CallsHeld(c);
    PingsHeld(c);
    LeavesHeld(c);
    DeferredHeld(c);
  }

  lemma DisconnectConserves(c: Client, phase: Phase)
    requires Conserved(c)
    ensures Conserved(OnDisconnect(c, phase))
  {
    var d := OnDisconnect(c, phase);
    DisconnectInterrupts(c, phase);
    forall i, q ensures Holds(d, i, q) <==> Holds(c, i, q) && !Transmitted(q) {}
    forall id | Pending(d.ledger, id) ensures Holds(d, id, d.ledger[id].place) {
      assert Pending(c.ledger, id);
    }
    forall i, q | Holds(d, i, q) ensures i in d.ledger && d.ledger[i] == At(q) {
      assert Holds(c, i, q);
    }
  }

  // ----- Turns -----

  lemma RequestConserves(c: Client, net: Net, a: Action)
    requires Linked(c.books) && Conserved(c) && Enabled(c, a) && IsRequest(a)
    ensures Conserved(Act(c, net, a).client)
  {
    match a
    case DoRegister(t) => RegisterConserves(c, t);
    case DoUnregister(t) => if c.phase.Connected? { UnregisterConserves(c, net, t); } else { ForgetConserves(c, t); }
    case DoCancel(id) => CancelConserves(c, id);
    case DoJoin(t, id) => RequestJoinConserves(c, t, id);
    case DoPush(t, id, isCall, event, payload) => RequestPushConserves(c, net, t, id, isCall, event, payload);
    case DoLeave(t, id) => RequestLeaveConserves(c, net, t, id);
    case DoPing(id) => RequestPingConserves(c, net, id);
  }

  lemma ActConserves(c: Client, net: Net, a: Action)
    requires Linked(c.books) && Conserved(c) && Enabled(c, a)
    ensures Conserved(Act(c, net, a).client)
  {
    if IsRequest(a) {
      RequestConserves(c, net, a);
    } else {
      match a
      case AttemptSucceeded(order) => OnConnectConserves(c, order);
      case FrameArrived(f) => IncomingConserves(c, net, f);
      case HeartbeatDue => HeartbeatTickConserves(c, net);
      case LoadFinished(t, load, loaded) => PayloadReadyConserves(c, net, t, load, loaded);
      case RejoinDue(t) => RejoinFiredConserves(c, t);
      case TimerDue(JoinTimer(t, r)) => JoinTimedOutConserves(c, t, r);
      case TimerDue(LeaveTimer(t, r)) => LeaveTimedOutConserves(c, t, r);
      case DoShutdown => SameHoldersBalance(c, Shutdown(c), {});
      case _ => PhaseConserves(c, Act(c, net, a).client.phase);
    }
  }

  lemma RegisterConserves(c: Client, t: Topic)
    requires Conserved(c)
    ensures Conserved(Register(c, t))
  {
    if t !in c.channels {
      forall i, q ensures Holds(c, i, q) <==> Holds(Register(c, t), i, q) {}
      LoosenBalances(c, Register(c, t), {}, {});
    }
  }

  lemma HeartbeatTickConserves(c: Client, net: Net)
    requires Conserved(c)
    ensures Conserved(HeartbeatTick(c, net).client)
  {
    if c.books.heartbeat.None? {
      var d := c.(books := BookHeartbeat(c.books));
      SameHoldersBalance(c, d, {});
      SendFrameBalances(d, net, HandedHeartbeat, {});
    }
  }

  lemma PhaseConserves(c: Client, phase: Phase)
    requires Conserved(c)
    ensures Conserved(c.(phase := phase))
  {
    SameHoldersBalance(c, c.(phase := phase), {});
  }

  lemma NextConserves(c: Client, net: Net, a: Action, retry: bool)
    requires Linked(c.books) && Conserved(c) && Enabled(c, a)
    ensures Conserved(Next(c, net, a, retry))
  {
    ActConserves(c, net, a);
    var d := Act(c, net, a).client;
    DisconnectConserves(d, Idle);
    DisconnectConserves(d, Backoff);
    PhaseConserves(d, Idle);
  }
}
