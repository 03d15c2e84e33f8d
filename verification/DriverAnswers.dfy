/** Every answer fits the request that receives it: a join hears of joining, a call of its
    call, and so on, whichever turn answers it. */
module DriverAnswers {
  import opened Wire
  import P = ProtocolSpec
  import opened DriverSpec
  import opened DriverBooks
  import opened DriverLedger
  import C = DriverConservation
  import F = DriverFates
  import O = DriverOffline
  import R = DriverRuns

  // ----- What fits -----

  predicate Fits(op: Operation, a: Answer) {
    match op
    case JoinOp =>
      || a.Accepted? || a.JoinRefused? || a.LoaderFailed? || a.UnknownTopic? || a.AlreadyJoined?
      || a == Timeout(JoinOp) || a == Interrupted(JoinOp)
    case CallOp =>
      a.Replied? || a.ChannelNotJoined? || a.PushBufferFull? || a.BinaryNotSupported? || a == Interrupted(CallOp)
    case CastOp => a.Sent? || a.ChannelNotJoined? || a.PushBufferFull? || a.BinaryNotSupported? || a == Interrupted(CastOp)
    case LeaveOp => a.Accepted? || a == Timeout(LeaveOp) || a == Interrupted(LeaveOp)
    case PingOp => a.Pong? || a.SocketNotConnected? || a == Interrupted(PingOp)
  }

  predicate Belongs(op: Operation, p: Place) {
    match p
    case Waiter(_) => op.JoinOp?
    case Queue(_) => op.CallOp? || op.CastOp?
    case Deferred(_) => op.LeaveOp?
    case Calling(_) => op.CallOp?
    case Pinging(_) => op.PingOp?
    case LeavingOn(_) => op.LeaveOp?
  }

  predicate FateFits(op: Operation, f: Fate) {
    match f
    case At(p) => Belongs(op, p)
    case Answered(a) => Fits(op, a)
    case _ => true
  }

  type Kinds = map<ReqId, Operation>

  ghost predicate LedgerFits(k: Kinds, l: Ledger) {
    forall id :: id in l ==> id in k && FateFits(k[id], l[id])
  }

  predicate PushFits(k: Kinds, p: Push) {
    p.id in k && k[p.id] == OperationOf(p)
  }

  ghost predicate QueueFits(k: Kinds, queued: seq<Push>) {
    forall p :: p in queued ==> PushFits(k, p)
  }

  ghost predicate QueuesFit(k: Kinds, c: Client) {
    forall t :: t in c.channels ==> QueueFits(k, c.channels[t].queued)
  }

  ghost predicate Fitting(k: Kinds, c: Client) {
    LedgerFits(k, c.ledger) && QueuesFit(k, c)
  }

  // ----- Ledger updates -----

  lemma SettleFits(k: Kinds, l: Ledger, id: ReqId, f: Fate)
    requires LedgerFits(k, l) && id in k && FateFits(k[id], f)
    ensures LedgerFits(k, Settle(l, id, f))
  {}

  lemma SettleAllFits(k: Kinds, l: Ledger, ids: set<ReqId>, f: Fate)
    requires LedgerFits(k, l) && forall id :: id in ids ==> id in k && FateFits(k[id], f)
    ensures LedgerFits(k, SettleAll(l, ids, f))
  {}

  lemma SettleLeaveFits(k: Kinds, l: Ledger, leave: Option<PendingLeave>, a: Answer)
    requires LedgerFits(k, l) && Fits(LeaveOp, a)
    requires leave.Some? && leave.value.open ==> leave.value.id in k && k[leave.value.id].LeaveOp?
    ensures LedgerFits(k, SettleLeave(l, leave, a))
  {}

  lemma {:induction false} SettleQueueFits(k: Kinds, l: Ledger, queued: seq<Push>)
    requires LedgerFits(k, l) && QueueFits(k, queued)
    ensures LedgerFits(k, SettleQueue(l, queued))
    decreases |queued|
  {
    if queued != [] {
      assert PushFits(k, queued[0]) by { assert queued[0] in queued; }
      assert forall p :: p in queued[1..] ==> p in queued;
      SettleQueueFits(k, Settle(l, queued[0].id, Answered(Interrupted(OperationOf(queued[0])))), queued[1..]);
    }
  }

  /** Whoever a container holds is a request of the container's kind. */
  lemma HolderBelongs(k: Kinds, c: Client, id: ReqId, p: Place)
    requires Conserved(c) && LedgerFits(k, c.ledger) && Holds(c, id, p)
    ensures id in k && Belongs(k[id], p)
  {}

  lemma WaitersBelong(k: Kinds, c: Client, t: Topic)
    requires Conserved(c) && LedgerFits(k, c.ledger) && t in c.channels
    ensures forall id :: id in c.channels[t].waiters ==> id in k && k[id].JoinOp?
    ensures var leave := c.channels[t].deferred;
            leave.Some? && leave.value.open ==> leave.value.id in k && k[leave.value.id].LeaveOp?
  {
    forall id | id in c.channels[t].waiters ensures id in k && k[id].JoinOp? {
      HolderBelongs(k, c, id, Waiter(t));
    }
    if c.channels[t].deferred.Some? && c.channels[t].deferred.value.open {
      HolderBelongs(k, c, c.channels[t].deferred.value.id, Deferred(t));
    }
  }

  lemma LeaverBelongs(k: Kinds, c: Client, r: Ref)
    requires Conserved(c) && LedgerFits(k, c.ledger) && r in c.books.pendingLeaves
    ensures c.books.pendingLeaves[r].open ==> c.books.pendingLeaves[r].id in k && k[c.books.pendingLeaves[r].id].LeaveOp?
  {
    if c.books.pendingLeaves[r].open {
      HolderBelongs(k, c, c.books.pendingLeaves[r].id, LeavingOn(r));
    }
  }

  // ----- Queues -----

  /** The queues of `d` hold only pushes that queues of `c` held. */
  ghost predicate QueuesFrom(c: Client, d: Client) {
    forall t :: t in d.channels ==> d.channels[t].queued == [] || (t in c.channels && d.channels[t].queued == c.channels[t].queued)
  }

  lemma QueuesStillFit(k: Kinds, c: Client, d: Client)
    requires QueuesFit(k, c) && QueuesFrom(c, d)
    ensures QueuesFit(k, d)
  {}

  // ----- Sending -----

  lemma SendPushFits(k: Kinds, c: Client, net: Net, t: Topic, p: Push)
    requires LedgerFits(k, c.ledger) && PushFits(k, p)
    ensures LedgerFits(k, SendPush(c, net, t, p).client.ledger)
  {
    if Unsendable(net, p) {
      SettleFits(k, c.ledger, p.id, Answered(BinaryNotSupported));
    } else if p.isCall {
      SendCallFits(k, c, net, t, p);
    } else {
      SendCastFits(k, c, net, t, p);
    }
  }

  lemma SendCallFits(k: Kinds, c: Client, net: Net, t: Topic, p: Push)
    requires LedgerFits(k, c.ledger) && PushFits(k, p) && p.isCall
    ensures LedgerFits(k, SendCall(c, net, t, p).client.ledger)
  {
    SettleFits(k, c.ledger, p.id, Silenced);
    var result := BookCall(c.books, t, p).1;
    if result.Ok? { SettleFits(k, c.ledger, p.id, At(Calling(result.value))); }
  }

  lemma SendCastFits(k: Kinds, c: Client, net: Net, t: Topic, p: Push)
    requires LedgerFits(k, c.ledger) && PushFits(k, p) && !p.isCall
    ensures LedgerFits(k, SendCast(c, net, t, p).client.ledger)
  {
    SettleFits(k, c.ledger, p.id, Silenced);
    SettleFits(k, c.ledger, p.id, Answered(Sent));
    SettleFits(k, c.ledger, p.id, Answered(Interrupted(CastOp)));
  }

  lemma {:induction false} FlushFits(k: Kinds, c: Client, net: Net, t: Topic)
    requires Fitting(k, c)
    ensures Fitting(k, Flush(c, net, t).client)
    decreases if t in c.channels then |c.channels[t].queued| else 0
  {
    if t in c.channels && c.channels[t].queued != [] {
      var queued := c.channels[t].queued;
      var c1 := PopQueue(c, t);
      assert PushFits(k, queued[0]) by { assert queued[0] in queued; }
      assert forall p :: p in queued[1..] ==> p in queued;
      assert QueuesFit(k, c1);
      SendPushFits(k, c1, net, t, queued[0]);
      var turn := SendPush(c1, net, t, queued[0]);
      assert Fitting(k, turn.client);
      if turn.exit.None? { FlushFits(k, turn.client, Spend(net, queued[0]), t); }
    }
  }

  lemma StartLeaveFits(k: Kinds, c: Client, net: Net, t: Topic, leave: PendingLeave)
    requires Fitting(k, c) && (leave.open ==> leave.id in k && k[leave.id].LeaveOp?)
    ensures Fitting(k, StartLeave(c, net, t, leave).client)
  {
    var d := StartLeave(c, net, t, leave).client;
    O.StartLeaveIsSteady(c, net, t, leave);
    QueuesStillFit(k, c, d);
    StartLeaveLedgerFits(k, c, net, t, leave);
  }

  lemma StartLeaveLedgerFits(k: Kinds, c: Client, net: Net, t: Topic, leave: PendingLeave)
    requires LedgerFits(k, c.ledger) && (leave.open ==> leave.id in k && k[leave.id].LeaveOp?)
    ensures LedgerFits(k, StartLeave(c, net, t, leave).client.ledger)
  {
    if leave.open {
      SettleFits(k, c.ledger, leave.id, Silenced);
      var result := BookLeave(c.books, t, leave).1;
      if result.Ok? { SettleFits(k, c.ledger, leave.id, At(LeavingOn(result.value))); }
    }
  }

  // ----- Requests -----

  lemma StopChannelFits(k: Kinds, c: Client, d: Client, t: Topic)
    requires Conserved(c) && Fitting(k, c)
    requires d.ledger == c.ledger && d.channels.Keys == c.channels.Keys
    requires forall u :: u in c.channels ==> SameRecordHolders(c.channels[u], d.channels[u])
    ensures Fitting(k, StopChannel(d, t))
  {
    if t in c.channels {
      var rec := d.channels[t];
      WaitersBelong(k, c, t);
      var l1 := SettleLeave(d.ledger, rec.deferred, Interrupted(LeaveOp));
      SettleLeaveFits(k, d.ledger, rec.deferred, Interrupted(LeaveOp));
      var l2 := SettleAll(l1, rec.waiters, Answered(Interrupted(JoinOp)));
      SettleAllFits(k, l1, rec.waiters, Answered(Interrupted(JoinOp)));
      SettleQueueFits(k, l2, rec.queued);
    }
    QueuesStillFit(k, c, StopChannel(d, t));
  }

  lemma UnregisterFits(k: Kinds, c: Client, net: Net, t: Topic)
    requires Conserved(c) && Fitting(k, c)
    ensures Fitting(k, Unregister(c, net, t).client) && Fitting(k, Forget(c, t))
  {
    StopChannelFits(k, c, c, t);
    QueuesStillFit(k, StopChannel(c, t), Forget(c, t));
    if P.IsJoined(c.books.proto, t) {
      var c0 := c.(books := c.books.(proto := P.Leave(c.books.proto, t).0));
      StopChannelFits(k, c, c0, t);
      QueuesStillFit(k, StopChannel(c0, t), Forget(c0, t));
      O.SendFrameIsSteady(Forget(c0, t), net, HandedLeave(t, GenerationAccepted(c, t)));
    }
  }

  lemma EnterFits(k: Kinds, c: Client, id: ReqId, p: Place, op: Operation)
    requires Fitting(k, c) && id !in c.ledger && Belongs(op, p)
    requires id !in k
    ensures Fitting(k[id := op], Enter(c, id, p))
  {
    var k1, d := k[id := op], Enter(c, id, p);
    forall t | t in d.channels ensures QueueFits(k1, d.channels[t].queued) {
      assert QueueFits(k, c.channels[t].queued);
      forall q | q in d.channels[t].queued ensures PushFits(k1, q) { assert PushFits(k, q); }
    }
  }

  lemma RequestPushFits(k: Kinds, c: Client, net: Net, t: Topic, id: ReqId, isCall: bool, event: string, payload: Payload)
    requires Fitting(k, c) && id !in c.ledger && id !in k
    ensures Fitting(k[id := if isCall then CallOp else CastOp], RequestPush(c, net, t, id, isCall, event, payload).client)
  {
    var p := Push(id, isCall, event, payload, c.trace.stamps);
    var k1, c1 := k[id := OperationOf(p)], Stamp(c, t, id);
    EnterFits(k, c, id, Queue(t), OperationOf(p));
    assert Fitting(k1, c1);
    if c.phase.Connected? && P.IsJoined(c.books.proto, t) {
      SendPushFits(k1, c1, net, t, p);
      O.PushIsSteady(c1, net, t, p);
    } else {
      EnqueueFits(k1, c1, t, p);
    }
  }

  lemma EnqueueFits(k: Kinds, c: Client, t: Topic, p: Push)
    requires Fitting(k, c) && PushFits(k, p)
    ensures Fitting(k, Enqueue(c, t, p))
  {
    SettleFits(k, c.ledger, p.id, Answered(Interrupted(OperationOf(p))));
    SettleFits(k, c.ledger, p.id, Answered(ChannelNotJoined));
    SettleFits(k, c.ledger, p.id, Answered(PushBufferFull));
    SettleFits(k, c.ledger, p.id, At(Queue(t)));
    if t in c.channels { assert QueueFits(k, c.channels[t].queued + [p]); }
  }

  lemma RequestPingFits(k: Kinds, c: Client, net: Net, id: ReqId)
    requires Fitting(k, c) && id !in c.ledger && id !in k
    ensures Fitting(k[id := PingOp], RequestPing(c, net, id).client)
  {
    var k1 := k[id := PingOp];
    if !c.phase.Connected? {
      EnterFits(k, c, id, Pinging(0), PingOp);
      SettleFits(k1, Enter(c, id, Pinging(0)).ledger, id, Answered(SocketNotConnected));
      QueuesStillFit(k1, Enter(c, id, Pinging(0)), RequestPing(c, net, id).client);
    } else {
      var place := Pinging(c.books.proto.next + 1);
      EnterFits(k, c, id, place, PingOp);
      var d := Enter(c, id, place).(books := BookPing(c.books, id));
      O.SendFrameIsSteady(d, net, HandedHeartbeat);
      QueuesStillFit(k1, Enter(c, id, place), RequestPing(c, net, id).client);
    }
  }

  lemma RequestJoinFits(k: Kinds, c: Client, t: Topic, id: ReqId)
    requires Fitting(k, c) && id !in c.ledger && id !in k
    ensures Fitting(k[id := JoinOp], RequestJoin(c, t, id))
  {
    var k1, c1 := k[id := JoinOp], Enter(c, id, Waiter(t));
    EnterFits(k, c, id, Waiter(t), JoinOp);
    SettleFits(k1, c1.ledger, id, Answered(UnknownTopic));
    SettleFits(k1, c1.ledger, id, Answered(AlreadyJoined));
    JoinKeepsQueues(c, t, id);
    QueuesStillFit(k1, c1, RequestJoin(c, t, id));
  }

  lemma JoinKeepsQueues(c: Client, t: Topic, id: ReqId)
    ensures QueuesFrom(c, RequestJoin(c, t, id))
    ensures var l := Enter(c, id, Waiter(t)).ledger; var m := RequestJoin(c, t, id).ledger;
            m == l || m == Settle(l, id, Answered(UnknownTopic)) || m == Settle(l, id, Answered(AlreadyJoined))
  {
    if t in c.channels {
      if !c.phase.Connected? {
      } else if P.IsJoined(c.books.proto, t) {
      } else {
      }
    }
  }

  lemma RequestLeaveFits(k: Kinds, c: Client, net: Net, t: Topic, id: ReqId)
    requires Conserved(c) && Fitting(k, c) && id !in c.ledger && id !in k
    ensures Fitting(k[id := LeaveOp], RequestLeave(c, net, t, id).client)
  {
    var k1, c1 := k[id := LeaveOp], Enter(c, id, Deferred(t));
    EnterFits(k, c, id, Deferred(t), LeaveOp);
    var state := P.StateOf(c.books.proto, t);
    var status := if c.phase.Connected? && (state == Some(P.Joined) || state == Some(P.Joining)) then Leaving else Left;
    var c2 := StopChannel(SetStatus(c1, t, status), t);
    EnteredStopFits(k1, c, SetStatus(c1, t, status), t);
    if c.phase.Connected? && state == Some(P.Joined) {
      StartLeaveFits(k1, c2, net, t, PendingLeave(id, true));
    } else {
      SettleFits(k1, c2.ledger, id, Answered(Accepted(EMPTY_OBJECT)));
      SettleFits(k1, c2.ledger, id, At(Deferred(t)));
      QueuesStillFit(k1, c2, RequestLeave(c, net, t, id).client);
    }
  }

  /** Stopping a channel while the request that stops it is being entered. */
  lemma EnteredStopFits(k: Kinds, c: Client, d: Client, t: Topic)
    requires Conserved(c) && LedgerFits(k, d.ledger) && QueuesFit(k, c)
    requires forall id :: id in c.ledger ==> id in d.ledger && d.ledger[id] == c.ledger[id]
    requires d.channels.Keys == c.channels.Keys && forall u :: u in c.channels ==> SameRecordHolders(c.channels[u], d.channels[u])
    ensures Fitting(k, StopChannel(d, t))
  {
    if t in c.channels {
      var rec := d.channels[t];
      assert LedgerFits(k, c.ledger);
      WaitersBelong(k, c, t);
      var l1 := SettleLeave(d.ledger, rec.deferred, Interrupted(LeaveOp));
      SettleLeaveFits(k, d.ledger, rec.deferred, Interrupted(LeaveOp));
      var l2 := SettleAll(l1, rec.waiters, Answered(Interrupted(JoinOp)));
      SettleAllFits(k, l1, rec.waiters, Answered(Interrupted(JoinOp)));
      SettleQueueFits(k, l2, rec.queued);
    }
    QueuesStillFit(k, c, StopChannel(d, t));
  }

  lemma {:induction false} WithoutIdFits(k: Kinds, queued: seq<Push>, id: ReqId)
    requires QueueFits(k, queued)
    ensures QueueFits(k, WithoutId(queued, id))
    decreases |queued|
  {
    if queued != [] {
      assert forall p :: p in queued[1..] ==> p in queued;
      assert queued[0] in queued;
      WithoutIdFits(k, queued[1..], id);
    }
  }

  lemma CancelFits(k: Kinds, c: Client, id: ReqId)
    requires Fitting(k, c)
    ensures Fitting(k, Cancel(c, id))
  {
    var d := Cancel(c, id);
    if id in c.ledger && c.ledger[id].At? {
      SettleFits(k, c.ledger, id, Silenced);
      match c.ledger[id].place
      case Waiter(t) => CancelWaiterFits(k, c, t, id);
      case Queue(t) => if t in c.channels { WithoutIdFits(k, c.channels[t].queued, id); }
      case _ => QueuesStillFit(k, c, d);
    }
  }

  lemma CancelWaiterFits(k: Kinds, c: Client, t: Topic, id: ReqId)
    requires Fitting(k, c) && LedgerFits(k, Settle(c.ledger, id, Silenced))
    ensures t in c.channels ==> Fitting(k, CancelWaiter(c, t, id))
  {
    if t in c.channels { QueuesStillFit(k, c, CancelWaiter(c, t, id)); }
  }

  // ----- Completions -----

  lemma PayloadReadyFits(k: Kinds, c: Client, net: Net, t: Topic, load: nat, loaded: Option<Value>)
    requires Conserved(c) && Fitting(k, c)
    ensures Fitting(k, PayloadReady(c, net, t, load, loaded).client)
  {
    if t in c.channels {
      WaitersBelong(k, c, t);
      SettleAllFits(k, c.ledger, c.channels[t].waiters, Answered(LoaderFailed));
    }
    PayloadKeepsQueues(c, net, t, load, loaded);
    QueuesStillFit(k, c, PayloadReady(c, net, t, load, loaded).client);
  }

  lemma PayloadKeepsQueues(c: Client, net: Net, t: Topic, load: nat, loaded: Option<Value>)
    ensures var d := PayloadReady(c, net, t, load, loaded).client;
            && QueuesFrom(c, d)
            && (d.ledger == c.ledger || (t in c.channels && d.ledger == SettleAll(c.ledger, c.channels[t].waiters, Answered(LoaderFailed))))
  {
    if t in c.channels && c.channels[t].activePayload == Some(load) && c.channels[t].desired && loaded.Some? && !P.Active(c.books.proto, t) {
      var c2 := SetRecord(c.(payloads := c.payloads - {(t, load)}), t, c.channels[t].(activePayload := None));
      StartJoinKeepsQueues(c2, net, t, load, loaded.value);
    }
  }

  lemma StartJoinKeepsQueues(c: Client, net: Net, t: Topic, load: nat, params: Value)
    ensures var d := StartJoin(c, net, t, load, params).client; QueuesFrom(c, d) && d.ledger == c.ledger
  {
    var (books, ok) := BookJoin(c.books, t, params);
    if ok {
      var d := SetStatus(c, t, Joining).(books := books);
      O.SendFrameIsJust(d, net, HandedJoin(t, load, t in c.trace.latest && c.trace.latest[t] == load));
    }
  }

  lemma JoinTimedOutFits(k: Kinds, c: Client, t: Topic, r: Ref)
    requires Conserved(c) && Fitting(k, c)
    ensures Fitting(k, JoinTimedOut(c, t, r))
  {
    if t in c.channels {
      WaitersBelong(k, c, t);
      SettleLeaveFits(k, c.ledger, c.channels[t].deferred, Timeout(LeaveOp));
      SettleAllFits(k, c.ledger, c.channels[t].waiters, Answered(Timeout(JoinOp)));
    }
    JoinTimeoutKeepsQueues(c, t, r);
    QueuesStillFit(k, c, JoinTimedOut(c, t, r));
  }

  lemma JoinTimeoutKeepsQueues(c: Client, t: Topic, r: Ref)
    ensures var d := JoinTimedOut(c, t, r);
            && QueuesFrom(c, d)
            && (d.ledger == c.ledger ||
                (t in c.channels && (d.ledger == SettleLeave(c.ledger, c.channels[t].deferred, Timeout(LeaveOp)) ||
                                     d.ledger == SettleAll(c.ledger, c.channels[t].waiters, Answered(Timeout(JoinOp))))))
  {
    if r in c.books.pendingJoins && c.books.pendingJoins[r] == t && t in c.channels {
      if c.channels[t].deferred.Some? {
      } else if c.channels[t].desired {
      }
    }
  }

  lemma LeaveTimedOutFits(k: Kinds, c: Client, t: Topic, r: Ref)
    requires Conserved(c) && Fitting(k, c)
    ensures Fitting(k, LeaveTimedOut(c, t, r))
  {
    if r in c.books.pendingLeaves {
      LeaverBelongs(k, c, r);
      SettleLeaveFits(k, c.ledger, Some(c.books.pendingLeaves[r]), Timeout(LeaveOp));
    }
    LeaveTimeoutKeepsQueues(c, t, r);
    QueuesStillFit(k, c, LeaveTimedOut(c, t, r));
  }

  lemma LeaveTimeoutKeepsQueues(c: Client, t: Topic, r: Ref)
    ensures var d := LeaveTimedOut(c, t, r);
            && QueuesFrom(c, d)
            && d.ledger == if r in c.books.pendingLeaves then SettleLeave(c.ledger, Some(c.books.pendingLeaves[r]), Timeout(LeaveOp)) else c.ledger
  {}

  // ----- Incoming frames -----

  lemma OnJoinedFits(k: Kinds, c: Client, net: Net, t: Topic, r: Ref, response: Payload)
    requires Conserved(c) && Fitting(k, c)
    ensures Fitting(k, OnJoined(c, net, t, r, response).client)
  {
    var c1 := MarkJoined(c, t, r, response);
    if t in c.channels {
      WaitersBelong(k, c, t);
      SettleAllFits(k, c.ledger, c.channels[t].waiters, Answered(Accepted(response)));
    }
    QueuesStillFit(k, c, c1);
    if t in c.channels && c.channels[t].deferred.Some? {
      StartLeaveFits(k, c1, net, t, c.channels[t].deferred.value);
    } else {
      FlushFits(k, c1, net, t);
    }
  }

  lemma OnJoinRejectedFits(k: Kinds, c: Client, t: Topic, r: Ref, response: Payload)
    requires Conserved(c) && Fitting(k, c)
    ensures Fitting(k, OnJoinRejected(c, t, r, response))
  {
    if t in c.channels {
      var rec := c.channels[t];
      WaitersBelong(k, c, t);
      var l1 := SettleLeave(c.ledger, rec.deferred, Accepted(EMPTY_OBJECT));
      SettleLeaveFits(k, c.ledger, rec.deferred, Accepted(EMPTY_OBJECT));
      SettleAllFits(k, l1, rec.waiters, Answered(JoinRefused(response)));
    }
    QueuesStillFit(k, c, OnJoinRejected(c, t, r, response));
  }

  lemma OnLeftFits(k: Kinds, c: Client, t: Topic, r: Ref, response: Payload)
    requires Conserved(c) && Fitting(k, c)
    ensures Fitting(k, OnLeft(c, t, r, response))
  {
    if r in c.books.pendingLeaves {
      LeaverBelongs(k, c, r);
      SettleLeaveFits(k, c.ledger, Some(c.books.pendingLeaves[r]), Accepted(response));
    }
    QueuesStillFit(k, c, OnLeft(c, t, r, response));
  }

  lemma OnReplyFits(k: Kinds, c: Client, r: Ref, status: P.ReplyStatus, response: Payload)
    requires Conserved(c) && Fitting(k, c)
    ensures Fitting(k, OnReply(c, r, status, response))
  {
    if r in c.books.pendingCalls {
      var id := c.books.pendingCalls[r].id;
      assert Holds(c, id, Calling(r));
      SettleFits(k, c.ledger, id, Answered(Replied(status, response)));
    }
    QueuesStillFit(k, c, OnReply(c, r, status, response));
  }

  lemma OnHeartbeatFits(k: Kinds, c: Client, r: Ref)
    requires Conserved(c) && Fitting(k, c)
    ensures Fitting(k, OnHeartbeat(c, r))
  {
    if r in c.books.pendingPings {
      var id := c.books.pendingPings[r];
      assert Holds(c, id, Pinging(r));
      SettleFits(k, c.ledger, id, Answered(Pong));
    }
    QueuesStillFit(k, c, OnHeartbeat(c, r));
  }

  lemma FailedFits(k: Kinds, c: Client, t: Topic)
    requires Conserved(c) && Fitting(k, c)
    ensures var c1 := c.(books := BookDropJoins(c.books, t));
            Fitting(k, ScheduleRejoin(SetStatus(c1, t, Errored), t)) && Fitting(k, StopChannel(SetStatus(c1, t, Closed), t))
  {
    var c1 := c.(books := BookDropJoins(c.books, t));
    RetryKeepsQueues(c1, t);
    QueuesStillFit(k, c, ScheduleRejoin(SetStatus(c1, t, Errored), t));
    StopChannelFits(k, c, SetStatus(c1, t, Closed), t);
  }

  lemma RetryKeepsQueues(c: Client, t: Topic)
    ensures var d := ScheduleRejoin(SetStatus(c, t, Errored), t); QueuesFrom(c, d) && d.ledger == c.ledger
  {}

  lemma ReactFits(k: Kinds, c: Client, net: Net, event: P.Event)
    requires Conserved(c) && Fitting(k, c)
    ensures Fitting(k, React(c, net, event).client)
  {
    match event
    case JoinAccepted(t, r, response) => OnJoinedFits(k, c, net, t, r, response);
    case JoinRejected(t, r, response) => OnJoinRejectedFits(k, c, t, r, response);
    case Left(t, r, response) => OnLeftFits(k, c, t, r, response);
    case Replied(_, _, r, status, response) => OnReplyFits(k, c, r, status, response);
    case HeartbeatAck(r, _) => OnHeartbeatFits(k, c, r);
    case ChannelFailed(t, _) => FailedFits(k, c, t);
    case ChannelClosed(t, _) => FailedFits(k, c, t);
    case _ =>
  }

  lemma IncomingFits(k: Kinds, c: Client, net: Net, f: Frame)
    requires Conserved(c) && Fitting(k, c)
    ensures Fitting(k, Incoming(c, net, f).client)
  {
    var (proto, result) := P.Receive(c.books.proto, f);
    var c1 := c.(books := c.books.(proto := proto));
    SameHoldersBalance(c, c1, {});
    if result.Ok? { ReactFits(k, c1, net, result.value); }
  }

  // ----- Connections -----

  lemma {:induction false} LoadAllKeepsQueues(c: Client, order: seq<Topic>)
    ensures QueuesFrom(c, LoadAll(c, order)) && LoadAll(c, order).ledger == c.ledger
    decreases |order|
  {
    if order != [] { LoadAllKeepsQueues(LoadPayload(SetStatus(c, order[0], WaitingToJoin), order[0]), order[1..]); }
  }

  lemma OnConnectFits(k: Kinds, c: Client, order: seq<Topic>)
    requires Fitting(k, c)
    ensures Fitting(k, OnConnect(c, order))
  {
    var c1 := Opened(c);
    LoadAllKeepsQueues(c1, order);
    QueuesStillFit(k, c, c1);
    QueuesStillFit(k, c1, LoadAll(c1, order));
  }

  lemma DisconnectFits(k: Kinds, c: Client, phase: Phase)
    requires Conserved(c) && Fitting(k, c)
    ensures Fitting(k, OnDisconnect(c, phase))
  {
    var d := OnDisconnect(c, phase);
    C.DisconnectInterrupts(c, phase);
    forall id | id in d.ledger ensures id in k && FateFits(k[id], d.ledger[id]) {
      assert FateFits(k[id], c.ledger[id]);
    }
    QueuesStillFit(k, c, d);
  }

  // ----- Turns -----

  /** The kinds of the requests accepted so far; each request brings its own. */
  function Extend(k: Kinds, a: Action): Kinds {
    match a
    case DoJoin(_, id) => k[id := JoinOp]
    case DoPush(_, id, isCall, _, _) => k[id := if isCall then CallOp else CastOp]
    case DoLeave(_, id) => k[id := LeaveOp]
    case DoPing(id) => k[id := PingOp]
    case _ => k
  }

  lemma RequestFits(k: Kinds, c: Client, net: Net, a: Action)
    requires Conserved(c) && Fitting(k, c) && k.Keys <= c.ledger.Keys && Enabled(c, a) && IsRequest(a)
    ensures Fitting(Extend(k, a), Act(c, net, a).client)
  {
    match a
    case DoRegister(t) =>
    case DoUnregister(t) => UnregisterFits(k, c, net, t);
    case DoCancel(id) => CancelFits(k, c, id);
    case DoJoin(t, id) => RequestJoinFits(k, c, t, id);
    case DoPush(t, id, isCall, event, payload) => RequestPushFits(k, c, net, t, id, isCall, event, payload);
    case DoLeave(t, id) => RequestLeaveFits(k, c, net, t, id);
    case DoPing(id) => RequestPingFits(k, c, net, id);
  }

  lemma HeartbeatTickFits(k: Kinds, c: Client, net: Net)
    requires Fitting(k, c)
    ensures Fitting(k, HeartbeatTick(c, net).client)
  {
    O.SendFrameIsSteady(c.(books := BookHeartbeat(c.books)), net, HandedHeartbeat);
    QueuesStillFit(k, c, HeartbeatTick(c, net).client);
  }

  lemma ActFits(k: Kinds, c: Client, net: Net, a: Action)
    requires Conserved(c) && Fitting(k, c) && k.Keys <= c.ledger.Keys && Enabled(c, a)
    ensures Fitting(Extend(k, a), Act(c, net, a).client)
  {
    if IsRequest(a) {
      RequestFits(k, c, net, a);
    } else {
      match a
      case AttemptSucceeded(order) => OnConnectFits(k, c, order);
      case FrameArrived(f) => IncomingFits(k, c, net, f);
      case HeartbeatDue => HeartbeatTickFits(k, c, net);
      case LoadFinished(t, load, loaded) => PayloadReadyFits(k, c, net, t, load, loaded);
      case RejoinDue(t) => RejoinFiredFits(k, c, t);
      case TimerDue(JoinTimer(t, r)) => JoinTimedOutFits(k, c, t, r);
      case TimerDue(LeaveTimer(t, r)) => LeaveTimedOutFits(k, c, t, r);
      case DoShutdown => ShutdownFits(k, c);
      case _ =>
    }
  }

  lemma RejoinFiredFits(k: Kinds, c: Client, t: Topic)
    requires Fitting(k, c)
    ensures Fitting(k, RejoinFired(c, t))
  {
    QueuesStillFit(k, c, RejoinFired(c, t));
  }

  lemma ShutdownFits(k: Kinds, c: Client)
    requires Fitting(k, c)
    ensures Fitting(k, Shutdown(c))
  {
    QueuesStillFit(k, c, Shutdown(c));
  }

  lemma NextFits(k: Kinds, c: Client, s: R.Step)
    requires R.Inv(c) && Fitting(k, c) && k.Keys <= c.ledger.Keys && Enabled(c, s.action)
    ensures Fitting(Extend(k, s.action), Next(c, s.net, s.action, s.retry))
  {
    ActFits(k, c, s.net, s.action);
    C.ActConserves(c, s.net, s.action);
    AfterTurnFits(Extend(k, s.action), Act(c, s.net, s.action), s.action, s.retry);
  }

  lemma AfterTurnFits(k: Kinds, turn: Turn, a: Action, retry: bool)
    requires Conserved(turn.client) && Fitting(k, turn.client)
    ensures Fitting(k, AfterTurn(turn, a, retry))
  {
    DisconnectFits(k, turn.client, Idle);
    DisconnectFits(k, turn.client, Backoff);
  }

  // ----- Runs -----

  function KindsOf(k: Kinds, steps: seq<R.Step>): Kinds
    decreases |steps|
  {
    if steps == [] then k else KindsOf(Extend(k, steps[0].action), steps[1..])
  }

  /** Each request's id is in the ledger from its acceptance on. */
  lemma KindsAreAccepted(k: Kinds, c: Client, s: R.Step)
    requires R.Inv(c) && k.Keys <= c.ledger.Keys && Enabled(c, s.action)
    ensures Extend(k, s.action).Keys <= Next(c, s.net, s.action, s.retry).ledger.Keys
  {
    forall id | id in k ensures id in Next(c, s.net, s.action, s.retry).ledger {
      R.NextSettles(c, s, id);
    }
    if IsRequest(s.action) { RequestEnters(c, s.net, s.action); }
    LedgerStays(Act(c, s.net, s.action), s.action, s.retry);
  }

  lemma RequestEnters(c: Client, net: Net, a: Action)
    requires IsRequest(a)
    ensures match a
            case DoJoin(_, id) => id in Act(c, net, a).client.ledger
            case DoPush(_, id, _, _, _) => id in Act(c, net, a).client.ledger
            case DoLeave(_, id) => id in Act(c, net, a).client.ledger
            case DoPing(id) => id in Act(c, net, a).client.ledger
            case _ => true
  {
    match a
    case DoJoin(t, id) => JoinKeepsQueues(c, t, id);
    case DoPush(t, id, isCall, event, payload) => PushEnters(c, net, t, id, isCall, event, payload);
    case DoLeave(t, id) => LeaveEnters(c, net, t, id);
    case DoPing(id) => PingEnters(c, net, id);
    case _ =>
  }

  lemma PushEnters(c: Client, net: Net, t: Topic, id: ReqId, isCall: bool, event: string, payload: Payload)
    ensures id in RequestPush(c, net, t, id, isCall, event, payload).client.ledger
  {
    var p, c1 := Push(id, isCall, event, payload, c.trace.stamps), Stamp(c, t, id);
    if c.phase.Connected? && P.IsJoined(c.books.proto, t) {
      F.PushGrows(c1, net, t, p);
    } else {
      F.EnqueueGrows(c1, t, p);
    }
  }

  lemma LeaveEnters(c: Client, net: Net, t: Topic, id: ReqId)
    ensures id in RequestLeave(c, net, t, id).client.ledger
  {
    var state := P.StateOf(c.books.proto, t);
    var status := if c.phase.Connected? && (state == Some(P.Joined) || state == Some(P.Joining)) then Leaving else Left;
    var c1 := SetStatus(Enter(c, id, Deferred(t)), t, status);
    F.StopChannelGrows(c1, t);
    var c2 := StopChannel(c1, t);
    assert id in c2.ledger;
    if c.phase.Connected? && state == Some(P.Joined) {
      F.StartLeaveGrows(c2, net, t, PendingLeave(id, true));
    }
  }

  lemma PingEnters(c: Client, net: Net, id: ReqId)
    ensures id in RequestPing(c, net, id).client.ledger
  {}

  lemma LedgerStays(turn: Turn, a: Action, retry: bool)
    ensures turn.client.ledger.Keys <= AfterTurn(turn, a, retry).ledger.Keys
  {}

  lemma {:induction false} RunFits(k: Kinds, c: Client, steps: seq<R.Step>)
    requires R.Inv(c) && Fitting(k, c) && k.Keys <= c.ledger.Keys && R.AllEnabled(c, steps)
    ensures Fitting(KindsOf(k, steps), R.Run(c, steps))
    decreases |steps|
  {
    if steps != [] {
      var d := Next(c, steps[0].net, steps[0].action, steps[0].retry);
      R.NextHolds(c, steps[0]);
      NextFits(k, c, steps[0]);
      KindsAreAccepted(k, c, steps[0]);
      RunFits(Extend(k, steps[0].action), d, steps[1..]);
    }
  }

  /** Over every run, whatever answers a request answers it as the operation it is, and
      a pending request is in a container for its operation. */
  lemma EveryAnswerFits(capacity: nat, connectOnStart: bool, steps: seq<R.Step>, id: ReqId)
    requires R.AllEnabled(Start(capacity, connectOnStart), steps)
    requires id in R.Run(Start(capacity, connectOnStart), steps).ledger
    ensures var k, c := KindsOf(map[], steps), R.Run(Start(capacity, connectOnStart), steps);
            && id in k
            && (c.ledger[id].Answered? ==> Fits(k[id], c.ledger[id].answer))
            && (c.ledger[id].At? ==> Belongs(k[id], c.ledger[id].place))
  {
    R.StartHolds(capacity, connectOnStart);
    RunFits(map[], Start(capacity, connectOnStart), steps);
  }
}
