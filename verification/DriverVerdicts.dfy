/** Every request fares exactly as the table says: who is answered, with what, and who goes
    on waiting where, for every turn and whatever ends it. */
module DriverVerdicts {
  import opened Wire
  import P = ProtocolSpec
  import opened DriverSpec
  import opened DriverBooks
  import opened DriverLedger
  import opened DriverTable
  import B = DriverOutbox
  import C = DriverConservation
  import F = DriverFlow
  import J = DriverLoads
  import A = DriverAnswers

  /** The turn itself, before the connection ends, judges every request by the table. */
  ghost predicate Judged(c: Client, net: Net, a: Action, l: Ledger) {
    forall id :: FateIn(l, id) == Verdict(c, net, a, id)
  }

  // ----- Updates of the ledger, request by request -----

  lemma SettleFate(l: Ledger, id: ReqId, f: Fate, i: ReqId)
    requires id in l && l[id].At?
    ensures FateIn(Settle(l, id, f), i) == if i == id then Some(f) else FateIn(l, i)
  {}

  lemma SettleAllFate(l: Ledger, ids: set<ReqId>, f: Fate, i: ReqId)
    requires forall id :: id in ids ==> id in l && l[id].At?
    ensures FateIn(SettleAll(l, ids, f), i) == if i in ids then Some(f) else FateIn(l, i)
  {}

  lemma PositionIn(queued: seq<Push>, id: ReqId)
    ensures Position(queued, id) < |queued| <==> id in Ids(queued)
  {
    var i := Position(queued, id);
    if i < |queued| {
      assert queued[i] in queued;
    }
    if id in Ids(queued) {
      var p :| p in queued && p.id == id;
    }
  }

  /** Interrupting a whole queue. */
  lemma {:induction false} SettleQueueFate(l: Ledger, queued: seq<Push>, i: ReqId)
    requires DistinctIds(queued) && forall id :: id in Ids(queued) ==> id in l && l[id].At?
    ensures FateIn(SettleQueue(l, queued), i) ==
            if Position(queued, i) < |queued| then Some(Answered(Interrupted(OpOf(queued[Position(queued, i)].isCall))))
            else FateIn(l, i)
    decreases |queued|
  {
    if queued != [] {
      IdsOfCons(queued);
      var m := Settle(l, queued[0].id, Answered(Interrupted(OperationOf(queued[0]))));
      assert queued[0].id in Ids(queued);
      forall id | id in Ids(queued[1..]) ensures id in m && m[id].At? {
        assert id in Ids(queued);
      }
      SettleQueueFate(m, queued[1..], i);
      SettleFate(l, queued[0].id, Answered(Interrupted(OperationOf(queued[0]))), i);
      PositionIn(queued[1..], i);
    }
  }

  // ----- Where a request is held -----

  lemma HeldWaiters(c: Client, t: Topic, id: ReqId)
    requires Conserved(c) && t in c.channels
    ensures id in c.channels[t].waiters <==> id in c.ledger && c.ledger[id] == At(Waiter(t))
  {
    assert Holds(c, id, Waiter(t)) <==> id in c.channels[t].waiters;
    if id in c.ledger && c.ledger[id] == At(Waiter(t)) { assert Pending(c.ledger, id); }
  }

  lemma HeldQueue(c: Client, t: Topic, id: ReqId)
    requires Conserved(c) && t in c.channels
    ensures Position(c.channels[t].queued, id) < |c.channels[t].queued| <==> id in c.ledger && c.ledger[id] == At(Queue(t))
  {
    PositionIn(c.channels[t].queued, id);
    assert Holds(c, id, Queue(t)) <==> id in Ids(c.channels[t].queued);
    if id in c.ledger && c.ledger[id] == At(Queue(t)) { assert Pending(c.ledger, id); }
  }

  lemma HeldDeferred(c: Client, t: Topic, id: ReqId)
    requires Conserved(c) && t in c.channels
    ensures HeldLeave(c.channels[t].deferred, id) <==> id in c.ledger && c.ledger[id] == At(Deferred(t))
  {
    assert Holds(c, id, Deferred(t)) <==> HeldLeave(c.channels[t].deferred, id);
    if id in c.ledger && c.ledger[id] == At(Deferred(t)) { assert Pending(c.ledger, id); }
  }

  lemma HeldOn(c: Client, id: ReqId)
    requires Conserved(c) && id in c.ledger && c.ledger[id].At?
    ensures Holds(c, id, c.ledger[id].place)
  {
    assert Pending(c.ledger, id);
  }

  // ----- Giving a topic up -----

  /** What giving `t` up makes of a request. */
  function GivenUp(c: Client, t: Topic, id: ReqId): Option<Fate> {
    if id !in c.ledger || t !in c.channels then FateIn(c.ledger, id)
    else if c.ledger[id] == At(Waiter(t)) then Some(Answered(Interrupted(JoinOp)))
    else if c.ledger[id] == At(Deferred(t)) then Some(Answered(Interrupted(LeaveOp)))
    else if c.ledger[id] == At(Queue(t)) && Position(c.channels[t].queued, id) < |c.channels[t].queued| then
      Some(Answered(Interrupted(OpOf(c.channels[t].queued[Position(c.channels[t].queued, id)].isCall))))
    else FateIn(c.ledger, id)
  }

  /** `d` is `c` but for requests that `c` does not know, and details that hold none. */
  ghost predicate SameButNew(c: Client, d: Client) {
    && d.channels.Keys == c.channels.Keys && (forall u :: u in c.channels ==> SameRecordHolders(c.channels[u], d.channels[u]))
    && (forall id :: id in c.ledger ==> id in d.ledger && d.ledger[id] == c.ledger[id])
  }

  lemma StopFates(c: Client, d: Client, t: Topic, i: ReqId)
    requires Conserved(c) && SameButNew(c, d)
    ensures FateIn(StopChannel(d, t).ledger, i) == if i in c.ledger then GivenUp(c, t, i) else FateIn(d.ledger, i)
  {
    if t in c.channels {
      var rec := d.channels[t];
      assert SameRecordHolders(c.channels[t], rec);
      forall id | id in rec.waiters ensures id in d.ledger && d.ledger[id] == At(Waiter(t)) { HeldWaiters(c, t, id); }
      forall id | HeldLeave(rec.deferred, id) ensures id in d.ledger && d.ledger[id] == At(Deferred(t)) { HeldDeferred(c, t, id); }
      forall id | id in Ids(rec.queued) ensures id in d.ledger && d.ledger[id] == At(Queue(t)) {
        PositionIn(rec.queued, id);
        HeldQueue(c, t, id);
      }
      StopLedger(d, t, i);
      HeldWaiters(c, t, i);
      HeldDeferred(c, t, i);
      HeldQueue(c, t, i);
    }
  }

  lemma StopLedger(d: Client, t: Topic, i: ReqId)
    requires t in d.channels && DistinctIds(d.channels[t].queued)
    requires forall id :: id in d.channels[t].waiters ==> id in d.ledger && d.ledger[id] == At(Waiter(t))
    requires forall id :: HeldLeave(d.channels[t].deferred, id) ==> id in d.ledger && d.ledger[id] == At(Deferred(t))
    requires forall id :: id in Ids(d.channels[t].queued) ==> id in d.ledger && d.ledger[id] == At(Queue(t))
    ensures var rec := d.channels[t];
            FateIn(StopChannel(d, t).ledger, i) ==
            if i in rec.waiters then Some(Answered(Interrupted(JoinOp)))
            else if HeldLeave(rec.deferred, i) then Some(Answered(Interrupted(LeaveOp)))
            else if Position(rec.queued, i) < |rec.queued| then Some(Answered(Interrupted(OpOf(rec.queued[Position(rec.queued, i)].isCall))))
            else FateIn(d.ledger, i)
  {
    var rec := d.channels[t];
    var l1 := SettleLeave(d.ledger, rec.deferred, Interrupted(LeaveOp));
    var l2 := SettleAll(l1, rec.waiters, Answered(Interrupted(JoinOp)));
    if rec.deferred.Some? && rec.deferred.value.open {
      assert HeldLeave(rec.deferred, rec.deferred.value.id);
      SettleFate(d.ledger, rec.deferred.value.id, Answered(Interrupted(LeaveOp)), i);
    }
    SettleAllFate(l1, rec.waiters, Answered(Interrupted(JoinOp)), i);
    forall id | id in Ids(rec.queued) ensures id in l2 && l2[id].At? {}
    SettleQueueFate(l2, rec.queued, i);
    PositionIn(rec.queued, i);
  }

  // ----- Flushing -----

  lemma SendFate(c: Client, net: Net, t: Topic, p: Push, i: ReqId)
    requires P.IsJoined(c.books.proto, t) && p.id in c.ledger && c.ledger[p.id] == At(Queue(t))
    ensures FateIn(SendPush(c, net, t, p).client.ledger, i) ==
            if i == p.id then Some(PushVerdict(t, p, 0, 0, net, c.books.proto.next)) else FateIn(c.ledger, i)
  {
    if p.payload.Binary? && !net.binary {
    } else if p.isCall {
    } else {
    }
  }

  /** What flushing makes of a request of the queue. */
  function Flushed(c: Client, net: Net, t: Topic, id: ReqId): Option<Fate>
    requires t in c.channels
  {
    if Position(c.channels[t].queued, id) < |c.channels[t].queued| then
      Some(QueuedVerdict(t, c.channels[t].queued, id, net, c.books.proto.next))
    else FateIn(c.ledger, id)
  }

  /** Every queued push is pending in its queue. */
  ghost predicate AllQueued(c: Client, t: Topic)
    requires t in c.channels
  {
    DistinctIds(c.channels[t].queued) && forall p :: p in c.channels[t].queued ==> p.id in c.ledger && c.ledger[p.id] == At(Queue(t))
  }

  /** A push behind the head is judged as it would be without it, the head's frame counted. */
  lemma BehindTheHead(t: Topic, queued: seq<Push>, id: ReqId, net: Net, next: Ref)
    requires queued != [] && queued[0].id != id
    ensures var p := queued[0];
            if p.payload.Binary? && !net.binary then
              QueuedVerdict(t, queued, id, net, next) == QueuedVerdict(t, queued[1..], id, net, next)
            else if net.budget > 0 then
              QueuedVerdict(t, queued, id, net, next) ==
              QueuedVerdict(t, queued[1..], id, net.(budget := net.budget - 1), next + (if p.isCall then 1 else 0))
            else QueuedVerdict(t, queued, id, net, next) == At(Queue(t))
  {
    var p, tail := queued[0], queued[1..];
    var i := Position(queued, id);
    assert i == 1 + Position(tail, id);
    if i < |queued| {
      assert tail[i - 1] == queued[i];
      AheadCons(queued, i, net.binary);
      var ahead := Sendables(tail[..i - 1], net.binary);
      OneFrameMore(t, queued[i], |ahead|, CallsIn(ahead), if p.isCall then 1 else 0, net, next);
    }
  }

  lemma OneFrameMore(t: Topic, p: Push, before: nat, calls: nat, more: nat, net: Net, next: Ref)
    ensures PushVerdict(t, p, before + 1, more + calls, net, next) ==
            if net.budget > 0 then PushVerdict(t, p, before, calls, net.(budget := net.budget - 1), next + more) else At(Queue(t))
  {}

  lemma AheadCons(queued: seq<Push>, i: nat, binary: bool)
    requires 1 <= i <= |queued|
    ensures var p, all, ahead := queued[0], Sendables(queued[..i], binary), Sendables(queued[1..][..i - 1], binary);
            if p.payload.Binary? && !binary then all == ahead
            else |all| == 1 + |ahead| && CallsIn(all) == (if p.isCall then 1 else 0) + CallsIn(ahead)
  {
    var p, ahead := queued[0], Sendables(queued[1..][..i - 1], binary);
    assert queued[..i][1..] == queued[1..][..i - 1];
    assert [] + ahead == ahead && ([p] + ahead)[1..] == ahead;
  }

  /** Judging a queue and judging what is left of it after the head come to the same. */
  lemma OneFlushed(c: Client, net: Net, t: Topic, i: ReqId)
    requires P.IsJoined(c.books.proto, t) && t in c.channels && AllQueued(c, t) && c.channels[t].queued != []
    ensures var turn := B.HeadSent(c, net, t);
            && turn.client.channels == PopQueue(c, t).channels
            && Flushed(c, net, t, i) == if turn.exit.None? then Flushed(turn.client, Spend(net, c.channels[t].queued[0]), t, i)
                                        else FateIn(turn.client.ledger, i)
  {
    var queued, c1 := c.channels[t].queued, PopQueue(c, t);
    var p := queued[0];
    assert p in queued;
    SendFate(c1, net, t, p, i);
    B.PushLeaves(c1, net, t, p);
    HeadExits(c1, net, t, p);
    if i == p.id {
      HeadVerdict(t, queued, net, c.books.proto.next);
      HeadIsGone(queued);
    } else {
      BehindTheHead(t, queued, i, net, c.books.proto.next);
      assert Position(queued, i) == 1 + Position(queued[1..], i);
    }
  }

  lemma {:induction false} FlushFates(c: Client, net: Net, t: Topic, i: ReqId)
    requires P.IsJoined(c.books.proto, t) && t in c.channels && AllQueued(c, t)
    ensures FateIn(Flush(c, net, t).client.ledger, i) == Flushed(c, net, t, i)
    decreases |c.channels[t].queued|
  {
    if c.channels[t].queued != [] {
      var p, turn := c.channels[t].queued[0], B.HeadSent(c, net, t);
      OneFlushed(c, net, t, i);
      B.PushLeaves(PopQueue(c, t), net, t, p);
      if turn.exit.None? {
        TailStaysQueued(c, net, t);
        FlushFates(turn.client, Spend(net, p), t, i);
      }
    }
  }

  lemma HeadVerdict(t: Topic, queued: seq<Push>, net: Net, next: Ref)
    requires queued != []
    ensures QueuedVerdict(t, queued, queued[0].id, net, next) == PushVerdict(t, queued[0], 0, 0, net, next)
  {
    assert queued[..0] == [];
  }

  lemma HeadExits(c: Client, net: Net, t: Topic, p: Push)
    requires P.IsJoined(c.books.proto, t)
    ensures SendPush(c, net, t, p).exit.Some? <==> net.budget == 0 && !(p.payload.Binary? && !net.binary)
  {}

  lemma HeadIsGone(queued: seq<Push>)
    requires queued != [] && DistinctIds(queued)
    ensures Position(queued[1..], queued[0].id) == |queued[1..]|
  {
    IdsOfCons(queued);
    PositionIn(queued[1..], queued[0].id);
  }

  lemma TailStaysQueued(c: Client, net: Net, t: Topic)
    requires P.IsJoined(c.books.proto, t) && t in c.channels && AllQueued(c, t) && c.channels[t].queued != []
    ensures AllQueued(SendPush(PopQueue(c, t), net, t, c.channels[t].queued[0]).client, t)
  {
    var queued := c.channels[t].queued;
    var p, d := queued[0], SendPush(PopQueue(c, t), net, t, queued[0]).client;
    IdsOfCons(queued);
    assert p in queued;
    B.PushLeaves(PopQueue(c, t), net, t, p);
    forall q | q in queued[1..] ensures q.id in d.ledger && d.ledger[q.id] == At(Queue(t)) {
      assert q in queued && q.id in Ids(queued[1..]);
      SendFate(PopQueue(c, t), net, t, p, q.id);
    }
  }

  // ----- Requests -----

  /** No request but a new one is judged anew. */
  lemma UnregisterJudges(c: Client, net: Net, t: Topic)
    requires Conserved(c)
    ensures Judged(c, net, DoUnregister(t), Act(c, net, DoUnregister(t)).client.ledger)
  {
    var a := DoUnregister(t);
    forall id ensures FateIn(Act(c, net, a).client.ledger, id) == Verdict(c, net, a, id) {
      StopFates(c, c, t, id);
      var c0 := c.(books := c.books.(proto := P.Leave(c.books.proto, t).0));
      StopFates(c, c0, t, id);
      UnregisterLedger(c, net, t);
      GivenUpIsVerdict(c, net, a, t, id);
    }
  }

  lemma UnregisterLedger(c: Client, net: Net, t: Topic)
    ensures var c0 := c.(books := c.books.(proto := P.Leave(c.books.proto, t).0));
            var l := Act(c, net, DoUnregister(t)).client.ledger;
            l == StopChannel(c, t).ledger || l == StopChannel(c0, t).ledger
  {}

  lemma GivenUpIsVerdict(c: Client, net: Net, a: Action, t: Topic, id: ReqId)
    requires Conserved(c) && GivesUp(c, a, t) && NewRequest(a) != Some(id)
    requires a.DoUnregister? || a.DoLeave?
    ensures GivenUp(c, t, id) == Verdict(c, net, a, id)
  {
    if id in c.ledger && c.ledger[id].At? { HeldOn(c, id); }
  }

  lemma LeaveJudges(c: Client, net: Net, t: Topic, id: ReqId)
    requires Conserved(c) && id !in c.ledger
    ensures Judged(c, net, DoLeave(t, id), RequestLeave(c, net, t, id).client.ledger)
  {
    var a, c1 := DoLeave(t, id), Enter(c, id, Deferred(t));
    var state := P.StateOf(c.books.proto, t);
    var status := if c.phase.Connected? && (state == Some(P.Joined) || state == Some(P.Joining)) then Leaving else Left;
    var d := SetStatus(c1, t, status);
    forall i ensures FateIn(RequestLeave(c, net, t, id).client.ledger, i) == Verdict(c, net, a, i) {
      StopFates(c, d, t, i);
      StopFates(c, d, t, id);
      var c2 := StopChannel(d, t);
      LeaveLedger(c, net, t, id, c2, i);
      if i != id { GivenUpIsVerdict(c, net, a, t, i); }
    }
  }

  lemma LeaveLedger(c: Client, net: Net, t: Topic, id: ReqId, c2: Client, i: ReqId)
    requires var state := P.StateOf(c.books.proto, t);
             var status := if c.phase.Connected? && (state == Some(P.Joined) || state == Some(P.Joining)) then Leaving else Left;
             c2 == StopChannel(SetStatus(Enter(c, id, Deferred(t)), t, status), t)
    requires id in c2.ledger && c2.ledger[id] == At(Deferred(t))
    ensures FateIn(RequestLeave(c, net, t, id).client.ledger, i) ==
            if i == id then Some(FirstVerdict(c, net, DoLeave(t, id))) else FateIn(c2.ledger, i)
  {
    assert c2.books == c.books && c2.phase == c.phase && c2.channels.Keys == c.channels.Keys;
    if Open(c, t) {
      StartLeaveFate(c2, net, t, PendingLeave(id, true), i);
    }
  }

  lemma StartLeaveFate(c: Client, net: Net, t: Topic, leave: PendingLeave, i: ReqId)
    requires P.IsJoined(c.books.proto, t) && (leave.open ==> leave.id in c.ledger && c.ledger[leave.id].At?)
    ensures FateIn(StartLeave(c, net, t, leave).client.ledger, i) ==
            if leave.open && i == leave.id then Some(At(LeavingOn(c.books.proto.next + 1))) else FateIn(c.ledger, i)
  {}

  lemma JoinJudges(c: Client, net: Net, t: Topic, id: ReqId)
    requires id !in c.ledger
    ensures Judged(c, net, DoJoin(t, id), RequestJoin(c, t, id).ledger)
  {
    forall i ensures FateIn(RequestJoin(c, t, id).ledger, i) == Verdict(c, net, DoJoin(t, id), i) {
      JoinLedger(c, t, id, i);
      UnconcernedVerdict(c, net, DoJoin(t, id), i);
    }
  }

  lemma JoinLedger(c: Client, t: Topic, id: ReqId, i: ReqId)
    ensures FateIn(RequestJoin(c, t, id).ledger, i) ==
            if i != id then FateIn(c.ledger, i)
            else if t !in c.channels then Some(Answered(UnknownTopic))
            else if Open(c, t) then Some(Answered(AlreadyJoined))
            else Some(At(Waiter(t)))
  {}

  /** Requests to join, push or ping concern nobody else. */
  lemma UnconcernedVerdict(c: Client, net: Net, a: Action, i: ReqId)
    requires a.DoJoin? || a.DoPush? || a.DoPing? || a.DoRegister? || a.DoConnect? || a.DoDisconnect? || a.DoShutdown? ||
             a.AttemptSucceeded? || a.AttemptFailed? || a.BackoffElapsed? || a.FrameUndecodable? || a.TransportEnded? ||
             a.HeartbeatDue? || a.RejoinDue?
    ensures NewRequest(a) != Some(i) ==> Verdict(c, net, a, i) == FateIn(c.ledger, i)
  {}

  lemma PushJudges(c: Client, net: Net, t: Topic, id: ReqId, isCall: bool, event: string, payload: Payload)
    requires id !in c.ledger
    ensures Judged(c, net, DoPush(t, id, isCall, event, payload), RequestPush(c, net, t, id, isCall, event, payload).client.ledger)
  {
    var a, p, c1 := DoPush(t, id, isCall, event, payload), Push(id, isCall, event, payload, c.trace.stamps), Stamp(c, t, id);
    forall i ensures FateIn(RequestPush(c, net, t, id, isCall, event, payload).client.ledger, i) == Verdict(c, net, a, i) {
      UnconcernedVerdict(c, net, a, i);
      if Open(c, t) {
        SendFate(c1, net, t, p, i);
      } else {
        EnqueueFate(c1, t, p, i);
      }
    }
  }

  lemma EnqueueFate(c: Client, t: Topic, p: Push, i: ReqId)
    requires p.id in c.ledger && c.ledger[p.id] == At(Queue(t))
    ensures FateIn(Enqueue(c, t, p).ledger, i) ==
            if i != p.id then FateIn(c.ledger, i)
            else if t !in c.channels then Some(Answered(Interrupted(OpOf(p.isCall))))
            else if c.channels[t].everJoined && !c.channels[t].desired then Some(Answered(ChannelNotJoined))
            else if |c.channels[t].queued| >= c.capacity then Some(Answered(PushBufferFull))
            else Some(At(Queue(t)))
  {}

  lemma PingJudges(c: Client, net: Net, id: ReqId)
    requires id !in c.ledger
    ensures Judged(c, net, DoPing(id), RequestPing(c, net, id).client.ledger)
  {
    forall i ensures FateIn(RequestPing(c, net, id).client.ledger, i) == Verdict(c, net, DoPing(id), i) {
      UnconcernedVerdict(c, net, DoPing(id), i);
    }
  }

  lemma CancelJudges(c: Client, net: Net, id: ReqId)
    requires Conserved(c)
    ensures Judged(c, net, DoCancel(id), Cancel(c, id).ledger)
  {
    forall i ensures FateIn(Cancel(c, id).ledger, i) == Verdict(c, net, DoCancel(id), i) {
      if id in c.ledger && c.ledger[id].At? { HeldOn(c, id); }
      CancelLedger(c, id, i);
    }
  }

  lemma CancelLedger(c: Client, id: ReqId, i: ReqId)
    requires id in c.ledger && c.ledger[id].At? ==> Holds(c, id, c.ledger[id].place)
    ensures FateIn(Cancel(c, id).ledger, i) == if i == id && id in c.ledger && c.ledger[id].At? then Some(Silenced) else FateIn(c.ledger, i)
  {}

  // ----- Completions -----

  lemma PayloadJudges(c: Client, net: Net, t: Topic, load: nat, loaded: Option<Value>)
    requires Conserved(c)
    ensures Judged(c, net, LoadFinished(t, load, loaded), PayloadReady(c, net, t, load, loaded).client.ledger)
  {
    var a, l := LoadFinished(t, load, loaded), PayloadReady(c, net, t, load, loaded).client.ledger;
    PayloadLedger(c, net, t, load, loaded);
    forall id ensures FateIn(l, id) == Verdict(c, net, a, id) {
      PayloadVerdict(c, net, t, load, loaded, id);
      if t in c.channels {
        HeldWaiters(c, t, id);
        forall i | i in c.channels[t].waiters ensures i in c.ledger && c.ledger[i].At? { HeldWaiters(c, t, i); }
        SettleAllFate(c.ledger, c.channels[t].waiters, Answered(LoaderFailed), id);
      }
    }
  }

  lemma PayloadVerdict(c: Client, net: Net, t: Topic, load: nat, loaded: Option<Value>, id: ReqId)
    ensures Verdict(c, net, LoadFinished(t, load, loaded), id) ==
            if LoadsWanted(c, LoadFinished(t, load, loaded), t) && loaded.None? && id in c.ledger && c.ledger[id] == At(Waiter(t))
            then Some(Answered(LoaderFailed)) else FateIn(c.ledger, id)
  {}

  lemma PayloadLedger(c: Client, net: Net, t: Topic, load: nat, loaded: Option<Value>)
    ensures PayloadReady(c, net, t, load, loaded).client.ledger ==
            if LoadsWanted(c, LoadFinished(t, load, loaded), t) && loaded.None?
            then SettleAll(c.ledger, c.channels[t].waiters, Answered(LoaderFailed)) else c.ledger
  {
    if LoadsWanted(c, LoadFinished(t, load, loaded), t) && loaded.Some? && !P.Active(c.books.proto, t) {
      var c2 := SetRecord(c.(payloads := c.payloads - {(t, load)}), t, c.channels[t].(activePayload := None));
      A.StartJoinKeepsQueues(c2, net, t, load, loaded.value);
    }
  }

  lemma JoinTimeoutJudges(c: Client, net: Net, t: Topic, r: Ref)
    requires Conserved(c)
    ensures Judged(c, net, TimerDue(JoinTimer(t, r)), JoinTimedOut(c, t, r).ledger)
  {
    var a, l := TimerDue(JoinTimer(t, r)), JoinTimedOut(c, t, r).ledger;
    JoinTimeoutLedger(c, t, r);
    forall id ensures FateIn(l, id) == Verdict(c, net, a, id) {
      if t in c.channels {
        HeldWaiters(c, t, id);
        HeldDeferred(c, t, id);
        forall i | i in c.channels[t].waiters ensures i in c.ledger && c.ledger[i].At? { HeldWaiters(c, t, i); }
        forall i | HeldLeave(c.channels[t].deferred, i) ensures i in c.ledger && c.ledger[i].At? { HeldDeferred(c, t, i); }
        SettleAllFate(c.ledger, c.channels[t].waiters, Answered(Timeout(JoinOp)), id);
        SettleLeaveFate(c.ledger, c.channels[t].deferred, Timeout(LeaveOp), id);
      }
      JoinTimeoutVerdict(c, net, t, r, id);
    }
  }

  lemma SettleLeaveFate(l: Ledger, leave: Option<PendingLeave>, a: Answer, i: ReqId)
    requires forall id :: HeldLeave(leave, id) ==> id in l && l[id].At?
    ensures FateIn(SettleLeave(l, leave, a), i) == if HeldLeave(leave, i) then Some(Answered(a)) else FateIn(l, i)
  {
    if leave.Some? && leave.value.open { assert HeldLeave(leave, leave.value.id); }
  }

  lemma JoinTimeoutLedger(c: Client, t: Topic, r: Ref)
    ensures JoinTimedOut(c, t, r).ledger ==
            if !JoinExpires(c, TimerDue(JoinTimer(t, r)), t) || t !in c.channels then c.ledger
            else if c.channels[t].deferred.Some? then SettleLeave(c.ledger, c.channels[t].deferred, Timeout(LeaveOp))
            else if c.channels[t].desired then SettleAll(c.ledger, c.channels[t].waiters, Answered(Timeout(JoinOp)))
            else c.ledger
  {}

  lemma JoinTimeoutVerdict(c: Client, net: Net, t: Topic, r: Ref, id: ReqId)
    requires Conserved(c)
    ensures Verdict(c, net, TimerDue(JoinTimer(t, r)), id) ==
            if id !in c.ledger || !JoinExpires(c, TimerDue(JoinTimer(t, r)), t) || t !in c.channels then FateIn(c.ledger, id)
            else if c.ledger[id] == At(Deferred(t)) then Some(Answered(Timeout(LeaveOp)))
            else if c.ledger[id] == At(Waiter(t)) && c.channels[t].deferred.None? && c.channels[t].desired then Some(Answered(Timeout(JoinOp)))
            else FateIn(c.ledger, id)
  {
    if id in c.ledger && c.ledger[id].At? { HeldOn(c, id); }
  }

  lemma LeaveTimeoutJudges(c: Client, net: Net, t: Topic, r: Ref)
    requires Conserved(c)
    ensures Judged(c, net, TimerDue(LeaveTimer(t, r)), LeaveTimedOut(c, t, r).ledger)
  {
    A.LeaveTimeoutKeepsQueues(c, t, r);
    forall id ensures FateIn(LeaveTimedOut(c, t, r).ledger, id) == Verdict(c, net, TimerDue(LeaveTimer(t, r)), id) {
      if id in c.ledger && c.ledger[id].At? { HeldOn(c, id); }
      if r in c.books.pendingLeaves && c.books.pendingLeaves[r].open {
        assert Holds(c, c.books.pendingLeaves[r].id, LeavingOn(r));
      }
    }
  }

  // ----- Incoming frames -----

  /** What an event of the protocol makes of a pending request. */
  function EventVerdict(c: Client, net: Net, event: P.Event, id: ReqId): Option<Fate> {
    if id !in c.ledger || !c.ledger[id].At? then FateIn(c.ledger, id)
    else
      match (event, c.ledger[id].place)
      case (JoinAccepted(t, _, response), Waiter(u)) => if u == t then Some(Answered(Accepted(response))) else FateIn(c.ledger, id)
      case (JoinAccepted(t, _, _), Deferred(u)) => if u == t then Some(At(LeavingOn(c.books.proto.next + 1))) else FateIn(c.ledger, id)
      case (JoinAccepted(t, _, _), Queue(u)) =>
        if u == t && t in c.channels && c.channels[t].deferred.None? then Some(QueuedVerdict(t, c.channels[t].queued, id, net, c.books.proto.next))
        else FateIn(c.ledger, id)
      case (JoinRejected(t, _, response), Waiter(u)) => if u == t then Some(Answered(JoinRefused(response))) else FateIn(c.ledger, id)
      case (JoinRejected(t, _, _), Deferred(u)) => if u == t then Some(Answered(Accepted(EMPTY_OBJECT))) else FateIn(c.ledger, id)
      case (ChannelClosed(t, _), _) => GivenUp(c, t, id)
      case (Replied(_, _, r, status, response), Calling(s)) =>
        if s == r then Some(Answered(Answer.Replied(status, response))) else FateIn(c.ledger, id)
      case (HeartbeatAck(r, _), Pinging(s)) => if s == r then Some(Answered(Pong)) else FateIn(c.ledger, id)
      case (Left(_, r, response), LeavingOn(s)) => if s == r then Some(Answered(Accepted(response))) else FateIn(c.ledger, id)
      case _ => FateIn(c.ledger, id)
  }

  lemma EventVerdictIs(c: Client, net: Net, f: Frame, event: P.Event, id: ReqId)
    requires Conserved(c) && P.Receive(c.books.proto, f).1 == Ok(event)
    ensures EventVerdict(c, net, event, id) == Verdict(c, net, FrameArrived(f), id)
  {
    assert Heard(c, FrameArrived(f)) == Some(event);
    if id in c.ledger && c.ledger[id].At? {
      HeldOn(c, id);
      PlaceVerdictIs(c, net, f, event, id);
    }
  }

  lemma PlaceVerdictIs(c: Client, net: Net, f: Frame, event: P.Event, id: ReqId)
    requires id in c.ledger && c.ledger[id].At? && Holds(c, id, c.ledger[id].place)
    requires Heard(c, FrameArrived(f)) == Some(event)
    ensures EventVerdict(c, net, event, id) == Some(PendingVerdict(c, net, FrameArrived(f), id, c.ledger[id].place))
  {
    match c.ledger[id].place
    case Waiter(_) =>
    case Deferred(_) =>
    case Queue(t) => QueueVerdictIs(c, net, f, event, id);
    case _ =>
  }

  lemma QueueVerdictIs(c: Client, net: Net, f: Frame, event: P.Event, id: ReqId)
    requires id in c.ledger && c.ledger[id].At? && c.ledger[id].place.Queue? && Holds(c, id, c.ledger[id].place)
    requires Heard(c, FrameArrived(f)) == Some(event)
    ensures EventVerdict(c, net, event, id) == Some(PendingVerdict(c, net, FrameArrived(f), id, c.ledger[id].place))
  {
    PositionIn(c.channels[c.ledger[id].place.topic].queued, id);
  }

  lemma MarkedFate(c: Client, t: Topic, r: Ref, response: Payload, i: ReqId)
    requires Conserved(c)
    ensures FateIn(MarkJoined(c, t, r, response).ledger, i) ==
            if t in c.channels && i in c.ledger && c.ledger[i] == At(Waiter(t)) then Some(Answered(Accepted(response)))
            else FateIn(c.ledger, i)
  {
    if t in c.channels {
      forall id | id in c.channels[t].waiters ensures id in c.ledger && c.ledger[id].At? { HeldWaiters(c, t, id); }
      SettleAllFate(c.ledger, c.channels[t].waiters, Answered(Accepted(response)), i);
      HeldWaiters(c, t, i);
    } else if i in c.ledger && c.ledger[i] == At(Waiter(t)) {
      HeldOn(c, i);
      assert false;
    }
  }

  lemma MarkedIsQueued(c: Client, t: Topic, r: Ref, response: Payload)
    requires Conserved(c) && t in c.channels
    ensures AllQueued(MarkJoined(c, t, r, response), t)
  {
    forall p | p in c.channels[t].queued ensures p.id in c.ledger && c.ledger[p.id] == At(Queue(t)) {
      assert p.id in Ids(c.channels[t].queued);
      assert Holds(c, p.id, Queue(t));
      MarkedFate(c, t, r, response, p.id);
    }
    forall p | p in c.channels[t].queued
      ensures var l := MarkJoined(c, t, r, response).ledger; p.id in l && l[p.id] == At(Queue(t)) {
      MarkedFate(c, t, r, response, p.id);
    }
  }

  lemma OnJoinedJudges(c: Client, net: Net, t: Topic, r: Ref, response: Payload, id: ReqId)
    requires Conserved(c) && P.IsJoined(c.books.proto, t)
    ensures FateIn(OnJoined(c, net, t, r, response).client.ledger, id) == EventVerdict(c, net, P.JoinAccepted(t, r, response), id)
  {
    MarkedFate(c, t, r, response, id);
    AcceptedVerdict(c, net, t, r, response, id);
    if t in c.channels {
      HeldDeferred(c, t, id);
      HeldQueue(c, t, id);
      if c.channels[t].deferred.Some? {
        DeferredLeaveStarts(c, net, t, r, response, id);
      } else {
        MarkedIsQueued(c, t, r, response);
        FlushFates(MarkJoined(c, t, r, response), net, t, id);
      }
    }
  }

  lemma AcceptedVerdict(c: Client, net: Net, t: Topic, r: Ref, response: Payload, id: ReqId)
    requires Conserved(c)
    ensures EventVerdict(c, net, P.JoinAccepted(t, r, response), id) ==
            if id !in c.ledger || t !in c.channels then FateIn(c.ledger, id)
            else if c.ledger[id] == At(Waiter(t)) then Some(Answered(Accepted(response)))
            else if c.ledger[id] == At(Deferred(t)) then Some(At(LeavingOn(c.books.proto.next + 1)))
            else if c.ledger[id] == At(Queue(t)) && c.channels[t].deferred.None? then
              Some(QueuedVerdict(t, c.channels[t].queued, id, net, c.books.proto.next))
            else FateIn(c.ledger, id)
  {
    if id in c.ledger && c.ledger[id].At? { HeldOn(c, id); }
  }

  lemma DeferredLeaveStarts(c: Client, net: Net, t: Topic, r: Ref, response: Payload, id: ReqId)
    requires Conserved(c) && P.IsJoined(c.books.proto, t) && t in c.channels && c.channels[t].deferred.Some?
    ensures FateIn(OnJoined(c, net, t, r, response).client.ledger, id) ==
            if HeldLeave(c.channels[t].deferred, id) then Some(At(LeavingOn(c.books.proto.next + 1)))
            else FateIn(MarkJoined(c, t, r, response).ledger, id)
  {
    var leave := c.channels[t].deferred.value;
    if leave.open {
      HeldDeferred(c, t, leave.id);
      MarkedFate(c, t, r, response, leave.id);
    }
    StartLeaveFate(MarkJoined(c, t, r, response), net, t, leave, id);
  }

  lemma RejectedJudges(c: Client, net: Net, t: Topic, r: Ref, response: Payload, id: ReqId)
    requires Conserved(c)
    ensures FateIn(OnJoinRejected(c, t, r, response).ledger, id) == EventVerdict(c, net, P.JoinRejected(t, r, response), id)
  {
    if id in c.ledger && c.ledger[id].At? { HeldOn(c, id); }
    if t in c.channels {
      var rec := c.channels[t];
      forall i | i in rec.waiters ensures i in c.ledger && c.ledger[i] == At(Waiter(t)) { HeldWaiters(c, t, i); }
      forall i | HeldLeave(rec.deferred, i) ensures i in c.ledger && c.ledger[i] == At(Deferred(t)) { HeldDeferred(c, t, i); }
      HeldWaiters(c, t, id);
      HeldDeferred(c, t, id);
      RejectedLedger(c, t, r, response, id);
    }
  }

  lemma RejectedLedger(c: Client, t: Topic, r: Ref, response: Payload, id: ReqId)
    requires t in c.channels
    requires forall i :: i in c.channels[t].waiters ==> i in c.ledger && c.ledger[i] == At(Waiter(t))
    requires forall i :: HeldLeave(c.channels[t].deferred, i) ==> i in c.ledger && c.ledger[i] == At(Deferred(t))
    ensures FateIn(OnJoinRejected(c, t, r, response).ledger, id) ==
            if id in c.channels[t].waiters then Some(Answered(JoinRefused(response)))
            else if HeldLeave(c.channels[t].deferred, id) then Some(Answered(Accepted(EMPTY_OBJECT)))
            else FateIn(c.ledger, id)
  {
    var rec := c.channels[t];
    var l1 := SettleLeave(c.ledger, rec.deferred, Accepted(EMPTY_OBJECT));
    SettleLeaveFate(c.ledger, rec.deferred, Accepted(EMPTY_OBJECT), id);
    if rec.deferred.Some? && rec.deferred.value.open { assert HeldLeave(rec.deferred, rec.deferred.value.id); }
    forall i | i in rec.waiters ensures i in l1 && l1[i].At? { SettleLeaveFate(c.ledger, rec.deferred, Accepted(EMPTY_OBJECT), i); }
    SettleAllFate(l1, rec.waiters, Answered(JoinRefused(response)), id);
  }

  lemma LeftJudges(c: Client, net: Net, t: Topic, r: Ref, response: Payload, id: ReqId)
    requires Conserved(c)
    ensures FateIn(OnLeft(c, t, r, response).ledger, id) == EventVerdict(c, net, P.Left(t, r, response), id)
  {
    if id in c.ledger && c.ledger[id].At? { HeldOn(c, id); }
    if r in c.books.pendingLeaves && c.books.pendingLeaves[r].open {
      assert Holds(c, c.books.pendingLeaves[r].id, LeavingOn(r));
    }
    LeftLedger(c, t, r, response);
  }

  lemma LeftLedger(c: Client, t: Topic, r: Ref, response: Payload)
    ensures OnLeft(c, t, r, response).ledger ==
            if r in c.books.pendingLeaves then SettleLeave(c.ledger, Some(c.books.pendingLeaves[r]), Accepted(response)) else c.ledger
  {}

  lemma ReplyJudges(c: Client, net: Net, t: Topic, e: string, r: Ref, status: P.ReplyStatus, response: Payload, id: ReqId)
    requires Conserved(c)
    ensures FateIn(OnReply(c, r, status, response).ledger, id) == EventVerdict(c, net, P.Replied(t, e, r, status, response), id)
  {
    if id in c.ledger && c.ledger[id].At? { HeldOn(c, id); }
    if r in c.books.pendingCalls { assert Holds(c, c.books.pendingCalls[r].id, Calling(r)); }
  }

  lemma HeartbeatJudges(c: Client, net: Net, r: Ref, status: P.ReplyStatus, id: ReqId)
    requires Conserved(c) && (r in c.books.pendingPings ==> c.books.heartbeat != Some(r))
    ensures FateIn(OnHeartbeat(c, r).ledger, id) == EventVerdict(c, net, P.HeartbeatAck(r, status), id)
  {
    if id in c.ledger && c.ledger[id].At? { HeldOn(c, id); }
    if r in c.books.pendingPings { assert Holds(c, c.books.pendingPings[r], Pinging(r)); }
  }

  lemma ReactJudges(c: Client, net: Net, event: P.Event, id: ReqId)
    requires Conserved(c) && (event.JoinAccepted? ==> P.IsJoined(c.books.proto, event.topic))
    requires event.HeartbeatAck? && event.reference in c.books.pendingPings ==> c.books.heartbeat != Some(event.reference)
    ensures FateIn(React(c, net, event).client.ledger, id) == EventVerdict(c, net, event, id)
  {
    match event
    case JoinAccepted(t, r, response) => OnJoinedJudges(c, net, t, r, response, id);
    case JoinRejected(t, r, response) => RejectedJudges(c, net, t, r, response, id);
    case Left(t, r, response) => LeftJudges(c, net, t, r, response, id);
    case Replied(t, e, r, status, response) => ReplyJudges(c, net, t, e, r, status, response, id);
    case HeartbeatAck(r, status) => HeartbeatJudges(c, net, r, status, id);
    case ChannelClosed(t, _) => StopFates(c, SetStatus(c.(books := BookDropJoins(c.books, t)), t, Closed), t, id); ClosedVerdict(c, net, event, id);
    case _ =>
  }

  lemma ClosedVerdict(c: Client, net: Net, event: P.Event, id: ReqId)
    requires event.ChannelClosed?
    ensures EventVerdict(c, net, event, id) == if id in c.ledger then GivenUp(c, event.topic, id) else FateIn(c.ledger, id)
  {}

  lemma IncomingJudges(c: Client, net: Net, f: Frame)
    requires Linked(c.books) && Conserved(c)
    ensures Judged(c, net, FrameArrived(f), Incoming(c, net, f).client.ledger)
  {
    var (proto, result) := P.Receive(c.books.proto, f);
    forall id ensures FateIn(Incoming(c, net, f).client.ledger, id) == Verdict(c, net, FrameArrived(f), id) {
      if result.Err? {
        UnheardVerdict(c, net, f, id);
      } else {
        var c1 := c.(books := c.books.(proto := proto));
        SameHoldersBalance(c, c1, {});
        B.ReceiveKeepsNext(c.books.proto, f);
        if result.value.JoinAccepted? { AcceptedTopicIsJoined(c.books, f); }
        ReactJudges(c1, net, result.value, id);
        SameVerdict(c, c1, net, result.value, id);
        EventVerdictIs(c, net, f, result.value, id);
      }
    }
  }

  lemma UnheardVerdict(c: Client, net: Net, f: Frame, id: ReqId)
    requires P.Receive(c.books.proto, f).1.Err?
    ensures Verdict(c, net, FrameArrived(f), id) == FateIn(c.ledger, id)
  {
    assert Heard(c, FrameArrived(f)) == None;
  }

  lemma SameVerdict(c: Client, d: Client, net: Net, event: P.Event, id: ReqId)
    requires d.ledger == c.ledger && d.channels == c.channels && d.books.proto.next == c.books.proto.next
    ensures EventVerdict(d, net, event, id) == EventVerdict(c, net, event, id)
  {}

  // ----- Turns -----

  lemma QuietJudges(c: Client, net: Net, a: Action)
    requires a.DoRegister? || a.DoConnect? || a.DoDisconnect? || a.DoShutdown? || a.AttemptSucceeded? || a.AttemptFailed? ||
             a.BackoffElapsed? || a.FrameUndecodable? || a.TransportEnded? || a.HeartbeatDue? || a.RejoinDue?
    ensures Judged(c, net, a, Act(c, net, a).client.ledger)
  {
    if a.AttemptSucceeded? { A.LoadAllKeepsQueues(Opened(c), a.order); }
    forall id ensures FateIn(c.ledger, id) == Verdict(c, net, a, id) { UnconcernedVerdict(c, net, a, id); }
  }

  lemma RequestJudges(c: Client, net: Net, a: Action)
    requires Conserved(c) && Enabled(c, a) && IsRequest(a)
    ensures Judged(c, net, a, Act(c, net, a).client.ledger)
  {
    match a
    case DoRegister(_) => QuietJudges(c, net, a);
    case DoUnregister(t) => UnregisterJudges(c, net, t);
    case DoCancel(id) => CancelJudges(c, net, id);
    case DoJoin(t, id) => JoinJudges(c, net, t, id);
    case DoPush(t, id, isCall, event, payload) => PushJudges(c, net, t, id, isCall, event, payload);
    case DoLeave(t, id) => LeaveJudges(c, net, t, id);
    case DoPing(id) => PingJudges(c, net, id);
  }

  lemma ActJudges(c: Client, net: Net, a: Action)
    requires Linked(c.books) && Conserved(c) && Enabled(c, a)
    ensures Judged(c, net, a, Act(c, net, a).client.ledger)
  {
    if IsRequest(a) {
      RequestJudges(c, net, a);
    } else if a.FrameArrived? {
      IncomingJudges(c, net, a.frame);
    } else if a.LoadFinished? {
      PayloadJudges(c, net, a.topic, a.load, a.loaded);
    } else if a.TimerDue? && a.timer.JoinTimer? {
      JoinTimeoutJudges(c, net, a.timer.topic, a.timer.reference);
    } else if a.TimerDue? {
      LeaveTimeoutJudges(c, net, a.timer.topic, a.timer.reference);
    } else {
      QuietJudges(c, net, a);
    }
  }

  lemma LossJudges(c: Client, phase: Phase, id: ReqId)
    requires Conserved(c)
    ensures FateIn(OnDisconnect(c, phase).ledger, id) == if id in c.ledger then Some(Lost(c.ledger[id])) else None
  {
    C.DisconnectInterrupts(c, phase);
    assert id in OnDisconnect(c, phase).ledger.Keys <==> id in c.ledger.Keys;
  }

  /** The fate of every request after a whole turn is the one the table gives it. */
  lemma NextIsJudged(c: Client, net: Net, a: Action, retry: bool, id: ReqId)
    requires Linked(c.books) && Conserved(c) && F.Flowing(c) && J.Fresh(c) && Enabled(c, a)
    ensures FateIn(Next(c, net, a, retry).ledger, id) == FateAfter(c, net, a, id)
  {
    var turn := Act(c, net, a);
    ActJudges(c, net, a);
    C.ActConserves(c, net, a);
    B.ActIsTabled(c, net, a);
    assert FateIn(turn.client.ledger, id) == Verdict(c, net, a, id);
    AfterTurnJudges(turn, a, retry, id);
  }

  lemma AfterTurnJudges(turn: Turn, a: Action, retry: bool, id: ReqId)
    requires Conserved(turn.client)
    ensures FateIn(AfterTurn(turn, a, retry).ledger, id) ==
            match FateIn(turn.client.ledger, id)
            case None => None
            case Some(f) => Some(if turn.exit.Some? then Lost(f) else f)
  {
    LossJudges(turn.client, Idle, id);
    LossJudges(turn.client, Backoff, id);
  }
}
