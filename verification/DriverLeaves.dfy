/** The table's column of leaves: which topics have one deferred behind their join, which
    are on the wire, and whether anyone still waits for them. */
module DriverLeaves {
  import opened Wire
  import P = ProtocolSpec
  import opened DriverSpec
  import opened DriverLedger
  import opened DriverTable
  import B = DriverOutbox
  import F = DriverFlow
  import J = DriverLoads
  import K = DriverBooks

  function DeferredIn(c: Client, t: Topic): Option<PendingLeave> {
    if t in c.channels then c.channels[t].deferred else None
  }

  function LeaveAt(leaves: map<Ref, PendingLeave>, r: Ref): Option<PendingLeave> {
    if r in leaves then Some(leaves[r]) else None
  }

  /** A cancelled leave goes on without its responder. */
  function Unheard(a: Action, leave: PendingLeave): PendingLeave {
    if leave.open && a == DoCancel(leave.id) then leave.(open := false) else leave
  }

  /** The leave asked for waits behind the join of its topic that is on the wire. */
  predicate Defers(c: Client, a: Action, t: Topic) {
    a.DoLeave? && a.topic == t && c.phase.Connected? && t in c.channels && P.StateOf(c.books.proto, t) == Some(P.Joining)
  }

  /** The leave deferred on the topic after the turn itself. */
  function TurnDeferred(c: Client, a: Action, t: Topic): Option<PendingLeave> {
    if Defers(c, a, t) then Some(PendingLeave(a.id, true))
    else if GivesUp(c, a, t) || HearsAccepted(c, a, t) || HearsRejected(c, a, t) || JoinExpires(c, a, t) then None
    else
      match DeferredIn(c, t)
      case None => None
      case Some(leave) => Some(Unheard(a, leave))
  }

  /** The leave that the turn puts on the wire under the next reference. */
  function NewLeave(c: Client, a: Action): Option<PendingLeave> {
    if a.DoLeave? && Open(c, a.topic) then Some(PendingLeave(a.id, true))
    else
      match Heard(c, a)
      case Some(JoinAccepted(t, _, _)) => DeferredIn(c, t)
      case _ => None
  }

  /** The leave `r` has been answered or has timed out. */
  predicate LeaveIsOver(c: Client, a: Action, r: Ref) {
    || (a.TimerDue? && a.timer.LeaveTimer? && a.timer.reference == r)
    || (Heard(c, a).Some? && Heard(c, a).value.Left? && Heard(c, a).value.reference == r)
  }

  function TurnLeave(c: Client, a: Action, r: Ref): Option<PendingLeave> {
    if r == c.books.proto.next + 1 && NewLeave(c, a).Some? then NewLeave(c, a)
    else if LeaveIsOver(c, a, r) then None
    else
      match LeaveAt(c.books.pendingLeaves, r)
      case None => None
      case Some(leave) => Some(Unheard(a, leave))
  }

  /** After the whole turn: a lost connection leaves no leave behind. */
  function DeferredAfter(c: Client, net: Net, a: Action, t: Topic): Option<PendingLeave> {
    if Ending(c, net, a).Some? then None else TurnDeferred(c, a, t)
  }

  function LeaveAfter(c: Client, net: Net, a: Action, r: Ref): Option<PendingLeave> {
    if Ending(c, net, a).Some? then None else TurnLeave(c, a, r)
  }

  ghost predicate DeferralsAs(c: Client, a: Action, d: Client) {
    forall t :: DeferredIn(d, t) == TurnDeferred(c, a, t)
  }

  ghost predicate LeavesAs(c: Client, a: Action, d: Client) {
    forall r :: LeaveAt(d.books.pendingLeaves, r) == TurnLeave(c, a, r)
  }

  // ----- Turns that touch no leave -----

  ghost predicate Untouched(c: Client, d: Client) {
    d.books.pendingLeaves == c.books.pendingLeaves && forall t :: DeferredIn(d, t) == DeferredIn(c, t)
  }

  lemma PushUntouched(c: Client, net: Net, t: Topic, p: Push)
    ensures Untouched(c, SendPush(c, net, t, p).client)
  {}

  lemma {:induction false} FlushUntouched(c: Client, net: Net, t: Topic)
    ensures Untouched(c, Flush(c, net, t).client)
    decreases if t in c.channels then |c.channels[t].queued| else 0
  {
    if t in c.channels && c.channels[t].queued != [] {
      var p := c.channels[t].queued[0];
      PushUntouched(PopQueue(c, t), net, t, p);
      var turn := SendPush(PopQueue(c, t), net, t, p);
      if turn.exit.None? { FlushUntouched(turn.client, Spend(net, p), t); }
    }
  }

  lemma LoadUntouched(c: Client, t: Topic)
    ensures Untouched(c, LoadPayload(c, t))
  {}

  lemma {:induction false} LoadAllUntouched(c: Client, order: seq<Topic>)
    ensures Untouched(c, LoadAll(c, order))
    decreases |order|
  {
    if order != [] {
      LoadUntouched(SetStatus(c, order[0], WaitingToJoin), order[0]);
      LoadAllUntouched(LoadPayload(SetStatus(c, order[0], WaitingToJoin), order[0]), order[1..]);
    }
  }

  lemma ScheduleUntouched(c: Client, t: Topic)
    ensures Untouched(c, ScheduleRejoin(c, t))
  {}

  lemma EnqueueUntouched(c: Client, t: Topic, p: Push)
    ensures Untouched(c, Enqueue(c, t, p))
  {}

  lemma JoinUntouched(c: Client, t: Topic, id: ReqId)
    ensures Untouched(c, RequestJoin(c, t, id))
  {}

  lemma PayloadUntouched(c: Client, net: Net, t: Topic, load: nat, loaded: Option<Value>)
    ensures Untouched(c, PayloadReady(c, net, t, load, loaded).client)
  {
    if t in c.channels {
      StartJoinUntouched(SetRecord(c.(payloads := c.payloads - {(t, load)}), t, c.channels[t].(activePayload := None)), net, t, load,
                         if loaded.Some? then loaded.value else Object(map[]));
    }
  }

  lemma StartJoinUntouched(c: Client, net: Net, t: Topic, load: nat, params: Value)
    ensures Untouched(c, StartJoin(c, net, t, load, params).client)
  {
    var books := BookJoin(c.books, t, params).0;
    JoinBooksLeaves(c.books, t, params);
    FrameUntouched(SetStatus(c, t, Joining).(books := books), net, HandedJoin(t, load, t in c.trace.latest && c.trace.latest[t] == load));
  }

  lemma JoinBooksLeaves(b: Books, t: Topic, params: Value)
    ensures BookJoin(b, t, params).0.pendingLeaves == b.pendingLeaves
  {}

  lemma FrameUntouched(c: Client, net: Net, frame: Handed)
    ensures SendFrame(c, net, frame).client.books == c.books && SendFrame(c, net, frame).client.channels == c.channels
  {}

  lemma RequestPushUntouched(c: Client, net: Net, t: Topic, id: ReqId, isCall: bool, event: string, payload: Payload)
    ensures Untouched(c, RequestPush(c, net, t, id, isCall, event, payload).client)
  {
    PushUntouched(Stamp(c, t, id), net, t, Push(id, isCall, event, payload, c.trace.stamps));
    EnqueueUntouched(Stamp(c, t, id), t, Push(id, isCall, event, payload, c.trace.stamps));
  }

  lemma PingUntouched(c: Client, net: Net, id: ReqId)
    ensures Untouched(c, RequestPing(c, net, id).client)
  {}

  lemma BeatUntouched(c: Client, net: Net)
    ensures Untouched(c, HeartbeatTick(c, net).client)
  {}

  predicate Leaveless(a: Action) {
    || a.DoRegister? || a.DoJoin? || a.DoPush? || a.DoPing? || a.DoConnect? || a.DoDisconnect? || a.DoShutdown?
    || a.AttemptSucceeded? || a.AttemptFailed? || a.BackoffElapsed? || a.FrameUndecodable? || a.TransportEnded?
    || a.HeartbeatDue? || a.LoadFinished? || a.RejoinDue?
  }

  lemma LeavelessActs(c: Client, net: Net, a: Action)
    requires Leaveless(a)
    ensures Untouched(c, Act(c, net, a).client)
  {
    match a
    case DoJoin(t, id) => JoinUntouched(c, t, id);
    case DoPush(t, id, isCall, event, payload) => RequestPushUntouched(c, net, t, id, isCall, event, payload);
    case DoPing(id) => PingUntouched(c, net, id);
    case HeartbeatDue => BeatUntouched(c, net);
    case AttemptSucceeded(order) => LoadAllUntouched(Opened(c), order);
    case LoadFinished(t, load, loaded) => PayloadUntouched(c, net, t, load, loaded);
    case RejoinDue(t) => RejoinUntouched(c, t);
    case _ =>
  }

  lemma RejoinUntouched(c: Client, t: Topic)
    ensures Untouched(c, RejoinFired(c, t))
  {}

  lemma UntouchedIsTabled(c: Client, a: Action, d: Client)
    requires Leaveless(a) && Untouched(c, d)
    ensures DeferralsAs(c, a, d) && LeavesAs(c, a, d)
  {}

  // ----- Giving up, leaving, cancelling -----

  /** Only the deferral of `t` has changed. */
  ghost predicate DeferralIs(c: Client, d: Client, t: Topic, leave: Option<PendingLeave>) {
    forall u :: DeferredIn(d, u) == if u == t then leave else DeferredIn(c, u)
  }

  lemma StopDefers(c: Client, t: Topic)
    ensures DeferralIs(c, StopChannel(c, t), t, None) && StopChannel(c, t).books == c.books
  {}

  lemma ForgetDefers(c: Client, t: Topic)
    ensures DeferralIs(c, Forget(c, t), t, None) && Forget(c, t).books.pendingLeaves == c.books.pendingLeaves
  {
    StopDefers(c, t);
  }

  lemma UnregisterEffect(c: Client, net: Net, t: Topic)
    ensures var d := Act(c, net, DoUnregister(t)).client;
            DeferralIs(c, d, t, None) && d.books.pendingLeaves == c.books.pendingLeaves
  {
    ForgetDefers(c, t);
    if c.phase.Connected? && P.IsJoined(c.books.proto, t) {
      var c0 := c.(books := c.books.(proto := P.Leave(c.books.proto, t).0));
      ForgetDefers(c0, t);
      assert forall u :: DeferredIn(c0, u) == DeferredIn(c, u);
      FrameUntouched(Forget(c0, t), net, HandedLeave(t, GenerationAccepted(c, t)));
    }
  }

  lemma UnregisterIsTabled(c: Client, d: Client, t: Topic)
    requires DeferralIs(c, d, t, None) && d.books.pendingLeaves == c.books.pendingLeaves
    ensures DeferralsAs(c, DoUnregister(t), d) && LeavesAs(c, DoUnregister(t), d)
  {}

  lemma StartLeaveBooks(c: Client, net: Net, t: Topic, leave: PendingLeave)
    requires P.IsJoined(c.books.proto, t)
    ensures var d := StartLeave(c, net, t, leave).client;
            d.channels == c.channels && d.books.pendingLeaves == c.books.pendingLeaves[c.books.proto.next + 1 := leave]
  {}

  lemma LeaveEffect(c: Client, net: Net, t: Topic, id: ReqId)
    ensures var d := RequestLeave(c, net, t, id).client;
            && DeferralIs(c, d, t, if Defers(c, DoLeave(t, id), t) then Some(PendingLeave(id, true)) else None)
            && d.books.pendingLeaves ==
               if Open(c, t) then c.books.pendingLeaves[c.books.proto.next + 1 := PendingLeave(id, true)] else c.books.pendingLeaves
  {
    var state := P.StateOf(c.books.proto, t);
    var status := if c.phase.Connected? && (state == Some(P.Joined) || state == Some(P.Joining)) then Leaving else Left;
    var c1 := SetStatus(Enter(c, id, Deferred(t)), t, status);
    StopDefers(c1, t);
    if Open(c, t) { StartLeaveBooks(StopChannel(c1, t), net, t, PendingLeave(id, true)); }
  }

  lemma LeaveIsTabled(c: Client, net: Net, t: Topic, id: ReqId)
    ensures var a, d := DoLeave(t, id), RequestLeave(c, net, t, id).client;
            DeferralsAs(c, a, d) && LeavesAs(c, a, d)
  {
    LeaveEffect(c, net, t, id);
    LeaveColumns(c, RequestLeave(c, net, t, id).client, t, id);
  }

  lemma LeaveColumns(c: Client, d: Client, t: Topic, id: ReqId)
    requires DeferralIs(c, d, t, if Defers(c, DoLeave(t, id), t) then Some(PendingLeave(id, true)) else None)
    requires d.books.pendingLeaves ==
             if Open(c, t) then c.books.pendingLeaves[c.books.proto.next + 1 := PendingLeave(id, true)] else c.books.pendingLeaves
    ensures DeferralsAs(c, DoLeave(t, id), d) && LeavesAs(c, DoLeave(t, id), d)
  {}

  lemma CancelDeferral(c: Client, id: ReqId, t: Topic)
    requires Conserved(c)
    ensures DeferredIn(Cancel(c, id), t) == TurnDeferred(c, DoCancel(id), t)
  {
    if t in c.channels && HeldLeave(c.channels[t].deferred, id) { assert Holds(c, id, Deferred(t)); }
    if id in c.ledger && c.ledger[id].At? {
      assert Holds(c, id, c.ledger[id].place);
    }
  }

  lemma CancelLeave(c: Client, id: ReqId, r: Ref)
    requires Conserved(c)
    ensures LeaveAt(Cancel(c, id).books.pendingLeaves, r) == TurnLeave(c, DoCancel(id), r)
  {
    if r in c.books.pendingLeaves && HeldLeave(Some(c.books.pendingLeaves[r]), id) { assert Holds(c, id, LeavingOn(r)); }
    if id in c.ledger && c.ledger[id].At? {
      assert Holds(c, id, c.ledger[id].place);
    }
  }

  lemma CancelIsTabled(c: Client, id: ReqId)
    requires Conserved(c)
    ensures DeferralsAs(c, DoCancel(id), Cancel(c, id)) && LeavesAs(c, DoCancel(id), Cancel(c, id))
  {
    forall t ensures DeferredIn(Cancel(c, id), t) == TurnDeferred(c, DoCancel(id), t) { CancelDeferral(c, id, t); }
    forall r ensures LeaveAt(Cancel(c, id).books.pendingLeaves, r) == TurnLeave(c, DoCancel(id), r) { CancelLeave(c, id, r); }
  }

  // ----- Timers -----

  lemma JoinTimeoutEffect(c: Client, t: Topic, r: Ref)
    ensures var a, d := TimerDue(JoinTimer(t, r)), JoinTimedOut(c, t, r);
            && d.books.pendingLeaves == c.books.pendingLeaves
            && DeferralIs(c, d, t, if JoinExpires(c, a, t) then None else DeferredIn(c, t))
  {
    var c2 := c.(books := BookDiscard(BookJoinTimeout(c.books, t, r), t));
    if t in c.channels {
      var rec := c.channels[t].(activePayload := None);
      ScheduleUntouched(SetRecord(c2, t, rec.(status := Errored, waiters := {}))
                          .(ledger := SettleAll(c.ledger, rec.waiters, Answered(Timeout(JoinOp)))), t);
    }
  }

  lemma JoinTimeoutIsTabled(c: Client, t: Topic, r: Ref)
    ensures var a, d := TimerDue(JoinTimer(t, r)), JoinTimedOut(c, t, r);
            DeferralsAs(c, a, d) && LeavesAs(c, a, d)
  {
    JoinTimeoutEffect(c, t, r);
    JoinTimeoutColumns(c, JoinTimedOut(c, t, r), t, r);
  }

  lemma JoinTimeoutColumns(c: Client, d: Client, t: Topic, r: Ref)
    requires d.books.pendingLeaves == c.books.pendingLeaves
    requires DeferralIs(c, d, t, if JoinExpires(c, TimerDue(JoinTimer(t, r)), t) then None else DeferredIn(c, t))
    ensures DeferralsAs(c, TimerDue(JoinTimer(t, r)), d) && LeavesAs(c, TimerDue(JoinTimer(t, r)), d)
  {}

  lemma LeaveTimeoutEffect(c: Client, t: Topic, r: Ref)
    ensures var d := LeaveTimedOut(c, t, r);
            d.books.pendingLeaves == c.books.pendingLeaves - {r} && forall u :: DeferredIn(d, u) == DeferredIn(c, u)
  {
    if r in c.books.pendingLeaves {
      var c1 := c.(books := c.books.(timers := c.books.timers - {LeaveTimer(t, r)}));
      var c2 := c1.(ledger := SettleLeave(c.ledger, Some(c.books.pendingLeaves[r]), Timeout(LeaveOp)),
                    books := BookDiscard(c1.books.(pendingLeaves := c.books.pendingLeaves - {r}), t));
      StatusUntouched(c2, t, WaitingToJoin);
      StatusUntouched(c2, t, Left);
      LoadUntouched(SetStatus(c2, t, WaitingToJoin), t);
    }
  }

  lemma StatusUntouched(c: Client, t: Topic, status: Status)
    ensures Untouched(c, SetStatus(c, t, status))
  {}

  lemma LeaveTimeoutIsTabled(c: Client, t: Topic, r: Ref)
    ensures var a, d := TimerDue(LeaveTimer(t, r)), LeaveTimedOut(c, t, r);
            DeferralsAs(c, a, d) && LeavesAs(c, a, d)
  {
    LeaveTimeoutEffect(c, t, r);
  }

  // ----- Frames -----

  lemma AcceptedEffect(c: Client, net: Net, t: Topic, r: Ref, response: Payload)
    requires P.IsJoined(c.books.proto, t)
    ensures var d := OnJoined(c, net, t, r, response).client;
            && DeferralIs(c, d, t, None)
            && d.books.pendingLeaves == match DeferredIn(c, t)
                                        case None => c.books.pendingLeaves
                                        case Some(leave) => c.books.pendingLeaves[c.books.proto.next + 1 := leave]
  {
    var c1 := MarkJoined(c, t, r, response);
    MarkedEffect(c, t, r, response);
    if DeferredIn(c, t).Some? {
      StartLeaveBooks(c1, net, t, c.channels[t].deferred.value);
    } else {
      FlushUntouched(c1, net, t);
    }
  }

  lemma MarkedEffect(c: Client, t: Topic, r: Ref, response: Payload)
    ensures var d := MarkJoined(c, t, r, response);
            && DeferralIs(c, d, t, None) && d.books.pendingLeaves == c.books.pendingLeaves && d.books.proto == c.books.proto
  {}

  /** What the driver does about an event that is no accepted join. */
  lemma EventEffect(c: Client, net: Net, event: P.Event)
    requires !event.JoinAccepted?
    ensures var d := React(c, net, event).client;
            && d.books.pendingLeaves == (if event.Left? then c.books.pendingLeaves - {event.reference} else c.books.pendingLeaves)
            && forall u :: DeferredIn(d, u) ==
                 if (event.JoinRejected? || event.ChannelClosed?) && u == event.topic then None else DeferredIn(c, u)
  {
    match event
    case JoinRejected(t, r, response) => RejectedEffect(c, t, r, response);
    case Left(t, r, response) => LeftEffect(c, t, r, response);
    case ChannelClosed(t, _) => StopDefers(SetStatus(c.(books := BookDropJoins(c.books, t)), t, Closed), t);
    case ChannelFailed(t, _) => ScheduleUntouched(SetStatus(c.(books := BookDropJoins(c.books, t)), t, Errored), t);
    case _ =>
  }

  lemma RejectedEffect(c: Client, t: Topic, r: Ref, response: Payload)
    ensures var d := OnJoinRejected(c, t, r, response); d.books.pendingLeaves == c.books.pendingLeaves && DeferralIs(c, d, t, None)
  {}

  lemma LeftEffect(c: Client, t: Topic, r: Ref, response: Payload)
    ensures var d := OnLeft(c, t, r, response);
            d.books.pendingLeaves == c.books.pendingLeaves - {r} && forall u :: DeferredIn(d, u) == DeferredIn(c, u)
  {}

  lemma AcceptedColumns(c: Client, a: Action, d: Client, t: Topic, r: Ref, response: Payload)
    requires a.FrameArrived? && Heard(c, a) == Some(P.JoinAccepted(t, r, response)) && DeferralIs(c, d, t, None)
    requires d.books.pendingLeaves == match DeferredIn(c, t)
                                      case None => c.books.pendingLeaves
                                      case Some(leave) => c.books.pendingLeaves[c.books.proto.next + 1 := leave]
    ensures DeferralsAs(c, a, d) && LeavesAs(c, a, d)
  {}

  lemma EventColumns(c: Client, a: Action, d: Client, event: P.Event)
    requires a.FrameArrived? && Heard(c, a) == Some(event) && !event.JoinAccepted?
    requires d.books.pendingLeaves == if event.Left? then c.books.pendingLeaves - {event.reference} else c.books.pendingLeaves
    requires forall u :: DeferredIn(d, u) ==
               if (event.JoinRejected? || event.ChannelClosed?) && u == event.topic then None else DeferredIn(c, u)
    ensures DeferralsAs(c, a, d) && LeavesAs(c, a, d)
  {}

  lemma IncomingIsTabled(c: Client, net: Net, f: Frame)
    requires K.Linked(c.books)
    ensures var a, d := FrameArrived(f), Incoming(c, net, f).client;
            DeferralsAs(c, a, d) && LeavesAs(c, a, d)
  {
    var a := FrameArrived(f);
    var (proto, result) := P.Receive(c.books.proto, f);
    var c1, d := c.(books := c.books.(proto := proto)), Incoming(c, net, f).client;
    B.ReceiveKeepsNext(c.books.proto, f);
    match result
    case Err(_) =>
    case Ok(JoinAccepted(t, r, response)) =>
      K.AcceptedTopicIsJoined(c.books, f);
      AcceptedEffect(c1, net, t, r, response);
      AcceptedColumns(c, a, d, t, r, response);
    case Ok(event) =>
      EventEffect(c1, net, event);
      EventColumns(c, a, d, event);
  }

  // ----- Turns -----

  lemma ActIsTabled(c: Client, net: Net, a: Action)
    requires K.Linked(c.books) && Conserved(c)
    ensures DeferralsAs(c, a, Act(c, net, a).client) && LeavesAs(c, a, Act(c, net, a).client)
  {
    if Leaveless(a) {
      LeavelessActs(c, net, a);
      UntouchedIsTabled(c, a, Act(c, net, a).client);
    } else {
      match a
      case DoUnregister(t) =>
        UnregisterEffect(c, net, t);
        UnregisterIsTabled(c, Act(c, net, a).client, t);
      case DoLeave(t, id) => LeaveIsTabled(c, net, t, id);
      case DoCancel(id) => CancelIsTabled(c, id);
      case FrameArrived(f) => IncomingIsTabled(c, net, f);
      case TimerDue(JoinTimer(t, r)) => JoinTimeoutIsTabled(c, t, r);
      case TimerDue(LeaveTimer(t, r)) => LeaveTimeoutIsTabled(c, t, r);
    }
  }

  /** After a whole turn each topic's deferred leave and each leave on the wire are the
      table's: a cancelled leave goes on unheard, one that was deferred goes out with the
      accepted join, and the end of the connection leaves none. */
  lemma NextIsTabled(c: Client, net: Net, a: Action, retry: bool, t: Topic, r: Ref)
    requires K.Linked(c.books) && Conserved(c) && F.Flowing(c) && J.Fresh(c)
    ensures var d := Next(c, net, a, retry);
            DeferredIn(d, t) == DeferredAfter(c, net, a, t) && LeaveAt(d.books.pendingLeaves, r) == LeaveAfter(c, net, a, r)
  {
    var turn := Act(c, net, a);
    ActIsTabled(c, net, a);
    B.ActIsTabled(c, net, a);
    AfterTurnLeaves(turn, a, retry, t, r);
  }

  lemma AfterTurnLeaves(turn: Turn, a: Action, retry: bool, t: Topic, r: Ref)
    ensures var c, d := turn.client, AfterTurn(turn, a, retry);
            && DeferredIn(d, t) == (if turn.exit.Some? then None else DeferredIn(c, t))
            && LeaveAt(d.books.pendingLeaves, r) == (if turn.exit.Some? then None else LeaveAt(c.books.pendingLeaves, r))
  {}
}
