/** Every channel fares exactly as the table says: whether it is wanted, what it shows, which
    loads and rejoin timers it has, for every turn and whatever ends it. */
module DriverRecords {
  import opened Wire
  import P = ProtocolSpec
  import opened DriverSpec
  import opened DriverBooks
  import opened DriverLedger
  import opened DriverTable
  import B = DriverOutbox
  import V = DriverVerdicts
  import F = DriverFlow
  import J = DriverLoads
  import O = DriverOffline
  import A = DriverAnswers

  /** What the turn itself leaves of a topic's record. */
  predicate RecordAs(c: Client, a: Action, d: Client, t: Topic)
    requires t in d.channels
  {
    var rec := d.channels[t];
    && (rec.desired <==> DesiredAfter(c, a, t))
    && (rec.everJoined <==> EverJoinedAfter(c, a, t))
    && rec.status == TurnStatus(c, a, t)
    && (rec.rejoinScheduled <==> FlagAfter(c, a, t))
    && LoadAs(c, a, d, t)
  }

  predicate FlagAfter(c: Client, a: Action, t: Topic) {
    || SchedulesRejoin(c, a, t)
    || (t in c.channels && c.channels[t].rejoinScheduled && !GivesUp(c, a, t) && !HearsAccepted(c, a, t) && !a.AttemptSucceeded? &&
        !(a.RejoinDue? && a.topic == t))
  }

  predicate LoadAs(c: Client, a: Action, d: Client, t: Topic)
    requires t in d.channels
  {
    if t !in c.channels then d.channels[t].activePayload.None?
    else if StartsLoad(c, a, t) then d.channels[t].activePayload.Some? && d.channels[t].activePayload.value > c.nextPayload
    else d.channels[t].activePayload == if DropsLoad(c, a, t) then None else c.channels[t].activePayload
  }

  ghost predicate RecordsAs(c: Client, a: Action, d: Client) {
    d.channels.Keys == TopicsAfter(c, a) && forall t :: t in d.channels ==> RecordAs(c, a, d, t)
  }

  /** The outstanding loads, by the records before and after. */
  ghost predicate LoadsAs(c: Client, a: Action, d: Client) {
    forall t, n: nat :: (t, n) in d.payloads <==>
      ((t, n) in c.payloads && !(a.LoadFinished? && a.topic == t && a.load == n)) ||
      (StartsLoad(c, a, t) && t in d.channels && d.channels[t].activePayload == Some(n))
  }

  predicate RejoinsAs(c: Client, a: Action, d: Client) {
    d.rejoins == if a.RejoinDue? then c.rejoins - multiset{a.topic}
                 else match RejoinOf(c, a)
                      case Some(t) => c.rejoins + multiset{t}
                      case None => c.rejoins
  }

  /** Records, loads and rejoin timers, before the connection ends. */
  ghost predicate Kept(c: Client, a: Action, d: Client) {
    RecordsAs(c, a, d) && LoadsAs(c, a, d) && RejoinsAs(c, a, d)
  }

  // ----- Topics that a turn does not concern -----

  /** The turn is about the topic. */
  predicate About(c: Client, a: Action, t: Topic) {
    match a
    case DoRegister(u) => u == t
    case DoUnregister(u) => u == t
    case DoJoin(u, _) => u == t
    case DoLeave(u, _) => u == t
    case DoCancel(id) => t in c.channels && c.channels[t].waiters == {id}
    case LoadFinished(u, _, _) => u == t
    case RejoinDue(u) => u == t
    case TimerDue(timer) => timer.topic == t
    case AttemptSucceeded(_) => true
    case DoShutdown => true
    case FrameArrived(_) =>
      (match Heard(c, a)
       case Some(JoinAccepted(u, _, _)) => u == t
       case Some(JoinRejected(u, _, _)) => u == t
       case Some(Left(u, _, _)) => u == t
       case Some(ChannelFailed(u, _)) => u == t
       case Some(ChannelClosed(u, _)) => u == t
       case _ => false)
    case _ => false
  }

  /** The same record but for what it holds. */
  predicate SameRecord(a: Record, b: Record) {
    && a.status == b.status && a.desired == b.desired && a.everJoined == b.everJoined
    && a.activePayload == b.activePayload && a.rejoinScheduled == b.rejoinScheduled
  }

  lemma NotAbout(c: Client, a: Action, d: Client, t: Topic)
    requires !About(c, a, t) && t in c.channels && t in d.channels && SameRecord(c.channels[t], d.channels[t])
    ensures RecordAs(c, a, d, t)
  {}

  lemma NotAboutStarts(c: Client, a: Action, t: Topic)
    requires !About(c, a, t)
    ensures !StartsLoad(c, a, t) && !SchedulesRejoin(c, a, t)
  {}

  /** A turn about no topic. */
  lemma AboutNoneKeeps(c: Client, a: Action, d: Client)
    requires (forall t :: !About(c, a, t)) && !a.DoRegister? && !a.DoUnregister? && !a.LoadFinished? && !a.RejoinDue?
    requires d.channels.Keys == c.channels.Keys && (forall t :: t in c.channels ==> SameRecord(c.channels[t], d.channels[t]))
    requires d.payloads == c.payloads && d.rejoins == c.rejoins
    ensures Kept(c, a, d)
  {
    forall t | t in d.channels ensures RecordAs(c, a, d, t) { NotAbout(c, a, d, t); }
    forall t ensures !StartsLoad(c, a, t) && !SchedulesRejoin(c, a, t) { NotAboutStarts(c, a, t); }
    assert RejoinOf(c, a).None?;
  }

  /** A turn about one topic alone. */
  lemma AboutOneKeeps(c: Client, a: Action, d: Client, t: Topic)
    requires forall u :: u != t ==> !About(c, a, u)
    requires !a.DoRegister? && !a.DoUnregister? && d.channels.Keys == c.channels.Keys
    requires forall u :: u in c.channels && u != t ==> SameRecord(c.channels[u], d.channels[u])
    requires t in d.channels ==> RecordAs(c, a, d, t)
    ensures RecordsAs(c, a, d)
  {
    forall u | u in d.channels ensures RecordAs(c, a, d, u) {
      if u != t { NotAbout(c, a, d, u); }
    }
  }

  /** The loads after such a turn. */
  lemma OneLoadsAs(c: Client, a: Action, d: Client, t: Topic)
    requires forall u :: u != t ==> !About(c, a, u)
    requires !a.LoadFinished?
    requires StartsLoad(c, a, t) ==> t in d.channels && d.channels[t].activePayload.Some?
    requires d.payloads == c.payloads + if StartsLoad(c, a, t) then {(t, d.channels[t].activePayload.value)} else {}
    ensures LoadsAs(c, a, d)
  {
    forall u | u != t ensures !StartsLoad(c, a, u) { NotAboutStarts(c, a, u); }
  }

  // ----- Requests -----

  lemma RegisterKeeps(c: Client, net: Net, t: Topic)
    ensures Kept(c, DoRegister(t), Register(c, t))
  {}

  lemma UnregisterKeeps(c: Client, net: Net, t: Topic)
    ensures Kept(c, DoUnregister(t), Act(c, net, DoUnregister(t)).client)
  {
    ForgetKeeps(c, t);
    UnregisterEffect(c, net, t);
    SameKept(c, DoUnregister(t), Forget(c, t), Act(c, net, DoUnregister(t)).client);
  }

  lemma UnregisterEffect(c: Client, net: Net, t: Topic)
    ensures var d, e := Act(c, net, DoUnregister(t)).client, Forget(c, t);
            d.channels == e.channels && d.payloads == e.payloads && d.rejoins == e.rejoins
  {
    StopEffect(c, t);
    if c.phase.Connected? && P.IsJoined(c.books.proto, t) {
      var c0 := c.(books := c.books.(proto := P.Leave(c.books.proto, t).0));
      StopEffect(c0, t);
      assert Act(c, net, DoUnregister(t)) == SendFrame(Forget(c0, t), net, HandedLeave(t, GenerationAccepted(c, t)));
      O.SendFrameIsSteady(Forget(c0, t), net, HandedLeave(t, GenerationAccepted(c, t)));
    } else {
      assert Act(c, net, DoUnregister(t)).client == Forget(c, t);
    }
  }

  lemma SameKept(c: Client, a: Action, d: Client, e: Client)
    requires Kept(c, a, d) && e.channels == d.channels && e.payloads == d.payloads && e.rejoins == d.rejoins
    ensures Kept(c, a, e)
  {
    forall t | t in e.channels ensures RecordAs(c, a, e, t) { assert RecordAs(c, a, d, t); }
  }

  lemma ForgetKeeps(c: Client, t: Topic)
    ensures Kept(c, DoUnregister(t), Forget(c, t))
  {}

  lemma JoinKeeps(c: Client, net: Net, t: Topic, id: ReqId)
    ensures Kept(c, DoJoin(t, id), RequestJoin(c, t, id))
  {
    var a, d := DoJoin(t, id), RequestJoin(c, t, id);
    JoinEffect(c, t, id);
    AboutOneKeeps(c, a, d, t);
    OneLoadsAs(c, a, d, t);
  }

  lemma JoinEffect(c: Client, t: Topic, id: ReqId)
    ensures var d := RequestJoin(c, t, id);
            && d.channels.Keys == c.channels.Keys && d.rejoins == c.rejoins
            && (forall u :: u in c.channels && u != t ==> d.channels[u] == c.channels[u])
            && (t in d.channels ==> RecordAs(c, DoJoin(t, id), d, t))
            && d.payloads == c.payloads + if StartsLoad(c, DoJoin(t, id), t) then {(t, d.channels[t].activePayload.value)} else {}
  {
    if t in c.channels {
      if !c.phase.Connected? {
      } else if P.IsJoined(c.books.proto, t) {
      } else {
        var rec := c.channels[t];
        LoadEffect(SetRecord(Enter(c, id, Waiter(t)), t, rec.(desired := true, status := WaitingToJoin, waiters := rec.waiters + {id})), t);
      }
    }
  }

  /** Loading the payload of a topic, as the records and loads show it. */
  lemma LoadEffect(c: Client, t: Topic)
    requires t in c.channels
    ensures var d, rec := LoadPayload(c, t), c.channels[t];
            if rec.desired && rec.activePayload.None? && !IsActive(c, t) then
              && d.channels == c.channels[t := rec.(status := WaitingToJoin, activePayload := Some(c.nextPayload + 1))]
              && d.payloads == c.payloads + {(t, c.nextPayload + 1)} && d.rejoins == c.rejoins && d.nextPayload == c.nextPayload + 1
            else d == c
  {}

  lemma PushKeeps(c: Client, net: Net, t: Topic, id: ReqId, isCall: bool, event: string, payload: Payload)
    ensures Kept(c, DoPush(t, id, isCall, event, payload), RequestPush(c, net, t, id, isCall, event, payload).client)
  {
    var p := Push(id, isCall, event, payload, c.trace.stamps);
    if c.phase.Connected? && P.IsJoined(c.books.proto, t) {
      O.PushIsSteady(Stamp(c, t, id), net, t, p);
    } else {
      EnqueueKeeps(Stamp(c, t, id), t, p);
    }
    AboutNoneKeeps(c, DoPush(t, id, isCall, event, payload), RequestPush(c, net, t, id, isCall, event, payload).client);
  }

  lemma EnqueueKeeps(c: Client, t: Topic, p: Push)
    ensures var d := Enqueue(c, t, p);
            && d.payloads == c.payloads && d.rejoins == c.rejoins && d.channels.Keys == c.channels.Keys
            && forall u :: u in c.channels ==> d.channels[u] == c.channels[u].(queued := d.channels[u].queued)
  {}

  lemma LeaveKeeps(c: Client, net: Net, t: Topic, id: ReqId)
    ensures Kept(c, DoLeave(t, id), RequestLeave(c, net, t, id).client)
  {
    var a, d := DoLeave(t, id), RequestLeave(c, net, t, id).client;
    LeaveEffect(c, net, t, id);
    AboutOneKeeps(c, a, d, t);
    OneLoadsAs(c, a, d, t);
  }

  lemma LeaveEffect(c: Client, net: Net, t: Topic, id: ReqId)
    ensures var d := RequestLeave(c, net, t, id).client;
            && d.channels.Keys == c.channels.Keys && d.rejoins == c.rejoins && d.payloads == c.payloads
            && (forall u :: u in c.channels && u != t ==> d.channels[u] == c.channels[u])
            && (t in d.channels ==> RecordAs(c, DoLeave(t, id), d, t))
  {
    var state := P.StateOf(c.books.proto, t);
    var status := if c.phase.Connected? && (state == Some(P.Joined) || state == Some(P.Joining)) then Leaving else Left;
    var c2 := StopChannel(SetStatus(Enter(c, id, Deferred(t)), t, status), t);
    StopEffect(SetStatus(Enter(c, id, Deferred(t)), t, status), t);
    if c.phase.Connected? && state == Some(P.Joined) {
      O.StartLeaveIsSteady(c2, net, t, PendingLeave(id, true));
    }
    var d := RequestLeave(c, net, t, id).client;
    if t in c.channels {
      assert SameRecord(d.channels[t], c2.channels[t]);
      LeaveRecord(c, d, t, id);
    }
  }

  lemma LeaveRecord(c: Client, d: Client, t: Topic, id: ReqId)
    requires t in c.channels && t in d.channels
    requires var state := P.StateOf(c.books.proto, t);
             SameRecord(d.channels[t],
                        c.channels[t].(desired := false, activePayload := None, rejoinScheduled := false,
                                       status := if c.phase.Connected? && (state == Some(P.Joined) || state == Some(P.Joining)) then Leaving else Left))
    ensures RecordAs(c, DoLeave(t, id), d, t)
  {}

  /** Stopping a channel, as the records show it. */
  lemma StopEffect(c: Client, t: Topic)
    ensures var d := StopChannel(c, t);
            && d.channels == (if t in c.channels then
                                c.channels[t := c.channels[t].(desired := false, activePayload := None, rejoinScheduled := false,
                                                               deferred := None, waiters := {}, queued := [])]
                              else c.channels)
            && d.rejoins == c.rejoins && d.payloads == c.payloads && d.books == c.books && d.phase == c.phase
  {}

  lemma PingKeeps(c: Client, net: Net, id: ReqId)
    ensures Kept(c, DoPing(id), RequestPing(c, net, id).client)
  {
    AboutNoneKeeps(c, DoPing(id), RequestPing(c, net, id).client);
  }

  lemma CancelKeeps(c: Client, net: Net, id: ReqId)
    requires Conserved(c)
    ensures Kept(c, DoCancel(id), Cancel(c, id))
  {
    var a, d := DoCancel(id), Cancel(c, id);
    forall t | t in c.channels ensures id in c.channels[t].waiters <==> id in c.ledger && c.ledger[id] == At(Waiter(t)) {
      V.HeldWaiters(c, t, id);
    }
    if id in c.ledger && c.ledger[id].At? && c.ledger[id].place.Waiter? && c.ledger[id].place.topic in c.channels {
      var t := c.ledger[id].place.topic;
      CancelWaiterEffect(c, t, id);
      AboutOneKeeps(c, a, d, t);
      OneLoadsAs(c, a, d, t);
    } else {
      CancelOtherEffect(c, id);
      AboutNoneKeeps(c, a, d);
    }
  }

  lemma CancelWaiterEffect(c: Client, t: Topic, id: ReqId)
    requires t in c.channels && id in c.channels[t].waiters && id in c.ledger && c.ledger[id] == At(Waiter(t))
    ensures var d := Cancel(c, id);
            && d.channels.Keys == c.channels.Keys && d.rejoins == c.rejoins && d.payloads == c.payloads
            && (forall u :: u in c.channels && u != t ==> d.channels[u] == c.channels[u])
            && RecordAs(c, DoCancel(id), d, t)
  {
    assert c.channels[t].waiters - {id} == {} <==> c.channels[t].waiters == {id};
  }

  lemma CancelOtherEffect(c: Client, id: ReqId)
    requires id in c.ledger && c.ledger[id].At? && c.ledger[id].place.Waiter? ==> c.ledger[id].place.topic !in c.channels
    ensures var d := Cancel(c, id);
            && d.channels.Keys == c.channels.Keys && d.rejoins == c.rejoins && d.payloads == c.payloads
            && forall u :: u in c.channels ==> SameRecord(c.channels[u], d.channels[u])
  {}

  // ----- Completions -----

  lemma PayloadKeeps(c: Client, net: Net, t: Topic, load: nat, loaded: Option<Value>)
    ensures Kept(c, LoadFinished(t, load, loaded), PayloadReady(c, net, t, load, loaded).client)
  {
    var a, d := LoadFinished(t, load, loaded), PayloadReady(c, net, t, load, loaded).client;
    PayloadEffect(c, net, t, load, loaded);
    AboutOneKeeps(c, a, d, t);
  }

  lemma PayloadEffect(c: Client, net: Net, t: Topic, load: nat, loaded: Option<Value>)
    ensures var d := PayloadReady(c, net, t, load, loaded).client;
            && d.channels.Keys == c.channels.Keys && d.rejoins == c.rejoins && d.payloads == c.payloads - {(t, load)}
            && (forall u :: u in c.channels && u != t ==> d.channels[u] == c.channels[u])
            && (t in d.channels ==> RecordAs(c, LoadFinished(t, load, loaded), d, t))
  {
    if LoadsWanted(c, LoadFinished(t, load, loaded), t) && loaded.Some? && !P.Active(c.books.proto, t) {
      var c2 := SetRecord(c.(payloads := c.payloads - {(t, load)}), t, c.channels[t].(activePayload := None));
      StartJoinEffect(c2, net, t, load, loaded.value);
    }
  }

  lemma StartJoinEffect(c: Client, net: Net, t: Topic, load: nat, params: Value)
    requires !P.Active(c.books.proto, t) && t in c.channels
    ensures var d := StartJoin(c, net, t, load, params).client;
            d.channels == c.channels[t := c.channels[t].(status := Joining)] && d.payloads == c.payloads && d.rejoins == c.rejoins
  {
    F.BookJoinUnjoins(c.books, t, params);
    O.SendFrameIsJust(SetStatus(c, t, Joining).(books := BookJoin(c.books, t, params).0), net,
                      HandedJoin(t, load, t in c.trace.latest && c.trace.latest[t] == load));
  }

  lemma RejoinKeeps(c: Client, net: Net, t: Topic)
    ensures Kept(c, RejoinDue(t), RejoinFired(c, t))
  {
    var a, d := RejoinDue(t), RejoinFired(c, t);
    if t in c.channels {
      LoadEffect(SetRecord(c.(rejoins := c.rejoins - multiset{t}), t, c.channels[t].(rejoinScheduled := false)), t);
    }
    AboutOneKeeps(c, a, d, t);
    OneLoadsAs(c, a, d, t);
  }

  /** Scheduling a rejoin, as the records and timers show it. */
  lemma ScheduleEffect(c: Client, t: Topic)
    ensures var d := ScheduleRejoin(c, t);
            if t in c.channels && c.channels[t].desired && !c.channels[t].rejoinScheduled then
              d.channels == c.channels[t := c.channels[t].(rejoinScheduled := true)] &&
              d.rejoins == c.rejoins + multiset{t} && d.payloads == c.payloads
            else d == c
  {}

  lemma JoinTimeoutKeeps(c: Client, net: Net, t: Topic, r: Ref)
    ensures Kept(c, TimerDue(JoinTimer(t, r)), JoinTimedOut(c, t, r))
  {
    var a, d := TimerDue(JoinTimer(t, r)), JoinTimedOut(c, t, r);
    JoinTimeoutEffect(c, t, r);
    AboutOneKeeps(c, a, d, t);
    OneLoadsAs(c, a, d, t);
  }

  lemma JoinTimeoutEffect(c: Client, t: Topic, r: Ref)
    ensures var a, d := TimerDue(JoinTimer(t, r)), JoinTimedOut(c, t, r);
            && d.channels.Keys == c.channels.Keys && d.payloads == c.payloads && RejoinsAs(c, a, d)
            && (forall u :: u in c.channels && u != t ==> d.channels[u] == c.channels[u])
            && (t in d.channels ==> RecordAs(c, a, d, t))
  {
    JoinTimeoutRecord(c, t, r);
    if t in c.channels { ExpiredRecord(c, JoinTimedOut(c, t, r), t, r); }
  }

  lemma ExpiredRecord(c: Client, d: Client, t: Topic, r: Ref)
    requires t in c.channels && t in d.channels
    requires var rec := c.channels[t].(activePayload := None);
             SameRecord(d.channels[t],
                        if !JoinExpires(c, TimerDue(JoinTimer(t, r)), t) then c.channels[t]
                        else if rec.deferred.None? && rec.desired then rec.(status := Errored, rejoinScheduled := true)
                        else rec.(status := Left))
    ensures RecordAs(c, TimerDue(JoinTimer(t, r)), d, t)
  {}

  /** The join timeout, as the records and timers show it. */
  lemma JoinTimeoutRecord(c: Client, t: Topic, r: Ref)
    ensures var d := JoinTimedOut(c, t, r);
            && d.payloads == c.payloads
            && if !JoinExpires(c, TimerDue(JoinTimer(t, r)), t) || t !in c.channels then d.channels == c.channels && d.rejoins == c.rejoins
               else
                 var rec := c.channels[t].(activePayload := None);
                 var retry := rec.deferred.None? && rec.desired;
                 && d.channels == c.channels[t := if retry then rec.(status := Errored, waiters := {}, rejoinScheduled := true)
                                                  else rec.(deferred := None, status := Left)]
                 && d.rejoins == if retry && !rec.rejoinScheduled then c.rejoins + multiset{t} else c.rejoins
  {
    if JoinExpires(c, TimerDue(JoinTimer(t, r)), t) && t in c.channels {
      var rec := c.channels[t].(activePayload := None);
      if rec.deferred.None? && rec.desired {
        var c2 := c.(books := BookDiscard(BookJoinTimeout(c.books, t, r), t));
        var c3 := SetRecord(c2, t, rec.(status := Errored, waiters := {})).(ledger := SettleAll(c.ledger, rec.waiters, Answered(Timeout(JoinOp))));
        ScheduleEffect(c3, t);
        assert JoinTimedOut(c, t, r) == ScheduleRejoin(c3, t);
        assert rec.rejoinScheduled ==> rec.(status := Errored, waiters := {}) == rec.(status := Errored, waiters := {}, rejoinScheduled := true);
      }
    }
  }

  lemma LeaveTimeoutKeeps(c: Client, net: Net, t: Topic, r: Ref)
    ensures Kept(c, TimerDue(LeaveTimer(t, r)), LeaveTimedOut(c, t, r))
  {
    var a, d := TimerDue(LeaveTimer(t, r)), LeaveTimedOut(c, t, r);
    LeaveTimeoutEffect(c, t, r);
    AboutOneKeeps(c, a, d, t);
    OneLoadsAs(c, a, d, t);
  }

  lemma LeaveTimeoutEffect(c: Client, t: Topic, r: Ref)
    ensures var a, d := TimerDue(LeaveTimer(t, r)), LeaveTimedOut(c, t, r);
            && d.channels.Keys == c.channels.Keys && d.rejoins == c.rejoins
            && (forall u :: u in c.channels && u != t ==> d.channels[u] == c.channels[u])
            && (t in d.channels ==> RecordAs(c, a, d, t))
            && d.payloads == c.payloads + if StartsLoad(c, a, t) then {(t, d.channels[t].activePayload.value)} else {}
  {
    LeaveTimeoutRecord(c, t, r);
    if t in c.channels { LeaveExpiredRecord(c, LeaveTimedOut(c, t, r), t, r); }
  }

  /** The leave timeout, as the records and loads show it. */
  lemma LeaveTimeoutRecord(c: Client, t: Topic, r: Ref)
    ensures var d := LeaveTimedOut(c, t, r);
            var rec := if t in c.channels then c.channels[t] else FRESH;
            var starts := r in c.books.pendingLeaves && t in c.channels && rec.desired && rec.activePayload.None?;
            && d.channels == (if r !in c.books.pendingLeaves || t !in c.channels then c.channels
                              else c.channels[t := rec.(status := if rec.desired then WaitingToJoin else Left,
                                                        activePayload := if starts then Some(c.nextPayload + 1) else rec.activePayload)])
            && d.payloads == (if starts then c.payloads + {(t, c.nextPayload + 1)} else c.payloads) && d.rejoins == c.rejoins
  {
    if r in c.books.pendingLeaves && t in c.channels && c.channels[t].desired {
      var c2 := c.(books := BookDiscard(c.books.(timers := c.books.timers - {LeaveTimer(t, r)}, pendingLeaves := c.books.pendingLeaves - {r}), t),
                   ledger := SettleLeave(c.ledger, Some(c.books.pendingLeaves[r]), Timeout(LeaveOp)));
      LoadEffect(SetStatus(c2, t, WaitingToJoin), t);
      assert LeaveTimedOut(c, t, r) == LoadPayload(SetStatus(c2, t, WaitingToJoin), t);
    }
  }

  lemma LeaveExpiredRecord(c: Client, d: Client, t: Topic, r: Ref)
    requires t in c.channels && t in d.channels
    requires var rec := c.channels[t];
             SameRecord(d.channels[t],
                        if r !in c.books.pendingLeaves then rec
                        else if !rec.desired then rec.(status := Left)
                        else rec.(status := WaitingToJoin,
                                  activePayload := if rec.activePayload.None? then Some(c.nextPayload + 1) else rec.activePayload))
    ensures RecordAs(c, TimerDue(LeaveTimer(t, r)), d, t)
  {}

  // ----- Incoming frames -----

  /** An event about `t`, as the records show it; `a` is the turn that hears it. */
  lemma AcceptedKeeps(c: Client, a: Action, c1: Client, net: Net, t: Topic, r: Ref, response: Payload)
    requires Heard(c, a) == Some(P.JoinAccepted(t, r, response)) && a.FrameArrived? && c1 == c.(books := c1.books)
    ensures Kept(c, a, OnJoined(c1, net, t, r, response).client)
  {
    var d, m := OnJoined(c1, net, t, r, response).client, MarkJoined(c1, t, r, response);
    if t in c.channels && c.channels[t].deferred.Some? {
      O.StartLeaveIsSteady(m, net, t, c.channels[t].deferred.value);
    } else {
      O.FlushIsSteady(m, net, t);
    }
    AcceptedRecord(c, a, d, t);
    AboutOneKeeps(c, a, d, t);
    OneLoadsAs(c, a, d, t);
  }

  lemma AcceptedRecord(c: Client, a: Action, d: Client, t: Topic)
    requires HearsAccepted(c, a, t) && a.FrameArrived?
    requires t in c.channels ==>
               t in d.channels &&
               SameRecord(d.channels[t], c.channels[t].(everJoined := true, rejoinScheduled := false,
                                                        status := if c.channels[t].deferred.Some? then Leaving else Joined))
    ensures t in d.channels && t in c.channels ==> RecordAs(c, a, d, t)
  {}

  lemma RejectedKeeps(c: Client, a: Action, c1: Client, net: Net, t: Topic, r: Ref, response: Payload)
    requires Heard(c, a) == Some(P.JoinRejected(t, r, response)) && a.FrameArrived? && c1 == c.(books := c1.books)
    ensures Kept(c, a, OnJoinRejected(c1, t, r, response))
  {
    var d := OnJoinRejected(c1, t, r, response);
    if t in c.channels {
      var rec := c.channels[t];
      var l1 := SettleLeave(c1.ledger, rec.deferred, Accepted(EMPTY_OBJECT));
      var m := SetRecord(c1.(books := BookJoinDone(c1.books, r)), t,
                         rec.(status := if rec.deferred.Some? then Left else Errored, deferred := None, waiters := {}))
                 .(ledger := SettleAll(l1, rec.waiters, Answered(JoinRefused(response))));
      ScheduleEffect(m, t);
      assert d == ScheduleRejoin(m, t);
      ScheduledRecord(c, a, d, t);
    }
    AboutOneKeeps(c, a, d, t);
    OneLoadsAs(c, a, d, t);
  }

  lemma ScheduledRecord(c: Client, a: Action, d: Client, t: Topic)
    requires a.FrameArrived? && t in c.channels && t in d.channels && (HearsRejected(c, a, t) || HearsFailed(c, a, t))
    requires var rec := c.channels[t];
             SameRecord(d.channels[t], rec.(status := if HearsRejected(c, a, t) && rec.deferred.Some? then Left else Errored,
                                            rejoinScheduled := rec.rejoinScheduled || rec.desired))
    ensures RecordAs(c, a, d, t)
  {}

  lemma FailedKeeps(c: Client, a: Action, c1: Client, net: Net, t: Topic, payload: Payload)
    requires Heard(c, a) == Some(P.ChannelFailed(t, payload)) && a.FrameArrived? && c1 == c.(books := c1.books)
    ensures Kept(c, a, ScheduleRejoin(SetStatus(c1.(books := BookDropJoins(c1.books, t)), t, Errored), t))
  {
    var m := SetStatus(c1.(books := BookDropJoins(c1.books, t)), t, Errored);
    var d := ScheduleRejoin(m, t);
    ScheduleEffect(m, t);
    if t in c.channels { ScheduledRecord(c, a, d, t); }
    AboutOneKeeps(c, a, d, t);
    OneLoadsAs(c, a, d, t);
  }

  lemma ClosedKeeps(c: Client, a: Action, c1: Client, net: Net, t: Topic, payload: Payload)
    requires Heard(c, a) == Some(P.ChannelClosed(t, payload)) && a.FrameArrived? && c1 == c.(books := c1.books)
    ensures Kept(c, a, StopChannel(SetStatus(c1.(books := BookDropJoins(c1.books, t)), t, Closed), t))
  {
    var m := SetStatus(c1.(books := BookDropJoins(c1.books, t)), t, Closed);
    var d := StopChannel(m, t);
    StopEffect(m, t);
    AboutOneKeeps(c, a, d, t);
    OneLoadsAs(c, a, d, t);
  }

  lemma LeftKeeps(c: Client, a: Action, c1: Client, net: Net, t: Topic, r: Ref, response: Payload)
    requires Heard(c, a) == Some(P.Left(t, r, response)) && a.FrameArrived? && c1 == c.(books := c1.books)
    requires !P.Active(c1.books.proto, t)
    ensures Kept(c, a, OnLeft(c1, t, r, response))
  {
    var d := OnLeft(c1, t, r, response);
    LeftEffect(c1, t, r, response);
    LeftRecord(c, a, d, t);
    AboutOneKeeps(c, a, d, t);
    OneLoadsAs(c, a, d, t);
  }

  lemma LeftEffect(c: Client, t: Topic, r: Ref, response: Payload)
    requires !P.Active(c.books.proto, t)
    ensures var d := OnLeft(c, t, r, response);
            var rec := if t in c.channels then c.channels[t] else FRESH;
            var starts := t in c.channels && rec.desired && rec.activePayload.None?;
            && d.channels == (if t !in c.channels then c.channels
                              else c.channels[t := rec.(status := if rec.desired then WaitingToJoin else Left,
                                                        activePayload := if starts then Some(c.nextPayload + 1) else rec.activePayload)])
            && d.payloads == (if starts then c.payloads + {(t, c.nextPayload + 1)} else c.payloads) && d.rejoins == c.rejoins
  {
    var c1 := if r in c.books.pendingLeaves then
                c.(books := c.books.(pendingLeaves := c.books.pendingLeaves - {r}),
                   ledger := SettleLeave(c.ledger, Some(c.books.pendingLeaves[r]), Accepted(response)))
              else c;
    if t in c.channels { LoadEffect(SetStatus(c1, t, WaitingToJoin), t); }
  }

  lemma LeftRecord(c: Client, a: Action, d: Client, t: Topic)
    requires HearsLeft(c, a, t) && a.FrameArrived?
    requires t in c.channels ==>
               var rec := c.channels[t];
               t in d.channels && d.channels[t] == rec.(status := if rec.desired then WaitingToJoin else Left,
                                                        activePayload := if rec.desired && rec.activePayload.None? then Some(c.nextPayload + 1) else rec.activePayload)
    ensures t in d.channels && t in c.channels ==> RecordAs(c, a, d, t)
  {}

  lemma OtherEventKeeps(c: Client, a: Action, c1: Client, net: Net, event: P.Event)
    requires Heard(c, a) == Some(event) && a.FrameArrived? && c1 == c.(books := c1.books)
    requires !event.JoinAccepted? && !event.JoinRejected? && !event.Left? && !event.ChannelFailed? && !event.ChannelClosed?
    ensures Kept(c, a, React(c1, net, event).client)
  {
    AboutNoneKeeps(c, a, React(c1, net, event).client);
  }

  lemma IncomingKeeps(c: Client, net: Net, f: Frame)
    requires Linked(c.books)
    ensures Kept(c, FrameArrived(f), Incoming(c, net, f).client)
  {
    var a := FrameArrived(f);
    var (proto, result) := P.Receive(c.books.proto, f);
    var c1 := c.(books := c.books.(proto := proto));
    if result.Err? {
      AboutNoneKeeps(c, a, c1);
    } else {
      EventKeeps(c, a, c1, net, f, result.value);
    }
  }

  lemma EventKeeps(c: Client, a: Action, c1: Client, net: Net, f: Frame, event: P.Event)
    requires a == FrameArrived(f) && P.Receive(c.books.proto, f) == (c1.books.proto, Ok(event)) && c1 == c.(books := c1.books)
    ensures Kept(c, a, React(c1, net, event).client)
  {
    assert Heard(c, a) == Some(event);
    match event
    case JoinAccepted(t, r, response) => AcceptedKeeps(c, a, c1, net, t, r, response);
    case JoinRejected(t, r, response) => RejectedKeeps(c, a, c1, net, t, r, response);
    case Left(t, r, response) => LeftIsInactive(c.books.proto, f, t, r, response); LeftKeeps(c, a, c1, net, t, r, response);
    case ChannelFailed(t, payload) => FailedKeeps(c, a, c1, net, t, payload);
    case ChannelClosed(t, payload) => ClosedKeeps(c, a, c1, net, t, payload);
    case _ => OtherEventKeeps(c, a, c1, net, event);
  }

  lemma LeftIsInactive(v: P.View, f: Frame, t: Topic, r: Ref, response: Payload)
    requires P.Receive(v, f).1 == Ok(P.Left(t, r, response))
    ensures !P.Active(P.Receive(v, f).0, t)
  {}

  // ----- Connections -----

  /** What loading a list of wanted topics leaves of one of them. */
  predicate Listed(c: Client, d: Client, order: seq<Topic>, t: Topic)
    requires t in c.channels && t in d.channels
  {
    if t !in order then d.channels[t] == c.channels[t]
    else
      && d.channels[t] == c.channels[t].(status := WaitingToJoin, activePayload := d.channels[t].activePayload)
      && (if c.channels[t].activePayload.Some? then d.channels[t].activePayload == c.channels[t].activePayload
          else d.channels[t].activePayload.Some? && d.channels[t].activePayload.value > c.nextPayload)
  }

  /** Some topic of the list got the load. */
  predicate Gained(c: Client, d: Client, order: seq<Topic>, t: Topic, n: nat) {
    t in order && t in c.channels && t in d.channels && c.channels[t].activePayload.None? && d.channels[t].activePayload == Some(n)
  }

  ghost predicate AllListed(c: Client, d: Client, order: seq<Topic>) {
    && d.channels.Keys == c.channels.Keys && d.rejoins == c.rejoins && d.nextPayload >= c.nextPayload && d.books == c.books
    && (forall t :: t in c.channels ==> Listed(c, d, order, t))
    && (forall t, n: nat :: (t, n) in d.payloads <==> (t, n) in c.payloads || Gained(c, d, order, t, n))
  }

  lemma {:induction false} LoadAllEffect(c: Client, order: seq<Topic>)
    requires forall t :: t in order ==> t in c.channels && c.channels[t].desired
    requires forall t :: !IsActive(c, t)
    ensures AllListed(c, LoadAll(c, order), order)
    decreases |order|
  {
    if order != [] {
      var t, m := order[0], SetStatus(c, order[0], WaitingToJoin);
      var e := LoadPayload(m, t);
      LoadEffect(m, t);
      forall u ensures !IsActive(e, u) { assert !IsActive(c, u); }
      LoadAllEffect(e, order[1..]);
      assert order == [t] + order[1..];
      OneListed(c, e, t);
      MoreListed(c, e, LoadAll(e, order[1..]), t, order[1..]);
    }
  }

  lemma OneListed(c: Client, e: Client, t: Topic)
    requires t in c.channels && c.channels[t].desired && !IsActive(c, t)
    requires e == LoadPayload(SetStatus(c, t, WaitingToJoin), t)
    ensures AllListed(c, e, [t])
  {
    LoadEffect(SetStatus(c, t, WaitingToJoin), t);
  }

  lemma MoreListed(c: Client, e: Client, d: Client, t: Topic, rest: seq<Topic>)
    requires t in c.channels && AllListed(c, e, [t]) && AllListed(e, d, rest)
    ensures AllListed(c, d, [t] + rest)
  {
    forall u | u in c.channels ensures Listed(c, d, [t] + rest, u) {
      assert Listed(c, e, [t], u) && Listed(e, d, rest, u);
    }
    forall u, n: nat ensures (u, n) in d.payloads <==> (u, n) in c.payloads || Gained(c, d, [t] + rest, u, n) {
      assert (u, n) in d.payloads <==> (u, n) in e.payloads || Gained(e, d, rest, u, n);
      assert (u, n) in e.payloads <==> (u, n) in c.payloads || Gained(c, e, [t], u, n);
      if u in c.channels { assert Listed(c, e, [t], u) && Listed(e, d, rest, u); }
    }
  }

  lemma ConnectKeeps(c: Client, net: Net, order: seq<Topic>)
    requires O.Quiet(c) && forall t :: t in order <==> t in c.channels && c.channels[t].desired
    ensures Kept(c, AttemptSucceeded(order), OnConnect(c, order))
  {
    var a, o, d := AttemptSucceeded(order), Opened(c), OnConnect(c, order);
    forall t ensures !IsActive(o, t) { O.QuietIsNotJoined(c); }
    forall t | t in order ensures t in o.channels && o.channels[t].desired {}
    LoadAllEffect(o, order);
    forall t | t in d.channels ensures RecordAs(c, a, d, t) {
      assert Listed(o, d, order, t);
      assert o.channels[t] == c.channels[t].(rejoinScheduled := false);
      ConnectedRecord(c, a, d, t);
    }
    forall t, n: nat
      ensures (t, n) in d.payloads <==>
              (t, n) in c.payloads || (StartsLoad(c, a, t) && t in d.channels && d.channels[t].activePayload == Some(n)) {
      assert (t, n) in d.payloads <==> (t, n) in o.payloads || Gained(o, d, order, t, n);
      ConnectedStarts(c, a, t);
    }
  }

  lemma ConnectedStarts(c: Client, a: Action, t: Topic)
    requires O.Quiet(c) && a.AttemptSucceeded?
    ensures StartsLoad(c, a, t) <==> t in c.channels && c.channels[t].desired && c.channels[t].activePayload.None?
  {
    O.QuietIsNotJoined(c);
    assert !P.Active(c.books.proto, t);
  }

  lemma ConnectedRecord(c: Client, a: Action, d: Client, t: Topic)
    requires O.Quiet(c) && a.AttemptSucceeded? && t in c.channels && t in d.channels
    requires var rec := c.channels[t].(rejoinScheduled := false);
             if !rec.desired then d.channels[t] == rec
             else
               && d.channels[t] == rec.(status := WaitingToJoin, activePayload := d.channels[t].activePayload)
               && d.channels[t].activePayload.Some? && d.channels[t].activePayload.value > c.nextPayload
    ensures RecordAs(c, a, d, t)
  {
    ConnectedStarts(c, a, t);
    assert O.QuietRecord(c.channels[t]);
  }

  lemma ShutdownKeeps(c: Client)
    ensures Kept(c, DoShutdown, Shutdown(c))
  {}

  lemma QuietKeeps(c: Client, net: Net, a: Action)
    requires a.DoConnect? || a.DoDisconnect? || a.AttemptFailed? || a.BackoffElapsed? || a.FrameUndecodable? || a.TransportEnded? || a.HeartbeatDue?
    ensures Kept(c, a, Act(c, net, a).client)
  {
    AboutNoneKeeps(c, a, Act(c, net, a).client);
  }

  // ----- Turns -----

  lemma RequestKeeps(c: Client, net: Net, a: Action)
    requires Conserved(c) && IsRequest(a)
    ensures Kept(c, a, Act(c, net, a).client)
  {
    match a
    case DoRegister(t) => RegisterKeeps(c, net, t);
    case DoUnregister(t) => UnregisterKeeps(c, net, t);
    case DoCancel(id) => CancelKeeps(c, net, id);
    case DoJoin(t, id) => JoinKeeps(c, net, t, id);
    case DoPush(t, id, isCall, event, payload) => PushKeeps(c, net, t, id, isCall, event, payload);
    case DoLeave(t, id) => LeaveKeeps(c, net, t, id);
    case DoPing(id) => PingKeeps(c, net, id);
  }

  lemma ActKeeps(c: Client, net: Net, a: Action)
    requires Linked(c.books) && Conserved(c) && O.OfflineQuiet(c) && Enabled(c, a)
    ensures Kept(c, a, Act(c, net, a).client)
  {
    if IsRequest(a) {
      RequestKeeps(c, net, a);
    } else if a.FrameArrived? {
      IncomingKeeps(c, net, a.frame);
    } else if a.LoadFinished? {
      PayloadKeeps(c, net, a.topic, a.load, a.loaded);
    } else if a.TimerDue? && a.timer.JoinTimer? {
      JoinTimeoutKeeps(c, net, a.timer.topic, a.timer.reference);
    } else if a.TimerDue? {
      LeaveTimeoutKeeps(c, net, a.timer.topic, a.timer.reference);
    } else if a.RejoinDue? {
      RejoinKeeps(c, net, a.topic);
    } else if a.AttemptSucceeded? {
      ConnectKeeps(c, net, a.order);
    } else if a.DoShutdown? {
      ShutdownKeeps(c);
    } else {
      QuietKeeps(c, net, a);
    }
  }

  /** After a whole turn the topics are those of the table, and each is wanted, has been
      joined and shows a status as the table says. */
  lemma NextTopics(c: Client, net: Net, a: Action, retry: bool, t: Topic)
    requires Linked(c.books) && Conserved(c) && F.Flowing(c) && O.OfflineQuiet(c) && J.Fresh(c) && Enabled(c, a)
    ensures var d := Next(c, net, a, retry);
            && (t in d.channels <==> t in TopicsAfter(c, a))
            && (t in d.channels ==>
                  && (d.channels[t].desired <==> DesiredAfter(c, a, t))
                  && (d.channels[t].everJoined <==> EverJoinedAfter(c, a, t))
                  && d.channels[t].status == StatusAfter(c, net, a, t))
  {
    var turn, d := Act(c, net, a), Next(c, net, a, retry);
    ActRecord(c, net, a, t);
    AfterTurnRecord(turn, a, retry, t);
    if t in turn.client.channels {
      EndedRecord(c, net, a, turn.client.channels[t], d.channels[t], t);
    }
  }

  lemma ActRecord(c: Client, net: Net, a: Action, t: Topic)
    requires Linked(c.books) && Conserved(c) && F.Flowing(c) && O.OfflineQuiet(c) && J.Fresh(c) && Enabled(c, a)
    ensures var turn := Act(c, net, a);
            && turn.exit == Ending(c, net, a) && Kept(c, a, turn.client)
            && (t in turn.client.channels <==> t in TopicsAfter(c, a))
            && (t in turn.client.channels ==>
                  && (turn.client.channels[t].desired <==> DesiredAfter(c, a, t))
                  && (turn.client.channels[t].everJoined <==> EverJoinedAfter(c, a, t))
                  && turn.client.channels[t].status == TurnStatus(c, a, t))
  {
    var turn := Act(c, net, a);
    ActKeeps(c, net, a);
    B.ActIsTabled(c, net, a);
    assert t in turn.client.channels.Keys <==> t in TopicsAfter(c, a);
    if t in turn.client.channels { assert RecordAs(c, a, turn.client, t); }
  }

  lemma EndedRecord(c: Client, net: Net, a: Action, rec: Record, last: Record, t: Topic)
    requires last == if Ending(c, net, a).Some? then Offline(rec) else rec
    requires (rec.desired <==> DesiredAfter(c, a, t)) && (rec.everJoined <==> EverJoinedAfter(c, a, t)) && rec.status == TurnStatus(c, a, t)
    ensures (last.desired <==> DesiredAfter(c, a, t)) && (last.everJoined <==> EverJoinedAfter(c, a, t)) && last.status == StatusAfter(c, net, a, t)
  {}

  /** What follows the end of a connection, record by record. */
  lemma AfterTurnRecord(turn: Turn, a: Action, retry: bool, t: Topic)
    ensures var c, d := turn.client, AfterTurn(turn, a, retry);
            && (t in d.channels <==> t in c.channels)
            && (t in c.channels ==> d.channels[t] == if turn.exit.Some? then Offline(c.channels[t]) else c.channels[t])
            && d.payloads == (if turn.exit.Some? then {} else c.payloads)
            && d.rejoins == (if turn.exit.Some? then multiset{} else c.rejoins)
  {}

  /** After a whole turn a topic waits for a load exactly if one was started for it that is
      not over, a load is outstanding exactly if it was started and has not come back, and a
      rejoin timer exactly if it was started and has not fired. */
  lemma NextLoads(c: Client, net: Net, a: Action, retry: bool, t: Topic)
    requires Linked(c.books) && Conserved(c) && F.Flowing(c) && O.OfflineQuiet(c) && J.Fresh(c) && Enabled(c, a)
    ensures var d := Next(c, net, a, retry);
            && (t in d.channels ==>
                  if Ending(c, net, a).Some? || t !in c.channels then d.channels[t].activePayload.None?
                  else if StartsLoad(c, a, t) then d.channels[t].activePayload.Some? && d.channels[t].activePayload.value > c.nextPayload
                  else d.channels[t].activePayload == if DropsLoad(c, a, t) then None else c.channels[t].activePayload)
            && (forall n: nat :: (t, n) in d.payloads <==>
                  Ending(c, net, a).None? &&
                  (((t, n) in c.payloads && !(a.LoadFinished? && a.topic == t && a.load == n)) ||
                   (StartsLoad(c, a, t) && t in d.channels && d.channels[t].activePayload == Some(n))))
            && d.rejoins == RejoinsAfter(c, net, a)
            && (t in d.channels ==> (d.channels[t].rejoinScheduled <==> ScheduledAfter(c, net, a, t)))
  {
    var turn := Act(c, net, a);
    ActRecord(c, net, a, t);
    AfterTurnRecord(turn, a, retry, t);
    EndedLoads(c, net, a, turn, Next(c, net, a, retry), t);
  }

  lemma EndedLoads(c: Client, net: Net, a: Action, turn: Turn, d: Client, t: Topic)
    requires Kept(c, a, turn.client) && turn.exit == Ending(c, net, a)
    requires t in d.channels <==> t in turn.client.channels
    requires t in d.channels ==> d.channels[t] == if turn.exit.Some? then Offline(turn.client.channels[t]) else turn.client.channels[t]
    requires d.payloads == (if turn.exit.Some? then {} else turn.client.payloads)
    requires d.rejoins == (if turn.exit.Some? then multiset{} else turn.client.rejoins)
    ensures t in d.channels ==>
              if Ending(c, net, a).Some? || t !in c.channels then d.channels[t].activePayload.None?
              else if StartsLoad(c, a, t) then d.channels[t].activePayload.Some? && d.channels[t].activePayload.value > c.nextPayload
              else d.channels[t].activePayload == if DropsLoad(c, a, t) then None else c.channels[t].activePayload
    ensures forall n: nat :: (t, n) in d.payloads <==>
              Ending(c, net, a).None? &&
              (((t, n) in c.payloads && !(a.LoadFinished? && a.topic == t && a.load == n)) ||
               (StartsLoad(c, a, t) && t in d.channels && d.channels[t].activePayload == Some(n)))
    ensures d.rejoins == RejoinsAfter(c, net, a)
    ensures t in d.channels ==> (d.channels[t].rejoinScheduled <==> ScheduledAfter(c, net, a, t))
  {
    if t in turn.client.channels { assert RecordAs(c, a, turn.client, t); }
  }
}
