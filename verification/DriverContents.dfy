/** What the frames say: every call or cast on the wire carries the event and payload of
    the request it was accepted as, under its topic's join generation. */
module DriverContents {
  import opened Wire
  import P = ProtocolSpec
  import opened DriverSpec
  import opened DriverBooks
  import A = DriverAnswers
  import R = DriverRuns

  /** A call or cast as its caller asked for it. */
  datatype Asked = Asked(topic: Topic, isCall: bool, event: string, payload: Payload)

  type Requests = map<ReqId, Asked>

  /** `h` carries the request: its topic, event and payload, on a join generation, with a
      reference exactly if it is a call. */
  predicate Delivers(h: Handed, a: Asked)
    requires h.HandedPush?
  {
    && h.topic == a.topic
    && h.frame.topic == a.topic && h.frame.event == a.event && h.frame.payload == a.payload
    && h.frame.joinRef.Some? && (h.frame.reference.Some? <==> a.isCall)
  }

  predicate Kept(k: Requests, t: Topic, p: Push) {
    p.id in k && k[p.id] == Asked(t, p.isCall, p.event, p.payload)
  }

  ghost predicate QueueKept(k: Requests, t: Topic, queued: seq<Push>) {
    forall p :: p in queued ==> Kept(k, t, p)
  }

  ghost predicate Delivered(k: Requests, wire: seq<Handed>) {
    forall i :: 0 <= i < |wire| && wire[i].HandedPush? ==> wire[i].id in k && Delivers(wire[i], k[wire[i].id])
  }

  ghost predicate Unaltered(k: Requests, c: Client) {
    Delivered(k, c.trace.wire) && forall t :: t in c.channels ==> QueueKept(k, t, c.channels[t].queued)
  }

  // ----- Operations that neither accept nor send a push -----

  ghost predicate NoPushSent(w: seq<Handed>, x: seq<Handed>) {
    |w| <= |x| && x[..|w|] == w && forall i :: |w| <= i < |x| ==> !x[i].HandedPush?
  }

  ghost predicate NoneQueued(c: Client, d: Client) {
    forall t, p :: t in d.channels && p in d.channels[t].queued ==> t in c.channels && p in c.channels[t].queued
  }

  ghost predicate Bystands(c: Client, d: Client) {
    NoneQueued(c, d) && NoPushSent(c.trace.wire, d.trace.wire)
  }

  lemma BystandsUnaltered(k: Requests, c: Client, d: Client)
    requires Unaltered(k, c) && Bystands(c, d)
    ensures Unaltered(k, d)
  {
    var w, x := c.trace.wire, d.trace.wire;
    forall i | 0 <= i < |x| && x[i].HandedPush? ensures x[i].id in k && Delivers(x[i], k[x[i].id]) {
      assert i < |w| && x[..|w|][i] == w[i];
    }
    forall t | t in d.channels ensures QueueKept(k, t, d.channels[t].queued) {
      forall p | p in d.channels[t].queued ensures Kept(k, t, p) {
        assert QueueKept(k, t, c.channels[t].queued);
      }
    }
  }

  lemma BystandsChain(c: Client, d: Client, e: Client)
    requires Bystands(c, d) && Bystands(d, e)
    ensures Bystands(c, e)
  {
    var w, x, y := c.trace.wire, d.trace.wire, e.trace.wire;
    assert y[..|w|] == y[..|x|][..|w|];
    forall i | |w| <= i < |y| ensures !y[i].HandedPush? {
      assert i < |x| ==> y[..|x|][i] == x[i];
    }
  }

  lemma FrameBystands(c: Client, net: Net, h: Handed)
    requires !h.HandedPush?
    ensures Bystands(c, SendFrame(c, net, h).client)
  {}

  lemma StopBystands(c: Client, t: Topic)
    ensures Bystands(c, StopChannel(c, t))
  {}

  lemma ForgetBystands(c: Client, t: Topic)
    ensures Bystands(c, Forget(c, t))
  {
    StopBystands(c, t);
  }

  lemma UnregisterBystands(c: Client, net: Net, t: Topic)
    ensures Bystands(c, Unregister(c, net, t).client)
  {
    ForgetBystands(c, t);
    if P.IsJoined(c.books.proto, t) {
      var c0 := c.(books := c.books.(proto := P.Leave(c.books.proto, t).0));
      ForgetBystands(c0, t);
      FrameBystands(Forget(c0, t), net, HandedLeave(t, GenerationAccepted(c, t)));
      BystandsChain(c, Forget(c0, t), Unregister(c, net, t).client);
    }
  }

  lemma LoadBystands(c: Client, t: Topic)
    ensures Bystands(c, LoadPayload(c, t))
  {}

  lemma ScheduleBystands(c: Client, t: Topic)
    ensures Bystands(c, ScheduleRejoin(c, t))
  {}

  lemma JoinBystands(c: Client, t: Topic, id: ReqId)
    ensures Bystands(c, RequestJoin(c, t, id))
  {
    if t in c.channels && c.phase.Connected? && !P.IsJoined(c.books.proto, t) {
      var rec := c.channels[t];
      var d := SetRecord(Enter(c, id, Waiter(t)), t, rec.(desired := true, status := WaitingToJoin, waiters := rec.waiters + {id}));
      LoadBystands(d, t);
      BystandsChain(c, d, RequestJoin(c, t, id));
    }
  }

  lemma StartLeaveBystands(c: Client, net: Net, t: Topic, leave: PendingLeave)
    ensures Bystands(c, StartLeave(c, net, t, leave).client)
  {
    var d := StartLeave(c, net, t, leave).client;
    assert d.channels == c.channels;
  }

  lemma LeaveBystands(c: Client, net: Net, t: Topic, id: ReqId)
    ensures Bystands(c, RequestLeave(c, net, t, id).client)
  {
    var state := P.StateOf(c.books.proto, t);
    var status := if c.phase.Connected? && (state == Some(P.Joined) || state == Some(P.Joining)) then Leaving else Left;
    var c1 := SetStatus(Enter(c, id, Deferred(t)), t, status);
    var c2 := StopChannel(c1, t);
    StopBystands(c1, t);
    BystandsChain(c, c1, c2);
    if c.phase.Connected? && state == Some(P.Joined) {
      StartLeaveBystands(c2, net, t, PendingLeave(id, true));
    }
    BystandsChain(c, c2, RequestLeave(c, net, t, id).client);
  }

  lemma PingBystands(c: Client, net: Net, id: ReqId)
    ensures Bystands(c, RequestPing(c, net, id).client)
  {}

  lemma {:induction false} WithoutIdHasNoMore(queued: seq<Push>, id: ReqId)
    ensures forall p :: p in WithoutId(queued, id) ==> p in queued
    decreases |queued|
  {
    if queued != [] {
      assert forall p :: p in queued[1..] ==> p in queued;
      WithoutIdHasNoMore(queued[1..], id);
    }
  }

  lemma CancelBystands(c: Client, id: ReqId)
    ensures Bystands(c, Cancel(c, id))
  {
    if id in c.ledger && c.ledger[id].At? && c.ledger[id].place.Queue? {
      var t := c.ledger[id].place.topic;
      if t in c.channels { WithoutIdHasNoMore(c.channels[t].queued, id); }
    }
  }

  lemma PayloadBystands(c: Client, net: Net, t: Topic, load: nat, loaded: Option<Value>)
    ensures Bystands(c, PayloadReady(c, net, t, load, loaded).client)
  {
    if t in c.channels && c.channels[t].activePayload == Some(load) && c.channels[t].desired && loaded.Some? && !P.Active(c.books.proto, t) {
      var c2 := SetRecord(c.(payloads := c.payloads - {(t, load)}), t, c.channels[t].(activePayload := None));
      StartJoinBystands(c2, net, t, load, loaded.value);
      BystandsChain(c, c2, PayloadReady(c, net, t, load, loaded).client);
    }
  }

  lemma StartJoinBystands(c: Client, net: Net, t: Topic, load: nat, params: Value)
    ensures Bystands(c, StartJoin(c, net, t, load, params).client)
  {}

  lemma RejoinBystands(c: Client, t: Topic)
    ensures Bystands(c, RejoinFired(c, t))
  {
    if t in c.channels && c.channels[t].desired {
      var c2 := SetRecord(c.(rejoins := c.rejoins - multiset{t}), t, c.channels[t].(rejoinScheduled := false));
      LoadBystands(c2, t);
      BystandsChain(c, c2, RejoinFired(c, t));
    }
  }

  lemma JoinTimeoutBystands(c: Client, t: Topic, r: Ref)
    ensures Bystands(c, JoinTimedOut(c, t, r))
  {
    if r in c.books.pendingJoins && c.books.pendingJoins[r] == t && t in c.channels && c.channels[t].deferred.None? && c.channels[t].desired {
      var c2 := c.(books := BookDiscard(BookJoinTimeout(c.books, t, r), t));
      var rec := c.channels[t].(activePayload := None);
      var d := SetRecord(c2, t, rec.(status := Errored, waiters := {})).(ledger := SettleAll(c.ledger, rec.waiters, Answered(Timeout(JoinOp))));
      ScheduleBystands(d, t);
      BystandsChain(c, d, JoinTimedOut(c, t, r));
    }
  }

  lemma LeaveTimeoutBystands(c: Client, t: Topic, r: Ref)
    ensures Bystands(c, LeaveTimedOut(c, t, r))
  {}

  lemma {:induction false} LoadAllBystands(c: Client, order: seq<Topic>)
    ensures Bystands(c, LoadAll(c, order))
    decreases |order|
  {
    if order != [] {
      var d := SetStatus(c, order[0], WaitingToJoin);
      LoadBystands(d, order[0]);
      BystandsChain(c, d, LoadPayload(d, order[0]));
      LoadAllBystands(LoadPayload(d, order[0]), order[1..]);
      BystandsChain(c, LoadPayload(d, order[0]), LoadAll(c, order));
    }
  }

  lemma ConnectBystands(c: Client, order: seq<Topic>)
    ensures Bystands(c, OnConnect(c, order))
  {
    LoadAllBystands(Opened(c), order);
    BystandsChain(c, Opened(c), OnConnect(c, order));
  }

  lemma DisconnectBystands(c: Client, phase: Phase)
    ensures Bystands(c, OnDisconnect(c, phase))
  {}

  // ----- Sending and accepting -----

  /** What is handed over for a request delivers it, on the generation `backed` is about. */
  lemma HandOverDelivers(c: Client, t: Topic, p: Push)
    requires P.IsJoined(c.books.proto, t)
    ensures var h := HandOver(c, t, p);
            && Delivers(h, Asked(t, p.isCall, p.event, p.payload))
            && h.frame.joinRef == Some(c.books.proto.channels[t].joinRef)
            && (h.backed <==> h.frame.joinRef.value in c.trace.accepted)
  {}

  /** Sending a push hands over nothing or the push itself. */
  lemma SendEffect(c: Client, net: Net, t: Topic, p: Push)
    requires P.IsJoined(c.books.proto, t)
    ensures var d := SendPush(c, net, t, p).client;
            && d.channels == c.channels
            && (d.trace.wire == c.trace.wire || d.trace.wire == c.trace.wire + [HandOver(c, t, p)])
            && P.IsJoined(d.books.proto, t)
  {
    if Unsendable(net, p) {
    } else if p.isCall {
    } else {
    }
  }

  lemma SendKeepsUnaltered(k: Requests, c: Client, net: Net, t: Topic, p: Push)
    requires Unaltered(k, c) && Kept(k, t, p) && P.IsJoined(c.books.proto, t)
    ensures Unaltered(k, SendPush(c, net, t, p).client)
    ensures P.IsJoined(SendPush(c, net, t, p).client.books.proto, t)
  {
    SendEffect(c, net, t, p);
    HandOverDelivers(c, t, p);
  }

  lemma {:induction false} FlushKeepsUnaltered(k: Requests, c: Client, net: Net, t: Topic)
    requires Unaltered(k, c) && P.IsJoined(c.books.proto, t)
    ensures Unaltered(k, Flush(c, net, t).client)
    decreases if t in c.channels then |c.channels[t].queued| else 0
  {
    if t in c.channels && c.channels[t].queued != [] {
      var queued, c1 := c.channels[t].queued, PopQueue(c, t);
      assert queued[0] in queued && forall p :: p in queued[1..] ==> p in queued;
      assert QueueKept(k, t, queued);
      BystandsUnaltered(k, c, c1);
      SendKeepsUnaltered(k, c1, net, t, queued[0]);
      var turn := SendPush(c1, net, t, queued[0]);
      if turn.exit.None? { FlushKeepsUnaltered(k, turn.client, Spend(net, queued[0]), t); }
    }
  }

  lemma EnqueueKeepsUnaltered(k: Requests, c: Client, t: Topic, p: Push)
    requires Unaltered(k, c) && Kept(k, t, p)
    ensures Unaltered(k, Enqueue(c, t, p))
  {
    var d := Enqueue(c, t, p);
    forall u | u in d.channels ensures QueueKept(k, u, d.channels[u].queued) {
      assert QueueKept(k, u, c.channels[u].queued);
    }
  }

  lemma MoreRequests(k: Requests, c: Client, id: ReqId, a: Asked)
    requires Unaltered(k, c) && id !in k
    ensures Unaltered(k[id := a], c)
  {
    forall t | t in c.channels ensures QueueKept(k[id := a], t, c.channels[t].queued) {
      assert QueueKept(k, t, c.channels[t].queued);
      forall p | p in c.channels[t].queued ensures Kept(k[id := a], t, p) { assert Kept(k, t, p); }
    }
  }

  lemma PushKeepsUnaltered(k: Requests, c: Client, net: Net, t: Topic, id: ReqId, isCall: bool, event: string, payload: Payload)
    requires Unaltered(k, c) && id !in k
    ensures Unaltered(k[id := Asked(t, isCall, event, payload)], RequestPush(c, net, t, id, isCall, event, payload).client)
  {
    var k1, p, c1 := k[id := Asked(t, isCall, event, payload)], Push(id, isCall, event, payload, c.trace.stamps), Stamp(c, t, id);
    MoreRequests(k, c, id, Asked(t, isCall, event, payload));
    BystandsUnaltered(k1, c, c1);
    if c.phase.Connected? && P.IsJoined(c.books.proto, t) {
      SendKeepsUnaltered(k1, c1, net, t, p);
    } else {
      EnqueueKeepsUnaltered(k1, c1, t, p);
    }
  }

  // ----- Incoming frames -----

  lemma OnJoinedKeepsUnaltered(k: Requests, c: Client, net: Net, t: Topic, r: Ref, response: Payload)
    requires Unaltered(k, c) && P.IsJoined(c.books.proto, t)
    ensures Unaltered(k, OnJoined(c, net, t, r, response).client)
  {
    var c1 := MarkJoined(c, t, r, response);
    BystandsUnaltered(k, c, c1);
    if t in c.channels && c.channels[t].deferred.Some? {
      StartLeaveBystands(c1, net, t, c.channels[t].deferred.value);
      BystandsUnaltered(k, c1, OnJoined(c, net, t, r, response).client);
    } else {
      FlushKeepsUnaltered(k, c1, net, t);
    }
  }

  lemma RejectedBystands(c: Client, t: Topic, r: Ref, response: Payload)
    ensures Bystands(c, OnJoinRejected(c, t, r, response))
  {}

  lemma LeftBystands(c: Client, t: Topic, r: Ref, response: Payload)
    ensures Bystands(c, OnLeft(c, t, r, response))
  {}

  lemma FailedBystands(c: Client, t: Topic)
    ensures var c1 := c.(books := BookDropJoins(c.books, t));
            Bystands(c, ScheduleRejoin(SetStatus(c1, t, Errored), t)) && Bystands(c, StopChannel(SetStatus(c1, t, Closed), t))
  {
    var c1 := SetStatus(c.(books := BookDropJoins(c.books, t)), t, Errored);
    ScheduleBystands(c1, t);
    BystandsChain(c, c1, ScheduleRejoin(c1, t));
    var c2 := SetStatus(c.(books := BookDropJoins(c.books, t)), t, Closed);
    StopBystands(c2, t);
    BystandsChain(c, c2, StopChannel(c2, t));
  }

  lemma ReactKeepsUnaltered(k: Requests, c: Client, net: Net, event: P.Event)
    requires Unaltered(k, c) && (event.JoinAccepted? ==> P.IsJoined(c.books.proto, event.topic))
    ensures Unaltered(k, React(c, net, event).client)
  {
    match event
    case JoinAccepted(t, r, response) => OnJoinedKeepsUnaltered(k, c, net, t, r, response);
    case JoinRejected(t, r, response) => RejectedBystands(c, t, r, response); BystandsUnaltered(k, c, OnJoinRejected(c, t, r, response));
    case Left(t, r, response) => LeftBystands(c, t, r, response); BystandsUnaltered(k, c, OnLeft(c, t, r, response));
    case ChannelFailed(t, _) => FailedBystands(c, t); BystandsUnaltered(k, c, React(c, net, event).client);
    case ChannelClosed(t, _) => FailedBystands(c, t); BystandsUnaltered(k, c, React(c, net, event).client);
    case _ => BystandsUnaltered(k, c, React(c, net, event).client);
  }

  lemma IncomingKeepsUnaltered(k: Requests, c: Client, net: Net, f: Frame)
    requires R.Inv(c) && Unaltered(k, c)
    ensures Unaltered(k, Incoming(c, net, f).client)
  {
    var (proto, result) := P.Receive(c.books.proto, f);
    var c1 := c.(books := c.books.(proto := proto));
    BystandsUnaltered(k, c, c1);
    if result.Ok? {
      if result.value.JoinAccepted? { AcceptedTopicIsJoined(c.books, f); }
      ReactKeepsUnaltered(k, c1, net, result.value);
    }
  }

  // ----- Turns -----

  function Extend(k: Requests, a: Action): Requests {
    if a.DoPush? then k[a.id := Asked(a.topic, a.isCall, a.event, a.payload)] else k
  }

  lemma RequestBystands(c: Client, net: Net, a: Action)
    requires IsRequest(a) && !a.DoPush?
    ensures Bystands(c, Act(c, net, a).client)
  {
    match a
    case DoRegister(_) =>
    case DoUnregister(t) => UnregisterBystands(c, net, t); ForgetBystands(c, t);
    case DoCancel(id) => CancelBystands(c, id);
    case DoJoin(t, id) => JoinBystands(c, t, id);
    case DoLeave(t, id) => LeaveBystands(c, net, t, id);
    case DoPing(id) => PingBystands(c, net, id);
  }

  lemma OtherBystands(c: Client, net: Net, a: Action)
    requires !IsRequest(a) && !a.FrameArrived?
    ensures Bystands(c, Act(c, net, a).client)
  {
    match a
    case AttemptSucceeded(order) => ConnectBystands(c, order);
    case LoadFinished(t, load, loaded) => PayloadBystands(c, net, t, load, loaded);
    case RejoinDue(t) => RejoinBystands(c, t);
    case TimerDue(JoinTimer(t, r)) => JoinTimeoutBystands(c, t, r);
    case TimerDue(LeaveTimer(t, r)) => LeaveTimeoutBystands(c, t, r);
    case _ =>
  }

  lemma ActKeepsUnaltered(k: Requests, c: Client, net: Net, a: Action)
    requires R.Inv(c) && Unaltered(k, c) && (a.DoPush? ==> a.id !in k)
    ensures Unaltered(Extend(k, a), Act(c, net, a).client)
  {
    if a.DoPush? {
      PushKeepsUnaltered(k, c, net, a.topic, a.id, a.isCall, a.event, a.payload);
    } else if a.FrameArrived? {
      IncomingKeepsUnaltered(k, c, net, a.frame);
    } else {
      if IsRequest(a) { RequestBystands(c, net, a); } else { OtherBystands(c, net, a); }
      BystandsUnaltered(k, c, Act(c, net, a).client);
    }
  }

  lemma NextKeepsUnaltered(k: Requests, c: Client, s: R.Step)
    requires R.Inv(c) && Unaltered(k, c) && (s.action.DoPush? ==> s.action.id !in k)
    ensures Unaltered(Extend(k, s.action), Next(c, s.net, s.action, s.retry))
  {
    var turn := Act(c, s.net, s.action);
    ActKeepsUnaltered(k, c, s.net, s.action);
    if turn.exit.Some? {
      DisconnectBystands(turn.client, Idle);
      DisconnectBystands(turn.client, Backoff);
    }
    BystandsUnaltered(Extend(k, s.action), turn.client, Next(c, s.net, s.action, s.retry));
  }

  // ----- Runs -----

  /** The calls and casts of a run, as they were asked for. */
  function RequestsOf(k: Requests, steps: seq<R.Step>): Requests
    decreases |steps|
  {
    if steps == [] then k else RequestsOf(Extend(k, steps[0].action), steps[1..])
  }

  lemma {:induction false} RunKeepsUnaltered(k: Requests, c: Client, steps: seq<R.Step>)
    requires R.Inv(c) && Unaltered(k, c) && k.Keys <= c.ledger.Keys && R.AllEnabled(c, steps)
    ensures Unaltered(RequestsOf(k, steps), R.Run(c, steps))
    decreases |steps|
  {
    if steps != [] {
      var d := Next(c, steps[0].net, steps[0].action, steps[0].retry);
      R.NextHolds(c, steps[0]);
      NextKeepsUnaltered(k, c, steps[0]);
      RequestsAreAccepted(k, c, steps[0]);
      RunKeepsUnaltered(Extend(k, steps[0].action), d, steps[1..]);
    }
  }

  lemma RequestsAreAccepted(k: Requests, c: Client, s: R.Step)
    requires R.Inv(c) && k.Keys <= c.ledger.Keys && Enabled(c, s.action)
    ensures Extend(k, s.action).Keys <= Next(c, s.net, s.action, s.retry).ledger.Keys
  {
    forall id | id in k ensures id in Next(c, s.net, s.action, s.retry).ledger {
      R.NextSettles(c, s, id);
    }
    if s.action.DoPush? {
      A.RequestEnters(c, s.net, s.action);
      A.LedgerStays(Act(c, s.net, s.action), s.action, s.retry);
    }
  }

  /** Over every run, with queues, rejoins and reconnects in between: a call or cast on the
      wire carries the topic, event and payload it was asked with, and a reference exactly
      if it is a call. */
  lemma WireCarriesRequests(capacity: nat, connectOnStart: bool, steps: seq<R.Step>)
    requires R.AllEnabled(Start(capacity, connectOnStart), steps)
    ensures var wire, k := R.Run(Start(capacity, connectOnStart), steps).trace.wire, RequestsOf(map[], steps);
            forall i :: 0 <= i < |wire| && wire[i].HandedPush? ==> wire[i].id in k && Delivers(wire[i], k[wire[i].id])
  {
    R.StartHolds(capacity, connectOnStart);
    RunKeepsUnaltered(map[], Start(capacity, connectOnStart), steps);
  }
}
