/** What holds over every run of the managed client, however its requests, frames,
    timers, failures and reconnects interleave. */
module DriverRuns {
  import opened Wire
  import P = ProtocolSpec
  import L = ProtocolLaws
  import opened DriverSpec
  import opened DriverBooks
  import opened DriverFlow
  import opened DriverOffline
  import K = DriverLinks
  import G = DriverLedger
  import F = DriverFates
  import C = DriverConservation
  import O = DriverOrder
  import M = DriverProgress
  import D = DriverDeferral
  import J = DriverLoads

  datatype Step = Step(net: Net, action: Action, retry: bool)

  function Run(c: Client, steps: seq<Step>): Client
    decreases |steps|
  {
    if steps == [] then c else Run(Next(c, steps[0].net, steps[0].action, steps[0].retry), steps[1..])
  }

  ghost predicate AllEnabled(c: Client, steps: seq<Step>)
    decreases |steps|
  {
    steps == [] ||
    (Enabled(c, steps[0].action) && AllEnabled(Next(c, steps[0].net, steps[0].action, steps[0].retry), steps[1..]))
  }

  // ----- The invariant -----

  ghost predicate Inv(c: Client) {
    && K.Sound(c) && G.Conserved(c) && Flowing(c) && OfflineQuiet(c) && J.Fresh(c) && D.ClosedBySelf(c)
  }

  lemma StartHolds(capacity: nat, connectOnStart: bool)
    ensures Inv(Start(capacity, connectOnStart))
    ensures M.Moving(Start(capacity, connectOnStart)) && D.DeferralSettled(Start(capacity, connectOnStart))
  {
    var c := Start(capacity, connectOnStart);
    assert L.Coherent(c.books.proto) && L.Awaiting(c.books.proto);
    forall t ensures TopicFlows(c, t) {}
  }

  lemma PingsAreRegistered(c: Client)
    requires G.Conserved(c)
    ensures K.PingsRegistered(c)
  {
    forall id | id in c.ledger && c.ledger[id].At? && c.ledger[id].place.Pinging?
      ensures c.ledger[id].place.reference in c.books.pendingPings {
      assert G.Pending(c.ledger, id) && G.Holds(c, id, c.ledger[id].place);
    }
  }

  lemma OfflineIsNotJoined(c: Client)
    requires OfflineQuiet(c)
    ensures IsOffline(c.phase) ==> forall t :: !P.IsJoined(c.books.proto, t)
  {}

  /** Every turn keeps the invariant and asks nothing of the protocol that it refuses. */
  lemma NextHolds(c: Client, s: Step)
    requires Inv(c) && Enabled(c, s.action)
    ensures Inv(Next(c, s.net, s.action, s.retry))
    ensures Act(c, s.net, s.action).exit != Some(ProtocolMisused)
  {
    PingsAreRegistered(c);
    OfflineIsNotJoined(c);
    K.NextIsSound(c, s.net, s.action, s.retry);
    C.NextConserves(c, s.net, s.action, s.retry);
    assert c.phase.Stopped? ==> !Enabled(c, s.action);
    O.NextFlows(c, s.net, s.action, s.retry);
    NextIsQuiet(c, s.net, s.action, s.retry);
    J.NextIsFresh(c, s.net, s.action, s.retry);
    D.NextKeepsClosed(c, s.net, s.action, s.retry);
  }

  lemma {:induction false} RunHolds(c: Client, steps: seq<Step>)
    requires Inv(c) && AllEnabled(c, steps)
    ensures Inv(Run(c, steps))
    decreases |steps|
  {
    if steps != [] {
      NextHolds(c, steps[0]);
      RunHolds(Next(c, steps[0].net, steps[0].action, steps[0].retry), steps[1..]);
    }
  }

  /** The state of every run is one the invariant describes. */
  lemma ReachableHolds(capacity: nat, connectOnStart: bool, steps: seq<Step>)
    requires AllEnabled(Start(capacity, connectOnStart), steps)
    ensures Inv(Run(Start(capacity, connectOnStart), steps))
  {
    StartHolds(capacity, connectOnStart);
    RunHolds(Start(capacity, connectOnStart), steps);
  }

  // ----- The driver never misuses the protocol -----

  /** No turn of the run ends because the protocol refused the driver's own call. */
  ghost predicate NeverMisuses(c: Client, steps: seq<Step>)
    decreases |steps|
  {
    steps == [] ||
    (Act(c, steps[0].net, steps[0].action).exit != Some(ProtocolMisused) &&
     NeverMisuses(Next(c, steps[0].net, steps[0].action, steps[0].retry), steps[1..]))
  }

  lemma {:induction false} RunNeverMisuses(c: Client, steps: seq<Step>)
    requires Inv(c) && AllEnabled(c, steps)
    ensures NeverMisuses(c, steps)
    decreases |steps|
  {
    if steps != [] {
      NextHolds(c, steps[0]);
      RunNeverMisuses(Next(c, steps[0].net, steps[0].action, steps[0].retry), steps[1..]);
    }
  }

  // ----- Why a connection ends -----

  /** Sending ends a connection only through the codec or the transport. */
  predicate SendingExit(net: Net, exit: Option<Reason>) {
    exit.None? || exit == Some(TransportFailed) || (exit == Some(CodecFailed) && !net.encodes) || exit == Some(ProtocolMisused)
  }

  lemma PushExit(c: Client, net: Net, t: Topic, p: Push)
    ensures SendingExit(net, SendPush(c, net, t, p).exit)
  {
    if Unsendable(net, p) {
    } else if p.isCall {
    } else {
    }
  }

  lemma {:induction false} FlushExit(c: Client, net: Net, t: Topic)
    ensures SendingExit(net, Flush(c, net, t).exit)
    decreases if t in c.channels then |c.channels[t].queued| else 0
  {
    if t in c.channels && c.channels[t].queued != [] {
      var p := c.channels[t].queued[0];
      PushExit(PopQueue(c, t), net, t, p);
      var turn := SendPush(PopQueue(c, t), net, t, p);
      if turn.exit.None? { FlushExit(turn.client, Spend(net, p), t); }
    }
  }

  lemma LeaveExit(c: Client, net: Net, t: Topic, leave: PendingLeave)
    ensures SendingExit(net, StartLeave(c, net, t, leave).exit)
  {}

  lemma ReactExit(c: Client, net: Net, event: P.Event)
    ensures SendingExit(net, React(c, net, event).exit)
  {
    match event
    case JoinAccepted(t, r, response) =>
      FlushExit(MarkJoined(c, t, r, response), net, t);
      if t in c.channels && c.channels[t].deferred.Some? {
        LeaveExit(MarkJoined(c, t, r, response), net, t, c.channels[t].deferred.value);
      }
    case _ =>
  }

  lemma RequestExit(c: Client, net: Net, a: Action)
    requires IsRequest(a)
    ensures SendingExit(net, Act(c, net, a).exit)
  {
    match a
    case DoPush(t, id, isCall, event, payload) => PushExit(Stamp(c, t, id), net, t, Push(id, isCall, event, payload, c.trace.stamps));
    case DoLeave(t, id) => RequestLeaveExit(c, net, t, id);
    case _ =>
  }

  lemma RequestLeaveExit(c: Client, net: Net, t: Topic, id: ReqId)
    ensures SendingExit(net, RequestLeave(c, net, t, id).exit)
  {
    var state := P.StateOf(c.books.proto, t);
    var status := if c.phase.Connected? && (state == Some(P.Joined) || state == Some(P.Joining)) then Leaving else Left;
    LeaveExit(StopChannel(SetStatus(Enter(c, id, Deferred(t)), t, status), t), net, t, PendingLeave(id, true));
  }

  /** A protocol failure ends a connection exactly when a malformed reply arrived; the
      codec does only on an undecodable message or a frame it cannot encode. */
  lemma ProtocolExitsIff(c: Client, s: Step)
    requires Inv(c) && Enabled(c, s.action)
    ensures var exit := Act(c, s.net, s.action).exit;
            && exit != Some(ProtocolMisused)
            && (exit == Some(MalformedReply) <==> s.action.FrameArrived? && P.Receive(c.books.proto, s.action.frame).1.Err?)
            && (exit == Some(CodecFailed) ==> s.action.FrameUndecodable? || !s.net.encodes)
  {
    NextHolds(c, s);
    if IsRequest(s.action) {
      RequestExit(c, s.net, s.action);
    } else if s.action.FrameArrived? {
      var (proto, result) := P.Receive(c.books.proto, s.action.frame);
      if result.Ok? { ReactExit(c.(books := c.books.(proto := proto)), s.net, result.value); }
    } else {
      OtherExit(c, s.net, s.action);
    }
  }

  lemma OtherExit(c: Client, net: Net, a: Action)
    requires !IsRequest(a) && !a.FrameArrived?
    ensures var exit := Act(c, net, a).exit;
            exit != Some(MalformedReply) && (exit == Some(CodecFailed) ==> a.FrameUndecodable? || !net.encodes)
  {}

  // ----- Correlation -----

  /** The driver's entry, and timer, for a request the protocol waits on. A join whose
      topic has errored or closed meanwhile needs none. */
  predicate Covered(b: Books, r: Ref)
    requires r in b.proto.pending
  {
    match b.proto.pending[r]
    case PendingPush(t, _) => r in b.pendingCalls && b.pendingCalls[r].topic == t
    case PendingLeave(t) => r in b.pendingLeaves && LeaveTimer(t, r) in b.timers
    case PendingHeartbeat => (r in b.pendingPings) != (b.heartbeat == Some(r))
    case PendingJoin(t) =>
      P.StateOf(b.proto, t) == Some(P.Joining) ==>
        b.proto.channels[t].joinRef == r && r in b.pendingJoins && b.pendingJoins[r] == t && JoinTimer(t, r) in b.timers
  }

  /** Between turns, every request the protocol waits on has its own driver entry, and
      the heartbeats are exactly the pings and the loop's own. */
  lemma CorrelationCovers(capacity: nat, connectOnStart: bool, steps: seq<Step>)
    requires AllEnabled(Start(capacity, connectOnStart), steps)
    ensures var b := Run(Start(capacity, connectOnStart), steps).books;
            forall r :: r in b.proto.pending ==> Covered(b, r)
    ensures var b := Run(Start(capacity, connectOnStart), steps).books;
            && (forall r :: r in b.pendingPings ==> r in b.proto.pending && b.proto.pending[r].PendingHeartbeat?)
            && (b.heartbeat.Some? ==> b.heartbeat.value in b.proto.pending && b.proto.pending[b.heartbeat.value].PendingHeartbeat?)
  {
    ReachableHolds(capacity, connectOnStart, steps);
    var b := Run(Start(capacity, connectOnStart), steps).books;
    forall r | r in b.proto.pending && b.proto.pending[r].PendingJoin?
      ensures P.StateOf(b.proto, b.proto.pending[r].topic) == Some(P.Joining) ==> b.proto.channels[b.proto.pending[r].topic].joinRef == r {
      assert L.JoinBacked(b.proto, r, b.proto.pending[r].topic);
    }
    forall r | r in b.proto.pending ensures Covered(b, r) {
      assert Tracked(b, r);
    }
  }

  // ----- Responders -----

  /** Every accepted request is in exactly the container its fate names, or is held by
      none and was answered once or silenced. */
  lemma EveryRequestHasOneFate(capacity: nat, connectOnStart: bool, steps: seq<Step>, id: ReqId)
    requires AllEnabled(Start(capacity, connectOnStart), steps)
    requires id in Run(Start(capacity, connectOnStart), steps).ledger
    ensures var c := Run(Start(capacity, connectOnStart), steps);
            && c.ledger[id] != Twice
            && forall p :: G.Holds(c, id, p) <==> c.ledger[id] == At(p)
    ensures var c := Run(Start(capacity, connectOnStart), steps);
            IsOffline(c.phase) && c.ledger[id].At? ==> c.ledger[id].place.Waiter? || c.ledger[id].place.Queue?
  {
    ReachableHolds(capacity, connectOnStart, steps);
    var c := Run(Start(capacity, connectOnStart), steps);
    assert G.Pending(c.ledger, id) ==> G.Holds(c, id, c.ledger[id].place);
  }

  /** One turn changes no final fate, and silences a request only when it is that
      request's own cancel. */
  lemma NextSettles(c: Client, s: Step, id: ReqId)
    requires Inv(c) && Enabled(c, s.action) && id in c.ledger
    ensures var d := Next(c, s.net, s.action, s.retry);
            && id in d.ledger
            && (!c.ledger[id].At? ==> d.ledger[id] == c.ledger[id])
            && (d.ledger[id].Silenced? && !c.ledger[id].Silenced? ==> s.action == DoCancel(id))
  {
    var d := Next(c, s.net, s.action, s.retry);
    NextHolds(c, s);
    F.NextGrows(c, s.net, s.action, s.retry);
    if !s.action.DoCancel? {
      assert F.May(c.ledger[id], d.ledger[id]);
    }
  }

  /** Over a whole run a final fate stays, and only the request's own cancel silences it. */
  lemma {:induction false} FatesAreFinal(c: Client, steps: seq<Step>, id: ReqId)
    requires Inv(c) && AllEnabled(c, steps) && id in c.ledger
    ensures var d := Run(c, steps);
            && id in d.ledger
            && (!c.ledger[id].At? ==> d.ledger[id] == c.ledger[id])
            && (d.ledger[id].Silenced? && !c.ledger[id].Silenced? ==> exists s :: s in steps && s.action == DoCancel(id))
    decreases |steps|
  {
    if steps != [] {
      var d := Next(c, steps[0].net, steps[0].action, steps[0].retry);
      NextHolds(c, steps[0]);
      NextSettles(c, steps[0], id);
      FatesAreFinal(d, steps[1..], id);
      assert forall s :: s in steps[1..] ==> s in steps;
      if d.ledger[id].Silenced? && !c.ledger[id].Silenced? {
        assert steps[0] in steps;
      }
    }
  }

  // ----- The wire -----

  /** No call or cast is sent twice, each topic's go out in order of acceptance, every
      frame of a joined generation was sent on an accepted one, and every join carried
      its topic's latest payload load, which no other join carried. */
  lemma WireIsOrdered(capacity: nat, connectOnStart: bool, steps: seq<Step>)
    requires AllEnabled(Start(capacity, connectOnStart), steps)
    ensures var wire := Run(Start(capacity, connectOnStart), steps).trace.wire;
            && (forall i, j :: 0 <= i < j < |wire| && wire[i].HandedPush? && wire[j].HandedPush? ==>
                  wire[i].id != wire[j].id && (wire[i].topic == wire[j].topic ==> wire[i].stamp < wire[j].stamp))
            && (forall i :: 0 <= i < |wire| && (wire[i].HandedPush? || wire[i].HandedLeave?) ==> wire[i].backed)
            && (forall i :: 0 <= i < |wire| && wire[i].HandedJoin? ==> wire[i].latest)
            && (forall i, j :: 0 <= i < j < |wire| && wire[i].HandedJoin? && wire[j].HandedJoin? ==> wire[i].load != wire[j].load)
  {
    ReachableHolds(capacity, connectOnStart, steps);
  }

  lemma CapacityIsFixed(c: Client, s: Step)
    ensures Next(c, s.net, s.action, s.retry).capacity == c.capacity
  {
    ActKeepsCapacity(c, s.net, s.action);
  }

  lemma RequestKeepsCapacity(c: Client, net: Net, a: Action)
    requires IsRequest(a)
    ensures Act(c, net, a).client.capacity == c.capacity
  {
    match a
    case DoCancel(id) => CancelKeepsCapacity(c, id);
    case DoPush(t, id, isCall, event, payload) => PushKeepsCapacity(Stamp(c, t, id), net, t, Push(id, isCall, event, payload, c.trace.stamps));
    case DoLeave(t, id) => LeaveKeepsCapacity(c, net, t, id);
    case _ =>
  }

  lemma ActKeepsCapacity(c: Client, net: Net, a: Action)
    ensures Act(c, net, a).client.capacity == c.capacity
  {
    if IsRequest(a) {
      RequestKeepsCapacity(c, net, a);
    } else {
      match a
      case AttemptSucceeded(order) =>
        LoadAllKeepsCapacity(Opened(c), order);
      case FrameArrived(f) =>
        var (proto, result) := P.Receive(c.books.proto, f);
        if result.Ok? { ReactKeepsCapacity(c.(books := c.books.(proto := proto)), net, result.value); }
      case _ =>
    }
  }

  lemma CancelKeepsCapacity(c: Client, id: ReqId)
    ensures Cancel(c, id).capacity == c.capacity
  {}

  lemma PushKeepsCapacity(c: Client, net: Net, t: Topic, p: Push)
    ensures SendPush(c, net, t, p).client.capacity == c.capacity && Enqueue(c, t, p).capacity == c.capacity
  {}

  lemma {:induction false} FlushKeepsCapacity(c: Client, net: Net, t: Topic)
    ensures Flush(c, net, t).client.capacity == c.capacity
    decreases if t in c.channels then |c.channels[t].queued| else 0
  {
    if t in c.channels && c.channels[t].queued != [] {
      var p := c.channels[t].queued[0];
      PushKeepsCapacity(PopQueue(c, t), net, t, p);
      var turn := SendPush(PopQueue(c, t), net, t, p);
      if turn.exit.None? { FlushKeepsCapacity(turn.client, Spend(net, p), t); }
    }
  }

  lemma LeaveKeepsCapacity(c: Client, net: Net, t: Topic, id: ReqId)
    ensures RequestLeave(c, net, t, id).client.capacity == c.capacity
  {
    var state := P.StateOf(c.books.proto, t);
    var status := if c.phase.Connected? && (state == Some(P.Joined) || state == Some(P.Joining)) then Leaving else Left;
    var c2 := StopChannel(SetStatus(Enter(c, id, Deferred(t)), t, status), t);
    StartLeaveKeepsCapacity(c2, net, t, PendingLeave(id, true));
  }

  lemma StartLeaveKeepsCapacity(c: Client, net: Net, t: Topic, leave: PendingLeave)
    ensures StartLeave(c, net, t, leave).client.capacity == c.capacity
  {}

  lemma {:induction false} LoadAllKeepsCapacity(c: Client, order: seq<Topic>)
    ensures LoadAll(c, order).capacity == c.capacity
    decreases |order|
  {
    if order != [] { LoadAllKeepsCapacity(LoadPayload(SetStatus(c, order[0], WaitingToJoin), order[0]), order[1..]); }
  }

  lemma ReactKeepsCapacity(c: Client, net: Net, event: P.Event)
    ensures React(c, net, event).client.capacity == c.capacity
  {
    match event
    case JoinAccepted(t, r, response) =>
      FlushKeepsCapacity(MarkJoined(c, t, r, response), net, t);
      if t in c.channels && c.channels[t].deferred.Some? {
        StartLeaveKeepsCapacity(MarkJoined(c, t, r, response), net, t, c.channels[t].deferred.value);
      }
    case _ =>
  }

  lemma {:induction false} RunKeepsCapacity(c: Client, steps: seq<Step>)
    ensures Run(c, steps).capacity == c.capacity
    decreases |steps|
  {
    if steps != [] {
      CapacityIsFixed(c, steps[0]);
      RunKeepsCapacity(Next(c, steps[0].net, steps[0].action, steps[0].retry), steps[1..]);
    }
  }

  /** A joined topic has nothing queued, and no queue exceeds the configured capacity. */
  lemma QueuesAreBounded(capacity: nat, connectOnStart: bool, steps: seq<Step>, t: Topic)
    requires AllEnabled(Start(capacity, connectOnStart), steps)
    requires t in Run(Start(capacity, connectOnStart), steps).channels
    ensures var c := Run(Start(capacity, connectOnStart), steps);
            && |c.channels[t].queued| <= capacity
            && (P.IsJoined(c.books.proto, t) ==> c.channels[t].queued == [])
  {
    ReachableHolds(capacity, connectOnStart, steps);
    RunKeepsCapacity(Start(capacity, connectOnStart), steps);
    assert TopicFlows(Run(Start(capacity, connectOnStart), steps), t);
  }

  /** The status `Joined` is shown only for a topic whose current generation the server
      has accepted on this connection. */
  lemma JoinedStatusIsBacked(capacity: nat, connectOnStart: bool, steps: seq<Step>, t: Topic)
    requires AllEnabled(Start(capacity, connectOnStart), steps)
    ensures var c := Run(Start(capacity, connectOnStart), steps);
            t in c.channels && c.channels[t].status == Joined ==>
              P.IsJoined(c.books.proto, t) && c.books.proto.channels[t].joinRef in c.trace.accepted
  {
    ReachableHolds(capacity, connectOnStart, steps);
    assert TopicFlows(Run(Start(capacity, connectOnStart), steps), t);
  }

  // ----- Offline -----

  /** While offline nothing transmitted is outstanding. */
  lemma OfflineIsEmpty(capacity: nat, connectOnStart: bool, steps: seq<Step>)
    requires AllEnabled(Start(capacity, connectOnStart), steps)
    ensures var c := Run(Start(capacity, connectOnStart), steps);
            IsOffline(c.phase) ==>
              && c.books.proto.pending == map[] && c.books.pendingJoins == map[] && c.books.pendingCalls == map[]
              && c.books.pendingPings == map[] && c.books.pendingLeaves == map[] && c.books.heartbeat == None
              && c.books.timers == {} && c.payloads == {} && c.rejoins == multiset{}
  {
    ReachableHolds(capacity, connectOnStart, steps);
  }

  // ----- Payload loads -----

  /** A load that was abandoned is never sent, however the run continues. */
  lemma {:induction false} DeadLoadsAreNeverSent(c: Client, steps: seq<Step>, load: nat)
    requires J.Dead(c, load)
    ensures var d := Run(c, steps);
            && J.Dead(d, load) && |c.trace.wire| <= |d.trace.wire|
            && J.Unsent(d.trace.wire[|c.trace.wire|..], load)
    decreases |steps|
  {
    if steps != [] {
      var d := Next(c, steps[0].net, steps[0].action, steps[0].retry);
      var e := Run(d, steps[1..]);
      J.NextIsFresh(c, steps[0].net, steps[0].action, steps[0].retry);
      J.DeadStaysDead(c, d, load);
      DeadLoadsAreNeverSent(d, steps[1..], load);
      RunExtendsWire(d, steps[1..]);
      UnsentJoins(c.trace.wire, d.trace.wire, e.trace.wire, load);
    }
  }

  lemma {:induction false} RunExtendsWire(c: Client, steps: seq<Step>)
    ensures c.trace.wire <= Run(c, steps).trace.wire
    decreases |steps|
  {
    if steps != [] {
      var d := Next(c, steps[0].net, steps[0].action, steps[0].retry);
      J.NextIsFresh(c, steps[0].net, steps[0].action, steps[0].retry);
      RunExtendsWire(d, steps[1..]);
    }
  }

  lemma UnsentJoins(a: seq<Handed>, b: seq<Handed>, c: seq<Handed>, load: nat)
    requires |a| <= |b| && b <= c && J.Unsent(b[|a|..], load) && J.Unsent(c[|b|..], load)
    ensures J.Unsent(c[|a|..], load)
  {
    var rest := c[|a|..];
    forall i | 0 <= i < |rest| && rest[i].HandedJoin? ensures rest[i].load != load {
      if i < |b| - |a| {
        assert rest[i] == b[|a|..][i];
      } else {
        assert rest[i] == c[|b|..][i - (|b| - |a|)];
      }
    }
  }

  // ----- No stuck channel -----

  /** No turn of the run is a join timeout that strands its topic. */
  ghost predicate NeverStrands(c: Client, steps: seq<Step>)
    decreases |steps|
  {
    steps == [] ||
    (!M.Stranding(c, steps[0].action) &&
     NeverStrands(Next(c, steps[0].net, steps[0].action, steps[0].retry), steps[1..]))
  }

  /** Nothing is stuck in any state of the run. */
  ghost predicate NeverStuck(c: Client, steps: seq<Step>)
    decreases |steps|
  {
    M.NothingStuck(c) &&
    (steps == [] || NeverStuck(Next(c, steps[0].net, steps[0].action, steps[0].retry), steps[1..]))
  }

  /** One turn from a state in which everything moves sticks a topic exactly when it
      strands it. */
  lemma TurnSticksIff(c: Client, s: Step)
    requires Inv(c) && M.Moving(c) && Enabled(c, s.action)
    ensures M.NothingStuck(Next(c, s.net, s.action, s.retry)) <==> !M.Stranding(c, s.action)
  {
    NextHolds(c, s);
    M.NextMovesIff(c, s.net, s.action, s.retry);
    if !M.Stranding(c, s.action) {
      M.MovingIsNothingStuck(Next(c, s.net, s.action, s.retry));
    }
  }

  lemma {:induction false} RunKeepsMoving(c: Client, steps: seq<Step>)
    requires Inv(c) && M.Moving(c) && AllEnabled(c, steps) && NeverStrands(c, steps)
    ensures M.Moving(Run(c, steps))
    decreases |steps|
  {
    if steps != [] {
      NextHolds(c, steps[0]);
      M.NextMovesIff(c, steps[0].net, steps[0].action, steps[0].retry);
      RunKeepsMoving(Next(c, steps[0].net, steps[0].action, steps[0].retry), steps[1..]);
    }
  }

  lemma {:induction false} RunSticksIff(c: Client, steps: seq<Step>)
    requires Inv(c) && M.Moving(c) && AllEnabled(c, steps)
    ensures NeverStuck(c, steps) <==> NeverStrands(c, steps)
    decreases |steps|
  {
    M.MovingIsNothingStuck(c);
    if steps != [] {
      var d := Next(c, steps[0].net, steps[0].action, steps[0].retry);
      NextHolds(c, steps[0]);
      TurnSticksIff(c, steps[0]);
      if !M.Stranding(c, steps[0].action) {
        M.NextMovesIff(c, steps[0].net, steps[0].action, steps[0].retry);
        RunSticksIff(d, steps[1..]);
      }
    }
  }

  /** A run never has a stuck topic exactly when none of its join timeouts strands one. */
  lemma NeverStuckIff(capacity: nat, connectOnStart: bool, steps: seq<Step>)
    requires AllEnabled(Start(capacity, connectOnStart), steps)
    ensures NeverStuck(Start(capacity, connectOnStart), steps) <==> NeverStrands(Start(capacity, connectOnStart), steps)
  {
    StartHolds(capacity, connectOnStart);
    RunSticksIff(Start(capacity, connectOnStart), steps);
  }

  /** In every connected state of such a run, a desired topic is joined, is joining or
      leaving with its entry and timer, or has a payload load or rejoin timer outstanding. */
  lemma NoStuckChannel(capacity: nat, connectOnStart: bool, steps: seq<Step>, t: Topic)
    requires AllEnabled(Start(capacity, connectOnStart), steps)
    requires NeverStrands(Start(capacity, connectOnStart), steps)
    requires var c := Run(Start(capacity, connectOnStart), steps);
             c.phase.Connected? && t in c.channels && c.channels[t].desired
    ensures M.Unstuck(Run(Start(capacity, connectOnStart), steps), t)
  {
    StartHolds(capacity, connectOnStart);
    ReachableHolds(capacity, connectOnStart, steps);
    RunKeepsMoving(Start(capacity, connectOnStart), steps);
    M.MovingIsUnstuck(Run(Start(capacity, connectOnStart), steps), t);
  }

  /** No join is requested while a leave is deferred on its topic. */
  ghost predicate NeverRejoinsDeferred(c: Client, steps: seq<Step>)
    decreases |steps|
  {
    steps == [] ||
    (!D.Rejoins(c, steps[0].action) &&
     NeverRejoinsDeferred(Next(c, steps[0].net, steps[0].action, steps[0].retry), steps[1..]))
  }

  lemma {:induction false} SettledRunNeverStrands(c: Client, steps: seq<Step>)
    requires D.DeferralSettled(c) && NeverRejoinsDeferred(c, steps)
    ensures NeverStrands(c, steps)
    decreases |steps|
  {
    if steps != [] {
      D.SettledNeverStrands(c, steps[0].action);
      D.NextSettles(c, steps[0].net, steps[0].action, steps[0].retry);
      SettledRunNeverStrands(Next(c, steps[0].net, steps[0].action, steps[0].retry), steps[1..]);
    }
  }

  /** A caller who requests no join of a topic whose leave is deferred never sees one stuck. */
  lemma PatientCallersNeverStick(capacity: nat, connectOnStart: bool, steps: seq<Step>)
    requires AllEnabled(Start(capacity, connectOnStart), steps)
    requires NeverRejoinsDeferred(Start(capacity, connectOnStart), steps)
    ensures NeverStuck(Start(capacity, connectOnStart), steps)
  {
    StartHolds(capacity, connectOnStart);
    SettledRunNeverStrands(Start(capacity, connectOnStart), steps);
    NeverStuckIff(capacity, connectOnStart, steps);
  }
}
