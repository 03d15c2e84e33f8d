/** What the table means over runs: every answer has its cause, every request to join is
    served, and whatever is reported sent is on the wire. */
module DriverCauses {
  import opened Wire
  import P = ProtocolSpec
  import W = ProtocolFrames
  import opened DriverSpec
  import opened DriverBooks
  import opened DriverLedger
  import opened DriverFlow
  import opened DriverTable
  import B = DriverOutbox
  import V = DriverVerdicts
  import T = DriverRecords
  import N = DriverBookkeeping
  import L = DriverLeaves
  import K = DriverAnswers
  import M = DriverProgress
  import R = DriverRuns

  // ----- Runs follow the table -----

  /** The turn from `c` to `d` is the table's in every respect. */
  ghost predicate FollowsTable(c: Client, s: R.Step, d: Client) {
    FatesFollow(c, s, d) && RecordsFollow(c, s, d) && BooksFollow(c, s, d) && LeavesFollow(c, s, d)
  }

  ghost predicate FatesFollow(c: Client, s: R.Step, d: Client) {
    forall id :: FateIn(d.ledger, id) == FateAfter(c, s.net, s.action, id)
  }

  ghost predicate RecordsFollow(c: Client, s: R.Step, d: Client) {
    && d.channels.Keys == TopicsAfter(c, s.action)
    && (forall t :: t in d.channels ==> ChannelFollows(c, s, d, t))
    && d.rejoins == RejoinsAfter(c, s.net, s.action)
  }

  predicate ChannelFollows(c: Client, s: R.Step, d: Client, t: Topic)
    requires t in d.channels
  {
    && (d.channels[t].desired <==> DesiredAfter(c, s.action, t))
    && (d.channels[t].everJoined <==> EverJoinedAfter(c, s.action, t))
    && d.channels[t].status == StatusAfter(c, s.net, s.action, t)
    && (d.channels[t].rejoinScheduled <==> ScheduledAfter(c, s.net, s.action, t))
  }

  ghost predicate BooksFollow(c: Client, s: R.Step, d: Client) {
    && d.trace.wire == WireAfter(c, s.net, s.action)
    && d.phase == PhaseAfter(c, s.net, s.action, s.retry)
    && (forall t :: N.ChannelIn(d.books.proto, t) == N.ChannelAfter(c, s.net, s.action, t))
  }

  ghost predicate LeavesFollow(c: Client, s: R.Step, d: Client) {
    && (forall t :: L.DeferredIn(d, t) == L.DeferredAfter(c, s.net, s.action, t))
    && (forall r :: L.LeaveAt(d.books.pendingLeaves, r) == L.LeaveAfter(c, s.net, s.action, r))
  }

  lemma FatesFollowTable(c: Client, s: R.Step)
    requires R.Inv(c) && Enabled(c, s.action)
    ensures FatesFollow(c, s, Next(c, s.net, s.action, s.retry))
  {
    forall id ensures FateIn(Next(c, s.net, s.action, s.retry).ledger, id) == FateAfter(c, s.net, s.action, id) {
      V.NextIsJudged(c, s.net, s.action, s.retry, id);
    }
  }

  lemma ChannelFollowsTable(c: Client, s: R.Step, t: Topic)
    requires R.Inv(c) && Enabled(c, s.action)
    ensures var d := Next(c, s.net, s.action, s.retry);
            && (t in d.channels <==> t in TopicsAfter(c, s.action)) && (t in d.channels ==> ChannelFollows(c, s, d, t))
            && d.rejoins == RejoinsAfter(c, s.net, s.action)
  {
    T.NextTopics(c, s.net, s.action, s.retry, t);
    T.NextLoads(c, s.net, s.action, s.retry, t);
  }

  lemma RecordsFollowTable(c: Client, s: R.Step)
    requires R.Inv(c) && Enabled(c, s.action)
    ensures RecordsFollow(c, s, Next(c, s.net, s.action, s.retry))
  {
    var d := Next(c, s.net, s.action, s.retry);
    ChannelFollowsTable(c, s, "");
    forall t ensures (t in d.channels <==> t in TopicsAfter(c, s.action)) && (t in d.channels ==> ChannelFollows(c, s, d, t)) {
      ChannelFollowsTable(c, s, t);
    }
  }

  lemma BooksFollowTable(c: Client, s: R.Step)
    requires R.Inv(c) && Enabled(c, s.action)
    ensures BooksFollow(c, s, Next(c, s.net, s.action, s.retry))
  {
    var d := Next(c, s.net, s.action, s.retry);
    B.NextIsTabled(c, s.net, s.action, s.retry);
    forall t ensures N.ChannelIn(d.books.proto, t) == N.ChannelAfter(c, s.net, s.action, t) {
      N.NextIsBooked(c, s.net, s.action, s.retry, t);
    }
  }

  lemma LeavesFollowTable(c: Client, s: R.Step)
    requires R.Inv(c) && Enabled(c, s.action)
    ensures LeavesFollow(c, s, Next(c, s.net, s.action, s.retry))
  {
    var d := Next(c, s.net, s.action, s.retry);
    forall t ensures L.DeferredIn(d, t) == L.DeferredAfter(c, s.net, s.action, t) {
      L.NextIsTabled(c, s.net, s.action, s.retry, t, 0);
    }
    forall r ensures L.LeaveAt(d.books.pendingLeaves, r) == L.LeaveAfter(c, s.net, s.action, r) {
      L.NextIsTabled(c, s.net, s.action, s.retry, "", r);
    }
  }

  /** Every enabled turn of a reachable state does. */
  lemma TurnFollowsTable(c: Client, s: R.Step)
    requires R.Inv(c) && Enabled(c, s.action)
    ensures FollowsTable(c, s, Next(c, s.net, s.action, s.retry))
  {
    FatesFollowTable(c, s);
    RecordsFollowTable(c, s);
    BooksFollowTable(c, s);
    LeavesFollowTable(c, s);
  }

  lemma {:induction false} RunSplits(c: Client, before: seq<R.Step>, after: seq<R.Step>)
    ensures R.Run(c, before + after) == R.Run(R.Run(c, before), after)
    ensures R.AllEnabled(c, before + after) <==> R.AllEnabled(c, before) && R.AllEnabled(R.Run(c, before), after)
    decreases |before|
  {
    if before == [] {
      assert before + after == after;
    } else {
      assert (before + after)[1..] == before[1..] + after;
      RunSplits(Next(c, before[0].net, before[0].action, before[0].retry), before[1..], after);
    }
  }

  /** Over every run, each turn is the table's. */
  lemma {:induction false} RunFollowsTable(capacity: nat, connectOnStart: bool, before: seq<R.Step>, s: R.Step)
    requires R.AllEnabled(Start(capacity, connectOnStart), before + [s])
    ensures var c := R.Run(Start(capacity, connectOnStart), before);
            FollowsTable(c, s, R.Run(Start(capacity, connectOnStart), before + [s]))
  {
    var start := Start(capacity, connectOnStart);
    RunSplits(start, before, [s]);
    R.ReachableHolds(capacity, connectOnStart, before);
    var c := R.Run(start, before);
    assert [s][1..] == [] && R.Run(c, [s]) == Next(c, s.net, s.action, s.retry);
    TurnFollowsTable(c, s);
  }

  // ----- Every answer has its cause -----

  /** A frame that says the word to the pending request it names. */
  predicate SaysTo(c: Client, a: Action, word: string) {
    && a.FrameArrived? && a.frame.reference.Some?
    && W.Answers(c.books.proto, a.frame, a.frame.reference.value) && W.Worded(a.frame.payload, word)
  }

  /** The frame says the word to the join of the topic that is on the wire. */
  predicate SaysToJoin(c: Client, a: Action, word: string, t: Topic) {
    SaysTo(c, a, word) && c.books.proto.pending[a.frame.reference.value] == P.PendingJoin(t)
  }

  predicate SaysToRequest(c: Client, a: Action, word: string, r: Ref) {
    SaysTo(c, a, word) && a.frame.reference == Some(r)
  }

  predicate Carries(a: Action, response: Payload) {
    a.FrameArrived? && response == W.ResponseIn(a.frame.payload)
  }

  predicate WaitsAt(c: Client, id: ReqId, p: Place) {
    id in c.ledger && c.ledger[id] == At(p)
  }

  /** The topic of a waiting request, and the reference of a transmitted one. */
  function TopicOf(c: Client, id: ReqId): Option<Topic> {
    if id in c.ledger && c.ledger[id].At? && (c.ledger[id].place.Waiter? || c.ledger[id].place.Queue? || c.ledger[id].place.Deferred?)
    then Some(c.ledger[id].place.topic) else None
  }

  function RefOf(c: Client, id: ReqId): Option<Ref> {
    if id in c.ledger && c.ledger[id].At? && TopicOf(c, id).None? then Some(c.ledger[id].place.reference) else None
  }

  /** The caller or the server gives the topic up, in so many words. */
  predicate Quits(a: Action, t: Topic) {
    (a.DoLeave? && a.topic == t) || (a.DoUnregister? && a.topic == t) || (a.FrameArrived? && a.frame.event == "phx_close" && a.frame.topic == t)
  }

  predicate Asks(a: Action, id: ReqId) {
    NewRequest(a) == Some(id)
  }

  /** The push of the request is among the frames that the turn sends. */
  predicate SentIn(c: Client, s: R.Step, id: ReqId) {
    var out := Outbox(c, s.net.binary, s.action);
    exists k :: 0 <= k < |out| && k < s.net.budget && out[k].HandedPush? && out[k].id == id
  }

  predicate AsksBinary(c: Client, a: Action, id: ReqId) {
    || (a.DoPush? && a.id == id && a.payload.Binary?)
    || (exists t, i :: t in c.channels && 0 <= i < |c.channels[t].queued| &&
          c.channels[t].queued[i].id == id && c.channels[t].queued[i].payload.Binary?)
  }

  /** What a request to join hears of, and when. */
  predicate JoinCause(c: Client, s: R.Step, id: ReqId, answer: Answer) {
    var a, t := s.action, TopicOf(c, id);
    match answer
    case Accepted(response) => t.Some? && SaysToJoin(c, a, "ok", t.value) && Carries(a, response)
    case JoinRefused(response) => t.Some? && SaysToJoin(c, a, "error", t.value) && Carries(a, response)
    case Timeout(_) => t.Some? && JoinExpires(c, a, t.value)
    case LoaderFailed => t.Some? && LoadsWanted(c, a, t.value) && a.loaded.None?
    case UnknownTopic => a.DoJoin? && a.id == id && a.topic !in c.channels
    case AlreadyJoined => a.DoJoin? && a.id == id && Open(c, a.topic)
    case Interrupted(_) => t.Some? && Quits(a, t.value)
    case _ => false
  }

  predicate PushCause(c: Client, s: R.Step, id: ReqId, answer: Answer) {
    var a, t, r := s.action, TopicOf(c, id), RefOf(c, id);
    match answer
    case Replied(status, response) =>
      r.Some? && SaysToRequest(c, a, if status == P.StatusOk then "ok" else "error", r.value) && Carries(a, response)
    case Sent => SentIn(c, s, id)
    case BinaryNotSupported => !s.net.binary && AsksBinary(c, a, id)
    case ChannelNotJoined => a.DoPush? && a.id == id && a.topic in c.channels && c.channels[a.topic].everJoined && !c.channels[a.topic].desired
    case PushBufferFull => a.DoPush? && a.id == id && a.topic in c.channels && |c.channels[a.topic].queued| >= c.capacity
    case Interrupted(_) =>
      Ending(c, s.net, a).Some? || (t.Some? && Quits(a, t.value)) || (a.DoPush? && a.id == id && a.topic !in c.channels)
    case _ => false
  }

  predicate LeaveCause(c: Client, s: R.Step, id: ReqId, answer: Answer) {
    var a, t, r := s.action, TopicOf(c, id), RefOf(c, id);
    match answer
    case Accepted(response) =>
      || (a.DoLeave? && a.id == id && !Open(c, a.topic) && response == Json(Object(map[])))
      || (t.Some? && SaysToJoin(c, a, "error", t.value) && response == Json(Object(map[])))
      || (r.Some? && (SaysToRequest(c, a, "ok", r.value) || SaysToRequest(c, a, "error", r.value)) && Carries(a, response))
    case Timeout(_) =>
      || (t.Some? && JoinExpires(c, a, t.value))
      || (r.Some? && a.TimerDue? && a.timer.LeaveTimer? && a.timer.reference == r.value)
    case Interrupted(_) => Ending(c, s.net, a).Some? || (t.Some? && Quits(a, t.value))
    case _ => false
  }

  predicate PingCause(c: Client, s: R.Step, id: ReqId, answer: Answer) {
    var a, r := s.action, RefOf(c, id);
    match answer
    case Pong => r.Some? && (SaysToRequest(c, a, "ok", r.value) || SaysToRequest(c, a, "error", r.value))
    case SocketNotConnected => a == DoPing(id) && !c.phase.Connected?
    case Interrupted(_) => Ending(c, s.net, a).Some?
    case _ => false
  }

  /** What must be so, in the state `c` and the turn `s`, for the request to be answered so. */
  predicate Cause(c: Client, s: R.Step, id: ReqId, op: Operation, answer: Answer) {
    match op
    case JoinOp => JoinCause(c, s, id, answer)
    case LeaveOp => LeaveCause(c, s, id, answer)
    case PingOp => PingCause(c, s, id, answer)
    case _ => PushCause(c, s, id, answer)
  }

  /** What is heard was said in so many words. */
  lemma HeardWasSaid(c: Client, a: Action)
    requires Heard(c, a).Some?
    ensures match Heard(c, a).value
            case JoinAccepted(t, _, response) => SaysToJoin(c, a, "ok", t) && Carries(a, response)
            case JoinRejected(t, _, response) => SaysToJoin(c, a, "error", t) && Carries(a, response)
            case Left(_, r, response) => (SaysToRequest(c, a, "ok", r) || SaysToRequest(c, a, "error", r)) && Carries(a, response)
            case Replied(_, _, r, status, response) => SaysToRequest(c, a, if status == P.StatusOk then "ok" else "error", r) && Carries(a, response)
            case HeartbeatAck(r, _) => SaysToRequest(c, a, "ok", r) || SaysToRequest(c, a, "error", r)
            case ChannelClosed(t, _) => Quits(a, t)
            case _ => true
  {
    var v, f := c.books.proto, a.frame;
    if f.reference.Some? && W.Answers(v, f, f.reference.value) {
      var r := f.reference.value;
      match v.pending[r]
      case PendingJoin(t) => W.JoinReplyMeans(v, f, r, t);
      case PendingLeave(t) => W.LeaveReplyMeans(v, f, r, t);
      case _ => W.PushReplyMeans(v, f, r);
    } else {
      W.OtherFrameMeans(v, f);
    }
  }

  lemma GivingUpIsSaid(c: Client, a: Action, t: Topic)
    requires GivesUp(c, a, t)
    ensures Quits(a, t)
  {
    if HearsClosed(c, a, t) { HeardWasSaid(c, a); }
  }

  lemma JoinVerdictCause(c: Client, s: R.Step, id: ReqId, t: Topic)
    requires WaitsAt(c, id, Waiter(t)) && PendingVerdict(c, s.net, s.action, id, Waiter(t)).Answered?
    ensures JoinCause(c, s, id, PendingVerdict(c, s.net, s.action, id, Waiter(t)).answer)
  {
    if GivesUp(c, s.action, t) { GivingUpIsSaid(c, s.action, t); }
    if Heard(c, s.action).Some? { HeardWasSaid(c, s.action); }
  }

  lemma LeaveVerdictCause(c: Client, s: R.Step, id: ReqId, p: Place)
    requires WaitsAt(c, id, p) && (p.Deferred? || p.LeavingOn?) && PendingVerdict(c, s.net, s.action, id, p).Answered?
    ensures LeaveCause(c, s, id, PendingVerdict(c, s.net, s.action, id, p).answer)
  {
    if p.Deferred? && GivesUp(c, s.action, p.topic) { GivingUpIsSaid(c, s.action, p.topic); }
    if Heard(c, s.action).Some? { HeardWasSaid(c, s.action); }
  }

  lemma {:induction false} SendableAt(queued: seq<Push>, i: nat, binary: bool)
    requires i < |queued| && !(queued[i].payload.Binary? && !binary)
    ensures var all, ahead := Sendables(queued, binary), Sendables(queued[..i], binary);
            |ahead| < |all| && all[|ahead|] == queued[i]
    decreases i
  {
    if i > 0 {
      assert queued[..i][1..] == queued[1..][..i - 1];
      SendableAt(queued[1..], i - 1, binary);
    }
  }

  lemma QueueVerdictCause(c: Client, s: R.Step, id: ReqId, t: Topic)
    requires WaitsAt(c, id, Queue(t)) && PendingVerdict(c, s.net, s.action, id, Queue(t)).Answered?
    ensures PushCause(c, s, id, PendingVerdict(c, s.net, s.action, id, Queue(t)).answer)
  {
    var queued := c.channels[t].queued;
    var i := Position(queued, id);
    if i < |queued| && GivesUp(c, s.action, t) {
      GivingUpIsSaid(c, s.action, t);
    } else {
      FlushedCause(c, s, id, t, i);
    }
  }

  /** The queue of an accepted join: what it says of a push that is answered on the spot. */
  lemma FlushedCause(c: Client, s: R.Step, id: ReqId, t: Topic, i: nat)
    requires t in c.channels && i == Position(c.channels[t].queued, id)
    requires HearsAccepted(c, s.action, t) && c.channels[t].deferred.None?
    requires QueuedVerdict(t, c.channels[t].queued, id, s.net, c.books.proto.next).Answered?
    ensures PushCause(c, s, id, QueuedVerdict(t, c.channels[t].queued, id, s.net, c.books.proto.next).answer)
  {
    var queued, binary := c.channels[t].queued, s.net.binary;
    var out, all, ahead := Outbox(c, binary, s.action), Sendables(queued, binary), Sendables(queued[..i], binary);
    if !(queued[i].payload.Binary? && !binary) {
      SendableAt(queued, i, binary);
      assert |out| == |all| && out[|ahead|].HandedPush? && out[|ahead|].id == id;
    }
  }

  lemma CallVerdictCause(c: Client, s: R.Step, id: ReqId, r: Ref)
    requires WaitsAt(c, id, Calling(r)) && PendingVerdict(c, s.net, s.action, id, Calling(r)).Answered?
    ensures PushCause(c, s, id, PendingVerdict(c, s.net, s.action, id, Calling(r)).answer)
  {
    HeardWasSaid(c, s.action);
  }

  lemma PingVerdictCause(c: Client, s: R.Step, id: ReqId, r: Ref)
    requires WaitsAt(c, id, Pinging(r)) && PendingVerdict(c, s.net, s.action, id, Pinging(r)).Answered?
    ensures PingCause(c, s, id, PendingVerdict(c, s.net, s.action, id, Pinging(r)).answer)
  {
    HeardWasSaid(c, s.action);
  }

  /** A pending request that the turn answers has its cause there. */
  lemma PendingCause(c: Client, s: R.Step, id: ReqId, p: Place, op: Operation)
    requires WaitsAt(c, id, p) && K.Belongs(op, p) && PendingVerdict(c, s.net, s.action, id, p).Answered?
    ensures Cause(c, s, id, op, PendingVerdict(c, s.net, s.action, id, p).answer)
  {
    match p
    case Waiter(t) => JoinVerdictCause(c, s, id, t);
    case Queue(t) => QueueVerdictCause(c, s, id, t);
    case Deferred(_) => LeaveVerdictCause(c, s, id, p);
    case LeavingOn(_) => LeaveVerdictCause(c, s, id, p);
    case Calling(r) => CallVerdictCause(c, s, id, r);
    case Pinging(r) => PingVerdictCause(c, s, id, r);
  }

  function KindOf(a: Action): Operation
    requires NewRequest(a).Some?
  {
    match a
    case DoJoin(_, _) => JoinOp
    case DoPush(_, _, isCall, _, _) => OpOf(isCall)
    case DoLeave(_, _) => LeaveOp
    case DoPing(_) => PingOp
  }

  lemma FirstCause(c: Client, s: R.Step, id: ReqId)
    requires NewRequest(s.action) == Some(id) && FirstVerdict(c, s.net, s.action).Answered?
    ensures Cause(c, s, id, KindOf(s.action), FirstVerdict(c, s.net, s.action).answer)
  {
    var a := s.action;
    if a.DoPush? && Open(c, a.topic) {
      var p := Push(id, a.isCall, a.event, a.payload, c.trace.stamps);
      assert [p][1..] == [];
      if !(a.payload.Binary? && !s.net.binary) && !a.isCall && s.net.budget > 0 {
        var out := Outbox(c, s.net.binary, a);
        assert Sendables([p], s.net.binary) == [p];
        assert |out| == 1 && out[0].HandedPush? && out[0].id == id;
      }
      if FirstVerdict(c, s.net, a) == Answered(Interrupted(CastOp)) {
        assert Sendables([p], s.net.binary) == [p];
        assert |Outbox(c, s.net.binary, a)| == 1;
      }
    }
  }

  /** The container is one for requests of this kind; a call and a cast share the queue. */
  predicate Near(op: Operation, p: Place) {
    match p
    case Waiter(_) => op.JoinOp?
    case Deferred(_) => op.LeaveOp?
    case LeavingOn(_) => op.LeaveOp?
    case Pinging(_) => op.PingOp?
    case _ => op.CallOp? || op.CastOp?
  }

  /** What the end of the connection interrupts has that cause. */
  lemma LostCause(c: Client, s: R.Step, id: ReqId, op: Operation, f: Fate)
    requires Ending(c, s.net, s.action).Some? && f.At? && Lost(f).Answered? && Near(op, f.place)
    ensures Cause(c, s, id, op, Lost(f).answer)
  {}

  /** The kind of the request, and where it waited if it is an old one. */
  predicate KindIs(c: Client, a: Action, id: ReqId, op: Operation) {
    && (NewRequest(a) == Some(id) ==> op == KindOf(a))
    && (NewRequest(a) != Some(id) && id in c.ledger ==> K.FateFits(op, c.ledger[id]))
  }

  lemma VerdictIsNear(c: Client, s: R.Step, id: ReqId, op: Operation)
    requires KindIs(c, s.action, id, op) && Verdict(c, s.net, s.action, id).Some? && Verdict(c, s.net, s.action, id).value.At?
    ensures Near(op, Verdict(c, s.net, s.action, id).value.place)
  {}

  /** A request that the turn answers has its cause there. */
  lemma TurnCause(c: Client, s: R.Step, id: ReqId, op: Operation, answer: Answer)
    requires KindIs(c, s.action, id, op)
    requires FateAfter(c, s.net, s.action, id) == Some(Answered(answer)) && FateIn(c.ledger, id) != Some(Answered(answer))
    ensures Cause(c, s, id, op, answer)
  {
    var f := Verdict(c, s.net, s.action, id).value;
    if f.At? {
      VerdictIsNear(c, s, id, op);
      LostCause(c, s, id, op, f);
    } else if NewRequest(s.action) == Some(id) {
      FirstCause(c, s, id);
    } else {
      PendingCause(c, s, id, c.ledger[id].place, op);
    }
  }

  // ----- Causes over runs -----

  lemma {:induction false} KindsExtend(k: K.Kinds, before: seq<R.Step>, s: R.Step)
    ensures K.KindsOf(k, before + [s]) == K.Extend(K.KindsOf(k, before), s.action)
    decreases |before|
  {
    if before == [] {
      assert [] + [s] == [s] && [s][1..] == [];
    } else {
      assert (before + [s])[1..] == before[1..] + [s];
      KindsExtend(K.Extend(k, before[0].action), before[1..], s);
    }
  }

  /** In turn `i` of the run the request has the cause of its answer. */
  ghost predicate CausedAt(start: Client, steps: seq<R.Step>, i: nat, id: ReqId, op: Operation, answer: Answer)
    requires i < |steps|
  {
    Cause(R.Run(start, steps[..i]), steps[i], id, op, answer)
  }

  ghost predicate Caused(start: Client, steps: seq<R.Step>, id: ReqId, op: Operation, answer: Answer) {
    exists i :: 0 <= i < |steps| && CausedAt(start, steps, i, id, op, answer)
  }

  lemma {:induction false} CausedEarlier(start: Client, before: seq<R.Step>, s: R.Step, id: ReqId, op: Operation, answer: Answer)
    requires Caused(start, before, id, op, answer)
    ensures Caused(start, before + [s], id, op, answer)
  {
    var i :| 0 <= i < |before| && CausedAt(start, before, i, id, op, answer);
    assert (before + [s])[..i] == before[..i] && (before + [s])[i] == before[i];
    assert CausedAt(start, before + [s], i, id, op, answer);
  }

  lemma {:induction false} CausedLast(start: Client, before: seq<R.Step>, s: R.Step, id: ReqId, op: Operation, answer: Answer)
    requires Cause(R.Run(start, before), s, id, op, answer)
    ensures Caused(start, before + [s], id, op, answer)
  {
    assert (before + [s])[..|before|] == before;
    assert CausedAt(start, before + [s], |before|, id, op, answer);
  }

  lemma KindIsKept(k: K.Kinds, a: Action, id: ReqId)
    requires id in k && NewRequest(a) != Some(id)
    ensures id in K.Extend(k, a) && K.Extend(k, a)[id] == k[id]
  {}

  lemma KindIsNew(k: K.Kinds, a: Action, id: ReqId)
    requires NewRequest(a) == Some(id)
    ensures id in K.Extend(k, a) && K.Extend(k, a)[id] == KindOf(a)
  {}

  /** The last turn of a run, as the table has it, with the kinds of the requests. */
  lemma {:induction false} LastTurn(capacity: nat, connectOnStart: bool, before: seq<R.Step>, s: R.Step, id: ReqId)
    requires R.AllEnabled(Start(capacity, connectOnStart), before + [s])
    ensures var start := Start(capacity, connectOnStart);
            var c, k := R.Run(start, before), K.KindsOf(map[], before + [s]);
            && R.AllEnabled(start, before) && R.Inv(c) && Enabled(c, s.action)
            && FateIn(R.Run(start, before + [s]).ledger, id) == FateAfter(c, s.net, s.action, id)
            && k == K.Extend(K.KindsOf(map[], before), s.action)
            && (id in c.ledger ==> id in K.KindsOf(map[], before) && NewRequest(s.action) != Some(id))
            && (id in k ==> KindIs(c, s.action, id, k[id]))
  {
    var start := Start(capacity, connectOnStart);
    var c := R.Run(start, before);
    RunSplits(start, before, [s]);
    RunFollowsTable(capacity, connectOnStart, before, s);
    R.ReachableHolds(capacity, connectOnStart, before);
    KindsExtend(map[], before, s);
    if id in c.ledger {
      K.EveryAnswerFits(capacity, connectOnStart, before, id);
      KindIsKept(K.KindsOf(map[], before), s.action, id);
    } else if NewRequest(s.action) == Some(id) {
      KindIsNew(K.KindsOf(map[], before), s.action, id);
    }
  }

  /** Over every run: a request has been answered only as its own kind, its place and the
      turn that answered it allow. */
  lemma {:induction false} AnswersHaveCauses(capacity: nat, connectOnStart: bool, steps: seq<R.Step>, id: ReqId)
    requires R.AllEnabled(Start(capacity, connectOnStart), steps)
    requires FateIn(R.Run(Start(capacity, connectOnStart), steps).ledger, id).Some?
    requires R.Run(Start(capacity, connectOnStart), steps).ledger[id].Answered?
    ensures id in K.KindsOf(map[], steps)
    ensures Caused(Start(capacity, connectOnStart), steps, id, K.KindsOf(map[], steps)[id],
                   R.Run(Start(capacity, connectOnStart), steps).ledger[id].answer)
    decreases |steps|
  {
    var start, n := Start(capacity, connectOnStart), |steps| - 1;
    var before, s := steps[..n], steps[n];
    assert steps == before + [s];
    var answer := R.Run(start, steps).ledger[id].answer;
    LastTurn(capacity, connectOnStart, before, s, id);
    K.EveryAnswerFits(capacity, connectOnStart, steps, id);
    var op := K.KindsOf(map[], steps)[id];
    if FateIn(R.Run(start, before).ledger, id) == Some(Answered(answer)) {
      AnswersHaveCauses(capacity, connectOnStart, before, id);
      CausedEarlier(start, before, s, id, op, answer);
    } else {
      CausedInLast(capacity, connectOnStart, before, s, id, op, answer);
    }
  }

  lemma {:induction false} CausedInLast(capacity: nat, connectOnStart: bool, before: seq<R.Step>, s: R.Step, id: ReqId, op: Operation, answer: Answer)
    requires var c := R.Run(Start(capacity, connectOnStart), before);
             && FateAfter(c, s.net, s.action, id) == Some(Answered(answer)) && FateIn(c.ledger, id) != Some(Answered(answer))
             && KindIs(c, s.action, id, op)
    ensures Caused(Start(capacity, connectOnStart), before + [s], id, op, answer)
  {
    var start := Start(capacity, connectOnStart);
    TurnCause(R.Run(start, before), s, id, op, answer);
    CausedLast(start, before, s, id, op, answer);
  }

  // ----- Sent is sent -----

  ghost predicate OnWire(wire: seq<Handed>, id: ReqId) {
    exists h :: h in wire && h.HandedPush? && h.id == id
  }

  lemma SentReachesWire(c: Client, s: R.Step, id: ReqId)
    requires SentIn(c, s, id)
    ensures OnWire(WireAfter(c, s.net, s.action), id)
  {
    var out, wire := Outbox(c, s.net.binary, s.action), WireAfter(c, s.net, s.action);
    var k :| 0 <= k < |out| && k < s.net.budget && out[k].HandedPush? && out[k].id == id;
    assert wire[|c.trace.wire| + k] == out[k];
    assert out[k] in wire;
  }

  /** Over every run: a cast reported as sent is on the wire. */
  lemma {:induction false} SentIsOnWire(capacity: nat, connectOnStart: bool, steps: seq<R.Step>, id: ReqId)
    requires R.AllEnabled(Start(capacity, connectOnStart), steps)
    requires FateIn(R.Run(Start(capacity, connectOnStart), steps).ledger, id) == Some(Answered(Sent))
    ensures OnWire(R.Run(Start(capacity, connectOnStart), steps).trace.wire, id)
  {
    AnswersHaveCauses(capacity, connectOnStart, steps, id);
    var start, op := Start(capacity, connectOnStart), K.KindsOf(map[], steps)[id];
    var i :| 0 <= i < |steps| && CausedAt(start, steps, i, id, op, Sent);
    SentAt(capacity, connectOnStart, steps, i, id, op);
  }

  lemma {:induction false} SentAt(capacity: nat, connectOnStart: bool, steps: seq<R.Step>, i: nat, id: ReqId, op: Operation)
    requires R.AllEnabled(Start(capacity, connectOnStart), steps) && i < |steps|
    requires CausedAt(Start(capacity, connectOnStart), steps, i, id, op, Sent)
    ensures OnWire(R.Run(Start(capacity, connectOnStart), steps).trace.wire, id)
  {
    SentCause(Start(capacity, connectOnStart), steps, i, id, op);
    assert steps == (steps[..i] + [steps[i]]) + steps[i + 1..];
    SentStaysOnWire(capacity, connectOnStart, steps[..i], steps[i], steps[i + 1..], id);
  }

  lemma {:induction false} SentCause(start: Client, steps: seq<R.Step>, i: nat, id: ReqId, op: Operation)
    requires i < |steps| && CausedAt(start, steps, i, id, op, Sent)
    ensures SentIn(R.Run(start, steps[..i]), steps[i], id)
  {}

  lemma {:induction false} SentStaysOnWire(capacity: nat, connectOnStart: bool, before: seq<R.Step>, s: R.Step, after: seq<R.Step>, id: ReqId)
    requires R.AllEnabled(Start(capacity, connectOnStart), (before + [s]) + after)
    requires SentIn(R.Run(Start(capacity, connectOnStart), before), s, id)
    ensures OnWire(R.Run(Start(capacity, connectOnStart), (before + [s]) + after).trace.wire, id)
  {
    var start := Start(capacity, connectOnStart);
    RunSplits(start, before + [s], after);
    SentTurnReachesWire(capacity, connectOnStart, before, s, id);
    R.RunExtendsWire(R.Run(start, before + [s]), after);
    LongerWire(R.Run(start, before + [s]).trace.wire, R.Run(start, (before + [s]) + after).trace.wire, id);
  }

  lemma {:induction false} SentTurnReachesWire(capacity: nat, connectOnStart: bool, before: seq<R.Step>, s: R.Step, id: ReqId)
    requires R.AllEnabled(Start(capacity, connectOnStart), before + [s])
    requires SentIn(R.Run(Start(capacity, connectOnStart), before), s, id)
    ensures OnWire(R.Run(Start(capacity, connectOnStart), before + [s]).trace.wire, id)
  {
    RunFollowsTable(capacity, connectOnStart, before, s);
    SentReachesWire(R.Run(Start(capacity, connectOnStart), before), s, id);
  }

  lemma LongerWire(w: seq<Handed>, x: seq<Handed>, id: ReqId)
    requires w <= x && OnWire(w, id)
    ensures OnWire(x, id)
  {
    var h :| h in w && h.HandedPush? && h.id == id;
    assert h in x;
  }

  // ----- Every join that waits is wanted -----

  /** A topic with a join waiter is desired. */
  ghost predicate WaitersWanted(c: Client) {
    forall t :: t in c.channels && c.channels[t].waiters != {} ==> c.channels[t].desired
  }

  /** A request still waits for a join only if its topic is wanted. */
  lemma StillWaiting(c: Client, s: R.Step, t: Topic, id: ReqId)
    requires Conserved(c) && WaitersWanted(c)
    requires FateAfter(c, s.net, s.action, id) == Some(At(Waiter(t)))
    ensures DesiredAfter(c, s.action, t)
  {
    if NewRequest(s.action) != Some(id) {
      assert Holds(c, id, c.ledger[id].place);
      assert id in c.channels[t].waiters;
    }
  }

  lemma NextWantsWaiters(c: Client, s: R.Step)
    requires R.Inv(c) && WaitersWanted(c) && Enabled(c, s.action)
    ensures WaitersWanted(Next(c, s.net, s.action, s.retry))
  {
    var d := Next(c, s.net, s.action, s.retry);
    R.NextHolds(c, s);
    forall t | t in d.channels && d.channels[t].waiters != {} ensures d.channels[t].desired {
      var id :| id in d.channels[t].waiters;
      WaiterIsServed(c, s, t, id);
    }
  }

  lemma WaiterIsServed(c: Client, s: R.Step, t: Topic, id: ReqId)
    requires R.Inv(c) && WaitersWanted(c) && Enabled(c, s.action)
    requires var d := Next(c, s.net, s.action, s.retry); Conserved(d) && t in d.channels && id in d.channels[t].waiters
    ensures Next(c, s.net, s.action, s.retry).channels[t].desired
  {
    var d := Next(c, s.net, s.action, s.retry);
    assert Holds(d, id, Waiter(t));
    V.NextIsJudged(c, s.net, s.action, s.retry, id);
    StillWaiting(c, s, t, id);
    ChannelFollowsTable(c, s, t);
  }

  lemma {:induction false} RunWantsWaiters(c: Client, steps: seq<R.Step>)
    requires R.Inv(c) && WaitersWanted(c) && R.AllEnabled(c, steps)
    ensures WaitersWanted(R.Run(c, steps))
    decreases |steps|
  {
    if steps != [] {
      NextWantsWaiters(c, steps[0]);
      R.NextHolds(c, steps[0]);
      RunWantsWaiters(Next(c, steps[0].net, steps[0].action, steps[0].retry), steps[1..]);
    }
  }

  /** Over every run: whoever waits for a topic to be joined waits for a registered topic
      that is desired; connected, it is moving unless a join timeout has stranded it. */
  lemma {:induction false} WaitersAreServed(capacity: nat, connectOnStart: bool, steps: seq<R.Step>, id: ReqId, t: Topic)
    requires R.AllEnabled(Start(capacity, connectOnStart), steps)
    requires FateIn(R.Run(Start(capacity, connectOnStart), steps).ledger, id) == Some(At(Waiter(t)))
    ensures var c := R.Run(Start(capacity, connectOnStart), steps);
            && t in c.channels && id in c.channels[t].waiters && c.channels[t].desired
            && (c.phase.Connected? && R.NeverStrands(Start(capacity, connectOnStart), steps) ==> M.Unstuck(c, t))
  {
    var start := Start(capacity, connectOnStart);
    var c := R.Run(start, steps);
    R.StartHolds(capacity, connectOnStart);
    R.ReachableHolds(capacity, connectOnStart, steps);
    assert Holds(c, id, c.ledger[id].place);
    RunWantsWaiters(start, steps);
    if c.phase.Connected? && R.NeverStrands(start, steps) {
      R.NoStuckChannel(capacity, connectOnStart, steps, t);
    }
  }

  /** Asking to join a registered topic leaves it desired, in every phase of the driver and
      whatever the state of the topic; offline the request waits, as it does online unless
      the topic is joined. */
  lemma JoinIsRemembered(c: Client, net: Net, t: Topic, id: ReqId, retry: bool)
    requires R.Inv(c) && Enabled(c, DoJoin(t, id)) && t in c.channels
    ensures var d := Next(c, net, DoJoin(t, id), retry);
            && t in d.channels && d.channels[t].desired
            && FateIn(d.ledger, id) == Some(if Open(c, t) then Answered(AlreadyJoined) else At(Waiter(t)))
            && (c.phase.Connected? && !IsActive(c, t) ==> d.channels[t].activePayload.Some?)
  {
    var s := R.Step(net, DoJoin(t, id), retry);
    ChannelFollowsTable(c, s, t);
    V.NextIsJudged(c, net, s.action, retry, id);
    if c.phase.Connected? && !IsActive(c, t) { JoinLoads(c, s, t); }
  }

  /** A join of an inactive topic has a load on its way. */
  lemma JoinLoads(c: Client, s: R.Step, t: Topic)
    requires R.Inv(c) && Enabled(c, s.action) && s.action.DoJoin? && s.action.topic == t && t in c.channels
    requires c.phase.Connected? && !IsActive(c, t)
    ensures var d := Next(c, s.net, s.action, s.retry); t in d.channels && d.channels[t].activePayload.Some?
  {
    T.NextTopics(c, s.net, s.action, s.retry, t);
    T.NextLoads(c, s.net, s.action, s.retry, t);
  }

  /** When the connection comes up, every desired topic that is not active loads the
      payload of its join. */
  lemma ConnectingServesAll(c: Client, s: R.Step, t: Topic)
    requires R.Inv(c) && Enabled(c, s.action) && s.action.AttemptSucceeded? && t in c.channels && c.channels[t].desired
    ensures var d := Next(c, s.net, s.action, s.retry);
            && d.phase.Connected? && t in d.channels && d.channels[t].desired && d.channels[t].status == WaitingToJoin
            && (!IsActive(c, t) ==> d.channels[t].activePayload.Some? && (t, d.channels[t].activePayload.value) in d.payloads)
  {
    B.NextIsTabled(c, s.net, s.action, s.retry);
    ChannelFollowsTable(c, s, t);
    if !IsActive(c, t) { ConnectingLoads(c, s, t); }
  }

  lemma ConnectingLoads(c: Client, s: R.Step, t: Topic)
    requires R.Inv(c) && Enabled(c, s.action) && s.action.AttemptSucceeded? && t in c.channels && c.channels[t].desired
    requires !IsActive(c, t)
    ensures var d := Next(c, s.net, s.action, s.retry);
            t in d.channels && d.channels[t].activePayload.Some? && (t, d.channels[t].activePayload.value) in d.payloads
  {
    T.NextTopics(c, s.net, s.action, s.retry, t);
    T.NextLoads(c, s.net, s.action, s.retry, t);
  }

  // ----- The refused join -----

  /** What the refusal of the topic's join makes of a request. */
  function RefusedFate(c: Client, response: Payload, t: Topic, id: ReqId): Option<Fate> {
    if t in c.channels && id in c.channels[t].waiters then Some(Answered(JoinRefused(response)))
    else if t in c.channels && HeldLeave(c.channels[t].deferred, id) then Some(Answered(Accepted(Json(Object(map[])))))
    else FateIn(c.ledger, id)
  }

  /** A reply "error" to a join on the wire: the topic's waiters, and they alone, are told
      so with the server's response, a leave that waited for the join is done, and no other
      request is answered. Nothing is sent, and a wanted topic has a rejoin ahead. */
  lemma RefusalAnswersItsWaiters(c: Client, net: Net, f: Frame, retry: bool, t: Topic)
    requires R.Inv(c) && c.phase.Connected? && SaysToJoin(c, FrameArrived(f), "error", t)
    ensures var d := Next(c, net, FrameArrived(f), retry);
            && d.phase.Connected? && d.trace.wire == c.trace.wire
            && (forall id :: FateIn(d.ledger, id) == RefusedFate(c, W.ResponseIn(f.payload), t, id))
            && (t in c.channels && c.channels[t].desired ==> t in d.channels && d.channels[t].desired && d.channels[t].rejoinScheduled)
  {
    var s := R.Step(net, FrameArrived(f), retry);
    var d := Next(c, net, s.action, retry);
    B.NextIsTabled(c, net, s.action, retry);
    W.JoinReplyMeans(c.books.proto, f, f.reference.value, t);
    assert Heard(c, s.action) == Some(P.JoinRejected(t, f.reference.value, W.ResponseIn(f.payload)));
    assert Ending(c, net, s.action).None?;
    forall id ensures FateIn(d.ledger, id) == RefusedFate(c, W.ResponseIn(f.payload), t, id) {
      V.NextIsJudged(c, net, s.action, retry, id);
      RefusedFateIs(c, s, f, t, id);
    }
    if t in c.channels { ChannelFollowsTable(c, s, t); }
  }

  lemma RefusedFateIs(c: Client, s: R.Step, f: Frame, t: Topic, id: ReqId)
    requires Conserved(c) && s.action == FrameArrived(f)
    requires f.reference.Some? && Heard(c, s.action) == Some(P.JoinRejected(t, f.reference.value, W.ResponseIn(f.payload)))
    ensures FateAfter(c, s.net, s.action, id) == RefusedFate(c, W.ResponseIn(f.payload), t, id)
  {
    if t in c.channels {
      V.HeldWaiters(c, t, id);
      V.HeldDeferred(c, t, id);
    }
    if id in c.ledger && c.ledger[id].At? {
      assert Holds(c, id, c.ledger[id].place);
      RefusedPlaceIs(c, s, f, t, id, c.ledger[id].place);
    }
  }

  lemma RefusedPlaceIs(c: Client, s: R.Step, f: Frame, t: Topic, id: ReqId, p: Place)
    requires s.action == FrameArrived(f) && f.reference.Some?
    requires Heard(c, s.action) == Some(P.JoinRejected(t, f.reference.value, W.ResponseIn(f.payload)))
    ensures PendingVerdict(c, s.net, s.action, id, p) ==
            if p == Waiter(t) then Answered(JoinRefused(W.ResponseIn(f.payload)))
            else if p == Deferred(t) then Answered(Accepted(Json(Object(map[]))))
            else At(p)
  {}

  // ----- Accepted by the server -----

  /** Turn `i` brings a frame that says "ok" to the reference, and the connection it
      arrived on has not ended since. */
  ghost predicate SaidOk(start: Client, steps: seq<R.Step>, i: nat, r: Ref)
    requires i < |steps|
  {
    && steps[i].action.FrameArrived? && W.Acknowledges(steps[i].action.frame, r)
    && forall j :: i <= j < |steps| ==> Ending(R.Run(start, steps[..j]), steps[j].net, steps[j].action).None?
  }

  ghost predicate WasSaidOk(start: Client, steps: seq<R.Step>, r: Ref) {
    exists i :: 0 <= i < |steps| && SaidOk(start, steps, i, r)
  }

  lemma {:induction false} SaidBefore(start: Client, before: seq<R.Step>, s: R.Step, r: Ref)
    requires WasSaidOk(start, before, r) && Ending(R.Run(start, before), s.net, s.action).None?
    ensures WasSaidOk(start, before + [s], r)
  {
    var steps := before + [s];
    var i :| 0 <= i < |before| && SaidOk(start, before, i, r);
    assert steps[i] == before[i];
    forall j | i <= j < |steps| ensures Ending(R.Run(start, steps[..j]), steps[j].net, steps[j].action).None? {
      if j < |before| {
        assert steps[..j] == before[..j] && steps[j] == before[j];
      } else {
        assert steps[..j] == before;
      }
    }
    assert SaidOk(start, steps, i, r);
  }

  lemma {:induction false} SaidNow(start: Client, before: seq<R.Step>, s: R.Step, r: Ref)
    requires s.action.FrameArrived? && W.Acknowledges(s.action.frame, r)
    requires Ending(R.Run(start, before), s.net, s.action).None?
    ensures WasSaidOk(start, before + [s], r)
  {
    var steps := before + [s];
    assert steps[..|before|] == before;
    assert SaidOk(start, steps, |before|, r);
  }

  lemma {:induction false} AcceptedWasSaidOk(capacity: nat, connectOnStart: bool, steps: seq<R.Step>, r: Ref)
    requires R.AllEnabled(Start(capacity, connectOnStart), steps)
    requires r in R.Run(Start(capacity, connectOnStart), steps).trace.accepted
    ensures WasSaidOk(Start(capacity, connectOnStart), steps, r)
    decreases |steps|
  {
    var start, n := Start(capacity, connectOnStart), |steps| - 1;
    var before, s := steps[..n], steps[n];
    assert steps == before + [s] && [s][1..] == [];
    RunSplits(start, before, [s]);
    var c := R.Run(start, before);
    assert R.Run(c, [s]) == Next(c, s.net, s.action, s.retry);
    R.ReachableHolds(capacity, connectOnStart, before);
    NewlyAccepted(c, s, r);
    if r in c.trace.accepted {
      AcceptedWasSaidOk(capacity, connectOnStart, before, r);
      SaidBefore(start, before, s, r);
    } else {
      SaidNow(start, before, s, r);
    }
  }

  lemma NewlyAccepted(c: Client, s: R.Step, r: Ref)
    requires R.Inv(c) && Enabled(c, s.action) && r in Next(c, s.net, s.action, s.retry).trace.accepted
    ensures Ending(c, s.net, s.action).None?
    ensures r !in c.trace.accepted ==> s.action.FrameArrived? && W.Acknowledges(s.action.frame, r)
  {
    N.NextIsBooked(c, s.net, s.action, s.retry, "");
    if r !in c.trace.accepted {
      var event := Heard(c, s.action).value;
      W.AcceptedJoinSaysOk(c.books.proto, s.action.frame, event.topic, event.reference, event.response);
    }
  }

  /** Over every run: a topic is joined, and its calls and casts go out, only after a frame
      on this very connection has said "ok" to the join of its current generation. */
  lemma {:induction false} JoinedWasSaidOk(capacity: nat, connectOnStart: bool, steps: seq<R.Step>, t: Topic)
    requires R.AllEnabled(Start(capacity, connectOnStart), steps)
    ensures var c := R.Run(Start(capacity, connectOnStart), steps);
            P.IsJoined(c.books.proto, t) ==> WasSaidOk(Start(capacity, connectOnStart), steps, c.books.proto.channels[t].joinRef)
  {
    var c := R.Run(Start(capacity, connectOnStart), steps);
    R.ReachableHolds(capacity, connectOnStart, steps);
    assert TopicFlows(c, t);
    if P.IsJoined(c.books.proto, t) {
      AcceptedWasSaidOk(capacity, connectOnStart, steps, c.books.proto.channels[t].joinRef);
    }
  }

  // ----- Text transports -----

  /** In every turn of a run: a binary payload is handed over only to a transport that takes it. */
  lemma BinaryNeedsTransport(c: Client, s: R.Step, i: nat)
    requires R.Inv(c) && Enabled(c, s.action)
    ensures var w, x := c.trace.wire, Next(c, s.net, s.action, s.retry).trace.wire;
            |w| <= i < |x| && x[i].HandedPush? && x[i].frame.payload.Binary? ==> s.net.binary
  {
    B.NextIsTabled(c, s.net, s.action, s.retry);
    WireIsSendable(c, s, i);
  }

  lemma WireIsSendable(c: Client, s: R.Step, i: nat)
    ensures var w, x := c.trace.wire, WireAfter(c, s.net, s.action);
            |w| <= i < |x| && x[i].HandedPush? && x[i].frame.payload.Binary? ==> s.net.binary
  {
    var w, x := c.trace.wire, WireAfter(c, s.net, s.action);
    if |w| <= i < |x| && x[i].HandedPush? {
      GrownAt(w, Outbox(c, s.net.binary, s.action), Room(s.net), i);
      OutboxIsSendable(c, s, i - |w|);
    }
  }

  lemma GrownAt(w: seq<Handed>, out: seq<Handed>, room: nat, i: nat)
    requires |w| <= i < |w + out[..Min(|out|, room)]|
    ensures i - |w| < |out| && (w + out[..Min(|out|, room)])[i] == out[i - |w|]
  {}

  lemma {:induction false} SendablesAreSendable(queued: seq<Push>, binary: bool, i: nat)
    requires i < |Sendables(queued, binary)|
    ensures Sendables(queued, binary)[i].payload.Binary? ==> binary
    decreases |queued|
  {
    if queued[0].payload.Binary? && !binary {
      SendablesAreSendable(queued[1..], binary, i);
    } else if i > 0 {
      SendablesAreSendable(queued[1..], binary, i - 1);
    }
  }

  lemma OutboxIsSendable(c: Client, s: R.Step, i: nat)
    requires var out := Outbox(c, s.net.binary, s.action); i < |out| && out[i].HandedPush?
    ensures Outbox(c, s.net.binary, s.action)[i].frame.payload.Binary? ==> s.net.binary
  {
    match s.action
    case DoPush(t, id, isCall, event, payload) =>
      SendablesAreSendable([Push(id, isCall, event, payload, c.trace.stamps)], s.net.binary, i);
    case FrameArrived(_) =>
      SendablesAreSendable(c.channels[Heard(c, s.action).value.topic].queued, s.net.binary, i);
    case _ =>
  }
}
