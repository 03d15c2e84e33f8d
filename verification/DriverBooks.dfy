/** The driver's books agree with the embedded protocol: every pending request of the
    protocol has the driver entry, and the timer, that will resolve it. */
module DriverBooks {
  import opened Wire
  import P = ProtocolSpec
  import L = ProtocolLaws
  import opened DriverSpec

  predicate TrackedPush(b: Books, r: Ref, t: Topic) {
    r in b.pendingCalls && b.pendingCalls[r].topic == t
  }

  predicate TrackedLeave(b: Books, r: Ref, t: Topic) {
    r in b.pendingLeaves && LeaveTimer(t, r) in b.timers
  }

  predicate TrackedJoin(b: Books, r: Ref, t: Topic) {
    r in b.pendingJoins && b.pendingJoins[r] == t && JoinTimer(t, r) in b.timers
  }

  /** The driver's entry for a request the protocol is waiting on. A join whose topic
      has errored or closed meanwhile needs none. */
  predicate Tracked(b: Books, r: Ref)
    requires r in b.proto.pending
  {
    match b.proto.pending[r]
    case PendingPush(t, _) => TrackedPush(b, r, t)
    case PendingLeave(t) => TrackedLeave(b, r, t)
    case PendingJoin(t) => P.StateOf(b.proto, t) == Some(P.Joining) ==> TrackedJoin(b, r, t)
    case PendingHeartbeat => r in b.pendingPings || b.heartbeat == Some(r)
  }

  predicate Beating(b: Books, r: Ref) {
    r in b.proto.pending && b.proto.pending[r].PendingHeartbeat?
  }

  /** The pending heartbeats are the pings and the loop's own heartbeat, disjointly. */
  ghost predicate HeartbeatsMatch(b: Books) {
    && (forall r :: r in b.pendingPings ==> Beating(b, r) && b.heartbeat != Some(r))
    && (b.heartbeat.Some? ==> Beating(b, b.heartbeat.value))
  }

  /** A timer names the request it was started for. */
  predicate OwnTimer(b: Books, timer: Timer) {
    && timer.reference <= b.proto.next
    && (timer.reference in b.proto.pending ==>
          b.proto.pending[timer.reference] ==
          if timer.JoinTimer? then P.PendingJoin(timer.topic) else P.PendingLeave(timer.topic))
    && (timer.JoinTimer? && timer.reference in b.pendingJoins ==> b.pendingJoins[timer.reference] == timer.topic)
  }

  ghost predicate Correlated(b: Books) {
    && (forall r :: r in b.proto.pending ==> Tracked(b, r))
    && HeartbeatsMatch(b)
    && (forall timer :: timer in b.timers ==> OwnTimer(b, timer))
    && (forall r :: r in b.pendingCalls ==> r <= b.proto.next)
    && (forall r :: r in b.pendingLeaves ==> r <= b.proto.next)
  }

  ghost predicate Linked(b: Books) {
    L.Coherent(b.proto) && L.Awaiting(b.proto) && Correlated(b)
  }

  // ----- New requests -----

  lemma CallStaysLinked(b: Books, t: Topic, p: Push)
    requires Linked(b) && P.IsJoined(b.proto, t)
    ensures var (d, result) := BookCall(b, t, p);
            result == Ok(b.proto.next + 1) && Linked(d) && d.proto.channels == b.proto.channels
  {
    var d := BookCall(b, t, p).0;
    PushKeepsBoth(b.proto, t, p.event, p.payload);
    CallIsOneMore(b, t, p);
    NewRequestTracked(b, d);
  }

  /** The next reference is not in use. */
  ghost predicate Unused(b: Books) {
    && (forall r :: r in b.proto.pending ==> r <= b.proto.next)
    && (forall r :: r in b.pendingPings ==> r in b.proto.pending)
    && (b.heartbeat.Some? ==> b.heartbeat.value in b.proto.pending)
  }

  lemma PushKeepsBoth(v: P.View, t: Topic, event: string, payload: Payload)
    requires L.Coherent(v) && L.Awaiting(v)
    ensures L.Coherent(P.Push(v, t, event, payload).0) && L.Awaiting(P.Push(v, t, event, payload).0)
  {
    L.OthersKeepCoherence(v, P.Push(v, t, event, payload).0);
    L.OthersKeepAwaiting(v, P.Push(v, t, event, payload).0);
  }

  lemma CallIsOneMore(b: Books, t: Topic, p: Push)
    requires P.IsJoined(b.proto, t) && Unused(b)
    ensures OneMore(b, BookCall(b, t, p).0)
  {}

  lemma LeaveStaysLinked(b: Books, t: Topic, leave: PendingLeave)
    requires Linked(b) && P.IsJoined(b.proto, t)
    ensures var (d, result) := BookLeave(b, t, leave);
            result == Ok(b.proto.next + 1) && Linked(d) && d.proto.channels.Keys == b.proto.channels.Keys
  {
    var d := BookLeave(b, t, leave).0;
    L.LeaveKeepsCoherence(b.proto, t);
    L.LeaveKeepsAwaiting(b.proto, t);
    LeaveIsOneMore(b, t, leave);
    NewRequestTracked(b, d);
  }

  lemma LeaveIsOneMore(b: Books, t: Topic, leave: PendingLeave)
    requires P.IsJoined(b.proto, t) && Unused(b)
    ensures OneMore(b, BookLeave(b, t, leave).0)
  {}

  lemma PingStaysLinked(b: Books, id: ReqId)
    requires Linked(b)
    ensures Linked(BookPing(b, id))
  {
    BeatKeepsBoth(b.proto);
    PingIsOneMore(b, id);
    NewRequestTracked(b, BookPing(b, id));
  }

  lemma PingIsOneMore(b: Books, id: ReqId)
    requires Unused(b)
    ensures OneMore(b, BookPing(b, id))
  {}

  lemma BeatKeepsBoth(v: P.View)
    requires L.Coherent(v) && L.Awaiting(v)
    ensures L.Coherent(P.Beat(v).0) && L.Awaiting(P.Beat(v).0)
  {
    L.OthersKeepCoherence(v, P.Beat(v).0);
    L.OthersKeepAwaiting(v, P.Beat(v).0);
  }

  lemma HeartbeatStaysLinked(b: Books)
    requires Linked(b) && b.heartbeat.None?
    ensures Linked(BookHeartbeat(b))
  {
    BeatKeepsBoth(b.proto);
    HeartbeatIsOneMore(b);
    NewRequestTracked(b, BookHeartbeat(b));
  }

  lemma HeartbeatIsOneMore(b: Books)
    requires Unused(b) && b.heartbeat.None?
    ensures OneMore(b, BookHeartbeat(b))
  {}

  /** `d` keeps the entries of `b` and tracks the newest request. */
  ghost predicate OneMore(b: Books, d: Books) {
    && d.proto.next == b.proto.next + 1 && d.proto.next in d.proto.pending && Tracked(d, d.proto.next)
    && (forall s :: s in d.proto.pending && s != d.proto.next ==> s in b.proto.pending && Carried(b, d, s))
    && (forall s :: s in d.pendingPings ==> s in b.pendingPings || s == d.proto.next)
    && (d.heartbeat == b.heartbeat || (d.heartbeat == Some(d.proto.next) && d.pendingPings == b.pendingPings))
    && (forall s :: s in d.pendingPings && s == d.proto.next ==> Beating(d, s))
    && (d.heartbeat == Some(d.proto.next) ==> Beating(d, d.proto.next))
    && (forall s :: Beating(b, s) ==> Beating(d, s))
    && (forall timer :: timer in d.timers ==> timer in b.timers || (timer.reference == d.proto.next && OwnTimer(d, timer)))
    && (forall s :: s in d.pendingJoins && s != d.proto.next ==> s in b.pendingJoins && d.pendingJoins[s] == b.pendingJoins[s])
    && d.pendingCalls.Keys <= b.pendingCalls.Keys + {d.proto.next}
    && d.pendingLeaves.Keys <= b.pendingLeaves.Keys + {d.proto.next}
  }

  lemma NewRequestTracked(b: Books, d: Books)
    requires Linked(b) && L.Coherent(d.proto) && L.Awaiting(d.proto) && OneMore(b, d)
    ensures Linked(d)
  {
    forall s | s in d.proto.pending ensures Tracked(d, s) {
      assert s != d.proto.next ==> Tracked(b, s);
    }
    forall timer | timer in d.timers ensures OwnTimer(d, timer) {
      assert timer in b.timers ==> OwnTimer(b, timer);
    }
    assert forall s :: s in b.pendingPings ==> Beating(b, s);
  }

  /** A request of `b` that `d` still has, with its entry and, for a join, no newly
      joining topic. */
  predicate Carried(b: Books, d: Books, s: Ref)
    requires s in d.proto.pending && s in b.proto.pending
  {
    && d.proto.pending[s] == b.proto.pending[s]
    && (Tracked(b, s) ==> Tracked(d, s))
  }

  lemma FreshJoinStaysLinked(b: Books, t: Topic, params: Value)
    requires Linked(b) && t !in b.proto.channels
    ensures Linked(BookJoin(b, t, params).0)
  {
    var d := BookJoin(b, t, params).0;
    L.JoinKeepsCoherence(b.proto, t, params);
    L.RejoinKeepsAwaiting(b.proto, t, params);
    var r := b.proto.next + 1;
    forall s | s in d.proto.pending ensures Tracked(d, s) {
      if s != r {
        assert Tracked(b, s) && d.proto.pending[s] == b.proto.pending[s];
        if d.proto.pending[s].PendingJoin? {
          assert L.JoinBacked(b.proto, s, d.proto.pending[s].topic);
        }
      }
    }
    forall timer | timer in d.timers ensures OwnTimer(d, timer) {
      assert timer in b.timers ==> OwnTimer(b, timer);
    }
    assert forall s :: Beating(b, s) ==> Beating(d, s);
  }

  /** A join, or a rejoin that first discards what is left of the topic. */
  lemma JoinStaysLinked(b: Books, t: Topic, params: Value)
    requires Linked(b) && !P.Active(b.proto, t)
    ensures var (d, ok) := BookJoin(b, t, params);
            ok && Linked(d) && d.proto.channels.Keys == b.proto.channels.Keys + {t}
  {
    if t in b.proto.channels {
      DiscardStaysLinked(b, t);
      FreshJoinStaysLinked(BookDiscard(b, t), t, params);
      assert BookJoin(b, t, params).0 == BookJoin(BookDiscard(b, t), t, params).0;
    } else {
      FreshJoinStaysLinked(b, t, params);
    }
  }

  // ----- Fewer requests -----

  /** A smaller protocol whose remaining requests carry their entries over. */
  lemma FewerRequestsTracked(b: Books, d: Books)
    requires Linked(b) && L.Coherent(d.proto) && L.Awaiting(d.proto)
    requires b.proto.next <= d.proto.next
    requires forall s :: s in d.proto.pending ==> s in b.proto.pending && Carried(b, d, s)
    requires HeartbeatsMatch(d) && d.timers <= b.timers
    requires forall s :: s in d.pendingJoins ==> s in b.pendingJoins && d.pendingJoins[s] == b.pendingJoins[s]
    requires d.pendingCalls.Keys <= b.pendingCalls.Keys
    requires d.pendingLeaves.Keys <= b.pendingLeaves.Keys
    ensures Linked(d)
  {
    forall s | s in d.proto.pending ensures Tracked(d, s) {
      assert Tracked(b, s);
    }
    forall timer | timer in d.timers ensures OwnTimer(d, timer) {
      assert OwnTimer(b, timer);
    }
  }

  /** `d` has lost topic `t` from the protocol and at most entries of `t`. */
  ghost predicate TopicDropped(b: Books, d: Books, t: Topic) {
    && d.proto == P.Discard(b.proto, t)
    && d.pendingCalls == b.pendingCalls && d.pendingPings == b.pendingPings && d.heartbeat == b.heartbeat
    && d.timers <= b.timers
    && (forall timer :: timer in b.timers && timer.topic != t ==> timer in d.timers)
    && (forall r :: r in d.pendingJoins ==> r in b.pendingJoins && d.pendingJoins[r] == b.pendingJoins[r])
    && (forall r :: r in b.pendingJoins && r in d.proto.pending && b.pendingJoins[r] != t ==> r in d.pendingJoins)
    && d.pendingLeaves.Keys <= b.pendingLeaves.Keys
    && (forall r :: r in b.pendingLeaves && r in d.proto.pending ==> r in d.pendingLeaves)
  }

  lemma DropTopicStaysLinked(b: Books, d: Books, t: Topic)
    requires Linked(b) && TopicDropped(b, d, t)
    ensures Linked(d)
  {
    L.DiscardKeepsCoherence(b.proto, t);
    L.DiscardKeepsAwaiting(b.proto, t);
    forall s | s in d.proto.pending ensures Tracked(d, s) {
      assert b.proto.pending[s] == d.proto.pending[s] && Tracked(b, s);
    }
    forall timer | timer in d.timers ensures OwnTimer(d, timer) {
      assert OwnTimer(b, timer);
    }
    assert forall s :: Beating(b, s) ==> Beating(d, s);
  }

  lemma DiscardStaysLinked(b: Books, t: Topic)
    requires Linked(b)
    ensures Linked(BookDiscard(b, t))
  {
    DropTopicStaysLinked(b, BookDiscard(b, t), t);
  }

  lemma DropAndDiscardStaysLinked(b: Books, t: Topic)
    requires Linked(b)
    ensures Linked(BookDiscard(BookDropJoins(b, t), t))
  {
    DropTopicStaysLinked(b, BookDiscard(BookDropJoins(b, t), t), t);
  }

  /** A join timeout that finds its entry discards the topic. */
  lemma JoinTimeoutStaysLinked(b: Books, t: Topic, r: Ref)
    requires Linked(b) && r in b.pendingJoins && b.pendingJoins[r] == t
    ensures Linked(BookDiscard(BookJoinTimeout(b, t, r), t))
  {
    DropTopicStaysLinked(b, BookDiscard(BookJoinTimeout(b, t, r), t), t);
  }

  /** One that does not finds the request already decided. */
  lemma LateJoinTimeoutStaysLinked(b: Books, t: Topic, r: Ref)
    requires Linked(b) && JoinTimer(t, r) in b.timers && r !in b.pendingJoins
    ensures Linked(BookJoinTimeout(b, t, r))
  {
    assert BookJoinTimeout(b, t, r) == b.(timers := b.timers - {JoinTimer(t, r)});
    assert OwnTimer(b, JoinTimer(t, r));
    TimerMayGo(b, JoinTimer(t, r));
  }

  lemma TimerMayGo(b: Books, timer: Timer)
    requires Linked(b)
    requires if timer.JoinTimer? then timer.reference !in b.pendingJoins else timer.reference !in b.pendingLeaves
    ensures Linked(b.(timers := b.timers - {timer}))
  {
    var d := b.(timers := b.timers - {timer});
    forall s | s in d.proto.pending ensures Tracked(d, s) {
      assert Tracked(b, s);
    }
    forall own | own in d.timers ensures OwnTimer(d, own) {
      assert OwnTimer(b, own);
    }
    assert forall s :: Beating(b, s) ==> Beating(d, s);
  }

  lemma LeaveTimeoutStaysLinked(b: Books, t: Topic, r: Ref)
    requires Linked(b) && LeaveTimer(t, r) in b.timers
    ensures Linked(BookDiscard(b.(timers := b.timers - {LeaveTimer(t, r)}, pendingLeaves := b.pendingLeaves - {r}), t))
  {
    assert OwnTimer(b, LeaveTimer(t, r));
    var d := BookDiscard(b.(timers := b.timers - {LeaveTimer(t, r)}, pendingLeaves := b.pendingLeaves - {r}), t);
    assert r !in d.proto.pending;
    DropTopicStaysLinked(b, d, t);
  }

  // ----- Cancelled requests -----

  lemma ForgetCallStaysLinked(b: Books, r: Ref)
    requires Linked(b)
    ensures Linked(BookForgetCall(b, r))
  {
    var d := BookForgetCall(b, r);
    L.OthersKeepCoherence(b.proto, d.proto);
    L.OthersKeepAwaiting(b.proto, d.proto);
    forall s | s in d.proto.pending ensures Tracked(d, s) {
      assert Tracked(b, s);
    }
    forall timer | timer in d.timers ensures OwnTimer(d, timer) {
      assert OwnTimer(b, timer);
    }
    assert forall s :: Beating(b, s) ==> Beating(d, s);
  }

  lemma ForgetPingStaysLinked(b: Books, r: Ref)
    requires Linked(b) && r in b.pendingPings
    ensures Linked(BookForgetPing(b, r))
  {
    var d := BookForgetPing(b, r);
    assert Beating(b, r);
    L.OthersKeepCoherence(b.proto, d.proto);
    L.OthersKeepAwaiting(b.proto, d.proto);
    forall s | s in d.pendingPings ensures Beating(d, s) && d.heartbeat != Some(s) {
      assert Beating(b, s);
    }
    FewerRequestsTracked(b, d);
  }

  lemma CloseLeaveStaysLinked(b: Books, r: Ref)
    requires Linked(b) && r in b.pendingLeaves
    ensures Linked(BookCloseLeave(b, r))
  {
    var d := BookCloseLeave(b, r);
    assert forall s :: Beating(b, s) ==> Beating(d, s);
    FewerRequestsTracked(b, d);
  }

  // ----- Incoming frames -----

  /** `d` has completed request `r` and dropped at most its entries. */
  ghost predicate RequestDone(b: Books, d: Books, r: Ref) {
    && d.proto.next == b.proto.next
    && d.proto.pending == b.proto.pending - {r}
    && d.timers == b.timers
    && (d.pendingJoins == b.pendingJoins || d.pendingJoins == b.pendingJoins - {r})
    && (d.pendingCalls == b.pendingCalls || d.pendingCalls == b.pendingCalls - {r})
    && (d.pendingLeaves == b.pendingLeaves || d.pendingLeaves == b.pendingLeaves - {r})
    && d.pendingPings == b.pendingPings - {r}
    && d.heartbeat == (if b.heartbeat == Some(r) then None else b.heartbeat)
    && (forall t :: P.StateOf(d.proto, t) == Some(P.Joining) ==> P.StateOf(b.proto, t) == Some(P.Joining))
  }

  lemma RequestDoneStaysLinked(b: Books, d: Books, r: Ref)
    requires Linked(b) && RequestDone(b, d, r)
    requires L.Coherent(d.proto) && L.Awaiting(d.proto)
    ensures Linked(d)
  {
    forall s | s in d.proto.pending ensures Tracked(d, s) {
      assert s in b.proto.pending && Tracked(b, s);
    }
    forall timer | timer in d.timers ensures OwnTimer(d, timer) {
      assert OwnTimer(b, timer);
    }
    forall s | Beating(b, s) && s != r ensures Beating(d, s) {
      assert s in b.proto.pending - {r};
    }
  }

  /** The entries a reply's event removes. */
  function BookComplete(b: Books, proto: P.View, event: P.Event): (d: Books)
    ensures d.proto == proto
  {
    var d := b.(proto := proto);
    match event
    case JoinAccepted(_, r, _) => BookJoinDone(d, r)
    case JoinRejected(_, r, _) => BookJoinDone(d, r)
    case Left(_, r, _) => d.(pendingLeaves := b.pendingLeaves - {r})
    case Replied(_, _, r, _, _) => d.(pendingCalls := b.pendingCalls - {r})
    case HeartbeatAck(r, _) =>
      if b.heartbeat == Some(r) then d.(heartbeat := None) else d.(pendingPings := b.pendingPings - {r})
    case ChannelFailed(t, _) => BookDropJoins(d, t)
    case ChannelClosed(t, _) => BookDropJoins(d, t)
    case _ => d
  }

  /** Whatever a well-formed frame does to the protocol, removing the entries of its
      event keeps the books in agreement. */
  lemma ReceiveStaysLinked(b: Books, f: Frame)
    requires Linked(b)
    requires P.Receive(b.proto, f).1.Ok?
    ensures var (proto, result) := P.Receive(b.proto, f);
            Linked(BookComplete(b, proto, result.value))
  {
    var (proto, result) := P.Receive(b.proto, f);
    if P.Stale(b.proto, f) {
      assert BookComplete(b, proto, result.value) == b;
    } else if f.event == "phx_reply" {
      if f.reference.Some? && f.reference.value in b.proto.pending {
        ReplyStaysLinked(b, f, f.reference.value);
      } else {
        assert BookComplete(b, proto, result.value) == b;
      }
    } else if f.event == "phx_close" {
      StateChangeStaysLinked(b, f.topic, P.Closed);
    } else if f.event == "phx_error" {
      StateChangeStaysLinked(b, f.topic, P.Errored);
    } else {
      assert BookComplete(b, proto, result.value) == b;
    }
  }

  lemma ReplyStaysLinked(b: Books, f: Frame, r: Ref)
    requires Linked(b) && r in b.proto.pending && f.reference == Some(r)
    requires !P.Stale(b.proto, f) && f.event == "phx_reply" && P.ReceiveReply(b.proto, f).1.Ok?
    ensures var (proto, result) := P.ReceiveReply(b.proto, f);
            Linked(BookComplete(b, proto, result.value))
  {
    assert P.Receive(b.proto, f) == P.ReceiveReply(b.proto, f);
    L.WellFormedFrameKeepsBoth(b.proto, f);
    var status, response := ReplyCompletes(b.proto, f, r);
    CompleteStaysLinked(b, r, status, response);
  }

  lemma ReplyCompletes(v: P.View, f: Frame, r: Ref) returns (status: P.ReplyStatus, response: Payload)
    requires r in v.pending && f.reference == Some(r) && P.ReceiveReply(v, f).1.Ok?
    ensures var (w, event) := P.Complete(v.(pending := v.pending - {r}), r, v.pending[r], status, response);
            P.ReceiveReply(v, f) == (w, Ok(event))
  {
    status, response := P.DecodeReply(f.payload).value.0, P.DecodeReply(f.payload).value.1;
  }

  lemma CompleteStaysLinked(b: Books, r: Ref, status: P.ReplyStatus, response: Payload)
    requires Linked(b) && r in b.proto.pending
    requires var v := P.Complete(b.proto.(pending := b.proto.pending - {r}), r, b.proto.pending[r], status, response).0;
             L.Coherent(v) && L.Awaiting(v)
    ensures var (proto, event) := P.Complete(b.proto.(pending := b.proto.pending - {r}), r, b.proto.pending[r], status, response);
            Linked(BookComplete(b, proto, event))
  {
    var (proto, event) := P.Complete(b.proto.(pending := b.proto.pending - {r}), r, b.proto.pending[r], status, response);
    CompleteIsDone(b, r, status, response);
    RequestDoneStaysLinked(b, BookComplete(b, proto, event), r);
  }

  lemma CompleteIsDone(b: Books, r: Ref, status: P.ReplyStatus, response: Payload)
    requires Linked(b) && r in b.proto.pending
    ensures var (proto, event) := P.Complete(b.proto.(pending := b.proto.pending - {r}), r, b.proto.pending[r], status, response);
            RequestDone(b, BookComplete(b, proto, event), r)
  {
    if b.proto.pending[r].PendingHeartbeat? {
      HeartbeatIsDone(b, r, status, response);
    } else {
      assert !Beating(b, r);
      assert b.pendingPings - {r} == b.pendingPings;
      if b.proto.pending[r].PendingJoin? {
        JoinIsDone(b, r, b.proto.pending[r].topic, P.Joined);
        JoinIsDone(b, r, b.proto.pending[r].topic, P.Errored);
      } else if b.proto.pending[r].PendingPush? {
        CallIsDone(b, r, status, response);
      }
    }
  }

  lemma CallIsDone(b: Books, r: Ref, status: P.ReplyStatus, response: Payload)
    requires Linked(b) && r in b.proto.pending && b.proto.pending[r].PendingPush? && b.pendingPings - {r} == b.pendingPings
    ensures var (proto, event) := P.Complete(b.proto.(pending := b.proto.pending - {r}), r, b.proto.pending[r], status, response);
            RequestDone(b, BookComplete(b, proto, event), r)
  {}

  lemma JoinIsDone(b: Books, r: Ref, t: Topic, state: P.ChannelState)
    requires Linked(b) && b.pendingPings - {r} == b.pendingPings && b.heartbeat != Some(r)
    requires state.Joined? || state.Errored?
    ensures RequestDone(b, BookJoinDone(b.(proto := P.SetState(b.proto.(pending := b.proto.pending - {r}), t, state)), r), r)
  {}

  lemma HeartbeatIsDone(b: Books, r: Ref, status: P.ReplyStatus, response: Payload)
    requires Linked(b) && r in b.proto.pending && b.proto.pending[r].PendingHeartbeat?
    ensures var (proto, event) := P.Complete(b.proto.(pending := b.proto.pending - {r}), r, b.proto.pending[r], status, response);
            RequestDone(b, BookComplete(b, proto, event), r)
  {
    assert Tracked(b, r);
    assert b.heartbeat == Some(r) ==> r !in b.pendingPings && b.pendingPings - {r} == b.pendingPings;
  }

  lemma StateChangeStaysLinked(b: Books, t: Topic, state: P.ChannelState)
    requires Linked(b) && (state.Errored? || state.Closed?)
    ensures Linked(BookDropJoins(b.(proto := P.SetState(b.proto, t, state)), t))
  {
    var d := BookDropJoins(b.(proto := P.SetState(b.proto, t, state)), t);
    L.SetStateKeepsCoherence(b.proto, t, state);
    forall u | u in d.proto.channels ensures L.TopicAwaiting(d.proto, u) {
      assert L.TopicAwaiting(b.proto, u);
    }
    forall s | s in d.proto.pending ensures Tracked(d, s) {
      assert Tracked(b, s);
      if d.proto.pending[s].PendingJoin? {
        assert L.JoinBacked(b.proto, s, d.proto.pending[s].topic);
      }
    }
    forall timer | timer in d.timers ensures OwnTimer(d, timer) {
      assert OwnTimer(b, timer);
    }
    assert forall s :: Beating(b, s) ==> Beating(d, s);
  }

  /** After a reply that accepts a join, the topic is joined on that reference. */
  lemma AcceptedTopicIsJoined(b: Books, f: Frame)
    requires Linked(b)
    requires P.Receive(b.proto, f).1.Ok? && P.Receive(b.proto, f).1.value.JoinAccepted?
    ensures var (proto, result) := P.Receive(b.proto, f);
            P.IsJoined(proto, result.value.topic) &&
            proto.channels[result.value.topic].joinRef == result.value.reference
  {
    assert L.JoinBacked(b.proto, f.reference.value, b.proto.pending[f.reference.value].topic);
  }

  lemma ResetIsLinked(b: Books)
    requires L.Coherent(b.proto)
    ensures Linked(BookReset(b))
  {
    L.ResetKeepsCoherence(b.proto);
  }
}
