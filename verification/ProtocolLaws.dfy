/** What every run of the protocol state machine keeps. */
module ProtocolLaws {
  import opened Wire
  import opened ProtocolSpec

  // ----- Coherence of channels and pending requests -----

  /** A pending request that decides a channel's state when it is answered. */
  predicate Setup(v: View, r: Ref) {
    r in v.pending && (v.pending[r].PendingJoin? || v.pending[r].PendingLeave?)
  }

  predicate JoinBacked(v: View, r: Ref, t: Topic) {
    && t in v.channels
    && v.channels[t].joinRef == r
    && (v.channels[t].state.Joining? || v.channels[t].state.Errored? || v.channels[t].state.Closed?)
  }

  predicate LeaveBacked(v: View, t: Topic) {
    && t in v.channels
    && (v.channels[t].state.Leaving? || v.channels[t].state.Errored? || v.channels[t].state.Closed?)
  }

  ghost predicate Coherent(v: View) {
    && (forall r :: r in v.pending ==> 1 <= r <= v.next)
    && (forall t :: t in v.channels ==> 1 <= v.channels[t].joinRef <= v.next)
    && (forall r :: r in v.pending && v.pending[r].PendingJoin? ==> JoinBacked(v, r, v.pending[r].topic))
    && (forall r :: r in v.pending && v.pending[r].PendingLeave? ==> LeaveBacked(v, v.pending[r].topic))
    && (forall r, s :: Setup(v, r) && Setup(v, s) && v.pending[r].topic == v.pending[s].topic ==> r == s)
  }

  /** The converse: a channel that is being joined or left still awaits the reply. */
  ghost predicate Awaiting(v: View) {
    forall t :: t in v.channels ==> TopicAwaiting(v, t)
  }

  ghost predicate TopicAwaiting(v: View, t: Topic)
    requires t in v.channels
  {
    && (v.channels[t].state.Joining? ==>
          v.channels[t].joinRef in v.pending && v.pending[v.channels[t].joinRef] == PendingJoin(t))
    && (v.channels[t].state.Leaving? ==> exists r :: r in v.pending && v.pending[r] == PendingLeave(t))
  }

  // ----- Operations as data, so that a run is a sequence -----

  datatype Op =
    | DoJoin(topic: Topic, params: Value)
    | DoRejoin(topic: Topic, params: Value)
    | DoLeave(topic: Topic)
    | DoPush(topic: Topic, event: string, payload: Payload)
    | DoCast(topic: Topic, event: string, payload: Payload)
    | DoForgetPush(reference: Ref)
    | DoForgetHeartbeat(reference: Ref)
    | DoDiscard(topic: Topic)
    | DoBeat
    | DoReceive(frame: Frame)
    | DoReset

  datatype Outcome =
    | Requested(request: Result<Outbound, ProtocolError>)
    | Unreferenced(sent: Result<Frame, ProtocolError>)
    | Flag(done: bool)
    | Received(received: Result<Event, ProtocolError>)
    | Lost(interruptions: set<Event>)

  function Step(v: View, op: Op): (View, Outcome) {
    match op
    case DoJoin(t, params) => var (v1, o) := Join(v, t, params); (v1, Requested(o))
    case DoRejoin(t, params) => var (v1, o) := Rejoin(v, t, params); (v1, Requested(o))
    case DoLeave(t) => var (v1, o) := Leave(v, t); (v1, Requested(o))
    case DoPush(t, event, payload) => var (v1, o) := Push(v, t, event, payload); (v1, Requested(o))
    case DoCast(t, event, payload) => (v, Unreferenced(Cast(v, t, event, payload)))
    case DoForgetPush(r) => var (v1, done) := ForgetPush(v, r); (v1, Flag(done))
    case DoForgetHeartbeat(r) => var (v1, done) := ForgetHeartbeat(v, r); (v1, Flag(done))
    case DoDiscard(t) => (Discard(v, t), Flag(t in v.channels))
    case DoBeat => var (v1, o) := Beat(v); (v1, Requested(Ok(o)))
    case DoReceive(f) => var (v1, o) := Receive(v, f); (v1, Received(o))
    case DoReset => (Reset(v), Lost(Interruptions(v.pending)))
  }

  /** The managed driver's discipline: an errored or closed topic is restarted with
      `rejoin`, never with `join`. */
  predicate Disciplined(v: View, op: Op) {
    op.DoJoin? && op.topic in v.channels ==> !v.channels[op.topic].state.Errored? && !v.channels[op.topic].state.Closed?
  }

  // ----- Each operation keeps coherence -----

  lemma JoinKeepsCoherence(v: View, t: Topic, params: Value)
    requires Coherent(v)
    requires t in v.channels ==> !v.channels[t].state.Errored? && !v.channels[t].state.Closed?
    ensures Coherent(Join(v, t, params).0)
  {
    if !Active(v, t) {
      forall r | Setup(v, r) ensures v.pending[r].topic != t {}
      JoinCoherentIff(v, t, params);
    }
  }

  /** Exactly when a plain `join` keeps coherence, whatever the topic's state. */
  lemma JoinCoherentIff(v: View, t: Topic, params: Value)
    requires Coherent(v)
    ensures Coherent(Join(v, t, params).0) <==>
            Active(v, t) || !exists r :: Setup(v, r) && v.pending[r].topic == t
  {
    if !Active(v, t) {
      if r :| Setup(v, r) && v.pending[r].topic == t {
        SecondSetupIsIncoherent(v, t, params, r);
      } else {
        OnlySetupIsCoherent(v, t, params);
      }
    }
  }

  lemma SecondSetupIsIncoherent(v: View, t: Topic, params: Value, r: Ref)
    requires !Active(v, t) && Setup(v, r) && v.pending[r].topic == t && r <= v.next
    ensures !Coherent(Join(v, t, params).0)
  {
    var v1, n := Join(v, t, params).0, v.next + 1;
    assert v1.pending[r] == v.pending[r];
    assert Setup(v1, r) && Setup(v1, n) && v1.pending[r].topic == v1.pending[n].topic;
  }

  lemma OnlySetupIsCoherent(v: View, t: Topic, params: Value)
    requires Coherent(v) && !Active(v, t) && !exists r :: Setup(v, r) && v.pending[r].topic == t
    ensures Coherent(Join(v, t, params).0)
  {
    var v1, n := Join(v, t, params).0, v.next + 1;
    forall r, s | Setup(v1, r) && Setup(v1, s) && v1.pending[r].topic == v1.pending[s].topic ensures r == s {
      assert r != n ==> Setup(v, r);
      assert s != n ==> Setup(v, s);
    }
  }

  /** A topic that errored while joining and is then joined again without `rejoin`
      has two pending joins. */
  lemma JoinAfterErrorIsIncoherent(t: Topic, params: Value, payload: Payload)
    ensures var v1 := Join(EMPTY, t, params).0;
            var v2 := Receive(v1, Frame(None, None, t, "phx_error", payload)).0;
            Coherent(v2) && !Coherent(Join(v2, t, params).0)
  {
    var v1 := Join(EMPTY, t, params).0;
    var v2 := Receive(v1, Frame(None, None, t, "phx_error", payload)).0;
    var v3 := Join(v2, t, params).0;
    assert Setup(v3, 1) && Setup(v3, 2);
  }

  lemma DiscardKeepsCoherence(v: View, t: Topic)
    requires Coherent(v)
    ensures Coherent(Discard(v, t))
    ensures forall r :: r in Discard(v, t).pending ==> !Concerns(v.pending[r], t)
  {}

  lemma RejoinKeepsCoherence(v: View, t: Topic, params: Value)
    requires Coherent(v)
    ensures Coherent(Rejoin(v, t, params).0)
  {
    if t in v.channels && !Active(v, t) {
      DiscardKeepsCoherence(v, t);
      JoinKeepsCoherence(Discard(v, t), t, params);
    } else {
      JoinKeepsCoherence(v, t, params);
    }
  }

  lemma LeaveKeepsCoherence(v: View, t: Topic)
    requires Coherent(v)
    ensures Coherent(Leave(v, t).0)
  {
    if IsJoined(v, t) {
      forall r | Setup(v, r) ensures v.pending[r].topic != t {}
      LeavingKeepsCoherence(v, t);
    } else {
      assert Leave(v, t).0 == v.(next := v.next + 1);
    }
  }

  lemma LeavingKeepsCoherence(v: View, t: Topic)
    requires Coherent(v) && IsJoined(v, t) && forall r :: Setup(v, r) ==> v.pending[r].topic != t
    ensures Coherent(Leave(v, t).0)
  {
    var w := Leave(v, t).0;
    assert forall r :: Setup(w, r) ==> r == w.next || (Setup(v, r) && w.pending[r] == v.pending[r]);
  }

  lemma SetStateKeepsCoherence(v: View, t: Topic, state: ChannelState)
    requires Coherent(v)
    requires state.Errored? || state.Closed? || forall r :: Setup(v, r) ==> v.pending[r].topic != t
    ensures Coherent(SetState(v, t, state))
  {}

  lemma DropKeepsCoherence(v: View, r: Ref)
    requires Coherent(v)
    ensures Coherent(v.(pending := v.pending - {r}))
  {
    var w := v.(pending := v.pending - {r});
    assert forall s :: Setup(w, s) ==> Setup(v, s);
  }

  lemma ReplyKeepsCoherence(v: View, r: Ref, status: ReplyStatus, response: Payload)
    requires Coherent(v) && r in v.pending
    ensures Coherent(Complete(v.(pending := v.pending - {r}), r, v.pending[r], status, response).0)
  {
    var w := v.(pending := v.pending - {r});
    DropKeepsCoherence(v, r);
    if Setup(v, r) {
      var t := v.pending[r].topic;
      forall s | Setup(w, s) ensures w.pending[s].topic != t {
        assert Setup(v, s);
      }
      if v.pending[r].PendingJoin? {
        SetStateKeepsCoherence(w, t, Joined);
        SetStateKeepsCoherence(w, t, Errored);
      } else {
        RemovalKeepsCoherence(w, t);
      }
    }
  }

  lemma RemovalKeepsCoherence(v: View, t: Topic)
    requires Coherent(v) && forall r :: Setup(v, r) ==> v.pending[r].topic != t
    ensures Coherent(v.(channels := v.channels - {t}))
  {}

  lemma ReceiveKeepsCoherence(v: View, f: Frame)
    requires Coherent(v)
    ensures Coherent(Receive(v, f).0)
  {
    if !Stale(v, f) && f.event == "phx_reply" {
      if f.reference.Some? && f.reference.value in v.pending {
        DropKeepsCoherence(v, f.reference.value);
        var decoded := DecodeReply(f.payload);
        if decoded.Ok? {
          ReplyKeepsCoherence(v, f.reference.value, decoded.value.0, decoded.value.1);
        }
      }
    } else {
      SetStateKeepsCoherence(v, f.topic, Errored);
      SetStateKeepsCoherence(v, f.topic, Closed);
    }
  }

  /** Adding or forgetting a request that decides no channel's state. */
  lemma OthersKeepCoherence(v: View, w: View)
    requires Coherent(v) && w.channels == v.channels && v.next <= w.next
    requires forall r :: r in w.pending ==> 1 <= r <= w.next
    requires forall r :: Setup(w, r) ==> Setup(v, r) && w.pending[r] == v.pending[r]
    ensures Coherent(w)
  {
    forall r | r in w.pending && w.pending[r].PendingJoin? ensures JoinBacked(w, r, w.pending[r].topic) {
      assert Setup(w, r);
    }
    forall r | r in w.pending && w.pending[r].PendingLeave? ensures LeaveBacked(w, w.pending[r].topic) {
      assert Setup(w, r);
    }
  }

  lemma ResetKeepsCoherence(v: View)
    requires Coherent(v)
    ensures Coherent(Reset(v)) && Awaiting(Reset(v))
  {
    assert forall r :: !Setup(Reset(v), r);
  }

  lemma StepKeepsCoherence(v: View, op: Op)
    requires Coherent(v) && Disciplined(v, op)
    ensures Coherent(Step(v, op).0)
  {
    match op
    case DoJoin(t, params) => JoinKeepsCoherence(v, t, params);
    case DoRejoin(t, params) => RejoinKeepsCoherence(v, t, params);
    case DoLeave(t) => LeaveKeepsCoherence(v, t);
    case DoDiscard(t) => DiscardKeepsCoherence(v, t);
    case DoReceive(f) => ReceiveKeepsCoherence(v, f);
    case DoReset => ResetKeepsCoherence(v);
    case DoPush(_, _, _) => OthersKeepCoherence(v, Step(v, op).0);
    case DoForgetPush(_) => OthersKeepCoherence(v, Step(v, op).0);
    case DoForgetHeartbeat(_) => OthersKeepCoherence(v, Step(v, op).0);
    case DoBeat => OthersKeepCoherence(v, Step(v, op).0);
    case DoCast(_, _, _) =>
  }

  // ----- Every joining or leaving channel awaits its reply -----

  lemma RejoinKeepsAwaiting(v: View, t: Topic, params: Value)
    requires Coherent(v) && Awaiting(v)
    ensures Awaiting(Rejoin(v, t, params).0) && Awaiting(Join(v, t, params).0)
  {
    var n := v.next + 1;
    forall w, u | (w == Rejoin(v, t, params).0 || w == Join(v, t, params).0) && u in w.channels
      ensures TopicAwaiting(w, u)
    {
      if u in v.channels {
        assert TopicAwaiting(v, u);
        if u != t && v.channels[u].state.Leaving? {
          var r :| r in v.pending && v.pending[r] == PendingLeave(u);
          assert r in w.pending && w.pending[r] == PendingLeave(u);
        }
      }
    }
  }

  lemma DiscardKeepsAwaiting(v: View, t: Topic)
    requires Awaiting(v)
    ensures Awaiting(Discard(v, t))
  {
    var w := Discard(v, t);
    forall u | u in w.channels ensures TopicAwaiting(w, u) {
      assert TopicAwaiting(v, u);
      if w.channels[u].state.Leaving? {
        var r :| r in v.pending && v.pending[r] == PendingLeave(u);
        assert r in w.pending && w.pending[r] == PendingLeave(u);
      }
    }
  }

  lemma LeaveKeepsAwaiting(v: View, t: Topic)
    requires Coherent(v) && Awaiting(v)
    ensures Awaiting(Leave(v, t).0)
  {
    var w := Leave(v, t).0;
    forall u | u in w.channels ensures TopicAwaiting(w, u) {
      assert TopicAwaiting(v, u);
      if w.channels[u].state.Leaving? {
        if u == t && IsJoined(v, t) {
          assert w.pending[w.next] == PendingLeave(u);
        } else {
          var r :| r in v.pending && v.pending[r] == PendingLeave(u);
          assert r in w.pending && w.pending[r] == PendingLeave(u);
        }
      }
    }
  }

  /** Adding or dropping requests that decide no channel's state. */
  lemma OthersKeepAwaiting(v: View, w: View)
    requires Awaiting(v) && w.channels == v.channels
    requires forall r :: Setup(v, r) ==> r in w.pending && w.pending[r] == v.pending[r]
    ensures Awaiting(w)
  {
    forall u | u in w.channels ensures TopicAwaiting(w, u) {
      assert TopicAwaiting(v, u);
      if w.channels[u].state.Leaving? {
        var r :| r in v.pending && v.pending[r] == PendingLeave(u);
        assert Setup(v, r);
      }
    }
  }

  predicate Undecided(v: View, t: Topic) {
    t in v.channels && (v.channels[t].state.Joining? || v.channels[t].state.Leaving?)
  }

  /** A malformed reply to the request that a joining or leaving channel awaits. */
  predicate Orphans(v: View, f: Frame) {
    && !Stale(v, f) && f.event == "phx_reply" && f.reference.Some?
    && Setup(v, f.reference.value) && Undecided(v, v.pending[f.reference.value].topic)
    && DecodeReply(f.payload).Err?
  }

  lemma UnmatchedKeepsAwaiting(v: View, f: Frame)
    requires Awaiting(v)
    requires Stale(v, f) || f.event != "phx_reply" || f.reference.None? || f.reference.value !in v.pending
    ensures Awaiting(Receive(v, f).0)
  {
    var w := Receive(v, f).0;
    forall u | u in w.channels ensures TopicAwaiting(w, u) {
      assert TopicAwaiting(v, u);
    }
  }

  /** The topic whose request `r` was is the only one that can stop awaiting. */
  lemma ReplyKeepsOthersAwaiting(v: View, f: Frame, r: Ref, u: Topic)
    requires Coherent(v) && Awaiting(v) && r in v.pending && f.reference == Some(r)
    requires u in ReceiveReply(v, f).0.channels
    requires DecodeReply(f.payload).Ok? || !Setup(v, r) || u != v.pending[r].topic
    ensures TopicAwaiting(ReceiveReply(v, f).0, u)
  {
    var w := ReceiveReply(v, f).0;
    assert TopicAwaiting(v, u);
    if w.channels[u].state.Leaving? {
      var s :| s in v.pending && v.pending[s] == PendingLeave(u);
      if s != r {
        assert s in w.pending && w.pending[s] == PendingLeave(u);
      }
    }
  }

  lemma MalformedReplyDropsTheRequest(v: View, f: Frame, r: Ref)
    requires Coherent(v) && Awaiting(v) && Setup(v, r) && f.reference == Some(r) && DecodeReply(f.payload).Err?
    ensures TopicAwaiting(ReceiveReply(v, f).0, v.pending[r].topic) <==> !Undecided(v, v.pending[r].topic)
  {
    var w, t := ReceiveReply(v, f).0, v.pending[r].topic;
    forall s | s in w.pending ensures w.pending[s] != PendingJoin(t) && w.pending[s] != PendingLeave(t) {
      assert Setup(v, s) ==> s != r;
      assert Setup(v, s) && v.pending[s].topic == t ==> s == r;
    }
  }

  /** A frame keeps the property exactly unless it is a malformed reply to the request
      some joining or leaving channel awaits. */
  lemma ReceiveKeepsAwaitingIff(v: View, f: Frame)
    requires Coherent(v) && Awaiting(v)
    ensures Awaiting(Receive(v, f).0) <==> !Orphans(v, f)
  {
    if Stale(v, f) || f.event != "phx_reply" || f.reference.None? || f.reference.value !in v.pending {
      UnmatchedKeepsAwaiting(v, f);
    } else {
      var w, r := ReceiveReply(v, f).0, f.reference.value;
      forall u | u in w.channels && (DecodeReply(f.payload).Ok? || !Setup(v, r) || u != v.pending[r].topic)
        ensures TopicAwaiting(w, u)
      {
        ReplyKeepsOthersAwaiting(v, f, r, u);
      }
      if Setup(v, r) && DecodeReply(f.payload).Err? {
        MalformedReplyDropsTheRequest(v, f, r);
      }
    }
  }

  /** A join answered with nonsense leaves its channel joining with nothing pending. */
  lemma MalformedReplyOrphans(t: Topic, params: Value)
    ensures var v := Join(EMPTY, t, params).0;
            var f := Frame(Some(1), Some(1), t, "phx_reply", Json(Text("nonsense")));
            && Coherent(v) && Awaiting(v) && Orphans(v, f)
            && StateOf(Receive(v, f).0, t) == Some(Joining) && Receive(v, f).0.pending == map[]
  {
    var v := Join(EMPTY, t, params).0;
    assert v.pending == map[1 := PendingJoin(t)];
    assert Setup(v, 1);
    var f := Frame(Some(1), Some(1), t, "phx_reply", Json(Text("nonsense")));
    assert DecodeReply(f.payload) == Err(InvalidReplyPayload);
    assert v.pending - {1} == map[];
  }

  /** Every other operation keeps it always. */
  lemma StepKeepsAwaitingIff(v: View, op: Op)
    requires Coherent(v) && Awaiting(v)
    ensures Awaiting(Step(v, op).0) <==> !(op.DoReceive? && Orphans(v, op.frame))
  {
    match op
    case DoJoin(t, params) => RejoinKeepsAwaiting(v, t, params);
    case DoRejoin(t, params) => RejoinKeepsAwaiting(v, t, params);
    case DoLeave(t) => LeaveKeepsAwaiting(v, t);
    case DoDiscard(t) => DiscardKeepsAwaiting(v, t);
    case DoReceive(f) => ReceiveKeepsAwaitingIff(v, f);
    case DoReset => ResetKeepsCoherence(v);
    case _ => OthersKeepAwaiting(v, Step(v, op).0);
  }

  /** A frame that is not a malformed reply keeps both halves. */
  lemma WellFormedFrameKeepsBoth(v: View, f: Frame)
    requires Coherent(v) && Awaiting(v) && Receive(v, f).1.Ok?
    ensures Coherent(Receive(v, f).0) && Awaiting(Receive(v, f).0)
  {
    ReceiveKeepsCoherence(v, f);
    ReceiveKeepsAwaitingIff(v, f);
  }
}
