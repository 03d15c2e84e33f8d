/** What the frames of the protocol say, word by word: which reply accepts a join and which
    refuses it, what every other frame means, and what is sent. */
module ProtocolFrames {
  import opened Wire
  import opened ProtocolSpec
  import opened ProtocolLaws
  import opened ProtocolRuns

  // ----- Reply envelopes -----

  /** The envelope's status is this very word. */
  predicate Worded(p: Payload, word: string) {
    match p
    case Json(Object(fields)) => "status" in fields && fields["status"] == Text(word)
    case Reply(status, _) => status == word
    case _ => false
  }

  /** The envelope's response; a JSON envelope without one stands for `{}`. */
  function ResponseIn(p: Payload): Payload {
    match p
    case Json(Object(fields)) => if "response" in fields then Json(fields["response"]) else Json(Object(map[]))
    case Reply(_, response) => response
    case _ => p
  }

  /** A frame that does not name another join generation than its topic's own. */
  predicate Current(v: View, f: Frame) {
    f.topic in v.channels && f.joinRef.Some? ==> f.joinRef.value == v.channels[f.topic].joinRef
  }

  /** A reply that finds the request `r`. */
  predicate Answers(v: View, f: Frame, r: Ref) {
    Current(v, f) && f.event == "phx_reply" && f.reference == Some(r) && r in v.pending
  }

  /** The word "ok" accepts a join and "error" refuses it, each with the reply's response;
      any other word or payload is refused itself and moves no channel. */
  lemma JoinReplyMeans(v: View, f: Frame, r: Ref, t: Topic)
    requires Answers(v, f, r) && v.pending[r] == PendingJoin(t)
    ensures var (w, result) := Receive(v, f);
            && (Worded(f.payload, "ok") <==> result == Ok(JoinAccepted(t, r, ResponseIn(f.payload))))
            && (Worded(f.payload, "error") <==> result == Ok(JoinRejected(t, r, ResponseIn(f.payload))))
            && (result.Ok? ==> Worded(f.payload, "ok") || Worded(f.payload, "error"))
            && w.next == v.next && w.pending == v.pending - {r} && w.channels.Keys == v.channels.Keys
            && (forall u :: u in v.channels && u != t ==> w.channels[u] == v.channels[u])
            && (t in v.channels ==>
                  w.channels[t] == v.channels[t].(state := if Worded(f.payload, "ok") then Joined
                                                           else if Worded(f.payload, "error") then Errored
                                                           else v.channels[t].state))
  {}

  /** Either word ends a leave and forgets the channel. */
  lemma LeaveReplyMeans(v: View, f: Frame, r: Ref, t: Topic)
    requires Answers(v, f, r) && v.pending[r] == PendingLeave(t)
    ensures var (w, result) := Receive(v, f);
            && (result == Ok(Left(t, r, ResponseIn(f.payload))) <==> Worded(f.payload, "ok") || Worded(f.payload, "error"))
            && (result.Err? <==> !Worded(f.payload, "ok") && !Worded(f.payload, "error"))
            && w.next == v.next && w.pending == v.pending - {r}
            && w.channels == if result.Ok? then v.channels - {t} else v.channels
  {}

  /** The reply to a push or a heartbeat carries its word on and moves no channel. */
  lemma PushReplyMeans(v: View, f: Frame, r: Ref)
    requires Answers(v, f, r) && (v.pending[r].PendingPush? || v.pending[r].PendingHeartbeat?)
    ensures var (w, result) := Receive(v, f);
            && w == v.(pending := v.pending - {r})
            && (result.Err? <==> !Worded(f.payload, "ok") && !Worded(f.payload, "error"))
            && (v.pending[r].PendingPush? && Worded(f.payload, "ok") ==>
                  result == Ok(Replied(v.pending[r].topic, v.pending[r].event, r, StatusOk, ResponseIn(f.payload))))
            && (v.pending[r].PendingPush? && Worded(f.payload, "error") ==>
                  result == Ok(Replied(v.pending[r].topic, v.pending[r].event, r, StatusError, ResponseIn(f.payload))))
            && (v.pending[r].PendingHeartbeat? && Worded(f.payload, "ok") ==> result == Ok(HeartbeatAck(r, StatusOk)))
            && (v.pending[r].PendingHeartbeat? && Worded(f.payload, "error") ==> result == Ok(HeartbeatAck(r, StatusError)))
  {}

  /** Why a reply is refused: it is no envelope at all, or its status is another word. */
  lemma RefusedReplyMeans(v: View, f: Frame, r: Ref)
    requires Answers(v, f, r) && !Worded(f.payload, "ok") && !Worded(f.payload, "error")
    ensures Receive(v, f).1 ==
            Err(if f.payload.Reply? || (f.payload.Json? && f.payload.value.Object?) then InvalidReplyStatus else InvalidReplyPayload)
  {}

  /** Every other frame: one of an old generation or a reply to nothing changes nothing,
      "phx_close" and "phx_error" move their channel, and the rest are messages. */
  lemma OtherFrameMeans(v: View, f: Frame)
    requires !(f.reference.Some? && Answers(v, f, f.reference.value))
    ensures var (w, result) := Receive(v, f);
            if !Current(v, f) then w == v && result == Ok(StaleMessage(f))
            else if f.event == "phx_reply" then w == v && result == Ok(UnmatchedReply(f))
            else if f.event == "phx_close" then Moved(v, w, f.topic, Closed) && result == Ok(ChannelClosed(f.topic, f.payload))
            else if f.event == "phx_error" then Moved(v, w, f.topic, Errored) && result == Ok(ChannelFailed(f.topic, f.payload))
            else w == v && result == Ok(Message(f))
  {}

  /** The channel of `t`, if there is one, is in the given state; nothing else has changed. */
  ghost predicate Moved(v: View, w: View, t: Topic, state: ChannelState) {
    && w.next == v.next && w.pending == v.pending && w.channels.Keys == v.channels.Keys
    && forall u :: u in v.channels ==> w.channels[u] == if u == t then v.channels[u].(state := state) else v.channels[u]
  }

  // ----- What is sent -----

  /** The frames of the operations, as they go onto the wire. */
  lemma FramesSent(v: View, t: Topic, params: Value, event: string, payload: Payload)
    ensures var r := v.next + 1;
            && (Join(v, t, params).1.Ok? ==>
                  Join(v, t, params).1 == Ok(Outbound(r, Frame(Some(r), Some(r), t, "phx_join", Json(params)))))
            && (Rejoin(v, t, params).1.Ok? ==>
                  Rejoin(v, t, params).1 == Ok(Outbound(r, Frame(Some(r), Some(r), t, "phx_join", Json(params)))))
            && (t in v.channels && Leave(v, t).1.Ok? ==>
                  Leave(v, t).1 == Ok(Outbound(r, Frame(Some(v.channels[t].joinRef), Some(r), t, "phx_leave", Json(Object(map[]))))))
            && (t in v.channels && Push(v, t, event, payload).1.Ok? ==>
                  Push(v, t, event, payload).1 == Ok(Outbound(r, Frame(Some(v.channels[t].joinRef), Some(r), t, event, payload))))
            && (t in v.channels && Cast(v, t, event, payload).Ok? ==>
                  Cast(v, t, event, payload) == Ok(Frame(Some(v.channels[t].joinRef), None, t, event, payload)))
            && Beat(v).1 == Outbound(r, Frame(None, Some(r), "phoenix", "heartbeat", Json(Object(map[]))))
  {}

  /** What each operation that sends a request records of it, and of the channel it starts
      or leaves; everything else stays, except that a rejoin drops what its topic waited for. */
  lemma RequestsRecorded(v: View, t: Topic, params: Value, event: string, payload: Payload)
    ensures var r := v.next + 1;
            && (Join(v, t, params).1.Ok? ==>
                  Join(v, t, params).0 == View(r, v.channels[t := Channel(Joining, r, params)], v.pending[r := PendingJoin(t)]))
            && (Rejoin(v, t, params).1.Ok? ==>
                  var w := Rejoin(v, t, params).0;
                  && w.next == r && w.channels == v.channels[t := Channel(Joining, r, params)]
                  && r in w.pending && w.pending[r] == PendingJoin(t)
                  && (t !in v.channels ==> w.pending == v.pending[r := PendingJoin(t)])
                  && (t in v.channels ==> forall q :: q != r ==> (q in w.pending <==> q in v.pending && !About(v.pending[q], t)))
                  && (forall q :: q != r && q in w.pending ==> q in v.pending && w.pending[q] == v.pending[q]))
            && (t in v.channels && Leave(v, t).1.Ok? ==>
                  Leave(v, t).0 == View(r, v.channels[t := v.channels[t].(state := Leaving)], v.pending[r := PendingLeave(t)]))
            && (Leave(v, t).1.Err? ==> Leave(v, t).0 == v.(next := r))
            && (Push(v, t, event, payload).1.Ok? ==>
                  Push(v, t, event, payload).0 == v.(next := r, pending := v.pending[r := PendingPush(t, event)]))
            && (Join(v, t, params).1.Err? ==> Join(v, t, params).0 == v) && (Rejoin(v, t, params).1.Err? ==> Rejoin(v, t, params).0 == v)
            && (Push(v, t, event, payload).1.Err? ==> Push(v, t, event, payload).0 == v)
            && Beat(v).0 == v.(next := r, pending := v.pending[r := PendingHeartbeat])
  {
    if Rejoin(v, t, params).1.Ok? { RejoinRecorded(v, t, params); }
  }

  /** The request concerns the topic, by its name. */
  predicate About(p: Pending, t: Topic) {
    p == PendingJoin(t) || p == PendingLeave(t) || (p.PendingPush? && p.topic == t)
  }

  lemma RejoinRecorded(v: View, t: Topic, params: Value)
    requires Rejoin(v, t, params).1.Ok?
    ensures var w, r := Rejoin(v, t, params).0, v.next + 1;
            && w.next == r && w.channels == v.channels[t := Channel(Joining, r, params)]
            && r in w.pending && w.pending[r] == PendingJoin(t)
            && (t !in v.channels ==> w.pending == v.pending[r := PendingJoin(t)])
            && (t in v.channels ==> forall q :: q != r ==> (q in w.pending <==> q in v.pending && !About(v.pending[q], t)))
            && (forall q :: q != r && q in w.pending ==> q in v.pending && w.pending[q] == v.pending[q])
  {
    if t in v.channels {
      assert (v.channels - {t})[t := Channel(Joining, v.next + 1, params)] == v.channels[t := Channel(Joining, v.next + 1, params)];
    }
  }

  /** What forgetting, discarding and a lost connection take away. */
  lemma RequestsForgotten(v: View, t: Topic, r: Ref)
    ensures r in v.pending && v.pending[r].PendingPush? ==> ForgetPush(v, r) == (v.(pending := v.pending - {r}), true)
    ensures !(r in v.pending && v.pending[r].PendingPush?) ==> ForgetPush(v, r) == (v, false)
    ensures r in v.pending && v.pending[r].PendingHeartbeat? ==> ForgetHeartbeat(v, r) == (v.(pending := v.pending - {r}), true)
    ensures !(r in v.pending && v.pending[r].PendingHeartbeat?) ==> ForgetHeartbeat(v, r) == (v, false)
    ensures Discard(v, t).next == v.next && Discard(v, t).channels == v.channels - {t}
    ensures r in Discard(v, t).pending <==> r in v.pending && !About(v.pending[r], t)
    ensures r in Discard(v, t).pending ==> Discard(v, t).pending[r] == v.pending[r]
    ensures Reset(v).next == v.next && Reset(v).pending == map[] && Reset(v).channels.Keys == v.channels.Keys
    ensures t in v.channels ==> Reset(v).channels[t] == v.channels[t].(state := Disconnected)
  {}

  /** Which operations are refused, by the state of their topic. */
  lemma RefusedIff(v: View, t: Topic, params: Value, event: string, payload: Payload)
    ensures var active := t in v.channels && v.channels[t].state in {Joining, Joined, Leaving};
            var joined := t in v.channels && v.channels[t].state == Joined;
            && (Join(v, t, params).1 == Err(AlreadyActive(t)) <==> active) && (Join(v, t, params).1.Ok? <==> !active)
            && (Rejoin(v, t, params).1 == Err(AlreadyActive(t)) <==> active) && (Rejoin(v, t, params).1.Ok? <==> !active)
            && (Leave(v, t).1 == Err(UnknownTopic(t)) <==> t !in v.channels)
            && (Leave(v, t).1 == Err(NotJoined(t)) <==> t in v.channels && !joined)
            && (Leave(v, t).1.Ok? <==> joined)
            && (Push(v, t, event, payload).1 == Err(NotJoined(t)) <==> !joined) && (Push(v, t, event, payload).1.Ok? <==> joined)
            && (Cast(v, t, event, payload) == Err(NotJoined(t)) <==> !joined) && (Cast(v, t, event, payload).Ok? <==> joined)
  {}

  /** Which requests the loss of a connection reports, under which event. */
  lemma InterruptedIff(pending: map<Ref, Pending>, t: Topic, event: string, r: Ref)
    ensures RequestInterrupted(t, event, r) in Interruptions(pending) <==>
            r in pending &&
            (pending[r] == PendingPush(t, event) || (pending[r] == PendingJoin(t) && event == "phx_join") ||
             (pending[r] == PendingLeave(t) && event == "phx_leave"))
  {
    if r in pending && !pending[r].PendingHeartbeat? {
      assert Interruption(r, pending[r]) in Interruptions(pending);
    }
  }

  // ----- Replies to their requests -----

  lemma StepKeepsEntry(v: View, op: Op, r: Ref)
    requires r <= v.next && r in v.pending && r in Step(v, op).0.pending
    ensures Step(v, op).0.pending[r] == v.pending[r]
  {}

  /** A request that is still pending is the one that was recorded. */
  lemma {:induction false} PendingIsKept(h: History, ops: seq<Op>, r: Ref)
    requires Sound(h) && AllDisciplined(h, ops) && r in h.view.pending && r in Run(h, ops).view.pending
    ensures Run(h, ops).view.pending[r] == h.view.pending[r]
    decreases |ops|
  {
    if ops != [] {
      var m := Advance(h, ops[0]);
      StepKeepsCoherence(h.view, ops[0]);
      StepAccounts(h, ops[0]);
      StepKeepsBacked(h, ops[0]);
      RunKeepsSound(m, ops[1..]);
      assert r in m.view.pending;
      StepKeepsEntry(h.view, ops[0], r);
      PendingIsKept(m, ops[1..], r);
    }
  }

  /** Over every run: the reply to a push names the topic and event it was pushed with, and
      carries the server's word and response. */
  lemma {:induction false} ReplyNamesItsPush(h: History, t: Topic, event: string, payload: Payload, ops: seq<Op>, f: Frame)
    requires Sound(h) && IsJoined(h.view, t) && AllDisciplined(Advance(h, DoPush(t, event, payload)), ops)
    requires var r := h.view.next + 1; Answers(Run(Advance(h, DoPush(t, event, payload)), ops).view, f, r)
    ensures var r, v := h.view.next + 1, Run(Advance(h, DoPush(t, event, payload)), ops).view;
            && (Worded(f.payload, "ok") ==> Receive(v, f).1 == Ok(Replied(t, event, r, StatusOk, ResponseIn(f.payload))))
            && (Worded(f.payload, "error") ==> Receive(v, f).1 == Ok(Replied(t, event, r, StatusError, ResponseIn(f.payload))))
  {
    var op, r := DoPush(t, event, payload), h.view.next + 1;
    StepKeepsCoherence(h.view, op);
    StepAccounts(h, op);
    StepKeepsBacked(h, op);
    PendingIsKept(Advance(h, op), ops, r);
    PushReplyMeans(Run(Advance(h, op), ops).view, f, r);
  }

  // ----- Accepted by the server -----

  /** A frame that says "ok" to the request it names. */
  predicate Acknowledges(f: Frame, r: Ref) {
    f.event == "phx_reply" && f.reference == Some(r) && Worded(f.payload, "ok")
  }

  /** The references named by such a frame since the connection was last reset. */
  function Acknowledged(seen: set<Ref>, ops: seq<Op>): set<Ref>
    decreases |ops|
  {
    if ops == [] then seen
    else
      Acknowledged(if ops[0].DoReset? then {}
                   else if ops[0].DoReceive? && ops[0].frame.reference.Some? && Acknowledges(ops[0].frame, ops[0].frame.reference.value)
                   then seen + {ops[0].frame.reference.value}
                   else seen, ops[1..])
  }

  /** A frame is taken for an accepted join only if it says so. */
  lemma AcceptedJoinSaysOk(v: View, f: Frame, t: Topic, r: Ref, response: Payload)
    requires Receive(v, f).1 == Ok(JoinAccepted(t, r, response))
    ensures Acknowledges(f, r) && response == ResponseIn(f.payload) && r in v.pending && v.pending[r] == PendingJoin(t)
  {
    assert Answers(v, f, r) by {
      if !(f.reference.Some? && Answers(v, f, f.reference.value)) { OtherFrameMeans(v, f); }
    }
  }

  lemma {:induction false} AcceptedWasAcknowledged(h: History, seen: set<Ref>, ops: seq<Op>)
    requires h.accepted <= seen
    ensures Run(h, ops).accepted <= Acknowledged(seen, ops)
    decreases |ops|
  {
    if ops != [] {
      if ops[0].DoReceive? {
        var result := Receive(h.view, ops[0].frame).1;
        if result.Ok? && result.value.JoinAccepted? {
          AcceptedJoinSaysOk(h.view, ops[0].frame, result.value.topic, result.value.reference, result.value.response);
        }
      }
      var next := if ops[0].DoReset? then {}
                  else if ops[0].DoReceive? && ops[0].frame.reference.Some? && Acknowledges(ops[0].frame, ops[0].frame.reference.value)
                  then seen + {ops[0].frame.reference.value}
                  else seen;
      AcceptedWasAcknowledged(Advance(h, ops[0]), next, ops[1..]);
    }
  }

  /** Over every disciplined run: a joined or leaving channel, and every frame that can be
      sent on it, is of a generation to which a frame has said "ok" since the last reset. */
  lemma JoinedWasAcknowledged(ops: seq<Op>, t: Topic)
    requires AllDisciplined(START, ops)
    ensures var v := Run(START, ops).view;
            t in v.channels && v.channels[t].state in {Joined, Leaving} ==> v.channels[t].joinRef in Acknowledged({}, ops)
  {
    RunKeepsSound(START, ops);
    AcceptedWasAcknowledged(START, {}, ops);
  }
}
