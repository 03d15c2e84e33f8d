/** The protocol state machine in the source's own form: an object whose methods
    update a counter and two maps in place. Each method is tied to the function of
    the same name in `ProtocolSpec`. */
module ProtocolObject {
  import opened Wire
  import S = ProtocolSpec

  class Protocol {
    var nextReference: Ref
    var channels: map<Topic, S.Channel>
    var pending: map<Ref, S.Pending>

    function View(): S.View
      reads this
    {
      S.View(nextReference, channels, pending)
    }

    constructor ()
      ensures View() == S.EMPTY
    {
      nextReference, channels, pending := 0, map[], map[];
    }

    method AllocateReference() returns (r: Ref)
      modifies this`nextReference
      ensures r == old(nextReference) + 1 && nextReference == r
    {
      nextReference := nextReference + 1;
      r := nextReference;
    }

    method ChannelState(t: Topic) returns (state: Option<S.ChannelState>)
      ensures state == S.StateOf(View(), t)
    {
      if t in channels {
        state := Some(channels[t].state);
      } else {
        state := None;
      }
    }

    method Join(t: Topic, params: Value) returns (result: Result<S.Outbound, S.ProtocolError>)
      modifies this
      ensures (View(), result) == S.Join(old(View()), t, params)
    {
      if t in channels {
        var state := channels[t].state;
        if state.Joining? || state.Joined? || state.Leaving? {
          return Err(S.AlreadyActive(t));
        }
      }
      var reference := AllocateReference();
      channels := channels[t := S.Channel(S.Joining, reference, params)];
      pending := pending[reference := S.PendingJoin(t)];
      result := Ok(S.Outbound(reference, Frame(Some(reference), Some(reference), t, "phx_join", Json(params))));
    }

    method Rejoin(t: Topic, params: Value) returns (result: Result<S.Outbound, S.ProtocolError>)
      modifies this
      ensures (View(), result) == S.Rejoin(old(View()), t, params)
    {
      var state := ChannelState(t);
      match state
      case Some(Disconnected) | Some(Errored) | Some(Closed) =>
        var _ := DiscardChannel(t);
        result := Join(t, params);
      case Some(_) =>
        result := Err(S.AlreadyActive(t));
      case None =>
        result := Join(t, params);
    }

    /** The topics are taken in whatever order the map yields them; that order is the
        ghost result. */
    method RejoinAllWithStoredParams() returns (outbounds: seq<S.Outbound>, ghost order: seq<Topic>)
      modifies this
      ensures (View(), outbounds) == S.RejoinAll(old(View()), order)
      ensures forall t :: t in order <==> S.Inactive(old(View()), t)
      ensures forall i, j :: 0 <= i < j < |order| ==> order[i] != order[j]
    {
      var todo := set t | t in channels && !channels[t].state.Joining? && !channels[t].state.Joined? && !channels[t].state.Leaving?;
      ghost var before := View();
      outbounds, order := [], [];
      RejoinNone(before);
      while todo != {}
        invariant forall t :: t in order || t in todo <==> S.Inactive(before, t)
        invariant forall t :: t in todo ==> t in channels && channels[t] == before.channels[t] && t !in order
        invariant forall i, j :: 0 <= i < j < |order| ==> order[i] != order[j]
        invariant (View(), outbounds) == S.RejoinAll(before, order)
        decreases todo
      {
        var t :| t in todo;
        RejoinOneMore(before, order, t);
        todo := todo - {t};
        order := order + [t];
        var result := Rejoin(t, channels[t].params);
        if result.Ok? {
          outbounds := outbounds + [result.value];
        }
      }
    }

    method Leave(t: Topic) returns (result: Result<S.Outbound, S.ProtocolError>)
      modifies this
      ensures (View(), result) == S.Leave(old(View()), t)
    {
      var reference := AllocateReference();
      if t !in channels {
        return Err(S.UnknownTopic(t));
      }
      var channel := channels[t];
      if channel.state != S.Joined {
        return Err(S.NotJoined(t));
      }
      channels := channels[t := channel.(state := S.Leaving)];
      pending := pending[reference := S.PendingLeave(t)];
      result := Ok(S.Outbound(reference, Frame(Some(channel.joinRef), Some(reference), t, "phx_leave", EMPTY_OBJECT)));
    }

    method Push(t: Topic, event: string, payload: Payload) returns (result: Result<S.Outbound, S.ProtocolError>)
      modifies this
      ensures (View(), result) == S.Push(old(View()), t, event, payload)
    {
      if t !in channels || channels[t].state != S.Joined {
        return Err(S.NotJoined(t));
      }
      var joinRef := channels[t].joinRef;
      var reference := AllocateReference();
      pending := pending[reference := S.PendingPush(t, event)];
      result := Ok(S.Outbound(reference, Frame(Some(joinRef), Some(reference), t, event, payload)));
    }

    method Cast(t: Topic, event: string, payload: Payload) returns (result: Result<Frame, S.ProtocolError>)
      ensures result == S.Cast(View(), t, event, payload)
    {
      if t !in channels || channels[t].state != S.Joined {
        return Err(S.NotJoined(t));
      }
      result := Ok(Frame(Some(channels[t].joinRef), None, t, event, payload));
    }

    method ForgetPush(r: Ref) returns (done: bool)
      modifies this`pending
      ensures (View(), done) == S.ForgetPush(old(View()), r)
    {
      done := r in pending && pending[r].PendingPush?;
      if done {
        pending := pending - {r};
      }
    }

    method ForgetHeartbeat(r: Ref) returns (done: bool)
      modifies this`pending
      ensures (View(), done) == S.ForgetHeartbeat(old(View()), r)
    {
      done := r in pending && pending[r].PendingHeartbeat?;
      if done {
        pending := pending - {r};
      }
    }

    method DiscardChannel(t: Topic) returns (removed: bool)
      modifies this`channels, this`pending
      ensures View() == S.Discard(old(View()), t)
      ensures removed <==> t in old(channels)
    {
      removed := t in channels;
      channels := channels - {t};
      pending := map r | r in pending && !S.Concerns(pending[r], t) :: pending[r];
    }

    method Heartbeat() returns (outbound: S.Outbound)
      modifies this
      ensures (View(), outbound) == S.Beat(old(View()))
    {
      var reference := AllocateReference();
      pending := pending[reference := S.PendingHeartbeat];
      outbound := S.Outbound(reference, Frame(None, Some(reference), PHOENIX_TOPIC, "heartbeat", EMPTY_OBJECT));
    }

    method SetState(t: Topic, state: S.ChannelState)
      modifies this`channels
      ensures View() == S.SetState(old(View()), t, state)
    {
      if t in channels {
        channels := channels[t := channels[t].(state := state)];
      }
    }

    method Receive(f: Frame) returns (result: Result<S.Event, S.ProtocolError>)
      modifies this`channels, this`pending
      ensures (View(), result) == S.Receive(old(View()), f)
    {
      if f.topic in channels && f.joinRef.Some? && f.joinRef.value != channels[f.topic].joinRef {
        return Ok(S.StaleMessage(f));
      }
      if f.event == "phx_reply" {
        result := ReceiveReply(f);
      } else if f.event == "phx_close" {
        SetState(f.topic, S.Closed);
        result := Ok(S.ChannelClosed(f.topic, f.payload));
      } else if f.event == "phx_error" {
        SetState(f.topic, S.Errored);
        result := Ok(S.ChannelFailed(f.topic, f.payload));
      } else {
        result := Ok(S.Message(f));
      }
    }

    method ReceiveReply(f: Frame) returns (result: Result<S.Event, S.ProtocolError>)
      modifies this`channels, this`pending
      ensures (View(), result) == S.ReceiveReply(old(View()), f)
    {
      if f.reference.None? || f.reference.value !in pending {
        return Ok(S.UnmatchedReply(f));
      }
      var reference := f.reference.value;
      var request := pending[reference];
      pending := pending - {reference};
      var decoded := S.DecodeReply(f.payload);
      if decoded.Err? {
        return Err(decoded.error);
      }
      var (status, response) := decoded.value;
      match request
      case PendingJoin(t) =>
        SetState(t, if status.StatusOk? then S.Joined else S.Errored);
        result := Ok(if status.StatusOk? then S.JoinAccepted(t, reference, response)
                     else S.JoinRejected(t, reference, response));
      case PendingLeave(t) =>
        channels := channels - {t};
        result := Ok(S.Left(t, reference, response));
      case PendingPush(t, event) =>
        result := Ok(S.Replied(t, event, reference, status, response));
      case PendingHeartbeat =>
        result := Ok(S.HeartbeatAck(reference, status));
    }

    method ResetConnection() returns (interrupted: seq<S.Event>)
      modifies this`channels, this`pending
      ensures View() == S.Reset(old(View()))
      ensures (set e | e in interrupted) == S.Interruptions(old(pending))
    {
      interrupted := [];
      ghost var before := pending;
      while pending != map[]
        invariant channels == old(channels)
        invariant (set e | e in interrupted) + S.Interruptions(pending) == S.Interruptions(before)
        decreases |pending|
      {
        var r :| r in pending;
        DrainOne(pending, r);
        if !pending[r].PendingHeartbeat? {
          interrupted := interrupted + [S.Interruption(r, pending[r])];
        }
        pending := pending - {r};
      }
      channels := map t | t in channels :: channels[t].(state := S.Disconnected);
    }
  }

  lemma DrainOne(pending: map<Ref, S.Pending>, r: Ref)
    requires r in pending
    ensures S.Interruptions(pending) ==
            S.Interruptions(pending - {r}) +
            if pending[r].PendingHeartbeat? then {} else {S.Interruption(r, pending[r])}
  {
    var rest := pending - {r};
    forall e | e in S.Interruptions(pending)
      ensures e in S.Interruptions(rest) || (!pending[r].PendingHeartbeat? && e == S.Interruption(r, pending[r]))
    {
      var s :| s in pending && !pending[s].PendingHeartbeat? && e == S.Interruption(s, pending[s]);
      assert s != r ==> s in rest && rest[s] == pending[s];
    }
  }

  lemma RejoinNone(v: S.View)
    ensures S.RejoinAll(v, []) == (v, [])
  {}

  /** Rejoining one more topic at the end of a list. */
  lemma {:induction false} RejoinOneMore(v: S.View, order: seq<Topic>, t: Topic)
    requires t in S.RejoinAll(v, order).0.channels
    ensures var (w, outs) := S.RejoinAll(v, order);
            var (w', last) := S.Rejoin(w, t, w.channels[t].params);
            S.RejoinAll(v, order + [t]) == (w', outs + (if last.Ok? then [last.value] else []))
    decreases |order|
  {
    if order == [] {
      var last := S.Rejoin(v, t, v.channels[t].params).1;
      var head := if last.Ok? then [last.value] else [];
      assert [] + [t] == [t] && [t][1..] == [];
      assert head + [] == [] + head;
    } else {
      var tail := order[1..];
      assert (order + [t])[1..] == tail + [t];
      assert (order + [t])[0] == order[0];
      if order[0] !in v.channels {
        RejoinOneMore(v, tail, t);
      } else {
        var (v1, first) := S.Rejoin(v, order[0], v.channels[order[0]].params);
        RejoinOneMore(v1, tail, t);
        var head := if first.Ok? then [first.value] else [];
        var (w, outs) := S.RejoinAll(v1, tail);
        var last := S.Rejoin(w, t, w.channels[t].params).1;
        var more := if last.Ok? then [last.value] else [];
        assert head + (outs + more) == (head + outs) + more;
      }
    }
  }
}
