/** The protocol state machine as functions on values: what each operation of
    `Protocol` returns and the state it leaves behind. */
module ProtocolSpec {
  import opened Wire

  datatype ChannelState = Joining | Joined | Leaving | Closed | Errored | Disconnected

  datatype ReplyStatus = StatusOk | StatusError

  datatype Channel = Channel(state: ChannelState, joinRef: Ref, params: Value)

  datatype Pending =
    | PendingJoin(topic: Topic)
    | PendingLeave(topic: Topic)
    | PendingPush(topic: Topic, event: string)
    | PendingHeartbeat

  datatype ProtocolError =
    | AlreadyActive(topic: Topic)
    | NotJoined(topic: Topic)
    | UnknownTopic(topic: Topic)
    | InvalidReplyPayload
    | InvalidReplyStatus

  datatype Outbound = Outbound(reference: Ref, frame: Frame)

  datatype Event =
    | JoinAccepted(topic: Topic, reference: Ref, response: Payload)
    | JoinRejected(topic: Topic, reference: Ref, response: Payload)
    | Left(topic: Topic, reference: Ref, response: Payload)
    | Replied(topic: Topic, event: string, reference: Ref, status: ReplyStatus, response: Payload)
    | HeartbeatAck(reference: Ref, status: ReplyStatus)
    | Message(frame: Frame)
    | ChannelClosed(topic: Topic, payload: Payload)
    | ChannelFailed(topic: Topic, payload: Payload)
    | RequestInterrupted(topic: Topic, event: string, reference: Ref)
    | StaleMessage(frame: Frame)
    | UnmatchedReply(frame: Frame)

  /** The three fields of the source's `Protocol`. */
  datatype View = View(next: Ref, channels: map<Topic, Channel>, pending: map<Ref, Pending>)

  const EMPTY := View(0, map[], map[])

  function StateOf(v: View, t: Topic): Option<ChannelState> {
    if t in v.channels then Some(v.channels[t].state) else None
  }

  predicate Active(v: View, t: Topic) {
    t in v.channels && (v.channels[t].state.Joining? || v.channels[t].state.Joined? || v.channels[t].state.Leaving?)
  }

  predicate Inactive(v: View, t: Topic) {
    t in v.channels && !Active(v, t)
  }

  predicate IsJoined(v: View, t: Topic) {
    t in v.channels && v.channels[t].state.Joined?
  }

  /** Whether a pending request belongs to `t`; heartbeats belong to no topic. */
  predicate Concerns(p: Pending, t: Topic) {
    !p.PendingHeartbeat? && p.topic == t
  }

  function Join(v: View, t: Topic, params: Value): (View, Result<Outbound, ProtocolError>) {
    if Active(v, t) then (v, Err(AlreadyActive(t)))
    else
      var r := v.next + 1;
      (View(r, v.channels[t := Channel(Joining, r, params)], v.pending[r := PendingJoin(t)]),
       Ok(Outbound(r, Frame(Some(r), Some(r), t, "phx_join", Json(params)))))
  }

  function Discard(v: View, t: Topic): View {
    View(v.next, v.channels - {t}, map r | r in v.pending && !Concerns(v.pending[r], t) :: v.pending[r])
  }

  function Rejoin(v: View, t: Topic, params: Value): (View, Result<Outbound, ProtocolError>) {
    if Active(v, t) then (v, Err(AlreadyActive(t)))
    else if t in v.channels then Join(Discard(v, t), t, params)
    else Join(v, t, params)
  }

  /** Rejoins the listed topics in turn with their stored parameters, keeping
      the frames of those that succeed. */
  function RejoinAll(v: View, order: seq<Topic>): (View, seq<Outbound>)
    decreases |order|
  {
    if order == [] then (v, [])
    else if order[0] !in v.channels then RejoinAll(v, order[1..])
    else
      var (v1, first) := Rejoin(v, order[0], v.channels[order[0]].params);
      var (v2, rest) := RejoinAll(v1, order[1..]);
      (v2, (if first.Ok? then [first.value] else []) + rest)
  }

  function Leave(v: View, t: Topic): (View, Result<Outbound, ProtocolError>) {
    var r := v.next + 1;
    if t !in v.channels then (v.(next := r), Err(UnknownTopic(t)))
    else if !v.channels[t].state.Joined? then (v.(next := r), Err(NotJoined(t)))
    else
      (View(r, v.channels[t := v.channels[t].(state := Leaving)], v.pending[r := PendingLeave(t)]),
       Ok(Outbound(r, Frame(Some(v.channels[t].joinRef), Some(r), t, "phx_leave", EMPTY_OBJECT))))
  }

  function Push(v: View, t: Topic, event: string, payload: Payload): (View, Result<Outbound, ProtocolError>) {
    if !IsJoined(v, t) then (v, Err(NotJoined(t)))
    else
      var r := v.next + 1;
      (View(r, v.channels, v.pending[r := PendingPush(t, event)]),
       Ok(Outbound(r, Frame(Some(v.channels[t].joinRef), Some(r), t, event, payload))))
  }

  function Cast(v: View, t: Topic, event: string, payload: Payload): Result<Frame, ProtocolError> {
    if !IsJoined(v, t) then Err(NotJoined(t))
    else Ok(Frame(Some(v.channels[t].joinRef), None, t, event, payload))
  }

  function Beat(v: View): (View, Outbound) {
    var r := v.next + 1;
    (View(r, v.channels, v.pending[r := PendingHeartbeat]),
     Outbound(r, Frame(None, Some(r), PHOENIX_TOPIC, "heartbeat", EMPTY_OBJECT)))
  }

  function ForgetPush(v: View, r: Ref): (View, bool) {
    if r in v.pending && v.pending[r].PendingPush? then (v.(pending := v.pending - {r}), true) else (v, false)
  }

  function ForgetHeartbeat(v: View, r: Ref): (View, bool) {
    if r in v.pending && v.pending[r].PendingHeartbeat? then (v.(pending := v.pending - {r}), true) else (v, false)
  }

  function DecodeStatus(status: string): Result<ReplyStatus, ProtocolError> {
    if status == "ok" then Ok(StatusOk)
    else if status == "error" then Ok(StatusError)
    else Err(InvalidReplyStatus)
  }

  function DecodeReply(p: Payload): Result<(ReplyStatus, Payload), ProtocolError> {
    match p
    case Json(Object(fields)) =>
      if "status" !in fields || !fields["status"].Text? then Err(InvalidReplyStatus)
      else
        (match DecodeStatus(fields["status"].text)
         case Err(e) => Err(e)
         case Ok(status) => Ok((status, if "response" in fields then Json(fields["response"]) else EMPTY_OBJECT)))
    case Reply(status, response) =>
      (match DecodeStatus(status)
       case Err(e) => Err(e)
       case Ok(decoded) => Ok((decoded, response)))
    case _ => Err(InvalidReplyPayload)
  }

  function SetState(v: View, t: Topic, state: ChannelState): View {
    if t in v.channels then v.(channels := v.channels[t := v.channels[t].(state := state)]) else v
  }

  /** A frame that names a join generation other than its topic's current one. */
  predicate Stale(v: View, f: Frame) {
    f.topic in v.channels && f.joinRef.Some? && f.joinRef.value != v.channels[f.topic].joinRef
  }

  /** What a well-formed reply to a pending request does. */
  function Complete(v: View, r: Ref, p: Pending, status: ReplyStatus, response: Payload): (View, Event) {
    match p
    case PendingJoin(t) =>
      if status.StatusOk? then (SetState(v, t, Joined), JoinAccepted(t, r, response))
      else (SetState(v, t, Errored), JoinRejected(t, r, response))
    case PendingLeave(t) => (v.(channels := v.channels - {t}), Left(t, r, response))
    case PendingPush(t, event) => (v, Replied(t, event, r, status, response))
    case PendingHeartbeat => (v, HeartbeatAck(r, status))
  }

  function ReceiveReply(v: View, f: Frame): (View, Result<Event, ProtocolError>) {
    if f.reference.None? || f.reference.value !in v.pending then (v, Ok(UnmatchedReply(f)))
    else
      var r := f.reference.value;
      var v1 := v.(pending := v.pending - {r});
      match DecodeReply(f.payload)
      case Err(e) => (v1, Err(e))
      case Ok((status, response)) =>
        var (v2, event) := Complete(v1, r, v.pending[r], status, response);
        (v2, Ok(event))
  }

  function Receive(v: View, f: Frame): (View, Result<Event, ProtocolError>) {
    if Stale(v, f) then (v, Ok(StaleMessage(f)))
    else if f.event == "phx_reply" then ReceiveReply(v, f)
    else if f.event == "phx_close" then (SetState(v, f.topic, Closed), Ok(ChannelClosed(f.topic, f.payload)))
    else if f.event == "phx_error" then (SetState(v, f.topic, Errored), Ok(ChannelFailed(f.topic, f.payload)))
    else (v, Ok(Message(f)))
  }

  /** The event a pending request turns into when the connection is lost. */
  function Interruption(r: Ref, p: Pending): Event
    requires !p.PendingHeartbeat?
  {
    match p
    case PendingJoin(t) => RequestInterrupted(t, "phx_join", r)
    case PendingLeave(t) => RequestInterrupted(t, "phx_leave", r)
    case PendingPush(t, event) => RequestInterrupted(t, event, r)
  }

  function Interruptions(pending: map<Ref, Pending>): set<Event> {
    set r | r in pending && !pending[r].PendingHeartbeat? :: Interruption(r, pending[r])
  }

  function Reset(v: View): View {
    View(v.next, map t | t in v.channels :: v.channels[t].(state := Disconnected), map[])
  }
}
