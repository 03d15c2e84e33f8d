/** The managed client's driver as functions on values: the state `DriverState` owns,
    together with the locals of one connection, and what each turn of its loop does. */
module DriverSpec {
  import opened Wire
  import P = ProtocolSpec

  type ReqId = nat

  datatype Operation = JoinOp | CallOp | CastOp | LeaveOp | PingOp

  /** What a requester receives through its one-shot responder. */
  datatype Answer =
    | Accepted(response: Payload)
    | Replied(status: P.ReplyStatus, response: Payload)
    | Sent
    | Pong
    | Timeout(operation: Operation)
    | Interrupted(operation: Operation)
    | JoinRefused(response: Payload)
    | LoaderFailed
    | UnknownTopic
    | AlreadyJoined
    | ChannelNotJoined
    | PushBufferFull
    | SocketNotConnected
    | BinaryNotSupported

  /** The container that holds a responder. */
  datatype Place =
    | Waiter(topic: Topic)
    | Queue(topic: Topic)
    | Deferred(topic: Topic)
    | Calling(reference: Ref)
    | Pinging(reference: Ref)
    | LeavingOn(reference: Ref)

  /** What has become of an accepted request. `Twice` records a second answer. */
  datatype Fate = At(place: Place) | Answered(answer: Answer) | Silenced | Twice

  type Ledger = map<ReqId, Fate>

  /** A call or cast waiting to be sent; `stamp` numbers them in order of acceptance. */
  datatype Push = Push(id: ReqId, isCall: bool, event: string, payload: Payload, stamp: nat)

  datatype Status =
    | WaitingForSocket | WaitingToJoin | Joining | Joined | Leaving | Left | Errored | Closed

  /** A leave whose responder is gone when `open` is false. */
  datatype PendingLeave = PendingLeave(id: ReqId, open: bool)

  datatype PendingCall = PendingCall(id: ReqId, topic: Topic)

  datatype Record = Record(
    status: Status,
    desired: bool,
    everJoined: bool,
    activePayload: Option<nat>,
    rejoinScheduled: bool,
    waiters: set<ReqId>,
    queued: seq<Push>,
    deferred: Option<PendingLeave>)

  datatype Timer = JoinTimer(topic: Topic, reference: Ref) | LeaveTimer(topic: Topic, reference: Ref)

  /** One frame handed to the transport. A frame of a joined generation records whether
      the server had accepted that generation; a call or cast records the frame itself; a
      join records the payload load it carries and whether that was the topic's latest. */
  datatype Handed =
    | HandedPush(topic: Topic, id: ReqId, stamp: nat, backed: bool, frame: Frame)
    | HandedLeave(topic: Topic, backed: bool)
    | HandedJoin(topic: Topic, load: nat, latest: bool)
    | HandedHeartbeat

  datatype Phase = Idle | Connecting | Connected | Backoff | Stopped

  datatype Reason =
    | Requested | TransportFailed | TransportClosed | HeartbeatTimeout
    | CodecFailed | MalformedReply | ProtocolMisused

  /** The protocol and the driver's own entries for what it has transmitted. The
      heartbeat and the timers are locals of `run_connected`. */
  datatype Books = Books(
    proto: P.View,
    pendingJoins: map<Ref, Topic>,
    pendingCalls: map<Ref, PendingCall>,
    pendingPings: map<Ref, ReqId>,
    pendingLeaves: map<Ref, PendingLeave>,
    heartbeat: Option<Ref>,
    timers: set<Timer>)

  /** What an observer has seen: the frames handed to the transport, the number of calls
      and casts accepted, the joins the server accepted on this connection, and the
      latest payload load of each topic. */
  datatype Trace = Trace(wire: seq<Handed>, stamps: nat, accepted: set<Ref>, latest: map<Topic, nat>)

  /** The state of `DriverState` with the locals of one connection. The outstanding
      payload loads and rejoin timers are locals of `run_connected`. */
  datatype Client = Client(
    books: Books,
    channels: map<Topic, Record>,
    nextPayload: nat,
    capacity: nat,
    phase: Phase,
    payloads: set<(Topic, nat)>,
    rejoins: multiset<Topic>,
    ledger: Ledger,
    trace: Trace)

  /** The transport's side of one turn: the first `budget` frames are sent; the next one
      fails to encode or to be sent. */
  datatype Net = Net(binary: bool, budget: nat, encodes: bool)

  datatype Turn = Turn(client: Client, exit: Option<Reason>)

  // ----- Responders -----

  function Settle(l: Ledger, id: ReqId, f: Fate): Ledger {
    l[id := if id in l && l[id].At? then f else Twice]
  }

  function SettleAll(l: Ledger, ids: set<ReqId>, f: Fate): Ledger {
    map id | id in l.Keys + ids ::
      if id !in ids then l[id] else if id in l && l[id].At? then f else Twice
  }

  function Respond(c: Client, id: ReqId, a: Answer): Client {
    c.(ledger := Settle(c.ledger, id, Answered(a)))
  }

  function SettleLeave(l: Ledger, leave: Option<PendingLeave>, a: Answer): Ledger {
    if leave.Some? && leave.value.open then Settle(l, leave.value.id, Answered(a)) else l
  }

  function OperationOf(p: Push): Operation {
    if p.isCall then CallOp else CastOp
  }

  function SettleQueue(l: Ledger, queued: seq<Push>): Ledger
    decreases |queued|
  {
    if queued == [] then l
    else SettleQueue(Settle(l, queued[0].id, Answered(Interrupted(OperationOf(queued[0])))), queued[1..])
  }

  // ----- Books -----

  /** Asks the protocol for a push and registers the call under its reference. */
  function BookCall(b: Books, t: Topic, p: Push): (Books, Result<Ref, P.ProtocolError>) {
    var (proto, result) := P.Push(b.proto, t, p.event, p.payload);
    match result
    case Err(e) => (b.(proto := proto), Err(e))
    case Ok(out) =>
      (b.(proto := proto, pendingCalls := b.pendingCalls[out.reference := PendingCall(p.id, t)]), Ok(out.reference))
  }

  /** Asks the protocol for a leave, registers it and starts its timer. */
  function BookLeave(b: Books, t: Topic, leave: PendingLeave): (Books, Result<Ref, P.ProtocolError>) {
    var (proto, result) := P.Leave(b.proto, t);
    match result
    case Err(e) => (b.(proto := proto), Err(e))
    case Ok(out) =>
      (b.(proto := proto, pendingLeaves := b.pendingLeaves[out.reference := leave],
          timers := b.timers + {LeaveTimer(t, out.reference)}), Ok(out.reference))
  }

  /** Asks the protocol for a join (`rejoin` for a topic it knows), registers it and
      starts its timer. */
  function BookJoin(b: Books, t: Topic, params: Value): (Books, bool) {
    var (proto, result) := if t in b.proto.channels then P.Rejoin(b.proto, t, params) else P.Join(b.proto, t, params);
    match result
    case Err(e) => (b.(proto := proto), false)
    case Ok(out) =>
      (b.(proto := proto, pendingJoins := b.pendingJoins[out.reference := t],
          timers := b.timers + {JoinTimer(t, out.reference)}), true)
  }

  function BookPing(b: Books, id: ReqId): Books {
    var (proto, out) := P.Beat(b.proto);
    b.(proto := proto, pendingPings := b.pendingPings[out.reference := id])
  }

  function BookHeartbeat(b: Books): Books {
    var (proto, out) := P.Beat(b.proto);
    b.(proto := proto, heartbeat := Some(out.reference))
  }

  function BookDiscard(b: Books, t: Topic): Books {
    b.(proto := P.Discard(b.proto, t))
  }

  /** Removes every pending join of a topic. */
  function BookDropJoins(b: Books, t: Topic): Books {
    b.(pendingJoins := map r | r in b.pendingJoins && b.pendingJoins[r] != t :: b.pendingJoins[r])
  }

  function BookJoinDone(b: Books, r: Ref): Books {
    b.(pendingJoins := b.pendingJoins - {r})
  }

  function BookJoinTimeout(b: Books, t: Topic, r: Ref): Books {
    b.(timers := b.timers - {JoinTimer(t, r)}, pendingJoins := b.pendingJoins - {r})
  }

  function BookForgetCall(b: Books, r: Ref): Books {
    b.(pendingCalls := b.pendingCalls - {r}, proto := P.ForgetPush(b.proto, r).0)
  }

  function BookForgetPing(b: Books, r: Ref): Books {
    b.(pendingPings := b.pendingPings - {r}, proto := P.ForgetHeartbeat(b.proto, r).0)
  }

  function BookCloseLeave(b: Books, r: Ref): Books
    requires r in b.pendingLeaves
  {
    b.(pendingLeaves := b.pendingLeaves[r := b.pendingLeaves[r].(open := false)])
  }

  function BookReset(b: Books): Books {
    Books(P.Reset(b.proto), map[], map[], map[], map[], None, {})
  }

  // ----- Frames -----

  function Hand(c: Client, frame: Handed): Client {
    c.(trace := c.trace.(wire := c.trace.wire + [frame]))
  }

  function SendFrame(c: Client, net: Net, frame: Handed): Turn {
    if net.budget > 0 then Turn(Hand(c, frame), None)
    else if net.encodes then Turn(Hand(c, frame), Some(TransportFailed))
    else Turn(c, Some(CodecFailed))
  }

  /** Whether the generation of `t` that a frame would carry has been accepted. */
  predicate GenerationAccepted(c: Client, t: Topic) {
    t in c.books.proto.channels && c.books.proto.channels[t].joinRef in c.trace.accepted
  }

  predicate Unsendable(net: Net, p: Push) {
    p.payload.Binary? && !net.binary
  }

  /** What goes out for a call or cast: the frame the protocol makes of it. */
  function HandOver(c: Client, t: Topic, p: Push): (h: Handed)
    requires P.IsJoined(c.books.proto, t)
    ensures h.HandedPush?
  {
    HandedPush(t, p.id, p.stamp, GenerationAccepted(c, t),
               if p.isCall then P.Push(c.books.proto, t, p.event, p.payload).1.value.frame
               else P.Cast(c.books.proto, t, p.event, p.payload).value)
  }

  function SendPush(c: Client, net: Net, t: Topic, p: Push): (turn: Turn)
    ensures turn.client.channels == c.channels
  {
    if Unsendable(net, p) then Turn(Respond(c, p.id, BinaryNotSupported), None)
    else if p.isCall then SendCall(c, net, t, p)
    else SendCast(c, net, t, p)
  }

  function SendCall(c: Client, net: Net, t: Topic, p: Push): (turn: Turn)
    ensures turn.client.channels == c.channels
  {
    var (books, result) := BookCall(c.books, t, p);
    if result.Err? then
      Turn(c.(books := books, ledger := Settle(c.ledger, p.id, Silenced)), Some(ProtocolMisused))
    else
      SendFrame(
        c.(books := books, ledger := Settle(c.ledger, p.id, At(Calling(result.value)))),
        net, HandOver(c, t, p))
  }

  function SendCast(c: Client, net: Net, t: Topic, p: Push): (turn: Turn)
    ensures turn.client.channels == c.channels
  {
    if P.Cast(c.books.proto, t, p.event, p.payload).Err? then
      Turn(c.(ledger := Settle(c.ledger, p.id, Silenced)), Some(ProtocolMisused))
    else
      var turn := SendFrame(c, net, HandOver(c, t, p));
      Turn(Respond(turn.client, p.id, if turn.exit.None? then Sent else Interrupted(CastOp)), turn.exit)
  }

  function Spend(net: Net, p: Push): Net {
    if Unsendable(net, p) || net.budget == 0 then net else net.(budget := net.budget - 1)
  }

  function PopQueue(c: Client, t: Topic): Client
    requires t in c.channels && c.channels[t].queued != []
  {
    c.(channels := c.channels[t := c.channels[t].(queued := c.channels[t].queued[1..])])
  }

  function Flush(c: Client, net: Net, t: Topic): Turn
    decreases if t in c.channels then |c.channels[t].queued| else 0
  {
    if t !in c.channels || c.channels[t].queued == [] then Turn(c, None)
    else
      var p := c.channels[t].queued[0];
      var turn := SendPush(PopQueue(c, t), net, t, p);
      if turn.exit.Some? then turn else Flush(turn.client, Spend(net, p), t)
  }

  // ----- Channel records -----

  function SetRecord(c: Client, t: Topic, rec: Record): Client {
    c.(channels := c.channels[t := rec])
  }

  function SetStatus(c: Client, t: Topic, status: Status): Client {
    if t in c.channels then SetRecord(c, t, c.channels[t].(status := status)) else c
  }

  const FRESH := Record(Closed, false, false, None, false, {}, [], None)

  function Register(c: Client, t: Topic): Client {
    if t in c.channels then c else SetRecord(c, t, FRESH)
  }

  function StopChannel(c: Client, t: Topic): Client {
    if t !in c.channels then c
    else
      var rec := c.channels[t];
      var l1 := SettleLeave(c.ledger, rec.deferred, Interrupted(LeaveOp));
      var l2 := SettleAll(l1, rec.waiters, Answered(Interrupted(JoinOp)));
      SetRecord(c, t, rec.(desired := false, activePayload := None, rejoinScheduled := false,
                           deferred := None, waiters := {}, queued := []))
        .(ledger := SettleQueue(l2, rec.queued))
  }

  function Forget(c: Client, t: Topic): Client {
    var c1 := StopChannel(c, t);
    c1.(channels := c1.channels - {t}, books := BookDiscard(c1.books, t))
  }

  function Unregister(c: Client, net: Net, t: Topic): Turn {
    if !P.IsJoined(c.books.proto, t) then Turn(Forget(c, t), None)
    else
      var (proto, result) := P.Leave(c.books.proto, t);
      var c1 := Forget(c.(books := c.books.(proto := proto)), t);
      if result.Ok? then SendFrame(c1, net, HandedLeave(t, GenerationAccepted(c, t))) else Turn(c1, None)
  }

  function Enqueue(c: Client, t: Topic, p: Push): Client {
    if t !in c.channels then Respond(c, p.id, Interrupted(OperationOf(p)))
    else
      var rec := c.channels[t];
      if rec.everJoined && !rec.desired then Respond(c, p.id, ChannelNotJoined)
      else if |rec.queued| < c.capacity then
        SetRecord(c, t, rec.(queued := rec.queued + [p])).(ledger := Settle(c.ledger, p.id, At(Queue(t))))
      else Respond(c, p.id, PushBufferFull)
  }

  function LoadPayload(c: Client, t: Topic): Client {
    if t !in c.channels || !c.channels[t].desired || c.channels[t].activePayload.Some? || P.Active(c.books.proto, t) then c
    else
      var id := c.nextPayload + 1;
      SetRecord(c, t, c.channels[t].(status := WaitingToJoin, activePayload := Some(id)))
        .(nextPayload := id, payloads := c.payloads + {(t, id)}, trace := c.trace.(latest := c.trace.latest[t := id]))
  }

  function ScheduleRejoin(c: Client, t: Topic): Client {
    if t !in c.channels || !c.channels[t].desired || c.channels[t].rejoinScheduled then c
    else SetRecord(c, t, c.channels[t].(rejoinScheduled := true)).(rejoins := c.rejoins + multiset{t})
  }

  // ----- Requests -----

  /** A request enters the books: its responder exists from here on. */
  function Enter(c: Client, id: ReqId, place: Place): Client {
    c.(ledger := c.ledger[id := At(place)])
  }

  /** Accepts a call or cast and gives it the next stamp. */
  function Stamp(c: Client, t: Topic, id: ReqId): Client {
    Enter(c, id, Queue(t)).(trace := c.trace.(stamps := c.trace.stamps + 1))
  }

  function RequestPush(c: Client, net: Net, t: Topic, id: ReqId, isCall: bool, event: string, payload: Payload): Turn {
    var p := Push(id, isCall, event, payload, c.trace.stamps);
    var c1 := Stamp(c, t, id);
    if c.phase.Connected? && P.IsJoined(c.books.proto, t) then SendPush(c1, net, t, p)
    else Turn(Enqueue(c1, t, p), None)
  }

  function RequestPing(c: Client, net: Net, id: ReqId): Turn {
    if !c.phase.Connected? then Turn(Respond(Enter(c, id, Pinging(0)), id, SocketNotConnected), None)
    else SendFrame(Enter(c, id, Pinging(c.books.proto.next + 1)).(books := BookPing(c.books, id)), net, HandedHeartbeat)
  }

  function RequestJoin(c: Client, t: Topic, id: ReqId): Client {
    var c1 := Enter(c, id, Waiter(t));
    if t !in c.channels then Respond(c1, id, UnknownTopic)
    else
      var rec := c.channels[t];
      if !c.phase.Connected? then
        SetRecord(c1, t, rec.(desired := true, status := WaitingForSocket, waiters := rec.waiters + {id}))
      else if P.IsJoined(c.books.proto, t) then
        Respond(SetRecord(c1, t, rec.(desired := true, status := Joined)), id, AlreadyJoined)
      else
        LoadPayload(SetRecord(c1, t, rec.(desired := true, status := WaitingToJoin, waiters := rec.waiters + {id})), t)
  }

  /** Starts the leave of a joined topic, with its timer. */
  function StartLeave(c: Client, net: Net, t: Topic, leave: PendingLeave): Turn {
    var (books, result) := BookLeave(c.books, t, leave);
    if result.Err? then
      Turn(c.(books := books, ledger := if leave.open then Settle(c.ledger, leave.id, Silenced) else c.ledger),
           Some(ProtocolMisused))
    else
      SendFrame(
        c.(books := books,
           ledger := if leave.open then Settle(c.ledger, leave.id, At(LeavingOn(result.value))) else c.ledger),
        net, HandedLeave(t, GenerationAccepted(c, t)))
  }

  function RequestLeave(c: Client, net: Net, t: Topic, id: ReqId): Turn {
    var c1 := Enter(c, id, Deferred(t));
    if !c.phase.Connected? then
      Turn(Respond(StopChannel(SetStatus(c1, t, Left), t), id, Accepted(EMPTY_OBJECT)), None)
    else
      var state := P.StateOf(c.books.proto, t);
      var status := if state == Some(P.Joined) || state == Some(P.Joining) then Leaving else Left;
      var c2 := StopChannel(SetStatus(c1, t, status), t);
      if state == Some(P.Joined) then StartLeave(c2, net, t, PendingLeave(id, true))
      else if state == Some(P.Joining) && t in c2.channels then
        Turn(SetRecord(c2, t, c2.channels[t].(deferred := Some(PendingLeave(id, true))))
               .(ledger := Settle(c2.ledger, id, At(Deferred(t)))), None)
      else Turn(Respond(c2, id, Accepted(EMPTY_OBJECT)), None)
  }

  function CancelWaiter(c: Client, t: Topic, id: ReqId): Client
    requires t in c.channels
  {
    var rec := c.channels[t];
    var left := rec.(waiters := rec.waiters - {id});
    var c1 := SetRecord(c, t, left).(ledger := Settle(c.ledger, id, Silenced));
    if left.waiters == {} && !rec.everJoined then
      SetRecord(c1, t, left.(desired := false, activePayload := None, status := Left))
        .(books := BookDiscard(BookDropJoins(c.books, t), t))
    else c1
  }

  function WithoutId(queued: seq<Push>, id: ReqId): seq<Push>
    decreases |queued|
  {
    if queued == [] then [] else if queued[0].id == id then queued[1..] else [queued[0]] + WithoutId(queued[1..], id)
  }

  /** Cancels a request wherever its responder is; an answered, silenced or not yet
      accepted request is left alone. */
  function Cancel(c: Client, id: ReqId): Client {
    if id !in c.ledger || !c.ledger[id].At? then c
    else
      var gone := c.(ledger := Settle(c.ledger, id, Silenced));
      match c.ledger[id].place
      case Waiter(t) => if t in c.channels then CancelWaiter(c, t, id) else c
      case Deferred(t) =>
        if t in c.channels && c.channels[t].deferred.Some? then
          SetRecord(gone, t, c.channels[t].(deferred := Some(c.channels[t].deferred.value.(open := false))))
        else c
      case Queue(t) =>
        if t in c.channels then
          SetRecord(gone, t, c.channels[t].(queued := WithoutId(c.channels[t].queued, id)))
        else c
      case Calling(r) => gone.(books := BookForgetCall(c.books, r))
      case Pinging(r) => gone.(books := BookForgetPing(c.books, r))
      case LeavingOn(r) =>
        if r in c.books.pendingLeaves then gone.(books := BookCloseLeave(c.books, r))
        else c
  }

  // ----- Completions of one connection -----

  function PayloadReady(c: Client, net: Net, t: Topic, load: nat, loaded: Option<Value>): Turn {
    var c1 := c.(payloads := c.payloads - {(t, load)});
    if t !in c.channels || c.channels[t].activePayload != Some(load) then Turn(c1, None)
    else
      var rec := c.channels[t].(activePayload := None);
      var c2 := SetRecord(c1, t, rec);
      if !rec.desired then Turn(c2, None)
      else if loaded.None? then
        Turn(SetRecord(c2, t, rec.(desired := false, status := Errored, waiters := {}))
               .(ledger := SettleAll(c.ledger, rec.waiters, Answered(LoaderFailed))), None)
      else if P.Active(c.books.proto, t) then Turn(c2, None)
      else StartJoin(c2, net, t, load, loaded.value)
  }

  /** Sends the join that carries a loaded payload: `rejoin` for a topic the protocol
      knows, `join` for one it does not. */
  function StartJoin(c: Client, net: Net, t: Topic, load: nat, params: Value): Turn {
    var (books, ok) := BookJoin(c.books, t, params);
    if !ok then Turn(c.(books := books), Some(ProtocolMisused))
    else
      SendFrame(
        SetStatus(c, t, Joining).(books := books),
        net, HandedJoin(t, load, t in c.trace.latest && c.trace.latest[t] == load))
  }

  function HeartbeatTick(c: Client, net: Net): Turn {
    if c.books.heartbeat.Some? then Turn(c, Some(HeartbeatTimeout))
    else SendFrame(c.(books := BookHeartbeat(c.books)), net, HandedHeartbeat)
  }

  function RejoinFired(c: Client, t: Topic): Client {
    var c1 := c.(rejoins := c.rejoins - multiset{t});
    if t !in c.channels then c1
    else
      var c2 := SetRecord(c1, t, c.channels[t].(rejoinScheduled := false));
      if c.channels[t].desired then LoadPayload(c2, t) else c2
  }

  function JoinTimedOut(c: Client, t: Topic, r: Ref): Client {
    var c1 := c.(books := BookJoinTimeout(c.books, t, r));
    if r !in c.books.pendingJoins || c.books.pendingJoins[r] != t then c1
    else
      var c2 := c1.(books := BookDiscard(c1.books, t));
      if t !in c.channels then c2
      else
        var rec := c.channels[t].(activePayload := None);
        if rec.deferred.Some? then
          SetRecord(c2, t, rec.(deferred := None, status := Left))
            .(ledger := SettleLeave(c.ledger, rec.deferred, Timeout(LeaveOp)))
        else if rec.desired then
          ScheduleRejoin(
            SetRecord(c2, t, rec.(status := Errored, waiters := {}))
              .(ledger := SettleAll(c.ledger, rec.waiters, Answered(Timeout(JoinOp)))), t)
        else SetRecord(c2, t, rec.(status := Left))
  }

  function LeaveTimedOut(c: Client, t: Topic, r: Ref): Client {
    var c1 := c.(books := c.books.(timers := c.books.timers - {LeaveTimer(t, r)}));
    if r !in c.books.pendingLeaves then c1
    else
      var c2 := c1.(ledger := SettleLeave(c.ledger, Some(c.books.pendingLeaves[r]), Timeout(LeaveOp)),
                    books := BookDiscard(c1.books.(pendingLeaves := c.books.pendingLeaves - {r}), t));
      if t in c.channels && c.channels[t].desired then LoadPayload(SetStatus(c2, t, WaitingToJoin), t)
      else SetStatus(c2, t, Left)
  }

  // ----- Incoming frames -----

  function Incoming(c: Client, net: Net, f: Frame): Turn {
    var (proto, result) := P.Receive(c.books.proto, f);
    var c1 := c.(books := c.books.(proto := proto));
    if result.Err? then Turn(c1, Some(MalformedReply)) else React(c1, net, result.value)
  }

  function React(c: Client, net: Net, event: P.Event): Turn {
    match event
    case JoinAccepted(t, r, response) => OnJoined(c, net, t, r, response)
    case JoinRejected(t, r, response) => Turn(OnJoinRejected(c, t, r, response), None)
    case Left(t, r, response) => Turn(OnLeft(c, t, r, response), None)
    case Replied(_, _, r, status, response) => Turn(OnReply(c, r, status, response), None)
    case HeartbeatAck(r, _) => Turn(OnHeartbeat(c, r), None)
    case ChannelFailed(t, _) =>
      Turn(ScheduleRejoin(SetStatus(c.(books := BookDropJoins(c.books, t)), t, Errored), t), None)
    case ChannelClosed(t, _) =>
      Turn(StopChannel(SetStatus(c.(books := BookDropJoins(c.books, t)), t, Closed), t), None)
    case _ => Turn(c, None)
  }

  function MarkJoined(c: Client, t: Topic, r: Ref, response: Payload): Client {
    var c1 := c.(books := BookJoinDone(c.books, r), trace := c.trace.(accepted := c.trace.accepted + {r}));
    if t !in c.channels then c1
    else
      var rec := c.channels[t];
      SetRecord(c1, t, rec.(everJoined := true, rejoinScheduled := false, deferred := None, waiters := {},
                            status := if rec.deferred.Some? then Leaving else Joined))
        .(ledger := SettleAll(c.ledger, rec.waiters, Answered(Accepted(response))))
  }

  function OnJoined(c: Client, net: Net, t: Topic, r: Ref, response: Payload): Turn {
    var c1 := MarkJoined(c, t, r, response);
    if t in c.channels && c.channels[t].deferred.Some? then StartLeave(c1, net, t, c.channels[t].deferred.value)
    else Flush(c1, net, t)
  }

  function OnJoinRejected(c: Client, t: Topic, r: Ref, response: Payload): Client {
    var c1 := c.(books := BookJoinDone(c.books, r));
    if t !in c.channels then c1
    else
      var rec := c.channels[t];
      var l1 := SettleLeave(c.ledger, rec.deferred, Accepted(EMPTY_OBJECT));
      ScheduleRejoin(
        SetRecord(c1, t, rec.(status := if rec.deferred.Some? then Left else Errored, deferred := None, waiters := {}))
          .(ledger := SettleAll(l1, rec.waiters, Answered(JoinRefused(response)))), t)
  }

  function OnLeft(c: Client, t: Topic, r: Ref, response: Payload): Client {
    var c1 := if r in c.books.pendingLeaves then
                c.(books := c.books.(pendingLeaves := c.books.pendingLeaves - {r}),
                   ledger := SettleLeave(c.ledger, Some(c.books.pendingLeaves[r]), Accepted(response)))
              else c;
    if t in c.channels && c.channels[t].desired then LoadPayload(SetStatus(c1, t, WaitingToJoin), t)
    else SetStatus(c1, t, Left)
  }

  function OnReply(c: Client, r: Ref, status: P.ReplyStatus, response: Payload): Client {
    if r in c.books.pendingCalls then
      Respond(c.(books := c.books.(pendingCalls := c.books.pendingCalls - {r})), c.books.pendingCalls[r].id, Replied(status, response))
    else c
  }

  function OnHeartbeat(c: Client, r: Ref): Client {
    if c.books.heartbeat == Some(r) then c.(books := c.books.(heartbeat := None))
    else if r in c.books.pendingPings then
      Respond(c.(books := c.books.(pendingPings := c.books.pendingPings - {r})), c.books.pendingPings[r], Pong)
    else c
  }

  // ----- Connections -----

  function CallIds(calls: map<Ref, PendingCall>): set<ReqId> {
    set r | r in calls :: calls[r].id
  }

  function OpenLeaves(leaves: map<Ref, PendingLeave>): set<ReqId> {
    set r | r in leaves && leaves[r].open :: leaves[r].id
  }

  function OpenDeferred(channels: map<Topic, Record>): set<ReqId> {
    set t | t in channels && channels[t].deferred.Some? && channels[t].deferred.value.open :: channels[t].deferred.value.id
  }

  function Offline(rec: Record): Record {
    rec.(activePayload := None, rejoinScheduled := false, deferred := None,
         status := if rec.desired then WaitingForSocket else Left)
  }

  function InterruptAll(c: Client): Ledger {
    var l1 := SettleAll(c.ledger, CallIds(c.books.pendingCalls), Answered(Interrupted(CallOp)));
    var l2 := SettleAll(l1, c.books.pendingPings.Values, Answered(Interrupted(PingOp)));
    var l3 := SettleAll(l2, OpenLeaves(c.books.pendingLeaves), Answered(Interrupted(LeaveOp)));
    SettleAll(l3, OpenDeferred(c.channels), Answered(Interrupted(LeaveOp)))
  }

  /** The end of a connection: everything transmitted is interrupted, queued pushes and
      join waiters stay, and the connection's own completions are dropped. */
  function OnDisconnect(c: Client, phase: Phase): Client {
    Client(
      BookReset(c.books),
      map t | t in c.channels :: Offline(c.channels[t]),
      c.nextPayload, c.capacity, phase, {}, multiset{},
      InterruptAll(c),
      c.trace.(accepted := {}))
  }

  function LoadAll(c: Client, order: seq<Topic>): Client
    decreases |order|
  {
    if order == [] then c else LoadAll(LoadPayload(SetStatus(c, order[0], WaitingToJoin), order[0]), order[1..])
  }

  function Opened(c: Client): Client {
    c.(phase := Connected, channels := map t | t in c.channels :: c.channels[t].(rejoinScheduled := false))
  }

  /** The start of a connection: each desired topic, in the order the map yields them,
      loads its join payload. */
  function OnConnect(c: Client, order: seq<Topic>): Client {
    LoadAll(Opened(c), order)
  }

  function Shutdown(c: Client): Client {
    c.(phase := Stopped, channels := map t | t in c.channels :: c.channels[t].(status := Closed))
  }

  // ----- The driver's actions -----

  datatype Action =
    // lifecycle and command queues, served online and offline
    | DoRegister(topic: Topic)
    | DoUnregister(topic: Topic)
    | DoCancel(id: ReqId)
    | DoJoin(topic: Topic, id: ReqId)
    | DoPush(topic: Topic, id: ReqId, isCall: bool, event: string, payload: Payload)
    | DoLeave(topic: Topic, id: ReqId)
    | DoPing(id: ReqId)
    // connection control
    | DoConnect
    | DoDisconnect
    | DoShutdown
    | AttemptSucceeded(order: seq<Topic>)
    | AttemptFailed
    | BackoffElapsed
    // one connection
    | FrameArrived(frame: Frame)
    | FrameUndecodable
    | TransportEnded(failed: bool)
    | HeartbeatDue
    | LoadFinished(topic: Topic, load: nat, loaded: Option<Value>)
    | RejoinDue(topic: Topic)
    | TimerDue(timer: Timer)

  predicate IsRequest(a: Action) {
    a.DoRegister? || a.DoUnregister? || a.DoCancel? || a.DoJoin? || a.DoPush? || a.DoLeave? || a.DoPing?
  }

  function Act(c: Client, net: Net, a: Action): Turn {
    match a
    case DoRegister(t) => Turn(Register(c, t), None)
    case DoUnregister(t) => if c.phase.Connected? then Unregister(c, net, t) else Turn(Forget(c, t), None)
    case DoCancel(id) => Turn(Cancel(c, id), None)
    case DoJoin(t, id) => Turn(RequestJoin(c, t, id), None)
    case DoPush(t, id, isCall, event, payload) => RequestPush(c, net, t, id, isCall, event, payload)
    case DoLeave(t, id) => RequestLeave(c, net, t, id)
    case DoPing(id) => RequestPing(c, net, id)
    case DoConnect => Turn(if c.phase.Idle? then c.(phase := Connecting) else c, None)
    case DoDisconnect => Turn(c, if c.phase.Idle? then None else Some(Requested))
    case DoShutdown => Turn(Shutdown(c), None)
    case AttemptSucceeded(order) => Turn(OnConnect(c, order), None)
    case AttemptFailed => Turn(c.(phase := Backoff), None)
    case BackoffElapsed => Turn(c.(phase := Connecting), None)
    case FrameArrived(f) => Incoming(c, net, f)
    case FrameUndecodable => Turn(c, Some(CodecFailed))
    case TransportEnded(failed) => Turn(c, Some(if failed then TransportFailed else TransportClosed))
    case HeartbeatDue => HeartbeatTick(c, net)
    case LoadFinished(t, load, loaded) => PayloadReady(c, net, t, load, loaded)
    case RejoinDue(t) => Turn(RejoinFired(c, t), None)
    case TimerDue(JoinTimer(t, r)) => Turn(JoinTimedOut(c, t, r), None)
    case TimerDue(LeaveTimer(t, r)) => Turn(LeaveTimedOut(c, t, r), None)
  }

  /** One turn of the driver. When the action ends the connection, `on_disconnect` runs;
      `retry` is the reconnect policy's decision. */
  function Next(c: Client, net: Net, a: Action, retry: bool): Client {
    AfterTurn(Act(c, net, a), a, retry)
  }

  function AfterTurn(turn: Turn, a: Action, retry: bool): Client {
    match turn.exit
    case None => if a.AttemptFailed? && !retry then turn.client.(phase := Idle) else turn.client
    case Some(Requested) => OnDisconnect(turn.client, Idle)
    case Some(_) => OnDisconnect(turn.client, if retry then Backoff else Idle)
  }

  /** What the environment may do: a request brings a new id, a completion was
      outstanding, and each control fits the phase. */
  ghost predicate Enabled(c: Client, a: Action) {
    match a
    case DoRegister(_) => !c.phase.Stopped?
    case DoUnregister(_) => !c.phase.Stopped?
    case DoCancel(_) => !c.phase.Stopped?
    case DoJoin(_, id) => !c.phase.Stopped? && id !in c.ledger
    case DoPush(_, id, _, _, _) => !c.phase.Stopped? && id !in c.ledger
    case DoLeave(_, id) => !c.phase.Stopped? && id !in c.ledger
    case DoPing(id) => !c.phase.Stopped? && id !in c.ledger
    case DoConnect => !c.phase.Stopped?
    case DoDisconnect => !c.phase.Stopped?
    case DoShutdown => !c.phase.Stopped?
    case AttemptSucceeded(order) =>
      && c.phase.Connecting?
      && (forall t :: t in order <==> t in c.channels && c.channels[t].desired)
    case AttemptFailed => c.phase.Connecting?
    case BackoffElapsed => c.phase.Backoff?
    case FrameArrived(_) => c.phase.Connected?
    case FrameUndecodable => c.phase.Connected?
    case TransportEnded(_) => c.phase.Connected?
    case HeartbeatDue => c.phase.Connected?
    case LoadFinished(t, load, _) => c.phase.Connected? && (t, load) in c.payloads
    case RejoinDue(t) => c.phase.Connected? && t in c.rejoins
    case TimerDue(timer) => c.phase.Connected? && timer in c.books.timers
  }

  function Start(capacity: nat, connectOnStart: bool): Client {
    Client(
      Books(P.EMPTY, map[], map[], map[], map[], None, {}),
      map[], 0, capacity, if connectOnStart then Connecting else Idle, {}, multiset{}, map[],
      Trace([], 0, {}, map[]))
  }
}
