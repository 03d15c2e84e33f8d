/** The driver as an observer would tabulate it: from what a turn finds and hears, which
    frames go out, whether the connection ends, and what becomes of each request. The
    table is written by what is observed, not by what the driver does about it. */
module DriverTable {
  import opened Wire
  import P = ProtocolSpec
  import opened DriverSpec

  // ----- What a turn hears -----

  /** What the protocol makes of the frame that arrived. */
  function Heard(c: Client, a: Action): Option<P.Event> {
    if a.FrameArrived? then
      (match P.Receive(c.books.proto, a.frame).1
       case Ok(event) => Some(event)
       case Err(_) => None)
    else None
  }

  predicate HearsAccepted(c: Client, a: Action, t: Topic) {
    Heard(c, a).Some? && Heard(c, a).value.JoinAccepted? && Heard(c, a).value.topic == t
  }

  predicate HearsRejected(c: Client, a: Action, t: Topic) {
    Heard(c, a).Some? && Heard(c, a).value.JoinRejected? && Heard(c, a).value.topic == t
  }

  predicate HearsLeft(c: Client, a: Action, t: Topic) {
    Heard(c, a).Some? && Heard(c, a).value.Left? && Heard(c, a).value.topic == t
  }

  predicate HearsClosed(c: Client, a: Action, t: Topic) {
    Heard(c, a).Some? && Heard(c, a).value.ChannelClosed? && Heard(c, a).value.topic == t
  }

  predicate HearsFailed(c: Client, a: Action, t: Topic) {
    Heard(c, a).Some? && Heard(c, a).value.ChannelFailed? && Heard(c, a).value.topic == t
  }

  /** The topic is joined and its frames can go out now. */
  predicate Open(c: Client, t: Topic) {
    c.phase.Connected? && P.StateOf(c.books.proto, t) == Some(P.Joined)
  }

  predicate IsActive(c: Client, t: Topic) {
    t in c.books.proto.channels && c.books.proto.channels[t].state in {P.Joining, P.Joined, P.Leaving}
  }

  /** The load that has finished is the one its topic waits for. */
  predicate LoadsWanted(c: Client, a: Action, t: Topic) {
    a.LoadFinished? && a.topic == t && t in c.channels && c.channels[t].activePayload == Some(a.load) && c.channels[t].desired
  }

  /** The timer of the topic's own join has fired. */
  predicate JoinExpires(c: Client, a: Action, t: Topic) {
    && a.TimerDue? && a.timer.JoinTimer? && a.timer.topic == t
    && a.timer.reference in c.books.pendingJoins && c.books.pendingJoins[a.timer.reference] == t
  }

  /** The timer of a leave still waiting has fired. */
  predicate LeaveExpires(c: Client, a: Action, t: Topic) {
    a.TimerDue? && a.timer.LeaveTimer? && a.timer.topic == t && a.timer.reference in c.books.pendingLeaves
  }

  // ----- What goes out -----

  function Sendables(queued: seq<Push>, binary: bool): seq<Push>
    decreases |queued|
  {
    if queued == [] then []
    else (if queued[0].payload.Binary? && !binary then [] else [queued[0]]) + Sendables(queued[1..], binary)
  }

  function CallsIn(pushes: seq<Push>): nat
    decreases |pushes|
  {
    if pushes == [] then 0 else (if pushes[0].isCall then 1 else 0) + CallsIn(pushes[1..])
  }

  /** The frames of the pushes in order: the calls take the next references. */
  function FramesOf(t: Topic, joinRef: Ref, next: Ref, pushes: seq<Push>): seq<Handed> {
    seq(|pushes|, k requires 0 <= k < |pushes| =>
      HandedPush(t, pushes[k].id, pushes[k].stamp, true,
                 Frame(Some(joinRef), if pushes[k].isCall then Some(next + 1 + CallsIn(pushes[..k])) else None,
                       t, pushes[k].event, pushes[k].payload)))
  }

  /** The frames a turn has to send, in order. */
  function Outbox(c: Client, binary: bool, a: Action): seq<Handed> {
    match a
    case DoUnregister(t) => if Open(c, t) then [HandedLeave(t, true)] else []
    case DoLeave(t, _) => if Open(c, t) then [HandedLeave(t, true)] else []
    case DoPush(t, id, isCall, event, payload) =>
      if Open(c, t) then
        FramesOf(t, c.books.proto.channels[t].joinRef, c.books.proto.next,
                 Sendables([Push(id, isCall, event, payload, c.trace.stamps)], binary))
      else []
    case DoPing(_) => if c.phase.Connected? then [HandedHeartbeat] else []
    case HeartbeatDue => if c.books.heartbeat.None? then [HandedHeartbeat] else []
    case LoadFinished(t, load, loaded) =>
      if LoadsWanted(c, a, t) && loaded.Some? && !IsActive(c, t) then [HandedJoin(t, load, true)] else []
    case FrameArrived(_) =>
      (match Heard(c, a)
       case Some(JoinAccepted(t, r, _)) =>
         if t !in c.channels then []
         else if c.channels[t].deferred.Some? then [HandedLeave(t, true)]
         else FramesOf(t, r, c.books.proto.next, Sendables(c.channels[t].queued, binary))
       case _ => [])
    case _ => []
  }

  /** How many frames the transport takes; the one it fails on has left the codec. */
  function Room(net: Net): nat {
    net.budget + if net.encodes then 1 else 0
  }

  function Min(m: nat, n: nat): nat {
    if m < n then m else n
  }

  function WireAfter(c: Client, net: Net, a: Action): seq<Handed> {
    var out := Outbox(c, net.binary, a);
    c.trace.wire + out[..Min(|out|, Room(net))]
  }

  /** Why a turn ends the connection, if it does. */
  function Ending(c: Client, net: Net, a: Action): Option<Reason> {
    match a
    case DoDisconnect => if c.phase == Idle then None else Some(Requested)
    case FrameUndecodable => Some(CodecFailed)
    case TransportEnded(failed) => Some(if failed then TransportFailed else TransportClosed)
    case _ =>
      if a.FrameArrived? && P.Receive(c.books.proto, a.frame).1.Err? then Some(MalformedReply)
      else if a.HeartbeatDue? && c.books.heartbeat.Some? then Some(HeartbeatTimeout)
      else if |Outbox(c, net.binary, a)| > net.budget then Some(if net.encodes then TransportFailed else CodecFailed)
      else None
  }

  function PhaseAfter(c: Client, net: Net, a: Action, retry: bool): Phase {
    match Ending(c, net, a)
    case Some(Requested) => Idle
    case Some(_) => if retry then Backoff else Idle
    case None =>
      match a
      case DoConnect => if c.phase == Idle then Connecting else c.phase
      case DoShutdown => Stopped
      case AttemptSucceeded(_) => Connected
      case AttemptFailed => if retry then Backoff else Idle
      case BackoffElapsed => Connecting
      case _ => c.phase
  }

  // ----- What becomes of a request -----

  function OpOf(isCall: bool): Operation {
    if isCall then CallOp else CastOp
  }

  /** A push whose turn to be sent has come, with `before` frames, `calls` of them calls,
      ahead of it. */
  function PushVerdict(t: Topic, p: Push, before: nat, calls: nat, net: Net, next: Ref): Fate {
    if before > net.budget then At(Queue(t))
    else if p.payload.Binary? && !net.binary then Answered(BinaryNotSupported)
    else if p.isCall then At(Calling(next + 1 + calls))
    else if before < net.budget then Answered(Sent)
    else Answered(Interrupted(CastOp))
  }

  function Position(queued: seq<Push>, id: ReqId): (i: nat)
    ensures i <= |queued|
    ensures i < |queued| ==> queued[i].id == id
    ensures forall j :: 0 <= j < i ==> queued[j].id != id
    decreases |queued|
  {
    if queued == [] || queued[0].id == id then 0 else 1 + Position(queued[1..], id)
  }

  function QueuedVerdict(t: Topic, queued: seq<Push>, id: ReqId, net: Net, next: Ref): Fate {
    var i := Position(queued, id);
    if i == |queued| then At(Queue(t))
    else
      var ahead := Sendables(queued[..i], net.binary);
      PushVerdict(t, queued[i], |ahead|, CallsIn(ahead), net, next)
  }

  /** The topic is given up: by its leave, its unregistration or the server's close. */
  predicate GivesUp(c: Client, a: Action, t: Topic) {
    (a.DoLeave? && a.topic == t) || (a.DoUnregister? && a.topic == t) || HearsClosed(c, a, t)
  }

  /** What the turn itself makes of a pending request. */
  function PendingVerdict(c: Client, net: Net, a: Action, id: ReqId, p: Place): Fate {
    if a == DoCancel(id) then Silenced
    else
      match p
      case Waiter(t) =>
        if GivesUp(c, a, t) then Answered(Interrupted(JoinOp))
        else if HearsAccepted(c, a, t) then Answered(Accepted(Heard(c, a).value.response))
        else if HearsRejected(c, a, t) then Answered(JoinRefused(Heard(c, a).value.response))
        else if LoadsWanted(c, a, t) && a.loaded.None? then Answered(LoaderFailed)
        else if JoinExpires(c, a, t) && t in c.channels && c.channels[t].deferred.None? && c.channels[t].desired then
          Answered(Timeout(JoinOp))
        else At(p)
      case Queue(t) =>
        if t !in c.channels then At(p)
        else
          var i := Position(c.channels[t].queued, id);
          if i < |c.channels[t].queued| && GivesUp(c, a, t) then Answered(Interrupted(OpOf(c.channels[t].queued[i].isCall)))
          else if HearsAccepted(c, a, t) && c.channels[t].deferred.None? then
            QueuedVerdict(t, c.channels[t].queued, id, net, c.books.proto.next)
          else At(p)
      case Deferred(t) =>
        if GivesUp(c, a, t) then Answered(Interrupted(LeaveOp))
        else if HearsAccepted(c, a, t) then At(LeavingOn(c.books.proto.next + 1))
        else if HearsRejected(c, a, t) then Answered(Accepted(Json(Object(map[]))))
        else if JoinExpires(c, a, t) then Answered(Timeout(LeaveOp))
        else At(p)
      case Calling(r) =>
        (match Heard(c, a)
         case Some(Replied(_, _, s, status, response)) => if s == r then Answered(Answer.Replied(status, response)) else At(p)
         case _ => At(p))
      case Pinging(r) =>
        (match Heard(c, a)
         case Some(HeartbeatAck(s, _)) => if s == r then Answered(Pong) else At(p)
         case _ => At(p))
      case LeavingOn(r) =>
        if a.TimerDue? && a.timer.LeaveTimer? && a.timer.reference == r then Answered(Timeout(LeaveOp))
        else
          match Heard(c, a)
          case Some(Left(_, s, response)) => if s == r then Answered(Accepted(response)) else At(p)
          case _ => At(p)
  }

  /** The request a turn accepts. */
  function NewRequest(a: Action): Option<ReqId> {
    match a
    case DoJoin(_, id) => Some(id)
    case DoPush(_, id, _, _, _) => Some(id)
    case DoLeave(_, id) => Some(id)
    case DoPing(id) => Some(id)
    case _ => None
  }

  /** What the turn itself makes of the request it accepts. */
  function FirstVerdict(c: Client, net: Net, a: Action): Fate
    requires NewRequest(a).Some?
  {
    match a
    case DoJoin(t, _) =>
      if t !in c.channels then Answered(UnknownTopic)
      else if Open(c, t) then Answered(AlreadyJoined)
      else At(Waiter(t))
    case DoPush(t, id, isCall, event, payload) =>
      if Open(c, t) then PushVerdict(t, Push(id, isCall, event, payload, c.trace.stamps), 0, 0, net, c.books.proto.next)
      else if t !in c.channels then Answered(Interrupted(OpOf(isCall)))
      else if c.channels[t].everJoined && !c.channels[t].desired then Answered(ChannelNotJoined)
      else if |c.channels[t].queued| >= c.capacity then Answered(PushBufferFull)
      else At(Queue(t))
    case DoLeave(t, _) =>
      if Open(c, t) then At(LeavingOn(c.books.proto.next + 1))
      else if c.phase.Connected? && P.StateOf(c.books.proto, t) == Some(P.Joining) && t in c.channels then At(Deferred(t))
      else Answered(Accepted(Json(Object(map[]))))
    case DoPing(_) => if c.phase.Connected? then At(Pinging(c.books.proto.next + 1)) else Answered(SocketNotConnected)
  }

  /** The loss of the connection interrupts what was on its way; join waiters and queued
      pushes wait for the next one. */
  function Lost(f: Fate): Fate {
    match f
    case At(Calling(_)) => Answered(Interrupted(CallOp))
    case At(Pinging(_)) => Answered(Interrupted(PingOp))
    case At(LeavingOn(_)) => Answered(Interrupted(LeaveOp))
    case At(Deferred(_)) => Answered(Interrupted(LeaveOp))
    case _ => f
  }

  function Verdict(c: Client, net: Net, a: Action, id: ReqId): Option<Fate> {
    if NewRequest(a) == Some(id) then Some(FirstVerdict(c, net, a))
    else if id !in c.ledger then None
    else if c.ledger[id].At? then Some(PendingVerdict(c, net, a, id, c.ledger[id].place))
    else Some(c.ledger[id])
  }

  /** The fate of a request after a turn. */
  function FateAfter(c: Client, net: Net, a: Action, id: ReqId): Option<Fate> {
    match Verdict(c, net, a, id)
    case None => None
    case Some(f) => Some(if Ending(c, net, a).Some? then Lost(f) else f)
  }

  function FateIn(l: Ledger, id: ReqId): Option<Fate> {
    if id in l then Some(l[id]) else None
  }

  // ----- What becomes of a channel -----

  function TopicsAfter(c: Client, a: Action): set<Topic> {
    match a
    case DoRegister(t) => c.channels.Keys + {t}
    case DoUnregister(t) => c.channels.Keys - {t}
    case _ => c.channels.Keys
  }

  /** Its last caller has cancelled the first join of the topic. */
  predicate Abandons(c: Client, a: Action, t: Topic)
    requires t in c.channels
  {
    a.DoCancel? && c.channels[t].waiters == {a.id} && !c.channels[t].everJoined
  }

  /** Who decides that a topic is wanted: a join request, until its leave, its last cancel
      before any join, a failed load or the server's close. */
  predicate DesiredAfter(c: Client, a: Action, t: Topic) {
    && t in c.channels
    && ((a.DoJoin? && a.topic == t) ||
        (c.channels[t].desired && !GivesUp(c, a, t) && !Abandons(c, a, t) && !(LoadsWanted(c, a, t) && a.loaded.None?)))
  }

  predicate EverJoinedAfter(c: Client, a: Action, t: Topic) {
    t in c.channels && (c.channels[t].everJoined || HearsAccepted(c, a, t))
  }

  /** The status the turn itself gives a topic. */
  function TurnStatus(c: Client, a: Action, t: Topic): Status {
    if t !in c.channels then Closed
    else
      var rec := c.channels[t];
      if a.DoJoin? && a.topic == t then
        (if !c.phase.Connected? then WaitingForSocket else if Open(c, t) then Joined else WaitingToJoin)
      else if a.DoLeave? && a.topic == t then
        (if c.phase.Connected? && t in c.books.proto.channels && c.books.proto.channels[t].state in {P.Joined, P.Joining} then Leaving else Left)
      else if Abandons(c, a, t) then Left
      else if a.AttemptSucceeded? then (if rec.desired then WaitingToJoin else rec.status)
      else if a.DoShutdown? then Closed
      else if HearsAccepted(c, a, t) then (if rec.deferred.Some? then Leaving else Joined)
      else if HearsRejected(c, a, t) then (if rec.deferred.Some? then Left else Errored)
      else if HearsLeft(c, a, t) then (if rec.desired then WaitingToJoin else Left)
      else if HearsFailed(c, a, t) then Errored
      else if HearsClosed(c, a, t) then Closed
      else if LoadsWanted(c, a, t) then (if a.loaded.None? then Errored else if IsActive(c, t) then rec.status else Joining)
      else if JoinExpires(c, a, t) then (if rec.deferred.None? && rec.desired then Errored else Left)
      else if LeaveExpires(c, a, t) then (if rec.desired then WaitingToJoin else Left)
      else if a.RejoinDue? && a.topic == t && StartsLoad(c, a, t) then WaitingToJoin
      else rec.status
  }

  /** When the connection ends, a wanted topic waits for the next one. */
  function StatusAfter(c: Client, net: Net, a: Action, t: Topic): Status {
    if Ending(c, net, a).None? then TurnStatus(c, a, t)
    else if DesiredAfter(c, a, t) then WaitingForSocket
    else Left
  }

  /** A wanted topic that is neither active nor loading starts a load when it is asked for,
      when the connection comes up, when its rejoin is due, and when its leave is over. */
  predicate StartsLoad(c: Client, a: Action, t: Topic) {
    && t in c.channels && c.channels[t].activePayload.None?
    && ((a.DoJoin? && a.topic == t && c.phase.Connected? && !IsActive(c, t)) ||
        (c.channels[t].desired &&
         ((a.AttemptSucceeded? && !IsActive(c, t)) || (a.RejoinDue? && a.topic == t && !IsActive(c, t)) ||
          HearsLeft(c, a, t) || LeaveExpires(c, a, t))))
  }

  /** The load a topic waited for is over or not wanted any more. */
  predicate DropsLoad(c: Client, a: Action, t: Topic)
    requires t in c.channels
  {
    || GivesUp(c, a, t) || Abandons(c, a, t) || JoinExpires(c, a, t)
    || (a.LoadFinished? && a.topic == t && c.channels[t].activePayload == Some(a.load))
  }

  /** A wanted topic that has no rejoin timer gets one when its join is refused, when it
      fails, and when its join times out. */
  predicate SchedulesRejoin(c: Client, a: Action, t: Topic) {
    && t in c.channels && c.channels[t].desired && !c.channels[t].rejoinScheduled
    && (HearsRejected(c, a, t) || HearsFailed(c, a, t) || (JoinExpires(c, a, t) && c.channels[t].deferred.None?))
  }

  predicate ScheduledAfter(c: Client, net: Net, a: Action, t: Topic) {
    && Ending(c, net, a).None? && t in c.channels
    && (SchedulesRejoin(c, a, t) ||
        (c.channels[t].rejoinScheduled && !GivesUp(c, a, t) && !HearsAccepted(c, a, t) && !a.AttemptSucceeded? &&
         !(a.RejoinDue? && a.topic == t)))
  }

  /** The topic of a new rejoin timer. */
  function RejoinOf(c: Client, a: Action): Option<Topic> {
    match Heard(c, a)
    case Some(JoinRejected(t, _, _)) => if SchedulesRejoin(c, a, t) then Some(t) else None
    case Some(ChannelFailed(t, _)) => if SchedulesRejoin(c, a, t) then Some(t) else None
    case _ =>
      if a.TimerDue? && a.timer.JoinTimer? && SchedulesRejoin(c, a, a.timer.topic) then Some(a.timer.topic) else None
  }

  function RejoinsAfter(c: Client, net: Net, a: Action): multiset<Topic> {
    if Ending(c, net, a).Some? then multiset{}
    else if a.RejoinDue? then c.rejoins - multiset{a.topic}
    else
      match RejoinOf(c, a)
      case Some(t) => c.rejoins + multiset{t}
      case None => c.rejoins
  }
}
