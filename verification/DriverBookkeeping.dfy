/** The table's last columns: what a turn makes of the protocol's channels, of the driver's
    timers, heartbeat and pending joins, and of the generations known to be accepted. */
module DriverBookkeeping {
  import opened Wire
  import P = ProtocolSpec
  import opened DriverSpec
  import opened DriverLedger
  import opened DriverTable
  import B = DriverOutbox
  import F = DriverFlow
  import J = DriverLoads
  import K = DriverBooks

  function ChannelIn(v: P.View, t: Topic): Option<P.Channel> {
    if t in v.channels then Some(v.channels[t]) else None
  }

  // ----- The columns -----

  /** A loaded payload goes out as the join of its topic. */
  predicate Joins(c: Client, a: Action, t: Topic) {
    LoadsWanted(c, a, t) && a.loaded.Some? && !IsActive(c, t)
  }

  /** A leave of the topic goes out that a timer watches over. */
  predicate Leaves(c: Client, a: Action, t: Topic) {
    || (a.DoLeave? && a.topic == t && Open(c, t))
    || (HearsAccepted(c, a, t) && t in c.channels && c.channels[t].deferred.Some?)
  }

  /** Nothing is left of the topic in the protocol. */
  predicate Discards(c: Client, a: Action, t: Topic) {
    || (a.DoUnregister? && a.topic == t) || (t in c.channels && Abandons(c, a, t))
    || JoinExpires(c, a, t) || LeaveExpires(c, a, t) || HearsLeft(c, a, t)
  }

  function StateAfter(c: Client, a: Action, t: Topic, state: P.ChannelState): P.ChannelState {
    if Leaves(c, a, t) then P.Leaving
    else if HearsAccepted(c, a, t) then P.Joined
    else if HearsRejected(c, a, t) || HearsFailed(c, a, t) then P.Errored
    else if HearsClosed(c, a, t) then P.Closed
    else state
  }

  /** The topic's channel after the turn itself. */
  function TurnChannel(c: Client, a: Action, t: Topic): Option<P.Channel> {
    if Joins(c, a, t) then Some(P.Channel(P.Joining, c.books.proto.next + 1, a.loaded.value))
    else if Discards(c, a, t) || t !in c.books.proto.channels then None
    else
      var was := c.books.proto.channels[t];
      Some(was.(state := StateAfter(c, a, t, was.state)))
  }

  /** The end of the connection disconnects every channel. */
  function ChannelAfter(c: Client, net: Net, a: Action, t: Topic): Option<P.Channel> {
    match TurnChannel(c, a, t)
    case None => None
    case Some(channel) => Some(if Ending(c, net, a).Some? then channel.(state := P.Disconnected) else channel)
  }

  predicate TimerAfter(c: Client, a: Action, timer: Timer) {
    || (timer in c.books.timers && a != TimerDue(timer))
    || (timer.reference == c.books.proto.next + 1 &&
        if timer.JoinTimer? then Joins(c, a, timer.topic) else Leaves(c, a, timer.topic))
  }

  function HeartbeatAfter(c: Client, a: Action): Option<Ref> {
    if a.HeartbeatDue? && c.books.heartbeat.None? then Some(c.books.proto.next + 1)
    else
      match Heard(c, a)
      case Some(HeartbeatAck(r, _)) => if c.books.heartbeat == Some(r) then None else c.books.heartbeat
      case _ => c.books.heartbeat
  }

  /** The join with the reference has been answered, or its timer has fired. */
  predicate JoinIsOver(c: Client, a: Action, r: Ref) {
    || (a.TimerDue? && a.timer.JoinTimer? && a.timer.reference == r)
    || match Heard(c, a)
       case Some(JoinAccepted(_, s, _)) => s == r
       case Some(JoinRejected(_, s, _)) => s == r
       case _ => false
  }

  /** The topic of the pending join `r`. */
  function PendingJoinAfter(c: Client, a: Action, r: Ref): Option<Topic> {
    if a.LoadFinished? && Joins(c, a, a.topic) && r == c.books.proto.next + 1 then Some(a.topic)
    else if r !in c.books.pendingJoins || JoinIsOver(c, a, r) then None
    else
      var t := c.books.pendingJoins[r];
      if HearsFailed(c, a, t) || HearsClosed(c, a, t) || (t in c.channels && Abandons(c, a, t)) then None else Some(t)
  }

  function AcceptedAfter(c: Client, a: Action): set<Ref> {
    match Heard(c, a)
    case Some(JoinAccepted(_, r, _)) => c.trace.accepted + {r}
    case _ => c.trace.accepted
  }

  function TopicAt(joins: map<Ref, Topic>, r: Ref): Option<Topic> {
    if r in joins then Some(joins[r]) else None
  }

  /** The books of `d` are the table's. */
  ghost predicate Booked(c: Client, a: Action, d: Client) {
    && (forall t :: ChannelIn(d.books.proto, t) == TurnChannel(c, a, t))
    && (forall timer :: timer in d.books.timers <==> TimerAfter(c, a, timer))
    && d.books.heartbeat == HeartbeatAfter(c, a)
    && (forall r :: TopicAt(d.books.pendingJoins, r) == PendingJoinAfter(c, a, r))
    && d.trace.accepted == AcceptedAfter(c, a)
  }

  // ----- Action by action -----

  /** Channels, timers, heartbeat, pending joins and accepted generations are as they were. */
  ghost predicate SameBooks(c: Client, d: Client) {
    && d.books.proto.channels == c.books.proto.channels && d.books.timers == c.books.timers
    && d.books.heartbeat == c.books.heartbeat && d.books.pendingJoins == c.books.pendingJoins
    && d.trace.accepted == c.trace.accepted
  }

  lemma SendPushBooks(c: Client, net: Net, t: Topic, p: Push)
    ensures SameBooks(c, SendPush(c, net, t, p).client)
  {}

  lemma {:induction false} FlushBooks(c: Client, net: Net, t: Topic)
    ensures SameBooks(c, Flush(c, net, t).client)
    decreases if t in c.channels then |c.channels[t].queued| else 0
  {
    if t in c.channels && c.channels[t].queued != [] {
      var p := c.channels[t].queued[0];
      SendPushBooks(PopQueue(c, t), net, t, p);
      var turn := SendPush(PopQueue(c, t), net, t, p);
      if turn.exit.None? { FlushBooks(turn.client, Spend(net, p), t); }
    }
  }

  lemma {:induction false} LoadAllBooks(c: Client, order: seq<Topic>)
    ensures SameBooks(c, LoadAll(c, order))
    decreases |order|
  {
    if order != [] { LoadAllBooks(LoadPayload(SetStatus(c, order[0], WaitingToJoin), order[0]), order[1..]); }
  }

  /** Actions of which the books hear nothing. */
  predicate Unbooked(a: Action) {
    || a.DoRegister? || a.DoJoin? || a.DoPush? || a.DoPing? || a.DoConnect? || a.DoDisconnect? || a.DoShutdown?
    || a.AttemptSucceeded? || a.AttemptFailed? || a.BackoffElapsed? || a.FrameUndecodable? || a.TransportEnded? || a.RejoinDue?
  }

  lemma JoinBooksNothing(c: Client, t: Topic, id: ReqId)
    ensures SameBooks(c, RequestJoin(c, t, id))
  {}

  lemma PushBooksNothing(c: Client, net: Net, t: Topic, id: ReqId, isCall: bool, event: string, payload: Payload)
    ensures SameBooks(c, RequestPush(c, net, t, id, isCall, event, payload).client)
  {
    var p := Push(id, isCall, event, payload, c.trace.stamps);
    SendPushBooks(Stamp(c, t, id), net, t, p);
    EnqueueBooks(Stamp(c, t, id), t, p);
  }

  lemma EnqueueBooks(c: Client, t: Topic, p: Push)
    ensures SameBooks(c, Enqueue(c, t, p))
  {}

  lemma PingBooksNothing(c: Client, net: Net, id: ReqId)
    ensures SameBooks(c, RequestPing(c, net, id).client)
  {}

  lemma RejoinBooksNothing(c: Client, t: Topic)
    ensures SameBooks(c, RejoinFired(c, t))
  {}

  lemma UnbookedActs(c: Client, net: Net, a: Action)
    requires Unbooked(a)
    ensures SameBooks(c, Act(c, net, a).client)
  {
    match a
    case DoJoin(t, id) => JoinBooksNothing(c, t, id);
    case DoPush(t, id, isCall, event, payload) => PushBooksNothing(c, net, t, id, isCall, event, payload);
    case DoPing(id) => PingBooksNothing(c, net, id);
    case AttemptSucceeded(order) => LoadAllBooks(Opened(c), order);
    case RejoinDue(t) => RejoinBooksNothing(c, t);
    case _ =>
  }

  lemma NothingHeard(c: Client, a: Action, t: Topic)
    requires Unbooked(a)
    ensures !Joins(c, a, t) && !Discards(c, a, t) && !Leaves(c, a, t)
    ensures forall state :: StateAfter(c, a, t, state) == state
  {}

  lemma SameChannels(c: Client, a: Action, d: Client)
    requires Unbooked(a) && SameBooks(c, d)
    ensures forall t :: ChannelIn(d.books.proto, t) == TurnChannel(c, a, t)
    ensures forall timer :: timer in d.books.timers <==> TimerAfter(c, a, timer)
  {
    forall t ensures ChannelIn(d.books.proto, t) == TurnChannel(c, a, t) { NothingHeard(c, a, t); }
    forall timer ensures timer in d.books.timers <==> TimerAfter(c, a, timer) { NothingHeard(c, a, timer.topic); }
  }

  lemma SameJoins(c: Client, a: Action, d: Client)
    requires Unbooked(a) && SameBooks(c, d)
    ensures forall r :: TopicAt(d.books.pendingJoins, r) == PendingJoinAfter(c, a, r)
    ensures d.books.heartbeat == HeartbeatAfter(c, a) && d.trace.accepted == AcceptedAfter(c, a)
  {
    forall r ensures TopicAt(d.books.pendingJoins, r) == PendingJoinAfter(c, a, r) {
      if r in c.books.pendingJoins { NothingHeard(c, a, c.books.pendingJoins[r]); }
    }
  }

  lemma SameIsBooked(c: Client, a: Action, d: Client)
    requires Unbooked(a) && SameBooks(c, d)
    ensures Booked(c, a, d)
  {
    SameChannels(c, a, d);
    SameJoins(c, a, d);
  }

  lemma StopBooks(c: Client, t: Topic)
    ensures StopChannel(c, t).books == c.books && StopChannel(c, t).trace == c.trace
  {}

  /** As `SameBooks`, for a client whose channels, timers and pending joins are given. */
  ghost predicate BooksAre(c: Client, d: Client, channels: map<Topic, P.Channel>, timers: set<Timer>, joins: map<Ref, Topic>) {
    && d.books.proto.channels == channels && d.books.timers == timers && d.books.pendingJoins == joins
    && d.books.heartbeat == c.books.heartbeat && d.trace.accepted == c.trace.accepted
  }

  lemma ForgetBooks(c: Client, t: Topic)
    ensures Forget(c, t).books == BookDiscard(c.books, t) && Forget(c, t).trace == c.trace
  {
    StopBooks(c, t);
  }

  lemma FrameBooks(c: Client, net: Net, frame: Handed)
    ensures SendFrame(c, net, frame).client.books == c.books && SendFrame(c, net, frame).client.trace.accepted == c.trace.accepted
  {}

  lemma UnregisterBooks(c: Client, net: Net, t: Topic)
    ensures BooksAre(c, Act(c, net, DoUnregister(t)).client, c.books.proto.channels - {t}, c.books.timers, c.books.pendingJoins)
  {
    ForgetBooks(c, t);
    if c.phase.Connected? && P.IsJoined(c.books.proto, t) {
      var c0 := c.(books := c.books.(proto := P.Leave(c.books.proto, t).0));
      ForgetBooks(c0, t);
      FrameBooks(Forget(c0, t), net, HandedLeave(t, GenerationAccepted(c, t)));
      assert P.Leave(c.books.proto, t).0.channels - {t} == c.books.proto.channels - {t};
    }
  }

  lemma UnregisterIsBooked(c: Client, d: Client, t: Topic)
    requires BooksAre(c, d, c.books.proto.channels - {t}, c.books.timers, c.books.pendingJoins)
    ensures Booked(c, DoUnregister(t), d)
  {}

  lemma LeaveBooks(c: Client, net: Net, t: Topic, id: ReqId)
    ensures var d := RequestLeave(c, net, t, id).client;
            if Open(c, t) then
              BooksAre(c, d, c.books.proto.channels[t := c.books.proto.channels[t].(state := P.Leaving)],
                       c.books.timers + {LeaveTimer(t, c.books.proto.next + 1)}, c.books.pendingJoins)
            else SameBooks(c, d)
  {
    var state := P.StateOf(c.books.proto, t);
    var status := if c.phase.Connected? && (state == Some(P.Joined) || state == Some(P.Joining)) then Leaving else Left;
    var c1 := SetStatus(Enter(c, id, Deferred(t)), t, status);
    StopBooks(c1, t);
    if Open(c, t) { StartLeaveBooks(StopChannel(c1, t), net, t, PendingLeave(id, true)); }
  }

  lemma StartLeaveBooks(c: Client, net: Net, t: Topic, leave: PendingLeave)
    requires P.IsJoined(c.books.proto, t)
    ensures BooksAre(c, StartLeave(c, net, t, leave).client,
                     c.books.proto.channels[t := c.books.proto.channels[t].(state := P.Leaving)],
                     c.books.timers + {LeaveTimer(t, c.books.proto.next + 1)}, c.books.pendingJoins)
  {}

  lemma LeaveIsBooked(c: Client, d: Client, t: Topic, id: ReqId)
    requires if Open(c, t) then
               BooksAre(c, d, c.books.proto.channels[t := c.books.proto.channels[t].(state := P.Leaving)],
                        c.books.timers + {LeaveTimer(t, c.books.proto.next + 1)}, c.books.pendingJoins)
             else SameBooks(c, d)
    ensures Booked(c, DoLeave(t, id), d)
  {}

  /** The pending joins of other topics. */
  function JoinsElsewhere(joins: map<Ref, Topic>, t: Topic): map<Ref, Topic> {
    map r | r in joins && joins[r] != t :: joins[r]
  }

  lemma CancelBooks(c: Client, id: ReqId, t: Topic)
    requires t in c.channels && id in c.channels[t].waiters
    ensures if Abandons(c, DoCancel(id), t) then
              BooksAre(c, CancelWaiter(c, t, id), c.books.proto.channels - {t}, c.books.timers, JoinsElsewhere(c.books.pendingJoins, t))
            else SameBooks(c, CancelWaiter(c, t, id))
  {
    var waiters := c.channels[t].waiters;
    assert waiters - {id} == {} <==> waiters == {id};
    assert BookDropJoins(c.books, t).pendingJoins == JoinsElsewhere(c.books.pendingJoins, t);
  }

  lemma CancelOtherBooks(c: Client, id: ReqId)
    requires !(id in c.ledger && c.ledger[id].At? && c.ledger[id].place.Waiter?)
    ensures SameBooks(c, Cancel(c, id))
  {}

  lemma CancelledIsBooked(c: Client, d: Client, id: ReqId, t: Topic)
    requires t in c.channels && id in c.channels[t].waiters && Abandons(c, DoCancel(id), t)
    requires forall u :: u in c.channels && id in c.channels[u].waiters ==> u == t
    requires BooksAre(c, d, c.books.proto.channels - {t}, c.books.timers, JoinsElsewhere(c.books.pendingJoins, t))
    ensures Booked(c, DoCancel(id), d)
  {
    assert forall u :: u in c.channels && Abandons(c, DoCancel(id), u) ==> id in c.channels[u].waiters;
  }

  lemma UncancelledIsBooked(c: Client, d: Client, id: ReqId)
    requires forall u :: u in c.channels ==> !Abandons(c, DoCancel(id), u)
    requires SameBooks(c, d)
    ensures Booked(c, DoCancel(id), d)
  {}

  lemma CancelIsBooked(c: Client, id: ReqId)
    requires Conserved(c)
    ensures Booked(c, DoCancel(id), Cancel(c, id))
  {
    forall u | u in c.channels && id in c.channels[u].waiters ensures id in c.ledger && c.ledger[id] == At(Waiter(u)) {
      assert Holds(c, id, Waiter(u));
    }
    if id in c.ledger && c.ledger[id].At? && c.ledger[id].place.Waiter? {
      var t := c.ledger[id].place.topic;
      assert Holds(c, id, Waiter(t));
      CancelBooks(c, id, t);
      if Abandons(c, DoCancel(id), t) {
        CancelledIsBooked(c, Cancel(c, id), id, t);
      } else {
        UncancelledIsBooked(c, Cancel(c, id), id);
      }
    } else {
      CancelOtherBooks(c, id);
      UncancelledIsBooked(c, Cancel(c, id), id);
    }
  }

  lemma HeartbeatIsBooked(c: Client, net: Net)
    ensures Booked(c, HeartbeatDue, HeartbeatTick(c, net).client)
  {}

  lemma LoadBooks(c: Client, net: Net, t: Topic, load: nat, loaded: Option<Value>)
    ensures var d, r := PayloadReady(c, net, t, load, loaded).client, c.books.proto.next + 1;
            if Joins(c, LoadFinished(t, load, loaded), t) then
              BooksAre(c, d, c.books.proto.channels[t := P.Channel(P.Joining, r, loaded.value)],
                       c.books.timers + {JoinTimer(t, r)}, c.books.pendingJoins[r := t])
            else SameBooks(c, d)
  {
    var a := LoadFinished(t, load, loaded);
    if Joins(c, a, t) {
      StartJoinBooks(SetRecord(c.(payloads := c.payloads - {(t, load)}), t, c.channels[t].(activePayload := None)), net, t, load, loaded.value);
    } else {
      NoJoinBooks(c, net, t, load, loaded);
    }
  }

  lemma NoJoinBooks(c: Client, net: Net, t: Topic, load: nat, loaded: Option<Value>)
    requires !Joins(c, LoadFinished(t, load, loaded), t)
    ensures SameBooks(c, PayloadReady(c, net, t, load, loaded).client)
  {}

  lemma StartJoinBooks(c: Client, net: Net, t: Topic, load: nat, params: Value)
    requires !IsActive(c, t)
    ensures var r := c.books.proto.next + 1;
            BooksAre(c, StartJoin(c, net, t, load, params).client, c.books.proto.channels[t := P.Channel(P.Joining, r, params)],
                     c.books.timers + {JoinTimer(t, r)}, c.books.pendingJoins[r := t])
  {
    JoinBooks(c.books, t, params);
  }

  lemma JoinBooks(b: Books, t: Topic, params: Value)
    requires !P.Active(b.proto, t)
    ensures var (d, ok) := BookJoin(b, t, params);
            && ok && d.proto.channels == b.proto.channels[t := P.Channel(P.Joining, b.proto.next + 1, params)]
            && d.timers == b.timers + {JoinTimer(t, b.proto.next + 1)} && d.pendingJoins == b.pendingJoins[b.proto.next + 1 := t]
            && d.heartbeat == b.heartbeat
  {}

  lemma LoadIsBooked(c: Client, d: Client, t: Topic, load: nat, loaded: Option<Value>)
    requires var r := c.books.proto.next + 1;
             if Joins(c, LoadFinished(t, load, loaded), t) then
               BooksAre(c, d, c.books.proto.channels[t := P.Channel(P.Joining, r, loaded.value)],
                        c.books.timers + {JoinTimer(t, r)}, c.books.pendingJoins[r := t])
             else SameBooks(c, d)
    ensures Booked(c, LoadFinished(t, load, loaded), d)
  {}

  lemma JoinTimeoutBooks(c: Client, t: Topic, r: Ref)
    ensures var a := TimerDue(JoinTimer(t, r));
            BooksAre(c, JoinTimedOut(c, t, r), if JoinExpires(c, a, t) then c.books.proto.channels - {t} else c.books.proto.channels,
                     c.books.timers - {JoinTimer(t, r)}, c.books.pendingJoins - {r})
  {
    assert JoinTimedOut(c, t, r).trace == c.trace;
    assert JoinTimedOut(c, t, r).books ==
           if JoinExpires(c, TimerDue(JoinTimer(t, r)), t) then BookDiscard(BookJoinTimeout(c.books, t, r), t) else BookJoinTimeout(c.books, t, r);
  }

  lemma JoinTimeoutIsBooked(c: Client, d: Client, t: Topic, r: Ref)
    requires var a := TimerDue(JoinTimer(t, r));
             BooksAre(c, d, if JoinExpires(c, a, t) then c.books.proto.channels - {t} else c.books.proto.channels,
                      c.books.timers - {JoinTimer(t, r)}, c.books.pendingJoins - {r})
    ensures Booked(c, TimerDue(JoinTimer(t, r)), d)
  {}

  lemma LeaveTimeoutBooks(c: Client, t: Topic, r: Ref)
    ensures var a := TimerDue(LeaveTimer(t, r));
            BooksAre(c, LeaveTimedOut(c, t, r), if LeaveExpires(c, a, t) then c.books.proto.channels - {t} else c.books.proto.channels,
                     c.books.timers - {LeaveTimer(t, r)}, c.books.pendingJoins)
  {}

  lemma LeaveTimeoutIsBooked(c: Client, d: Client, t: Topic, r: Ref)
    requires var a := TimerDue(LeaveTimer(t, r));
             BooksAre(c, d, if LeaveExpires(c, a, t) then c.books.proto.channels - {t} else c.books.proto.channels,
                      c.books.timers - {LeaveTimer(t, r)}, c.books.pendingJoins)
    ensures Booked(c, TimerDue(LeaveTimer(t, r)), d)
  {}

  // ----- Frames -----

  function WithState(channels: map<Topic, P.Channel>, t: Topic, state: P.ChannelState): map<Topic, P.Channel> {
    if t in channels then channels[t := channels[t].(state := state)] else channels
  }

  /** The channels after what was heard. */
  function EventChannels(channels: map<Topic, P.Channel>, event: P.Event): map<Topic, P.Channel> {
    match event
    case JoinAccepted(t, _, _) => WithState(channels, t, P.Joined)
    case JoinRejected(t, _, _) => WithState(channels, t, P.Errored)
    case ChannelFailed(t, _) => WithState(channels, t, P.Errored)
    case ChannelClosed(t, _) => WithState(channels, t, P.Closed)
    case Left(t, _, _) => channels - {t}
    case _ => channels
  }

  lemma ReceiveChannels(v: P.View, f: Frame)
    ensures var (w, result) := P.Receive(v, f);
            && w.next == v.next
            && w.channels == if result.Ok? then EventChannels(v.channels, result.value) else v.channels
  {}

  /** `d` is `c` but for what the event does to the protocol's channels. */
  ghost predicate Hearing(c: Client, d: Client, event: P.Event) {
    && d.books == c.books.(proto := d.books.proto) && d.books.proto.next == c.books.proto.next
    && d.books.proto.channels == EventChannels(c.books.proto.channels, event)
    && d.trace == c.trace && d.channels == c.channels
  }

  lemma AcceptedBooks(c: Client, c1: Client, net: Net, t: Topic, r: Ref, response: Payload)
    requires Hearing(c, c1, P.JoinAccepted(t, r, response)) && P.IsJoined(c1.books.proto, t)
    ensures var d := OnJoined(c1, net, t, r, response).client;
            && d.books.heartbeat == c.books.heartbeat && d.trace.accepted == c.trace.accepted + {r}
            && d.books.pendingJoins == c.books.pendingJoins - {r}
            && if t in c.channels && c.channels[t].deferred.Some? then
                 && d.books.proto.channels == WithState(c.books.proto.channels, t, P.Leaving)
                 && d.books.timers == c.books.timers + {LeaveTimer(t, c.books.proto.next + 1)}
               else d.books.proto.channels == c1.books.proto.channels && d.books.timers == c.books.timers
  {
    var c2 := MarkJoined(c1, t, r, response);
    MarkedBooks(c1, t, r, response);
    if t in c.channels && c.channels[t].deferred.Some? {
      StartLeaveBooks(c2, net, t, c.channels[t].deferred.value);
    } else {
      FlushBooks(c2, net, t);
    }
  }

  lemma MarkedBooks(c: Client, t: Topic, r: Ref, response: Payload)
    ensures var d := MarkJoined(c, t, r, response);
            d.books == BookJoinDone(c.books, r) && d.trace.accepted == c.trace.accepted + {r}
  {}

  lemma AcceptedIsBooked(c: Client, a: Action, d: Client, t: Topic, r: Ref, response: Payload)
    requires a.FrameArrived? && Heard(c, a) == Some(P.JoinAccepted(t, r, response))
    requires t in c.books.proto.channels
    requires d.books.heartbeat == c.books.heartbeat && d.trace.accepted == c.trace.accepted + {r}
    requires d.books.pendingJoins == c.books.pendingJoins - {r}
    requires if t in c.channels && c.channels[t].deferred.Some? then
               && d.books.proto.channels == WithState(c.books.proto.channels, t, P.Leaving)
               && d.books.timers == c.books.timers + {LeaveTimer(t, c.books.proto.next + 1)}
             else d.books.proto.channels == WithState(c.books.proto.channels, t, P.Joined) && d.books.timers == c.books.timers
    ensures Booked(c, a, d)
  {}

  /** What the driver does about any other event. */
  function JoinsAfter(joins: map<Ref, Topic>, event: P.Event): map<Ref, Topic> {
    match event
    case JoinRejected(_, r, _) => joins - {r}
    case ChannelFailed(t, _) => JoinsElsewhere(joins, t)
    case ChannelClosed(t, _) => JoinsElsewhere(joins, t)
    case _ => joins
  }

  lemma EventBooks(c: Client, net: Net, event: P.Event)
    requires !event.JoinAccepted?
    ensures var d := React(c, net, event).client;
            && d.books.proto == c.books.proto && d.books.timers == c.books.timers && d.trace.accepted == c.trace.accepted
            && d.books.pendingJoins == JoinsAfter(c.books.pendingJoins, event)
            && d.books.heartbeat == if event.HeartbeatAck? && c.books.heartbeat == Some(event.reference) then None else c.books.heartbeat
  {
    match event
    case JoinRejected(t, r, response) => RejectedBooks(c, t, r, response);
    case Left(t, r, response) => LeftBooks(c, t, r, response);
    case ChannelClosed(t, _) => StopBooks(SetStatus(c.(books := BookDropJoins(c.books, t)), t, Closed), t);
    case ChannelFailed(t, _) => ScheduleBooks(SetStatus(c.(books := BookDropJoins(c.books, t)), t, Errored), t);
    case _ =>
  }

  lemma ScheduleBooks(c: Client, t: Topic)
    ensures ScheduleRejoin(c, t).books == c.books && ScheduleRejoin(c, t).trace == c.trace
  {}

  lemma RejectedBooks(c: Client, t: Topic, r: Ref, response: Payload)
    ensures OnJoinRejected(c, t, r, response).books == BookJoinDone(c.books, r) && OnJoinRejected(c, t, r, response).trace == c.trace
  {}

  lemma LeftBooks(c: Client, t: Topic, r: Ref, response: Payload)
    ensures var d := OnLeft(c, t, r, response);
            && d.books.(pendingLeaves := map[]) == c.books.(pendingLeaves := map[])
            && d.trace.accepted == c.trace.accepted
  {}

  lemma EventIsBooked(c: Client, a: Action, d: Client, event: P.Event)
    requires a.FrameArrived? && Heard(c, a) == Some(event) && !event.JoinAccepted?
    requires d.books.proto.channels == EventChannels(c.books.proto.channels, event)
    requires d.books.timers == c.books.timers && d.trace.accepted == c.trace.accepted
    requires d.books.pendingJoins == JoinsAfter(c.books.pendingJoins, event)
    requires d.books.heartbeat == if event.HeartbeatAck? && c.books.heartbeat == Some(event.reference) then None else c.books.heartbeat
    ensures Booked(c, a, d)
  {
    match event
    case JoinRejected(_, _, _) =>
    case Left(_, _, _) =>
    case ChannelFailed(_, _) =>
    case ChannelClosed(_, _) =>
    case HeartbeatAck(_, _) =>
    case _ =>
  }

  lemma RefusedIsBooked(c: Client, a: Action, d: Client)
    requires a.FrameArrived? && Heard(c, a) == None && SameBooks(c, d)
    ensures Booked(c, a, d)
  {}

  lemma IncomingIsBooked(c: Client, net: Net, f: Frame)
    requires K.Linked(c.books)
    ensures Booked(c, FrameArrived(f), Incoming(c, net, f).client)
  {
    var a := FrameArrived(f);
    var (proto, result) := P.Receive(c.books.proto, f);
    var c1, d := c.(books := c.books.(proto := proto)), Incoming(c, net, f).client;
    ReceiveChannels(c.books.proto, f);
    match result
    case Err(_) => RefusedIsBooked(c, a, d);
    case Ok(JoinAccepted(t, r, response)) =>
      K.AcceptedTopicIsJoined(c.books, f);
      AcceptedBooks(c, c1, net, t, r, response);
      AcceptedIsBooked(c, a, d, t, r, response);
    case Ok(event) =>
      EventBooks(c1, net, event);
      EventIsBooked(c, a, d, event);
  }

  // ----- Turns -----

  lemma ActIsBooked(c: Client, net: Net, a: Action)
    requires K.Linked(c.books) && Conserved(c)
    ensures Booked(c, a, Act(c, net, a).client)
  {
    if Unbooked(a) {
      UnbookedActs(c, net, a);
      SameIsBooked(c, a, Act(c, net, a).client);
    } else {
      match a
      case DoUnregister(t) =>
        UnregisterBooks(c, net, t);
        UnregisterIsBooked(c, Act(c, net, a).client, t);
      case DoLeave(t, id) =>
        LeaveBooks(c, net, t, id);
        LeaveIsBooked(c, RequestLeave(c, net, t, id).client, t, id);
      case DoCancel(id) => CancelIsBooked(c, id);
      case FrameArrived(f) => IncomingIsBooked(c, net, f);
      case HeartbeatDue => HeartbeatIsBooked(c, net);
      case LoadFinished(t, load, loaded) =>
        LoadBooks(c, net, t, load, loaded);
        LoadIsBooked(c, PayloadReady(c, net, t, load, loaded).client, t, load, loaded);
      case TimerDue(JoinTimer(t, r)) =>
        JoinTimeoutBooks(c, t, r);
        JoinTimeoutIsBooked(c, JoinTimedOut(c, t, r), t, r);
      case TimerDue(LeaveTimer(t, r)) =>
        LeaveTimeoutBooks(c, t, r);
        LeaveTimeoutIsBooked(c, LeaveTimedOut(c, t, r), t, r);
    }
  }

  /** After a whole turn the protocol's channel of a topic, the timers, the heartbeat, the
      pending joins and the accepted generations are the table's; the end of the connection
      disconnects the channels and clears the rest. */
  lemma NextIsBooked(c: Client, net: Net, a: Action, retry: bool, t: Topic)
    requires K.Linked(c.books) && Conserved(c) && F.Flowing(c) && J.Fresh(c)
    ensures var d := Next(c, net, a, retry);
            && ChannelIn(d.books.proto, t) == ChannelAfter(c, net, a, t)
            && (Ending(c, net, a).None? ==> Booked(c, a, d))
            && (Ending(c, net, a).Some? ==>
                  && d.books.proto.pending == map[] && d.books.pendingJoins == map[] && d.books.pendingCalls == map[]
                  && d.books.pendingPings == map[] && d.books.pendingLeaves == map[]
                  && d.books.timers == {} && d.books.heartbeat == None && d.trace.accepted == {})
  {
    ActIsBooked(c, net, a);
    B.ActIsTabled(c, net, a);
    AfterTurnBooks(Act(c, net, a), a, retry);
  }

  lemma AfterTurnBooks(turn: Turn, a: Action, retry: bool)
    ensures var c, d := turn.client, AfterTurn(turn, a, retry);
            if turn.exit.None? then d.books == c.books && d.trace == c.trace
            else d.books == BookReset(c.books) && d.trace == c.trace.(accepted := {})
  {}
}
