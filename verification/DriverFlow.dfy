/** What goes onto the wire: each call or cast at most once, per topic in the order of
    acceptance, and only on a join generation the server has accepted. */
module DriverFlow {
  import opened Wire
  import P = ProtocolSpec
  import L = ProtocolLaws
  import opened DriverSpec
  import opened DriverBooks
  import opened DriverFates
  import G = DriverLedger
  import C = DriverConservation

  // ----- Order and multiplicity -----

  /** No request is on the wire twice, and each topic's requests are in the order of
      their stamps. */
  ghost predicate WireOrdered(wire: seq<Handed>, stamps: nat) {
    && (forall i :: 0 <= i < |wire| && wire[i].HandedPush? ==> wire[i].stamp < stamps)
    && (forall i, j :: 0 <= i < j < |wire| && wire[i].HandedPush? && wire[j].HandedPush? ==>
          wire[i].id != wire[j].id && (wire[i].topic == wire[j].topic ==> wire[i].stamp < wire[j].stamp))
  }

  ghost predicate Increasing(queued: seq<Push>) {
    forall i, j :: 0 <= i < j < |queued| ==> queued[i].stamp < queued[j].stamp
  }

  /** `stamp` is later than everything of topic `t` on the wire. */
  ghost predicate AfterWire(wire: seq<Handed>, t: Topic, stamp: nat) {
    forall i :: 0 <= i < |wire| && wire[i].HandedPush? && wire[i].topic == t ==> wire[i].stamp < stamp
  }

  ghost predicate QueueOrdered(wire: seq<Handed>, stamps: nat, t: Topic, queued: seq<Push>) {
    Increasing(queued) && forall p :: p in queued ==> p.stamp < stamps && AfterWire(wire, t, p.stamp)
  }

  predicate InQueue(l: Ledger, id: ReqId) {
    id in l && l[id].At? && l[id].place.Queue?
  }

  /** What is on the wire has left its queue for good. */
  ghost predicate Unqueued(wire: seq<Handed>, l: Ledger) {
    forall i :: 0 <= i < |wire| && wire[i].HandedPush? ==> wire[i].id in l && !InQueue(l, wire[i].id)
  }

  ghost predicate Backed(wire: seq<Handed>) {
    forall i :: 0 <= i < |wire| && (wire[i].HandedPush? || wire[i].HandedLeave?) ==> wire[i].backed
  }

  /** What holds even of a turn that is about to end the connection. */
  ghost predicate Ordered(c: Client) {
    && WireOrdered(c.trace.wire, c.trace.stamps)
    && Unqueued(c.trace.wire, c.ledger)
    && Backed(c.trace.wire)
    && forall t :: t in c.channels ==>
         QueueOrdered(c.trace.wire, c.trace.stamps, t, c.channels[t].queued) && |c.channels[t].queued| <= c.capacity
  }

  // ----- Joined topics -----

  ghost predicate TopicFlows(c: Client, t: Topic) {
    && (P.IsJoined(c.books.proto, t) ==>
          GenerationAccepted(c, t) && (t in c.channels ==> c.channels[t].queued == []))
    && (t in c.channels && c.channels[t].status == Joined ==> P.IsJoined(c.books.proto, t))
  }

  /** A joined topic has nothing queued and runs on an accepted generation, and only a
      joined topic shows the status `Joined`. */
  ghost predicate Flowing(c: Client) {
    Ordered(c) && forall t :: TopicFlows(c, t)
  }

  lemma FlowFacts(c: Client)
    requires Flowing(c)
    ensures forall t :: P.IsJoined(c.books.proto, t) ==> GenerationAccepted(c, t)
    ensures forall t :: P.IsJoined(c.books.proto, t) && t in c.channels ==> c.channels[t].queued == []
    ensures forall t :: t in c.channels && c.channels[t].status == Joined ==> P.IsJoined(c.books.proto, t)
  {
    forall t ensures TopicFlows(c, t) {}
    forall t | P.IsJoined(c.books.proto, t)
      ensures GenerationAccepted(c, t) && (t in c.channels ==> c.channels[t].queued == []) {
      assert TopicFlows(c, t);
    }
    forall t | t in c.channels && c.channels[t].status == Joined ensures P.IsJoined(c.books.proto, t) {
      assert TopicFlows(c, t);
    }
  }

  // ----- Operations that send no push -----

  /** Some of the pushes of `long`, still in order. */
  ghost predicate Within(short: seq<Push>, long: seq<Push>) {
    && |short| <= |long|
    && (forall p :: p in short ==> p in long)
    && (Increasing(long) ==> Increasing(short))
  }

  predicate Harmless(h: Handed) {
    !h.HandedPush? && (h.HandedLeave? ==> h.backed)
  }

  predicate SameWire(c: Client, d: Client) {
    && d.capacity == c.capacity && d.trace.stamps == c.trace.stamps && d.trace.accepted == c.trace.accepted
    && (d.trace.wire == c.trace.wire ||
        (|d.trace.wire| == |c.trace.wire| + 1 && d.trace.wire[..|c.trace.wire|] == c.trace.wire &&
         Harmless(d.trace.wire[|c.trace.wire|])))
  }

  ghost predicate NoRequeue(l: Ledger, m: Ledger) {
    forall id :: id in l ==> id in m && (InQueue(m, id) ==> m[id] == l[id])
  }

  /** The queues of `d` are queues of `c`, perhaps shortened or emptied. */
  ghost predicate SameQueues(c: Client, d: Client) {
    forall t :: t in d.channels ==>
      d.channels[t].queued == [] || (t in c.channels && Within(d.channels[t].queued, c.channels[t].queued))
  }

  lemma GrowsNeverRequeues(l: Ledger, m: Ledger)
    requires Grows(l, m)
    ensures NoRequeue(l, m)
  {}

  lemma CalmKeepsOrder(c: Client, d: Client)
    requires Ordered(c) && SameWire(c, d) && NoRequeue(c.ledger, d.ledger) && SameQueues(c, d)
    ensures Ordered(d)
  {
    var wire, n := d.trace.wire, |c.trace.wire|;
    assert forall i :: 0 <= i < n ==> wire[i] == c.trace.wire[i] by {
      assert d.trace.wire == c.trace.wire || d.trace.wire[..n] == c.trace.wire;
    }
    forall t | t in d.channels
      ensures QueueOrdered(wire, d.trace.stamps, t, d.channels[t].queued) && |d.channels[t].queued| <= d.capacity
    {
      var queued := d.channels[t].queued;
      if queued != [] {
        assert QueueOrdered(c.trace.wire, c.trace.stamps, t, c.channels[t].queued);
        forall p | p in queued ensures p.stamp < d.trace.stamps && AfterWire(wire, t, p.stamp) {
          assert p in c.channels[t].queued;
          assert AfterWire(c.trace.wire, t, p.stamp);
        }
      }
    }
  }

  /** No topic newly joins, and none shows `Joined` without being joined. */
  ghost predicate JoinedStay(c: Client, d: Client) {
    && (forall t :: P.IsJoined(d.books.proto, t) ==>
          P.IsJoined(c.books.proto, t) && d.books.proto.channels[t].joinRef == c.books.proto.channels[t].joinRef)
    && (forall t :: t in d.channels && d.channels[t].status == Joined ==> P.IsJoined(d.books.proto, t))
    && (forall t :: P.IsJoined(d.books.proto, t) && t in d.channels ==> t in c.channels || d.channels[t].queued == [])
  }

  lemma CalmKeepsFlow(c: Client, d: Client)
    requires Flowing(c) && SameWire(c, d) && NoRequeue(c.ledger, d.ledger) && SameQueues(c, d) && JoinedStay(c, d)
    ensures Flowing(d)
  {
    CalmKeepsOrder(c, d);
    forall t ensures TopicFlows(d, t) {
      assert TopicFlows(c, t);
    }
  }

  // ----- Sending a push -----

  /** `p` is the next push of `t`: later than the wire, earlier than the queue. */
  ghost predicate Sendable(c: Client, t: Topic, p: Push) {
    && p.id in c.ledger && c.ledger[p.id] == At(Queue(t))
    && p.stamp < c.trace.stamps
    && AfterWire(c.trace.wire, t, p.stamp)
    && (t in c.channels ==> forall q :: q in c.channels[t].queued ==> p.stamp < q.stamp)
  }

  lemma SendKeepsOrder(c: Client, d: Client, t: Topic, p: Push)
    requires Ordered(c) && Sendable(c, t, p) && P.IsJoined(c.books.proto, t) && GenerationAccepted(c, t)
    requires d.trace.wire == c.trace.wire + [HandOver(c, t, p)]
    requires d.channels == c.channels && d.capacity == c.capacity && d.trace.stamps == c.trace.stamps
    requires NoRequeue(c.ledger, d.ledger) && !InQueue(d.ledger, p.id)
    ensures Ordered(d)
  {
    var wire, n := d.trace.wire, |c.trace.wire|;
    assert wire[n] == HandOver(c, t, p);
    assert forall i :: 0 <= i < n ==> wire[i] == c.trace.wire[i];
    forall i | 0 <= i < n && wire[i].HandedPush? ensures wire[i].id != p.id {
      assert !InQueue(c.ledger, c.trace.wire[i].id);
    }
    forall u | u in d.channels ensures QueueOrdered(wire, d.trace.stamps, u, d.channels[u].queued) {
      assert QueueOrdered(c.trace.wire, c.trace.stamps, u, c.channels[u].queued);
      forall q | q in d.channels[u].queued ensures AfterWire(wire, u, q.stamp) {
        assert AfterWire(c.trace.wire, u, q.stamp);
      }
    }
  }

  lemma PushKeepsOrder(c: Client, net: Net, t: Topic, p: Push)
    requires Ordered(c) && Sendable(c, t, p) && P.IsJoined(c.books.proto, t) && GenerationAccepted(c, t)
    ensures Ordered(SendPush(c, net, t, p).client)
  {
    var d := SendPush(c, net, t, p).client;
    PushGrows(c, net, t, p);
    GrowsNeverRequeues(c.ledger, d.ledger);
    if Unsendable(net, p) {
      CalmKeepsOrder(c, d);
    } else if p.isCall {
      CallKeepsOrder(c, net, t, p);
    } else {
      CastKeepsOrder(c, net, t, p);
    }
  }

  lemma CallKeepsOrder(c: Client, net: Net, t: Topic, p: Push)
    requires Ordered(c) && Sendable(c, t, p) && P.IsJoined(c.books.proto, t) && GenerationAccepted(c, t)
    ensures Ordered(SendCall(c, net, t, p).client)
  {
    var d := SendCall(c, net, t, p).client;
    var r := BookCall(c.books, t, p).1.value;
    SettleGrows(c.ledger, p.id, At(Calling(r)));
    assert d.ledger == Settle(c.ledger, p.id, At(Calling(r)));
    GrowsNeverRequeues(c.ledger, d.ledger);
    if net.budget > 0 || net.encodes {
      SendKeepsOrder(c, d, t, p);
    } else {
      CalmKeepsOrder(c, d);
    }
  }

  lemma CastKeepsOrder(c: Client, net: Net, t: Topic, p: Push)
    requires Ordered(c) && Sendable(c, t, p) && P.IsJoined(c.books.proto, t) && GenerationAccepted(c, t)
    ensures Ordered(SendCast(c, net, t, p).client)
  {
    var d := SendCast(c, net, t, p).client;
    var a := if net.budget > 0 then Sent else Interrupted(CastOp);
    SettleGrows(c.ledger, p.id, Answered(a));
    assert d.ledger == Settle(c.ledger, p.id, Answered(a));
    GrowsNeverRequeues(c.ledger, d.ledger);
    if net.budget > 0 || net.encodes {
      SendKeepsOrder(c, d, t, p);
    } else {
      CalmKeepsOrder(c, d);
    }
  }

  lemma PushKeepsJoined(c: Client, net: Net, t: Topic, p: Push)
    requires P.IsJoined(c.books.proto, t)
    ensures SendPush(c, net, t, p).client.books.proto.channels == c.books.proto.channels
    ensures SendPush(c, net, t, p).client.trace.accepted == c.trace.accepted
    ensures SendPush(c, net, t, p).client.trace.stamps == c.trace.stamps
  {}

  // ----- Flushing a queue -----

  /** Every topic but `t` flows; `t` is joined but may still have pushes queued. */
  ghost predicate Draining(c: Client, t: Topic) {
    && Ordered(c) && P.IsJoined(c.books.proto, t) && GenerationAccepted(c, t)
    && forall u :: u != t ==> TopicFlows(c, u)
  }

  lemma HeadIsSendable(c: Client, t: Topic)
    requires Ordered(c) && G.Conserved(c) && t in c.channels && c.channels[t].queued != []
    ensures Sendable(PopQueue(c, t), t, c.channels[t].queued[0])
    ensures Ordered(PopQueue(c, t))
  {
    var queued := c.channels[t].queued;
    var p, tail := queued[0], queued[1..];
    assert p in queued;
    assert G.Holds(c, p.id, Queue(t));
    assert QueueOrdered(c.trace.wire, c.trace.stamps, t, queued);
    forall q | q in tail ensures p.stamp < q.stamp && q in queued {
      var i :| 0 <= i < |tail| && tail[i] == q;
      assert queued[i + 1] == q;
    }
    assert Within(tail, queued);
    CalmKeepsOrder(c, PopQueue(c, t));
  }

  lemma {:induction false} FlushFlows(c: Client, net: Net, t: Topic)
    requires Linked(c.books) && G.Conserved(c) && Draining(c, t)
    ensures var turn := Flush(c, net, t);
            Ordered(turn.client) && (turn.exit.None? ==> Flowing(turn.client))
    decreases if t in c.channels then |c.channels[t].queued| else 0
  {
    if t !in c.channels || c.channels[t].queued == [] {
      assert TopicFlows(c, t);
    } else {
      var p := c.channels[t].queued[0];
      var c1 := PopQueue(c, t);
      HeadIsSendable(c, t);
      C.PopLoosens(c, t);
      C.PushBalances(c1, net, t, p, {p.id});
      assert {p.id} - {p.id} == {};
      C.PushKeepsJoined(c1, net, t, p);
      PushKeepsJoined(c1, net, t, p);
      PushKeepsOrder(c1, net, t, p);
      var turn := SendPush(c1, net, t, p);
      if turn.exit.None? {
        forall u | u != t ensures TopicFlows(turn.client, u) {
          assert TopicFlows(c, u);
        }
        FlushFlows(turn.client, Spend(net, p), t);
      }
    }
  }

  // ----- Actions -----

  ghost predicate TurnFlows(turn: Turn) {
    Ordered(turn.client) && (turn.exit.None? ==> Flowing(turn.client))
  }

  ghost predicate Calm(c: Client, d: Client) {
    SameWire(c, d) && NoRequeue(c.ledger, d.ledger) && SameQueues(c, d) && JoinedStay(c, d)
  }

  /** A turn that prepares `d` calmly and hands over one harmless frame. */
  lemma FrameFlows(c: Client, d: Client, net: Net, frame: Handed)
    requires Flowing(c) && Calm(c, d) && d.trace == c.trace && Harmless(frame)
    ensures TurnFlows(SendFrame(d, net, frame))
  {
    var e := SendFrame(d, net, frame).client;
    CalmKeepsFlow(c, d);
    assert e.books == d.books && e.channels == d.channels && e.ledger == d.ledger;
    if net.budget > 0 || net.encodes {
      assert e.trace.wire[..|d.trace.wire|] == d.trace.wire;
    }
    FlowFacts(d);
    CalmKeepsFlow(d, e);
  }

  lemma StopChannelIsCalm(c: Client, t: Topic)
    requires Flowing(c)
    ensures Calm(c, StopChannel(c, t))
  {
    StopChannelGrows(c, t);
    GrowsNeverRequeues(c.ledger, StopChannel(c, t).ledger);
    FlowFacts(c);
  }

  lemma SetStatusIsCalm(c: Client, t: Topic, status: Status)
    requires Flowing(c) && (status == Joined ==> P.IsJoined(c.books.proto, t))
    ensures Calm(c, SetStatus(c, t, status))
  {
    FlowFacts(c);
  }

  lemma ForgetIsCalm(c: Client, t: Topic)
    requires Flowing(c)
    ensures Calm(c, Forget(c, t))
  {
    StopChannelGrows(c, t);
    GrowsNeverRequeues(c.ledger, Forget(c, t).ledger);
    FlowFacts(c);
  }

  lemma UnregisterFlows(c: Client, net: Net, t: Topic)
    requires Flowing(c)
    ensures TurnFlows(Unregister(c, net, t))
  {
    if !P.IsJoined(c.books.proto, t) {
      ForgetIsCalm(c, t);
      CalmKeepsFlow(c, Forget(c, t));
    } else {
      assert TopicFlows(c, t);
      var c1 := c.(books := c.books.(proto := P.Leave(c.books.proto, t).0));
      var d := Forget(c1, t);
      StopChannelGrows(c1, t);
      GrowsNeverRequeues(c.ledger, d.ledger);
      FlowFacts(c);
      assert Calm(c, d);
      FrameFlows(c, d, net, HandedLeave(t, GenerationAccepted(c, t)));
    }
  }

  lemma LoadPayloadIsCalm(c: Client, t: Topic)
    requires Flowing(c)
    ensures Calm(c, LoadPayload(c, t))
  {
    FlowFacts(c);
  }

  lemma RequestJoinFlows(c: Client, t: Topic, id: ReqId)
    requires Flowing(c) && id !in c.ledger
    ensures Flowing(RequestJoin(c, t, id))
  {
    RequestJoinGrows(c, t, id);
    GrowsNeverRequeues(c.ledger, RequestJoin(c, t, id).ledger);
    RequestJoinIsCalm(c, t, id);
    CalmKeepsFlow(c, RequestJoin(c, t, id));
  }

  lemma RequestJoinIsCalm(c: Client, t: Topic, id: ReqId)
    requires Flowing(c)
    ensures var d := RequestJoin(c, t, id); SameWire(c, d) && SameQueues(c, d) && JoinedStay(c, d)
  {
    FlowFacts(c);
    if t in c.channels {
      if !c.phase.Connected? {
      } else if P.IsJoined(c.books.proto, t) {
      } else {
      }
    }
  }

  // ----- Accepting a push -----

  lemma StampFlows(c: Client, t: Topic, id: ReqId)
    requires Flowing(c) && id !in c.ledger
    ensures Flowing(Stamp(c, t, id))
  {
    var d := Stamp(c, t, id);
    forall u ensures TopicFlows(d, u) {
      assert TopicFlows(c, u);
    }
    forall u | u in d.channels ensures QueueOrdered(d.trace.wire, d.trace.stamps, u, d.channels[u].queued) {
      assert QueueOrdered(c.trace.wire, c.trace.stamps, u, c.channels[u].queued);
    }
  }

  lemma AppendOrdered(wire: seq<Handed>, stamps: nat, t: Topic, queued: seq<Push>, p: Push)
    requires WireOrdered(wire, stamps) && QueueOrdered(wire, stamps, t, queued) && p.stamp == stamps
    ensures QueueOrdered(wire, stamps + 1, t, queued + [p])
  {
    forall i | 0 <= i < |queued| ensures queued[i].stamp < stamps {
      assert queued[i] in queued;
    }
  }

  lemma EnqueueFlows(c: Client, t: Topic, id: ReqId, p: Push)
    requires Flowing(c) && id !in c.ledger && p.id == id && p.stamp == c.trace.stamps && !P.IsJoined(c.books.proto, t)
    ensures Flowing(Enqueue(Stamp(c, t, id), t, p))
  {
    var c1 := Stamp(c, t, id);
    StampFlows(c, t, id);
    EnqueueGrows(c1, t, p);
    var d := Enqueue(c1, t, p);
    GrowsNeverRequeues(c1.ledger, d.ledger);
    if t in c.channels && !(c.channels[t].everJoined && !c.channels[t].desired) && |c.channels[t].queued| < c.capacity {
      QueueingFlows(c, t, id, p);
    } else {
      assert d == c1.(ledger := d.ledger);
      FlowFacts(c1);
      CalmKeepsFlow(c1, d);
    }
  }

  lemma QueueingFlows(c: Client, t: Topic, id: ReqId, p: Push)
    requires Flowing(c) && id !in c.ledger && p.id == id && p.stamp == c.trace.stamps && !P.IsJoined(c.books.proto, t)
    requires t in c.channels && |c.channels[t].queued| < c.capacity
    ensures var c1 := Stamp(c, t, id);
            Flowing(SetRecord(c1, t, c.channels[t].(queued := c.channels[t].queued + [p])).(ledger := Settle(c1.ledger, id, At(Queue(t)))))
  {
    var c1 := Stamp(c, t, id);
    var d := SetRecord(c1, t, c.channels[t].(queued := c.channels[t].queued + [p])).(ledger := Settle(c1.ledger, id, At(Queue(t))));
    StampFlows(c, t, id);
    assert d.ledger == c1.ledger;
    AppendOrdered(c.trace.wire, c.trace.stamps, t, c.channels[t].queued, p);
    forall u | u in d.channels ensures QueueOrdered(d.trace.wire, d.trace.stamps, u, d.channels[u].queued) {
      assert QueueOrdered(c1.trace.wire, c1.trace.stamps, u, c1.channels[u].queued);
    }
    forall u ensures TopicFlows(d, u) {
      assert TopicFlows(c1, u);
    }
  }

  lemma RequestPushFlows(c: Client, net: Net, t: Topic, id: ReqId, isCall: bool, event: string, payload: Payload)
    requires Linked(c.books) && Flowing(c) && id !in c.ledger
    requires !c.phase.Connected? ==> !P.IsJoined(c.books.proto, t)
    ensures TurnFlows(RequestPush(c, net, t, id, isCall, event, payload))
  {
    var p := Push(id, isCall, event, payload, c.trace.stamps);
    var c1 := Stamp(c, t, id);
    if c.phase.Connected? && P.IsJoined(c.books.proto, t) {
      assert TopicFlows(c, t);
      StampFlows(c, t, id);
      assert Sendable(c1, t, p);
      PushKeepsOrder(c1, net, t, p);
      PushKeepsJoined(c1, net, t, p);
      var d := SendPush(c1, net, t, p).client;
      forall u ensures TopicFlows(d, u) {
        assert TopicFlows(c1, u);
      }
    } else {
      EnqueueFlows(c, t, id, p);
    }
  }

  // ----- Other requests -----

  /** Starting the leave of a topic that may still have pushes queued. */
  lemma DrainingLeaveFlows(c: Client, net: Net, t: Topic, leave: PendingLeave)
    requires Draining(c, t) && (t in c.channels ==> c.channels[t].status != Joined)
    ensures TurnFlows(StartLeave(c, net, t, leave))
  {
    var (books, result) := BookLeave(c.books, t, leave);
    var d := c.(books := books,
                ledger := if leave.open then Settle(c.ledger, leave.id, At(LeavingOn(result.value))) else c.ledger);
    if leave.open {
      SettleGrows(c.ledger, leave.id, At(LeavingOn(result.value)));
    }
    GrowsNeverRequeues(c.ledger, d.ledger);
    CalmKeepsOrder(c, d);
    forall u ensures TopicFlows(d, u) {
      assert u != t ==> TopicFlows(c, u);
    }
    FlowFacts(d);
    FrameFlows(d, d, net, HandedLeave(t, GenerationAccepted(c, t)));
  }

  lemma StartLeaveFlows(c: Client, net: Net, t: Topic, leave: PendingLeave)
    requires Flowing(c) && P.IsJoined(c.books.proto, t)
    requires t in c.channels ==> c.channels[t].status != Joined
    ensures TurnFlows(StartLeave(c, net, t, leave))
  {
    FlowFacts(c);
    DrainingLeaveFlows(c, net, t, leave);
  }

  lemma StoppedIsCalm(c: Client, t: Topic, status: Status, id: ReqId)
    requires Flowing(c) && id !in c.ledger && status != Joined
    ensures var d := StopChannel(SetStatus(Enter(c, id, Deferred(t)), t, status), t);
            Flowing(d) && d.books == c.books && (t in d.channels ==> d.channels[t].status == status)
  {
    var c1 := SetStatus(Enter(c, id, Deferred(t)), t, status);
    FlowFacts(c);
    assert Calm(c, c1);
    CalmKeepsFlow(c, c1);
    StopChannelIsCalm(c1, t);
    CalmKeepsFlow(c1, StopChannel(c1, t));
  }

  lemma RequestLeaveFlows(c: Client, net: Net, t: Topic, id: ReqId)
    requires Flowing(c) && id !in c.ledger
    ensures TurnFlows(RequestLeave(c, net, t, id))
  {
    var state := P.StateOf(c.books.proto, t);
    var status := if c.phase.Connected? && (state == Some(P.Joined) || state == Some(P.Joining)) then Leaving else Left;
    var c2 := StopChannel(SetStatus(Enter(c, id, Deferred(t)), t, status), t);
    StoppedIsCalm(c, t, status, id);
    FlowFacts(c2);
    if c.phase.Connected? && state == Some(P.Joined) {
      StartLeaveFlows(c2, net, t, PendingLeave(id, true));
    } else if c.phase.Connected? && state == Some(P.Joining) && t in c2.channels {
      SettleGrows(c2.ledger, id, At(Deferred(t)));
      DeferFlows(c2, t, id);
    } else {
      SettleGrows(c2.ledger, id, Answered(Accepted(EMPTY_OBJECT)));
      RespondFlows(c2, id, Accepted(EMPTY_OBJECT));
    }
  }

  lemma DeferFlows(c: Client, t: Topic, id: ReqId)
    requires Flowing(c) && t in c.channels
    ensures Flowing(SetRecord(c, t, c.channels[t].(deferred := Some(PendingLeave(id, true)))).(ledger := Settle(c.ledger, id, At(Deferred(t)))))
  {
    var d := SetRecord(c, t, c.channels[t].(deferred := Some(PendingLeave(id, true)))).(ledger := Settle(c.ledger, id, At(Deferred(t))));
    SettleGrows(c.ledger, id, At(Deferred(t)));
    GrowsNeverRequeues(c.ledger, d.ledger);
    FlowFacts(c);
    CalmKeepsFlow(c, d);
  }

  lemma RespondFlows(c: Client, id: ReqId, a: Answer)
    requires Flowing(c)
    ensures Flowing(Respond(c, id, a))
  {
    SettleGrows(c.ledger, id, Answered(a));
    GrowsNeverRequeues(c.ledger, Respond(c, id, a).ledger);
    FlowFacts(c);
    CalmKeepsFlow(c, Respond(c, id, a));
  }

  lemma RequestPingFlows(c: Client, net: Net, id: ReqId)
    requires Flowing(c) && id !in c.ledger
    ensures TurnFlows(RequestPing(c, net, id))
  {
    FlowFacts(c);
    if !c.phase.Connected? {
      CalmKeepsFlow(c, RequestPing(c, net, id).client);
    } else {
      FrameFlows(c, Enter(c, id, Pinging(c.books.proto.next + 1)).(books := BookPing(c.books, id)), net, HandedHeartbeat);
    }
  }

  lemma {:induction false} WithoutIdIsWithin(queued: seq<Push>, id: ReqId)
    ensures Within(WithoutId(queued, id), queued)
    decreases |queued|
  {
    if queued != [] {
      var tail := queued[1..];
      assert forall p :: p in tail ==> p in queued;
      if queued[0].id != id {
        WithoutIdIsWithin(tail, id);
        if Increasing(queued) {
          forall p | p in tail ensures queued[0].stamp < p.stamp {
            var i :| 0 <= i < |tail| && tail[i] == p;
            assert queued[i + 1] == p;
          }
          assert Increasing(tail);
          var rest := WithoutId(tail, id);
          forall i | 0 <= i < |rest| ensures queued[0].stamp < rest[i].stamp {
            assert rest[i] in rest;
          }
        }
      }
    }
  }

  lemma CancelFlows(c: Client, id: ReqId)
    requires Flowing(c)
    ensures Flowing(Cancel(c, id))
  {
    var d := Cancel(c, id);
    CancelSilencesOne(c, id);
    assert NoRequeue(c.ledger, d.ledger);
    CancelIsCalm(c, id);
    CalmKeepsFlow(c, d);
  }

  lemma CancelIsCalm(c: Client, id: ReqId)
    requires Flowing(c)
    ensures var d := Cancel(c, id); SameWire(c, d) && SameQueues(c, d) && JoinedStay(c, d)
  {
    FlowFacts(c);
    if id in c.ledger && c.ledger[id].At? {
      match c.ledger[id].place
      case Waiter(t) => CancelWaiterIsCalm(c, t, id);
      case Queue(t) => CancelQueuedIsCalm(c, t, id);
      case _ =>
    }
  }

  lemma CancelQueuedIsCalm(c: Client, t: Topic, id: ReqId)
    requires Flowing(c) && id in c.ledger && c.ledger[id] == At(Queue(t))
    ensures var d := Cancel(c, id); SameWire(c, d) && SameQueues(c, d) && JoinedStay(c, d)
  {
    FlowFacts(c);
    if t in c.channels { WithoutIdIsWithin(c.channels[t].queued, id); }
  }

  lemma CancelWaiterIsCalm(c: Client, t: Topic, id: ReqId)
    requires Flowing(c)
    ensures t in c.channels ==> SameWire(c, CancelWaiter(c, t, id)) && SameQueues(c, CancelWaiter(c, t, id)) && JoinedStay(c, CancelWaiter(c, t, id))
  {
    FlowFacts(c);
  }

  // ----- Completions -----

  lemma BookJoinUnjoins(b: Books, t: Topic, params: Value)
    requires !P.Active(b.proto, t)
    ensures var (d, ok) := BookJoin(b, t, params);
            ok && forall u :: P.IsJoined(d.proto, u) <==> P.IsJoined(b.proto, u)
    ensures var d := BookJoin(b, t, params).0;
            forall u :: P.IsJoined(d.proto, u) ==> d.proto.channels[u] == b.proto.channels[u]
  {}

  lemma StartJoinFlows(c: Client, net: Net, t: Topic, load: nat, params: Value)
    requires Flowing(c) && !P.Active(c.books.proto, t) && t in c.channels
    ensures TurnFlows(StartJoin(c, net, t, load, params))
  {
    var (books, ok) := BookJoin(c.books, t, params);
    var d := SetStatus(c, t, Joining).(books := books);
    FlowFacts(c);
    BookJoinUnjoins(c.books, t, params);
    FrameFlows(c, d, net, HandedJoin(t, load, t in c.trace.latest && c.trace.latest[t] == load));
  }

  lemma PayloadReadyFlows(c: Client, net: Net, t: Topic, load: nat, loaded: Option<Value>)
    requires Flowing(c)
    ensures TurnFlows(PayloadReady(c, net, t, load, loaded))
  {
    var c1 := c.(payloads := c.payloads - {(t, load)});
    FlowFacts(c);
    CalmKeepsFlow(c, c1);
    if t in c.channels && c.channels[t].activePayload == Some(load) {
      var rec := c.channels[t].(activePayload := None);
      var c2 := SetRecord(c1, t, rec);
      CalmKeepsFlow(c, c2);
      if rec.desired && loaded.None? {
        SettleAllGrows(c.ledger, rec.waiters, LoaderFailed);
        var d := PayloadReady(c, net, t, load, loaded).client;
        GrowsNeverRequeues(c.ledger, d.ledger);
        CalmKeepsFlow(c, d);
      } else if rec.desired && !P.Active(c.books.proto, t) {
        StartJoinFlows(c2, net, t, load, loaded.value);
      }
    }
  }

  lemma HeartbeatTickFlows(c: Client, net: Net)
    requires Flowing(c)
    ensures TurnFlows(HeartbeatTick(c, net))
  {
    FlowFacts(c);
    if c.books.heartbeat.None? {
      FrameFlows(c, c.(books := BookHeartbeat(c.books)), net, HandedHeartbeat);
    }
  }

  lemma RejoinFiredFlows(c: Client, t: Topic)
    requires Flowing(c)
    ensures Flowing(RejoinFired(c, t))
  {
    var c1 := c.(rejoins := c.rejoins - multiset{t});
    QuietFlows(c, c1);
    if t in c.channels {
      var c2 := SetRecord(c1, t, c.channels[t].(rejoinScheduled := false));
      FlowFacts(c);
      CalmKeepsFlow(c, c2);
      LoadPayloadFlows(c2, t);
    }
  }

  /** In `d` the topic `t` is not joined and does not show `Joined`; nothing else in the
      protocol's channels or the driver's queues has changed. */
  ghost predicate DroppedCalmly(c: Client, d: Client, t: Topic) {
    && d.books.proto.channels - {t} == c.books.proto.channels - {t}
    && !P.IsJoined(d.books.proto, t)
    && d.trace == c.trace && d.capacity == c.capacity
    && (t !in c.channels ==> d.channels == c.channels)
    && (t in c.channels ==>
          t in d.channels && d.channels[t].status != Joined && d.channels[t].queued == c.channels[t].queued &&
          d.channels == c.channels[t := d.channels[t]])
  }

  lemma DroppedFlows(c: Client, d: Client, t: Topic)
    requires Flowing(c) && DroppedCalmly(c, d, t) && Grows(c.ledger, d.ledger)
    ensures Flowing(d)
  {
    GrowsNeverRequeues(c.ledger, d.ledger);
    FlowFacts(c);
    forall u | u != t
      ensures u in d.books.proto.channels <==> u in c.books.proto.channels
      ensures u in c.books.proto.channels ==> d.books.proto.channels[u] == c.books.proto.channels[u] {
      assert u in d.books.proto.channels - {t} <==> u in c.books.proto.channels - {t};
      if u in c.books.proto.channels {
        assert (d.books.proto.channels - {t})[u] == (c.books.proto.channels - {t})[u];
      }
    }
    forall u | u in d.channels ensures Within(d.channels[u].queued, c.channels[u].queued) {
      assert d.channels[u].queued == c.channels[u].queued;
    }
    CalmKeepsFlow(c, d);
  }

  /** The protocol's channels, the records and the wire are as they were. */
  lemma QuietFlows(c: Client, d: Client)
    requires Flowing(c) && Grows(c.ledger, d.ledger)
    requires d.books.proto.channels == c.books.proto.channels && d.channels == c.channels
    requires d.trace == c.trace && d.capacity == c.capacity
    ensures Flowing(d)
  {
    GrowsNeverRequeues(c.ledger, d.ledger);
    FlowFacts(c);
    CalmKeepsFlow(c, d);
  }

  lemma ScheduleRejoinFlows(c: Client, t: Topic)
    requires Flowing(c)
    ensures Flowing(ScheduleRejoin(c, t))
  {
    FlowFacts(c);
    CalmKeepsFlow(c, ScheduleRejoin(c, t));
  }

  lemma LoadPayloadFlows(c: Client, t: Topic)
    requires Flowing(c)
    ensures Flowing(LoadPayload(c, t))
  {
    LoadPayloadIsCalm(c, t);
    CalmKeepsFlow(c, LoadPayload(c, t));
  }

  lemma BooksFlow(c: Client, d: Client)
    requires Flowing(c) && d == c.(books := d.books) && d.books.proto == c.books.proto
    ensures Flowing(d)
  {
    FlowFacts(c);
    CalmKeepsFlow(c, d);
  }

  lemma JoinTimedOutFlows(c: Client, t: Topic, r: Ref)
    requires Flowing(c)
    ensures Flowing(JoinTimedOut(c, t, r))
  {
    var c1 := c.(books := BookJoinTimeout(c.books, t, r));
    BooksFlow(c, c1);
    if r in c.books.pendingJoins && c.books.pendingJoins[r] == t {
      JoinExpiredFlows(c, t, r);
    }
  }

  lemma JoinExpiredFlows(c: Client, t: Topic, r: Ref)
    requires Flowing(c) && r in c.books.pendingJoins && c.books.pendingJoins[r] == t
    ensures Flowing(JoinTimedOut(c, t, r))
  {
    var c2 := c.(books := BookDiscard(BookJoinTimeout(c.books, t, r), t));
    if t !in c.channels {
      DroppedFlows(c, c2, t);
    } else {
      var rec := c.channels[t].(activePayload := None);
      if rec.deferred.Some? {
        var d := SetRecord(c2, t, rec.(deferred := None, status := Left))
                   .(ledger := SettleLeave(c.ledger, rec.deferred, Timeout(LeaveOp)));
        SettleLeaveGrows(c.ledger, rec.deferred, Timeout(LeaveOp));
        DroppedFlows(c, d, t);
      } else if rec.desired {
        var d := SetRecord(c2, t, rec.(status := Errored, waiters := {}))
                   .(ledger := SettleAll(c.ledger, rec.waiters, Answered(Timeout(JoinOp))));
        SettleAllGrows(c.ledger, rec.waiters, Timeout(JoinOp));
        DroppedFlows(c, d, t);
        ScheduleRejoinFlows(d, t);
      } else {
        DroppedFlows(c, SetRecord(c2, t, rec.(status := Left)), t);
      }
    }
  }

  lemma LeaveTimedOutFlows(c: Client, t: Topic, r: Ref)
    requires Flowing(c)
    ensures Flowing(LeaveTimedOut(c, t, r))
  {
    var b1 := c.books.(timers := c.books.timers - {LeaveTimer(t, r)});
    BooksFlow(c, c.(books := b1));
    if r in c.books.pendingLeaves {
      var c2 := c.(books := BookDiscard(b1.(pendingLeaves := c.books.pendingLeaves - {r}), t),
                   ledger := SettleLeave(c.ledger, Some(c.books.pendingLeaves[r]), Timeout(LeaveOp)));
      SettleLeaveGrows(c.ledger, Some(c.books.pendingLeaves[r]), Timeout(LeaveOp));
      if t in c.channels && c.channels[t].desired {
        DroppedFlows(c, SetStatus(c2, t, WaitingToJoin), t);
        LoadPayloadFlows(SetStatus(c2, t, WaitingToJoin), t);
      } else {
        DroppedFlows(c, SetStatus(c2, t, Left), t);
      }
    }
  }

  // ----- Connections -----

  lemma {:induction false} LoadAllFlows(c: Client, order: seq<Topic>)
    requires Flowing(c)
    ensures Flowing(LoadAll(c, order))
    decreases |order|
  {
    if order != [] {
      var c1 := SetStatus(c, order[0], WaitingToJoin);
      SetStatusIsCalm(c, order[0], WaitingToJoin);
      CalmKeepsFlow(c, c1);
      LoadPayloadIsCalm(c1, order[0]);
      CalmKeepsFlow(c1, LoadPayload(c1, order[0]));
      LoadAllFlows(LoadPayload(c1, order[0]), order[1..]);
    }
  }

  lemma OnConnectFlows(c: Client, order: seq<Topic>)
    requires Flowing(c)
    ensures Flowing(OnConnect(c, order))
  {
    var c1 := Opened(c);
    FlowFacts(c);
    CalmKeepsFlow(c, c1);
    LoadAllFlows(c1, order);
  }

  lemma DisconnectFlows(c: Client, phase: Phase)
    requires Ordered(c)
    ensures Flowing(OnDisconnect(c, phase))
  {
    var d := OnDisconnect(c, phase);
    InterruptGrows(c);
    GrowsNeverRequeues(c.ledger, d.ledger);
    var e := d.(trace := c.trace);
    CalmKeepsOrder(c, e);
    assert Ordered(d);
    forall t ensures TopicFlows(d, t) {}
  }
}
