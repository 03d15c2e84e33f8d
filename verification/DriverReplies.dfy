/** Correlation end to end: a reply resolves the request it answers and no other. */
module DriverReplies {
  import opened Wire
  import P = ProtocolSpec
  import L = ProtocolLaws
  import opened DriverSpec
  import opened DriverBooks
  import opened DriverLedger
  import F = DriverFates
  import C = DriverConservation
  import O = DriverOffline

  /** Request `id` alone receives the answer `a`. */
  ghost predicate OnlyAnswered(l: Ledger, m: Ledger, id: ReqId, a: Answer) {
    m == l[id := Answered(a)]
  }

  /** The reply to a push resolves the call waiting on its reference, for its topic. */
  lemma ReplyFindsItsCall(c: Client, net: Net, f: Frame, t: Topic, e: string, r: Ref, status: P.ReplyStatus, response: Payload)
    requires Linked(c.books) && Conserved(c)
    requires P.Receive(c.books.proto, f).1 == Ok(P.Replied(t, e, r, status, response))
    ensures f.reference == Some(r) && r in c.books.pendingCalls && c.books.pendingCalls[r].topic == t
    ensures var id := c.books.pendingCalls[r].id;
            var d := Incoming(c, net, f).client;
            && c.ledger.Keys == d.ledger.Keys && id in c.ledger && c.ledger[id] == At(Calling(r))
            && OnlyAnswered(c.ledger, d.ledger, id, Answer.Replied(status, response))
            && r !in d.books.pendingCalls
  {
    assert r in c.books.proto.pending && Tracked(c.books, r);
    assert Holds(c, c.books.pendingCalls[r].id, Calling(r));
  }

  /** The reply to a leave resolves the leave waiting on its reference, if its responder
      is still there. */
  lemma LeaveReplyFindsItsLeave(c: Client, net: Net, f: Frame, t: Topic, r: Ref, response: Payload)
    requires Linked(c.books) && Conserved(c)
    requires P.Receive(c.books.proto, f).1 == Ok(P.Left(t, r, response))
    ensures f.reference == Some(r) && r in c.books.pendingLeaves
    ensures var leave := c.books.pendingLeaves[r];
            var d := Incoming(c, net, f).client;
            && (leave.open ==> leave.id in c.ledger && c.ledger[leave.id] == At(LeavingOn(r)) &&
                               OnlyAnswered(c.ledger, d.ledger, leave.id, Accepted(response)))
            && (!leave.open ==> d.ledger == c.ledger)
            && r !in d.books.pendingLeaves
            && P.StateOf(d.books.proto, t).None?
  {
    assert r in c.books.proto.pending && Tracked(c.books, r);
    var leave := c.books.pendingLeaves[r];
    if leave.open {
      assert Holds(c, leave.id, LeavingOn(r));
    }
    var c1 := c.(books := c.books.(proto := P.Receive(c.books.proto, f).0));
    OnLeftEffect(c1, t, r, response);
  }

  lemma OnLeftEffect(c: Client, t: Topic, r: Ref, response: Payload)
    requires r in c.books.pendingLeaves
    ensures var d := OnLeft(c, t, r, response);
            && d.ledger == SettleLeave(c.ledger, Some(c.books.pendingLeaves[r]), Accepted(response))
            && d.books == c.books.(pendingLeaves := c.books.pendingLeaves - {r})
  {}

  /** A heartbeat reply clears the loop's own heartbeat or resolves the ping waiting on
      its reference. */
  lemma HeartbeatFindsItsPing(c: Client, net: Net, f: Frame, r: Ref, status: P.ReplyStatus)
    requires Linked(c.books) && Conserved(c)
    requires P.Receive(c.books.proto, f).1 == Ok(P.HeartbeatAck(r, status))
    ensures var d := Incoming(c, net, f).client;
            if c.books.heartbeat == Some(r) then
              r !in c.books.pendingPings && d.books.heartbeat.None? && d.ledger == c.ledger
            else
              && r in c.books.pendingPings && d.books.heartbeat == c.books.heartbeat
              && r !in d.books.pendingPings
              && c.books.pendingPings[r] in c.ledger && c.ledger[c.books.pendingPings[r]] == At(Pinging(r))
              && OnlyAnswered(c.ledger, d.ledger, c.books.pendingPings[r], Pong)
  {
    assert r in c.books.proto.pending && Tracked(c.books, r);
    if c.books.heartbeat != Some(r) {
      assert Holds(c, c.books.pendingPings[r], Pinging(r));
    }
    var proto := P.Receive(c.books.proto, f).0;
    OnHeartbeatEffect(c.(books := c.books.(proto := proto)), r);
  }

  lemma OnHeartbeatEffect(c: Client, r: Ref)
    ensures var d := OnHeartbeat(c, r);
            if c.books.heartbeat == Some(r) then d == c.(books := c.books.(heartbeat := None))
            else if r in c.books.pendingPings then
              && d.books == c.books.(pendingPings := c.books.pendingPings - {r})
              && d.ledger == Settle(c.ledger, c.books.pendingPings[r], Answered(Pong))
            else d == c
  {}

  /** An accepted join answers exactly its topic's waiters, with the server's response;
      the waiters of every other topic still wait. */
  lemma JoinReplyAnswersItsWaiters(c: Client, net: Net, f: Frame, t: Topic, r: Ref, response: Payload)
    requires Linked(c.books) && Conserved(c)
    requires P.Receive(c.books.proto, f).1 == Ok(P.JoinAccepted(t, r, response))
    ensures var d := Incoming(c, net, f).client;
            && (forall id :: t in c.channels && id in c.channels[t].waiters ==>
                  id in d.ledger && d.ledger[id] == Answered(Accepted(response)))
            && (forall id, u :: u != t && Holds(c, id, Waiter(u)) ==>
                  id in d.ledger && d.ledger[id] == At(Waiter(u)) && Holds(d, id, Waiter(u)))
  {
    var c2 := MarkJoined(c.(books := c.books.(proto := P.Receive(c.books.proto, f).0)), t, r, response);
    var d := Incoming(c, net, f).client;
    JoinReplyEffect(c, net, f, t, r, response);
    C.IncomingConserves(c, net, f);
    WaitersAnswered(c, c2, d, t, response);
    forall id, u | u != t && Holds(c, id, Waiter(u)) ensures Holds(d, id, Waiter(u)) {
      assert u in c2.channels && c2.channels[u] == c.channels[u];
    }
  }

  lemma JoinReplyEffect(c: Client, net: Net, f: Frame, t: Topic, r: Ref, response: Payload)
    requires Linked(c.books)
    requires P.Receive(c.books.proto, f).1 == Ok(P.JoinAccepted(t, r, response))
    ensures var c2 := MarkJoined(c.(books := c.books.(proto := P.Receive(c.books.proto, f).0)), t, r, response);
            var d := Incoming(c, net, f).client;
            && F.Grows(c2.ledger, d.ledger) && d.channels.Keys == c2.channels.Keys
            && forall u :: u in c2.channels ==> d.channels[u].waiters == c2.channels[u].waiters
  {
    var proto := P.Receive(c.books.proto, f).0;
    var c2 := MarkJoined(c.(books := c.books.(proto := proto)), t, r, response);
    ReceiveStaysLinked(c.books, f);
    AcceptedTopicIsJoined(c.books, f);
    assert BookComplete(c.books, proto, P.JoinAccepted(t, r, response)) == c2.books;
    AfterMarking(c2, net, t, if t in c.channels then c.channels[t].deferred else None);
  }

  /** What follows the marking: a deferred leave starts or the queue is flushed. */
  lemma AfterMarking(c: Client, net: Net, t: Topic, deferred: Option<PendingLeave>)
    requires Linked(c.books) && P.IsJoined(c.books.proto, t)
    ensures var d := (if deferred.Some? then StartLeave(c, net, t, deferred.value) else Flush(c, net, t)).client;
            && F.Grows(c.ledger, d.ledger) && d.channels.Keys == c.channels.Keys
            && forall u :: u in c.channels ==> d.channels[u].waiters == c.channels[u].waiters
  {
    if deferred.Some? {
      F.StartLeaveGrows(c, net, t, deferred.value);
      O.StartLeaveIsSteady(c, net, t, deferred.value);
    } else {
      F.FlushGrows(c, net, t);
      O.FlushIsSteady(c, net, t);
    }
  }

  lemma WaitersAnswered(c: Client, c2: Client, d: Client, t: Topic, response: Payload)
    requires Conserved(c) && Conserved(d) && F.Grows(c2.ledger, d.ledger)
    requires t in c.channels ==> c2.ledger == SettleAll(c.ledger, c.channels[t].waiters, Answered(Accepted(response)))
    ensures forall id :: t in c.channels && id in c.channels[t].waiters ==>
              id in d.ledger && d.ledger[id] == Answered(Accepted(response))
  {
    forall id | t in c.channels && id in c.channels[t].waiters
      ensures id in d.ledger && d.ledger[id] == Answered(Accepted(response)) {
      assert Holds(c, id, Waiter(t));
      assert c2.ledger[id] == Answered(Accepted(response));
      assert F.May(c2.ledger[id], d.ledger[id]);
    }
  }
}
