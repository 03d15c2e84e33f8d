/** Responder conservation: every accepted request is held by exactly one container,
    or has been answered exactly once, or was silenced by its own cancel. */
module DriverLedger {
  import opened Wire
  import P = ProtocolSpec
  import opened DriverSpec

  function Ids(queued: seq<Push>): set<ReqId> {
    set p | p in queued :: p.id
  }

  predicate HeldLeave(leave: Option<PendingLeave>, id: ReqId) {
    leave.Some? && leave.value.open && leave.value.id == id
  }

  /** The container `p` holds the responder of request `id`. */
  predicate Holds(c: Client, id: ReqId, p: Place) {
    match p
    case Waiter(t) => t in c.channels && id in c.channels[t].waiters
    case Queue(t) => t in c.channels && id in Ids(c.channels[t].queued)
    case Deferred(t) => t in c.channels && HeldLeave(c.channels[t].deferred, id)
    case Calling(r) => r in c.books.pendingCalls && c.books.pendingCalls[r].id == id
    case Pinging(r) => r in c.books.pendingPings && c.books.pendingPings[r] == id
    case LeavingOn(r) => r in c.books.pendingLeaves && HeldLeave(Some(c.books.pendingLeaves[r]), id)
  }

  predicate DistinctIds(queued: seq<Push>) {
    forall i, j :: 0 <= i < j < |queued| ==> queued[i].id != queued[j].id
  }

  predicate Pending(l: Ledger, id: ReqId) {
    id in l && l[id].At?
  }

  /** The ledger and the containers agree, except that the `loose` requests are between
      containers: pending, but held by none. No request was answered twice. */
  ghost predicate Balanced(c: Client, loose: set<ReqId>) {
    && (forall id, p :: Holds(c, id, p) ==> id in c.ledger && c.ledger[id] == At(p) && id !in loose)
    && (forall id :: Pending(c.ledger, id) ==> id in loose || Holds(c, id, c.ledger[id].place))
    && (forall id :: id in loose ==> Pending(c.ledger, id))
    && (forall id :: id in c.ledger ==> c.ledger[id] != Twice)
    && (forall t :: t in c.channels ==> DistinctIds(c.channels[t].queued))
  }

  /** Between turns nothing is loose. */
  ghost predicate Conserved(c: Client) {
    Balanced(c, {})
  }

  // ----- Ledger updates -----

  /** Exactly the requests `ids` have reached their final fate. */
  ghost predicate Finished(l: Ledger, m: Ledger, ids: set<ReqId>) {
    && m.Keys == l.Keys
    && forall id :: id in l ==>
         if id in ids then m[id].Answered? || m[id].Silenced? else m[id] == l[id]
  }

  lemma SettleFinishes(l: Ledger, id: ReqId, f: Fate)
    requires Pending(l, id) && (f.Answered? || f.Silenced?)
    ensures Finished(l, Settle(l, id, f), {id})
  {}

  lemma SettleAllFinishes(l: Ledger, ids: set<ReqId>, f: Fate)
    requires (forall id :: id in ids ==> Pending(l, id)) && (f.Answered? || f.Silenced?)
    ensures Finished(l, SettleAll(l, ids, f), ids)
  {
    assert forall id :: id in ids ==> Pending(l, id) && id in l;
    assert SettleAll(l, ids, f).Keys == l.Keys + ids == l.Keys;
  }

  lemma SettleLeaveFinishes(l: Ledger, leave: Option<PendingLeave>, a: Answer)
    requires leave.Some? && leave.value.open ==> Pending(l, leave.value.id)
    ensures Finished(l, SettleLeave(l, leave, a), LeaveIds(leave))
  {}

  function LeaveIds(leave: Option<PendingLeave>): set<ReqId> {
    if leave.Some? && leave.value.open then {leave.value.id} else {}
  }

  lemma {:induction false} SettleQueueFinishes(l: Ledger, queued: seq<Push>)
    requires DistinctIds(queued) && forall id :: id in Ids(queued) ==> Pending(l, id)
    ensures Finished(l, SettleQueue(l, queued), Ids(queued))
    decreases |queued|
  {
    if queued != [] {
      var head, tail := queued[0], queued[1..];
      IdsOfCons(queued);
      assert head in queued;
      var m := Settle(l, head.id, Answered(Interrupted(OperationOf(head))));
      forall id | id in Ids(tail) ensures Pending(m, id) {
        assert id != head.id;
        assert Pending(l, id);
      }
      SettleQueueFinishes(m, tail);
    }
  }

  /** The head's id is in no later place of a distinct queue. */
  lemma IdsOfCons(queued: seq<Push>)
    requires queued != [] && DistinctIds(queued)
    ensures Ids(queued) == {queued[0].id} + Ids(queued[1..]) && queued[0].id !in Ids(queued[1..])
    ensures DistinctIds(queued[1..])
  {
    forall id | id in Ids(queued) ensures id == queued[0].id || id in Ids(queued[1..]) {
      var i :| 0 <= i < |queued| && queued[i].id == id;
      assert i > 0 ==> queued[i] == queued[1..][i - 1];
    }
    assert queued[0] in queued;
    forall p | p in queued[1..] ensures p.id != queued[0].id && p in queued {
      var i :| 0 <= i < |queued[1..]| && queued[1..][i] == p;
      assert queued[i + 1] == p;
    }
  }

  lemma FinishedTwice(l: Ledger, m: Ledger, n: Ledger, a: set<ReqId>, b: set<ReqId>)
    requires Finished(l, m, a) && Finished(m, n, b)
    ensures Finished(l, n, a + b)
  {}

  // ----- The moves a responder can make -----

  predicate SameHolders(c: Client, d: Client) {
    && d.books.pendingCalls == c.books.pendingCalls && d.books.pendingPings == c.books.pendingPings
    && d.books.pendingLeaves == c.books.pendingLeaves
    && d.channels.Keys == c.channels.Keys
    && forall t :: t in c.channels ==> SameRecordHolders(c.channels[t], d.channels[t])
  }

  predicate SameRecordHolders(a: Record, b: Record) {
    a.waiters == b.waiters && a.queued == b.queued && a.deferred == b.deferred
  }

  lemma SameHoldersBalance(c: Client, d: Client, loose: set<ReqId>)
    requires Balanced(c, loose) && SameHolders(c, d) && d.ledger == c.ledger
    ensures Balanced(d, loose)
  {
    forall id, p ensures Holds(c, id, p) <==> Holds(d, id, p) {}
  }

  /** A new request is pending and loose. */
  lemma EnterBalances(c: Client, id: ReqId, p: Place, loose: set<ReqId>)
    requires Balanced(c, loose) && id !in c.ledger
    ensures Balanced(Enter(c, id, p), loose + {id})
  {
    var d := Enter(c, id, p);
    forall i, q | Holds(d, i, q) ensures i in d.ledger && d.ledger[i] == At(q) && i !in loose + {id} {
      assert Holds(c, i, q);
    }
    forall i | Pending(d.ledger, i) && i != id ensures i in loose || Holds(d, i, d.ledger[i].place) {
      assert Pending(c.ledger, i);
      assert i !in loose ==> Holds(c, i, c.ledger[i].place);
    }
  }

  /** `d` is `c` with the requests `ids` taken out of their containers and finished. */
  ghost predicate Released(c: Client, d: Client, ids: set<ReqId>) {
    && (forall id, p :: Holds(d, id, p) ==> Holds(c, id, p) && id !in ids)
    && (forall id, p :: Holds(c, id, p) && id !in ids ==> Holds(d, id, p))
    && Finished(c.ledger, d.ledger, ids)
    && (forall t :: t in d.channels ==> DistinctIds(d.channels[t].queued))
  }

  lemma ReleaseBalances(c: Client, d: Client, loose: set<ReqId>, ids: set<ReqId>)
    requires Balanced(c, loose) && Released(c, d, ids)
    ensures Balanced(d, loose - ids)
  {
    forall id | Pending(d.ledger, id) ensures id in loose - ids || Holds(d, id, d.ledger[id].place) {
      assert Pending(c.ledger, id);
    }
    forall id | id in loose - ids ensures Pending(d.ledger, id) {
      assert Pending(c.ledger, id);
    }
  }

  /** `d` is `c` with the loose request `id` put into the container `p`. */
  ghost predicate Stored(c: Client, d: Client, id: ReqId, p: Place) {
    && (forall i, q :: Holds(d, i, q) <==> Holds(c, i, q) || (i == id && q == p))
    && d.ledger == Settle(c.ledger, id, At(p))
    && (forall t :: t in d.channels ==> DistinctIds(d.channels[t].queued))
  }

  lemma StoreBalances(c: Client, d: Client, loose: set<ReqId>, id: ReqId, p: Place)
    requires Balanced(c, loose) && id in loose && Stored(c, d, id, p)
    ensures Balanced(d, loose - {id})
  {
    assert Pending(c.ledger, id);
    forall i, q | Holds(d, i, q) ensures i in d.ledger && d.ledger[i] == At(q) && i !in loose - {id} {
      assert Holds(c, i, q) || (i == id && q == p);
    }
    forall i | Pending(d.ledger, i) ensures i in loose - {id} || Holds(d, i, d.ledger[i].place) {
      assert Pending(c.ledger, i);
      assert i != id && i !in loose ==> Holds(c, i, c.ledger[i].place);
      assert Holds(c, i, c.ledger[i].place) ==> Holds(d, i, c.ledger[i].place);
    }
    forall i | i in loose - {id} ensures Pending(d.ledger, i) {
      assert Pending(c.ledger, i);
    }
  }

  /** A request leaves its container without being finished yet. */
  ghost predicate Loosened(c: Client, d: Client, ids: set<ReqId>) {
    && (forall id, p :: Holds(d, id, p) ==> Holds(c, id, p) && id !in ids)
    && (forall id, p :: Holds(c, id, p) && id !in ids ==> Holds(d, id, p))
    && (forall id :: id in ids ==> Pending(c.ledger, id))
    && d.ledger == c.ledger
    && (forall t :: t in d.channels ==> DistinctIds(d.channels[t].queued))
  }

  lemma LoosenBalances(c: Client, d: Client, loose: set<ReqId>, ids: set<ReqId>)
    requires Balanced(c, loose) && Loosened(c, d, ids)
    ensures Balanced(d, loose + ids)
  {
    forall id | Pending(d.ledger, id) ensures id in loose + ids || Holds(d, id, d.ledger[id].place) {
      assert Pending(c.ledger, id);
    }
  }

  /** Answering a loose request. */
  lemma RespondBalances(c: Client, id: ReqId, a: Answer, loose: set<ReqId>)
    requires Balanced(c, loose) && id in loose
    ensures Balanced(Respond(c, id, a), loose - {id})
  {
    var d := Respond(c, id, a);
    assert Pending(c.ledger, id);
    SettleFinishes(c.ledger, id, Answered(a));
    forall i, q ensures Holds(c, i, q) <==> Holds(d, i, q) {}
    forall q ensures !Holds(c, id, q) {}
    ReleaseBalances(c, d, loose, {id});
  }
}
