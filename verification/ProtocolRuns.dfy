/** Runs of the protocol: what happened to every reference, which joins the server
    accepted, and how generations succeed each other. */
module ProtocolRuns {
  import opened Wire
  import opened ProtocolSpec
  import opened ProtocolLaws

  /** How a reference stopped being pending. */
  datatype Fate =
    | Completed(event: Event)
    | Malformed
    | Forgotten
    | DiscardedWithTopic
    | Interrupted
    | DroppedHeartbeat
    | Burned

  /** The state together with what an observer of the operations and their outcomes
      has recorded: the joins accepted since the last reset and the fates so far. */
  datatype History = History(view: View, accepted: set<Ref>, fates: map<Ref, Fate>)

  const START := History(EMPTY, {}, map[])

  /** The request an event completes. */
  function Completes(event: Event): Option<Ref> {
    match event
    case JoinAccepted(_, r, _) => Some(r)
    case JoinRejected(_, r, _) => Some(r)
    case Left(_, r, _) => Some(r)
    case Replied(_, _, r, _, _) => Some(r)
    case HeartbeatAck(r, _) => Some(r)
    case _ => None
  }

  function DiscardedBy(v: View, t: Topic): map<Ref, Fate> {
    map r | r in v.pending && Concerns(v.pending[r], t) :: DiscardedWithTopic
  }

  /** The fates an operation decides, read off its outcome. */
  function Settles(v: View, op: Op, outcome: Outcome): map<Ref, Fate> {
    match (op, outcome)
    case (DoLeave(_), Requested(Err(_))) => map[v.next + 1 := Burned]
    case (DoForgetPush(r), Flag(true)) => map[r := Forgotten]
    case (DoForgetHeartbeat(r), Flag(true)) => map[r := Forgotten]
    case (DoDiscard(t), _) => DiscardedBy(v, t)
    case (DoRejoin(t, _), _) => if Inactive(v, t) then DiscardedBy(v, t) else map[]
    case (DoReceive(f), Received(Err(_))) => if f.reference.Some? then map[f.reference.value := Malformed] else map[]
    case (DoReceive(_), Received(Ok(event))) =>
      (match Completes(event)
       case Some(r) => map[r := Completed(event)]
       case None => map[])
    case (DoReset, _) =>
      map r | r in v.pending :: if v.pending[r].PendingHeartbeat? then DroppedHeartbeat else Interrupted
    case _ => map[]
  }

  function Accepts(accepted: set<Ref>, outcome: Outcome): set<Ref> {
    match outcome
    case Received(Ok(JoinAccepted(_, r, _))) => accepted + {r}
    case Lost(_) => {}
    case _ => accepted
  }

  function Advance(h: History, op: Op): History {
    var (v, outcome) := Step(h.view, op);
    History(v, Accepts(h.accepted, outcome), h.fates + Settles(h.view, op, outcome))
  }

  function Run(h: History, ops: seq<Op>): History
    decreases |ops|
  {
    if ops == [] then h else Run(Advance(h, ops[0]), ops[1..])
  }

  predicate AllDisciplined(h: History, ops: seq<Op>)
    decreases |ops|
  {
    ops == [] || (Disciplined(h.view, ops[0]) && AllDisciplined(Advance(h, ops[0]), ops[1..]))
  }

  // ----- Accounting for references -----

  /** Every allocated reference is pending or has exactly one fate, and no other
      number has either. */
  ghost predicate Accounted(h: History) {
    && h.view.pending.Keys !! h.fates.Keys
    && forall r :: 1 <= r <= h.view.next <==> r in h.view.pending || r in h.fates
  }

  lemma DiscardAccounts(v: View, t: Topic)
    ensures var w := Discard(v, t);
            DiscardedBy(v, t).Keys !! w.pending.Keys && DiscardedBy(v, t).Keys + w.pending.Keys == v.pending.Keys
  {}

  lemma ReceiveAccounts(v: View, f: Frame)
    ensures var (w, outcome) := Receive(v, f);
            var settled := Settles(v, DoReceive(f), Received(outcome));
            w.next == v.next && settled.Keys !! w.pending.Keys && settled.Keys + w.pending.Keys == v.pending.Keys
  {
    if !Stale(v, f) && f.event == "phx_reply" && f.reference.Some? && f.reference.value in v.pending {
      var r := f.reference.value;
      assert v.pending.Keys == (v.pending - {r}).Keys + {r};
    }
  }

  /** A step settles only references that had no fate, so no fate is ever revised,
      and in particular no reference is completed by two events. */
  lemma StepAccounts(h: History, op: Op)
    requires Accounted(h) && Coherent(h.view)
    ensures Accounted(Advance(h, op))
    ensures var (v, outcome) := Step(h.view, op);
            Settles(h.view, op, outcome).Keys !! h.fates.Keys && h.view.next <= v.next
  {
    var v := h.view;
    match op
    case DoReceive(f) => ReceiveAccounts(v, f);
    case DoDiscard(t) => DiscardAccounts(v, t);
    case DoRejoin(t, params) => RejoinAccounts(h, t, params);
    case DoLeave(t) => LeaveAccounts(h, t);
    case DoForgetPush(_) => ForgettingAccounts(h, op);
    case DoForgetHeartbeat(_) => ForgettingAccounts(h, op);
    case _ =>
  }

  lemma RejoinAccounts(h: History, t: Topic, params: Value)
    requires Accounted(h) && Coherent(h.view)
    ensures Accounted(Advance(h, DoRejoin(t, params)))
    ensures var (v, outcome) := Step(h.view, DoRejoin(t, params));
            Settles(h.view, DoRejoin(t, params), outcome).Keys !! h.fates.Keys && h.view.next <= v.next
  {
    if Inactive(h.view, t) {
      DiscardAccounts(h.view, t);
      assert Rejoin(h.view, t, params).0.pending == Discard(h.view, t).pending[h.view.next + 1 := PendingJoin(t)];
    }
  }

  lemma ForgettingAccounts(h: History, op: Op)
    requires Accounted(h) && Coherent(h.view) && (op.DoForgetPush? || op.DoForgetHeartbeat?)
    ensures Accounted(Advance(h, op))
    ensures var (v, outcome) := Step(h.view, op);
            Settles(h.view, op, outcome).Keys !! h.fates.Keys && h.view.next <= v.next
  {}

  lemma LeaveAccounts(h: History, t: Topic)
    requires Accounted(h) && Coherent(h.view)
    ensures Accounted(Advance(h, DoLeave(t)))
    ensures var (v, outcome) := Step(h.view, DoLeave(t));
            Settles(h.view, DoLeave(t), outcome).Keys !! h.fates.Keys && h.view.next <= v.next
  {
    assert IsJoined(h.view, t) <==> Leave(h.view, t).1.Ok?;
  }

  // ----- Accepted generations -----

  /** A joined or leaving channel runs on a join the server has accepted since the
      connection was last reset. */
  ghost predicate Backed(h: History) {
    forall t :: t in h.view.channels && (h.view.channels[t].state.Joined? || h.view.channels[t].state.Leaving?) ==>
      h.view.channels[t].joinRef in h.accepted
  }

  lemma StepKeepsBacked(h: History, op: Op)
    requires Coherent(h.view) && Backed(h)
    ensures Backed(Advance(h, op))
  {
    if op.DoReceive? {
      ReceiveKeepsBacked(h, op.frame);
    }
  }

  lemma ReceiveKeepsBacked(h: History, f: Frame)
    requires Coherent(h.view) && Backed(h)
    ensures Backed(Advance(h, DoReceive(f)))
  {
    var v := h.view;
    if !Stale(v, f) && f.event == "phx_reply" && f.reference.Some? && f.reference.value in v.pending {
      if v.pending[f.reference.value].PendingJoin? {
        assert JoinBacked(v, f.reference.value, v.pending[f.reference.value].topic);
      }
    }
  }

  // ----- The invariant over runs -----

  ghost predicate Sound(h: History) {
    Coherent(h.view) && Accounted(h) && Backed(h)
  }

  lemma {:induction false} RunKeepsSound(h: History, ops: seq<Op>)
    requires Sound(h) && AllDisciplined(h, ops)
    ensures Sound(Run(h, ops))
    ensures forall r :: r in h.fates ==> r in Run(h, ops).fates && Run(h, ops).fates[r] == h.fates[r]
    ensures h.view.next <= Run(h, ops).view.next
    decreases |ops|
  {
    if ops != [] {
      StepKeepsCoherence(h.view, ops[0]);
      StepAccounts(h, ops[0]);
      StepKeepsBacked(h, ops[0]);
      RunKeepsSound(Advance(h, ops[0]), ops[1..]);
    }
  }

  /** From the empty protocol: coherence, accounting and accepted generations hold
      after every disciplined run, and each push, cast or leave frame the next
      operation emits carries a generation the server has accepted. */
  lemma EveryRunIsSound(ops: seq<Op>, t: Topic, event: string, payload: Payload)
    requires AllDisciplined(START, ops)
    ensures var h := Run(START, ops);
            && Sound(h)
            && (Push(h.view, t, event, payload).1.Ok? ==>
                  Push(h.view, t, event, payload).1.value.frame.joinRef.Some? &&
                  Push(h.view, t, event, payload).1.value.frame.joinRef.value in h.accepted)
            && (Cast(h.view, t, event, payload).Ok? ==>
                  Cast(h.view, t, event, payload).value.joinRef.Some? &&
                  Cast(h.view, t, event, payload).value.joinRef.value in h.accepted)
            && (Leave(h.view, t).1.Ok? ==>
                  Leave(h.view, t).1.value.frame.joinRef.Some? &&
                  Leave(h.view, t).1.value.frame.joinRef.value in h.accepted)
  {
    RunKeepsSound(START, ops);
  }

  /** The reference a new request gets was never used before. */
  lemma ReferencesAreFresh(ops: seq<Op>)
    requires AllDisciplined(START, ops)
    ensures var h := Run(START, ops);
            var r := Beat(h.view).1.reference;
            r !in h.view.pending && r !in h.fates
  {
    RunKeepsSound(START, ops);
  }

  // ----- Since the last reset -----

  /** No reply to a join or leave that still mattered was malformed. */
  predicate NeverOrphans(h: History, ops: seq<Op>)
    decreases |ops|
  {
    ops == [] || (!(ops[0].DoReceive? && Orphans(h.view, ops[0].frame)) && NeverOrphans(Advance(h, ops[0]), ops[1..]))
  }

  lemma {:induction false} RunKeepsAwaiting(h: History, ops: seq<Op>)
    requires Coherent(h.view) && Awaiting(h.view) && AllDisciplined(h, ops) && NeverOrphans(h, ops)
    ensures Coherent(Run(h, ops).view) && Awaiting(Run(h, ops).view)
    decreases |ops|
  {
    if ops != [] {
      StepKeepsCoherence(h.view, ops[0]);
      StepKeepsAwaitingIff(h.view, ops[0]);
      RunKeepsAwaiting(Advance(h, ops[0]), ops[1..]);
    }
  }

  /** Since the connection was reset, every joining or leaving channel still awaits its
      reply, unless the reply to such a channel's request was malformed. */
  lemma AwaitingSinceReset(h: History, ops: seq<Op>)
    requires Coherent(h.view)
    requires AllDisciplined(Advance(h, DoReset), ops) && NeverOrphans(Advance(h, DoReset), ops)
    ensures Awaiting(Run(Advance(h, DoReset), ops).view)
  {
    ResetKeepsCoherence(h.view);
    RunKeepsAwaiting(Advance(h, DoReset), ops);
  }

  // ----- Generations -----

  /** A later view knows a topic by its earlier generation or by a newer one. */
  ghost predicate Succeeds(earlier: View, later: View) {
    && earlier.next <= later.next
    && forall t :: t in later.channels ==>
         (t in earlier.channels && later.channels[t].joinRef == earlier.channels[t].joinRef) ||
         later.channels[t].joinRef > earlier.next
  }

  lemma StepSucceeds(v: View, op: Op)
    ensures Succeeds(v, Step(v, op).0)
  {}

  lemma {:induction false} RunSucceeds(v: View, h: History, ops: seq<Op>)
    requires Succeeds(v, h.view)
    ensures Succeeds(v, Run(h, ops).view)
    decreases |ops|
  {
    if ops != [] {
      StepSucceeds(h.view, ops[0]);
      RunSucceeds(v, Advance(h, ops[0]), ops[1..]);
    }
  }

  /** Once a topic has left generation `g`, no frame that names `g` is ever again
      more than a stale message: it changes no channel and no pending request. */
  lemma OldGenerationsStayStale(h: History, ops: seq<Op>, t: Topic, g: Ref, f: Frame)
    requires Coherent(h.view)
    requires t in h.view.channels ==> h.view.channels[t].joinRef != g
    requires g <= h.view.next
    requires f.topic == t && f.joinRef == Some(g)
    ensures var v := Run(h, ops).view;
            t in v.channels ==> Receive(v, f) == (v, Ok(StaleMessage(f)))
  {
    RunSucceeds(h.view, h, ops);
  }

  /** A join or rejoin of `t` that succeeds. */
  predicate Starts(v: View, op: Op, t: Topic) {
    (op.DoJoin? || op.DoRejoin?) && op.topic == t && !Active(v, t)
  }

  predicate StartsIn(h: History, ops: seq<Op>, t: Topic)
    decreases |ops|
  {
    ops != [] && (Starts(h.view, ops[0], t) || StartsIn(Advance(h, ops[0]), ops[1..], t))
  }

  lemma OnlyStartsChangeGeneration(v: View, op: Op, t: Topic)
    requires !Starts(v, op, t) && t in Step(v, op).0.channels
    ensures t in v.channels && Step(v, op).0.channels[t].joinRef == v.channels[t].joinRef
  {}

  lemma {:induction false} SameGeneration(h: History, ops: seq<Op>, t: Topic)
    requires !StartsIn(h, ops, t) && t in Run(h, ops).view.channels
    ensures t in h.view.channels && Run(h, ops).view.channels[t].joinRef == h.view.channels[t].joinRef
    decreases |ops|
  {
    if ops != [] {
      SameGeneration(Advance(h, ops[0]), ops[1..], t);
      OnlyStartsChangeGeneration(h.view, ops[0], t);
    }
  }

  lemma {:induction false} NewerGeneration(h: History, ops: seq<Op>, t: Topic, known: Ref)
    requires StartsIn(h, ops, t) && t in Run(h, ops).view.channels && known <= h.view.next
    ensures known < Run(h, ops).view.channels[t].joinRef
    decreases |ops|
  {
    StepSucceeds(h.view, ops[0]);
    var h1 := Advance(h, ops[0]);
    if Starts(h.view, ops[0], t) {
      RunSucceeds(h1.view, h1, ops[1..]);
    } else {
      NewerGeneration(h1, ops[1..], t, known);
    }
  }

  /** Over any operations, with removals and reconnects in between: a topic's join
      reference has grown if a join or rejoin of it succeeded, and is the same if not. */
  lemma GenerationsIncrease(h: History, ops: seq<Op>, t: Topic)
    requires Coherent(h.view) && t in h.view.channels && t in Run(h, ops).view.channels
    ensures var before, after := h.view.channels[t].joinRef, Run(h, ops).view.channels[t].joinRef;
            if StartsIn(h, ops, t) then before < after else before == after
  {
    if StartsIn(h, ops, t) {
      NewerGeneration(h, ops, t, h.view.channels[t].joinRef);
    } else {
      SameGeneration(h, ops, t);
    }
  }

  // ----- Reset and rejoin -----

  ghost predicate Distinct(order: seq<Topic>) {
    forall i, j :: 0 <= i < j < |order| ==> order[i] != order[j]
  }

  /** `v` seen from a rejoin of `order`: inactive, stored parameters, no leftovers. */
  ghost predicate Restartable(v: View, order: seq<Topic>) {
    forall i :: 0 <= i < |order| ==> Inactive(v, order[i])
  }

  /** The one request that starts generation `r` of topic `t`. */
  function FreshJoin(r: Ref, t: Topic, params: Value): Outbound {
    Outbound(r, Frame(Some(r), Some(r), t, "phx_join", Json(params)))
  }

  lemma RejoinTouchesOneTopic(v: View, t: Topic, params: Value)
    requires Inactive(v, t)
    ensures var (w, o) := Rejoin(v, t, params);
            && o == Ok(FreshJoin(v.next + 1, t, params))
            && w.next == v.next + 1
            && w.channels == v.channels[t := Channel(Joining, v.next + 1, params)]
  {
    assert Discard(v, t).channels[t := Channel(Joining, v.next + 1, params)] ==
           v.channels[t := Channel(Joining, v.next + 1, params)];
  }

  /** `out` restarts `t` on reference `r` with the parameters `v` stored for it. */
  predicate Restarts(v: View, w: View, out: Outbound, r: Ref, t: Topic) {
    && t in v.channels && t in w.channels
    && out == FreshJoin(r, t, v.channels[t].params)
    && w.channels[t] == Channel(Joining, r, v.channels[t].params)
  }

  /** Rejoining a list of distinct inactive topics sends exactly one join for each,
      in order, with consecutive fresh references and the stored parameters. */
  lemma {:induction false} RejoinAllSendsOneJoinEach(v: View, order: seq<Topic>)
    requires Distinct(order) && Restartable(v, order)
    ensures var (w, outs) := RejoinAll(v, order);
            && |outs| == |order|
            && w.next == v.next + |order|
            && w.channels.Keys == v.channels.Keys
            && (forall i :: 0 <= i < |order| ==> Restarts(v, w, outs[i], v.next + 1 + i, order[i]))
            && (forall t :: t in v.channels && t !in order ==> w.channels[t] == v.channels[t])
    decreases |order|
  {
    if order != [] {
      var t, tail := order[0], order[1..];
      RejoinTouchesOneTopic(v, t, v.channels[t].params);
      var v1 := Rejoin(v, t, v.channels[t].params).0;
      forall i | 0 <= i < |tail| ensures Inactive(v1, tail[i]) {
        assert tail[i] == order[i + 1] && order[0] != order[i + 1];
      }
      RejoinAllSendsOneJoinEach(v1, tail);
      var (w, rest) := RejoinAll(v1, tail);
      assert t !in tail;
      forall i | 0 <= i < |order| ensures Restarts(v, w, ([FreshJoin(v.next + 1, t, v.channels[t].params)] + rest)[i], v.next + 1 + i, order[i]) {
        if i > 0 {
          assert Restarts(v1, w, rest[i - 1], v1.next + 1 + (i - 1), tail[i - 1]);
          assert order[i] == tail[i - 1] && order[0] != order[i];
        }
      }
    }
  }

  /** What one fresh join per topic of `order` means, from a view `v` that has just
      lost its connection to the view `w` after the rejoins. */
  ghost predicate AllRestarted(v: View, w: View, outs: seq<Outbound>, order: seq<Topic>) {
    && |outs| == |order|
    && w.channels.Keys == v.channels.Keys
    && forall i :: 0 <= i < |order| ==> Restarts(v, w, outs[i], v.next + 1 + i, order[i])
  }

  lemma RejoinAllRestarts(v: View, order: seq<Topic>)
    requires Distinct(order) && Restartable(v, order)
    ensures AllRestarted(v, RejoinAll(v, order).0, RejoinAll(v, order).1, order)
  {
    RejoinAllSendsOneJoinEach(v, order);
  }

  /** After a lost connection, rejoining every topic yields exactly one fresh join per
      topic with the parameters of its previous join, whatever the order, and leaves
      every topic joining on the reference of its frame. */
  lemma ResetThenRejoinAll(v: View, order: seq<Topic>)
    requires Distinct(order) && Listed(order) == v.channels.Keys
    ensures AllRestarted(Reset(v), RejoinAll(Reset(v), order).0, RejoinAll(Reset(v), order).1, order)
    ensures |order| == |v.channels|
    ensures forall t :: t in v.channels ==> Reset(v).channels[t].params == v.channels[t].params
    ensures Reset(v).next == v.next
  {
    ResetIsRestartable(v, order);
    RejoinAllRestarts(Reset(v), order);
    CountDistinct(order);
  }

  lemma ResetIsRestartable(v: View, order: seq<Topic>)
    requires Listed(order) == v.channels.Keys
    ensures Restartable(Reset(v), order) && Reset(v).channels.Keys == v.channels.Keys
  {
    forall i | 0 <= i < |order| ensures Inactive(Reset(v), order[i]) {
      assert order[i] in Listed(order);
    }
  }

  function Listed(order: seq<Topic>): set<Topic> {
    set t | t in order
  }

  lemma {:induction false} CountDistinct(order: seq<Topic>)
    requires Distinct(order)
    ensures |order| == |Listed(order)|
    decreases |order|
  {
    if order != [] {
      assert Listed(order) == {order[0]} + Listed(order[1..]);
      CountDistinct(order[1..]);
    }
  }

  // ----- Rejoining any list of topics -----

  function InactiveOf(v: View, order: seq<Topic>): seq<Topic>
    decreases |order|
  {
    if order == [] then [] else (if Inactive(v, order[0]) then [order[0]] else []) + InactiveOf(v, order[1..])
  }

  lemma {:induction false} SameInactive(v: View, w: View, order: seq<Topic>)
    requires forall t :: t in order ==> (Inactive(v, t) <==> Inactive(w, t))
    ensures InactiveOf(v, order) == InactiveOf(w, order)
    decreases |order|
  {
    if order != [] {
      assert order[0] in order && forall t :: t in order[1..] ==> t in order;
      SameInactive(v, w, order[1..]);
    }
  }

  /** Of any list of distinct topics exactly the inactive ones are rejoined, in its order;
      active and unknown ones are passed over. */
  lemma {:induction false} RejoinAllPassesOver(v: View, order: seq<Topic>)
    requires Distinct(order)
    ensures RejoinAll(v, order) == RejoinAll(v, InactiveOf(v, order))
    decreases |order|
  {
    if order != [] {
      var t, tail := order[0], order[1..];
      if Inactive(v, t) {
        RejoinTouchesOneTopic(v, t, v.channels[t].params);
        var v1 := Rejoin(v, t, v.channels[t].params).0;
        RejoinAllPassesOver(v1, tail);
        SameInactive(v, v1, tail);
        assert InactiveOf(v, order)[1..] == InactiveOf(v, tail);
      } else {
        RejoinAllPassesOver(v, tail);
        assert [] + InactiveOf(v, tail) == InactiveOf(v, tail);
        assert [] + RejoinAll(v, tail).1 == RejoinAll(v, tail).1;
      }
    }
  }
}
