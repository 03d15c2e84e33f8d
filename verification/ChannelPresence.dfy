/** A channel's presence consumer: the tracker fed from a bounded event stream. What it
    shows is always the outcome of a contiguous run of the channel's events. */
module PresenceStream {
  import opened Wire
  import opened EventStreams
  import opened Presence
  import opened PresenceTracking
  import opened PresenceObject

  datatype ChannelEvent =
    | Message(frame: PresenceFrame)
    | Disconnected | ChannelLeft | ChannelClosed | ChannelErrored
    | OtherEvent

  datatype PresenceEvent =
    | Joined(key: string, before: Option<Entry>, joined: Entry)
    | Left(key: string, current: Entry, left: Entry)
    | Synced | SocketLost | LeftChannel | ClosedChannel | FailedChannel

  datatype StreamError = Decode(error: PresenceError) | Desynchronized(dropped: nat) | ResyncRequired

  type Delivery = Result<PresenceEvent, StreamError>

  /** The lifecycle events on which the local state is cleared. */
  predicate Clears(e: ChannelEvent) {
    e.Disconnected? || e.ChannelLeft? || e.ChannelClosed? || e.ChannelErrored?
  }

  function Notice(e: ChannelEvent): PresenceEvent {
    match e
    case Disconnected => SocketLost
    case ChannelLeft => LeftChannel
    case ChannelClosed => ClosedChannel
    case _ => FailedChannel
  }

  function FramesOf(events: seq<ChannelEvent>): seq<PresenceFrame>
    decreases |events|
  {
    if events == [] then []
    else
      var last := events[|events| - 1];
      FramesOf(events[..|events| - 1]) + if last.Message? then [last.frame] else []
  }

  /** The presence state after a run of events, starting from nothing. */
  function Shown(events: seq<ChannelEvent>): Tracker {
    ApplyAll(NEW_TRACKER, FramesOf(events))
  }

  lemma ShownSnoc(events: seq<ChannelEvent>, e: ChannelEvent)
    ensures Shown(events + [e]) == if e.Message? then Apply(Shown(events), e.frame).0 else Shown(events)
  {
    assert (events + [e])[..|events|] == events;
    if e.Message? {
      ApplyAppend(NEW_TRACKER, FramesOf(events), [e.frame]);
      ApplyOne(Shown(events), e.frame);
    } else {
      assert FramesOf(events) + [] == FramesOf(events);
    }
  }

  // ----- What an update delivers -----

  function JoinEvents(previous: State, joins: State, order: seq<string>): seq<PresenceEvent>
    requires forall k :: k in order ==> k in joins
  {
    seq(|order|, i requires 0 <= i < |order| =>
      Joined(order[i], if order[i] in previous then Some(previous[order[i]]) else None, joins[order[i]]))
  }

  function LeaveEvents(previous: State, leaves: State, order: seq<string>): seq<PresenceEvent>
    requires forall k :: k in order ==> k in leaves && k in previous
  {
    seq(|order|, i requires 0 <= i < |order| => Left(order[i], previous[order[i]], leaves[order[i]]))
  }

  ghost predicate Enumerates(order: seq<string>, keys: set<string>) {
    && (forall k :: k in order <==> k in keys)
    && (forall i, j :: 0 <= i < j < |order| ==> order[i] != order[j])
  }

  /** Each joining key once, each leaving key that was shown once, then the mark. */
  ghost predicate Reports(previous: State, changes: Diff, joinOrder: seq<string>, leaveOrder: seq<string>, events: seq<PresenceEvent>) {
    && Enumerates(joinOrder, changes.joins.Keys)
    && Enumerates(leaveOrder, changes.leaves.Keys * previous.Keys)
    && events == JoinEvents(previous, changes.joins, joinOrder) + LeaveEvents(previous, changes.leaves, leaveOrder) + [PresenceEvent.Synced]
  }

  predicate Decoded(item: Item<ChannelEvent>) {
    item.Event? && item.event.Message? ==> WellDecoded(item.event.frame)
  }

  // ----- The run behind what is shown -----

  /** Since position `since` of what was consumed there is neither a gap nor a clearing
      event. */
  predicate Unbroken(consumed: seq<Item<ChannelEvent>>, since: nat) {
    && since <= |consumed|
    && forall i :: since <= i < |consumed| ==> consumed[i].Event? && !Clears(consumed[i].event)
  }

  function RunSince(consumed: seq<Item<ChannelEvent>>, since: nat): seq<ChannelEvent>
    requires Unbroken(consumed, since)
  {
    seq(|consumed| - since, i requires 0 <= i < |consumed| - since => consumed[since + i].event)
  }

  lemma RunGrows(consumed: seq<Item<ChannelEvent>>, since: nat, e: ChannelEvent)
    requires Unbroken(consumed, since) && !Clears(e)
    ensures Unbroken(consumed + [Event(e)], since)
    ensures RunSince(consumed + [Event(e)], since) == RunSince(consumed, since) + [e]
  {}

  /** Through any bounded stream: the shown state is the outcome of consecutive offered
      events, ending where the consumer has read to. */
  lemma ShownRunIsContiguous(s: Subscriber<ChannelEvent>, offered: seq<ChannelEvent>, consumed: seq<Item<ChannelEvent>>, since: nat)
    requires Faithful(s, offered) && consumed <= s.sent && Unbroken(consumed, since)
    ensures var n, length := |Expand(consumed[..since])|, |consumed| - since;
            n + length <= |offered| && RunSince(consumed, since) == offered[n..n + length]
  {
    var before, items := consumed[..since], consumed[since..];
    assert before + items == consumed;
    PlainIsContiguous(s, offered, before, items);
    assert EventsOf(items) == RunSince(consumed, since);
  }

  /** What a report says: each joining key once with its entry before, if it had one, and
      the metas that joined; then each leaving key that was shown, with its entry before and
      the metas that left; the mark comes last and only there. */
  lemma ReportsMean(previous: State, changes: Diff, a: seq<string>, b: seq<string>, events: seq<PresenceEvent>)
    requires Reports(previous, changes, a, b, events)
    ensures |events| == |a| + |b| + 1 && events[|a| + |b|] == PresenceEvent.Synced
    ensures forall i :: 0 <= i < |a| ==>
              a[i] in changes.joins && events[i] == Joined(a[i], if a[i] in previous then Some(previous[a[i]]) else None, changes.joins[a[i]])
    ensures forall i :: 0 <= i < |b| ==>
              b[i] in changes.leaves && b[i] in previous && events[|a| + i] == Left(b[i], previous[b[i]], changes.leaves[b[i]])
    ensures forall k :: k in changes.joins ==> k in a
    ensures forall k :: k in changes.leaves && k in previous ==> k in b
  {
    forall i | 0 <= i < |b| ensures b[i] in changes.leaves && b[i] in previous {
      assert b[i] in changes.leaves.Keys * previous.Keys;
    }
    forall i | 0 <= i < |a| ensures a[i] in changes.joins {}
    forall k | k in changes.joins ensures k in a { assert k in changes.joins.Keys; }
    forall k | k in changes.leaves && k in previous ensures k in b { assert k in changes.leaves.Keys * previous.Keys; }
  }

  /** The first `n` items are events that leave the local state standing. */
  predicate Calm(stream: seq<Item<ChannelEvent>>, n: nat)
    requires n <= |stream|
  {
    forall i :: 0 <= i < n ==> stream[i].Event? && !Clears(stream[i].event)
  }

  /** The frame is a presence frame whose payload is refused with this error. */
  predicate Refuses(f: PresenceFrame, e: PresenceError) {
    || (f.event in {"presence_state", "presence_diff"} && !f.isJson && e == BinaryPayload)
    || (f.event == "presence_state" && f.isJson && f.asState == Err(e))
    || (f.event == "presence_diff" && f.isJson && f.asDiff == Err(e))
  }

  /** An event that does not concern the presence consumer. */
  predicate Irrelevant(item: Item<ChannelEvent>) {
    item.Event? &&
    (item.event.OtherEvent? || (item.event.Message? && item.event.frame.event !in {"presence_state", "presence_diff"}))
  }

  class ChannelPresence {
    const tracker: PresenceTracker
    var pending: seq<PresenceEvent>
    var desynchronized: bool
    /** What was read from the current subscription, and where the shown run starts. */
    ghost var consumed: seq<Item<ChannelEvent>>
    ghost var since: nat

    ghost predicate Valid()
      reads this, tracker
    {
      && tracker.Valid()
      && Unbroken(consumed, since)
      && tracker.View() == Shown(RunSince(consumed, since))
      && (desynchronized ==> since == |consumed| && pending == [])
    }

    constructor ()
      ensures Valid() && !desynchronized && pending == [] && consumed == []
      ensures fresh(tracker)
    {
      tracker := new PresenceTracker("presence_state", "presence_diff");
      pending, desynchronized := [], false;
      consumed, since := [], 0;
      new;
      assert RunSince(consumed, since) == [];
    }

    method Clear()
      requires tracker.Valid() && tracker.stateEvent == "presence_state" && tracker.diffEvent == "presence_diff"
      modifies this`since, tracker
      ensures since == |consumed| && tracker.Valid() && Unbroken(consumed, since) && tracker.View() == Shown(RunSince(consumed, since))
      ensures tracker.View() == Cleared(old(tracker.View()))
    {
      tracker.Reset();
      since := |consumed|;
      assert RunSince(consumed, since) == [];
    }

    /** Leaves and joins again on a new subscription. Each step may fail; only when all
        succeed may events be consumed again. */
    method Resync(leaves: bool, subscribes: bool, joins: bool) returns (ok: bool)
      requires Valid()
      modifies this, tracker
      ensures Valid()
      ensures ok <==> leaves && subscribes && joins
      ensures desynchronized == (old(desynchronized) && !ok)
      ensures pending == [] && tracker.View().state == map[] && since == |consumed|
      ensures consumed == if leaves && subscribes then [] else old(consumed)
    {
      TrackerNames();
      Clear();
      pending := [];
      if !leaves || !subscribes {
        return false;
      }
      consumed, since := [], 0;
      assert RunSince(consumed, since) == [];
      if !joins {
        return false;
      }
      desynchronized := false;
      ok := true;
    }

    lemma TrackerNames()
      requires Valid()
      ensures tracker.stateEvent == "presence_state" && tracker.diffEvent == "presence_diff"
    {
      NamesStay(NEW_TRACKER, FramesOf(RunSince(consumed, since)));
    }

    /** The next delivery, from the events the subscription yields: `stream` is what it
        yields from now on, `taken` how much of it was consumed. */
    method Next(stream: seq<Item<ChannelEvent>>) returns (result: Option<Delivery>, taken: nat)
      requires Valid() && forall i :: 0 <= i < |stream| ==> Decoded(stream[i])
      modifies this, tracker
      ensures Valid()
      ensures taken <= |stream| && consumed == old(consumed) + stream[..taken]
      // after a gap nothing is consumed or delivered
      ensures old(desynchronized) ==> result == Some(Err(ResyncRequired)) && taken == 0 && desynchronized
      // queued deliveries come first, in order
      ensures !old(desynchronized) && old(pending) != [] ==> result == Some(Ok(old(pending)[0])) && pending == old(pending)[1..] && taken == 0
      // only the last item consumed may be a gap or a clearing event
      ensures taken > 0 ==> Calm(stream, taken - 1)
      ensures taken > 0 && stream[taken - 1].Lagged? ==> desynchronized && result == Some(Err(Desynchronized(stream[taken - 1].dropped)))
      ensures taken > 0 && stream[taken - 1].Event? && Clears(stream[taken - 1].event) ==>
                result == Some(Ok(Notice(stream[taken - 1].event))) && since == |consumed|
      ensures !old(desynchronized) && desynchronized ==> taken > 0 && stream[taken - 1].Lagged?
      ensures result.None? ==> taken == |stream| && Calm(stream, taken)
      // each lifecycle event is delivered as itself
      ensures taken > 0 && stream[taken - 1] == Event(Disconnected) ==> result == Some(Ok(SocketLost))
      ensures taken > 0 && stream[taken - 1] == Event(ChannelLeft) ==> result == Some(Ok(LeftChannel))
      ensures taken > 0 && stream[taken - 1] == Event(ChannelClosed) ==> result == Some(Ok(ClosedChannel))
      ensures taken > 0 && stream[taken - 1] == Event(ChannelErrored) ==> result == Some(Ok(FailedChannel))
      // a decoding error is that of the presence frame consumed last
      ensures result.Some? && result.value.Err? && result.value.error.Decode? ==>
                && taken > 0 && stream[taken - 1].Event? && stream[taken - 1].event.Message?
                && Refuses(stream[taken - 1].event.frame, result.value.error.error)
      // what is no presence frame delivers nothing and leaves what is shown
      ensures !old(desynchronized) && old(pending) == [] && (forall i :: 0 <= i < |stream| ==> Irrelevant(stream[i])) ==>
                result == None && taken == |stream| && pending == [] && tracker.View() == old(tracker.View())
    {
      taken := 0;
      assert stream[..0] == [];
      assert consumed == old(consumed) + stream[..0];
      if desynchronized {
        return Some(Err(ResyncRequired)), 0;
      }
      while true
        invariant Valid() && !desynchronized
        invariant 0 <= taken <= |stream| && consumed == old(consumed) + stream[..taken]
        invariant taken == 0 ==> pending == old(pending)
        invariant taken > 0 ==> old(pending) == []
        invariant Calm(stream, taken)
        invariant old(pending) == [] && (forall i :: 0 <= i < |stream| ==> Irrelevant(stream[i])) ==>
                    pending == [] && tracker.View() == old(tracker.View())
        decreases |stream| - taken, |pending|
      {
        if pending != [] {
          result := Some(Ok(pending[0]));
          pending := pending[1..];
          return;
        }
        if taken == |stream| {
          return None, taken;
        }
        var item := stream[taken];
        assert stream[..taken + 1] == stream[..taken] + [item];
        assert consumed + [item] == old(consumed) + stream[..taken + 1];
        taken := taken + 1;
        result := Consume(item);
        if result.Some? {
          return;
        }
      }
    }

    /** One event from the subscription. */
    method Consume(item: Item<ChannelEvent>) returns (result: Option<Delivery>)
      requires Valid() && !desynchronized && pending == [] && Decoded(item)
      modifies this, tracker
      ensures Valid() && consumed == old(consumed) + [item]
      ensures desynchronized == item.Lagged?
      ensures item.Lagged? ==> result == Some(Err(Desynchronized(item.dropped))) && pending == []
      ensures item.Event? && Clears(item.event) ==> result == Some(Ok(Notice(item.event))) && since == |consumed| && pending == []
      ensures item.Event? && !Clears(item.event) ==> since == old(since)
      ensures item.Event? && item.event.Message? ==>
                match Apply(old(tracker.View()), item.event.frame).1
                case Err(e) => result == Some(Err(Decode(e))) && pending == []
                case Ok(Synced(changes)) => result == None && exists a, b :: Reports(old(tracker.state), changes, a, b, pending)
                case _ => result == None && pending == []
      ensures Irrelevant(item) ==> result == None && pending == [] && tracker.View() == old(tracker.View())
      ensures item == Event(Disconnected) ==> result == Some(Ok(SocketLost))
      ensures item == Event(ChannelLeft) ==> result == Some(Ok(LeftChannel))
      ensures item == Event(ChannelClosed) ==> result == Some(Ok(ClosedChannel))
      ensures item == Event(ChannelErrored) ==> result == Some(Ok(FailedChannel))
      ensures result.Some? && result.value.Err? && result.value.error.Decode? ==>
                item.Event? && item.event.Message? && Refuses(item.event.frame, result.value.error.error)
    {
      TrackerNames();
      result := None;
      ghost var run := RunSince(consumed, since);
      consumed := consumed + [item];
      match item
      case Lagged(dropped) =>
        Clear();
        desynchronized := true;
        result := Some(Err(Desynchronized(dropped)));
      case Event(e) =>
        if Clears(e) {
          Clear();
          result := Some(Ok(Notice(e)));
        } else {
          RunGrows(old(consumed), since, e);
          ShownSnoc(run, e);
          if e.Message? {
            result := Track(e.frame);
          }
        }
    }

    /** Applies a frame and queues what it changed. */
    method Track(f: PresenceFrame) returns (result: Option<Delivery>)
      requires tracker.Valid() && WellDecoded(f) && pending == []
      modifies this`pending, tracker
      ensures tracker.Valid() && tracker.View() == Apply(old(tracker.View()), f).0
      ensures match Apply(old(tracker.View()), f).1
              case Err(e) => result == Some(Err(Decode(e))) && pending == []
              case Ok(Synced(changes)) => result == None && exists a, b :: Reports(old(tracker.state), changes, a, b, pending)
              case _ => result == None && pending == []
    {
      var previous := tracker.state;
      var update := tracker.Apply(f);
      if update.Err? {
        return Some(Err(Decode(update.error)));
      }
      if update.value.Synced? {
        QueueChanges(previous, update.value.changes);
      }
      result := None;
    }

    method QueueChanges(previous: State, changes: Diff)
      requires pending == []
      modifies this`pending
      ensures exists a, b :: Reports(previous, changes, a, b, pending)
    {
      var joinOrder := Listing(changes.joins.Keys);
      var leaveOrder := Listing(changes.leaves.Keys * previous.Keys);
      var i := 0;
      while i < |joinOrder|
        invariant 0 <= i <= |joinOrder|
        invariant pending == JoinEvents(previous, changes.joins, joinOrder[..i])
      {
        var key := joinOrder[i];
        pending := pending + [Joined(key, if key in previous then Some(previous[key]) else None, changes.joins[key])];
        i := i + 1;
      }
      assert joinOrder[..i] == joinOrder;
      ghost var joins := pending;
      forall k | k in leaveOrder ensures k in changes.leaves && k in previous {
        assert k in changes.leaves.Keys * previous.Keys;
      }
      i := 0;
      while i < |leaveOrder|
        invariant 0 <= i <= |leaveOrder|
        invariant pending == joins + LeaveEvents(previous, changes.leaves, leaveOrder[..i])
      {
        var key := leaveOrder[i];
        pending := pending + [Left(key, previous[key], changes.leaves[key])];
        i := i + 1;
      }
      assert leaveOrder[..i] == leaveOrder;
      pending := pending + [PresenceEvent.Synced];
      assert Reports(previous, changes, joinOrder, leaveOrder, pending);
    }

    /** The keys of a map in the order it yields them. */
    method Listing(keys: set<string>) returns (order: seq<string>)
      ensures Enumerates(order, keys)
    {
      order := [];
      var left := keys;
      while left != {}
        invariant left <= keys && Enumerates(order, keys - left)
        decreases left
      {
        var k :| k in left;
        order := order + [k];
        left := left - {k};
      }
    }
  }

  /** The view is the outcome of the `length` events offered from the `n`th on. */
  ghost predicate ShowsSlice(view: Tracker, attempts: seq<Attempt<ChannelEvent>>, n: nat, length: nat) {
    n + length <= |attempts| && view == Shown(Offered(attempts)[n..n + length])
  }

  /** From the socket to the screen: over any attempts to deliver a channel's events, with
      any drops, what a consumer of that subscription shows is the outcome of a slice of
      those very events, ending at the last one it has read. */
  lemma {:induction false} ShownIsASliceOfOffered(
      view: Tracker, attempts: seq<Attempt<ChannelEvent>>, s: Subscriber<ChannelEvent>, consumed: seq<Item<ChannelEvent>>, since: nat)
    requires |attempts| <= U64_MAX && s == OfferAll(NewSubscriber<ChannelEvent>(), attempts) && s.open
    requires consumed <= s.sent && Unbroken(consumed, since) && view == Shown(RunSince(consumed, since))
    ensures var n, length := |Expand(consumed[..since])|, |consumed| - since;
            ShowsSlice(view, attempts, n, length)
  {
    StreamIsFaithful(attempts);
    ShownRunIsContiguous(s, Offered(attempts), consumed, since);
  }

  lemma {:induction false} ConsumerShows(p: ChannelPresence)
    requires p.Valid()
    ensures Unbroken(p.consumed, p.since) && p.tracker.View() == Shown(RunSince(p.consumed, p.since))
  {}

  /** The consumer's own state is such a view. */
  lemma {:induction false} ConsumerShowsASlice(p: ChannelPresence, attempts: seq<Attempt<ChannelEvent>>, s: Subscriber<ChannelEvent>)
    requires |attempts| <= U64_MAX && s == OfferAll(NewSubscriber<ChannelEvent>(), attempts) && s.open
    requires p.Valid() && p.consumed <= s.sent
    ensures var n, length := |Expand(p.consumed[..p.since])|, |p.consumed| - p.since;
            ShowsSlice(p.tracker.View(), attempts, n, length)
  {
    var view, consumed, since := p.tracker.View(), p.consumed, p.since;
    ConsumerShows(p);
    ShownIsASliceOfOffered(view, attempts, s, consumed, since);
  }

  lemma {:induction false} NamesStay(v: Tracker, frames: seq<PresenceFrame>)
    ensures ApplyAll(v, frames).stateEvent == v.stateEvent && ApplyAll(v, frames).diffEvent == v.diffEvent
    decreases |frames|
  {
    if frames != [] {
      NamesStay(Apply(v, frames[0]).0, frames[1..]);
    }
  }
}
