/** Bounded event streams: a subscriber that cannot keep up receives, in the place of the
    events it missed, one marker that counts them. */
module EventStreams {
  import opened Wire

  const U64_MAX: nat := 0xFFFF_FFFF_FFFF_FFFF

  datatype Item<T> = Event(event: T) | Lagged(dropped: nat)

  /** What one `try_send` on the bounded channel comes to. */
  datatype Outcome = Accepted | Full | Gone

  /** A subscriber: what its channel has accepted, and the events missed since. */
  datatype Subscriber<T> = Subscriber(sent: seq<Item<T>>, dropped: nat, open: bool)

  function NewSubscriber<T>(): Subscriber<T> {
    Subscriber([], 0, true)
  }

  function Saturated(n: nat): nat {
    if n < U64_MAX then n + 1 else n
  }

  function SendEvent<T>(s: Subscriber<T>, event: T, outcome: Outcome): Subscriber<T> {
    match outcome
    case Accepted => s.(sent := s.sent + [Event(event)])
    case Full => s.(dropped := 1)
    case Gone => s.(open := false)
  }

  /** Offers one event: first the marker for what was missed, then the event. */
  function Offer<T>(s: Subscriber<T>, event: T, marker: Outcome, outcome: Outcome): Subscriber<T> {
    if s.dropped == 0 then SendEvent(s, event, outcome)
    else
      match marker
      case Accepted => SendEvent(s.(sent := s.sent + [Lagged(s.dropped)], dropped := 0), event, outcome)
      case Full => s.(dropped := Saturated(s.dropped))
      case Gone => s.(open := false)
  }

  /** What one offer leaves: while missed events are unreported nothing but their marker can
      be sent; an event that finds room is sent, one that does not is counted, and a stream
      whose receiver is gone is closed. */
  lemma OfferDelivers<T>(s: Subscriber<T>, event: T, marker: Outcome, outcome: Outcome)
    requires s.open
    ensures var d := Offer(s, event, marker, outcome);
            if s.dropped > 0 && marker == Full then
              d == s.(dropped := if s.dropped < 0xFFFF_FFFF_FFFF_FFFF then s.dropped + 1 else s.dropped)
            else if s.dropped > 0 && marker == Gone then d == s.(open := false)
            else
              && d.sent == s.sent + (if s.dropped > 0 then [Lagged(s.dropped)] else []) + (if outcome == Accepted then [Event(event)] else [])
              && d.dropped == (if outcome == Full then 1 else 0)
              && (d.open <==> outcome != Gone)
  {
    assert s.sent + [] == s.sent;
    assert (s.sent + [Lagged(s.dropped)]) + [] == s.sent + [Lagged(s.dropped)];
  }

  // ----- Gaps in their exact place -----

  function Gap<T>(n: nat): seq<Option<T>> {
    seq(n, _ => None)
  }

  function Places<T>(item: Item<T>): seq<Option<T>> {
    if item.Event? then [Some(item.event)] else Gap(item.dropped)
  }

  /** The stream with each marker replaced by as many missing events as it counts. */
  function Expand<T>(items: seq<Item<T>>): seq<Option<T>>
    decreases |items|
  {
    if items == [] then [] else Expand(items[..|items| - 1]) + Places(items[|items| - 1])
  }

  /** The same events in the same places, some of them missing. */
  ghost predicate Matches<T(!new)>(seen: seq<Option<T>>, offered: seq<T>) {
    |seen| == |offered| && forall i :: 0 <= i < |seen| ==> seen[i] == None || seen[i] == Some(offered[i])
  }

  /** What was received, followed by what is still to be reported missing, is what was
      offered. */
  ghost predicate Faithful<T(!new)>(s: Subscriber<T>, offered: seq<T>) {
    Matches(Expand(s.sent) + Gap(s.dropped), offered)
  }

  lemma ExpandSnoc<T>(items: seq<Item<T>>, item: Item<T>)
    ensures Expand(items + [item]) == Expand(items) + Places(item)
  {
    assert (items + [item])[..|items|] == items;
  }

  lemma SendKeepsFaith<T(!new)>(s: Subscriber<T>, event: T, outcome: Outcome, offered: seq<T>)
    requires Faithful(s, offered) && s.dropped == 0 && !outcome.Gone?
    ensures Faithful(SendEvent(s, event, outcome), offered + [event])
  {
    ExpandSnoc(s.sent, Event(event));
    assert Expand(s.sent) + Gap<T>(0) == Expand(s.sent);
    assert Gap<T>(1) == [None];
    assert (Expand(s.sent) + [Some(event)]) + Gap<T>(0) == Expand(s.sent) + [Some(event)];
  }

  /** Offering keeps the exact place of every gap unless the count was already saturated. */
  lemma OfferKeepsFaithIff<T(!new)>(s: Subscriber<T>, event: T, marker: Outcome, outcome: Outcome, offered: seq<T>)
    requires Faithful(s, offered) && s.dropped <= U64_MAX && Offer(s, event, marker, outcome).open && s.open
    ensures Faithful(Offer(s, event, marker, outcome), offered + [event]) <==> !(s.dropped == U64_MAX && marker.Full?)
    ensures Offer(s, event, marker, outcome).dropped <= U64_MAX
  {
    if s.dropped == 0 {
      SendKeepsFaith(s, event, outcome, offered);
    } else if marker.Accepted? {
      var reported := s.(sent := s.sent + [Lagged(s.dropped)], dropped := 0);
      ExpandSnoc(s.sent, Lagged(s.dropped));
      assert Expand(reported.sent) + Gap<T>(0) == Expand(s.sent) + Gap(s.dropped);
      SendKeepsFaith(reported, event, outcome, offered);
    } else if s.dropped < U64_MAX {
      assert Gap<T>(s.dropped + 1) == Gap(s.dropped) + [None];
      assert Expand(s.sent) + Gap(s.dropped + 1) == (Expand(s.sent) + Gap(s.dropped)) + [None];
    }
  }

  datatype Attempt<T> = Attempt(event: T, marker: Outcome, outcome: Outcome)

  function OfferAll<T>(s: Subscriber<T>, attempts: seq<Attempt<T>>): Subscriber<T>
    decreases |attempts|
  {
    if attempts == [] then s
    else
      var last := attempts[|attempts| - 1];
      var before := OfferAll(s, attempts[..|attempts| - 1]);
      if before.open then Offer(before, last.event, last.marker, last.outcome) else before
  }

  function Offered<T>(attempts: seq<Attempt<T>>): seq<T> {
    seq(|attempts|, i requires 0 <= i < |attempts| => attempts[i].event)
  }

  /** For any channel capacity and any pattern of drops: as long as the subscriber is there
      and fewer than 2^64 events were offered, its stream shows every event in its place
      or counts it in a gap there. */
  lemma {:induction false} StreamIsFaithful<T(!new)>(attempts: seq<Attempt<T>>)
    requires |attempts| <= U64_MAX && OfferAll(NewSubscriber<T>(), attempts).open
    ensures Faithful(OfferAll(NewSubscriber<T>(), attempts), Offered(attempts))
    ensures OfferAll(NewSubscriber<T>(), attempts).dropped <= |attempts|
    decreases |attempts|
  {
    var start := NewSubscriber<T>();
    if attempts == [] {
      assert Expand(start.sent) + Gap<T>(0) == [];
    } else {
      var front, last := attempts[..|attempts| - 1], attempts[|attempts| - 1];
      StreamIsFaithful(front);
      OfferKeepsFaithIff(OfferAll(start, front), last.event, last.marker, last.outcome, Offered(front));
      assert Offered(attempts) == Offered(front) + [last.event];
    }
  }

  // ----- Contiguous runs -----

  predicate Plain<T>(items: seq<Item<T>>) {
    forall i :: 0 <= i < |items| ==> items[i].Event?
  }

  function EventsOf<T>(items: seq<Item<T>>): seq<T>
    requires Plain(items)
  {
    seq(|items|, i requires 0 <= i < |items| => items[i].event)
  }

  lemma Regroup<T>(a: seq<T>, b: seq<T>, c: seq<T>)
    ensures (a + b) + c == a + (b + c)
  {}

  lemma SplitLast<T>(a: seq<T>, b: seq<T>)
    requires b != []
    ensures a + b == (a + b[..|b| - 1]) + [b[|b| - 1]]
  {}

  lemma {:induction false} ExpandAppend<T>(a: seq<Item<T>>, b: seq<Item<T>>)
    ensures Expand(a + b) == Expand(a) + Expand(b)
    decreases |b|
  {
    if b == [] {
      assert a + b == a;
    } else {
      var front, last := b[..|b| - 1], b[|b| - 1];
      ExpandAppend(a, front);
      SplitLast(a, b);
      ExpandSnoc(a + front, last);
      Regroup(Expand(a), Expand(front), Places(last));
    }
  }

  lemma {:induction false} ExpandPlain<T>(items: seq<Item<T>>)
    requires Plain(items)
    ensures |Expand(items)| == |items| && forall i :: 0 <= i < |items| ==> Expand(items)[i] == Some(items[i].event)
    decreases |items|
  {
    if items != [] {
      ExpandPlain(items[..|items| - 1]);
    }
  }

  /** A stretch of the stream without markers is a contiguous run of the offered events,
      at the position the stream had reached. */
  lemma PlainIsContiguous<T(!new)>(s: Subscriber<T>, offered: seq<T>, before: seq<Item<T>>, items: seq<Item<T>>)
    requires Faithful(s, offered) && before + items <= s.sent && Plain(items)
    ensures var n := |Expand(before)|;
            n + |items| <= |offered| && offered[n..n + |items|] == EventsOf(items)
  {
    var rest := s.sent[|before + items|..];
    assert s.sent == (before + items) + rest;
    SplitStream(s, before, items, rest);
    ExpandPlain(items);
    RunIsOffered(Expand(s.sent) + Gap(s.dropped), Expand(before), Expand(items), Expand(rest) + Gap(s.dropped), items, offered);
  }

  lemma RunIsOffered<T(!new)>(
      seen: seq<Option<T>>, a: seq<Option<T>>, b: seq<Option<T>>, c: seq<Option<T>>, items: seq<Item<T>>, offered: seq<T>)
    requires Matches(seen, offered) && seen == (a + b) + c && Plain(items) && |b| == |items|
    requires forall i :: 0 <= i < |items| ==> b[i] == Some(items[i].event)
    ensures |a| + |items| <= |offered| && offered[|a|..|a| + |items|] == EventsOf(items)
  {
    forall i | 0 <= i < |items| ensures offered[|a|..|a| + |items|][i] == EventsOf(items)[i] {
      assert seen[|a| + i] == b[i];
    }
  }

  lemma SplitStream<T>(s: Subscriber<T>, before: seq<Item<T>>, items: seq<Item<T>>, rest: seq<Item<T>>)
    requires s.sent == (before + items) + rest
    ensures Expand(s.sent) + Gap(s.dropped) == (Expand(before) + Expand(items)) + (Expand(rest) + Gap(s.dropped))
  {
    ExpandAppend(before + items, rest);
    ExpandAppend(before, items);
    Regroup(Expand(before) + Expand(items), Expand(rest), Gap(s.dropped));
  }

  // ----- The subscriber in place -----

  class EventSubscriber<T(0)> {
    var sent: seq<Item<T>>
    var dropped: nat
    var open: bool

    function View(): Subscriber<T>
      reads this
    {
      Subscriber(sent, dropped, open)
    }

    constructor ()
      ensures View() == NewSubscriber<T>()
    {
      sent, dropped, open := [], 0, true;
    }

    /** Returns whether the subscriber is to be kept. */
    method SendBounded(event: T, marker: Outcome, outcome: Outcome) returns (kept: bool)
      requires open
      modifies this
      ensures View() == Offer(old(View()), event, marker, outcome) && kept == open
    {
      if dropped > 0 {
        match marker
        case Accepted =>
          sent := sent + [Lagged(dropped)];
          dropped := 0;
        case Full =>
          if dropped < U64_MAX {
            dropped := dropped + 1;
          }
          return true;
        case Gone =>
          open := false;
          return false;
      }
      match outcome
      case Accepted =>
        sent := sent + [Event(event)];
        kept := true;
      case Full =>
        dropped := 1;
        kept := true;
      case Gone =>
        open := false;
        kept := false;
    }
  }
}
