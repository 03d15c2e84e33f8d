/** A run that strands a topic: why the no-stuck-channel theorem restricts joins that are
    requested while a leave is deferred. */
module DriverStranding {
  import opened Wire
  import P = ProtocolSpec
  import opened DriverSpec
  import opened DriverRuns
  import M = DriverProgress

  lemma {:induction false} RunThenNext(c: Client, steps: seq<Step>, s: Step)
    ensures Run(c, steps + [s]) == Next(Run(c, steps), s.net, s.action, s.retry)
    ensures AllEnabled(c, steps + [s]) <==> AllEnabled(c, steps) && Enabled(Run(c, steps), s.action)
    decreases |steps|
  {
    if steps == [] {
      assert steps + [s] == [s];
      assert [s][1..] == [];
    } else {
      assert (steps + [s])[1..] == steps[1..] + [s];
      RunThenNext(Next(c, steps[0].net, steps[0].action, steps[0].retry), steps[1..], s);
    }
  }

  const ROOM := "room"
  const OPEN := Net(true, 1, true)

  function Then(a: Action): Step {
    Step(OPEN, a, true)
  }

  // The states of the run below, in order.

  const NO_BOOKS := Books(P.EMPTY, map[], map[], map[], map[], None, {})
  const JOINING_BOOKS := Books(
    P.View(1, map[ROOM := P.Channel(P.Joining, 1, Opaque(0))], map[1 := P.PendingJoin(ROOM)]),
    map[1 := ROOM], map[], map[], map[], None, {JoinTimer(ROOM, 1)})
  const DEFERRED := Record(Leaving, false, false, None, false, {}, [], Some(PendingLeave(2, true)))

  function Room(books: Books, rec: Record, last: nat, payloads: set<(Topic, nat)>, ledger: Ledger, trace: Trace): Client {
    Client(books, map[ROOM := rec], last, 1, Connected, payloads, multiset{}, ledger, trace)
  }

  const QUIET_TRACE := Trace([], 0, {}, map[])
  const JOINED_TRACE := Trace([HandedJoin(ROOM, 1, true)], 0, {}, map[ROOM := 1])

  const REGISTERED := Room(NO_BOOKS, FRESH, 0, {}, map[], QUIET_TRACE)
  const LOADING := Room(NO_BOOKS, FRESH.(desired := true, status := WaitingToJoin, waiters := {1}, activePayload := Some(1)), 1,
                        {(ROOM, 1)}, map[1 := At(Waiter(ROOM))], QUIET_TRACE.(latest := map[ROOM := 1]))
  const JOINING := Room(JOINING_BOOKS, FRESH.(desired := true, status := Joining, waiters := {1}), 1, {}, map[1 := At(Waiter(ROOM))], JOINED_TRACE)
  const LEAVING := Room(JOINING_BOOKS, DEFERRED, 1, {}, map[1 := Answered(Interrupted(JoinOp)), 2 := At(Deferred(ROOM))], JOINED_TRACE)
  const WANTED := Room(JOINING_BOOKS, DEFERRED.(desired := true, status := WaitingToJoin, waiters := {3}), 1, {},
                       map[1 := Answered(Interrupted(JoinOp)), 2 := At(Deferred(ROOM)), 3 := At(Waiter(ROOM))], JOINED_TRACE)
  const STRANDED := Room(NO_BOOKS.(proto := P.View(1, map[], map[])), FRESH.(desired := true, status := Status.Left, waiters := {3}), 1, {},
                         map[1 := Answered(Interrupted(JoinOp)), 2 := Answered(Timeout(LeaveOp)), 3 := At(Waiter(ROOM))], JOINED_TRACE)

  ghost predicate StepsTo(c: Client, a: Action, d: Client) {
    Enabled(c, a) && Next(c, OPEN, a, true) == d
  }

  lemma RegisterStep()
    ensures StepsTo(Start(1, true), DoRegister(ROOM), REGISTERED.(phase := Connecting))
    ensures StepsTo(REGISTERED.(phase := Connecting), AttemptSucceeded([]), REGISTERED)
  {
    var c := REGISTERED.(phase := Connecting);
    assert Register(Start(1, true), ROOM) == c;
    assert OnConnect(c, []).channels == map[ROOM := FRESH];
    assert OnConnect(c, []) == REGISTERED;
  }

  lemma LoadStep()
    ensures StepsTo(REGISTERED, DoJoin(ROOM, 1), LOADING)
  {
    var d := RequestJoin(REGISTERED, ROOM, 1);
    assert FRESH.waiters + {1} == {1};
    assert d.channels == LOADING.channels;
    assert d.payloads == {(ROOM, 1)};
  }

  lemma JoinStep()
    ensures StepsTo(LOADING, LoadFinished(ROOM, 1, Some(Opaque(0))), JOINING)
  {
    var c2 := SetRecord(LOADING.(payloads := {}), ROOM, LOADING.channels[ROOM].(activePayload := None));
    var turn := StartJoin(c2, OPEN, ROOM, 1, Opaque(0));
    assert LOADING.payloads - {(ROOM, 1)} == {};
    var (books, ok) := BookJoin(NO_BOOKS, ROOM, Opaque(0));
    assert books.timers == JOINING_BOOKS.timers;
    assert books == JOINING_BOOKS;
    assert turn.client.channels == JOINING.channels;
    assert turn.client.trace == JOINED_TRACE;
  }

  lemma LeaveStep()
    ensures StepsTo(JOINING, DoLeave(ROOM, 2), LEAVING)
  {
    var c1 := SetStatus(Enter(JOINING, 2, Deferred(ROOM)), ROOM, Leaving);
    var l2 := SettleAll(c1.ledger, {1}, Answered(Interrupted(JoinOp)));
    assert l2 == map[1 := Answered(Interrupted(JoinOp)), 2 := At(Deferred(ROOM))];
    var d := RequestLeave(JOINING, OPEN, ROOM, 2).client;
    assert d.channels == LEAVING.channels;
    assert d.ledger == LEAVING.ledger;
  }

  lemma WantStep()
    ensures StepsTo(LEAVING, DoJoin(ROOM, 3), WANTED)
  {
    var d := RequestJoin(LEAVING, ROOM, 3);
    assert DEFERRED.waiters + {3} == {3};
    assert d.channels == WANTED.channels;
  }

  lemma TimeoutBooks()
    ensures BookDiscard(BookJoinTimeout(JOINING_BOOKS, ROOM, 1), ROOM) == STRANDED.books
  {
    var b := BookDiscard(BookJoinTimeout(JOINING_BOOKS, ROOM, 1), ROOM);
    assert b.proto == P.View(1, map[], map[]) && b.timers == {} && b.pendingJoins == map[];
  }

  lemma TimeoutStep()
    ensures StepsTo(WANTED, TimerDue(JoinTimer(ROOM, 1)), STRANDED)
  {
    TimeoutBooks();
    var d := JoinTimedOut(WANTED, ROOM, 1);
    assert d.channels == STRANDED.channels;
    assert d.ledger == STRANDED.ledger;
  }

  /** A topic whose leave is deferred while its join is on the wire is desired again, and
      the join then times out. */
  const JOINING_STEPS :=
    [Then(DoRegister(ROOM)), Then(AttemptSucceeded([])), Then(DoJoin(ROOM, 1)),
     Then(LoadFinished(ROOM, 1, Some(Opaque(0))))]

  function StrandingSteps(): seq<Step> {
    JOINING_STEPS +
    [Then(DoLeave(ROOM, 2)), Then(DoJoin(ROOM, 3)), Then(TimerDue(JoinTimer(ROOM, 1)))]
  }

  lemma JoiningReached()
    ensures Reaches(JOINING_STEPS, JOINING)
  {
    var a, b, d := Then(DoRegister(ROOM)), Then(AttemptSucceeded([])), Then(DoJoin(ROOM, 1));
    var e := Then(LoadFinished(ROOM, 1, Some(Opaque(0))));
    RegisterStep();
    LoadStep();
    JoinStep();
    ReachesNext([], Start(1, true), a.action, REGISTERED.(phase := Connecting));
    assert [] + [a] == [a];
    ReachesNext([a], REGISTERED.(phase := Connecting), b.action, REGISTERED);
    assert [a] + [b] == [a, b];
    ReachesNext([a, b], REGISTERED, d.action, LOADING);
    assert [a, b] + [d] == [a, b, d];
    ReachesNext([a, b, d], LOADING, e.action, JOINING);
    assert [a, b, d] + [e] == [a, b, d, e];
  }

  lemma StrandingReached(steps: seq<Step>)
    requires Reaches(steps, JOINING)
    ensures Reaches(steps + [Then(DoLeave(ROOM, 2)), Then(DoJoin(ROOM, 3)), Then(TimerDue(JoinTimer(ROOM, 1)))], STRANDED)
  {
    var a, b, d := Then(DoLeave(ROOM, 2)), Then(DoJoin(ROOM, 3)), Then(TimerDue(JoinTimer(ROOM, 1)));
    LeaveStep();
    WantStep();
    TimeoutStep();
    ReachesNext(steps, JOINING, a.action, LEAVING);
    ReachesNext(steps + [a], LEAVING, b.action, WANTED);
    ReachesNext(steps + [a] + [b], WANTED, d.action, STRANDED);
    assert steps + [a] + [b] + [d] == steps + [a, b, d];
  }

  ghost predicate Reaches(steps: seq<Step>, c: Client) {
    AllEnabled(Start(1, true), steps) && Run(Start(1, true), steps) == c
  }

  lemma ReachesNext(steps: seq<Step>, c: Client, a: Action, d: Client)
    requires Reaches(steps, c) && StepsTo(c, a, d)
    ensures Reaches(steps + [Then(a)], d)
  {
    RunThenNext(Start(1, true), steps, Then(a));
  }

  /** The restriction matters: a join requested while the leave is deferred is stranded by
      the join timeout. Nothing is outstanding that would ever answer it. */
  lemma StrandedRun()
    ensures var c := Run(Start(1, true), StrandingSteps());
            && AllEnabled(Start(1, true), StrandingSteps())
            && c.phase.Connected? && ROOM in c.channels && c.channels[ROOM].desired
            && !M.Unstuck(c, ROOM)
            && 3 in c.ledger && c.ledger[3] == At(Waiter(ROOM))
            && c.books.proto.pending == map[] && c.books.timers == {} && c.payloads == {} && c.rejoins == multiset{}
  {
    JoiningReached();
    StrandingReached(JOINING_STEPS);
  }
}
