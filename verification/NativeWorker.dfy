/** The native worker's cancellation handshake. Requests reach the worker through two
    queues: a control queue that announces and cancels them, and a command queue that
    carries the work. The worker drains them in any order. */
module NativeWorkerSpec {
  type RequestId = nat

  datatype Control = Register(id: RequestId) | Cancel(id: RequestId) | Finished(id: RequestId)

  /** A command is tracked when its work runs as an operation of its own; the creation of
      a channel is done at once. */
  datatype Command = Command(id: RequestId, tracked: bool)

  // ----- The worker -----

  datatype Worker = Worker(known: set<RequestId>, cancelled: set<RequestId>, operations: set<RequestId>)

  function OnControl(w: Worker, c: Control): Worker {
    match c
    case Register(id) => w.(known := w.known + {id})
    case Cancel(id) =>
      if id in w.operations then w.(operations := w.operations - {id})
      else if id in w.known then w.(cancelled := w.cancelled + {id})
      else w
    case Finished(id) => Worker(w.known - {id}, w.cancelled - {id}, w.operations - {id})
  }

  /** Handles a command; it is skipped if its cancellation is on record. */
  function OnCommand(w: Worker, c: Command): (Worker, bool) {
    var w1 := w.(known := w.known - {c.id}, cancelled := w.cancelled - {c.id});
    if c.id in w.cancelled then (w1, false)
    else (if c.tracked then w1.(operations := w1.operations + {c.id}) else w1, true)
  }

  // ----- The worker with its hosts and queues -----

  /** `unsent` requests are announced but their command is not sent yet; `waiting` ones
      await their result under an armed guard. The last four fields record history: what
      the worker has processed, and which requests it has started, in order. */
  datatype System = System(
    worker: Worker, control: seq<Control>, commands: seq<Command>, last: RequestId,
    unsent: set<RequestId>, waiting: set<RequestId>, completed: set<RequestId>,
    registered: set<RequestId>, cancellations: set<RequestId>, handled: set<RequestId>, starts: seq<RequestId>)

  const INITIAL := System(Worker({}, {}, {}), [], [], 0, {}, {}, {}, {}, {}, {}, [])

  datatype Action =
    | HostRegisters
    | HostSends(id: RequestId, tracked: bool)
    | HostDrops(id: RequestId)
    | HostSucceeds(id: RequestId)
    | OperationCompletes(id: RequestId)
    | WorkerTakesControl
    | WorkerTakesCommand

  function Running(s: System): set<RequestId> {
    s.worker.operations - s.completed
  }

  predicate Enabled(s: System, a: Action) {
    match a
    case HostRegisters => true
    case HostSends(id, _) => id in s.unsent
    case HostDrops(id) => id in s.waiting
    case HostSucceeds(id) => id in s.waiting
    case OperationCompletes(id) => id in Running(s)
    case WorkerTakesControl => s.control != []
    case WorkerTakesCommand => s.commands != []
  }

  function Next(s: System, a: Action): System
    requires Enabled(s, a)
  {
    match a
    case HostRegisters =>
      s.(last := s.last + 1, control := s.control + [Register(s.last + 1)], unsent := s.unsent + {s.last + 1})
    case HostSends(id, tracked) =>
      s.(unsent := s.unsent - {id}, waiting := s.waiting + {id}, commands := s.commands + [Command(id, tracked)])
    case HostDrops(id) => s.(waiting := s.waiting - {id}, control := s.control + [Cancel(id)])
    case HostSucceeds(id) => s.(waiting := s.waiting - {id})
    case OperationCompletes(id) => s.(completed := s.completed + {id}, control := s.control + [Finished(id)])
    case WorkerTakesControl => TakeControl(s)
    case WorkerTakesCommand => TakeCommand(s)
  }

  function TakeControl(s: System): System
    requires s.control != []
  {
    var c := s.control[0];
    s.(worker := OnControl(s.worker, c), control := s.control[1..],
       registered := if c.Register? then s.registered + {c.id} else s.registered,
       cancellations := if c.Cancel? then s.cancellations + {c.id} else s.cancellations)
  }

  function TakeCommand(s: System): System
    requires s.commands != []
  {
    var c := s.commands[0];
    var (worker, started) := OnCommand(s.worker, c);
    s.(worker := worker, commands := s.commands[1..], handled := s.handled + {c.id},
       starts := if started then s.starts + [c.id] else s.starts)
  }
}

/** What the handshake guarantees under every interleaving of the two queues. */
module NativeWorkerLaws {
  import opened NativeWorkerSpec

  ghost predicate Bounded(ids: set<RequestId>, last: RequestId) {
    forall id :: id in ids ==> id <= last
  }

  /** Every request was numbered by a host. */
  ghost predicate Numbered(s: System) {
    && Bounded(s.unsent + s.waiting + s.registered + s.cancellations + s.handled, s.last)
    && (forall i :: 0 <= i < |s.control| ==> s.control[i].id <= s.last)
    && (forall i :: 0 <= i < |s.commands| ==> s.commands[i].id <= s.last)
  }

  /** A request has one command: unsent, queued or handled. */
  ghost predicate OneCommand(s: System) {
    && s.unsent !! s.handled
    && (forall i :: 0 <= i < |s.commands| ==> s.commands[i].id !in s.handled && s.commands[i].id !in s.unsent)
    && (forall i, j :: 0 <= i < j < |s.commands| ==> s.commands[i].id != s.commands[j].id)
  }

  /** A request is announced before it can be cancelled. */
  ghost predicate Announced(s: System) {
    && (forall id :: id in s.unsent || id in s.waiting ==> id in s.registered || Register(id) in s.control)
    && (forall i :: 0 <= i < |s.control| && s.control[i].Cancel? ==>
          s.control[i].id in s.registered || Register(s.control[i].id) in s.control[..i])
    && (forall i :: 0 <= i < |s.control| && s.control[i].Finished? ==> s.control[i].id in s.handled)
  }

  /** What the worker's sets say about a request it has not handled yet, and that no
      cancelled operation is left. */
  ghost predicate Recorded(s: System) {
    && (forall id :: id in s.registered && id !in s.handled ==> id in s.worker.known)
    && (forall id :: id in s.cancellations && id !in s.handled ==> id in s.worker.cancelled)
    && s.worker.cancelled <= s.cancellations && s.worker.cancelled <= s.worker.known
    && s.worker.operations <= s.handled
    && s.worker.operations !! s.cancellations
  }

  ghost predicate StartedOnce(s: System) {
    && (forall id :: id in s.starts ==> id in s.handled)
    && (forall i, j :: 0 <= i < j < |s.starts| ==> s.starts[i] != s.starts[j])
    && (forall id :: id in s.handled && id !in s.cancellations ==> id in s.starts)
  }

  /** An operation the worker holds is running or has its report on the way. */
  ghost predicate Live(s: System) {
    forall id :: id in s.worker.operations && id in s.completed ==> Finished(id) in s.control
  }

  ghost predicate Inv(s: System) {
    Numbered(s) && OneCommand(s) && Announced(s) && Recorded(s) && StartedOnce(s) && Live(s) && s.completed <= s.handled
  }

  lemma ControlKeepsInv(s: System)
    requires Inv(s) && s.control != []
    ensures Inv(TakeControl(s))
  {
    var d, c := TakeControl(s), s.control[0];
    forall i | 0 <= i < |d.control| ensures d.control[i] == s.control[i + 1] {}
    forall id | id in d.unsent || id in d.waiting ensures id in d.registered || Register(id) in d.control {
      ShiftMember(s.control, Register(id));
    }
    forall i | 0 <= i < |d.control| && d.control[i].Cancel?
      ensures d.control[i].id in d.registered || Register(d.control[i].id) in d.control[..i] {
      var register := Register(d.control[i].id);
      assert s.control[i + 1].id in s.registered || register in s.control[..i + 1];
      assert s.control[..i + 1][1..] == d.control[..i];
      ShiftMember(s.control[..i + 1], register);
    }
    if c.Cancel? {
      assert Register(c.id) !in s.control[..0];
      assert c.id in s.registered;
    }
  }

  lemma ShiftMember<T>(a: seq<T>, x: T)
    requires a != []
    ensures x in a <==> x == a[0] || x in a[1..]
  {
    assert a == [a[0]] + a[1..];
  }

  lemma CommandKeepsInv(s: System)
    requires Inv(s) && s.commands != []
    ensures Inv(TakeCommand(s))
  {
    var d := TakeCommand(s);
    forall i | 0 <= i < |d.commands| ensures d.commands[i] == s.commands[i + 1] {}
  }

  lemma SendKeepsAnnounced(s: System, c: Control)
    requires Announced(s)
    requires c.Cancel? ==> c.id in s.registered || Register(c.id) in s.control
    requires c.Finished? ==> c.id in s.handled
    ensures Announced(s.(control := s.control + [c]))
  {
    var d := s.(control := s.control + [c]);
    forall i | 0 <= i < |s.control| ensures d.control[..i] == s.control[..i] {}
    assert d.control[..|s.control|] == s.control;
  }

  lemma NextKeepsInv(s: System, a: Action)
    requires Inv(s) && Enabled(s, a)
    ensures Inv(Next(s, a))
  {
    match a
    case HostRegisters => HostKeepsInv(s, a);
    case HostSends(_, _) => HostKeepsInv(s, a);
    case HostDrops(_) => HostKeepsInv(s, a);
    case HostSucceeds(_) => HostKeepsInv(s, a);
    case OperationCompletes(id) =>
      SendKeepsAnnounced(s, Finished(id));
    case WorkerTakesControl => ControlKeepsInv(s);
    case WorkerTakesCommand => CommandKeepsInv(s);
  }

  lemma HostKeepsInv(s: System, a: Action)
    requires Inv(s) && Enabled(s, a) && (a.HostRegisters? || a.HostSends? || a.HostDrops? || a.HostSucceeds?)
    ensures Inv(Next(s, a))
  {
    match a
    case HostRegisters => SendKeepsAnnounced(s, Register(s.last + 1));
    case HostDrops(id) => SendKeepsAnnounced(s, Cancel(id));
    case _ =>
  }

  // ----- Runs -----

  ghost predicate AllEnabled(s: System, actions: seq<Action>)
    decreases |actions|
  {
    actions == [] || (Enabled(s, actions[0]) && AllEnabled(Next(s, actions[0]), actions[1..]))
  }

  function Run(s: System, actions: seq<Action>): System
    requires AllEnabled(s, actions)
    decreases |actions|
  {
    if actions == [] then s else Run(Next(s, actions[0]), actions[1..])
  }

  lemma {:induction false} RunKeepsInv(s: System, actions: seq<Action>)
    requires Inv(s) && AllEnabled(s, actions)
    ensures Inv(Run(s, actions))
    decreases |actions|
  {
    if actions != [] {
      NextKeepsInv(s, actions[0]);
      RunKeepsInv(Next(s, actions[0]), actions[1..]);
    }
  }

  /** A command is started exactly when no cancellation of its request was processed
      before it, whatever order the queues were drained in. */
  lemma StartsIffNotCancelled(s: System)
    requires Inv(s) && s.commands != []
    ensures var id := s.commands[0].id;
            var d := TakeCommand(s);
            && id !in s.starts
            && (id in d.starts <==> id !in s.cancellations)
            && (id !in s.cancellations && s.commands[0].tracked ==> id in d.worker.operations)
  {}

  /** Once a request's cancellation has been processed, its operation is not running. */
  lemma CancelledIsNotRunning(actions: seq<Action>, id: RequestId)
    requires AllEnabled(INITIAL, actions) && id in Run(INITIAL, actions).cancellations
    ensures id !in Running(Run(INITIAL, actions))
  {
    RunKeepsInv(INITIAL, actions);
  }

  /** And it is never started or running again, however the run continues. */
  lemma {:induction false} CancelledNeverStarts(s: System, actions: seq<Action>, id: RequestId)
    requires Inv(s) && id in s.cancellations && AllEnabled(s, actions)
    ensures var d := Run(s, actions);
            && id in d.cancellations && id !in Running(d)
            && s.starts <= d.starts && id !in d.starts[|s.starts|..]
    decreases |actions|
  {
    if actions != [] {
      var m := Next(s, actions[0]);
      NextKeepsInv(s, actions[0]);
      CancelledNeverStarts(m, actions[1..], id);
      var d := Run(s, actions);
      forall i | |s.starts| <= i < |d.starts| ensures d.starts[i] != id {
        if i < |m.starts| {
          assert d.starts[i] == m.starts[i];
        } else {
          assert d.starts[i] == d.starts[|m.starts|..][i - |m.starts|];
        }
      }
    }
  }

  lemma {:induction false} RunAppends(s: System, before: seq<Action>, after: seq<Action>)
    requires AllEnabled(s, before) && AllEnabled(Run(s, before), after)
    ensures AllEnabled(s, before + after) && Run(s, before + after) == Run(Run(s, before), after)
    decreases |before|
  {
    if before == [] {
      assert before + after == after;
    } else {
      assert (before + after)[1..] == before[1..] + after;
      RunAppends(Next(s, before[0]), before[1..], after);
    }
  }

  /** Over a whole run, seen from any point of it: no request is started twice; a handled
      request whose cancellation was never processed was started; one whose cancellation
      was processed before it was handled never was. */
  lemma EveryRequestStartsOnce(before: seq<Action>, after: seq<Action>, id: RequestId)
    requires AllEnabled(INITIAL, before) && AllEnabled(Run(INITIAL, before), after)
    ensures var m := Run(INITIAL, before);
            var s := Run(m, after);
            && AllEnabled(INITIAL, before + after) && s == Run(INITIAL, before + after)
            && (forall i, j :: 0 <= i < j < |s.starts| ==> s.starts[i] != s.starts[j])
            && (id in s.starts ==> id in s.handled)
            && (id in s.handled && id !in s.cancellations ==> id in s.starts)
            && (id in m.cancellations && id !in m.handled ==> id !in s.starts)
  {
    var m := Run(INITIAL, before);
    var s := Run(m, after);
    RunAppends(INITIAL, before, after);
    RunKeepsInv(INITIAL, before);
    RunKeepsInv(m, after);
    if id in m.cancellations && id !in m.handled {
      CancelledNeverStarts(m, after, id);
      assert s.starts == m.starts + s.starts[|m.starts|..];
    }
  }

  // ----- Announcements left behind -----

  /** Once both queues are drained and nothing runs, the worker holds no operation, and its
      cancelled requests are among the announced ones it still knows. */
  lemma DrainedWorkerIsIdle(actions: seq<Action>)
    requires AllEnabled(INITIAL, actions)
    ensures var s := Run(INITIAL, actions);
            s.control == [] && Running(s) == {} ==> s.worker.operations == {} && s.worker.cancelled <= s.worker.known
  {
    RunKeepsInv(INITIAL, actions);
    var s := Run(INITIAL, actions);
    if s.control == [] && Running(s) == {} {
      forall id | id in s.worker.operations ensures id in s.completed {
        assert id in s.completed || id in Running(s);
      }
    }
  }

  /** A handled request is still announced, and nothing is on its way that would clear it. */
  ghost predicate Forgotten(s: System, id: RequestId) {
    id in s.handled && id in s.worker.known && id !in Running(s) && Finished(id) !in s.control
  }

  lemma NextKeepsForgotten(s: System, a: Action, id: RequestId)
    requires Inv(s) && Enabled(s, a) && Forgotten(s, id)
    ensures Forgotten(Next(s, a), id)
  {
    if a.WorkerTakesControl? {
      ShiftMember(s.control, Finished(id));
    } else if a.WorkerTakesCommand? {
      assert s.commands[0].id !in s.handled;
    }
  }

  lemma {:induction false} ForgottenForGood(s: System, actions: seq<Action>, id: RequestId)
    requires Inv(s) && AllEnabled(s, actions) && Forgotten(s, id)
    ensures Forgotten(Run(s, actions), id)
    decreases |actions|
  {
    if actions != [] {
      NextKeepsInv(s, actions[0]);
      NextKeepsForgotten(s, actions[0], id);
      ForgottenForGood(Next(s, actions[0]), actions[1..], id);
    }
  }

  /** The worker can still clear a request whose operation has reported. */
  lemma {:induction false} FinishedClears(s: System, id: RequestId, i: nat) returns (actions: seq<Action>)
    requires i < |s.control| && s.control[i] == Finished(id)
    ensures AllEnabled(s, actions) && id !in Run(s, actions).worker.known
    decreases i
  {
    var d := Next(s, WorkerTakesControl);
    if i == 0 {
      actions := [WorkerTakesControl];
      assert actions[1..] == [];
      assert Run(d, []) == d;
    } else {
      var rest := FinishedClears(d, id, i - 1);
      actions := [WorkerTakesControl] + rest;
      assert actions[1..] == rest;
    }
  }

  lemma RunningCanClear(s: System, id: RequestId) returns (actions: seq<Action>)
    requires id in Running(s)
    ensures AllEnabled(s, actions) && id !in Run(s, actions).worker.known
  {
    var d := Next(s, OperationCompletes(id));
    var rest := FinishedClears(d, id, |s.control|);
    actions := [OperationCompletes(id)] + rest;
    assert actions[1..] == rest;
  }

  /** The announcement stays on every continuation. */
  ghost predicate Lingers(s: System, id: RequestId) {
    forall actions :: AllEnabled(s, actions) ==> id in Run(s, actions).worker.known
  }

  /** A handled request's announcement lingers for good exactly when its operation is not
      running and has not reported. */
  lemma LingersIff(s: System, id: RequestId)
    requires Inv(s) && id in s.handled && id in s.worker.known
    ensures Lingers(s, id) <==> id !in Running(s) && Finished(id) !in s.control
  {
    if id in Running(s) {
      var actions := RunningCanClear(s, id);
    } else if Finished(id) in s.control {
      var i :| 0 <= i < |s.control| && s.control[i] == Finished(id);
      var actions := FinishedClears(s, id, i);
    } else {
      forall actions | AllEnabled(s, actions) ensures id in Run(s, actions).worker.known {
        ForgottenForGood(s, actions, id);
      }
    }
  }

  /** Each request is announced once, and the worker knows only announced ones. */
  ghost predicate AnnouncedOnce(s: System) {
    && s.worker.known <= s.registered
    && (forall i :: 0 <= i < |s.control| && s.control[i].Register? ==> s.control[i].id !in s.registered)
    && (forall i, j :: 0 <= i < j < |s.control| && s.control[i].Register? && s.control[j].Register? ==>
          s.control[i].id != s.control[j].id)
  }

  lemma NextKeepsAnnouncedOnce(s: System, a: Action)
    requires Inv(s) && Enabled(s, a) && AnnouncedOnce(s)
    ensures AnnouncedOnce(Next(s, a))
  {
    if a.WorkerTakesControl? {
      var d := TakeControl(s);
      forall i | 0 <= i < |d.control| ensures d.control[i] == s.control[i + 1] {}
    }
  }

  lemma {:induction false} RunKeepsAnnouncedOnce(s: System, actions: seq<Action>)
    requires Inv(s) && AnnouncedOnce(s) && AllEnabled(s, actions)
    ensures AnnouncedOnce(Run(s, actions))
    decreases |actions|
  {
    if actions != [] {
      NextKeepsInv(s, actions[0]);
      NextKeepsAnnouncedOnce(s, actions[0]);
      RunKeepsAnnouncedOnce(Next(s, actions[0]), actions[1..]);
    }
  }

  /** A request done at once, after its command was taken: it is known exactly if it was
      not announced then (`early`) and is by now. */
  ghost predicate DoneAtOnce(s: System, id: RequestId, early: bool) {
    && id in s.handled && id !in s.worker.operations && Finished(id) !in s.control
    && (id in s.worker.known <==> early && id in s.registered)
    && (!early ==> id in s.registered)
  }

  lemma NextKeepsDoneAtOnce(s: System, a: Action, id: RequestId, early: bool)
    requires Inv(s) && AnnouncedOnce(s) && Enabled(s, a) && DoneAtOnce(s, id, early)
    ensures DoneAtOnce(Next(s, a), id, early)
  {
    if a.WorkerTakesControl? {
      ShiftMember(s.control, Finished(id));
    } else if a.WorkerTakesCommand? {
      assert s.commands[0].id !in s.handled;
    }
  }

  lemma {:induction false} RunKeepsDoneAtOnce(s: System, actions: seq<Action>, id: RequestId, early: bool)
    requires Inv(s) && AnnouncedOnce(s) && AllEnabled(s, actions) && DoneAtOnce(s, id, early)
    ensures Inv(Run(s, actions)) && DoneAtOnce(Run(s, actions), id, early)
    decreases |actions|
  {
    if actions != [] {
      NextKeepsInv(s, actions[0]);
      NextKeepsAnnouncedOnce(s, actions[0]);
      NextKeepsDoneAtOnce(s, actions[0], id, early);
      RunKeepsDoneAtOnce(Next(s, actions[0]), actions[1..], id, early);
    }
  }

  /** The worker's own sets are not always cleaned. Once the announcement of a request
      that is done at once has been processed, it lingers for good exactly when the
      command had been taken before it. */
  lemma AnnouncementLingersIff(s: System, actions: seq<Action>, id: RequestId)
    requires Inv(s) && AnnouncedOnce(s) && s.commands != [] && s.commands[0] == Command(id, false)
    requires AllEnabled(TakeCommand(s), actions) && id in Run(TakeCommand(s), actions).registered
    ensures Lingers(Run(TakeCommand(s), actions), id) <==> id !in s.registered
  {
    var m := TakeCommand(s);
    NextKeepsInv(s, WorkerTakesCommand);
    NextKeepsAnnouncedOnce(s, WorkerTakesCommand);
    assert Finished(id) !in s.control;
    RunKeepsDoneAtOnce(m, actions, id, id !in s.registered);
    var d := Run(m, actions);
    if id in d.worker.known {
      LingersIff(d, id);
    } else {
      assert AllEnabled(d, []) && Run(d, []) == d;
    }
  }

  /** Every reachable state announces each request once. */
  lemma ReachableIsAnnouncedOnce(actions: seq<Action>)
    requires AllEnabled(INITIAL, actions)
    ensures Inv(Run(INITIAL, actions)) && AnnouncedOnce(Run(INITIAL, actions))
  {
    RunKeepsInv(INITIAL, actions);
    RunKeepsAnnouncedOnce(INITIAL, actions);
  }

  /** It does happen: a channel's creation handled before its announcement. */
  lemma AnnouncementsCanLinger()
    ensures var actions := [HostRegisters, HostSends(1, false), WorkerTakesCommand, WorkerTakesControl];
            AllEnabled(INITIAL, actions) && Lingers(Run(INITIAL, actions), 1)
  {
    var actions := [HostRegisters, HostSends(1, false), WorkerTakesCommand, WorkerTakesControl];
    var s1 := Next(INITIAL, actions[0]);
    var s2 := Next(s1, actions[1]);
    var s3 := Next(s2, actions[2]);
    var s4 := Next(s3, actions[3]);
    assert s2.commands == [Command(1, false)] && s3.control == [Register(1)];
    assert actions[1..][1..][1..][1..] == [];
    assert actions[1..][0] == actions[1] && actions[1..][1..][0] == actions[2] && actions[1..][1..][1..][0] == actions[3];
    RunKeepsInv(INITIAL, actions);
    LingersIff(s4, 1);
  }
}

/** The worker and the request guard in the source's own form. */
module NativeWorkerObject {
  import opened S = NativeWorkerSpec

  class Queues {
    var control: seq<Control>
    var commands: seq<Command>

    constructor ()
      ensures control == [] && commands == []
    {
      control, commands := [], [];
    }
  }

  /** The queues as `s` has them. */
  ghost predicate Shows(q: Queues, s: System)
    reads q
  {
    q.control == s.control && q.commands == s.commands
  }

  /** Cancels its request when it is dropped before the request has succeeded. Its methods
      take the host's steps of `Next`, from any state `s` that the queues show. */
  class HostRequestGuard {
    const requestId: RequestId
    const queues: Queues
    var armed: bool

    /** The start of a request: announce, arm, send. */
    constructor (queues: Queues, requestId: RequestId, tracked: bool, ghost s: System)
      modifies queues
      ensures old(Shows(queues, s)) && requestId == s.last + 1 ==>
                var d := Next(Next(s, HostRegisters), HostSends(requestId, tracked));
                Shows(queues, d) && requestId in d.waiting
      ensures this.queues == queues && this.requestId == requestId && armed
      ensures queues.control == old(queues.control) + [Register(requestId)]
      ensures queues.commands == old(queues.commands) + [Command(requestId, tracked)]
    {
      this.requestId, this.queues := requestId, queues;
      queues.control := queues.control + [Register(requestId)];
      armed := true;
      queues.commands := queues.commands + [Command(requestId, tracked)];
    }

    /** The request's result has arrived; only a success disarms the guard. */
    method Settle(success: bool, ghost s: System)
      modifies this
      ensures Shows(queues, s) && requestId in s.waiting && success ==>
                Shows(queues, Next(s, HostSucceeds(requestId))) && requestId !in Next(s, HostSucceeds(requestId)).waiting
      ensures armed == (old(armed) && !success)
    {
      if success {
        armed := false;
      }
    }

    method Drop(ghost s: System)
      modifies queues
      ensures old(Shows(queues, s)) && armed && requestId in s.waiting ==> Shows(queues, Next(s, HostDrops(requestId)))
      ensures old(Shows(queues, s)) && !armed ==> Shows(queues, s)
      ensures queues.commands == old(queues.commands)
      ensures queues.control == old(queues.control) + if armed then [Cancel(requestId)] else []
    {
      if armed {
        queues.control := queues.control + [Cancel(requestId)];
      }
    }
  }

  class WorkerLoop {
    const queues: Queues
    var knownRequests: set<RequestId>
    var cancelled: set<RequestId>
    var operations: set<RequestId>

    function View(): Worker
      reads this
    {
      Worker(knownRequests, cancelled, operations)
    }

    constructor (queues: Queues)
      ensures this.queues == queues && View() == Worker({}, {}, {})
    {
      this.queues := queues;
      knownRequests, cancelled, operations := {}, {}, {};
    }

    method HandleControl(c: Control)
      modifies this
      ensures View() == OnControl(old(View()), c)
    {
      match c
      case Register(id) =>
        knownRequests := knownRequests + {id};
      case Cancel(id) =>
        if id in operations {
          operations := operations - {id};
        } else if id in knownRequests {
          cancelled := cancelled + {id};
        }
      case Finished(id) =>
        operations := operations - {id};
        knownRequests := knownRequests - {id};
        cancelled := cancelled - {id};
    }

    method HandleHostCommand(c: Command) returns (started: bool)
      modifies this
      ensures (View(), started) == OnCommand(old(View()), c)
    {
      knownRequests := knownRequests - {c.id};
      if c.id in cancelled {
        cancelled := cancelled - {c.id};
        return false;
      }
      assert cancelled - {c.id} == cancelled;
      if c.tracked {
        TrackOperation(c.id);
      }
      started := true;
    }

    method TrackOperation(id: RequestId)
      modifies this`operations
      ensures operations == old(operations) + {id}
    {
      operations := operations + {id};
    }

    /** One turn of the worker's loop: the head of one of its queues, whichever the
        runtime picks. */
    method Step(takeControl: bool, ghost s: System) returns (started: bool)
      requires if takeControl then queues.control != [] else queues.commands != []
      modifies this, queues
      ensures old(Shows(queues, s)) && old(View()) == s.worker ==>
                var d := Next(s, if takeControl then WorkerTakesControl else WorkerTakesCommand);
                Shows(queues, d) && View() == d.worker
      ensures old(Shows(queues, s)) && old(View()) == s.worker && !takeControl ==>
                Next(s, WorkerTakesCommand).starts == if started then s.starts + [s.commands[0].id] else s.starts
      ensures takeControl ==>
                && View() == OnControl(old(View()), old(queues.control)[0]) && !started
                && queues.control == old(queues.control)[1..] && queues.commands == old(queues.commands)
      ensures !takeControl ==>
                && (View(), started) == OnCommand(old(View()), old(queues.commands)[0])
                && queues.commands == old(queues.commands)[1..] && queues.control == old(queues.control)
    {
      started := false;
      if takeControl {
        var c := queues.control[0];
        queues.control := queues.control[1..];
        HandleControl(c);
      } else {
        var c := queues.commands[0];
        queues.commands := queues.commands[1..];
        started := HandleHostCommand(c);
      }
    }
  }
}
