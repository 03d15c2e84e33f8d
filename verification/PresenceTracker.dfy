/** The presence tracker: snapshots and diffs in the order of join generations, with the
    diffs of a generation whose snapshot has not arrived kept waiting. */
module PresenceTracking {
  import opened Wire
  import opened Presence

  datatype PresenceError =
    | BinaryPayload | InvalidState | InvalidDiff | InvalidPresence | InvalidMetas | InvalidMeta | MissingReference

  /** A frame with what its JSON payload decodes to, read either way. */
  datatype PresenceFrame = PresenceFrame(
    event: string, joinRef: Option<string>, isJson: bool,
    asState: Result<State, PresenceError>, asDiff: Result<Diff, PresenceError>)

  /** Decoding refuses metas without a `phx_ref`. */
  predicate WellDecoded(f: PresenceFrame) {
    && (f.asState.Ok? ==> AllTagged(f.asState.value))
    && (f.asDiff.Ok? ==> AllTagged(f.asDiff.value.joins) && AllTagged(f.asDiff.value.leaves))
  }

  datatype Update = Ignored | Pending | Synced(changes: Diff)

  datatype Tracker = Tracker(state: State, joinRef: Option<string>, pending: seq<Diff>, stateEvent: string, diffEvent: string)

  function Apply(v: Tracker, f: PresenceFrame): (Tracker, Result<Update, PresenceError>) {
    if f.event != v.stateEvent && f.event != v.diffEvent then (v, Ok(Ignored))
    else if !f.isJson then (v, Err(BinaryPayload))
    else if f.event == v.stateEvent then
      (match f.asState
       case Err(e) => (v, Err(e))
       case Ok(full) =>
         var (state, changes) := SyncAll(SyncState(v.state, full), Changes(v.state, full), v.pending);
         (v.(state := state, joinRef := f.joinRef, pending := []), Ok(Synced(changes))))
    else
      (match f.asDiff
       case Err(e) => (v, Err(e))
       case Ok(diff) =>
         if v.joinRef.None? || v.joinRef != f.joinRef then (v.(pending := v.pending + [diff]), Ok(Pending))
         else (v.(state := SyncDiff(v.state, diff)), Ok(Synced(diff))))
  }

  function Cleared(v: Tracker): Tracker {
    v.(state := map[], joinRef := None, pending := [])
  }

  function ApplyAll(v: Tracker, frames: seq<PresenceFrame>): Tracker
    decreases |frames|
  {
    if frames == [] then v else ApplyAll(Apply(v, frames[0]).0, frames[1..])
  }

  // ----- Arrival order -----

  predicate IsDiff(v: Tracker, f: PresenceFrame, j: Option<string>) {
    f.event == v.diffEvent && v.diffEvent != v.stateEvent && f.joinRef == j && f.isJson && f.asDiff.Ok?
  }

  predicate IsSnapshot(v: Tracker, f: PresenceFrame, j: Option<string>) {
    f.event == v.stateEvent && f.joinRef == j && f.isJson && f.asState.Ok?
  }

  function DiffsOf(frames: seq<PresenceFrame>): seq<Diff> {
    seq(|frames|, i requires 0 <= i < |frames| => if frames[i].asDiff.Ok? then frames[i].asDiff.value else NO_CHANGES)
  }

  /** The state after all of `diffs`. */
  function Fold(s: State, diffs: seq<Diff>): State
    decreases |diffs|
  {
    if diffs == [] then s else Fold(SyncDiff(s, diffs[0]), diffs[1..])
  }

  lemma {:induction false} FoldAppend(s: State, a: seq<Diff>, b: seq<Diff>)
    ensures Fold(s, a + b) == Fold(Fold(s, a), b)
    decreases |a|
  {
    if a == [] {
      assert a + b == b;
    } else {
      assert (a + b)[1..] == a[1..] + b;
      FoldAppend(SyncDiff(s, a[0]), a[1..], b);
    }
  }

  lemma {:induction false} SyncAllFolds(s: State, changes: Diff, diffs: seq<Diff>)
    ensures SyncAll(s, changes, diffs).0 == Fold(s, diffs)
    decreases |diffs|
  {
    if diffs != [] {
      SyncAllFolds(SyncDiff(s, diffs[0]), ExtendDiff(changes, diffs[0]), diffs[1..]);
    }
  }

  /** Diffs of a generation the tracker is not synced to wait. */
  lemma {:induction false} DiffsWait(v: Tracker, j: Option<string>, frames: seq<PresenceFrame>)
    requires v.joinRef.None? || v.joinRef != j
    requires forall i :: 0 <= i < |frames| ==> IsDiff(v, frames[i], j)
    ensures ApplyAll(v, frames) == v.(pending := v.pending + DiffsOf(frames))
    decreases |frames|
  {
    if frames == [] {
      assert v.pending + DiffsOf(frames) == v.pending;
    } else {
      var w := Apply(v, frames[0]).0;
      forall i | 0 <= i < |frames[1..]| ensures IsDiff(w, frames[1..][i], j) {
        assert frames[1..][i] == frames[i + 1];
      }
      DiffsWait(w, j, frames[1..]);
      assert [frames[0].asDiff.value] + DiffsOf(frames[1..]) == DiffsOf(frames);
      assert (v.pending + [frames[0].asDiff.value]) + DiffsOf(frames[1..]) == v.pending + DiffsOf(frames);
    }
  }

  /** Diffs of the tracker's own generation apply at once. */
  lemma {:induction false} DiffsApply(v: Tracker, frames: seq<PresenceFrame>)
    requires v.joinRef.Some?
    requires forall i :: 0 <= i < |frames| ==> IsDiff(v, frames[i], v.joinRef)
    ensures ApplyAll(v, frames) == v.(state := Fold(v.state, DiffsOf(frames)))
    decreases |frames|
  {
    if frames == [] {
      assert DiffsOf(frames) == [];
    } else {
      var w := Apply(v, frames[0]).0;
      forall i | 0 <= i < |frames[1..]| ensures IsDiff(w, frames[1..][i], v.joinRef) {
        assert frames[1..][i] == frames[i + 1];
      }
      DiffsApply(w, frames[1..]);
      assert DiffsOf(frames)[1..] == DiffsOf(frames[1..]);
    }
  }

  lemma {:induction false} ApplyAppend(v: Tracker, a: seq<PresenceFrame>, b: seq<PresenceFrame>)
    ensures ApplyAll(v, a + b) == ApplyAll(ApplyAll(v, a), b)
    decreases |a|
  {
    if a == [] {
      assert a + b == b;
    } else {
      assert (a + b)[1..] == a[1..] + b;
      ApplyAppend(Apply(v, a[0]).0, a[1..], b);
    }
  }

  lemma ApplyOne(v: Tracker, f: PresenceFrame)
    ensures ApplyAll(v, [f]) == Apply(v, f).0
  {
    assert [f][1..] == [];
  }

  /** What applying a snapshot and then `diffs` in order would leave. */
  function InOrder(v: Tracker, j: Option<string>, full: State, diffs: seq<Diff>): Tracker {
    v.(state := Fold(SyncState(v.state, full), v.pending + diffs), joinRef := j, pending := [])
  }

  lemma DiffsOfAppend(a: seq<PresenceFrame>, b: seq<PresenceFrame>)
    ensures DiffsOf(a + b) == DiffsOf(a) + DiffsOf(b)
  {}

  /** A snapshot after some diffs of its generation, which were waiting. */
  lemma SnapshotReplays(v: Tracker, j: Option<string>, before: seq<PresenceFrame>, snapshot: PresenceFrame)
    requires v.joinRef.None? || v.joinRef != j
    requires IsSnapshot(v, snapshot, j)
    requires forall i :: 0 <= i < |before| ==> IsDiff(v, before[i], j)
    ensures ApplyAll(v, before + [snapshot]) == InOrder(v, j, snapshot.asState.value, DiffsOf(before))
  {
    var full := snapshot.asState.value;
    ApplyAppend(v, before, [snapshot]);
    DiffsWait(v, j, before);
    var waiting := v.pending + DiffsOf(before);
    ApplyOne(v.(pending := waiting), snapshot);
    SyncAllFolds(SyncState(v.state, full), Changes(v.state, full), waiting);
  }

  lemma Regroup<T>(a: seq<T>, b: seq<T>, c: seq<T>)
    ensures (a + b) + c == a + (b + c)
  {}

  lemma ReplayGoesOn(base: State, waiting: seq<Diff>, diffs: seq<Diff>, more: seq<Diff>)
    ensures Fold(Fold(base, waiting + diffs), more) == Fold(base, waiting + (diffs + more))
  {
    Regroup(waiting, diffs, more);
    FoldAppend(base, waiting + diffs, more);
  }

  /** Diffs after the snapshot of their generation continue where it stopped. */
  lemma DiffsFollow(v: Tracker, j: string, full: State, diffs: seq<Diff>, after: seq<PresenceFrame>)
    requires forall i :: 0 <= i < |after| ==> IsDiff(v, after[i], Some(j))
    ensures ApplyAll(InOrder(v, Some(j), full, diffs), after) == InOrder(v, Some(j), full, diffs + DiffsOf(after))
  {
    var w := InOrder(v, Some(j), full, diffs);
    forall i | 0 <= i < |after| ensures IsDiff(w, after[i], w.joinRef) {
      assert IsDiff(v, after[i], Some(j));
    }
    DiffsApply(w, after);
    ReplayGoesOn(SyncState(v.state, full), v.pending, diffs, DiffsOf(after));
  }

  /** Wherever the snapshot of a generation arrives among its diffs, the tracker ends in
      the same state: the snapshot, then every diff in order. */
  lemma ArrivalOrderIrrelevant(v: Tracker, j: string, before: seq<PresenceFrame>, snapshot: PresenceFrame, after: seq<PresenceFrame>)
    requires v.joinRef != Some(j) && IsSnapshot(v, snapshot, Some(j))
    requires forall i :: 0 <= i < |before| ==> IsDiff(v, before[i], Some(j))
    requires forall i :: 0 <= i < |after| ==> IsDiff(v, after[i], Some(j))
    ensures ApplyAll(v, before + [snapshot] + after) == InOrder(v, Some(j), snapshot.asState.value, DiffsOf(before + after))
  {
    ApplyAppend(v, before + [snapshot], after);
    SnapshotReplays(v, Some(j), before, snapshot);
    DiffsFollow(v, j, snapshot.asState.value, DiffsOf(before), after);
    DiffsOfAppend(before, after);
  }

  const NEW_TRACKER := Tracker(map[], None, [], "presence_state", "presence_diff")
  const ARRIVAL := Diff(map["a" := Entry([], Object(map[]))], map[])

  lemma FirstArrival()
    ensures SyncDiff(map[], ARRIVAL).Keys == {"a"} && SyncState(map[], map[]) == map[] && Changes(map[], map[]) == NO_CHANGES
  {
    assert Changes(map[], map[]) == NO_CHANGES;
  }

  /** Without a generation the diffs after the snapshot wait, whatever the tracker held:
      only a later snapshot would apply them. */
  lemma WithoutGeneration(v: Tracker, before: seq<PresenceFrame>, snapshot: PresenceFrame, after: seq<PresenceFrame>)
    requires IsSnapshot(v, snapshot, None)
    requires forall i :: 0 <= i < |before| ==> IsDiff(v, before[i], None)
    requires forall i :: 0 <= i < |after| ==> IsDiff(v, after[i], None)
    ensures ApplyAll(v, before + [snapshot] + after) ==
            InOrder(v, None, snapshot.asState.value, DiffsOf(before)).(pending := DiffsOf(after))
  {
    ApplyAppend(v, before + [snapshot], after);
    SnapshotReplays(v, None, before, snapshot);
    var w := InOrder(v, None, snapshot.asState.value, DiffsOf(before));
    forall i | 0 <= i < |after| ensures IsDiff(w, after[i], None) {
      assert IsDiff(v, after[i], None);
    }
    DiffsWait(w, None, after);
    assert [] + DiffsOf(after) == DiffsOf(after);
  }

  /** Exactly when the arrival order does not matter: the frames carry a generation, or the
      snapshot comes last. */
  lemma ArrivalOrderIff(v: Tracker, j: Option<string>, before: seq<PresenceFrame>, snapshot: PresenceFrame, after: seq<PresenceFrame>)
    requires v.joinRef.None? || v.joinRef != j
    requires IsSnapshot(v, snapshot, j)
    requires forall i :: 0 <= i < |before| ==> IsDiff(v, before[i], j)
    requires forall i :: 0 <= i < |after| ==> IsDiff(v, after[i], j)
    ensures ApplyAll(v, before + [snapshot] + after) == InOrder(v, j, snapshot.asState.value, DiffsOf(before + after))
            <==> j.Some? || after == []
  {
    if j.Some? {
      ArrivalOrderIrrelevant(v, j.value, before, snapshot, after);
    } else {
      WithoutGeneration(v, before, snapshot, after);
      if after == [] {
        assert before + after == before;
      } else {
        assert |DiffsOf(after)| == |after|;
      }
    }
  }

  /** Without a generation two placements of the snapshot among the same diffs leave
      different trackers. */
  lemma PlacementsDiffer(v: Tracker, snapshot: PresenceFrame, diffs: seq<PresenceFrame>, m: nat, n: nat)
    requires IsSnapshot(v, snapshot, None) && m <= |diffs| && n <= |diffs|
    requires forall i :: 0 <= i < |diffs| ==> IsDiff(v, diffs[i], None)
    ensures ApplyAll(v, diffs[..m] + [snapshot] + diffs[m..]) == ApplyAll(v, diffs[..n] + [snapshot] + diffs[n..]) <==> m == n
  {
    WithoutGeneration(v, diffs[..m], snapshot, diffs[m..]);
    WithoutGeneration(v, diffs[..n], snapshot, diffs[n..]);
    assert |DiffsOf(diffs[m..])| == |diffs| - m && |DiffsOf(diffs[n..])| == |diffs| - n;
  }

  /** The states may differ too: an arrival after an empty snapshot is not shown. */
  lemma GenerationIsNeeded(snapshot: PresenceFrame, diff: PresenceFrame)
    requires IsSnapshot(NEW_TRACKER, snapshot, None) && snapshot.asState.value == map[]
    requires IsDiff(NEW_TRACKER, diff, None) && diff.asDiff.value == ARRIVAL
    ensures ApplyAll(NEW_TRACKER, [diff] + [snapshot] + []).state.Keys == {"a"}
    ensures ApplyAll(NEW_TRACKER, [] + [snapshot] + [diff]).state == map[]
  {
    FirstArrival();
    WithoutGeneration(NEW_TRACKER, [diff], snapshot, []);
    WithoutGeneration(NEW_TRACKER, [], snapshot, [diff]);
    assert DiffsOf([diff]) == [ARRIVAL] && [] + [ARRIVAL] == [ARRIVAL] && [ARRIVAL][1..] == [];
    assert Fold(map[], [ARRIVAL]) == SyncDiff(map[], ARRIVAL);
  }

  // ----- What becomes of a frame -----

  /** Other events are ignored; a presence event is refused if its payload is binary or does
      not decode, and with which error; a diff waits if the tracker does not hold its
      generation; everything else is synced. Only what is synced or waits changes anything. */
  lemma ApplyDecides(v: Tracker, f: PresenceFrame)
    ensures var (w, result) := Apply(v, f);
            if f.event != v.stateEvent && f.event != v.diffEvent then w == v && result == Ok(Ignored)
            else if !f.isJson then w == v && result == Err(BinaryPayload)
            else if f.event == v.stateEvent then
              if f.asState.Err? then w == v && result == Err(f.asState.error)
              else result.Ok? && result.value.Synced? && w == v.(state := w.state, joinRef := f.joinRef, pending := [])
            else if f.asDiff.Err? then w == v && result == Err(f.asDiff.error)
            else if v.joinRef.Some? && f.joinRef.Some? && v.joinRef.value == f.joinRef.value then
              result == Ok(Synced(f.asDiff.value)) && w == v.(state := w.state)
            else result == Ok(Pending) && w == v.(pending := v.pending + [f.asDiff.value])
  {}

  /** A key's references after the diffs, in order. */
  function RefsAfter(refs: set<string>, diffs: seq<Diff>, k: string): set<string>
    decreases |diffs|
  {
    if diffs == [] then refs
    else RefsAfter((refs + RefsOf(diffs[0].joins, k)) - RefsOf(diffs[0].leaves, k), diffs[1..], k)
  }

  lemma {:induction false} FoldRefs(s: State, diffs: seq<Diff>, k: string)
    ensures RefsOf(Fold(s, diffs), k) == RefsAfter(RefsOf(s, k), diffs, k)
    decreases |diffs|
  {
    if diffs != [] {
      DiffAlgebra(s, diffs[0], k);
      FoldRefs(SyncDiff(s, diffs[0]), diffs[1..], k);
    }
  }

  /** What a synced frame makes of a key's references: a snapshot sets them and the diffs
      that waited then apply in order; a diff adds its joins and takes its leaves away. */
  lemma ApplyReaches(v: Tracker, f: PresenceFrame, k: string)
    requires Apply(v, f).1.Ok? && Apply(v, f).1.value.Synced?
    ensures RefsOf(Apply(v, f).0.state, k) ==
            if f.event == v.stateEvent then RefsAfter(RefsOf(f.asState.value, k), v.pending, k)
            else (RefsOf(v.state, k) + RefsOf(f.asDiff.value.joins, k)) - RefsOf(f.asDiff.value.leaves, k)
  {
    if f.event == v.stateEvent {
      var full := f.asState.value;
      SyncAllFolds(SyncState(v.state, full), Changes(v.state, full), v.pending);
      FoldRefs(SyncState(v.state, full), v.pending, k);
      SyncStateReaches(v.state, full, k);
    } else {
      DiffAlgebra(v.state, f.asDiff.value, k);
    }
  }

  /** An update reports every reference it made appear or vanish. */
  lemma UpdatesAreCovered(v: Tracker, f: PresenceFrame)
    ensures var (w, result) := Apply(v, f);
            match result
            case Ok(Synced(changes)) => Covers(v.state, w.state, changes)
            case _ => w.state == v.state
  {
    var (w, result) := Apply(v, f);
    if result.Ok? && result.value.Synced? {
      if f.event == v.stateEvent {
        SnapshotCovers(v.state, f.asState.value, v.pending);
      } else {
        forall k
          ensures RefsOf(w.state, k) - RefsOf(v.state, k) <= RefsOf(f.asDiff.value.joins, k)
          ensures RefsOf(v.state, k) - RefsOf(w.state, k) <= RefsOf(f.asDiff.value.leaves, k) {
          DiffAlgebra(v.state, f.asDiff.value, k);
        }
      }
    }
  }
}

/** The tracker and the two synchronisations as the source writes them: maps and a vector
    updated in loops. */
module PresenceObject {
  import opened Wire
  import opened P = Presence
  import opened T = PresenceTracking

  /** Some whole entries of `all`, each with its references. */
  predicate Part(some: State, all: State) {
    some.Keys <= all.Keys && AllTagged(some) && forall k :: k in some ==> some[k] == all[k]
  }

  /** The entries of `all` whose keys have been handled. */
  ghost function Handled(all: State, todo: set<string>): State {
    map k | k in all && k !in todo :: all[k]
  }

  lemma JoinedSoFar(state: State, joins: State, todo: set<string>, next: State)
    requires todo <= joins.Keys && next.Keys == state.Keys + (joins.Keys - todo)
    requires forall k :: k in joins && k !in todo ==> Tagged(joins[k].metas)
    requires forall k :: k in next ==> next[k] == if k in joins && k !in todo then Joined(state, k, joins[k]) else state[k]
    ensures Part(Handled(joins, todo), joins) && next == AfterJoins(state, Handled(joins, todo))
  {}

  method ApplyJoins(state: State, joins: State) returns (next: State, ok: bool, ghost applied: State)
    ensures ok <==> AllTagged(joins)
    ensures ok <==> applied == joins
    ensures Part(applied, joins) && next == AfterJoins(state, applied)
  {
    next := state;
    var todo := joins.Keys;
    while todo != {}
      invariant todo <= joins.Keys
      invariant forall k :: k in joins && k !in todo ==> Tagged(joins[k].metas)
      invariant next.Keys == state.Keys + (joins.Keys - todo)
      invariant forall k :: k in next ==> next[k] == if k in joins && k !in todo then Joined(state, k, joins[k]) else state[k]
      decreases todo
    {
      var k :| k in todo;
      if !Tagged(joins[k].metas) {
        JoinedSoFar(state, joins, todo, next);
        assert k in joins && k !in Handled(joins, todo);
        return next, false, Handled(joins, todo);
      }
      var merged := joins[k];
      if k in next {
        var existing := Without(next[k].metas, Refs(merged.metas));
        merged := merged.(metas := existing + merged.metas);
      }
      next := next[k := merged];
      todo := todo - {k};
    }
    JoinedSoFar(state, joins, todo, next);
    assert Handled(joins, todo) == joins;
    return next, true, joins;
  }

  method ApplyLeaves(state: State, leaves: State) returns (next: State, ok: bool, ghost applied: State)
    ensures ok <==> AllTagged(leaves)
    ensures ok <==> applied == leaves
    ensures Part(applied, leaves) && next == AfterLeaves(state, applied)
  {
    next := state;
    var todo := leaves.Keys;
    while todo != {}
      invariant todo <= leaves.Keys
      invariant forall k :: k in leaves && k !in todo ==> Tagged(leaves[k].metas)
      invariant forall k :: k in next <==> k in state && (k in leaves && k !in todo ==> Remaining(state, leaves, k) != [])
      invariant forall k :: k in next ==>
                  next[k] == if k in leaves && k !in todo then state[k].(metas := Remaining(state, leaves, k)) else state[k]
      decreases todo
    {
      var k :| k in todo;
      if !Tagged(leaves[k].metas) {
        assert k in leaves && k !in Handled(leaves, todo);
        return next, false, Handled(leaves, todo);
      }
      if k in next {
        var rest := Without(next[k].metas, Refs(leaves[k].metas));
        next := if rest == [] then next - {k} else next[k := next[k].(metas := rest)];
      }
      todo := todo - {k};
    }
    return next, true, leaves;
  }

  /** What a refused diff has done: whole entries, and leaves only after every join. */
  predicate PartOf(applied: Diff, diff: Diff) {
    && Part(applied.joins, diff.joins) && Part(applied.leaves, diff.leaves)
    && (applied.joins != diff.joins ==> applied.leaves == map[])
  }

  /** Applies a diff to `state`. It is refused exactly when a joining or leaving meta has
      no reference; then a part of it has been applied all the same. */
  method SyncDiffInto(state: State, diff: Diff) returns (next: State, ok: bool, ghost applied: Diff)
    ensures ok <==> AllTagged(diff.joins) && AllTagged(diff.leaves)
    ensures ok <==> applied == diff
    ensures PartOf(applied, diff) && next == P.SyncDiff(state, applied)
  {
    ghost var joins: State;
    ghost var leaves: State := map[];
    next, ok, joins := ApplyJoins(state, diff.joins);
    if ok {
      next, ok, leaves := ApplyLeaves(next, diff.leaves);
    } else {
      NoLeaves(next);
    }
    applied := Diff(joins, leaves);
  }

  lemma NoLeaves(s: State)
    ensures AfterLeaves(s, map[]) == s
  {}

  /** The keys that are gone from the full state. */
  method Departed(state: State, full: State) returns (leaves: State)
    ensures leaves == map k | k in state && k !in full :: state[k]
  {
    leaves := map[];
    var todo := state.Keys;
    while todo != {}
      invariant todo <= state.Keys
      invariant leaves == map k | k in state && k !in todo && k !in full :: state[k]
      decreases todo
    {
      var k :| k in todo;
      if k !in full {
        leaves := leaves[k := state[k]];
      }
      todo := todo - {k};
    }
  }

  predicate SharedTagged(state: State, full: State, todo: set<string>) {
    forall k :: k in full && k !in todo && k in state ==> Tagged(full[k].metas) && Tagged(state[k].metas)
  }

  /** `part` is `whole` restricted to the keys not in `todo`. */
  predicate Collected(part: State, whole: State, todo: set<string>) {
    part == map k | k in whole && k !in todo :: whole[k]
  }

  /** Brings `state` to the full state and reports the differences. It is refused exactly
      when some meta has no reference: before anything is applied if the key is in both
      states, otherwise with a part of the differences applied. */
  method SyncStateInto(state: State, full: State) returns (next: State, changes: Diff, ok: bool, ghost applied: Diff)
    ensures ok <==> AllTagged(state) && AllTagged(full)
    ensures ok ==> changes == Changes(state, full) && applied == changes && next == P.SyncState(state, full)
    ensures PartOf(applied, Changes(state, full)) && next == P.SyncDiff(state, applied)
    ensures !SharedTagged(state, full, {}) ==> next == state
  {
    next, changes := state, NO_CHANGES;
    var leaves := Departed(state, full);
    var joins: State := map[];
    var todo := full.Keys;
    assert Collected(leaves, LeavesOf(state, full), todo);
    while todo != {}
      invariant todo <= full.Keys
      invariant SharedTagged(state, full, todo)
      invariant Collected(joins, JoinsOf(state, full), todo) && Collected(leaves, LeavesOf(state, full), todo)
      decreases todo
    {
      var k :| k in todo;
      if k in state && (!Tagged(state[k].metas) || !Tagged(full[k].metas)) {
        Untouched(state, Changes(state, full));
        return state, changes, false, NO_CHANGES;
      }
      joins, leaves := Compare(state, full, k, joins, leaves, todo);
      todo := todo - {k};
    }
    changes := Diff(joins, leaves);
    assert changes == Changes(state, full);
    TaggedIff(state, full);
    next, ok, applied := SyncDiffInto(state, changes);
  }

  lemma Untouched(s: State, diff: Diff)
    ensures PartOf(NO_CHANGES, diff) && P.SyncDiff(s, NO_CHANGES) == s
  {
    assert AfterJoins(s, map[]) == s;
    NoLeaves(s);
  }

  /** Adds one key of the full state to the differences. */
  method Compare(state: State, full: State, k: string, joins: State, leaves: State, ghost todo: set<string>)
    returns (joins': State, leaves': State)
    requires k in full && k in todo
    requires Collected(joins, JoinsOf(state, full), todo) && Collected(leaves, LeavesOf(state, full), todo)
    ensures Collected(joins', JoinsOf(state, full), todo - {k}) && Collected(leaves', LeavesOf(state, full), todo - {k})
  {
    joins', leaves' := joins, leaves;
    if k in state {
      var joined := Without(full[k].metas, Refs(state[k].metas));
      var left := Without(state[k].metas, Refs(full[k].metas));
      if joined != [] {
        joins' := joins[k := full[k].(metas := joined)];
      }
      if left != [] {
        leaves' := leaves[k := state[k].(metas := left)];
      }
      OneMoreCollected(joins, joins', JoinsOf(state, full), todo, k);
      OneMoreCollected(leaves, leaves', LeavesOf(state, full), todo, k);
    } else {
      joins' := joins[k := full[k]];
      OneMoreCollected(joins, joins', JoinsOf(state, full), todo, k);
      OneMoreCollected(leaves, leaves', LeavesOf(state, full), todo, k);
    }
  }

  lemma OneMoreCollected(part: State, more: State, whole: State, todo: set<string>, k: string)
    requires Collected(part, whole, todo) && k in todo
    requires more == if k in whole then part[k := whole[k]] else part
    ensures Collected(more, whole, todo - {k})
  {}

  /** Once the shared keys are tagged, so are the changes exactly when both states are. */
  lemma TaggedIff(state: State, full: State)
    requires forall k :: k in full && k in state ==> Tagged(full[k].metas) && Tagged(state[k].metas)
    ensures AllTagged(JoinsOf(state, full)) && AllTagged(LeavesOf(state, full)) <==> AllTagged(state) && AllTagged(full)
  {
    if AllTagged(state) && AllTagged(full) {
      ChangesAreTagged(state, full);
    }
    if AllTagged(JoinsOf(state, full)) && AllTagged(LeavesOf(state, full)) {
      forall k | k in full ensures Tagged(full[k].metas) {
        if k !in state { assert JoinsOf(state, full)[k] == full[k]; }
      }
      forall k | k in state ensures Tagged(state[k].metas) {
        if k !in full { assert LeavesOf(state, full)[k] == state[k]; }
      }
    }
  }

  method ExtendState(target: State, source: State) returns (next: State)
    ensures next == Extend(target, source)
  {
    next := target;
    var todo := source.Keys;
    while todo != {}
      invariant todo <= source.Keys
      invariant next.Keys == target.Keys + (source.Keys - todo)
      invariant forall k :: k in next ==>
                  next[k] == if k in source && k !in todo then Extend(target, source)[k] else target[k]
      decreases todo
    {
      var k :| k in todo;
      if k in next {
        next := next[k := next[k].(metas := next[k].metas + source[k].metas)];
      } else {
        next := next[k := source[k]];
      }
      todo := todo - {k};
    }
  }

  class PresenceTracker {
    var state: State
    var joinRef: Option<string>
    var pendingDiffs: seq<Diff>
    const stateEvent: string
    const diffEvent: string

    function View(): Tracker
      reads this
    {
      Tracker(state, joinRef, pendingDiffs, stateEvent, diffEvent)
    }

    /** Everything the tracker holds came from decoded frames. */
    predicate Valid()
      reads this
    {
      AllTagged(state) && forall i :: 0 <= i < |pendingDiffs| ==> AllTagged(pendingDiffs[i].joins) && AllTagged(pendingDiffs[i].leaves)
    }

    constructor (stateEvent: string, diffEvent: string)
      ensures Valid() && View() == Tracker(map[], None, [], stateEvent, diffEvent)
    {
      this.stateEvent, this.diffEvent := stateEvent, diffEvent;
      state, joinRef, pendingDiffs := map[], None, [];
    }

    method Reset()
      modifies this
      ensures Valid() && View() == Cleared(old(View()))
    {
      state, joinRef, pendingDiffs := map[], None, [];
    }

    method Apply(f: PresenceFrame) returns (result: Result<Update, PresenceError>)
      requires Valid() && WellDecoded(f)
      modifies this
      ensures Valid() && (View(), result) == T.Apply(old(View()), f)
    {
      if f.event != stateEvent && f.event != diffEvent {
        return Ok(Ignored);
      }
      if !f.isJson {
        return Err(BinaryPayload);
      }
      if f.event == stateEvent {
        if f.asState.Err? {
          return Err(f.asState.error);
        }
        var changes := Replay(f.asState.value);
        joinRef := f.joinRef;
        result := Ok(Synced(changes));
      } else {
        if f.asDiff.Err? {
          return Err(f.asDiff.error);
        }
        var diff := f.asDiff.value;
        if joinRef.None? || joinRef != f.joinRef {
          pendingDiffs := pendingDiffs + [diff];
          result := Ok(Pending);
        } else {
          DiffStaysTagged(state, diff);
          var next, ok, _ := SyncDiffInto(state, diff);
          state := next;
          result := Ok(Synced(diff));
        }
      }
    }

    /** Syncs to a full state and then drains the waiting diffs, in order. */
    method Replay(full: State) returns (changes: Diff)
      requires Valid() && AllTagged(full)
      modifies this`state, this`pendingDiffs
      ensures Valid() && pendingDiffs == []
      ensures (state, changes) == SyncAll(P.SyncState(old(state), full), Changes(old(state), full), old(pendingDiffs))
    {
      ChangesAreTagged(state, full);
      DiffStaysTagged(state, Changes(state, full));
      var next, all, ok, _ := SyncStateInto(state, full);
      state, changes := next, all;
      while pendingDiffs != []
        invariant Valid()
        invariant SyncAll(state, changes, pendingDiffs) == SyncAll(P.SyncState(old(state), full), Changes(old(state), full), old(pendingDiffs))
        decreases |pendingDiffs|
      {
        var diff := pendingDiffs[0];
        DiffStaysTagged(state, diff);
        var synced, fine, _ := SyncDiffInto(state, diff);
        var joins := ExtendState(changes.joins, diff.joins);
        var leaves := ExtendState(changes.leaves, diff.leaves);
        state, changes := synced, Diff(joins, leaves);
        pendingDiffs := pendingDiffs[1..];
      }
    }
  }
}
