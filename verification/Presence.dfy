/** Presence synchronisation: what a full state and an incremental diff do to the
    entries of a presence map, and the set algebra they obey. */
module Presence {
  import opened Wire

  /** One connection's metadata. Decoded metas always carry their `phx_ref`. */
  datatype Meta = Meta(reference: Option<string>, fields: Value)

  datatype Entry = Entry(metas: seq<Meta>, fields: Value)

  type State = map<string, Entry>

  datatype Diff = Diff(joins: State, leaves: State)

  const NO_CHANGES := Diff(map[], map[])

  predicate Tagged(metas: seq<Meta>) {
    forall m :: m in metas ==> m.reference.Some?
  }

  predicate AllTagged(s: State) {
    forall k :: k in s ==> Tagged(s[k].metas)
  }

  /** The reference filters compare; an untagged meta counts as the empty string. */
  function RefOf(m: Meta): string {
    match m.reference
    case Some(r) => r
    case None => ""
  }

  function Refs(metas: seq<Meta>): set<string> {
    set m | m in metas :: RefOf(m)
  }

  function RefsOf(s: State, k: string): set<string> {
    if k in s then Refs(s[k].metas) else {}
  }

  function Without(metas: seq<Meta>, drop: set<string>): seq<Meta>
    decreases |metas|
  {
    if metas == [] then []
    else (if RefOf(metas[0]) in drop then [] else [metas[0]]) + Without(metas[1..], drop)
  }

  // ----- Diffs -----

  /** A joining entry replaces the current one, keeping the metas it does not rejoin. */
  function Joined(s: State, k: string, joined: Entry): Entry {
    if k in s then joined.(metas := Without(s[k].metas, Refs(joined.metas)) + joined.metas) else joined
  }

  function AfterJoins(s: State, joins: State): State {
    map k | k in s.Keys + joins.Keys :: if k in joins then Joined(s, k, joins[k]) else s[k]
  }

  function Remaining(s: State, leaves: State, k: string): seq<Meta>
    requires k in s
  {
    if k in leaves then Without(s[k].metas, Refs(leaves[k].metas)) else s[k].metas
  }

  /** A leaving entry takes its metas away, and the key with the last of them. */
  function AfterLeaves(s: State, leaves: State): State {
    map k | k in s && (k in leaves ==> Remaining(s, leaves, k) != []) :: s[k].(metas := Remaining(s, leaves, k))
  }

  function SyncDiff(s: State, d: Diff): State {
    AfterLeaves(AfterJoins(s, d.joins), d.leaves)
  }

  // ----- Full states -----

  function JoinsOf(s: State, full: State): State {
    map k | k in full && (k in s ==> Without(full[k].metas, RefsOf(s, k)) != []) ::
      if k in s then full[k].(metas := Without(full[k].metas, RefsOf(s, k))) else full[k]
  }

  function LeavesOf(s: State, full: State): State {
    map k | k in s && (k in full ==> Without(s[k].metas, RefsOf(full, k)) != []) ::
      if k in full then s[k].(metas := Without(s[k].metas, RefsOf(full, k))) else s[k]
  }

  function Changes(s: State, full: State): Diff {
    Diff(JoinsOf(s, full), LeavesOf(s, full))
  }

  function SyncState(s: State, full: State): State {
    SyncDiff(s, Changes(s, full))
  }

  /** A meta without a reference and one with an empty reference are the same connection. */
  lemma UntaggedIsEmpty(untagged: Meta, joined: Meta, key: string, fields: Value)
    requires untagged.reference.None? && joined.reference == Some("")
    ensures SyncDiff(map[key := Entry([untagged], fields)], Diff(map[key := Entry([joined], fields)], map[])) ==
            map[key := Entry([joined], fields)]
  {
    assert joined in [joined] && Refs([joined]) == {""};
    assert [untagged][1..] == [] && Without([untagged], {""}) == [];
    assert [] + [joined] == [joined];
  }

  // ----- Filters -----

  lemma {:induction false} WithoutRefs(metas: seq<Meta>, drop: set<string>)
    ensures Refs(Without(metas, drop)) == Refs(metas) - drop
    ensures forall m :: m in Without(metas, drop) <==> m in metas && RefOf(m) !in drop
    decreases |metas|
  {
    if metas != [] {
      WithoutRefs(metas[1..], drop);
      assert metas == [metas[0]] + metas[1..];
    }
  }

  lemma {:induction false} WithoutAppend(a: seq<Meta>, b: seq<Meta>, drop: set<string>)
    ensures Without(a + b, drop) == Without(a, drop) + Without(b, drop)
    decreases |a|
  {
    if a == [] {
      assert a + b == b;
    } else {
      assert (a + b)[1..] == a[1..] + b;
      WithoutAppend(a[1..], b, drop);
    }
  }

  lemma {:induction false} WithoutTwice(metas: seq<Meta>, a: set<string>, b: set<string>)
    ensures Without(Without(metas, a), b) == Without(metas, a + b)
    decreases |metas|
  {
    if metas != [] {
      WithoutTwice(metas[1..], a, b);
      var rest := Without(metas[1..], a);
      if RefOf(metas[0]) in a {
        assert [] + rest == rest;
      } else {
        assert ([metas[0]] + rest)[1..] == rest;
      }
    }
  }

  lemma {:induction false} WithoutNothing(metas: seq<Meta>, drop: set<string>)
    requires Refs(metas) !! drop
    ensures Without(metas, drop) == metas
    decreases |metas|
  {
    if metas != [] {
      assert metas[0] in metas;
      assert forall m :: m in metas[1..] ==> m in metas;
      WithoutNothing(metas[1..], drop);
    }
  }

  lemma WithoutEverything(metas: seq<Meta>, drop: set<string>)
    ensures Without(metas, drop) == [] <==> Refs(metas) <= drop
  {
    WithoutRefs(metas, drop);
    NoRefs(Without(metas, drop));
  }

  lemma AppendRefs(a: seq<Meta>, b: seq<Meta>)
    ensures Refs(a + b) == Refs(a) + Refs(b)
  {}

  lemma NoRefs(metas: seq<Meta>)
    ensures Refs(metas) == {} <==> metas == []
  {
    if metas != [] {
      assert metas[0] in metas;
      assert RefOf(metas[0]) in Refs(metas);
    }
  }

  // ----- A diff is set algebra on references -----

  lemma JoinRefs(s: State, joins: State, k: string)
    ensures RefsOf(AfterJoins(s, joins), k) == RefsOf(s, k) + RefsOf(joins, k)
  {
    if k in s && k in joins {
      WithoutRefs(s[k].metas, Refs(joins[k].metas));
      AppendRefs(Without(s[k].metas, Refs(joins[k].metas)), joins[k].metas);
    }
  }

  lemma LeaveRefs(s: State, leaves: State, k: string)
    ensures RefsOf(AfterLeaves(s, leaves), k) == RefsOf(s, k) - RefsOf(leaves, k)
  {
    if k in s && k in leaves {
      WithoutRefs(s[k].metas, Refs(leaves[k].metas));
    }
  }

  /** On (key, reference) pairs a diff adds its joins, then takes its leaves away. */
  lemma DiffAlgebra(s: State, d: Diff, k: string)
    ensures RefsOf(SyncDiff(s, d), k) == (RefsOf(s, k) + RefsOf(d.joins, k)) - RefsOf(d.leaves, k)
  {
    JoinRefs(s, d.joins, k);
    LeaveRefs(AfterJoins(s, d.joins), d.leaves, k);
  }

  /** Joining again after the leaves changes nothing the leaves would not undo. */
  lemma EntryIdempotent(prior: seq<Meta>, joined: seq<Meta>, left: set<string>)
    ensures var once := Without(Without(prior, Refs(joined)) + joined, left);
            Without(Without(once, Refs(joined)) + joined, left) == once
  {
    var kept := Without(prior, Refs(joined));
    var once := Without(kept + joined, left);
    WithoutAppend(kept, joined, left);
    WithoutTwice(prior, Refs(joined), left);
    WithoutTwice(prior, left, Refs(joined));
    assert Refs(joined) + left == left + Refs(joined);
    // once, without the joined references, is `prior` without both sets
    WithoutAppend(Without(kept, left), Without(joined, left), Refs(joined));
    WithoutTwice(prior, Refs(joined) + left, Refs(joined));
    assert (Refs(joined) + left) + Refs(joined) == Refs(joined) + left;
    WithoutRefs(joined, left);
    WithoutEverything(Without(joined, left), Refs(joined));
    assert Without(once, Refs(joined)) == Without(prior, Refs(joined) + left);
    // dropping `left` again leaves it alone
    WithoutAppend(Without(prior, Refs(joined) + left), joined, left);
    WithoutTwice(prior, Refs(joined) + left, left);
    assert (Refs(joined) + left) + left == Refs(joined) + left;
  }

  /** A joining entry whose metas all leave again, joined and left once more. */
  lemma VanishedStaysVanished(prior: seq<Meta>, joined: seq<Meta>, left: set<string>)
    requires Without(Without(prior, Refs(joined)) + joined, left) == []
    ensures Without(joined, left) == []
  {
    WithoutAppend(Without(prior, Refs(joined)), joined, left);
  }

  /** Applying a diff again changes nothing. */
  lemma DiffIdempotent(s: State, d: Diff)
    ensures SyncDiff(SyncDiff(s, d), d) == SyncDiff(s, d)
  {
    var once := SyncDiff(s, d);
    var twice := SyncDiff(once, d);
    forall k ensures (k in twice <==> k in once) && (k in once ==> twice[k] == once[k]) {
      KeyIdempotent(s, d, k);
    }
  }

  lemma KeyIdempotent(s: State, d: Diff, k: string)
    ensures var once, twice := SyncDiff(s, d), SyncDiff(SyncDiff(s, d), d);
            (k in twice <==> k in once) && (k in once ==> twice[k] == once[k])
  {
    if k in d.joins && k in s {
      var prior, joined, left := s[k].metas, d.joins[k].metas, RefsOf(d.leaves, k);
      WithoutNothing(Without(prior, Refs(joined)) + joined, {});
      if k in d.leaves {
        EntryIdempotent(prior, joined, left);
        if Without(Without(prior, Refs(joined)) + joined, left) == [] {
          VanishedStaysVanished(prior, joined, left);
        }
      } else {
        EntryIdempotent(prior, joined, {});
        var merged := Without(prior, Refs(joined)) + joined;
        WithoutNothing(Without(merged, Refs(joined)) + joined, {});
      }
    } else if k in d.joins {
      var joined, left := d.joins[k].metas, RefsOf(d.leaves, k);
      WithoutEverything(joined, Refs(joined));
      assert [] + joined == joined;
      if k in d.leaves {
        WithoutRefs(joined, left);
        WithoutEverything(Without(joined, left), Refs(joined));
      }
    } else if k in s && k in d.leaves {
      WithoutTwice(s[k].metas, Refs(d.leaves[k].metas), Refs(d.leaves[k].metas));
      assert Refs(d.leaves[k].metas) + Refs(d.leaves[k].metas) == Refs(d.leaves[k].metas);
    }
  }

  // ----- Well-formed entries stay well-formed -----

  predicate Distinct(metas: seq<Meta>) {
    forall i, j :: 0 <= i < j < |metas| ==> RefOf(metas[i]) != RefOf(metas[j])
  }

  /** No entry is empty and no key lists a reference twice. */
  predicate Proper(s: State) {
    forall k :: k in s ==> s[k].metas != [] && Distinct(s[k].metas)
  }

  lemma {:induction false} WithoutDistinct(metas: seq<Meta>, drop: set<string>)
    requires Distinct(metas)
    ensures Distinct(Without(metas, drop))
    decreases |metas|
  {
    if metas != [] {
      var tail := metas[1..];
      assert forall i :: 0 <= i < |tail| ==> tail[i] == metas[i + 1];
      WithoutDistinct(tail, drop);
      WithoutRefs(tail, drop);
      var rest := Without(tail, drop);
      forall i | 0 <= i < |rest| ensures RefOf(rest[i]) != RefOf(metas[0]) {
        assert rest[i] in rest;
        var j :| 0 <= j < |tail| && tail[j] == rest[i];
        assert metas[j + 1] == rest[i];
      }
    }
  }

  lemma DiffStaysProper(s: State, d: Diff)
    requires Proper(s) && Proper(d.joins)
    ensures Proper(SyncDiff(s, d))
  {
    var mid := AfterJoins(s, d.joins);
    forall k | k in mid ensures mid[k].metas != [] && Distinct(mid[k].metas) {
      if k in s && k in d.joins {
        var kept, joined := Without(s[k].metas, Refs(d.joins[k].metas)), d.joins[k].metas;
        WithoutDistinct(s[k].metas, Refs(joined));
        WithoutRefs(s[k].metas, Refs(joined));
        forall i, j | 0 <= i < |kept| && 0 <= j < |joined| ensures RefOf(kept[i]) != RefOf(joined[j]) {
          assert kept[i] in kept && joined[j] in joined;
        }
      }
    }
    forall k | k in SyncDiff(s, d) ensures SyncDiff(s, d)[k].metas != [] && Distinct(SyncDiff(s, d)[k].metas) {
      if k in d.leaves { WithoutDistinct(mid[k].metas, Refs(d.leaves[k].metas)); }
    }
  }

  // ----- A full state is reached exactly -----

  /** The reported joins and leaves are exactly the two differences of references. */
  lemma ChangesAreDifferences(s: State, full: State, k: string)
    ensures RefsOf(JoinsOf(s, full), k) == RefsOf(full, k) - RefsOf(s, k)
    ensures RefsOf(LeavesOf(s, full), k) == RefsOf(s, k) - RefsOf(full, k)
  {
    if k in s && k in full {
      WithoutRefs(full[k].metas, RefsOf(s, k));
      WithoutRefs(s[k].metas, RefsOf(full, k));
    }
  }

  /** What is reported of a key: the new metas as the full state has them with its fields,
      and the metas that are gone as the old state had them with its own. */
  lemma ReportedEntries(s: State, full: State, k: string)
    ensures var joins, leaves := Changes(s, full).joins, Changes(s, full).leaves;
            && (k in joins <==> k in full && (k !in s || !(Refs(full[k].metas) <= Refs(s[k].metas))))
            && (k in joins ==> joins[k].fields == full[k].fields)
            && (k in joins ==> forall m :: m in joins[k].metas <==> m in full[k].metas && (k in s ==> RefOf(m) !in Refs(s[k].metas)))
            && (k in leaves <==> k in s && (k !in full || !(Refs(s[k].metas) <= Refs(full[k].metas))))
            && (k in leaves ==> leaves[k].fields == s[k].fields)
            && (k in leaves ==> forall m :: m in leaves[k].metas <==> m in s[k].metas && (k in full ==> RefOf(m) !in Refs(full[k].metas)))
  {
    if k in s && k in full {
      WithoutRefs(full[k].metas, Refs(s[k].metas));
      WithoutRefs(s[k].metas, Refs(full[k].metas));
      WithoutEverything(full[k].metas, Refs(s[k].metas));
      WithoutEverything(s[k].metas, Refs(full[k].metas));
    }
  }

  /** Whatever the entries, each key ends with exactly the new state's references. */
  lemma SyncStateReaches(s: State, full: State, k: string)
    ensures RefsOf(SyncState(s, full), k) == RefsOf(full, k)
  {
    DiffAlgebra(s, Changes(s, full), k);
    ChangesAreDifferences(s, full, k);
  }

  /** The full state brings an emptied entry for a key that still has metas. */
  predicate Empties(s: State, full: State, k: string) {
    k in s && k in full && full[k].metas == [] && s[k].metas != []
  }

  lemma KeyReached(s: State, full: State, k: string)
    ensures k in SyncState(s, full) <==> k in full && !Empties(s, full, k)
  {
    var changes := Changes(s, full);
    var mid := AfterJoins(s, changes.joins);
    JoinRefs(s, changes.joins, k);
    ChangesAreDifferences(s, full, k);
    NoRefs(if k in full then full[k].metas else []);
    if k in mid && k in changes.leaves {
      WithoutEverything(mid[k].metas, Refs(changes.leaves[k].metas));
      if k in full {
        WithoutEverything(s[k].metas, RefsOf(full, k));
      }
    }
    if k in s && k in full {
      WithoutEverything(s[k].metas, RefsOf(full, k));
      NoRefs(s[k].metas);
    }
  }

  /** The keys are exactly the new state's keys if and only if no entry is emptied. */
  lemma SyncStateKeysIff(s: State, full: State)
    ensures SyncState(s, full).Keys == full.Keys <==> forall k :: !Empties(s, full, k)
  {
    forall k ensures k in SyncState(s, full) <==> k in full && !Empties(s, full, k) {
      KeyReached(s, full, k);
    }
    if SyncState(s, full).Keys == full.Keys {
      forall k ensures !Empties(s, full, k) {
        assert k in SyncState(s, full).Keys <==> k in full.Keys;
      }
    }
  }

  /** Syncing the same full state again reports nothing, under the same condition. */
  lemma SecondSyncIsSilentIff(s: State, full: State)
    ensures Changes(SyncState(s, full), full) == NO_CHANGES <==> forall k :: !Empties(s, full, k)
  {
    var t := SyncState(s, full);
    forall k ensures k in JoinsOf(t, full) <==> Empties(s, full, k) {
      KeyReached(s, full, k);
      SyncStateReaches(s, full, k);
      if k in t && k in full { WithoutEverything(full[k].metas, RefsOf(t, k)); }
    }
    forall k ensures k !in LeavesOf(t, full) {
      KeyReached(s, full, k);
      SyncStateReaches(s, full, k);
      if k in t && k in full { WithoutEverything(t[k].metas, RefsOf(full, k)); }
    }
    if forall k :: !Empties(s, full, k) {
      assert JoinsOf(t, full) == map[] && LeavesOf(t, full) == map[];
    } else {
      var k :| Empties(s, full, k);
      assert k in JoinsOf(t, full);
    }
  }

  // ----- When a full state really replaces the old one -----

  /** The metas of `k` that stay, in the old state's order and with its contents. */
  function Kept(s: State, full: State, k: string): seq<Meta>
    requires k in s && k in full
  {
    Without(s[k].metas, Refs(s[k].metas) - Refs(full[k].metas))
  }

  /** The metas of `k` that are new, as the full state has them. */
  function New(s: State, full: State, k: string): seq<Meta>
    requires k in s && k in full
  {
    Without(full[k].metas, Refs(s[k].metas))
  }

  lemma AfterJoinsEntry(s: State, full: State, k: string)
    requires k in s && k in full
    ensures var mid := AfterJoins(s, JoinsOf(s, full));
            && k in mid && mid[k].metas == s[k].metas + New(s, full, k)
            && mid[k].fields == if New(s, full, k) == [] then s[k].fields else full[k].fields
  {
    WithoutRefs(full[k].metas, Refs(s[k].metas));
    WithoutNothing(s[k].metas, Refs(New(s, full, k)));
    assert s[k].metas + [] == s[k].metas;
  }

  lemma RemainingIsKept(s: State, full: State, k: string)
    requires k in s && k in full
    ensures Without(s[k].metas + New(s, full, k), Refs(s[k].metas) - Refs(full[k].metas)) == Kept(s, full, k) + New(s, full, k)
  {
    var gone := Refs(s[k].metas) - Refs(full[k].metas);
    WithoutAppend(s[k].metas, New(s, full, k), gone);
    WithoutRefs(full[k].metas, Refs(s[k].metas));
    WithoutNothing(New(s, full, k), gone);
  }

  /** What becomes of a key both states have: the retained metas as they were, then the
      new ones; the other fields change only when a meta is new. */
  lemma SyncStateEntry(s: State, full: State, k: string)
    requires k in s && k in full && !Empties(s, full, k)
    ensures k in SyncState(s, full)
    ensures SyncState(s, full)[k] ==
            Entry(Kept(s, full, k) + New(s, full, k), if New(s, full, k) == [] then s[k].fields else full[k].fields)
  {
    KeyReached(s, full, k);
    AfterJoinsEntry(s, full, k);
    RemainingIsKept(s, full, k);
    var gone := Refs(s[k].metas) - Refs(full[k].metas);
    WithoutRefs(s[k].metas, Refs(full[k].metas));
    if k !in LeavesOf(s, full) {
      WithoutEverything(s[k].metas, Refs(full[k].metas));
      assert gone == {};
      WithoutNothing(s[k].metas + New(s, full, k), {});
    }
  }

  lemma NewKeyIsCopied(s: State, full: State, k: string)
    requires k !in s && k in full
    ensures k in SyncState(s, full) && SyncState(s, full)[k] == full[k]
  {}

  /** The entry of `k` comes out as the full state has it: nothing is emptied, the retained
      metas are the same in content and order, and either some meta is new or the other
      fields have not changed. */
  predicate Copied(s: State, full: State, k: string)
    requires k in s && k in full
  {
    && !Empties(s, full, k)
    && Kept(s, full, k) + New(s, full, k) == full[k].metas
    && (New(s, full, k) == [] ==> s[k].fields == full[k].fields)
  }

  lemma KeyCopiedIff(s: State, full: State, k: string)
    requires k in s && k in full
    ensures Copied(s, full, k) <==> k in SyncState(s, full) && SyncState(s, full)[k] == full[k]
  {
    KeyReached(s, full, k);
    if !Empties(s, full, k) {
      SyncStateEntry(s, full, k);
    }
  }

  /** Every key comes out as the full state has it, if those in both states do. */
  lemma KeyReplacedIff(s: State, full: State, k: string)
    ensures (k in SyncState(s, full) <==> k in full) && (k in full ==> SyncState(s, full)[k] == full[k])
            <==> (k in s && k in full ==> Copied(s, full, k))
  {
    KeyReached(s, full, k);
    if k in full {
      if k in s {
        KeyCopiedIff(s, full, k);
      } else {
        NewKeyIsCopied(s, full, k);
      }
    }
  }

  /** Exactly when syncing replaces the state by the full one, as it is documented to. */
  lemma SyncStateReplacesIff(s: State, full: State)
    ensures SyncState(s, full) == full <==> forall k :: k in s && k in full ==> Copied(s, full, k)
  {
    var t := SyncState(s, full);
    forall k ensures (k in t <==> k in full) && (k in full ==> t[k] == full[k]) <==> (k in s && k in full ==> Copied(s, full, k)) {
      KeyReplacedIff(s, full, k);
    }
    SameEntries(t, full);
  }

  lemma SameEntries(t: State, full: State)
    ensures t == full <==> forall k :: (k in t <==> k in full) && (k in full ==> t[k] == full[k])
  {}

  lemma OneRef(m: Meta)
    ensures Refs([m]) == {RefOf(m)}
  {
    assert m in [m];
  }

  /** An entry that arrives emptied is dropped. */
  lemma EmptiedEntryIsDropped(m: Meta, fields: Value)
    ensures var s, full := map["a" := Entry([m], fields)], map["a" := Entry([], fields)];
            SyncState(s, full) == map[] && SyncState(s, full) != full
  {
    var s, full := map["a" := Entry([m], fields)], map["a" := Entry([], fields)];
    assert m in s["a"].metas;
    assert Empties(s, full, "a");
    forall k ensures k !in SyncState(s, full) {
      KeyReached(s, full, k);
    }
  }

  /** An entry whose references have not changed stays as it was, whatever else the full
      state says of it. */
  lemma SameRefsStayStale(s: State, full: State, k: string)
    requires k in s && k in full && s[k].metas != [] && Refs(s[k].metas) == Refs(full[k].metas)
    ensures k in SyncState(s, full) && SyncState(s, full)[k] == s[k]
  {
    NoRefs(s[k].metas);
    NoRefs(full[k].metas);
    SyncStateEntry(s, full, k);
    WithoutEverything(full[k].metas, Refs(s[k].metas));
    WithoutNothing(s[k].metas, {});
    assert Refs(s[k].metas) - Refs(full[k].metas) == {};
    assert s[k].metas + [] == s[k].metas;
  }

  /** A retained meta keeps its old contents, and its entry the old fields. */
  lemma RetainedMetaIsStale(r: string, prior: Value, update: Value)
    requires prior != update
    ensures var s, full := map["a" := Entry([Meta(Some(r), prior)], prior)], map["a" := Entry([Meta(Some(r), update)], update)];
            SyncState(s, full) != full
  {
    var m, n := Meta(Some(r), prior), Meta(Some(r), update);
    var s, full := map["a" := Entry([m], prior)], map["a" := Entry([n], update)];
    OneRef(m);
    OneRef(n);
    SameRefsStayStale(s, full, "a");
  }

  // ----- Collected changes -----

  /** Appends the metas of `more` to those already collected under each key. */
  function Extend(s: State, more: State): State {
    map k | k in s.Keys + more.Keys ::
      if k !in s then more[k] else if k in more then s[k].(metas := s[k].metas + more[k].metas) else s[k]
  }

  function ExtendDiff(d: Diff, more: Diff): Diff {
    Diff(Extend(d.joins, more.joins), Extend(d.leaves, more.leaves))
  }

  /** Collecting keeps every meta, the earlier ones first, and an entry's first fields. */
  lemma ExtendEntry(s: State, more: State, k: string)
    ensures var t := Extend(s, more);
            && (k in t <==> k in s || k in more)
            && (k in t ==> t[k].metas == (if k in s then s[k].metas else []) + (if k in more then more[k].metas else []))
            && (k in t ==> t[k].fields == if k in s then s[k].fields else more[k].fields)
  {}

  lemma ExtendRefs(s: State, more: State, k: string)
    ensures RefsOf(Extend(s, more), k) == RefsOf(s, k) + RefsOf(more, k)
  {
    if k in s && k in more {
      AppendRefs(s[k].metas, more[k].metas);
    }
  }

  /** Applies the diffs in order, collecting what they report. */
  function SyncAll(s: State, changes: Diff, diffs: seq<Diff>): (State, Diff)
    decreases |diffs|
  {
    if diffs == [] then (s, changes)
    else SyncAll(SyncDiff(s, diffs[0]), ExtendDiff(changes, diffs[0]), diffs[1..])
  }

  /** Whatever appeared since `s` is among the collected joins, whatever vanished among
      the collected leaves. */
  ghost predicate Covers(s: State, t: State, changes: Diff) {
    forall k :: RefsOf(t, k) - RefsOf(s, k) <= RefsOf(changes.joins, k) && RefsOf(s, k) - RefsOf(t, k) <= RefsOf(changes.leaves, k)
  }

  lemma DiffCovers(s: State, t: State, changes: Diff, d: Diff)
    requires Covers(s, t, changes)
    ensures Covers(s, SyncDiff(t, d), ExtendDiff(changes, d))
  {
    forall k
      ensures RefsOf(SyncDiff(t, d), k) - RefsOf(s, k) <= RefsOf(ExtendDiff(changes, d).joins, k)
      ensures RefsOf(s, k) - RefsOf(SyncDiff(t, d), k) <= RefsOf(ExtendDiff(changes, d).leaves, k)
    {
      DiffAlgebra(t, d, k);
      ExtendRefs(changes.joins, d.joins, k);
      ExtendRefs(changes.leaves, d.leaves, k);
    }
  }

  lemma {:induction false} SyncAllCovers(s: State, t: State, changes: Diff, diffs: seq<Diff>)
    requires Covers(s, t, changes)
    ensures Covers(s, SyncAll(t, changes, diffs).0, SyncAll(t, changes, diffs).1)
    decreases |diffs|
  {
    if diffs != [] {
      DiffCovers(s, t, changes, diffs[0]);
      SyncAllCovers(s, SyncDiff(t, diffs[0]), ExtendDiff(changes, diffs[0]), diffs[1..]);
    }
  }

  /** A full state followed by the diffs that waited for it reports every reference that
      appeared and every one that vanished. */
  lemma SnapshotCovers(s: State, full: State, diffs: seq<Diff>)
    ensures var (t, changes) := SyncAll(SyncState(s, full), Changes(s, full), diffs); Covers(s, t, changes)
  {
    forall k
      ensures RefsOf(SyncState(s, full), k) - RefsOf(s, k) <= RefsOf(Changes(s, full).joins, k)
      ensures RefsOf(s, k) - RefsOf(SyncState(s, full), k) <= RefsOf(Changes(s, full).leaves, k)
    {
      SyncStateReaches(s, full, k);
      ChangesAreDifferences(s, full, k);
    }
    SyncAllCovers(s, SyncState(s, full), Changes(s, full), diffs);
  }

  // ----- Tagged entries stay tagged -----

  lemma WithoutTagged(metas: seq<Meta>, drop: set<string>)
    requires Tagged(metas)
    ensures Tagged(Without(metas, drop))
  {
    WithoutRefs(metas, drop);
  }

  lemma DiffStaysTagged(s: State, d: Diff)
    requires AllTagged(s) && AllTagged(d.joins)
    ensures AllTagged(SyncDiff(s, d))
  {
    var mid := AfterJoins(s, d.joins);
    forall k | k in mid ensures Tagged(mid[k].metas) {
      if k in s && k in d.joins { WithoutTagged(s[k].metas, Refs(d.joins[k].metas)); }
    }
    forall k | k in SyncDiff(s, d) ensures Tagged(SyncDiff(s, d)[k].metas) {
      if k in d.leaves { WithoutTagged(mid[k].metas, Refs(d.leaves[k].metas)); }
    }
  }

  lemma ChangesAreTagged(s: State, full: State)
    requires AllTagged(s) && AllTagged(full)
    ensures AllTagged(JoinsOf(s, full)) && AllTagged(LeavesOf(s, full))
  {
    forall k | k in JoinsOf(s, full) ensures Tagged(JoinsOf(s, full)[k].metas) {
      WithoutTagged(full[k].metas, RefsOf(s, k));
    }
    forall k | k in LeavesOf(s, full) ensures Tagged(LeavesOf(s, full)[k].metas) {
      WithoutTagged(s[k].metas, RefsOf(full, k));
    }
  }
}
