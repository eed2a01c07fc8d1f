/** Asset snapshots: their comparison, and what is left after replaying the changes. */
module Assets {
  import opened Strings
  import opened Order
  import opened Wrappers

  datatype State = State(kind: string, value: string, source: string, metadata: string)

  datatype Coverage = Coverage(capability: string, successful: bool, complete: bool)

  datatype ChangeKind = New | Changed | Removed

  datatype Change = Change(kind: ChangeKind, assetType: string, value: string, before: Option<State>, after: Option<State>)

  type Index = map<string, State>

  function Key(s: State): string {
    s.kind + "\0" + s.value
  }

  function ChangeKey(c: Change): string {
    c.assetType + "\0" + c.value
  }

  /** Equal as JSON or, when one of them is not JSON, as text. `decode` gives the
      meaning of a JSON text. */
  predicate SameMetadata(decode: string -> Option<string>, a: string, b: string) {
    if decode(a).None? || decode(b).None? then a == b else decode(a) == decode(b)
  }

  function IndexOf(states: seq<State>): Index {
    if states == [] then map[]
    else IndexOf(states[..|states| - 1])[Key(states[|states| - 1]) := states[|states| - 1]]
  }

  method BuildIndex(states: seq<State>) returns (out: Index)
    ensures out == IndexOf(states)
  {
    out := map[];
    for i := 0 to |states|
      invariant out == IndexOf(states[..i])
    {
      assert states[..i + 1][..i] == states[..i];
      out := out[Key(states[i]) := states[i]];
    }
    assert states[..|states|] == states;
  }

  ghost predicate IsIndex(m: Index) {
    forall k :: k in m ==> Key(m[k]) == k
  }

  /** An index holds, for each key, the last state that has it. */
  lemma {:induction false} LastStateWins(states: seq<State>, k: string)
    ensures IsIndex(IndexOf(states))
    ensures k in IndexOf(states) <==> exists i :: 0 <= i < |states| && Key(states[i]) == k
    ensures k in IndexOf(states) ==>
      exists i :: 0 <= i < |states| && states[i] == IndexOf(states)[k] && forall j :: i < j < |states| ==> Key(states[j]) != k
  {
    if states != [] {
      var init, last := states[..|states| - 1], states[|states| - 1];
      LastStateWins(init, k);
      if Key(last) == k {
        assert states[|states| - 1] == IndexOf(states)[k];
      } else if k in IndexOf(init) {
        var i :| 0 <= i < |init| && init[i] == IndexOf(init)[k] && forall j :: i < j < |init| ==> Key(init[j]) != k;
        assert states[i] == IndexOf(states)[k];
        assert forall j :: i < j < |states| ==> states[j] == if j < |init| then init[j] else last;
      }
    }
  }

  /** The last entry for a capability decides. */
  function Covered(coverage: seq<Coverage>, capability: string): bool {
    if coverage == [] then false
    else
      var last := coverage[|coverage| - 1];
      if last.capability == capability then last.successful && last.complete else Covered(coverage[..|coverage| - 1], capability)
  }

  /** What happened to the asset with key `k`. */
  function ChangeAt(decode: string -> Option<string>, prev: Index, cur: Index, coverage: seq<Coverage>, k: string): Option<Change> {
    if k in cur then
      if k !in prev then Some(Change(New, cur[k].kind, cur[k].value, None, Some(cur[k])))
      else if !SameMetadata(decode, prev[k].metadata, cur[k].metadata)
      then Some(Change(Changed, cur[k].kind, cur[k].value, Some(prev[k]), Some(cur[k])))
      else None
    else if k in prev && Covered(coverage, prev[k].source)
    then Some(Change(Removed, prev[k].kind, prev[k].value, Some(prev[k]), None))
    else None
  }

  function KindRank(kind: ChangeKind): nat {
    match kind case Changed => 0 case New => 1 case Removed => 2
  }

  /** By kind ("changed", "new", "removed"), then by value. */
  predicate ChangeLess(a: Change, b: Change) {
    if a.kind == b.kind then StrLess(a.value, b.value) else KindRank(a.kind) < KindRank(b.kind)
  }

  /** The changes between two indexes, one for each key that changed, in some order. */
  ghost predicate AreChanges(decode: string -> Option<string>, prev: Index, cur: Index, coverage: seq<Coverage>, out: seq<Change>) {
    && (forall i, j :: 0 <= i < j < |out| ==> ChangeKey(out[i]) != ChangeKey(out[j]))
    && (forall c {:trigger c in out} :: c in out <==> ChangeAt(decode, prev, cur, coverage, ChangeKey(c)) == Some(c))
  }

  lemma ChangeHasKey(decode: string -> Option<string>, prev: Index, cur: Index, coverage: seq<Coverage>, k: string)
    requires IsIndex(prev) && IsIndex(cur)
    ensures ChangeAt(decode, prev, cur, coverage, k).Some? ==> ChangeKey(ChangeAt(decode, prev, cur, coverage, k).value) == k
  {}

  /** The same while the keys in `left` have still to be looked at. */
  ghost predicate ChangesBut(decode: string -> Option<string>, prev: Index, cur: Index, coverage: seq<Coverage>, left: set<string>, out: seq<Change>) {
    && (forall i, j :: 0 <= i < j < |out| ==> ChangeKey(out[i]) != ChangeKey(out[j]))
    && (forall c {:trigger c in out} :: c in out <==> ChangeKey(c) !in left && ChangeAt(decode, prev, cur, coverage, ChangeKey(c)) == Some(c))
  }

  lemma OneMore(decode: string -> Option<string>, prev: Index, cur: Index, coverage: seq<Coverage>, left: set<string>, out: seq<Change>, k: string)
    requires IsIndex(prev) && IsIndex(cur) && k in left && ChangesBut(decode, prev, cur, coverage, left, out)
    ensures var c := ChangeAt(decode, prev, cur, coverage, k);
            ChangesBut(decode, prev, cur, coverage, left - {k}, if c.Some? then out + [c.value] else out)
  {
    ChangeHasKey(decode, prev, cur, coverage, k);
    var c := ChangeAt(decode, prev, cur, coverage, k);
    if c.Some? {
      forall i | 0 <= i < |out| ensures ChangeKey(out[i]) != k { assert out[i] in out; }
    }
  }

  lemma OneMoreOf(decode: string -> Option<string>, prev: Index, cur: Index, coverage: seq<Coverage>, left: set<string>, others: set<string>, out: seq<Change>, k: string)
    requires IsIndex(prev) && IsIndex(cur) && k in left && k !in others && ChangesBut(decode, prev, cur, coverage, left + others, out)
    ensures var c := ChangeAt(decode, prev, cur, coverage, k);
            ChangesBut(decode, prev, cur, coverage, (left - {k}) + others, if c.Some? then out + [c.value] else out)
  {
    OneMore(decode, prev, cur, coverage, left + others, out, k);
    assert (left - {k}) + others == left + others - {k};
  }

  lemma NothingYet(decode: string -> Option<string>, prev: Index, cur: Index, coverage: seq<Coverage>)
    ensures ChangesBut(decode, prev, cur, coverage, cur.Keys + (prev.Keys - cur.Keys), [])
  {}

  method CoveredMap(coverage: seq<Coverage>) returns (covered: map<string, bool>)
    ensures forall x {:trigger Covered(coverage, x)} :: (x in covered && covered[x]) == Covered(coverage, x)
  {
    covered := map[];
    for i := 0 to |coverage|
      invariant forall x :: (x in covered && covered[x]) == Covered(coverage[..i], x)
    {
      assert coverage[..i + 1][..i] == coverage[..i];
      covered := covered[coverage[i].capability := coverage[i].successful && coverage[i].complete];
    }
    assert coverage[..|coverage|] == coverage;
  }

  method Present(decode: string -> Option<string>, prev: Index, cur: Index, ghost coverage: seq<Coverage>, out: seq<Change>, k: string) returns (out': seq<Change>)
    requires k in cur
    ensures out' == var c := ChangeAt(decode, prev, cur, coverage, k); if c.Some? then out + [c.value] else out
  {
    out' := out;
    var now := cur[k];
    if k !in prev {
      out' := out + [Change(New, now.kind, now.value, None, Some(now))];
    } else if !SameMetadata(decode, prev[k].metadata, now.metadata) {
      out' := out + [Change(Changed, now.kind, now.value, Some(prev[k]), Some(now))];
    }
  }

  method Appeared(decode: string -> Option<string>, prev: Index, cur: Index, ghost coverage: seq<Coverage>) returns (out: seq<Change>)
    requires IsIndex(prev) && IsIndex(cur)
    ensures ChangesBut(decode, prev, cur, coverage, {} + (prev.Keys - cur.Keys), out)
  {
    out := [];
    ghost var vanished := prev.Keys - cur.Keys;
    var left := cur.Keys;
    NothingYet(decode, prev, cur, coverage);
    while left != {}
      invariant left <= cur.Keys && ChangesBut(decode, prev, cur, coverage, left + vanished, out)
      decreases |left|
    {
      var k :| k in left;
      OneMoreOf(decode, prev, cur, coverage, left, vanished, out, k);
      out := Present(decode, prev, cur, coverage, out, k);
      left := left - {k};
    }
  }

  method Vanished(decode: string -> Option<string>, prev: Index, cur: Index, coverage: seq<Coverage>, found: seq<Change>) returns (out: seq<Change>)
    requires IsIndex(prev) && IsIndex(cur) && ChangesBut(decode, prev, cur, coverage, prev.Keys - cur.Keys, found)
    ensures ChangesBut(decode, prev, cur, coverage, {}, out)
  {
    var covered := CoveredMap(coverage);
    out := found;
    var left := prev.Keys - cur.Keys;
    while left != {}
      invariant left <= prev.Keys - cur.Keys && ChangesBut(decode, prev, cur, coverage, left, out)
      decreases |left|
    {
      var k :| k in left;
      OneMore(decode, prev, cur, coverage, left, out, k);
      var was := prev[k];
      if was.source in covered && covered[was.source] {
        out := out + [Change(Removed, was.kind, was.value, Some(was), None)];
      }
      left := left - {k};
    }
  }

  /** The maps are walked in any order; sorting by kind and value settles the result up
      to assets of different types that share both. */
  method Compare(decode: string -> Option<string>, previous: seq<State>, current: seq<State>, coverage: seq<Coverage>) returns (out: seq<Change>)
    ensures AreChanges(decode, IndexOf(previous), IndexOf(current), coverage, out)
    ensures SortedBy(ChangeLess, out)
  {
    var prev := BuildIndex(previous);
    var cur := BuildIndex(current);
    LastStateWins(previous, "");
    LastStateWins(current, "");
    out := Appeared(decode, prev, cur, coverage);
    assert {} + (prev.Keys - cur.Keys) == prev.Keys - cur.Keys;
    out := Vanished(decode, prev, cur, coverage, out);
    assert AreChanges(decode, prev, cur, coverage, out);
    SortedChanges(decode, prev, cur, coverage, out);
    out := SortBy(ChangeLess, out);
  }

  lemma SortedChanges(decode: string -> Option<string>, prev: Index, cur: Index, coverage: seq<Coverage>, out: seq<Change>)
    requires AreChanges(decode, prev, cur, coverage, out)
    ensures AreChanges(decode, prev, cur, coverage, SortBy(ChangeLess, out)) && SortedBy(ChangeLess, SortBy(ChangeLess, out))
  {
    var sorted := SortBy(ChangeLess, out);
    ChangeLessWeak(Elements(out));
    SortBySorted(ChangeLess, out);
    SameElements(out, sorted);
    forall i, j | 0 <= i < j < |out| ensures out[i] != out[j] { assert ChangeKey(out[i]) != ChangeKey(out[j]); }
    PermutedDistinct(out, sorted);
    forall i, j | 0 <= i < j < |sorted| ensures ChangeKey(sorted[i]) != ChangeKey(sorted[j]) {
      assert sorted[i] in sorted && sorted[j] in sorted && sorted[i] != sorted[j];
    }
  }

  lemma ChangeLessWeak(s: set<Change>)
    ensures WeakOn(ChangeLess, s)
  {
    forall x, y | x in s && y in s && ChangeLess(x, y) ensures !ChangeLess(y, x) {
      if x.kind == y.kind && StrLess(y.value, x.value) {
        StrLessTransitive(x.value, y.value, x.value);
        StrLessIrreflexive(x.value);
      }
    }
    forall x, y, z | x in s && y in s && z in s && !ChangeLess(x, y) && !ChangeLess(y, z) ensures !ChangeLess(x, z) {
      if x.kind == z.kind && x.kind == y.kind && StrLess(x.value, z.value) {
        NotLessChain(x.value, y.value, z.value);
      }
    }
  }

  lemma NotLessChain(a: string, b: string, c: string)
    requires !StrLess(a, b) && !StrLess(b, c)
    ensures !StrLess(a, c)
  {}

  // ---- what the changes say ----

  predicate Mentions(states: seq<State>, k: string) {
    exists i :: 0 <= i < |states| && Key(states[i]) == k
  }

  /** The last state of its asset in the snapshot. */
  predicate IsLatest(states: seq<State>, s: State) {
    exists i :: 0 <= i < |states| && states[i] == s && forall j :: i < j < |states| ==> Key(states[j]) != Key(s)
  }

  /** The last that is said of the capability is that it succeeded, with complete coverage. */
  predicate IsCovered(coverage: seq<Coverage>, capability: string) {
    exists i :: 0 <= i < |coverage| && coverage[i] == Coverage(capability, true, true)
      && forall j :: i < j < |coverage| ==> coverage[j].capability != capability
  }

  predicate IsNew(previous: seq<State>, current: seq<State>, c: Change) {
    && c.kind == New && c.before.None? && c.after.Some?
    && IsLatest(current, c.after.value) && !Mentions(previous, Key(c.after.value))
    && c.assetType == c.after.value.kind && c.value == c.after.value.value
  }

  /** The metadata differ: as texts where one of them is no JSON, and as values otherwise. */
  predicate IsChanged(decode: string -> Option<string>, previous: seq<State>, current: seq<State>, c: Change) {
    && c.kind == Changed && c.before.Some? && c.after.Some?
    && IsLatest(previous, c.before.value) && IsLatest(current, c.after.value) && Key(c.before.value) == Key(c.after.value)
    && (var x, y := decode(c.before.value.metadata), decode(c.after.value.metadata);
        if x.Some? && y.Some? then x.value != y.value else c.before.value.metadata != c.after.value.metadata)
    && c.assetType == c.after.value.kind && c.value == c.after.value.value
  }

  predicate IsRemoved(previous: seq<State>, current: seq<State>, coverage: seq<Coverage>, c: Change) {
    && c.kind == Removed && c.before.Some? && c.after.None?
    && IsLatest(previous, c.before.value) && !Mentions(current, Key(c.before.value)) && IsCovered(coverage, c.before.value.source)
    && c.assetType == c.before.value.kind && c.value == c.before.value.value
  }

  lemma LatestIsIndexed(states: seq<State>, s: State)
    ensures IsLatest(states, s) <==> Key(s) in IndexOf(states) && IndexOf(states)[Key(s)] == s
    ensures Mentions(states, Key(s)) <==> Key(s) in IndexOf(states)
  {
    LastStateWins(states, Key(s));
    if IsLatest(states, s) {
      var i :| 0 <= i < |states| && states[i] == s && forall j :: i < j < |states| ==> Key(states[j]) != Key(s);
      var l :| 0 <= l < |states| && states[l] == IndexOf(states)[Key(s)] && forall j :: l < j < |states| ==> Key(states[j]) != Key(s);
      assert i == l;
    }
  }

  lemma {:induction false} CoveredByTheLast(coverage: seq<Coverage>, capability: string)
    ensures Covered(coverage, capability) <==> IsCovered(coverage, capability)
  {
    if coverage != [] {
      var init, last := coverage[..|coverage| - 1], coverage[|coverage| - 1];
      CoveredByTheLast(init, capability);
      if last.capability != capability {
        if IsCovered(init, capability) {
          var i :| 0 <= i < |init| && init[i] == Coverage(capability, true, true) && forall j :: i < j < |init| ==> init[j].capability != capability;
          assert coverage[i] == init[i] && forall j :: i < j < |coverage| ==> coverage[j] == if j < |init| then init[j] else last;
        }
        if IsCovered(coverage, capability) {
          var i :| 0 <= i < |coverage| && coverage[i] == Coverage(capability, true, true) && forall j :: i < j < |coverage| ==> coverage[j].capability != capability;
          assert init[i] == coverage[i] && forall j :: i < j < |init| ==> init[j] == coverage[j];
        }
      } else if last.successful && last.complete {
        assert coverage[|coverage| - 1] == Coverage(capability, true, true);
      }
    }
  }

  /** The changes are exactly the new assets, the ones whose metadata changed, and the
      vanished ones whose source was completely covered. */
  lemma ChangesSayWhatHappened(decode: string -> Option<string>, previous: seq<State>, current: seq<State>, coverage: seq<Coverage>, out: seq<Change>, c: Change)
    requires AreChanges(decode, IndexOf(previous), IndexOf(current), coverage, out)
    ensures c in out <==>
      IsNew(previous, current, c) || IsChanged(decode, previous, current, c) || IsRemoved(previous, current, coverage, c)
  {
    var prev, cur, k := IndexOf(previous), IndexOf(current), ChangeKey(c);
    LastStateWins(previous, k);
    LastStateWins(current, k);
    if c.before.Some? {
      LatestIsIndexed(previous, c.before.value);
      LatestIsIndexed(current, c.before.value);
      CoveredByTheLast(coverage, c.before.value.source);
    }
    if c.after.Some? {
      LatestIsIndexed(current, c.after.value);
      LatestIsIndexed(previous, c.after.value);
    }
    assert c in out <==> ChangeAt(decode, prev, cur, coverage, k) == Some(c);
  }

  function Name(kind: ChangeKind): string {
    match kind case New => "new" case Changed => "changed" case Removed => "removed"
  }

  /** In the list the names of the kinds ascend, and the values within a kind. */
  lemma ChangesAreListed(out: seq<Change>, i: nat, j: nat)
    requires SortedBy(ChangeLess, out) && i < j < |out|
    ensures if out[i].kind == out[j].kind then !StrLess(out[j].value, out[i].value) else StrLess(Name(out[i].kind), Name(out[j].kind))
  {
    assert !ChangeLess(out[j], out[i]);
  }

  // ---- replaying changes ----

  function Apply(m: Index, c: Change): Index {
    match c.after
    case Some(s) => m[ChangeKey(c) := s]
    case None => m - {ChangeKey(c)}
  }

  function Patch(m: Index, changes: seq<Change>): Index {
    if changes == [] then m else Apply(Patch(m, changes[..|changes| - 1]), changes[|changes| - 1])
  }

  lemma {:induction false} PatchKeeps(m: Index, changes: seq<Change>, k: string)
    requires forall c :: c in changes ==> ChangeKey(c) != k
    ensures k in Patch(m, changes) <==> k in m
    ensures k in m ==> Patch(m, changes)[k] == m[k]
  {
    if changes != [] {
      PatchKeeps(m, changes[..|changes| - 1], k);
      assert changes[|changes| - 1] in changes;
    }
  }

  /** With one change for each key, the order of the changes does not matter. */
  lemma {:induction false} PatchAt(m: Index, changes: seq<Change>, c: Change)
    requires forall i, j :: 0 <= i < j < |changes| ==> ChangeKey(changes[i]) != ChangeKey(changes[j])
    requires c in changes
    ensures ChangeKey(c) in Patch(m, changes) <==> c.after.Some?
    ensures c.after.Some? ==> Patch(m, changes)[ChangeKey(c)] == c.after.value
  {
    var init, last := changes[..|changes| - 1], changes[|changes| - 1];
    if c != last {
      assert changes == init + [last];
      PatchAt(m, init, c);
      var i :| 0 <= i < |changes| && changes[i] == c;
      assert ChangeKey(changes[i]) != ChangeKey(changes[|changes| - 1]);
    }
  }

  ghost predicate Agree(decode: string -> Option<string>, a: State, b: State) {
    Key(a) == Key(b) && SameMetadata(decode, a.metadata, b.metadata)
  }

  ghost predicate SeparatedKinds(states: seq<State>) {
    forall s :: s in states ==> Separated(s.kind)
  }

  /** With types free of the separator a key stands for one asset. */
  lemma KeysInjective(a: State, b: State)
    requires Separated(a.kind) && Separated(b.kind) && Key(a) == Key(b)
    ensures a.kind == b.kind && a.value == b.value
  {
    HeadAndTail(a.kind, a.value, b.kind, b.value);
  }

  /** Replaying the changes over the previous index gives the current one, up to
      metadata that means the same, and beside it exactly the vanished assets whose
      source was not completely covered, unchanged. With types free of the separator the
      entries under one key are states of one asset. */
  lemma ChangesPatchPreviousToCurrent(decode: string -> Option<string>, previous: seq<State>, current: seq<State>, coverage: seq<Coverage>, out: seq<Change>, k: string)
    requires AreChanges(decode, IndexOf(previous), IndexOf(current), coverage, out)
    ensures var prev, cur, patched := IndexOf(previous), IndexOf(current), Patch(IndexOf(previous), out);
            && (k in cur ==> k in patched && Agree(decode, patched[k], cur[k]))
            && (k !in cur ==> (k in patched <==> k in prev && !Covered(coverage, prev[k].source)))
            && (k !in cur && k in patched ==> patched[k] == prev[k])
            && (k in cur && SeparatedKinds(previous) && SeparatedKinds(current) ==>
                  patched[k].kind == cur[k].kind && patched[k].value == cur[k].value)
  {
    var prev, cur := IndexOf(previous), IndexOf(current);
    LastStateWins(previous, k);
    LastStateWins(current, k);
    ChangeHasKey(decode, prev, cur, coverage, k);
    var c := ChangeAt(decode, prev, cur, coverage, k);
    if c.Some? {
      assert c.value in out;
      PatchAt(prev, out, c.value);
    } else {
      PatchKeeps(prev, out, k);
      if k in cur && SeparatedKinds(previous) && SeparatedKinds(current) { KeysInjective(prev[k], cur[k]); }
    }
  }
}
