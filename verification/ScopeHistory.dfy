/** The history of a program's scope: which snapshots are recorded, which of them need an
    acknowledgement, and what the ones a run may proceed with can authorize. */
module ScopeHistory {
  import opened Order
  import opened Scope

  /** A scope and its plan, by their digests. */
  datatype Snapshot = Snapshot(plan: string, includes: seq<string>, excludes: seq<string>)

  datatype Row = Row(includes: seq<string>, excludes: seq<string>, expands: bool, acknowledged: bool, created: int)

  datatype Change = Change(
    changed: bool,
    addedIncludes: seq<string>,
    removedIncludes: seq<string>,
    addedExcludes: seq<string>,
    removedExcludes: seq<string>,
    expands: bool,
    acknowledged: bool)

  /** The scope versions by plan digest, and the scope written on the program itself. */
  datatype Tables = Tables(rows: map<string, Row>, program: Snapshot)

  function Filter(left: seq<string>, right: seq<string>): seq<string> {
    if left == [] then []
    else Filter(left[..|left| - 1], right) + if left[|left| - 1] in right then [] else [left[|left| - 1]]
  }

  function Difference(left: seq<string>, right: seq<string>): seq<string> {
    SortStrings(Filter(left, right))
  }

  lemma {:induction false} FilterMembers(left: seq<string>, right: seq<string>, x: string)
    ensures x in Filter(left, right) <==> x in left && x !in right
  {
    if left != [] {
      FilterMembers(left[..|left| - 1], right, x);
      assert left == left[..|left| - 1] + [left[|left| - 1]];
    }
  }

  lemma DifferenceMembers(left: seq<string>, right: seq<string>)
    ensures forall x :: x in Difference(left, right) <==> x in left && x !in right
    ensures SortedBy(StrLess, Difference(left, right))
    ensures Difference(left, right) == [] <==> forall x :: x in left ==> x in right
  {
    SameElements(Filter(left, right), Difference(left, right));
    SortStringsOrderInsensitive(Filter(left, right), Filter(left, right));
    forall x ensures x in Difference(left, right) <==> x in left && x !in right {
      FilterMembers(left, right, x);
    }
    if Difference(left, right) != [] {
      assert Difference(left, right)[0] in Difference(left, right);
    }
  }

  method ComputeDifference(left: seq<string>, right: seq<string>) returns (out: seq<string>)
    ensures out == Difference(left, right)
  {
    var members: set<string> := {};
    for i := 0 to |right|
      invariant members == Elements(right[..i])
    {
      assert right[..i + 1] == right[..i] + [right[i]];
      members := members + {right[i]};
    }
    assert right[..|right|] == right;
    out := [];
    for i := 0 to |left|
      invariant out == Filter(left[..i], right)
    {
      assert left[..i + 1][..i] == left[..i];
      if left[i] !in members { out := out + [left[i]]; }
    }
    assert left[..|left|] == left;
    out := SortStrings(out);
  }

  /** The empty plan digest stands for "no earlier version". */
  function ChangeFrom(previous: Snapshot, s: Snapshot): Change {
    var added, dropped := Difference(s.includes, previous.includes), Difference(previous.excludes, s.excludes);
    Change(previous.plan != s.plan,
           added, Difference(previous.includes, s.includes),
           Difference(s.excludes, previous.excludes), dropped,
           previous.plan != "" && (added != [] || dropped != []),
           false)
  }

  predicate Eligible(r: Row) {
    !r.expands || r.acknowledged
  }

  function AsSnapshot(rows: map<string, Row>, plan: string): Snapshot
    requires plan in rows
  {
    Snapshot(plan, rows[plan].includes, rows[plan].excludes)
  }

  const NOTHING := Snapshot("", [], [])

  /** The latest eligible version, or nothing. Versions may share an instant. */
  ghost predicate IsPrevious(rows: map<string, Row>, previous: Snapshot) {
    if exists p :: p in rows && Eligible(rows[p]) then
      && previous.plan in rows && previous == AsSnapshot(rows, previous.plan) && Eligible(rows[previous.plan])
      && forall q :: q in rows && Eligible(rows[q]) ==> rows[q].created <= rows[previous.plan].created
    else
      previous == NOTHING
  }

  /** On a conflict the version keeps everything except an acknowledgement it lacked. */
  function Upsert(rows: map<string, Row>, s: Snapshot, expands: bool, acknowledged: bool, now: int): map<string, Row> {
    if s.plan in rows
    then rows[s.plan := rows[s.plan].(acknowledged := rows[s.plan].acknowledged || acknowledged)]
    else rows[s.plan := Row(s.includes, s.excludes, expands, acknowledged, now)]
  }

  function Verdict(previous: Snapshot, s: Snapshot, acknowledge: bool): Change {
    var change := ChangeFrom(previous, s);
    if change.changed then change.(acknowledged := !change.expands || acknowledge) else change
  }

  function Recorded(t: Tables, previous: Snapshot, s: Snapshot, acknowledge: bool, now: int): Tables {
    var change := Verdict(previous, s, acknowledge);
    if !change.changed then t
    else Tables(Upsert(t.rows, s, change.expands, change.acknowledged, now), if change.acknowledged then s else t.program)
  }

  /** The guard in front of every run. */
  predicate MayProceed(change: Change) {
    !(change.expands && !change.acknowledged)
  }

  function Created(s: Snapshot, now: int): Tables {
    Tables(map[s.plan := Row(s.includes, s.excludes, false, true, now)], s)
  }

  /** The version tables of one program. */
  class Store {
    var rows: map<string, Row>
    var program: Snapshot

    function Value(): Tables
      reads this
    {
      Tables(rows, program)
    }

    constructor CreateProgram(s: Snapshot, now: int)
      ensures Value() == Created(s, now)
    {
      rows, program := map[s.plan := Row(s.includes, s.excludes, false, true, now)], s;
    }

    method Previous() returns (previous: Snapshot)
      ensures IsPrevious(rows, previous)
    {
      previous := NOTHING;
      var left, found := rows.Keys, false;
      while left != {}
        invariant left <= rows.Keys
        invariant found <==> exists p :: p in rows && p !in left && Eligible(rows[p])
        invariant !found ==> previous == NOTHING
        invariant found ==> previous.plan in rows && previous == AsSnapshot(rows, previous.plan) && Eligible(rows[previous.plan])
        invariant found ==> forall q :: q in rows && q !in left && Eligible(rows[q]) ==> rows[q].created <= rows[previous.plan].created
        decreases |left|
      {
        var p :| p in left;
        left := left - {p};
        if Eligible(rows[p]) && (!found || rows[previous.plan].created <= rows[p].created) {
          previous, found := AsSnapshot(rows, p), true;
        }
      }
    }

    method CheckAndRecord(s: Snapshot, acknowledge: bool, now: int) returns (change: Change, ghost previous: Snapshot)
      modifies this
      ensures IsPrevious(old(rows), previous)
      ensures change == Verdict(previous, s, acknowledge)
      ensures Value() == Recorded(old(Value()), previous, s, acknowledge, now)
    {
      var latest := Previous();
      previous := latest;
      var added := ComputeDifference(s.includes, latest.includes);
      var removed := ComputeDifference(latest.includes, s.includes);
      var excluded := ComputeDifference(s.excludes, latest.excludes);
      var dropped := ComputeDifference(latest.excludes, s.excludes);
      change := Change(latest.plan != s.plan, added, removed, excluded, dropped, latest.plan != "" && (added != [] || dropped != []), false);
      if !change.changed { return; }
      change := change.(acknowledged := !change.expands || acknowledge);
      rows := Upsert(rows, s, change.expands, change.acknowledged, now);
      if change.acknowledged { program := s; }
    }
  }

  // ---- histories ----

  datatype Submission = Submission(snapshot: Snapshot, acknowledge: bool, now: int)

  /** `accepted` holds what a human accepted: the scope a program was created with and
      every expansion that was acknowledged. `proceeded` holds what runs went ahead with. */
  datatype History = History(tables: Tables, accepted: set<Snapshot>, proceeded: set<Snapshot>)

  ghost predicate Follows(h: History, sub: Submission, h': History) {
    exists previous :: IsPrevious(h.tables.rows, previous) && FollowsFrom(h, sub, previous, h')
  }

  ghost predicate FollowsFrom(h: History, sub: Submission, previous: Snapshot, h': History) {
    var change := Verdict(previous, sub.snapshot, sub.acknowledge);
    && h'.tables == Recorded(h.tables, previous, sub.snapshot, sub.acknowledge, sub.now)
    && h'.accepted == h.accepted + (if change.expands && change.acknowledged then {sub.snapshot} else {})
    && h'.proceeded == h.proceeded + (if MayProceed(change) then {sub.snapshot} else {})
  }

  ghost predicate IsHistory(first: Snapshot, now: int, subs: seq<Submission>, hs: seq<History>) {
    && |hs| == |subs| + 1
    && hs[0] == History(Created(first, now), {first}, {})
    && forall i :: 0 <= i < |subs| ==> Follows(hs[i], subs[i], hs[i + 1])
  }

  /** Every include rule of `a` is one of `b`, and every exclude rule of `b` one of `a`. */
  ghost predicate Narrower(a: Snapshot, b: Snapshot) {
    (forall d :: d in a.includes ==> d in b.includes) && (forall d :: d in b.excludes ==> d in a.excludes)
  }

  ghost predicate Covered(s: Snapshot, accepted: set<Snapshot>) {
    exists a :: a in accepted && Narrower(s, a)
  }

  ghost predicate SameRules(a: Snapshot, b: Snapshot) {
    Narrower(a, b) && Narrower(b, a)
  }

  /** Plan digests are real digests and determine the rules they were made from. */
  ghost predicate PlansDetermine(u: set<Snapshot>) {
    && (forall a :: a in u ==> a.plan != "")
    && forall a, b :: a in u && b in u && a.plan == b.plan ==> SameRules(a, b)
  }

  ghost predicate Safe(u: set<Snapshot>, h: History) {
    && (forall p :: p in h.tables.rows ==> AsSnapshot(h.tables.rows, p) in u)
    && (forall p :: p in h.tables.rows && Eligible(h.tables.rows[p]) ==> Covered(AsSnapshot(h.tables.rows, p), h.accepted))
    && (exists p :: p in h.tables.rows && Eligible(h.tables.rows[p]))
    && (forall s :: s in h.proceeded ==> Covered(s, h.accepted))
    && Covered(h.tables.program, h.accepted)
    && h.accepted <= u && h.proceeded <= u && h.tables.program in u
  }

  lemma CoveredMore(s: Snapshot, accepted: set<Snapshot>, more: set<Snapshot>)
    requires Covered(s, accepted) && accepted <= more
    ensures Covered(s, more)
  {
    var a :| a in accepted && Narrower(s, a);
    assert a in more;
  }

  lemma CoveredNarrower(s: Snapshot, t: Snapshot, accepted: set<Snapshot>)
    requires Narrower(s, t) && Covered(t, accepted)
    ensures Covered(s, accepted)
  {
    var a :| a in accepted && Narrower(t, a);
    assert Narrower(s, a);
  }

  /** A verdict without expansion means a narrower scope. */
  lemma NoExpansionIsNarrower(previous: Snapshot, s: Snapshot)
    requires previous.plan != ""
    ensures ChangeFrom(previous, s).expands <==> !Narrower(s, previous)
  {
    DifferenceMembers(s.includes, previous.includes);
    DifferenceMembers(previous.excludes, s.excludes);
  }

  lemma SubmissionCovered(u: set<Snapshot>, h: History, sub: Submission, previous: Snapshot, h': History)
    requires PlansDetermine(u) && Safe(u, h) && sub.snapshot in u
    requires IsPrevious(h.tables.rows, previous) && FollowsFrom(h, sub, previous, h')
    ensures previous in u
    ensures Verdict(previous, sub.snapshot, sub.acknowledge).acknowledged || MayProceed(Verdict(previous, sub.snapshot, sub.acknowledge))
            ==> Covered(sub.snapshot, h'.accepted)
  {
    var s, change := sub.snapshot, Verdict(previous, sub.snapshot, sub.acknowledge);
    NoExpansionIsNarrower(previous, s);
    if change.expands {
      assert change.acknowledged ==> s in h'.accepted && Narrower(s, s);
    } else {
      assert Covered(previous, h.accepted);
      CoveredNarrower(s, previous, h.accepted);
      CoveredMore(s, h.accepted, h'.accepted);
    }
  }

  /** Eligible versions stay eligible, so there is always a previous version. */
  lemma EligibleKept(rows: map<string, Row>, s: Snapshot, expands: bool, acknowledged: bool, now: int, p: string)
    requires p in rows && Eligible(rows[p])
    ensures p in Upsert(rows, s, expands, acknowledged, now) && Eligible(Upsert(rows, s, expands, acknowledged, now)[p])
  {}

  lemma StaysEligible(h: History, sub: Submission, previous: Snapshot, h': History)
    requires FollowsFrom(h, sub, previous, h')
    requires exists p :: p in h.tables.rows && Eligible(h.tables.rows[p])
    ensures exists p :: p in h'.tables.rows && Eligible(h'.tables.rows[p])
  {
    var p :| p in h.tables.rows && Eligible(h.tables.rows[p]);
    var change := Verdict(previous, sub.snapshot, sub.acknowledge);
    EligibleKept(h.tables.rows, sub.snapshot, change.expands, change.acknowledged, sub.now, p);
    assert h'.tables.rows == h.tables.rows || h'.tables.rows == Upsert(h.tables.rows, sub.snapshot, change.expands, change.acknowledged, sub.now);
    assert p in h'.tables.rows && Eligible(h'.tables.rows[p]);
  }

  lemma ScopeSafe(u: set<Snapshot>, h: History, sub: Submission, previous: Snapshot, h': History, t: Snapshot)
    requires PlansDetermine(u) && Safe(u, h) && sub.snapshot in u
    requires IsPrevious(h.tables.rows, previous) && FollowsFrom(h, sub, previous, h')
    requires t in h'.proceeded || t == h'.tables.program
    ensures t in u && Covered(t, h'.accepted)
  {
    SubmissionCovered(u, h, sub, previous, h');
    if t in h.proceeded || t == h.tables.program {
      CoveredMore(t, h.accepted, h'.accepted);
    }
  }

  lemma UpsertedRow(rows: map<string, Row>, s: Snapshot, expands: bool, acknowledged: bool, now: int, p: string)
    requires p in Upsert(rows, s, expands, acknowledged, now)
    ensures var rows' := Upsert(rows, s, expands, acknowledged, now);
            && (p in rows ==> AsSnapshot(rows', p) == AsSnapshot(rows, p))
            && (p !in rows ==> AsSnapshot(rows', p) == s)
            && (Eligible(rows'[p]) && !(p in rows && Eligible(rows[p])) ==> p == s.plan && (acknowledged || !expands))
  {}

  /** A row keeps its rules; a new one, or a newly eligible one, is the submission's. */
  lemma RecordedRow(h: History, sub: Submission, previous: Snapshot, h': History, p: string)
    requires FollowsFrom(h, sub, previous, h') && p in h'.tables.rows
    ensures var rows, rows', change := h.tables.rows, h'.tables.rows, Verdict(previous, sub.snapshot, sub.acknowledge);
            && (p in rows ==> AsSnapshot(rows', p) == AsSnapshot(rows, p))
            && (p !in rows ==> AsSnapshot(rows', p) == sub.snapshot)
            && (Eligible(rows'[p]) && !(p in rows && Eligible(rows[p])) ==>
                  p == sub.snapshot.plan && (change.acknowledged || MayProceed(change)))
  {
    var change := Verdict(previous, sub.snapshot, sub.acknowledge);
    if change.changed {
      UpsertedRow(h.tables.rows, sub.snapshot, change.expands, change.acknowledged, sub.now, p);
    }
  }

  lemma RowSafe(u: set<Snapshot>, h: History, sub: Submission, previous: Snapshot, h': History, p: string)
    requires PlansDetermine(u) && Safe(u, h) && sub.snapshot in u
    requires IsPrevious(h.tables.rows, previous) && FollowsFrom(h, sub, previous, h') && p in h'.tables.rows
    ensures AsSnapshot(h'.tables.rows, p) in u
    ensures Eligible(h'.tables.rows[p]) ==> Covered(AsSnapshot(h'.tables.rows, p), h'.accepted)
  {
    RecordedRow(h, sub, previous, h', p);
    SubmissionCovered(u, h, sub, previous, h');
    if p in h.tables.rows {
      var row := AsSnapshot(h.tables.rows, p);
      if Eligible(h.tables.rows[p]) {
        CoveredMore(row, h.accepted, h'.accepted);
      } else if Eligible(h'.tables.rows[p]) {
        assert row in u && SameRules(row, sub.snapshot);
        CoveredNarrower(row, sub.snapshot, h'.accepted);
      }
    }
  }

  lemma SafeStep(u: set<Snapshot>, h: History, sub: Submission, h': History)
    requires PlansDetermine(u) && Safe(u, h) && sub.snapshot in u && Follows(h, sub, h')
    ensures Safe(u, h')
  {
    var previous :| IsPrevious(h.tables.rows, previous) && FollowsFrom(h, sub, previous, h');
    StaysEligible(h, sub, previous, h');
    forall t | t in h'.proceeded || t == h'.tables.program ensures t in u && Covered(t, h'.accepted) {
      ScopeSafe(u, h, sub, previous, h', t);
    }
    forall p | p in h'.tables.rows
      ensures AsSnapshot(h'.tables.rows, p) in u
      ensures Eligible(h'.tables.rows[p]) ==> Covered(AsSnapshot(h'.tables.rows, p), h'.accepted)
    {
      RowSafe(u, h, sub, previous, h', p);
    }
    assert h'.accepted <= u;
  }

  lemma CreatedSafe(u: set<Snapshot>, first: Snapshot, now: int)
    requires first in u
    ensures Safe(u, History(Created(first, now), {first}, {}))
  {
    var h := History(Created(first, now), {first}, {});
    assert Narrower(first, first) && first in h.accepted;
    assert first.plan in h.tables.rows && Eligible(h.tables.rows[first.plan]);
  }

  lemma {:induction false} HistoriesAreSafe(u: set<Snapshot>, first: Snapshot, now: int, subs: seq<Submission>, hs: seq<History>)
    requires PlansDetermine(u) && first in u && IsHistory(first, now, subs, hs)
    requires forall i :: 0 <= i < |subs| ==> subs[i].snapshot in u
    ensures Safe(u, hs[|subs|])
  {
    if subs == [] {
      CreatedSafe(u, first, now);
    } else {
      var n := |subs| - 1;
      HistoryPrefix(first, now, subs, hs);
      HistoriesAreSafe(u, first, now, subs[..n], hs[..n + 1]);
      assert hs[..n + 1][n] == hs[n];
      assert Follows(hs[n], subs[n], hs[n + 1]);
      SafeStep(u, hs[n], subs[n], hs[n + 1]);
    }
  }

  lemma HistoryPrefix(first: Snapshot, now: int, subs: seq<Submission>, hs: seq<History>)
    requires IsHistory(first, now, subs, hs) && subs != []
    ensures IsHistory(first, now, subs[..|subs| - 1], hs[..|subs|])
  {}

  // ---- from digests to authorization ----

  /** `scope` hashes the sorted rules of a scope and `plan` a plan, which names the scope
      digest beside everything else it holds. */
  datatype Hashes = Hashes(scope: seq<NormalizedRule> -> string, plan: (string, string) -> string)

  ghost predicate InjectiveHashes(hashes: Hashes) {
    && (forall a, b :: hashes.scope(a) == hashes.scope(b) ==> a == b)
    && forall d, r, d', r' :: hashes.plan(d, r) == hashes.plan(d', r') ==> d == d' && r == r'
  }

  function TakeSnapshot(hashes: Hashes, s: Scope, rest: string): Snapshot {
    Snapshot(hashes.plan(hashes.scope(SortBy(IdLess, s.includes + s.excludes)), rest), Digests(s.includes), Digests(s.excludes))
  }

  lemma DigestsMembers(rules: seq<NormalizedRule>, d: string)
    ensures d in Digests(rules) <==> exists r :: r in rules && r.digest == d
  {
    if d in Digests(rules) {
      var i :| 0 <= i < |rules| && Digests(rules)[i] == d;
      assert rules[i] in rules && rules[i].digest == d;
    }
    if r :| r in rules && r.digest == d {
      var i :| 0 <= i < |rules| && rules[i] == r;
      assert Digests(rules)[i] == d;
    }
  }

  /** Plans with one digest come from scopes with the same rules. */
  lemma PlanDigestsDetermineRules(lib: Library, hashes: Hashes, a: Scope, b: Scope, restA: string, restB: string)
    requires InjectiveHashes(hashes) && Digested(lib, a) && Digested(lib, b)
    requires TakeSnapshot(hashes, a, restA).plan == TakeSnapshot(hashes, b, restB).plan
    ensures SameRules(TakeSnapshot(hashes, a, restA), TakeSnapshot(hashes, b, restB))
  {
    var rulesA, rulesB := a.includes + a.excludes, b.includes + b.excludes;
    assert SortBy(IdLess, rulesA) == SortBy(IdLess, rulesB);
    SameElements(rulesA, rulesB);
    forall r ensures r in a.includes <==> r in b.includes {
      assert r in a.includes <==> r in rulesA && r.kind == Include;
      assert r in b.includes <==> r in rulesB && r.kind == Include;
    }
    forall r ensures r in a.excludes <==> r in b.excludes {
      assert r in a.excludes <==> r in rulesA && r.kind == Exclude;
      assert r in b.excludes <==> r in rulesB && r.kind == Exclude;
    }
    forall d ensures d in Digests(a.includes) <==> d in Digests(b.includes) {
      DigestsMembers(a.includes, d);
      DigestsMembers(b.includes, d);
    }
    forall d ensures d in Digests(a.excludes) <==> d in Digests(b.excludes) {
      DigestsMembers(a.excludes, d);
      DigestsMembers(b.excludes, d);
    }
  }

  /** A scope as it is submitted, with whatever else its plan holds. */
  datatype Version = Version(scope: Scope, rest: string)

  function SnapshotOf(hashes: Hashes, v: Version): Snapshot {
    TakeSnapshot(hashes, v.scope, v.rest)
  }

  /** The scope was compiled from rules. */
  ghost predicate Compiled(lib: Library, s: Scope) {
    exists includes, excludes :: IsCompiled(lib, includes, Include, s.includes) && IsCompiled(lib, excludes, Exclude, s.excludes)
  }

  /** The program was created with `vs[0]`, and what is submitted are the later versions. */
  ghost predicate Submits(lib: Library, hashes: Hashes, vs: seq<Version>, first: Snapshot, subs: seq<Submission>) {
    && |vs| == |subs| + 1 && first == SnapshotOf(hashes, vs[0])
    && (forall i :: 0 <= i < |subs| ==> subs[i].snapshot == SnapshotOf(hashes, vs[i + 1]))
    && forall i :: 0 <= i < |vs| ==> Compiled(lib, vs[i].scope)
  }

  function Snapshots(hashes: Hashes, vs: seq<Version>): set<Snapshot> {
    set v | v in vs :: SnapshotOf(hashes, v)
  }

  lemma SnapshotsDetermine(lib: Library, hashes: Hashes, vs: seq<Version>)
    requires InjectiveHashes(hashes) && forall d, r :: hashes.plan(d, r) != ""
    requires forall i :: 0 <= i < |vs| ==> Compiled(lib, vs[i].scope)
    ensures PlansDetermine(Snapshots(hashes, vs))
  {
    forall v, w | v in vs && w in vs && SnapshotOf(hashes, v).plan == SnapshotOf(hashes, w).plan
      ensures SameRules(SnapshotOf(hashes, v), SnapshotOf(hashes, w))
    {
      CompiledIsDigested(lib, v.scope);
      CompiledIsDigested(lib, w.scope);
      PlanDigestsDetermineRules(lib, hashes, v.scope, w.scope, v.rest, w.rest);
    }
  }

  lemma CompiledIsDigested(lib: Library, s: Scope)
    requires Compiled(lib, s)
    ensures Digested(lib, s)
  {
    var includes, excludes :| IsCompiled(lib, includes, Include, s.includes) && IsCompiled(lib, excludes, Exclude, s.excludes);
    CompiledDigested(lib, includes, excludes, s);
  }

  /** The history never widens authorization silently. Whatever scopes are compiled and
      submitted: a URL that is allowed by a version that a run went ahead with, or that
      is written on the program, is allowed by a version that a human accepted. */
  lemma NeverWidensSilently(lib: Library, hashes: Hashes, vs: seq<Version>, first: Snapshot, now: int,
                            subs: seq<Submission>, hs: seq<History>, v: Version, raw: string)
    requires InjectiveDigest(lib) && InjectiveHashes(hashes) && forall d, r :: hashes.plan(d, r) != ""
    requires Submits(lib, hashes, vs, first, subs) && IsHistory(first, now, subs, hs)
    requires v in vs && Allows(lib, v.scope, raw)
    requires SnapshotOf(hashes, v) in hs[|subs|].proceeded || SnapshotOf(hashes, v) == hs[|subs|].tables.program
    ensures exists w :: w in vs && SnapshotOf(hashes, w) in hs[|subs|].accepted && Allows(lib, w.scope, raw)
  {
    var u := Snapshots(hashes, vs);
    SnapshotsDetermine(lib, hashes, vs);
    SubmittedKnown(lib, hashes, vs, first, subs);
    HistoriesAreSafe(u, first, now, subs, hs);
    var a := SafeCovers(u, hs[|subs|], SnapshotOf(hashes, v));
    var w :| w in vs && SnapshotOf(hashes, w) == a;
    NarrowerAllows(lib, hashes, v, w, raw);
  }

  lemma SafeCovers(u: set<Snapshot>, h: History, s: Snapshot) returns (a: Snapshot)
    requires Safe(u, h) && (s in h.proceeded || s == h.tables.program)
    ensures a in h.accepted && a in u && Narrower(s, a)
  {
    assert Covered(s, h.accepted);
    a :| a in h.accepted && Narrower(s, a);
  }

  lemma SubmittedKnown(lib: Library, hashes: Hashes, vs: seq<Version>, first: Snapshot, subs: seq<Submission>)
    requires Submits(lib, hashes, vs, first, subs)
    ensures first in Snapshots(hashes, vs) && forall i :: 0 <= i < |subs| ==> subs[i].snapshot in Snapshots(hashes, vs)
  {
    assert vs[0] in vs;
    forall i | 0 <= i < |subs| ensures subs[i].snapshot in Snapshots(hashes, vs) { assert vs[i + 1] in vs; }
  }

  lemma NarrowerAllows(lib: Library, hashes: Hashes, v: Version, w: Version, raw: string)
    requires InjectiveDigest(lib) && Compiled(lib, v.scope) && Compiled(lib, w.scope)
    requires Narrower(SnapshotOf(hashes, v), SnapshotOf(hashes, w)) && Allows(lib, v.scope, raw)
    ensures Allows(lib, w.scope, raw)
  {
    CompiledIsDigested(lib, v.scope);
    CompiledIsDigested(lib, w.scope);
    NarrowingIsSafe(lib, w.scope, v.scope, raw);
  }

  /** Everything hangs on the version written with the program: against an empty table
      any scope at all goes ahead without an acknowledgement. */
  lemma FirstVersionIsTrusted(s: Snapshot, program: Snapshot, now: int)
    requires s.plan != ""
    ensures IsPrevious(map[], NOTHING) && MayProceed(Verdict(NOTHING, s, false))
    ensures Eligible(Recorded(Tables(map[], program), NOTHING, s, false, now).rows[s.plan])
  {
    var empty: map<string, Row> := map[];
    assert !exists p :: p in empty && Eligible(empty[p]);
  }

  // ---- what a submission does ----

  /** Whether a scope counts as accepted: it adds no authorization to the previous one, or
      a human acknowledges what it adds. */
  ghost predicate IsAccepted(previous: Snapshot, s: Snapshot, acknowledge: bool) {
    previous.plan == "" || Narrower(s, previous) || acknowledge
  }

  /** A submission of another plan than the previous one goes ahead exactly if it is accepted,
      and one of the same plan exactly if it adds nothing; the change lists what came and went. */
  lemma VerdictsAreFair(previous: Snapshot, s: Snapshot, acknowledge: bool)
    ensures var change := Verdict(previous, s, acknowledge);
            && (change.changed <==> s.plan != previous.plan)
            && (change.expands <==> previous.plan != "" && !Narrower(s, previous))
            && (MayProceed(change) <==> IsAccepted(previous, s, change.changed && acknowledge))
            && (forall x :: x in change.addedIncludes <==> x in s.includes && x !in previous.includes)
            && (forall x :: x in change.removedIncludes <==> x in previous.includes && x !in s.includes)
            && (forall x :: x in change.addedExcludes <==> x in s.excludes && x !in previous.excludes)
            && (forall x :: x in change.removedExcludes <==> x in previous.excludes && x !in s.excludes)
  {
    DifferenceMembers(s.includes, previous.includes);
    DifferenceMembers(previous.includes, s.includes);
    DifferenceMembers(s.excludes, previous.excludes);
    DifferenceMembers(previous.excludes, s.excludes);
  }

  /** A submission of the previous plan writes nothing. Any other one writes its own version,
      or on a conflict adds its acknowledgement to the version that is there, and becomes
      the program's scope exactly if it is accepted. */
  lemma SubmissionsAreWritten(t: Tables, previous: Snapshot, s: Snapshot, acknowledge: bool, now: int)
    ensures var t', accepted := Recorded(t, previous, s, acknowledge, now), IsAccepted(previous, s, acknowledge);
            if s.plan == previous.plan then t' == t
            else
              && t'.program == (if accepted then s else t.program)
              && s.plan in t'.rows && (forall p :: p != s.plan ==> (p in t'.rows <==> p in t.rows) && (p in t.rows ==> t'.rows[p] == t.rows[p]))
              && t'.rows[s.plan] == if s.plan in t.rows then t.rows[s.plan].(acknowledged := t.rows[s.plan].acknowledged || accepted)
                                    else Row(s.includes, s.excludes, previous.plan != "" && !Narrower(s, previous), accepted, now)
  {
    VerdictsAreFair(previous, s, acknowledge);
  }
}
