/** Progress and termination of the engine loop. */
module Progress {
  import opened Order
  import opened Graph
  import opened Json
  import opened Definition
  import opened Engine
  import opened Wrappers

  // ---- what validation gives the engine ----

  function IdsOf(steps: seq<Step>): (ids: seq<string>)
    ensures |ids| == |steps| && forall i :: 0 <= i < |steps| ==> ids[i] == steps[i].id
  {
    seq(|steps|, i requires 0 <= i < |steps| => steps[i].id)
  }

  /** Steps in an order of execution over the dependency graph `g`. */
  ghost predicate Schedule(ordered: seq<Step>, g: Deps) {
    && Ordered(g, IdsOf(ordered))
    && (forall s :: s in ordered ==> s.id in g && g[s.id] == s.dependsOn)
    && (forall s, d :: s in ordered && d in StepSources(s) ==> Reaches(g, s.id, d))
  }

  lemma OrderOfSteps(d: Definition, r: Registry)
    requires Accepts(d, r)
    ensures var byId, ordered := ById(d.steps), OrderedSteps(d, r);
            var order := Topological(Edges(byId));
            && Ordered(Edges(byId), order) && Elements(order) == byId.Keys && |ordered| == |order|
            && forall i :: 0 <= i < |order| ==> order[i] in byId && ordered[i] == byId[order[i]]
  {
    AcceptedClosed(d, r);
    TopologicalOrders(Edges(ById(d.steps)));
  }

  lemma OrderedStepsByIndex(d: Definition, r: Registry)
    requires Accepts(d, r)
    ensures var order, ordered := Topological(Edges(ById(d.steps))), OrderedSteps(d, r);
            && IdsOf(ordered) == order
            && Ordered(Edges(ById(d.steps)), order)
            && Elements(order) == ById(d.steps).Keys
            && forall i :: 0 <= i < |ordered| ==> ordered[i].id in ById(d.steps) && ordered[i] == ById(d.steps)[ordered[i].id]
  {
    OrderOfSteps(d, r);
    ByIdKeys(d.steps);
    LookedUp(ById(d.steps), Topological(Edges(ById(d.steps))), OrderedSteps(d, r));
  }

  lemma LookedUp(byId: map<string, Step>, order: seq<string>, ordered: seq<Step>)
    requires |ordered| == |order| && forall i :: 0 <= i < |order| ==> order[i] in byId && ordered[i] == byId[order[i]]
    requires forall id :: id in byId ==> byId[id].id == id
    ensures IdsOf(ordered) == order
    ensures forall i :: 0 <= i < |ordered| ==> ordered[i].id in byId && ordered[i] == byId[ordered[i].id]
  {}

  lemma SameSteps(ordered: seq<Step>, steps: seq<Step>)
    requires UniqueIds(steps)
    requires Elements(IdsOf(ordered)) == ById(steps).Keys
    requires forall i :: 0 <= i < |ordered| ==> ordered[i].id in ById(steps) && ordered[i] == ById(steps)[ordered[i].id]
    ensures forall s :: s in ordered <==> s in steps
  {
    ByIdKeys(steps);
    forall s | s in steps ensures s in ordered {
      assert s.id in Elements(IdsOf(ordered));
      var i :| 0 <= i < |ordered| && IdsOf(ordered)[i] == s.id;
      assert ordered[i] == s;
    }
  }

  /** The execution order of an accepted definition is a schedule over its graph. */
  lemma AcceptedSchedule(d: Definition, r: Registry)
    requires Accepts(d, r)
    ensures Schedule(OrderedSteps(d, r), Edges(ById(d.steps)))
    ensures forall s :: s in OrderedSteps(d, r) <==> s in d.steps
  {
    OrderedStepsByIndex(d, r);
    SameSteps(OrderedSteps(d, r), d.steps);
  }

  lemma SameStep(ordered: seq<Step>, g: Deps, a: Step, b: Step)
    requires Schedule(ordered, g) && a in ordered && b in ordered && a.id == b.id
    ensures a == b
  {}

  lemma EarlierDependency(ordered: seq<Step>, g: Deps, i: nat, d: string) returns (j: nat)
    requires Schedule(ordered, g) && i < |ordered| && d in ordered[i].dependsOn
    ensures j < i && ordered[j].id == d
  {
    assert ordered[i] in ordered && d in DependsOn(g, IdsOf(ordered)[i]);
    assert d in IdsOf(ordered)[..i];
    j :| 0 <= j < i && IdsOf(ordered)[..i][j] == d;
  }

  // ---- ranks ----

  function RankOf(ordered: seq<Step>, id: string): nat {
    if ordered == [] || ordered[0].id == id then 0 else 1 + RankOf(ordered[1..], id)
  }

  ghost predicate Ascends(ordered: seq<Step>, s: seq<Step>) {
    && (forall x :: x in s ==> x in ordered)
    && forall i, j :: 0 <= i < j < |s| ==> RankOf(ordered, s[i].id) < RankOf(ordered, s[j].id)
  }

  lemma {:induction false} ReadyIs(ordered: seq<Step>, f: Frame)
    ensures forall s :: s in Ready(ordered, f) <==> s in ordered && IsReady(s, f)
  {
    if ordered != [] {
      ReadyIs(ordered[1..], f);
      assert ordered == [ordered[0]] + ordered[1..];
    }
  }

  lemma {:induction false} ReadyAscends(ordered: seq<Step>, g: Deps, f: Frame)
    requires NoDuplicates(IdsOf(ordered))
    ensures Ascends(ordered, Ready(ordered, f))
  {
    if ordered != [] {
      var rest := ordered[1..];
      assert IdsOf(rest) == IdsOf(ordered)[1..];
      ReadyAscends(rest, g, f);
      ReadyIs(rest, f);
      forall x | x in Ready(rest, f) ensures RankOf(ordered, x.id) == 1 + RankOf(rest, x.id) {
        var i :| 0 <= i < |rest| && rest[i] == x;
        assert IdsOf(ordered)[0] != IdsOf(ordered)[i + 1];
      }
      assert ordered == [ordered[0]] + rest;
    }
  }

  // ---- the bookkeeping invariant ----

  function StepsOf(plans: seq<Plan>): (r: seq<Step>)
    ensures |r| == |plans| && forall i :: 0 <= i < |plans| ==> r[i] == plans[i].step
  {
    seq(|plans|, i requires 0 <= i < |plans| => plans[i].step)
  }

  /** The steps of the current wave that are not settled yet. */
  function Pending(f: Frame): seq<Step> {
    StepsOf(f.plans) + if f.phase.Planning? then f.phase.ready else []
  }

  ghost predicate Ids(ordered: seq<Step>, ids: set<string>) {
    forall id :: id in ids ==> id in IdsOf(ordered)
  }

  ghost predicate Settled(f: Frame, id: string) {
    id in f.finished || id in f.blocked
  }

  ghost predicate Waits(g: Deps, f: Frame, id: string) {
    id in f.blocked || exists b :: b in f.blocked && Reaches(g, id, b)
  }

  /** Finished steps are done and blocked ones are not. */
  ghost predicate StatusesAgree(f: Frame) {
    var m := ViewsOf(f.state.steps);
    (forall id :: id in f.finished ==> Done(m, id)) && (forall id :: id in f.blocked ==> !Done(m, id))
  }

  ghost predicate PendingUnsettled(ordered: seq<Step>, f: Frame) {
    Ascends(ordered, Pending(f)) && forall s :: s in Pending(f) ==> !Settled(f, s.id)
  }

  /** What each way of ending a run says about its steps. */
  ghost predicate EndsWell(ordered: seq<Step>, g: Deps, f: Frame) {
    && (f.phase == Over(Completed) ==> forall s :: s in ordered ==> s.id in f.finished)
    && f.phase != Over(NoRunnableStep)
    && (f.phase == Over(PausedForApproval) ==>
          f.blocked != {} && forall s :: s in ordered ==> s.id in f.finished || Waits(g, f, s.id))
  }

  ghost predicate Book(ordered: seq<Step>, g: Deps, f: Frame) {
    && Ids(ordered, f.finished) && Ids(ordered, f.blocked) && f.finished !! f.blocked
    && StatusesAgree(f)
    && PendingUnsettled(ordered, f)
    && (f.phase.Top? ==> f.plans == [])
    && EndsWell(ordered, g, f)
  }

  lemma BookAtStart(ordered: seq<Step>, g: Deps, previous: Option<State>, run: string)
    requires Schedule(ordered, g)
    ensures Book(ordered, g, Begin(ordered, previous, run))
  {}

  lemma {:induction false} NothingReady(ordered: seq<Step>, g: Deps, f: Frame, i: nat)
    requires Schedule(ordered, g) && Book(ordered, g, f) && Ready(ordered, f) == []
    requires i < |ordered|
    ensures ordered[i].id in f.finished || Waits(g, f, ordered[i].id)
    decreases i
  {
    var s := ordered[i];
    ReadyIs(ordered, f);
    if s.id !in f.finished && s.id !in f.blocked {
      assert s in ordered && s !in Ready(ordered, f);
      var d :| d in s.dependsOn && !Done(ViewsOf(f.state.steps), d);
      var j := EarlierDependency(ordered, g, i, d);
      NothingReady(ordered, g, f, j);
      assert s in ordered && d in DependsOn(g, s.id);
      ReachesEdge(g, s.id, d);
      if d !in f.blocked {
        var b :| b in f.blocked && Reaches(g, d, b);
        ReachesTransitive(g, s.id, d, b);
      }
    }
  }

  lemma {:induction false} FullSet(ids: seq<string>, s: set<string>)
    requires NoDuplicates(ids) && (forall x :: x in s ==> x in ids)
    ensures |s| <= |ids|
    ensures |s| == |ids| ==> forall x :: x in ids ==> x in s
  {
    if ids != [] {
      var rest := ids[1..];
      assert forall x :: x in s - {ids[0]} ==> x in rest;
      FullSet(rest, s - {ids[0]});
      assert ids == [ids[0]] + rest;
    }
  }

  lemma BookPoll(ordered: seq<Step>, g: Deps, f: Frame, signal: Signal)
    requires Schedule(ordered, g) && Book(ordered, g, f) && f.phase.Top?
    ensures Book(ordered, g, ApplyPoll(ordered, f, signal))
  {
    var f' := ApplyPoll(ordered, f, signal);
    FullSet(IdsOf(ordered), f.finished);
    if |f.finished| >= |ordered| {
      forall s | s in ordered ensures s.id in f.finished {
        var i :| 0 <= i < |ordered| && ordered[i] == s;
        assert IdsOf(ordered)[i] in IdsOf(ordered);
      }
    } else if signal == Proceed {
      ReadyIs(ordered, f);
      ReadyAscends(ordered, g, f);
      if Ready(ordered, f) == [] {
        forall s | s in ordered ensures s.id in f.finished || Waits(g, f, s.id) {
          var i :| 0 <= i < |ordered| && ordered[i] == s;
          NothingReady(ordered, g, f, i);
        }
        if f.blocked == {} {
          SomeUnfinished(ordered, f.finished);
          assert false;
        }
      } else {
        assert Pending(f') == Ready(ordered, f);
      }
    }
  }

  lemma {:induction false} SomeUnfinished(ordered: seq<Step>, finished: set<string>)
    requires |finished| < |ordered| && NoDuplicates(IdsOf(ordered))
    ensures exists s :: s in ordered && s.id !in finished
  {
    var rest := ordered[1..];
    assert ordered[0] in ordered;
    if ordered[0].id in finished {
      var smaller := finished - {ordered[0].id};
      assert IdsOf(rest) == IdsOf(ordered)[1..];
      SomeUnfinished(rest, smaller);
      var s :| s in rest && s.id !in smaller;
      var i :| 0 <= i < |rest| && rest[i] == s;
      assert IdsOf(ordered)[0] != IdsOf(ordered)[i + 1];
      assert s in ordered;
    }
  }

  /** Only the state of step `id` may differ. */
  ghost predicate OnlyAt(m: Steps, m': Steps, id: string) {
    m' == m || (id in m' && m' == m[id := m'[id]])
  }

  lemma OnlyAtViews(m: Steps, m': Steps, id: string)
    requires OnlyAt(m, m', id)
    ensures forall x :: x != id ==> (x in ViewsOf(m) <==> x in ViewsOf(m')) && (x in ViewsOf(m) ==> ViewsOf(m)[x] == ViewsOf(m')[x])
    ensures forall x :: x != id ==> (Done(ViewsOf(m), x) <==> Done(ViewsOf(m'), x))
  {}

  ghost predicate Ended(f: Frame, f': Frame) {
    && f'.phase.Over? && (f'.phase.outcome.Failed? || f'.phase.outcome.Panicked?)
    && f'.state.steps == f.state.steps && f'.plans == f.plans && f'.finished == f.finished && f'.blocked == f.blocked
  }

  ghost predicate Finishes(f: Frame, f': Frame, id: string) {
    f'.plans == f.plans && f'.finished == f.finished + {id} && f'.blocked == f.blocked && Done(ViewsOf(f'.state.steps), id)
  }

  ghost predicate Blocks(f: Frame, f': Frame, id: string) {
    && f'.plans == f.plans && f'.finished == f.finished && f'.blocked == f.blocked + {id}
    && id in f'.state.steps && f'.state.steps[id].status == AwaitingApproval
  }

  ghost predicate Starts(f: Frame, f': Frame, step: Step) {
    && |f'.plans| == |f.plans| + 1 && f'.plans[..|f.plans|] == f.plans && f'.plans[|f.plans|].step == step
    && f'.finished == f.finished && f'.blocked == f.blocked
    && step.id in f'.state.steps && f'.state.steps[step.id] == f'.plans[|f.plans|].state
    && f'.state.steps[step.id].status == Running
  }

  /** What examining the first ready step can do to a frame. */
  ghost predicate Examined(f: Frame, f': Frame) {
    && f.phase.Planning? && f.phase.ready != []
    && var step := f.phase.ready[0];
    && OnlyAt(f.state.steps, f'.state.steps, step.id)
    && (Ended(f, f') || (f'.phase == Planning(f.phase.ready[1..]) && (Finishes(f, f', step.id) || Blocks(f, f', step.id) || Starts(f, f', step))))
  }

  lemma ExamineKeepsWave(c: Config, f: Frame, answer: Answer)
    requires f.phase.Planning? && f.phase.ready != []
    ensures ApplyExamine(c, f, answer).failure == f.failure && ApplyExamine(c, f, answer).interrupted == f.interrupted
    ensures !ApplyExamine(c, f, answer).phase.Over? ==> ApplyExamine(c, f, answer).phase == Planning(f.phase.ready[1..])
  {}

  lemma ExamineTouchesOne(c: Config, f: Frame, answer: Answer)
    requires f.phase.Planning? && f.phase.ready != []
    ensures OnlyAt(f.state.steps, ApplyExamine(c, f, answer).state.steps, f.phase.ready[0].id)
  {}

  lemma ExamineOutcome(c: Config, f: Frame, answer: Answer)
    requires f.phase.Planning? && f.phase.ready != []
    ensures var f', step := ApplyExamine(c, f, answer), f.phase.ready[0];
            Ended(f, f') || (f'.phase == Planning(f.phase.ready[1..]) && (Finishes(f, f', step.id) || Blocks(f, f', step.id) || Starts(f, f', step)))
  {}

  lemma ExamineEffect(c: Config, f: Frame, answer: Answer)
    requires f.phase.Planning? && f.phase.ready != []
    ensures Examined(f, ApplyExamine(c, f, answer))
  {
    ExamineTouchesOne(c, f, answer);
    ExamineOutcome(c, f, answer);
  }

  /** At most one step state is written, by a transition, and one event is logged. */
  ghost predicate Writes(c: Config, s: State, s': State, step: Step, input: Json, status: Status, approval: string) {
    && s'.id == s.id
    && (s'.events == s.events || exists kind :: s'.events == s.events + [Event(kind, step.id)])
    && (|| (s'.steps == s.steps && s'.nextId == s.nextId)
        || (s'.nextId == s.nextId + 1
            && s'.steps == s.steps[step.id := Transition(c, s, step, input, c.hash(input), status).(approval := approval)]))
  }

  lemma ExamineLogs(c: Config, f: Frame, answer: Answer)
    requires f.phase.Planning? && f.phase.ready != []
    ensures var s, s' := f.state, ApplyExamine(c, f, answer).state;
            s'.events == s.events || exists kind :: s'.events == s.events + [Event(kind, f.phase.ready[0].id)]
  {
    var s, s' := f.state, ApplyExamine(c, f, answer).state;
    assert s'.events == s.events || s'.events == s.events + [Event(s'.events[|s.events|].kind, f.phase.ready[0].id)];
  }

  lemma ExamineWrites(c: Config, f: Frame, answer: Answer) returns (input: Json, status: Status, approval: string)
    requires f.phase.Planning? && f.phase.ready != []
    ensures Writes(c, f.state, ApplyExamine(c, f, answer).state, f.phase.ready[0], input, status, approval)
  {
    var step := f.phase.ready[0];
    var resolution := Resolve(c.decode, step.input, step.bindings, ViewsOf(f.state.steps));
    var s' := ApplyExamine(c, f, answer).state;
    input := if resolution.Resolved? then resolution.input else Null;
    status := if s'.nextId != f.state.nextId then s'.steps[step.id].status else Running;
    approval := if s'.nextId != f.state.nextId then s'.steps[step.id].approval else "";
    ExamineLogs(c, f, answer);
  }

  lemma AscendsParts(ordered: seq<Step>, a: seq<Step>, s: Step, b: seq<Step>)
    requires Ascends(ordered, a + [s] + b)
    ensures Ascends(ordered, a) && Ascends(ordered, a + b)
    ensures forall x :: x in a + b ==> x.id != s.id
    ensures s in ordered
  {
    var all := a + [s] + b;
    assert all[|a|] == s;
    forall x | x in a + b ensures x in ordered && x.id != s.id {
      var i :| 0 <= i < |a + b| && (a + b)[i] == x;
      assert all[if i < |a| then i else i + 1] == x;
    }
    forall i, j | 0 <= i < j < |a + b| ensures RankOf(ordered, (a + b)[i].id) < RankOf(ordered, (a + b)[j].id) {
      assert (a + b)[i] == all[if i < |a| then i else i + 1];
      assert (a + b)[j] == all[if j < |a| then j else j + 1];
    }
    forall i, j | 0 <= i < j < |a| ensures RankOf(ordered, a[i].id) < RankOf(ordered, a[j].id) {
      assert a[i] == all[i] && a[j] == all[j];
    }
    forall x | x in a ensures x in ordered { assert x in a + b; }
  }

  lemma PendingAfterExamined(ordered: seq<Step>, f: Frame, f': Frame)
    requires PendingUnsettled(ordered, f) && Examined(f, f')
    ensures PendingUnsettled(ordered, f')
    ensures f.phase.ready[0] in ordered && !Settled(f, f.phase.ready[0].id)
  {
    var step, rest := f.phase.ready[0], f.phase.ready[1..];
    assert Pending(f) == StepsOf(f.plans) + [step] + rest;
    AscendsParts(ordered, StepsOf(f.plans), step, rest);
    assert step in Pending(f);
    if Ended(f, f') {
      assert Pending(f') == StepsOf(f.plans);
      assert forall s :: s in StepsOf(f.plans) ==> s in Pending(f);
    } else if |f'.plans| == |f.plans| {
      assert Pending(f') == StepsOf(f.plans) + rest;
      assert forall s :: s in StepsOf(f.plans) + rest ==> s in Pending(f);
    } else {
      assert StepsOf(f'.plans) == StepsOf(f.plans) + [step];
      assert Pending(f') == Pending(f);
    }
  }

  lemma StatusesAfterExamined(f: Frame, f': Frame)
    requires StatusesAgree(f) && Examined(f, f') && !Settled(f, f.phase.ready[0].id)
    ensures StatusesAgree(f')
  {}

  lemma InIds(ordered: seq<Step>, s: Step)
    requires s in ordered
    ensures s.id in IdsOf(ordered)
  {}

  lemma BookExamined(ordered: seq<Step>, g: Deps, f: Frame, f': Frame)
    requires Book(ordered, g, f) && Examined(f, f')
    ensures Book(ordered, g, f')
  {
    PendingAfterExamined(ordered, f, f');
    StatusesAfterExamined(f, f');
    InIds(ordered, f.phase.ready[0]);
  }

  lemma CommitKeepsPending(ordered: seq<Step>, f: Frame, verdict: Verdict, attempts: nat, saved: bool)
    requires PendingUnsettled(ordered, f) && f.phase.Committing? && f.plans != []
    ensures PendingUnsettled(ordered, ApplyCommit(f, verdict, attempts, saved))
    ensures f.plans[0].step in ordered && !Settled(f, f.plans[0].step.id)
  {
    var f' := ApplyCommit(f, verdict, attempts, saved);
    var step, rest := f.plans[0].step, StepsOf(f.plans[1..]);
    assert Pending(f) == [] + [step] + rest;
    AscendsParts(ordered, [], step, rest);
    assert Pending(f') == [] + rest;
    assert step in Pending(f);
    assert forall s :: s in [] + rest ==> s in Pending(f);
  }

  lemma BookCommit(ordered: seq<Step>, g: Deps, f: Frame, verdict: Verdict, attempts: nat, saved: bool)
    requires Book(ordered, g, f) && f.phase.Committing? && f.plans != []
    ensures Book(ordered, g, ApplyCommit(f, verdict, attempts, saved))
  {
    var f' := ApplyCommit(f, verdict, attempts, saved);
    CommitKeepsPending(ordered, f, verdict, attempts, saved);
    InIds(ordered, f.plans[0].step);
    OnlyAtViews(f.state.steps, f'.state.steps, f.plans[0].step.id);
  }

  lemma BookEndPlanning(ordered: seq<Step>, g: Deps, f: Frame, saved: bool)
    requires Book(ordered, g, f) && f.phase.Planning?
    ensures Book(ordered, g, ApplyEndPlanning(f, saved))
  {
    var f' := ApplyEndPlanning(f, saved);
    AscendsPrefix(ordered, StepsOf(f.plans), f.phase.ready);
    assert Pending(f') == StepsOf(f.plans);
    assert forall s :: s in Pending(f') ==> s in Pending(f);
  }

  lemma BookStep(c: Config, ordered: seq<Step>, g: Deps, f: Frame, l: Label)
    requires Schedule(ordered, g) && Book(ordered, g, f) && Enabled(c, f, l)
    ensures Book(ordered, g, Apply(c, ordered, f, l))
  {
    match l
    case Poll(signal) => BookPoll(ordered, g, f, signal);
    case Examine(answer) =>
      ExamineEffect(c, f, answer);
      BookExamined(ordered, g, f, ApplyExamine(c, f, answer));
    case EndPlanning(saved) => BookEndPlanning(ordered, g, f, saved);
    case Commit(verdict, attempts, saved) => BookCommit(ordered, g, f, verdict, attempts, saved);
    case EndWave(cancelled) =>
      assert Pending(ApplyEndWave(f, cancelled)) == Pending(f);
  }

  lemma AscendsPrefix(ordered: seq<Step>, a: seq<Step>, b: seq<Step>)
    requires Ascends(ordered, a + b)
    ensures Ascends(ordered, a)
  {
    forall i, j | 0 <= i < j < |a| ensures RankOf(ordered, a[i].id) < RankOf(ordered, a[j].id) {
      assert a[i] == (a + b)[i] && a[j] == (a + b)[j];
    }
    forall x | x in a ensures x in ordered { assert x in a + b; }
  }

  lemma BookInRuns(c: Config, ordered: seq<Step>, g: Deps, previous: Option<State>, run: string, tr: seq<Frame>, ls: seq<Label>)
    requires Schedule(ordered, g) && IsRun(c, ordered, tr, ls) && tr[0] == Begin(ordered, previous, run)
    ensures forall i :: 0 <= i < |tr| ==> Book(ordered, g, tr[i])
  {
    BookAtStart(ordered, g, previous, run);
    var inv, ok := (f: Frame) => Book(ordered, g, f), (f: Frame, l: Label) => true;
    forall f, l | inv(f) && ok(f, l) && Enabled(c, f, l) ensures inv(Apply(c, ordered, f, l)) {
      BookStep(c, ordered, g, f, l);
    }
    Invariance(c, ordered, inv, ok, tr, ls);
  }

  /** How runs of a validated definition end. The "no runnable steps" failure cannot
      happen; a completed run leaves every step succeeded or skipped; and a run that
      pauses for approvals has finished everything that does not wait for one. */
  lemma RunsEndWell(c: Config, d: Definition, previous: Option<State>, run: string, tr: seq<Frame>, ls: seq<Label>)
    requires Accepts(d, c.registry)
    requires var ordered := OrderedSteps(d, c.registry);
             IsRun(c, ordered, tr, ls) && tr[0] == Begin(ordered, previous, run)
    ensures var last, g := tr[|tr| - 1], Edges(ById(d.steps));
            && last.phase != Over(NoRunnableStep)
            && (last.phase == Over(Completed) ==> forall s :: s in d.steps ==> Done(ViewsOf(last.state.steps), s.id))
            && (last.phase == Over(PausedForApproval) ==>
                  && last.blocked != {}
                  && (forall id :: id in last.blocked ==> !Done(ViewsOf(last.state.steps), id))
                  && forall s :: s in d.steps ==> Done(ViewsOf(last.state.steps), s.id) || Waits(g, last, s.id))
  {
    AcceptedSchedule(d, c.registry);
    BookInRuns(c, OrderedSteps(d, c.registry), Edges(ById(d.steps)), previous, run, tr, ls);
  }

  // ---- termination ----

  /** The steps a run still has to settle: the measure of the engine loop. */
  function Unsettled(ordered: seq<Step>, f: Frame): int {
    |ordered| - |f.finished| - |f.blocked|
  }

  /** Where a wave that began with `bound` unsettled steps stands. */
  ghost predicate Advancing(ordered: seq<Step>, f: Frame, bound: int) {
    match f.phase
    case Top => Unsettled(ordered, f) < bound
    case Planning(ready) =>
      || Unsettled(ordered, f) - |f.plans| < bound
      || (Unsettled(ordered, f) <= bound && f.plans == [] && ready != [])
    case Committing => f.failure.None? && !f.interrupted ==> Unsettled(ordered, f) - |f.plans| < bound
    case Over(_) => true
  }

  lemma AdvancingExamined(ordered: seq<Step>, g: Deps, f: Frame, f': Frame, bound: int)
    requires PendingUnsettled(ordered, f) && Examined(f, f') && Advancing(ordered, f, bound)
    ensures Advancing(ordered, f', bound)
  {}

  lemma AdvancingCommit(ordered: seq<Step>, f: Frame, verdict: Verdict, attempts: nat, saved: bool, bound: int)
    requires PendingUnsettled(ordered, f) && f.phase.Committing? && f.plans != [] && Advancing(ordered, f, bound)
    ensures Advancing(ordered, ApplyCommit(f, verdict, attempts, saved), bound)
  {}

  lemma AdvancingStep(c: Config, ordered: seq<Step>, g: Deps, f: Frame, l: Label, bound: int)
    requires Book(ordered, g, f) && Enabled(c, f, l) && Advancing(ordered, f, bound)
    ensures Advancing(ordered, Apply(c, ordered, f, l), bound)
  {
    match l
    case Poll(signal) =>
    case Examine(answer) =>
      ExamineEffect(c, f, answer);
      AdvancingExamined(ordered, g, f, ApplyExamine(c, f, answer), bound);
    case EndPlanning(saved) =>
    case Commit(verdict, attempts, saved) => AdvancingCommit(ordered, f, verdict, attempts, saved, bound);
    case EndWave(cancelled) =>
  }

  lemma AdvancesInRuns(c: Config, ordered: seq<Step>, g: Deps, tr: seq<Frame>, ls: seq<Label>, bound: int)
    requires Schedule(ordered, g) && IsRun(c, ordered, tr, ls)
    requires Book(ordered, g, tr[0]) && Advancing(ordered, tr[0], bound)
    ensures Book(ordered, g, tr[|ls|]) && Advancing(ordered, tr[|ls|], bound)
  {
    var inv, ok := (f: Frame) => Book(ordered, g, f) && Advancing(ordered, f, bound), (f: Frame, l: Label) => true;
    forall f, l | inv(f) && ok(f, l) && Enabled(c, f, l) ensures inv(Apply(c, ordered, f, l)) {
      BookStep(c, ordered, g, f, l);
      AdvancingStep(c, ordered, g, f, l, bound);
    }
    Invariance(c, ordered, inv, ok, tr, ls);
    assert inv(tr[|ls|]);
  }

  lemma FirstAdvance(c: Config, ordered: seq<Step>, g: Deps, f: Frame, l: Label)
    requires Schedule(ordered, g) && Book(ordered, g, f) && f.phase.Top? && Enabled(c, f, l)
    ensures Book(ordered, g, Apply(c, ordered, f, l)) && Advancing(ordered, Apply(c, ordered, f, l), Unsettled(ordered, f))
  {
    match l
    case Poll(signal) =>
      BookPoll(ordered, g, f, signal);
      PollAdvances(ordered, f, signal);
    case _ =>
  }

  lemma PollAdvances(ordered: seq<Step>, f: Frame, signal: Signal)
    requires f.phase.Top?
    ensures Advancing(ordered, ApplyPoll(ordered, f, signal), Unsettled(ordered, f))
  {}

  lemma RunTail(c: Config, ordered: seq<Step>, tr: seq<Frame>, ls: seq<Label>)
    requires IsRun(c, ordered, tr, ls) && ls != []
    ensures Enabled(c, tr[0], ls[0]) && tr[1] == Apply(c, ordered, tr[0], ls[0])
    ensures IsRun(c, ordered, tr[1..], ls[1..])
  {}

  /** Every iteration of the loop that does not return settles at least one step. */
  lemma IterationsSettle(c: Config, ordered: seq<Step>, g: Deps, tr: seq<Frame>, ls: seq<Label>)
    requires Schedule(ordered, g) && IsRun(c, ordered, tr, ls) && |ls| > 0
    requires Book(ordered, g, tr[0]) && tr[0].phase.Top? && tr[|tr| - 1].phase.Top?
    ensures Unsettled(ordered, tr[|tr| - 1]) < Unsettled(ordered, tr[0])
    ensures Unsettled(ordered, tr[|tr| - 1]) >= 0
  {
    FirstAdvance(c, ordered, g, tr[0], ls[0]);
    RunTail(c, ordered, tr, ls);
    AdvancesInRuns(c, ordered, g, tr[1..], ls[1..], Unsettled(ordered, tr[0]));
    UnsettledNatural(ordered, g, tr[|tr| - 1]);
  }

  lemma UnsettledNatural(ordered: seq<Step>, g: Deps, f: Frame)
    requires Schedule(ordered, g) && Book(ordered, g, f)
    ensures Unsettled(ordered, f) >= 0
  {
    FullSet(IdsOf(ordered), f.finished + f.blocked);
    assert f.finished * f.blocked == {};
  }
}
