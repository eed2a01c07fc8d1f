/** The engine loop itself. The run state is updated in place and the environment is
    whatever it is; every execution is shown to be a run of the state machine. */
module Run {
  import opened Order
  import opened Graph
  import opened Json
  import opened Definition
  import opened Engine
  import opened Progress
  import opened Wrappers

  /** One call of the executor. */
  datatype Attempt = Returned(output: Raw) | Erred(reason: string, details: string, retryable: bool)

  datatype StepOutcome = StepOutcome(plan: Plan, verdict: Verdict, attempts: nat)

  /** The workflow run that the engine updates step by step. */
  class RunState {
    var id: string
    var status: RunStatus
    var steps: Steps
    var events: seq<Event>
    var summary: Raw
    var nextId: nat

    function Value(): State
      reads this
    {
      State(id, status, steps, events, summary, nextId)
    }

    constructor (run: string)
      ensures Value() == FreshState(run)
    {
      id, status, steps, events, summary, nextId := run, RunRunning, map[], [Event(WorkflowStarted, "")], Text(Obj(map[])), 0;
    }

    method Record(kind: EventKind, step: string)
      modifies this
      ensures Value() == Log(old(Value()), kind, step)
    {
      events := events + [Event(kind, step)];
    }

    /** `state.Steps[id] = ss` for a step state that drew a fresh id. */
    method Store(step: string, ss: StepState)
      modifies this
      ensures Value() == Put(old(Value()), step, ss)
    {
      steps, nextId := steps[step := ss], nextId + 1;
    }

    method Finish(end: RunStatus, kind: EventKind, step: string)
      modifies this
      ensures Value() == Log(old(Value()).(status := end), kind, step)
    {
      status := end;
      Record(kind, step);
    }
  }

  function MaxAttempts(step: Step): nat {
    if step.maxAttempts < 1 then 1 else step.maxAttempts
  }

  function Last<T>(s: seq<T>): T
    requires s != []
  {
    s[|s| - 1]
  }

  /** `executeStep`: the retry loop. Only retryable failures are retried, up to the
      attempt bound; a step whose context ends while it waits is interrupted. `calls`
      lists what the executor answered. */
  method ExecuteStep(plan: Plan) returns (verdict: Verdict, attempts: nat, calls: seq<Attempt>)
    ensures attempts == |calls| <= MaxAttempts(plan.step)
    ensures |calls| <= 1 || |calls| <= plan.step.maxAttempts
    ensures forall k :: 0 <= k < |calls| - 1 ==> calls[k].Erred? && calls[k].retryable
    ensures verdict.Success? <==> calls != [] && Last(calls).Returned?
    ensures verdict.Success? ==> verdict.output == Last(calls).output
    ensures verdict.Failure? ==> calls != [] && Last(calls).Erred? && verdict.reason == Last(calls).reason
                                 && (Last(calls).retryable ==> attempts == MaxAttempts(plan.step) && attempts >= plan.step.maxAttempts)
  {
    attempts, calls := 0, [];
    var acquired: bool := *;
    if !acquired {
      return Interrupted("budget"), attempts, calls;
    }
    while true
      invariant attempts == |calls| < MaxAttempts(plan.step)
      invariant forall k :: 0 <= k < |calls| ==> calls[k].Erred? && calls[k].retryable
      decreases MaxAttempts(plan.step) - attempts
    {
      var result: Attempt := *;
      attempts, calls := attempts + 1, calls + [result];
      var contextEnded: bool := *;
      match result
      case Returned(output) =>
        return Success(output), attempts, calls;
      case Erred(reason, details, retryable) =>
        if !retryable || attempts == MaxAttempts(plan.step) {
          verdict := if contextEnded then Interrupted(details) else Failure(reason, details);
          return;
        }
        if contextEnded {
          return Interrupted("context ended"), attempts, calls;
        }
    }
  }

  function PlansOf(outcomes: seq<StepOutcome>): (r: seq<Plan>)
    ensures |r| == |outcomes| && forall i :: 0 <= i < |r| ==> r[i] == outcomes[i].plan
  {
    seq(|outcomes|, i requires 0 <= i < |outcomes| => outcomes[i].plan)
  }

  /** `executeWave`: the steps finish in any order. */
  method ExecuteWave(plans: seq<Plan>) returns (outcomes: seq<StepOutcome>)
    ensures multiset(PlansOf(outcomes)) == multiset(plans)
  {
    outcomes := [];
    var running := plans;
    while running != []
      invariant multiset(PlansOf(outcomes)) + multiset(running) == multiset(plans)
      decreases |running|
    {
      var next: nat :| next < |running|;
      var plan := running[next];
      var verdict, attempts, _ := ExecuteStep(plan);
      var outcome := StepOutcome(plan, verdict, attempts);
      assert PlansOf(outcomes + [outcome]) == PlansOf(outcomes) + [plan];
      assert running == running[..next] + [plan] + running[next + 1..];
      outcomes, running := outcomes + [outcome], running[..next] + running[next + 1..];
    }
  }

  predicate EarlierPlan(ordered: seq<Step>, a: Plan, b: Plan) {
    RankOf(ordered, a.step.id) < RankOf(ordered, b.step.id)
  }

  lemma PlansOfCons(x: StepOutcome, s: seq<StepOutcome>)
    ensures multiset(PlansOf([x] + s)) == multiset{x.plan} + multiset(PlansOf(s))
  {
    assert PlansOf([x] + s) == [x.plan] + PlansOf(s);
  }

  lemma {:induction false} PlansOfInsert(less: (StepOutcome, StepOutcome) -> bool, x: StepOutcome, s: seq<StepOutcome>)
    ensures multiset(PlansOf(Insert(less, x, s))) == multiset{x.plan} + multiset(PlansOf(s))
  {
    if s == [] || !less(s[0], x) {
      PlansOfCons(x, s);
    } else {
      var head, rest := s[0], s[1..];
      assert s == [head] + rest;
      PlansOfInsert(less, x, rest);
      PlansOfCons(head, rest);
      PlansOfCons(head, Insert(less, x, rest));
    }
  }

  lemma {:induction false} PlansOfSort(less: (StepOutcome, StepOutcome) -> bool, s: seq<StepOutcome>)
    ensures multiset(PlansOf(SortBy(less, s))) == multiset(PlansOf(s))
  {
    if s != [] {
      var head, rest := s[0], s[1..];
      assert s == [head] + rest;
      PlansOfSort(less, rest);
      PlansOfInsert(less, head, SortBy(less, rest));
      PlansOfCons(head, rest);
    }
  }

  lemma RanksTotal(ordered: seq<Step>, plans: seq<Plan>)
    requires Ascends(ordered, StepsOf(plans))
    ensures TotalOn((a, b) => EarlierPlan(ordered, a, b), Elements(plans))
    ensures SortedBy((a, b) => EarlierPlan(ordered, a, b), plans)
  {}

  /** Sorting the outcomes by rank undoes the order of completion. */
  method SortOutcomes(ordered: seq<Step>, outcomes: seq<StepOutcome>, ghost plans: seq<Plan>) returns (sorted: seq<StepOutcome>)
    requires multiset(PlansOf(outcomes)) == multiset(plans) && Ascends(ordered, StepsOf(plans))
    ensures PlansOf(sorted) == plans
  {
    var less := (a: StepOutcome, b: StepOutcome) => EarlierPlan(ordered, a.plan, b.plan);
    sorted := SortBy(less, outcomes);
    PlansOfSort(less, outcomes);
    SortBySorted(less, outcomes);
    ghost var before := (a, b) => EarlierPlan(ordered, a, b);
    RanksTotal(ordered, plans);
    SortedUnique(before, plans, PlansOf(sorted));
  }

  // ---- the loop ----

  ghost predicate Mirrors(f: Frame, s: State, finished: set<string>, blocked: set<string>, plans: seq<Plan>) {
    f.state == s && f.finished == finished && f.blocked == blocked && f.plans == plans
  }

  /** A run so far, and the bookkeeping that holds at its last frame. */
  ghost predicate Tracks(c: Config, ordered: seq<Step>, g: Deps, start: Frame, tr: seq<Frame>, ls: seq<Label>) {
    IsRun(c, ordered, tr, ls) && tr[0] == start && Book(ordered, g, Last(tr))
  }

  lemma Advance(c: Config, ordered: seq<Step>, g: Deps, start: Frame, tr: seq<Frame>, ls: seq<Label>, l: Label)
    requires Schedule(ordered, g) && Tracks(c, ordered, g, start, tr, ls) && Enabled(c, Last(tr), l)
    ensures Tracks(c, ordered, g, start, tr + [Apply(c, ordered, Last(tr), l)], ls + [l])
    ensures Last(tr + [Apply(c, ordered, Last(tr), l)]) == Apply(c, ordered, Last(tr), l)
    ensures forall bound :: Advancing(ordered, Last(tr), bound) ==> Advancing(ordered, Apply(c, ordered, Last(tr), l), bound)
  {
    var f' := Apply(c, ordered, Last(tr), l);
    BookStep(c, ordered, g, Last(tr), l);
    forall bound | Advancing(ordered, Last(tr), bound) ensures Advancing(ordered, f', bound) {
      AdvancingStep(c, ordered, g, Last(tr), l, bound);
    }
    var tr', ls' := tr + [f'], ls + [l];
    forall i | 0 <= i < |ls'| ensures Enabled(c, tr'[i], ls'[i]) && tr'[i + 1] == Apply(c, ordered, tr'[i], ls'[i]) {
      if i < |ls| { assert tr'[i] == tr[i] && tr'[i + 1] == tr[i + 1] && ls'[i] == ls[i]; }
    }
  }

  lemma NextIsOrdered(ordered: seq<Step>, g: Deps, f: Frame)
    requires Book(ordered, g, f) && f.phase.Planning? && f.phase.ready != []
    ensures f.phase.ready[0] in ordered
  {}

  lemma AdvanceExamine(c: Config, ordered: seq<Step>, g: Deps, start: Frame, tr: seq<Frame>, ls: seq<Label>, answer: Answer, bound: int)
    requires Schedule(ordered, g) && Tracks(c, ordered, g, start, tr, ls) && Enabled(c, Last(tr), Label.Examine(answer))
    requires Advancing(ordered, Last(tr), bound)
    ensures var f' := ApplyExamine(c, Last(tr), answer);
            && Tracks(c, ordered, g, start, tr + [f'], ls + [Label.Examine(answer)]) && Last(tr + [f']) == f'
            && Advancing(ordered, f', bound)
            && f'.failure == Last(tr).failure && f'.interrupted == Last(tr).interrupted
            && (!f'.phase.Over? ==> f'.phase == Planning(Last(tr).phase.ready[1..]))
  {
    ExamineKeepsWave(c, Last(tr), answer);
    Advance(c, ordered, g, start, tr, ls, Label.Examine(answer));
  }

  /** The ids that a start over the first `n` steps marks as finished. */
  function KeptIds(ordered: seq<Step>, steps: Steps, n: nat): set<string>
    requires n <= |ordered|
  {
    set i | 0 <= i < n && KeptAtStart(ordered[i], steps) :: ordered[i].id
  }

  lemma KeptIdsNext(ordered: seq<Step>, steps: Steps, n: nat)
    requires n < |ordered|
    ensures KeptIds(ordered, steps, n + 1) == KeptIds(ordered, steps, n) + if KeptAtStart(ordered[n], steps) then {ordered[n].id} else {}
  {}

  lemma ResumeEventsNext(ordered: seq<Step>, steps: Steps, n: nat, before: seq<Event>)
    requires n < |ordered|
    ensures before + ResumeEvents(ordered[n..], steps)
         == before + (if KeptAtStart(ordered[n], steps) then [Event(StepResumed, ordered[n].id)] else []) + ResumeEvents(ordered[n + 1..], steps)
  {
    assert ordered[n..][1..] == ordered[n + 1..];
  }

  class Runner {
    const c: Config

    constructor (c: Config)
      ensures this.c == c
    {
      this.c := c;
    }

    method ResolveInput(step: Step, m: Views) returns (r: Resolution)
      requires WellFormedBindings(step.bindings)
      ensures r == Resolve(c.decode, step.input, step.bindings, m)
    {
      match step.input
      case Text(Obj(fields)) => r := AssignBindings(c.decode, fields, step.bindings, m);
      case _ => r := Resolve(c.decode, step.input, step.bindings, m);
    }

    /** The body of the planning loop. */
    method Examine(state: RunState, step: Step, finished: set<string>, blocked: set<string>, plans: seq<Plan>, ghost f: Frame)
      returns (finished': set<string>, blocked': set<string>, plans': seq<Plan>, end: Option<Outcome>, ghost answer: Answer)
      requires f.phase.Planning? && f.phase.ready != [] && f.phase.ready[0] == step
      requires WellFormedBindings(step.bindings)
      requires Mirrors(f, state.Value(), finished, blocked, plans)
      modifies state
      ensures Mirrors(ApplyExamine(c, f, answer), state.Value(), finished', blocked', plans')
      ensures end.Some? <==> ApplyExamine(c, f, answer).phase.Over?
      ensures end.Some? ==> ApplyExamine(c, f, answer).phase == Over(end.value)
    {
      finished', blocked', plans', end, answer := finished, blocked, plans, None, Granted;
      var m := ViewsOf(state.steps);
      var resolution := ResolveInput(step, m);
      if resolution == Unresolved {
        state.Finish(RunFailed, WorkflowFailed, step.id);
        end := Some(Outcome.Failed(step.id, "input_resolution"));
        return;
      }
      if resolution == InputPanics {
        end := Some(Panicked);
        return;
      }
      var input := resolution.input;
      var hash := c.hash(input);
      if step.id in state.steps && state.steps[step.id].status == Succeeded
         && (!step.rerunOnInputChange || state.steps[step.id].inputHash == hash) {
        finished' := finished + {step.id};
        state.Record(StepResumed, step.id);
        return;
      }
      var holds := Condition(step.condition, m);
      if holds == ConditionPanics {
        end := Some(Panicked);
        return;
      }
      if holds == DoesNotHold {
        state.Store(step.id, Transition(c, state.Value(), step, input, hash, Skipped));
        finished' := finished + {step.id};
        state.Record(StepSkipped, step.id);
        return;
      }
      var approved := false;
      if NeedsApproval(c, step) {
        if !c.approval {
          state.Store(step.id, Transition(c, state.Value(), step, input, hash, AwaitingApproval).(approval := "pending"));
          blocked' := blocked + {step.id};
          state.Record(ApprovalRequired, step.id);
          return;
        }
        var reply: Answer := *;
        answer := reply;
        if reply == Errored {
          state.Finish(RunFailed, WorkflowFailed, step.id);
          end := Some(Outcome.Failed(step.id, "approval"));
          return;
        }
        if reply == Rejected {
          state.Finish(RunFailed, WorkflowFailed, step.id);
          end := Some(Outcome.Failed(step.id, "approval_rejected"));
          return;
        }
        approved := true;
      }
      var ss := Transition(c, state.Value(), step, input, hash, Running).(approval := if approved then "approved" else "not_required");
      state.Store(step.id, ss);
      state.Record(StepStarted, step.id);
      plans' := plans + [Plan(step, ss, input, approved, ProviderOf(step, ManifestOf(c.registry, step.capability)))];
    }

    /** The planning loop over the ready steps. */
    method PlanWave(state: RunState, ready: seq<Step>, finished: set<string>, blocked: set<string>, ghost ordered: seq<Step>, ghost g: Deps,
                    ghost start: Frame, ghost tr: seq<Frame>, ghost ls: seq<Label>, ghost bound: int)
      returns (finished': set<string>, blocked': set<string>, plans: seq<Plan>, end: Option<Outcome>, ghost tr': seq<Frame>, ghost ls': seq<Label>)
      requires Schedule(ordered, g) && (forall s :: s in ordered ==> WellFormedBindings(s.bindings))
      requires Tracks(c, ordered, g, start, tr, ls) && Last(tr).phase == Planning(ready) && Advancing(ordered, Last(tr), bound)
      requires Mirrors(Last(tr), state.Value(), finished, blocked, [])
      modifies state
      ensures Tracks(c, ordered, g, start, tr', ls') && Advancing(ordered, Last(tr'), bound)
      ensures Mirrors(Last(tr'), state.Value(), finished', blocked', plans)
      ensures end.Some? ==> Last(tr').phase == Over(end.value)
      ensures end.None? ==> Enabled(c, Last(tr'), EndPlanning(true))
      ensures Last(tr').failure == Last(tr).failure && Last(tr').interrupted == Last(tr).interrupted
    {
      finished', blocked', plans, end, tr', ls' := finished, blocked, [], None, tr, ls;
      for i := 0 to |ready|
        invariant Tracks(c, ordered, g, start, tr', ls') && Advancing(ordered, Last(tr'), bound)
        invariant Mirrors(Last(tr'), state.Value(), finished', blocked', plans)
        invariant Last(tr').phase == Planning(ready[i..]) && end.None?
        invariant Last(tr').failure == Last(tr).failure && Last(tr').interrupted == Last(tr).interrupted
      {
        if |plans| >= Width(c) {
          break;
        }
        ghost var f, answer := Last(tr'), Granted;
        NextIsOrdered(ordered, g, f);
        finished', blocked', plans, end, answer := Examine(state, ready[i], finished', blocked', plans, f);
        AdvanceExamine(c, ordered, g, start, tr', ls', answer, bound);
        tr', ls' := tr' + [ApplyExamine(c, f, answer)], ls' + [Label.Examine(answer)];
        if end.Some? {
          return;
        }
        assert ready[i..][1..] == ready[i + 1..];
      }
    }

    /** The records of one outcome; the save that follows may fail. */
    method CommitOutcome(state: RunState, outcome: StepOutcome, finished: set<string>, failure: Option<(string, string)>, interrupted: bool,
                         saved: bool, ghost f: Frame)
      returns (finished': set<string>, failure': Option<(string, string)>, interrupted': bool)
      requires f.plans != [] && f.plans[0] == outcome.plan && f.state == state.Value() && f.finished == finished
      requires f.failure == failure && f.interrupted == interrupted
      modifies state
      ensures var f' := ApplyCommit(f, outcome.verdict, outcome.attempts, saved);
              f'.state == state.Value() && f'.finished == finished' && f'.failure == failure' && f'.interrupted == interrupted'
    {
      finished', failure', interrupted' := finished, failure, interrupted;
      var plan, verdict := outcome.plan, outcome.verdict;
      state.steps := state.steps[plan.step.id := Finished(plan, verdict, outcome.attempts)];
      match verdict {
        case Success(output) =>
          finished' := finished' + {plan.step.id};
          if plan.step.capability == "report.changes" && output != Empty {
            state.summary := output;
          }
        case Failure(reason, _) =>
          if failure'.None? {
            failure' := Some((plan.step.id, reason));
          }
        case Interrupted(_) =>
          interrupted' := true;
      }
      state.Record(VerdictEvent(verdict), plan.step.id);
    }

    /** Outcomes are committed and saved one by one, in execution order. */
    method CommitWave(state: RunState, outcomes: seq<StepOutcome>, finished: set<string>, ghost ordered: seq<Step>, ghost g: Deps,
                      ghost start: Frame, ghost tr: seq<Frame>, ghost ls: seq<Label>, ghost bound: int)
      returns (finished': set<string>, failure: Option<(string, string)>, interrupted: bool, saved: bool, ghost tr': seq<Frame>, ghost ls': seq<Label>)
      requires Schedule(ordered, g)
      requires Tracks(c, ordered, g, start, tr, ls) && Last(tr).phase.Committing? && Advancing(ordered, Last(tr), bound)
      requires Mirrors(Last(tr), state.Value(), finished, Last(tr).blocked, PlansOf(outcomes))
      requires Last(tr).failure.None? && !Last(tr).interrupted
      modifies state
      ensures Tracks(c, ordered, g, start, tr', ls') && Advancing(ordered, Last(tr'), bound)
      ensures Last(tr').state == state.Value() && Last(tr').finished == finished' && Last(tr').blocked == Last(tr).blocked
      ensures Last(tr').failure == failure && Last(tr').interrupted == interrupted
      ensures !saved ==> Last(tr').phase == Over(NotSaved)
      ensures saved ==> Last(tr').phase.Committing? && Last(tr').plans == []
    {
      finished', failure, interrupted, saved, tr', ls' := finished, None, false, true, tr, ls;
      for i := 0 to |outcomes|
        invariant Tracks(c, ordered, g, start, tr', ls') && Advancing(ordered, Last(tr'), bound)
        invariant Mirrors(Last(tr'), state.Value(), finished', Last(tr).blocked, PlansOf(outcomes)[i..])
        invariant Last(tr').phase.Committing? && Last(tr').failure == failure && Last(tr').interrupted == interrupted && saved
      {
        var verdict := outcomes[i].verdict;
        ghost var f := Last(tr');
        var stored: bool := *;
        saved := stored;
        finished', failure, interrupted := CommitOutcome(state, outcomes[i], finished', failure, interrupted, saved, f);
        Advance(c, ordered, g, start, tr', ls', Commit(verdict, outcomes[i].attempts, saved));
        tr', ls' := tr' + [ApplyCommit(f, verdict, outcomes[i].attempts, saved)], ls' + [Commit(verdict, outcomes[i].attempts, saved)];
        if !saved {
          return;
        }
        assert PlansOf(outcomes)[i..][1..] == PlansOf(outcomes)[i + 1..];
      }
    }

    /** One iteration of the loop that found steps ready. */
    method Iterate(state: RunState, ready: seq<Step>, finished: set<string>, blocked: set<string>, ghost ordered: seq<Step>, ranked: seq<Step>, ghost g: Deps,
                   ghost start: Frame, ghost tr: seq<Frame>, ghost ls: seq<Label>, ghost bound: int)
      returns (finished': set<string>, blocked': set<string>, end: Option<Outcome>, ghost tr': seq<Frame>, ghost ls': seq<Label>)
      requires Schedule(ordered, g) && (forall s :: s in ordered ==> WellFormedBindings(s.bindings)) && ranked == ordered
      requires Tracks(c, ordered, g, start, tr, ls) && Last(tr).phase == Planning(ready) && Advancing(ordered, Last(tr), bound)
      requires Mirrors(Last(tr), state.Value(), finished, blocked, []) && Last(tr).failure.None? && !Last(tr).interrupted
      modifies state
      ensures Tracks(c, ordered, g, start, tr', ls') && Advancing(ordered, Last(tr'), bound)
      ensures Mirrors(Last(tr'), state.Value(), finished', blocked', []) || end.Some?
      ensures Last(tr').state == state.Value()
      ensures Last(tr').phase == if end.Some? then Over(end.value) else Top
    {
      var plans: seq<Plan>;
      finished', blocked', plans, end, tr', ls' := PlanWave(state, ready, finished, blocked, ordered, g, start, tr, ls, bound);
      if end.Some? {
        return;
      }
      var saved: bool := *;
      Advance(c, ordered, g, start, tr', ls', EndPlanning(saved));
      tr', ls' := tr' + [ApplyEndPlanning(Last(tr'), saved)], ls' + [EndPlanning(saved)];
      if !saved {
        end := Some(NotSaved);
        return;
      }
      if plans == [] {
        return;
      }
      var outcomes := ExecuteWave(plans);
      assert Pending(Last(tr')) == StepsOf(plans);
      outcomes := SortOutcomes(ranked, outcomes, plans);
      var failure, interrupted;
      finished', failure, interrupted, saved, tr', ls' := CommitWave(state, outcomes, finished', ordered, g, start, tr', ls', bound);
      if !saved {
        end := Some(NotSaved);
        return;
      }
      var cancelled: bool := *;
      ghost var f := Last(tr');
      Advance(c, ordered, g, start, tr', ls', EndWave(cancelled));
      tr', ls' := tr' + [ApplyEndWave(f, cancelled)], ls' + [EndWave(cancelled)];
      if cancelled || interrupted {
        state.Finish(RunCancelled, WorkflowCancelled, "");
        end := Some(Outcome.Cancelled);
      } else if failure.Some? {
        state.Finish(RunFailed, WorkflowFailed, failure.value.0);
        end := Some(Outcome.Failed(failure.value.0, failure.value.1));
      }
    }

    method ReadySteps(ordered: seq<Step>, state: RunState, finished: set<string>, blocked: set<string>, ghost f: Frame) returns (ready: seq<Step>)
      requires f.state == state.Value() && f.finished == finished && f.blocked == blocked
      ensures ready == Ready(ordered, f)
    {
      ready := [];
      for i := 0 to |ordered|
        invariant ready + Ready(ordered[i..], f) == Ready(ordered, f)
      {
        assert ordered[i..][1..] == ordered[i + 1..];
        if ordered[i].id in finished || ordered[i].id in blocked {
          continue;
        }
        if DependenciesDone(ordered[i], ViewsOf(state.steps)) {
          ready := ready + [ordered[i]];
        }
      }
    }

    /** The main loop, from the first iteration on. */
    method Loop(state: RunState, ordered: seq<Step>, finished: set<string>, ghost g: Deps, ghost start: Frame)
      returns (end: Outcome, ghost tr: seq<Frame>, ghost ls: seq<Label>)
      requires Schedule(ordered, g) && (forall s :: s in ordered ==> WellFormedBindings(s.bindings))
      requires Mirrors(start, state.Value(), finished, {}, []) && start.phase.Top? && Book(ordered, g, start)
      modifies state
      ensures IsRun(c, ordered, tr, ls) && tr[0] == start
      ensures Last(tr).phase == Over(end) && Last(tr).state == state.Value()
    {
      var finished, blocked := finished, {};
      tr, ls := [start], [];
      while |finished| < |ordered|
        invariant Tracks(c, ordered, g, start, tr, ls) && Last(tr).phase.Top?
        invariant Mirrors(Last(tr), state.Value(), finished, blocked, [])
        decreases Unsettled(ordered, Last(tr))
      {
        ghost var f := Last(tr);
        ghost var bound := Unsettled(ordered, f);
        UnsettledNatural(ordered, g, f);
        var signal: Signal := *;
        Advance(c, ordered, g, start, tr, ls, Poll(signal));
        tr, ls := tr + [ApplyPoll(ordered, f, signal)], ls + [Poll(signal)];
        if signal == CancelRequested {
          state.Finish(RunCancelled, WorkflowCancelled, "");
          end := Outcome.Cancelled;
          return;
        }
        if signal == PauseRequested {
          state.Finish(RunPaused, WorkflowPaused, "");
          end := PausedByOperator;
          return;
        }
        var ready := ReadySteps(ordered, state, finished, blocked, f);
        if ready == [] {
          if blocked != {} {
            state.Finish(RunPaused, WorkflowPaused, "");
            end := PausedForApproval;
          } else {
            state.Finish(RunFailed, WorkflowFailed, "");
            end := NoRunnableStep;
          }
          return;
        }
        var over: Option<Outcome>;
        finished, blocked, over, tr, ls := Iterate(state, ready, finished, blocked, ordered, ordered, g, start, tr, ls, bound);
        if over.Some? {
          end := over.value;
          return;
        }
      }
      ghost var f := Last(tr);
      Advance(c, ordered, g, start, tr, ls, Poll(Proceed));
      tr, ls := tr + [ApplyPoll(ordered, f, Proceed)], ls + [Poll(Proceed)];
      state.Finish(RunCompleted, WorkflowCompleted, "");
      end := Completed;
    }

    /** Which finished steps a run starts with. */
    method StartRun(state: RunState, ordered: seq<Step>, resuming: bool) returns (finished: set<string>)
      modifies state
      ensures finished == KeptIds(ordered, old(state.steps), |ordered|)
      ensures state.Value() == old(state.Value()).(events := old(state.events) + if resuming then ResumeEvents(ordered, old(state.steps)) else [])
    {
      finished := {};
      for i := 0 to |ordered|
        invariant finished == KeptIds(ordered, old(state.steps), i)
        invariant state.Value() == old(state.Value()).(events := state.events)
        invariant resuming ==> state.events + ResumeEvents(ordered[i..], old(state.steps)) == old(state.events) + ResumeEvents(ordered, old(state.steps))
        invariant !resuming ==> state.events == old(state.events)
      {
        ResumeEventsNext(ordered, state.steps, i, state.events);
        KeptIdsNext(ordered, state.steps, i);
        if KeptAtStart(ordered[i], state.steps) {
          finished := finished + {ordered[i].id};
          if resuming {
            state.Record(StepResumed, ordered[i].id);
          }
        }
      }
    }

    method OrderSteps(d: Definition) returns (ordered: seq<Step>)
      requires Accepts(d, c.registry)
      ensures ordered == OrderedSteps(d, c.registry)
    {
      var byId := ById(d.steps);
      var order := TopologicalSort(Edges(byId));
      OrderedStepsByIndex(d, c.registry);
      assert forall i :: 0 <= i < |order| ==> order[i] in byId by {
        assert forall i :: 0 <= i < |order| ==> order[i] in Elements(order);
      }
      ordered := seq(|order|, i requires 0 <= i < |order| => byId[order[i]]);
    }

    /** `Run`: validate, start or resume, and loop to the end. Every execution is a run
        of the state machine over the definition's execution order. */
    method Execute(d: Definition, previous: RunState?, run: string)
      returns (error: Option<Error>, state: RunState?, end: Outcome, ghost tr: seq<Frame>, ghost ls: seq<Label>)
      requires previous != null ==> previous.id == run
      modifies previous
      ensures error.None? <==> Accepts(d, c.registry)
      ensures error.Some? ==> state == null && (previous != null ==> unchanged(previous))
      ensures error.None? ==>
        && state != null && (if previous == null then fresh(state) else state == previous)
        && var before, ordered := (if previous == null then None else Some(old(previous.Value()))), OrderedSteps(d, c.registry);
        || (end == NotSaved && state.Value() == StartState(before, run))
        || (IsRun(c, ordered, tr, ls) && tr[0] == Begin(ordered, before, run)
            && Last(tr).phase == Over(end) && Last(tr).state == state.Value())
    {
      state, end, tr, ls := null, NotSaved, [], [];
      error := Validate(d, c.registry);
      if error.Some? {
        return;
      }
      var running: RunState;
      if previous == null {
        running := new RunState(run);
      } else {
        running := previous;
        running.status := RunRunning;
        running.Record(WorkflowResumed, "");
      }
      state := running;
      var ordered := OrderSteps(d);
      ghost var g := Edges(ById(d.steps));
      var saved: bool := *;
      if !saved {
        return;
      }
      var finished := StartRun(running, ordered, previous != null);
      ghost var start := Begin(ordered, if previous == null then None else Some(old(previous.Value())), run);
      AcceptedSchedule(d, c.registry);
      BookAtStart(ordered, g, if previous == null then None else Some(old(previous.Value())), run);
      assert Mirrors(start, running.Value(), finished, {}, []);
      end, tr, ls := Loop(running, ordered, finished, g, start);
    }
  }
}
