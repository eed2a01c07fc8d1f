/** What each step of the engine does, told for every run and apart from the machine: the
    turn of a ready step, polling, committing an outcome and the end of a wave. */
module Turns {
  import opened Graph
  import opened Json
  import opened Definition
  import opened Engine
  import opened Progress
  import opened Resume
  import opened Waves
  import opened Approvals
  import opened Wrappers

  ghost predicate Logs(s: State, s': State, kind: EventKind, step: string) {
    s'.events == s.events + [Event(kind, step)]
  }

  // ---- the turn of a ready step ----

  /** A result of the step is kept: it succeeded, and its input need not or did not change. */
  ghost predicate KeepsResult(c: Config, steps: Steps, s: Step, input: Json) {
    s.id in steps && steps[s.id].status == Succeeded && (s.rerunOnInputChange ==> steps[s.id].inputHash == c.hash(input))
  }

  /** A step run that has not been attempted yet, under the key of its run, step and input. */
  ghost predicate IsUnattempted(c: Config, run: string, s: Step, input: Json, ss: StepState) {
    && ss.input == input && ss.inputHash == c.hash(input) && ss.key == c.digest(run + "\0" + s.id + "\0" + c.hash(input))
    && ss.output == Empty && ss.attempts == 0 && ss.error == ""
  }

  /** Only step `id` has a new state, and one event tells of it. */
  ghost predicate OnlyStep(f: Frame, f': Frame, id: string, kind: EventKind) {
    && id in f'.state.steps && f'.state.steps == f.state.steps[id := f'.state.steps[id]] && Logs(f.state, f'.state, kind, id)
    && f'.state.id == f.state.id && f'.state.status == f.state.status && f'.state.summary == f.state.summary
  }

  ghost predicate IsKept(f: Frame, f': Frame, s: Step) {
    && f'.finished == f.finished + {s.id} && f'.state == f.state.(events := f'.state.events) && Logs(f.state, f'.state, StepResumed, s.id)
  }

  ghost predicate IsSkipped(c: Config, f: Frame, f': Frame, s: Step, input: Json) {
    && f'.finished == f.finished + {s.id} && OnlyStep(f, f', s.id, StepSkipped)
    && var ss := f'.state.steps[s.id];
       ss.status == Skipped && ss.approval == "not_required" && IsUnattempted(c, f.state.id, s, input, ss)
  }

  /** The provider that the step names, or else the first one of its capability's manifest,
      or else the capability itself. */
  ghost predicate IsProvider(c: Config, s: Step, provider: string) {
    if s.provider != "" then provider == s.provider
    else if s.capability in c.registry.capabilities && c.registry.capabilities[s.capability].supportedProviders != []
            && c.registry.capabilities[s.capability].supportedProviders[0] != ""
    then provider == c.registry.capabilities[s.capability].supportedProviders[0]
    else provider == s.capability
  }

  /** The step was blocked or planned; `Approvals` says which. */
  ghost predicate IsBlockedOrPlanned(c: Config, f: Frame, f': Frame, s: Step, input: Json) {
    && f'.finished == f.finished
    && if f'.plans == f.plans then OnlyStep(f, f', s.id, ApprovalRequired) && IsUnattempted(c, f.state.id, s, input, f'.state.steps[s.id])
       else
         && OnlyStep(f, f', s.id, StepStarted) && |f'.plans| == |f.plans| + 1
         && var p := f'.plans[|f.plans|];
            p.input == input && IsProvider(c, s, p.provider) && IsUnattempted(c, f.state.id, s, input, p.state)
  }

  ghost predicate IsTurn(c: Config, f: Frame, f': Frame)
    requires f.phase.Planning? && f.phase.ready != []
  {
    var s, m := f.phase.ready[0], ViewsOf(f.state.steps);
    match Resolve(c.decode, s.input, s.bindings, m)
    case Unresolved => FailsAt(f, f', s, "input_resolution")
    case InputPanics => f' == f.(phase := Over(Panicked))
    case Resolved(input) =>
      if KeepsResult(c, f.state.steps, s, input) then IsKept(f, f', s)
      else match Condition(s.condition, m)
        case ConditionPanics => f' == f.(phase := Over(Panicked))
        case DoesNotHold => IsSkipped(c, f, f', s, input)
        case Holds => f'.phase.Over? || IsBlockedOrPlanned(c, f, f', s, input)
  }

  lemma HoldingTurn(c: Config, f: Frame, answer: Answer, input: Json)
    requires f.phase.Planning? && f.phase.ready != []
    requires var s, m := f.phase.ready[0], ViewsOf(f.state.steps);
             Resolve(c.decode, s.input, s.bindings, m) == Resolved(input) && Condition(s.condition, m) == Holds
             && !KeepsResult(c, f.state.steps, s, input)
    ensures ApplyExamine(c, f, answer).phase.Over? || IsBlockedOrPlanned(c, f, ApplyExamine(c, f, answer), f.phase.ready[0], input)
  {
    var step := f.phase.ready[0];
    var f', hash := ApplyExamine(c, f, answer), c.hash(input);
    assert KeyMaterial(f.state.id, step.id, hash) == f.state.id + "\0" + step.id + "\0" + hash;
    if f'.plans != f.plans { assert f'.plans == f.plans + [f'.plans[|f.plans|]]; }
  }

  lemma TurnIsATurn(c: Config, f: Frame, answer: Answer)
    requires f.phase.Planning? && f.phase.ready != []
    ensures IsTurn(c, f, ApplyExamine(c, f, answer))
  {
    var s, m := f.phase.ready[0], ViewsOf(f.state.steps);
    var r := Resolve(c.decode, s.input, s.bindings, m);
    if r.Resolved? && !KeepsResult(c, f.state.steps, s, r.input) && Condition(s.condition, m) == Holds {
      HoldingTurn(c, f, answer, r.input);
    }
  }

  /** In every run each ready step has its turn: its result is kept, it is skipped, planned
      with its input and provider, or blocked, or it ends the run. The next turn is that of
      the next ready step. */
  lemma TurnsAreTaken(c: Config, ordered: seq<Step>, tr: seq<Frame>, ls: seq<Label>, n: nat)
    requires IsRun(c, ordered, tr, ls) && n < |ls| && ls[n].Examine?
    ensures tr[n].phase.Planning? && tr[n].phase.ready != [] && IsTurn(c, tr[n], tr[n + 1])
    ensures tr[n + 1].phase.Over? || tr[n + 1].phase == Planning(tr[n].phase.ready[1..])
    ensures |tr[n].plans| < (if c.maxParallel < 1 then 1 else c.maxParallel)
  {
    assert Enabled(c, tr[n], ls[n]) && tr[n + 1] == Apply(c, ordered, tr[n], ls[n]);
    TurnIsATurn(c, tr[n], ls[n].answer);
  }

  // ---- polls and ends ----

  /** The run is over, with a status and an event that tells so, and nothing else changed. */
  ghost predicate EndsRun(f: Frame, f': Frame, outcome: Outcome, status: RunStatus, kind: EventKind, step: string) {
    && f'.phase == Over(outcome) && f'.state == f.state.(status := status, events := f'.state.events)
    && Logs(f.state, f'.state, kind, step) && f'.finished == f.finished && f'.blocked == f.blocked
  }

  /** The step is neither finished nor blocked, and all that it depends on is done. */
  ghost predicate CanStart(f: Frame, s: Step) {
    && s.id !in f.finished && s.id !in f.blocked
    && forall d :: d in s.dependsOn ==> d in f.state.steps && (f.state.steps[d].status == Succeeded || f.state.steps[d].status == Skipped)
  }

  ghost predicate IsPolled(ordered: seq<Step>, f: Frame, signal: Signal, f': Frame) {
    if |f.finished| >= |ordered| then EndsRun(f, f', Completed, RunCompleted, WorkflowCompleted, "")
    else match signal
      case CancelRequested => EndsRun(f, f', Outcome.Cancelled, RunCancelled, WorkflowCancelled, "")
      case PauseRequested => EndsRun(f, f', PausedByOperator, RunPaused, WorkflowPaused, "")
      case Proceed =>
        if exists s :: s in ordered && CanStart(f, s) then
          && f'.phase.Planning? && (forall s :: s in f'.phase.ready <==> s in ordered && CanStart(f, s)) && Ascends(ordered, f'.phase.ready)
          && f' == f.(phase := f'.phase, plans := [], failure := None, interrupted := false)
        else if f.blocked != {} then EndsRun(f, f', PausedForApproval, RunPaused, WorkflowPaused, "")
        else EndsRun(f, f', NoRunnableStep, RunFailed, WorkflowFailed, "")
  }

  lemma StartersAreReady(f: Frame, s: Step)
    ensures CanStart(f, s) <==> IsReady(s, f)
  {
    assert forall d :: Done(ViewsOf(f.state.steps), d) <==>
      d in f.state.steps && (f.state.steps[d].status == Succeeded || f.state.steps[d].status == Skipped);
  }

  lemma ReadyAreStarters(ordered: seq<Step>, g: Deps, f: Frame)
    requires Schedule(ordered, g)
    ensures forall s :: s in Ready(ordered, f) <==> s in ordered && CanStart(f, s)
    ensures Ascends(ordered, Ready(ordered, f))
    ensures Ready(ordered, f) != [] <==> exists s :: s in ordered && CanStart(f, s)
  {
    ReadyIs(ordered, f);
    ReadyAscends(ordered, g, f);
    forall s ensures CanStart(f, s) <==> IsReady(s, f) { StartersAreReady(f, s); }
    if Ready(ordered, f) != [] { assert Ready(ordered, f)[0] in Ready(ordered, f); }
  }

  lemma PollIsAPoll(ordered: seq<Step>, g: Deps, f: Frame, signal: Signal)
    requires Schedule(ordered, g)
    ensures IsPolled(ordered, f, signal, ApplyPoll(ordered, f, signal))
  {
    ReadyAreStarters(ordered, g, f);
  }

  /** In every run an iteration begins with what the operator asked for, and otherwise with
      the steps that can start, in the planned order. */
  lemma PollsAreObeyed(c: Config, ordered: seq<Step>, g: Deps, tr: seq<Frame>, ls: seq<Label>, n: nat)
    requires Schedule(ordered, g) && IsRun(c, ordered, tr, ls) && n < |ls| && ls[n].Poll?
    ensures IsPolled(ordered, tr[n], ls[n].signal, tr[n + 1])
  {
    assert Enabled(c, tr[n], ls[n]) && tr[n + 1] == Apply(c, ordered, tr[n], ls[n]);
    PollIsAPoll(ordered, g, tr[n], ls[n].signal);
  }

  /** In every run a wave that was cancelled or interrupted cancels the run, one with a
      primary failure fails it at that step, and any other goes on. */
  lemma WavesEnd(c: Config, ordered: seq<Step>, tr: seq<Frame>, ls: seq<Label>, n: nat)
    requires IsRun(c, ordered, tr, ls) && n < |ls| && ls[n].EndWave?
    ensures tr[n].plans == []
    ensures var f, f' := tr[n], tr[n + 1];
            if ls[n].cancelled || f.interrupted then EndsRun(f, f', Outcome.Cancelled, RunCancelled, WorkflowCancelled, "")
            else if f.failure.Some?
            then EndsRun(f, f', Outcome.Failed(f.failure.value.0, f.failure.value.1), RunFailed, WorkflowFailed, f.failure.value.0)
            else f' == f.(phase := Top)
  {
    assert Enabled(c, tr[n], ls[n]) && tr[n + 1] == Apply(c, ordered, tr[n], ls[n]);
  }

  /** In every run planning ends when no ready step is left or the wave is full; the plans
      are then carried out, if they could be saved. */
  lemma PlanningEnds(c: Config, ordered: seq<Step>, tr: seq<Frame>, ls: seq<Label>, n: nat)
    requires IsRun(c, ordered, tr, ls) && n < |ls| && ls[n].EndPlanning?
    ensures tr[n].phase.Planning? && (tr[n].phase.ready == [] || |tr[n].plans| >= if c.maxParallel < 1 then 1 else c.maxParallel)
    ensures tr[n + 1] == tr[n].(phase := if !ls[n].saved then Over(NotSaved) else if tr[n].plans == [] then Top else Committing)
  {
    assert Enabled(c, tr[n], ls[n]) && tr[n + 1] == Apply(c, ordered, tr[n], ls[n]);
  }

  // ---- the start ----

  /** The step succeeded in the earlier run and need not run again. */
  ghost predicate IsRetained(before: State, s: Step) {
    s.id in before.steps && before.steps[s.id].status == Succeeded && !s.rerunOnInputChange
  }

  ghost predicate SaysResumed(ordered: seq<Step>, before: State, e: Event) {
    exists s :: s in ordered && IsRetained(before, s) && e == Event(StepResumed, s.id)
  }

  /** A fresh run starts with nothing. A resumed one starts with the state of the earlier
      run, whatever its status was, keeps what need not run again, and says so. */
  ghost predicate IsStart(ordered: seq<Step>, previous: Option<State>, run: string, f: Frame) {
    && f.phase.Top? && f.plans == [] && f.blocked == {} && f.failure.None? && !f.interrupted && f.state.status == RunRunning
    && match previous
       case None =>
         && f.state.id == run && f.state.steps == map[] && f.state.summary == Text(Obj(map[])) && f.finished == {}
         && f.state.events == [Event(WorkflowStarted, "")]
       case Some(before) =>
         && f.state == before.(status := RunRunning, events := f.state.events)
         && (forall id :: id in f.finished <==> exists s :: s in ordered && s.id == id && IsRetained(before, s))
         && before.events + [Event(WorkflowResumed, "")] <= f.state.events
         && forall e :: e in f.state.events[|before.events| + 1..] <==> SaysResumed(ordered, before, e)
  }

  lemma {:induction false} ResumedOnes(ordered: seq<Step>, before: State, e: Event)
    ensures e in ResumeEvents(ordered, before.steps) <==> SaysResumed(ordered, before, e)
  {
    if ordered != [] {
      ResumedOnes(ordered[1..], before, e);
      assert ordered == [ordered[0]] + ordered[1..];
    }
  }

  lemma RunsStartSo(ordered: seq<Step>, previous: Option<State>, run: string)
    ensures IsStart(ordered, previous, run, Begin(ordered, previous, run))
  {
    var f := Begin(ordered, previous, run);
    if previous.Some? {
      var before := previous.value;
      var resumed := before.events + [Event(WorkflowResumed, "")];
      assert f.state.events == resumed + ResumeEvents(ordered, before.steps);
      assert f.state.events[|before.events| + 1..] == ResumeEvents(ordered, before.steps);
      forall e { ResumedOnes(ordered, before, e); }
      forall id ensures id in f.finished <==> exists s :: s in ordered && s.id == id && IsRetained(before, s) {
        if s :| s in ordered && s.id == id && IsRetained(before, s) {
          var i :| 0 <= i < |ordered| && ordered[i] == s;
          assert KeptAtStart(ordered[i], before.steps);
        }
      }
    }
  }

  // ---- what is recorded ----

  /** The state of a step after its outcome was committed. */
  ghost predicate IsRecorded(p: Plan, verdict: Verdict, attempts: nat, ss: StepState) {
    && ss.runId == p.state.runId && ss.key == p.state.key && ss.input == p.state.input && ss.inputHash == p.state.inputHash
    && ss.approval == p.state.approval && ss.attempts == attempts
    && match verdict
       case Success(output) => ss.status == Succeeded && ss.output == output && ss.error == ""
       case Failure(reason, _) => ss.status == Status.Failed && ss.output == Empty && ss.error == reason
       case Interrupted(_) => ss.status == Status.Cancelled && ss.output == Empty && ss.error == "cancelled"
  }

  /** Plans carry no error. */
  ghost predicate PlansClean(f: Frame) {
    forall i :: 0 <= i < |f.plans| ==> f.plans[i].state.error == ""
  }

  lemma StartedClean(c: Config, f: Frame, answer: Answer)
    requires f.phase.Planning? && f.phase.ready != [] && PlansClean(f)
    ensures PlansClean(ApplyExamine(c, f, answer))
  {
    var f' := ApplyExamine(c, f, answer);
    assert f'.plans == f.plans || f'.plans == f.plans + [f'.plans[|f.plans|]];
  }

  lemma CleanStep(c: Config, ordered: seq<Step>, f: Frame, l: Label)
    requires Enabled(c, f, l) && PlansClean(f)
    ensures PlansClean(Apply(c, ordered, f, l))
  {
    if l.Examine? {
      StartedClean(c, f, l.answer);
    } else {
      OtherStepsPlanNothing(c, ordered, f, l);
      var f' := Apply(c, ordered, f, l);
      forall i | 0 <= i < |f'.plans| ensures f'.plans[i].state.error == "" {
        assert f'.plans[i] in f'.plans && f'.plans[i] in f.plans;
      }
    }
  }

  lemma RunsStayClean(c: Config, ordered: seq<Step>, previous: Option<State>, run: string, tr: seq<Frame>, ls: seq<Label>)
    requires IsRun(c, ordered, tr, ls) && tr[0] == Begin(ordered, previous, run)
    ensures forall n :: 0 <= n < |tr| ==> PlansClean(tr[n])
  {
    var inv, ok := (f: Frame) => PlansClean(f), (f: Frame, l: Label) => true;
    forall f, l | inv(f) && ok(f, l) && Enabled(c, f, l) ensures inv(Apply(c, ordered, f, l)) {
      CleanStep(c, ordered, f, l);
    }
    Invariance(c, ordered, inv, ok, tr, ls);
  }

  /** In every run, committing an outcome records it for that step and for no other: its
      status, output, error and attempts, and one event. The summary changes only with the
      output of a successful change report, and the first primary failure of a wave stays
      its failure. */
  lemma CommitsAreRecorded(c: Config, ordered: seq<Step>, g: Deps, previous: Option<State>, run: string, tr: seq<Frame>, ls: seq<Label>, n: nat)
    requires Schedule(ordered, g) && IsRun(c, ordered, tr, ls) && tr[0] == Begin(ordered, previous, run)
    requires n < |ls| && ls[n].Commit?
    ensures tr[n].plans != []
    ensures var p, s, s', verdict := tr[n].plans[0], tr[n].state, tr[n + 1].state, ls[n].verdict;
            && p.step.id in s'.steps && IsRecorded(p, verdict, ls[n].attempts, s'.steps[p.step.id])
            && (forall id :: id != p.step.id ==> (id in s'.steps <==> id in s.steps) && (id in s.steps ==> s'.steps[id] == s.steps[id]))
            && Logs(s, s', if verdict.Success? then StepSucceeded else if verdict.Failure? then StepFailed else StepCancelled, p.step.id)
            && (p.step.id in tr[n + 1].finished <==> verdict.Success?)
            && tr[n + 1].failure == (if tr[n].failure.Some? then tr[n].failure
                                     else if verdict.Failure? then Some((p.step.id, verdict.reason)) else None)
            && tr[n + 1].interrupted == (tr[n].interrupted || verdict.Interrupted?)
            && tr[n + 1].phase == (if ls[n].saved then tr[n].phase else Over(NotSaved))
            && s'.summary == (if verdict.Success? && p.step.capability == "report.changes" && verdict.output != Empty then verdict.output else s.summary)
  {
    assert Enabled(c, tr[n], ls[n]) && tr[n + 1] == Apply(c, ordered, tr[n], ls[n]);
    RunsStayApart(c, ordered, g, previous, run, tr, ls);
    RunsStayClean(c, ordered, previous, run, tr, ls);
    assert Apart(ordered, g, tr[n]) && PlansClean(tr[n]);
    CommittedUnsettled(ordered, tr[n]);
  }

  lemma CommittedUnsettled(ordered: seq<Step>, f: Frame)
    requires PendingUnsettled(ordered, f) && f.plans != []
    ensures f.plans[0].step.id !in f.finished
  {
    assert Pending(f)[0] == f.plans[0].step;
  }
}
