/** The workflow engine as a state machine. A frame is the engine's state between two
    effects; a label carries what the environment decides at that point: operator
    signals, approval answers, what the executor returned, whether a save succeeded.
    A run is any sequence of enabled labels, so every statement about runs covers every
    executor, every operator and every failing persister. */
module Engine {
  import opened Json
  import opened Definition
  import opened Wrappers

  datatype StepState = StepState(
    runId: nat,
    status: Status,
    input: Json,
    output: Raw,
    key: string,
    inputHash: string,
    approval: string,
    attempts: nat,
    error: string)

  type Steps = map<string, StepState>

  datatype RunStatus = RunRunning | RunPaused | RunCompleted | RunFailed | RunCancelled

  datatype EventKind =
    | WorkflowStarted | WorkflowResumed | WorkflowPaused | WorkflowFailed | WorkflowCancelled | WorkflowCompleted
    | StepResumed | StepSkipped | ApprovalRequired | StepStarted | StepSucceeded | StepFailed | StepCancelled

  datatype Event = Event(kind: EventKind, step: string)

  /** `nextId` stands for the supply of fresh ids. */
  datatype State = State(id: string, status: RunStatus, steps: Steps, events: seq<Event>, summary: Raw, nextId: nat)

  /** `hash` is the hex digest of the marshalled input and `digest` that of a string;
      `approval` says whether an approval function is installed. */
  datatype Config = Config(
    registry: Registry,
    decode: Decoder,
    hash: Json -> string,
    digest: string -> string,
    maxParallel: int,
    approval: bool)

  datatype Plan = Plan(step: Step, state: StepState, input: Json, approved: bool, provider: string)

  datatype Outcome =
    | Completed
    | PausedByOperator
    | PausedForApproval
    | Cancelled
    | Failed(step: string, reason: string)
    | NoRunnableStep
    | NotSaved
    | Panicked

  datatype Phase =
    | Top
    | Planning(ready: seq<Step>)
    | Committing
    | Over(outcome: Outcome)

  /** `failure` is the first primary failure of the wave and `interrupted` records that
      a step of the wave saw the run context end. */
  datatype Frame = Frame(
    state: State,
    finished: set<string>,
    blocked: set<string>,
    phase: Phase,
    plans: seq<Plan>,
    failure: Option<(string, string)>,
    interrupted: bool)

  datatype Signal = Proceed | PauseRequested | CancelRequested

  datatype Answer = Granted | Rejected | Errored

  datatype Verdict = Success(output: Raw) | Failure(reason: string, details: string) | Interrupted(details: string)

  datatype Label =
    | Poll(signal: Signal)
    | Examine(answer: Answer)
    | EndPlanning(saved: bool)
    | Commit(verdict: Verdict, attempts: nat, saved: bool)
    | EndWave(cancelled: bool)

  // ---- state helpers ----

  function ViewsOf(steps: Steps): Views {
    map id | id in steps :: View(steps[id].status, steps[id].output)
  }

  function Log(s: State, kind: EventKind, step: string): State {
    s.(events := s.events + [Event(kind, step)])
  }

  function KeyMaterial(run: string, step: string, hash: string): string {
    run + "\0" + step + "\0" + hash
  }

  function IdempotencyKey(c: Config, run: string, step: string, hash: string): string {
    c.digest(KeyMaterial(run, step, hash))
  }

  /** `transitionStep`: a new step run, which keeps the id of the previous one when the
      idempotency key is the same. */
  function Transition(c: Config, s: State, step: Step, input: Json, hash: string, status: Status): StepState {
    var key := IdempotencyKey(c, s.id, step.id, hash);
    var runId := if step.id in s.steps && s.steps[step.id].key == key then s.steps[step.id].runId else s.nextId;
    StepState(runId, status, input, Empty, key, hash, "not_required", 0, "")
  }

  function Put(s: State, id: string, ss: StepState): State {
    s.(steps := s.steps[id := ss], nextId := s.nextId + 1)
  }

  function Width(c: Config): int {
    if c.maxParallel < 1 then 1 else c.maxParallel
  }

  function ManifestOf(r: Registry, capability: string): Manifest {
    if capability in r.capabilities then r.capabilities[capability] else Manifest(false, [])
  }

  function ProviderOf(step: Step, m: Manifest): string {
    if step.provider != "" then step.provider
    else if m.supportedProviders != [] && m.supportedProviders[0] != "" then m.supportedProviders[0]
    else step.capability
  }

  predicate NeedsApproval(c: Config, step: Step) {
    step.approvalRequired || ManifestOf(c.registry, step.capability).approvalRequired
  }

  predicate DependenciesDone(step: Step, m: Views) {
    forall d :: d in step.dependsOn ==> Done(m, d)
  }

  predicate IsReady(step: Step, f: Frame) {
    step.id !in f.finished && step.id !in f.blocked && DependenciesDone(step, ViewsOf(f.state.steps))
  }

  /** The unfinished, unblocked steps whose dependencies are done, in execution order. */
  function Ready(ordered: seq<Step>, f: Frame): seq<Step> {
    if ordered == [] then []
    else (if IsReady(ordered[0], f) then [ordered[0]] else []) + Ready(ordered[1..], f)
  }

  function Stop(f: Frame, status: RunStatus, kind: EventKind, step: string, outcome: Outcome): Frame {
    f.(state := Log(f.state.(status := status), kind, step), phase := Over(outcome))
  }

  function Fail(f: Frame, step: string, reason: string): Frame {
    Stop(f, RunFailed, WorkflowFailed, step, Outcome.Failed(step, reason))
  }

  // ---- the steps of the machine ----

  /** The head of the loop. */
  function ApplyPoll(ordered: seq<Step>, f: Frame, signal: Signal): Frame {
    if |f.finished| >= |ordered| then Stop(f, RunCompleted, WorkflowCompleted, "", Completed)
    else match signal
      case CancelRequested => Stop(f, RunCancelled, WorkflowCancelled, "", Outcome.Cancelled)
      case PauseRequested => Stop(f, RunPaused, WorkflowPaused, "", PausedByOperator)
      case Proceed =>
        var ready := Ready(ordered, f);
        if ready != [] then f.(phase := Planning(ready), plans := [], failure := None, interrupted := false)
        else if f.blocked != {} then Stop(f, RunPaused, WorkflowPaused, "", PausedForApproval)
        else Stop(f, RunFailed, WorkflowFailed, "", NoRunnableStep)
  }

  /** One ready step: kept, skipped, blocked on an approval, started, or the end of the run. */
  function ApplyExamine(c: Config, f: Frame, answer: Answer): Frame
    requires f.phase.Planning? && f.phase.ready != []
  {
    var step, m := f.phase.ready[0], ViewsOf(f.state.steps);
    var rest := f.(phase := Planning(f.phase.ready[1..]));
    match Resolve(c.decode, step.input, step.bindings, m)
    case Unresolved => Fail(f, step.id, "input_resolution")
    case InputPanics => f.(phase := Over(Panicked))
    case Resolved(input) =>
      var hash := c.hash(input);
      if step.id in f.state.steps && f.state.steps[step.id].status == Succeeded
         && (!step.rerunOnInputChange || f.state.steps[step.id].inputHash == hash)
      then
        rest.(state := Log(f.state, StepResumed, step.id), finished := f.finished + {step.id})
      else match Condition(step.condition, m)
        case ConditionPanics => f.(phase := Over(Panicked))
        case DoesNotHold =>
          var ss := Transition(c, f.state, step, input, hash, Skipped);
          rest.(state := Log(Put(f.state, step.id, ss), StepSkipped, step.id), finished := f.finished + {step.id})
        case Holds =>
          if NeedsApproval(c, step) && !c.approval then
            var ss := Transition(c, f.state, step, input, hash, AwaitingApproval).(approval := "pending");
            rest.(state := Log(Put(f.state, step.id, ss), ApprovalRequired, step.id), blocked := f.blocked + {step.id})
          else if NeedsApproval(c, step) && answer == Errored then Fail(f, step.id, "approval")
          else if NeedsApproval(c, step) && answer == Rejected then Fail(f, step.id, "approval_rejected")
          else
            var approved := NeedsApproval(c, step);
            var ss := Transition(c, f.state, step, input, hash, Running)
              .(approval := if approved then "approved" else "not_required");
            var plan := Plan(step, ss, input, approved, ProviderOf(step, ManifestOf(c.registry, step.capability)));
            rest.(state := Log(Put(f.state, step.id, ss), StepStarted, step.id), plans := f.plans + [plan])
  }

  /** The save after planning, and the decision to execute a wave or to loop. */
  function ApplyEndPlanning(f: Frame, saved: bool): Frame {
    if !saved then f.(phase := Over(NotSaved))
    else if f.plans == [] then f.(phase := Top)
    else f.(phase := Committing)
  }

  function Finished(plan: Plan, verdict: Verdict, attempts: nat): StepState {
    var ss := plan.state.(attempts := attempts);
    match verdict
    case Success(output) => ss.(status := Succeeded, output := output)
    case Failure(reason, details) => ss.(status := Status.Failed, error := reason)
    case Interrupted(details) => ss.(status := Status.Cancelled, error := "cancelled")
  }

  function SummaryAfter(s: State, plan: Plan, verdict: Verdict): Raw {
    if verdict.Success? && plan.step.capability == "report.changes" && !verdict.output.Empty?
    then verdict.output else s.summary
  }

  function VerdictEvent(verdict: Verdict): EventKind {
    match verdict
    case Success(_) => StepSucceeded
    case Failure(_, _) => StepFailed
    case Interrupted(_) => StepCancelled
  }

  /** One outcome of the wave is written back and saved. */
  function ApplyCommit(f: Frame, verdict: Verdict, attempts: nat, saved: bool): Frame
    requires f.plans != []
  {
    var plan := f.plans[0];
    var s := f.state.(
      steps := f.state.steps[plan.step.id := Finished(plan, verdict, attempts)],
      summary := SummaryAfter(f.state, plan, verdict));
    f.(
      state := Log(s, VerdictEvent(verdict), plan.step.id),
      plans := f.plans[1..],
      finished := if verdict.Success? then f.finished + {plan.step.id} else f.finished,
      failure := if verdict.Failure? && f.failure.None? then Some((plan.step.id, verdict.reason)) else f.failure,
      interrupted := f.interrupted || verdict.Interrupted?,
      phase := if saved then f.phase else Over(NotSaved))
  }

  /** After the last outcome. The run context only ends when the run is cancelled, so an
      interrupted step implies the cancelled return. */
  function ApplyEndWave(f: Frame, cancelled: bool): Frame {
    if cancelled || f.interrupted then Stop(f, RunCancelled, WorkflowCancelled, "", Outcome.Cancelled)
    else match f.failure
      case Some(failure) => Fail(f, failure.0, failure.1)
      case None => f.(phase := Top)
  }

  predicate Enabled(c: Config, f: Frame, l: Label) {
    match l
    case Poll(_) => f.phase.Top?
    case Examine(_) => f.phase.Planning? && f.phase.ready != [] && |f.plans| < Width(c)
    case EndPlanning(_) => f.phase.Planning? && (f.phase.ready == [] || |f.plans| >= Width(c))
    case Commit(_, _, _) => f.phase.Committing? && f.plans != []
    case EndWave(_) => f.phase.Committing? && f.plans == []
  }

  function Apply(c: Config, ordered: seq<Step>, f: Frame, l: Label): Frame
    requires Enabled(c, f, l)
  {
    match l
    case Poll(signal) => ApplyPoll(ordered, f, signal)
    case Examine(answer) => ApplyExamine(c, f, answer)
    case EndPlanning(saved) => ApplyEndPlanning(f, saved)
    case Commit(verdict, attempts, saved) => ApplyCommit(f, verdict, attempts, saved)
    case EndWave(cancelled) => ApplyEndWave(f, cancelled)
  }

  // ---- the start of a run ----

  predicate KeptAtStart(step: Step, steps: Steps) {
    step.id in steps && steps[step.id].status == Succeeded && !step.rerunOnInputChange
  }

  function ResumeEvents(ordered: seq<Step>, steps: Steps): seq<Event> {
    if ordered == [] then []
    else (if KeptAtStart(ordered[0], steps) then [Event(StepResumed, ordered[0].id)] else []) + ResumeEvents(ordered[1..], steps)
  }

  function FreshState(run: string): State {
    State(run, RunRunning, map[], [Event(WorkflowStarted, "")], Text(Obj(map[])), 0)
  }

  /** The state that the first save of a run sees. */
  function StartState(previous: Option<State>, run: string): State {
    match previous
    case None => FreshState(run)
    case Some(earlier) => Log(earlier.(status := RunRunning), WorkflowResumed, "")
  }

  /** A fresh run, or the resumption of a previous state. */
  function Begin(ordered: seq<Step>, previous: Option<State>, run: string): Frame {
    var s := StartState(previous, run);
    var events := if previous.Some? then s.events + ResumeEvents(ordered, s.steps) else s.events;
    Frame(s.(events := events),
          set i | 0 <= i < |ordered| && KeptAtStart(ordered[i], s.steps) :: ordered[i].id,
          {}, Top, [], None, false)
  }

  ghost predicate IsRun(c: Config, ordered: seq<Step>, tr: seq<Frame>, ls: seq<Label>) {
    && |tr| == |ls| + 1
    && forall i :: 0 <= i < |ls| ==> Enabled(c, tr[i], ls[i]) && tr[i + 1] == Apply(c, ordered, tr[i], ls[i])
  }

  /** An inductive invariant holds throughout every run. */
  lemma {:induction false} Invariance(c: Config, ordered: seq<Step>, inv: Frame -> bool, ok: (Frame, Label) -> bool, tr: seq<Frame>, ls: seq<Label>)
    requires IsRun(c, ordered, tr, ls) && inv(tr[0])
    requires forall i :: 0 <= i < |ls| ==> ok(tr[i], ls[i])
    requires forall f, l :: inv(f) && ok(f, l) && Enabled(c, f, l) ==> inv(Apply(c, ordered, f, l))
    ensures forall i :: 0 <= i < |tr| ==> inv(tr[i])
  {
    if |ls| > 0 {
      var n := |ls| - 1;
      Invariance(c, ordered, inv, ok, tr[..n + 1], ls[..n]);
      assert inv(tr[..n + 1][n]);
      assert inv(Apply(c, ordered, tr[n], ls[n]));
    }
  }
}
