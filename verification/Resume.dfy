/** What survives a resume: finished work, idempotency keys and step-run identities. */
module Resume {
  import opened Graph
  import opened Json
  import opened Definition
  import opened Engine
  import opened Progress
  import opened Wrappers

  /** `s'` is reached by a run that starts fresh or from a previous state: at its end
      or, as after a crash, at any point of it. */
  ghost predicate RunsTo(c: Config, ordered: seq<Step>, previous: Option<State>, run: string, s': State) {
    exists tr: seq<Frame>, ls: seq<Label> :: IsRun(c, ordered, tr, ls) && tr[0] == Begin(ordered, previous, run) && tr[|tr| - 1].state == s'
  }

  ghost predicate ResumesTo(c: Config, ordered: seq<Step>, s: State, s': State) {
    RunsTo(c, ordered, Some(s), s.id, s')
  }

  /** Any number of resumes of one run, each with its own definition and engine
      configuration. */
  ghost predicate IsHistory(schedules: seq<seq<Step>>, cs: seq<Config>, states: seq<State>) {
    && |schedules| == |cs| && |states| == |cs| + 1
    && forall i :: 0 <= i < |cs| ==> ResumesTo(cs[i], schedules[i], states[i], states[i + 1])
  }

  lemma HistorySuffix(schedules: seq<seq<Step>>, cs: seq<Config>, states: seq<State>, i: nat)
    requires IsHistory(schedules, cs, states) && i <= |cs|
    ensures IsHistory(schedules[i..], cs[i..], states[i..])
  {
    forall k | 0 <= k < |cs| - i ensures ResumesTo(cs[i..][k], schedules[i..][k], states[i..][k], states[i..][k + 1]) {
      assert ResumesTo(cs[i + k], schedules[i + k], states[i + k], states[i + k + 1]);
    }
  }

  // ---- finished work is kept ----

  /** Step `id` still is `ss`, and no execution of it was started since `events`. */
  ghost predicate Retained(id: string, ss: StepState, events: seq<Event>, s: State) {
    && id in s.steps && s.steps[id] == ss
    && events <= s.events
    && forall i :: |events| <= i < |s.events| ==> s.events[i] != Event(StepStarted, id)
  }

  ghost predicate FinishedAndRetained(id: string, ss: StepState, events: seq<Event>, f: Frame) {
    id in f.finished && Retained(id, ss, events, f.state)
  }

  lemma RetainedExamine(c: Config, ordered: seq<Step>, f: Frame, answer: Answer, id: string, ss: StepState, events: seq<Event>)
    requires PendingUnsettled(ordered, f) && f.phase.Planning? && f.phase.ready != []
    requires FinishedAndRetained(id, ss, events, f)
    ensures FinishedAndRetained(id, ss, events, ApplyExamine(c, f, answer))
  {
    var f' := ApplyExamine(c, f, answer);
    ExamineEffect(c, f, answer);
    PendingAfterExamined(ordered, f, f');
    assert f.phase.ready[0].id != id;
    var input, status, approval := ExamineWrites(c, f, answer);
  }

  lemma RetainedCommit(ordered: seq<Step>, f: Frame, verdict: Verdict, attempts: nat, saved: bool, id: string, ss: StepState, events: seq<Event>)
    requires PendingUnsettled(ordered, f) && f.phase.Committing? && f.plans != []
    requires FinishedAndRetained(id, ss, events, f)
    ensures FinishedAndRetained(id, ss, events, ApplyCommit(f, verdict, attempts, saved))
  {}

  lemma RetainedUntouched(id: string, ss: StepState, events: seq<Event>, f: Frame, f': Frame)
    requires FinishedAndRetained(id, ss, events, f)
    requires f'.state.steps == f.state.steps && f'.finished == f.finished
    requires f'.state.events == f.state.events || exists e :: f'.state.events == f.state.events + [e] && e.kind != StepStarted
    ensures FinishedAndRetained(id, ss, events, f')
  {}

  lemma RetainedStep(c: Config, ordered: seq<Step>, g: Deps, f: Frame, l: Label, id: string, ss: StepState, events: seq<Event>)
    requires Book(ordered, g, f) && Enabled(c, f, l) && FinishedAndRetained(id, ss, events, f)
    ensures FinishedAndRetained(id, ss, events, Apply(c, ordered, f, l))
  {
    match l
    case Examine(answer) => RetainedExamine(c, ordered, f, answer, id, ss, events);
    case Commit(verdict, attempts, saved) => RetainedCommit(ordered, f, verdict, attempts, saved, id, ss, events);
    case Poll(signal) => RetainedUntouched(id, ss, events, f, ApplyPoll(ordered, f, signal));
    case EndPlanning(saved) => RetainedUntouched(id, ss, events, f, ApplyEndPlanning(f, saved));
    case EndWave(cancelled) => RetainedUntouched(id, ss, events, f, ApplyEndWave(f, cancelled));
  }

  lemma {:induction false} ResumeEventsStartNothing(ordered: seq<Step>, steps: Steps)
    ensures forall e :: e in ResumeEvents(ordered, steps) ==> e.kind == StepResumed
  {
    if ordered != [] { ResumeEventsStartNothing(ordered[1..], steps); }
  }

  lemma RetainedAtStart(ordered: seq<Step>, previous: State, step: Step)
    requires step in ordered && KeptAtStart(step, previous.steps)
    ensures var f := Begin(ordered, Some(previous), previous.id);
            step.id in f.finished && Retained(step.id, previous.steps[step.id], previous.events, f.state)
  {
    ResumeEventsStartNothing(ordered, previous.steps);
    var i :| 0 <= i < |ordered| && ordered[i] == step;
  }

  lemma RetainedByRun(c: Config, ordered: seq<Step>, g: Deps, s: State, s': State, step: Step)
    requires Schedule(ordered, g) && ResumesTo(c, ordered, s, s')
    requires step in ordered && KeptAtStart(step, s.steps)
    ensures Retained(step.id, s.steps[step.id], s.events, s')
  {
    var tr: seq<Frame>, ls: seq<Label> :| IsRun(c, ordered, tr, ls) && tr[0] == Begin(ordered, Some(s), s.id) && tr[|tr| - 1].state == s';
    var id, ss := step.id, s.steps[step.id];
    BookAtStart(ordered, g, Some(s), s.id);
    RetainedAtStart(ordered, s, step);
    var inv, ok := (f: Frame) => Book(ordered, g, f) && FinishedAndRetained(id, ss, s.events, f), (f: Frame, l: Label) => true;
    forall f, l | inv(f) && ok(f, l) && Enabled(c, f, l) ensures inv(Apply(c, ordered, f, l)) {
      BookStep(c, ordered, g, f, l);
      RetainedStep(c, ordered, g, f, l, id, ss, s.events);
    }
    Invariance(c, ordered, inv, ok, tr, ls);
  }

  /** The definition has a step of this id, and it does not opt into reruns. */
  ghost predicate HasPlainStep(ordered: seq<Step>, id: string) {
    exists s :: s in ordered && s.id == id && !s.rerunOnInputChange
  }

  ghost predicate IsSchedule(ordered: seq<Step>) {
    exists g: Deps :: Schedule(ordered, g)
  }

  /** Over any number of resumes, each with a definition of its own, a succeeded step that
      none of them reruns keeps its state to the last field and is never started again. */
  lemma {:induction false} ResumesKeepWork(schedules: seq<seq<Step>>, cs: seq<Config>, states: seq<State>, id: string)
    requires IsHistory(schedules, cs, states)
    requires forall i :: 0 <= i < |schedules| ==> IsSchedule(schedules[i]) && HasPlainStep(schedules[i], id)
    requires id in states[0].steps && states[0].steps[id].status == Succeeded
    ensures Retained(id, states[0].steps[id], states[0].events, states[|states| - 1])
  {
    if |cs| > 0 {
      var g: Deps :| Schedule(schedules[0], g);
      var step :| step in schedules[0] && step.id == id && !step.rerunOnInputChange;
      RetainedByRun(cs[0], schedules[0], g, states[0], states[1], step);
      HistorySuffix(schedules, cs, states, 1);
      ResumesKeepWork(schedules[1..], cs[1..], states[1..], id);
    }
  }

  // ---- idempotency keys ----

  /** `f` does not collide on these two arguments. */
  predicate NoCollision<A(==)>(f: A -> string, x: A, y: A) {
    f(x) == f(y) ==> x == y
  }

  /** Within a run, keys are injective in (step, input hash). The separators alone would
      not do: it takes hashes of one length. */
  lemma KeysInjective(c: Config, run: string, step: string, hash: string, step': string, hash': string)
    requires NoCollision(c.digest, KeyMaterial(run, step, hash), KeyMaterial(run, step', hash')) && |hash| == |hash'|
    ensures IdempotencyKey(c, run, step, hash) == IdempotencyKey(c, run, step', hash') <==> step == step' && hash == hash'
  {
    var a, b := KeyMaterial(run, step, hash), KeyMaterial(run, step', hash');
    if a == b {
      assert |step| == |step'|;
      assert a[|run| + 1..][..|step|] == step && b[|run| + 1..][..|step'|] == step';
      assert a[|a| - |hash|..] == hash && b[|b| - |hash'|..] == hash';
    }
  }

  /** With hashes of different lengths two different steps could share a key. */
  lemma KeysNeedFixedLength(c: Config)
    ensures IdempotencyKey(c, "r", "a", "b\0c") == IdempotencyKey(c, "r", "a\0b", "c")
  {
    assert "r" + "\0" + "a" + "\0" + "b\0c" == "r" + "\0" + "a\0b" + "\0" + "c";
  }

  /** Every step run carries the key of its own input, and step runs have ids of their own. */
  ghost predicate KeysKept(c: Config, s: State) {
    && (forall id :: id in s.steps ==>
          && s.steps[id].inputHash == c.hash(s.steps[id].input)
          && s.steps[id].key == IdempotencyKey(c, s.id, id, s.steps[id].inputHash)
          && s.steps[id].runId < s.nextId)
    && forall id, id' :: id in s.steps && id' in s.steps && id != id' ==> s.steps[id].runId != s.steps[id'].runId
  }

  /** Plans are the running step states they were made from. */
  ghost predicate PlansMatch(f: Frame) {
    forall i :: 0 <= i < |f.plans| ==>
      f.plans[i].step.id in f.state.steps && f.state.steps[f.plans[i].step.id] == f.plans[i].state
  }

  lemma TransitionKeeps(c: Config, s: State, step: Step, input: Json, status: Status, approval: string)
    requires KeysKept(c, s)
    ensures var ss := Transition(c, s, step, input, c.hash(input), status).(approval := approval);
            KeysKept(c, Put(s, step.id, ss))
  {}

  /** A new attempt keeps the step-run id and the key exactly when its input is the
      input of the previous attempt, unless the two inputs or their keys collide. */
  lemma AttemptIdentity(c: Config, s: State, step: Step, input: Json, status: Status)
    requires KeysKept(c, s) && step.id in s.steps
    requires var before, hash := s.steps[step.id], c.hash(input);
             && |hash| == |before.inputHash| && (hash == before.inputHash ==> input == before.input)
             && NoCollision(c.digest, KeyMaterial(s.id, step.id, hash), KeyMaterial(s.id, step.id, before.inputHash))
    ensures var before, after := s.steps[step.id], Transition(c, s, step, input, c.hash(input), status);
            && (after.runId == before.runId <==> input == before.input)
            && (after.key == before.key <==> input == before.input)
  {
    KeysInjective(c, s.id, step.id, c.hash(input), step.id, s.steps[step.id].inputHash);
  }

  lemma ExamineKeepsKeys(c: Config, f: Frame, answer: Answer)
    requires f.phase.Planning? && f.phase.ready != [] && KeysKept(c, f.state)
    ensures KeysKept(c, ApplyExamine(c, f, answer).state)
  {
    var input, status, approval := ExamineWrites(c, f, answer);
    TransitionKeeps(c, f.state, f.phase.ready[0], input, status, approval);
  }

  lemma ExamineKeepsPlans(ordered: seq<Step>, f: Frame, f': Frame)
    requires PendingUnsettled(ordered, f) && PlansMatch(f) && Examined(f, f')
    ensures PlansMatch(f')
  {
    var step := f.phase.ready[0];
    assert Pending(f) == StepsOf(f.plans) + [step] + f.phase.ready[1..];
    AscendsParts(ordered, StepsOf(f.plans), step, f.phase.ready[1..]);
    forall i | 0 <= i < |f.plans| ensures f.plans[i].step.id != step.id {
      assert StepsOf(f.plans)[i] in StepsOf(f.plans) + f.phase.ready[1..];
    }
    assert forall i :: 0 <= i < |f.plans| && |f.plans| <= |f'.plans| ==> f'.plans[..|f.plans|][i] == f'.plans[i];
  }

  lemma CommitKeepsKeys(c: Config, ordered: seq<Step>, f: Frame, verdict: Verdict, attempts: nat, saved: bool)
    requires PendingUnsettled(ordered, f) && f.phase.Committing? && f.plans != [] && PlansMatch(f) && KeysKept(c, f.state)
    ensures PlansMatch(ApplyCommit(f, verdict, attempts, saved)) && KeysKept(c, ApplyCommit(f, verdict, attempts, saved).state)
  {
    CommitKeepsPlans(c, ordered, f, verdict, attempts, saved);
    var f', id := ApplyCommit(f, verdict, attempts, saved), f.plans[0].step.id;
    assert f.state.steps[id] == f.plans[0].state;
    assert f'.state.steps == f.state.steps[id := Finished(f.plans[0], verdict, attempts)];
    StoredKeepsKeys(c, f.state, f'.state, id);
  }

  /** A new state of a step with the identity of its old one. */
  lemma StoredKeepsKeys(c: Config, s: State, s': State, id: string)
    requires KeysKept(c, s) && s'.id == s.id && s'.nextId == s.nextId && id in s.steps && id in s'.steps && s'.steps == s.steps[id := s'.steps[id]]
    requires var ss, ss' := s.steps[id], s'.steps[id]; ss'.runId == ss.runId && ss'.key == ss.key && ss'.input == ss.input && ss'.inputHash == ss.inputHash
    ensures KeysKept(c, s')
  {}

  lemma CommitKeepsPlans(c: Config, ordered: seq<Step>, f: Frame, verdict: Verdict, attempts: nat, saved: bool)
    requires PendingUnsettled(ordered, f) && f.phase.Committing? && f.plans != [] && PlansMatch(f)
    ensures PlansMatch(ApplyCommit(f, verdict, attempts, saved))
  {
    var f', step, rest := ApplyCommit(f, verdict, attempts, saved), f.plans[0].step, StepsOf(f.plans[1..]);
    assert Pending(f) == [] + [step] + rest;
    AscendsParts(ordered, [], step, rest);
    forall i | 0 <= i < |f'.plans| ensures f'.plans[i].step.id != step.id {
      assert ([] + rest)[i] == f'.plans[i].step;
    }
  }

  ghost predicate KeysInvariant(c: Config, f: Frame) {
    PlansMatch(f) && KeysKept(c, f.state)
  }

  lemma KeysUntouched(c: Config, f: Frame, f': Frame)
    requires KeysInvariant(c, f)
    requires f'.state.steps == f.state.steps && f'.state.id == f.state.id && f'.state.nextId == f.state.nextId
    requires f'.plans == f.plans || f'.plans == []
    ensures KeysInvariant(c, f')
  {}

  lemma KeysExamined(c: Config, ordered: seq<Step>, f: Frame, answer: Answer)
    requires PendingUnsettled(ordered, f) && f.phase.Planning? && f.phase.ready != [] && KeysInvariant(c, f)
    ensures KeysInvariant(c, ApplyExamine(c, f, answer))
  {
    ExamineKeepsKeys(c, f, answer);
    ExamineEffect(c, f, answer);
    ExamineKeepsPlans(ordered, f, ApplyExamine(c, f, answer));
  }

  lemma KeysStep(c: Config, ordered: seq<Step>, g: Deps, f: Frame, l: Label)
    requires Book(ordered, g, f) && Enabled(c, f, l) && KeysInvariant(c, f)
    ensures KeysInvariant(c, Apply(c, ordered, f, l))
  {
    if l.Examine? {
      KeysExamined(c, ordered, f, l.answer);
    } else if l.Commit? {
      CommitKeepsKeys(c, ordered, f, l.verdict, l.attempts, l.saved);
    } else {
      OthersTouchNothing(c, ordered, f, l);
      KeysUntouched(c, f, Apply(c, ordered, f, l));
    }
  }

  lemma OthersTouchNothing(c: Config, ordered: seq<Step>, f: Frame, l: Label)
    requires Enabled(c, f, l) && !l.Examine? && !l.Commit?
    ensures var f' := Apply(c, ordered, f, l);
            && f'.state.steps == f.state.steps && f'.state.id == f.state.id && f'.state.nextId == f.state.nextId
            && (f'.plans == f.plans || f'.plans == [])
  {}

  /** From a fresh state, and from any state that keeps its keys, every run keeps them. */
  lemma KeysInRuns(c: Config, ordered: seq<Step>, g: Deps, previous: Option<State>, run: string, tr: seq<Frame>, ls: seq<Label>)
    requires Schedule(ordered, g) && IsRun(c, ordered, tr, ls) && tr[0] == Begin(ordered, previous, run)
    requires previous.Some? ==> KeysKept(c, previous.value)
    ensures forall i :: 0 <= i < |tr| ==> KeysInvariant(c, tr[i])
  {
    BookAtStart(ordered, g, previous, run);
    var inv, ok := (f: Frame) => Book(ordered, g, f) && KeysInvariant(c, f), (f: Frame, l: Label) => true;
    forall f, l | inv(f) && ok(f, l) && Enabled(c, f, l) ensures inv(Apply(c, ordered, f, l)) {
      BookStep(c, ordered, g, f, l);
      KeysStep(c, ordered, g, f, l);
    }
    Invariance(c, ordered, inv, ok, tr, ls);
  }
}
