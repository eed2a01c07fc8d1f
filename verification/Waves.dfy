/** Waves are antichains of the dependency order, and what is done stays as it is. On
    resumes, this takes inputs of succeeded steps that are still current. */
module Waves {
  import opened Order
  import opened Graph
  import opened Json
  import opened Definition
  import opened Engine
  import opened Progress
  import opened Resume
  import opened Wrappers

  /** `hash` is that of the input which the step's sources give in `m`. */
  predicate Gives(c: Config, s: Step, m: Views, hash: string) {
    var r := Resolve(c.decode, s.input, s.bindings, m);
    r.Resolved? && hash == c.hash(r.input)
  }

  predicate InputCurrent(c: Config, s: Step, steps: Steps) {
    s.id in steps && Gives(c, s, ViewsOf(steps), steps[s.id].inputHash)
  }

  /** A succeeded step that asks for a rerun once its input changed, and whose input did. */
  predicate Stale(c: Config, s: Step, steps: Steps) {
    s.rerunOnInputChange && s.id in steps && steps[s.id].status == Succeeded && !InputCurrent(c, s, steps)
  }

  ghost predicate NoneStale(c: Config, ordered: seq<Step>, steps: Steps) {
    forall s :: s in ordered ==> !Stale(c, s, steps)
  }

  /** The dependencies of a done step are done. */
  ghost predicate DoneClosed(ordered: seq<Step>, m: Views) {
    forall s :: s in ordered && Done(m, s.id) ==> DependenciesDone(s, m)
  }

  /** What would make the engine skip the step. */
  predicate WouldSkip(decode: Decoder, s: Step, m: Views) {
    Resolve(decode, s.input, s.bindings, m).Resolved? && Condition(s.condition, m) == DoesNotHold
  }

  /** A skipped step would be skipped again. */
  ghost predicate SkipsJustified(decode: Decoder, ordered: seq<Step>, m: Views) {
    forall s :: s in ordered && s.id in m && m[s.id].status == Skipped ==> m[s.id].output == Empty && WouldSkip(decode, s, m)
  }

  ghost predicate Coherent(decode: Decoder, ordered: seq<Step>, m: Views) {
    DoneClosed(ordered, m) && SkipsJustified(decode, ordered, m)
  }

  ghost predicate PendingReady(f: Frame) {
    forall s :: s in Pending(f) ==> DependenciesDone(s, ViewsOf(f.state.steps))
  }

  /** Only steps that may have to rerun are examined once they succeeded. */
  ghost predicate SucceededFinished(ordered: seq<Step>, f: Frame) {
    forall s :: s in ordered && s.id in f.state.steps && f.state.steps[s.id].status == Succeeded ==>
      s.id in f.finished || s.rerunOnInputChange
  }

  /** The inputs of the running steps are current. */
  ghost predicate PlansCurrent(c: Config, f: Frame) {
    forall i :: 0 <= i < |f.plans| ==> InputCurrent(c, f.plans[i].step, f.state.steps)
  }

  ghost predicate InOrder(c: Config, ordered: seq<Step>, g: Deps, f: Frame) {
    && Book(ordered, g, f)
    && PlansMatch(f)
    && (forall i :: 0 <= i < |f.plans| ==> f.plans[i].state.status == Running)
    && Coherent(c.decode, ordered, ViewsOf(f.state.steps))
    && PendingReady(f)
    && SucceededFinished(ordered, f)
    && NoneStale(c, ordered, f.state.steps)
    && PlansCurrent(c, f)
  }

  /** What is done stays done, and shows the same. */
  ghost predicate Stable(m: Views, m': Views) {
    forall x :: Done(m, x) ==> x in m' && m'[x] == m[x]
  }

  lemma {:induction false} ClosureDone(ordered: seq<Step>, g: Deps, m: Views, s: Step, p: seq<string>)
    requires Schedule(ordered, g) && DoneClosed(ordered, m)
    requires s in ordered && DependenciesDone(s, m)
    requires IsPath(g, p) && p[0] == s.id
    ensures Done(m, p[|p| - 1])
    decreases |p|
  {
    assert p[1] in DependsOn(g, s.id);
    if |p| > 2 {
      var i :| 0 <= i < |ordered| && ordered[i] == s;
      var j := EarlierDependency(ordered, g, i, p[1]);
      assert ordered[j] in ordered;
      assert IsPath(g, p[1..]);
      ClosureDone(ordered, g, m, ordered[j], p[1..]);
    }
  }

  /** Everything a step with done dependencies depends on, directly or not, is done. */
  lemma TransitiveDone(ordered: seq<Step>, g: Deps, m: Views, s: Step, x: string)
    requires Schedule(ordered, g) && DoneClosed(ordered, m)
    requires s in ordered && DependenciesDone(s, m) && Reaches(g, s.id, x)
    ensures Done(m, x)
  {
    var p :| IsPath(g, p) && p[0] == s.id && p[|p| - 1] == x;
    ClosureDone(ordered, g, m, s, p);
  }

  lemma ReadsSettled(decode: Decoder, ordered: seq<Step>, g: Deps, m: Views, m': Views, s: Step)
    requires Schedule(ordered, g) && DoneClosed(ordered, m) && Stable(m, m')
    requires s in ordered && DependenciesDone(s, m)
    ensures Resolve(decode, s.input, s.bindings, m) == Resolve(decode, s.input, s.bindings, m')
    ensures Condition(s.condition, m) == Condition(s.condition, m')
  {
    forall x | x in StepSources(s) ensures Done(m, x) {
      TransitiveDone(ordered, g, m, s, x);
    }
    ReadsOnlySources(decode, s.input, s.bindings, s.condition, m, m');
  }

  /** Coherence survives a write to one step whose dependencies are done. */
  lemma CoherentAfterWrite(decode: Decoder, ordered: seq<Step>, g: Deps, m: Views, m': Views, step: Step)
    requires Schedule(ordered, g) && Coherent(decode, ordered, m) && Stable(m, m')
    requires step in ordered && DependenciesDone(step, m)
    requires forall x :: x != step.id && x in m' ==> x in m && m[x] == m'[x]
    requires step.id in m' && m'[step.id].status == Skipped ==> m'[step.id].output == Empty && WouldSkip(decode, step, m)
    ensures Coherent(decode, ordered, m')
  {
    forall s | s in ordered && Done(m', s.id) ensures DependenciesDone(s, m') {
      if s.id == step.id { SameStep(ordered, g, s, step); }
      assert DependenciesDone(s, m);
    }
    forall s | s in ordered && s.id in m' && m'[s.id].status == Skipped
      ensures m'[s.id].output == Empty && WouldSkip(decode, s, m')
    {
      if s.id == step.id { SameStep(ordered, g, s, step); }
      assert DependenciesDone(s, m);
      ReadsSettled(decode, ordered, g, m, m', s);
    }
  }

  /** So do current inputs. */
  lemma InputSettled(c: Config, ordered: seq<Step>, g: Deps, steps: Steps, steps': Steps, id: string, s: Step)
    requires Schedule(ordered, g) && DoneClosed(ordered, ViewsOf(steps)) && Stable(ViewsOf(steps), ViewsOf(steps'))
    requires OnlyAt(steps, steps', id) && s in ordered && DependenciesDone(s, ViewsOf(steps)) && s.id in steps
    requires s.id == id ==> s.id in steps' && steps'[s.id].inputHash == steps[s.id].inputHash
    requires InputCurrent(c, s, steps)
    ensures InputCurrent(c, s, steps')
  {
    ReadsSettled(c.decode, ordered, g, ViewsOf(steps), ViewsOf(steps'), s);
  }

  lemma NoneStaleAfterWrite(c: Config, ordered: seq<Step>, g: Deps, steps: Steps, steps': Steps, step: Step)
    requires Schedule(ordered, g) && DoneClosed(ordered, ViewsOf(steps)) && Stable(ViewsOf(steps), ViewsOf(steps'))
    requires NoneStale(c, ordered, steps) && OnlyAt(steps, steps', step.id) && step in ordered
    requires !Stale(c, step, steps')
    ensures NoneStale(c, ordered, steps')
  {
    forall s | s in ordered && s.rerunOnInputChange && s.id in steps' && steps'[s.id].status == Succeeded
      ensures InputCurrent(c, s, steps')
    {
      if s.id == step.id {
        SameStep(ordered, g, s, step);
      } else {
        assert !Stale(c, s, steps) && Done(ViewsOf(steps), s.id);
        InputSettled(c, ordered, g, steps, steps', step.id, s);
      }
    }
  }

  // ---- one step of the machine ----

  lemma ExamineSkips(c: Config, f: Frame, answer: Answer)
    requires f.phase.Planning? && f.phase.ready != []
    ensures var step, m, m' := f.phase.ready[0], ViewsOf(f.state.steps), ViewsOf(ApplyExamine(c, f, answer).state.steps);
            && (step.id in m && m[step.id].status == Skipped && WouldSkip(c.decode, step, m) ==>
                  step.id in m' && m'[step.id] == View(Skipped, Empty))
            && (step.id in m' && m'[step.id].status == Skipped && (step.id !in m || m[step.id].status != Skipped) ==>
                  m'[step.id].output == Empty && WouldSkip(c.decode, step, m))
            && (step.id in m' && m'[step.id].status == Succeeded ==> step.id in m && m[step.id] == m'[step.id])
  {}

  lemma ExamineInputs(c: Config, f: Frame, answer: Answer)
    requires f.phase.Planning? && f.phase.ready != []
    ensures var step, f' := f.phase.ready[0], ApplyExamine(c, f, answer);
            && (step.id in f.state.steps && f.state.steps[step.id].status == Succeeded && (step.rerunOnInputChange ==> InputCurrent(c, step, f.state.steps)) ==>
                  f'.state.steps == f.state.steps && f'.plans == f.plans)
            && (step.id in f'.state.steps && f'.state.steps[step.id].status == Succeeded ==> f'.state.steps == f.state.steps)
            && (|f'.plans| > |f.plans| ==> step.id in f'.state.steps && Gives(c, step, ViewsOf(f.state.steps), f'.state.steps[step.id].inputHash))
  {}

  /** What `ExamineSkips` and `ExamineInputs` say of the step that is examined. */
  ghost predicate Accounted(c: Config, f: Frame, f': Frame)
    requires f.phase.Planning? && f.phase.ready != []
  {
    var step, m, m' := f.phase.ready[0], ViewsOf(f.state.steps), ViewsOf(f'.state.steps);
    && (step.id in m && m[step.id].status == Skipped && WouldSkip(c.decode, step, m) ==>
          step.id in m' && m'[step.id] == View(Skipped, Empty))
    && (step.id in m' && m'[step.id].status == Skipped && (step.id !in m || m[step.id].status != Skipped) ==>
          m'[step.id].output == Empty && WouldSkip(c.decode, step, m))
    && (step.id in m && m[step.id].status == Succeeded && (step.rerunOnInputChange ==> InputCurrent(c, step, f.state.steps)) ==>
          f'.state.steps == f.state.steps && f'.plans == f.plans)
    && (step.id in m' && m'[step.id].status == Succeeded ==> f'.state.steps == f.state.steps)
    && (|f'.plans| > |f.plans| ==> step.id in f'.state.steps && Gives(c, step, m, f'.state.steps[step.id].inputHash))
  }

  lemma ExamineAccounted(c: Config, f: Frame, answer: Answer)
    requires f.phase.Planning? && f.phase.ready != []
    ensures Examined(f, ApplyExamine(c, f, answer)) && Accounted(c, f, ApplyExamine(c, f, answer))
  {
    ExamineEffect(c, f, answer);
    ExamineSkips(c, f, answer);
    ExamineInputs(c, f, answer);
  }

  lemma InOrderExamine(c: Config, ordered: seq<Step>, g: Deps, f: Frame, answer: Answer)
    requires Schedule(ordered, g) && InOrder(c, ordered, g, f)
    requires f.phase.Planning? && f.phase.ready != []
    ensures InOrder(c, ordered, g, ApplyExamine(c, f, answer))
    ensures Stable(ViewsOf(f.state.steps), ViewsOf(ApplyExamine(c, f, answer).state.steps))
  {
    ExamineAccounted(c, f, answer);
    InOrderExamined(c, ordered, g, f, ApplyExamine(c, f, answer));
  }

  lemma ExaminedIsStable(c: Config, ordered: seq<Step>, g: Deps, f: Frame, f': Frame)
    requires Schedule(ordered, g) && InOrder(c, ordered, g, f) && Examined(f, f') && Accounted(c, f, f')
    ensures f.phase.ready[0] in Pending(f) && f.phase.ready[0] in ordered
    ensures Stable(ViewsOf(f.state.steps), ViewsOf(f'.state.steps))
  {
    var step := f.phase.ready[0];
    OnlyAtViews(f.state.steps, f'.state.steps, step.id);
    assert step in Pending(f) by { assert Pending(f)[|f.plans|] == step; }
    assert !Stale(c, step, f.state.steps);
  }

  lemma PlansCurrentExamined(c: Config, ordered: seq<Step>, g: Deps, f: Frame, f': Frame)
    requires Schedule(ordered, g) && InOrder(c, ordered, g, f) && Examined(f, f') && Accounted(c, f, f')
    requires Stable(ViewsOf(f.state.steps), ViewsOf(f'.state.steps))
    ensures PlansCurrent(c, f')
  {
    var step, m, m' := f.phase.ready[0], ViewsOf(f.state.steps), ViewsOf(f'.state.steps);
    assert step in Pending(f) by { assert Pending(f)[|f.plans|] == step; }
    assert Pending(f) == StepsOf(f.plans) + [step] + f.phase.ready[1..];
    AscendsParts(ordered, StepsOf(f.plans), step, f.phase.ready[1..]);
    ReadsSettled(c.decode, ordered, g, m, m', step);
    forall i | 0 <= i < |f'.plans| ensures InputCurrent(c, f'.plans[i].step, f'.state.steps) {
      if i < |f.plans| {
        PlanStays(c, ordered, g, f, f', i);
      }
    }
  }

  lemma PlanElsewhere(ordered: seq<Step>, f: Frame, i: nat)
    requires PendingUnsettled(ordered, f) && f.phase.Planning? && f.phase.ready != [] && i < |f.plans|
    ensures f.plans[i].step in Pending(f) && f.plans[i].step in ordered && f.plans[i].step.id != f.phase.ready[0].id
  {
    var step, s, rest := f.phase.ready[0], f.plans[i].step, f.phase.ready[1..];
    assert Pending(f) == StepsOf(f.plans) + [step] + rest;
    AscendsParts(ordered, StepsOf(f.plans), step, rest);
    assert s in StepsOf(f.plans) + rest by { assert (StepsOf(f.plans) + rest)[i] == s; }
    assert s in Pending(f) by { assert Pending(f)[i] == s; }
  }

  lemma PlanStays(c: Config, ordered: seq<Step>, g: Deps, f: Frame, f': Frame, i: nat)
    requires Schedule(ordered, g) && InOrder(c, ordered, g, f) && Examined(f, f') && i < |f.plans|
    requires Stable(ViewsOf(f.state.steps), ViewsOf(f'.state.steps))
    ensures i < |f'.plans| && f'.plans[i] == f.plans[i] && InputCurrent(c, f.plans[i].step, f'.state.steps)
  {
    var step, s := f.phase.ready[0], f.plans[i].step;
    PlanElsewhere(ordered, f, i);
    assert f'.plans[..|f.plans|][i] == f'.plans[i];
    InputSettled(c, ordered, g, f.state.steps, f'.state.steps, step.id, s);
  }

  lemma InOrderExamined(c: Config, ordered: seq<Step>, g: Deps, f: Frame, f': Frame)
    requires Schedule(ordered, g) && InOrder(c, ordered, g, f) && Examined(f, f') && Accounted(c, f, f')
    ensures InOrder(c, ordered, g, f')
    ensures Stable(ViewsOf(f.state.steps), ViewsOf(f'.state.steps))
  {
    var step, m, m' := f.phase.ready[0], ViewsOf(f.state.steps), ViewsOf(f'.state.steps);
    ExaminedIsStable(c, ordered, g, f, f');
    PendingAfterExamined(ordered, f, f');
    BookExamined(ordered, g, f, f');
    ExamineKeepsPlans(ordered, f, f');
    OnlyAtViews(f.state.steps, f'.state.steps, step.id);
    CoherentAfterWrite(c.decode, ordered, g, m, m', step);
    assert !Stale(c, step, f.state.steps);
    assert !Stale(c, step, f'.state.steps);
    NoneStaleAfterWrite(c, ordered, g, f.state.steps, f'.state.steps, step);
    PlansCurrentExamined(c, ordered, g, f, f');
    PendingShrinks(f, f');
  }

  lemma PendingShrinks(f: Frame, f': Frame)
    requires Examined(f, f')
    ensures forall s :: s in Pending(f') ==> s in Pending(f)
    ensures |f'.plans| > |f.plans| ==> f'.plans == f.plans + [f'.plans[|f.plans|]]
  {}

  lemma CommitShrinks(ordered: seq<Step>, f: Frame, verdict: Verdict, attempts: nat, saved: bool)
    requires PendingUnsettled(ordered, f) && f.phase.Committing? && f.plans != []
    ensures var f' := ApplyCommit(f, verdict, attempts, saved);
            && f.plans[0].step in Pending(f)
            && (forall s :: s in Pending(f') ==> s in Pending(f))
            && (forall i :: 0 <= i < |f'.plans| ==> f'.plans[i].step.id != f.plans[0].step.id)
  {
    var f', step, rest := ApplyCommit(f, verdict, attempts, saved), f.plans[0].step, StepsOf(f.plans[1..]);
    assert Pending(f) == [] + [step] + rest;
    AscendsParts(ordered, [], step, rest);
    assert Pending(f') == [] + rest;
    forall i | 0 <= i < |f'.plans| ensures f'.plans[i].step.id != step.id {
      assert ([] + rest)[i] == f'.plans[i].step;
    }
  }

  lemma CommitIsStable(c: Config, ordered: seq<Step>, g: Deps, f: Frame, verdict: Verdict, attempts: nat, saved: bool)
    requires Schedule(ordered, g) && InOrder(c, ordered, g, f) && f.phase.Committing? && f.plans != []
    ensures var m, m' := ViewsOf(f.state.steps), ViewsOf(ApplyCommit(f, verdict, attempts, saved).state.steps);
            Stable(m, m') && Coherent(c.decode, ordered, m')
    ensures NoneStale(c, ordered, ApplyCommit(f, verdict, attempts, saved).state.steps)
  {
    var f', step := ApplyCommit(f, verdict, attempts, saved), f.plans[0].step;
    var m, m' := ViewsOf(f.state.steps), ViewsOf(f'.state.steps);
    CommitShrinks(ordered, f, verdict, attempts, saved);
    OnlyAtViews(f.state.steps, f'.state.steps, step.id);
    assert f.plans[0].state.status == Running;
    assert Stable(m, m');
    CoherentAfterWrite(c.decode, ordered, g, m, m', step);
    InputSettled(c, ordered, g, f.state.steps, f'.state.steps, step.id, step);
    NoneStaleAfterWrite(c, ordered, g, f.state.steps, f'.state.steps, step);
  }

  lemma PlansCurrentCommit(c: Config, ordered: seq<Step>, g: Deps, f: Frame, verdict: Verdict, attempts: nat, saved: bool)
    requires Schedule(ordered, g) && InOrder(c, ordered, g, f) && f.phase.Committing? && f.plans != []
    requires Stable(ViewsOf(f.state.steps), ViewsOf(ApplyCommit(f, verdict, attempts, saved).state.steps))
    ensures PlansCurrent(c, ApplyCommit(f, verdict, attempts, saved))
  {
    var f' := ApplyCommit(f, verdict, attempts, saved);
    CommitShrinks(ordered, f, verdict, attempts, saved);
    forall i | 0 <= i < |f'.plans| ensures InputCurrent(c, f'.plans[i].step, f'.state.steps) {
      assert f'.plans[i] == f.plans[i + 1];
      assert f.plans[i + 1].step in Pending(f) by { assert Pending(f)[i + 1] == f.plans[i + 1].step; }
      InputSettled(c, ordered, g, f.state.steps, f'.state.steps, f.plans[0].step.id, f.plans[i + 1].step);
    }
  }

  lemma InOrderCommit(c: Config, ordered: seq<Step>, g: Deps, f: Frame, verdict: Verdict, attempts: nat, saved: bool)
    requires Schedule(ordered, g) && InOrder(c, ordered, g, f) && f.phase.Committing? && f.plans != []
    ensures InOrder(c, ordered, g, ApplyCommit(f, verdict, attempts, saved))
    ensures Stable(ViewsOf(f.state.steps), ViewsOf(ApplyCommit(f, verdict, attempts, saved).state.steps))
  {
    BookCommit(ordered, g, f, verdict, attempts, saved);
    CommitShrinks(ordered, f, verdict, attempts, saved);
    CommitIsStable(c, ordered, g, f, verdict, attempts, saved);
    PlansCurrentCommit(c, ordered, g, f, verdict, attempts, saved);
  }

  lemma InOrderPoll(c: Config, ordered: seq<Step>, g: Deps, f: Frame, signal: Signal)
    requires Schedule(ordered, g) && InOrder(c, ordered, g, f) && f.phase.Top?
    ensures InOrder(c, ordered, g, ApplyPoll(ordered, f, signal))
  {
    var f' := ApplyPoll(ordered, f, signal);
    BookPoll(ordered, g, f, signal);
    ReadyIs(ordered, f);
    assert Pending(f') == [] || Pending(f') == Ready(ordered, f);
  }

  lemma InOrderEndPlanning(c: Config, ordered: seq<Step>, g: Deps, f: Frame, saved: bool)
    requires InOrder(c, ordered, g, f) && Enabled(c, f, EndPlanning(saved))
    ensures InOrder(c, ordered, g, ApplyEndPlanning(f, saved))
  {
    var f' := ApplyEndPlanning(f, saved);
    BookEndPlanning(ordered, g, f, saved);
    assert Pending(f') == StepsOf(f.plans);
    assert forall s :: s in StepsOf(f.plans) ==> s in Pending(f);
  }

  lemma InOrderEndWave(c: Config, ordered: seq<Step>, g: Deps, f: Frame, cancelled: bool)
    requires InOrder(c, ordered, g, f) && Enabled(c, f, EndWave(cancelled))
    ensures InOrder(c, ordered, g, ApplyEndWave(f, cancelled))
  {}

  lemma InOrderStep(c: Config, ordered: seq<Step>, g: Deps, f: Frame, l: Label)
    requires Schedule(ordered, g) && InOrder(c, ordered, g, f) && Enabled(c, f, l)
    ensures InOrder(c, ordered, g, Apply(c, ordered, f, l))
    ensures Stable(ViewsOf(f.state.steps), ViewsOf(Apply(c, ordered, f, l).state.steps))
  {
    if l.Examine? {
      InOrderExamine(c, ordered, g, f, l.answer);
    } else if l.Commit? {
      InOrderCommit(c, ordered, g, f, l.verdict, l.attempts, l.saved);
    } else {
      InOrderElsewhere(c, ordered, g, f, l);
    }
  }

  lemma InOrderElsewhere(c: Config, ordered: seq<Step>, g: Deps, f: Frame, l: Label)
    requires Schedule(ordered, g) && InOrder(c, ordered, g, f) && Enabled(c, f, l) && !l.Examine? && !l.Commit?
    ensures InOrder(c, ordered, g, Apply(c, ordered, f, l))
    ensures Stable(ViewsOf(f.state.steps), ViewsOf(Apply(c, ordered, f, l).state.steps))
  {
    if l.Poll? {
      InOrderPoll(c, ordered, g, f, l.signal);
    } else {
      InOrderAtEnd(c, ordered, g, f, l);
    }
  }

  lemma InOrderAtEnd(c: Config, ordered: seq<Step>, g: Deps, f: Frame, l: Label)
    requires Schedule(ordered, g) && InOrder(c, ordered, g, f) && Enabled(c, f, l) && (l.EndPlanning? || l.EndWave?)
    ensures InOrder(c, ordered, g, Apply(c, ordered, f, l))
    ensures Stable(ViewsOf(f.state.steps), ViewsOf(Apply(c, ordered, f, l).state.steps))
  {
    if l.EndPlanning? { InOrderEndPlanning(c, ordered, g, f, l.saved); } else { InOrderEndWave(c, ordered, g, f, l.cancelled); }
  }

  /** What is done follows from what is done before it, and no step is stale. Runs of
      this definition leave such states behind. */
  ghost predicate CoherentState(c: Config, ordered: seq<Step>, s: State) {
    Coherent(c.decode, ordered, ViewsOf(s.steps)) && NoneStale(c, ordered, s.steps)
  }

  lemma InOrderAtStart(c: Config, ordered: seq<Step>, g: Deps, previous: Option<State>, run: string)
    requires Schedule(ordered, g)
    requires previous.Some? ==> CoherentState(c, ordered, previous.value)
    ensures InOrder(c, ordered, g, Begin(ordered, previous, run))
  {
    var f := Begin(ordered, previous, run);
    BookAtStart(ordered, g, previous, run);
    assert Pending(f) == [];
    if previous.Some? {
      assert f.state.steps == previous.value.steps;
    } else {
      assert f.state.steps == map[];
    }
  }

  lemma InOrderInRuns(c: Config, ordered: seq<Step>, g: Deps, previous: Option<State>, run: string, tr: seq<Frame>, ls: seq<Label>)
    requires Schedule(ordered, g)
    requires IsRun(c, ordered, tr, ls) && tr[0] == Begin(ordered, previous, run)
    requires previous.Some? ==> CoherentState(c, ordered, previous.value)
    ensures forall i :: 0 <= i < |tr| ==> InOrder(c, ordered, g, tr[i]) && Stable(ViewsOf(tr[0].state.steps), ViewsOf(tr[i].state.steps))
  {
    InOrderAtStart(c, ordered, g, previous, run);
    var m0 := ViewsOf(tr[0].state.steps);
    var inv, ok := (f: Frame) => InOrder(c, ordered, g, f) && Stable(m0, ViewsOf(f.state.steps)), (f: Frame, l: Label) => true;
    forall f, l | inv(f) && ok(f, l) && Enabled(c, f, l) ensures inv(Apply(c, ordered, f, l)) {
      InOrderStep(c, ordered, g, f, l);
    }
    Invariance(c, ordered, inv, ok, tr, ls);
  }

  // ---- the theorems ----

  /** No two steps of a wave are related by the dependency order, and everything a
      planned step depends on has succeeded or was skipped. */
  ghost predicate Antichain(g: Deps, f: Frame) {
    && (forall i, j :: 0 <= i < |f.plans| && 0 <= j < |f.plans| ==> !Reaches(g, f.plans[i].step.id, f.plans[j].step.id))
    && (forall i, x :: 0 <= i < |f.plans| && Reaches(g, f.plans[i].step.id, x) ==> Done(ViewsOf(f.state.steps), x))
  }

  lemma InOrderAntichain(c: Config, ordered: seq<Step>, g: Deps, f: Frame)
    requires Schedule(ordered, g) && InOrder(c, ordered, g, f)
    ensures Antichain(g, f)
  {
    forall i, x | 0 <= i < |f.plans| && Reaches(g, f.plans[i].step.id, x) ensures Done(ViewsOf(f.state.steps), x) {
      assert Pending(f)[i] == f.plans[i].step;
      TransitiveDone(ordered, g, ViewsOf(f.state.steps), f.plans[i].step, x);
    }
    forall j | 0 <= j < |f.plans| ensures !Done(ViewsOf(f.state.steps), f.plans[j].step.id) {
      assert f.plans[j].state.status == Running;
    }
  }

  lemma WavesAreAntichains(c: Config, d: Definition, previous: Option<State>, run: string, tr: seq<Frame>, ls: seq<Label>)
    requires Accepts(d, c.registry)
    requires var ordered := OrderedSteps(d, c.registry);
             && IsRun(c, ordered, tr, ls) && tr[0] == Begin(ordered, previous, run)
             && (previous.Some? ==> CoherentState(c, ordered, previous.value))
    ensures forall n :: 0 <= n < |tr| ==> Antichain(Edges(ById(d.steps)), tr[n])
  {
    var ordered, g := OrderedSteps(d, c.registry), Edges(ById(d.steps));
    AcceptedSchedule(d, c.registry);
    InOrderInRuns(c, ordered, g, previous, run, tr, ls);
    forall n | 0 <= n < |tr| ensures Antichain(g, tr[n]) {
      InOrderAntichain(c, ordered, g, tr[n]);
    }
  }

  /** Every run of the definition, fresh or resumed, leaves a coherent state, and every
      step that had succeeded or was skipped before the run shows the same after it. */
  lemma RunsKeepDoneSteps(c: Config, ordered: seq<Step>, g: Deps, previous: Option<State>, run: string, s': State)
    requires Schedule(ordered, g) && RunsTo(c, ordered, previous, run, s')
    requires previous.Some? ==> CoherentState(c, ordered, previous.value)
    ensures CoherentState(c, ordered, s')
    ensures previous.Some? ==> Stable(ViewsOf(previous.value.steps), ViewsOf(s'.steps))
  {
    var tr: seq<Frame>, ls: seq<Label> :| IsRun(c, ordered, tr, ls) && tr[0] == Begin(ordered, previous, run) && tr[|tr| - 1].state == s';
    InOrderInRuns(c, ordered, g, previous, run, tr, ls);
  }

  /** Engines that decode and hash alike. */
  ghost predicate ReadAlike(c: Config, cs: seq<Config>) {
    forall i :: 0 <= i < |cs| ==> cs[i].decode == c.decode && cs[i].hash == c.hash
  }

  /** Any number of resumes of one definition, from any coherent state. */
  lemma {:induction false} ResumesKeepDoneSteps(ordered: seq<Step>, g: Deps, c: Config, cs: seq<Config>, states: seq<State>)
    requires Schedule(ordered, g) && IsHistory(seq(|cs|, i => ordered), cs, states)
    requires ReadAlike(c, cs) && CoherentState(c, ordered, states[0])
    ensures forall i :: 0 <= i < |states| ==> Stable(ViewsOf(states[0].steps), ViewsOf(states[i].steps)) && CoherentState(c, ordered, states[i])
    decreases |cs|
  {
    if |cs| > 0 {
      var n := |cs| - 1;
      assert seq(|cs|, i => ordered)[..n] == seq(n, i => ordered);
      ResumesKeepDoneSteps(ordered, g, c, cs[..n], states[..n + 1]);
      assert states[..n + 1][n] == states[n] && states[..n + 1][0] == states[0];
      assert ResumesTo(cs[n], seq(|cs|, i => ordered)[n], states[n], states[n + 1]);
      RunsKeepDoneSteps(cs[n], ordered, g, Some(states[n]), states[n].id, states[n + 1]);
      forall i | 0 <= i < |states|
        ensures Stable(ViewsOf(states[0].steps), ViewsOf(states[i].steps)) && CoherentState(c, ordered, states[i])
      {
        if i <= n { assert states[..n + 1][i] == states[i]; }
      }
    }
  }

  /** Skips are stable: after a fresh run and over any number of resumes of the same
      definition, whatever the operators and executors do, a skipped step is skipped and
      a succeeded one keeps its output. Reruns change nothing here, since no run of one
      definition makes an input stale; and so each of these runs is one of antichains. */
  lemma SkipsAreStable(ordered: seq<Step>, g: Deps, c: Config, run: string, cs: seq<Config>, states: seq<State>)
    requires Schedule(ordered, g) && ReadAlike(c, cs)
    requires IsHistory(seq(|cs|, i => ordered), cs, states) && RunsTo(c, ordered, None, run, states[0])
    ensures forall i, j :: 0 <= i <= j < |states| ==> Stable(ViewsOf(states[i].steps), ViewsOf(states[j].steps))
    ensures forall i :: 0 <= i < |states| ==> CoherentState(c, ordered, states[i])
  {
    RunsKeepDoneSteps(c, ordered, g, None, run, states[0]);
    ResumesKeepDoneSteps(ordered, g, c, cs, states);
    forall i, j | 0 <= i <= j < |states| ensures Stable(ViewsOf(states[i].steps), ViewsOf(states[j].steps)) {
      HistorySuffix(seq(|cs|, i => ordered), cs, states, i);
      assert seq(|cs|, i => ordered)[i..] == seq(|cs| - i, i => ordered);
      ResumesKeepDoneSteps(ordered, g, c, cs[i..], states[i..]);
      assert states[i..][j - i] == states[j] && states[i..][0] == states[i];
    }
  }

  /** In such a life of a workflow run every wave of every resume is an antichain. */
  lemma LivesAreAntichains(ordered: seq<Step>, g: Deps, c: Config, run: string, cs: seq<Config>, states: seq<State>,
                           k: nat, c': Config, tr: seq<Frame>, ls: seq<Label>)
    requires Schedule(ordered, g) && ReadAlike(c, cs + [c'])
    requires IsHistory(seq(|cs|, i => ordered), cs, states) && RunsTo(c, ordered, None, run, states[0])
    requires k < |states| && IsRun(c', ordered, tr, ls) && tr[0] == Begin(ordered, Some(states[k]), states[k].id)
    ensures forall n :: 0 <= n < |tr| ==> Antichain(g, tr[n])
  {
    assert (cs + [c'])[|cs|] == c' && forall i :: 0 <= i < |cs| ==> (cs + [c'])[i] == cs[i];
    SkipsAreStable(ordered, g, c, run, cs, states);
    InOrderInRuns(c', ordered, g, Some(states[k]), states[k].id, tr, ls);
    forall n | 0 <= n < |tr| ensures Antichain(g, tr[n]) {
      InOrderAntichain(c', ordered, g, tr[n]);
    }
  }

  // ---- what related steps of a wave have in common ----

  /** No step of the wave reads another one that was planned before it. */
  ghost predicate NobodyReads(f: Frame) {
    forall i, j :: 0 <= i < j < |f.plans| ==> f.plans[i].step.id !in StepSources(f.plans[j].step)
  }

  /** Running steps show nothing. */
  ghost predicate PlansBare(f: Frame) {
    forall i :: 0 <= i < |f.plans| ==> f.plans[i].state.status == Running && f.plans[i].state.output == Empty
  }

  ghost predicate Apart(ordered: seq<Step>, g: Deps, f: Frame) {
    Book(ordered, g, f) && PlansMatch(f) && PlansBare(f) && NobodyReads(f)
  }

  lemma RunningSourceBreaks(decode: Decoder, s: Step, m: Views, x: string)
    requires x in StepSources(s) && x in m && m[x] == View(Running, Empty)
    ensures !(Resolve(decode, s.input, s.bindings, m).Resolved? && Condition(s.condition, m) == Holds)
  {
    if field :| field in s.bindings && BindingSource(s.bindings[field]) == x {
      assert ResolveBinding(decode, s.bindings[field], m).Broken?;
    }
  }

  /** A step that starts reads no running step. */
  lemma StartedReadsNone(c: Config, f: Frame, answer: Answer)
    requires f.phase.Planning? && f.phase.ready != []
    ensures var f' := ApplyExamine(c, f, answer);
            |f'.plans| > |f.plans| ==>
              && f'.plans[|f.plans|].state.status == Running && f'.plans[|f.plans|].state.output == Empty
              && Resolve(c.decode, f.phase.ready[0].input, f.phase.ready[0].bindings, ViewsOf(f.state.steps)).Resolved?
              && Condition(f.phase.ready[0].condition, ViewsOf(f.state.steps)) == Holds
  {}

  lemma ApartExamine(c: Config, ordered: seq<Step>, g: Deps, f: Frame, answer: Answer)
    requires Apart(ordered, g, f) && f.phase.Planning? && f.phase.ready != []
    ensures PlansMatch(ApplyExamine(c, f, answer)) && PlansBare(ApplyExamine(c, f, answer)) && NobodyReads(ApplyExamine(c, f, answer))
  {
    ExamineEffect(c, f, answer);
    ExamineKeepsPlans(ordered, f, ApplyExamine(c, f, answer));
    NobodyReadsExamined(c, ordered, g, f, answer);
  }

  lemma NobodyReadsExamined(c: Config, ordered: seq<Step>, g: Deps, f: Frame, answer: Answer)
    requires Apart(ordered, g, f) && f.phase.Planning? && f.phase.ready != []
    ensures PlansBare(ApplyExamine(c, f, answer)) && NobodyReads(ApplyExamine(c, f, answer))
  {
    var f', n, m := ApplyExamine(c, f, answer), |f.plans|, ViewsOf(f.state.steps);
    ExamineEffect(c, f, answer);
    StartedReadsNone(c, f, answer);
    assert forall i :: 0 <= i < n && n <= |f'.plans| ==> f'.plans[..n][i] == f'.plans[i];
    if |f'.plans| > n {
      forall i | 0 <= i < n ensures f.plans[i].step.id !in StepSources(f.phase.ready[0]) {
        assert m[f.plans[i].step.id] == View(Running, Empty);
        if f.plans[i].step.id in StepSources(f.phase.ready[0]) {
          RunningSourceBreaks(c.decode, f.phase.ready[0], m, f.plans[i].step.id);
        }
      }
    }
  }

  lemma ApartUntouched(ordered: seq<Step>, g: Deps, f: Frame, f': Frame)
    requires Apart(ordered, g, f) && Book(ordered, g, f')
    requires f'.state.steps == f.state.steps && (f'.plans == f.plans || f'.plans == [])
    ensures Apart(ordered, g, f')
  {}

  lemma ApartCommit(ordered: seq<Step>, g: Deps, f: Frame, verdict: Verdict, attempts: nat, saved: bool)
    requires Apart(ordered, g, f) && f.phase.Committing? && f.plans != []
    ensures PlansMatch(ApplyCommit(f, verdict, attempts, saved)) && PlansBare(ApplyCommit(f, verdict, attempts, saved))
    ensures NobodyReads(ApplyCommit(f, verdict, attempts, saved))
  {
    CommitShrinks(ordered, f, verdict, attempts, saved);
  }

  lemma ApartStep(c: Config, ordered: seq<Step>, g: Deps, f: Frame, l: Label)
    requires Schedule(ordered, g) && Apart(ordered, g, f) && Enabled(c, f, l)
    ensures Apart(ordered, g, Apply(c, ordered, f, l))
  {
    BookStep(c, ordered, g, f, l);
    if l.Examine? {
      ApartExamine(c, ordered, g, f, l.answer);
    } else if l.Commit? {
      ApartCommit(ordered, g, f, l.verdict, l.attempts, l.saved);
    } else {
      StepsUntouched(c, ordered, f, l);
      ApartUntouched(ordered, g, f, Apply(c, ordered, f, l));
    }
  }

  lemma StepsUntouched(c: Config, ordered: seq<Step>, f: Frame, l: Label)
    requires Enabled(c, f, l) && !l.Examine? && !l.Commit?
    ensures Apply(c, ordered, f, l).state.steps == f.state.steps
    ensures Apply(c, ordered, f, l).plans == f.plans || Apply(c, ordered, f, l).plans == []
  {}

  lemma RunsStayApart(c: Config, ordered: seq<Step>, g: Deps, previous: Option<State>, run: string, tr: seq<Frame>, ls: seq<Label>)
    requires Schedule(ordered, g) && IsRun(c, ordered, tr, ls) && tr[0] == Begin(ordered, previous, run)
    ensures forall n :: 0 <= n < |tr| ==> Apart(ordered, g, tr[n])
  {
    BookAtStart(ordered, g, previous, run);
    var inv, ok := (f: Frame) => Apart(ordered, g, f), (f: Frame, l: Label) => true;
    forall f, l | inv(f) && ok(f, l) && Enabled(c, f, l) ensures inv(Apply(c, ordered, f, l)) {
      ApartStep(c, ordered, g, f, l);
    }
    Invariance(c, ordered, inv, ok, tr, ls);
  }

  /** On every run, from whatever state it starts, no step of a wave reads another one. */
  lemma WaveStepsReadNoOther(c: Config, ordered: seq<Step>, g: Deps, previous: Option<State>, run: string, tr: seq<Frame>, ls: seq<Label>)
    requires Schedule(ordered, g) && IsRun(c, ordered, tr, ls) && tr[0] == Begin(ordered, previous, run)
    ensures forall n, i, j :: 0 <= n < |tr| && 0 <= i < |tr[n].plans| && 0 <= j < |tr[n].plans| ==>
              tr[n].plans[i].step.id !in StepSources(tr[n].plans[j].step)
  {
    RunsStayApart(c, ordered, g, previous, run, tr, ls);
    forall n, i, j | 0 <= n < |tr| && 0 <= i < |tr[n].plans| && 0 <= j < |tr[n].plans|
      ensures tr[n].plans[i].step.id !in StepSources(tr[n].plans[j].step)
    {
      assert Apart(ordered, g, tr[n]);
      assert StepsOf(tr[n].plans)[i] == tr[n].plans[i].step && StepsOf(tr[n].plans)[j] == tr[n].plans[j].step;
      ReadNoOther(ordered, g, tr[n], tr[n].plans[j].step, tr[n].plans[i].step);
    }
  }

  /** A step reads nothing that comes after it. */
  lemma LaterIsNoSource(ordered: seq<Step>, g: Deps, f: Frame, i: nat, j: nat)
    requires Schedule(ordered, g) && PendingUnsettled(ordered, f) && j <= i < |f.plans|
    ensures f.plans[i].step.id !in StepSources(f.plans[j].step)
  {
    var x, y := f.plans[i].step, f.plans[j].step;
    assert Pending(f)[i] == x && Pending(f)[j] == y;
    if x.id in StepSources(y) {
      SourcesComeFirst(ordered, g, y, x.id);
      assert false;
    }
  }

  lemma SourcesComeFirst(ordered: seq<Step>, g: Deps, s: Step, x: string)
    requires Schedule(ordered, g) && s in ordered && x in StepSources(s)
    ensures RankOf(ordered, x) < RankOf(ordered, s.id)
  {
    var p :| IsPath(g, p) && p[0] == s.id && p[|p| - 1] == x;
    var i :| 0 <= i < |ordered| && ordered[i] == s;
    OrderedPathsDescend(g, IdsOf(ordered), p, i);
    var j :| 0 <= j < i && IdsOf(ordered)[..i][j] == x;
    RankIsIndex(ordered, i);
    RankIsIndex(ordered, j);
  }

  lemma {:induction false} RankIsIndex(ordered: seq<Step>, i: nat)
    requires i < |ordered| && NoDuplicates(IdsOf(ordered))
    ensures RankOf(ordered, ordered[i].id) == i
  {
    if i > 0 {
      assert IdsOf(ordered)[0] != IdsOf(ordered)[i];
      assert IdsOf(ordered[1..]) == IdsOf(ordered)[1..];
      RankIsIndex(ordered[1..], i - 1);
    }
  }

  // ---- where waves are no antichains ----

  /** Examining the step in this state, with approvals granted, starts it. */
  predicate WouldStart(c: Config, steps: Steps, s: Step) {
    var r := Resolve(c.decode, s.input, s.bindings, ViewsOf(steps));
    && r.Resolved? && Condition(s.condition, ViewsOf(steps)) == Holds && (NeedsApproval(c, s) ==> c.approval)
    && !(s.id in steps && steps[s.id].status == Succeeded && (!s.rerunOnInputChange || steps[s.id].inputHash == c.hash(r.input)))
  }

  /** One turn of a ready step, with approvals granted. */
  ghost predicate Turn(c: Config, e: Frame, e': Frame) {
    Enabled(c, e, Examine(Granted)) && e' == ApplyExamine(c, e, Granted)
  }

  /** The frames of a wave while it is planned: one ready step after the other gets its turn. */
  ghost predicate IsPlanning(c: Config, es: seq<Frame>) {
    && es != [] && es[0].phase.Planning? && es[0].plans == []
    && forall k :: 0 <= k < |es| - 1 ==> Turn(c, es[k], es[k + 1])
  }

  /** The first wave of resuming `s`, about to be planned. */
  ghost predicate IsFirstWave(c: Config, ordered: seq<Step>, s: State, f: Frame) {
    var f0 := Begin(ordered, Some(s), s.id);
    Enabled(c, f0, Poll(Proceed)) && f == Apply(c, ordered, f0, Poll(Proceed)) && f.phase.Planning?
  }

  lemma FirstWaveReady(c: Config, ordered: seq<Step>, g: Deps, s: State, f: Frame)
    requires Schedule(ordered, g) && IsFirstWave(c, ordered, s, f)
    ensures f.state.steps == s.steps && f.plans == []
    ensures forall x :: x in f.phase.ready ==> x in ordered && !KeptAtStart(x, s.steps) && DependenciesDone(x, ViewsOf(s.steps)) && x.id !in f.finished
    ensures NoDuplicates(IdsOf(f.phase.ready))
  {
    var f0 := Begin(ordered, Some(s), s.id);
    ReadyIs(ordered, f0);
    ReadyAscends(ordered, g, f0);
    forall x | x in ordered ensures KeptAtStart(x, s.steps) ==> x.id in f0.finished {
      var i :| 0 <= i < |ordered| && ordered[i] == x;
    }
  }

  lemma PlanningPrefix(c: Config, es: seq<Frame>)
    requires IsPlanning(c, es) && |es| > 1
    ensures IsPlanning(c, es[..|es| - 1]) && Turn(c, es[|es| - 2], es[|es| - 1])
  {
    var n := |es| - 1;
    forall k | 0 <= k < n - 1 ensures Turn(c, es[..n][k], es[..n][k + 1]) {
      assert Turn(c, es[k], es[k + 1]);
    }
    assert Turn(c, es[n - 1], es[n - 1 + 1]);
  }

  lemma PlanningExtended(c: Config, es: seq<Frame>, e: Frame)
    requires IsPlanning(c, es) && Turn(c, es[|es| - 1], e)
    ensures IsPlanning(c, es + [e])
  {
    var es' := es + [e];
    forall k | 0 <= k < |es'| - 1 ensures Turn(c, es'[k], es'[k + 1]) {
      if k < |es| - 1 { assert Turn(c, es[k], es[k + 1]); }
    }
  }

  function Turns(n: nat): seq<Label> {
    seq(n, i => Examine(Granted))
  }

  /** Planning a wave is a run. */
  lemma PlanningIsRun(c: Config, ordered: seq<Step>, f0: Frame, es: seq<Frame>)
    requires IsPlanning(c, es) && Enabled(c, f0, Poll(Proceed)) && es[0] == Apply(c, ordered, f0, Poll(Proceed))
    ensures IsRun(c, ordered, [f0] + es, [Poll(Proceed)] + Turns(|es| - 1))
  {
    var tr, ls := [f0] + es, [Poll(Proceed)] + Turns(|es| - 1);
    forall i | 0 <= i < |ls| ensures Enabled(c, tr[i], ls[i]) && tr[i + 1] == Apply(c, ordered, tr[i], ls[i]) {
      if i > 0 {
        assert Turn(c, es[i - 1], es[i]);
        TurnIsStep(c, ordered, es[i - 1], es[i]);
      }
    }
  }

  lemma TurnIsStep(c: Config, ordered: seq<Step>, e: Frame, e': Frame)
    requires Turn(c, e, e')
    ensures Enabled(c, e, Examine(Granted)) && e' == Apply(c, ordered, e, Examine(Granted))
  {}

  /** Two steps of the wave are related by the dependency order. */
  ghost predicate RelatedSteps(g: Deps, f: Frame) {
    exists x, y :: x in StepsOf(f.plans) && y in StepsOf(f.plans) && Reaches(g, x.id, y.id)
  }

  lemma RelatedIsNoAntichain(g: Deps, f: Frame)
    requires RelatedSteps(g, f)
    ensures !Antichain(g, f)
  {
    var x, y :| x in StepsOf(f.plans) && y in StepsOf(f.plans) && Reaches(g, x.id, y.id);
    var i :| 0 <= i < |f.plans| && StepsOf(f.plans)[i] == x;
    var j :| 0 <= j < |f.plans| && StepsOf(f.plans)[j] == y;
    assert Reaches(g, f.plans[i].step.id, f.plans[j].step.id);
  }

  // What it takes: a step that is not read, at or above a stale one.

  /** The step is stale or depends on a stale one. */
  ghost predicate Affected(c: Config, ordered: seq<Step>, g: Deps, steps: Steps, id: string) {
    exists z :: z in ordered && Stale(c, z, steps) && (id == z.id || Reaches(g, id, z.id))
  }

  /** While the first wave is planned a step shows what it showed before, or nothing. Of
      the steps that were done only affected ones change, and a skipped one never starts. */
  ghost predicate Restarted(c: Config, ordered: seq<Step>, g: Deps, steps: Steps, m: Views) {
    var m0 := ViewsOf(steps);
    && (forall id :: id in m0 ==> id in m)
    && (forall id :: id in m && !(id in m0 && m[id] == m0[id]) ==> m[id].status != Succeeded && m[id].output == Empty)
    && (forall id :: Done(m0, id) && m[id] != m0[id] ==> Affected(c, ordered, g, steps, id))
    && (forall id :: Done(m0, id) && m[id].status == Running ==> m0[id].status == Succeeded)
  }

  /** Steps that still wait for their turns are as they were. */
  ghost predicate AsBefore(steps: Steps, steps': Steps, id: string) {
    (id in steps <==> id in steps') && (id in steps ==> steps'[id] == steps[id])
  }

  lemma ConditionStaysFalse(c: Config, ordered: seq<Step>, g: Deps, steps: Steps, m: Views, expr: string)
    requires Restarted(c, ordered, g, steps, m) && Condition(expr, ViewsOf(steps)) == DoesNotHold
    ensures Condition(expr, m) == DoesNotHold
  {}

  lemma AffectedAbove(c: Config, ordered: seq<Step>, g: Deps, steps: Steps, id: string, x: string)
    requires Reaches(g, id, x)
    ensures Affected(c, ordered, g, steps, x) ==> Affected(c, ordered, g, steps, id)
  {
    if Affected(c, ordered, g, steps, x) {
      var z :| z in ordered && Stale(c, z, steps) && (x == z.id || Reaches(g, x, z.id));
      if x != z.id { ReachesTransitive(g, id, x, z.id); }
    }
  }

  /** A done step reads something else than before only if something it reads is affected. */
  lemma ReadsAffected(c: Config, ordered: seq<Step>, g: Deps, steps: Steps, m: Views, s: Step)
    requires Schedule(ordered, g) && DoneClosed(ordered, ViewsOf(steps)) && Restarted(c, ordered, g, steps, m)
    requires s in ordered && DependenciesDone(s, ViewsOf(steps)) && !Affected(c, ordered, g, steps, s.id)
    ensures Resolve(c.decode, s.input, s.bindings, m) == Resolve(c.decode, s.input, s.bindings, ViewsOf(steps))
    ensures Condition(s.condition, m) == Condition(s.condition, ViewsOf(steps))
  {
    var m0 := ViewsOf(steps);
    forall x | x in StepSources(s) ensures x in m0 && x in m && m[x] == m0[x] {
      TransitiveDone(ordered, g, m0, s, x);
      AffectedAbove(c, ordered, g, steps, s.id, x);
    }
    ReadsOnlySources(c.decode, s.input, s.bindings, s.condition, m, m0);
  }

  /** What examining a step can make of it. */
  lemma ExamineShows(c: Config, e: Frame)
    requires e.phase.Planning? && e.phase.ready != []
    ensures var s, e', m := e.phase.ready[0], ApplyExamine(c, e, Granted), ViewsOf(e.state.steps);
            var m' := ViewsOf(e'.state.steps);
            && (s.id in m' && !(s.id in m && m'[s.id] == m[s.id]) ==> m'[s.id].status != Succeeded && m'[s.id].output == Empty)
            && (s.id in m' && !(s.id in m && m'[s.id] == m[s.id]) && m'[s.id].status == Running ==> Condition(s.condition, m) == Holds)
  {}

  lemma OthersShowAlike(c: Config, ordered: seq<Step>, g: Deps, steps: Steps, m: Views, m': Views, id: string)
    requires Restarted(c, ordered, g, steps, m)
    requires forall x :: x != id ==> (x in m <==> x in m') && (x in m ==> m'[x] == m[x])
    requires id in m ==> id in m'
    requires id in m' && !(id in ViewsOf(steps) && m'[id] == ViewsOf(steps)[id]) ==> m'[id].status != Succeeded && m'[id].output == Empty
    requires Done(ViewsOf(steps), id) && id in m' && m'[id] != ViewsOf(steps)[id] ==> Affected(c, ordered, g, steps, id)
    requires Done(ViewsOf(steps), id) && id in m' && m'[id].status == Running ==> ViewsOf(steps)[id].status == Succeeded
    ensures Restarted(c, ordered, g, steps, m')
  {}

  /** An unaffected done step stays what it is. */
  lemma UnaffectedStays(c: Config, ordered: seq<Step>, g: Deps, steps: Steps, e: Frame)
    requires Schedule(ordered, g) && Coherent(c.decode, ordered, ViewsOf(steps)) && Restarted(c, ordered, g, steps, ViewsOf(e.state.steps))
    requires e.phase.Planning? && e.phase.ready != []
    requires var s := e.phase.ready[0];
             && s in ordered && DependenciesDone(s, ViewsOf(steps)) && AsBefore(steps, e.state.steps, s.id)
             && Done(ViewsOf(steps), s.id) && !Affected(c, ordered, g, steps, s.id)
    ensures ViewsOf(ApplyExamine(c, e, Granted).state.steps)[e.phase.ready[0].id] == ViewsOf(steps)[e.phase.ready[0].id]
  {
    var s, m := e.phase.ready[0], ViewsOf(e.state.steps);
    ReadsAffected(c, ordered, g, steps, m, s);
    if steps[s.id].status == Succeeded {
      assert !Stale(c, s, steps);
      ExamineInputs(c, e, Granted);
    } else {
      ExamineSkips(c, e, Granted);
    }
  }

  lemma TurnRestarts(c: Config, ordered: seq<Step>, g: Deps, steps: Steps, e: Frame, e': Frame)
    requires Schedule(ordered, g) && Coherent(c.decode, ordered, ViewsOf(steps)) && Restarted(c, ordered, g, steps, ViewsOf(e.state.steps))
    requires Turn(c, e, e')
    requires var s := e.phase.ready[0]; s in ordered && DependenciesDone(s, ViewsOf(steps)) && AsBefore(steps, e.state.steps, s.id)
    ensures Restarted(c, ordered, g, steps, ViewsOf(e'.state.steps))
  {
    var s, m0, m, m' := e.phase.ready[0], ViewsOf(steps), ViewsOf(e.state.steps), ViewsOf(e'.state.steps);
    ExamineEffect(c, e, Granted);
    OnlyAtViews(e.state.steps, e'.state.steps, s.id);
    ExamineShows(c, e);
    if Done(m0, s.id) {
      if !Affected(c, ordered, g, steps, s.id) { UnaffectedStays(c, ordered, g, steps, e); }
      if m0[s.id].status == Skipped { ConditionStaysFalse(c, ordered, g, steps, m, s.condition); }
    }
    OthersShowAlike(c, ordered, g, steps, m, m', s.id);
  }

  /** Where the planning of the first wave stands. */
  ghost predicate StandsAt(c: Config, ordered: seq<Step>, g: Deps, f: Frame, e: Frame, n: nat)
    requires f.phase.Planning?
  {
    && n <= |f.phase.ready|
    && Restarted(c, ordered, g, f.state.steps, ViewsOf(e.state.steps))
    && (e.phase.Planning? ==> e.phase.ready == f.phase.ready[n..])
    && (forall k :: n <= k < |f.phase.ready| ==> AsBefore(f.state.steps, e.state.steps, f.phase.ready[k].id))
    && forall i :: 0 <= i < |e.plans| ==> e.plans[i].step in f.phase.ready
  }

  lemma TurnTouchesOne(c: Config, f: Frame, e: Frame, e': Frame, n: nat)
    requires f.phase.Planning? && n < |f.phase.ready| && NoDuplicates(IdsOf(f.phase.ready))
    requires Turn(c, e, e') && e.phase.ready == f.phase.ready[n..]
    requires forall k :: n <= k < |f.phase.ready| ==> AsBefore(f.state.steps, e.state.steps, f.phase.ready[k].id)
    requires forall i :: 0 <= i < |e.plans| ==> e.plans[i].step in f.phase.ready
    ensures e'.phase.Planning? ==> e'.phase.ready == f.phase.ready[n + 1..]
    ensures forall k :: n < k < |f.phase.ready| ==> AsBefore(f.state.steps, e'.state.steps, f.phase.ready[k].id)
    ensures forall i :: 0 <= i < |e'.plans| ==> e'.plans[i].step in f.phase.ready
  {
    ExamineEffect(c, e, Granted);
    var s := f.phase.ready[n];
    assert e.phase.ready[0] == s && e.phase.ready[1..] == f.phase.ready[n + 1..];
    forall k | n < k < |f.phase.ready| ensures AsBefore(f.state.steps, e'.state.steps, f.phase.ready[k].id) {
      assert IdsOf(f.phase.ready)[k] != IdsOf(f.phase.ready)[n];
    }
    forall i | 0 <= i < |e'.plans| ensures e'.plans[i].step in f.phase.ready {
      assert |e'.plans| > |e.plans| ==> e'.plans[..|e.plans|] == e.plans && e'.plans[|e.plans|].step == s;
      assert i < |e.plans| ==> e'.plans[i] == e.plans[i];
    }
  }

  lemma StandsNext(c: Config, ordered: seq<Step>, g: Deps, f: Frame, e: Frame, e': Frame, n: nat)
    requires Schedule(ordered, g) && PlanFrom(c.decode, ordered, f)
    requires StandsAt(c, ordered, g, f, e, n) && Turn(c, e, e')
    ensures StandsAt(c, ordered, g, f, e', n + 1)
  {
    assert e.phase.ready[0] == f.phase.ready[n];
    TurnRestarts(c, ordered, g, f.state.steps, e, e');
    TurnTouchesOne(c, f, e, e', n);
  }

  /** What the first wave is planned from. */
  ghost predicate PlanFrom(decode: Decoder, ordered: seq<Step>, f: Frame) {
    && Coherent(decode, ordered, ViewsOf(f.state.steps)) && f.phase.Planning? && f.plans == []
    && NoDuplicates(IdsOf(f.phase.ready))
    && forall x :: x in f.phase.ready ==> x in ordered && DependenciesDone(x, ViewsOf(f.state.steps))
  }

  lemma StandsFirst(c: Config, ordered: seq<Step>, g: Deps, f: Frame)
    requires f.phase.Planning? && f.plans == []
    ensures StandsAt(c, ordered, g, f, f, 0)
  {
    assert f.phase.ready[0..] == f.phase.ready;
  }

  lemma {:induction false} PlanningStands(c: Config, ordered: seq<Step>, g: Deps, es: seq<Frame>)
    requires Schedule(ordered, g) && IsPlanning(c, es) && PlanFrom(c.decode, ordered, es[0])
    ensures |es| - 1 <= |es[0].phase.ready| && StandsAt(c, ordered, g, es[0], es[|es| - 1], |es| - 1)
  {
    if |es| == 1 {
      StandsFirst(c, ordered, g, es[0]);
    } else {
      var n := |es| - 1;
      PlanningPrefix(c, es);
      PlanningStands(c, ordered, g, es[..n]);
      assert es[..n][n - 1] == es[n - 1] && es[..n][0] == es[0];
      StandsNext(c, ordered, g, es[0], es[n - 1], es[n], n - 1);
    }
  }

  /** A ready step that may share its wave with `y`: it depends on `y` without reading it,
      and `y` has succeeded, asks for reruns and is stale or depends on a stale step. */
  ghost predicate MayShareWave(c: Config, ordered: seq<Step>, g: Deps, steps: Steps, x: Step, y: Step) {
    && x in ordered && y in ordered && DependenciesDone(x, ViewsOf(steps))
    && Reaches(g, x.id, y.id) && y.id !in StepSources(x)
    && y.id in steps && steps[y.id].status == Succeeded && y.rerunOnInputChange
    && Affected(c, ordered, g, steps, y.id)
  }

  lemma PlannedIsRunning(ordered: seq<Step>, g: Deps, f: Frame, x: Step)
    requires Apart(ordered, g, f) && x in StepsOf(f.plans)
    ensures x.id in f.state.steps && ViewsOf(f.state.steps)[x.id].status == Running
  {
    var i :| 0 <= i < |f.plans| && StepsOf(f.plans)[i] == x;
  }

  /** In the first wave of resuming a state whose done steps are closed under dependencies
      and whose skips still hold, related steps are of that kind: what a caller can look
      for before resuming. */
  lemma RelatedStepsMayShare(c: Config, ordered: seq<Step>, g: Deps, s: State, es: seq<Frame>, x: Step, y: Step)
    requires Schedule(ordered, g) && Coherent(c.decode, ordered, ViewsOf(s.steps))
    requires IsPlanning(c, es) && IsFirstWave(c, ordered, s, es[0])
    requires x in StepsOf(es[|es| - 1].plans) && y in StepsOf(es[|es| - 1].plans) && Reaches(g, x.id, y.id)
    ensures MayShareWave(c, ordered, g, s.steps, x, y)
  {
    var last := es[|es| - 1];
    FirstWaveReady(c, ordered, g, s, es[0]);
    PlanningStands(c, ordered, g, es);
    PlanningStaysApart(c, ordered, g, s, es);
    PlannedAreReady(last, es[0], x);
    PlannedAreReady(last, es[0], y);
    PlannedIsRunning(ordered, g, last, y);
    ReadNoOther(ordered, g, last, x, y);
    TransitiveDone(ordered, g, ViewsOf(s.steps), x, y.id);
  }

  lemma PlanningStaysApart(c: Config, ordered: seq<Step>, g: Deps, s: State, es: seq<Frame>)
    requires Schedule(ordered, g) && IsPlanning(c, es) && IsFirstWave(c, ordered, s, es[0])
    ensures Apart(ordered, g, es[|es| - 1])
  {
    var f0 := Begin(ordered, Some(s), s.id);
    var tr, ls := [f0] + es, [Poll(Proceed)] + Turns(|es| - 1);
    PlanningIsRun(c, ordered, f0, es);
    RunsStayApart(c, ordered, g, Some(s), s.id, tr, ls);
    assert tr[|es|] == es[|es| - 1];
  }

  lemma PlannedAreReady(f: Frame, f0: Frame, x: Step)
    requires f0.phase.Planning? && x in StepsOf(f.plans)
    requires forall i :: 0 <= i < |f.plans| ==> f.plans[i].step in f0.phase.ready
    ensures x in f0.phase.ready
  {}

  lemma ReadNoOther(ordered: seq<Step>, g: Deps, f: Frame, x: Step, y: Step)
    requires Schedule(ordered, g) && Apart(ordered, g, f) && x in StepsOf(f.plans) && y in StepsOf(f.plans)
    ensures y.id !in StepSources(x)
  {
    var i :| 0 <= i < |f.plans| && StepsOf(f.plans)[i] == x;
    var j :| 0 <= j < |f.plans| && StepsOf(f.plans)[j] == y;
    if j >= i { LaterIsNoSource(ordered, g, f, j, i); }
  }

  // And it suffices, where the sources are finished: then the wave is known beforehand.

  /** The steps of a list that would start, in their order. */
  function Starters(c: Config, steps: Steps, ready: seq<Step>): seq<Step> {
    if ready == [] then []
    else Starters(c, steps, ready[..|ready| - 1]) + if WouldStart(c, steps, ready[|ready| - 1]) then [ready[|ready| - 1]] else []
  }

  /** Everything the step reads is finished, its input can be resolved and its condition
      evaluated. */
  ghost predicate ReadsFinished(c: Config, f: Frame, s: Step) {
    && (forall x :: x in StepSources(s) ==> x in f.finished)
    && Resolve(c.decode, s.input, s.bindings, ViewsOf(f.state.steps)).Resolved?
    && Condition(s.condition, ViewsOf(f.state.steps)) != ConditionPanics
  }

  lemma TurnDecides(c: Config, f: Frame, e: Frame)
    requires e.phase.Planning? && e.phase.ready != []
    requires ReadsFinished(c, f, e.phase.ready[0]) && AsBefore(f.state.steps, e.state.steps, e.phase.ready[0].id)
    requires forall id :: id in f.finished ==> AsBefore(f.state.steps, e.state.steps, id)
    ensures var e', s := ApplyExamine(c, e, Granted), e.phase.ready[0];
            && e'.phase == Planning(e.phase.ready[1..])
            && StepsOf(e'.plans) == StepsOf(e.plans) + (if WouldStart(c, f.state.steps, s) then [s] else [])
  {
    var s, m, m' := e.phase.ready[0], ViewsOf(f.state.steps), ViewsOf(e.state.steps);
    forall x | x in StepSources(s) ensures (x in m <==> x in m') && (x in m ==> m[x] == m'[x]) {
      assert AsBefore(f.state.steps, e.state.steps, x);
    }
    ReadsOnlySources(c.decode, s.input, s.bindings, s.condition, m, m');
    assert WouldStart(c, e.state.steps, s) <==> WouldStart(c, f.state.steps, s);
    ExamineStarts(c, e);
  }

  lemma ExamineStarts(c: Config, e: Frame)
    requires e.phase.Planning? && e.phase.ready != []
    ensures var e', s := ApplyExamine(c, e, Granted), e.phase.ready[0];
            StepsOf(e'.plans) == StepsOf(e.plans) + (if WouldStart(c, e.state.steps, s) then [s] else [])
    ensures Resolve(c.decode, e.phase.ready[0].input, e.phase.ready[0].bindings, ViewsOf(e.state.steps)).Resolved?
            && Condition(e.phase.ready[0].condition, ViewsOf(e.state.steps)) != ConditionPanics
            ==> ApplyExamine(c, e, Granted).phase == Planning(e.phase.ready[1..])
  {}

  /** Planning got through the first `n` ready steps and started exactly those that the
      state before the wave says. */
  ghost predicate SettledAt(c: Config, f: Frame, e: Frame, n: nat)
    requires f.phase.Planning? && n <= |f.phase.ready|
  {
    && e.phase == Planning(f.phase.ready[n..]) && StepsOf(e.plans) == Starters(c, f.state.steps, f.phase.ready[..n])
    && (forall id :: id in f.finished ==> AsBefore(f.state.steps, e.state.steps, id))
    && (forall k :: n <= k < |f.phase.ready| ==> AsBefore(f.state.steps, e.state.steps, f.phase.ready[k].id))
    && (forall i :: 0 <= i < |e.plans| ==> e.plans[i].step in f.phase.ready)
  }

  lemma SettledTurn(c: Config, f: Frame, e: Frame, n: nat)
    requires f.phase.Planning? && n < |f.phase.ready| && NoDuplicates(IdsOf(f.phase.ready))
    requires forall x :: x in f.phase.ready ==> x.id !in f.finished
    requires ReadsFinished(c, f, f.phase.ready[n]) && SettledAt(c, f, e, n) && |e.plans| < Width(c)
    ensures SettledAt(c, f, ApplyExamine(c, e, Granted), n + 1)
  {
    var ready, e' := f.phase.ready, ApplyExamine(c, e, Granted);
    assert e.phase.ready[0] == ready[n] && e.phase.ready[1..] == ready[n + 1..];
    assert ready[..n + 1][..n] == ready[..n];
    TurnDecides(c, f, e);
    assert Turn(c, e, e');
    TurnTouchesOne(c, f, e, e', n);
    FinishedUntouched(c, f, e);
  }

  lemma FinishedUntouched(c: Config, f: Frame, e: Frame)
    requires e.phase.Planning? && e.phase.ready != [] && e.phase.ready[0].id !in f.finished
    requires forall id :: id in f.finished ==> AsBefore(f.state.steps, e.state.steps, id)
    ensures forall id :: id in f.finished ==> AsBefore(f.state.steps, ApplyExamine(c, e, Granted).state.steps, id)
  {
    ExamineEffect(c, e, Granted);
  }

  /** Planning goes on through the first `n` ready steps. */
  lemma {:induction false} SettledPlanning(c: Config, f: Frame, n: nat) returns (es: seq<Frame>)
    requires f.phase.Planning? && f.plans == [] && n <= |f.phase.ready| && NoDuplicates(IdsOf(f.phase.ready))
    requires forall x :: x in f.phase.ready ==> x.id !in f.finished
    requires forall k :: 0 <= k < n ==> ReadsFinished(c, f, f.phase.ready[k])
    requires n > 0 ==> |Starters(c, f.state.steps, f.phase.ready[..n - 1])| < Width(c)
    ensures IsPlanning(c, es) && es[0] == f && |es| == n + 1 && SettledAt(c, f, es[n], n)
  {
    var ready := f.phase.ready;
    if n == 0 {
      es := [f];
      assert ready[0..] == ready;
    } else {
      if n > 1 { assert ready[..n - 1][..n - 2] == ready[..n - 2]; }
      es := SettledPlanning(c, f, n - 1);
      var e := es[n - 1];
      var e' := ApplyExamine(c, e, Granted);
      assert |e.plans| == |StepsOf(e.plans)| < Width(c);
      SettledTurn(c, f, e, n - 1);
      assert Turn(c, e, e');
      PlanningExtended(c, es, e');
      es := es + [e'];
    }
  }

  /** The first wave of resuming a state, as far as its steps read finished steps only and
      the width admits them: it holds exactly those that would start in that state, so it
      has related steps exactly if two of them are related. Those that had succeeded are
      stale. */
  lemma SettledWavesAreExact(c: Config, ordered: seq<Step>, g: Deps, s: State, f: Frame, n: nat) returns (es: seq<Frame>)
    requires Schedule(ordered, g) && IsFirstWave(c, ordered, s, f) && n <= |f.phase.ready|
    requires forall k :: 0 <= k < n ==> ReadsFinished(c, f, f.phase.ready[k])
    requires n > 0 ==> |Starters(c, s.steps, f.phase.ready[..n - 1])| < Width(c)
    ensures |es| == n + 1 && IsRun(c, ordered, [Begin(ordered, Some(s), s.id)] + es, [Poll(Proceed)] + Turns(n))
    ensures StepsOf(es[n].plans) == Starters(c, s.steps, f.phase.ready[..n])
    ensures RelatedSteps(g, es[n]) <==>
      exists x, y :: x in f.phase.ready[..n] && y in f.phase.ready[..n] && Reaches(g, x.id, y.id)
                     && WouldStart(c, s.steps, x) && WouldStart(c, s.steps, y)
    ensures RelatedSteps(g, es[n]) ==> !Antichain(g, es[n])
    ensures forall y :: y in StepsOf(es[n].plans) && y.id in s.steps && s.steps[y.id].status == Succeeded ==> Stale(c, y, s.steps)
  {
    FirstWaveReady(c, ordered, g, s, f);
    es := SettledPlanning(c, f, n);
    PlanningIsRun(c, ordered, Begin(ordered, Some(s), s.id), es);
    forall x { StartersMembers(c, s.steps, f.phase.ready[..n], x); }
    if RelatedSteps(g, es[n]) { RelatedIsNoAntichain(g, es[n]); }
  }

  lemma {:induction false} StartersMembers(c: Config, steps: Steps, ready: seq<Step>, x: Step)
    ensures x in Starters(c, steps, ready) <==> x in ready && WouldStart(c, steps, x)
  {
    if ready != [] {
      StartersMembers(c, steps, ready[..|ready| - 1], x);
      assert ready == ready[..|ready| - 1] + [ready[|ready| - 1]];
    }
  }

  function RerunExample(): seq<Step> {
    [Step("a", "cap", "", [], "", Text(Obj(map[])), map[], 1, false, true),
     Step("b", "cap", "", ["a"], "", Text(Obj(map[])), map[], 1, false, false)]
  }

  function RerunState(stale: StepState): State {
    State("r", RunFailed, map["a" := stale], [], Empty, 1)
  }

  lemma BothReady(c: Config, stale: StepState) returns (f: Frame)
    requires stale.status == Succeeded
    ensures IsFirstWave(c, RerunExample(), RerunState(stale), f) && f.phase.ready == RerunExample()
  {
    var ordered, f0 := RerunExample(), Begin(RerunExample(), Some(RerunState(stale)), "r");
    assert f0.finished == {};
    assert IsReady(ordered[0], f0) && IsReady(ordered[1], f0);
    assert Ready(ordered[1..][1..], f0) == [];
    assert Ready(ordered[1..], f0) == [ordered[1]];
    f := ApplyPoll(ordered, f0, Proceed);
  }

  lemma PlainStep(c: Config, f: Frame, s: Step)
    requires s.input == Text(Obj(map[])) && s.bindings == map[] && s.condition == ""
    ensures ReadsFinished(c, f, s)
    ensures Resolve(c.decode, s.input, s.bindings, ViewsOf(f.state.steps)) == Resolved(Obj(map[]))
  {
    var none: map<string, Json> := map[];
    assert AssignedFields(c.decode, s.bindings, ViewsOf(f.state.steps)) == none;
    assert none + none == none;
  }

  /** Such a state: a step that succeeded under an earlier definition with another input
      and its unfinished dependent. Resuming plans both in one wave. */
  lemma RerunBreaksAntichains(c: Config, g: Deps, stale: StepState) returns (es: seq<Frame>)
    requires Schedule(RerunExample(), g)
    requires c.maxParallel >= 2 && !ManifestOf(c.registry, "cap").approvalRequired
    requires stale.status == Succeeded && stale.inputHash != c.hash(Obj(map[]))
    ensures var s := RerunState(stale);
            IsRun(c, RerunExample(), [Begin(RerunExample(), Some(s), s.id)] + es, [Poll(Proceed)] + Turns(2))
    ensures |es| == 3 && StepsOf(es[2].plans) == RerunExample() && RelatedSteps(g, es[2])
  {
    var f := ExampleFits(c, stale);
    es := SettledWavesAreExact(c, RerunExample(), g, RerunState(stale), f, 2);
    ExampleRelated(g, es[2]);
  }

  lemma ExampleFits(c: Config, stale: StepState) returns (f: Frame)
    requires c.maxParallel >= 2 && !ManifestOf(c.registry, "cap").approvalRequired
    requires stale.status == Succeeded && stale.inputHash != c.hash(Obj(map[]))
    ensures IsFirstWave(c, RerunExample(), RerunState(stale), f) && |f.phase.ready| == 2
    ensures forall k :: 0 <= k < 2 ==> ReadsFinished(c, f, f.phase.ready[k])
    ensures |Starters(c, RerunState(stale).steps, f.phase.ready[..1])| < Width(c)
    ensures Starters(c, RerunState(stale).steps, f.phase.ready[..2]) == RerunExample()
  {
    f := ExampleWave(c, stale);
    BothStart(c, stale);
    assert f.phase.ready[..2] == RerunExample() && f.phase.ready[..1] == [RerunExample()[0]];
  }

  lemma ExampleWave(c: Config, stale: StepState) returns (f: Frame)
    requires stale.status == Succeeded
    ensures IsFirstWave(c, RerunExample(), RerunState(stale), f) && f.phase.ready == RerunExample()
    ensures ReadsFinished(c, f, f.phase.ready[0]) && ReadsFinished(c, f, f.phase.ready[1])
  {
    f := BothReady(c, stale);
    PlainStep(c, f, RerunExample()[0]);
    PlainStep(c, f, RerunExample()[1]);
  }

  lemma BothStart(c: Config, stale: StepState)
    requires !ManifestOf(c.registry, "cap").approvalRequired
    requires stale.status == Succeeded && stale.inputHash != c.hash(Obj(map[]))
    ensures var ordered, steps := RerunExample(), RerunState(stale).steps;
            && WouldStart(c, steps, ordered[0]) && WouldStart(c, steps, ordered[1])
            && Starters(c, steps, [ordered[0]]) == [ordered[0]] && Starters(c, steps, ordered) == ordered
  {
    var ordered, steps := RerunExample(), RerunState(stale).steps;
    var none: map<string, Json> := map[];
    assert AssignedFields(c.decode, ordered[0].bindings, ViewsOf(steps)) == none && none + none == none;
    assert [ordered[0]][..0] == [] && ordered[..1] == [ordered[0]];
  }

  lemma ExampleRelated(g: Deps, f: Frame)
    requires Schedule(RerunExample(), g) && StepsOf(f.plans) == RerunExample()
    ensures RelatedSteps(g, f)
  {
    var ordered := RerunExample();
    assert ordered[1] in ordered;
    assert "a" in DependsOn(g, "b");
    ReachesEdge(g, "b", "a");
    assert ordered[0] in ordered && Reaches(g, ordered[1].id, ordered[0].id);
  }
}
