/** Executing ready steps in parallel waves gives what evaluating the steps one at a
    time in topological order gives. */
module Refinement {
  import opened Order
  import opened Graph
  import opened Json
  import opened Definition
  import opened Engine
  import opened Progress
  import opened Waves
  import opened Wrappers

  /** A deterministic executor that always succeeds. */
  type Executor = (Step, Json) -> Raw

  datatype Evaluation = NotReady | Faulty | Yields(view: View)

  /** One step, evaluated after everything before it. */
  function EvalStep(c: Config, exec: Executor, s: Step, m: Views): Evaluation {
    if !DependenciesDone(s, m) then NotReady
    else match Resolve(c.decode, s.input, s.bindings, m)
      case Unresolved => Faulty
      case InputPanics => Faulty
      case Resolved(input) =>
        match Condition(s.condition, m)
        case ConditionPanics => Faulty
        case DoesNotHold => Yields(View(Skipped, Empty))
        case Holds =>
          if NeedsApproval(c, s) && !c.approval then Yields(View(AwaitingApproval, Empty))
          else Yields(View(Succeeded, exec(s, input)))
  }

  /** One-at-a-time evaluation in the given order. */
  function Evaluate(c: Config, exec: Executor, ordered: seq<Step>): Views {
    if ordered == [] then map[] else
      var last, m := ordered[|ordered| - 1], Evaluate(c, exec, ordered[..|ordered| - 1]);
      match EvalStep(c, exec, last, m)
      case Yields(v) => m[last.id := v]
      case _ => m
  }

  /** No step that gets its turn has a broken binding or a panicking condition. */
  ghost predicate Smooth(c: Config, exec: Executor, ordered: seq<Step>) {
    forall i :: 0 <= i < |ordered| ==> !EvalStep(c, exec, ordered[i], Evaluate(c, exec, ordered[..i])).Faulty?
  }

  // ---- the evaluation as a fixed point ----

  /** The last step changes nothing else. */
  lemma EvaluateLast(c: Config, exec: Executor, ordered: seq<Step>)
    requires ordered != []
    ensures var e, before, last := Evaluate(c, exec, ordered), Evaluate(c, exec, ordered[..|ordered| - 1]), ordered[|ordered| - 1];
            && (forall id :: id != last.id ==> AgreeOn(before, e, {id}))
            && (forall id :: id in e ==> id in before || id == last.id)
  {}

  lemma IdsOfPrefix(ordered: seq<Step>, i: nat)
    requires i <= |ordered|
    ensures IdsOf(ordered[..i]) == IdsOf(ordered)[..i]
  {}

  lemma {:induction false} EvaluatedIds(c: Config, exec: Executor, ordered: seq<Step>)
    ensures forall id :: id in Evaluate(c, exec, ordered) ==> id in IdsOf(ordered)
  {
    if ordered != [] {
      var n := |ordered| - 1;
      EvaluateLast(c, exec, ordered);
      EvaluatedIds(c, exec, ordered[..n]);
      IdsOfPrefix(ordered, n);
      assert IdsOf(ordered)[n] == ordered[n].id;
    }
  }

  lemma {:induction false} PrefixKept(c: Config, exec: Executor, ordered: seq<Step>, i: nat, id: string)
    requires i <= |ordered| && forall k :: i <= k < |ordered| ==> ordered[k].id != id
    ensures AgreeOn(Evaluate(c, exec, ordered[..i]), Evaluate(c, exec, ordered), {id})
    decreases |ordered|
  {
    if i == |ordered| {
      assert ordered[..i] == ordered;
    } else {
      var init := ordered[..|ordered| - 1];
      assert init[..i] == ordered[..i];
      PrefixKept(c, exec, init, i, id);
      EvaluateLast(c, exec, ordered);
      AgreeTransitive(Evaluate(c, exec, ordered[..i]), Evaluate(c, exec, init), Evaluate(c, exec, ordered), id);
    }
  }

  lemma AgreeTransitive(a: Views, b: Views, d: Views, id: string)
    requires AgreeOn(a, b, {id}) && AgreeOn(b, d, {id})
    ensures AgreeOn(a, d, {id})
  {
    assert id in {id};
  }

  lemma EvaluatePrefix(c: Config, exec: Executor, ordered: seq<Step>, i: nat)
    requires i <= |ordered| && NoDuplicates(IdsOf(ordered))
    ensures var e, m := Evaluate(c, exec, ordered), Evaluate(c, exec, ordered[..i]);
            && (forall j :: 0 <= j < i ==> AgreeOn(m, e, {ordered[j].id}))
            && (forall id :: id in e ==> id in IdsOf(ordered))
            && (forall id :: id in m ==> id in IdsOf(ordered)[..i])
  {
    EvaluatedIds(c, exec, ordered);
    EvaluatedIds(c, exec, ordered[..i]);
    IdsOfPrefix(ordered, i);
    forall j | 0 <= j < i ensures AgreeOn(Evaluate(c, exec, ordered[..i]), Evaluate(c, exec, ordered), {ordered[j].id}) {
      assert IdsOf(ordered)[j] == ordered[j].id;
      PrefixKept(c, exec, ordered, i, ordered[j].id);
    }
  }

  lemma EvalReadsDone(c: Config, exec: Executor, s: Step, m: Views, m': Views)
    requires AgreeOn(m, m', Elements(s.dependsOn))
    requires DependenciesDone(s, m) ==> AgreeOn(m, m', StepSources(s))
    ensures EvalStep(c, exec, s, m) == EvalStep(c, exec, s, m')
  {
    assert forall d :: d in s.dependsOn <==> d in Elements(s.dependsOn);
    if DependenciesDone(s, m) {
      ReadsOnlySources(c.decode, s.input, s.bindings, s.condition, m, m');
    }
  }

  /** What a step reads is settled before it. */
  lemma PrefixAgrees(c: Config, exec: Executor, ordered: seq<Step>, g: Deps, i: nat)
    requires Schedule(ordered, g) && i < |ordered|
    ensures var m, e := Evaluate(c, exec, ordered[..i]), Evaluate(c, exec, ordered);
            AgreeOn(m, e, Elements(ordered[i].dependsOn)) && AgreeOn(m, e, StepSources(ordered[i]))
  {
    var e, s, m := Evaluate(c, exec, ordered), ordered[i], Evaluate(c, exec, ordered[..i]);
    EvaluatePrefix(c, exec, ordered, i);
    forall x | Reaches(g, s.id, x) ensures AgreeOn(m, e, {x}) {
      var p :| IsPath(g, p) && p[0] == s.id && p[|p| - 1] == x;
      OrderedPathsDescend(g, IdsOf(ordered), p, i);
      var j :| 0 <= j < |IdsOf(ordered)[..i]| && IdsOf(ordered)[..i][j] == x;
      assert ordered[j].id == x;
    }
    forall d | d in s.dependsOn ensures AgreeOn(m, e, {d}) {
      assert s in ordered && d in DependsOn(g, s.id);
      ReachesEdge(g, s.id, d);
    }
    forall d | d in StepSources(s) ensures AgreeOn(m, e, {d}) {
      assert s in ordered;
    }
    AgreePointwise(m, e, Elements(s.dependsOn));
    AgreePointwise(m, e, StepSources(s));
  }

  /** The final map satisfies the equation of every step. */
  lemma EvaluationEquation(c: Config, exec: Executor, ordered: seq<Step>, g: Deps, i: nat)
    requires Schedule(ordered, g) && i < |ordered|
    ensures var e, s := Evaluate(c, exec, ordered), ordered[i];
            && EvalStep(c, exec, s, e) == EvalStep(c, exec, s, Evaluate(c, exec, ordered[..i]))
            && (s.id in e <==> EvalStep(c, exec, s, e).Yields?)
            && (s.id in e ==> EvalStep(c, exec, s, e) == Yields(e[s.id]))
  {
    var e, s, m := Evaluate(c, exec, ordered), ordered[i], Evaluate(c, exec, ordered[..i]);
    EvaluatePrefix(c, exec, ordered, i);
    EvaluatePrefix(c, exec, ordered, i + 1);
    PrefixAgrees(c, exec, ordered, g, i);
    EvalReadsDone(c, exec, s, m, e);
    assert ordered[..i + 1][..i] == ordered[..i] && ordered[..i + 1][i] == s;
    forall j | 0 <= j < i ensures IdsOf(ordered)[..i][j] != s.id {
      assert IdsOf(ordered)[j] != IdsOf(ordered)[i];
    }
    assert s.id !in m;
    assert AgreeOn(Evaluate(c, exec, ordered[..i + 1]), e, {ordered[i].id});
    assert s.id in {ordered[i].id};
  }

  lemma AgreePointwise(m: Views, m': Views, ids: set<string>)
    requires forall x :: x in ids ==> AgreeOn(m, m', {x})
    ensures AgreeOn(m, m', ids)
  {}

  lemma EvaluationAt(c: Config, exec: Executor, ordered: seq<Step>, g: Deps, s: Step)
    requires Schedule(ordered, g) && s in ordered
    ensures var e := Evaluate(c, exec, ordered);
            && (s.id in e <==> EvalStep(c, exec, s, e).Yields?)
            && (s.id in e ==> EvalStep(c, exec, s, e) == Yields(e[s.id]))
  {
    var i :| 0 <= i < |ordered| && ordered[i] == s;
    EvaluationEquation(c, exec, ordered, g, i);
  }

  lemma EvaluationDoneClosed(c: Config, exec: Executor, ordered: seq<Step>, g: Deps)
    requires Schedule(ordered, g)
    ensures DoneClosed(ordered, Evaluate(c, exec, ordered))
  {
    var e := Evaluate(c, exec, ordered);
    forall s | s in ordered && Done(e, s.id) ensures DependenciesDone(s, e) {
      EvaluationAt(c, exec, ordered, g, s);
    }
  }

  // ---- benign runs ----

  /** No pause, no cancellation, no failing save, approvals granted, and the executor
      succeeds with the output that `exec` gives for the step and its input. */
  predicate Benign(exec: Executor, f: Frame, l: Label) {
    match l
    case Poll(signal) => signal == Proceed
    case Examine(answer) => answer == Granted
    case EndPlanning(saved) => saved
    case Commit(verdict, _, saved) => saved && f.plans != [] && verdict == Success(exec(f.plans[0].step, f.plans[0].input))
    case EndWave(cancelled) => !cancelled
  }

  /** A frame of a benign run agrees with the evaluation `e` about every step but those running,
      and those will. */
  ghost predicate Matches(c: Config, exec: Executor, ordered: seq<Step>, f: Frame, e: Views) {
    var m := ViewsOf(f.state.steps);
    && (forall id :: id in m ==> id in IdsOf(ordered))
    && (forall id :: id in m && m[id].status != Running ==> id in e && e[id] == m[id])
    && (forall id :: id in m && m[id].status == Running ==> PlannedIn(f.plans, id))
    && (forall i :: 0 <= i < |f.plans| ==>
          EvalStep(c, exec, f.plans[i].step, e) == Yields(View(Succeeded, exec(f.plans[i].step, f.plans[i].input))))
    && (forall id :: id in f.blocked ==> id in m)
  }

  ghost predicate EndsNormally(f: Frame) {
    f.phase == Over(Completed) || f.phase == Over(PausedForApproval)
  }

  ghost predicate SomeFaulty(c: Config, exec: Executor, ordered: seq<Step>) {
    exists s :: s in ordered && EvalStep(c, exec, s, Evaluate(c, exec, ordered)).Faulty?
  }

  /** Nothing in a fresh run succeeds without being finished. */
  ghost predicate NothingToRerun(f: Frame) {
    forall id :: id in f.state.steps && f.state.steps[id].status == Succeeded ==> id in f.finished
  }

  ghost predicate Refines(c: Config, exec: Executor, ordered: seq<Step>, g: Deps, f: Frame) {
    && InOrder(c, ordered, g, f)
    && NothingToRerun(f)
    && Matches(c, exec, ordered, f, Evaluate(c, exec, ordered))
    && f.failure.None? && !f.interrupted
    && (f.phase.Over? ==> EndsNormally(f) || SomeFaulty(c, exec, ordered))
    && (EndsNormally(f) ==> f.plans == [])
  }

  /** Examining a step in a benign run computes its evaluation. */
  lemma ExamineComputes(c: Config, exec: Executor, f: Frame)
    requires f.phase.Planning? && f.phase.ready != []
    requires var s := f.phase.ready[0];
             DependenciesDone(s, ViewsOf(f.state.steps)) && (s.id in f.state.steps ==> f.state.steps[s.id].status != Succeeded)
    ensures var s, f', m' := f.phase.ready[0], ApplyExamine(c, f, Granted), ViewsOf(ApplyExamine(c, f, Granted).state.steps);
            match EvalStep(c, exec, s, ViewsOf(f.state.steps))
            case NotReady => false
            case Faulty => f'.phase.Over? && !EndsNormally(f')
            case Yields(v) =>
              f'.phase == Planning(f.phase.ready[1..]) && s.id in m' &&
              if v.status == Succeeded
              then m'[s.id].status == Running && |f'.plans| == |f.plans| + 1 && v.output == exec(s, f'.plans[|f.plans|].input)
              else m'[s.id] == v && f'.plans == f.plans
  {}

  lemma EvaluationAgrees(c: Config, exec: Executor, ordered: seq<Step>, g: Deps, f: Frame, s: Step)
    requires Schedule(ordered, g) && Refines(c, exec, ordered, g, f) && s in Pending(f)
    ensures s in ordered && DependenciesDone(s, ViewsOf(f.state.steps))
    ensures EvalStep(c, exec, s, ViewsOf(f.state.steps)) == EvalStep(c, exec, s, Evaluate(c, exec, ordered))
    ensures s.id in f.state.steps ==> f.state.steps[s.id].status != Succeeded
  {
    var m, e := ViewsOf(f.state.steps), Evaluate(c, exec, ordered);
    assert !Settled(f, s.id);
    DoneAgrees(c, exec, ordered, f, e);
    SettledReads(c, exec, ordered, g, m, e, s);
  }

  lemma DoneAgrees(c: Config, exec: Executor, ordered: seq<Step>, f: Frame, e: Views)
    requires Matches(c, exec, ordered, f, e)
    ensures forall x :: Done(ViewsOf(f.state.steps), x) ==> AgreeOn(ViewsOf(f.state.steps), e, {x})
  {}

  /** What a step with done dependencies reads is done. */
  lemma SettledReads(c: Config, exec: Executor, ordered: seq<Step>, g: Deps, m: Views, e: Views, s: Step)
    requires Schedule(ordered, g) && DoneClosed(ordered, m) && s in ordered && DependenciesDone(s, m)
    requires forall x :: Done(m, x) ==> AgreeOn(m, e, {x})
    ensures EvalStep(c, exec, s, m) == EvalStep(c, exec, s, e)
  {
    forall x | x in Elements(s.dependsOn) ensures Done(m, x) {}
    forall x | x in StepSources(s) ensures Done(m, x) {
      TransitiveDone(ordered, g, m, s, x);
    }
    AgreePointwise(m, e, Elements(s.dependsOn));
    AgreePointwise(m, e, StepSources(s));
    EvalReadsDone(c, exec, s, m, e);
  }

  lemma MatchesSettled(c: Config, exec: Executor, ordered: seq<Step>, f: Frame, f': Frame, e: Views, s: Step)
    requires Matches(c, exec, ordered, f, e) && s.id in IdsOf(ordered)
    requires OnlyAt(f.state.steps, f'.state.steps, s.id) && f'.plans == f.plans
    requires s.id in f'.state.steps && s.id in e && ViewsOf(f'.state.steps)[s.id] == e[s.id] && e[s.id].status != Running
    requires f'.blocked <= f.blocked + {s.id}
    ensures Matches(c, exec, ordered, f', e)
  {
    OnlyAtViews(f.state.steps, f'.state.steps, s.id);
  }

  lemma MatchesStarted(c: Config, exec: Executor, ordered: seq<Step>, f: Frame, f': Frame, e: Views, s: Step)
    requires Matches(c, exec, ordered, f, e) && s.id in IdsOf(ordered)
    requires OnlyAt(f.state.steps, f'.state.steps, s.id) && f'.blocked == f.blocked
    requires |f'.plans| == |f.plans| + 1 && f'.plans[..|f.plans|] == f.plans && f'.plans[|f.plans|].step == s
    requires s.id in f'.state.steps && f'.state.steps[s.id].status == Running
    requires EvalStep(c, exec, s, e) == Yields(View(Succeeded, exec(s, f'.plans[|f.plans|].input)))
    ensures Matches(c, exec, ordered, f', e)
  {
    OnlyAtViews(f.state.steps, f'.state.steps, s.id);
    assert forall i :: 0 <= i < |f.plans| ==> f'.plans[i] == f'.plans[..|f.plans|][i];
    var m' := ViewsOf(f'.state.steps);
    forall id | id in m' && m'[id].status == Running ensures PlannedIn(f'.plans, id) {
      if id != s.id { PlannedMore(f.plans, f'.plans, id); }
    }
  }

  ghost predicate PlannedIn(plans: seq<Plan>, id: string) {
    exists i :: 0 <= i < |plans| && plans[i].step.id == id
  }

  lemma PlannedMore(plans: seq<Plan>, plans': seq<Plan>, id: string)
    requires PlannedIn(plans, id) && plans <= plans'
    ensures PlannedIn(plans', id)
  {
    var i :| 0 <= i < |plans| && plans[i].step.id == id;
    assert plans'[i].step.id == id;
  }

  lemma ExamineMatches(c: Config, exec: Executor, ordered: seq<Step>, g: Deps, f: Frame)
    requires Schedule(ordered, g) && Refines(c, exec, ordered, g, f) && f.phase.Planning? && f.phase.ready != []
    ensures var f' := ApplyExamine(c, f, Granted);
            && Matches(c, exec, ordered, f', Evaluate(c, exec, ordered)) && Examined(f, f')
            && (f'.phase.Over? ==> EvalStep(c, exec, f.phase.ready[0], Evaluate(c, exec, ordered)).Faulty? && !EndsNormally(f'))
            && f.phase.ready[0] in ordered
  {
    var f', s, e := ApplyExamine(c, f, Granted), f.phase.ready[0], Evaluate(c, exec, ordered);
    assert s in Pending(f) by { assert Pending(f)[|f.plans|] == s; }
    EvaluationAgrees(c, exec, ordered, g, f, s);
    ExamineComputes(c, exec, f);
    ExamineEffect(c, f, Granted);
    EvaluationAt(c, exec, ordered, g, s);
    InIds(ordered, s);
    MatchesExamined(c, exec, ordered, f, f', e);
  }

  lemma RefinesAfter(c: Config, exec: Executor, ordered: seq<Step>, g: Deps, f': Frame, s: Step)
    requires InOrder(c, ordered, g, f') && Matches(c, exec, ordered, f', Evaluate(c, exec, ordered)) && NothingToRerun(f')
    requires f'.failure.None? && !f'.interrupted && s in ordered && (f'.phase.Over? || f'.phase.Planning?)
    requires f'.phase.Over? ==> EvalStep(c, exec, s, Evaluate(c, exec, ordered)).Faulty? && !EndsNormally(f')
    ensures Refines(c, exec, ordered, g, f')
  {}

  lemma ExaminedNothingToRerun(c: Config, f: Frame, f': Frame)
    requires Examined(f, f') && Accounted(c, f, f') && NothingToRerun(f)
    ensures NothingToRerun(f')
  {
    forall id | id in f'.state.steps && f'.state.steps[id].status == Succeeded ensures id in f'.finished {
      if id == f.phase.ready[0].id { assert id in ViewsOf(f'.state.steps); }
      assert id in f.finished;
    }
  }

  lemma RefinesExamine(c: Config, exec: Executor, ordered: seq<Step>, g: Deps, f: Frame)
    requires Schedule(ordered, g) && Refines(c, exec, ordered, g, f) && f.phase.Planning? && f.phase.ready != []
    ensures Refines(c, exec, ordered, g, ApplyExamine(c, f, Granted))
  {
    InOrderExamine(c, ordered, g, f, Granted);
    ExamineMatches(c, exec, ordered, g, f);
    ExamineKeepsWave(c, f, Granted);
    ExamineAccounted(c, f, Granted);
    ExaminedNothingToRerun(c, f, ApplyExamine(c, f, Granted));
    RefinesAfter(c, exec, ordered, g, ApplyExamine(c, f, Granted), f.phase.ready[0]);
  }

  lemma MatchesExamined(c: Config, exec: Executor, ordered: seq<Step>, f: Frame, f': Frame, e: Views)
    requires Matches(c, exec, ordered, f, e) && Examined(f, f') && f.phase.ready[0].id in IdsOf(ordered)
    requires var s, m' := f.phase.ready[0], ViewsOf(f'.state.steps);
             match EvalStep(c, exec, s, e)
             case NotReady => false
             case Faulty => f'.phase.Over? && !EndsNormally(f')
             case Yields(v) =>
               && f'.phase.Planning? && s.id in m' && s.id in e && e[s.id] == v
               && if v.status == Succeeded
                  then m'[s.id].status == Running && |f'.plans| == |f.plans| + 1 && v.output == exec(s, f'.plans[|f.plans|].input)
                  else m'[s.id] == v && f'.plans == f.plans
    ensures Matches(c, exec, ordered, f', e)
  {
    var s := f.phase.ready[0];
    match EvalStep(c, exec, s, e)
    case Faulty =>
    case Yields(v) =>
      if v.status == Succeeded {
        MatchesStarted(c, exec, ordered, f, f', e, s);
      } else {
        MatchesSettled(c, exec, ordered, f, f', e, s);
      }
  }

  /** After a commit the running steps are the remaining plans. */
  lemma RunningAfterCommit(f: Frame, f': Frame)
    requires f.plans != [] && f'.plans == f.plans[1..]
    requires OnlyAt(f.state.steps, f'.state.steps, f.plans[0].step.id)
    requires forall id :: id in f.state.steps && f.state.steps[id].status == Running ==> PlannedIn(f.plans, id)
    requires f.plans[0].step.id in f'.state.steps && f'.state.steps[f.plans[0].step.id].status != Running
    ensures forall id :: id in f'.state.steps && f'.state.steps[id].status == Running ==> PlannedIn(f'.plans, id)
  {
    forall id | id in f'.state.steps && f'.state.steps[id].status == Running
      ensures PlannedIn(f'.plans, id)
    {
      var i :| 0 <= i < |f.plans| && f.plans[i].step.id == id;
      assert f'.plans[i - 1] == f.plans[i];
    }
  }

  lemma MatchesCommitted(c: Config, exec: Executor, ordered: seq<Step>, f: Frame, f': Frame, e: Views)
    requires Matches(c, exec, ordered, f, e) && f.plans != []
    requires var s := f.plans[0].step;
             && s.id in IdsOf(ordered) && s.id in e && s.id in f'.state.steps
             && OnlyAt(f.state.steps, f'.state.steps, s.id) && ViewsOf(f'.state.steps)[s.id] == e[s.id]
             && e[s.id].status == Succeeded
    requires f'.plans == f.plans[1..] && f'.blocked == f.blocked
    ensures Matches(c, exec, ordered, f', e)
  {
    OnlyAtViews(f.state.steps, f'.state.steps, f.plans[0].step.id);
    assert forall id :: id in f.state.steps && f.state.steps[id].status == Running ==> id in ViewsOf(f.state.steps);
    RunningAfterCommit(f, f');
  }

  lemma RefinesCommit(c: Config, exec: Executor, ordered: seq<Step>, g: Deps, f: Frame, attempts: nat)
    requires Schedule(ordered, g) && Refines(c, exec, ordered, g, f) && f.phase.Committing? && f.plans != []
    ensures Refines(c, exec, ordered, g, ApplyCommit(f, Success(exec(f.plans[0].step, f.plans[0].input)), attempts, true))
  {
    var verdict := Success(exec(f.plans[0].step, f.plans[0].input));
    var s, f' := f.plans[0].step, ApplyCommit(f, verdict, attempts, true);
    CommitShrinks(ordered, f, verdict, attempts, true);
    EvaluationAt(c, exec, ordered, g, s);
    InIds(ordered, s);
    InOrderCommit(c, ordered, g, f, verdict, attempts, true);
    MatchesCommitted(c, exec, ordered, f, f', Evaluate(c, exec, ordered));
  }

  lemma MatchesUntouched(c: Config, exec: Executor, ordered: seq<Step>, f: Frame, f': Frame, e: Views)
    requires Matches(c, exec, ordered, f, e)
    requires f'.state.steps == f.state.steps && f'.blocked == f.blocked && f'.plans == f.plans
    ensures Matches(c, exec, ordered, f', e)
  {}

  lemma RefinesUntouched(c: Config, exec: Executor, ordered: seq<Step>, g: Deps, f: Frame, f': Frame)
    requires Refines(c, exec, ordered, g, f) && InOrder(c, ordered, g, f')
    requires f'.state.steps == f.state.steps && f'.blocked == f.blocked && f'.plans == f.plans && f'.finished == f.finished
    requires f'.failure.None? && !f'.interrupted
    requires f'.phase.Over? ==> EndsNormally(f') && f'.plans == []
    ensures Refines(c, exec, ordered, g, f')
  {
    MatchesUntouched(c, exec, ordered, f, f', Evaluate(c, exec, ordered));
  }

  lemma PollEffect(ordered: seq<Step>, f: Frame)
    requires f.phase.Top? && f.plans == [] && f.failure.None? && !f.interrupted
    ensures var f' := ApplyPoll(ordered, f, Proceed);
            && f'.state.steps == f.state.steps && f'.blocked == f.blocked && f'.plans == [] && f'.finished == f.finished
            && f'.failure.None? && !f'.interrupted
            && (f'.phase.Over? ==> EndsNormally(f') || f'.phase == Over(NoRunnableStep))
  {}

  lemma RefinesPoll(c: Config, exec: Executor, ordered: seq<Step>, g: Deps, f: Frame)
    requires Schedule(ordered, g) && Refines(c, exec, ordered, g, f) && f.phase.Top?
    ensures Refines(c, exec, ordered, g, ApplyPoll(ordered, f, Proceed))
  {
    InOrderPoll(c, ordered, g, f, Proceed);
    var f' := ApplyPoll(ordered, f, Proceed);
    assert Book(ordered, g, f) && Book(ordered, g, f');
    PollEffect(ordered, f);
    RefinesUntouched(c, exec, ordered, g, f, f');
  }

  lemma RefinesStep(c: Config, exec: Executor, ordered: seq<Step>, g: Deps, f: Frame, l: Label)
    requires Schedule(ordered, g) && Refines(c, exec, ordered, g, f) && Enabled(c, f, l) && Benign(exec, f, l)
    ensures Refines(c, exec, ordered, g, Apply(c, ordered, f, l))
  {
    match l
    case Poll(_) => RefinesPoll(c, exec, ordered, g, f);
    case Examine(_) => RefinesExamine(c, exec, ordered, g, f);
    case EndPlanning(_) =>
      InOrderEndPlanning(c, ordered, g, f, true);
      RefinesUntouched(c, exec, ordered, g, f, ApplyEndPlanning(f, true));
    case Commit(_, attempts, _) => RefinesCommit(c, exec, ordered, g, f, attempts);
    case EndWave(_) =>
      InOrderEndWave(c, ordered, g, f, false);
      RefinesUntouched(c, exec, ordered, g, f, ApplyEndWave(f, false));
  }

  ghost predicate BenignRun(c: Config, exec: Executor, ordered: seq<Step>, run: string, tr: seq<Frame>, ls: seq<Label>) {
    && IsRun(c, ordered, tr, ls) && tr[0] == Begin(ordered, None, run)
    && forall i :: 0 <= i < |ls| ==> Benign(exec, tr[i], ls[i])
  }

  lemma BenignRunsRefine(c: Config, exec: Executor, ordered: seq<Step>, g: Deps, run: string, tr: seq<Frame>, ls: seq<Label>)
    requires Schedule(ordered, g) && BenignRun(c, exec, ordered, run, tr, ls)
    ensures Refines(c, exec, ordered, g, tr[|tr| - 1])
  {
    InOrderAtStart(c, ordered, g, None, run);
    var inv, ok := (f: Frame) => Refines(c, exec, ordered, g, f), (f: Frame, l: Label) => Benign(exec, f, l);
    forall f, l | inv(f) && ok(f, l) && Enabled(c, f, l) ensures inv(Apply(c, ordered, f, l)) {
      RefinesStep(c, exec, ordered, g, f, l);
    }
    Invariance(c, ordered, inv, ok, tr, ls);
  }

  /** Where a run ended normally, what the evaluation leaves undone waits for an approval. */
  lemma NothingReadyLeft(c: Config, exec: Executor, ordered: seq<Step>, g: Deps, f: Frame, s: Step)
    requires Schedule(ordered, g) && Refines(c, exec, ordered, g, f) && EndsNormally(f)
    requires s in ordered && DependenciesDone(s, Evaluate(c, exec, ordered))
    ensures s.id in f.state.steps
  {
    var e, m := Evaluate(c, exec, ordered), ViewsOf(f.state.steps);
    EvaluationDoneClosed(c, exec, ordered, g);
    forall b | b in f.blocked ensures !Done(e, b) {}
    forall b | b in f.blocked ensures !Reaches(g, s.id, b) {
      if Reaches(g, s.id, b) {
        TransitiveDone(ordered, g, e, s, b);
        assert false;
      }
    }
  }

  lemma EvaluatedIsLeft(c: Config, exec: Executor, ordered: seq<Step>, g: Deps, f: Frame, id: string)
    requires Schedule(ordered, g) && Refines(c, exec, ordered, g, f) && EndsNormally(f)
    requires id in Evaluate(c, exec, ordered)
    ensures id in f.state.steps
  {
    EvaluatePrefix(c, exec, ordered, |ordered|);
    assert id in IdsOf(ordered);
    var i :| 0 <= i < |IdsOf(ordered)| && IdsOf(ordered)[i] == id;
    EvaluationAt(c, exec, ordered, g, ordered[i]);
    NothingReadyLeft(c, exec, ordered, g, f, ordered[i]);
  }

  lemma NormalEndMatches(c: Config, exec: Executor, ordered: seq<Step>, g: Deps, f: Frame)
    requires Schedule(ordered, g) && Refines(c, exec, ordered, g, f) && EndsNormally(f)
    ensures ViewsOf(f.state.steps) == Evaluate(c, exec, ordered)
  {
    var e, m := Evaluate(c, exec, ordered), ViewsOf(f.state.steps);
    forall id | id in e ensures id in f.state.steps {
      EvaluatedIsLeft(c, exec, ordered, g, f, id);
    }
    SettledMatches(c, exec, ordered, f, e);
    SameViews(m, e);
  }

  lemma SameViews(m: Views, e: Views)
    requires (forall id :: id in m ==> id in e && e[id] == m[id]) && forall id :: id in e ==> id in m
    ensures m == e
  {}

  lemma SettledMatches(c: Config, exec: Executor, ordered: seq<Step>, f: Frame, e: Views)
    requires Matches(c, exec, ordered, f, e) && f.plans == []
    ensures forall id :: id in ViewsOf(f.state.steps) ==> id in e && e[id] == ViewsOf(f.state.steps)[id]
  {}

  lemma NormalEndHasNoFault(c: Config, exec: Executor, ordered: seq<Step>, g: Deps, f: Frame)
    requires Schedule(ordered, g) && Refines(c, exec, ordered, g, f) && EndsNormally(f)
    ensures !SomeFaulty(c, exec, ordered)
  {
    NormalEndMatches(c, exec, ordered, g, f);
    var e := Evaluate(c, exec, ordered);
    forall s | s in ordered ensures !EvalStep(c, exec, s, e).Faulty? {
      EvaluationAt(c, exec, ordered, g, s);
      if DependenciesDone(s, e) {
        NothingReadyLeft(c, exec, ordered, g, f, s);
      }
    }
  }

  lemma SmoothMeansNoFault(c: Config, exec: Executor, ordered: seq<Step>, g: Deps)
    requires Schedule(ordered, g)
    ensures Smooth(c, exec, ordered) <==> !SomeFaulty(c, exec, ordered)
  {
    forall i | 0 <= i < |ordered|
      ensures EvalStep(c, exec, ordered[i], Evaluate(c, exec, ordered[..i])) == EvalStep(c, exec, ordered[i], Evaluate(c, exec, ordered))
    {
      EvaluationEquation(c, exec, ordered, g, i);
    }
    if i :| 0 <= i < |ordered| && EvalStep(c, exec, ordered[i], Evaluate(c, exec, ordered[..i])).Faulty? {
      assert ordered[i] in ordered;
    }
  }

  /** Wave execution refines sequential evaluation. Take a fresh run of a validated
      definition with a deterministic executor that succeeds, no pause, cancellation or
      failing save, and approvals absent or granted. When it is over, for every width of
      the waves, it ended completed or paused exactly if one-at-a-time evaluation meets
      no fault; and then every step has the status and output of that evaluation, and
      the run completed exactly if the evaluation left no step undone. */
  lemma WavesRefineSequential(c: Config, d: Definition, exec: Executor, run: string, tr: seq<Frame>, ls: seq<Label>)
    requires Accepts(d, c.registry)
    requires BenignRun(c, exec, OrderedSteps(d, c.registry), run, tr, ls) && tr[|tr| - 1].phase.Over?
    ensures var ordered, last := OrderedSteps(d, c.registry), tr[|tr| - 1];
            var e := Evaluate(c, exec, ordered);
            && (EndsNormally(last) <==> Smooth(c, exec, ordered))
            && (EndsNormally(last) ==> ViewsOf(last.state.steps) == e)
            && (EndsNormally(last) ==> (last.phase == Over(Completed) <==> forall s :: s in d.steps ==> Done(e, s.id)))
  {
    var ordered, g, last := OrderedSteps(d, c.registry), Edges(ById(d.steps)), tr[|tr| - 1];
    AcceptedSchedule(d, c.registry);
    BenignRunsRefine(c, exec, ordered, g, run, tr, ls);
    SmoothMeansNoFault(c, exec, ordered, g);
    if EndsNormally(last) {
      NormalEndMatches(c, exec, ordered, g, last);
      NormalEndHasNoFault(c, exec, ordered, g, last);
      CompletedMeansAllDone(ordered, g, last);
    }
  }

  lemma CompletedMeansAllDone(ordered: seq<Step>, g: Deps, f: Frame)
    requires Book(ordered, g, f) && EndsNormally(f)
    ensures f.phase == Over(Completed) <==> forall s :: s in ordered ==> Done(ViewsOf(f.state.steps), s.id)
  {}

  lemma {:induction false} WidthIrrelevant(c: Config, width: int, exec: Executor, ordered: seq<Step>)
    ensures Evaluate(c.(maxParallel := width), exec, ordered) == Evaluate(c, exec, ordered)
  {
    if ordered != [] {
      WidthIrrelevant(c, width, exec, ordered[..|ordered| - 1]);
    }
  }

  lemma SmoothAtAnyWidth(c: Config, width: int, exec: Executor, ordered: seq<Step>)
    ensures Smooth(c, exec, ordered) <==> Smooth(c.(maxParallel := width), exec, ordered)
  {
    var c' := c.(maxParallel := width);
    forall i | 0 <= i < |ordered|
      ensures EvalStep(c, exec, ordered[i], Evaluate(c, exec, ordered[..i])) == EvalStep(c', exec, ordered[i], Evaluate(c', exec, ordered[..i]))
    {
      WidthIrrelevant(c, width, exec, ordered[..i]);
    }
  }

  /** Two such runs with different widths end alike and leave the same statuses and outputs. */
  lemma WidthDoesNotMatter(c: Config, width: int, d: Definition, exec: Executor, run: string,
                           tr: seq<Frame>, ls: seq<Label>, tr': seq<Frame>, ls': seq<Label>)
    requires Accepts(d, c.registry)
    requires BenignRun(c, exec, OrderedSteps(d, c.registry), run, tr, ls) && tr[|tr| - 1].phase.Over?
    requires BenignRun(c.(maxParallel := width), exec, OrderedSteps(d, c.registry), run, tr', ls') && tr'[|tr'| - 1].phase.Over?
    ensures EndsNormally(tr[|tr| - 1]) <==> EndsNormally(tr'[|tr'| - 1])
    ensures EndsNormally(tr[|tr| - 1]) ==>
      tr[|tr| - 1].phase == tr'[|tr'| - 1].phase && ViewsOf(tr[|tr| - 1].state.steps) == ViewsOf(tr'[|tr'| - 1].state.steps)
  {
    WavesRefineSequential(c, d, exec, run, tr, ls);
    WavesRefineSequential(c.(maxParallel := width), d, exec, run, tr', ls');
    WidthIrrelevant(c, width, exec, OrderedSteps(d, c.registry));
    SmoothAtAnyWidth(c, width, exec, OrderedSteps(d, c.registry));
  }
}
