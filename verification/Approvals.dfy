/** What approvals guarantee, over every run: which steps may start, which wait, and which
    end the run. */
module Approvals {
  import opened Graph
  import opened Json
  import opened Definition
  import opened Engine
  import opened Progress
  import opened Resume
  import opened Waves
  import opened Wrappers

  /** The step asks for approval itself, or the registered manifest of its capability does. */
  ghost predicate Asks(c: Config, s: Step) {
    s.approvalRequired || (s.capability in c.registry.capabilities && c.registry.capabilities[s.capability].approvalRequired)
  }

  /** The step gets as far as the question of approval: its input can be resolved, no earlier
      result of it is kept, and its condition holds. */
  ghost predicate ComesToApproval(c: Config, steps: Steps, s: Step) {
    var r := Resolve(c.decode, s.input, s.bindings, ViewsOf(steps));
    && r.Resolved? && Condition(s.condition, ViewsOf(steps)) == Holds
    && (s.id in steps && steps[s.id].status == Succeeded ==> s.rerunOnInputChange && steps[s.id].inputHash != c.hash(r.input))
  }

  /** Step `s` is started, as approved if it asks. */
  ghost predicate IsStarted(c: Config, f: Frame, f': Frame, s: Step) {
    && |f'.plans| == |f.plans| + 1 && f'.plans[..|f.plans|] == f.plans && f'.blocked == f.blocked
    && var p := f'.plans[|f.plans|];
       && p.step == s && (p.approved <==> Asks(c, s))
       && p.state.approval == (if Asks(c, s) then "approved" else "not_required")
       && s.id in f'.state.steps && f'.state.steps[s.id] == p.state && p.state.status == Running
  }

  /** Step `s` waits for an approval. */
  ghost predicate IsBlocked(f: Frame, f': Frame, s: Step) {
    && f'.plans == f.plans && f'.blocked == f.blocked + {s.id}
    && s.id in f'.state.steps && f'.state.steps[s.id].status == AwaitingApproval && f'.state.steps[s.id].approval == "pending"
  }

  /** The run fails at step `s`, which was not touched. */
  ghost predicate FailsAt(f: Frame, f': Frame, s: Step, reason: string) {
    && f'.phase == Over(Outcome.Failed(s.id, reason)) && f'.state.status == RunFailed
    && f'.plans == f.plans && f'.blocked == f.blocked && f'.state.steps == f.state.steps
  }

  /** One turn of a ready step, as far as approval is concerned. */
  ghost predicate ApprovalRespected(c: Config, f: Frame, answer: Answer, f': Frame)
    requires f.phase.Planning? && f.phase.ready != []
  {
    var s := f.phase.ready[0];
    if !ComesToApproval(c, f.state.steps, s) then f'.plans == f.plans && f'.blocked == f.blocked
    else if !Asks(c, s) then IsStarted(c, f, f', s)
    else if !c.approval then IsBlocked(f, f', s)
    else match answer
      case Granted => IsStarted(c, f, f', s)
      case Rejected => FailsAt(f, f', s, "approval_rejected")
      case Errored => FailsAt(f, f', s, "approval")
  }

  lemma TurnRespectsApproval(c: Config, f: Frame, answer: Answer)
    requires f.phase.Planning? && f.phase.ready != []
    ensures ApprovalRespected(c, f, answer, ApplyExamine(c, f, answer))
  {}

  /** In every run, fresh or resumed, each turn respects the approvals. */
  lemma ApprovalsAreRespected(c: Config, ordered: seq<Step>, tr: seq<Frame>, ls: seq<Label>, n: nat)
    requires IsRun(c, ordered, tr, ls) && n < |ls| && ls[n].Examine?
    ensures tr[n].phase.Planning? && tr[n].phase.ready != [] && ApprovalRespected(c, tr[n], ls[n].answer, tr[n + 1])
  {
    assert Enabled(c, tr[n], ls[n]) && tr[n + 1] == Apply(c, ordered, tr[n], ls[n]);
    TurnRespectsApproval(c, tr[n], ls[n].answer);
  }

  // ---- over runs ----

  /** At moment `i` step `s` was granted its approval. */
  ghost predicate WasGranted(c: Config, tr: seq<Frame>, ls: seq<Label>, i: nat, s: Step)
    requires |tr| == |ls| + 1
  {
    i < |ls| && ls[i] == Examine(Granted) && tr[i].phase.Planning? && tr[i].phase.ready != [] && tr[i].phase.ready[0] == s && c.approval
  }

  ghost predicate Licensed(c: Config, tr: seq<Frame>, ls: seq<Label>, n: nat, s: Step)
    requires |tr| == |ls| + 1
  {
    Asks(c, s) ==> exists i: nat :: i < n && WasGranted(c, tr, ls, i, s)
  }

  ghost predicate BlockedAsks(c: Config, ordered: seq<Step>, f: Frame) {
    forall id :: id in f.blocked ==> !c.approval && exists s :: s in ordered && s.id == id && Asks(c, s)
  }

  lemma OtherStepsPlanNothing(c: Config, ordered: seq<Step>, f: Frame, l: Label)
    requires Enabled(c, f, l) && !l.Examine?
    ensures var f' := Apply(c, ordered, f, l); f'.blocked == f.blocked && forall p :: p in f'.plans ==> p in f.plans
  {}

  lemma ReadyIsOrdered(ordered: seq<Step>, f: Frame)
    requires PendingUnsettled(ordered, f) && f.phase.Planning? && f.phase.ready != []
    ensures f.phase.ready[0] in ordered
  {
    assert Pending(f)[|f.plans|] == f.phase.ready[0];
  }

  lemma StartedPlan(c: Config, f: Frame, f': Frame, s: Step, p: Plan)
    requires p in f'.plans && p !in f.plans
    requires IsStarted(c, f, f', s) || f'.plans == f.plans
    ensures p.step == s
  {
    if IsStarted(c, f, f', s) {
      assert f'.plans == f.plans + [f'.plans[|f.plans|]];
    }
  }

  lemma PlansNext(c: Config, ordered: seq<Step>, tr: seq<Frame>, ls: seq<Label>, n: nat, p: Plan)
    requires IsRun(c, ordered, tr, ls) && n < |ls| && p in tr[n + 1].plans
    requires p in tr[n].plans ==> Licensed(c, tr, ls, n, p.step)
    ensures Licensed(c, tr, ls, n + 1, p.step)
  {
    assert Enabled(c, tr[n], ls[n]) && tr[n + 1] == Apply(c, ordered, tr[n], ls[n]);
    if p in tr[n].plans {
      if Asks(c, p.step) {
        var i: nat :| i < n && WasGranted(c, tr, ls, i, p.step);
        assert i < n + 1;
      }
    } else if ls[n].Examine? {
      ApprovalsAreRespected(c, ordered, tr, ls, n);
      StartedPlan(c, tr[n], tr[n + 1], tr[n].phase.ready[0], p);
      assert Asks(c, p.step) ==> WasGranted(c, tr, ls, n, p.step);
    } else {
      OtherStepsPlanNothing(c, ordered, tr[n], ls[n]);
    }
  }

  lemma BlockedNext(c: Config, ordered: seq<Step>, tr: seq<Frame>, ls: seq<Label>, n: nat)
    requires IsRun(c, ordered, tr, ls) && n < |ls| && PendingUnsettled(ordered, tr[n]) && BlockedAsks(c, ordered, tr[n])
    ensures BlockedAsks(c, ordered, tr[n + 1])
  {
    assert Enabled(c, tr[n], ls[n]) && tr[n + 1] == Apply(c, ordered, tr[n], ls[n]);
    if ls[n].Examine? {
      ApprovalsAreRespected(c, ordered, tr, ls, n);
      ReadyIsOrdered(ordered, tr[n]);
    } else {
      OtherStepsPlanNothing(c, ordered, tr[n], ls[n]);
    }
  }

  /** In every run a step that asks for approval is planned only after it was granted to
      this step, and a step waits only if it asks and nobody can be asked. */
  lemma {:induction false} OnlyApprovedStepsRun(c: Config, ordered: seq<Step>, g: Deps, previous: Option<State>, run: string,
                                                tr: seq<Frame>, ls: seq<Label>, n: nat)
    requires Schedule(ordered, g) && IsRun(c, ordered, tr, ls) && tr[0] == Begin(ordered, previous, run) && n < |tr|
    ensures forall p :: p in tr[n].plans ==> Licensed(c, tr, ls, n, p.step)
    ensures BlockedAsks(c, ordered, tr[n])
    decreases n
  {
    if n > 0 {
      OnlyApprovedStepsRun(c, ordered, g, previous, run, tr, ls, n - 1);
      RunsStayApart(c, ordered, g, previous, run, tr, ls);
      assert Apart(ordered, g, tr[n - 1]);
      BlockedNext(c, ordered, tr, ls, n - 1);
      forall p | p in tr[n].plans ensures Licensed(c, tr, ls, n, p.step) {
        PlansNext(c, ordered, tr, ls, n - 1, p);
      }
    }
  }
}
