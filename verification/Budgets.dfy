/** The width of a wave and the budgets of its steps. */
module Budgets {
  import opened Definition
  import opened Engine
  import opened Wrappers
  import Policy

  lemma WaveStep(c: Config, ordered: seq<Step>, f: Frame, l: Label)
    requires Enabled(c, f, l) && |f.plans| <= Width(c)
    ensures |Apply(c, ordered, f, l).plans| <= Width(c)
  {}

  lemma WavesFit(c: Config, ordered: seq<Step>, previous: Option<State>, run: string, tr: seq<Frame>, ls: seq<Label>)
    requires IsRun(c, ordered, tr, ls) && tr[0] == Begin(ordered, previous, run)
    ensures forall i :: 0 <= i < |tr| ==> |tr[i].plans| <= Width(c)
  {
    var inv, ok := (f: Frame) => |f.plans| <= Width(c), (f: Frame, l: Label) => true;
    forall f, l | inv(f) && ok(f, l) && Enabled(c, f, l) ensures inv(Apply(c, ordered, f, l)) {
      WaveStep(c, ordered, f, l);
    }
    Invariance(c, ordered, inv, ok, tr, ls);
  }

  /** With the engine as wide as the policy says, no wave of any run exceeds a positive
      program limit, and each of its steps gets a share of at least one. */
  lemma WavesStayWithinBudget(p: Policy.Policy, c: Config, ordered: seq<Step>, previous: Option<State>, run: string,
                              tr: seq<Frame>, ls: seq<Label>, i: nat)
    requires c.maxParallel == Policy.ProgramParallelism(p)
    requires IsRun(c, ordered, tr, ls) && tr[0] == Begin(ordered, previous, run)
    requires i < |tr| && tr[i].phase.Committing? && tr[i].plans != []
    ensures var n := |tr[i].plans|;
            var q := Policy.ParallelShare(p, n);
            && (p.rateLimit >= 1 ==> 1 <= q.rateLimit && n * q.rateLimit <= p.rateLimit)
            && (p.concurrency >= 1 ==> 1 <= q.concurrency && n * q.concurrency <= p.concurrency)
  {
    WavesFit(c, ordered, previous, run, tr, ls);
    Policy.WavesKeepWithinBudget(p, |tr[i].plans|);
  }
}
