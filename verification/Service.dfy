/** The worker's `handle`, step by step, with everybody else moving between its steps. */
module Service {
  import opened Queue
  import opened Worker
  import DeliveryGuarantees

  /** A step of some handling itself; lease refreshes run beside it. */
  predicate IsMine(l: Label) {
    l.Check? || l.Reject? || l.Start? || l.Return? || l.LoseArtifact? || l.Persist? || l.Ack? || l.Fail? || l.Crash?
  }

  predicate Mine(l: Label, h: nat) {
    IsMine(l) && l.h == h
  }

  function Own(ls: seq<Label>, h: nat): seq<Label> {
    if ls == [] then []
    else Own(ls[..|ls| - 1], h) + if Mine(ls[|ls| - 1], h) then [ls[|ls| - 1]] else []
  }

  /** How a handling ends. `settled` says that its last transaction took place; without
      it the handling returns the error and leaves the message as it was. */
  datatype Outcome =
    | Duplicate(settled: bool)
    | Finished(settled: bool)
    | Refused(settled: bool)
    | ProviderFailed(retryable: bool, settled: bool)
    | ArtifactLost(settled: bool)
    | LookupFailed
    | NoBudget
    | Died
    | NotStored

  function Last(h: nat, l: Label, settled: bool): Label {
    if settled then l else Crash(h)
  }

  /** What one handling does, by how it ended. */
  function Path(h: nat, outcome: Outcome): seq<Label> {
    match outcome
    case Duplicate(settled) => [Check(h), Last(h, Ack(h), settled)]
    case Finished(settled) => [Check(h), Start(h), Return(h, true, false), Persist(h), Last(h, Ack(h), settled)]
    case Refused(settled) => [Check(h), Reject(h), Last(h, Fail(h), settled)]
    case ProviderFailed(retryable, settled) => [Check(h), Start(h), Return(h, false, retryable), Last(h, Fail(h), settled)]
    case ArtifactLost(settled) => [Check(h), Start(h), Return(h, true, false), LoseArtifact(h), Last(h, Fail(h), settled)]
    case LookupFailed => [Crash(h)]
    case NoBudget => [Check(h), Crash(h)]
    case Died => [Check(h), Start(h), Crash(h)]
    case NotStored => [Check(h), Start(h), Return(h, true, false), Crash(h)]
  }

  /** What became of the message: acknowledged, given back as failed, or left alone. */
  datatype Settlement = Acknowledged | GivenBack(retryable: bool) | LeftPending

  function SettlementOf(outcome: Outcome): Settlement {
    match outcome
    case Duplicate(settled) => if settled then Acknowledged else LeftPending
    case Finished(settled) => if settled then Acknowledged else LeftPending
    case Refused(settled) => if settled then GivenBack(false) else LeftPending
    case ProviderFailed(retryable, settled) => if settled then GivenBack(retryable) else LeftPending
    case ArtifactLost(settled) => if settled then GivenBack(true) else LeftPending
    case _ => LeftPending
  }

  predicate IsGone(b: Broker, m: nat) {
    m !in b.jobs && m !in b.pending
  }

  /** The settlement in the broker's terms: an acknowledged message is gone and its job is
      answered; one that was given back is gone and its job waits for the next attempt or
      is a dead letter; and one that was left alone can be claimed again while its entry
      exists. */
  ghost predicate Settles(c: Config, b: Broker, d: Delivery, settlement: Settlement) {
    match settlement
    case Acknowledged => IsGone(b, d.message) && exists i :: 0 <= i < |b.results| && b.results[i].request == d.job.action
    case GivenBack(retryable) =>
      var failed := d.job.(attempt := d.job.attempt + 1);
      && IsGone(b, d.message)
      && if retryable && d.job.attempt < c.retries.maximum
         then exists at :: failed.(availableAt := at) in b.retry
         else exists m :: m in b.dead && b.dead[m] == failed
    case LeftPending => d.message in b.jobs ==> d.message in b.pending
  }

  lemma AckSettles(c: Config, s: System, h: nat)
    requires CanStep(c, s, Ack(h)) && s.handlings[h].phase.result == Worker.Done(s.handlings[h].delivery.job)
    ensures Settles(c, Step(c, s, Ack(h)).broker, s.handlings[h].delivery, Acknowledged)
  {
    var b, b' := s.broker, Step(c, s, Ack(h)).broker;
    assert b'.results[|b.results|] == s.handlings[h].phase.result;
  }

  lemma FailSettles(c: Config, s: System, h: nat)
    requires CanStep(c, s, Fail(h))
    ensures Settles(c, Step(c, s, Fail(h)).broker, s.handlings[h].delivery, GivenBack(s.handlings[h].phase.retryable))
  {
    var b, b', d := s.broker, Step(c, s, Fail(h)).broker, s.handlings[h].delivery;
    var failed := d.job.(attempt := d.job.attempt + 1);
    if WillRetry(c.retries, d.job, s.handlings[h].phase.retryable) {
      assert failed.(availableAt := s.now + Delay(c.retries.base, failed.attempt)) in b'.retry;
    } else {
      assert b.nextId in b'.dead && b'.dead[b.nextId] == failed;
    }
  }

  predicate Ends(l: Label) {
    l.Ack? || l.Fail? || l.Crash?
  }

  /** The phase that `h` is in after a step of its own. */
  predicate After(l: Label, p: Phase) {
    match l
    case Check(h) => p.Closing? || p == Cleared
    case Reject(h) => p == Failed(false)
    case Start(h) => p == Running
    case Return(h, ok, retryable) => p == if ok then Succeeded else Failed(retryable)
    case LoseArtifact(h) => p == Failed(true)
    case Persist(h) => p.Closing?
    case _ => true
  }

  /** The phase from which `h` takes a step of its own. */
  predicate From(l: Label, p: Phase) {
    match l
    case Check(h) => p == Received
    case Reject(h) => p == Cleared
    case Start(h) => p == Cleared
    case Return(h, ok, retryable) => p == Running
    case LoseArtifact(h) => p == Succeeded
    case Ack(h) => p.Closing?
    case Fail(h) => p.Failed?
    case Crash(h) => true
    case _ => false
  }

  lemma FromCanStep(c: Config, s: System, l: Label, h: nat)
    requires h in s.handlings && Mine(l, h) && From(l, s.handlings[h].phase)
    ensures CanStep(c, s, l)
  {}

  lemma StepAfter(c: Config, s: System, l: Label, h: nat)
    requires CanStep(c, s, l) && Mine(l, h)
    ensures h in Step(c, s, l).handlings <==> !Ends(l)
    ensures !Ends(l) ==> After(l, Step(c, s, l).handlings[h].phase)
  {}

  /** One handled delivery: how it ended, and the moment at which it did. */
  datatype Handled = Handled(h: nat, delivery: Delivery, outcome: Outcome, at: nat)

  /** All tables and the run that led to them. `waiting` are the deliveries that the worker
      has received and not begun to handle. */
  class Cluster {
    const c: Config
    var s: System
    var waiting: set<nat>
    ghost var trace: seq<System>
    ghost var labels: seq<Label>

    ghost predicate Valid()
      reads this
    {
      && IsRun(c, trace, labels) && trace[0] == Initial() && trace[|trace| - 1] == s
      && forall k :: k in waiting ==> InPhase(s, k, Received)
    }

    constructor (c: Config)
      ensures Valid() && this.c == c && s == Initial() && waiting == {} && trace == [s] && labels == []
    {
      this.c, s, waiting := c, Initial(), {};
      trace, labels := [Initial()], [];
    }

    method Do(l: Label, ghost h: nat)
      requires Valid() && CanStep(c, s, l) && (IsMine(l) ==> l.h !in waiting)
      modifies this
      ensures Valid() && s == Step(c, old(s), l) && trace == old(trace) + [s] && labels == old(labels) + [l] && waiting == old(waiting)
      ensures Own(labels, h) == Own(old(labels), h) + if Mine(l, h) then [l] else []
    {
      RunExtended(c, trace, labels, l);
      forall k | k in waiting { OthersKeep(c, s, l, k); }
      s := Step(c, s, l);
      trace, labels := trace + [s], labels + [l];
      assert labels[..|labels| - 1] == old(labels);
    }

    /** Any number of steps of anybody but `h`. */
    method Others(h: nat)
      requires Valid() && h in s.handlings
      modifies this
      ensures Valid() && old(trace) <= trace && old(labels) <= labels && waiting == old(waiting)
      ensures h in s.handlings && s.handlings[h] == old(s.handlings[h])
      ensures Own(labels, h) == Own(old(labels), h)
    {
      var n: int := *;
      while n > 0
        invariant Valid() && old(trace) <= trace && old(labels) <= labels && waiting == old(waiting)
        invariant h in s.handlings && s.handlings[h] == old(s.handlings[h])
        invariant Own(labels, h) == Own(old(labels), h)
      {
        n := n - 1;
        var l: Label := *;
        if !Mine(l, h) && !(IsMine(l) && l.h in waiting) && CanStep(c, s, l) {
          OthersKeep(c, s, l, h);
          Do(l, h);
        }
      }
    }

    /** One step of `h`, then any of the others. */
    method Act(l: Label, h: nat)
      requires Valid() && h in s.handlings && h !in waiting && Mine(l, h) && !Ends(l) && From(l, s.handlings[h].phase)
      modifies this
      ensures Valid() && old(trace) <= trace && old(labels) <= labels && waiting == old(waiting)
      ensures h in s.handlings && s.handlings[h].delivery == old(s.handlings[h].delivery) && After(l, s.handlings[h].phase)
      ensures Own(labels, h) == Own(old(labels), h) + [l]
    {
      FromCanStep(c, s, l, h);
      StepAfter(c, s, l, h);
      Do(l, h);
      assert After(l, s.handlings[h].phase);
      Others(h);
    }

    /** The handling gives up and touches nothing any more. */
    method Abandon(h: nat)
      requires Valid() && h in s.handlings && h !in waiting
      modifies this
      ensures Valid() && old(trace) <= trace && old(labels) <= labels && waiting == old(waiting)
      ensures h !in s.handlings && Own(labels, h) == Own(old(labels), h) + [Crash(h)]
      ensures Settles(c, s.broker, old(s.handlings[h].delivery), LeftPending)
    {
      DeliveryGuarantees.HandledIsPending(c, trace, labels, |trace| - 1, h);
      Do(Crash(h), h);
    }

    /** `Ack`: its transaction takes place or it fails. */
    method Acknowledge(h: nat) returns (settled: bool)
      requires Valid() && h in s.handlings && h !in waiting && s.handlings[h].phase.Closing?
      modifies this
      ensures Valid() && old(trace) <= trace && old(labels) <= labels && waiting == old(waiting)
      ensures h !in s.handlings && Own(labels, h) == Own(old(labels), h) + [Last(h, Ack(h), settled)]
      ensures Settles(c, s.broker, old(s.handlings[h].delivery), if settled then Acknowledged else LeftPending)
    {
      settled := *;
      if settled {
        ClosingResult(c, trace, labels, h);
        AckSettles(c, s, h);
        Do(Ack(h), h);
      } else {
        Abandon(h);
      }
    }

    /** `Fail`: its transaction takes place or it fails itself. */
    method GiveBack(h: nat) returns (settled: bool)
      requires Valid() && h in s.handlings && h !in waiting && s.handlings[h].phase.Failed?
      modifies this
      ensures Valid() && old(trace) <= trace && old(labels) <= labels && waiting == old(waiting)
      ensures h !in s.handlings && Own(labels, h) == Own(old(labels), h) + [Last(h, Fail(h), settled)]
      ensures Settles(c, s.broker, old(s.handlings[h].delivery), if settled then GivenBack(old(s.handlings[h].phase.retryable)) else LeftPending)
    {
      settled := *;
      if settled {
        FailSettles(c, s, h);
        Do(Fail(h), h);
      } else {
        Abandon(h);
      }
    }

    /** Persisting needs the row of the step run. */
    method PersistResult(h: nat) returns (stored: bool)
      requires Valid() && InPhase(s, h, Succeeded) && h !in waiting
      modifies this
      ensures Valid() && old(trace) <= trace && old(labels) <= labels && waiting == old(waiting)
      ensures h in s.handlings && s.handlings[h].delivery == old(s.handlings[h].delivery)
      ensures stored ==> s.handlings[h].phase.Closing?
      ensures Own(labels, h) == Own(old(labels), h) + if stored then [Persist(h)] else []
    {
      var failed: bool := *;
      stored := !failed && s.handlings[h].delivery.job.stepRun in s.rows;
      if stored {
        StepAfter(c, s, Persist(h), h);
        Do(Persist(h), h);
        Others(h);
      }
    }

    /** Handling one delivery: a run of the protocol that follows one of its paths,
        whatever the store, the budget, the provider, the broker and the other workers
        do, and what it leaves of the message. */
    method Handle(h: nat) returns (outcome: Outcome)
      requires Valid() && InPhase(s, h, Received) && h !in waiting
      modifies this
      ensures Valid() && old(trace) <= trace && old(labels) <= labels && waiting == old(waiting)
      ensures h !in s.handlings && Own(labels, h) == Own(old(labels), h) + Path(h, outcome)
      ensures Settles(c, s.broker, old(s.handlings[h].delivery), SettlementOf(outcome))
    {
      Others(h);
      var lookupFailed: bool := *;
      if lookupFailed {
        Abandon(h);
        return LookupFailed;
      }
      Act(Check(h), h);
      if s.handlings[h].phase.Closing? {
        var settled := Acknowledge(h);
        return Duplicate(settled);
      }
      outcome := Perform(h, Own(old(labels), h));
    }

    method Perform(h: nat, ghost before: seq<Label>) returns (outcome: Outcome)
      requires Valid() && InPhase(s, h, Cleared) && h !in waiting && Own(labels, h) == before + [Check(h)]
      modifies this
      ensures Valid() && old(trace) <= trace && old(labels) <= labels && waiting == old(waiting)
      ensures h !in s.handlings && Own(labels, h) == before + Path(h, outcome)
      ensures Settles(c, s.broker, old(s.handlings[h].delivery), SettlementOf(outcome))
    {
      var refused: bool, noBudget: bool := *, *;
      if refused {
        Act(Reject(h), h);
        var settled := GiveBack(h);
        return Refused(settled);
      }
      if noBudget {
        Abandon(h);
        return NoBudget;
      }
      outcome := Run(h, before);
    }

    method Run(h: nat, ghost before: seq<Label>) returns (outcome: Outcome)
      requires Valid() && InPhase(s, h, Cleared) && h !in waiting && Own(labels, h) == before + [Check(h)]
      modifies this
      ensures Valid() && old(trace) <= trace && old(labels) <= labels && waiting == old(waiting)
      ensures h !in s.handlings && Own(labels, h) == before + Path(h, outcome)
      ensures Settles(c, s.broker, old(s.handlings[h].delivery), SettlementOf(outcome))
    {
      Act(Start(h), h);
      var died: bool, ok: bool, retryable: bool := *, *, *;
      if died {
        Abandon(h);
        return Died;
      }
      if ok {
        Act(Return(h, true, false), h);
        outcome := Record(h, before);
      } else {
        outcome := ReportFailure(h, retryable, before);
      }
    }

    method ReportFailure(h: nat, retryable: bool, ghost before: seq<Label>) returns (outcome: Outcome)
      requires Valid() && InPhase(s, h, Running) && h !in waiting && Own(labels, h) == before + [Check(h), Start(h)]
      modifies this
      ensures Valid() && old(trace) <= trace && old(labels) <= labels && waiting == old(waiting)
      ensures h !in s.handlings && Own(labels, h) == before + Path(h, outcome)
      ensures Settles(c, s.broker, old(s.handlings[h].delivery), SettlementOf(outcome))
    {
      Act(Return(h, false, retryable), h);
      var settled := GiveBack(h);
      return ProviderFailed(retryable, settled);
    }

    method Record(h: nat, ghost before: seq<Label>) returns (outcome: Outcome)
      requires Valid() && InPhase(s, h, Succeeded) && h !in waiting
      requires Own(labels, h) == before + [Check(h), Start(h), Return(h, true, false)]
      modifies this
      ensures Valid() && old(trace) <= trace && old(labels) <= labels && waiting == old(waiting)
      ensures h !in s.handlings && Own(labels, h) == before + Path(h, outcome)
      ensures Settles(c, s.broker, old(s.handlings[h].delivery), SettlementOf(outcome))
    {
      var artifactLost: bool := *;
      if artifactLost {
        Act(LoseArtifact(h), h);
        var settled := GiveBack(h);
        return Outcome.ArtifactLost(settled);
      }
      var stored := PersistResult(h);
      if !stored {
        Abandon(h);
        return NotStored;
      }
      var settled := Acknowledge(h);
      return Finished(settled);
    }

    // ---- receiving deliveries ----

    /** At the moment `at` the delivery was settled as its outcome says, and its handling had
        followed the path of that outcome. */
    ghost predicate WasHandled(r: Handled)
      reads this
    {
      && r.at < |trace| && r.at <= |labels|
      && Settles(c, trace[r.at].broker, r.delivery, SettlementOf(r.outcome))
      && exists before {:trigger before + Path(r.h, r.outcome)} :: Own(labels[..r.at], r.h) == before + Path(r.h, r.outcome)
    }

    method FreshId() returns (h: nat)
      ensures h !in s.handlings
    {
      h := 0;
      var left := s.handlings.Keys;
      while left != {}
        invariant forall k :: k in s.handlings && k !in left ==> k < h
        decreases |left|
      {
        var k :| k in left;
        left := left - {k};
        if h <= k { h := k + 1; }
      }
    }

    /** One message is received for the first time or claimed from whoever held it. */
    method Take(m: nat, consumer: string) returns (h: nat)
      requires Valid() && (IsNext(s.broker, m) || (m in s.broker.pending && m in s.broker.jobs))
      modifies this
      ensures Valid() && old(trace) <= trace && old(labels) <= labels
      ensures h !in old(s.handlings) && waiting == old(waiting) + {h} && h !in old(waiting)
      ensures s.handlings == old(s.handlings)[h := Handling(Delivery(m, old(s.broker.jobs[m])), Received)]
      ensures s.broker.jobs == old(s.broker.jobs) && old(s.broker.pending.Keys) <= s.broker.pending.Keys
    {
      h := FreshId();
      Do(if IsNext(s.broker, m) then Receive(h, m, consumer) else Steal(h, m, consumer), h);
      waiting := waiting + {h};
    }

    /** One waiting delivery is handled. */
    method HandleWaiting(h: nat) returns (ghost r: Handled)
      requires Valid() && h in waiting
      modifies this
      ensures Valid() && old(trace) <= trace && old(labels) <= labels && waiting == old(waiting) - {h}
      ensures r.h == h && r.delivery == old(s.handlings[h].delivery) && WasHandled(r)
    {
      waiting := waiting - {h};
      var outcome := Handle(h);
      r := Handled(h, old(s.handlings[h].delivery), outcome, |labels|);
      assert labels[..|labels|] == labels;
      assert Own(labels[..r.at], h) == Own(old(labels), h) + Path(h, outcome);
    }

    /** `Read` with a count of one, and the handling of what it returns. */
    method ReadAndHandle(consumer: string) returns (ghost handled: seq<Handled>)
      requires Valid()
      modifies this
      ensures Valid() && old(trace) <= trace && old(labels) <= labels && waiting == old(waiting)
      ensures handled == [] <==> !exists m :: m in old(s.broker.jobs) && IsNext(old(s.broker), m)
      ensures |handled| <= 1 && forall i :: 0 <= i < |handled| ==> WasHandled(handled[i]) && IsNext(old(s.broker), handled[i].delivery.message)
    {
      handled := [];
      if m :| m in s.broker.jobs && IsNext(s.broker, m) {
        var h := Take(m, consumer);
        ghost var r := HandleWaiting(h);
        handled := [r];
      }
    }

    /** Stale messages are claimed together and then handled one after the other. */
    method ClaimAndHandle(consumer: string, count: nat) returns (ghost handled: seq<Handled>)
      requires Valid() && waiting == {}
      modifies this
      ensures Valid() && old(trace) <= trace && old(labels) <= labels && waiting == {}
      ensures |handled| <= count && forall i :: 0 <= i < |handled| ==> WasHandled(handled[i])
    {
      var taken, stale := 0, set m | m in s.broker.pending && m in s.broker.jobs;
      while taken < count && stale != {}
        invariant Valid() && old(trace) <= trace && old(labels) <= labels
        invariant |waiting| <= taken <= count
        invariant forall m :: m in stale ==> m in s.broker.pending && m in s.broker.jobs
      {
        var m: nat :| m in stale;
        stale, taken := stale - {m}, taken + 1;
        var idle: bool := *;
        if idle {
          var h := Take(m, consumer);
        }
      }
      handled := [];
      while waiting != {}
        invariant Valid() && old(trace) <= trace && old(labels) <= labels
        invariant |handled| + |waiting| <= count
        invariant forall i :: 0 <= i < |handled| ==> WasHandled(handled[i])
        decreases |waiting|
      {
        var h :| h in waiting;
        ghost var before, beforeLabels := trace, labels;
        ghost var r := HandleWaiting(h);
        forall i | 0 <= i < |handled| ensures WasHandled(handled[i]) {
          StaysHandled(c, before, beforeLabels, trace, labels, handled[i]);
        }
        handled := handled + [r];
      }
    }

    /** One turn of the worker's loop: stale deliveries first, when it is time to look for
        them, and then at most one new one. */
    method Consume(consumer: string) returns (ghost handled: seq<Handled>)
      requires Valid() && waiting == {}
      modifies this
      ensures Valid() && old(trace) <= trace && old(labels) <= labels && waiting == {}
      ensures |handled| <= 11 && forall i :: 0 <= i < |handled| ==> WasHandled(handled[i])
    {
      handled := [];
      var due: bool := *;
      if due {
        handled := ClaimAndHandle(consumer, 10);
      }
      ghost var before, beforeLabels := trace, labels;
      ghost var read := ReadAndHandle(consumer);
      forall i | 0 <= i < |handled| ensures WasHandled(handled[i]) {
        StaysHandled(c, before, beforeLabels, trace, labels, handled[i]);
      }
      handled := handled + read;
    }
  }

  lemma StaysHandled(c: Config, tr: seq<System>, ls: seq<Label>, tr': seq<System>, ls': seq<Label>, r: Handled)
    requires tr <= tr' && ls <= ls' && r.at < |tr| && r.at <= |ls|
    ensures tr'[r.at] == tr[r.at] && ls'[..r.at] == ls[..r.at]
  {}

  /** A handling that is about to acknowledge reports its own job. */
  lemma ClosingResult(c: Config, tr: seq<System>, ls: seq<Label>, h: nat)
    requires IsRun(c, tr, ls) && tr[0] == Initial() && h in tr[|tr| - 1].handlings && tr[|tr| - 1].handlings[h].phase.Closing?
    ensures tr[|tr| - 1].handlings[h].phase.result == Worker.Done(tr[|tr| - 1].handlings[h].delivery.job)
  {
    DeliveryGuarantees.RowsInRuns(c, tr, ls);
    assert HandlingOk(c, tr[|tr| - 1].broker, tr[|tr| - 1].handlings[h]);
  }

  lemma OthersKeep(c: Config, s: System, l: Label, h: nat)
    requires CanStep(c, s, l) && !Mine(l, h) && h in s.handlings
    ensures h in Step(c, s, l).handlings && Step(c, s, l).handlings[h] == s.handlings[h]
  {}
}
