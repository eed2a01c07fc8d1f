/** What the delivery protocol guarantees: no job is lost, attempts are bounded, results
    stand for persisted successes, and finished keys are not executed again. */
module DeliveryGuarantees {
  import opened Order
  import opened Queue
  import opened Worker

  // ---- no job is lost ----

  ghost predicate InStream(b: Broker, j: Job) {
    exists m :: m in b.jobs && SameJob(j, b.jobs[m])
  }

  ghost predicate Waiting(b: Broker, j: Job) {
    exists k :: k in b.retry && SameJob(j, k)
  }

  /** A dead letter that was replayed does not count any more: it may be removed at any time. */
  ghost predicate Buried(b: Broker, replayed: set<nat>, j: Job) {
    exists m :: m in b.dead && m !in replayed && SameJob(j, b.dead[m])
  }

  ghost predicate Answered(b: Broker, j: Job) {
    exists i :: 0 <= i < |b.results| && b.results[i].request == j.action
  }

  ghost predicate Present(b: Broker, replayed: set<nat>, j: Job) {
    InStream(b, j) || Waiting(b, j) || Buried(b, replayed, j) || Answered(b, j)
  }

  lemma PresentAdd(b: Broker, replayed: set<nat>, j: Job, k: Job)
    requires k == j || Present(b, replayed, j)
    requires forall m :: m in b.jobs ==> m < b.nextId
    ensures Present(Add(b, k), replayed, j)
  {
    var b' := Add(b, k);
    if k == j {
      assert b.nextId in b'.jobs && SameJob(j, b'.jobs[b.nextId]);
    } else if InStream(b, j) {
      var m :| m in b.jobs && SameJob(j, b.jobs[m]);
      assert m in b'.jobs && b'.jobs[m] == b.jobs[m];
    }
  }

  /** Moving a retry leaves a copy in the stream, whether or not another pump has
      already removed the item. */
  lemma PresentMove(b: Broker, replayed: set<nat>, j: Job, k: Job)
    requires Present(b, replayed, j)
    requires forall m :: m in b.jobs ==> m < b.nextId
    ensures Present(Move(b, k), replayed, j)
  {
    var b' := Move(b, k);
    if InStream(b, j) {
      var m :| m in b.jobs && SameJob(j, b.jobs[m]);
      assert m in b'.jobs && b'.jobs[m] == b.jobs[m];
    } else if Waiting(b, j) {
      var w :| w in b.retry && SameJob(j, w);
      assert b.nextId in b'.jobs && b'.jobs[b.nextId] == k;
      assert w in b'.retry || w == k;
    }
  }

  /** Removing a message keeps its job present if the same transaction records it elsewhere. */
  lemma PresentFinish(b: Broker, b': Broker, replayed: set<nat>, j: Job, d: Delivery)
    requires Present(b, replayed, j)
    requires d.message in b.jobs ==> b.jobs[d.message] == d.job
    requires b'.jobs == b.jobs - {d.message}
    requires b.retry <= b'.retry && b.results <= b'.results
    requires forall m :: m in b.dead ==> m in b'.dead && b'.dead[m] == b.dead[m]
    requires SameJob(j, d.job) ==> Waiting(b', j) || Buried(b', replayed, j) || Answered(b', j)
    ensures Present(b', replayed, j)
  {
    if InStream(b, j) {
      var m :| m in b.jobs && SameJob(j, b.jobs[m]);
      assert m == d.message || (m in b'.jobs && b'.jobs[m] == b.jobs[m]);
    } else if Waiting(b, j) {
      var k :| k in b.retry && SameJob(j, k);
      assert k in b'.retry;
    } else if Buried(b, replayed, j) {
      var m :| m in b.dead && m !in replayed && SameJob(j, b.dead[m]);
      assert m in b'.dead && b'.dead[m] == b.dead[m];
    } else {
      var i :| 0 <= i < |b.results| && b.results[i].request == j.action;
      assert b'.results[i] == b.results[i];
    }
  }

  lemma PresentAck(c: Config, s: System, h: nat, j: Job)
    requires Sound(c, s) && CanStep(c, s, Ack(h)) && Present(s.broker, s.replayed, j)
    ensures Present(Step(c, s, Ack(h)).broker, s.replayed, j)
  {
    var b, b', d := s.broker, Step(c, s, Ack(h)).broker, s.handlings[h].delivery;
    assert HandlingOk(c, b, s.handlings[h]);
    assert b'.results[|b.results|] == Done(d.job);
    PresentFinish(b, b', s.replayed, j, d);
  }

  lemma PresentFail(c: Config, s: System, h: nat, j: Job)
    requires Sound(c, s) && CanStep(c, s, Fail(h)) && Present(s.broker, s.replayed, j)
    ensures Present(Step(c, s, Fail(h)).broker, s.replayed, j)
  {
    var b, b', hd := s.broker, Step(c, s, Fail(h)).broker, s.handlings[h];
    var d, failed := hd.delivery, hd.delivery.job.(attempt := hd.delivery.job.attempt + 1);
    assert HandlingOk(c, b, hd);
    if SameJob(j, d.job) {
      if WillRetry(c.retries, d.job, hd.phase.retryable) {
        var k := failed.(availableAt := s.now + Delay(c.retries.base, failed.attempt));
        assert k in b'.retry && SameJob(j, k);
      } else {
        assert b.nextId in b'.dead && b.nextId !in s.replayed && SameJob(j, b'.dead[b.nextId]);
      }
    }
    PresentFinish(b, b', s.replayed, j, d);
  }

  /** Replaying enqueues first and removes the dead letter later. */
  lemma PresentRevive(c: Config, s: System, r: nat, j: Job)
    requires Sound(c, s) && CanStep(c, s, Revive(r)) && Present(s.broker, s.replayed, j)
    ensures Present(Step(c, s, Revive(r)).broker, Step(c, s, Revive(r)).replayed, j)
  {
    var b, rp := s.broker, s.replays[r];
    var k := Stamp(Revived(rp.job, s.now), rp.job.id, s.now);
    var b' := Add(b, k);
    assert ReplayOk(c, s, rp);
    PresentAdd(b, s.replayed, j, k);
    if Buried(b, s.replayed, j) {
      var m :| m in b.dead && m !in s.replayed && SameJob(j, b.dead[m]);
      if m == rp.message {
        assert SameJob(j, rp.job) && SameJob(rp.job, k);
        assert b.nextId in b'.jobs && SameJob(j, b'.jobs[b.nextId]);
      } else {
        assert m in b'.dead && m !in s.replayed + {rp.message};
      }
    }
  }

  lemma PresentRemove(c: Config, s: System, r: nat, j: Job)
    requires Sound(c, s) && CanStep(c, s, Remove(r)) && Present(s.broker, s.replayed, j)
    ensures Present(Step(c, s, Remove(r)).broker, s.replayed, j)
  {
    var b, b', m := s.broker, Step(c, s, Remove(r)).broker, s.replays[r].message;
    assert ReplayOk(c, s, s.replays[r]);
    if Buried(b, s.replayed, j) {
      var n :| n in b.dead && n !in s.replayed && SameJob(j, b.dead[n]);
      assert n != m && n in b'.dead && b'.dead[n] == b.dead[n];
    }
  }

  lemma PresentSame(b: Broker, b': Broker, replayed: set<nat>, j: Job)
    requires Present(b, replayed, j)
    requires b'.jobs == b.jobs && b'.retry == b.retry && b'.dead == b.dead && b'.results == b.results
    ensures Present(b', replayed, j)
  {}

  predicate MovesJobs(l: Label) {
    l.Enqueue? || l.Ack? || l.Fail? || l.MoveRetry? || l.Revive? || l.Remove?
  }

  lemma PresentElsewhere(c: Config, s: System, l: Label, j: Job)
    requires CanStep(c, s, l) && !MovesJobs(l) && Present(s.broker, s.replayed, j)
    ensures Present(Step(c, s, l).broker, Step(c, s, l).replayed, j)
  {
    var b, b' := s.broker, Step(c, s, l).broker;
    assert b'.jobs == b.jobs && b'.retry == b.retry && b'.dead == b.dead && b'.results == b.results by {
      match l
      case Receive(_, _, _) =>
      case Steal(_, _, _) =>
      case Touch(_, _) =>
      case _ =>
    }
    PresentSame(b, b', s.replayed, j);
  }

  lemma PresentMoved(c: Config, s: System, l: Label, j: Job)
    requires Sound(c, s) && CanStep(c, s, l) && MovesJobs(l)
    requires Present(s.broker, s.replayed, j) || (l.Enqueue? && j == Stamp(l.job, l.freshId, s.now))
    ensures Present(Step(c, s, l).broker, Step(c, s, l).replayed, j)
  {
    match l
    case Enqueue(k, freshId) => PresentAdd(s.broker, s.replayed, j, Stamp(k, freshId, s.now));
    case Ack(h) => PresentAck(c, s, h, j);
    case Fail(h) => PresentFail(c, s, h, j);
    case MoveRetry(p) => PresentMove(s.broker, s.replayed, j, s.pumps[p][0]);
    case Revive(r) => PresentRevive(c, s, r, j);
    case Remove(r) => PresentRemove(c, s, r, j);
  }

  lemma PresentStep(c: Config, s: System, l: Label, j: Job)
    requires Sound(c, s) && CanStep(c, s, l)
    requires Present(s.broker, s.replayed, j) || (l.Enqueue? && j == Stamp(l.job, l.freshId, s.now))
    ensures Present(Step(c, s, l).broker, Step(c, s, l).replayed, j)
  {
    if !MovesJobs(l) {
      PresentElsewhere(c, s, l, j);
    } else {
      PresentMoved(c, s, l, j);
    }
  }

  ghost predicate NothingLost(c: Config, s: System) {
    Sound(c, s) && forall j :: j in s.enqueued ==> Present(s.broker, s.replayed, j)
  }

  lemma NothingLostStep(c: Config, s: System, l: Label)
    requires NothingLost(c, s) && CanStep(c, s, l)
    ensures NothingLost(c, Step(c, s, l))
  {
    SoundStep(c, s, l);
    var s' := Step(c, s, l);
    assert l.Enqueue? ==> s'.enqueued == s.enqueued + {Stamp(l.job, l.freshId, s.now)};
    assert !l.Enqueue? ==> s'.enqueued == s.enqueued;
    forall j | j in s'.enqueued ensures Present(s'.broker, s'.replayed, j) {
      PresentStep(c, s, l, j);
    }
  }

  /** Under every interleaving of consumers, stolen leases, duplicate handling, pumps,
      replays and crashes, an enqueued job is in the jobs stream, in the retry set, in
      the dead-letter stream or answered in the results stream. */
  lemma NoJobIsLost(c: Config, tr: seq<System>, ls: seq<Label>)
    requires IsRun(c, tr, ls) && tr[0] == Initial()
    ensures forall i, j :: 0 <= i < |tr| && j in tr[i].enqueued ==> Present(tr[i].broker, tr[i].replayed, j)
  {
    var inv, ok := (s: System) => NothingLost(c, s), (s: System, l: Label) => true;
    forall s, l | inv(s) && ok(s, l) && CanStep(c, s, l) ensures inv(Step(c, s, l)) {
      NothingLostStep(c, s, l);
    }
    Invariance(c, inv, ok, tr, ls);
  }

  // ---- nothing is stranded ----

  /** Every entry of the stream is either still to be delivered or pending, where another
      consumer can claim it. */
  ghost predicate Reachable(b: Broker) {
    b.cursor <= b.nextId && forall m :: m in b.jobs ==> m < b.nextId && (b.cursor <= m || m in b.pending)
  }

  lemma ReachableAfter(b: Broker, j: Job, m: nat, consumer: string)
    requires Reachable(b)
    ensures Reachable(Add(b, j)) && Reachable(Finish(b, m)) && Reachable(Claim(b, m, consumer))
    ensures IsNext(b, m) ==> Reachable(Deliver(b, m, consumer))
  {}

  ghost predicate Same(b: Broker, b': Broker) {
    b'.jobs == b.jobs && b'.cursor == b.cursor && b'.pending == b.pending && b'.nextId >= b.nextId
  }

  lemma ReachableSame(b: Broker, b': Broker)
    requires Reachable(b) && Same(b, b')
    ensures Reachable(b')
  {}

  lemma ReachableMoved(c: Config, s: System, l: Label)
    requires Reachable(s.broker) && CanStep(c, s, l) && MovesJobs(l)
    ensures Reachable(Step(c, s, l).broker)
  {
    var b, b' := s.broker, Step(c, s, l).broker;
    match l
    case Enqueue(j, freshId) => ReachableAfter(b, Stamp(j, freshId, s.now), 0, "");
    case Ack(h) =>
      ReachableAfter(b, s.handlings[h].delivery.job, s.handlings[h].delivery.message, "");
      ReachableSame(Finish(b, s.handlings[h].delivery.message), b');
    case Fail(h) =>
      ReachableAfter(b, s.handlings[h].delivery.job, s.handlings[h].delivery.message, "");
      ReachableSame(Finish(b, s.handlings[h].delivery.message), b');
    case MoveRetry(p) =>
      ReachableAfter(b, s.pumps[p][0], 0, "");
      ReachableSame(Add(b, s.pumps[p][0]), b');
    case Revive(r) => ReachableAfter(b, Stamp(Revived(s.replays[r].job, s.now), s.replays[r].job.id, s.now), 0, "");
    case Remove(r) => ReachableSame(b, b');
  }

  lemma ReachableStep(c: Config, s: System, l: Label)
    requires Reachable(s.broker) && CanStep(c, s, l)
    ensures Reachable(Step(c, s, l).broker)
  {
    if MovesJobs(l) {
      ReachableMoved(c, s, l);
    } else {
      var b := s.broker;
      match l
      case Receive(h, m, consumer) => ReachableAfter(b, b.jobs[m], m, consumer);
      case Steal(h, m, consumer) => ReachableAfter(b, b.jobs[m], m, consumer);
      case Touch(h, consumer) => ReachableAfter(b, s.handlings[h].delivery.job, s.handlings[h].delivery.message, consumer);
      case _ =>
    }
  }

  lemma NoJobIsStranded(c: Config, tr: seq<System>, ls: seq<Label>, i: nat, m: nat)
    requires IsRun(c, tr, ls) && tr[0] == Initial() && i < |tr| && m in tr[i].broker.jobs
    ensures m >= tr[i].broker.cursor || forall h, consumer :: h !in tr[i].handlings ==> CanStep(c, tr[i], Steal(h, m, consumer))
  {
    var inv, ok := (s: System) => Reachable(s.broker), (s: System, l: Label) => true;
    forall s, l | inv(s) && ok(s, l) && CanStep(c, s, l) ensures inv(Step(c, s, l)) {
      ReachableStep(c, s, l);
    }
    Invariance(c, inv, ok, tr, ls);
    assert inv(tr[i]);
  }

  /** What was delivered lies before the cursor. */
  ghost predicate Delivered(s: System) {
    && Reachable(s.broker)
    && (forall m :: m in s.broker.pending ==> m < s.broker.cursor)
    && forall h :: h in s.handlings ==> s.handlings[h].delivery.message < s.broker.cursor
  }

  lemma DeliveredStep(c: Config, s: System, l: Label)
    requires Delivered(s) && CanStep(c, s, l)
    ensures Delivered(Step(c, s, l))
  {
    ReachableStep(c, s, l);
    var b, b' := s.broker, Step(c, s, l).broker;
    assert l.Receive? ==> b'.cursor == l.message + 1 && b'.pending == b.pending[l.message := l.consumer];
    assert !l.Receive? ==> b'.cursor == b.cursor && b'.pending.Keys <= b.pending.Keys;
  }

  /** A message that is being handled is pending for as long as its entry exists. */
  lemma HandledIsPending(c: Config, tr: seq<System>, ls: seq<Label>, i: nat, h: nat)
    requires IsRun(c, tr, ls) && tr[0] == Initial() && i < |tr| && h in tr[i].handlings
    ensures tr[i].handlings[h].delivery.message in tr[i].broker.jobs ==> tr[i].handlings[h].delivery.message in tr[i].broker.pending
  {
    var inv, ok := (s: System) => Delivered(s), (s: System, l: Label) => true;
    forall s, l | inv(s) && ok(s, l) && CanStep(c, s, l) ensures inv(Step(c, s, l)) {
      DeliveredStep(c, s, l);
    }
    Invariance(c, inv, ok, tr, ls);
    assert inv(tr[i]);
  }

  // ---- attempts and delays ----

  function MaxRetries(c: Config): nat {
    if c.retries.maximum < 0 then 0 else c.retries.maximum
  }

  /** Jobs in flight: never beyond the retry limit, never before they are due. */
  ghost predicate InFlight(c: Config, now: int, j: Job) {
    j.attempt <= MaxRetries(c) && Due(j, now)
  }

  ghost predicate BoundedBroker(c: Config, now: int, b: Broker) {
    && (forall m :: m in b.jobs ==> InFlight(c, now, b.jobs[m]))
    && (forall j :: j in b.retry ==> 1 <= j.attempt <= MaxRetries(c))
    && (forall m :: m in b.dead ==> 1 <= b.dead[m].attempt <= MaxRetries(c) + 1)
  }

  ghost predicate Bounded(c: Config, s: System) {
    && BoundedBroker(c, s.now, s.broker)
    && (forall h :: h in s.handlings ==> InFlight(c, s.now, s.handlings[h].delivery.job))
    && (forall p :: p in s.pumps ==> forall j :: j in s.pumps[p] ==> InFlight(c, s.now, j))
  }

  /** Clients enqueue jobs that were not tried yet and are not postponed. */
  ghost predicate EnqueuesFresh(s: System, l: Label) {
    l.Enqueue? ==> l.job.attempt == 0 && l.job.availableAt <= s.now && l.job.enqueuedAt <= s.now
  }

  lemma BoundedAdd(c: Config, now: int, b: Broker, j: Job)
    requires BoundedBroker(c, now, b) && InFlight(c, now, j)
    ensures BoundedBroker(c, now, Add(b, j)) && BoundedBroker(c, now, Move(b, j))
  {}

  lemma BoundedFinish(c: Config, now: int, b: Broker, m: nat)
    requires BoundedBroker(c, now, b)
    ensures BoundedBroker(c, now, Finish(b, m))
  {}

  lemma BoundedFailing(c: Config, now: int, b: Broker, d: Delivery, retryable: bool)
    requires BoundedBroker(c, now, b) && InFlight(c, now, d.job)
    ensures BoundedBroker(c, now, Failing(c.retries, b, d, retryable, now))
  {
    BoundedFinish(c, now, b, d.message);
  }

  lemma BoundedMoved(c: Config, s: System, l: Label)
    requires Bounded(c, s) && CanStep(c, s, l) && MovesJobs(l) && EnqueuesFresh(s, l) && s.now >= 1
    ensures BoundedBroker(c, s.now, Step(c, s, l).broker)
  {
    match l
    case Enqueue(j, freshId) => BoundedAdd(c, s.now, s.broker, Stamp(j, freshId, s.now));
    case Ack(h) => BoundedFinish(c, s.now, s.broker, s.handlings[h].delivery.message);
    case Fail(h) => BoundedFailing(c, s.now, s.broker, s.handlings[h].delivery, s.handlings[h].phase.retryable);
    case MoveRetry(p) =>
      assert s.pumps[p][0] in s.pumps[p];
      BoundedAdd(c, s.now, s.broker, s.pumps[p][0]);
    case Revive(r) => BoundedAdd(c, s.now, s.broker, Stamp(Revived(s.replays[r].job, s.now), s.replays[r].job.id, s.now));
    case Remove(r) =>
  }

  lemma MovingKeepsMemory(c: Config, s: System, l: Label)
    requires CanStep(c, s, l) && MovesJobs(l)
    ensures var s' := Step(c, s, l);
            && s'.now == s.now
            && (forall h :: h in s'.handlings ==> h in s.handlings && s'.handlings[h] == s.handlings[h])
            && forall p :: p in s'.pumps ==> p in s.pumps && forall j :: j in s'.pumps[p] ==> j in s.pumps[p]
  {
    match l
    case MoveRetry(p) => assert forall j :: j in s.pumps[p][1..] ==> j in s.pumps[p];
    case _ =>
  }

  lemma BoundedStep(c: Config, s: System, l: Label)
    requires Bounded(c, s) && CanStep(c, s, l) && EnqueuesFresh(s, l) && s.now >= 1
    ensures Bounded(c, Step(c, s, l))
  {
    if MovesJobs(l) {
      BoundedMoved(c, s, l);
      MovingKeepsMemory(c, s, l);
    } else if l.ListRetries? {
      BoundedList(c, s, l);
    } else {
      BoundedElsewhere(c, s, l);
    }
  }

  lemma BoundedList(c: Config, s: System, l: Label)
    requires Bounded(c, s) && CanStep(c, s, l) && l.ListRetries?
    ensures Bounded(c, Step(c, s, l))
  {
    assert forall j :: j in l.items ==> InFlight(c, s.now, j);
  }

  lemma BoundedElsewhere(c: Config, s: System, l: Label)
    requires Bounded(c, s) && CanStep(c, s, l) && !MovesJobs(l) && !l.ListRetries?
    ensures Bounded(c, Step(c, s, l))
  {
    var s' := Step(c, s, l);
    KeepsJobs(c, s, l);
    forall h | h in s'.handlings ensures InFlight(c, s.now, s'.handlings[h].delivery.job) {
      if l.Receive? && h == l.h { assert InFlight(c, s.now, s.broker.jobs[l.message]); }
      if l.Steal? && h == l.h { assert InFlight(c, s.now, s.broker.jobs[l.message]); }
    }
  }

  lemma KeepsJobs(c: Config, s: System, l: Label)
    requires CanStep(c, s, l) && !MovesJobs(l) && !l.ListRetries?
    ensures var s' := Step(c, s, l);
            && s'.broker.jobs == s.broker.jobs && s'.broker.retry == s.broker.retry && s'.broker.dead == s.broker.dead && s'.now >= s.now
            && forall p :: p in s'.pumps ==> p in s.pumps && s'.pumps[p] == s.pumps[p]
  {}

  /** For jobs enqueued at attempt 0: queued and retrying jobs stay within the retry
      limit, dead letters carry between 1 and one more than that, and no job is
      delivered before the delay of its last failure has passed. */
  lemma AttemptsAreBounded(c: Config, tr: seq<System>, ls: seq<Label>)
    requires IsRun(c, tr, ls) && tr[0] == Initial()
    requires forall i :: 0 <= i < |ls| ==> EnqueuesFresh(tr[i], ls[i])
    ensures forall i :: 0 <= i < |tr| ==> Bounded(c, tr[i])
  {
    var inv, ok := (s: System) => Bounded(c, s) && s.now >= 1, (s: System, l: Label) => EnqueuesFresh(s, l);
    forall s, l | inv(s) && ok(s, l) && CanStep(c, s, l) ensures inv(Step(c, s, l)) {
      BoundedStep(c, s, l);
    }
    Invariance(c, inv, ok, tr, ls);
  }

  // ---- failures ----

  /** The failure that a handling reports in a step, and the job with this attempt counted. */
  ghost predicate Fails(s: System, l: Label, h: nat, retryable: bool, j: Job) {
    && l == Fail(h) && InPhase(s, h, Failed(retryable))
    && j == s.handlings[h].delivery.job.(attempt := s.handlings[h].delivery.job.attempt + 1)
  }

  /** The job waits in the retry set since a step that reported a retryable failure with an
      attempt left, and is due when its backoff has passed. */
  ghost predicate Earned(c: Config, tr: seq<System>, ls: seq<Label>, n: nat, j: Job)
    requires |tr| == |ls| + 1 && n < |ls|
  {
    exists h, k: Job :: Fails(tr[n], ls[n], h, true, k) && k.attempt <= c.retries.maximum
      && j == k.(availableAt := tr[n].now + Backoff(c.retries.base, k.attempt))
  }

  /** The entry is in the dead-letter stream since a step that reported a permanent failure
      or one with no attempt left. */
  ghost predicate GivenUp(c: Config, tr: seq<System>, ls: seq<Label>, n: nat, j: Job)
    requires |tr| == |ls| + 1 && n < |ls|
  {
    exists h, retryable :: Fails(tr[n], ls[n], h, retryable, j) && (retryable ==> j.attempt > c.retries.maximum)
  }

  lemma OnlyFailuresWait(c: Config, s: System, l: Label, h: nat)
    requires CanStep(c, s, l)
    ensures var b, b' := s.broker, Step(c, s, l).broker;
            if l == Fail(h) then
              var j, retryable := s.handlings[h].delivery.job.(attempt := s.handlings[h].delivery.job.attempt + 1), s.handlings[h].phase.retryable;
              if retryable && j.attempt <= c.retries.maximum
              then b'.dead == b.dead && b'.retry == b.retry + {j.(availableAt := s.now + Backoff(c.retries.base, j.attempt))}
              else b'.retry == b.retry && b'.dead == b.dead[b.nextId := j]
            else !l.Fail? ==> b'.retry <= b.retry && forall m :: m in b'.dead ==> m in b.dead && b'.dead[m] == b.dead[m]
  {
    if l == Fail(h) {
      FailuresAreSorted(c.retries, s.broker, s.handlings[h].delivery, s.handlings[h].phase.retryable, s.now);
    }
  }

  /** Over a whole run, whatever waits for another attempt earned it by a retryable failure
      with an attempt left, and whatever is a dead letter was given up. */
  lemma {:induction false} FailuresAreEarned(c: Config, tr: seq<System>, ls: seq<Label>, i: nat)
    requires IsRun(c, tr, ls) && tr[0] == Initial() && i < |tr|
    ensures forall j :: j in tr[i].broker.retry ==> exists n: nat :: n < i && Earned(c, tr, ls, n, j)
    ensures forall m :: m in tr[i].broker.dead ==> exists n: nat :: n < i && GivenUp(c, tr, ls, n, tr[i].broker.dead[m])
  {
    if i > 0 {
      FailuresAreEarned(c, tr, ls, i - 1);
      var s, l := tr[i - 1], ls[i - 1];
      assert Follows(c, tr, ls, i - 1);
      OnlyFailuresWait(c, s, l, if l.Fail? then l.h else 0);
      forall j | j in tr[i].broker.retry ensures exists n: nat :: n < i && Earned(c, tr, ls, n, j) {
        if j !in s.broker.retry {
          var d := s.handlings[l.h].delivery.job;
          assert Fails(s, l, l.h, true, d.(attempt := d.attempt + 1));
          assert Earned(c, tr, ls, i - 1, j);
        }
      }
      forall m | m in tr[i].broker.dead ensures exists n: nat :: n < i && GivenUp(c, tr, ls, n, tr[i].broker.dead[m]) {
        if m !in s.broker.dead || s.broker.dead[m] != tr[i].broker.dead[m] {
          assert Fails(s, l, l.h, s.handlings[l.h].phase.retryable, tr[i].broker.dead[m]);
          assert GivenUp(c, tr, ls, i - 1, tr[i].broker.dead[m]);
        }
      }
    }
  }

  predicate EndsHandling(l: Label, h: nat) {
    l == Ack(h) || l == Fail(h) || l == Crash(h)
  }

  lemma {:induction false} VerdictStays(c: Config, tr: seq<System>, ls: seq<Label>, a: nat, b: nat, h: nat, retryable: bool)
    requires IsRun(c, tr, ls) && a <= b < |tr| && InPhase(tr[a], h, Failed(retryable))
    requires forall n :: a <= n < b ==> !EndsHandling(ls[n], h)
    ensures InPhase(tr[b], h, Failed(retryable)) && tr[b].handlings[h].delivery == tr[a].handlings[h].delivery
  {
    if a < b {
      VerdictStays(c, tr, ls, a, b - 1, h, retryable);
      assert Follows(c, tr, ls, b - 1);
    }
  }

  /** Once a handling refuses its delivery or hears from the provider that it failed for
      good, the failure that it reports at any later step is a dead letter: the retry set
      stays as it was, whatever everybody else did in between. */
  lemma PermanentFailuresAreFinal(c: Config, tr: seq<System>, ls: seq<Label>, a: nat, b: nat, h: nat)
    requires IsRun(c, tr, ls) && a < b < |ls| && ls[b] == Fail(h)
    requires ls[a] == Reject(h) || ls[a] == Return(h, false, false)
    requires forall n :: a < n < b ==> !EndsHandling(ls[n], h)
    ensures h in tr[a].handlings
    ensures var j := tr[a].handlings[h].delivery.job;
            && tr[b + 1].broker.retry == tr[b].broker.retry
            && tr[b + 1].broker.dead == tr[b].broker.dead[tr[b].broker.nextId := j.(attempt := j.attempt + 1)]
  {
    assert Follows(c, tr, ls, a) && Follows(c, tr, ls, b);
    VerdictStays(c, tr, ls, a + 1, b, h, false);
    OnlyFailuresWait(c, tr[b], ls[b], h);
  }

  /** And one that may be tried again waits its backoff, for as long as attempts are left. */
  lemma RetryableFailuresWait(c: Config, tr: seq<System>, ls: seq<Label>, a: nat, b: nat, h: nat)
    requires IsRun(c, tr, ls) && a < b < |ls| && ls[b] == Fail(h)
    requires ls[a] == LoseArtifact(h) || ls[a] == Return(h, false, true)
    requires forall n :: a < n < b ==> !EndsHandling(ls[n], h)
    ensures h in tr[a].handlings
    ensures var j := tr[a].handlings[h].delivery.job;
            && (j.attempt < c.retries.maximum ==>
                  && tr[b + 1].broker.dead == tr[b].broker.dead
                  && tr[b + 1].broker.retry == tr[b].broker.retry
                       + {j.(attempt := j.attempt + 1, availableAt := tr[b].now + Backoff(c.retries.base, j.attempt + 1))})
            && (j.attempt >= c.retries.maximum ==>
                  && tr[b + 1].broker.retry == tr[b].broker.retry
                  && tr[b + 1].broker.dead == tr[b].broker.dead[tr[b].broker.nextId := j.(attempt := j.attempt + 1)])
  {
    assert Follows(c, tr, ls, a) && Follows(c, tr, ls, b);
    VerdictStays(c, tr, ls, a + 1, b, h, true);
    OnlyFailuresWait(c, tr[b], ls[b], h);
  }

  // ---- results ----

  ghost predicate RowsVouched(c: Config, rows: map<string, Row>, ever: set<string>) {
    forall id :: id in rows ==> rows[id].key == c.keyOf(id) && (rows[id].succeeded ==> rows[id].key in ever)
  }

  ghost predicate ResultsVouched(results: seq<Completion>, ever: set<string>) {
    forall i :: 0 <= i < |results| ==> results[i].key in ever
  }

  ghost predicate Vouched(c: Config, s: System) {
    && RowsVouched(c, s.rows, s.everSucceeded)
    && (forall h :: h in s.handlings && s.handlings[h].phase.Closing? ==> s.handlings[h].phase.result.key in s.everSucceeded)
    && ResultsVouched(s.broker.results, s.everSucceeded)
  }

  lemma RowsVouchedStep(c: Config, s: System, l: Label)
    requires Sound(c, s) && RowsVouched(c, s.rows, s.everSucceeded) && CanStep(c, s, l)
    ensures RowsVouched(c, Step(c, s, l).rows, Step(c, s, l).everSucceeded)
    ensures s.everSucceeded <= Step(c, s, l).everSucceeded
  {
    if l.Persist? { assert HandlingOk(c, s.broker, s.handlings[l.h]); }
  }

  lemma ResultsVouchedStep(c: Config, s: System, l: Label)
    requires Vouched(c, s) && CanStep(c, s, l)
    ensures ResultsVouched(Step(c, s, l).broker.results, s.everSucceeded)
  {
    var results, results' := s.broker.results, Step(c, s, l).broker.results;
    if l.Ack? {
      assert results' == results + [s.handlings[l.h].phase.result];
    } else {
      assert results' == results;
    }
  }

  lemma ClosingVouched(c: Config, s: System, l: Label, h: nat)
    requires c.keyed && Sound(c, s) && Vouched(c, s) && CanStep(c, s, l)
    requires h in Step(c, s, l).handlings && Step(c, s, l).handlings[h].phase.Closing?
    ensures Step(c, s, l).handlings[h].phase.result.key in Step(c, s, l).everSucceeded
  {
    if l.Check? && l.h == h {
      var key := s.handlings[h].delivery.job.key;
      var id :| id in s.rows && s.rows[id].key == key && s.rows[id].succeeded;
    } else if l.Persist? && l.h == h {
      assert HandlingOk(c, s.broker, s.handlings[h]);
    } else {
      assert h in s.handlings && s.handlings[h] == Step(c, s, l).handlings[h];
    }
  }

  lemma VouchedStep(c: Config, s: System, l: Label)
    requires c.keyed && Sound(c, s) && Vouched(c, s) && CanStep(c, s, l)
    ensures Vouched(c, Step(c, s, l))
  {
    var s' := Step(c, s, l);
    RowsVouchedStep(c, s, l);
    ResultsVouchedStep(c, s, l);
    forall h | h in s'.handlings && s'.handlings[h].phase.Closing? ensures s'.handlings[h].phase.result.key in s'.everSucceeded {
      ClosingVouched(c, s, l, h);
    }
  }

  /** With jobs that carry the key of their step run, every result was published for a
      key whose success had been persisted, whatever crashed between persisting and
      acknowledging. */
  lemma ResultsArePersisted(c: Config, tr: seq<System>, ls: seq<Label>)
    requires c.keyed && IsRun(c, tr, ls) && tr[0] == Initial()
    ensures forall i, k :: 0 <= i < |tr| && 0 <= k < |tr[i].broker.results| ==> tr[i].broker.results[k].key in tr[i].everSucceeded
  {
    var inv, ok := (s: System) => Sound(c, s) && Vouched(c, s), (s: System, l: Label) => true;
    forall s, l | inv(s) && ok(s, l) && CanStep(c, s, l) ensures inv(Step(c, s, l)) {
      SoundStep(c, s, l);
      VouchedStep(c, s, l);
    }
    Invariance(c, inv, ok, tr, ls);
    forall i, k | 0 <= i < |tr| && 0 <= k < |tr[i].broker.results| ensures tr[i].broker.results[k].key in tr[i].everSucceeded {
      assert inv(tr[i]);
    }
  }

  // ---- no execution after success ----

  /** The handlings that passed the check for `key` and have not started the provider. */
  function Armed(s: System, key: string): set<nat> {
    set h | h in s.handlings && s.handlings[h].phase == Cleared && s.handlings[h].delivery.job.key == key
  }

  function Runs(executions: seq<string>, key: string): nat {
    multiset(executions)[key]
  }

  /** The runs of the provider for `key`, and those that may still come from handlings
      that have passed the check. */
  function Exposure(s: System, key: string): nat {
    Runs(s.executions, key) + |Armed(s, key)|
  }

  predicate ChecksKey(s: System, l: Label, key: string) {
    l.Check? && l.h in s.handlings && s.handlings[l.h].delivery.job.key == key
  }

  lemma ArmedStart(c: Config, s: System, h: nat, key: string)
    requires CanStep(c, s, Start(h))
    ensures Runs(Step(c, s, Start(h)).executions, key) + |Armed(Step(c, s, Start(h)), key)| <= Runs(s.executions, key) + |Armed(s, key)|
  {
    var s' := Step(c, s, Start(h));
    var before, after := Armed(s, key), Armed(s', key);
    assert s'.executions == s.executions + [s.handlings[h].delivery.job.key];
    if s.handlings[h].delivery.job.key == key {
      assert h in before && after <= before - {h};
      SubsetSize(after, before - {h});
    } else {
      SubsetSize(after, before);
    }
  }

  /** Only a check that finds no persisted success lets a handling pass. */
  lemma NobodyIsArmed(c: Config, s: System, l: Label, key: string)
    requires CanStep(c, s, l) && (ChecksKey(s, l, key) ==> KeySucceeded(s, key))
    ensures Armed(Step(c, s, l), key) <= Armed(s, key)
    ensures !l.Start? ==> Step(c, s, l).executions == s.executions
  {}

  lemma ArmedByCheck(c: Config, s: System, l: Label, key: string)
    requires CanStep(c, s, l) && ChecksKey(s, l, key) && !KeySucceeded(s, key)
    ensures Exposure(Step(c, s, l), key) == Exposure(s, key) + 1
    ensures CanStep(c, Step(c, s, l), Start(l.h))
    ensures Runs(Step(c, Step(c, s, l), Start(l.h)).executions, key) == Runs(s.executions, key) + 1
  {
    assert Armed(Step(c, s, l), key) == Armed(s, key) + {l.h} && l.h !in Armed(s, key);
  }

  /** In one step more runs become possible exactly if a delivery of the key is checked
      while no row of it is persisted as succeeded. */
  lemma ExposureStep(c: Config, s: System, l: Label, key: string)
    requires CanStep(c, s, l)
    ensures Exposure(Step(c, s, l), key) > Exposure(s, key) <==> ChecksKey(s, l, key) && !KeySucceeded(s, key)
  {
    if ChecksKey(s, l, key) && !KeySucceeded(s, key) {
      ArmedByCheck(c, s, l, key);
    } else if l.Start? {
      ArmedStart(c, s, l.h, key);
    } else {
      NobodyIsArmed(c, s, l, key);
      SubsetSize(Armed(Step(c, s, l), key), Armed(s, key));
    }
  }

  /** Every delivery of the key that is checked between the two moments finds a success. */
  ghost predicate ChecksFindSuccess(tr: seq<System>, ls: seq<Label>, key: string, i: nat, j: nat)
    requires |tr| == |ls| + 1 && i <= j < |tr|
  {
    forall k :: i <= k < j && ChecksKey(tr[k], ls[k], key) ==> KeySucceeded(tr[k], key)
  }

  ghost predicate NoNewRuns(tr: seq<System>, key: string, i: nat, j: nat)
    requires i <= j < |tr|
  {
    forall k :: i <= k < j ==> Exposure(tr[k + 1], key) <= Exposure(tr[k], key)
  }

  /** From moment `i` on, the provider of a key runs for no other delivery than those that
      had already passed the check, exactly as long as every check of the key finds a
      persisted success. */
  lemma FinishedKeysStayFinished(c: Config, tr: seq<System>, ls: seq<Label>, key: string, i: nat, j: nat)
    requires IsRun(c, tr, ls) && i <= j < |tr|
    ensures ChecksFindSuccess(tr, ls, key, i, j) <==> NoNewRuns(tr, key, i, j)
    ensures ChecksFindSuccess(tr, ls, key, i, j) ==> Exposure(tr[j], key) <= Exposure(tr[i], key)
  {
    forall k | i <= k < j
      ensures Exposure(tr[k + 1], key) > Exposure(tr[k], key) <==> ChecksKey(tr[k], ls[k], key) && !KeySucceeded(tr[k], key)
    {
      assert Follows(c, tr, ls, k);
      ExposureStep(c, tr[k], ls[k], key);
    }
    if ChecksFindSuccess(tr, ls, key, i, j) {
      assert NoNewRuns(tr, key, i, j);
      ExposureFalls(tr, key, i, j);
    }
    if NoNewRuns(tr, key, i, j) {
      forall k | i <= k < j && ChecksKey(tr[k], ls[k], key) ensures KeySucceeded(tr[k], key) {
        assert Exposure(tr[k + 1], key) <= Exposure(tr[k], key);
      }
    }
  }

  lemma {:induction false} ExposureFalls(tr: seq<System>, key: string, i: nat, j: nat)
    requires i <= j < |tr| && NoNewRuns(tr, key, i, j)
    ensures Exposure(tr[j], key) <= Exposure(tr[i], key)
    decreases j
  {
    if i < j { ExposureFalls(tr, key, i, j - 1); }
  }

  // ---- what a check finds ----

  /** The step writes row `id`. */
  predicate WritesRow(s: System, l: Label, id: string) {
    (l.SaveRow? && l.stepRun == id) || (l.Persist? && l.h in s.handlings && s.handlings[l.h].delivery.job.stepRun == id)
  }

  predicate WritesSuccess(s: System, l: Label, id: string) {
    WritesRow(s, l, id) && (l.SaveRow? ==> l.succeeded)
  }

  /** The last write to row `id` before moment `k` was at `w`, and it was a success. */
  ghost predicate LastWriteSucceeded(tr: seq<System>, ls: seq<Label>, id: string, w: nat, k: nat)
    requires |tr| == |ls| + 1 && k < |tr|
  {
    w < k && WritesSuccess(tr[w], ls[w], id) && forall v :: w < v < k ==> !WritesRow(tr[v], ls[v], id)
  }

  lemma RowWritten(c: Config, s: System, l: Label, id: string)
    requires CanStep(c, s, l)
    ensures var s' := Step(c, s, l);
            if WritesRow(s, l, id) then id in s'.rows && s'.rows[id].succeeded == WritesSuccess(s, l, id)
            else (id in s'.rows <==> id in s.rows) && (id in s.rows ==> s'.rows[id] == s.rows[id])
  {}

  lemma {:induction false} RowIsLastWrite(c: Config, tr: seq<System>, ls: seq<Label>, id: string, k: nat)
    requires IsRun(c, tr, ls) && tr[0] == Initial() && k < |tr|
    ensures id in tr[k].rows && tr[k].rows[id].succeeded <==> exists w: nat :: LastWriteSucceeded(tr, ls, id, w, k)
    decreases k
  {
    if k > 0 {
      var n := k - 1;
      RowIsLastWrite(c, tr, ls, id, n);
      assert Follows(c, tr, ls, n);
      RowWritten(c, tr[n], ls[n], id);
      if WritesRow(tr[n], ls[n], id) {
        if WritesSuccess(tr[n], ls[n], id) { assert LastWriteSucceeded(tr, ls, id, n, k); }
        if w: nat :| LastWriteSucceeded(tr, ls, id, w, k) { assert w == n; }
      } else {
        if w: nat :| LastWriteSucceeded(tr, ls, id, w, n) { assert LastWriteSucceeded(tr, ls, id, w, k); }
        if w: nat :| LastWriteSucceeded(tr, ls, id, w, k) { assert w != n && LastWriteSucceeded(tr, ls, id, w, n); }
      }
    }
  }

  lemma RowsInRuns(c: Config, tr: seq<System>, ls: seq<Label>)
    requires IsRun(c, tr, ls) && tr[0] == Initial()
    ensures forall i :: 0 <= i < |tr| ==> Sound(c, tr[i]) && RowsVouched(c, tr[i].rows, tr[i].everSucceeded)
  {
    var inv, ok := (s: System) => Sound(c, s) && RowsVouched(c, s.rows, s.everSucceeded), (s: System, l: Label) => true;
    forall s, l | inv(s) && ok(s, l) && CanStep(c, s, l) ensures inv(Step(c, s, l)) {
      SoundStep(c, s, l);
      RowsVouchedStep(c, s, l);
    }
    Invariance(c, inv, ok, tr, ls);
  }

  /** A check finds a success exactly if some row of the key has one as its last write. */
  lemma SuccessIsLastWrite(c: Config, tr: seq<System>, ls: seq<Label>, key: string, k: nat)
    requires IsRun(c, tr, ls) && tr[0] == Initial() && k < |tr|
    ensures KeySucceeded(tr[k], key) <==> exists id, w: nat :: c.keyOf(id) == key && LastWriteSucceeded(tr, ls, id, w, k)
  {
    RowsInRuns(c, tr, ls);
    assert RowsVouched(c, tr[k].rows, tr[k].everSucceeded);
    if KeySucceeded(tr[k], key) {
      var id :| id in tr[k].rows && tr[k].rows[id].key == key && tr[k].rows[id].succeeded;
      RowIsLastWrite(c, tr, ls, id, k);
    }
    if id, w: nat :| c.keyOf(id) == key && LastWriteSucceeded(tr, ls, id, w, k) {
      RowIsLastWrite(c, tr, ls, id, k);
      assert tr[k].rows[id].key == key;
    }
  }

  // ---- a success that is overwritten ----

  lemma OneMore(c: Config, tr: seq<System>, ls: seq<Label>, l: Label) returns (tr': seq<System>, ls': seq<Label>)
    requires IsRun(c, tr, ls) && CanStep(c, tr[|tr| - 1], l)
    ensures IsRun(c, tr', ls') && tr <= tr' && |tr'| == |tr| + 1 && tr'[|tr|] == Step(c, tr[|tr| - 1], l)
  {
    RunExtended(c, tr, ls, l);
    tr', ls' := tr + [Step(c, tr[|tr| - 1], l)], ls + [l];
  }

  function TwiceQueued(c: Config, id: string): Job {
    Job("job", "action", id, c.keyOf(id), 0, 1, 1)
  }

  lemma QueuedTwice(c: Config, id: string) returns (tr: seq<System>, ls: seq<Label>)
    ensures IsRun(c, tr, ls) && tr[0] == Initial()
    ensures var s, j := tr[|tr| - 1], TwiceQueued(c, id);
            && s.rows == map[id := Row(c.keyOf(id), false)] && s.handlings == map[] && s.executions == []
            && s.broker.jobs == map[0 := j, 1 := j] && s.broker.cursor == 0
  {
    var j := TwiceQueued(c, id);
    tr, ls := [Initial()], [];
    tr, ls := OneMore(c, tr, ls, SaveRow(id, false));
    tr, ls := OneMore(c, tr, ls, Enqueue(j, "fresh"));
    tr, ls := OneMore(c, tr, ls, Enqueue(j, "fresh"));
  }

  lemma Received(c: Config, tr: seq<System>, ls: seq<Label>, h: nat, m: nat) returns (tr': seq<System>, ls': seq<Label>)
    requires IsRun(c, tr, ls) && h !in tr[|tr| - 1].handlings && IsNext(tr[|tr| - 1].broker, m)
    requires !KeySucceeded(tr[|tr| - 1], tr[|tr| - 1].broker.jobs[m].key)
    ensures IsRun(c, tr', ls') && tr <= tr'
    ensures var s, s' := tr[|tr| - 1], tr'[|tr'| - 1];
            && s'.rows == s.rows && s'.broker.jobs == s.broker.jobs && s'.broker.cursor == m + 1
            && s'.handlings == s.handlings[h := Handling(Delivery(m, s.broker.jobs[m]), Running)]
            && s'.executions == s.executions + [s.broker.jobs[m].key]
  {
    var s := tr[|tr| - 1];
    tr', ls' := OneMore(c, tr, ls, Receive(h, m, "worker"));
    assert tr'[|tr'| - 1].rows == s.rows;
    tr', ls' := OneMore(c, tr', ls', Check(h));
    assert tr'[|tr'| - 1].handlings == s.handlings[h := Handling(Delivery(m, s.broker.jobs[m]), Cleared)];
    tr', ls' := OneMore(c, tr', ls', Start(h));
  }

  /** A running provider succeeds, and its success is persisted and then overwritten. */
  lemma Overwritten(c: Config, tr: seq<System>, ls: seq<Label>, h: nat, id: string) returns (tr': seq<System>, ls': seq<Label>, i: nat)
    requires IsRun(c, tr, ls)
    requires var s := tr[|tr| - 1];
             && s.handlings.Keys == {h} && s.handlings[h].phase == Running && s.handlings[h].delivery.job.stepRun == id
             && s.rows == map[id := Row(c.keyOf(id), false)]
    ensures IsRun(c, tr', ls') && tr <= tr' && i < |tr'|
    ensures KeySucceeded(tr'[i], c.keyOf(id)) && Armed(tr'[i], c.keyOf(id)) == {} && tr'[i].executions == tr[|tr| - 1].executions
    ensures var s, s' := tr[|tr| - 1], tr'[|tr'| - 1];
            && s'.rows == s.rows && s'.broker == s.broker && s'.executions == s.executions && s'.handlings.Keys == {h}
  {
    var s, key := tr[|tr| - 1], c.keyOf(id);
    tr', ls' := OneMore(c, tr, ls, Return(h, true, false));
    assert tr'[|tr'| - 1] == GoTo(s, h, Succeeded);
    tr', ls' := OneMore(c, tr', ls', Persist(h));
    i := |tr'| - 1;
    PersistedSuccess(c, GoTo(s, h, Succeeded), h, id);
    tr', ls' := OneMore(c, tr', ls', SaveRow(id, false));
  }

  lemma PersistedSuccess(c: Config, s: System, h: nat, id: string)
    requires s.handlings.Keys == {h} && s.handlings[h].phase == Succeeded && s.handlings[h].delivery.job.stepRun == id
    requires s.rows == map[id := Row(c.keyOf(id), false)]
    ensures CanStep(c, s, Persist(h))
    ensures var s' := Step(c, s, Persist(h));
            && KeySucceeded(s', c.keyOf(id)) && Armed(s', c.keyOf(id)) == {}
            && s'.rows == map[id := Row(c.keyOf(id), true)] && s'.handlings.Keys == {h}
            && s'.broker == s.broker && s'.executions == s.executions
  {
    var s' := Step(c, s, Persist(h));
    assert s'.rows[id].succeeded;
  }

  /** The success is persisted, a workflow save overwrites the row, and the second delivery
      of the key passes the check and runs the provider again. */
  lemma OverwrittenSuccessRunsAgain(c: Config, id: string) returns (tr: seq<System>, ls: seq<Label>, i: nat)
    ensures IsRun(c, tr, ls) && tr[0] == Initial() && i < |tr|
    ensures KeySucceeded(tr[i], c.keyOf(id)) && Exposure(tr[i], c.keyOf(id)) == 1
    ensures Runs(tr[|tr| - 1].executions, c.keyOf(id)) == 2
  {
    var key := c.keyOf(id);
    tr, ls := QueuedTwice(c, id);
    tr, ls := Received(c, tr, ls, 0, 0);
    assert tr[|tr| - 1].executions == [key];
    tr, ls, i := Overwritten(c, tr, ls, 0, id);
    tr, ls := Received(c, tr, ls, 1, 1);
    assert tr[|tr| - 1].executions == [key] + [key];
  }
}
