/** The delivery protocol: any number of workers, retry pumps and operators over one
    broker and one result table, interleaved at every transaction, each of which may
    crash between any two of its transactions. */
module Worker {
  import opened Queue

  datatype Row = Row(key: string, succeeded: bool)

  /** Where the handling of one delivery stands. */
  datatype Phase =
    | Received
    | Cleared
    | Running
    | Succeeded
    | Closing(result: Completion)
    | Failed(retryable: bool)

  datatype Handling = Handling(delivery: Delivery, phase: Phase)

  /** An operator's replay of a dead letter. */
  datatype Replay = Replay(message: nat, job: Job, enqueued: bool)

  /** `enqueued`, `executions`, `everSucceeded` and `replayed` record the past. */
  datatype System = System(
    broker: Broker,
    rows: map<string, Row>,
    handlings: map<nat, Handling>,
    pumps: map<nat, seq<Job>>,
    replays: map<nat, Replay>,
    now: int,
    enqueued: set<Job>,
    executions: seq<string>,
    everSucceeded: set<string>,
    replayed: set<nat>)

  /** `keyOf` is the idempotency key of a step run, and `keyed` says that jobs come with
      the key of their step run. */
  datatype Config = Config(retries: Retries, keyOf: string -> string, keyed: bool)

  datatype Label =
    | Tick(now: int)
    | Enqueue(job: Job, freshId: string)
    | SaveRow(stepRun: string, succeeded: bool)
    | Receive(h: nat, message: nat, consumer: string)
    | Steal(h: nat, message: nat, consumer: string)
    | Touch(h: nat, consumer: string)
    | Check(h: nat)
    | Reject(h: nat)
    | Start(h: nat)
    | Return(h: nat, ok: bool, retryable: bool)
    | LoseArtifact(h: nat)
    | Persist(h: nat)
    | Ack(h: nat)
    | Fail(h: nat)
    | Crash(h: nat)
    | ListRetries(p: nat, items: seq<Job>)
    | MoveRetry(p: nat)
    | StopPump(p: nat)
    | FindDead(r: nat, message: nat)
    | Revive(r: nat)
    | Remove(r: nat)
    | AbandonReplay(r: nat)

  predicate InPhase(s: System, h: nat, p: Phase) {
    h in s.handlings && s.handlings[h].phase == p
  }

  /** The lookup by idempotency key. */
  predicate KeySucceeded(s: System, key: string) {
    exists id :: id in s.rows && s.rows[id].key == key && s.rows[id].succeeded
  }

  predicate CanStep(c: Config, s: System, l: Label) {
    match l
    case Tick(now) => s.now <= now
    case Enqueue(j, freshId) => c.keyed ==> j.key == c.keyOf(j.stepRun)
    case SaveRow(id, succeeded) => true
    case Receive(h, m, consumer) => h !in s.handlings && IsNext(s.broker, m)
    case Steal(h, m, consumer) => h !in s.handlings && m in s.broker.pending && m in s.broker.jobs
    case Touch(h, consumer) => h in s.handlings
    case Check(h) => InPhase(s, h, Received)
    case Reject(h) => InPhase(s, h, Cleared)
    case Start(h) => InPhase(s, h, Cleared)
    case Return(h, ok, retryable) => InPhase(s, h, Running)
    case LoseArtifact(h) => InPhase(s, h, Succeeded)
    case Persist(h) => InPhase(s, h, Succeeded) && s.handlings[h].delivery.job.stepRun in s.rows
    case Ack(h) => h in s.handlings && s.handlings[h].phase.Closing?
    case Fail(h) => h in s.handlings && s.handlings[h].phase.Failed?
    case Crash(h) => h in s.handlings
    case ListRetries(p, items) => p !in s.pumps && forall j :: j in items ==> j in s.broker.retry && Due(j, s.now)
    case MoveRetry(p) => p in s.pumps && s.pumps[p] != []
    case StopPump(p) => p in s.pumps
    case FindDead(r, m) => r !in s.replays && m in s.broker.dead
    case Revive(r) => r in s.replays && !s.replays[r].enqueued
    case Remove(r) => r in s.replays && s.replays[r].enqueued
    case AbandonReplay(r) => r in s.replays
  }

  function GoTo(s: System, h: nat, p: Phase): System
    requires h in s.handlings
  {
    s.(handlings := s.handlings[h := s.handlings[h].(phase := p)])
  }

  /** A row keeps the key it was created with. */
  function StoreRow(s: System, id: string, key: string, succeeded: bool): System {
    var kept := if id in s.rows then s.rows[id].key else key;
    s.(rows := s.rows[id := Row(kept, succeeded)],
       everSucceeded := if succeeded then s.everSucceeded + {kept} else s.everSucceeded)
  }

  function Done(j: Job): Completion {
    Completion(j.action, j.key)
  }

  function Step(c: Config, s: System, l: Label): System
    requires CanStep(c, s, l)
  {
    match l
    case Tick(now) => s.(now := now)
    case Enqueue(j, freshId) =>
      var job := Stamp(j, freshId, s.now);
      s.(broker := Add(s.broker, job), enqueued := s.enqueued + {job})
    case SaveRow(id, succeeded) => StoreRow(s, id, c.keyOf(id), succeeded)
    case Receive(h, m, consumer) =>
      s.(broker := Deliver(s.broker, m, consumer), handlings := s.handlings[h := Handling(Delivery(m, s.broker.jobs[m]), Received)])
    case Steal(h, m, consumer) =>
      s.(broker := Claim(s.broker, m, consumer), handlings := s.handlings[h := Handling(Delivery(m, s.broker.jobs[m]), Received)])
    case Touch(h, consumer) => s.(broker := Claim(s.broker, s.handlings[h].delivery.message, consumer))
    case Check(h) =>
      var j := s.handlings[h].delivery.job;
      GoTo(s, h, if KeySucceeded(s, j.key) then Closing(Done(j)) else Cleared)
    case Reject(h) => GoTo(s, h, Failed(false))
    case Start(h) => GoTo(s, h, Running).(executions := s.executions + [s.handlings[h].delivery.job.key])
    case Return(h, ok, retryable) => GoTo(s, h, if ok then Succeeded else Failed(retryable))
    case LoseArtifact(h) => GoTo(s, h, Failed(true))
    case Persist(h) =>
      var j := s.handlings[h].delivery.job;
      GoTo(StoreRow(s, j.stepRun, j.key, true), h, Closing(Done(j)))
    case Ack(h) =>
      var hd := s.handlings[h];
      s.(broker := Acknowledge(s.broker, hd.delivery.message, hd.phase.result), handlings := s.handlings - {h})
    case Fail(h) =>
      var hd := s.handlings[h];
      s.(broker := Failing(c.retries, s.broker, hd.delivery, hd.phase.retryable, s.now), handlings := s.handlings - {h})
    case Crash(h) => s.(handlings := s.handlings - {h})
    case ListRetries(p, items) => s.(pumps := s.pumps[p := items])
    case MoveRetry(p) => s.(broker := Move(s.broker, s.pumps[p][0]), pumps := s.pumps[p := s.pumps[p][1..]])
    case StopPump(p) => s.(pumps := s.pumps - {p})
    case FindDead(r, m) => s.(replays := s.replays[r := Replay(m, s.broker.dead[m], false)])
    case Revive(r) =>
      var rp := s.replays[r];
      s.(broker := Add(s.broker, Stamp(Revived(rp.job, s.now), rp.job.id, s.now)),
         replays := s.replays[r := rp.(enqueued := true)],
         replayed := s.replayed + {rp.message})
    case Remove(r) => s.(broker := Bury(s.broker, s.replays[r].message), replays := s.replays - {r})
    case AbandonReplay(r) => s.(replays := s.replays - {r})
  }

  function Initial(): System {
    System(Broker(map[], 0, 0, map[], {}, map[], []), map[], map[], map[], map[], 1, {}, [], {}, {})
  }

  // ---- what every step keeps ----

  /** Two states of one job: all but the attempt and the time it becomes available. */
  predicate SameJob(a: Job, b: Job) {
    a.(attempt := b.attempt, availableAt := b.availableAt) == b
  }

  /** A stamped job, with the key of its step run where jobs are keyed. */
  ghost predicate GoodJob(c: Config, j: Job) {
    (c.keyed ==> j.key == c.keyOf(j.stepRun)) && j.enqueuedAt != 0
  }

  ghost predicate BrokerOk(c: Config, b: Broker) {
    && b.cursor <= b.nextId
    && (forall m :: m in b.jobs ==> m < b.nextId && GoodJob(c, b.jobs[m]))
    && (forall m :: m in b.dead ==> m < b.nextId && GoodJob(c, b.dead[m]))
    && (forall j :: j in b.retry ==> GoodJob(c, j))
  }

  /** A handled delivery is the entry it came from, for as long as that entry exists. */
  ghost predicate HandlingOk(c: Config, b: Broker, hd: Handling) {
    && hd.delivery.message < b.nextId && GoodJob(c, hd.delivery.job)
    && (hd.delivery.message in b.jobs ==> b.jobs[hd.delivery.message] == hd.delivery.job)
    && (hd.phase.Closing? ==> hd.phase.result == Done(hd.delivery.job))
  }

  ghost predicate ReplayOk(c: Config, s: System, rp: Replay) {
    && rp.message < s.broker.nextId && GoodJob(c, rp.job)
    && (rp.message in s.broker.dead ==> s.broker.dead[rp.message] == rp.job)
    && (rp.enqueued ==> rp.message in s.replayed)
  }

  ghost predicate Sound(c: Config, s: System) {
    && BrokerOk(c, s.broker)
    && (forall h :: h in s.handlings ==> HandlingOk(c, s.broker, s.handlings[h]))
    && (forall p, j :: p in s.pumps && j in s.pumps[p] ==> GoodJob(c, j))
    && (forall r :: r in s.replays ==> ReplayOk(c, s, s.replays[r]))
    && (forall m :: m in s.replayed ==> m < s.broker.nextId)
    && s.now >= 1
  }

  /** A broker transaction disturbs nobody who holds a message: ids are never reused and
      entries never change. */
  ghost predicate Undisturbed(b: Broker, b': Broker) {
    && b.nextId <= b'.nextId
    && (forall m :: m in b'.jobs && m < b.nextId ==> m in b.jobs && b'.jobs[m] == b.jobs[m])
    && (forall m :: m in b'.dead && m < b.nextId ==> m in b.dead && b'.dead[m] == b.dead[m])
  }

  lemma SoundBroker(c: Config, s: System, b': Broker)
    requires Sound(c, s) && BrokerOk(c, b') && Undisturbed(s.broker, b')
    ensures Sound(c, s.(broker := b'))
  {}

  lemma SoundHandling(c: Config, s: System, h: nat, hd: Handling)
    requires Sound(c, s) && HandlingOk(c, s.broker, hd)
    ensures Sound(c, s.(handlings := s.handlings[h := hd]))
  {}

  lemma SoundForget(c: Config, s: System, h: nat)
    requires Sound(c, s)
    ensures Sound(c, s.(handlings := s.handlings - {h}))
  {}

  lemma AddOk(c: Config, b: Broker, j: Job)
    requires BrokerOk(c, b) && GoodJob(c, j)
    ensures BrokerOk(c, Add(b, j)) && Undisturbed(b, Add(b, j))
  {}

  lemma FinishOk(c: Config, b: Broker, m: nat)
    requires BrokerOk(c, b)
    ensures BrokerOk(c, Finish(b, m)) && Undisturbed(b, Finish(b, m))
  {}

  lemma FailingOk(c: Config, b: Broker, d: Delivery, retryable: bool, now: int)
    requires BrokerOk(c, b) && GoodJob(c, d.job)
    ensures BrokerOk(c, Failing(c.retries, b, d, retryable, now)) && Undisturbed(b, Failing(c.retries, b, d, retryable, now))
  {
    FinishOk(c, b, d.message);
  }

  lemma SoundMessage(c: Config, s: System, l: Label)
    requires Sound(c, s) && CanStep(c, s, l) && (l.Receive? || l.Steal? || l.Touch?)
    ensures Sound(c, Step(c, s, l))
  {
    match l
    case Receive(h, m, consumer) =>
      SoundBroker(c, s, Deliver(s.broker, m, consumer));
      SoundHandling(c, s.(broker := Deliver(s.broker, m, consumer)), h, Handling(Delivery(m, s.broker.jobs[m]), Received));
    case Steal(h, m, consumer) =>
      SoundBroker(c, s, Claim(s.broker, m, consumer));
      SoundHandling(c, s.(broker := Claim(s.broker, m, consumer)), h, Handling(Delivery(m, s.broker.jobs[m]), Received));
    case Touch(h, consumer) => SoundBroker(c, s, Claim(s.broker, s.handlings[h].delivery.message, consumer));
  }

  lemma SoundWork(c: Config, s: System, l: Label)
    requires Sound(c, s) && CanStep(c, s, l)
    requires l.Check? || l.Reject? || l.Start? || l.Return? || l.LoseArtifact? || l.Persist?
    ensures Sound(c, Step(c, s, l))
  {
    var h, s' := l.h, Step(c, s, l);
    assert s'.handlings == s.handlings[h := s'.handlings[h]];
    SoundHandling(c, s, h, s'.handlings[h]);
  }

  lemma SoundEnd(c: Config, s: System, l: Label)
    requires Sound(c, s) && CanStep(c, s, l) && (l.Ack? || l.Fail? || l.Crash?)
    ensures Sound(c, Step(c, s, l))
  {
    var hd := s.handlings[l.h];
    SoundForget(c, s, l.h);
    match l
    case Ack(h) =>
      FinishOk(c, s.broker, hd.delivery.message);
      SoundBroker(c, s.(handlings := s.handlings - {h}), Acknowledge(s.broker, hd.delivery.message, hd.phase.result));
    case Fail(h) =>
      FailingOk(c, s.broker, hd.delivery, hd.phase.retryable, s.now);
      SoundBroker(c, s.(handlings := s.handlings - {h}), Failing(c.retries, s.broker, hd.delivery, hd.phase.retryable, s.now));
    case Crash(h) =>
  }

  lemma SoundPump(c: Config, s: System, l: Label)
    requires Sound(c, s) && CanStep(c, s, l) && (l.ListRetries? || l.MoveRetry? || l.StopPump?)
    ensures Sound(c, Step(c, s, l))
  {
    match l
    case ListRetries(p, items) =>
    case MoveRetry(p) =>
      assert s.pumps[p][0] in s.pumps[p];
      AddOk(c, s.broker, s.pumps[p][0]);
      SoundBroker(c, s, Move(s.broker, s.pumps[p][0]));
    case StopPump(p) =>
  }

  lemma SoundRevived(c: Config, s: System, r: nat)
    requires Sound(c, s) && r in s.replays
    ensures Sound(c, s.(replays := s.replays[r := s.replays[r].(enqueued := true)], replayed := s.replayed + {s.replays[r].message}))
  {
    var s' := s.(replays := s.replays[r := s.replays[r].(enqueued := true)], replayed := s.replayed + {s.replays[r].message});
    forall q | q in s'.replays ensures ReplayOk(c, s', s'.replays[q]) {
      assert ReplayOk(c, s, s.replays[q]);
    }
  }

  lemma SoundRevive(c: Config, s: System, r: nat)
    requires Sound(c, s) && CanStep(c, s, Revive(r))
    ensures Sound(c, Step(c, s, Revive(r)))
  {
    var j := Stamp(Revived(s.replays[r].job, s.now), s.replays[r].job.id, s.now);
    assert ReplayOk(c, s, s.replays[r]);
    AddOk(c, s.broker, j);
    SoundBroker(c, s, Add(s.broker, j));
    SoundRevived(c, s.(broker := Add(s.broker, j)), r);
  }

  lemma SoundReplay(c: Config, s: System, l: Label)
    requires Sound(c, s) && CanStep(c, s, l) && (l.FindDead? || l.Revive? || l.Remove? || l.AbandonReplay?)
    ensures Sound(c, Step(c, s, l))
  {
    match l
    case FindDead(r, m) =>
    case Revive(r) => SoundRevive(c, s, r);
    case Remove(r) => SoundBroker(c, s, Bury(s.broker, s.replays[r].message));
    case AbandonReplay(r) =>
  }

  predicate IsWork(l: Label) {
    l.Check? || l.Reject? || l.Start? || l.Return? || l.LoseArtifact? || l.Persist?
  }

  lemma SoundHandlingStep(c: Config, s: System, l: Label)
    requires Sound(c, s) && CanStep(c, s, l)
    requires IsWork(l) || l.Receive? || l.Steal? || l.Touch? || l.Ack? || l.Fail? || l.Crash?
    ensures Sound(c, Step(c, s, l))
  {
    if IsWork(l) {
      SoundWork(c, s, l);
    } else if l.Receive? || l.Steal? || l.Touch? {
      SoundMessage(c, s, l);
    } else {
      SoundEnd(c, s, l);
    }
  }

  lemma SoundOutside(c: Config, s: System, l: Label)
    requires Sound(c, s) && CanStep(c, s, l) && (l.Tick? || l.SaveRow? || l.Enqueue?)
    ensures Sound(c, Step(c, s, l))
  {
    if l.Enqueue? {
      AddOk(c, s.broker, Stamp(l.job, l.freshId, s.now));
      SoundBroker(c, s, Add(s.broker, Stamp(l.job, l.freshId, s.now)));
    }
  }

  /** Every step of anybody keeps the books in order. */
  lemma SoundStep(c: Config, s: System, l: Label)
    requires Sound(c, s) && CanStep(c, s, l)
    ensures Sound(c, Step(c, s, l))
  {
    if l.Tick? || l.SaveRow? || l.Enqueue? {
      SoundOutside(c, s, l);
    } else if l.ListRetries? || l.MoveRetry? || l.StopPump? {
      SoundPump(c, s, l);
    } else if l.FindDead? || l.Revive? || l.Remove? || l.AbandonReplay? {
      SoundReplay(c, s, l);
    } else {
      SoundHandlingStep(c, s, l);
    }
  }

  // ---- runs ----

  ghost predicate IsRun(c: Config, tr: seq<System>, ls: seq<Label>) {
    && |tr| == |ls| + 1
    && forall i :: 0 <= i < |ls| ==> Follows(c, tr, ls, i)
  }

  ghost predicate Follows(c: Config, tr: seq<System>, ls: seq<Label>, i: nat)
    requires |tr| == |ls| + 1 && i < |ls|
  {
    CanStep(c, tr[i], ls[i]) && tr[i + 1] == Step(c, tr[i], ls[i])
  }

  lemma RunPrefix(c: Config, tr: seq<System>, ls: seq<Label>)
    requires IsRun(c, tr, ls) && ls != []
    ensures IsRun(c, tr[..|ls|], ls[..|ls| - 1])
  {
    var tr', ls' := tr[..|ls|], ls[..|ls| - 1];
    forall i | 0 <= i < |ls'| ensures Follows(c, tr', ls', i) {
      assert Follows(c, tr, ls, i);
    }
  }

  lemma RunExtended(c: Config, tr: seq<System>, ls: seq<Label>, l: Label)
    requires IsRun(c, tr, ls) && CanStep(c, tr[|ls|], l)
    ensures IsRun(c, tr + [Step(c, tr[|ls|], l)], ls + [l])
  {
    var tr', ls' := tr + [Step(c, tr[|ls|], l)], ls + [l];
    forall i | 0 <= i < |ls'| ensures Follows(c, tr', ls', i) {
      if i < |ls| { assert Follows(c, tr, ls, i); }
    }
  }

  lemma {:induction false} Invariance(c: Config, inv: System -> bool, ok: (System, Label) -> bool, tr: seq<System>, ls: seq<Label>)
    requires IsRun(c, tr, ls) && inv(tr[0])
    requires forall i :: 0 <= i < |ls| ==> ok(tr[i], ls[i])
    requires forall s, l :: inv(s) && ok(s, l) && CanStep(c, s, l) ==> inv(Step(c, s, l))
    ensures forall i :: 0 <= i < |tr| ==> inv(tr[i])
  {
    if |ls| > 0 {
      var n := |ls| - 1;
      RunPrefix(c, tr, ls);
      Invariance(c, inv, ok, tr[..n + 1], ls[..n]);
      assert Follows(c, tr, ls, n);
      assert inv(tr[..n + 1][n]);
      assert inv(Step(c, tr[n], ls[n]));
    }
  }
}
