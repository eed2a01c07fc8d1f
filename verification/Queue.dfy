/** The Redis side of the queue: a jobs stream with one consumer group, a retry set, a
    dead-letter stream and a results stream. Each function is one Redis transaction. */
module Queue {

  /** `enqueuedAt` and `availableAt` are instants, zero when not set. */
  datatype Job = Job(id: string, action: string, stepRun: string, key: string, attempt: nat, enqueuedAt: int, availableAt: int)

  datatype Delivery = Delivery(message: nat, job: Job)

  /** A result names its request; `key` records whose success it reports. */
  datatype Completion = Completion(request: string, key: string)

  /** `cursor` is the first id the consumer group has not delivered yet, and `pending`
      names the consumer that holds each delivered, unacknowledged message. */
  datatype Broker = Broker(
    jobs: map<nat, Job>,
    nextId: nat,
    cursor: nat,
    pending: map<nat, string>,
    retry: set<Job>,
    dead: map<nat, Job>,
    results: seq<Completion>)

  datatype Retries = Retries(maximum: int, base: nat)

  const MAX_SHIFT := 10

  function Pow2(n: nat): (r: nat)
    ensures r >= 1
  {
    if n == 0 then 1 else 2 * Pow2(n - 1)
  }

  function Min(a: int, b: int): int {
    if a < b then a else b
  }

  /** The wait before attempt number `attempt`. */
  function Delay(base: nat, attempt: int): nat
    requires attempt >= 1
  {
    base * Pow2(Min(attempt - 1, MAX_SHIFT))
  }

  lemma {:induction false} Pow2Monotone(a: nat, b: nat)
    requires a <= b
    ensures Pow2(a) <= Pow2(b)
  {
    if a < b { Pow2Monotone(a, b - 1); }
  }

  /** Delays never shrink from one attempt to a later one, and stay between the base and
      1024 times the base. */
  lemma DelayBounds(base: nat, a: int, b: int)
    requires 1 <= a <= b
    ensures base <= Delay(base, a) <= Delay(base, b) <= 1024 * base
  {
    Pow2Monotone(Min(a - 1, MAX_SHIFT), Min(b - 1, MAX_SHIFT));
    Pow2Monotone(Min(b - 1, MAX_SHIFT), MAX_SHIFT);
    assert Pow2(5) == 32;
    assert Pow2(MAX_SHIFT) == 1024;
    Scale(base, 1, Pow2(Min(a - 1, MAX_SHIFT)));
    Scale(base, Pow2(Min(a - 1, MAX_SHIFT)), Pow2(Min(b - 1, MAX_SHIFT)));
    Scale(base, Pow2(Min(b - 1, MAX_SHIFT)), 1024);
  }

  /** The wait before attempt number `attempt`, told from one attempt to the next: the base
      before the first, doubled with each one up to the eleventh, and then no more. */
  function Backoff(base: nat, attempt: nat): nat {
    if attempt <= 1 then base else if attempt > 11 then Backoff(base, 11) else 2 * Backoff(base, attempt - 1)
  }

  lemma {:induction false} BackoffDoubles(base: nat, attempt: nat)
    requires 1 <= attempt <= 11
    ensures Backoff(base, attempt) == base * Pow2(attempt - 1)
  {
    if attempt > 1 {
      BackoffDoubles(base, attempt - 1);
      assert base * (2 * Pow2(attempt - 2)) == 2 * (base * Pow2(attempt - 2));
    }
  }

  lemma DelayIsBackoff(base: nat, attempt: nat)
    requires attempt >= 1
    ensures Delay(base, attempt) == Backoff(base, attempt)
  {
    BackoffDoubles(base, if attempt > 11 then 11 else attempt);
  }

  lemma Scale(base: nat, x: nat, y: nat)
    requires x <= y
    ensures base * x <= base * y
  {
    assert base * y == base * x + base * (y - x);
  }

  // ---- one function per transaction ----

  function Add(b: Broker, j: Job): Broker {
    b.(jobs := b.jobs[b.nextId := j], nextId := b.nextId + 1)
  }

  /** The defaults `Enqueue` fills in. */
  function Stamp(j: Job, freshId: string, now: int): Job {
    var at := if j.enqueuedAt == 0 then now else j.enqueuedAt;
    j.(id := if j.id == "" then freshId else j.id,
       enqueuedAt := at,
       availableAt := if j.availableAt == 0 then at else j.availableAt)
  }

  /** A job as it is enqueued: what was not set gets its default, and nothing else changes. */
  predicate IsStamped(j: Job, freshId: string, now: int, k: Job) {
    && k.action == j.action && k.stepRun == j.stepRun && k.key == j.key && k.attempt == j.attempt
    && k.id == (if j.id != "" then j.id else freshId)
    && k.enqueuedAt == (if j.enqueuedAt != 0 then j.enqueuedAt else now)
    && k.availableAt == (if j.availableAt != 0 then j.availableAt else k.enqueuedAt)
  }

  /** The next message that no consumer has seen. */
  predicate IsNext(b: Broker, m: nat) {
    m in b.jobs && b.cursor <= m && forall k :: k in b.jobs && b.cursor <= k ==> m <= k
  }

  function Deliver(b: Broker, m: nat, consumer: string): Broker {
    b.(cursor := m + 1, pending := b.pending[m := consumer])
  }

  /** Claiming takes a pending message over, and forgets one whose entry is gone. */
  function Claim(b: Broker, m: nat, consumer: string): Broker {
    if m !in b.pending then b
    else if m in b.jobs then b.(pending := b.pending[m := consumer])
    else b.(pending := b.pending - {m})
  }

  function Finish(b: Broker, m: nat): Broker {
    b.(jobs := b.jobs - {m}, pending := b.pending - {m})
  }

  function Acknowledge(b: Broker, m: nat, result: Completion): Broker {
    Finish(b, m).(results := b.results + [result])
  }

  predicate WillRetry(c: Retries, j: Job, retryable: bool) {
    retryable && j.attempt + 1 <= c.maximum
  }

  function Failing(c: Retries, b: Broker, d: Delivery, retryable: bool, now: int): Broker {
    var j := d.job.(attempt := d.job.attempt + 1);
    if WillRetry(c, d.job, retryable)
    then Finish(b, d.message).(retry := b.retry + {j.(availableAt := now + Delay(c.base, j.attempt))})
    else Finish(b, d.message).(dead := b.dead[b.nextId := j], nextId := b.nextId + 1)
  }

  /** One item of a retry pump: added to the stream even when another pump was first. */
  function Move(b: Broker, j: Job): Broker {
    Add(b, j).(retry := b.retry - {j})
  }

  function MoveAll(b: Broker, js: seq<Job>): Broker {
    if js == [] then b else Move(MoveAll(b, js[..|js| - 1]), js[|js| - 1])
  }

  /** The jobs left the retry set for the end of the stream, in their order. */
  ghost predicate AreMoved(b: Broker, b': Broker, js: seq<Job>) {
    && b'.nextId == b.nextId + |js| && b'.dead == b.dead && b'.pending == b.pending && b'.results == b.results
    && (forall j :: j in b'.retry <==> j in b.retry && j !in js)
    && (forall m :: b.nextId <= m < b'.nextId ==> m in b'.jobs && b'.jobs[m] == js[m - b.nextId])
    && (forall m :: m < b.nextId ==> (m in b'.jobs <==> m in b.jobs) && (m in b.jobs ==> b'.jobs[m] == b.jobs[m]))
  }

  lemma MovedMore(b: Broker, b': Broker, js: seq<Job>, j: Job)
    requires AreMoved(b, b', js)
    ensures AreMoved(b, Move(b', j), js + [j])
  {
    var js', moved := js + [j], Move(b', j);
    assert forall k :: k in js' <==> k in js || k == j;
    forall m: nat | b.nextId <= m < moved.nextId ensures m in moved.jobs && moved.jobs[m] == js'[m - b.nextId] {
      if m < b'.nextId { assert m in b'.jobs && b'.jobs[m] == js[m - b.nextId]; }
    }
  }

  lemma {:induction false} MovedAll(b: Broker, js: seq<Job>)
    ensures AreMoved(b, MoveAll(b, js), js)
  {
    if js != [] {
      var init, last := js[..|js| - 1], js[|js| - 1];
      assert js == init + [last];
      MovedAll(b, init);
      MovedMore(b, MoveAll(b, init), init, last);
    }
  }

  function Revived(j: Job, now: int): Job {
    j.(attempt := 0, availableAt := now)
  }

  function Bury(b: Broker, m: nat): Broker {
    b.(dead := b.dead - {m})
  }

  /** A failure that is permanent, or has no attempt left, is a dead letter with its attempt
      counted and leaves the retry set alone; any other one waits its backoff in the retry
      set and leaves the dead letters alone. */
  lemma FailuresAreSorted(c: Retries, b: Broker, d: Delivery, retryable: bool, now: int)
    ensures var b', j := Failing(c, b, d, retryable, now), d.job.(attempt := d.job.attempt + 1);
            && d.message !in b'.jobs && d.message !in b'.pending
            && (!retryable || d.job.attempt >= c.maximum ==> b'.retry == b.retry && b'.dead == b.dead[b.nextId := j])
            && (retryable && d.job.attempt < c.maximum ==>
                  b'.dead == b.dead && b'.retry == b.retry + {j.(availableAt := now + Backoff(c.base, j.attempt))})
  {
    DelayIsBackoff(c.base, d.job.attempt + 1);
  }

  /** A batch for one consumer: the oldest undelivered entries, in order, as many as
      asked for if there are that many. */
  ghost predicate IsBatch(b: Broker, ms: seq<nat>, count: nat) {
    && |ms| <= count
    && (forall i :: 0 <= i < |ms| ==> ms[i] in b.jobs && b.cursor <= ms[i])
    && (forall i, j :: 0 <= i < j < |ms| ==> ms[i] < ms[j])
    && (forall m :: m in b.jobs && b.cursor <= m && m !in ms ==> |ms| == count && forall i :: 0 <= i < |ms| ==> ms[i] < m)
  }

  /** Delivering the messages of a batch one by one. */
  function DeliverAll(b: Broker, ms: seq<nat>, consumer: string): Broker {
    if ms == [] then b else Deliver(DeliverAll(b, ms[..|ms| - 1], consumer), ms[|ms| - 1], consumer)
  }

  lemma {:induction false} DeliveredAll(b: Broker, ms: seq<nat>, consumer: string)
    ensures forall m :: m in ms ==> m in DeliverAll(b, ms, consumer).pending && DeliverAll(b, ms, consumer).pending[m] == consumer
  {
    if ms != [] {
      DeliveredAll(b, ms[..|ms| - 1], consumer);
      assert ms == ms[..|ms| - 1] + [ms[|ms| - 1]];
    }
  }

  lemma {:induction false} DeliveredSoFar(b: Broker, ms: seq<nat>, consumer: string, i: nat)
    requires i <= |ms|
    ensures DeliverAll(b, ms[..i], consumer).jobs == b.jobs
    ensures DeliverAll(b, ms[..i], consumer).cursor == if i == 0 then b.cursor else ms[i - 1] + 1
  {
    if i > 0 {
      assert ms[..i][..i - 1] == ms[..i - 1];
      DeliveredSoFar(b, ms, consumer, i - 1);
    }
  }

  /** A batch is delivered next by next: each message is the first undelivered one when
      its turn comes. */
  lemma BatchIsNextByNext(b: Broker, ms: seq<nat>, count: nat, consumer: string, i: nat)
    requires IsBatch(b, ms, count) && i < |ms|
    ensures IsNext(DeliverAll(b, ms[..i], consumer), ms[i])
  {
    DeliveredSoFar(b, ms, consumer, i);
    var cursor := DeliverAll(b, ms[..i], consumer).cursor;
    forall k | k in b.jobs && cursor <= k ensures ms[i] <= k {
      if k in ms {
        var j :| 0 <= j < |ms| && ms[j] == k;
        assert i <= j;
      }
    }
  }

  function ClaimAll(b: Broker, ms: seq<nat>, consumer: string): Broker {
    if ms == [] then b else Claim(ClaimAll(b, ms[..|ms| - 1], consumer), ms[|ms| - 1], consumer)
  }

  /** The stale messages belong to the consumer, or are forgotten where their entry is gone. */
  ghost predicate AreClaimed(b: Broker, b': Broker, ms: seq<nat>, consumer: string) {
    && b'.jobs == b.jobs && b'.retry == b.retry && b'.dead == b.dead && b'.cursor == b.cursor
    && (forall m :: m in b'.pending <==> m in b.pending && (m in ms ==> m in b.jobs))
    && (forall m :: m in b'.pending ==> b'.pending[m] == if m in ms then consumer else b.pending[m])
  }

  lemma ClaimedMore(b: Broker, b': Broker, ms: seq<nat>, m: nat, consumer: string)
    requires AreClaimed(b, b', ms, consumer)
    ensures AreClaimed(b, Claim(b', m, consumer), ms + [m], consumer)
  {
    assert forall k :: k in ms + [m] <==> k in ms || k == m;
  }

  lemma {:induction false} ClaimedAll(b: Broker, ms: seq<nat>, consumer: string)
    ensures AreClaimed(b, ClaimAll(b, ms, consumer), ms, consumer)
  {
    if ms != [] {
      var init, last := ms[..|ms| - 1], ms[|ms| - 1];
      assert ms == init + [last];
      ClaimedAll(b, init, consumer);
      ClaimedMore(b, ClaimAll(b, init, consumer), init, last, consumer);
    }
  }

  // ---- the client ----

  predicate Due(j: Job, now: int) {
    j.availableAt <= now
  }

  /** What a range by score returns: the earliest due jobs, `limit` of them if there are
      that many. */
  ghost predicate IsDueList(retry: set<Job>, now: int, limit: nat, items: seq<Job>) {
    && |items| <= limit
    && (forall i :: 0 <= i < |items| ==> items[i] in retry && Due(items[i], now))
    && (forall i, j :: 0 <= i < j < |items| ==> items[i] != items[j] && items[i].availableAt <= items[j].availableAt)
    && (forall j :: j in retry && Due(j, now) && j !in items ==>
          |items| == limit && forall i :: 0 <= i < |items| ==> items[i].availableAt <= j.availableAt)
  }

  function MessagesOf(ds: seq<Delivery>): (ms: seq<nat>)
    ensures |ms| == |ds| && forall i :: 0 <= i < |ms| ==> ms[i] == ds[i].message
  {
    seq(|ds|, i requires 0 <= i < |ds| => ds[i].message)
  }

  /** A finite set has an element of least rank. */
  lemma {:induction false} LeastExists<T(!new)>(s: set<T>, rank: T -> int)
    requires s != {}
    ensures exists x :: x in s && forall y :: y in s ==> rank(x) <= rank(y)
    decreases |s|
  {
    var x :| x in s;
    var rest := s - {x};
    if rest == {} {
      assert forall y :: y in s ==> y == x || y in rest;
      assert x in s && forall y :: y in s ==> rank(x) <= rank(y);
    } else {
      LeastExists(rest, rank);
      var z :| z in rest && forall y :: y in rest ==> rank(z) <= rank(y);
      var least := if rank(x) <= rank(z) then x else z;
      assert forall y :: y in s ==> y == x || y in rest;
      assert least in s && forall y :: y in s ==> rank(least) <= rank(y);
    }
  }

  /** A batch in the making, with the messages that are left. */
  ghost predicate IsBatchSoFar(b: Broker, ms: seq<nat>, left: set<nat>) {
    && (forall m :: m in left <==> m in b.jobs && b.cursor <= m && m !in ms)
    && (forall i :: 0 <= i < |ms| ==> ms[i] in b.jobs && b.cursor <= ms[i])
    && (forall i, j :: 0 <= i < j < |ms| ==> ms[i] < ms[j])
    && (forall i, m :: 0 <= i < |ms| && m in left ==> ms[i] < m)
  }

  lemma BatchExtends(b: Broker, ms: seq<nat>, left: set<nat>, m: nat)
    requires IsBatchSoFar(b, ms, left) && m in left && forall k :: k in left ==> m <= k
    ensures IsBatchSoFar(b, ms + [m], left - {m})
  {}

  lemma BatchDone(b: Broker, ms: seq<nat>, left: set<nat>, count: nat)
    requires IsBatchSoFar(b, ms, left) && |ms| <= count && (left == {} || |ms| == count)
    ensures IsBatch(b, ms, count)
  {}

  method Least(s: set<nat>) returns (m: nat)
    requires s != {}
    ensures m in s && forall k :: k in s ==> m <= k
  {
    LeastExists(s, (m: nat) => m);
    m :| m in s && forall k :: k in s ==> m <= k;
  }

  /** A client of the queue. The broker's tables are the fields. */
  class Streams {
    const retries: Retries
    const consumer: string
    var jobs: map<nat, Job>
    var nextId: nat
    var cursor: nat
    var pending: map<nat, string>
    var retry: set<Job>
    var dead: map<nat, Job>
    var results: seq<Completion>

    function Value(): Broker
      reads this
    {
      Broker(jobs, nextId, cursor, pending, retry, dead, results)
    }

    constructor (retries: Retries, consumer: string)
      ensures this.retries == retries && this.consumer == consumer
      ensures Value() == Broker(map[], 0, 0, map[], {}, map[], [])
    {
      this.retries, this.consumer := retries, consumer;
      jobs, nextId, cursor, pending, retry, dead, results := map[], 0, 0, map[], {}, map[], [];
    }

    method Enqueue(j: Job, freshId: string, now: int) returns (m: nat)
      modifies this
      ensures m == old(nextId) && Value() == Add(old(Value()), Stamp(j, freshId, now))
      ensures m in jobs && IsStamped(j, freshId, now, jobs[m])
    {
      var job := j;
      if job.id == "" { job := job.(id := freshId); }
      if job.enqueuedAt == 0 { job := job.(enqueuedAt := now); }
      if job.availableAt == 0 { job := job.(availableAt := job.enqueuedAt); }
      m := nextId;
      jobs, nextId := jobs[m := job], nextId + 1;
    }

    method NewMessages(count: nat) returns (ms: seq<nat>)
      ensures IsBatch(Value(), ms, count)
    {
      ms := [];
      var left := set m | m in jobs && cursor <= m;
      while left != {} && |ms| < count
        invariant |ms| <= count && IsBatchSoFar(Value(), ms, left)
        decreases count - |ms|
      {
        var m := Least(left);
        BatchExtends(Value(), ms, left, m);
        ms, left := ms + [m], left - {m};
      }
      BatchDone(Value(), ms, left, count);
    }

    /** A batch of new messages, each pending for this consumer from now on. */
    method Read(count: nat) returns (deliveries: seq<Delivery>)
      modifies this
      ensures IsBatch(old(Value()), MessagesOf(deliveries), count)
      ensures Value() == DeliverAll(old(Value()), MessagesOf(deliveries), consumer)
      ensures forall d :: d in deliveries ==> d.message in old(jobs) && d.job == old(jobs)[d.message]
      ensures jobs == old(jobs) && forall m :: m in MessagesOf(deliveries) ==> m in pending && pending[m] == consumer
    {
      var ms := NewMessages(count);
      deliveries := [];
      for i := 0 to |ms|
        invariant MessagesOf(deliveries) == ms[..i] && Value() == DeliverAll(old(Value()), ms[..i], consumer)
        invariant jobs == old(jobs) && forall d :: d in deliveries ==> d.message in jobs && d.job == jobs[d.message]
      {
        assert ms[..i + 1][..i] == ms[..i];
        cursor, pending := ms[i] + 1, pending[ms[i] := consumer];
        deliveries := deliveries + [Delivery(ms[i], jobs[ms[i]])];
      }
      assert ms[..|ms|] == ms;
      DeliveredAll(old(Value()), ms, consumer);
    }

    /** Takes over pending messages that were idle for long enough (`stale`); entries that
        are gone are forgotten. */
    method ClaimStale(stale: seq<nat>) returns (deliveries: seq<Delivery>)
      modifies this
      ensures Value() == ClaimAll(old(Value()), stale, consumer)
      ensures forall d :: d in deliveries ==> d.message in old(jobs) && d.job == old(jobs)[d.message]
      ensures forall m :: m in MessagesOf(deliveries) <==> m in stale && m in old(pending) && m in old(jobs)
      ensures AreClaimed(old(Value()), Value(), stale, consumer)
    {
      deliveries := [];
      for i := 0 to |stale|
        invariant Value() == ClaimAll(old(Value()), stale[..i], consumer) && jobs == old(jobs)
        invariant forall m :: m in jobs ==> (m in pending <==> m in old(pending))
        invariant forall d :: d in deliveries ==> d.message in jobs && d.job == jobs[d.message]
        invariant forall m :: m in MessagesOf(deliveries) <==> m in stale[..i] && m in old(pending) && m in jobs
      {
        assert stale[..i + 1][..i] == stale[..i];
        assert forall m :: m in stale[..i + 1] <==> m in stale[..i] || m == stale[i];
        var m := stale[i];
        if m in pending {
          if m in jobs {
            pending := pending[m := consumer];
            assert MessagesOf(deliveries + [Delivery(m, jobs[m])]) == MessagesOf(deliveries) + [m];
            deliveries := deliveries + [Delivery(m, jobs[m])];
          } else {
            pending := pending - {m};
          }
        }
      }
      assert stale[..|stale|] == stale;
      ClaimedAll(old(Value()), stale, consumer);
    }

    method Ack(m: nat, result: Completion)
      modifies this
      ensures Value() == Acknowledge(old(Value()), m, result)
      ensures m !in jobs && m !in pending && results == old(results) + [result]
      ensures forall k :: k != m ==> (k in jobs <==> k in old(jobs)) && (k in jobs ==> jobs[k] == old(jobs)[k])
    {
      results := results + [result];
      pending := pending - {m};
      jobs := jobs - {m};
    }

    /** A failed delivery waits in the retry set or, out of attempts, goes to the
        dead-letter stream with its attempts counted. */
    method Fail(m: nat, j: Job, retryable: bool, now: int)
      modifies this
      ensures Value() == Failing(retries, old(Value()), Delivery(m, j), retryable, now)
      ensures m !in jobs && m !in pending
      ensures !retryable || j.attempt >= retries.maximum ==>
        retry == old(retry) && dead == old(dead)[old(nextId) := j.(attempt := j.attempt + 1)]
      ensures retryable && j.attempt < retries.maximum ==>
        dead == old(dead) && retry == old(retry) + {j.(attempt := j.attempt + 1, availableAt := now + Backoff(retries.base, j.attempt + 1))}
    {
      DelayIsBackoff(retries.base, j.attempt + 1);
      var job := j.(attempt := j.attempt + 1);
      if retryable && job.attempt <= retries.maximum {
        var shift, factor := Min(job.attempt - 1, MAX_SHIFT), 1;
        for i := 0 to shift
          invariant factor == Pow2(i)
        {
          factor := 2 * factor;
        }
        job := job.(availableAt := now + retries.base * factor);
        retry := retry + {job};
      } else {
        dead, nextId := dead[nextId := job], nextId + 1;
      }
      pending := pending - {m};
      jobs := jobs - {m};
    }

    method DueJobs(now: int, limit: nat) returns (items: seq<Job>)
      ensures IsDueList(retry, now, limit, items)
    {
      items := [];
      var due := set j | j in retry && Due(j, now);
      while due != {} && |items| < limit
        invariant |items| <= limit
        invariant due == set j | j in retry && Due(j, now) && j !in items
        invariant forall i :: 0 <= i < |items| ==> items[i] in retry && Due(items[i], now)
        invariant forall i, j :: 0 <= i < j < |items| ==> items[i] != items[j] && items[i].availableAt <= items[j].availableAt
        invariant forall i, j :: 0 <= i < |items| && j in due ==> items[i].availableAt <= j.availableAt
        decreases limit - |items|
      {
        LeastExists(due, (j: Job) => j.availableAt);
        var j :| j in due && forall k :: k in due ==> j.availableAt <= k.availableAt;
        items, due := items + [j], due - {j};
      }
      assert forall j :: j in retry && Due(j, now) && j !in items ==> j in due;
    }

    /** Moves due jobs back to the stream one transaction at a time; a failed transaction
        ends the pump with the rest still waiting. */
    method PumpRetries(now: int, limit: nat) returns (moved: nat, failed: bool, ghost items: seq<Job>)
      modifies this
      ensures IsDueList(old(retry), now, limit, items)
      ensures moved <= |items| && (failed <==> moved < |items|)
      ensures Value() == MoveAll(old(Value()), items[..moved])
      ensures AreMoved(old(Value()), Value(), items[..moved])
    {
      var list := DueJobs(now, limit);
      items, moved, failed := list, 0, false;
      MovedAll(Value(), []);
      while moved < |list|
        invariant moved <= |list|
        invariant Value() == MoveAll(old(Value()), list[..moved]) && AreMoved(old(Value()), Value(), list[..moved])
      {
        var lost: bool := *;
        if lost { return moved, true, list; }
        assert list[..moved + 1][..moved] == list[..moved];
        jobs, nextId, retry := jobs[nextId := list[moved]], nextId + 1, retry - {list[moved]};
        moved := moved + 1;
        MovedAll(old(Value()), list[..moved]);
      }
    }

    /** Two transactions: the copy is enqueued before the dead letter is removed. */
    method RetryDeadLetter(m: nat, now: int) returns (found: bool)
      modifies this
      ensures found <==> m in old(dead)
      ensures !found ==> Value() == old(Value())
      ensures found ==> var before := old(Value());
                        Value() == Bury(Add(before, Stamp(Revived(before.dead[m], now), before.dead[m].id, now)), m)
      ensures found ==>
        && old(nextId) in jobs && jobs - {old(nextId)} == old(jobs) - {old(nextId)} && dead == old(dead) - {m} && retry == old(retry)
        && IsStamped(old(dead)[m].(attempt := 0, availableAt := now), old(dead)[m].id, now, jobs[old(nextId)])
    {
      if m !in dead { return false; }
      var j := dead[m];
      j := j.(attempt := 0, availableAt := now);
      var id := Enqueue(j, j.id, now);
      dead := dead - {m};
      found := true;
    }
  }
}
