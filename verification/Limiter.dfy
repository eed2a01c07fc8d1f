/** The budget limiter: leases over a program, a provider and a set of hosts at once,
    with a broadcast channel that every release replaces. */
module Limiter {
  import opened Order

  datatype Limits = Limits(program: int, provider: int, host: int)

  /** A request with its provider and hosts normalised. */
  datatype Request = Request(program: string, provider: string, hosts: seq<string>)

  /** What a request can hold a slot of. */
  datatype Resource = Program | Provider | Host

  type Counters = map<string, int>

  /** The limiter's fields; `epoch` identifies the open channel, and the channels of all
      earlier epochs are closed. */
  datatype Slots = Slots(limits: Limits, programs: Counters, providers: Counters, hosts: Counters, epoch: nat) {
    function Of(kind: Resource): Counters {
      match kind case Program => programs case Provider => providers case Host => hosts
    }

    function Limit(kind: Resource): int {
      match kind case Program => limits.program case Provider => limits.provider case Host => limits.host
    }
  }

  function Positive(value: int): (r: int)
    ensures r >= 1 && (value >= 1 ==> r == value) && (value < 1 ==> r == 1)
  {
    if value < 1 then 1 else value
  }

  function Get(m: Counters, k: string): int {
    if k in m then m[k] else 0
  }

  function Increment(m: Counters, k: string): Counters {
    m[k := Get(m, k) + 1]
  }

  /** Counters are removed rather than left at zero. */
  function Decrement(m: Counters, k: string): Counters {
    if Get(m, k) <= 1 then m - {k} else m[k := m[k] - 1]
  }

  function IncrementAll(m: Counters, ks: seq<string>): Counters {
    if ks == [] then m else Increment(IncrementAll(m, ks[..|ks| - 1]), ks[|ks| - 1])
  }

  function DecrementAll(m: Counters, ks: seq<string>): Counters {
    if ks == [] then m else Decrement(DecrementAll(m, ks[..|ks| - 1]), ks[|ks| - 1])
  }

  /** The names under which a request is counted. */
  function Names(kind: Resource, r: Request): (names: seq<string>)
    ensures forall x :: x in names <==>
      match kind case Program => x == r.program case Provider => x == r.provider && x != "" case Host => x in r.hosts
  {
    match kind
    case Program => [r.program]
    case Provider => if r.provider == "" then [] else [r.provider]
    case Host => r.hosts
  }

  predicate Available(l: Slots, r: Request) {
    && Get(l.programs, r.program) < l.limits.program
    && (r.provider != "" ==> Get(l.providers, r.provider) < l.limits.provider)
    && forall h :: h in r.hosts ==> Get(l.hosts, h) < l.limits.host
  }

  function Admit(l: Slots, r: Request): Slots {
    l.(programs := IncrementAll(l.programs, Names(Program, r)),
       providers := IncrementAll(l.providers, Names(Provider, r)),
       hosts := IncrementAll(l.hosts, Names(Host, r)))
  }

  /** A release gives the slots back and closes the channel everyone waits on. */
  function Release(l: Slots, r: Request): Slots {
    l.(programs := DecrementAll(l.programs, Names(Program, r)),
       providers := DecrementAll(l.providers, Names(Provider, r)),
       hosts := DecrementAll(l.hosts, Names(Host, r)),
       epoch := l.epoch + 1)
  }

  // ---- the limiter as an object ----

  /** The release closure's state. */
  class Lease {
    const request: Request
    var released: bool

    constructor (request: Request)
      ensures this.request == request && !released
    {
      this.request, released := request, false;
    }
  }

  /** `fold` is lower-casing and trimming. */
  ghost predicate IsNormalized(fold: string -> string, values: seq<string>, r: seq<string>) {
    && SortedBy(StrLess, r) && NoDuplicates(r)
    && forall x :: x in r <==> x != "" && exists v :: v in values && fold(v) == x
  }

  class Local {
    const fold: string -> string
    var limits: Limits
    var programs: Counters
    var providers: Counters
    var hosts: Counters
    var changed: nat

    function Value(): Slots
      reads this
    {
      Slots(limits, programs, providers, hosts, changed)
    }

    constructor (limits: Limits, fold: string -> string)
      ensures this.fold == fold
      ensures Value() == Slots(Limits(Positive(limits.program), Positive(limits.provider), Positive(limits.host)), map[], map[], map[], 0)
    {
      this.fold := fold;
      this.limits := Limits(Positive(limits.program), Positive(limits.provider), Positive(limits.host));
      programs, providers, hosts, changed := map[], map[], map[], 0;
    }

    method Normalize(values: seq<string>) returns (r: seq<string>)
      ensures IsNormalized(fold, values, r)
    {
      var seen: set<string>, out: seq<string> := {}, [];
      for i := 0 to |values|
        invariant seen == Elements(out) && NoDuplicates(out)
        invariant forall x :: x in out <==> x != "" && exists j :: 0 <= j < i && fold(values[j]) == x
      {
        var value := fold(values[i]);
        if value != "" && value !in seen {
          seen, out := seen + {value}, out + [value];
        }
      }
      r := SortStrings(out);
      SortStringsOrderInsensitive(out, out);
      SameElements(out, r);
      PermutedDistinct(out, r);
    }

    /** The critical section of `Acquire`. Without a lease the caller parks on the
        returned channel. */
    method TryAcquire(program: string, provider: string, rawHosts: seq<string>) returns (lease: Lease?, channel: nat, r: Request)
      modifies this
      ensures r.program == program && r.provider == fold(provider) && IsNormalized(fold, rawHosts, r.hosts)
      ensures lease != null <==> Available(old(Value()), r)
      ensures lease != null ==> fresh(lease) && lease.request == r && !lease.released && Value() == Admit(old(Value()), r)
      ensures lease == null ==> Value() == old(Value()) && channel == changed
    {
      lease, channel := null, changed;
      var names := Normalize(rawHosts);
      r := Request(program, fold(provider), names);
      if !Available(Value(), r) {
        return;
      }
      programs := Increment(programs, program);
      assert Names(Program, r)[..0] == [];
      if r.provider != "" {
        providers := Increment(providers, r.provider);
        assert Names(Provider, r)[..0] == [];
      }
      for i := 0 to |r.hosts|
        invariant hosts == IncrementAll(old(hosts), r.hosts[..i])
        invariant programs == IncrementAll(old(programs), Names(Program, r))
        invariant providers == IncrementAll(old(providers), Names(Provider, r))
        invariant limits == old(limits) && changed == old(changed)
      {
        assert r.hosts[..i + 1][..i] == r.hosts[..i];
        hosts := Increment(hosts, r.hosts[i]);
      }
      assert r.hosts[..|r.hosts|] == r.hosts;
      lease := new Lease(r);
    }

    /** The release closure; calling it again changes nothing. */
    method ReleaseLease(lease: Lease)
      modifies this, lease
      ensures lease.released
      ensures Value() == if old(lease.released) then old(Value()) else Release(old(Value()), lease.request)
    {
      if lease.released {
        return;
      }
      lease.released := true;
      var r := lease.request;
      programs := Decrement(programs, r.program);
      assert Names(Program, r)[..0] == [];
      if r.provider != "" {
        providers := Decrement(providers, r.provider);
        assert Names(Provider, r)[..0] == [];
      }
      for i := 0 to |r.hosts|
        invariant hosts == DecrementAll(old(hosts), r.hosts[..i])
        invariant programs == DecrementAll(old(programs), Names(Program, r))
        invariant providers == DecrementAll(old(providers), Names(Provider, r))
        invariant limits == old(limits) && changed == old(changed) && lease.released
      {
        assert r.hosts[..i + 1][..i] == r.hosts[..i];
        hosts := Decrement(hosts, r.hosts[i]);
      }
      assert r.hosts[..|r.hosts|] == r.hosts;
      changed := changed + 1;
    }
  }

  // ---- all clients of a limiter ----

  datatype Waiter = Waiter(request: Request, epoch: nat)

  /** The limiter with its live leases and the clients parked on its channels. */
  datatype System = System(slots: Slots, live: map<nat, Request>, waiters: map<nat, Waiter>, nextLease: nat)

  /** One atomic step of some client. */
  datatype Action =
    | Try(client: nat, request: Request)
    | Wake(client: nat)
    | GiveUp(client: nat)
    | ReleaseCall(lease: nat)

  /** What `Acquire` hands to its critical section. */
  ghost predicate Normal(r: Request) {
    NoDuplicates(r.hosts)
  }

  ghost predicate CanStep(s: System, a: Action) {
    match a
    case Try(client, r) => client !in s.waiters && Normal(r)
    case Wake(client) => client in s.waiters && s.waiters[client].epoch != s.slots.epoch
    case GiveUp(client) => client in s.waiters
    case ReleaseCall(lease) => lease < s.nextLease
  }

  function Attempt(s: System, client: nat, r: Request): System {
    if Available(s.slots, r)
    then s.(slots := Admit(s.slots, r), live := s.live[s.nextLease := r], nextLease := s.nextLease + 1)
    else s.(waiters := s.waiters[client := Waiter(r, s.slots.epoch)])
  }

  function Next(s: System, a: Action): System
    requires CanStep(s, a)
  {
    match a
    case Try(client, r) => Attempt(s, client, r)
    case Wake(client) => Attempt(s.(waiters := s.waiters - {client}), client, s.waiters[client].request)
    case GiveUp(client) => s.(waiters := s.waiters - {client})
    case ReleaseCall(lease) =>
      if lease in s.live then s.(slots := Release(s.slots, s.live[lease]), live := s.live - {lease}) else s
  }

  ghost predicate IsRun(tr: seq<System>, actions: seq<Action>) {
    && |tr| == |actions| + 1
    && forall i :: 0 <= i < |actions| ==> CanStep(tr[i], actions[i]) && tr[i + 1] == Next(tr[i], actions[i])
  }

  function Initial(limits: Limits): System {
    System(Slots(Limits(Positive(limits.program), Positive(limits.provider), Positive(limits.host)), map[], map[], map[], 0), map[], map[], 0)
  }

  // ---- exact accounting ----

  /** The live leases that hold a slot under `name`. */
  function Holders(live: map<nat, Request>, kind: Resource, name: string): set<nat> {
    set id | id in live && name in Names(kind, live[id])
  }

  /** A counter is the number of holders, and absent exactly when there is none. */
  ghost predicate Counts(m: Counters, live: map<nat, Request>, kind: Resource) {
    forall name :: Get(m, name) == |Holders(live, kind, name)| && (name in m <==> Holders(live, kind, name) != {})
  }

  ghost predicate WithinLimit(l: Slots, kind: Resource) {
    l.Limit(kind) >= 1 && forall name :: Get(l.Of(kind), name) <= l.Limit(kind)
  }

  ghost predicate Accounted(s: System) {
    && (forall kind :: Counts(s.slots.Of(kind), s.live, kind) && WithinLimit(s.slots, kind))
    && (forall id :: id in s.live ==> Normal(s.live[id]) && id < s.nextLease)
    && (forall client :: client in s.waiters ==> Normal(s.waiters[client].request))
  }

  /** No waiter is parked on the open channel while its request could be admitted. */
  ghost predicate NoLostWakeup(s: System) {
    forall client :: client in s.waiters && s.waiters[client].epoch == s.slots.epoch ==> !Available(s.slots, s.waiters[client].request)
  }

  lemma {:induction false} IncrementAllCounts(m: Counters, ks: seq<string>)
    requires NoDuplicates(ks)
    ensures forall k :: Get(IncrementAll(m, ks), k) == Get(m, k) + if k in ks then 1 else 0
    ensures forall k :: k in IncrementAll(m, ks) <==> k in m || k in ks
  {
    if ks != [] {
      var init := ks[..|ks| - 1];
      assert ks == init + [ks[|ks| - 1]];
      IncrementAllCounts(m, init);
    }
  }

  lemma {:induction false} DecrementAllCounts(m: Counters, ks: seq<string>)
    requires NoDuplicates(ks)
    requires forall k :: k in m ==> m[k] >= 1
    requires forall k :: k in ks ==> k in m
    ensures forall k :: Get(DecrementAll(m, ks), k) == Get(m, k) - if k in ks then 1 else 0
    ensures forall k :: k in DecrementAll(m, ks) <==> k in m && (k in ks ==> m[k] > 1)
  {
    if ks != [] {
      var init := ks[..|ks| - 1];
      assert ks == init + [ks[|ks| - 1]];
      DecrementAllCounts(m, init);
    }
  }

  lemma NamesDistinct(kind: Resource, r: Request)
    requires Normal(r)
    ensures NoDuplicates(Names(kind, r))
  {}

  lemma HoldersAdded(live: map<nat, Request>, id: nat, r: Request, kind: Resource, name: string)
    requires id !in live
    ensures |Holders(live[id := r], kind, name)| == |Holders(live, kind, name)| + if name in Names(kind, r) then 1 else 0
  {
    var before := Holders(live, kind, name);
    assert Holders(live[id := r], kind, name) == if name in Names(kind, r) then before + {id} else before;
  }

  lemma HoldersRemoved(live: map<nat, Request>, id: nat, kind: Resource, name: string)
    requires id in live
    ensures |Holders(live - {id}, kind, name)| == |Holders(live, kind, name)| - if name in Names(kind, live[id]) then 1 else 0
  {
    var before := Holders(live, kind, name);
    assert Holders(live - {id}, kind, name) == before - {id};
  }

  lemma AvailableBelow(l: Slots, r: Request, kind: Resource, name: string)
    requires Available(l, r) && name in Names(kind, r)
    ensures Get(l.Of(kind), name) < l.Limit(kind)
  {}

  lemma AdmitOf(l: Slots, r: Request, kind: Resource)
    requires Normal(r)
    ensures forall name :: Get(Admit(l, r).Of(kind), name) == Get(l.Of(kind), name) + if name in Names(kind, r) then 1 else 0
    ensures forall name :: name in Admit(l, r).Of(kind) <==> name in l.Of(kind) || name in Names(kind, r)
    ensures Admit(l, r).Limit(kind) == l.Limit(kind)
  {
    NamesDistinct(kind, r);
    IncrementAllCounts(l.Of(kind), Names(kind, r));
  }

  lemma AdmitCounts(l: Slots, live: map<nat, Request>, id: nat, r: Request, kind: Resource)
    requires Counts(l.Of(kind), live, kind) && Normal(r) && id !in live
    ensures Counts(Admit(l, r).Of(kind), live[id := r], kind)
  {
    AdmitOf(l, r, kind);
    forall name
      ensures Get(Admit(l, r).Of(kind), name) == |Holders(live[id := r], kind, name)|
      ensures name in Admit(l, r).Of(kind) <==> Holders(live[id := r], kind, name) != {}
    {
      HoldersAdded(live, id, r, kind, name);
      assert Get(l.Of(kind), name) == |Holders(live, kind, name)|;
    }
  }

  lemma AdmitWithin(l: Slots, r: Request, kind: Resource)
    requires WithinLimit(l, kind) && Normal(r) && Available(l, r)
    ensures WithinLimit(Admit(l, r), kind)
  {
    AdmitOf(l, r, kind);
    forall name ensures Get(Admit(l, r).Of(kind), name) <= l.Limit(kind) {
      if name in Names(kind, r) { AvailableBelow(l, r, kind, name); }
    }
  }

  lemma ReleaseOf(l: Slots, live: map<nat, Request>, id: nat, kind: Resource)
    requires Counts(l.Of(kind), live, kind) && id in live && Normal(live[id])
    ensures var m := Release(l, live[id]).Of(kind);
            && (forall name :: Get(m, name) == Get(l.Of(kind), name) - if name in Names(kind, live[id]) then 1 else 0)
            && forall name :: name in m <==> Get(m, name) > 0
    ensures Release(l, live[id]).Limit(kind) == l.Limit(kind)
  {
    var m, r := l.Of(kind), live[id];
    NamesDistinct(kind, r);
    forall name | name in Names(kind, r) ensures name in m {
      assert id in Holders(live, kind, name);
    }
    forall name | name in m ensures m[name] >= 1 {
      assert Get(m, name) == |Holders(live, kind, name)| && Holders(live, kind, name) != {};
    }
    DecrementAllCounts(m, Names(kind, r));
  }

  lemma ReleaseCounts(l: Slots, live: map<nat, Request>, id: nat, kind: Resource)
    requires Counts(l.Of(kind), live, kind) && id in live && Normal(live[id])
    ensures Counts(Release(l, live[id]).Of(kind), live - {id}, kind)
  {
    ReleaseOf(l, live, id, kind);
    forall name
      ensures Get(Release(l, live[id]).Of(kind), name) == |Holders(live - {id}, kind, name)|
      ensures name in Release(l, live[id]).Of(kind) <==> Holders(live - {id}, kind, name) != {}
    {
      HoldersRemoved(live, id, kind, name);
      assert Get(l.Of(kind), name) == |Holders(live, kind, name)|;
    }
  }

  lemma ReleaseWithin(l: Slots, live: map<nat, Request>, id: nat, kind: Resource)
    requires Counts(l.Of(kind), live, kind) && id in live && Normal(live[id]) && WithinLimit(l, kind)
    ensures WithinLimit(Release(l, live[id]), kind)
  {
    ReleaseOf(l, live, id, kind);
  }

  lemma AttemptAccounts(s: System, client: nat, r: Request)
    requires Accounted(s) && Normal(r)
    ensures Accounted(Attempt(s, client, r))
  {
    if Available(s.slots, r) {
      forall kind
        ensures Counts(Admit(s.slots, r).Of(kind), s.live[s.nextLease := r], kind)
        ensures WithinLimit(Admit(s.slots, r), kind)
      {
        assert Counts(s.slots.Of(kind), s.live, kind) && WithinLimit(s.slots, kind);
        assert s.nextLease !in s.live;
        AdmitCounts(s.slots, s.live, s.nextLease, r, kind);
        AdmitWithin(s.slots, r, kind);
      }
    }
  }

  /** Every step of every client keeps the books: each counter is the number of live
      leases that name its key, absent exactly at zero, and at most its limit. A release
      that is called again changes nothing. */
  lemma NextAccounts(s: System, a: Action)
    requires Accounted(s) && CanStep(s, a)
    ensures Accounted(Next(s, a))
  {
    match a
    case Try(client, r) => AttemptAccounts(s, client, r);
    case Wake(client) => AttemptAccounts(s.(waiters := s.waiters - {client}), client, s.waiters[client].request);
    case GiveUp(client) =>
    case ReleaseCall(lease) =>
      if lease in s.live {
        forall kind
          ensures Counts(Release(s.slots, s.live[lease]).Of(kind), s.live - {lease}, kind)
          ensures WithinLimit(Release(s.slots, s.live[lease]), kind)
        {
          assert Counts(s.slots.Of(kind), s.live, kind) && WithinLimit(s.slots, kind);
          ReleaseCounts(s.slots, s.live, lease, kind);
          ReleaseWithin(s.slots, s.live, lease, kind);
        }
      }
  }

  // ---- no lost wakeups ----

  lemma AdmitKeepsUnavailable(l: Slots, r: Request, other: Request)
    requires Normal(r) && !Available(l, other)
    ensures !Available(Admit(l, r), other)
  {
    AdmitOf(l, r, Program);
    AdmitOf(l, r, Provider);
    AdmitOf(l, r, Host);
    assert Admit(l, r).Limit(Program) == l.Limit(Program);
    if Get(l.Of(Program), other.program) >= l.Limit(Program) {
      assert Get(Admit(l, r).Of(Program), other.program) >= l.Limit(Program);
    } else if other.provider != "" && Get(l.Of(Provider), other.provider) >= l.Limit(Provider) {
      assert Get(Admit(l, r).Of(Provider), other.provider) >= l.Limit(Provider);
    } else {
      var h :| h in other.hosts && Get(l.hosts, h) >= l.limits.host;
      assert Get(Admit(l, r).Of(Host), h) >= Get(l.Of(Host), h);
    }
  }

  lemma AttemptWakes(s: System, client: nat, r: Request)
    requires NoLostWakeup(s) && Normal(r)
    ensures NoLostWakeup(Attempt(s, client, r))
  {
    if Available(s.slots, r) {
      forall w | w in s.waiters && s.waiters[w].epoch == s.slots.epoch
        ensures !Available(Admit(s.slots, r), s.waiters[w].request)
      {
        AdmitKeepsUnavailable(s.slots, r, s.waiters[w].request);
      }
    }
  }

  /** Waiters hold channels that exist. */
  ghost predicate Opened(s: System) {
    forall client :: client in s.waiters ==> s.waiters[client].epoch <= s.slots.epoch
  }

  lemma NextWakes(s: System, a: Action)
    requires Accounted(s) && Opened(s) && NoLostWakeup(s) && CanStep(s, a)
    ensures Opened(Next(s, a)) && NoLostWakeup(Next(s, a))
  {
    match a
    case Try(client, r) => AttemptWakes(s, client, r);
    case Wake(client) => AttemptWakes(s.(waiters := s.waiters - {client}), client, s.waiters[client].request);
    case GiveUp(client) =>
    case ReleaseCall(lease) =>
  }

  /** In every interleaving the counters are exact and no wakeup is lost. */
  lemma {:induction false} LimiterSafety(limits: Limits, tr: seq<System>, actions: seq<Action>)
    requires IsRun(tr, actions) && tr[0] == Initial(limits)
    ensures forall i :: 0 <= i < |tr| ==> Accounted(tr[i]) && Opened(tr[i]) && NoLostWakeup(tr[i])
  {
    if actions == [] {
      assert forall kind, name :: Holders(map[], kind, name) == {};
    } else {
      var n := |actions| - 1;
      LimiterSafety(limits, tr[..n + 1], actions[..n]);
      assert tr[..n + 1][n] == tr[n];
      NextAccounts(tr[n], actions[n]);
      NextWakes(tr[n], actions[n]);
    }
  }

  /** With no live lease every request is admissible, because limits are at least one. */
  lemma IdleAdmitsAll(s: System, r: Request)
    requires Accounted(s) && s.live == map[]
    ensures Available(s.slots, r)
  {
    forall kind, name ensures Get(s.slots.Of(kind), name) == 0 && s.slots.Limit(kind) >= 1 {
      assert Counts(s.slots.Of(kind), s.live, kind) && WithinLimit(s.slots, kind);
      assert Holders(s.live, kind, name) == {};
    }
    assert Get(s.slots.Of(Program), r.program) == 0 && s.slots.Limit(Program) >= 1;
    assert Get(s.slots.Of(Provider), r.provider) == 0 && s.slots.Limit(Provider) >= 1;
    forall h | h in r.hosts ensures Get(s.slots.hosts, h) < s.slots.limits.host {
      assert Get(s.slots.Of(Host), h) == 0 && s.slots.Limit(Host) >= 1;
    }
  }

  /** Nobody sleeps forever by accident: in every reachable state, a client parked on the
      open channel waits for a lease that some other client still holds, whose release
      will close that channel. */
  lemma SleepersHaveAHolder(limits: Limits, tr: seq<System>, actions: seq<Action>, client: nat)
    requires IsRun(tr, actions) && tr[0] == Initial(limits)
    requires client in tr[|tr| - 1].waiters && tr[|tr| - 1].waiters[client].epoch == tr[|tr| - 1].slots.epoch
    ensures var s := tr[|tr| - 1];
            exists lease :: lease in s.live && CanStep(s, ReleaseCall(lease)) && CanStep(Next(s, ReleaseCall(lease)), Wake(client))
  {
    LimiterSafety(limits, tr, actions);
    var s := tr[|tr| - 1];
    if s.live == map[] {
      IdleAdmitsAll(s, s.waiters[client].request);
      assert false;
    }
    assert s.live.Keys != {};
    var lease :| lease in s.live;
    assert CanStep(s, ReleaseCall(lease)) && CanStep(Next(s, ReleaseCall(lease)), Wake(client));
  }

  /** Distinct hosts matter: a request naming one host twice would pass the check with
      one slot free and then hold two. */
  lemma RepeatedHostsOverrun(p: string, h: string)
    ensures var l := Slots(Limits(1, 1, 1), map[], map[], map[], 0);
            var r := Request(p, "", [h, h]);
            Available(l, r) && Get(Admit(l, r).hosts, h) > l.limits.host
  {
    var r := Request(p, "", [h, h]);
    assert [h, h][..1] == [h] && [h][..0] == [];
    assert IncrementAll(map[], [h]) == Increment(map[], h);
    assert IncrementAll(map[], r.hosts) == Increment(IncrementAll(map[], [h]), h);
  }
}
