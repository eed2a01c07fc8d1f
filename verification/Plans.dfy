/** What a plan contains, in terms of the scope's rules: the seeds, roots, wildcards,
    protocols, ports and warnings that the rules spell out, all of them and no others. */
module Plans {
  import opened Order
  import opened Strings
  import opened Wrappers
  import opened Regex
  import opened Scope
  import opened Targeting

  // ---- what a pattern spells out ----

  /** The enumerator finds the pattern finite and lists it so. */
  ghost predicate Lists(t: Tools, pattern: string, limit: nat, values: seq<string>) {
    t.pattern(pattern).Some? && Enum(t.pattern(pattern).value, limit) == Some(values)
  }

  ghost predicate NamesHost(t: Tools, pattern: string, host: string) {
    exists x :: Lists(t, pattern, 2, [x]) && t.host(x) == Some(host)
  }

  /** Where to start: at the root if the pattern allows it, and otherwise at its only path. */
  ghost predicate StartsAt(t: Tools, pattern: string, path: string) {
    t.lib.compiles(pattern) && if t.lib.full(pattern, "/") then path == "/" else "/" <= path && Lists(t, pattern, 2, [path])
  }

  ghost predicate NamesProtocol(t: Tools, pattern: string, protocol: string) {
    exists values :: Lists(t, pattern, 8, values) && protocol in values && forall v :: v in values ==> v == "http" || v == "https"
  }

  ghost predicate IsPort(value: string, port: int) {
    1 <= port <= 65535 && Atoi(value) == Some(port)
  }

  ghost predicate NamesPort(t: Tools, pattern: string, port: nat) {
    exists values :: Lists(t, pattern, 32, values) && (exists v :: v in values && IsPort(v, port))
      && forall v :: v in values ==> exists n :: IsPort(v, n)
  }

  /** Any labels, or one, before `rest`, with or without anchors. */
  ghost predicate IsWildcard(pattern: string, rest: string) {
    exists head, lead, tail :: IsCutInto(pattern, head, lead, rest, tail)
  }

  predicate IsCutInto(pattern: string, head: string, lead: string, rest: string, tail: string) {
    && (head == "" || head == "^") && (lead == ".*\\." || lead == "[^.]+\\.") && (tail == "" || tail == "$")
    && pattern == head + lead + rest + tail && (tail == "" ==> !HasSuffix(rest, "$"))
  }

  ghost predicate NamesBase(t: Tools, pattern: string, base: string) {
    && (forall host :: !NamesHost(t, pattern, host))
    && !t.isIp(base) && exists rest :: IsWildcard(pattern, rest) && NamesHost(t, "^" + rest + "$", base)
  }

  lemma HostNamed(t: Tools, pattern: string, host: string)
    ensures NamesHost(t, pattern, host) <==> ExactHost(t, pattern) == Some(host)
  {
    var values := FiniteLiterals(t, pattern, 2);
    if values.Some? && |values.value| == 1 { assert values.value == [values.value[0]]; }
  }

  lemma PathNamed(t: Tools, pattern: string, path: string)
    ensures StartsAt(t, pattern, path) <==> InitialPath(t, pattern) == Some(path)
  {
    var values := FiniteLiterals(t, pattern, 2);
    if values.Some? && |values.value| == 1 { assert values.value == [values.value[0]]; }
  }

  lemma ProtocolsNamed(t: Tools, pattern: string)
    ensures FiniteProtocols(t, pattern).None? ==> forall v :: !NamesProtocol(t, pattern, v)
    ensures FiniteProtocols(t, pattern).Some? ==>
      FiniteProtocols(t, pattern).value != [] && forall v :: v in FiniteProtocols(t, pattern).value <==> NamesProtocol(t, pattern, v)
  {
    var values := FiniteLiterals(t, pattern, 8);
    if values.Some? {
      assert Lists(t, pattern, 8, values.value);
      SameElements(values.value, SortStrings(values.value));
    }
  }

  lemma {:induction false} PortsRead(values: seq<string>)
    requires forall v :: v in values ==> ValidPort(v)
    ensures NoDuplicates(PortsOf(values)) && forall p :: p in PortsOf(values) <==> exists v :: v in values && IsPort(v, p)
    ensures values != [] ==> PortsOf(values) != []
  {
    if values != [] {
      var init, last := values[..|values| - 1], values[|values| - 1];
      assert values == init + [last];
      assert forall v :: v in values <==> v in init || v == last;
      assert ValidPort(last) && IsPort(last, Atoi(last).value);
      PortsRead(init);
    }
  }

  lemma PortsNamed(t: Tools, pattern: string)
    ensures FinitePorts(t, pattern).None? ==> forall p :: !NamesPort(t, pattern, p)
    ensures FinitePorts(t, pattern).Some? ==>
      FinitePorts(t, pattern).value != [] && forall p :: p in FinitePorts(t, pattern).value <==> NamesPort(t, pattern, p)
  {
    var values := FiniteLiterals(t, pattern, 32);
    forall v ensures ValidPort(v) <==> exists n :: IsPort(v, n) {
      if ValidPort(v) { assert IsPort(v, Atoi(v).value); }
    }
    if values.Some? && forall v :: v in values.value ==> ValidPort(v) {
      assert Lists(t, pattern, 32, values.value);
      PortsRead(values.value);
      SameElements(PortsOf(values.value), SortInts(PortsOf(values.value)));
    }
  }

  lemma LastChar(s: string)
    ensures HasSuffix(s, "$") <==> s != "" && s[|s| - 1] == '$'
  {
    if s != "" { assert s[|s| - 1..] == [s[|s| - 1]]; }
  }

  lemma Trimmed(s: string)
    ensures TrimSuffix(s + "$", "$") == s && TrimPrefix("^" + s, "^") == s
    ensures s != "" && s[|s| - 1] != '$' ==> TrimSuffix(s, "$") == s
    ensures s != "" && s[0] != '^' ==> TrimPrefix(s, "^") == s
  {
    LastChar(s);
    LastChar(s + "$");
    assert (s + "$")[..|s|] == s && ("^" + s)[1..] == s;
  }

  /** Cutting the anchors off leaves the labels and the rest. */
  lemma CutsTo(pattern: string, head: string, lead: string, rest: string, tail: string)
    requires IsCutInto(pattern, head, lead, rest, tail)
    ensures TrimPrefix(TrimSuffix(pattern, "$"), "^") == lead + rest
  {
    var body := lead + rest;
    var inner := head + body;
    assert pattern == inner + tail;
    LastChar(rest);
    assert lead[|lead| - 1] == '.' && lead[0] != '^';
    assert inner[|inner| - 1] == if rest == "" then lead[|lead| - 1] else rest[|rest| - 1];
    if tail == "" { assert pattern == inner; }
    Trimmed(inner);
    assert body[0] == lead[0];
    if head == "" { assert inner == body; }
    Trimmed(body);
  }

  lemma JoinsFrom(pattern: string, lead: string, rest: string)
    requires lead == ".*\\." || lead == "[^.]+\\."
    requires TrimPrefix(TrimSuffix(pattern, "$"), "^") == lead + rest
    ensures IsWildcard(pattern, rest)
  {
    var cut := TrimSuffix(pattern, "$");
    var head := if "^" <= cut then "^" else "";
    assert cut == head + (lead + rest);
    assert cut == head + lead + rest;
    if HasSuffix(pattern, "$") {
      assert pattern == cut + "$";
      assert IsCutInto(pattern, head, lead, rest, "$");
    } else {
      NoDollar(head + lead, rest);
      assert pattern == cut == cut + "";
      assert IsCutInto(pattern, head, lead, rest, "");
    }
  }

  lemma NoDollar(front: string, rest: string)
    requires !HasSuffix(front + rest, "$")
    ensures !HasSuffix(rest, "$")
  {
    LastChar(front + rest);
    LastChar(rest);
  }

  lemma WildcardCut(pattern: string, rest: string)
    ensures IsWildcard(pattern, rest) <==>
      var body := TrimPrefix(TrimSuffix(pattern, "$"), "^");
      body == ANY_LABELS + rest || body == ONE_LABEL + rest
  {
    var body := TrimPrefix(TrimSuffix(pattern, "$"), "^");
    if IsWildcard(pattern, rest) {
      var head, lead, tail :| IsCutInto(pattern, head, lead, rest, tail);
      CutsTo(pattern, head, lead, rest, tail);
    }
    if body == ANY_LABELS + rest { JoinsFrom(pattern, ANY_LABELS, rest); }
    if body == ONE_LABEL + rest { JoinsFrom(pattern, ONE_LABEL, rest); }
  }

  lemma BaseNamed(t: Tools, r: NormalizedRule, base: string)
    ensures NamesBase(t, r.host, base) <==> RuleBase(t, r) == Some(base)
  {
    forall host ensures NamesHost(t, r.host, host) <==> ExactHost(t, r.host) == Some(host) { HostNamed(t, r.host, host); }
    assert (forall host :: !NamesHost(t, r.host, host)) <==> ExactHost(t, r.host).None? by {
      if ExactHost(t, r.host).Some? { assert NamesHost(t, r.host, ExactHost(t, r.host).value); }
    }
    NarrowNamed(t, r.host, base);
  }

  lemma NarrowNamed(t: Tools, pattern: string, base: string)
    ensures NarrowWildcardBase(t, pattern) == Some(base) <==>
      !t.isIp(base) && exists rest :: IsWildcard(pattern, rest) && NamesHost(t, "^" + rest + "$", base)
  {
    var body := TrimPrefix(TrimSuffix(pattern, "$"), "^");
    if exists rest :: IsWildcard(pattern, rest) && NamesHost(t, "^" + rest + "$", base) {
      var rest :| IsWildcard(pattern, rest) && NamesHost(t, "^" + rest + "$", base);
      WildcardCut(pattern, rest);
      RestRead(body, rest);
      HostNamed(t, "^" + rest + "$", base);
    }
    if NarrowWildcardBase(t, pattern) == Some(base) {
      var rest := if ANY_LABELS <= body then body[|ANY_LABELS|..] else body[|ONE_LABEL|..];
      WildcardCut(pattern, rest);
      RestRead(body, rest);
      HostNamed(t, "^" + rest + "$", base);
      assert IsWildcard(pattern, rest) && NamesHost(t, "^" + rest + "$", base);
    }
  }

  lemma RestRead(body: string, rest: string)
    ensures body == ANY_LABELS + rest <==> ANY_LABELS <= body && rest == TrimPrefix(body, ANY_LABELS)
    ensures body == ONE_LABEL + rest <==> ONE_LABEL <= body && rest == TrimPrefix(body, ONE_LABEL)
    ensures ANY_LABELS <= body ==> !(ONE_LABEL <= body)
  {
    if ANY_LABELS <= body { assert body[0] == ANY_LABELS[0]; }
    if ONE_LABEL <= body { assert body[0] == ONE_LABEL[0]; }
    assert body == ANY_LABELS + rest ==> body[|ANY_LABELS|..] == rest;
    assert body == ONE_LABEL + rest ==> body[|ONE_LABEL|..] == rest;
  }

  // ---- hosts and paths by the language of the pattern ----

  lemma {:induction false} ListsAreDistinct(re: Regex, limit: nat)
    requires Enum(re, limit).Some?
    ensures NoDuplicates(Enum(re, limit).value)
  {
    match re
    case Capture(sub) => ListsAreDistinct(sub, limit);
    case Concat(subs) => UniqueIsDistinct(EnumConcat(re, 0, [""], limit).value);
    case Alternate(subs) => UniqueIsDistinct(EnumAlternate(re, 0, [], limit).value);
    case Quest(sub, _) => UniqueIsDistinct(Enum(sub, limit).value + [""]);
    case _ =>
  }

  lemma UniqueIsDistinct(s: seq<string>)
    ensures NoDuplicates(Unique(s))
  {
    PermutedDistinct(Dedup(s), Unique(s));
  }

  lemma AllAlike(list: seq<string>, x: string)
    requires forall i :: 0 <= i < |list| ==> list[i] == x
    ensures |list| > 1 ==> !NoDuplicates(list)
  {
    if |list| > 1 { assert list[0] == list[1]; }
  }

  lemma OneElement(list: seq<string>, x: string)
    requires NoDuplicates(list)
    ensures list == [x] <==> forall w :: w in list <==> w == x
  {
    if forall w :: w in list <==> w == x {
      assert x in list;
      forall i | 0 <= i < |list| ensures list[i] == x { assert list[i] in list; }
      AllAlike(list, x);
      assert list == [x];
    }
  }

  /** A finite pattern with its anchors outside lists one string exactly if that string is
      all of its language. */
  lemma OneStringIsTheLanguage(t: Tools, pattern: string, re: Regex, x: string)
    requires t.pattern(pattern) == Some(re) && AnchorsOutside(re, true, true) && Enum(re, 2).Some?
    ensures Lists(t, pattern, 2, [x]) <==> forall w :: InLanguage(re, w) <==> w == x
  {
    ListsAreDistinct(re, 2);
    ListedInLanguage(re, 2, Enum(re, 2).value);
    OneElement(Enum(re, 2).value, x);
  }

  lemma ListedInLanguage(re: Regex, limit: nat, list: seq<string>)
    requires AnchorsOutside(re, true, true) && Enum(re, limit) == Some(list)
    ensures forall w :: w in list <==> InLanguage(re, w)
  {
    forall w ensures w in list <==> InLanguage(re, w) { EnumerationIsExact(re, limit, w); }
  }

  /** A host is exact if the language of its pattern is one string, which is normalised; the
      initial path is the root where the pattern matches it, and otherwise the only string
      of its language, if that is an absolute path. */
  lemma ExactByLanguage(t: Tools, pattern: string, re: Regex, value: string)
    requires t.pattern(pattern) == Some(re) && AnchorsOutside(re, true, true) && Enum(re, 2).Some?
    ensures ExactHost(t, pattern) == Some(value) <==> exists x :: (forall w :: InLanguage(re, w) <==> w == x) && t.host(x) == Some(value)
    ensures InitialPath(t, pattern) == Some(value) <==>
      && t.lib.compiles(pattern)
      && if t.lib.full(pattern, "/") then value == "/" else "/" <= value && forall w :: InLanguage(re, w) <==> w == value
  {
    HostNamed(t, pattern, value);
    PathNamed(t, pattern, value);
    forall x { OneStringIsTheLanguage(t, pattern, re, x); }
  }

  /** An expression that does not parse, or that the enumerator gives up on, names no host
      and at most the root as its path. */
  lemma InfiniteIsNotExact(t: Tools, pattern: string)
    requires t.pattern(pattern).None? || Enum(t.pattern(pattern).value, 2).None?
    ensures ExactHost(t, pattern).None? && (InitialPath(t, pattern).Some? <==> t.lib.compiles(pattern) && t.lib.full(pattern, "/"))
  {}

  // ---- seeds ----

  /** The rule spells out an endpoint of the host that the whole scope allows. */
  ghost predicate Proposes(t: Tools, s: Scope, r: NormalizedRule, host: string, e: Endpoint) {
    && NamesHost(t, r.host, host) && NamesProtocol(t, r.protocol, e.protocol) && NamesPort(t, r.port, e.port)
    && Allows(t.lib, s, e.url)
    && exists path :: StartsAt(t, r.file, path) && e.url == t.show(Url(e.protocol, host, PortText(e.protocol, e.port), path))
  }

  /** The port as it is written: not at all where the protocol implies it. */
  function PortText(protocol: string, port: nat): string {
    if protocol == "http" && port == 80 then "" else if protocol == "https" && port == 443 then "" else Decimal(port)
  }

  datatype Item = Item(rule: NormalizedRule, host: string, endpoint: Endpoint)

  ghost predicate Fits(it: Item, seed: ActiveSeed) {
    it.host == seed.host && it.rule.file == seed.pathPattern
  }

  ghost predicate HasUrl(seed: ActiveSeed, url: string) {
    exists x :: x in seed.endpoints && x.url == url
  }

  ghost predicate Recorded(it: Item, seeds: map<string, ActiveSeed>) {
    var key := SeedKey(it.host, it.rule.file);
    key in seeds && Fits(it, seeds[key]) && it.rule.id in seeds[key].ruleIds && HasUrl(seeds[key], it.endpoint.url)
  }

  /** Whatever the seed holds comes from an item. */
  ghost predicate Founded(seed: ActiveSeed, items: set<Item>) {
    && seed.endpoints != []
    && (forall e :: e in seed.endpoints ==> exists it :: it in items && Fits(it, seed) && it.endpoint == e)
    && (forall id :: id in seed.ruleIds ==> exists it :: it in items && Fits(it, seed) && it.rule.id == id)
  }

  ghost predicate Sourced(key: string, seed: ActiveSeed, items: set<Item>) {
    key == SeedKey(seed.host, seed.pathPattern) && Separated(seed.host) && Founded(seed, items)
  }

  ghost predicate Collected(seeds: map<string, ActiveSeed>, items: set<Item>) {
    && (forall it :: it in items ==> Separated(it.host) && Recorded(it, seeds))
    && (forall k :: k in seeds ==> Sourced(k, seeds[k], items))
  }

  lemma FoundedMore(seed: ActiveSeed, items: set<Item>, more: set<Item>)
    requires Founded(seed, items) && items <= more
    ensures Founded(seed, more)
  {}

  lemma Appended(items: seq<Endpoint>, e: Endpoint)
    ensures var r := AppendEndpoint(items, e);
            && r != [] && (forall x :: x in items ==> x in r) && (forall x :: x in r ==> x in items || x == e)
            && exists x :: x in r && x.url == e.url
  {
    if !exists x :: x in items && x.url == e.url { assert e in items + [e]; }
  }

  function ItemFor(t: Tools, r: NormalizedRule, host: string, path: string, protocol: string, port: nat): Item {
    Item(r, host, Endpoint(protocol, port, t.show(EndpointUrl(protocol, host, port, path))))
  }

  lemma EndpointCollected(t: Tools, s: Scope, seeds: map<string, ActiveSeed>, items: set<Item>, r: NormalizedRule, host: string, path: string, protocol: string, port: nat)
    requires Collected(seeds, items) && Separated(host)
    ensures var it := ItemFor(t, r, host, path, protocol, port);
            Collected(AddEndpoint(t, s, seeds, r, host, path, protocol, port), if Allows(t.lib, s, it.endpoint.url) then items + {it} else items)
  {
    var it := ItemFor(t, r, host, path, protocol, port);
    if Allows(t.lib, s, it.endpoint.url) {
      SeedCollected(seeds, items, it, AddEndpoint(t, s, seeds, r, host, path, protocol, port));
    }
  }

  /** The seed under a key, or an empty one for the item. */
  function SeedBefore(seeds: map<string, ActiveSeed>, it: Item): ActiveSeed {
    var key := SeedKey(it.host, it.rule.file);
    if key in seeds then seeds[key] else ActiveSeed(it.host, [], it.rule.file, [])
  }

  function SeedAfter(seed: ActiveSeed, it: Item): ActiveSeed {
    ActiveSeed(it.host, AppendEndpoint(seed.endpoints, it.endpoint), it.rule.file, AppendUnique(seed.ruleIds, it.rule.id))
  }

  lemma SeedCollected(seeds: map<string, ActiveSeed>, items: set<Item>, it: Item, seeds': map<string, ActiveSeed>)
    requires Collected(seeds, items) && Separated(it.host)
    requires seeds' == seeds[SeedKey(it.host, it.rule.file) := SeedAfter(SeedBefore(seeds, it), it)]
    ensures Collected(seeds', items + {it})
  {
    var key, seed := SeedKey(it.host, it.rule.file), SeedBefore(seeds, it);
    KeyReads(seeds, key, it.host, it.rule.file);
    SeedSourced(key, seed, items, it);
    forall k | k in seeds' ensures Sourced(k, seeds'[k], items + {it}) {
      if k != key { FoundedMore(seeds[k], items, items + {it}); }
    }
    Appended(seed.endpoints, it.endpoint);
    forall x | x in items ensures Recorded(x, seeds') {
      StillRecorded(seeds, seeds', key, x);
    }
    ItemRecorded(seeds, it, seeds');
  }

  lemma ItemRecorded(seeds: map<string, ActiveSeed>, it: Item, seeds': map<string, ActiveSeed>)
    requires seeds' == seeds[SeedKey(it.host, it.rule.file) := SeedAfter(SeedBefore(seeds, it), it)]
    ensures Recorded(it, seeds')
  {
    Appended(SeedBefore(seeds, it).endpoints, it.endpoint);
  }

  lemma SeedSourced(key: string, seed: ActiveSeed, items: set<Item>, it: Item)
    requires key == SeedKey(it.host, it.rule.file) && Separated(it.host) && Fits(it, seed)
    requires (seed.endpoints == [] && seed.ruleIds == []) || Founded(seed, items)
    ensures Sourced(key, SeedAfter(seed, it), items + {it})
  {
    SeedFounded(seed.endpoints, seed.ruleIds, items, it, SeedAfter(seed, it));
  }

  lemma KeyReads(seeds: map<string, ActiveSeed>, key: string, host: string, file: string)
    requires key == SeedKey(host, file) && Separated(host)
    requires forall k :: k in seeds ==> k == SeedKey(seeds[k].host, seeds[k].pathPattern) && Separated(seeds[k].host)
    ensures key in seeds ==> seeds[key].host == host && seeds[key].pathPattern == file
  {
    if key in seeds { HeadAndTail(host, file, seeds[key].host, seeds[key].pathPattern); }
  }

  lemma SeedFounded(endpoints: seq<Endpoint>, ruleIds: seq<string>, items: set<Item>, it: Item, seed: ActiveSeed)
    requires seed == ActiveSeed(it.host, AppendEndpoint(endpoints, it.endpoint), it.rule.file, AppendUnique(ruleIds, it.rule.id))
    requires forall e :: e in endpoints ==> exists x :: x in items && Fits(x, seed) && x.endpoint == e
    requires forall id :: id in ruleIds ==> exists x :: x in items && Fits(x, seed) && x.rule.id == id
    ensures Founded(seed, items + {it})
  {
    Appended(endpoints, it.endpoint);
    var items' := items + {it};
    forall e | e in seed.endpoints ensures exists x :: x in items' && Fits(x, seed) && x.endpoint == e {
      if e in endpoints {
        var x :| x in items && Fits(x, seed) && x.endpoint == e;
        assert x in items';
      } else {
        assert it in items' && Fits(it, seed);
      }
    }
    forall id | id in seed.ruleIds ensures exists x :: x in items' && Fits(x, seed) && x.rule.id == id {
      if id in ruleIds {
        var x :| x in items && Fits(x, seed) && x.rule.id == id;
        assert x in items';
      } else {
        assert it in items' && Fits(it, seed);
      }
    }
  }

  lemma StillRecorded(seeds: map<string, ActiveSeed>, seeds': map<string, ActiveSeed>, key: string, it: Item)
    requires Recorded(it, seeds) && key in seeds' && seeds' == seeds[key := seeds'[key]]
    requires key in seeds ==>
      && seeds'[key].host == seeds[key].host && seeds'[key].pathPattern == seeds[key].pathPattern
      && (forall id :: id in seeds[key].ruleIds ==> id in seeds'[key].ruleIds)
      && (forall e :: e in seeds[key].endpoints ==> e in seeds'[key].endpoints)
    ensures Recorded(it, seeds')
  {
    var k := SeedKey(it.host, it.rule.file);
    var x :| x in seeds[k].endpoints && x.url == it.endpoint.url;
    assert x in seeds'[k].endpoints;
  }

  // ---- the endpoints of the rules ----

  ghost function PortItems(t: Tools, s: Scope, r: NormalizedRule, host: string, path: string, protocol: string, ports: seq<nat>): set<Item> {
    set port | port in ports && Allows(t.lib, s, ItemFor(t, r, host, path, protocol, port).endpoint.url) :: ItemFor(t, r, host, path, protocol, port)
  }

  ghost function ProtocolItems(t: Tools, s: Scope, r: NormalizedRule, host: string, path: string, protocols: seq<string>, ports: seq<nat>): set<Item> {
    set protocol, it | protocol in protocols && it in PortItems(t, s, r, host, path, protocol, ports) :: it
  }

  ghost function RuleItems(t: Tools, s: Scope, r: NormalizedRule): set<Item> {
    var host, path := ExactHost(t, r.host), InitialPath(t, r.file);
    var protocols, ports := FiniteProtocols(t, r.protocol), FinitePorts(t, r.port);
    if host.None? || path.None? || protocols.None? || ports.None? then {}
    else ProtocolItems(t, s, r, host.value, path.value, protocols.value, ports.value)
  }

  ghost function AllItems(t: Tools, s: Scope, rules: seq<NormalizedRule>): set<Item> {
    set r, it | r in rules && it in RuleItems(t, s, r) :: it
  }

  lemma {:induction false} PortsCollected(t: Tools, s: Scope, seeds: map<string, ActiveSeed>, items: set<Item>, r: NormalizedRule, host: string, path: string, protocol: string, ports: seq<nat>)
    requires Collected(seeds, items) && Separated(host)
    ensures Collected(AddPorts(t, s, seeds, r, host, path, protocol, ports), items + PortItems(t, s, r, host, path, protocol, ports))
  {
    if ports == [] {
      assert items + PortItems(t, s, r, host, path, protocol, ports) == items;
    } else {
      var init, last := ports[..|ports| - 1], ports[|ports| - 1];
      assert ports == init + [last];
      PortsCollected(t, s, seeds, items, r, host, path, protocol, init);
      EndpointCollected(t, s, AddPorts(t, s, seeds, r, host, path, protocol, init), items + PortItems(t, s, r, host, path, protocol, init), r, host, path, protocol, last);
      PortItemsSplit(t, s, items, r, host, path, protocol, init, last);
    }
  }

  lemma PortItemsSplit(t: Tools, s: Scope, items: set<Item>, r: NormalizedRule, host: string, path: string, protocol: string, init: seq<nat>, last: nat)
    ensures var before, it := items + PortItems(t, s, r, host, path, protocol, init), ItemFor(t, r, host, path, protocol, last);
            items + PortItems(t, s, r, host, path, protocol, init + [last]) == if Allows(t.lib, s, it.endpoint.url) then before + {it} else before
  {
    assert forall p :: p in init + [last] <==> p in init || p == last;
  }

  lemma {:induction false} ProtocolsCollected(t: Tools, s: Scope, seeds: map<string, ActiveSeed>, items: set<Item>, r: NormalizedRule, host: string, path: string, protocols: seq<string>, ports: seq<nat>)
    requires Collected(seeds, items) && Separated(host)
    ensures Collected(AddProtocols(t, s, seeds, r, host, path, protocols, ports), items + ProtocolItems(t, s, r, host, path, protocols, ports))
  {
    if protocols == [] {
      assert items + ProtocolItems(t, s, r, host, path, protocols, ports) == items;
    } else {
      var init, last := protocols[..|protocols| - 1], protocols[|protocols| - 1];
      assert protocols == init + [last];
      ProtocolsCollected(t, s, seeds, items, r, host, path, init, ports);
      PortsCollected(t, s, AddProtocols(t, s, seeds, r, host, path, init, ports), items + ProtocolItems(t, s, r, host, path, init, ports), r, host, path, last, ports);
      ProtocolItemsSplit(t, s, items, r, host, path, init, last, ports);
    }
  }

  lemma ProtocolItemsSplit(t: Tools, s: Scope, items: set<Item>, r: NormalizedRule, host: string, path: string, init: seq<string>, last: string, ports: seq<nat>)
    ensures items + ProtocolItems(t, s, r, host, path, init + [last], ports)
         == items + ProtocolItems(t, s, r, host, path, init, ports) + PortItems(t, s, r, host, path, last, ports)
  {
    assert forall p :: p in init + [last] <==> p in init || p == last;
  }

  /** Host names have no NUL, which separates them from the path pattern in seed keys. */
  ghost predicate PlainHosts(t: Tools) {
    forall x :: t.host(x).Some? ==> Separated(t.host(x).value)
  }

  lemma {:induction false} RulesCollected(t: Tools, s: Scope, rules: seq<NormalizedRule>)
    requires PlainHosts(t)
    ensures Collected(AddRules(t, s, rules).seeds, AllItems(t, s, rules))
  {
    if rules == [] {
      assert AllItems(t, s, rules) == {};
    } else {
      var init, last := rules[..|rules| - 1], rules[|rules| - 1];
      assert rules == init + [last];
      RulesCollected(t, s, init);
      assert AllItems(t, s, rules) == AllItems(t, s, init) + RuleItems(t, s, last);
      RuleCollected(t, s, AddRules(t, s, init).seeds, AllItems(t, s, init), last);
    }
  }

  lemma RuleCollected(t: Tools, s: Scope, seeds: map<string, ActiveSeed>, items: set<Item>, r: NormalizedRule)
    requires PlainHosts(t) && Collected(seeds, items)
    ensures Collected(RuleSeeds(t, s, seeds, r), items + RuleItems(t, s, r))
  {
    var host, path := ExactHost(t, r.host), InitialPath(t, r.file);
    var protocols, ports := FiniteProtocols(t, r.protocol), FinitePorts(t, r.port);
    if host.Some? && path.Some? && protocols.Some? && ports.Some? {
      ExactIsPlain(t, r.host);
      RuleSpelledOut(t, s, seeds, r, host.value, path.value, protocols.value, ports.value);
      ProtocolsCollected(t, s, seeds, items, r, host.value, path.value, protocols.value, ports.value);
    } else {
      assert items + RuleItems(t, s, r) == items;
    }
  }

  lemma RuleSpelledOut(t: Tools, s: Scope, seeds: map<string, ActiveSeed>, r: NormalizedRule, host: string, path: string, protocols: seq<string>, ports: seq<nat>)
    requires ExactHost(t, r.host) == Some(host) && InitialPath(t, r.file) == Some(path)
    requires FiniteProtocols(t, r.protocol) == Some(protocols) && FinitePorts(t, r.port) == Some(ports)
    ensures RuleSeeds(t, s, seeds, r) == AddProtocols(t, s, seeds, r, host, path, protocols, ports)
    ensures RuleItems(t, s, r) == ProtocolItems(t, s, r, host, path, protocols, ports)
  {}

  lemma ExactIsPlain(t: Tools, pattern: string)
    requires PlainHosts(t) && ExactHost(t, pattern).Some?
    ensures Separated(ExactHost(t, pattern).value)
  {
    var x := FiniteLiterals(t, pattern, 2).value[0];
    assert t.host(x) == ExactHost(t, pattern);
  }

  /** The items of a rule are what it proposes. */
  lemma ItemsAreProposed(t: Tools, s: Scope, r: NormalizedRule, it: Item)
    ensures it in RuleItems(t, s, r) <==> it.rule == r && Proposes(t, s, r, it.host, it.endpoint)
  {
    ItemsByParts(t, s, r, it);
    HostNamed(t, r.host, it.host);
    ProtocolsNamed(t, r.protocol);
    PortsNamed(t, r.port);
    forall path ensures StartsAt(t, r.file, path) <==> InitialPath(t, r.file) == Some(path) { PathNamed(t, r.file, path); }
    var e := it.endpoint;
    if NamesProtocol(t, r.protocol, e.protocol) {
      forall path ensures EndpointUrl(e.protocol, it.host, e.port, path) == Url(e.protocol, it.host, PortText(e.protocol, e.port), path) {}
    }
  }

  lemma ItemsByParts(t: Tools, s: Scope, r: NormalizedRule, it: Item)
    ensures it in RuleItems(t, s, r) <==>
      && it.rule == r && ExactHost(t, r.host) == Some(it.host) && InitialPath(t, r.file).Some?
      && FiniteProtocols(t, r.protocol).Some? && it.endpoint.protocol in FiniteProtocols(t, r.protocol).value
      && FinitePorts(t, r.port).Some? && it.endpoint.port in FinitePorts(t, r.port).value
      && it.endpoint.url == t.show(EndpointUrl(it.endpoint.protocol, it.host, it.endpoint.port, InitialPath(t, r.file).value))
      && Allows(t.lib, s, it.endpoint.url)
  {
    var host, path := ExactHost(t, r.host), InitialPath(t, r.file);
    var protocols, ports := FiniteProtocols(t, r.protocol), FinitePorts(t, r.port);
    if host.None? || path.None? || protocols.None? || ports.None? {
      assert RuleItems(t, s, r) == {};
    } else {
      assert RuleItems(t, s, r) == ProtocolItems(t, s, r, host.value, path.value, protocols.value, ports.value);
      ProtocolItem(t, s, r, host.value, path.value, protocols.value, ports.value, it);
    }
  }

  lemma ProtocolItem(t: Tools, s: Scope, r: NormalizedRule, host: string, path: string, protocols: seq<string>, ports: seq<nat>, it: Item)
    ensures it in ProtocolItems(t, s, r, host, path, protocols, ports) <==>
      it.endpoint.protocol in protocols && it in PortItems(t, s, r, host, path, it.endpoint.protocol, ports)
    ensures it in PortItems(t, s, r, host, path, it.endpoint.protocol, ports) <==>
      && it.rule == r && it.host == host && it.endpoint.port in ports
      && it.endpoint.url == t.show(EndpointUrl(it.endpoint.protocol, host, it.endpoint.port, path)) && Allows(t.lib, s, it.endpoint.url)
  {
    forall protocol ensures it in PortItems(t, s, r, host, path, protocol, ports) ==> protocol == it.endpoint.protocol {
      PortItem(t, s, r, host, path, protocol, ports, it);
    }
    PortItem(t, s, r, host, path, it.endpoint.protocol, ports, it);
  }

  lemma PortItem(t: Tools, s: Scope, r: NormalizedRule, host: string, path: string, protocol: string, ports: seq<nat>, it: Item)
    ensures it in PortItems(t, s, r, host, path, protocol, ports) <==>
      && it.rule == r && it.host == host && it.endpoint.protocol == protocol && it.endpoint.port in ports
      && it.endpoint.url == t.show(EndpointUrl(protocol, host, it.endpoint.port, path)) && Allows(t.lib, s, it.endpoint.url)
  {
    assert it == ItemFor(t, r, host, path, protocol, it.endpoint.port) <==>
      && it.rule == r && it.host == host && it.endpoint.protocol == protocol
      && it.endpoint.url == t.show(EndpointUrl(protocol, host, it.endpoint.port, path));
  }

  lemma AllItemsAreProposed(t: Tools, s: Scope, it: Item)
    ensures it in AllItems(t, s, s.includes) <==> it.rule in s.includes && Proposes(t, s, it.rule, it.host, it.endpoint)
  {
    forall r ensures it in RuleItems(t, s, r) <==> it.rule == r && Proposes(t, s, r, it.host, it.endpoint) { ItemsAreProposed(t, s, r, it); }
  }

  ghost predicate InOrder<T>(key: T -> string, items: seq<T>) {
    forall i, j :: 0 <= i < j < |items| ==> StrLess(key(items[i]), key(items[j]))
  }

  /** Items with distinct keys are sorted into the order of their keys. */
  lemma SortedInOrder<T(!new)>(less: (T, T) -> bool, key: T -> string, items: seq<T>)
    requires forall a, b :: less(a, b) <==> StrLess(key(a), key(b))
    requires forall i, j :: 0 <= i < j < |items| ==> key(items[i]) != key(items[j])
    ensures InOrder(key, SortBy(less, items))
  {
    var sorted := SortBy(less, items);
    assert TotalOn(less, Elements(items)) by { KeysAreTotal(less, key, items); }
    TotalIsWeak(less, Elements(items));
    SortBySorted(less, items);
    PermutedDistinct(items, sorted);
    SameElements(items, sorted);
    forall i, j | 0 <= i < j < |sorted| ensures StrLess(key(sorted[i]), key(sorted[j])) {
      assert sorted[i] in Elements(items) && sorted[j] in Elements(items);
    }
  }

  lemma KeysAreTotal<T(!new)>(less: (T, T) -> bool, key: T -> string, items: seq<T>)
    requires forall a, b :: less(a, b) <==> StrLess(key(a), key(b))
    requires forall i, j :: 0 <= i < j < |items| ==> key(items[i]) != key(items[j])
    ensures TotalOn(less, Elements(items))
  {
    var all := Elements(items);
    forall x | x in all ensures !less(x, x) { StrLessIrreflexive(key(x)); }
    forall x, y | x in all && y in all && x != y ensures less(x, y) || less(y, x) {
      var i :| 0 <= i < |items| && items[i] == x;
      var j :| 0 <= j < |items| && items[j] == y;
      assert key(x) != key(y);
      StrLessTotal(key(x), key(y));
    }
    forall x, y, z | x in all && y in all && z in all && less(x, y) && less(y, z) ensures less(x, z) {
      StrLessTransitive(key(x), key(y), key(z));
    }
  }

  /** The seed holds what the include rules with its path pattern propose for its host: an
      endpoint for every URL and the id of every such rule, and nothing else. */
  ghost predicate HoldsProposals(t: Tools, s: Scope, seed: ActiveSeed) {
    && seed.endpoints != []
    && (forall r, e :: r in s.includes && r.file == seed.pathPattern && Proposes(t, s, r, seed.host, e) ==> r.id in seed.ruleIds && HasUrl(seed, e.url))
    && (forall e :: e in seed.endpoints ==> exists r :: r in s.includes && r.file == seed.pathPattern && Proposes(t, s, r, seed.host, e))
    && (forall id :: id in seed.ruleIds ==> exists r, e :: r in s.includes && r.id == id && r.file == seed.pathPattern && Proposes(t, s, r, seed.host, e))
  }

  function UrlOf(e: Endpoint): string { e.url }

  function Itself(id: string): string { id }

  /** Endpoints and rule ids are listed once each, in order. */
  ghost predicate IsTidy(seed: ActiveSeed) {
    InOrder(UrlOf, seed.endpoints) && InOrder(Itself, seed.ruleIds)
  }

  lemma SeedIsTidy(t: Tools, s: Scope, k: string, seed: ActiveSeed)
    requires SeedOk(t, s, k, seed)
    ensures IsTidy(FinishedSeed(seed))
  {
    SortedInOrder(EndpointLess, UrlOf, seed.endpoints);
    SortedInOrder(StrLess, Itself, seed.ruleIds);
  }

  /** The active seeds of a plan are exactly what the include rules propose: a seed for every
      host and path pattern with a proposal, holding its proposals, and no other. */
  lemma SeedsAreTheProposals(t: Tools, s: Scope, manual: seq<ManualRoot>, p: Plan)
    requires PlainHosts(t) && IsPlan(t, s, manual, p)
    ensures forall r, host, e :: r in s.includes && Proposes(t, s, r, host, e) ==> exists seed :: seed in p.seeds && seed.host == host && seed.pathPattern == r.file
    ensures forall seed :: seed in p.seeds ==> HoldsProposals(t, s, seed) && IsTidy(seed)
    ensures forall i, j :: 0 <= i < j < |p.seeds| ==> p.seeds[i].host != p.seeds[j].host || p.seeds[i].pathPattern != p.seeds[j].pathPattern
  {
    var seeds, items := AddRules(t, s, s.includes).seeds, AllItems(t, s, s.includes);
    RulesCollected(t, s, s.includes);
    DraftOk(t, s, s.includes);
    forall r, host, e | r in s.includes && Proposes(t, s, r, host, e)
      ensures exists seed :: seed in p.seeds && seed.host == host && seed.pathPattern == r.file
    {
      AllItemsAreProposed(t, s, Item(r, host, e));
      assert Recorded(Item(r, host, e), seeds);
      assert FinishedSeed(seeds[SeedKey(host, r.file)]) in Elements(p.seeds);
    }
    forall seed | seed in p.seeds ensures HoldsProposals(t, s, seed) && IsTidy(seed) {
      assert seed in Elements(p.seeds);
      var k :| k in seeds && seed == FinishedSeed(seeds[k]);
      SeedIsTidy(t, s, k, seeds[k]);
      SeedHolds(t, s, seeds, items, k);
    }
    forall i, j | 0 <= i < j < |p.seeds| ensures p.seeds[i].host != p.seeds[j].host || p.seeds[i].pathPattern != p.seeds[j].pathPattern {
      assert p.seeds[i] in Elements(p.seeds) && p.seeds[j] in Elements(p.seeds);
      var k :| k in seeds && p.seeds[i] == FinishedSeed(seeds[k]);
      var l :| l in seeds && p.seeds[j] == FinishedSeed(seeds[l]);
      assert Sourced(k, seeds[k], items) && Sourced(l, seeds[l], items);
    }
  }

  lemma SeedHolds(t: Tools, s: Scope, seeds: map<string, ActiveSeed>, items: set<Item>, k: string)
    requires Collected(seeds, items) && items == AllItems(t, s, s.includes) && k in seeds
    ensures HoldsProposals(t, s, FinishedSeed(seeds[k]))
  {
    var was, seed := seeds[k], FinishedSeed(seeds[k]);
    assert Sourced(k, was, items);
    SameElements(was.endpoints, seed.endpoints);
    SameElements(was.ruleIds, seed.ruleIds);
    forall r, e | r in s.includes && r.file == seed.pathPattern && Proposes(t, s, r, seed.host, e) ensures r.id in seed.ruleIds && HasUrl(seed, e.url) {
      AllItemsAreProposed(t, s, Item(r, seed.host, e));
      RecordedUnder(Item(r, seed.host, e), seeds, k);
    }
    FoundedIsProposed(t, s, items, was, seed);
  }

  lemma RecordedUnder(it: Item, seeds: map<string, ActiveSeed>, k: string)
    requires Recorded(it, seeds) && k in seeds && k == SeedKey(it.host, it.rule.file)
    ensures it.rule.id in FinishedSeed(seeds[k]).ruleIds && HasUrl(FinishedSeed(seeds[k]), it.endpoint.url)
  {
    SameElements(seeds[k].endpoints, FinishedSeed(seeds[k]).endpoints);
    SameElements(seeds[k].ruleIds, FinishedSeed(seeds[k]).ruleIds);
    var x :| x in seeds[k].endpoints && x.url == it.endpoint.url;
    assert x in FinishedSeed(seeds[k]).endpoints;
  }

  lemma FoundedIsProposed(t: Tools, s: Scope, items: set<Item>, was: ActiveSeed, seed: ActiveSeed)
    requires Founded(was, items) && items == AllItems(t, s, s.includes) && seed.host == was.host && seed.pathPattern == was.pathPattern
    requires (forall e :: e in seed.endpoints ==> e in was.endpoints) && forall id :: id in seed.ruleIds ==> id in was.ruleIds
    ensures forall e :: e in seed.endpoints ==> exists r :: r in s.includes && r.file == seed.pathPattern && Proposes(t, s, r, seed.host, e)
    ensures forall id :: id in seed.ruleIds ==> exists r, e :: r in s.includes && r.id == id && r.file == seed.pathPattern && Proposes(t, s, r, seed.host, e)
  {
    forall e | e in seed.endpoints ensures exists r :: r in s.includes && r.file == seed.pathPattern && Proposes(t, s, r, seed.host, e) {
      var it :| it in items && Fits(it, was) && it.endpoint == e;
      AllItemsAreProposed(t, s, it);
    }
    forall id | id in seed.ruleIds ensures exists r, e :: r in s.includes && r.id == id && r.file == seed.pathPattern && Proposes(t, s, r, seed.host, e) {
      var it :| it in items && Fits(it, was) && it.rule.id == id;
      AllItemsAreProposed(t, s, it);
    }
  }

  // ---- roots ----

  /** The manual root names the domain. */
  predicate IsFor(t: Tools, m: ManualRoot, domain: string) {
    t.host(m.domain) == Some(domain)
  }

  ghost predicate SomeDerives(t: Tools, rules: seq<NormalizedRule>, domain: string) {
    exists r :: r in rules && NamesBase(t, r.host, domain)
  }

  ghost predicate SomeIsFor(t: Tools, manual: seq<ManualRoot>, domain: string) {
    exists m :: m in manual && IsFor(t, m, domain)
  }

  /** No later manual root names the domain. */
  ghost predicate IsLastFor(t: Tools, manual: seq<ManualRoot>, domain: string, i: nat) {
    i < |manual| && IsFor(t, manual[i], domain) && forall j :: i < j < |manual| ==> !IsFor(t, manual[j], domain)
  }

  /** The root's rules: the include rules that it is derived from, and an id of its own for
      every manual root. */
  ghost predicate IsSourceOf(t: Tools, rules: seq<NormalizedRule>, manual: seq<ManualRoot>, domain: string, id: string) {
    || (exists r :: r in rules && NamesBase(t, r.host, domain) && id == r.id)
    || (exists m :: m in manual && IsFor(t, m, domain) && id == "manual-" + t.digest(domain + "\0" + t.lib.trim(m.reason)))
  }

  /** A root as the rules and the manual roots make it: a manual one counts before a derived
      one, with the reason that was given last. */
  ghost predicate IsRoot(t: Tools, rules: seq<NormalizedRule>, manual: seq<ManualRoot>, root: DiscoveryRoot) {
    && root.source == (if SomeIsFor(t, manual, root.domain) then "manual" else "derived")
    && (!SomeIsFor(t, manual, root.domain) ==> root.reason == "")
    && (forall i: nat :: IsLastFor(t, manual, root.domain, i) ==> root.reason == t.lib.trim(manual[i].reason))
    && (forall id :: id in root.ruleIds <==> IsSourceOf(t, rules, manual, root.domain, id))
    && NoDuplicates(root.ruleIds)
  }

  ghost predicate Rooted(t: Tools, rules: seq<NormalizedRule>, manual: seq<ManualRoot>, roots: map<string, DiscoveryRoot>, domain: string) {
    && (domain in roots <==> SomeDerives(t, rules, domain) || SomeIsFor(t, manual, domain))
    && (domain in roots ==> roots[domain].domain == domain && IsRoot(t, rules, manual, roots[domain]))
  }

  // The same with the base domain of a rule as a parameter.

  ghost predicate SomeHasBase(baseOf: NormalizedRule -> Option<string>, rules: seq<NormalizedRule>, domain: string) {
    exists r :: r in rules && baseOf(r) == Some(domain)
  }

  ghost predicate HasBaseAndId(baseOf: NormalizedRule -> Option<string>, rules: seq<NormalizedRule>, domain: string, id: string) {
    exists r :: r in rules && baseOf(r) == Some(domain) && id == r.id
  }

  function DerivedRoots(baseOf: NormalizedRule -> Option<string>, rules: seq<NormalizedRule>): map<string, DiscoveryRoot> {
    if rules == [] then map[]
    else
      var before, last := DerivedRoots(baseOf, rules[..|rules| - 1]), rules[|rules| - 1];
      match baseOf(last) case None => before case Some(base) => AddDerivedRoot(before, base, last)
  }

  lemma {:induction false} DerivedByBase(baseOf: NormalizedRule -> Option<string>, rules: seq<NormalizedRule>, domain: string)
    ensures var roots := DerivedRoots(baseOf, rules);
            && (domain in roots <==> SomeHasBase(baseOf, rules, domain))
            && (domain in roots ==>
                  && roots[domain].domain == domain && roots[domain].source == "derived" && roots[domain].reason == ""
                  && NoDuplicates(roots[domain].ruleIds)
                  && forall id :: id in roots[domain].ruleIds <==> HasBaseAndId(baseOf, rules, domain, id))
  {
    if rules != [] {
      var init, last := rules[..|rules| - 1], rules[|rules| - 1];
      assert rules == init + [last];
      assert forall r :: r in rules <==> r in init || r == last;
      DerivedByBase(baseOf, init, domain);
    }
  }

  function BaseOf(t: Tools): NormalizedRule -> Option<string> {
    (r: NormalizedRule) => RuleBase(t, r)
  }

  lemma {:induction false} DraftRoots(t: Tools, s: Scope, rules: seq<NormalizedRule>)
    ensures AddRules(t, s, rules).roots == DerivedRoots(BaseOf(t), rules)
  {
    if rules != [] { DraftRoots(t, s, rules[..|rules| - 1]); }
  }

  lemma BasesNamed(t: Tools, rules: seq<NormalizedRule>, domain: string)
    ensures SomeHasBase(BaseOf(t), rules, domain) <==> SomeDerives(t, rules, domain)
    ensures forall id :: HasBaseAndId(BaseOf(t), rules, domain, id) <==> IsSourceOf(t, rules, [], domain, id)
  {
    forall r: NormalizedRule ensures NamesBase(t, r.host, domain) <==> BaseOf(t)(r) == Some(domain) { BaseNamed(t, r, domain); }
  }

  lemma DraftRooted(t: Tools, s: Scope, domain: string)
    ensures Rooted(t, s.includes, [], AddRules(t, s, s.includes).roots, domain)
  {
    DraftRoots(t, s, s.includes);
    DerivedByBase(BaseOf(t), s.includes, domain);
    BasesNamed(t, s.includes, domain);
  }

  lemma ManualMore(t: Tools, rules: seq<NormalizedRule>, init: seq<ManualRoot>, last: ManualRoot, domain: string, id: string)
    ensures SomeIsFor(t, init + [last], domain) <==> SomeIsFor(t, init, domain) || IsFor(t, last, domain)
    ensures IsSourceOf(t, rules, init + [last], domain, id) <==>
      || IsSourceOf(t, rules, init, domain, id)
      || (IsFor(t, last, domain) && id == "manual-" + t.digest(domain + "\0" + t.lib.trim(last.reason)))
  {
    assert forall m :: m in init + [last] <==> m in init || m == last;
  }

  lemma LastMore(t: Tools, init: seq<ManualRoot>, last: ManualRoot, domain: string, i: nat)
    requires IsLastFor(t, init + [last], domain, i)
    ensures if IsFor(t, last, domain) then i == |init| else IsLastFor(t, init, domain, i)
  {
    var manual := init + [last];
    assert manual[|init|] == last;
    if !IsFor(t, last, domain) {
      assert manual[i] == init[i];
      forall j | i < j < |init| ensures !IsFor(t, init[j], domain) { assert manual[j] == init[j]; }
    }
  }

  lemma {:induction false} ManualRooted(t: Tools, rules: seq<NormalizedRule>, derived: map<string, DiscoveryRoot>, manual: seq<ManualRoot>, domain: string)
    requires Rooted(t, rules, [], derived, domain) && AddManualRoots(t, derived, manual).Some?
    ensures Rooted(t, rules, manual, AddManualRoots(t, derived, manual).value, domain)
  {
    if manual != [] {
      var init, last := manual[..|manual| - 1], manual[|manual| - 1];
      assert manual == init + [last];
      ManualRooted(t, rules, derived, init, domain);
      ManualRootAdded(t, rules, AddManualRoots(t, derived, init).value, init, last, domain);
    }
  }

  lemma ManualRootAdded(t: Tools, rules: seq<NormalizedRule>, roots: map<string, DiscoveryRoot>, init: seq<ManualRoot>, last: ManualRoot, domain: string)
    requires Rooted(t, rules, init, roots, domain) && AddManualRoot(t, roots, last).Some?
    ensures Rooted(t, rules, init + [last], AddManualRoot(t, roots, last).value, domain)
  {
    var manual, roots' := init + [last], AddManualRoot(t, roots, last).value;
    forall id ensures IsSourceOf(t, rules, manual, domain, id) <==>
        || IsSourceOf(t, rules, init, domain, id)
        || (IsFor(t, last, domain) && id == "manual-" + t.digest(domain + "\0" + t.lib.trim(last.reason)))
    {
      ManualMore(t, rules, init, last, domain, id);
    }
    ManualMore(t, rules, init, last, domain, "");
    if domain in roots' {
      forall i: nat | IsLastFor(t, manual, domain, i) ensures roots'[domain].reason == t.lib.trim(manual[i].reason) {
        LastMore(t, init, last, domain, i);
      }
    }
  }

  /** The discovery roots of a plan are the bases of its wildcard rules and its manual roots,
      each domain once. */
  lemma RootsAreDerivedOrManual(t: Tools, s: Scope, manual: seq<ManualRoot>, p: Plan)
    requires IsPlan(t, s, manual, p)
    ensures forall domain :: (exists root :: root in p.roots && root.domain == domain) <==> SomeDerives(t, s.includes, domain) || SomeIsFor(t, manual, domain)
    ensures forall root :: root in p.roots ==> IsRoot(t, s.includes, manual, root)
    ensures forall i, j :: 0 <= i < j < |p.roots| ==> p.roots[i].domain != p.roots[j].domain
  {
    var derived := AddRules(t, s, s.includes).roots;
    var roots := AddManualRoots(t, derived, manual).value;
    DraftOk(t, s, s.includes);
    ManualRootsOk(t, derived, manual);
    RootsListed(roots, p.roots);
    forall domain ensures domain in roots <==> SomeDerives(t, s.includes, domain) || SomeIsFor(t, manual, domain) {
      DraftRooted(t, s, domain);
      ManualRooted(t, s.includes, derived, manual, domain);
    }
    forall root | root in p.roots ensures IsRoot(t, s.includes, manual, root) {
      DraftRooted(t, s, root.domain);
      ManualRooted(t, s.includes, derived, manual, root.domain);
      FinishedIsRoot(t, s.includes, manual, roots[root.domain]);
    }
  }

  lemma FinishedIsRoot(t: Tools, rules: seq<NormalizedRule>, manual: seq<ManualRoot>, root: DiscoveryRoot)
    requires IsRoot(t, rules, manual, root)
    ensures IsRoot(t, rules, manual, FinishedRoot(root))
  {
    SameElements(root.ruleIds, FinishedRoot(root).ruleIds);
    PermutedDistinct(root.ruleIds, FinishedRoot(root).ruleIds);
  }

  lemma RootsListed(roots: map<string, DiscoveryRoot>, listed: seq<DiscoveryRoot>)
    requires RootsOk(roots) && Elements(listed) == FinishedRoots(roots) && NoDuplicates(listed)
    ensures forall domain :: (exists root :: root in listed && root.domain == domain) <==> domain in roots
    ensures forall root :: root in listed ==> root.domain in roots && root == FinishedRoot(roots[root.domain])
    ensures forall i, j :: 0 <= i < j < |listed| ==> listed[i].domain != listed[j].domain
  {
    forall root | root in listed ensures root.domain in roots && root == FinishedRoot(roots[root.domain]) {
      assert root in Elements(listed);
    }
    forall domain | domain in roots ensures exists root :: root in listed && root.domain == domain {
      assert FinishedRoot(roots[domain]) in Elements(listed);
    }
    forall i, j | 0 <= i < j < |listed| ensures listed[i].domain != listed[j].domain {
      assert listed[i] in listed && listed[j] in listed;
    }
  }

  // ---- protocols, ports, wildcards and warnings ----

  ghost predicate IsWildcardOf(t: Tools, r: NormalizedRule, w: WildcardRule) {
    && NamesBase(t, r.host, w.base) && w.hostPattern == r.host && w.pathPattern == r.file && w.ruleId == r.id
    && (forall v :: v in w.protocols <==> NamesProtocol(t, r.protocol, v))
    && (forall v :: v in w.ports <==> NamesPort(t, r.port, v))
  }

  ghost predicate NamesNoProtocol(t: Tools, r: NormalizedRule) {
    forall v :: !NamesProtocol(t, r.protocol, v)
  }

  ghost predicate NamesNoPort(t: Tools, r: NormalizedRule) {
    forall v :: !NamesPort(t, r.port, v)
  }

  ghost predicate NamesNoHost(t: Tools, r: NormalizedRule) {
    forall host :: !NamesHost(t, r.host, host)
  }

  ghost predicate StartsNowhere(t: Tools, r: NormalizedRule) {
    forall path :: !StartsAt(t, r.file, path)
  }

  ghost predicate NamesNoBase(t: Tools, r: NormalizedRule) {
    forall base :: !NamesBase(t, r.host, base)
  }

  ghost predicate IsWarningOf(t: Tools, r: NormalizedRule, w: Warning) {
    && w.ruleId == r.id
    && (|| (w.code == "ambiguous_protocol_regex" && NamesNoProtocol(t, r))
        || (w.code == "ambiguous_port_regex" && NamesNoPort(t, r))
        || (w.code == "no_safe_initial_path" && !NamesNoHost(t, r) && StartsNowhere(t, r))
        || (w.code == "ambiguous_host_regex" && NamesNoHost(t, r) && NamesNoBase(t, r)))
  }

  lemma ProtocolsNone(t: Tools, r: NormalizedRule)
    ensures forall v :: v in OrNone(FiniteProtocols(t, r.protocol)) <==> NamesProtocol(t, r.protocol, v)
    ensures FiniteProtocols(t, r.protocol).None? <==> NamesNoProtocol(t, r)
  {
    ProtocolsNamed(t, r.protocol);
    var values := FiniteProtocols(t, r.protocol);
    if values.Some? { assert values.value[0] in values.value; }
  }

  lemma PortsNone(t: Tools, r: NormalizedRule)
    ensures forall v :: v in OrNone(FinitePorts(t, r.port)) <==> NamesPort(t, r.port, v)
    ensures FinitePorts(t, r.port).None? <==> NamesNoPort(t, r)
  {
    PortsNamed(t, r.port);
    var values := FinitePorts(t, r.port);
    if values.Some? { assert values.value[0] in values.value; }
  }

  lemma HostNone(t: Tools, r: NormalizedRule)
    ensures ExactHost(t, r.host).None? <==> NamesNoHost(t, r)
  {
    forall host ensures NamesHost(t, r.host, host) <==> ExactHost(t, r.host) == Some(host) { HostNamed(t, r.host, host); }
    if ExactHost(t, r.host).Some? { assert NamesHost(t, r.host, ExactHost(t, r.host).value); }
  }

  lemma PathNone(t: Tools, r: NormalizedRule)
    ensures InitialPath(t, r.file).None? <==> StartsNowhere(t, r)
  {
    forall path ensures StartsAt(t, r.file, path) <==> InitialPath(t, r.file) == Some(path) { PathNamed(t, r.file, path); }
    if InitialPath(t, r.file).Some? { assert StartsAt(t, r.file, InitialPath(t, r.file).value); }
  }

  lemma BaseNone(t: Tools, r: NormalizedRule)
    ensures RuleBase(t, r).None? <==> NamesNoBase(t, r)
  {
    forall base ensures NamesBase(t, r.host, base) <==> RuleBase(t, r) == Some(base) { BaseNamed(t, r, base); }
    if RuleBase(t, r).Some? { assert NamesBase(t, r.host, RuleBase(t, r).value); }
  }

  lemma WarningCodes(r: NormalizedRule, noProtocols: bool, noPorts: bool, noPath: bool, noHost: bool, w: Warning)
    ensures w in WarningsFor(r, noProtocols, noPorts, noPath, noHost) <==>
      && w.ruleId == r.id
      && (|| (w.code == "ambiguous_protocol_regex" && noProtocols) || (w.code == "ambiguous_port_regex" && noPorts)
          || (w.code == "no_safe_initial_path" && noPath) || (w.code == "ambiguous_host_regex" && noHost))
  {}

  lemma WarningsNamed(t: Tools, r: NormalizedRule, w: Warning)
    ensures w in RuleWarnings(t, r) <==> IsWarningOf(t, r, w)
  {
    ProtocolsNone(t, r);
    PortsNone(t, r);
    HostNone(t, r);
    PathNone(t, r);
    BaseNone(t, r);
    WarningCodes(r, FiniteProtocols(t, r.protocol).None?, FinitePorts(t, r.port).None?,
                 ExactHost(t, r.host).Some? && InitialPath(t, r.file).None?,
                 ExactHost(t, r.host).None? && NarrowWildcardBase(t, r.host).None?, w);
  }

  lemma WildcardOf(t: Tools, r: NormalizedRule, w: WildcardRule)
    requires RuleBase(t, r) == Some(w.base) && w.hostPattern == r.host && w.pathPattern == r.file && w.ruleId == r.id
    requires w.protocols == OrNone(FiniteProtocols(t, r.protocol)) && w.ports == OrNone(FinitePorts(t, r.port))
    ensures IsWildcardOf(t, r, w)
  {
    BaseNamed(t, r, w.base);
    ProtocolsNone(t, r);
    PortsNone(t, r);
  }

  lemma WildcardNamed(t: Tools, r: NormalizedRule, base: string)
    ensures forall w :: w in RuleWildcards(t, r) ==> IsWildcardOf(t, r, w)
    ensures NamesBase(t, r.host, base) ==> exists w :: w in RuleWildcards(t, r) && w.base == base
  {
    BaseNamed(t, r, base);
    if RuleBase(t, r).Some? {
      var w := RuleWildcards(t, r)[0];
      assert RuleWildcards(t, r) == [w];
      WildcardOf(t, r, w);
    }
  }

  /** Gathered lists hold what the rules give. */
  lemma {:induction false} GatheredMembers<T(!new)>(of: NormalizedRule -> seq<T>, rules: seq<NormalizedRule>)
    ensures forall x :: x in Gather(of, rules) <==> exists r :: r in rules && x in of(r)
  {
    if rules != [] {
      var init, last := rules[..|rules| - 1], rules[|rules| - 1];
      GatheredMembers(of, init);
      assert rules == init + [last];
      assert forall r :: r in rules <==> r in init || r == last;
    }
  }

  function ProtocolsOf(t: Tools): NormalizedRule -> seq<string> {
    (r: NormalizedRule) => OrNone(FiniteProtocols(t, r.protocol))
  }

  function PortsOfRule(t: Tools): NormalizedRule -> seq<nat> {
    (r: NormalizedRule) => OrNone(FinitePorts(t, r.port))
  }

  function WildcardsOfRule(t: Tools): NormalizedRule -> seq<WildcardRule> {
    (r: NormalizedRule) => RuleWildcards(t, r)
  }

  function WarningsOf(t: Tools): NormalizedRule -> seq<Warning> {
    (r: NormalizedRule) => RuleWarnings(t, r)
  }

  lemma {:induction false} DraftGathers(t: Tools, s: Scope, rules: seq<NormalizedRule>)
    ensures var d := AddRules(t, s, rules);
            && d.protocols == Elements(Gather(ProtocolsOf(t), rules)) && d.ports == Elements(Gather(PortsOfRule(t), rules))
            && d.wildcards == Gather(WildcardsOfRule(t), rules) && d.warnings == Gather(WarningsOf(t), rules)
  {
    if rules != [] { DraftGathers(t, s, rules[..|rules| - 1]); }
  }

  /** A plan allows the protocols and ports that some rule names. */
  lemma PlanAllowsWhatRulesName(t: Tools, s: Scope, manual: seq<ManualRoot>, p: Plan)
    requires IsPlan(t, s, manual, p)
    ensures forall v :: v in p.protocols <==> exists r :: r in s.includes && NamesProtocol(t, r.protocol, v)
    ensures forall v :: v in p.ports <==> exists r :: r in s.includes && NamesPort(t, r.port, v)
  {
    DraftGathers(t, s, s.includes);
    GatheredMembers(ProtocolsOf(t), s.includes);
    GatheredMembers(PortsOfRule(t), s.includes);
    forall r: NormalizedRule, v ensures v in ProtocolsOf(t)(r) <==> NamesProtocol(t, r.protocol, v) { ProtocolsNone(t, r); }
    forall r: NormalizedRule, v ensures v in PortsOfRule(t)(r) <==> NamesPort(t, r.port, v) { PortsNone(t, r); }
    assert forall v :: v in p.protocols <==> v in Elements(p.protocols);
    assert forall v :: v in p.ports <==> v in Elements(p.ports);
  }

  /** A plan has a wildcard for every rule with a base domain, and a warning for every part
      of a rule that names nothing. */
  lemma PlanWarnsOfTheRest(t: Tools, s: Scope, manual: seq<ManualRoot>, p: Plan)
    requires IsPlan(t, s, manual, p)
    ensures forall r, base :: r in s.includes && NamesBase(t, r.host, base) ==> exists w :: w in p.wildcards && w.base == base && IsWildcardOf(t, r, w)
    ensures forall w :: w in p.wildcards ==> exists r :: r in s.includes && IsWildcardOf(t, r, w)
    ensures forall w :: w in p.warnings <==> exists r :: r in s.includes && IsWarningOf(t, r, w)
  {
    var d := AddRules(t, s, s.includes);
    DraftGathers(t, s, s.includes);
    SameElements(d.wildcards, p.wildcards);
    SameElements(d.warnings, p.warnings);
    GatheredMembers(WarningsOf(t), s.includes);
    GatheredMembers(WildcardsOfRule(t), s.includes);
    forall r, w ensures w in WarningsOf(t)(r) <==> IsWarningOf(t, r, w) { WarningsNamed(t, r, w); }
    forall r, base | r in s.includes && NamesBase(t, r.host, base) ensures exists w :: w in p.wildcards && w.base == base && IsWildcardOf(t, r, w) {
      WildcardNamed(t, r, base);
      var w :| w in WildcardsOfRule(t)(r) && w.base == base;
      assert w in d.wildcards;
    }
    forall w | w in p.wildcards ensures exists r :: r in s.includes && IsWildcardOf(t, r, w) {
      var r :| r in s.includes && w in WildcardsOfRule(t)(r);
      WildcardNamed(t, r, "");
    }
  }

  /** Every list of a plan is in order: seeds by host and then by path pattern, roots by
      domain, wildcards, exclusions and warnings by rule, and warnings of one rule by code. */
  lemma PlansAreInOrder(t: Tools, s: Scope, manual: seq<ManualRoot>, p: Plan)
    requires IsPlan(t, s, manual, p)
    ensures forall i, j :: 0 <= i < j < |p.seeds| ==>
      if p.seeds[i].host == p.seeds[j].host then !StrLess(p.seeds[j].pathPattern, p.seeds[i].pathPattern) else !StrLess(p.seeds[j].host, p.seeds[i].host)
    ensures forall i, j :: 0 <= i < j < |p.roots| ==> !StrLess(p.roots[j].domain, p.roots[i].domain)
    ensures forall i, j :: 0 <= i < j < |p.wildcards| ==> !StrLess(p.wildcards[j].ruleId, p.wildcards[i].ruleId)
    ensures forall i, j :: 0 <= i < j < |p.exclusions| ==> !StrLess(p.exclusions[j].id, p.exclusions[i].id)
    ensures forall i, j :: 0 <= i < j < |p.warnings| ==>
      if p.warnings[i].ruleId == p.warnings[j].ruleId then !StrLess(p.warnings[j].code, p.warnings[i].code)
      else !StrLess(p.warnings[j].ruleId, p.warnings[i].ruleId)
    ensures forall i, j :: 0 <= i < j < |p.protocols| ==> !StrLess(p.protocols[j], p.protocols[i])
    ensures forall i, j :: 0 <= i < j < |p.ports| ==> p.ports[i] <= p.ports[j]
  {
    assert forall i, j :: 0 <= i < j < |p.seeds| ==> !SeedLess(p.seeds[j], p.seeds[i]);
    assert forall i, j :: 0 <= i < j < |p.roots| ==> !RootLess(p.roots[j], p.roots[i]);
    assert forall i, j :: 0 <= i < j < |p.wildcards| ==> !WildcardLess(p.wildcards[j], p.wildcards[i]);
    assert forall i, j :: 0 <= i < j < |p.exclusions| ==> !IdLess(p.exclusions[j], p.exclusions[i]);
    assert forall i, j :: 0 <= i < j < |p.warnings| ==> !WarningLess(p.warnings[j], p.warnings[i]);
    assert forall i, j :: 0 <= i < j < |p.ports| ==> !IntLess(p.ports[j], p.ports[i]);
  }
}
