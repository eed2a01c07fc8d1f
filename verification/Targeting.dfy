/** From scope rules to concrete targets: finite protocols and ports, exact hosts, active
    seed URLs, passive roots, and the canonical plan that collects them. */
module Targeting {
  import opened Order
  import opened Strings
  import opened Wrappers
  import opened Regex
  import opened Scope

  /** Library functions beside those of the scope: `pattern` parses and simplifies an
      expression, `host` normalises a host name, `show` writes a URL and `reprint` parses
      a URL and writes it again. */
  datatype Tools = Tools(
    lib: Library,
    pattern: string -> Option<Regex>,
    host: string -> Option<string>,
    isIp: string -> bool,
    show: Url -> string,
    reprint: string -> string,
    digest: string -> string)

  datatype Endpoint = Endpoint(protocol: string, port: nat, url: string)

  datatype ActiveSeed = ActiveSeed(host: string, endpoints: seq<Endpoint>, pathPattern: string, ruleIds: seq<string>)

  datatype DiscoveryRoot = DiscoveryRoot(domain: string, ruleIds: seq<string>, source: string, reason: string)

  datatype WildcardRule = WildcardRule(hostPattern: string, base: string, protocols: seq<string>, ports: seq<nat>, pathPattern: string, ruleId: string)

  datatype Warning = Warning(code: string, ruleId: string)

  datatype ManualRoot = ManualRoot(domain: string, reason: string)

  datatype Plan = Plan(
    roots: seq<DiscoveryRoot>,
    seeds: seq<ActiveSeed>,
    wildcards: seq<WildcardRule>,
    exclusions: seq<NormalizedRule>,
    protocols: seq<string>,
    ports: seq<nat>,
    warnings: seq<Warning>)

  // ---- numbers as text ----

  function Digit(c: char): Option<nat> {
    if '0' <= c <= '9' then Some((c as int) - ('0' as int)) else None
  }

  function Decimal(n: nat): (s: string)
    ensures s != ""
  {
    (if n < 10 then "" else Decimal(n / 10)) + [(('0' as int) + n % 10) as char]
  }

  function Unsigned(s: string): Option<nat> {
    if s == "" then None
    else
      var last, init := Digit(s[|s| - 1]), s[..|s| - 1];
      if last.None? then None
      else if init == "" then last
      else match Unsigned(init) case None => None case Some(n) => Some(10 * n + last.value)
  }

  function Signed(sign: int, n: Option<nat>): Option<int> {
    match n case None => None case Some(v) => Some(sign * v)
  }

  /** `Atoi`: an optional sign and digits. */
  function Atoi(s: string): Option<int> {
    if s == "" then None
    else if s[0] == '-' then Signed(-1, Unsigned(s[1..]))
    else if s[0] == '+' then Signed(1, Unsigned(s[1..]))
    else Signed(1, Unsigned(s))
  }

  lemma {:induction false} DecimalReads(n: nat)
    ensures Unsigned(Decimal(n)) == Some(n)
    ensures Digit(Decimal(n)[0]).Some?
  {
    var last := [(('0' as int) + n % 10) as char];
    if n < 10 {
      assert Decimal(n) == "" + last;
    } else {
      DecimalReads(n / 10);
      assert Decimal(n) == Decimal(n / 10) + last;
      assert Decimal(n)[..|Decimal(n)| - 1] == Decimal(n / 10);
    }
  }

  lemma AtoiDecimal(n: nat)
    ensures Atoi(Decimal(n)) == Some(n) && Atoi("+" + Decimal(n)) == Some(n)
    ensures Atoi("-" + Decimal(n)).Some? && Atoi("-" + Decimal(n)).value + n == 0
  {
    DecimalReads(n);
    var s := Decimal(n);
    assert s[0] != '-' && s[0] != '+';
    assert ("+" + s)[1..] == s && ("-" + s)[1..] == s;
  }

  // ---- endpoint URLs ----

  /** Default ports are left out. */
  function EndpointUrl(protocol: string, host: string, port: nat, path: string): Url {
    Url(protocol, host,
        if (protocol == "http" && port != 80) || (protocol == "https" && port != 443) then Decimal(port) else "",
        path)
  }

  /** How readers get the port back. */
  function EffectivePort(u: Url): string {
    if u.port == "" then DefaultPort(u.scheme) else u.port
  }

  predicate WebProtocol(protocol: string) {
    protocol == "http" || protocol == "https"
  }

  /** Leaving out default ports loses nothing: the port is re-derived exactly. */
  lemma PortIsRecovered(protocol: string, host: string, port: nat, path: string)
    requires WebProtocol(protocol)
    ensures Atoi(EffectivePort(EndpointUrl(protocol, host, port, path))) == Some(port)
    ensures EffectivePort(EndpointUrl(protocol, host, port, path)) == Decimal(port)
  {
    AtoiDecimal(port);
    assert Decimal(8) == "8" && Decimal(4) == "4" && Decimal(44) == "44";
    assert Decimal(80) == "80" && Decimal(443) == "443";
  }

  /** What endpoint URLs are made of: a web protocol, a normalised host, a valid port and
      an absolute path. */
  ghost predicate IsEndpoint(t: Tools, protocol: string, host: string, port: nat, path: string) {
    WebProtocol(protocol) && (exists x :: t.host(x) == Some(host)) && 1 <= port <= 65535 && "/" <= path
  }

  /** Parsing the printed URL gives back its scheme, host and port. */
  ghost predicate ReadsBack(t: Tools, u: Url) {
    var r := t.lib.parse(t.show(u));
    r.Some? && r.value.scheme == u.scheme && r.value.host == u.host && r.value.port == u.port
  }

  /** Printing and parsing agree on endpoint URLs. They need not agree on others: a host
      that contains a colon and a host with a port are printed alike. */
  ghost predicate PrintsReadably(t: Tools) {
    forall protocol, host, port, path :: IsEndpoint(t, protocol, host, port, path) ==> ReadsBack(t, EndpointUrl(protocol, host, port, path))
  }

  /** For one path, a printed endpoint URL stands for one host, protocol and port. */
  lemma EndpointUrlInjective(t: Tools, p: string, host: string, port: nat, p': string, host': string, port': nat, path: string)
    requires PrintsReadably(t) && IsEndpoint(t, p, host, port, path) && IsEndpoint(t, p', host', port', path)
    ensures t.show(EndpointUrl(p, host, port, path)) == t.show(EndpointUrl(p', host', port', path))
            <==> p == p' && host == host' && port == port'
  {
    PortIsRecovered(p, host, port, path);
    PortIsRecovered(p', host', port', path);
    assert ReadsBack(t, EndpointUrl(p, host, port, path)) && ReadsBack(t, EndpointUrl(p', host', port', path));
  }

  // ---- finite sets of literals ----

  function FiniteLiterals(t: Tools, pattern: string, limit: nat): Option<seq<string>> {
    match t.pattern(pattern) case None => None case Some(re) => Enum(re, limit)
  }

  function FiniteProtocols(t: Tools, pattern: string): Option<seq<string>> {
    match FiniteLiterals(t, pattern, 8)
    case None => None
    case Some(values) => if values == [] || exists v :: v in values && !WebProtocol(v) then None else Some(SortStrings(values))
  }

  predicate ValidPort(value: string) {
    Atoi(value).Some? && 1 <= Atoi(value).value <= 65535
  }

  function PortsOf(values: seq<string>): (ports: seq<nat>)
    requires forall v :: v in values ==> ValidPort(v)
    ensures forall p :: p in ports ==> 1 <= p <= 65535
  {
    if values == [] then []
    else
      assert ValidPort(values[|values| - 1]);
      var init, port := PortsOf(values[..|values| - 1]), Atoi(values[|values| - 1]).value;
      if port in init then init else init + [port]
  }

  predicate IntLess(a: nat, b: nat) {
    a < b
  }

  function SortInts(s: seq<nat>): (r: seq<nat>)
    ensures multiset(r) == multiset(s)
  {
    SortBy(IntLess, s)
  }

  function FinitePorts(t: Tools, pattern: string): Option<seq<nat>> {
    match FiniteLiterals(t, pattern, 32)
    case None => None
    case Some(values) =>
      if values == [] || exists v :: v in values && !ValidPort(v) then None else Some(SortInts(PortsOf(values)))
  }

  lemma FiniteProtocolsAreWeb(t: Tools, pattern: string)
    requires FiniteProtocols(t, pattern).Some?
    ensures forall p :: p in FiniteProtocols(t, pattern).value ==> WebProtocol(p)
    ensures FiniteProtocols(t, pattern).value != []
  {
    var values := FiniteLiterals(t, pattern, 8).value;
    SameElements(values, SortStrings(values));
  }

  /** The scope's full match is the one of the parsed pattern. */
  ghost predicate MatchesAsParsed(t: Tools, pattern: string) {
    t.pattern(pattern).Some? && forall v :: t.lib.full(pattern, v) <==> Full(t.pattern(pattern).value, v)
  }

  /** The planner never overlooks a protocol that the scope matches, and a listed one is
      matched exactly if no unanchored proper prefix of it is preferred. */
  lemma ProtocolsAgreeWithScope(t: Tools, pattern: string, v: string)
    requires MatchesAsParsed(t, pattern) && FiniteProtocols(t, pattern).Some?
    ensures t.lib.full(pattern, v) <==>
      v in FiniteProtocols(t, pattern).value && exists k: nat :: Leads(Entries(t.pattern(pattern).value), v, k)
  {
    EnumerationDecidesFull(t.pattern(pattern).value, 8, v);
    var values := FiniteLiterals(t, pattern, 8).value;
    SameElements(values, SortStrings(values));
  }

  lemma FinitePortsAreValid(t: Tools, pattern: string)
    requires FinitePorts(t, pattern).Some?
    ensures forall p :: p in FinitePorts(t, pattern).value ==> 1 <= p <= 65535
  {
    var values := FiniteLiterals(t, pattern, 32).value;
    SameElements(PortsOf(values), FinitePorts(t, pattern).value);
  }

  function ExactHost(t: Tools, pattern: string): Option<string> {
    match FiniteLiterals(t, pattern, 2)
    case None => None
    case Some(values) => if |values| != 1 then None else t.host(values[0])
  }

  function TrimPrefix(s: string, prefix: string): string {
    if prefix <= s then s[|prefix|..] else s
  }

  function TrimSuffix(s: string, suffix: string): string {
    if HasSuffix(s, suffix) then s[..|s| - |suffix|] else s
  }

  const ANY_LABELS := ".*\\."
  const ONE_LABEL := "[^.]+\\."

  function NarrowWildcardBase(t: Tools, pattern: string): Option<string> {
    var body := TrimPrefix(TrimSuffix(pattern, "$"), "^");
    if !(ANY_LABELS <= body) && !(ONE_LABEL <= body) then None
    else
      var rest := if ANY_LABELS <= body then TrimPrefix(body, ANY_LABELS) else TrimPrefix(body, ONE_LABEL);
      match ExactHost(t, "^" + rest + "$")
      case None => None
      case Some(base) => if t.isIp(base) then None else Some(base)
  }

  function InitialPath(t: Tools, pattern: string): Option<string> {
    if !t.lib.compiles(pattern) then None
    else if t.lib.full(pattern, "/") then Some("/")
    else match FiniteLiterals(t, pattern, 2)
      case None => None
      case Some(values) => if |values| != 1 || !("/" <= values[0]) then None else Some(values[0])
  }

  // ---- collecting the plan ----

  /** The maps and lists that the loop over the include rules fills. */
  datatype Draft = Draft(
    protocols: set<string>,
    ports: set<nat>,
    roots: map<string, DiscoveryRoot>,
    seeds: map<string, ActiveSeed>,
    wildcards: seq<WildcardRule>,
    warnings: seq<Warning>)

  function AppendUnique(items: seq<string>, value: string): seq<string> {
    if value in items then items else items + [value]
  }

  function AppendEndpoint(items: seq<Endpoint>, e: Endpoint): seq<Endpoint> {
    if exists x :: x in items && x.url == e.url then items else items + [e]
  }

  function SeedKey(host: string, file: string): string {
    host + "\0" + file
  }

  function AddEndpoint(t: Tools, s: Scope, seeds: map<string, ActiveSeed>, r: NormalizedRule, host: string, path: string, protocol: string, port: nat): map<string, ActiveSeed> {
    var url := t.show(EndpointUrl(protocol, host, port, path));
    if !Allows(t.lib, s, url) then seeds
    else
      var key := SeedKey(host, r.file);
      var seed := if key in seeds then seeds[key] else ActiveSeed("", [], "", []);
      seeds[key := ActiveSeed(host, AppendEndpoint(seed.endpoints, Endpoint(protocol, port, url)), r.file, AppendUnique(seed.ruleIds, r.id))]
  }

  function AddPorts(t: Tools, s: Scope, seeds: map<string, ActiveSeed>, r: NormalizedRule, host: string, path: string, protocol: string, ports: seq<nat>): map<string, ActiveSeed> {
    if ports == [] then seeds
    else AddEndpoint(t, s, AddPorts(t, s, seeds, r, host, path, protocol, ports[..|ports| - 1]), r, host, path, protocol, ports[|ports| - 1])
  }

  function AddProtocols(t: Tools, s: Scope, seeds: map<string, ActiveSeed>, r: NormalizedRule, host: string, path: string, protocols: seq<string>, ports: seq<nat>): map<string, ActiveSeed> {
    if protocols == [] then seeds
    else AddPorts(t, s, AddProtocols(t, s, seeds, r, host, path, protocols[..|protocols| - 1], ports), r, host, path, protocols[|protocols| - 1], ports)
  }

  function AddDerivedRoot(roots: map<string, DiscoveryRoot>, base: string, r: NormalizedRule): map<string, DiscoveryRoot> {
    var was := if base in roots then roots[base] else DiscoveryRoot("", [], "", "");
    roots[base := DiscoveryRoot(base, AppendUnique(was.ruleIds, r.id), "derived", was.reason)]
  }

  function OrNone<A>(x: Option<seq<A>>): seq<A> {
    match x case None => [] case Some(v) => v
  }

  /** An exact host adds its allowed endpoints if path, protocols and ports are finite. */
  function RuleSeeds(t: Tools, s: Scope, seeds: map<string, ActiveSeed>, r: NormalizedRule): map<string, ActiveSeed> {
    var host, path := ExactHost(t, r.host), InitialPath(t, r.file);
    var protocols, ports := FiniteProtocols(t, r.protocol), FinitePorts(t, r.port);
    if host.None? || path.None? || protocols.None? || ports.None? then seeds
    else AddProtocols(t, s, seeds, r, host.value, path.value, protocols.value, ports.value)
  }

  /** The base domain of a rule that is no exact host. */
  function RuleBase(t: Tools, r: NormalizedRule): Option<string> {
    if ExactHost(t, r.host).Some? then None else NarrowWildcardBase(t, r.host)
  }

  function RuleRoots(t: Tools, roots: map<string, DiscoveryRoot>, r: NormalizedRule): map<string, DiscoveryRoot> {
    match RuleBase(t, r) case None => roots case Some(base) => AddDerivedRoot(roots, base, r)
  }

  function RuleWildcards(t: Tools, r: NormalizedRule): seq<WildcardRule> {
    match RuleBase(t, r)
    case None => []
    case Some(base) => [WildcardRule(r.host, base, OrNone(FiniteProtocols(t, r.protocol)), OrNone(FinitePorts(t, r.port)), r.file, r.id)]
  }

  function WarnIf(condition: bool, code: string, r: NormalizedRule): seq<Warning> {
    if condition then [Warning(code, r.id)] else []
  }

  function WarningsFor(r: NormalizedRule, noProtocols: bool, noPorts: bool, noPath: bool, noHost: bool): seq<Warning> {
    WarnIf(noProtocols, "ambiguous_protocol_regex", r) + WarnIf(noPorts, "ambiguous_port_regex", r)
    + WarnIf(noPath, "no_safe_initial_path", r) + WarnIf(noHost, "ambiguous_host_regex", r)
  }

  function RuleWarnings(t: Tools, r: NormalizedRule): seq<Warning> {
    WarningsFor(r, FiniteProtocols(t, r.protocol).None?, FinitePorts(t, r.port).None?,
                ExactHost(t, r.host).Some? && InitialPath(t, r.file).None?,
                ExactHost(t, r.host).None? && NarrowWildcardBase(t, r.host).None?)
  }

  /** One include rule: an exact host with endpoints, a wildcard with a passive root, or
      a warning. */
  function AddRule(t: Tools, s: Scope, d: Draft, r: NormalizedRule): Draft {
    Draft(d.protocols + Elements(OrNone(FiniteProtocols(t, r.protocol))),
          d.ports + Elements(OrNone(FinitePorts(t, r.port))),
          RuleRoots(t, d.roots, r),
          RuleSeeds(t, s, d.seeds, r),
          d.wildcards + RuleWildcards(t, r),
          d.warnings + RuleWarnings(t, r))
  }

  function AddRules(t: Tools, s: Scope, rules: seq<NormalizedRule>): Draft {
    if rules == [] then Draft({}, {}, map[], map[], [], [])
    else AddRule(t, s, AddRules(t, s, rules[..|rules| - 1]), rules[|rules| - 1])
  }

  function AddManualRoot(t: Tools, roots: map<string, DiscoveryRoot>, m: ManualRoot): Option<map<string, DiscoveryRoot>> {
    match t.host(m.domain)
    case None => None
    case Some(domain) =>
      var reason := t.lib.trim(m.reason);
      if reason == "" then None
      else
        var was := if domain in roots then roots[domain] else DiscoveryRoot("", [], "", "");
        Some(roots[domain := DiscoveryRoot(domain, AppendUnique(was.ruleIds, "manual-" + t.digest(domain + "\0" + reason)), "manual", reason)])
  }

  function AddManualRoots(t: Tools, roots: map<string, DiscoveryRoot>, manual: seq<ManualRoot>): Option<map<string, DiscoveryRoot>> {
    if manual == [] then Some(roots)
    else match AddManualRoots(t, roots, manual[..|manual| - 1])
      case None => None
      case Some(before) => AddManualRoot(t, before, manual[|manual| - 1])
  }

  // ---- the finished plan ----

  predicate EndpointLess(a: Endpoint, b: Endpoint) {
    StrLess(a.url, b.url)
  }

  predicate RootLess(a: DiscoveryRoot, b: DiscoveryRoot) {
    StrLess(a.domain, b.domain)
  }

  predicate SeedLess(a: ActiveSeed, b: ActiveSeed) {
    if a.host == b.host then StrLess(a.pathPattern, b.pathPattern) else StrLess(a.host, b.host)
  }

  predicate WildcardLess(a: WildcardRule, b: WildcardRule) {
    StrLess(a.ruleId, b.ruleId)
  }

  predicate WarningLess(a: Warning, b: Warning) {
    if a.ruleId == b.ruleId then StrLess(a.code, b.code) else StrLess(a.ruleId, b.ruleId)
  }

  function FinishedRoot(r: DiscoveryRoot): DiscoveryRoot {
    r.(ruleIds := SortStrings(r.ruleIds))
  }

  function FinishedSeed(seed: ActiveSeed): ActiveSeed {
    seed.(endpoints := SortBy(EndpointLess, seed.endpoints), ruleIds := SortStrings(seed.ruleIds))
  }

  function FinishedRoots(roots: map<string, DiscoveryRoot>): set<DiscoveryRoot> {
    set k | k in roots :: FinishedRoot(roots[k])
  }

  function FinishedSeeds(seeds: map<string, ActiveSeed>): set<ActiveSeed> {
    set k | k in seeds :: FinishedSeed(seeds[k])
  }

  /** A set written down in order: no map iteration order shows. */
  ghost predicate IsListing<T(!new)>(less: (T, T) -> bool, items: set<T>, out: seq<T>) {
    Elements(out) == items && NoDuplicates(out) && SortedBy(less, out)
  }

  ghost predicate IsSorted<T(!new)>(less: (T, T) -> bool, items: seq<T>, out: seq<T>) {
    multiset(out) == multiset(items) && SortedBy(less, out)
  }

  ghost predicate IsPlan(t: Tools, s: Scope, manual: seq<ManualRoot>, p: Plan) {
    var d := AddRules(t, s, s.includes);
    var roots := AddManualRoots(t, d.roots, manual);
    && roots.Some? && IsListing(RootLess, FinishedRoots(roots.value), p.roots)
    && IsListing(SeedLess, FinishedSeeds(d.seeds), p.seeds)
    && IsSorted(WildcardLess, d.wildcards, p.wildcards)
    && IsSorted(IdLess, s.excludes, p.exclusions)
    && IsListing(StrLess, d.protocols, p.protocols) && IsListing(IntLess, d.ports, p.ports)
    && IsSorted(WarningLess, d.warnings, p.warnings)
  }

  // ---- what the draft keeps ----

  /** A seed stands under its own key, and everything in it is allowed. */
  ghost predicate SeedOk(t: Tools, s: Scope, key: string, seed: ActiveSeed) {
    && SeedKey(seed.host, seed.pathPattern) == key
    && seed.endpoints != []
    && (forall e :: e in seed.endpoints ==> Allows(t.lib, s, e.url) && WebProtocol(e.protocol) && 1 <= e.port <= 65535)
    && (forall i, j :: 0 <= i < j < |seed.endpoints| ==> seed.endpoints[i].url != seed.endpoints[j].url)
    && NoDuplicates(seed.ruleIds)
  }

  ghost predicate SeedsOk(t: Tools, s: Scope, seeds: map<string, ActiveSeed>) {
    forall k :: k in seeds ==> SeedOk(t, s, k, seeds[k])
  }

  lemma EndpointKeeps(t: Tools, s: Scope, seeds: map<string, ActiveSeed>, r: NormalizedRule, host: string, path: string, protocol: string, port: nat)
    requires SeedsOk(t, s, seeds) && WebProtocol(protocol) && 1 <= port <= 65535
    ensures SeedsOk(t, s, AddEndpoint(t, s, seeds, r, host, path, protocol, port))
  {
    var url, key := t.show(EndpointUrl(protocol, host, port, path)), SeedKey(host, r.file);
    if Allows(t.lib, s, url) && key in seeds {
      assert SeedOk(t, s, key, seeds[key]);
      EndpointAppended(t, s, seeds[key].endpoints, Endpoint(protocol, port, url));
    }
  }

  lemma EndpointAppended(t: Tools, s: Scope, items: seq<Endpoint>, e: Endpoint)
    requires forall i, j :: 0 <= i < j < |items| ==> items[i].url != items[j].url
    ensures var r := AppendEndpoint(items, e);
            && (forall i, j :: 0 <= i < j < |r| ==> r[i].url != r[j].url)
            && forall x :: x in r ==> x in items || x == e
  {
    if !exists x :: x in items && x.url == e.url {
      forall i | 0 <= i < |items| ensures items[i].url != e.url { assert items[i] in items; }
    }
  }

  lemma {:induction false} PortsKeep(t: Tools, s: Scope, seeds: map<string, ActiveSeed>, r: NormalizedRule, host: string, path: string, protocol: string, ports: seq<nat>)
    requires SeedsOk(t, s, seeds) && WebProtocol(protocol) && forall p :: p in ports ==> 1 <= p <= 65535
    ensures SeedsOk(t, s, AddPorts(t, s, seeds, r, host, path, protocol, ports))
  {
    if ports != [] {
      var init, last := ports[..|ports| - 1], ports[|ports| - 1];
      assert last in ports;
      assert forall p :: p in init ==> p in ports;
      PortsKeep(t, s, seeds, r, host, path, protocol, init);
      EndpointKeeps(t, s, AddPorts(t, s, seeds, r, host, path, protocol, init), r, host, path, protocol, last);
    }
  }

  lemma {:induction false} ProtocolsKeep(t: Tools, s: Scope, seeds: map<string, ActiveSeed>, r: NormalizedRule, host: string, path: string, protocols: seq<string>, ports: seq<nat>)
    requires SeedsOk(t, s, seeds) && (forall p :: p in protocols ==> WebProtocol(p)) && forall p :: p in ports ==> 1 <= p <= 65535
    ensures SeedsOk(t, s, AddProtocols(t, s, seeds, r, host, path, protocols, ports))
  {
    if protocols != [] {
      var init, last := protocols[..|protocols| - 1], protocols[|protocols| - 1];
      assert last in protocols;
      assert forall p :: p in init ==> p in protocols;
      ProtocolsKeep(t, s, seeds, r, host, path, init, ports);
      PortsKeep(t, s, AddProtocols(t, s, seeds, r, host, path, init, ports), r, host, path, last, ports);
    }
  }

  ghost predicate RootsOk(roots: map<string, DiscoveryRoot>) {
    forall k :: k in roots ==> roots[k].domain == k
  }

  /** Wildcards are listed in the order of their rules. */
  ghost predicate WildcardsOf(wildcards: seq<WildcardRule>, rules: seq<NormalizedRule>) {
    && (forall w :: w in wildcards ==> exists r :: r in rules && r.id == w.ruleId)
    && forall i, j :: 0 <= i < j < |wildcards| ==> wildcards[i].ruleId != wildcards[j].ruleId
  }

  lemma RuleKeeps(t: Tools, s: Scope, seeds: map<string, ActiveSeed>, r: NormalizedRule)
    requires SeedsOk(t, s, seeds)
    ensures SeedsOk(t, s, RuleSeeds(t, s, seeds, r))
  {
    var protocols, ports := FiniteProtocols(t, r.protocol), FinitePorts(t, r.port);
    if ExactHost(t, r.host).Some? && InitialPath(t, r.file).Some? && protocols.Some? && ports.Some? {
      FiniteProtocolsAreWeb(t, r.protocol);
      FinitePortsAreValid(t, r.port);
      ProtocolsKeep(t, s, seeds, r, ExactHost(t, r.host).value, InitialPath(t, r.file).value, protocols.value, ports.value);
    }
  }

  ghost predicate DistinctIds(rules: seq<NormalizedRule>) {
    forall i, j :: 0 <= i < j < |rules| ==> rules[i].id != rules[j].id
  }

  lemma {:induction false} DraftOk(t: Tools, s: Scope, rules: seq<NormalizedRule>)
    ensures SeedsOk(t, s, AddRules(t, s, rules).seeds) && RootsOk(AddRules(t, s, rules).roots)
  {
    if rules != [] {
      DraftOk(t, s, rules[..|rules| - 1]);
      RuleKeeps(t, s, AddRules(t, s, rules[..|rules| - 1]).seeds, rules[|rules| - 1]);
    }
  }

  /** What the rules give, one after the other. */
  function Gather<T>(of: NormalizedRule -> seq<T>, rules: seq<NormalizedRule>): seq<T> {
    if rules == [] then [] else Gather(of, rules[..|rules| - 1]) + of(rules[|rules| - 1])
  }

  function AllWildcards(t: Tools, rules: seq<NormalizedRule>): seq<WildcardRule> {
    Gather((r: NormalizedRule) => RuleWildcards(t, r), rules)
  }

  lemma {:induction false} DraftWildcards(t: Tools, s: Scope, rules: seq<NormalizedRule>)
    ensures AddRules(t, s, rules).wildcards == AllWildcards(t, rules)
  {
    if rules != [] { DraftWildcards(t, s, rules[..|rules| - 1]); }
  }

  /** At most one wildcard, under the id of its rule. */
  ghost predicate OwnWildcard(wildcards: seq<WildcardRule>, r: NormalizedRule) {
    wildcards == [] || (|wildcards| == 1 && wildcards[0].ruleId == r.id)
  }

  lemma {:induction false} GatheredDistinct(wildcardsOf: NormalizedRule -> seq<WildcardRule>, rules: seq<NormalizedRule>)
    requires DistinctIds(rules) && forall r :: OwnWildcard(wildcardsOf(r), r)
    ensures WildcardsOf(Gather(wildcardsOf, rules), rules)
  {
    if rules != [] {
      var init, last := rules[..|rules| - 1], rules[|rules| - 1];
      GatheredDistinct(wildcardsOf, init);
      assert rules == init + [last];
      WildcardsExtend(Gather(wildcardsOf, init), wildcardsOf(last), init, last);
    }
  }

  lemma WildcardsDistinct(t: Tools, rules: seq<NormalizedRule>)
    requires DistinctIds(rules)
    ensures WildcardsOf(AllWildcards(t, rules), rules)
  {
    var f := (r: NormalizedRule) => RuleWildcards(t, r);
    forall r ensures OwnWildcard(f(r), r) { assert OwnWildcard(RuleWildcards(t, r), r); }
    GatheredDistinct(f, rules);
  }

  lemma WildcardsExtend(ws: seq<WildcardRule>, more: seq<WildcardRule>, init: seq<NormalizedRule>, last: NormalizedRule)
    requires WildcardsOf(ws, init) && DistinctIds(init + [last])
    requires OwnWildcard(more, last)
    ensures WildcardsOf(ws + more, init + [last])
  {
    forall w | w in ws + more ensures exists r :: r in init + [last] && r.id == w.ruleId {
      if w in ws {
        var r :| r in init && r.id == w.ruleId;
        assert r in init + [last];
      } else {
        assert last in init + [last];
      }
    }
    if more != [] {
      forall i | 0 <= i < |ws| ensures ws[i].ruleId != last.id {
        assert ws[i] in ws;
        var r :| r in init && r.id == ws[i].ruleId;
        var k :| 0 <= k < |init| && init[k] == r;
        assert (init + [last])[k].id != (init + [last])[|init|].id;
      }
    }
  }

  lemma {:induction false} ManualRootsOk(t: Tools, roots: map<string, DiscoveryRoot>, manual: seq<ManualRoot>)
    requires RootsOk(roots) && AddManualRoots(t, roots, manual).Some?
    ensures RootsOk(AddManualRoots(t, roots, manual).value)
  {
    if manual != [] { ManualRootsOk(t, roots, manual[..|manual| - 1]); }
  }

  // ---- the plan is canonical ----

  lemma ListingUnique<T(!new)>(less: (T, T) -> bool, items: set<T>, a: seq<T>, b: seq<T>)
    requires TotalOn(less, items) && IsListing(less, items, a) && IsListing(less, items, b)
    ensures a == b
  {
    SameSetSameMultiset(a, b);
    SortedUnique(less, a, b);
  }

  lemma SortedOnce<T(!new)>(less: (T, T) -> bool, items: seq<T>, a: seq<T>, b: seq<T>)
    requires TotalOn(less, Elements(items)) && IsSorted(less, items, a) && IsSorted(less, items, b)
    ensures a == b
  {
    SameElements(items, a);
    SortedUnique(less, a, b);
  }

  lemma RootsTotal(roots: map<string, DiscoveryRoot>)
    requires RootsOk(roots)
    ensures TotalOn(RootLess, FinishedRoots(roots))
  {
    var items := FinishedRoots(roots);
    forall x | x in items ensures !RootLess(x, x) { StrLessIrreflexive(x.domain); }
    forall x, y | x in items && y in items && x != y ensures RootLess(x, y) || RootLess(y, x) {
      var k :| k in roots && x == FinishedRoot(roots[k]);
      var l :| l in roots && y == FinishedRoot(roots[l]);
      assert x.domain == k && y.domain == l;
      StrLessTotal(x.domain, y.domain);
    }
    forall x, y, z | x in items && y in items && z in items && RootLess(x, y) && RootLess(y, z) ensures RootLess(x, z) {
      StrLessTransitive(x.domain, y.domain, z.domain);
    }
  }

  lemma PairOrder(a: string, x: string, b: string, y: string, d: string, z: string)
    requires if a == b then StrLess(x, y) else StrLess(a, b)
    requires if b == d then StrLess(y, z) else StrLess(b, d)
    ensures if a == d then StrLess(x, z) else StrLess(a, d)
  {
    if a == b && b == d {
      StrLessTransitive(x, y, z);
    } else if a != b && b != d {
      StrLessTransitive(a, b, d);
      StrLessIrreflexive(a);
    }
  }

  lemma SeedsTotal(t: Tools, s: Scope, seeds: map<string, ActiveSeed>)
    requires SeedsOk(t, s, seeds)
    ensures TotalOn(SeedLess, FinishedSeeds(seeds))
  {
    var items := FinishedSeeds(seeds);
    forall x | x in items ensures !SeedLess(x, x) { StrLessIrreflexive(x.pathPattern); }
    forall x, y | x in items && y in items && x != y ensures SeedLess(x, y) || SeedLess(y, x) {
      var k :| k in seeds && x == FinishedSeed(seeds[k]);
      var l :| l in seeds && y == FinishedSeed(seeds[l]);
      assert SeedOk(t, s, k, seeds[k]) && SeedOk(t, s, l, seeds[l]);
      if x.host == y.host { StrLessTotal(x.pathPattern, y.pathPattern); } else { StrLessTotal(x.host, y.host); }
    }
    forall x, y, z | x in items && y in items && z in items && SeedLess(x, y) && SeedLess(y, z) ensures SeedLess(x, z) {
      PairOrder(x.host, x.pathPattern, y.host, y.pathPattern, z.host, z.pathPattern);
    }
  }

  lemma WarningsTotal(items: set<Warning>)
    ensures TotalOn(WarningLess, items)
  {
    forall x | x in items ensures !WarningLess(x, x) { StrLessIrreflexive(x.code); }
    forall x, y | x in items && y in items && x != y ensures WarningLess(x, y) || WarningLess(y, x) {
      if x.ruleId == y.ruleId { StrLessTotal(x.code, y.code); } else { StrLessTotal(x.ruleId, y.ruleId); }
    }
    forall x, y, z | x in items && y in items && z in items && WarningLess(x, y) && WarningLess(y, z) ensures WarningLess(x, z) {
      PairOrder(x.ruleId, x.code, y.ruleId, y.code, z.ruleId, z.code);
    }
  }

  lemma WildcardsTotal(wildcards: seq<WildcardRule>, rules: seq<NormalizedRule>)
    requires WildcardsOf(wildcards, rules)
    ensures TotalOn(WildcardLess, Elements(wildcards))
  {
    var items := Elements(wildcards);
    forall x | x in items ensures !WildcardLess(x, x) { StrLessIrreflexive(x.ruleId); }
    forall x, y | x in items && y in items && x != y ensures WildcardLess(x, y) || WildcardLess(y, x) {
      var i :| 0 <= i < |wildcards| && wildcards[i] == x;
      var j :| 0 <= j < |wildcards| && wildcards[j] == y;
      assert x.ruleId != y.ruleId;
      StrLessTotal(x.ruleId, y.ruleId);
    }
    forall x, y, z | x in items && y in items && z in items && WildcardLess(x, y) && WildcardLess(y, z) ensures WildcardLess(x, z) {
      StrLessTransitive(x.ruleId, y.ruleId, z.ruleId);
    }
  }

  lemma IntsTotal(items: set<nat>)
    ensures TotalOn(IntLess, items)
  {}

  /** A scope has one plan, whatever the iteration order of the maps it was collected in. */
  lemma PlanIsCanonical(t: Tools, s: Scope, manual: seq<ManualRoot>, p: Plan, q: Plan)
    requires DistinctIds(s.includes) && IdsDistinguish(Elements(s.excludes))
    requires IsPlan(t, s, manual, p) && IsPlan(t, s, manual, q)
    ensures p == q
  {
    var d := AddRules(t, s, s.includes);
    var roots := AddManualRoots(t, d.roots, manual).value;
    DraftOk(t, s, s.includes);
    ManualRootsOk(t, d.roots, manual);
    RootsTotal(roots);
    ListingUnique(RootLess, FinishedRoots(roots), p.roots, q.roots);
    SeedsTotal(t, s, d.seeds);
    ListingUnique(SeedLess, FinishedSeeds(d.seeds), p.seeds, q.seeds);
    WildcardsDistinct(t, s.includes);
    DraftWildcards(t, s, s.includes);
    WildcardsTotal(d.wildcards, s.includes);
    SortedOnce(WildcardLess, d.wildcards, p.wildcards, q.wildcards);
    IdLessTotal(Elements(s.excludes));
    SortedOnce(IdLess, s.excludes, p.exclusions, q.exclusions);
    WarningsTotal(Elements(d.warnings));
    SortedOnce(WarningLess, d.warnings, p.warnings, q.warnings);
    StringsTotal(d.protocols);
    ListingUnique(StrLess, d.protocols, p.protocols, q.protocols);
    IntsTotal(d.ports);
    ListingUnique(IntLess, d.ports, p.ports, q.ports);
  }

  lemma CompiledIds(lib: Library, rules: seq<Rule>, kind: Kind, out: seq<NormalizedRule>)
    requires IsCompiled(lib, rules, kind, out) && IdsDistinguish(Enabled(lib, rules, kind))
    ensures DistinctIds(out) && IdsDistinguish(Elements(out))
  {}

  /** Permuting or repeating the scope rules does not change the plan. */
  lemma PlanIgnoresRuleOrder(t: Tools, includes: seq<Rule>, excludes: seq<Rule>, includes': seq<Rule>, excludes': seq<Rule>,
                             s: Scope, s': Scope, manual: seq<ManualRoot>, p: Plan, q: Plan)
    requires Enabled(t.lib, includes, Include) == Enabled(t.lib, includes', Include) && IdsDistinguish(Enabled(t.lib, includes, Include))
    requires Enabled(t.lib, excludes, Exclude) == Enabled(t.lib, excludes', Exclude) && IdsDistinguish(Enabled(t.lib, excludes, Exclude))
    requires IsCompiled(t.lib, includes, Include, s.includes) && IsCompiled(t.lib, excludes, Exclude, s.excludes)
    requires IsCompiled(t.lib, includes', Include, s'.includes) && IsCompiled(t.lib, excludes', Exclude, s'.excludes)
    requires IsPlan(t, s, manual, p) && IsPlan(t, s', manual, q)
    ensures p == q
  {
    CompiledCanonical(t.lib, includes, includes', Include, s.includes, s'.includes);
    CompiledCanonical(t.lib, excludes, excludes', Exclude, s.excludes, s'.excludes);
    CompiledIds(t.lib, includes, Include, s.includes);
    CompiledIds(t.lib, excludes, Exclude, s.excludes);
    PlanIsCanonical(t, s, manual, p, q);
  }

  // ---- the plan is sound ----

  /** Every active URL of the plan is allowed by the whole scope, exclusions included. */
  lemma ActiveUrlsAreAllowed(t: Tools, s: Scope, manual: seq<ManualRoot>, p: Plan, seed: ActiveSeed, e: Endpoint)
    requires IsPlan(t, s, manual, p) && seed in p.seeds && e in seed.endpoints
    ensures Allows(t.lib, s, e.url) && WebProtocol(e.protocol) && 1 <= e.port <= 65535
  {
    var d := AddRules(t, s, s.includes);
    DraftOk(t, s, s.includes);
    assert seed in FinishedSeeds(d.seeds);
    var k :| k in d.seeds && seed == FinishedSeed(d.seeds[k]);
    assert SeedOk(t, s, k, d.seeds[k]);
    SameElements(d.seeds[k].endpoints, seed.endpoints);
  }

  /** Passive roots, derived or manual, add no active URL: with other manual roots the
      active seeds are the same, and a wildcard rule adds none. */
  lemma PassiveRootsAddNothing(t: Tools, s: Scope, manual: seq<ManualRoot>, manual': seq<ManualRoot>, p: Plan, q: Plan)
    requires IsPlan(t, s, manual, p) && IsPlan(t, s, manual', q)
    ensures p.seeds == q.seeds
    ensures forall r, seeds :: RuleBase(t, r).Some? ==> RuleSeeds(t, s, seeds, r) == seeds
  {
    DraftOk(t, s, s.includes);
    SeedsTotal(t, s, AddRules(t, s, s.includes).seeds);
    ListingUnique(SeedLess, FinishedSeeds(AddRules(t, s, s.includes).seeds), p.seeds, q.seeds);
  }

  // ---- the planner ----

  method CollectEndpoints(t: Tools, s: Scope, before: map<string, ActiveSeed>, r: NormalizedRule, host: string, path: string,
                          protocols: seq<string>, ports: seq<nat>) returns (seeds: map<string, ActiveSeed>)
    ensures seeds == AddProtocols(t, s, before, r, host, path, protocols, ports)
  {
    seeds := before;
    for i := 0 to |protocols|
      invariant seeds == AddProtocols(t, s, before, r, host, path, protocols[..i], ports)
    {
      assert protocols[..i + 1][..i] == protocols[..i];
      ghost var entry := seeds;
      for j := 0 to |ports|
        invariant seeds == AddPorts(t, s, entry, r, host, path, protocols[i], ports[..j])
      {
        assert ports[..j + 1][..j] == ports[..j];
        seeds := AddEndpoint(t, s, seeds, r, host, path, protocols[i], ports[j]);
      }
      assert ports[..|ports|] == ports;
    }
    assert protocols[..|protocols|] == protocols;
  }

  method CollectWarnings(r: NormalizedRule, noProtocols: bool, noPorts: bool, noPath: bool, noHost: bool) returns (warnings: seq<Warning>)
    ensures warnings == WarningsFor(r, noProtocols, noPorts, noPath, noHost)
  {
    warnings := [];
    if noProtocols { warnings := warnings + [Warning("ambiguous_protocol_regex", r.id)]; }
    if noPorts { warnings := warnings + [Warning("ambiguous_port_regex", r.id)]; }
    if noPath { warnings := warnings + [Warning("no_safe_initial_path", r.id)]; }
    if noHost { warnings := warnings + [Warning("ambiguous_host_regex", r.id)]; }
  }

  method CollectSeeds(t: Tools, s: Scope, before: map<string, ActiveSeed>, r: NormalizedRule) returns (seeds: map<string, ActiveSeed>)
    ensures seeds == RuleSeeds(t, s, before, r)
  {
    var host, path := ExactHost(t, r.host), InitialPath(t, r.file);
    var protocols, ports := FiniteProtocols(t, r.protocol), FinitePorts(t, r.port);
    seeds := before;
    if host.Some? && path.Some? && protocols.Some? && ports.Some? {
      seeds := CollectEndpoints(t, s, before, r, host.value, path.value, protocols.value, ports.value);
    }
  }

  method CollectWildcard(t: Tools, d: Draft, r: NormalizedRule, protocols: Option<seq<string>>, ports: Option<seq<nat>>)
      returns (wildcards: seq<WildcardRule>, roots: map<string, DiscoveryRoot>)
    requires protocols == FiniteProtocols(t, r.protocol) && ports == FinitePorts(t, r.port)
    ensures wildcards == d.wildcards + RuleWildcards(t, r) && roots == RuleRoots(t, d.roots, r)
  {
    wildcards, roots := d.wildcards, d.roots;
    var base := RuleBase(t, r);
    if base.Some? {
      wildcards := wildcards + [WildcardRule(r.host, base.value, OrNone(protocols), OrNone(ports), r.file, r.id)];
      roots := AddDerivedRoot(roots, base.value, r);
    }
  }

  method CollectRule(t: Tools, s: Scope, d: Draft, r: NormalizedRule) returns (d': Draft)
    ensures d' == AddRule(t, s, d, r)
  {
    var protocols, ports := FiniteProtocols(t, r.protocol), FinitePorts(t, r.port);
    var exact, path, narrow := ExactHost(t, r.host), InitialPath(t, r.file), NarrowWildcardBase(t, r.host);
    var warnings := CollectWarnings(r, protocols.None?, ports.None?, exact.Some? && path.None?, exact.None? && narrow.None?);
    var seeds := CollectSeeds(t, s, d.seeds, r);
    var wildcards, roots := CollectWildcard(t, d, r, protocols, ports);
    d' := Draft(d.protocols + Elements(OrNone(protocols)), d.ports + Elements(OrNone(ports)), roots, seeds, wildcards, d.warnings + warnings);
  }

  /** Walks a set in any order and sorts what it found. */
  method List<T(==, !new)>(less: (T, T) -> bool, items: set<T>) returns (out: seq<T>)
    requires TotalOn(less, items)
    ensures IsListing(less, items, out)
  {
    var found: seq<T>, left := [], items;
    while left != {}
      invariant left <= items && Elements(found) == items - left && NoDuplicates(found)
      decreases |left|
    {
      var x :| x in left;
      assert x !in Elements(found) && Elements(found + [x]) == Elements(found) + {x};
      found, left := found + [x], left - {x};
    }
    TotalIsWeak(less, items);
    SortBySorted(less, found);
    out := SortBy(less, found);
    SameElements(found, out);
    PermutedDistinct(found, out);
  }

  method Sort<T(!new)>(less: (T, T) -> bool, items: seq<T>) returns (out: seq<T>)
    requires TotalOn(less, Elements(items))
    ensures IsSorted(less, items, out)
  {
    TotalIsWeak(less, Elements(items));
    SortBySorted(less, items);
    out := SortBy(less, items);
  }

  method CollectRules(t: Tools, s: Scope) returns (d: Draft)
    ensures d == AddRules(t, s, s.includes)
  {
    d := Draft({}, {}, map[], map[], [], []);
    for i := 0 to |s.includes|
      invariant d == AddRules(t, s, s.includes[..i])
    {
      assert s.includes[..i + 1][..i] == s.includes[..i];
      d := CollectRule(t, s, d, s.includes[i]);
    }
    assert s.includes[..|s.includes|] == s.includes;
  }

  method CollectManualRoots(t: Tools, derived: map<string, DiscoveryRoot>, manual: seq<ManualRoot>) returns (roots: Option<map<string, DiscoveryRoot>>)
    ensures roots == AddManualRoots(t, derived, manual)
  {
    var found := derived;
    for i := 0 to |manual|
      invariant AddManualRoots(t, derived, manual[..i]) == Some(found)
    {
      assert manual[..i + 1][..i] == manual[..i];
      var next := AddManualRoot(t, found, manual[i]);
      if next.None? {
        ManualRootsStop(t, derived, manual, i + 1);
        return None;
      }
      found := next.value;
    }
    assert manual[..|manual|] == manual;
    return Some(found);
  }

  lemma {:induction false} ManualRootsStop(t: Tools, derived: map<string, DiscoveryRoot>, manual: seq<ManualRoot>, i: nat)
    requires i <= |manual| && AddManualRoots(t, derived, manual[..i]).None?
    ensures AddManualRoots(t, derived, manual).None?
    decreases |manual|
  {
    if i < |manual| {
      assert manual[..|manual| - 1][..i] == manual[..i];
      ManualRootsStop(t, derived, manual[..|manual| - 1], i);
    } else {
      assert manual[..i] == manual;
    }
  }

  /** A manual root with a valid host and a reason. */
  predicate IsUsable(t: Tools, m: ManualRoot) {
    t.host(m.domain).Some? && t.lib.trim(m.reason) != ""
  }

  lemma {:induction false} UsableRoots(t: Tools, roots: map<string, DiscoveryRoot>, manual: seq<ManualRoot>)
    ensures AddManualRoots(t, roots, manual).None? <==> exists m :: m in manual && !IsUsable(t, m)
  {
    if manual != [] {
      var init, last := manual[..|manual| - 1], manual[|manual| - 1];
      UsableRoots(t, roots, init);
      assert manual == init + [last];
      assert last in manual;
      if m :| m in manual && !IsUsable(t, m) { assert m in init || m == last; }
    }
  }

  /** The plan of a scope; a manual root without a valid host or a reason is an error. */
  method MakePlan(t: Tools, s: Scope, manual: seq<ManualRoot>) returns (p: Option<Plan>)
    requires DistinctIds(s.includes) && IdsDistinguish(Elements(s.excludes))
    ensures p.None? <==> exists m :: m in manual && !IsUsable(t, m)
    ensures p.Some? ==> IsPlan(t, s, manual, p.value)
  {
    var d := CollectRules(t, s);
    var roots := CollectManualRoots(t, d.roots, manual);
    UsableRoots(t, d.roots, manual);
    if roots.None? { return None; }
    DraftOk(t, s, s.includes);
    ManualRootsOk(t, d.roots, manual);
    var plan := ListPlan(t, s, manual, d, roots.value);
    return Some(plan);
  }

  method ListPlan(t: Tools, s: Scope, ghost manual: seq<ManualRoot>, d: Draft, roots: map<string, DiscoveryRoot>) returns (p: Plan)
    requires DistinctIds(s.includes) && IdsDistinguish(Elements(s.excludes))
    requires d == AddRules(t, s, s.includes) && AddManualRoots(t, d.roots, manual) == Some(roots)
    requires SeedsOk(t, s, d.seeds) && RootsOk(roots)
    ensures IsPlan(t, s, manual, p)
  {
    RootsTotal(roots);
    var rootList := List(RootLess, FinishedRoots(roots));
    SeedsTotal(t, s, d.seeds);
    var seedList := List(SeedLess, FinishedSeeds(d.seeds));
    WildcardsDistinct(t, s.includes);
    DraftWildcards(t, s, s.includes);
    WildcardsTotal(d.wildcards, s.includes);
    var wildcards := Sort(WildcardLess, d.wildcards);
    IdLessTotal(Elements(s.excludes));
    var exclusions := Sort(IdLess, s.excludes);
    WarningsTotal(Elements(d.warnings));
    var warnings := Sort(WarningLess, d.warnings);
    StringsTotal(d.protocols);
    var protocols := List(StrLess, d.protocols);
    IntsTotal(d.ports);
    var ports := List(IntLess, d.ports);
    p := Plan(rootList, seedList, wildcards, exclusions, protocols, ports, warnings);
  }
}
