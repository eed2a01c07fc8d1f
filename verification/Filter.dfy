/** Filters over discovered hosts, URLs and provider records: what they let through is
    what the scope allows. */
module Filter {
  import opened Order
  import opened Regex
  import opened Wrappers
  import opened Scope
  import opened Targeting
  import Plans

  datatype Decision = Decision(target: string, accepted: bool, reason: Reason, urls: seq<string>, ruleIds: seq<string>)

  /** A target that was left out, and why. */
  datatype Filtered =
    | InvalidHost(target: string)
    | InvalidTarget(target: string)
    | Refused(decision: Decision)
    | RefusedUrl(evaluation: Evaluation)
    | PortRefused(target: string)

  // ---- the URLs a host could be reached by ----

  function PortUrls(t: Tools, host: string, path: string, protocol: string, ports: seq<nat>): seq<string>
  {
    if ports == [] then []
    else PortUrls(t, host, path, protocol, ports[..|ports| - 1]) + [t.show(EndpointUrl(protocol, host, ports[|ports| - 1], path))]
  }

  function ProtocolUrls(t: Tools, host: string, path: string, protocols: seq<string>, ports: seq<nat>): seq<string>
  {
    if protocols == [] then []
    else ProtocolUrls(t, host, path, protocols[..|protocols| - 1], ports) + PortUrls(t, host, path, protocols[|protocols| - 1], ports)
  }

  predicate AppliesTo(t: Tools, r: NormalizedRule, host: string) {
    && t.lib.compiles(r.host) && t.lib.full(r.host, host)
    && FiniteProtocols(t, r.protocol).Some? && FinitePorts(t, r.port).Some? && InitialPath(t, r.file).Some?
  }

  /** The URLs that rule `r` proposes for `host`. */
  function Proposed(t: Tools, r: NormalizedRule, host: string): seq<string> {
    if !AppliesTo(t, r, host) then []
    else ProtocolUrls(t, host, InitialPath(t, r.file).value, FiniteProtocols(t, r.protocol).value, FinitePorts(t, r.port).value)
  }

  function AllProposed(t: Tools, rules: seq<NormalizedRule>, host: string): seq<string> {
    if rules == [] then [] else AllProposed(t, rules[..|rules| - 1], host) + Proposed(t, rules[|rules| - 1], host)
  }

  /** The URLs that authorize a host. */
  predicate Authorizes(t: Tools, s: Scope, host: string, url: string) {
    url in AllProposed(t, s.includes, host) && Allows(t.lib, s, url)
  }

  ghost predicate HostAuthorized(t: Tools, s: Scope, host: string) {
    exists url :: Authorizes(t, s, host, url)
  }

  predicate Excluded(lib: Library, s: Scope, url: string) {
    Values(lib, url).Some? && SomeMatchesFirst(lib, s.excludes, Values(lib, url).value, 4)
  }

  ghost predicate Supports(lib: Library, s: Scope, url: string, id: string) {
    Values(lib, url).Some? && exists r :: r in s.includes && r.id == id && Matches(lib, r, Values(lib, url).value)
  }

  lemma {:induction false} PortUrlOrigin(t: Tools, host: string, path: string, protocol: string, ports: seq<nat>, url: string) returns (port: nat)
    requires url in PortUrls(t, host, path, protocol, ports)
    ensures port in ports && url == t.show(EndpointUrl(protocol, host, port, path))
  {
    var init, last := ports[..|ports| - 1], ports[|ports| - 1];
    assert last in ports;
    if url in PortUrls(t, host, path, protocol, init) {
      port := PortUrlOrigin(t, host, path, protocol, init, url);
    } else {
      port := last;
    }
  }

  lemma {:induction false} ProtocolUrlOrigin(t: Tools, host: string, path: string, protocols: seq<string>, ports: seq<nat>, url: string) returns (protocol: string, port: nat)
    requires url in ProtocolUrls(t, host, path, protocols, ports)
    ensures protocol in protocols && port in ports && url == t.show(EndpointUrl(protocol, host, port, path))
  {
    var init, last := protocols[..|protocols| - 1], protocols[|protocols| - 1];
    if url in ProtocolUrls(t, host, path, init, ports) {
      protocol, port := ProtocolUrlOrigin(t, host, path, init, ports, url);
    } else {
      protocol := last;
      port := PortUrlOrigin(t, host, path, last, ports, url);
    }
  }

  /** A proposed URL names the host, a web protocol, a valid port and an absolute path. */
  lemma {:induction false} ProposedOrigin(t: Tools, rules: seq<NormalizedRule>, host: string, url: string)
      returns (protocol: string, port: nat, path: string)
    requires url in AllProposed(t, rules, host)
    ensures WebProtocol(protocol) && 1 <= port <= 65535 && "/" <= path && url == t.show(EndpointUrl(protocol, host, port, path))
  {
    var init, last := rules[..|rules| - 1], rules[|rules| - 1];
    if url in AllProposed(t, init, host) {
      protocol, port, path := ProposedOrigin(t, init, host, url);
    } else {
      path := InitialPath(t, last.file).value;
      FinitePortsAreValid(t, last.port);
      FiniteProtocolsAreWeb(t, last.protocol);
      protocol, port := ProtocolUrlOrigin(t, host, path, FiniteProtocols(t, last.protocol).value, FinitePorts(t, last.port).value, url);
    }
  }

  // ---- proposals in terms of the rules ----

  lemma {:induction false} PortUrlMembers(t: Tools, host: string, path: string, protocol: string, ports: seq<nat>, port: nat)
    requires port in ports
    ensures t.show(EndpointUrl(protocol, host, port, path)) in PortUrls(t, host, path, protocol, ports)
  {
    var init, last := ports[..|ports| - 1], ports[|ports| - 1];
    assert ports == init + [last];
    if port != last { PortUrlMembers(t, host, path, protocol, init, port); }
  }

  lemma {:induction false} ProtocolUrlMembers(t: Tools, host: string, path: string, protocols: seq<string>, ports: seq<nat>, protocol: string, port: nat)
    requires protocol in protocols && port in ports
    ensures t.show(EndpointUrl(protocol, host, port, path)) in ProtocolUrls(t, host, path, protocols, ports)
  {
    var init, last := protocols[..|protocols| - 1], protocols[|protocols| - 1];
    assert protocols == init + [last];
    if protocol == last {
      PortUrlMembers(t, host, path, last, ports, port);
    } else {
      ProtocolUrlMembers(t, host, path, init, ports, protocol, port);
    }
  }

  /** The URL is made of a protocol, a port and a start path that the rule names. */
  ghost predicate IsMadeOf(t: Tools, r: NormalizedRule, host: string, url: string, protocol: string, port: nat, path: string) {
    && Plans.NamesProtocol(t, r.protocol, protocol) && Plans.NamesPort(t, r.port, port) && Plans.StartsAt(t, r.file, path)
    && url == t.show(Url(protocol, host, Plans.PortText(protocol, port), path))
  }

  /** The rule's host expression matches the host, and the rule makes this URL for it. */
  ghost predicate Makes(t: Tools, r: NormalizedRule, host: string, url: string) {
    t.lib.compiles(r.host) && t.lib.full(r.host, host) && exists protocol, port, path :: IsMadeOf(t, r, host, url, protocol, port, path)
  }

  lemma ProposedIsMade(t: Tools, r: NormalizedRule, host: string, url: string)
    ensures url in Proposed(t, r, host) <==> Makes(t, r, host, url)
  {
    if url in Proposed(t, r, host) {
      var path := InitialPath(t, r.file).value;
      var protocol, port := ProtocolUrlOrigin(t, host, path, FiniteProtocols(t, r.protocol).value, FinitePorts(t, r.port).value, url);
      NamedByRule(t, r, protocol, port, path);
      assert IsMadeOf(t, r, host, url, protocol, port, path);
    }
    if Makes(t, r, host, url) {
      var protocol, port, path :| IsMadeOf(t, r, host, url, protocol, port, path);
      NamedByRule(t, r, protocol, port, path);
      ProtocolUrlMembers(t, host, path, FiniteProtocols(t, r.protocol).value, FinitePorts(t, r.port).value, protocol, port);
    }
  }

  lemma NamedByRule(t: Tools, r: NormalizedRule, protocol: string, port: nat, path: string)
    ensures Plans.NamesProtocol(t, r.protocol, protocol) <==> FiniteProtocols(t, r.protocol).Some? && protocol in FiniteProtocols(t, r.protocol).value
    ensures Plans.NamesPort(t, r.port, port) <==> FinitePorts(t, r.port).Some? && port in FinitePorts(t, r.port).value
    ensures Plans.StartsAt(t, r.file, path) <==> InitialPath(t, r.file) == Some(path)
    ensures WebProtocol(protocol) ==> forall host :: EndpointUrl(protocol, host, port, path) == Url(protocol, host, Plans.PortText(protocol, port), path)
    ensures Plans.NamesProtocol(t, r.protocol, protocol) ==> WebProtocol(protocol)
  {
    Plans.ProtocolsNamed(t, r.protocol);
    Plans.PortsNamed(t, r.port);
    Plans.PathNamed(t, r.file, path);
  }

  lemma {:induction false} AllProposedAreMade(t: Tools, rules: seq<NormalizedRule>, host: string, url: string)
    ensures url in AllProposed(t, rules, host) <==> exists r :: r in rules && Makes(t, r, host, url)
  {
    if rules != [] {
      var init, last := rules[..|rules| - 1], rules[|rules| - 1];
      assert rules == init + [last];
      assert forall r :: r in rules <==> r in init || r == last;
      AllProposedAreMade(t, init, host, url);
      ProposedIsMade(t, last, host, url);
    }
  }

  /** A host is authorized by exactly those URLs that some include rule makes for it and the
      scope allows; exclusions and supporting rules are those that agree with the URL. */
  lemma AuthorizedByTheRules(t: Tools, s: Scope, host: string, url: string)
    ensures Authorizes(t, s, host, url) <==> Allows(t.lib, s, url) && exists r :: r in s.includes && Makes(t, r, host, url)
    ensures Excluded(t.lib, s, url) <==> exists u :: IsTarget(t.lib, url, u) && SomeAgrees(t.lib, s.excludes, u, 4)
    ensures forall id :: Supports(t.lib, s, url, id) <==> exists u, r :: IsTarget(t.lib, url, u) && r in s.includes && r.id == id && Agrees(t.lib, r, u, 4)
  {
    AllProposedAreMade(t, s.includes, host, url);
    if u :| IsTarget(t.lib, url, u) {
      SomeAgreesMatches(t.lib, s.excludes, url, u, 4);
      forall r ensures Agrees(t.lib, r, u, 4) <==> Matches(t.lib, r, Values(t.lib, url).value) { AgreesMatches(t.lib, r, url, u, 4); }
      assert forall u' :: IsTarget(t.lib, url, u') ==> u' == u;
    } else {
      assert Values(t.lib, url).Some? ==> IsTarget(t.lib, url, t.lib.parse(url).value);
    }
  }

  // ---- sorted lists without repetition ----

  /** Adjacent repetitions removed. */
  function Collapse(s: seq<string>): seq<string> {
    if |s| < 2 then s
    else
      var init := Collapse(s[..|s| - 1]);
      if s[|s| - 1] == s[|s| - 2] then init else init + [s[|s| - 1]]
  }

  lemma {:induction false} CollapseMembers(s: seq<string>)
    ensures forall x :: x in Collapse(s) <==> x in s
    ensures s != [] ==> Collapse(s) != [] && Collapse(s)[|Collapse(s)| - 1] == s[|s| - 1]
  {
    if |s| >= 2 {
      CollapseMembers(s[..|s| - 1]);
      assert s == s[..|s| - 1] + [s[|s| - 1]];
      assert s[..|s| - 1][|s| - 2] == s[|s| - 2];
    }
  }

  /** In a sorted list nothing after a smaller item repeats what came before it. */
  lemma SortedBelow(s: seq<string>, x: string)
    requires |s| >= 2 && SortedBy(StrLess, s) && s[|s| - 2] != s[|s| - 1] && x in s[..|s| - 1]
    ensures x != s[|s| - 1] && !StrLess(s[|s| - 1], x)
  {
    var last, before := s[|s| - 1], s[|s| - 2];
    var j :| 0 <= j < |s| - 1 && s[j] == x;
    StrLessTotal(before, last);
    assert !StrLess(last, before);
    assert j < |s| - 2 ==> !StrLess(before, s[j]);
  }

  lemma {:induction false} CollapsedIsDistinct(s: seq<string>)
    requires SortedBy(StrLess, s)
    ensures NoDuplicates(Collapse(s)) && SortedBy(StrLess, Collapse(s))
  {
    if |s| >= 2 {
      var init := s[..|s| - 1];
      CollapsedIsDistinct(init);
      CollapseMembers(init);
      if s[|s| - 1] != s[|s| - 2] {
        var c := Collapse(init);
        forall i | 0 <= i < |c| ensures c[i] != s[|s| - 1] && !StrLess(s[|s| - 1], c[i]) {
          assert c[i] in c;
          SortedBelow(s, c[i]);
        }
      }
    }
  }

  /** In-place removal of adjacent repetitions: the kept items move to the front of the
      same buffer. */
  method Dedupe(a: array<string>) returns (n: nat)
    modifies a
    ensures n <= a.Length && a[..n] == Collapse(old(a[..]))
  {
    if a.Length < 2 { return a.Length; }
    ghost var was := a[..];
    n := 1;
    for i := 1 to a.Length
      invariant 1 <= n <= i
      invariant a[..n] == Collapse(was[..i]) && a[i..] == was[i..]
      invariant a[n - 1] == was[i - 1]
    {
      assert was[..i + 1][..i] == was[..i] && a[i] == a[i..][0] == was[i];
      if a[i] != a[n - 1] {
        a[n] := a[i];
        n := n + 1;
      }
    }
    assert was[..a.Length] == was;
  }

  /** `sort.Strings` followed by `dedupe`. */
  method SortAndDedupe(items: seq<string>) returns (out: seq<string>)
    ensures forall x :: x in out <==> x in items
    ensures NoDuplicates(out) && SortedBy(StrLess, out)
  {
    var sorted := SortStrings(items);
    var a := new string[|sorted|](i requires 0 <= i < |sorted| => sorted[i]);
    assert a[..] == sorted;
    var n := Dedupe(a);
    out := a[..n];
    SortStringsOrderInsensitive(items, items);
    CollapsedIsDistinct(sorted);
    CollapseMembers(sorted);
    SameElements(items, sorted);
  }

  method UniqueSorted(items: seq<string>) returns (out: seq<string>)
    ensures forall x :: x in out <==> x in items
    ensures NoDuplicates(out) && SortedBy(StrLess, out)
  {
    out := UniqueStrings(items);
    UniqueMembers(items);
    UniqueIsListing(items);
  }

  lemma UniqueIsListing(items: seq<string>)
    ensures NoDuplicates(Unique(items)) && SortedBy(StrLess, Unique(items))
  {
    SortStringsOrderInsensitive(Dedup(items), Dedup(items));
    PermutedDistinct(Dedup(items), Unique(items));
  }

  // ---- hosts ----

  /** What is known after evaluating the URLs in `seen`. */
  datatype Findings = Findings(urls: seq<string>, ruleIds: seq<string>, excluded: bool)

  ghost predicate Summarizes(t: Tools, s: Scope, seen: seq<string>, f: Findings) {
    && (forall u :: u in f.urls <==> u in seen && Allows(t.lib, s, u))
    && (forall id :: id in f.ruleIds <==> exists u :: u in seen && Allows(t.lib, s, u) && Supports(t.lib, s, u, id))
    && (f.excluded <==> exists u :: u in seen && Excluded(t.lib, s, u))
  }

  method Consider(t: Tools, s: Scope, f: Findings, url: string, ghost seen: seq<string>) returns (f': Findings)
    requires Summarizes(t, s, seen, f)
    ensures Summarizes(t, s, seen + [url], f')
  {
    var e := Evaluate(t.lib, s, url);
    f' := f;
    if e.allowed {
      f' := f.(urls := AppendUnique(f.urls, url), ruleIds := f.ruleIds + e.includeIds);
    } else if e.reason == MatchedExclusion {
      f' := f.(excluded := true);
    }
    SummaryExtends(t, s, seen, f, url, f', e);
  }

  lemma SummaryExtends(t: Tools, s: Scope, seen: seq<string>, f: Findings, url: string, f': Findings, e: Evaluation)
    requires Summarizes(t, s, seen, f)
    requires e.allowed <==> Allows(t.lib, s, url)
    requires e.allowed ==> forall id :: id in e.includeIds <==> Supports(t.lib, s, url, id)
    requires e.reason == MatchedExclusion <==> Excluded(t.lib, s, url)
    requires f' == if e.allowed then f.(urls := AppendUnique(f.urls, url), ruleIds := f.ruleIds + e.includeIds)
                   else if e.reason == MatchedExclusion then f.(excluded := true) else f
    requires e.allowed ==> e.reason != MatchedExclusion
    ensures Summarizes(t, s, seen + [url], f')
  {
    var all := seen + [url];
    assert forall u :: u in all <==> u in seen || u == url;
    forall id ensures id in f'.ruleIds <==> exists u :: u in all && Allows(t.lib, s, u) && Supports(t.lib, s, u, id) {
      if u :| u in all && Allows(t.lib, s, u) && Supports(t.lib, s, u, id) {
        assert u in seen || (u == url && e.allowed);
      }
    }
    if u :| u in all && Excluded(t.lib, s, u) {
      assert u in seen || u == url;
    }
  }

  method ConsiderRule(t: Tools, s: Scope, before: Findings, r: NormalizedRule, host: string, ghost seen: seq<string>) returns (f: Findings)
    requires Summarizes(t, s, seen, before)
    ensures Summarizes(t, s, seen + Proposed(t, r, host), f)
  {
    f := before;
    var protocols, ports, path := FiniteProtocols(t, r.protocol), FinitePorts(t, r.port), InitialPath(t, r.file);
    if !AppliesTo(t, r, host) {
      assert seen + [] == seen;
      return;
    }
    f := ConsiderAll(t, s, before, host, path.value, protocols.value, ports.value, seen);
  }

  lemma NextProtocol(t: Tools, host: string, path: string, protocols: seq<string>, ports: seq<nat>, seen: seq<string>, i: nat)
    requires i < |protocols|
    ensures seen + ProtocolUrls(t, host, path, protocols[..i + 1], ports)
         == (seen + ProtocolUrls(t, host, path, protocols[..i], ports)) + PortUrls(t, host, path, protocols[i], ports)
  {
    assert protocols[..i + 1][..i] == protocols[..i];
  }

  method ConsiderAll(t: Tools, s: Scope, before: Findings, host: string, path: string, protocols: seq<string>, ports: seq<nat>, ghost seen: seq<string>)
      returns (f: Findings)
    requires Summarizes(t, s, seen, before)
    ensures Summarizes(t, s, seen + ProtocolUrls(t, host, path, protocols, ports), f)
  {
    f := before;
    assert seen + [] == seen;
    for i := 0 to |protocols|
      invariant Summarizes(t, s, seen + ProtocolUrls(t, host, path, protocols[..i], ports), f)
    {
      f := ConsiderPorts(t, s, f, host, path, protocols[i], ports, seen + ProtocolUrls(t, host, path, protocols[..i], ports));
      NextProtocol(t, host, path, protocols, ports, seen, i);
    }
    assert protocols[..|protocols|] == protocols;
  }

  method ConsiderPorts(t: Tools, s: Scope, before: Findings, host: string, path: string, protocol: string, ports: seq<nat>, ghost seen: seq<string>)
      returns (f: Findings)
    requires Summarizes(t, s, seen, before)
    ensures Summarizes(t, s, seen + PortUrls(t, host, path, protocol, ports), f)
  {
    f := before;
    assert seen + [] == seen;
    for j := 0 to |ports|
      invariant Summarizes(t, s, seen + PortUrls(t, host, path, protocol, ports[..j]), f)
    {
      assert ports[..j + 1][..j] == ports[..j];
      var url := t.show(EndpointUrl(protocol, host, ports[j], path));
      f := Consider(t, s, f, url, seen + PortUrls(t, host, path, protocol, ports[..j]));
      assert seen + PortUrls(t, host, path, protocol, ports[..j + 1]) == (seen + PortUrls(t, host, path, protocol, ports[..j])) + [url];
    }
    assert ports[..|ports|] == ports;
  }

  /** A host is accepted exactly when some proposed URL of it is allowed; the decision
      names all of those and the rules behind them. */
  method AuthorizeHost(t: Tools, s: Scope, host: string) returns (d: Decision)
    ensures d.target == host && (d.accepted <==> HostAuthorized(t, s, host))
    ensures forall url :: url in d.urls <==> Authorizes(t, s, host, url)
    ensures d.accepted <==> d.reason == Allowed
    ensures !d.accepted ==> d.reason == (if exists u :: u in AllProposed(t, s.includes, host) && Excluded(t.lib, s, u) then MatchedExclusion else NoInclude)
    ensures d.accepted ==> forall id :: id in d.ruleIds <==> exists u :: Authorizes(t, s, host, u) && Supports(t.lib, s, u, id)
  {
    var f := Findings([], [], false);
    for k := 0 to |s.includes|
      invariant Summarizes(t, s, AllProposed(t, s.includes[..k], host), f)
    {
      f := ConsiderRule(t, s, f, s.includes[k], host, AllProposed(t, s.includes[..k], host));
      assert s.includes[..k + 1][..k] == s.includes[..k];
    }
    assert s.includes[..|s.includes|] == s.includes;
    if f.urls == [] {
      return Decision(host, false, if f.excluded then MatchedExclusion else NoInclude, [], []);
    }
    assert Authorizes(t, s, host, f.urls[0]) by { assert f.urls[0] in f.urls; }
    var urls := UniqueSorted(f.urls);
    var ids := UniqueSorted(f.ruleIds);
    return Decision(host, true, Allowed, urls, ids);
  }

  // ---- lists of hosts and URLs ----

  datatype HostResult = HostResult(hosts: seq<string>, urls: seq<string>, filtered: seq<Filtered>)

  ghost predicate NamedBy(t: Tools, raw: seq<string>, h: string) {
    exists x :: x in raw && t.host(x) == Some(h)
  }

  ghost predicate RefusedHost(filtered: seq<Filtered>, h: string) {
    exists d :: Refused(d) in filtered && d.target == h && !d.accepted
  }

  /** The authorized hosts of a list, all URLs that authorize them, and every other
      entry among the filtered ones. */
  ghost predicate Filters(t: Tools, s: Scope, raw: seq<string>, f: HostResult) {
    && (forall h :: h in f.hosts <==> NamedBy(t, raw, h) && HostAuthorized(t, s, h))
    && (forall u :: u in f.urls <==> exists h :: h in f.hosts && Authorizes(t, s, h, u))
    && (forall h :: NamedBy(t, raw, h) ==> h in f.hosts || RefusedHost(f.filtered, h))
    && (forall x :: x in raw && t.host(x).None? ==> InvalidHost(x) in f.filtered)
  }

  lemma NamedMore(t: Tools, raw: seq<string>, x: string, h: string)
    ensures NamedBy(t, raw + [x], h) <==> NamedBy(t, raw, h) || t.host(x) == Some(h)
  {
    if t.host(x) == Some(h) { assert x in raw + [x]; }
    if NamedBy(t, raw, h) {
      var y :| y in raw && t.host(y) == Some(h);
      assert y in raw + [x];
    }
  }

  lemma FiltersInvalid(t: Tools, s: Scope, raw: seq<string>, f: HostResult, x: string)
    requires Filters(t, s, raw, f) && t.host(x).None?
    ensures Filters(t, s, raw + [x], f.(filtered := f.filtered + [InvalidHost(x)]))
  {
    var f' := f.(filtered := f.filtered + [InvalidHost(x)]);
    forall h ensures NamedBy(t, raw + [x], h) <==> NamedBy(t, raw, h) { NamedMore(t, raw, x, h); }
    forall h | RefusedHost(f.filtered, h) ensures RefusedHost(f'.filtered, h) { RefusedMore(f.filtered, f'.filtered, h); }
  }

  lemma RefusedMore(a: seq<Filtered>, b: seq<Filtered>, h: string)
    requires RefusedHost(a, h) && forall x :: x in a ==> x in b
    ensures RefusedHost(b, h)
  {}

  lemma FiltersAgain(t: Tools, s: Scope, raw: seq<string>, f: HostResult, x: string)
    requires Filters(t, s, raw, f) && t.host(x).Some? && NamedBy(t, raw, t.host(x).value)
    ensures Filters(t, s, raw + [x], f)
  {}

  function Decided(f: HostResult, d: Decision): HostResult {
    if d.accepted then f.(hosts := f.hosts + [d.target], urls := f.urls + d.urls) else f.(filtered := f.filtered + [Refused(d)])
  }

  lemma FiltersDecided(t: Tools, s: Scope, raw: seq<string>, f: HostResult, x: string, d: Decision)
    requires Filters(t, s, raw, f) && t.host(x) == Some(d.target)
    requires d.accepted <==> HostAuthorized(t, s, d.target)
    requires forall url :: url in d.urls <==> Authorizes(t, s, d.target, url)
    ensures Filters(t, s, raw + [x], Decided(f, d))
  {
    var f' := Decided(f, d);
    forall h ensures NamedBy(t, raw + [x], h) <==> NamedBy(t, raw, h) || h == d.target { NamedMore(t, raw, x, h); }
    if d.accepted {
      forall u ensures u in f'.urls <==> exists h :: h in f'.hosts && Authorizes(t, s, h, u) {
        if u in d.urls { assert d.target in f'.hosts && Authorizes(t, s, d.target, u); }
        if u in f.urls {
          var h :| h in f.hosts && Authorizes(t, s, h, u);
          assert h in f'.hosts;
        }
      }
    } else {
      assert Refused(d) in f'.filtered;
      assert RefusedHost(f'.filtered, d.target);
      forall h | RefusedHost(f.filtered, h) ensures RefusedHost(f'.filtered, h) { RefusedMore(f.filtered, f'.filtered, h); }
    }
  }

  /** The hosts among `raw` that can be normalised, each once. */
  method FilterDiscoveredHosts(t: Tools, s: Scope, raw: seq<string>) returns (r: HostResult)
    ensures Filters(t, s, raw, r)
    ensures NoDuplicates(r.hosts) && SortedBy(StrLess, r.hosts) && NoDuplicates(r.urls) && SortedBy(StrLess, r.urls)
  {
    var f, seen: set<string> := HostResult([], [], []), {};
    for i := 0 to |raw|
      invariant Filters(t, s, raw[..i], f)
      invariant forall h :: h in seen <==> NamedBy(t, raw[..i], h)
    {
      assert raw[..i + 1] == raw[..i] + [raw[i]];
      forall h { NamedMore(t, raw[..i], raw[i], h); }
      var host := t.host(raw[i]);
      if host.None? {
        FiltersInvalid(t, s, raw[..i], f, raw[i]);
        f := f.(filtered := f.filtered + [InvalidHost(raw[i])]);
      } else if host.value in seen {
        FiltersAgain(t, s, raw[..i], f, raw[i]);
      } else {
        seen := seen + {host.value};
        var d := AuthorizeHost(t, s, host.value);
        FiltersDecided(t, s, raw[..i], f, raw[i], d);
        f := Decided(f, d);
      }
    }
    assert raw[..|raw|] == raw;
    var hosts := UniqueSorted(f.hosts);
    var urls := UniqueSorted(f.urls);
    r := HostResult(hosts, urls, f.filtered);
  }

  /** A web URL, as it is printed again. */
  function Reprinted(t: Tools, raw: string): Option<string> {
    match t.lib.parse(t.lib.trim(raw))
    case None => None
    case Some(u) => if u.host == "" || !WebProtocol(u.scheme) then None else Some(t.reprint(t.lib.trim(raw)))
  }

  datatype UrlResult = UrlResult(urls: seq<string>, filtered: seq<Filtered>)

  /** The URLs that are allowed as printed again, each once. */
  method FilterUrls(t: Tools, s: Scope, raw: seq<string>) returns (r: UrlResult)
    ensures forall u :: u in r.urls <==> (exists x :: x in raw && Reprinted(t, x) == Some(u)) && Allows(t.lib, s, u)
    ensures NoDuplicates(r.urls) && SortedBy(StrLess, r.urls)
    ensures forall x :: x in raw ==>
      match Reprinted(t, x)
      case None => InvalidTarget(x) in r.filtered
      case Some(u) => u in r.urls || exists e :: RefusedUrl(e) in r.filtered && e.target == u && !e.allowed
  {
    var urls: seq<string>, filtered: seq<Filtered>, seen: set<string> := [], [], {};
    for i := 0 to |raw|
      invariant forall u :: u in seen <==> exists j :: 0 <= j < i && Reprinted(t, raw[j]) == Some(u)
      invariant forall u :: u in urls <==> u in seen && Allows(t.lib, s, u)
      invariant forall u :: u in seen && u !in urls ==> exists e :: RefusedUrl(e) in filtered && e.target == u && !e.allowed
      invariant forall j :: 0 <= j < i && Reprinted(t, raw[j]).None? ==> InvalidTarget(raw[j]) in filtered
    {
      var url := Reprinted(t, raw[i]);
      if url.None? {
        filtered := filtered + [InvalidTarget(raw[i])];
      } else if url.value !in seen {
        seen := seen + {url.value};
        var e := Evaluate(t.lib, s, url.value);
        if e.allowed {
          urls := urls + [url.value];
        } else {
          filtered := filtered + [RefusedUrl(e)];
          assert RefusedUrl(e) in filtered;
        }
      }
    }
    var sorted := UniqueSorted(urls);
    r := UrlResult(sorted, filtered);
  }

  // ---- provider records ----

  datatype RecordKind = HostRecord | UrlRecord | PortRecord

  datatype Record = Record(kind: RecordKind, target: string, host: string, port: int)

  /** The port a URL is reached on, as `filterRecords` re-derives it. */
  function PortOf(t: Tools, url: string): Option<int> {
    match t.lib.parse(url)
    case None => None
    case Some(u) => Some(match Atoi(EffectivePort(u)) case None => 0 case Some(p) => p)
  }

  ghost predicate ReachesPort(t: Tools, s: Scope, host: string, port: int, url: string) {
    Authorizes(t, s, host, url) && PortOf(t, url) == Some(port)
  }

  /** What makes a record acceptable. */
  ghost predicate RecordAuthorized(t: Tools, s: Scope, r: Record) {
    match r.kind
    case HostRecord => t.host(r.host).Some? && HostAuthorized(t, s, t.host(r.host).value)
    case UrlRecord => Reprinted(t, r.target).Some? && Allows(t.lib, s, Reprinted(t, r.target).value)
    case PortRecord => t.host(r.host).Some? && exists url :: ReachesPort(t, s, t.host(r.host).value, r.port, url)
  }

  /** The target that an authorized record adds to the accepted ones. */
  ghost predicate AddsTarget(t: Tools, s: Scope, r: Record, x: string) {
    RecordAuthorized(t, s, r)
    && match r.kind
       case HostRecord => t.host(r.host) == Some(x)
       case UrlRecord => Reprinted(t, r.target) == Some(x)
       case PortRecord => r.target == x
  }

  /** The URLs that it hands on. */
  ghost predicate AddsUrl(t: Tools, s: Scope, r: Record, u: string) {
    RecordAuthorized(t, s, r)
    && match r.kind
       case HostRecord => Authorizes(t, s, t.host(r.host).value, u)
       case UrlRecord => Reprinted(t, r.target) == Some(u)
       case PortRecord => false
  }

  ghost function Kept(t: Tools, s: Scope, records: seq<Record>): seq<Record> {
    if records == [] then [] else
      var last := records[|records| - 1];
      Kept(t, s, records[..|records| - 1]) + if RecordAuthorized(t, s, last) then [last] else []
  }

  predicate TargetLess(a: Record, b: Record) {
    StrLess(a.target, b.target)
  }

  datatype Records = Records(accepted: seq<string>, urls: seq<string>, records: seq<Record>, filtered: seq<Filtered>)

  method HostAccepted(t: Tools, s: Scope, record: Record) returns (ok: bool, accepted: seq<string>, urls: seq<string>, filtered: seq<Filtered>)
    requires record.kind.HostRecord?
    ensures ok <==> RecordAuthorized(t, s, record)
    ensures !ok ==> accepted == [] && urls == []
    ensures ok ==> accepted == [t.host(record.host).value] && forall u :: u in urls <==> Authorizes(t, s, t.host(record.host).value, u)
  {
    var r := FilterDiscoveredHosts(t, s, [record.host]);
    ok, accepted, urls, filtered := r.hosts != [], [], [], r.filtered;
    assert [record.host] == [] + [record.host];
    forall h ensures NamedBy(t, [record.host], h) <==> t.host(record.host) == Some(h) { NamedMore(t, [], record.host, h); }
    if ok {
      assert r.hosts[0] in r.hosts;
      OnlyElement(r.hosts, t.host(record.host).value);
      forall u { OneHost(t, s, record.host, r, u); }
      accepted, urls := r.hosts, r.urls;
    } else if t.host(record.host).Some? {
      assert t.host(record.host).value !in r.hosts;
    }
  }

  /** The outcome for one record. */
  method FilterRecord(t: Tools, s: Scope, record: Record) returns (ok: bool, accepted: seq<string>, urls: seq<string>, filtered: seq<Filtered>)
    ensures ok <==> RecordAuthorized(t, s, record)
    ensures forall x :: x in accepted <==> AddsTarget(t, s, record, x)
    ensures forall u :: u in urls <==> AddsUrl(t, s, record, u)
  {
    ok, accepted, urls, filtered := false, [], [], [];
    match record.kind
    case HostRecord =>
      ok, accepted, urls, filtered := HostAccepted(t, s, record);
    case UrlRecord =>
      var r := FilterUrls(t, s, [record.target]);
      ok, filtered := r.urls != [], r.filtered;
      if ok {
        OnlyElement(r.urls, r.urls[0]);
        accepted, urls := r.urls, r.urls;
      } else {
        assert Reprinted(t, record.target).Some? ==> Reprinted(t, record.target).value !in r.urls;
      }
    case PortRecord =>
      ok := PortAuthorized(t, s, record);
      if ok { accepted := [record.target]; } else { filtered := [PortRefused(record.target)]; }
  }

  lemma OnlyElement(s: seq<string>, x: string)
    requires NoDuplicates(s) && x in s && forall y :: y in s ==> y == x
    ensures s == [x]
  {
    assert 1 < |s| ==> s[0] != s[1];
    forall i | 0 <= i < |s| ensures s[i] == x { assert s[i] in s; }
  }

  /** A single host: filtering it says whether it is authorized and by which URLs. */
  lemma OneHost(t: Tools, s: Scope, x: string, r: HostResult, url: string)
    requires Filters(t, s, [x], r)
    ensures url in r.urls <==> t.host(x).Some? && Authorizes(t, s, t.host(x).value, url)
  {}

  method PortAuthorized(t: Tools, s: Scope, record: Record) returns (ok: bool)
    requires record.kind.PortRecord?
    ensures ok <==> RecordAuthorized(t, s, record)
  {
    var r := FilterDiscoveredHosts(t, s, [record.host]);
    ok := false;
    for i := 0 to |r.urls|
      invariant ok <==> exists j :: 0 <= j < i && PortOf(t, r.urls[j]) == Some(record.port)
    {
      if PortOf(t, r.urls[i]) == Some(record.port) { ok := true; }
    }
    PortDecided(t, s, record, r, ok);
  }

  lemma PortDecided(t: Tools, s: Scope, record: Record, r: HostResult, ok: bool)
    requires record.kind.PortRecord? && Filters(t, s, [record.host], r)
    requires ok <==> exists j :: 0 <= j < |r.urls| && PortOf(t, r.urls[j]) == Some(record.port)
    ensures ok <==> RecordAuthorized(t, s, record)
  {
    if ok {
      var j :| 0 <= j < |r.urls| && PortOf(t, r.urls[j]) == Some(record.port);
      OneHost(t, s, record.host, r, r.urls[j]);
      assert ReachesPort(t, s, t.host(record.host).value, record.port, r.urls[j]);
    }
    if RecordAuthorized(t, s, record) {
      var url :| ReachesPort(t, s, t.host(record.host).value, record.port, url);
      OneHost(t, s, record.host, r, url);
      var j :| 0 <= j < |r.urls| && r.urls[j] == url;
    }
  }

  lemma AddedUrlsAreAllowed(t: Tools, s: Scope, r: Record, u: string)
    requires AddsUrl(t, s, r, u)
    ensures Allows(t.lib, s, u)
  {}

  ghost predicate TargetAdded(t: Tools, s: Scope, records: seq<Record>, x: string) {
    exists r :: r in records && AddsTarget(t, s, r, x)
  }

  ghost predicate UrlAdded(t: Tools, s: Scope, records: seq<Record>, u: string) {
    exists r :: r in records && AddsUrl(t, s, r, u)
  }

  lemma AddedMore(t: Tools, s: Scope, records: seq<Record>, next: Record, x: string)
    ensures TargetAdded(t, s, records + [next], x) <==> TargetAdded(t, s, records, x) || AddsTarget(t, s, next, x)
    ensures UrlAdded(t, s, records + [next], x) <==> UrlAdded(t, s, records, x) || AddsUrl(t, s, next, x)
  {
    assert forall r :: r in records + [next] <==> r in records || r == next;
  }

  ghost predicate Collects(t: Tools, s: Scope, records: seq<Record>, accepted: seq<string>, urls: seq<string>, kept: seq<Record>) {
    && kept == Kept(t, s, records)
    && (forall x :: x in accepted <==> TargetAdded(t, s, records, x))
    && forall u :: u in urls <==> UrlAdded(t, s, records, u)
  }

  method CollectRecords(t: Tools, s: Scope, records: seq<Record>)
      returns (accepted: seq<string>, urls: seq<string>, kept: seq<Record>, filtered: seq<Filtered>)
    ensures Collects(t, s, records, accepted, urls, kept)
  {
    accepted, urls, kept, filtered := [], [], [], [];
    for i := 0 to |records|
      invariant Collects(t, s, records[..i], accepted, urls, kept)
    {
      assert records[..i + 1] == records[..i] + [records[i]];
      forall x { AddedMore(t, s, records[..i], records[i], x); }
      var ok, a, u, f := FilterRecord(t, s, records[i]);
      if ok {
        accepted, urls, kept := accepted + a, urls + u, kept + [records[i]];
      } else {
        filtered := filtered + f;
      }
    }
    assert records[..|records|] == records;
  }

  /** Exactly the authorized records pass, as often as they come and in the order of their
      targets; the accepted targets and the URLs are exactly what they add, each once, and
      all these URLs are allowed. */
  method FilterRecords(t: Tools, s: Scope, records: seq<Record>) returns (r: Records)
    ensures multiset(r.records) == multiset(Kept(t, s, records))
    ensures forall i, j :: 0 <= i < j < |r.records| ==> !StrLess(r.records[j].target, r.records[i].target)
    ensures forall x :: x in r.accepted <==> TargetAdded(t, s, records, x)
    ensures forall u :: u in r.urls <==> UrlAdded(t, s, records, u)
    ensures forall u :: u in r.urls ==> Allows(t.lib, s, u)
    ensures NoDuplicates(r.urls) && NoDuplicates(r.accepted) && SortedBy(StrLess, r.urls) && SortedBy(StrLess, r.accepted)
  {
    var accepted, urls, kept, filtered := CollectRecords(t, s, records);
    forall u | u in urls ensures Allows(t.lib, s, u) {
      var record :| record in records && AddsUrl(t, s, record, u);
      AddedUrlsAreAllowed(t, s, record, u);
    }
    var acceptedList := SortAndDedupe(accepted);
    var urlList := SortAndDedupe(urls);
    TargetsWeak(Elements(kept));
    SortBySorted(TargetLess, kept);
    r := Records(acceptedList, urlList, SortBy(TargetLess, kept), filtered);
    assert SortedBy(TargetLess, r.records);
    forall i, j | 0 <= i < j < |r.records| ensures !StrLess(r.records[j].target, r.records[i].target) {
      assert !TargetLess(r.records[j], r.records[i]);
    }
  }

  lemma TargetsWeak(items: set<Record>)
    ensures WeakOn(TargetLess, items)
  {
    forall x, y | x in items && y in items && TargetLess(x, y) ensures !TargetLess(y, x) {
      if TargetLess(y, x) {
        StrLessTransitive(x.target, y.target, x.target);
        StrLessIrreflexive(x.target);
      }
    }
    forall x, y, z | x in items && y in items && z in items && !TargetLess(x, y) && !TargetLess(y, z) ensures !TargetLess(x, z) {
      StringsTotal({x.target, y.target, z.target});
      TotalIsWeak(StrLess, {x.target, y.target, z.target});
    }
  }

  // ---- filter and printer agree ----

  /** The port that the filter reads off a proposed URL is the one it was printed with. */
  lemma PrintedPortIsRead(t: Tools, protocol: string, host: string, port: nat, path: string)
    requires PrintsReadably(t) && IsEndpoint(t, protocol, host, port, path)
    ensures PortOf(t, t.show(EndpointUrl(protocol, host, port, path))) == Some(port)
    ensures Values(t.lib, t.show(EndpointUrl(protocol, host, port, path))).Some? ==>
      Values(t.lib, t.show(EndpointUrl(protocol, host, port, path))).value[2] == Decimal(port)
  {
    PortIsRecovered(protocol, host, port, path);
    var u := EndpointUrl(protocol, host, port, path);
    assert ReadsBack(t, u);
    assert EffectivePort(t.lib.parse(t.show(u)).value) == EffectivePort(u);
  }

  ghost predicate AllowedOnPort(t: Tools, s: Scope, protocol: string, host: string, port: int, path: string) {
    port >= 0 && IsEndpoint(t, protocol, host, port, path) && Allows(t.lib, s, t.show(EndpointUrl(protocol, host, port, path)))
  }

  /** A port record is accepted only if an allowed URL of that host uses that very port. */
  lemma AcceptedPortsAreAllowed(t: Tools, s: Scope, r: Record)
    requires PrintsReadably(t) && r.kind.PortRecord? && RecordAuthorized(t, s, r)
    ensures exists protocol, path :: AllowedOnPort(t, s, protocol, t.host(r.host).value, r.port, path)
  {
    var host := t.host(r.host).value;
    var url :| ReachesPort(t, s, host, r.port, url);
    var protocol, port, path := ProposedOrigin(t, s.includes, host, url);
    assert IsEndpoint(t, protocol, host, port, path);
    PrintedPortIsRead(t, protocol, host, port, path);
    assert r.port == port;
    assert AllowedOnPort(t, s, protocol, host, r.port, path);
  }
}
