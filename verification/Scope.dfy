/** Scope rules, their canonical compilation, and the evaluation of a target URL. */
module Scope {
  import opened Order
  import opened Wrappers

  datatype Kind = Include | Exclude

  datatype Rule = Rule(protocol: string, host: string, port: string, file: string, enabled: bool)

  datatype NormalizedRule = NormalizedRule(id: string, digest: string, kind: Kind, protocol: string, host: string, port: string, file: string)

  datatype Url = Url(scheme: string, host: string, port: string, path: string)

  /** The library functions the scope relies on. `full` is the leftmost-first full match
      of a pattern, `digest` the hash of a rule in canonical form. */
  datatype Library = Library(
    trim: string -> string,
    lower: string -> string,
    parse: string -> Option<Url>,
    compiles: string -> bool,
    full: (string, string) -> bool,
    digest: (Kind, string, string, string, string) -> string)

  datatype Scope = Scope(includes: seq<NormalizedRule>, excludes: seq<NormalizedRule>)

  datatype Reason =
    | Allowed | UnsupportedTarget | MatchedExclusion
    | ProtocolMismatch | HostMismatch | PortMismatch | PathMismatch | NoInclude

  datatype Evaluation = Evaluation(target: string, allowed: bool, reason: Reason, includeIds: seq<string>, excludeIds: seq<string>)

  // ---- compilation ----

  function OrAny(s: string): string {
    if s == "" then ".*" else s
  }

  function KindName(kind: Kind): string {
    match kind case Include => "include" case Exclude => "exclude"
  }

  function Prefix(s: string, n: nat): string {
    if |s| <= n then s else s[..n]
  }

  function Normalize(lib: Library, r: Rule, kind: Kind): NormalizedRule {
    var protocol, host, port, file := OrAny(lib.trim(r.protocol)), OrAny(lib.lower(lib.trim(r.host))), OrAny(lib.trim(r.port)), OrAny(lib.trim(r.file));
    var digest := lib.digest(kind, protocol, host, port, file);
    NormalizedRule(KindName(kind) + "-" + Prefix(digest, 16), digest, kind, protocol, host, port, file)
  }

  predicate Compilable(lib: Library, r: NormalizedRule) {
    lib.compiles(r.protocol) && lib.compiles(r.host) && lib.compiles(r.port) && lib.compiles(r.file)
  }

  predicate IdLess(a: NormalizedRule, b: NormalizedRule) {
    StrLess(a.id, b.id)
  }

  /** The enabled rules, normalised. */
  ghost function Enabled(lib: Library, rules: seq<Rule>, kind: Kind): set<NormalizedRule> {
    set r | r in rules && r.enabled :: Normalize(lib, r, kind)
  }

  /** Rules with one id are one rule: 64 bits of a digest do not collide. */
  ghost predicate IdsDistinguish(s: set<NormalizedRule>) {
    forall a, b :: a in s && b in s && a.id == b.id ==> a == b
  }

  lemma IdLessTotal(s: set<NormalizedRule>)
    requires IdsDistinguish(s)
    ensures TotalOn(IdLess, s)
  {
    forall a | a in s ensures !IdLess(a, a) { StrLessIrreflexive(a.id); }
    forall a, b | a in s && b in s && a != b ensures IdLess(a, b) || IdLess(b, a) { StrLessTotal(a.id, b.id); }
    forall a, b, d | a in s && b in s && d in s && IdLess(a, b) && IdLess(b, d) ensures IdLess(a, d) {
      StrLessTransitive(a.id, b.id, d.id);
    }
  }

  /** What `compile` returns: the distinct enabled rules in id order. */
  ghost predicate IsCompiled(lib: Library, rules: seq<Rule>, kind: Kind, out: seq<NormalizedRule>) {
    && Elements(out) == Enabled(lib, rules, kind)
    && NoDuplicates(out) && SortedBy(IdLess, out)
    && forall r :: r in out ==> Compilable(lib, r)
  }

  /** Keeping one more rule, unless its id was kept before. */
  lemma KeptNext(lib: Library, rules: seq<Rule>, kind: Kind, i: nat, kept: seq<NormalizedRule>, r: NormalizedRule)
    requires i < |rules| && rules[i].enabled && r == Normalize(lib, rules[i], kind)
    requires IdsDistinguish(Enabled(lib, rules, kind))
    requires Elements(kept) == Enabled(lib, rules[..i], kind) && NoDuplicates(kept)
    ensures r in Enabled(lib, rules, kind)
    ensures var known := exists k :: k in kept && k.id == r.id;
            var kept' := if known then kept else kept + [r];
            Elements(kept') == Enabled(lib, rules[..i + 1], kind) && NoDuplicates(kept')
  {
    EnabledPrefix(lib, rules, kind, i);
    assert r in Enabled(lib, rules, kind);
    if k :| k in kept && k.id == r.id {
      assert k in Elements(kept) && k in Enabled(lib, rules, kind);
      assert k == r;
    }
  }

  method KeepRules(lib: Library, rules: seq<Rule>, kind: Kind) returns (out: Option<seq<NormalizedRule>>)
    requires IdsDistinguish(Enabled(lib, rules, kind))
    ensures out.None? ==> exists r :: r in Enabled(lib, rules, kind) && !Compilable(lib, r)
    ensures out.Some? ==> Elements(out.value) == Enabled(lib, rules, kind) && NoDuplicates(out.value) && forall r :: r in out.value ==> Compilable(lib, r)
  {
    var kept: seq<NormalizedRule>, seen: set<string> := [], {};
    for i := 0 to |rules|
      invariant Elements(kept) == Enabled(lib, rules[..i], kind) && NoDuplicates(kept)
      invariant forall id :: id in seen <==> exists r :: r in kept && r.id == id
      invariant forall r :: r in kept ==> Compilable(lib, r)
    {
      EnabledPrefix(lib, rules, kind, i);
      if rules[i].enabled {
        var r := Normalize(lib, rules[i], kind);
        KeptNext(lib, rules, kind, i, kept, r);
        assert r.id in seen <==> exists k :: k in kept && k.id == r.id;
        if r.id !in seen {
          if !Compilable(lib, r) { return None; }
          kept, seen := kept + [r], seen + {r.id};
        }
      }
    }
    assert rules[..|rules|] == rules;
    return Some(kept);
  }

  /** One side of a scope. It fails exactly when an enabled rule has an expression that
      does not compile. */
  method CompileRules(lib: Library, rules: seq<Rule>, kind: Kind) returns (out: Option<seq<NormalizedRule>>)
    requires IdsDistinguish(Enabled(lib, rules, kind))
    ensures out.None? <==> exists r :: r in Enabled(lib, rules, kind) && !Compilable(lib, r)
    ensures out.Some? ==> IsCompiled(lib, rules, kind, out.value)
  {
    var kept := KeepRules(lib, rules, kind);
    if kept.None? { return None; }
    assert forall r :: r in Enabled(lib, rules, kind) ==> r in kept.value;
    IdLessTotal(Elements(kept.value));
    TotalIsWeak(IdLess, Elements(kept.value));
    SortBySorted(IdLess, kept.value);
    var sorted := SortBy(IdLess, kept.value);
    SameElements(kept.value, sorted);
    PermutedDistinct(kept.value, sorted);
    return Some(sorted);
  }

  lemma EnabledPrefix(lib: Library, rules: seq<Rule>, kind: Kind, i: nat)
    requires i < |rules|
    ensures Enabled(lib, rules[..i], kind) <= Enabled(lib, rules, kind)
    ensures Enabled(lib, rules[..i + 1], kind)
         == Enabled(lib, rules[..i], kind) + if rules[i].enabled then {Normalize(lib, rules[i], kind)} else {}
  {}

  /** Compilation is canonical: permuting or repeating rules, or adding disabled ones,
      changes nothing. */
  lemma CompiledCanonical(lib: Library, a: seq<Rule>, b: seq<Rule>, kind: Kind, outA: seq<NormalizedRule>, outB: seq<NormalizedRule>)
    requires Enabled(lib, a, kind) == Enabled(lib, b, kind) && IdsDistinguish(Enabled(lib, a, kind))
    requires IsCompiled(lib, a, kind, outA) && IsCompiled(lib, b, kind, outB)
    ensures outA == outB
  {
    SameSetSameMultiset(outA, outB);
    IdLessTotal(Elements(outA));
    SortedUnique(IdLess, outA, outB);
  }

  /** A scope needs an include rule. */
  method Compile(lib: Library, includes: seq<Rule>, excludes: seq<Rule>) returns (s: Option<Scope>)
    requires IdsDistinguish(Enabled(lib, includes, Include)) && IdsDistinguish(Enabled(lib, excludes, Exclude))
    ensures s.Some? ==> IsCompiled(lib, includes, Include, s.value.includes) && IsCompiled(lib, excludes, Exclude, s.value.excludes)
    ensures s.Some? ==> s.value.includes != []
    ensures s.None? <==>
      || Enabled(lib, includes, Include) == {}
      || exists r :: r in Enabled(lib, includes, Include) + Enabled(lib, excludes, Exclude) && !Compilable(lib, r)
  {
    var ins := CompileRules(lib, includes, Include);
    if ins.None? { return None; }
    var outs := CompileRules(lib, excludes, Exclude);
    if outs.None? { return None; }
    if ins.value == [] {
      assert Elements(ins.value) == {};
      return None;
    }
    assert ins.value[0] in Enabled(lib, includes, Include);
    assert forall r :: r in Enabled(lib, includes, Include) ==> r in ins.value;
    assert forall r :: r in Enabled(lib, excludes, Exclude) ==> r in outs.value;
    return Some(Scope(ins.value, outs.value));
  }

  // ---- evaluation ----

  function DefaultPort(scheme: string): string {
    if scheme == "https" then "443" else "80"
  }

  /** The four values rules are matched against; none for an unsupported target. */
  function Values(lib: Library, raw: string): Option<seq<string>>
    ensures Values(lib, raw).Some? ==> |Values(lib, raw).value| == 4
  {
    match lib.parse(raw)
    case None => None
    case Some(u) =>
      if u.host == "" || (u.scheme != "http" && u.scheme != "https") then None
      else Some([lib.lower(u.scheme), lib.lower(u.host),
                 if u.port == "" then DefaultPort(u.scheme) else u.port,
                 if u.path == "" then "/" else u.path])
  }

  function Pattern(r: NormalizedRule, i: nat): string
    requires i < 4
  {
    [r.protocol, r.host, r.port, r.file][i]
  }

  /** The rule matches the first `n` values. */
  predicate MatchesFirst(lib: Library, r: NormalizedRule, v: seq<string>, n: nat)
    requires |v| == 4 && n <= 4
  {
    forall i :: 0 <= i < n ==> lib.full(Pattern(r, i), v[i])
  }

  predicate Matches(lib: Library, r: NormalizedRule, v: seq<string>)
    requires |v| == 4
  {
    MatchesFirst(lib, r, v, 4)
  }

  predicate SomeMatchesFirst(lib: Library, rules: seq<NormalizedRule>, v: seq<string>, n: nat)
    requires |v| == 4 && n <= 4
  {
    exists r :: r in rules && MatchesFirst(lib, r, v, n)
  }

  /** Authorization: some include matches and no exclude does. */
  predicate Allows(lib: Library, s: Scope, raw: string) {
    match Values(lib, raw)
    case None => false
    case Some(v) => SomeMatchesFirst(lib, s.includes, v, 4) && !SomeMatchesFirst(lib, s.excludes, v, 4)
  }

  method AnyPrefix(lib: Library, rules: seq<NormalizedRule>, v: seq<string>, count: nat) returns (found: bool)
    requires |v| == 4 && count <= 4
    ensures found <==> SomeMatchesFirst(lib, rules, v, count)
  {
    for k := 0 to |rules|
      invariant forall j :: 0 <= j < k ==> !MatchesFirst(lib, rules[j], v, count)
    {
      var ok, i := true, 0;
      while i < count && ok
        invariant 0 <= i <= count
        invariant ok ==> MatchesFirst(lib, rules[k], v, i)
        invariant !ok ==> !MatchesFirst(lib, rules[k], v, count)
        decreases count - i, ok
      {
        if !lib.full(Pattern(rules[k], i), v[i]) {
          ok := false;
        } else {
          i := i + 1;
        }
      }
      if ok { return true; }
    }
    return false;
  }

  /** The first of protocol, host, port and path on which the rules stop agreeing with
      the target. With a full match there is none, which `Evaluate` rules out. */
  method MismatchReason(lib: Library, rules: seq<NormalizedRule>, v: seq<string>) returns (reason: Reason)
    requires |v| == 4
    ensures reason == ProtocolMismatch <==> !SomeMatchesFirst(lib, rules, v, 1)
    ensures reason == HostMismatch <==> SomeMatchesFirst(lib, rules, v, 1) && !SomeMatchesFirst(lib, rules, v, 2)
    ensures reason == PortMismatch <==> SomeMatchesFirst(lib, rules, v, 2) && !SomeMatchesFirst(lib, rules, v, 3)
    ensures reason == PathMismatch <==> SomeMatchesFirst(lib, rules, v, 3) && !SomeMatchesFirst(lib, rules, v, 4)
    ensures reason == NoInclude <==> SomeMatchesFirst(lib, rules, v, 4)
    ensures reason in {ProtocolMismatch, HostMismatch, PortMismatch, PathMismatch, NoInclude}
  {
    Weaker(lib, rules, v);
    var p := AnyPrefix(lib, rules, v, 1);
    if !p { return ProtocolMismatch; }
    p := AnyPrefix(lib, rules, v, 2);
    if !p { return HostMismatch; }
    p := AnyPrefix(lib, rules, v, 3);
    if !p { return PortMismatch; }
    p := AnyPrefix(lib, rules, v, 4);
    return if !p then PathMismatch else NoInclude;
  }

  lemma Weaker(lib: Library, rules: seq<NormalizedRule>, v: seq<string>)
    requires |v| == 4
    ensures SomeMatchesFirst(lib, rules, v, 4) ==> SomeMatchesFirst(lib, rules, v, 3)
    ensures SomeMatchesFirst(lib, rules, v, 3) ==> SomeMatchesFirst(lib, rules, v, 2)
    ensures SomeMatchesFirst(lib, rules, v, 2) ==> SomeMatchesFirst(lib, rules, v, 1)
  {}

  method MatchingIds(lib: Library, rules: seq<NormalizedRule>, v: seq<string>) returns (ids: seq<string>)
    requires |v| == 4
    ensures forall id :: id in ids <==> exists r :: r in rules && r.id == id && Matches(lib, r, v)
    ensures ids == [] <==> !SomeMatchesFirst(lib, rules, v, 4)
  {
    ids := [];
    for k := 0 to |rules|
      invariant forall id :: id in ids <==> exists j :: 0 <= j < k && rules[j].id == id && Matches(lib, rules[j], v)
      invariant ids == [] <==> forall j :: 0 <= j < k ==> !Matches(lib, rules[j], v)
    {
      if Matches(lib, rules[k], v) { ids := ids + [rules[k].id]; }
    }
  }

  // ---- what evaluation means ----

  /** A target that scopes speak about: a web URL with a host. */
  ghost predicate IsTarget(lib: Library, raw: string, u: Url) {
    lib.parse(raw) == Some(u) && u.host != "" && (u.scheme == "http" || u.scheme == "https")
  }

  /** The rule's expressions match the URL's protocol, host, port and path, of these the
      first `n`. A port that is not written is that of the protocol, and an empty path is
      the root. */
  ghost predicate Agrees(lib: Library, r: NormalizedRule, u: Url, n: nat) {
    && (n >= 1 ==> lib.full(r.protocol, lib.lower(u.scheme)))
    && (n >= 2 ==> lib.full(r.host, lib.lower(u.host)))
    && (n >= 3 ==> (if u.port != "" then lib.full(r.port, u.port)
                    else if u.scheme == "https" then lib.full(r.port, "443") else lib.full(r.port, "80")))
    && (n >= 4 ==> (if u.path != "" then lib.full(r.file, u.path) else lib.full(r.file, "/")))
  }

  ghost predicate SomeAgrees(lib: Library, rules: seq<NormalizedRule>, u: Url, n: nat) {
    exists r :: r in rules && Agrees(lib, r, u, n)
  }

  lemma AgreesMatches(lib: Library, r: NormalizedRule, raw: string, u: Url, n: nat)
    requires IsTarget(lib, raw, u) && n <= 4
    ensures Values(lib, raw).Some? && (Agrees(lib, r, u, n) <==> MatchesFirst(lib, r, Values(lib, raw).value, n))
  {
    var v := Values(lib, raw).value;
    assert Pattern(r, 0) == r.protocol && v[0] == lib.lower(u.scheme);
    assert Pattern(r, 1) == r.host && v[1] == lib.lower(u.host);
    assert Pattern(r, 2) == r.port && v[2] == if u.port == "" then DefaultPort(u.scheme) else u.port;
    assert Pattern(r, 3) == r.file && v[3] == if u.path == "" then "/" else u.path;
    if Agrees(lib, r, u, n) {
      forall i | 0 <= i < n ensures lib.full(Pattern(r, i), v[i]) {}
    }
    if MatchesFirst(lib, r, v, n) {
      assert n >= 1 ==> lib.full(Pattern(r, 0), v[0]);
      assert n >= 2 ==> lib.full(Pattern(r, 1), v[1]);
      assert n >= 3 ==> lib.full(Pattern(r, 2), v[2]);
      assert n >= 4 ==> lib.full(Pattern(r, 3), v[3]);
    }
  }

  lemma SomeAgreesMatches(lib: Library, rules: seq<NormalizedRule>, raw: string, u: Url, n: nat)
    requires IsTarget(lib, raw, u) && n <= 4
    ensures Values(lib, raw).Some? && (SomeAgrees(lib, rules, u, n) <==> SomeMatchesFirst(lib, rules, Values(lib, raw).value, n))
  {
    assert Values(lib, raw).Some?;
    forall r { AgreesMatches(lib, r, raw, u, n); }
  }

  /** A scope allows exactly the targets that some include rule agrees with in all four
      respects and no exclude rule does. */
  lemma AllowsByTheRules(lib: Library, s: Scope, raw: string)
    ensures Allows(lib, s, raw) <==> exists u :: IsTarget(lib, raw, u) && SomeAgrees(lib, s.includes, u, 4) && !SomeAgrees(lib, s.excludes, u, 4)
  {
    if u :| IsTarget(lib, raw, u) {
      SomeAgreesMatches(lib, s.includes, raw, u, 4);
      SomeAgreesMatches(lib, s.excludes, raw, u, 4);
    } else {
      assert Values(lib, raw).Some? ==> IsTarget(lib, raw, lib.parse(raw).value);
    }
  }

  /** The reason that a target of the rules deserves. */
  ghost predicate Deserves(lib: Library, s: Scope, u: Url, reason: Reason) {
    match reason
    case MatchedExclusion => SomeAgrees(lib, s.excludes, u, 4)
    case Allowed => !SomeAgrees(lib, s.excludes, u, 4) && SomeAgrees(lib, s.includes, u, 4)
    case ProtocolMismatch => !SomeAgrees(lib, s.excludes, u, 4) && !SomeAgrees(lib, s.includes, u, 1)
    case HostMismatch => !SomeAgrees(lib, s.excludes, u, 4) && SomeAgrees(lib, s.includes, u, 1) && !SomeAgrees(lib, s.includes, u, 2)
    case PortMismatch => !SomeAgrees(lib, s.excludes, u, 4) && SomeAgrees(lib, s.includes, u, 2) && !SomeAgrees(lib, s.includes, u, 3)
    case PathMismatch => !SomeAgrees(lib, s.excludes, u, 4) && SomeAgrees(lib, s.includes, u, 3) && !SomeAgrees(lib, s.includes, u, 4)
    case _ => false
  }

  /** At most one of them. */
  lemma DesertIsUnique(lib: Library, s: Scope, u: Url, a: Reason, b: Reason)
    requires Deserves(lib, s, u, a) && Deserves(lib, s, u, b)
    ensures a == b
  {
    forall r, n: nat | Agrees(lib, r, u, n + 1) ensures Agrees(lib, r, u, n) {}
    forall n: nat | n < 4 && SomeAgrees(lib, s.includes, u, n + 1) ensures SomeAgrees(lib, s.includes, u, n) {
      var r :| r in s.includes && Agrees(lib, r, u, n + 1);
      assert Agrees(lib, r, u, n);
    }
    assert SomeAgrees(lib, s.includes, u, 3 + 1) ==> SomeAgrees(lib, s.includes, u, 3);
    assert SomeAgrees(lib, s.includes, u, 2 + 1) ==> SomeAgrees(lib, s.includes, u, 2);
    assert SomeAgrees(lib, s.includes, u, 1 + 1) ==> SomeAgrees(lib, s.includes, u, 1);
  }

  lemma EvaluationDeserved(lib: Library, s: Scope, raw: string, u: Url, e: Evaluation)
    requires IsTarget(lib, raw, u) && Values(lib, raw).Some?
    requires var v := Values(lib, raw).value;
             && (e.reason == Allowed <==> Allows(lib, s, raw))
             && (e.reason == MatchedExclusion <==> SomeMatchesFirst(lib, s.excludes, v, 4))
             && (e.reason == ProtocolMismatch ==> !SomeMatchesFirst(lib, s.includes, v, 1))
             && (e.reason == HostMismatch ==> SomeMatchesFirst(lib, s.includes, v, 1) && !SomeMatchesFirst(lib, s.includes, v, 2))
             && (e.reason == PortMismatch ==> SomeMatchesFirst(lib, s.includes, v, 2) && !SomeMatchesFirst(lib, s.includes, v, 3))
             && (e.reason == PathMismatch ==> SomeMatchesFirst(lib, s.includes, v, 3) && !SomeMatchesFirst(lib, s.includes, v, 4))
    requires e.reason != NoInclude && e.reason != UnsupportedTarget
    ensures Deserves(lib, s, u, e.reason)
  {
    SomeAgreesMatches(lib, s.excludes, raw, u, 4);
    SomeAgreesMatches(lib, s.includes, raw, u, 1);
    SomeAgreesMatches(lib, s.includes, raw, u, 2);
    SomeAgreesMatches(lib, s.includes, raw, u, 3);
    SomeAgreesMatches(lib, s.includes, raw, u, 4);
  }

  /** The verdict on a target, the rules behind it, and the reason it deserves. */
  method Evaluate(lib: Library, s: Scope, raw: string) returns (e: Evaluation)
    ensures e.target == raw && (e.allowed <==> Allows(lib, s, raw))
    ensures forall u :: IsTarget(lib, raw, u) ==> Deserves(lib, s, u, e.reason)
    ensures forall u, id :: IsTarget(lib, raw, u) ==>
      && (id in e.excludeIds <==> exists r :: r in s.excludes && r.id == id && Agrees(lib, r, u, 4))
      && (e.allowed ==> (id in e.includeIds <==> exists r :: r in s.includes && r.id == id && Agrees(lib, r, u, 4)))
    ensures e.allowed <==> e.reason == Allowed
    ensures e.reason == UnsupportedTarget <==> Values(lib, raw).None?
    ensures Values(lib, raw).Some? ==> var v := Values(lib, raw).value;
              && (e.reason == MatchedExclusion <==> SomeMatchesFirst(lib, s.excludes, v, 4))
              && (forall id :: id in e.excludeIds <==> exists r :: r in s.excludes && r.id == id && Matches(lib, r, v))
              && (e.allowed ==> forall id :: id in e.includeIds <==> exists r :: r in s.includes && r.id == id && Matches(lib, r, v))
              && (e.reason == ProtocolMismatch ==> !SomeMatchesFirst(lib, s.includes, v, 1))
              && (e.reason == HostMismatch ==> SomeMatchesFirst(lib, s.includes, v, 1) && !SomeMatchesFirst(lib, s.includes, v, 2))
              && (e.reason == PortMismatch ==> SomeMatchesFirst(lib, s.includes, v, 2) && !SomeMatchesFirst(lib, s.includes, v, 3))
              && (e.reason == PathMismatch ==> SomeMatchesFirst(lib, s.includes, v, 3) && !SomeMatchesFirst(lib, s.includes, v, 4))
    ensures !e.allowed ==> e.includeIds == []
    ensures e.reason != NoInclude
  {
    e := Evaluation(raw, false, UnsupportedTarget, [], []);
    var values := Values(lib, raw);
    if values.None? { return; }
    var v := values.value;
    ghost var u := lib.parse(raw).value;
    forall r { AgreesMatches(lib, r, raw, u, 4); }
    var excluded := MatchingIds(lib, s.excludes, v);
    if excluded != [] {
      e := e.(reason := MatchedExclusion, excludeIds := excluded);
    } else {
      var included := MatchingIds(lib, s.includes, v);
      if included != [] {
        e := e.(allowed := true, reason := Allowed, includeIds := included);
      } else {
        var reason := MismatchReason(lib, s.includes, v);
        e := e.(reason := reason);
      }
    }
    EvaluationDeserved(lib, s, raw, u, e);
  }

  /** What compiling makes of a written rule: its kind and its four expressions, trimmed,
      the host in lower case, and an empty one standing for anything. */
  ghost predicate IsWritten(lib: Library, r: Rule, kind: Kind, q: NormalizedRule) {
    && q.kind == kind
    && q.protocol == (if lib.trim(r.protocol) == "" then ".*" else lib.trim(r.protocol))
    && q.host == (if lib.lower(lib.trim(r.host)) == "" then ".*" else lib.lower(lib.trim(r.host)))
    && q.port == (if lib.trim(r.port) == "" then ".*" else lib.trim(r.port))
    && q.file == (if lib.trim(r.file) == "" then ".*" else lib.trim(r.file))
    && q.digest == lib.digest(kind, q.protocol, q.host, q.port, q.file)
    && (q.id == (if kind.Include? then "include-" else "exclude-") + q.digest[..if |q.digest| < 16 then |q.digest| else 16])
  }

  /** Compiled rules are exactly the enabled ones as they are written. */
  lemma CompiledRulesAreWritten(lib: Library, rules: seq<Rule>, kind: Kind, out: seq<NormalizedRule>)
    requires IsCompiled(lib, rules, kind, out)
    ensures forall q :: q in out <==> exists r :: r in rules && r.enabled && IsWritten(lib, r, kind, q)
  {
    assert "include" + "-" == "include-" && "exclude" + "-" == "exclude-";
    forall r, q | r in rules && r.enabled ensures IsWritten(lib, r, kind, q) <==> q == Normalize(lib, r, kind) {
      NormalizeWrites(lib, r, kind, q);
    }
    forall q ensures q in out <==> exists r :: r in rules && r.enabled && IsWritten(lib, r, kind, q) {
      assert q in out <==> q in Elements(out);
    }
  }

  lemma NormalizeWrites(lib: Library, r: Rule, kind: Kind, q: NormalizedRule)
    ensures IsWritten(lib, r, kind, q) <==> q == Normalize(lib, r, kind)
  {
    assert "include" + "-" == "include-" && "exclude" + "-" == "exclude-";
    var n := Normalize(lib, r, kind);
    assert n.digest[..|n.digest|] == n.digest;
  }

  // ---- narrowing ----

  function Digests(rules: seq<NormalizedRule>): (r: seq<string>)
    ensures |r| == |rules| && forall i :: 0 <= i < |r| ==> r[i] == rules[i].digest
  {
    seq(|rules|, i requires 0 <= i < |rules| => rules[i].digest)
  }

  /** A compiled rule carries the digest of its own content. */
  ghost predicate Digested(lib: Library, s: Scope) {
    && (forall r :: r in s.includes ==> r.kind == Include && r.digest == lib.digest(r.kind, r.protocol, r.host, r.port, r.file))
    && (forall r :: r in s.excludes ==> r.kind == Exclude && r.digest == lib.digest(r.kind, r.protocol, r.host, r.port, r.file))
  }

  ghost predicate InjectiveDigest(lib: Library) {
    forall k, p, h, o, f, k', p', h', o', f' ::
      lib.digest(k, p, h, o, f) == lib.digest(k', p', h', o', f') ==> k == k' && p == p' && h == h' && o == o' && f == f'
  }

  lemma CompiledDigested(lib: Library, includes: seq<Rule>, excludes: seq<Rule>, s: Scope)
    requires IsCompiled(lib, includes, Include, s.includes) && IsCompiled(lib, excludes, Exclude, s.excludes)
    ensures Digested(lib, s)
  {
    forall r | r in s.includes ensures r.kind == Include && r.digest == lib.digest(r.kind, r.protocol, r.host, r.port, r.file) {
      assert r in Enabled(lib, includes, Include);
    }
    forall r | r in s.excludes ensures r.kind == Exclude && r.digest == lib.digest(r.kind, r.protocol, r.host, r.port, r.file) {
      assert r in Enabled(lib, excludes, Exclude);
    }
  }

  lemma SameDigestSameMatch(lib: Library, a: NormalizedRule, b: NormalizedRule, v: seq<string>)
    requires InjectiveDigest(lib) && a.digest == b.digest && |v| == 4
    requires a.digest == lib.digest(a.kind, a.protocol, a.host, a.port, a.file)
    requires b.digest == lib.digest(b.kind, b.protocol, b.host, b.port, b.file)
    ensures Matches(lib, a, v) <==> Matches(lib, b, v)
  {}

  /** No new include digest and no dropped exclude digest: nothing new is allowed. */
  lemma NarrowingIsSafe(lib: Library, before: Scope, after: Scope, raw: string)
    requires InjectiveDigest(lib) && Digested(lib, before) && Digested(lib, after)
    requires forall d :: d in Digests(after.includes) ==> d in Digests(before.includes)
    requires forall d :: d in Digests(before.excludes) ==> d in Digests(after.excludes)
    requires Allows(lib, after, raw)
    ensures Allows(lib, before, raw)
  {
    var v := Values(lib, raw).value;
    var r :| r in after.includes && MatchesFirst(lib, r, v, 4);
    var q := Twin(after.includes, before.includes, r);
    SameDigestSameMatch(lib, r, q, v);
    assert q in before.includes && MatchesFirst(lib, q, v, 4);
    forall x | x in before.excludes ensures !MatchesFirst(lib, x, v, 4) {
      var y := Twin(before.excludes, after.excludes, x);
      SameDigestSameMatch(lib, x, y, v);
    }
  }

  lemma Twin(from: seq<NormalizedRule>, to: seq<NormalizedRule>, r: NormalizedRule) returns (q: NormalizedRule)
    requires r in from
    requires forall d :: d in Digests(from) ==> d in Digests(to)
    ensures q in to && q.digest == r.digest
  {
    var i :| 0 <= i < |from| && from[i] == r;
    assert Digests(from)[i] == r.digest;
    assert r.digest in Digests(from);
    var j :| 0 <= j < |to| && Digests(to)[j] == r.digest;
    q := to[j];
  }
}
