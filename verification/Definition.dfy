/** Workflow definitions and their validation. */
module Definition {
  import opened Order
  import opened Graph
  import opened Json
  import opened Wrappers

  datatype Step = Step(
    id: string,
    capability: string,
    provider: string,
    dependsOn: seq<string>,
    condition: string,
    input: Raw,
    bindings: map<string, string>,
    maxAttempts: int,
    approvalRequired: bool,
    rerunOnInputChange: bool)

  datatype Definition = Definition(id: string, name: string, version: string, steps: seq<Step>)

  datatype Manifest = Manifest(approvalRequired: bool, supportedProviders: seq<string>)

  /** The capability registry: manifests by name, and the input check each capability
      applies to a definition. */
  datatype Registry = Registry(capabilities: map<string, Manifest>, acceptsInput: (string, Raw) -> bool)

  datatype Error =
    | MissingNameOrVersion
    | MissingStepId
    | DuplicateStep
    | UnknownCapability
    | InvalidInput
    | UnsupportedCondition
    | UnknownDependency
    | UnsupportedBinding
    | UnknownBindingSource
    | UnknownConditionSource
    | CyclicDependency
    | SourceNotADependency

  /** The steps by id; a later step of the same id would win. */
  function ById(steps: seq<Step>): map<string, Step> {
    if steps == [] then map[] else ById(steps[..|steps| - 1])[steps[|steps| - 1].id := steps[|steps| - 1]]
  }

  function Edges(byId: map<string, Step>): Deps {
    map id | id in byId :: byId[id].dependsOn
  }

  function StepSources(s: Step): set<string> {
    Sources(s.condition, s.bindings)
  }

  ghost predicate UniqueIds(steps: seq<Step>) {
    forall i, j :: 0 <= i < j < |steps| ==> steps[i].id != steps[j].id
  }

  predicate WellFormedStep(s: Step, r: Registry) {
    && s.id != ""
    && s.capability in r.capabilities
    && s.input.Text?
    && r.acceptsInput(s.capability, s.input)
    && SupportedCondition(s.condition)
  }

  predicate ResolvedReferences(s: Step, byId: map<string, Step>) {
    && (forall d :: d in s.dependsOn ==> d in byId)
    && WellFormedBindings(s.bindings)
    && StepSources(s) <= byId.Keys
  }

  /** What validation is for: unique ids, resolved references, no cycle, and nothing
      read from a step that need not have finished. */
  ghost predicate Accepts(d: Definition, r: Registry) {
    && d.name != "" && d.version != ""
    && (forall s :: s in d.steps ==> WellFormedStep(s, r))
    && UniqueIds(d.steps)
    && (forall s :: s in d.steps ==> ResolvedReferences(s, ById(d.steps)))
    && Acyclic(Edges(ById(d.steps)))
    && (forall s, source :: s in d.steps && source in StepSources(s) ==> Reaches(Edges(ById(d.steps)), s.id, source))
  }

  lemma {:induction false} ByIdKeys(steps: seq<Step>)
    ensures forall id :: id in ById(steps) <==> exists i :: 0 <= i < |steps| && steps[i].id == id
    ensures forall id :: id in ById(steps) ==> ById(steps)[id] in steps && ById(steps)[id].id == id
    ensures UniqueIds(steps) ==> forall i :: 0 <= i < |steps| ==> steps[i].id in ById(steps) && ById(steps)[steps[i].id] == steps[i]
  {
    if steps != [] {
      var init, last := steps[..|steps| - 1], steps[|steps| - 1];
      ByIdKeys(init);
      assert steps == init + [last];
      forall id | exists i :: 0 <= i < |steps| && steps[i].id == id ensures id in ById(steps) {
        var i :| 0 <= i < |steps| && steps[i].id == id;
        if i < |init| { assert init[i].id == id; }
      }
    }
  }

  lemma ByIdNext(steps: seq<Step>, i: nat)
    requires i < |steps|
    ensures ById(steps[..i + 1]) == ById(steps[..i])[steps[i].id := steps[i]]
  {
    assert steps[..i + 1][..i] == steps[..i];
  }

  lemma NewIdIsUnique(steps: seq<Step>, i: nat)
    requires i < |steps| && UniqueIds(steps[..i])
    ensures steps[i].id !in ById(steps[..i]) <==> UniqueIds(steps[..i + 1])
  {
    ByIdKeys(steps[..i]);
    if steps[i].id in ById(steps[..i]) {
      var j :| 0 <= j < i && steps[..i][j].id == steps[i].id;
      assert steps[..i + 1][j].id == steps[..i + 1][i].id;
    } else {
      forall j | 0 <= j < i ensures steps[j].id != steps[i].id { assert steps[..i][j] == steps[j]; }
    }
  }

  lemma DuplicateStays(steps: seq<Step>, i: nat)
    requires i <= |steps| && !UniqueIds(steps[..i])
    ensures !UniqueIds(steps)
  {}

  method CheckStep(s: Step, r: Registry) returns (error: Option<Error>)
    requires s.id != ""
    ensures error.None? <==> WellFormedStep(s, r)
  {
    if s.capability !in r.capabilities {
      return Some(UnknownCapability);
    }
    if !s.input.Text? || !r.acceptsInput(s.capability, s.input) {
      return Some(InvalidInput);
    }
    if !SupportedCondition(s.condition) {
      return Some(UnsupportedCondition);
    }
    return None;
  }

  /** The first loop: `byID` fills up while ids are checked. */
  method IndexSteps(d: Definition, r: Registry) returns (error: Option<Error>, byId: map<string, Step>)
    ensures error.None? <==> (forall s :: s in d.steps ==> WellFormedStep(s, r)) && UniqueIds(d.steps)
    ensures error.None? ==> byId == ById(d.steps)
  {
    byId := map[];
    for i := 0 to |d.steps|
      invariant forall j :: 0 <= j < i ==> WellFormedStep(d.steps[j], r)
      invariant UniqueIds(d.steps[..i])
      invariant byId == ById(d.steps[..i])
    {
      var s := d.steps[i];
      assert s in d.steps;
      if s.id == "" {
        return Some(MissingStepId), byId;
      }
      NewIdIsUnique(d.steps, i);
      ByIdNext(d.steps, i);
      if s.id in byId {
        DuplicateStays(d.steps, i + 1);
        return Some(DuplicateStep), byId;
      }
      error := CheckStep(s, r);
      if error.Some? {
        return;
      }
      byId := byId[s.id := s];
    }
    assert d.steps[..|d.steps|] == d.steps;
    return None, byId;
  }

  lemma SourceOfBinding(s: Step, field: string)
    requires field in s.bindings
    ensures BindingSource(s.bindings[field]) in StepSources(s)
  {}

  /** The second loop's checks on one step; bindings come out of the map in any order. */
  method CheckReferences(s: Step, byId: map<string, Step>) returns (error: Option<Error>)
    ensures error.None? <==> ResolvedReferences(s, byId)
  {
    for i := 0 to |s.dependsOn|
      invariant forall j :: 0 <= j < i ==> s.dependsOn[j] in byId
    {
      if s.dependsOn[i] !in byId {
        return Some(UnknownDependency);
      }
    }
    var left := s.bindings.Keys;
    while left != {}
      invariant left <= s.bindings.Keys
      invariant forall f :: f in s.bindings && f !in left ==> WellFormedBinding(s.bindings[f]) && BindingSource(s.bindings[f]) in byId
      decreases left
    {
      var field :| field in left;
      left := left - {field};
      if !WellFormedBinding(s.bindings[field]) {
        return Some(UnsupportedBinding);
      }
      SourceOfBinding(s, field);
      if BindingSource(s.bindings[field]) !in byId {
        return Some(UnknownBindingSource);
      }
    }
    if s.condition != "" && ConditionSource(s.condition) !in byId {
      assert ConditionSource(s.condition) in StepSources(s);
      return Some(UnknownConditionSource);
    }
    return None;
  }

  /** The last loop's checks on one step. */
  method CheckSources(s: Step, g: Deps) returns (ok: bool)
    ensures ok <==> forall source :: source in StepSources(s) ==> Reaches(g, s.id, source)
  {
    var left := s.bindings.Keys;
    while left != {}
      invariant left <= s.bindings.Keys
      invariant forall f :: f in s.bindings && f !in left ==> Reaches(g, s.id, BindingSource(s.bindings[f]))
      decreases left
    {
      var field :| field in left;
      left := left - {field};
      SourceOfBinding(s, field);
      ok := TransitivelyDependsOn(g, s.id, BindingSource(s.bindings[field]));
      if !ok {
        return false;
      }
    }
    ok := true;
    if s.condition != "" {
      assert ConditionSource(s.condition) in StepSources(s);
      ok := TransitivelyDependsOn(g, s.id, ConditionSource(s.condition));
    }
  }

  method CheckAllReferences(steps: seq<Step>, byId: map<string, Step>) returns (error: Option<Error>)
    ensures error.None? <==> forall s :: s in steps ==> ResolvedReferences(s, byId)
  {
    for i := 0 to |steps|
      invariant forall j :: 0 <= j < i ==> ResolvedReferences(steps[j], byId)
    {
      error := CheckReferences(steps[i], byId);
      if error.Some? {
        assert steps[i] in steps;
        return;
      }
    }
    return None;
  }

  method CheckAllSources(steps: seq<Step>, g: Deps) returns (ok: bool)
    ensures ok <==> forall s, source :: s in steps && source in StepSources(s) ==> Reaches(g, s.id, source)
  {
    for i := 0 to |steps|
      invariant forall j, source :: 0 <= j < i && source in StepSources(steps[j]) ==> Reaches(g, steps[j].id, source)
    {
      ok := CheckSources(steps[i], g);
      if !ok {
        assert steps[i] in steps;
        return;
      }
    }
    return true;
  }

  /** Validation accepts exactly the definitions it is meant to accept. */
  method Validate(d: Definition, r: Registry) returns (error: Option<Error>)
    ensures error.None? <==> Accepts(d, r)
  {
    if d.name == "" || d.version == "" {
      return Some(MissingNameOrVersion);
    }
    var byId;
    error, byId := IndexSteps(d, r);
    if error.Some? {
      return;
    }
    error := CheckAllReferences(d.steps, byId);
    if error.Some? {
      return;
    }
    var ok := CheckAcyclic(Edges(byId));
    if !ok {
      return Some(CyclicDependency);
    }
    ok := CheckAllSources(d.steps, Edges(byId));
    error := if ok then None else Some(SourceNotADependency);
  }

  // ---- consequences ----

  lemma AcceptedClosed(d: Definition, r: Registry)
    requires Accepts(d, r)
    ensures Closed(Edges(ById(d.steps)))
  {
    ByIdKeys(d.steps);
  }

  /** Permuting the steps of a definition changes nothing the engine sees. */
  lemma ByIdPermuted(a: seq<Step>, b: seq<Step>)
    requires UniqueIds(a) && multiset(a) == multiset(b) && UniqueIds(b)
    ensures ById(a) == ById(b)
  {
    ByIdKeys(a);
    ByIdKeys(b);
    SameElements(a, b);
    forall id | id in ById(a) ensures id in ById(b) && ById(b)[id] == ById(a)[id] {
      var i :| 0 <= i < |b| && b[i] == ById(a)[id];
    }
    forall id | id in ById(b) ensures id in ById(a) {
      var i :| 0 <= i < |a| && a[i] == ById(b)[id];
    }
  }

  /** The steps in execution order. */
  ghost function OrderedSteps(d: Definition, r: Registry): seq<Step>
    requires Accepts(d, r)
  {
    AcceptedClosed(d, r);
    TopologicalOrders(Edges(ById(d.steps)));
    var byId, order := ById(d.steps), Topological(Edges(ById(d.steps)));
    assert forall i :: 0 <= i < |order| ==> order[i] in Elements(order);
    seq(|order|, i requires 0 <= i < |order| => byId[order[i]])
  }

  /** The same steps in another order, each with its dependency list in another order. */
  ghost predicate Rearranged(a: seq<Step>, b: seq<Step>, between: seq<Step>) {
    && multiset(a) == multiset(between) && |b| == |between|
    && forall i :: 0 <= i < |b| ==>
         b[i] == between[i].(dependsOn := b[i].dependsOn) && multiset(b[i].dependsOn) == multiset(between[i].dependsOn)
  }

  lemma RearrangedById(a: seq<Step>, b: seq<Step>, between: seq<Step>)
    requires UniqueIds(a) && UniqueIds(b) && Rearranged(a, b, between)
    ensures ById(a).Keys == ById(b).Keys
    ensures forall id :: id in ById(a) ==> multiset(ById(a)[id].dependsOn) == multiset(ById(b)[id].dependsOn)
  {
    assert forall i :: 0 <= i < |b| ==> b[i].id == between[i].id;
    assert UniqueIds(between);
    ByIdPermuted(a, between);
    RelistedById(between, b);
  }

  lemma RelistedById(a: seq<Step>, b: seq<Step>)
    requires UniqueIds(a) && UniqueIds(b) && |a| == |b|
    requires forall i :: 0 <= i < |b| ==> b[i].id == a[i].id && multiset(b[i].dependsOn) == multiset(a[i].dependsOn)
    ensures ById(a).Keys == ById(b).Keys
    ensures forall id :: id in ById(a) ==> multiset(ById(a)[id].dependsOn) == multiset(ById(b)[id].dependsOn)
  {
    RelistedIds(a, b);
    RelistedIds(b, a);
    forall id | id in ById(a) ensures multiset(ById(a)[id].dependsOn) == multiset(ById(b)[id].dependsOn) {
      RelistedAt(a, b, id);
    }
  }

  lemma RelistedIds(a: seq<Step>, b: seq<Step>)
    requires |a| == |b| && forall i :: 0 <= i < |b| ==> b[i].id == a[i].id
    ensures ById(a).Keys <= ById(b).Keys
  {
    ByIdKeys(a);
    ByIdKeys(b);
    forall id | id in ById(a) ensures id in ById(b) {
      var i :| 0 <= i < |a| && a[i].id == id;
      assert b[i].id == id;
    }
  }

  lemma RelistedAt(a: seq<Step>, b: seq<Step>, id: string)
    requires UniqueIds(a) && UniqueIds(b) && |a| == |b| && id in ById(a) && id in ById(b)
    requires forall i :: 0 <= i < |b| ==> b[i].id == a[i].id && multiset(b[i].dependsOn) == multiset(a[i].dependsOn)
    ensures multiset(ById(a)[id].dependsOn) == multiset(ById(b)[id].dependsOn)
  {
    ByIdKeys(a);
    ByIdKeys(b);
    var i :| 0 <= i < |a| && a[i].id == id;
    assert ById(a)[a[i].id] == a[i] && ById(b)[b[i].id] == b[i];
  }

  /** `topological` on a definition: the order does not depend on the order of the
      steps nor of their dependency lists. */
  lemma ExecutionOrderCanonical(a: Definition, b: Definition, between: seq<Step>, r: Registry)
    requires Accepts(a, r) && Accepts(b, r) && Rearranged(a.steps, b.steps, between)
    ensures Topological(Edges(ById(a.steps))) == Topological(Edges(ById(b.steps)))
  {
    RearrangedById(a.steps, b.steps, between);
    TopologicalCanonical(Edges(ById(a.steps)), Edges(ById(b.steps)));
  }
}
