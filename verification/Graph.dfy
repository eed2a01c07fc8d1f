/** The dependency graph of a workflow: reachability, cycle detection by depth-first
    search, and the deterministic topological order. */
module Graph {
  import opened Order

  /** `DependsOn` of every step, by step id. */
  type Deps = map<string, seq<string>>

  /** Looking up an unknown id yields a step without dependencies. */
  function DependsOn(g: Deps, id: string): seq<string> {
    if id in g then g[id] else []
  }

  /** Every dependency names a step. */
  ghost predicate Closed(g: Deps) {
    forall id, d :: id in g && d in g[id] ==> d in g
  }

  ghost predicate IsPath(g: Deps, p: seq<string>) {
    |p| >= 2 && forall i :: 0 <= i < |p| - 1 ==> p[i + 1] in DependsOn(g, p[i])
  }

  /** The transitive closure of the dependency relation. */
  ghost predicate Reaches(g: Deps, a: string, b: string) {
    exists p :: IsPath(g, p) && p[0] == a && p[|p| - 1] == b
  }

  ghost predicate Acyclic(g: Deps) {
    forall x :: !Reaches(g, x, x)
  }

  // ---- reachability ----

  lemma ReachesEdge(g: Deps, a: string, b: string)
    requires b in DependsOn(g, a)
    ensures Reaches(g, a, b)
  {
    assert IsPath(g, [a, b]);
  }

  lemma ReachesTransitive(g: Deps, a: string, b: string, c: string)
    requires Reaches(g, a, b) && Reaches(g, b, c)
    ensures Reaches(g, a, c)
  {
    var p :| IsPath(g, p) && p[0] == a && p[|p| - 1] == b;
    var q :| IsPath(g, q) && q[0] == b && q[|q| - 1] == c;
    var r := p + q[1..];
    forall i | 0 <= i < |r| - 1 ensures r[i + 1] in DependsOn(g, r[i]) {
      if i >= |p| - 1 {
        assert r[i] == q[i - |p| + 1] && r[i + 1] == q[i - |p| + 2];
      }
    }
    assert IsPath(g, r);
  }

  lemma ReachesIn(g: Deps, a: string, b: string)
    requires Reaches(g, a, b)
    ensures a in g
    ensures Closed(g) ==> b in g
  {
    var p :| IsPath(g, p) && p[0] == a && p[|p| - 1] == b;
    assert p[1] in DependsOn(g, p[0]);
    assert p[|p| - 1] in DependsOn(g, p[|p| - 2]);
  }

  // ---- transitivelyDependsOn ----

  /** Nothing newly seen leads to `source`, and all of it has been explored. */
  ghost predicate Explored(g: Deps, source: string, before: set<string>, after: set<string>) {
    && (forall x :: x in after && x !in before ==> source !in DependsOn(g, x))
    && (forall x, d :: x in after && x !in before && d in DependsOn(g, x) ==> d in after)
  }

  lemma ExploredTogether(g: Deps, source: string, a: set<string>, b: set<string>, c: set<string>)
    requires Explored(g, source, a, b) && Explored(g, source, b, c) && b <= c
    ensures Explored(g, source, a, c)
  {}

  lemma ExploredNode(g: Deps, source: string, seen: set<string>, id: string, after: set<string>)
    requires Explored(g, source, seen + {id}, after)
    requires forall j :: 0 <= j < |DependsOn(g, id)| ==> DependsOn(g, id)[j] != source && DependsOn(g, id)[j] in after
    ensures Explored(g, source, seen, after)
  {}

  method Contains(g: Deps, source: string, id: string, seen: set<string>) returns (found: bool, seen': set<string>)
    ensures seen <= seen'
    ensures found ==> Reaches(g, id, source)
    ensures !found ==> id in seen' && Explored(g, source, seen, seen')
    decreases g.Keys - seen
  {
    if id in seen {
      return false, seen;
    }
    seen' := seen + {id};
    var deps := DependsOn(g, id);
    for i := 0 to |deps|
      invariant seen <= seen' && id in seen'
      invariant Explored(g, source, seen + {id}, seen')
      invariant forall j :: 0 <= j < i ==> deps[j] != source && deps[j] in seen'
    {
      ReachesEdge(g, id, deps[i]);
      if deps[i] == source {
        return true, seen';
      }
      assert id in g.Keys - seen && id !in g.Keys - seen';
      ghost var before := seen';
      found, seen' := Contains(g, source, deps[i], seen');
      if found {
        ReachesTransitive(g, id, deps[i], source);
        return;
      }
      ExploredTogether(g, source, seen + {id}, before, seen');
    }
    ExploredNode(g, source, seen, id, seen');
    return false, seen';
  }

  lemma {:induction false} ExploredBlocks(g: Deps, source: string, after: set<string>, p: seq<string>)
    requires Explored(g, source, {}, after)
    requires IsPath(g, p) && p[0] in after
    ensures p[|p| - 1] != source
  {
    var empty: set<string> := {};
    assert p[0] !in empty && p[1] in DependsOn(g, p[0]);
    if |p| > 2 {
      assert IsPath(g, p[1..]);
      ExploredBlocks(g, source, after, p[1..]);
    }
  }

  /** The search with its shared `seen` map decides the transitive closure. */
  method TransitivelyDependsOn(g: Deps, stepId: string, sourceId: string) returns (found: bool)
    ensures found <==> Reaches(g, stepId, sourceId)
  {
    var seen;
    found, seen := Contains(g, sourceId, stepId, {});
    if !found {
      forall p | IsPath(g, p) && p[0] == stepId ensures p[|p| - 1] != sourceId {
        ExploredBlocks(g, sourceId, seen, p);
      }
    }
  }

  // ---- cycle detection ----

  /** Each id once, and after all its dependencies. */
  ghost predicate Ordered(g: Deps, s: seq<string>) {
    && NoDuplicates(s)
    && forall i, d :: 0 <= i < |s| && d in DependsOn(g, s[i]) ==> d in s[..i]
  }

  lemma OrderedAppend(g: Deps, order: seq<string>, id: string)
    requires Ordered(g, order) && id !in order
    requires forall d :: d in DependsOn(g, id) ==> d in order
    ensures Ordered(g, order + [id])
  {
    var s := order + [id];
    forall i, d | 0 <= i < |s| && d in DependsOn(g, s[i]) ensures d in s[..i] {
      if i < |order| { assert s[..i] == order[..i]; } else { assert s[..i] == order; }
    }
  }

  ghost predicate IsStack(g: Deps, stack: seq<string>) {
    forall i :: 0 <= i < |stack| - 1 ==> stack[i + 1] in DependsOn(g, stack[i])
  }

  lemma StackCycle(g: Deps, stack: seq<string>, id: string)
    requires IsStack(g, stack) && id in stack && id in DependsOn(g, stack[|stack| - 1])
    ensures Reaches(g, id, id)
  {
    var i :| 0 <= i < |stack| && stack[i] == id;
    assert IsPath(g, stack[i..] + [id]);
  }

  /** `visit`: `order` records the ids in the order in which they became visited and
      `stack` the ids being visited, outermost first. */
  method Visit(g: Deps, id: string, visiting: set<string>, visited: set<string>, ghost stack: seq<string>, ghost order: seq<string>)
    returns (ok: bool, visited': set<string>, ghost order': seq<string>)
    requires visiting == Elements(stack) && IsStack(g, stack)
    requires stack != [] ==> id in DependsOn(g, stack[|stack| - 1])
    requires visited == Elements(order) && Ordered(g, order)
    ensures visited' == Elements(order') && Ordered(g, order')
    ensures visited <= visited'
    ensures ok ==> id in visited'
    ensures !ok ==> exists x :: Reaches(g, x, x)
    decreases g.Keys - visiting
  {
    visited', order' := visited, order;
    if id in visiting {
      StackCycle(g, stack, id);
      return false, visited', order';
    }
    if id in visited {
      return true, visited', order';
    }
    var deps := DependsOn(g, id);
    for i := 0 to |deps|
      invariant visited' == Elements(order') && Ordered(g, order')
      invariant visited <= visited'
      invariant forall j :: 0 <= j < i ==> deps[j] in visited'
    {
      assert id in g.Keys - visiting;
      ok, visited', order' := Visit(g, deps[i], visiting + {id}, visited', stack + [id], order');
      if !ok {
        return;
      }
    }
    if id !in order' {
      OrderedAppend(g, order', id);
      order' := order' + [id];
    }
    visited' := visited' + {id};
    ok := true;
  }

  lemma {:induction false} OrderedPathsDescend(g: Deps, order: seq<string>, p: seq<string>, i: nat)
    requires Ordered(g, order) && IsPath(g, p)
    requires i < |order| && p[0] == order[i]
    ensures p[|p| - 1] in order[..i]
  {
    assert p[1] in DependsOn(g, order[i]);
    var k :| 0 <= k < |order[..i]| && order[..i][k] == p[1];
    if |p| > 2 {
      assert IsPath(g, p[1..]);
      OrderedPathsDescend(g, order, p[1..], k);
    }
  }

  lemma OrderedAcyclic(g: Deps, order: seq<string>)
    requires Ordered(g, order) && g.Keys <= Elements(order)
    ensures Acyclic(g)
  {
    forall x ensures !Reaches(g, x, x) {
      forall p | IsPath(g, p) && p[0] == x ensures p[|p| - 1] != x {
        assert p[1] in DependsOn(g, x);
        var i :| 0 <= i < |order| && order[i] == x;
        OrderedPathsDescend(g, order, p, i);
      }
    }
  }

  /** The graph is visited from every id, in whatever order the map yields the ids. */
  method CheckAcyclic(g: Deps) returns (ok: bool)
    ensures ok <==> Acyclic(g)
  {
    var remaining, visited := g.Keys, {};
    ghost var order: seq<string> := [];
    while remaining != {}
      invariant visited == Elements(order) && Ordered(g, order)
      invariant g.Keys <= remaining + visited
      decreases remaining
    {
      var id :| id in remaining;
      ok, visited, order := Visit(g, id, {}, visited, [], order);
      if !ok {
        return false;
      }
      remaining := remaining - {id};
    }
    OrderedAcyclic(g, order);
    return true;
  }

  // ---- topological order ----

  /** `ids` and everything they depend on. */
  ghost function Support(g: Deps, ids: seq<string>): set<string> {
    Elements(ids) + (set x, d | x in g && d in g[x] && (exists i :: i in ids && Reaches(g, i, d)) :: d)
  }

  lemma SupportHas(g: Deps, ids: seq<string>, x: string)
    ensures x in Support(g, ids) <==> x in ids || exists i :: i in ids && Reaches(g, i, x)
  {
    if i :| i in ids && Reaches(g, i, x) {
      var p :| IsPath(g, p) && p[0] == i && p[|p| - 1] == x;
      assert p[|p| - 1] in DependsOn(g, p[|p| - 2]);
    }
  }

  lemma SupportSmaller(g: Deps, id: string, ids: seq<string>)
    requires Acyclic(g)
    requires forall d :: d in ids ==> d in DependsOn(g, id)
    ensures Support(g, ids) < Support(g, [id])
    ensures id !in Support(g, ids)
  {
    SupportHas(g, ids, id);
    SupportHas(g, [id], id);
    forall d | d in ids ensures Reaches(g, id, d) { ReachesEdge(g, id, d); }
    forall x | x in Support(g, ids) ensures x in Support(g, [id]) && x != id {
      SupportHas(g, ids, x);
      SupportHas(g, [id], x);
      if x !in ids {
        var d :| d in ids && Reaches(g, d, x);
        ReachesTransitive(g, id, d, x);
      }
      assert id in [id] && Reaches(g, id, x);
    }
  }

  lemma SupportMonotone(g: Deps, a: seq<string>, b: seq<string>)
    requires Elements(a) <= Elements(b)
    ensures Support(g, a) <= Support(g, b)
  {
    forall x | x in Support(g, a) ensures x in Support(g, b) {
      SupportHas(g, a, x);
      SupportHas(g, b, x);
      if x in a {
        assert x in Elements(a);
      } else {
        var i :| i in a && Reaches(g, i, x);
        assert i in Elements(a);
      }
    }
  }

  lemma SortedSame(ids: seq<string>)
    ensures Elements(SortStrings(ids)) == Elements(ids)
  {
    SameElements(ids, SortStrings(ids));
  }

  /** `add`: append the dependencies in sorted order, then the id itself. */
  function Add(g: Deps, id: string, out: seq<string>): seq<string>
    requires Acyclic(g)
    decreases Support(g, [id]), 0
  {
    if id in out then out else
      SortedSame(DependsOn(g, id));
      assert forall d :: d in SortStrings(DependsOn(g, id)) <==> d in Elements(SortStrings(DependsOn(g, id)));
      SupportSmaller(g, id, SortStrings(DependsOn(g, id)));
      AddEach(g, SortStrings(DependsOn(g, id)), out) + [id]
  }

  function AddEach(g: Deps, ids: seq<string>, out: seq<string>): seq<string>
    requires Acyclic(g)
    decreases Support(g, ids), |ids| + 1
  {
    if ids == [] then out else
      SupportMonotone(g, [ids[0]], ids);
      SupportMonotone(g, ids[1..], ids);
      AddEach(g, ids[1..], Add(g, ids[0], out))
  }

  /** The elements of a finite set in ascending order. */
  ghost function Ascending(s: set<string>): (r: seq<string>)
    ensures multiset(r) == multiset(s)
  {
    if s == {} then [] else
      var x :| x in s;
      assert multiset(s) == multiset{x} + multiset(s - {x});
      Insert(StrLess, x, Ascending(s - {x}))
  }

  ghost function Topological(g: Deps): seq<string>
    requires Acyclic(g)
  {
    AddEach(g, SortStrings(Ascending(g.Keys)), [])
  }

  lemma SortedDependencies(g: Deps, id: string)
    requires Acyclic(g)
    ensures forall d :: d in SortStrings(DependsOn(g, id)) <==> d in DependsOn(g, id)
    ensures Support(g, SortStrings(DependsOn(g, id))) < Support(g, [id])
    ensures id !in Support(g, SortStrings(DependsOn(g, id)))
  {
    SameElements(DependsOn(g, id), SortStrings(DependsOn(g, id)));
    SupportSmaller(g, id, SortStrings(DependsOn(g, id)));
  }

  lemma {:induction false} AddOrders(g: Deps, id: string, out: seq<string>)
    requires Acyclic(g) && Ordered(g, out)
    ensures Ordered(g, Add(g, id, out)) && out <= Add(g, id, out)
    ensures id in Add(g, id, out)
    ensures forall x :: x in Add(g, id, out) ==> x in out || x in Support(g, [id])
    decreases Support(g, [id]), 0
  {
    if id !in out {
      var deps := SortStrings(DependsOn(g, id));
      SortedDependencies(g, id);
      AddEachOrders(g, deps, out);
      OrderedAppend(g, AddEach(g, deps, out), id);
      SupportHas(g, [id], id);
    }
  }

  lemma {:induction false} AddEachOrders(g: Deps, ids: seq<string>, out: seq<string>)
    requires Acyclic(g) && Ordered(g, out)
    ensures Ordered(g, AddEach(g, ids, out)) && out <= AddEach(g, ids, out)
    ensures forall d :: d in ids ==> d in AddEach(g, ids, out)
    ensures forall x :: x in AddEach(g, ids, out) ==> x in out || x in Support(g, ids)
    decreases Support(g, ids), |ids| + 1
  {
    if ids != [] {
      SupportMonotone(g, [ids[0]], ids);
      SupportMonotone(g, ids[1..], ids);
      AddOrders(g, ids[0], out);
      AddEachOrders(g, ids[1..], Add(g, ids[0], out));
    }
  }

  /** The order holds every step once, each after everything it depends on. */
  lemma TopologicalOrders(g: Deps)
    requires Acyclic(g) && Closed(g)
    ensures Ordered(g, Topological(g))
    ensures Elements(Topological(g)) == g.Keys
  {
    var ids := SortStrings(Ascending(g.Keys));
    forall x ensures x in ids <==> x in g.Keys {
      assert x in ids <==> x in multiset(ids);
    }
    AddEachOrders(g, ids, []);
    forall x | x in Support(g, ids) ensures x in g.Keys {
      SupportHas(g, ids, x);
      if x !in ids {
        var i :| i in ids && Reaches(g, i, x);
        ReachesIn(g, i, x);
      }
    }
  }

  /** The same steps with every `DependsOn` list permuted. */
  ghost predicate SameGraph(g: Deps, h: Deps) {
    g.Keys == h.Keys && forall id :: id in g ==> multiset(g[id]) == multiset(h[id])
  }

  lemma SameGraphEdges(g: Deps, h: Deps)
    requires SameGraph(g, h)
    ensures forall id, d :: d in DependsOn(g, id) <==> d in DependsOn(h, id)
    ensures forall p :: IsPath(g, p) <==> IsPath(h, p)
    ensures Acyclic(g) <==> Acyclic(h)
  {
    forall id, d ensures d in DependsOn(g, id) <==> d in DependsOn(h, id) {
      if id in g { SameElements(g[id], h[id]); }
    }
    forall a, b ensures Reaches(g, a, b) <==> Reaches(h, a, b) {
      assert forall p :: IsPath(g, p) <==> IsPath(h, p);
    }
  }

  lemma {:induction false} AddCanonical(g: Deps, h: Deps, id: string, out: seq<string>)
    requires Acyclic(g) && Acyclic(h) && SameGraph(g, h)
    ensures Add(g, id, out) == Add(h, id, out)
    decreases Support(g, [id]), 0
  {
    if id !in out {
      SortedDependencies(g, id);
      SortStringsOrderInsensitive(DependsOn(g, id), DependsOn(h, id));
      AddEachCanonical(g, h, SortStrings(DependsOn(g, id)), out);
    }
  }

  lemma {:induction false} AddEachCanonical(g: Deps, h: Deps, ids: seq<string>, out: seq<string>)
    requires Acyclic(g) && Acyclic(h) && SameGraph(g, h)
    ensures AddEach(g, ids, out) == AddEach(h, ids, out)
    decreases Support(g, ids), |ids| + 1
  {
    if ids != [] {
      SupportMonotone(g, [ids[0]], ids);
      SupportMonotone(g, ids[1..], ids);
      AddCanonical(g, h, ids[0], out);
      AddEachCanonical(g, h, ids[1..], Add(g, ids[0], out));
    }
  }

  /** The order does not depend on how the dependencies are listed. */
  lemma TopologicalCanonical(g: Deps, h: Deps)
    requires Acyclic(g) && SameGraph(g, h)
    ensures Acyclic(h) && Topological(g) == Topological(h)
  {
    SameGraphEdges(g, h);
    AddEachCanonical(g, h, SortStrings(Ascending(g.Keys)), []);
  }

  method AddNode(g: Deps, id: string, seen: set<string>, out: seq<string>) returns (seen': set<string>, out': seq<string>)
    requires Acyclic(g) && seen == Elements(out)
    ensures out' == Add(g, id, out) && seen' == Elements(out')
    decreases Support(g, [id])
  {
    seen', out' := seen, out;
    if id in seen {
      return;
    }
    var deps := SortStrings(DependsOn(g, id));
    SortedDependencies(g, id);
    for i := 0 to |deps|
      invariant seen' == Elements(out')
      invariant AddEach(g, deps, out) == AddEach(g, deps[i..], out')
    {
      SupportMonotone(g, [deps[i]], deps);
      assert deps[i..][1..] == deps[i + 1..];
      seen', out' := AddNode(g, deps[i], seen', out');
    }
    seen', out' := seen' + {id}, out' + [id];
  }

  lemma MultisetOfLarger(s: set<string>, x: string)
    requires x !in s
    ensures multiset(s + {x}) == multiset(s) + multiset{x}
  {}

  method SortedIds(g: Deps) returns (ids: seq<string>)
    ensures ids == SortStrings(Ascending(g.Keys))
  {
    ids := [];
    var remaining := g.Keys;
    while remaining != {}
      invariant remaining <= g.Keys
      invariant multiset(ids) == multiset(g.Keys - remaining)
      decreases remaining
    {
      var id :| id in remaining;
      MultisetOfLarger(g.Keys - remaining, id);
      assert g.Keys - (remaining - {id}) == g.Keys - remaining + {id};
      ids, remaining := ids + [id], remaining - {id};
    }
    assert g.Keys - remaining == g.Keys;
    SortStringsOrderInsensitive(ids, Ascending(g.Keys));
    ids := SortStrings(ids);
  }

  /** `topological`: the ids come out of the map in any order and are sorted first. */
  method TopologicalSort(g: Deps) returns (out: seq<string>)
    requires Acyclic(g)
    ensures out == Topological(g)
  {
    var ids := SortedIds(g);
    var seen: set<string>;
    seen, out := {}, [];
    for i := 0 to |ids|
      invariant seen == Elements(out)
      invariant AddEach(g, ids, []) == AddEach(g, ids[i..], out)
    {
      assert ids[i..][1..] == ids[i + 1..];
      seen, out := AddNode(g, ids[i], seen, out);
    }
  }
}
