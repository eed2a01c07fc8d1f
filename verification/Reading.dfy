/** What the texts of bindings and conditions mean, told without the functions that
    evaluate them. */
module Reading {
  import opened Strings
  import opened Json

  // ---- dotted texts ----

  predicate Lacks(s: string, c: char) {
    c !in s
  }

  /** `strings.Join` with dots. */
  function Dotted(parts: seq<string>): string
    requires parts != []
  {
    if |parts| == 1 then parts[0] else parts[0] + "." + Dotted(parts[1..])
  }

  lemma {:induction false} SplitWhole(p: string)
    requires Lacks(p, '.')
    ensures Split(p, '.') == [p]
  {
    if p != "" {
      SplitWhole(p[1..]);
      assert [p[0]] + p[1..] == p;
    }
  }

  lemma {:induction false} SplitFirst(p: string, rest: string)
    requires Lacks(p, '.')
    ensures Split(p + "." + rest, '.') == [p] + Split(rest, '.')
  {
    if p == "" {
      assert (p + "." + rest)[1..] == rest;
    } else {
      SplitFirst(p[1..], rest);
      assert (p + "." + rest)[1..] == p[1..] + "." + rest;
      assert [p[0]] + p[1..] == p;
    }
  }

  lemma {:induction false} SplitDotted(parts: seq<string>)
    requires parts != [] && forall p :: p in parts ==> Lacks(p, '.')
    ensures Split(Dotted(parts), '.') == parts
  {
    if |parts| == 1 {
      SplitWhole(parts[0]);
    } else {
      SplitDotted(parts[1..]);
      SplitFirst(parts[0], Dotted(parts[1..]));
      assert [parts[0]] + parts[1..] == parts;
    }
  }

  lemma {:induction false} CutAtColon(kind: string, rest: string)
    requires Lacks(kind, ':')
    ensures Before(kind + ":" + rest, ':') == kind && After(kind + ":" + rest, ':') == rest
  {
    var text := kind + ":" + rest;
    if kind == "" {
      assert text[1..] == rest;
    } else {
      CutAtColon(kind[1..], rest);
      assert text[1..] == kind[1..] + ":" + rest;
      assert [kind[0]] + kind[1..] == kind;
    }
  }

  // ---- fields of objects ----

  /** `vs` leads from the first value through the named fields. */
  ghost predicate IsDescent(vs: seq<Json>, parts: seq<string>) {
    && |vs| == |parts| + 1
    && forall k :: 0 <= k < |parts| ==> vs[k].Obj? && parts[k] in vs[k].fields && vs[k].fields[parts[k]] == vs[k + 1]
  }

  /** `v` is found in `value`, field by field. */
  ghost predicate Descends(value: Json, parts: seq<string>, v: Json) {
    exists vs :: IsDescent(vs, parts) && vs[0] == value && vs[|parts|] == v
  }

  lemma {:induction false} FieldPathDescends(value: Json, parts: seq<string>, v: Json)
    ensures FieldPath(value, parts) == Found(v) <==> Descends(value, parts, v)
  {
    if parts == [] {
      if value == v { assert IsDescent([v], parts); }
    } else {
      if value.Obj? && parts[0] in value.fields {
        var next := value.fields[parts[0]];
        FieldPathDescends(next, parts[1..], v);
        if Descends(next, parts[1..], v) {
          var vs :| IsDescent(vs, parts[1..]) && vs[0] == next && vs[|parts[1..]|] == v;
          DescentCons(value, vs, parts);
        }
      }
      if Descends(value, parts, v) {
        var vs :| IsDescent(vs, parts) && vs[0] == value && vs[|parts|] == v;
        assert IsDescent(vs[1..], parts[1..]);
        assert vs[1..][0] == value.fields[parts[0]] && vs[1..][|parts| - 1] == v;
      }
    }
  }

  lemma DescentCons(value: Json, vs: seq<Json>, parts: seq<string>)
    requires parts != [] && value.Obj? && parts[0] in value.fields
    requires IsDescent(vs, parts[1..]) && vs[0] == value.fields[parts[0]]
    ensures Descends(value, parts, vs[|parts| - 1])
  {
    var all := [value] + vs;
    forall k | 0 <= k < |parts| ensures all[k].Obj? && parts[k] in all[k].fields && all[k].fields[parts[k]] == all[k + 1] {
      if k > 0 { assert parts[1..][k - 1] == parts[k]; }
    }
    assert IsDescent(all, parts);
  }

  /** No value before the last one is an array, as far as the path can be followed. */
  ghost predicate NoArrayOn(value: Json, parts: seq<string>) {
    forall k, u :: 0 <= k < |parts| && Descends(value, parts[..k], u) ==> !u.Arr?
  }

  lemma {:induction false} FieldPathLast(value: Json, parts: seq<string>)
    requires parts != []
    ensures FieldPath(value, parts) == match FieldPath(value, parts[..|parts| - 1])
                                       case Found(u) => (if u.Obj? && parts[|parts| - 1] in u.fields then Found(u.fields[parts[|parts| - 1]]) else NotFound)
                                       case NotFound => NotFound
  {
    if |parts| == 1 {
      assert parts[..0] == [] && parts[1..] == [];
    } else if value.Obj? && parts[0] in value.fields {
      FieldPathLast(value.fields[parts[0]], parts[1..]);
      assert parts[1..][..|parts| - 2] == parts[..|parts| - 1][1..];
    }
  }

  lemma {:induction false} PlainPath(decode: Decoder, value: Json, parts: seq<string>)
    requires NoArrayOn(value, parts) && forall p :: p in parts ==> !HasSuffix(p, "[]")
    ensures NavigateAll(decode, value, parts) == FieldPath(value, parts)
  {
    if parts != [] {
      var n := |parts| - 1;
      forall k, u | 0 <= k < n && Descends(value, parts[..n][..k], u) ensures !u.Arr? {
        assert parts[..n][..k] == parts[..k];
      }
      PlainPath(decode, value, parts[..n]);
      FieldPathLast(value, parts);
      var init := FieldPath(value, parts[..n]);
      if init.Found? { FieldPathDescends(value, parts[..n], init.value); }
    }
  }

  /** Outside arrays a path descends through the fields it names, and is broken exactly if
      one of them does not exist. */
  lemma PlainPathsDescend(decode: Decoder, value: Json, parts: seq<string>, v: Json)
    requires NoArrayOn(value, parts) && forall p :: p in parts ==> !HasSuffix(p, "[]")
    ensures NavigateAll(decode, value, parts) == Found(v) <==> Descends(value, parts, v)
  {
    PlainPath(decode, value, parts);
    FieldPathDescends(value, parts, v);
  }

  // ---- items of arrays ----

  /** An item has a field as an object, or as a string that holds an object. */
  ghost predicate ItemHas(decode: Decoder, item: Json, part: string, v: Json) {
    || (item.Obj? && part in item.fields && item.fields[part] == v)
    || (item.Str? && exists fields :: decode(item.s) == Text(Obj(fields)) && part in fields && fields[part] == v)
  }

  lemma ItemFields(decode: Decoder, item: Json, parts: seq<string>, part: string, v: Json)
    ensures ItemPath(decode, item, parts + [part]) == Found(v) <==>
      exists u :: ItemPath(decode, item, parts) == Found(u) && ItemHas(decode, u, part, v)
    ensures ItemPath(decode, item, []) == Found(item)
  {
    assert (parts + [part])[..|parts|] == parts;
  }

  // ---- bindings ----

  function BindingText(id: string, path: seq<string>): string {
    Dotted([id, "output"] + path)
  }

  /** What a binding gives, by what its source shows. */
  ghost predicate Reads(decode: Decoder, id: string, path: seq<string>, m: Views, b: Bound, has: Json -> bool)
  {
    if id !in m then b == Broken
    else if m[id] == View(Skipped, Empty) then b == LeftAlone
    else if !m[id].output.Text? then b == Broken
    else (forall v :: b == Assigned(v) <==> has(v)) && b != LeftAlone
  }

  lemma TextOfBinding(decode: Decoder, id: string, path: seq<string>, m: Views)
    requires Lacks(id, '.') && path != [] && forall p :: p in path ==> Lacks(p, '.')
    ensures ResolveBinding(decode, BindingText(id, path), m) ==
      if id !in m then Broken
      else if m[id] == View(Skipped, Empty) then LeftAlone
      else if !m[id].output.Text? then Broken
      else match NavigateAll(decode, m[id].output.value, path) case Found(v) => Assigned(v) case NotFound => Broken
  {
    var parts := [id, "output"] + path;
    assert Lacks("output", '.');
    SplitDotted(parts);
    assert parts[2..] == path;
  }

  /** `<id>.output.a.b` gives the field `b` of the field `a` of what the step `<id>` put out. */
  lemma PlainBindings(decode: Decoder, id: string, path: seq<string>, m: Views)
    requires Lacks(id, '.') && path != [] && forall p :: p in path ==> Lacks(p, '.') && !HasSuffix(p, "[]")
    requires id in m && m[id].output.Text? ==> NoArrayOn(m[id].output.value, path)
    ensures Reads(decode, id, path, m, ResolveBinding(decode, BindingText(id, path), m),
                  (v: Json) => id in m && m[id].output.Text? && Descends(m[id].output.value, path, v))
  {
    TextOfBinding(decode, id, path, m);
    if id in m && m[id].output.Text? {
      forall v { PlainPathsDescend(decode, m[id].output.value, path, v); }
    }
  }

  /** `<id>.output.name[].a.b` gives what the items of the array `name` have at `a.b`. */
  lemma ArrayBindings(decode: Decoder, id: string, name: string, path: seq<string>, m: Views)
    requires Lacks(id, '.') && Lacks(name, '.') && forall p :: p in path ==> Lacks(p, '.') && !HasSuffix(p, "[]")
    ensures Reads(decode, id, [name + "[]"] + path, m, ResolveBinding(decode, BindingText(id, [name + "[]"] + path), m),
                  (v: Json) => id in m && m[id].output.Text? && exists items :: Descends(m[id].output.value, [name], Arr(items)) && v == Arr(Collected(decode, items, path)))
  {
    var parts := [name + "[]"] + path;
    TextOfBinding(decode, id, parts, m);
    if id in m && m[id].output.Text? {
      var value := m[id].output.value;
      ArrayPathsCollect(decode, value, name, path);
      forall items { FieldPathDescends(value, [name], Arr(items)); }
      assert FieldPath(value, [name]) == if value.Obj? && name in value.fields then Found(value.fields[name]) else NotFound by {
        assert [name][1..] == [];
      }
    }
  }

  // ---- inputs ----

  /** An input is the literal one with the fields that bindings assign; it exists exactly if
      the literal is an object (or null, with nothing to assign) and no binding is broken. */
  lemma InputsAreOverridden(decode: Decoder, input: Raw, bindings: map<string, string>, m: Views)
    ensures var r := Resolve(decode, input, bindings, m);
            && (input == Text(Null) ==> (r.Resolved? <==> forall f :: f in bindings ==> ResolveBinding(decode, bindings[f], m) == LeftAlone))
            && (r.Resolved? && input != Text(Null) ==>
                  && input.Text? && input.value.Obj? && r.input.Obj?
                  && forall f, v :: f in r.input.fields && r.input.fields[f] == v <==>
                       if f in bindings && ResolveBinding(decode, bindings[f], m).Assigned? then ResolveBinding(decode, bindings[f], m) == Assigned(v)
                       else f in input.value.fields && input.value.fields[f] == v)
            && (input.Text? && input.value.Obj? ==> (r.Resolved? <==> forall f :: f in bindings ==> ResolveBinding(decode, bindings[f], m) != Broken))
            && (!input.Text? || (!input.value.Obj? && !input.value.Null?) ==> r == Unresolved)
  {
    var bound := AssignedFields(decode, bindings, m);
    if input == Text(Null) && forall f :: f in bindings ==> ResolveBinding(decode, bindings[f], m) == LeftAlone {
      assert bound == map[];
    }
    if input == Text(Null) && Resolve(decode, input, bindings, m).Resolved? {
      assert bound == map[];
      forall f | f in bindings ensures ResolveBinding(decode, bindings[f], m) == LeftAlone {
        assert f !in bound;
      }
    }
  }

  // ---- conditions ----

  lemma SourceOfCondition(kind: string, parts: seq<string>)
    requires Lacks(kind, ':') && parts != [] && forall p :: p in parts ==> Lacks(p, '.')
    ensures var expr := kind + ":" + Dotted(parts);
            && expr != "" && Before(expr, ':') == kind && ConditionSource(expr) == parts[0]
            && Split(After(expr, ':'), '.') == parts
  {
    CutAtColon(kind, Dotted(parts));
    SplitDotted(parts);
  }

  /** `success:<id>` asks for a success, whatever follows the id. */
  lemma SuccessConditions(id: string, rest: seq<string>, m: Views)
    requires Lacks(id, '.') && forall p :: p in rest ==> Lacks(p, '.')
    ensures Condition("success:" + Dotted([id] + rest), m) == if id in m && m[id].status == Succeeded then Holds else DoesNotHold
  {
    assert "success" + ":" == "success:";
    SourceOfCondition("success", [id] + rest);
  }

  /** `changed:<id>` asks for an output with a non-empty array `changes`. */
  lemma ChangedConditions(id: string, rest: seq<string>, m: Views)
    requires Lacks(id, '.') && forall p :: p in rest ==> Lacks(p, '.')
    ensures var c := Condition("changed:" + Dotted([id] + rest), m);
            && c != ConditionPanics
            && (c == Holds <==> id in m && exists fields, first, more ::
                  m[id].output == Text(Obj(fields)) && "changes" in fields && fields["changes"] == Arr([first] + more))
  {
    assert "changed" + ":" == "changed:";
    SourceOfCondition("changed", [id] + rest);
    if id in m && m[id].output.Text? && m[id].output.value.Obj? {
      var fields := m[id].output.value.fields;
      if "changes" in fields && fields["changes"].Arr? && fields["changes"].items != [] {
        var items := fields["changes"].items;
        assert items == [items[0]] + items[1..];
        assert fields["changes"] == Arr([items[0]] + items[1..]);
      }
    }
  }

  /** `nonempty:<id>.output.a.b` asks for a field that is neither null nor an empty array
      nor an empty string. */
  lemma NonemptyConditions(id: string, second: string, path: seq<string>, m: Views)
    requires Lacks(id, '.') && Lacks(second, '.') && forall p :: p in path ==> Lacks(p, '.')
    ensures var c := Condition("nonempty:" + Dotted([id, second] + path), m);
            && c != ConditionPanics
            && (c == Holds <==>
                  (id in m && m[id].output.Text? && exists v :: Descends(m[id].output.value, path, v) && v !in [Null, Arr([]), Str("")]))
  {
    assert "nonempty" + ":" == "nonempty:";
    var parts := [id, second] + path;
    SourceOfCondition("nonempty", parts);
    assert parts[2..] == path;
    if id in m && m[id].output.Text? {
      forall v { FieldPathDescends(m[id].output.value, path, v); }
    }
  }

  /** Without a second element the code indexes out of range once the output parses. */
  lemma BareNonemptyPanics(id: string, m: Views)
    requires Lacks(id, '.')
    ensures Condition("nonempty:" + id, m) == if id in m && m[id].output.Text? then ConditionPanics else DoesNotHold
  {
    assert "nonempty" + ":" == "nonempty:";
    SourceOfCondition("nonempty", [id]);
  }

  // ---- what validation reads ----

  /** A binding is well formed exactly if it has at least three parts, the second of them
      being `output`, and it reads the step that the first part names. */
  lemma WrittenBindings(parts: seq<string>)
    requires parts != [] && forall p :: p in parts ==> Lacks(p, '.')
    ensures WellFormedBinding(Dotted(parts)) <==> |parts| >= 3 && parts[1] == "output"
    ensures BindingSource(Dotted(parts)) == parts[0]
  {
    SplitDotted(parts);
  }

  /** The supported conditions are the empty one and those of the three kinds. */
  lemma WrittenConditions(expr: string)
    ensures SupportedCondition(expr) <==>
      expr == "" || exists rest :: expr == "success:" + rest || expr == "changed:" + rest || expr == "nonempty:" + rest
  {
    if "success:" <= expr { assert expr == "success:" + expr[8..]; }
    if "changed:" <= expr { assert expr == "changed:" + expr[8..]; }
    if "nonempty:" <= expr { assert expr == "nonempty:" + expr[9..]; }
  }

  /** The steps that a step reads are those that its bindings name and, with a condition,
      the one that the condition names. */
  lemma SourcesAreNamed(kind: string, parts: seq<string>, bindings: map<string, string>, id: string)
    requires Lacks(kind, ':') && parts != [] && forall p :: p in parts ==> Lacks(p, '.')
    ensures id in Sources("", bindings) <==> exists f :: f in bindings && BindingSource(bindings[f]) == id
    ensures id in Sources(kind + ":" + Dotted(parts), bindings) <==> id == parts[0] || exists f :: f in bindings && BindingSource(bindings[f]) == id
  {
    SourceOfCondition(kind, parts);
  }
}
