/** JSON values and the two ways a workflow step reads them: bindings fill its input
    from earlier outputs, and a condition decides whether it runs at all. */
module Json {
  import opened Strings

  datatype Json =
    | Null
    | Bool(b: bool)
    | Num(n: real)
    | Str(s: string)
    | Arr(items: seq<Json>)
    | Obj(fields: map<string, Json>)

  /** A raw JSON message: absent, not valid JSON, or the text of a value. */
  datatype Raw = Empty | Malformed(text: string) | Text(value: Json)

  /** Decoding of a string that itself holds JSON. */
  type Decoder = string -> Raw

  datatype Status = AwaitingApproval | Running | Succeeded | Failed | Skipped | Cancelled

  /** What other steps can see of a step. */
  datatype View = View(status: Status, output: Raw)

  type Views = map<string, View>

  predicate IsDone(status: Status) {
    status == Succeeded || status == Skipped
  }

  predicate Done(m: Views, id: string) {
    id in m && IsDone(m[id].status)
  }

  // ---- strings ----

  /** `strings.Split` with a one-character separator. */
  function Split(s: string, sep: char): (parts: seq<string>)
    ensures |parts| >= 1
  {
    if s == "" then [""]
    else
      var rest := Split(s[1..], sep);
      if s[0] == sep then [""] + rest else [[s[0]] + rest[0]] + rest[1..]
  }

  /** The part of `strings.Cut` after the separator, empty when there is none. */
  function After(s: string, sep: char): string {
    if s == "" then "" else if s[0] == sep then s[1..] else After(s[1..], sep)
  }

  function Before(s: string, sep: char): string {
    if s == "" || s[0] == sep then "" else [s[0]] + Before(s[1..], sep)
  }

  // ---- bindings ----

  datatype Lookup = Found(value: Json) | NotFound

  /** What a path element picks out of one array item: a field of the object, or of
      the object that a string item encodes. */
  function PickItem(decode: Decoder, item: Json, part: string): Lookup {
    match item
    case Str(raw) =>
      var parsed := decode(raw);
      if parsed.Text? && parsed.value.Obj? && part in parsed.value.fields
      then Found(parsed.value.fields[part]) else NotFound
    case Obj(fields) => if part in fields then Found(fields[part]) else NotFound
    case _ => NotFound
  }

  function PickItems(decode: Decoder, items: seq<Json>, part: string): seq<Json> {
    if items == [] then [] else
      var init := PickItems(decode, items[..|items| - 1], part);
      var last := PickItem(decode, items[|items| - 1], part);
      if last.Found? then init + [last.value] else init
  }

  /** One element of a binding path. */
  function Navigate(decode: Decoder, value: Json, part: string): Lookup {
    if HasSuffix(part, "[]") then
      var name := part[..|part| - 2];
      if value.Obj? && name in value.fields && value.fields[name].Arr? then Found(value.fields[name]) else NotFound
    else if value.Arr? then Found(Arr(PickItems(decode, value.items, part)))
    else if value.Obj? && part in value.fields then Found(value.fields[part])
    else NotFound
  }

  function NavigateAll(decode: Decoder, value: Json, parts: seq<string>): Lookup {
    if parts == [] then Found(value) else
      var init := NavigateAll(decode, value, parts[..|parts| - 1]);
      if init.Found? then Navigate(decode, init.value, parts[|parts| - 1]) else NotFound
  }

  function BindingSource(binding: string): string {
    Split(binding, '.')[0]
  }

  /** The form `source.output.path` that validation demands. */
  predicate WellFormedBinding(binding: string) {
    |Split(binding, '.')| >= 3 && Split(binding, '.')[1] == "output"
  }

  /** A bound field is assigned, left alone (the source was skipped), or broken. */
  datatype Bound = Assigned(value: Json) | LeftAlone | Broken

  /** Validation keeps malformed bindings out, so the first branch is never taken. */
  function ResolveBinding(decode: Decoder, binding: string, m: Views): Bound {
    var parts := Split(binding, '.');
    if !WellFormedBinding(binding) then Broken
    else if parts[0] !in m then Broken
    else if m[parts[0]] == View(Skipped, Empty) then LeftAlone
    else if !m[parts[0]].output.Text? then Broken
    else match NavigateAll(decode, m[parts[0]].output.value, parts[2..])
      case Found(v) => Assigned(v)
      case NotFound => Broken
  }

  datatype Resolution = Resolved(input: Json) | Unresolved | InputPanics

  predicate WellFormedBindings(bindings: map<string, string>) {
    forall field :: field in bindings ==> WellFormedBinding(bindings[field])
  }

  function AssignedFields(decode: Decoder, bindings: map<string, string>, m: Views): map<string, Json> {
    map field | field in bindings && ResolveBinding(decode, bindings[field], m).Assigned?
      :: ResolveBinding(decode, bindings[field], m).value
  }

  predicate SomeBroken(decode: Decoder, bindings: map<string, string>, m: Views) {
    exists field :: field in bindings && ResolveBinding(decode, bindings[field], m).Broken?
  }

  /** `resolveInput`. The literal `null` decodes to a nil map: assigning into it panics. */
  function Resolve(decode: Decoder, input: Raw, bindings: map<string, string>, m: Views): Resolution {
    var bound := AssignedFields(decode, bindings, m);
    if !input.Text? || (!input.value.Obj? && !input.value.Null?) then Unresolved
    else if input.value.Null? && bound != map[] then InputPanics
    else if SomeBroken(decode, bindings, m) then Unresolved
    else if input.value.Null? then Resolved(Null)
    else Resolved(Obj(input.value.fields + bound))
  }

  method PickArray(decode: Decoder, items: seq<Json>, part: string) returns (extracted: seq<Json>)
    ensures extracted == PickItems(decode, items, part)
  {
    extracted := [];
    for i := 0 to |items|
      invariant extracted == PickItems(decode, items[..i], part)
    {
      assert items[..i + 1][..i] == items[..i];
      var picked := PickItem(decode, items[i], part);
      if picked.Found? {
        extracted := extracted + [picked.value];
      }
    }
    assert items[..|items|] == items;
  }

  method FollowPath(decode: Decoder, start: Json, parts: seq<string>) returns (result: Lookup)
    ensures result == NavigateAll(decode, start, parts)
  {
    var value := start;
    for i := 0 to |parts|
      invariant NavigateAll(decode, start, parts[..i]) == Found(value)
    {
      var part := parts[i];
      assert parts[..i + 1][..i] == parts[..i];
      var next := Navigate(decode, value, part);
      if !HasSuffix(part, "[]") && value.Arr? {
        var items := PickArray(decode, value.items, part);
        value := Arr(items);
      } else if next.NotFound? {
        BrokenStaysBroken(decode, start, parts, i + 1);
        return NotFound;
      } else {
        value := next.value;
      }
    }
    assert parts[..|parts|] == parts;
    return Found(value);
  }

  lemma {:induction false} BrokenStaysBroken(decode: Decoder, value: Json, parts: seq<string>, i: nat)
    requires i <= |parts| && NavigateAll(decode, value, parts[..i]).NotFound?
    ensures NavigateAll(decode, value, parts).NotFound?
  {
    if i < |parts| {
      assert parts[..|parts| - 1][..i] == parts[..i];
      BrokenStaysBroken(decode, value, parts[..|parts| - 1], i);
    } else {
      assert parts[..i] == parts;
    }
  }

  // What a path denotes: field by field into one value, and item by item below an array.

  lemma {:induction false} PathsCompose(decode: Decoder, value: Json, p: seq<string>, q: seq<string>)
    ensures NavigateAll(decode, value, p + q)
            == match NavigateAll(decode, value, p) case Found(v) => NavigateAll(decode, v, q) case NotFound => NotFound
    decreases |q|
  {
    if q == [] {
      assert p + q == p;
    } else {
      var n := |q| - 1;
      PathsCompose(decode, value, p, q[..n]);
      assert (p + q)[..|p + q| - 1] == p + q[..n];
    }
  }

  /** One item of an array, followed along the path. */
  function ItemPath(decode: Decoder, item: Json, parts: seq<string>): Lookup {
    if parts == [] then Found(item) else
      var init := ItemPath(decode, item, parts[..|parts| - 1]);
      if init.Found? then PickItem(decode, init.value, parts[|parts| - 1]) else NotFound
  }

  /** What the items have at the end of the path, in their order; items without it are left out. */
  function Collected(decode: Decoder, items: seq<Json>, parts: seq<string>): seq<Json> {
    if items == [] then [] else
      var init, last := Collected(decode, items[..|items| - 1], parts), ItemPath(decode, items[|items| - 1], parts);
      if last.Found? then init + [last.value] else init
  }

  lemma {:induction false} CollectedNothing(decode: Decoder, items: seq<Json>)
    ensures Collected(decode, items, []) == items
  {
    if items != [] {
      CollectedNothing(decode, items[..|items| - 1]);
      assert items == items[..|items| - 1] + [items[|items| - 1]];
    }
  }

  lemma {:induction false} CollectedNext(decode: Decoder, items: seq<Json>, parts: seq<string>)
    requires parts != []
    ensures PickItems(decode, Collected(decode, items, parts[..|parts| - 1]), parts[|parts| - 1]) == Collected(decode, items, parts)
  {
    if items != [] {
      var n, init := |parts| - 1, items[..|items| - 1];
      CollectedNext(decode, init, parts);
      var found := ItemPath(decode, items[|items| - 1], parts[..n]);
      var before := Collected(decode, init, parts[..n]);
      if found.Found? { assert (before + [found.value])[..|before|] == before; }
    }
  }

  /** Below an array a path works item by item, into objects and into strings that hold
      JSON objects, and never fails. */
  lemma {:induction false} ArraysAreElementwise(decode: Decoder, items: seq<Json>, parts: seq<string>)
    requires forall p :: p in parts ==> !HasSuffix(p, "[]")
    ensures NavigateAll(decode, Arr(items), parts) == Found(Arr(Collected(decode, items, parts)))
  {
    if parts == [] {
      CollectedNothing(decode, items);
    } else {
      ArraysAreElementwise(decode, items, parts[..|parts| - 1]);
      CollectedNext(decode, items, parts);
    }
  }

  /** A path `name[].a.b` gives what the items of the array `name` have at `a.b`; it is
      broken exactly if there is no such array. */
  lemma ArrayPathsCollect(decode: Decoder, value: Json, name: string, parts: seq<string>)
    requires forall p :: p in parts ==> !HasSuffix(p, "[]")
    ensures NavigateAll(decode, value, [name + "[]"] + parts)
            == if value.Obj? && name in value.fields && value.fields[name].Arr?
               then Found(Arr(Collected(decode, value.fields[name].items, parts))) else NotFound
  {
    var first := name + "[]";
    PathsCompose(decode, value, [first], parts);
    assert HasSuffix(first, "[]") && first[..|first| - 2] == name;
    assert NavigateAll(decode, value, [first][..0]) == Found(value);
    assert NavigateAll(decode, value, [first]) == Navigate(decode, value, first);
    if value.Obj? && name in value.fields && value.fields[name].Arr? {
      ArraysAreElementwise(decode, value.fields[name].items, parts);
    }
  }

  method ReadBinding(decode: Decoder, binding: string, m: Views) returns (b: Bound)
    requires WellFormedBinding(binding)
    ensures b == ResolveBinding(decode, binding, m)
  {
    var parts := Split(binding, '.');
    if parts[0] !in m {
      return Broken;
    }
    var source := m[parts[0]];
    if source == View(Skipped, Empty) {
      return LeftAlone;
    }
    if !source.output.Text? {
      return Broken;
    }
    var found := FollowPath(decode, source.output.value, parts[2..]);
    b := match found case Found(v) => Assigned(v) case NotFound => Broken;
  }

  /** The target after the bindings outside `left` have been assigned. */
  ghost predicate AssignedSoFar(decode: Decoder, fields: map<string, Json>, bindings: map<string, string>, m: Views,
                                left: set<string>, target: map<string, Json>)
  {
    && left <= bindings.Keys
    && (forall f :: f in bindings && f !in left ==> !ResolveBinding(decode, bindings[f], m).Broken?)
    && target == fields + (AssignedFields(decode, bindings, m) - left)
  }

  lemma AssignedStep(fields: map<string, Json>, all: map<string, Json>, left: set<string>, field: string)
    requires field in left
    ensures field in all ==> fields + (all - (left - {field})) == (fields + (all - left))[field := all[field]]
    ensures field !in all ==> fields + (all - (left - {field})) == fields + (all - left)
  {
    if field in all {
      assert all - (left - {field}) == (all - left)[field := all[field]];
    } else {
      assert all - (left - {field}) == all - left;
    }
  }

  lemma AssignedNext(decode: Decoder, fields: map<string, Json>, bindings: map<string, string>, m: Views,
                     left: set<string>, target: map<string, Json>, field: string)
    requires AssignedSoFar(decode, fields, bindings, m, left, target) && field in left
    ensures match ResolveBinding(decode, bindings[field], m)
            case Assigned(v) => AssignedSoFar(decode, fields, bindings, m, left - {field}, target[field := v])
            case LeftAlone => AssignedSoFar(decode, fields, bindings, m, left - {field}, target)
            case Broken => SomeBroken(decode, bindings, m)
  {
    AssignedStep(fields, AssignedFields(decode, bindings, m), left, field);
  }

  lemma AssignedAll(decode: Decoder, fields: map<string, Json>, bindings: map<string, string>, m: Views, target: map<string, Json>)
    requires AssignedSoFar(decode, fields, bindings, m, {}, target)
    ensures Resolve(decode, Text(Obj(fields)), bindings, m) == Resolved(Obj(target))
  {
    var all := AssignedFields(decode, bindings, m);
    assert all - {} == all;
  }

  method AssignBindings(decode: Decoder, fields: map<string, Json>, bindings: map<string, string>, m: Views)
    returns (r: Resolution)
    requires WellFormedBindings(bindings)
    ensures r == Resolve(decode, Text(Obj(fields)), bindings, m)
  {
    var target, left := fields, bindings.Keys;
    assert fields + (AssignedFields(decode, bindings, m) - left) == fields;
    while left != {}
      invariant AssignedSoFar(decode, fields, bindings, m, left, target)
      decreases left
    {
      var field :| field in left;
      AssignedNext(decode, fields, bindings, m, left, target, field);
      var b := ReadBinding(decode, bindings[field], m);
      if b.Broken? {
        return Unresolved;
      }
      if b.Assigned? {
        target := target[field := b.value];
      }
      left := left - {field};
    }
    AssignedAll(decode, fields, bindings, m, target);
    return Resolved(Obj(target));
  }

  // ---- conditions ----

  datatype ConditionResult = Holds | DoesNotHold | ConditionPanics

  function ConditionSource(expr: string): string {
    Split(After(expr, ':'), '.')[0]
  }

  predicate SupportedCondition(expr: string) {
    expr == "" || "success:" <= expr || "changed:" <= expr || "nonempty:" <= expr
  }

  function FieldPath(value: Json, parts: seq<string>): Lookup {
    if parts == [] then Found(value)
    else if value.Obj? && parts[0] in value.fields then FieldPath(value.fields[parts[0]], parts[1..])
    else NotFound
  }

  predicate NonEmpty(value: Json) {
    match value
    case Arr(items) => items != []
    case Str(s) => s != ""
    case Null => false
    case _ => true
  }

  /** `condition`. A `nonempty:` reference without a second element panics once the
      output of its source parses. */
  function Condition(expr: string, m: Views): ConditionResult {
    var kind, id := Before(expr, ':'), ConditionSource(expr);
    if expr == "" then Holds
    else if id !in m then DoesNotHold
    else if kind == "success" then
      if m[id].status == Succeeded then Holds else DoesNotHold
    else if !m[id].output.Text? then DoesNotHold
    else if kind == "changed" then
      var v := m[id].output.value;
      if v.Obj? && "changes" in v.fields && v.fields["changes"].Arr? && v.fields["changes"].items != []
      then Holds else DoesNotHold
    else if kind == "nonempty" then
      var parts := Split(After(expr, ':'), '.');
      if |parts| < 2 then ConditionPanics else
        match FieldPath(m[id].output.value, parts[2..])
        case Found(v) => if NonEmpty(v) then Holds else DoesNotHold
        case NotFound => DoesNotHold
    else DoesNotHold
  }

  // ---- what is read ----

  /** The steps whose state a step reads. */
  function Sources(condition: string, bindings: map<string, string>): set<string> {
    (set field | field in bindings :: BindingSource(bindings[field]))
    + if condition == "" then {} else {ConditionSource(condition)}
  }

  ghost predicate AgreeOn(m: Views, m': Views, ids: set<string>) {
    forall id :: id in ids ==> (id in m <==> id in m') && (id in m ==> m[id] == m'[id])
  }

  lemma InputReadsSources(decode: Decoder, input: Raw, bindings: map<string, string>, condition: string, m: Views, m': Views)
    requires AgreeOn(m, m', Sources(condition, bindings))
    ensures Resolve(decode, input, bindings, m) == Resolve(decode, input, bindings, m')
  {
    forall field | field in bindings
      ensures ResolveBinding(decode, bindings[field], m) == ResolveBinding(decode, bindings[field], m')
    {
      assert BindingSource(bindings[field]) in Sources(condition, bindings);
    }
    SameBindings(decode, bindings, m, m');
  }

  lemma SameBindings(decode: Decoder, bindings: map<string, string>, m: Views, m': Views)
    requires forall field :: field in bindings ==> ResolveBinding(decode, bindings[field], m) == ResolveBinding(decode, bindings[field], m')
    ensures AssignedFields(decode, bindings, m) == AssignedFields(decode, bindings, m')
    ensures SomeBroken(decode, bindings, m) <==> SomeBroken(decode, bindings, m')
  {}

  lemma ConditionReadsSource(bindings: map<string, string>, condition: string, m: Views, m': Views)
    requires AgreeOn(m, m', Sources(condition, bindings))
    ensures Condition(condition, m) == Condition(condition, m')
  {}

  /** Input and condition are functions of the sources alone. */
  lemma ReadsOnlySources(decode: Decoder, input: Raw, bindings: map<string, string>, condition: string, m: Views, m': Views)
    requires AgreeOn(m, m', Sources(condition, bindings))
    ensures Resolve(decode, input, bindings, m) == Resolve(decode, input, bindings, m')
    ensures Condition(condition, m) == Condition(condition, m')
  {
    InputReadsSources(decode, input, bindings, condition, m, m');
    ConditionReadsSource(bindings, condition, m, m');
  }
}
