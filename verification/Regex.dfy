/** Enumeration of finite patterns: which strings a pattern matches, in Go's
    leftmost-first order, and what the enumerator lists. */
module Regex {
  import opened Order
  import opened Wrappers

  /** The simplified syntax tree. Literals are case sensitive and `Other` is every
      operator that the enumerator refuses. */
  datatype Regex =
    | Empty
    | Begin
    | End
    | Literal(runes: string)
    | Capture(sub: Regex)
    | Concat(subs: seq<Regex>)
    | Alternate(subs: seq<Regex>)
    | Quest(sub: Regex, greedy: bool)
    | Other

  function Arity(re: Regex): nat {
    if re.Concat? || re.Alternate? then |re.subs| else 0
  }

  // ---- matching ----

  /** The ends of the matches of `re` in `s` that start at `i`, most preferred first. */
  function Ends(re: Regex, s: string, i: nat): seq<nat>
    decreases re, Arity(re) + 1, 0
  {
    match re
    case Empty => [i]
    case Begin => if i == 0 then [i] else []
    case End => if i == |s| then [i] else []
    case Literal(w) => if i + |w| <= |s| && s[i..i + |w|] == w then [i + |w|] else []
    case Capture(sub) => Ends(sub, s, i)
    case Concat(subs) => EndsFrom(re, 0, s, i)
    case Alternate(subs) => EndsOfAny(re, 0, s, i)
    case Quest(sub, greedy) => if greedy then Ends(sub, s, i) + [i] else [i] + Ends(sub, s, i)
    case Other => []
  }

  /** The ends of the parts from `k` on. */
  function EndsFrom(re: Regex, k: nat, s: string, i: nat): seq<nat>
    requires re.Concat? && k <= |re.subs|
    decreases re, |re.subs| - k, 0
  {
    if k == |re.subs| then [i] else EndsAfter(re, k + 1, s, Ends(re.subs[k], s, i))
  }

  function EndsAfter(re: Regex, k: nat, s: string, starts: seq<nat>): seq<nat>
    requires re.Concat? && k <= |re.subs|
    decreases re, |re.subs| - k, |starts|
  {
    if starts == [] then [] else EndsFrom(re, k, s, starts[0]) + EndsAfter(re, k, s, starts[1..])
  }

  function EndsOfAny(re: Regex, k: nat, s: string, i: nat): seq<nat>
    requires re.Alternate? && k <= |re.subs|
    decreases re, |re.subs| - k, 0
  {
    if k == |re.subs| then [] else Ends(re.subs[k], s, i) + EndsOfAny(re, k + 1, s, i)
  }

  /** Some way of matching covers the whole string. */
  predicate InLanguage(re: Regex, w: string) {
    |w| in Ends(re, w, 0)
  }

  /** The preferred match covers the whole string. */
  predicate Full(re: Regex, w: string) {
    Ends(re, w, 0) != [] && Ends(re, w, 0)[0] == |w|
  }

  // ---- enumeration ----

  function Dedup(s: seq<string>): (r: seq<string>)
    ensures NoDuplicates(r) && |r| <= |s| && forall x :: x in r <==> x in s
  {
    if s == [] then [] else
      var init := Dedup(s[..|s| - 1]);
      assert s == s[..|s| - 1] + [s[|s| - 1]];
      if s[|s| - 1] in init then init else init + [s[|s| - 1]]
  }

  function Unique(s: seq<string>): seq<string> {
    SortStrings(Dedup(s))
  }

  lemma UniqueMembers(s: seq<string>)
    ensures |Unique(s)| <= |s| && forall x :: x in Unique(s) <==> x in s
  {
    SameElements(Dedup(s), Unique(s));
  }

  function AppendEach(a: string, part: seq<string>): (r: seq<string>)
    ensures |r| == |part|
  {
    if part == [] then [] else AppendEach(a, part[..|part| - 1]) + [a + part[|part| - 1]]
  }

  function Cross(out: seq<string>, part: seq<string>): (r: seq<string>)
    ensures |r| == |out| * |part|
  {
    if out == [] then [] else
      Cross(out[..|out| - 1], part) + AppendEach(out[|out| - 1], part)
  }

  function Enum(re: Regex, limit: nat): Option<seq<string>>
    decreases re, Arity(re) + 1
  {
    match re
    case Empty => Some([""])
    case Begin => Some([""])
    case End => Some([""])
    case Literal(w) => Some([w])
    case Capture(sub) => Enum(sub, limit)
    case Concat(subs) =>
      (match EnumConcat(re, 0, [""], limit) case None => None case Some(out) => Some(Unique(out)))
    case Alternate(subs) =>
      (match EnumAlternate(re, 0, [], limit) case None => None case Some(out) => Some(Unique(out)))
    case Quest(sub, _) =>
      (match Enum(sub, limit) case None => None case Some(part) => if |part| + 1 > limit then None else Some(Unique(part + [""])))
    case Other => None
  }

  function EnumConcat(re: Regex, k: nat, out: seq<string>, limit: nat): Option<seq<string>>
    requires re.Concat? && k <= |re.subs|
    decreases re, |re.subs| - k
  {
    if k == |re.subs| then Some(out)
    else match Enum(re.subs[k], limit)
      case None => None
      case Some(part) => if |Cross(out, part)| > limit then None else EnumConcat(re, k + 1, Cross(out, part), limit)
  }

  function EnumAlternate(re: Regex, k: nat, out: seq<string>, limit: nat): Option<seq<string>>
    requires re.Alternate? && k <= |re.subs|
    decreases re, |re.subs| - k
  {
    if k == |re.subs| then Some(out)
    else match Enum(re.subs[k], limit)
      case None => None
      case Some(part) => if |out + part| > limit then None else EnumAlternate(re, k + 1, out + part, limit)
  }

  // ---- the enumerator ----

  method UniqueStrings(items: seq<string>) returns (out: seq<string>)
    ensures out == Unique(items)
  {
    out := [];
    for i := 0 to |items|
      invariant out == Dedup(items[..i])
    {
      assert items[..i + 1][..i] == items[..i];
      if items[i] !in out { out := out + [items[i]]; }
    }
    assert items[..|items|] == items;
    out := SortStrings(out);
  }

  lemma {:induction false} CrossPrefix(out: seq<string>, part: seq<string>, i: nat)
    requires i <= |out|
    ensures |Cross(out[..i], part)| <= |Cross(out, part)|
    decreases |out|
  {
    if i < |out| {
      CrossPrefix(out[..|out| - 1], part, i);
      assert out[..|out| - 1][..i] == out[..i];
    } else {
      assert out[..i] == out;
    }
  }

  /** The nested loops over prefixes and suffixes; they stop at the first string beyond
      the limit. */
  method CrossProduct(out: seq<string>, part: seq<string>, limit: nat) returns (next: Option<seq<string>>)
    ensures next == if |Cross(out, part)| > limit then None else Some(Cross(out, part))
  {
    var list: seq<string> := [];
    for i := 0 to |out|
      invariant list == Cross(out[..i], part) && |list| <= limit
    {
      assert out[..i + 1][..i] == out[..i];
      CrossPrefix(out, part, i + 1);
      for j := 0 to |part|
        invariant list == Cross(out[..i], part) + AppendEach(out[i], part[..j]) && |list| <= limit
      {
        assert part[..j + 1][..j] == part[..j];
        list := list + [out[i] + part[j]];
        if |list| > limit {
          AppendEachPrefix(out[i], part, j + 1);
          return None;
        }
      }
      assert part[..|part|] == part;
    }
    assert out[..|out|] == out;
    return Some(list);
  }

  lemma {:induction false} AppendEachPrefix(a: string, part: seq<string>, j: nat)
    requires j <= |part|
    ensures |AppendEach(a, part[..j])| <= |AppendEach(a, part)|
  {}

  method Enumerate(re: Regex, limit: nat) returns (r: Option<seq<string>>)
    ensures r == Enum(re, limit)
    decreases re
  {
    match re
    case Empty => return Some([""]);
    case Begin => return Some([""]);
    case End => return Some([""]);
    case Literal(w) => return Some([w]);
    case Capture(sub) => r := Enumerate(sub, limit);
    case Concat(subs) =>
      var out := [""];
      for k := 0 to |subs|
        invariant EnumConcat(re, 0, [""], limit) == EnumConcat(re, k, out, limit)
      {
        var part := Enumerate(subs[k], limit);
        if part.None? { return None; }
        var next := CrossProduct(out, part.value, limit);
        if next.None? { return None; }
        out := next.value;
      }
      out := UniqueStrings(out);
      return Some(out);
    case Alternate(subs) =>
      var out: seq<string> := [];
      for k := 0 to |subs|
        invariant EnumAlternate(re, 0, [], limit) == EnumAlternate(re, k, out, limit)
      {
        var part := Enumerate(subs[k], limit);
        if part.None? { return None; }
        out := out + part.value;
        if |out| > limit { return None; }
      }
      out := UniqueStrings(out);
      return Some(out);
    case Quest(sub, _) =>
      var part := Enumerate(sub, limit);
      if part.None? || |part.value| + 1 > limit { return None; }
      var out := UniqueStrings(part.value + [""]);
      return Some(out);
    case Other => return None;
  }

  // ---- what enumeration guarantees ----

  lemma {:induction false} AppendEachMembers(a: string, part: seq<string>, w: string)
    ensures w in AppendEach(a, part) <==> exists b :: b in part && w == a + b
  {
    if part != [] {
      var init, last := part[..|part| - 1], part[|part| - 1];
      assert part == init + [last];
      AppendEachMembers(a, init, w);
      if b :| b in part && w == a + b {
        assert b in init || b == last;
      }
    }
  }

  lemma {:induction false} CrossMembers(out: seq<string>, part: seq<string>, w: string)
    ensures w in Cross(out, part) <==> exists a, b :: a in out && b in part && w == a + b
  {
    if out != [] {
      var init, last := out[..|out| - 1], out[|out| - 1];
      assert out == init + [last];
      CrossMembers(init, part, w);
      AppendEachMembers(last, part, w);
      if a, b :| a in out && b in part && w == a + b {
        assert a in init || a == last;
      }
    }
  }

  // At most `limit` strings.

  lemma {:induction false} EnumConcatBounded(re: Regex, k: nat, out: seq<string>, limit: nat)
    requires re.Concat? && k <= |re.subs| && |out| <= limit && EnumConcat(re, k, out, limit).Some?
    ensures |EnumConcat(re, k, out, limit).value| <= limit
    decreases |re.subs| - k
  {
    if k < |re.subs| { EnumConcatBounded(re, k + 1, Cross(out, Enum(re.subs[k], limit).value), limit); }
  }

  lemma {:induction false} EnumAlternateBounded(re: Regex, k: nat, out: seq<string>, limit: nat)
    requires re.Alternate? && k <= |re.subs| && |out| <= limit && EnumAlternate(re, k, out, limit).Some?
    ensures |EnumAlternate(re, k, out, limit).value| <= limit
    decreases |re.subs| - k
  {
    if k < |re.subs| { EnumAlternateBounded(re, k + 1, out + Enum(re.subs[k], limit).value, limit); }
  }

  /** A successful enumeration lists at most `limit` strings. */
  lemma {:induction false} EnumerationIsBounded(re: Regex, limit: nat)
    requires limit >= 1 && Enum(re, limit).Some?
    ensures |Enum(re, limit).value| <= limit
  {
    match re
    case Capture(sub) => EnumerationIsBounded(sub, limit);
    case Concat(subs) =>
      EnumConcatBounded(re, 0, [""], limit);
      UniqueMembers(EnumConcat(re, 0, [""], limit).value);
    case Alternate(subs) =>
      EnumAlternateBounded(re, 0, [], limit);
      UniqueMembers(EnumAlternate(re, 0, [], limit).value);
    case Quest(sub, _) => UniqueMembers(Enum(sub, limit).value + [""]);
    case _ =>
  }

  // Success is monotone in the limit.

  lemma {:induction false} EnumConcatMonotone(re: Regex, k: nat, out: seq<string>, low: nat, high: nat)
    requires re.Concat? && k <= |re.subs| && low <= high && EnumConcat(re, k, out, low).Some?
    ensures EnumConcat(re, k, out, high) == EnumConcat(re, k, out, low)
    decreases re, |re.subs| - k
  {
    if k < |re.subs| {
      EnumerationIsMonotone(re.subs[k], low, high);
      EnumConcatMonotone(re, k + 1, Cross(out, Enum(re.subs[k], low).value), low, high);
    }
  }

  lemma {:induction false} EnumAlternateMonotone(re: Regex, k: nat, out: seq<string>, low: nat, high: nat)
    requires re.Alternate? && k <= |re.subs| && low <= high && EnumAlternate(re, k, out, low).Some?
    ensures EnumAlternate(re, k, out, high) == EnumAlternate(re, k, out, low)
    decreases re, |re.subs| - k
  {
    if k < |re.subs| {
      EnumerationIsMonotone(re.subs[k], low, high);
      EnumAlternateMonotone(re, k + 1, out + Enum(re.subs[k], low).value, low, high);
    }
  }

  /** A larger limit lists the same strings. */
  lemma {:induction false} EnumerationIsMonotone(re: Regex, low: nat, high: nat)
    requires low <= high && Enum(re, low).Some?
    ensures Enum(re, high) == Enum(re, low)
    decreases re, Arity(re) + 1
  {
    match re
    case Capture(sub) => EnumerationIsMonotone(sub, low, high);
    case Concat(subs) => EnumConcatMonotone(re, 0, [""], low, high);
    case Alternate(subs) => EnumAlternateMonotone(re, 0, [], low, high);
    case Quest(sub, _) => EnumerationIsMonotone(sub, low, high);
    case _ =>
  }

  // Matches of a concatenation are chains of positions.

  /** `ms` leads through the parts from `k` on. */
  ghost predicate IsChain(re: Regex, k: nat, s: string, ms: seq<nat>)
    requires re.Concat? && k <= |re.subs|
  {
    |ms| == |re.subs| - k + 1 && forall j :: 0 <= j < |re.subs| - k ==> Hop(re, k, s, ms, j)
  }

  ghost predicate Hop(re: Regex, k: nat, s: string, ms: seq<nat>, j: nat)
    requires re.Concat? && k + j < |re.subs| && j + 1 < |ms|
  {
    ms[j + 1] in Ends(re.subs[k + j], s, ms[j])
  }

  lemma {:induction false} EndsAfterMember(re: Regex, k: nat, s: string, starts: seq<nat>, e: nat)
    requires re.Concat? && k <= |re.subs|
    ensures e in EndsAfter(re, k, s, starts) <==> exists m :: m in starts && e in EndsFrom(re, k, s, m)
    decreases |starts|
  {
    if starts != [] {
      EndsAfterMember(re, k, s, starts[1..], e);
      if m :| m in starts && e in EndsFrom(re, k, s, m) {
        assert m == starts[0] || m in starts[1..];
      }
    }
  }

  lemma ChainCons(re: Regex, k: nat, s: string, i: nat, ms: seq<nat>)
    requires re.Concat? && k < |re.subs| && IsChain(re, k + 1, s, ms) && ms[0] in Ends(re.subs[k], s, i)
    ensures IsChain(re, k, s, [i] + ms)
  {
    var all := [i] + ms;
    forall j | 0 <= j < |re.subs| - k ensures Hop(re, k, s, all, j) {
      if j > 0 { assert Hop(re, k + 1, s, ms, j - 1); }
    }
  }

  lemma {:induction false} ChainOfEnd(re: Regex, k: nat, s: string, i: nat, e: nat) returns (ms: seq<nat>)
    requires re.Concat? && k <= |re.subs| && e in EndsFrom(re, k, s, i)
    ensures IsChain(re, k, s, ms) && ms[0] == i && ms[|ms| - 1] == e
    decreases |re.subs| - k
  {
    if k == |re.subs| {
      ms := [i];
    } else {
      EndsAfterMember(re, k + 1, s, Ends(re.subs[k], s, i), e);
      var m :| m in Ends(re.subs[k], s, i) && e in EndsFrom(re, k + 1, s, m);
      var rest := ChainOfEnd(re, k + 1, s, m, e);
      ChainCons(re, k, s, i, rest);
      ms := [i] + rest;
    }
  }

  lemma {:induction false} EndOfChain(re: Regex, k: nat, s: string, ms: seq<nat>)
    requires re.Concat? && k <= |re.subs| && IsChain(re, k, s, ms)
    ensures ms[|ms| - 1] in EndsFrom(re, k, s, ms[0])
    decreases |re.subs| - k
  {
    if k < |re.subs| {
      var rest, next := ms[1..], k + 1;
      forall j | 0 <= j < |re.subs| - next ensures Hop(re, next, s, rest, j) {
        assert Hop(re, k, s, ms, j + 1);
      }
      EndOfChain(re, k + 1, s, rest);
      assert Hop(re, k, s, ms, 0);
      EndsAfterMember(re, k + 1, s, Ends(re.subs[k], s, ms[0]), ms[|ms| - 1]);
    }
  }

  // Listed strings of a concatenation are cut at positions.

  ghost predicate Listed(re: Regex, limit: nat, w: string) {
    Enum(re, limit).Some? && w in Enum(re, limit).value
  }

  /** `cuts` divides the end of `w` among the parts from `k` on. */
  ghost predicate IsCut(re: Regex, k: nat, limit: nat, w: string, cuts: seq<nat>)
    requires re.Concat? && k <= |re.subs|
  {
    && |cuts| == |re.subs| - k + 1 && cuts[|cuts| - 1] == |w|
    && forall j :: 0 <= j < |re.subs| - k ==> PieceListed(re, k, limit, w, cuts, j)
  }

  ghost predicate PieceListed(re: Regex, k: nat, limit: nat, w: string, cuts: seq<nat>, j: nat)
    requires re.Concat? && k + j < |re.subs| && j + 1 < |cuts|
  {
    cuts[j] <= cuts[j + 1] <= |w| && Listed(re.subs[k + j], limit, w[cuts[j]..cuts[j + 1]])
  }

  lemma CutCons(re: Regex, k: nat, limit: nat, w: string, c: nat, cuts: seq<nat>)
    requires re.Concat? && k < |re.subs| && IsCut(re, k + 1, limit, w, cuts)
    requires c <= cuts[0] <= |w| && Listed(re.subs[k], limit, w[c..cuts[0]])
    ensures IsCut(re, k, limit, w, [c] + cuts)
  {
    var all := [c] + cuts;
    forall j | 0 <= j < |re.subs| - k ensures PieceListed(re, k, limit, w, all, j) {
      if j > 0 { assert PieceListed(re, k + 1, limit, w, cuts, j - 1); }
    }
  }

  lemma CutTail(re: Regex, k: nat, limit: nat, w: string, cuts: seq<nat>)
    requires re.Concat? && k < |re.subs| && IsCut(re, k, limit, w, cuts)
    ensures IsCut(re, k + 1, limit, w, cuts[1..])
  {
    var rest, next := cuts[1..], k + 1;
    forall j | 0 <= j < |re.subs| - next ensures PieceListed(re, next, limit, w, rest, j) {
      assert PieceListed(re, k, limit, w, cuts, j + 1);
    }
  }

  lemma {:induction false} CutOfListed(re: Regex, k: nat, out: seq<string>, limit: nat, w: string) returns (cuts: seq<nat>)
    requires re.Concat? && k <= |re.subs| && EnumConcat(re, k, out, limit).Some? && w in EnumConcat(re, k, out, limit).value
    ensures IsCut(re, k, limit, w, cuts) && cuts[0] <= |w| && w[..cuts[0]] in out
    decreases |re.subs| - k
  {
    if k == |re.subs| {
      cuts := [|w|];
      assert w[..|w|] == w;
    } else {
      var part := Enum(re.subs[k], limit).value;
      var rest := CutOfListed(re, k + 1, Cross(out, part), limit, w);
      var c := CutOnce(out, part, w, rest[0]);
      CutCons(re, k, limit, w, c, rest);
      cuts := [c] + rest;
    }
  }

  lemma CutOnce(out: seq<string>, part: seq<string>, w: string, n: nat) returns (c: nat)
    requires n <= |w| && w[..n] in Cross(out, part)
    ensures c <= n && w[..c] in out && w[c..n] in part
  {
    CrossMembers(out, part, w[..n]);
    var x, u :| x in out && u in part && w[..n] == x + u;
    Split(w, n, x, u);
    c := |x|;
  }

  lemma Split(w: string, n: nat, x: string, u: string)
    requires n <= |w| && w[..n] == x + u
    ensures |x| <= n && w[..|x|] == x && w[|x|..n] == u
  {}

  lemma {:induction false} ListedOfCut(re: Regex, k: nat, out: seq<string>, limit: nat, w: string, cuts: seq<nat>)
    requires re.Concat? && k <= |re.subs| && EnumConcat(re, k, out, limit).Some?
    requires IsCut(re, k, limit, w, cuts) && cuts[0] <= |w| && w[..cuts[0]] in out
    ensures w in EnumConcat(re, k, out, limit).value
    decreases |re.subs| - k
  {
    if k == |re.subs| {
      assert w[..|w|] == w;
    } else {
      var part := Enum(re.subs[k], limit).value;
      assert PieceListed(re, k, limit, w, cuts, 0);
      CutTail(re, k, limit, w, cuts);
      assert w[..cuts[1]] == w[..cuts[0]] + w[cuts[0]..cuts[1]];
      CrossMembers(out, part, w[..cuts[1]]);
      ListedOfCut(re, k + 1, Cross(out, part), limit, w, cuts[1..]);
    }
  }

  lemma {:induction false} PartsEnumerable(re: Regex, k: nat, out: seq<string>, limit: nat, j: nat)
    requires re.Concat? && k <= j < |re.subs| && EnumConcat(re, k, out, limit).Some?
    ensures Enum(re.subs[j], limit).Some?
    decreases |re.subs| - k
  {
    if k < j { PartsEnumerable(re, k + 1, Cross(out, Enum(re.subs[k], limit).value), limit, j); }
  }

  // Everything matched is listed.

  ghost predicate HopListed(re: Regex, limit: nat, s: string, ms: seq<nat>, j: nat)
    requires re.Concat? && j < |re.subs| && j + 1 < |ms|
  {
    ms[j] <= ms[j + 1] <= |s| && Listed(re.subs[j], limit, s[ms[j]..ms[j + 1]])
  }

  lemma {:induction false} ChainComplete(re: Regex, limit: nat, s: string, ms: seq<nat>, j: nat)
    requires re.Concat? && EnumConcat(re, 0, [""], limit).Some?
    requires IsChain(re, 0, s, ms) && ms[0] <= |s| && j <= |re.subs|
    ensures ms[0] <= ms[j] <= |s|
    ensures j < |re.subs| ==> HopListed(re, limit, s, ms, j)
    decreases re, 0, j
  {
    if j > 0 { ChainComplete(re, limit, s, ms, j - 1); }
    if j < |re.subs| {
      PartsEnumerable(re, 0, [""], limit, j);
      assert Hop(re, 0, s, ms, j);
      EnumerationIsComplete(re.subs[j], limit, s, ms[j], ms[j + 1]);
    }
  }

  lemma {:induction false} HopsAscend(re: Regex, limit: nat, s: string, ms: seq<nat>, j: nat)
    requires re.Concat? && |ms| == |re.subs| + 1 && j <= |re.subs|
    requires forall h :: 0 <= h < |re.subs| ==> HopListed(re, limit, s, ms, h)
    ensures ms[j] <= ms[|re.subs|]
    decreases |re.subs| - j
  {
    if j < |re.subs| {
      assert HopListed(re, limit, s, ms, j);
      HopsAscend(re, limit, s, ms, j + 1);
    }
  }

  /** Positions in `s` become cuts of the matched substring. */
  lemma CutOfHops(re: Regex, limit: nat, s: string, ms: seq<nat>, i: nat, e: nat) returns (cuts: seq<nat>)
    requires re.Concat? && |ms| == |re.subs| + 1 && ms[0] == i && ms[|re.subs|] == e && i <= e <= |s|
    requires forall j :: 0 <= j < |re.subs| ==> HopListed(re, limit, s, ms, j)
    requires forall j :: 0 <= j < |ms| ==> i <= ms[j] <= e
    ensures IsCut(re, 0, limit, s[i..e], cuts) && cuts[0] == 0
  {
    var w := s[i..e];
    cuts := seq(|ms|, j requires 0 <= j < |ms| => ms[j] - i);
    forall j | 0 <= j < |re.subs| ensures PieceListed(re, 0, limit, w, cuts, j) {
      assert HopListed(re, limit, s, ms, j);
      SliceOfSlice(s, i, e, ms[j], ms[j + 1]);
    }
  }

  lemma SliceOfSlice(s: string, i: nat, e: nat, lo: nat, hi: nat)
    requires i <= lo <= hi <= e <= |s|
    ensures s[i..e][lo - i..hi - i] == s[lo..hi]
  {
    forall j | 0 <= j < hi - lo ensures s[i..e][lo - i..hi - i][j] == s[lo..hi][j] {
      assert s[i..e][lo - i + j] == s[lo + j];
    }
  }

  lemma ConcatComplete(re: Regex, limit: nat, s: string, i: nat, e: nat)
    requires re.Concat? && EnumConcat(re, 0, [""], limit).Some? && i <= |s| && e in EndsFrom(re, 0, s, i)
    ensures i <= e <= |s| && s[i..e] in EnumConcat(re, 0, [""], limit).value
    decreases re, 1
  {
    var ms := ChainOfEnd(re, 0, s, i, e);
    ChainComplete(re, limit, s, ms, |re.subs|);
    forall j | 0 <= j < |re.subs| ensures HopListed(re, limit, s, ms, j) {
      ChainComplete(re, limit, s, ms, j);
    }
    forall j | 0 <= j < |ms| ensures i <= ms[j] <= e {
      ChainComplete(re, limit, s, ms, j);
      HopsAscend(re, limit, s, ms, j);
    }
    var cuts := CutOfHops(re, limit, s, ms, i, e);
    ListedOfCut(re, 0, [""], limit, s[i..e], cuts);
  }

  lemma {:induction false} AlternateComplete(re: Regex, k: nat, out: seq<string>, limit: nat, s: string, i: nat, e: nat)
    requires re.Alternate? && k <= |re.subs| && EnumAlternate(re, k, out, limit).Some? && i <= |s|
    ensures forall w :: w in out ==> w in EnumAlternate(re, k, out, limit).value
    ensures e in EndsOfAny(re, k, s, i) ==> i <= e <= |s| && s[i..e] in EnumAlternate(re, k, out, limit).value
    decreases re, 1, |re.subs| - k
  {
    if k < |re.subs| {
      var part := Enum(re.subs[k], limit).value;
      AlternateComplete(re, k + 1, out + part, limit, s, i, e);
      if e in Ends(re.subs[k], s, i) {
        EnumerationIsComplete(re.subs[k], limit, s, i, e);
        assert s[i..e] in out + part;
      }
    }
  }

  /** A successful enumeration lists every substring that the pattern can match, so in
      particular every string that it matches in full. */
  lemma {:induction false} EnumerationIsComplete(re: Regex, limit: nat, s: string, i: nat, e: nat)
    requires Enum(re, limit).Some? && i <= |s| && e in Ends(re, s, i)
    ensures i <= e <= |s| && s[i..e] in Enum(re, limit).value
    decreases re, 2
  {
    match re
    case Capture(sub) => EnumerationIsComplete(sub, limit, s, i, e);
    case Concat(subs) =>
      ConcatComplete(re, limit, s, i, e);
      UniqueMembers(EnumConcat(re, 0, [""], limit).value);
    case Alternate(subs) =>
      AlternateComplete(re, 0, [], limit, s, i, e);
      UniqueMembers(EnumAlternate(re, 0, [], limit).value);
    case Quest(sub, _) =>
      if e in Ends(sub, s, i) { EnumerationIsComplete(sub, limit, s, i, e); }
      UniqueMembers(Enum(sub, limit).value + [""]);
    case _ => assert s[i..i] == "";
  }

  // Everything listed is matched, if anchors stand at the outer ends.

  /** `^` may only stand where the match starts (`left`), `$` only where it ends (`right`). */
  predicate AnchorsOutside(re: Regex, left: bool, right: bool) {
    match re
    case Begin => left
    case End => right
    case Capture(sub) => AnchorsOutside(sub, left, right)
    case Quest(sub, _) => AnchorsOutside(sub, left, right)
    case Concat(subs) => forall k :: 0 <= k < |subs| ==> AnchorsOutside(subs[k], left && k == 0, right && k == |subs| - 1)
    case Alternate(subs) => forall k :: 0 <= k < |subs| ==> AnchorsOutside(subs[k], left, right)
    case _ => true
  }

  /** `w` stands in `s` at `i`, at the ends that the anchors ask for. */
  predicate Stands(w: string, s: string, i: nat, left: bool, right: bool) {
    i + |w| <= |s| && s[i..i + |w|] == w && (left ==> i == 0) && (right ==> i + |w| == |s|)
  }

  /** The part `w[lo..hi]` of a standing string stands where it should. */
  lemma StandsInside(w: string, lo: nat, hi: nat, s: string, i: nat, left: bool, right: bool)
    requires Stands(w, s, i, left, right) && lo <= hi <= |w|
    ensures Stands(w[lo..hi], s, i + lo, left && lo == 0, right && hi == |w|)
  {
    forall j | 0 <= j < hi - lo ensures s[i + lo..i + hi][j] == w[lo..hi][j] {
      assert s[i..i + |w|][lo + j] == w[lo + j];
    }
  }

  function Shift(i: nat, cuts: seq<nat>): (ms: seq<nat>)
    ensures |ms| == |cuts| && forall j :: 0 <= j < |cuts| ==> ms[j] == i + cuts[j]
  {
    seq(|cuts|, j requires 0 <= j < |cuts| => i + cuts[j])
  }

  lemma PieceSound(re: Regex, limit: nat, w: string, cuts: seq<nat>, s: string, i: nat, left: bool, right: bool, j: nat)
    requires re.Concat? && j < |re.subs| && IsCut(re, 0, limit, w, cuts) && cuts[0] == 0
    requires AnchorsOutside(re.subs[j], left && j == 0, right && j == |re.subs| - 1) && Stands(w, s, i, left, right)
    ensures Hop(re, 0, s, Shift(i, cuts), j)
    decreases re, 0, 0
  {
    assert PieceListed(re, 0, limit, w, cuts, j);
    StandsInside(w, cuts[j], cuts[j + 1], s, i, left, right);
    EnumerationIsSound(re.subs[j], limit, w[cuts[j]..cuts[j + 1]], s, i + cuts[j], left && j == 0, right && j == |re.subs| - 1);
  }

  lemma ConcatSound(re: Regex, limit: nat, w: string, s: string, i: nat, left: bool, right: bool)
    requires re.Concat? && EnumConcat(re, 0, [""], limit).Some? && w in EnumConcat(re, 0, [""], limit).value
    requires AnchorsOutside(re, left, right) && Stands(w, s, i, left, right)
    ensures i + |w| in EndsFrom(re, 0, s, i)
    decreases re, 1
  {
    var cuts := CutOfListed(re, 0, [""], limit, w);
    assert cuts[0] == 0 && cuts[|re.subs|] == |w|;
    PiecesSound(re, limit, w, cuts, s, i, left, right);
    EndOfChain(re, 0, s, Shift(i, cuts));
  }

  lemma PiecesSound(re: Regex, limit: nat, w: string, cuts: seq<nat>, s: string, i: nat, left: bool, right: bool)
    requires re.Concat? && IsCut(re, 0, limit, w, cuts) && cuts[0] == 0
    requires AnchorsOutside(re, left, right) && Stands(w, s, i, left, right)
    ensures IsChain(re, 0, s, Shift(i, cuts))
    decreases re, 0, 1
  {
    forall j | 0 <= j < |re.subs| ensures Hop(re, 0, s, Shift(i, cuts), j) {
      PieceSound(re, limit, w, cuts, s, i, left, right, j);
    }
  }

  lemma {:induction false} AlternateSound(re: Regex, k: nat, out: seq<string>, limit: nat, w: string, s: string, i: nat, left: bool, right: bool)
    requires re.Alternate? && k <= |re.subs| && EnumAlternate(re, k, out, limit).Some?
    requires AnchorsOutside(re, left, right) && w in EnumAlternate(re, k, out, limit).value && Stands(w, s, i, left, right)
    ensures w in out || i + |w| in EndsOfAny(re, k, s, i)
    decreases re, 1, |re.subs| - k
  {
    if k < |re.subs| {
      var part := Enum(re.subs[k], limit).value;
      AlternateSound(re, k + 1, out + part, limit, w, s, i, left, right);
      if w in part { EnumerationIsSound(re.subs[k], limit, w, s, i, left, right); }
    }
  }

  lemma ListedConcat(re: Regex, limit: nat, w: string)
    requires re.Concat? && Listed(re, limit, w)
    ensures EnumConcat(re, 0, [""], limit).Some? && w in EnumConcat(re, 0, [""], limit).value
  {
    UniqueMembers(EnumConcat(re, 0, [""], limit).value);
  }

  lemma ListedAlternate(re: Regex, limit: nat, w: string)
    requires re.Alternate? && Listed(re, limit, w)
    ensures EnumAlternate(re, 0, [], limit).Some? && w in EnumAlternate(re, 0, [], limit).value
  {
    UniqueMembers(EnumAlternate(re, 0, [], limit).value);
  }

  lemma ListedQuest(re: Regex, limit: nat, w: string)
    requires re.Quest? && Listed(re, limit, w)
    ensures w == "" || Listed(re.sub, limit, w)
  {
    UniqueMembers(Enum(re.sub, limit).value + [""]);
  }

  lemma SoundLeaf(re: Regex, limit: nat, w: string, s: string, i: nat, left: bool, right: bool)
    requires !re.Capture? && !re.Concat? && !re.Alternate? && !re.Quest?
    requires Listed(re, limit, w) && AnchorsOutside(re, left, right) && Stands(w, s, i, left, right)
    ensures i + |w| in Ends(re, s, i)
  {}

  /** With anchors only at the outer ends every listed string is matched wherever it
      stands at those ends. */
  lemma {:induction false} EnumerationIsSound(re: Regex, limit: nat, w: string, s: string, i: nat, left: bool, right: bool)
    requires Listed(re, limit, w) && AnchorsOutside(re, left, right) && Stands(w, s, i, left, right)
    ensures i + |w| in Ends(re, s, i)
    decreases re, 2
  {
    match re
    case Capture(sub) => EnumerationIsSound(sub, limit, w, s, i, left, right);
    case Concat(subs) =>
      ListedConcat(re, limit, w);
      ConcatSound(re, limit, w, s, i, left, right);
    case Alternate(subs) =>
      ListedAlternate(re, limit, w);
      AlternateSound(re, 0, [], limit, w, s, i, left, right);
    case Quest(sub, _) =>
      ListedQuest(re, limit, w);
      if w != "" { EnumerationIsSound(sub, limit, w, s, i, left, right); }
    case _ => SoundLeaf(re, limit, w, s, i, left, right);
  }

  /** The enumeration is exactly the language of the pattern. */
  lemma EnumerationIsExact(re: Regex, limit: nat, w: string)
    requires Enum(re, limit).Some? && AnchorsOutside(re, true, true)
    ensures w in Enum(re, limit).value <==> InLanguage(re, w)
  {
    assert w[0..|w|] == w;
    if InLanguage(re, w) { EnumerationIsComplete(re, limit, w, 0, |w|); }
    if w in Enum(re, limit).value { EnumerationIsSound(re, limit, w, w, 0, true, true); }
  }

  // ---- the full match of the scope ----

  /** One way of matching: the text, and whether `^` must stand before and `$` after it. */
  datatype Entry = Entry(text: string, left: bool, right: bool)

  /** All ways of matching, most preferred first. */
  function Entries(re: Regex): seq<Entry>
    decreases re, Arity(re) + 1
  {
    match re
    case Empty => [Entry("", false, false)]
    case Begin => [Entry("", true, false)]
    case End => [Entry("", false, true)]
    case Literal(w) => [Entry(w, false, false)]
    case Capture(sub) => Entries(sub)
    case Concat(subs) => EntriesFrom(re, 0)
    case Alternate(subs) => EntriesOfAny(re, 0)
    case Quest(sub, greedy) => if greedy then Entries(sub) + [Entry("", false, false)] else [Entry("", false, false)] + Entries(sub)
    case Other => []
  }

  function EntriesFrom(re: Regex, k: nat): seq<Entry>
    requires re.Concat? && k <= |re.subs|
    decreases re, |re.subs| - k
  {
    if k == |re.subs| then [Entry("", false, false)] else Join(Entries(re.subs[k]), EntriesFrom(re, k + 1))
  }

  function EntriesOfAny(re: Regex, k: nat): seq<Entry>
    requires re.Alternate? && k <= |re.subs|
    decreases re, |re.subs| - k
  {
    if k == |re.subs| then [] else Entries(re.subs[k]) + EntriesOfAny(re, k + 1)
  }

  /** Nothing can stand before `^` or after `$`. */
  predicate Joins(x: Entry, y: Entry) {
    (y.left ==> x.text == "") && (x.right ==> y.text == "")
  }

  function JoinOne(x: Entry, y: Entry): seq<Entry> {
    if Joins(x, y) then [Entry(x.text + y.text, x.left || y.left, x.right || y.right)] else []
  }

  function JoinEach(x: Entry, ys: seq<Entry>): seq<Entry> {
    if ys == [] then [] else JoinOne(x, ys[0]) + JoinEach(x, ys[1..])
  }

  function Join(xs: seq<Entry>, ys: seq<Entry>): seq<Entry> {
    if xs == [] then [] else JoinEach(xs[0], ys) + Join(xs[1..], ys)
  }

  predicate StandsAt(e: Entry, s: string, i: nat) {
    Stands(e.text, s, i, e.left, e.right)
  }

  /** The ends of the entries that stand in `s` at `i`. */
  function Select(es: seq<Entry>, s: string, i: nat): seq<nat> {
    if es == [] then [] else (if StandsAt(es[0], s, i) then [i + |es[0].text|] else []) + Select(es[1..], s, i)
  }

  lemma {:induction false} SelectConcat(a: seq<Entry>, b: seq<Entry>, s: string, i: nat)
    ensures Select(a + b, s, i) == Select(a, s, i) + Select(b, s, i)
  {
    if a == [] {
      assert a + b == b;
    } else {
      assert (a + b)[1..] == a[1..] + b;
      SelectConcat(a[1..], b, s, i);
    }
  }

  lemma TextsJoin(a: string, b: string, s: string, i: nat)
    requires i + |a| + |b| <= |s|
    ensures s[i..i + |a| + |b|] == a + b <==> s[i..i + |a|] == a && s[i + |a|..i + |a| + |b|] == b
  {
    var m, e := i + |a|, i + |a| + |b|;
    var whole := s[i..e];
    assert whole == s[i..m] + s[m..e];
    if whole == a + b {
      assert whole[..|a|] == a && whole[|a|..] == b;
      assert whole[..|a|] == s[i..m] && whole[|a|..] == s[m..e];
    }
  }

  lemma JoinedStands(x: Entry, y: Entry, s: string, i: nat)
    requires Joins(x, y)
    ensures StandsAt(Entry(x.text + y.text, x.left || y.left, x.right || y.right), s, i)
            <==> StandsAt(x, s, i) && StandsAt(y, s, i + |x.text|)
  {
    if i + |x.text| + |y.text| <= |s| {
      TextsJoin(x.text, y.text, s, i);
    }
  }

  lemma UnjoinedStands(x: Entry, y: Entry, s: string, i: nat)
    requires !Joins(x, y) && StandsAt(x, s, i)
    ensures !StandsAt(y, s, i + |x.text|)
  {}

  lemma SelectJoinOne(x: Entry, y: Entry, s: string, i: nat)
    ensures Select(JoinOne(x, y), s, i)
            == if StandsAt(x, s, i) && StandsAt(y, s, i + |x.text|) then [i + |x.text| + |y.text|] else []
  {
    if Joins(x, y) {
      SelectOne(Entry(x.text + y.text, x.left || y.left, x.right || y.right), s, i);
      JoinedStands(x, y, s, i);
    } else if StandsAt(x, s, i) {
      UnjoinedStands(x, y, s, i);
    }
  }

  lemma {:induction false} SelectJoinEach(x: Entry, ys: seq<Entry>, s: string, i: nat)
    ensures Select(JoinEach(x, ys), s, i) == if StandsAt(x, s, i) then Select(ys, s, i + |x.text|) else []
  {
    if ys != [] {
      SelectJoinEach(x, ys[1..], s, i);
      SelectJoinOne(x, ys[0], s, i);
      SelectConcat(JoinOne(x, ys[0]), JoinEach(x, ys[1..]), s, i);
      if StandsAt(x, s, i) { SelectFirst(ys, s, i + |x.text|); }
    }
  }

  lemma SelectFirst(ys: seq<Entry>, s: string, i: nat)
    requires ys != []
    ensures Select(ys, s, i) == (if StandsAt(ys[0], s, i) then [i + |ys[0].text|] else []) + Select(ys[1..], s, i)
  {}

  lemma SelectOne(e: Entry, s: string, i: nat)
    ensures Select([e], s, i) == if StandsAt(e, s, i) then [i + |e.text|] else []
  {
    assert [e][1..] == [];
  }

  lemma {:induction false} EndsAfterJoin(re: Regex, k: nat, s: string, i: nat, xs: seq<Entry>)
    requires re.Concat? && k <= |re.subs| && i <= |s|
    ensures EndsAfter(re, k, s, Select(xs, s, i)) == Select(Join(xs, EntriesFrom(re, k)), s, i)
    decreases re, |re.subs| - k, 1, |xs|
  {
    if xs != [] {
      var x, rest := xs[0], xs[1..];
      EndsAfterJoin(re, k, s, i, rest);
      if StandsAt(x, s, i) { EndsFromPreferred(re, k, s, i + |x.text|); }
      assert xs == [x] + rest;
      EndsAfterNext(re, k, s, i, x, rest, EntriesFrom(re, k));
    }
  }

  lemma EndsAfterNext(re: Regex, k: nat, s: string, i: nat, x: Entry, rest: seq<Entry>, ys: seq<Entry>)
    requires re.Concat? && k <= |re.subs|
    requires EndsAfter(re, k, s, Select(rest, s, i)) == Select(Join(rest, ys), s, i)
    requires StandsAt(x, s, i) ==> EndsFrom(re, k, s, i + |x.text|) == Select(ys, s, i + |x.text|)
    ensures EndsAfter(re, k, s, Select([x] + rest, s, i)) == Select(Join([x] + rest, ys), s, i)
  {
    SelectJoinStep(x, rest, ys, s, i);
    if StandsAt(x, s, i) {
      EndsAfterFirst(re, k, s, i + |x.text|, Select(rest, s, i));
    }
  }

  lemma SelectJoinStep(x: Entry, rest: seq<Entry>, ys: seq<Entry>, s: string, i: nat)
    ensures Select([x] + rest, s, i) == (if StandsAt(x, s, i) then [i + |x.text|] + Select(rest, s, i) else Select(rest, s, i))
    ensures Select(Join([x] + rest, ys), s, i)
            == (if StandsAt(x, s, i) then Select(ys, s, i + |x.text|) + Select(Join(rest, ys), s, i) else Select(Join(rest, ys), s, i))
  {
    assert ([x] + rest)[1..] == rest;
    SelectConcat(JoinEach(x, ys), Join(rest, ys), s, i);
    SelectJoinEach(x, ys, s, i);
  }

  lemma EndsAfterFirst(re: Regex, k: nat, s: string, start: nat, rest: seq<nat>)
    requires re.Concat? && k <= |re.subs|
    ensures EndsAfter(re, k, s, [start] + rest) == EndsFrom(re, k, s, start) + EndsAfter(re, k, s, rest)
  {
    assert ([start] + rest)[1..] == rest;
  }

  lemma {:induction false} EndsFromPreferred(re: Regex, k: nat, s: string, i: nat)
    requires re.Concat? && k <= |re.subs| && i <= |s|
    ensures EndsFrom(re, k, s, i) == Select(EntriesFrom(re, k), s, i)
    decreases re, |re.subs| - k, 0, 0
  {
    if k == |re.subs| {
      SelectOne(Entry("", false, false), s, i);
    } else {
      EndsArePreferred(re.subs[k], s, i);
      EndsAfterJoin(re, k + 1, s, i, Entries(re.subs[k]));
    }
  }

  lemma {:induction false} EndsOfAnyPreferred(re: Regex, k: nat, s: string, i: nat)
    requires re.Alternate? && k <= |re.subs| && i <= |s|
    ensures EndsOfAny(re, k, s, i) == Select(EntriesOfAny(re, k), s, i)
    decreases re, |re.subs| - k, 0, 0
  {
    if k < |re.subs| {
      EndsArePreferred(re.subs[k], s, i);
      EndsOfAnyPreferred(re, k + 1, s, i);
      SelectConcat(Entries(re.subs[k]), EntriesOfAny(re, k + 1), s, i);
    }
  }

  /** Matching a finite pattern tries its entries in their order. */
  lemma {:induction false} EndsArePreferred(re: Regex, s: string, i: nat)
    requires i <= |s|
    ensures Ends(re, s, i) == Select(Entries(re), s, i)
    decreases re, Arity(re) + 1, 0, 0
  {
    match re
    case Capture(sub) => EndsArePreferred(sub, s, i);
    case Concat(subs) => EndsFromPreferred(re, 0, s, i);
    case Alternate(subs) => EndsOfAnyPreferred(re, 0, s, i);
    case Quest(sub, greedy) =>
      EndsArePreferred(sub, s, i);
      OptionalPreferred(Entries(sub), s, i);
    case _ => LeafPreferred(re, s, i);
  }

  lemma OptionalPreferred(es: seq<Entry>, s: string, i: nat)
    requires i <= |s|
    ensures Select(es + [Entry("", false, false)], s, i) == Select(es, s, i) + [i]
    ensures Select([Entry("", false, false)] + es, s, i) == [i] + Select(es, s, i)
  {
    NothingStands(s, i);
    SelectConcat(es, [Entry("", false, false)], s, i);
    SelectConcat([Entry("", false, false)], es, s, i);
  }

  lemma NothingStands(s: string, i: nat)
    requires i <= |s|
    ensures Select([Entry("", false, false)], s, i) == [i]
  {
    assert s[i..i] == "";
    SelectOne(Entry("", false, false), s, i);
  }

  lemma LeafPreferred(re: Regex, s: string, i: nat)
    requires i <= |s| && !re.Capture? && !re.Concat? && !re.Alternate? && !re.Quest?
    ensures Ends(re, s, i) == Select(Entries(re), s, i)
  {
    if !re.Other? { SelectOne(Entries(re)[0], s, i); }
  }

  /** An entry that is a proper prefix of `w` without `$` behind it. */
  predicate Blocks(e: Entry, w: string) {
    !e.right && |e.text| < |w| && e.text <= w
  }

  /** Entry `k` is `w`, and nothing before it stops the match earlier. */
  predicate Leads(es: seq<Entry>, w: string, k: nat) {
    k < |es| && es[k].text == w && forall j :: 0 <= j < k ==> !Blocks(es[j], w)
  }

  lemma StandsAtStart(e: Entry, w: string)
    ensures StandsAt(e, w, 0) <==> e.text == w || Blocks(e, w)
  {
    if |e.text| <= |w| { assert w[0..|e.text|] == w[..|e.text|]; }
    if |e.text| == |w| { assert w[..|e.text|] == w; }
  }

  lemma {:induction false} FirstOfSelect(es: seq<Entry>, w: string)
    ensures Select(es, w, 0) != [] && Select(es, w, 0)[0] == |w| <==> exists k: nat :: Leads(es, w, k)
  {
    if es != [] {
      StandsAtStart(es[0], w);
      FirstOfSelect(es[1..], w);
      if es[0].text == w {
        assert Leads(es, w, 0);
      } else if !Blocks(es[0], w) {
        if k: nat :| Leads(es[1..], w, k) {
          assert Leads(es, w, k + 1) by {
            forall j | 0 <= j < k + 1 ensures !Blocks(es[j], w) { if j > 0 { assert es[j] == es[1..][j - 1]; } }
          }
        }
        if k: nat :| Leads(es, w, k) {
          assert Leads(es[1..], w, k - 1);
        }
      } else {
        forall k: nat ensures !Leads(es, w, k) {}
      }
    }
  }

  /** A string is matched in full exactly if it is an entry that no unanchored proper
      prefix of it precedes. */
  lemma FullIsLeading(re: Regex, w: string)
    ensures Full(re, w) <==> exists k: nat :: Leads(Entries(re), w, k)
  {
    EndsArePreferred(re, w, 0);
    FirstOfSelect(Entries(re), w);
  }

  lemma {:induction false} LengthInSelect(es: seq<Entry>, w: string)
    ensures |w| in Select(es, w, 0) <==> exists k :: 0 <= k < |es| && es[k].text == w
  {
    if es != [] {
      StandsAtStart(es[0], w);
      LengthInSelect(es[1..], w);
      if k :| 0 <= k < |es| && es[k].text == w && k > 0 {
        assert es[1..][k - 1].text == w;
      }
      if k :| 0 <= k < |es[1..]| && es[1..][k].text == w {
        assert es[k + 1].text == w;
      }
    }
  }

  /** The scope's full match, on the list. What it matches is listed; with anchors at the
      outer ends the list has the texts of the entries, and a listed string is matched in
      full exactly if it leads them. */
  lemma EnumerationDecidesFull(re: Regex, limit: nat, w: string)
    requires Enum(re, limit).Some?
    ensures Full(re, w) <==> w in Enum(re, limit).value && exists k: nat :: Leads(Entries(re), w, k)
    ensures AnchorsOutside(re, true, true) ==>
      (w in Enum(re, limit).value <==> exists k :: 0 <= k < |Entries(re)| && Entries(re)[k].text == w)
  {
    FullIsLeading(re, w);
    EndsArePreferred(re, w, 0);
    LengthInSelect(Entries(re), w);
    assert w[0..|w|] == w;
    if InLanguage(re, w) { EnumerationIsComplete(re, limit, w, 0, |w|); }
    if AnchorsOutside(re, true, true) { EnumerationIsExact(re, limit, w); }
  }

  /** The first entry with its text. */
  predicate IsFirst(es: seq<Entry>, k: nat) {
    k < |es| && forall j :: 0 <= j < k ==> es[j].text != es[k].text
  }

  /** No entry follows an unanchored proper prefix of itself, unless it came before. */
  ghost predicate Unblocked(es: seq<Entry>) {
    forall k: nat, j: nat :: IsFirst(es, k) && j < k ==> !Blocks(es[j], es[k].text)
  }

  lemma {:induction false} FirstEntry(es: seq<Entry>, k: nat) returns (f: nat)
    requires k < |es|
    ensures f <= k && es[f].text == es[k].text && IsFirst(es, f)
  {
    if IsFirst(es, k) {
      f := k;
    } else {
      var j: nat :| j < k && es[j].text == es[k].text;
      f := FirstEntry(es, j);
    }
  }

  /** With anchors at the outer ends, every listed string is matched in full exactly if no
      entry follows an unanchored proper prefix of itself. */
  lemma ListIsMatchedInFull(re: Regex, limit: nat)
    requires Enum(re, limit).Some? && AnchorsOutside(re, true, true)
    ensures (forall w :: w in Enum(re, limit).value ==> Full(re, w)) <==> Unblocked(Entries(re))
  {
    var es, list := Entries(re), Enum(re, limit).value;
    if Unblocked(es) {
      forall w | w in list ensures Full(re, w) {
        EnumerationDecidesFull(re, limit, w);
        var k: nat :| k < |es| && es[k].text == w;
        var f := FirstEntry(es, k);
        assert Leads(es, w, f);
      }
    }
    if forall w :: w in list ==> Full(re, w) {
      forall k: nat, j: nat | IsFirst(es, k) && j < k ensures !Blocks(es[j], es[k].text) {
        EnumerationDecidesFull(re, limit, es[k].text);
        var l: nat :| Leads(es, es[k].text, l);
        assert k <= l;
      }
    }
  }

  lemma EntryIsListed(re: Regex, limit: nat, k: nat)
    requires Enum(re, limit).Some? && AnchorsOutside(re, true, true) && k < |Entries(re)|
    ensures Entries(re)[k].text in Enum(re, limit).value
  {
    EnumerationDecidesFull(re, limit, Entries(re)[k].text);
    assert exists j :: 0 <= j < |Entries(re)| && Entries(re)[j].text == Entries(re)[k].text;
  }

  ghost predicate PrefixFree(list: seq<string>) {
    forall u, w :: u in list && w in list && u <= w ==> u == w
  }

  /** In particular where no listed string is a proper prefix of another. */
  lemma PrefixFreeIsMatched(re: Regex, limit: nat)
    requires Enum(re, limit).Some? && AnchorsOutside(re, true, true) && PrefixFree(Enum(re, limit).value)
    ensures forall w :: w in Enum(re, limit).value <==> Full(re, w)
  {
    var es, list := Entries(re), Enum(re, limit).value;
    forall k: nat, j: nat | IsFirst(es, k) && j < k ensures !Blocks(es[j], es[k].text) {
      EntryIsListed(re, limit, k);
      EntryIsListed(re, limit, j);
    }
    ListIsMatchedInFull(re, limit);
    forall w ensures w in list <==> Full(re, w) {
      EnumerationDecidesFull(re, limit, w);
    }
  }

  /** `http|https` as it is parsed, with its common prefix factored out: it lists `https`,
      prefers the match `http`, and so does not match `https` in full. */
  lemma LeftmostFirstIsNotMembership()
    ensures var re := Concat([Literal("http"), Alternate([Empty, Literal("s")])]);
            Entries(re) == [Entry("http", false, false), Entry("https", false, false)]
            && InLanguage(re, "https") && !Full(re, "https") && !Unblocked(Entries(re))
  {
    var none, letter := Entry("", false, false), Entry("s", false, false);
    var alt := Alternate([Empty, Literal("s")]);
    var re := Concat([Literal("http"), alt]);
    assert EntriesOfAny(alt, 2) == [] && EntriesOfAny(alt, 1) == [letter];
    assert Entries(alt) == [none] + [letter] == [none, letter];
    TwoEntries(re, [none, letter]);
    assert "http" + "" == "http" && "http" + "s" == "https" && "http" <= "https";
    assert Blocks(Entries(re)[0], "https") && IsFirst(Entries(re), 1);
    forall k: nat ensures !Leads(Entries(re), "https", k) {}
    FullIsLeading(re, "https");
    EndsArePreferred(re, "https", 0);
    assert Entries(re)[1].text == "https";
    LengthInSelect(Entries(re), "https");
  }

  /** `https?` lists the same strings in the other order, and matches both in full. */
  lemma LongerFirstIsMembership()
    ensures var re := Concat([Literal("http"), Quest(Literal("s"), true)]);
            Entries(re) == [Entry("https", false, false), Entry("http", false, false)]
            && Full(re, "https") && Full(re, "http") && Unblocked(Entries(re))
  {
    var none, letter := Entry("", false, false), Entry("s", false, false);
    var re := Concat([Literal("http"), Quest(Literal("s"), true)]);
    assert Entries(Quest(Literal("s"), true)) == [letter] + [none] == [letter, none];
    TwoEntries(re, [letter, none]);
    assert "http" + "" == "http" && "http" + "s" == "https";
    assert Leads(Entries(re), "https", 0) && Leads(Entries(re), "http", 1);
    FullIsLeading(re, "https");
    FullIsLeading(re, "http");
  }

  lemma TwoEntries(re: Regex, ys: seq<Entry>)
    requires re.Concat? && |re.subs| == 2 && re.subs[0] == Literal("http") && Entries(re.subs[1]) == ys && |ys| == 2
    requires forall k :: 0 <= k < 2 ==> !ys[k].left && !ys[k].right
    ensures Entries(re) == [Entry("http" + ys[0].text, false, false), Entry("http" + ys[1].text, false, false)]
  {
    var none, http := Entry("", false, false), Entry("http", false, false);
    assert EntriesFrom(re, 2) == [none];
    JoinNone(ys);
    assert EntriesFrom(re, 1) == ys;
    assert Entries(re.subs[0]) == [http] && [http][1..] == [];
    assert JoinEach(http, ys[2..]) == [] && ys[1..][1..] == ys[2..];
    assert JoinEach(http, ys[1..]) == [Entry("http" + ys[1].text, false, false)];
    assert JoinEach(http, ys) == [Entry("http" + ys[0].text, false, false)] + [Entry("http" + ys[1].text, false, false)];
    assert Join([http], ys) == JoinEach(http, ys) + [];
  }

  lemma {:induction false} JoinNone(ys: seq<Entry>)
    ensures Join(ys, [Entry("", false, false)]) == ys
  {
    var none := Entry("", false, false);
    if ys != [] {
      JoinNone(ys[1..]);
      assert ys[0].text + "" == ys[0].text;
      assert [none][1..] == [] && JoinEach(ys[0], [none]) == [ys[0]] + [];
    }
  }
}
