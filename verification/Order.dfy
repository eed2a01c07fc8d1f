/** Orders and sorting: what the Go library calls `sort.Strings` and `sort.Slice`
    guarantee, and when a sorted sequence is determined by its elements alone. */
module Order {

  /** The strict lexicographic order of strings. */
  predicate StrLess(a: string, b: string) {
    if |b| == 0 then false
    else if |a| == 0 then true
    else if a[0] != b[0] then a[0] < b[0]
    else StrLess(a[1..], b[1..])
  }

  /** The strings part at `k`, where `a` has the smaller character. */
  predicate PartsAt(a: string, b: string, k: nat) {
    k < |a| && k < |b| && a[..k] == b[..k] && a[k] < b[k]
  }

  lemma PartsLater(a: string, b: string, k: nat)
    requires a != "" && b != "" && a[0] == b[0]
    ensures PartsAt(a[1..], b[1..], k) <==> PartsAt(a, b, k + 1)
  {
    if k < |a| - 1 && k < |b| - 1 {
      assert a[..k + 1] == [a[0]] + a[1..][..k] && b[..k + 1] == [b[0]] + b[1..][..k];
      assert a[1..][..k] == a[..k + 1][1..] && b[1..][..k] == b[..k + 1][1..];
    }
  }

  lemma PartsFirst(a: string, b: string, k: nat)
    requires a != "" && b != "" && PartsAt(a, b, k)
    ensures if a[0] == b[0] then k >= 1 else a[0] < b[0]
  {
    if k > 0 { assert a[..k][0] == a[0] && b[..k][0] == b[0]; }
  }

  /** It is the order of the dictionary: by the first character that differs, and with a
      string before its continuations. */
  lemma {:induction false} StrLessIsDictionaryOrder(a: string, b: string)
    ensures StrLess(a, b) <==> a < b || exists k: nat :: PartsAt(a, b, k)
  {
    if a != "" && b != "" {
      if k: nat :| PartsAt(a, b, k) {
        PartsFirst(a, b, k);
        if a[0] == b[0] { PartsLater(a, b, k - 1); }
      }
      if a[0] == b[0] {
        StrLessIsDictionaryOrder(a[1..], b[1..]);
        assert a == [a[0]] + a[1..] && b == [b[0]] + b[1..];
        if k: nat :| PartsAt(a[1..], b[1..], k) { PartsLater(a, b, k); }
      } else if a[0] < b[0] {
        assert PartsAt(a, b, 0);
      }
    }
  }

  /** A strict order that is total on the elements of `s`. */
  ghost predicate TotalOn<T(!new)>(less: (T, T) -> bool, s: set<T>) {
    && (forall x :: x in s ==> !less(x, x))
    && (forall x, y :: x in s && y in s && x != y ==> less(x, y) || less(y, x))
    && (forall x, y, z :: x in s && y in s && z in s && less(x, y) && less(y, z) ==> less(x, z))
  }

  /** What a sort needs of its comparison: a strict weak order on the elements of `s`. */
  ghost predicate WeakOn<T(!new)>(less: (T, T) -> bool, s: set<T>) {
    && (forall x, y :: x in s && y in s && less(x, y) ==> !less(y, x))
    && (forall x, y, z :: x in s && y in s && z in s && !less(x, y) && !less(y, z) ==> !less(x, z))
  }

  lemma TotalIsWeak<T(!new)>(less: (T, T) -> bool, s: set<T>)
    requires TotalOn(less, s)
    ensures WeakOn(less, s)
  {}

  function Elements<T>(s: seq<T>): set<T> {
    set x | x in s
  }

  predicate SortedBy<T>(less: (T, T) -> bool, s: seq<T>) {
    forall i, j :: 0 <= i < j < |s| ==> !less(s[j], s[i])
  }

  function Insert<T>(less: (T, T) -> bool, x: T, s: seq<T>): (r: seq<T>)
    ensures multiset(r) == multiset{x} + multiset(s)
    ensures |r| == |s| + 1
  {
    if s == [] || !less(s[0], x) then
      [x] + s
    else
      assert s == [s[0]] + s[1..];
      [s[0]] + Insert(less, x, s[1..])
  }

  /** The library sorts, seen from outside: some ordering of the same elements. */
  function SortBy<T>(less: (T, T) -> bool, s: seq<T>): (r: seq<T>)
    ensures multiset(r) == multiset(s)
    ensures |r| == |s|
  {
    if s == [] then [] else
      assert s == [s[0]] + s[1..];
      Insert(less, s[0], SortBy(less, s[1..]))
  }

  function SortStrings(s: seq<string>): (r: seq<string>)
    ensures multiset(r) == multiset(s) && |r| == |s|
  {
    SortBy(StrLess, s)
  }

  lemma {:induction false} StrLessIrreflexive(a: string)
    ensures !StrLess(a, a)
  {
    if a != [] { StrLessIrreflexive(a[1..]); }
  }

  lemma {:induction false} StrLessTotal(a: string, b: string)
    requires a != b
    ensures StrLess(a, b) || StrLess(b, a)
  {
    if a != [] && b != [] && a[0] == b[0] {
      assert a == [a[0]] + a[1..] && b == [b[0]] + b[1..];
      StrLessTotal(a[1..], b[1..]);
    }
  }

  lemma {:induction false} StrLessTransitive(a: string, b: string, c: string)
    requires StrLess(a, b) && StrLess(b, c)
    ensures StrLess(a, c)
  {
    if a != [] && a[0] == b[0] && b[0] == c[0] {
      StrLessTransitive(a[1..], b[1..], c[1..]);
    }
  }

  lemma StringsTotal(s: set<string>)
    ensures TotalOn(StrLess, s)
  {
    forall x | x in s ensures !StrLess(x, x) { StrLessIrreflexive(x); }
    forall x, y | x in s && y in s && x != y ensures StrLess(x, y) || StrLess(y, x) { StrLessTotal(x, y); }
    forall x, y, z | x in s && y in s && z in s && StrLess(x, y) && StrLess(y, z) ensures StrLess(x, z) {
      StrLessTransitive(x, y, z);
    }
  }

  lemma SameElements<T>(a: seq<T>, b: seq<T>)
    requires multiset(a) == multiset(b)
    ensures Elements(a) == Elements(b)
    ensures forall x :: x in a <==> x in b
  {
    forall x ensures x in a <==> x in b {
      assert x in a <==> x in multiset(a);
      assert x in b <==> x in multiset(b);
    }
  }

  ghost predicate NoDuplicates<T>(s: seq<T>) {
    forall i, j :: 0 <= i < j < |s| ==> s[i] != s[j]
  }

  lemma PermutedDistinct<T(!new)>(a: seq<T>, b: seq<T>)
    requires NoDuplicates(a) && multiset(a) == multiset(b)
    ensures NoDuplicates(b)
  {
    forall i, j | 0 <= i < j < |b| ensures b[i] != b[j] {
      if b[i] == b[j] {
        assert b == b[..i] + [b[i]] + b[i + 1..j] + [b[j]] + b[j + 1..];
        assert multiset(a)[b[i]] >= 2;
        OnceOnly(a, b[i]);
      }
    }
  }

  lemma {:induction false} OnceOnly<T>(a: seq<T>, x: T)
    requires NoDuplicates(a)
    ensures multiset(a)[x] <= 1
  {
    if a != [] {
      assert a == [a[0]] + a[1..];
      OnceOnly(a[1..], x);
      if a[0] == x { assert x !in a[1..]; }
    }
  }

  lemma SameSetSameMultiset<T>(a: seq<T>, b: seq<T>)
    requires NoDuplicates(a) && NoDuplicates(b) && Elements(a) == Elements(b)
    ensures multiset(a) == multiset(b)
  {
    forall x: T ensures multiset(a)[x] == multiset(b)[x] {
      OnceOnly(a, x);
      OnceOnly(b, x);
      assert x in multiset(a) <==> x in Elements(a);
      assert x in multiset(b) <==> x in Elements(b);
    }
  }

  lemma SortedCons<T>(less: (T, T) -> bool, x: T, s: seq<T>)
    requires SortedBy(less, s)
    requires forall y :: y in s ==> !less(y, x)
    ensures SortedBy(less, [x] + s)
  {}

  lemma {:induction false} InsertSorted<T(!new)>(less: (T, T) -> bool, x: T, s: seq<T>)
    requires SortedBy(less, s)
    requires WeakOn(less, {x} + Elements(s))
    ensures SortedBy(less, Insert(less, x, s))
  {
    if s == [] {
    } else if !less(s[0], x) {
      forall y | y in s ensures !less(y, x) {
        var k :| 0 <= k < |s| && s[k] == y;
        assert k == 0 || !less(s[k], s[0]);
        assert {x, y, s[0]} <= {x} + Elements(s);
      }
      SortedCons(less, x, s);
    } else {
      var rest := s[1..];
      assert Elements(rest) <= Elements(s);
      InsertSorted(less, x, rest);
      var t := Insert(less, x, rest);
      forall y | y in t ensures !less(y, s[0]) {
        assert y in multiset(t);
        if y == x {
          assert {x, s[0]} <= {x} + Elements(s);
          assert !less(x, s[0]);
        } else {
          assert y in rest;
        }
      }
      SortedCons(less, s[0], t);
    }
  }

  lemma {:induction false} SortBySorted<T(!new)>(less: (T, T) -> bool, s: seq<T>)
    requires WeakOn(less, Elements(s))
    ensures SortedBy(less, SortBy(less, s))
  {
    if s != [] {
      var rest := s[1..];
      assert Elements(rest) <= Elements(s);
      SortBySorted(less, rest);
      SameElements(rest, SortBy(less, rest));
      assert {s[0]} + Elements(rest) <= Elements(s);
      InsertSorted(less, s[0], SortBy(less, rest));
    }
  }

  lemma SameHead<T(!new)>(less: (T, T) -> bool, a: seq<T>, b: seq<T>)
    requires a != [] && b != []
    requires SortedBy(less, a) && SortedBy(less, b)
    requires multiset(a) == multiset(b)
    requires TotalOn(less, Elements(a))
    ensures a[0] == b[0]
  {
    SameElements(a, b);
    assert a[0] in b && b[0] in a;
    var i :| 0 <= i < |b| && b[i] == a[0];
    var j :| 0 <= j < |a| && a[j] == b[0];
    assert i == 0 || !less(b[i], b[0]);
    assert j == 0 || !less(a[j], a[0]);
  }

  /** A sorted sequence over a total order is determined by its elements: no sort
      algorithm, stable or not, and no input order can give another result. */
  lemma {:induction false} SortedUnique<T(!new)>(less: (T, T) -> bool, a: seq<T>, b: seq<T>)
    requires SortedBy(less, a) && SortedBy(less, b)
    requires multiset(a) == multiset(b)
    requires TotalOn(less, Elements(a))
    ensures a == b
  {
    if a == [] || b == [] {
      assert |multiset(a)| == |a| && |multiset(b)| == |b|;
    } else {
      SameHead(less, a, b);
      var x, restA, restB := a[0], a[1..], b[1..];
      assert a == [x] + restA && b == [x] + restB;
      assert multiset(restA) == multiset(a) - multiset{x};
      assert multiset(restB) == multiset(b) - multiset{x};
      assert Elements(restA) <= Elements(a);
      SortedUnique(less, restA, restB);
    }
  }

  /** Sorting forgets the order in which the elements were given. */
  lemma SortOrderInsensitive<T(!new)>(less: (T, T) -> bool, a: seq<T>, b: seq<T>)
    requires multiset(a) == multiset(b)
    requires TotalOn(less, Elements(a))
    ensures SortBy(less, a) == SortBy(less, b)
  {
    SameElements(a, b);
    TotalIsWeak(less, Elements(a));
    SortBySorted(less, a);
    SortBySorted(less, b);
    SameElements(a, SortBy(less, a));
    SortedUnique(less, SortBy(less, a), SortBy(less, b));
  }

  lemma SortStringsOrderInsensitive(a: seq<string>, b: seq<string>)
    requires multiset(a) == multiset(b)
    ensures SortStrings(a) == SortStrings(b)
    ensures SortedBy(StrLess, SortStrings(a))
  {
    StringsTotal(Elements(a));
    SortOrderInsensitive(StrLess, a, b);
    TotalIsWeak(StrLess, Elements(a));
    SortBySorted(StrLess, a);
  }

  lemma {:induction false} SubsetSize<T>(a: set<T>, b: set<T>)
    requires a <= b
    ensures |a| <= |b|
  {
    if a != {} {
      var x :| x in a;
      SubsetSize(a - {x}, b - {x});
    }
  }
}
