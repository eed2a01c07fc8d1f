/** Small facts about strings: suffixes, and composite keys joined by a NUL. */
module Strings {

  predicate HasSuffix(s: string, suffix: string) {
    |suffix| <= |s| && s[|s| - |suffix|..] == suffix
  }

  predicate Separated(s: string) {
    '\0' !in s
  }

  function FirstSeparator(s: string): nat {
    if s == "" || s[0] == '\0' then 0 else 1 + FirstSeparator(s[1..])
  }

  lemma {:induction false} SeparatorAfter(prefix: string, rest: string)
    requires Separated(prefix)
    ensures FirstSeparator(prefix + "\0" + rest) == |prefix|
  {
    if prefix == "" {
      assert (prefix + "\0" + rest)[0] == '\0';
    } else {
      SeparatorAfter(prefix[1..], rest);
      assert (prefix + "\0" + rest)[1..] == prefix[1..] + "\0" + rest;
    }
  }

  /** A first part without separator can be read off the key. */
  lemma HeadAndTail(a: string, x: string, b: string, y: string)
    requires Separated(a) && Separated(b) && a + "\0" + x == b + "\0" + y
    ensures a == b && x == y
  {
    SeparatorAfter(a, x);
    SeparatorAfter(b, y);
    assert (a + "\0" + x)[..|a|] == a && (b + "\0" + y)[..|b|] == b;
    assert (a + "\0" + x)[|a| + 1..] == x && (b + "\0" + y)[|b| + 1..] == y;
  }
}
