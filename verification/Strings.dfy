/** The string search both terminal files rely on. */
module Strings {

  predicate OccursAt(s: string, pattern: string, i: int) {
    0 <= i && i + |pattern| <= |s| && s[i..i + |pattern|] == pattern
  }

  /** The first occurrence of `pattern` at or after `from`, or -1. */
  function IndexFrom(s: string, pattern: string, from: nat): (r: int)
    requires from <= |s|
    ensures r == -1 || (from <= r && OccursAt(s, pattern, r))
    ensures forall i :: from <= i < (if r == -1 then |s| else r) ==> !OccursAt(s, pattern, i)
    decreases |s| - from
  {
    if OccursAt(s, pattern, from) then from
    else if from == |s| then -1
    else IndexFrom(s, pattern, from + 1)
  }

  function IndexOf(s: string, pattern: string): (r: int)
    ensures r == -1 || OccursAt(s, pattern, r)
    ensures forall i :: 0 <= i < (if r == -1 then |s| else r) ==> !OccursAt(s, pattern, i)
  {
    IndexFrom(s, pattern, 0)
  }

  predicate EndsWith(s: string, suffix: string) {
    |suffix| <= |s| && s[|s| - |suffix|..] == suffix
  }

  lemma OccursInPrefix(a: string, b: string, pattern: string, i: int)
    requires i + |pattern| <= |a|
    ensures OccursAt(a + b, pattern, i) <==> OccursAt(a, pattern, i)
  {
    if 0 <= i {
      assert (a + b)[i..i + |pattern|] == a[i..i + |pattern|];
    }
  }

  lemma OccursInSuffix(a: string, b: string, pattern: string, i: int)
    requires |a| <= i
    ensures OccursAt(a + b, pattern, i) <==> OccursAt(b, pattern, i - |a|)
  {
    if i + |pattern| <= |a + b| {
      assert (a + b)[i..i + |pattern|] == b[i - |a|..i - |a| + |pattern|];
    }
  }

  /** More text after it does not move the first occurrence. */
  lemma IndexOfPrefix(a: string, b: string, pattern: string)
    requires IndexOf(a, pattern) != -1 && pattern != ""
    ensures IndexOf(a + b, pattern) == IndexOf(a, pattern)
  {
    var i := IndexOf(a, pattern);
    OccursInPrefix(a, b, pattern, i);
    forall k | 0 <= k < i
      ensures !OccursAt(a + b, pattern, k)
    {
      OccursInPrefix(a, b, pattern, k);
    }
  }

  /** Text before it that it does not reach into only shifts the first
      occurrence. */
  lemma IndexOfSuffix(a: string, b: string, pattern: string)
    requires pattern != "" && (IndexOf(a + b, pattern) == -1 || IndexOf(a + b, pattern) >= |a|)
    ensures IndexOf(b, pattern) == if IndexOf(a + b, pattern) == -1 then -1 else IndexOf(a + b, pattern) - |a|
  {
    var whole, part := IndexOf(a + b, pattern), IndexOf(b, pattern);
    if part != -1 {
      OccursInSuffix(a, b, pattern, part + |a|);
    }
    if whole != -1 {
      OccursInSuffix(a, b, pattern, whole);
    }
  }

  /** A text without the pattern has no part with it. */
  lemma AbsentInParts(a: string, b: string, pattern: string)
    requires IndexOf(a + b, pattern) == -1 && pattern != ""
    ensures IndexOf(a, pattern) == -1 && IndexOf(b, pattern) == -1
  {
    if IndexOf(a, pattern) != -1 {
      IndexOfPrefix(a, b, pattern);
    }
    IndexOfSuffix(a, b, pattern);
  }

  function Split(s: string, separator: char): (r: seq<string>)
    ensures |r| >= 1
  {
    if s == "" then [""]
    else
      var rest := Split(s[1..], separator);
      if s[0] == separator then [""] + rest else [[s[0]] + rest[0]] + rest[1..]
  }

  function Concat(parts: seq<string>): string {
    if parts == [] then "" else parts[0] + Concat(parts[1..])
  }

  lemma {:induction false} ConcatAppend(a: seq<string>, b: seq<string>)
    ensures Concat(a + b) == Concat(a) + Concat(b)
  {
    if a == [] {
      assert a + b == b;
    } else {
      assert (a + b)[0] == a[0] && (a + b)[1..] == a[1..] + b;
      ConcatAppend(a[1..], b);
    }
  }
}
