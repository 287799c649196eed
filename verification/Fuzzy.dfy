/** The greedy matcher of packages/pi-tui/src/fuzzy.ts.  Scores are real numbers;
    lower is better.  `Case` gives the lower-case form of a text and says which
    characters are white space. */
module Fuzzy {
  import opened StableSort

  datatype Match = Match(matches: bool, score: real)

  datatype Case = Case(lower: string -> string, isSpace: char -> bool)

  // ---- matching -------------------------------------------------------------------

  predicate IsBoundary(c: Case, text: string, i: nat)
    requires i < |text|
  {
    i == 0 || c.isSpace(text[i - 1]) || text[i - 1] in "-_./:"
  }

  /** The places where the greedy scan matches `query` from `from` on, as far as
      it gets: each character at its first occurrence after the one before. */
  function Places(query: string, text: string, from: nat): (r: seq<nat>)
    requires from <= |text|
    ensures |r| <= |query|
    ensures forall k :: 0 <= k < |r| ==> from <= r[k] < |text| && text[r[k]] == query[k]
    ensures forall j, k :: 0 <= j < k < |r| ==> r[j] < r[k]
    decreases |text| - from
  {
    if query == "" || from == |text| then []
    else if text[from] == query[0] then
      var rest := Places(query[1..], text, from + 1);
      assert forall k :: 0 < k <= |rest| ==> ([from] + rest)[k] == rest[k - 1];
      [from] + rest
    else Places(query, text, from + 1)
  }

  /** `at` are places in order where the characters of `query` stand. */
  ghost predicate Embeds(query: string, text: string, at: seq<nat>) {
    && |at| == |query|
    && (forall k :: 0 <= k < |at| ==> at[k] < |text| && text[at[k]] == query[k])
    && (forall j, k :: 0 <= j < k < |at| ==> at[j] < at[k])
  }

  ghost predicate IsSubsequence(query: string, text: string) {
    exists at :: Embeds(query, text, at)
  }

  lemma EmbedsTail(query: string, text: string, at: seq<nat>)
    requires query != "" && Embeds(query, text, at)
    ensures at != [] && Embeds(query[1..], text, at[1..]) && (at[1..] != [] ==> at[0] < at[1..][0])
  {
  }

  lemma PlacesAt(query: string, text: string, from: nat)
    requires query != "" && from < |text| && text[from] == query[0]
    ensures Places(query, text, from) == [from] + Places(query[1..], text, from + 1)
  {
  }

  /** The greedy scan finds every character, each no later than any other way
      of finding them all would. */
  lemma {:induction false} GreedyIsEarliest(query: string, text: string, from: nat, at: seq<nat>)
    requires from <= |text| && Embeds(query, text, at) && (at != [] ==> from <= at[0])
    ensures |Places(query, text, from)| == |query|
    ensures forall k :: 0 <= k < |query| ==> Places(query, text, from)[k] <= at[k]
    decreases |text| - from
  {
    if query != "" {
      if text[from] == query[0] {
        EmbedsTail(query, text, at);
        GreedyIsEarliest(query[1..], text, from + 1, at[1..]);
        hide Embeds;
        PlacesAt(query, text, from);
        var places := Places(query[1..], text, from + 1);
        forall k | 0 < k < |query|
          ensures Places(query, text, from)[k] <= at[k]
        {
          assert places[k - 1] <= at[1..][k - 1];
        }
      } else {
        GreedyIsEarliest(query, text, from + 1, at);
      }
    }
  }

  /** The scan gets to the end of the query exactly when it is a subsequence. */
  lemma GreedyExactlyWhenSubsequence(query: string, text: string)
    ensures |Places(query, text, 0)| == |query| <==> IsSubsequence(query, text)
  {
    if |Places(query, text, 0)| == |query| {
      assert Embeds(query, text, Places(query, text, 0));
    }
    if at :| Embeds(query, text, at) {
      GreedyIsEarliest(query, text, 0, at);
    }
  }

  // ---- scoring ----------------------------------------------------------------------

  /** How many matches in a row end with match `k`, the first counting when it
      stands at the very start. */
  function Run(at: seq<nat>, k: nat): (r: nat)
    requires k < |at|
    ensures r <= k + 1
  {
    if k == 0 then (if at[0] == 0 then 1 else 0)
    else if at[k - 1] + 1 == at[k] then Run(at, k - 1) + 1
    else 0
  }

  function Gap(at: seq<nat>, k: nat): int
    requires k < |at|
  {
    if k == 0 || at[k - 1] + 1 == at[k] then 0
    else
      var last: int, now: int := at[k - 1], at[k];
      2 * (now - last - 1)
  }

  function Worth(c: Case, text: string, at: seq<nat>, k: nat): real
    requires k < |at| && at[k] < |text|
  {
    (Gap(at, k) - 5 * Run(at, k) - (if IsBoundary(c, text, at[k]) then 10 else 0)) as real + 0.1 * (at[k] as real)
  }

  predicate Within(text: string, at: seq<nat>) {
    forall k :: 0 <= k < |at| ==> at[k] < |text|
  }

  function Score(c: Case, text: string, at: seq<nat>, n: nat): real
    requires n <= |at| && Within(text, at)
  {
    if n == 0 then 0.0 else Score(c, text, at, n - 1) + Worth(c, text, at, n - 1)
  }

  function Gaps(at: seq<nat>, n: nat): int
    requires n <= |at|
  {
    if n == 0 then 0 else Gaps(at, n - 1) + Gap(at, n - 1)
  }

  /** The gap penalties depend on the first and the last place only. */
  lemma {:induction false} GapsTelescope(at: seq<nat>, n: nat)
    requires 0 < n <= |at| && forall j, k :: 0 <= j < k < |at| ==> at[j] < at[k]
    ensures Gaps(at, n) == 2 * (at[n - 1] - at[0] - (n - 1))
  {
    if n > 1 {
      GapsTelescope(at, n - 1);
    }
  }

  /** The least score a match of `n` characters can have. */
  function Least(n: nat): real {
    -5.0 * ((n * (n + 1) / 2) as real) - 10.0 * (n as real) + 0.1 * ((n * (n - 1) / 2) as real)
  }

  lemma LeastStep(n: nat)
    requires n > 0
    ensures Least(n) == Least(n - 1) - 5.0 * (n as real) - 10.0 + 0.1 * ((n - 1) as real)
  {
    assert n * (n + 1) == (n - 1) * n + 2 * n;
    assert n * (n - 1) == (n - 1) * (n - 2) + 2 * (n - 1);
    assert n * (n + 1) / 2 == (n - 1) * n / 2 + n;
    assert n * (n - 1) / 2 == (n - 1) * (n - 2) / 2 + (n - 1);
  }

  lemma {:induction false} PlacesAtLeast(at: seq<nat>, k: nat)
    requires k < |at| && forall i, j :: 0 <= i < j < |at| ==> at[i] < at[j]
    ensures at[k] >= k
  {
    if k > 0 {
      PlacesAtLeast(at, k - 1);
    }
  }

  lemma {:induction false} ScoreAtLeast(c: Case, text: string, at: seq<nat>, n: nat)
    requires n <= |at| && Within(text, at) && forall i, j :: 0 <= i < j < |at| ==> at[i] < at[j]
    ensures Score(c, text, at, n) >= Least(n)
  {
    if n > 0 {
      ScoreAtLeast(c, text, at, n - 1);
      LeastStep(n);
      PlacesAtLeast(at, n - 1);
      assert Gap(at, n - 1) >= 0 && Run(at, n - 1) <= n;
    }
  }

  /** `n` separators match themselves with exactly the least score. */
  function Dashes(n: nat): string { seq(n, _ => '-') }

  lemma {:induction false} LeastIsReached(c: Case, n: nat, m: nat)
    requires n <= m
    ensures var at := seq(m, i requires 0 <= i => i);
            && Score(c, Dashes(m), at, n) == Least(n)
            && (n > 0 ==> Run(at, n - 1) == n)
    decreases n
  {
    if n > 0 {
      LeastIsReached(c, n - 1, m);
      LeastStep(n);
    }
  }

  function UpFrom(from: nat, n: nat): (r: seq<nat>)
    ensures |r| == n && forall i :: 0 <= i < n ==> r[i] == from + i
    decreases n
  {
    if n == 0 then [] else [from] + UpFrom(from + 1, n - 1)
  }

  lemma {:induction false} DashPlaces(n: nat, m: nat, from: nat)
    requires from + n <= m
    ensures Places(Dashes(n), Dashes(m), from) == UpFrom(from, n)
    decreases n
  {
    hide Places;
    if n > 0 {
      assert Dashes(n)[1..] == Dashes(n - 1);
      PlacesAt(Dashes(n), Dashes(m), from);
      DashPlaces(n - 1, m, from + 1);
    } else {
      PlacesEnd(Dashes(n), Dashes(m), from);
    }
  }

  /** The bound is the best there is: separators matching themselves reach it. */
  lemma LeastIsScored(c: Case, n: nat)
    ensures MatchQuery(c, Dashes(n), Dashes(n)) == Match(true, Least(n))
  {
    hide Score, Least, Places;
    DashPlaces(n, n, 0);
    assert UpFrom(0, n) == seq(n, i requires 0 <= i => i);
    LeastIsReached(c, n, n);
  }

  // ---- the functions -----------------------------------------------------------------

  function MatchQuery(c: Case, query: string, text: string): Match {
    var at := Places(query, text, 0);
    if |at| < |query| then Match(false, 0.0) else Match(true, Score(c, text, at, |at|))
  }

  /** The length of the longest prefix of characters from `lo` to `hi`. */
  function Span(s: string, lo: char, hi: char): (n: nat)
    ensures n <= |s| && forall i :: 0 <= i < n ==> lo <= s[i] <= hi
    ensures n < |s| ==> !(lo <= s[n] <= hi)
  {
    if s == "" || !(lo <= s[0] <= hi) then 0 else 1 + Span(s[1..], lo, hi)
  }

  /** Letters then digits, or digits then letters, the other way round; else
      nothing. */
  function Swapped(query: string): string {
    var letters, digits := Span(query, 'a', 'z'), Span(query, '0', '9');
    if 0 < letters < |query| && Span(query[letters..], '0', '9') == |query| - letters
    then query[letters..] + query[..letters]
    else if 0 < digits < |query| && Span(query[digits..], 'a', 'z') == |query| - digits
    then query[digits..] + query[..digits]
    else ""
  }

  function FuzzyMatch(c: Case, query: string, text: string): Match {
    var q, t := c.lower(query), c.lower(text);
    var primary := MatchQuery(c, q, t);
    if primary.matches || Swapped(q) == "" then primary
    else
      var swapped := MatchQuery(c, Swapped(q), t);
      if swapped.matches then Match(true, swapped.score + 5.0) else primary
  }

  /** A query matches exactly when it, or its swapped form, is a subsequence. */
  lemma MatchesExactlyWhen(c: Case, query: string, text: string)
    ensures var q, t := c.lower(query), c.lower(text);
            FuzzyMatch(c, query, text).matches <==>
              IsSubsequence(q, t) || (Swapped(q) != "" && IsSubsequence(Swapped(q), t))
  {
    GreedyExactlyWhenSubsequence(c.lower(query), c.lower(text));
    GreedyExactlyWhenSubsequence(Swapped(c.lower(query)), c.lower(text));
  }

  lemma MatchScores(c: Case, query: string, text: string)
    requires MatchQuery(c, query, text).matches
    ensures MatchQuery(c, query, text).score >= Least(|query|)
  {
    ScoreAtLeast(c, text, Places(query, text, 0), |query|);
  }

  /** What the variables of `matchQuery` make of one match. */
  lemma WorthOf(c: Case, text: string, at: seq<nat>, k: nat, i: nat, last: int, run: nat)
    requires k < |at| && at[k] == i < |text| && last < i
    requires Within(text, at)
    requires last == (if k == 0 then -1 else at[k - 1] as int) && run == (if k == 0 then 0 else Run(at, k - 1))
    ensures Run(at, k) == if last == i - 1 then run + 1 else 0
    ensures Score(c, text, at, k + 1) == Score(c, text, at, k) +
            ((if last == i - 1 then -((run + 1) * 5) else if last >= 0 then (i - last - 1) * 2 else 0) as real
             - (if IsBoundary(c, text, i) then 10.0 else 0.0) + i as real * 0.1)
  {
  }

  /** One step of the scan, against the places still to come. */
  lemma Advance(query: string, text: string, at: seq<nat>, k: nat, i: nat)
    requires k < |query| && i < |text| && k <= |at| && at[k..] == Places(query[k..], text, i)
    ensures if text[i] == query[k] then k < |at| && at[k] == i && at[k + 1..] == Places(query[k + 1..], text, i + 1)
            else at[k..] == Places(query[k..], text, i + 1)
  {
    assert query[k..][1..] == query[k + 1..];
    if text[i] == query[k] {
      assert at[k..][0] == i && at[k..][1..] == at[k + 1..];
    }
  }

  lemma ScoreStart(c: Case, query: string, text: string)
    ensures Score(c, text, Places(query, text, 0), 0) == 0.0
  {
  }

  lemma PlacesEnd(query: string, text: string, from: nat)
    requires from <= |text| && (query == "" || from == |text|)
    ensures Places(query, text, from) == []
  {
  }

  lemma TooLong(query: string, text: string)
    requires |query| > |text|
    ensures |Places(query, text, 0)| < |query|
  {
    hide Places;
    var at := Places(query, text, 0);
    if |at| == |query| {
      PlacesAtLeast(at, |at| - 1);
    }
  }

  lemma ScanEnds(query: string, text: string, at: seq<nat>, k: nat, i: nat)
    requires i <= |text| && k <= |query| && k <= |at| && at[k..] == Places(query[k..], text, i)
    requires k == |query| || i == |text|
    ensures |at| == k
  {
    hide Places;
    PlacesEnd(query[k..], text, i);
    assert |at[k..]| == 0;
  }

  /** What a match at `i` adds to the score. */
  method Weigh(c: Case, text: string, i: nat, before: real, lastMatchIndex: int, run: nat)
    returns (score: real, consecutiveMatches: nat)
    requires i < |text|
    ensures consecutiveMatches == if lastMatchIndex == i - 1 then run + 1 else 0
    ensures score == before +
            ((if lastMatchIndex == i - 1 then -((run + 1) * 5)
              else if lastMatchIndex >= 0 then (i - lastMatchIndex - 1) * 2
              else 0) as real
             - (if IsBoundary(c, text, i) then 10.0 else 0.0) + i as real * 0.1)
  {
    hide IsBoundary;
    score, consecutiveMatches := before, run;
    var isWordBoundary := IsBoundary(c, text, i);
    if lastMatchIndex == i - 1 {
      consecutiveMatches := consecutiveMatches + 1;
      score := score - (consecutiveMatches * 5) as real;
    } else {
      consecutiveMatches := 0;
      if lastMatchIndex >= 0 {
        score := score + ((i - lastMatchIndex - 1) * 2) as real;
      }
    }
    if isWordBoundary {
      score := score - 10.0;
    }
    score := score + i as real * 0.1;
  }

  /** The scan, with the variables of `matchQuery`. */
  method Scan(c: Case, query: string, text: string) returns (m: Match)
    ensures m == MatchQuery(c, query, text)
  {
    hide Places, Run, Worth, Score, IsBoundary, Gap, Least, Embeds;
    ScoreStart(c, query, text);
    ghost var at := Places(query, text, 0);
    if |query| == 0 {
      return Match(true, 0.0);
    }
    if |query| > |text| {
      TooLong(query, text);
      return Match(false, 0.0);
    }
    var queryIndex, score, lastMatchIndex, consecutiveMatches := 0, 0.0, -1, 0;
    var i := 0;
    while i < |text| && queryIndex < |query|
      invariant 0 <= i <= |text| && 0 <= queryIndex <= |query|
      invariant |at| >= queryIndex && at[queryIndex..] == Places(query[queryIndex..], text, i)
      invariant score == Score(c, text, at, queryIndex)
      invariant lastMatchIndex == if queryIndex == 0 then -1 else at[queryIndex - 1] as int
      invariant lastMatchIndex < i
      invariant consecutiveMatches == if queryIndex == 0 then 0 else Run(at, queryIndex - 1)
    {
      Advance(query, text, at, queryIndex, i);
      if text[i] == query[queryIndex] {
        WorthOf(c, text, at, queryIndex, i, lastMatchIndex, consecutiveMatches);
        score, consecutiveMatches := Weigh(c, text, i, score, lastMatchIndex, consecutiveMatches);
        lastMatchIndex := i;
        queryIndex := queryIndex + 1;
      }
      i := i + 1;
    }
    ScanEnds(query, text, at, queryIndex, i);
    if queryIndex < |query| {
      return Match(false, 0.0);
    }
    return Match(true, score);
  }

  // ---- filtering -----------------------------------------------------------------------

  /** The runs of characters that are not white space. */
  function Tokens(c: Case, query: string, current: string): seq<string> {
    if query == "" then (if current == "" then [] else [current])
    else if c.isSpace(query[0]) then (if current == "" then [] else [current]) + Tokens(c, query[1..], "")
    else Tokens(c, query[1..], current + [query[0]])
  }

  datatype Scored<T> = Scored(item: T, total: real)

  predicate AllMatch(c: Case, tokens: seq<string>, text: string) {
    forall i :: 0 <= i < |tokens| ==> FuzzyMatch(c, tokens[i], text).matches
  }

  function Total(c: Case, tokens: seq<string>, text: string): real {
    if tokens == [] then 0.0
    else Total(c, tokens[..|tokens| - 1], text) + FuzzyMatch(c, tokens[|tokens| - 1], text).score
  }

  /** The items every token matches, in order, with their total scores. */
  function Matching<T>(c: Case, items: seq<T>, tokens: seq<string>, text: T -> string): seq<Scored<T>> {
    if items == [] then []
    else
      var last := items[|items| - 1];
      Matching(c, items[..|items| - 1], tokens, text)
      + if AllMatch(c, tokens, text(last)) then [Scored(last, Total(c, tokens, text(last)))] else []
  }

  function Items<T>(scored: seq<Scored<T>>): seq<T> {
    seq(|scored|, i requires 0 <= i < |scored| => scored[i].item)
  }

  function ByTotal<T>(s: Scored<T>): real { s.total }

  /** Whether every token matches, and then their total score. */
  method MatchAll(c: Case, tokens: seq<string>, text: string) returns (allMatch: bool, totalScore: real)
    ensures allMatch == AllMatch(c, tokens, text) && (allMatch ==> totalScore == Total(c, tokens, text))
  {
    hide FuzzyMatch;
    totalScore, allMatch := 0.0, true;
    assert tokens[..0] == [];
    for k := 0 to |tokens|
      invariant allMatch && AllMatch(c, tokens[..k], text) && totalScore == Total(c, tokens[..k], text)
    {
      var m := FuzzyMatch(c, tokens[k], text);
      assert tokens[..k + 1][..k] == tokens[..k];
      if !m.matches {
        return false, totalScore;
      }
      totalScore := totalScore + m.score;
    }
    assert tokens[..|tokens|] == tokens;
  }

  function Filtered<T>(c: Case, items: seq<T>, query: string, text: T -> string): seq<T> {
    var tokens := Tokens(c, query, "");
    if tokens == [] then items else Items(Sort(Matching(c, items, tokens, text), ByTotal))
  }

  /** Exactly the items that every token matches, best total first, ties in
      their order; all of them, as they were, when there is no token. */
  method FuzzyFilter<T>(c: Case, items: seq<T>, query: string, text: T -> string) returns (r: seq<T>)
    ensures r == Filtered(c, items, query, text)
  {
    hide AllMatch, Total, Sort;
    var tokens := Tokens(c, query, "");
    if |tokens| == 0 {
      return items;
    }
    var results: seq<Scored<T>> := [];
    assert items[..0] == [];
    for i := 0 to |items|
      invariant results == Matching(c, items[..i], tokens, text)
    {
      var t := text(items[i]);
      var allMatch, totalScore := MatchAll(c, tokens, t);
      assert items[..i + 1][..i] == items[..i];
      if allMatch {
        results := results + [Scored(items[i], totalScore)];
      }
    }
    assert items[..|items|] == items;
    r := Items(Sort(results, ByTotal));
  }

  lemma {:induction false} MatchingHas<T>(c: Case, items: seq<T>, tokens: seq<string>, text: T -> string, x: Scored<T>)
    ensures x in Matching(c, items, tokens, text) <==>
              x.item in items && AllMatch(c, tokens, text(x.item)) && x.total == Total(c, tokens, text(x.item))
    decreases |items|
  {
    hide AllMatch, Total;
    if items != [] {
      var before, last := items[..|items| - 1], items[|items| - 1];
      MatchingHas(c, before, tokens, text, x);
      assert items == before + [last];
    }
  }

  /** The filter keeps exactly the items every token matches, by total score,
      those of equal score in their order. */
  lemma FilterIsExactAndStable<T>(c: Case, items: seq<T>, tokens: seq<string>, text: T -> string, x: Scored<T>,
                                  total: real)
    ensures var all := Matching(c, items, tokens, text);
            var r := Sort(all, ByTotal);
            && (x in r <==>
                  x.item in items && AllMatch(c, tokens, text(x.item)) && x.total == Total(c, tokens, text(x.item)))
            && Sorted(r, ByTotal) && |r| == |all| && WithKey(r, ByTotal, total) == WithKey(all, ByTotal, total)
  {
    hide AllMatch, Total;
    var all := Matching(c, items, tokens, text);
    MatchingHas(c, items, tokens, text, x);
    SortIsStable(all, ByTotal, total);
    assert x in multiset(all) <==> x in all;
    assert x in multiset(Sort(all, ByTotal)) <==> x in Sort(all, ByTotal);
  }
}
