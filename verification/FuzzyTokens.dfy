/** The words of a query, packages/pi-tui/src/fuzzy.ts, and what the filter and the
    matcher do with them. */
module FuzzyTokens {
  import opened StableSort
  import opened Fuzzy

  /** A run of characters that are not white space, as long as it can be. */
  predicate MaximalRun(c: Case, query: string, i: int, j: int) {
    && 0 <= i < j <= |query| && (forall k :: i <= k < j ==> !c.isSpace(query[k]))
    && (i == 0 || c.isSpace(query[i - 1])) && (j == |query| || c.isSpace(query[j]))
  }

  datatype Stretch = Stretch(from: nat, to: nat)

  /** The first white space from `i` on, or the end. */
  function RunEnd(c: Case, query: string, i: nat): (j: nat)
    requires i <= |query|
    ensures i <= j <= |query| && (forall k :: i <= k < j ==> !c.isSpace(query[k]))
    ensures j < |query| ==> c.isSpace(query[j])
    decreases |query| - i
  {
    if i == |query| || c.isSpace(query[i]) then i else RunEnd(c, query, i + 1)
  }

  function Spans(c: Case, query: string, i: nat): seq<Stretch>
    requires i <= |query|
    decreases |query| - i
  {
    if i == |query| then []
    else if c.isSpace(query[i]) then Spans(c, query, i + 1)
    else [Stretch(i, RunEnd(c, query, i))] + Spans(c, query, RunEnd(c, query, i))
  }

  /** All maximal runs from `i` on, in order. */
  ghost predicate AllRuns(c: Case, query: string, i: nat, s: seq<Stretch>) {
    && (forall k :: 0 <= k < |s| ==> i <= s[k].from && MaximalRun(c, query, s[k].from, s[k].to))
    && (forall k, l :: 0 <= k < l < |s| ==> s[k].to <= s[l].from)
    && forall a, b :: i <= a && MaximalRun(c, query, a, b) ==> Stretch(a, b) in s
  }

  lemma {:induction false} SpansAreRuns(c: Case, query: string, i: nat)
    requires i <= |query| && (i == 0 || i == |query| || c.isSpace(query[i - 1]) || c.isSpace(query[i]))
    ensures AllRuns(c, query, i, Spans(c, query, i))
    decreases |query| - i
  {
    hide AllRuns;
    if i == |query| {
      NoRunsLeft(c, query);
    } else if c.isSpace(query[i]) {
      SpansAreRuns(c, query, i + 1);
      SpaceSkipped(c, query, i, Spans(c, query, i + 1));
    } else {
      var j := RunEnd(c, query, i);
      SpansAreRuns(c, query, j);
      RunAdded(c, query, i, j, Spans(c, query, j));
    }
  }

  lemma NoRunsLeft(c: Case, query: string)
    ensures AllRuns(c, query, |query|, [])
  {
  }

  lemma SpaceSkipped(c: Case, query: string, i: nat, s: seq<Stretch>)
    requires i < |query| && c.isSpace(query[i]) && AllRuns(c, query, i + 1, s)
    ensures AllRuns(c, query, i, s)
  {
    forall a, b | i <= a && MaximalRun(c, query, a, b)
      ensures Stretch(a, b) in s
    {
      assert a != i;
    }
  }

  lemma RunAdded(c: Case, query: string, i: nat, j: nat, rest: seq<Stretch>)
    requires MaximalRun(c, query, i, j) && AllRuns(c, query, j, rest)
    ensures AllRuns(c, query, i, [Stretch(i, j)] + rest)
  {
    var s := [Stretch(i, j)] + rest;
    assert forall k :: 0 < k < |s| ==> s[k] == rest[k - 1];
    forall a, b | i <= a && MaximalRun(c, query, a, b)
      ensures Stretch(a, b) in s
    {
      if a < j {
        assert a == i && b == j;
        assert s[0] == Stretch(i, j);
      } else {
        assert Stretch(a, b) in rest;
      }
    }
  }

  predicate Fit(query: string, spans: seq<Stretch>) {
    forall k :: 0 <= k < |spans| ==> spans[k].from <= spans[k].to <= |query|
  }

  function Texts(query: string, spans: seq<Stretch>): seq<string>
    requires Fit(query, spans)
  {
    if spans == [] then [] else [query[spans[0].from..spans[0].to]] + Texts(query, spans[1..])
  }

  lemma {:induction false} SpansFit(c: Case, query: string, i: nat)
    requires i <= |query|
    ensures Fit(query, Spans(c, query, i))
    decreases |query| - i
  {
    if i < |query| {
      if c.isSpace(query[i]) {
        SpansFit(c, query, i + 1);
      } else {
        var j := RunEnd(c, query, i);
        SpansFit(c, query, j);
        var s, rest := Spans(c, query, i), Spans(c, query, j);
        forall k | 0 <= k < |s|
          ensures s[k].from <= s[k].to <= |query|
        {
          assert s[k] == if k == 0 then Stretch(i, j) else rest[k - 1];
        }
      }
    }
  }

  lemma {:induction false} TokensFrom(c: Case, query: string, i: nat, current: string)
    requires i <= |query|
    ensures Fit(query, Spans(c, query, i)) && Fit(query, Spans(c, query, RunEnd(c, query, i)))
    ensures var j := RunEnd(c, query, i);
            Tokens(c, query[i..], current) ==
            if current == "" then Texts(query, Spans(c, query, i))
            else [current + query[i..j]] + Texts(query, Spans(c, query, j))
    decreases |query| - i
  {
    var j := RunEnd(c, query, i);
    SpansFit(c, query, i);
    SpansFit(c, query, j);
    hide Spans, Texts, Fit, Tokens;
    if i == |query| {
      NoTokensLeft(c, query, current);
    } else {
      TokensStep(c, query, i, current);
      if c.isSpace(query[i]) {
        TokensFrom(c, query, i + 1, "");
      } else {
        TokensFrom(c, query, i + 1, current + [query[i]]);
        assert (current + [query[i]]) + query[i + 1..j] == current + query[i..j];
        FirstSpan(c, query, i);
      }
    }
  }

  lemma NoTokensLeft(c: Case, query: string, current: string)
    ensures Spans(c, query, |query|) == [] && Texts(query, []) == []
    ensures Tokens(c, query[|query|..], current) == if current == "" then [] else [current + query[|query|..|query|]]
  {
    assert query[|query|..] == "" && current + query[|query|..|query|] == current;
  }

  lemma TokensStep(c: Case, query: string, i: nat, current: string)
    requires i < |query|
    ensures c.isSpace(query[i]) ==>
              && Spans(c, query, i) == Spans(c, query, i + 1)
              && current + query[i..i] == current
              && Tokens(c, query[i..], current)
              == (if current == "" then [] else [current]) + Tokens(c, query[i + 1..], "")
    ensures !c.isSpace(query[i]) ==> Tokens(c, query[i..], current) == Tokens(c, query[i + 1..], current + [query[i]])
  {
    assert query[i..][0] == query[i] && query[i..][1..] == query[i + 1..];
    assert current + query[i..i] == current;
  }

  lemma FirstSpan(c: Case, query: string, i: nat)
    requires i < |query| && !c.isSpace(query[i])
    requires Fit(query, Spans(c, query, i)) && Fit(query, Spans(c, query, RunEnd(c, query, i)))
    ensures var j := RunEnd(c, query, i);
            Texts(query, Spans(c, query, i)) == [query[i..j]] + Texts(query, Spans(c, query, j))
                && "" + query[i..j] == query[i..j]
  {
    var j := RunEnd(c, query, i);
    assert ([Stretch(i, j)] + Spans(c, query, j))[1..] == Spans(c, query, j);
  }

  /** The tokens are the maximal runs of the query, each once, in order. */
  lemma TokensAreRuns(c: Case, query: string)
    ensures exists spans: seq<Stretch> ::
              && (forall k :: 0 <= k < |spans| ==> MaximalRun(c, query, spans[k].from, spans[k].to))
              && (forall k, l :: 0 <= k < l < |spans| ==> spans[k].to <= spans[l].from)
              && (forall i, j :: MaximalRun(c, query, i, j) ==> Stretch(i, j) in spans)
              && Tokens(c, query, "") == Texts(query, spans)
  {
    SpansAreRuns(c, query, 0);
    TokensFrom(c, query, 0, "");
    assert query[0..] == query;
    var spans := Spans(c, query, 0);
    assert Tokens(c, query, "") == Texts(query, spans);
  }

  lemma {:induction false} TextsHave(query: string, spans: seq<Stretch>, word: string)
    requires Fit(query, spans)
    ensures word in Texts(query, spans) <==> exists k :: 0 <= k < |spans| && word == query[spans[k].from..spans[k].to]
    decreases |spans|
  {
    if spans != [] {
      TextsHave(query, spans[1..], word);
      assert forall k :: 0 < k < |spans| ==> spans[k] == spans[1..][k - 1];
      if exists k :: 0 <= k < |spans[1..]| && word == query[spans[1..][k].from..spans[1..][k].to] {
        var k :| 0 <= k < |spans[1..]| && word == query[spans[1..][k].from..spans[1..][k].to];
        assert spans[k + 1] == spans[1..][k];
      }
    }
  }

  lemma TokenIsRun(c: Case, query: string, word: string)
    ensures word in Tokens(c, query, "") <==> exists i, j :: MaximalRun(c, query, i, j) && word == query[i..j]
  {
    TokensAreRuns(c, query);
    var spans: seq<Stretch> :|
      && (forall k :: 0 <= k < |spans| ==> MaximalRun(c, query, spans[k].from, spans[k].to))
      && (forall k, l :: 0 <= k < l < |spans| ==> spans[k].to <= spans[l].from)
      && (forall i, j :: MaximalRun(c, query, i, j) ==> Stretch(i, j) in spans)
      && Tokens(c, query, "") == Texts(query, spans);
    hide MaximalRun;
    RunsFit(c, query, spans);
    TextsHave(query, spans, word);
    if exists i, j :: MaximalRun(c, query, i, j) && word == query[i..j] {
      var i, j :| MaximalRun(c, query, i, j) && word == query[i..j];
      assert Stretch(i, j) in spans;
    }
  }

  lemma RunsFit(c: Case, query: string, spans: seq<Stretch>)
    requires forall k :: 0 <= k < |spans| ==> MaximalRun(c, query, spans[k].from, spans[k].to)
    ensures Fit(query, spans)
  {
  }

  /** The filter keeps an item if and only if every maximal run of the query that
      is not white space matches its text; without such a run the items are left as
      they are, and with one those kept come by the sum of their scores. */
  lemma FilterKeepsExactly<T>(c: Case, items: seq<T>, query: string, text: T -> string, x: T)
    ensures x in Filtered(c, items, query, text) <==>
              x in items && forall i, j :: MaximalRun(c, query, i, j) ==> FuzzyMatch(c, query[i..j], text(x)).matches
    ensures (forall i, j :: !MaximalRun(c, query, i, j)) ==> Filtered(c, items, query, text) == items
    ensures var r := Filtered(c, items, query, text);
            (exists i, j :: MaximalRun(c, query, i, j)) ==>
              forall k, l :: 0 <= k < l < |r| ==>
                  Total(c, Tokens(c, query, ""), text(r[k])) <= Total(c, Tokens(c, query, ""), text(r[l]))
  {
    hide MaximalRun, FuzzyMatch, Tokens, Total, Sort, Matching, AllMatch;
    var tokens := Tokens(c, query, "");
    EveryRun(c, query, text(x));
    if tokens == [] {
      NoRuns(c, query);
    } else {
      SomeRun(c, query);
      KeptByTokens(c, items, tokens, text, x);
    }
  }

  /** All tokens match exactly when all runs do. */
  lemma EveryRun(c: Case, query: string, text: string)
    ensures AllMatch(c, Tokens(c, query, ""), text) <==>
              forall i, j :: MaximalRun(c, query, i, j) ==> FuzzyMatch(c, query[i..j], text).matches
  {
    hide FuzzyMatch, Tokens;
    var tokens := Tokens(c, query, "");
    if AllMatch(c, tokens, text) {
      forall i, j | MaximalRun(c, query, i, j)
        ensures FuzzyMatch(c, query[i..j], text).matches
      {
        TokenIsRun(c, query, query[i..j]);
        var k :| 0 <= k < |tokens| && tokens[k] == query[i..j];
      }
    }
    if forall i, j :: MaximalRun(c, query, i, j) ==> FuzzyMatch(c, query[i..j], text).matches {
      forall k | 0 <= k < |tokens|
        ensures FuzzyMatch(c, tokens[k], text).matches
      {
        TokenIsRun(c, query, tokens[k]);
        var i, j :| MaximalRun(c, query, i, j) && tokens[k] == query[i..j];
      }
    }
  }

  lemma RunFits(c: Case, query: string, i: int, j: int)
    requires MaximalRun(c, query, i, j)
    ensures 0 <= i < j <= |query|
  {
  }

  lemma NoRuns(c: Case, query: string)
    requires Tokens(c, query, "") == []
    ensures forall i, j :: !MaximalRun(c, query, i, j)
  {
    hide MaximalRun, Tokens;
    forall i, j
      ensures !MaximalRun(c, query, i, j)
    {
      if MaximalRun(c, query, i, j) {
        RunFits(c, query, i, j);
        TokenIsRun(c, query, query[i..j]);
        assert false;
      }
    }
  }

  lemma SomeRun(c: Case, query: string)
    requires Tokens(c, query, "") != []
    ensures exists i, j :: MaximalRun(c, query, i, j)
  {
    hide MaximalRun, Tokens;
    TokenIsRun(c, query, Tokens(c, query, "")[0]);
  }

  lemma KeptByTokens<T>(c: Case, items: seq<T>, tokens: seq<string>, text: T -> string, x: T)
    ensures var r := Items(Sort(Matching(c, items, tokens, text), ByTotal));
            && (x in r <==> x in items && AllMatch(c, tokens, text(x)))
            && forall k, l :: 0 <= k < l < |r| ==> Total(c, tokens, text(r[k])) <= Total(c, tokens, text(r[l]))
  {
    hide AllMatch, Total, Sort, Matching;
    var sorted := Sort(Matching(c, items, tokens, text), ByTotal);
    forall i | 0 <= i < |sorted|
      ensures sorted[i].item in items && AllMatch(c, tokens, text(sorted[i].item))
      ensures sorted[i].total == Total(c, tokens, text(sorted[i].item))
    {
      FilterIsExactAndStable(c, items, tokens, text, sorted[i], 0.0);
    }
    FilterIsExactAndStable(c, items, tokens, text, Scored(x, Total(c, tokens, text(x))), 0.0);
    if x in items && AllMatch(c, tokens, text(x)) {
      var k :| 0 <= k < |sorted| && sorted[k] == Scored(x, Total(c, tokens, text(x)));
      assert Items(sorted)[k] == x;
    }
    assert forall k, l :: 0 <= k < l < |sorted| ==> ByTotal(sorted[k]) <= ByTotal(sorted[l]);
  }

  // ---- the rest of the match ------------------------------------------------------------

  predicate All(s: string, lo: char, hi: char) {
    s != "" && forall i :: 0 <= i < |s| ==> lo <= s[i] <= hi
  }

  lemma {:induction false} SpanIs(a: string, b: string, lo: char, hi: char)
    requires (a == "" || All(a, lo, hi)) && (b == "" || !(lo <= b[0] <= hi))
    ensures Span(a + b, lo, hi) == |a|
    decreases |a|
  {
    if a == "" {
      assert a + b == b;
    } else {
      assert (a + b)[1..] == a[1..] + b;
      assert |a| > 1 ==> All(a[1..], lo, hi);
      SpanIs(a[1..], b, lo, hi);
    }
  }

  /** Letters then digits are tried the other way round, and digits then letters;
      no other query is. */
  lemma SwappedIs(letters: string, digits: string)
    requires All(letters, 'a', 'z') && All(digits, '0', '9')
    ensures Swapped(letters + digits) == digits + letters && Swapped(digits + letters) == letters + digits
  {
    var ld, dl := letters + digits, digits + letters;
    SpanIs(letters, digits, 'a', 'z');
    SpanIs("", ld, '0', '9');
    SpanIs(digits, "", '0', '9');
    assert digits + "" == digits && "" + ld == ld;
    assert ld[|letters|..] == digits && ld[..|letters|] == letters;
    SpanIs(digits, letters, '0', '9');
    SpanIs("", dl, 'a', 'z');
    SpanIs(letters, "", 'a', 'z');
    assert letters + "" == letters && "" + dl == dl;
    assert dl[|digits|..] == letters && dl[..|digits|] == digits;
  }

  predicate Mixed(query: string, letters: string, digits: string) {
    All(letters, 'a', 'z') && All(digits, '0', '9') && (query == letters + digits || query == digits + letters)
  }

  lemma OnlyMixedAreSwapped(query: string)
    ensures Swapped(query) != "" ==> exists letters, digits :: Mixed(query, letters, digits)
  {
    var l, d := Span(query, 'a', 'z'), Span(query, '0', '9');
    hide Span, All, Mixed;
    if 0 < l < |query| && Span(query[l..], '0', '9') == |query| - l {
      MixedAt(query, l);
    } else if 0 < d < |query| && Span(query[d..], 'a', 'z') == |query| - d {
      MixedAt(query, d);
    }
  }

  lemma MixedAt(query: string, n: nat)
    requires 0 < n < |query|
    ensures Span(query, 'a', 'z') == n && Span(query[n..], '0', '9') == |query| - n ==>
            Mixed(query, query[..n], query[n..])
    ensures Span(query, '0', '9') == n && Span(query[n..], 'a', 'z') == |query| - n ==>
            Mixed(query, query[n..], query[..n])
  {
    hide Span, All;
    Halves(query, n);
    var first, second := query[..n], query[n..];
    SpanAll(query, 'a', 'z');
    SpanAll(query, '0', '9');
    SpanAll(second, 'a', 'z');
    SpanAll(second, '0', '9');
    assert second[..|second|] == second;
  }

  lemma SpanAll(s: string, lo: char, hi: char)
    ensures Span(s, lo, hi) > 0 ==> All(s[..Span(s, lo, hi)], lo, hi)
  {
    hide Span;
    var n := Span(s, lo, hi);
    assert forall i :: 0 <= i < n ==> s[..n][i] == s[i];
  }

  lemma Halves(s: string, n: nat)
    requires n <= |s|
    ensures s == s[..n] + s[n..] && s[n..][..|s| - n] == s[n..]
  {
  }

  /** A swapped match costs five more; a plain one is preferred. */
  lemma SwappedCostsFive(c: Case, query: string, text: string)
    ensures var q, t := c.lower(query), c.lower(text);
            var m := FuzzyMatch(c, query, text);
            && (IsSubsequence(q, t) ==> m == MatchQuery(c, q, t))
            && (m.matches && !IsSubsequence(q, t) ==> m.score - 5.0 == MatchQuery(c, Swapped(q), t).score)
  {
    hide Score, Places, IsSubsequence, Swapped;
    GreedyExactlyWhenSubsequence(c.lower(query), c.lower(text));
  }

  /** Words start at the start, after white space, and after five signs. */
  lemma WordsStart(c: Case, text: string, i: nat)
    requires i < |text|
    ensures IsBoundary(c, text, i) <==>
              || i == 0 || c.isSpace(text[i - 1]) || text[i - 1] == '-' || text[i - 1] == '_'
              || text[i - 1] == '.' || text[i - 1] == '/' || text[i - 1] == ':'
  {
    var signs := "-_./:";
    assert signs[0] == '-' && signs[1] == '_' && signs[2] == '.' && signs[3] == '/' && signs[4] == ':';
  }

  /** How many of the places `n` to `m - 1` are at the start of a word. */
  function WordStarts(c: Case, text: string, at: seq<nat>, n: nat, m: nat): nat
    requires n <= m <= |at| && Within(text, at)
    decreases m
  {
    if n == m then 0 else WordStarts(c, text, at, n, m - 1) + (if IsBoundary(c, text, at[m - 1]) then 1 else 0)
  }

  function UpTo(n: nat): nat {
    n * (n + 1) / 2
  }

  /** The places `n` to `m - 1` are next to each other, and not to the one before. */
  predicate Adjacent(at: seq<nat>, n: nat, m: nat) {
    n < m <= |at| && (forall k :: n < k < m ==> at[k] == at[n] + k - n) && (n > 0 ==> at[n - 1] + 1 < at[n])
  }

  /** What a stretch of adjacent matches adds: two for each character skipped before
      it; less five, ten, fifteen and so on for the second match and those after it,
      or for the first on at the very start; less ten for each start of a word; and a
      tenth of each place. */
  lemma {:induction false} StretchScores(c: Case, text: string, at: seq<nat>, n: nat, m: nat)
    requires Within(text, at) && Adjacent(at, n, m)
    ensures Run(at, m - 1) == if at[n] == 0 then m - n else m - n - 1
    ensures Score(c, text, at, m) == Score(c, text, at, n)
         + 2.0 * ((if n == 0 then 0 else at[n] - at[n - 1] - 1) as real)
         - 5.0 * (UpTo(if at[n] == 0 then m - n else m - n - 1) as real)
         - 10.0 * (WordStarts(c, text, at, n, m) as real)
         + 0.1 * (((m - n) * at[n] + UpTo(m - n - 1)) as real)
    decreases m
  {
    WorthOne(c, text, at, n, m);
    hide IsBoundary, Score, Worth, WordStarts, Run, Gap, UpTo;
    if m > n + 1 {
      StretchScores(c, text, at, n, m - 1);
      UpToStep(if at[n] == 0 then m - n else m - n - 1);
      UpToStep(m - n - 1);
      MoreOf(m - n, at[n]);
    } else {
      FirstOf(c, text, at, n);
    }
  }

  /** What the last match of a stretch adds. */
  lemma WorthOne(c: Case, text: string, at: seq<nat>, n: nat, m: nat)
    requires Within(text, at) && Adjacent(at, n, m)
    ensures WordStarts(c, text, at, n, m)
         == WordStarts(c, text, at, n, m - 1) + if IsBoundary(c, text, at[m - 1]) then 1 else 0
    ensures Score(c, text, at, m) == Score(c, text, at, m - 1) + Worth(c, text, at, m - 1)
    ensures m > n + 1 ==> Run(at, m - 1) == Run(at, m - 2) + 1 && Gap(at, m - 1) == 0
    ensures m == n + 1 ==> Run(at, n) == if at[n] == 0 then 1 else 0
    ensures m == n + 1 ==> Gap(at, n) == 2 * if n == 0 then 0 else at[n] - at[n - 1] - 1
    ensures Worth(c, text, at, m - 1) == 2.0 * ((Gap(at, m - 1) / 2) as real) - 5.0 * (Run(at, m - 1) as real)
         - (if IsBoundary(c, text, at[m - 1]) then 10.0 else 0.0) + 0.1 * (at[m - 1] as real)
  {
    hide IsBoundary;
  }

  lemma FirstOf(c: Case, text: string, at: seq<nat>, n: nat)
    requires Within(text, at) && n < |at|
    ensures WordStarts(c, text, at, n, n) == 0 && UpTo(0) == 0 && UpTo(1) == 1
  {
  }

  lemma UpToStep(n: nat)
    requires n > 0
    ensures UpTo(n) == UpTo(n - 1) + n
  {
    assert n * (n + 1) == (n - 1) * n + 2 * n;
  }

  lemma MoreOf(n: nat, k: nat)
    requires n > 0
    ensures n * k == (n - 1) * k + k
  {
  }
}
