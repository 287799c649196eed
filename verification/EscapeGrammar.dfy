/** Which escape sequences the tokenizer takes for complete, as a grammar: one
    case for each kind (control sequences, section 5.4 of ECMA-48, control
    strings, section 5.6, and the kinds terminals add). */
module EscapeGrammar {
  import opened Strings
  import opened Sequences

  predicate FinalByte(c: char) {
    '@' <= c <= '~'
  }

  ghost predicate Number(s: string) {
    s != "" && forall c :: c in s ==> '0' <= c <= '9'
  }

  /** An SGR mouse report: three numbers, then M or m. */
  ghost predicate MouseReport(s: string) {
    exists a: string, b: string, c: string, last: char :: ReportOf(s, a, b, c, last)
  }

  ghost predicate ReportOf(s: string, a: string, b: string, c: string, last: char) {
    && Number(a) && Number(b) && Number(c) && (last == 'M' || last == 'm')
    && s == "\U{1b}[<" + a + ";" + b + ";" + c + [last]
  }

  /** Parameters without a final byte, then one. */
  ghost predicate ControlSequence(s: string) {
    && |s| >= 3 && s[2] != 'M' && s[2] != '<'
    && FinalByte(s[|s| - 1]) && forall i :: 2 <= i < |s| - 1 ==> !FinalByte(s[i])
  }

  /** Text up to the first string terminator. */
  ghost predicate UpToTerminator(text: string) {
    |text| >= 2 && text[|text| - 2..] == "\U{1b}\\" && IndexOf(text, "\U{1b}\\") == |text| - 2
  }

  /** Text up to the first bell. */
  ghost predicate UpToBell(text: string) {
    text != "" && text[|text| - 1] == '\U{7}' && '\U{7}' !in text[..|text| - 1]
  }

  ghost predicate Escape(s: string) {
    && |s| >= 2 && s[0] == '\U{1b}'
    && if s[1] == '[' then
         || (|s| == 6 && s[2] == 'M')
         || MouseReport(s)
         || ControlSequence(s)
       else if s[1] == ']' then
         || (UpToBell(s[2..]) && IndexOf(s[2..], "\U{1b}\\") == -1)
         || (UpToTerminator(s[2..]) && '\U{7}' !in s)
       else if s[1] == 'P' || s[1] == '_' then UpToTerminator(s[2..])
       else if s[1] == 'O' then |s| == 3
       else |s| == 2
  }

  // ---- from the tests to the grammar --------------------------------------------------

  /** Minimal: complete, and no proper prefix is. */
  lemma MinimalIs(s: string)
    ensures Minimal(s) <==>
              && s != "" && s[0] == ESC && SequenceStatus(s) == Complete
              && forall k :: 1 <= k < |s| ==> SequenceStatus(s[..k]) == Incomplete
  {
    hide SequenceStatus;
    if s != "" && s[0] == ESC {
      NeverOther(s);
      assert s[..|s|] == s;
      var end := SequenceEnd(s, 1);
      if end <= |s| {
        NeverOther(s[..end]);
      }
    }
  }

  lemma NeverOther(s: string)
    requires s != "" && s[0] == ESC
    ensures SequenceStatus(s) != NotEscape
  {
    hide MatchesMouse, Split, EndsWith;
  }

  /** Escape and any other character; and the application-mode keys. */
  lemma TwoOrThree(s: string)
    requires |s| >= 2 && s[0] == ESC && s[1] !in "[]P_"
    ensures Minimal(s) <==> |s| == if s[1] == 'O' then 3 else 2
  {
    MinimalIs(s);
    forall k | 1 <= k < |s|
      ensures SequenceStatus(s[..k]) == if k < (if s[1] == 'O' then 3 else 2) then Incomplete else Complete
    {
      assert k > 1 ==> s[..k][1] == s[1];
    }
    var n := if s[1] == 'O' then 3 else 2;
    if |s| > n {
      assert SequenceStatus(s[..n]) == Complete;
    }
  }

  /** The old mouse report: three bytes after the M. */
  lemma OldMouse(s: string)
    requires |s| >= 3 && s[0] == ESC && s[1] == '[' && s[2] == 'M'
    ensures Minimal(s) <==> |s| == 6
  {
    hide MatchesMouse, Split;
    MinimalIs(s);
    forall k | 1 <= k < |s|
      ensures SequenceStatus(s[..k]) == if k < 6 then Incomplete else Complete
    {
      assert k > 1 ==> s[..k][1] == s[1];
      assert k > 2 ==> s[..k][2] == s[2];
    }
    if |s| > 6 {
      assert SequenceStatus(s[..6]) == Complete;
    }
  }

  lemma CsiPrefix(s: string, k: nat)
    requires |s| >= 3 && s[0] == ESC && s[1] == '[' && s[2] != 'M' && s[2] != '<' && 1 <= k <= |s|
    ensures SequenceStatus(s[..k]) == if k >= 3 && FinalByte(s[k - 1]) then Complete else Incomplete
  {
    hide MatchesMouse, Split;
    var p := s[..k];
    assert k > 1 ==> p[1] == s[1];
    if k > 2 {
      assert p[2] == s[2] && p[2..][0] == s[2] && p[2..][|p[2..]| - 1] == s[k - 1];
    }
  }

  lemma ControlSequences(s: string)
    requires |s| >= 3 && s[0] == ESC && s[1] == '[' && s[2] != 'M' && s[2] != '<'
    ensures Minimal(s) <==> ControlSequence(s)
  {
    hide SequenceStatus, FinalByte;
    MinimalIs(s);
    assert s[..|s|] == s;
    CsiPrefix(s, |s|);
    forall k | 1 <= k < |s|
      ensures SequenceStatus(s[..k]) == if k >= 3 && FinalByte(s[k - 1]) then Complete else Incomplete
    {
      CsiPrefix(s, k);
    }
    if Minimal(s) {
      forall i | 2 <= i < |s| - 1
        ensures !FinalByte(s[i])
      {
        assert SequenceStatus(s[..i + 1]) == Incomplete;
      }
    }
  }

  // ---- mouse reports --------------------------------------------------------------------

  lemma NumberIsDigits(s: string)
    ensures Number(s) <==> Digits(s)
  {
    if Number(s) {
      assert forall i :: 0 <= i < |s| ==> s[i] in s;
    }
  }

  /** Three numbers and an M are what the pattern matches. */
  lemma ReportIsPattern(s: string)
    requires |s| >= 3 && s[0] == ESC && s[1] == '[' && s[2] == '<'
    ensures MouseReport(s) <==> MatchesMouse(s[2..])
  {
    var p := s[2..];
    assert s == "\U{1b}[" + p && p[0] == '<';
    if MouseReport(s) {
      var a, b, c, last :| ReportOf(s, a, b, c, last);
      ReportMatches(p, a, b, c, last);
    }
    if MatchesMouse(p) {
      var i: nat, j: nat :| i < j < |p| && MouseParts(p, i, j);
      PatternReports(s, p, i, j);
    }
  }

  lemma ReportMatches(p: string, a: string, b: string, c: string, last: char)
    requires ReportOf("\U{1b}[" + p, a, b, c, last)
    ensures MatchesMouse(p)
  {
    NumberIsDigits(a);
    NumberIsDigits(b);
    NumberIsDigits(c);
    assert |a| > 0;
    hide Number, Digits, MatchesMouse;
    var i, j := 1 + |a|, 2 + |a| + |b|;
    assert ("\U{1b}[" + p)[2..] == p;
    assert p == "<" + a + ";" + b + ";" + c + [last];
    assert p[1..i] == a && p[i + 1..j] == b && p[j + 1..|p| - 1] == c;
    assert p[i] == ';' && p[j] == ';' && p[0] == '<' && p[|p| - 1] == last;
    Matches(p, i, j);
  }

  lemma Matches(p: string, i: nat, j: nat)
    requires i < j < |p| && p[0] == '<' && (p[|p| - 1] == 'M' || p[|p| - 1] == 'm') && p[i] == ';' && p[j] == ';'
             && 1 < i
    requires j + 1 <= |p| - 1 && Digits(p[1..i]) && Digits(p[i + 1..j]) && Digits(p[j + 1..|p| - 1])
    ensures MatchesMouse(p)
  {
    hide Digits;
    assert MouseParts(p, i, j);
  }

  lemma PatternReports(s: string, p: string, i: nat, j: nat)
    requires s == "\U{1b}[" + p && i < j < |p| && MouseParts(p, i, j)
    ensures MouseReport(s)
  {
    var a, b, c, last := p[1..i], p[i + 1..j], p[j + 1..|p| - 1], p[|p| - 1];
    NumberIsDigits(a);
    NumberIsDigits(b);
    NumberIsDigits(c);
    hide Number, Digits;
    assert p == "<" + a + ";" + b + ";" + c + [last];
    assert s == "\U{1b}[<" + a + ";" + b + ";" + c + [last];
    assert ReportOf(s, a, b, c, last);
  }

  /** No part of a report but its end is a final byte. */
  lemma ReportBytes(p: string, k: nat)
    requires MatchesMouse(p) && k < |p| - 1
    ensures !FinalByte(p[k])
  {
    var i: nat, j: nat :| i < j < |p| && MouseParts(p, i, j);
    if 1 <= k < i {
      assert p[k] == p[1..i][k - 1];
    } else if i < k < j {
      assert p[k] == p[i + 1..j][k - i - 1];
    } else if j < k {
      assert p[k] == p[j + 1..|p| - 1][k - j - 1];
    }
  }

  lemma MousePrefix(s: string, k: nat)
    requires |s| >= 3 && s[0] == ESC && s[1] == '[' && s[2] == '<' && 1 <= k <= |s|
    ensures SequenceStatus(s[..k]) == if k >= 3 && FinalByte(s[k - 1]) && MatchesMouse(s[2..k]) then Complete
            else Incomplete
  {
    hide MatchesMouse, Split, Digits;
    var q := s[..k];
    assert k > 1 ==> q[1] == s[1];
    if k > 2 {
      var payload := q[2..];
      assert q[2] == s[2] && payload == s[2..k] && payload[0] == '<' && payload[|payload| - 1] == s[k - 1];
      if |payload| >= 2 && (s[k - 1] == 'M' || s[k - 1] == 'm') {
        var parts := Split(payload[1..|payload| - 1], ';');
        if |parts| == 3 && forall p :: p in parts ==> Digits(p) {
          FallbackNeverFires(payload);
        }
      }
    }
  }

  lemma MouseReports(s: string)
    requires |s| >= 3 && s[0] == ESC && s[1] == '[' && s[2] == '<'
    ensures Minimal(s) <==> MouseReport(s)
  {
    hide SequenceStatus, MatchesMouse;
    MinimalIs(s);
    ReportIsPattern(s);
    assert s[..|s|] == s;
    MousePrefix(s, |s|);
    if MatchesMouse(s[2..]) {
      ReportEnds(s[2..]);
      assert s[2..][|s| - 3] == s[|s| - 1];
      forall k | 1 <= k < |s|
        ensures SequenceStatus(s[..k]) == Incomplete
      {
        MousePrefix(s, k);
        if k >= 3 {
          ReportBytes(s[2..], k - 3);
          assert s[2..][k - 3] == s[k - 1];
        }
      }
    }
  }

  lemma ReportEnds(p: string)
    requires MatchesMouse(p)
    ensures p != "" && FinalByte(p[|p| - 1])
  {
  }

  // ---- control strings --------------------------------------------------------------------

  lemma EndsAt(s: string, k: nat)
    requires |s| >= 2 && s[0] == ESC && s[1] != '\\' && s[1] != ESC && 1 <= k <= |s|
    ensures EndsWith(s[..k], ST) <==> k >= 4 && OccursAt(s[2..], ST, k - 4)
  {
    var q := s[..k];
    if k >= 4 {
      assert q[k - 2..] == s[2..][k - 4..k - 2];
    } else if k == 3 {
      assert q[1..][0] == s[1];
    } else if k == 2 {
      assert q[0..][1] == s[1];
    }
  }

  lemma StringPrefix(s: string, k: nat)
    requires |s| >= 2 && s[0] == ESC && s[1] in "]P_" && 1 <= k <= |s|
    ensures SequenceStatus(s[..k]) ==
            if (k >= 4 && OccursAt(s[2..], ST, k - 4)) || (s[1] == ']' && k >= 3 && s[k - 1] == BEL) then Complete
            else Incomplete
  {
    hide OccursAt, SequenceStatus, EndsWith;
    EndsAt(s, k);
    var q := s[..k];
    StringStatus(q);
    if k > 1 {
      assert q[0] == ESC && q[1] == s[1] && q[|q| - 1] == s[k - 1];
      EndsWithBell(q);
    } else {
      assert |q| == 1;
    }
  }

  /** What the function says of a control string, and of the escape alone. */
  lemma StringStatus(q: string)
    requires q != "" && q[0] == ESC
    ensures |q| == 1 ==> SequenceStatus(q) == Incomplete
    ensures |q| > 1 && q[1] in "]P_" ==>
              SequenceStatus(q) == if EndsWith(q, ST) || (q[1] == ']' && EndsWith(q, [BEL])) then Complete
                  else Incomplete
  {
    hide EndsWith, CsiStatus;
  }

  lemma EndsWithBell(q: string)
    requires q != ""
    ensures EndsWith(q, [BEL]) <==> q[|q| - 1] == BEL
  {
    assert q[|q| - 1..] == [q[|q| - 1]];
  }

  lemma ControlStrings(s: string)
    requires |s| >= 2 && s[0] == ESC && (s[1] == 'P' || s[1] == '_')
    ensures Minimal(s) <==> UpToTerminator(s[2..])
  {
    hide SequenceStatus;
    MinimalIs(s);
    assert s[..|s|] == s;
    StringPrefix(s, |s|);
    var t := s[2..];
    forall k | 1 <= k < |s|
      ensures SequenceStatus(s[..k]) == if k >= 4 && OccursAt(t, ST, k - 4) then Complete else Incomplete
    {
      StringPrefix(s, k);
    }
    LastOccurs(t);
    if Minimal(s) {
      forall i | 0 <= i < |t| - 2
        ensures !OccursAt(t, ST, i)
      {
        assert SequenceStatus(s[..i + 4]) == Incomplete;
      }
    }
  }

  lemma LastOccurs(t: string)
    ensures |t| >= 2 ==> (OccursAt(t, ST, |t| - 2) <==> t[|t| - 2..] == ST)
    ensures UpToTerminator(t) <==>
              |t| >= 2 && OccursAt(t, ST, |t| - 2) && forall i :: 0 <= i < |t| - 2 ==> !OccursAt(t, ST, i)
  {
    if |t| >= 2 {
      assert t[|t| - 2..|t| - 2 + 2] == t[|t| - 2..];
    }
  }

  lemma SystemCommands(s: string)
    requires |s| >= 2 && s[0] == ESC && s[1] == ']'
    ensures Minimal(s) <==>
              || (UpToBell(s[2..]) && IndexOf(s[2..], ST) == -1)
              || (UpToTerminator(s[2..]) && BEL !in s)
  {
    hide SequenceStatus;
    MinimalIs(s);
    assert s[..|s|] == s;
    StringPrefix(s, |s|);
    var t := s[2..];
    forall k | 1 <= k < |s|
      ensures SequenceStatus(s[..k]) ==
              if (k >= 4 && OccursAt(t, ST, k - 4)) || (k >= 3 && s[k - 1] == BEL) then Complete else Incomplete
    {
      StringPrefix(s, k);
    }
    LastOccurs(t);
    NoBells(s);
    if Minimal(s) {
      forall i | 0 <= i < |t| - 2
        ensures !OccursAt(t, ST, i)
      {
        assert SequenceStatus(s[..i + 4]) == Incomplete;
      }
      forall k | 2 <= k < |s| - 1
        ensures s[k] != BEL
      {
        assert SequenceStatus(s[..k + 1]) == Incomplete;
      }
    }
  }

  lemma NoBells(s: string)
    requires |s| >= 2 && s[0] == ESC && s[1] == ']'
    ensures BEL in s[2..] <==> exists k :: 2 <= k < |s| && s[k] == BEL
    ensures BEL in s <==> BEL in s[2..]
    ensures UpToBell(s[2..]) <==> |s| > 2 && s[|s| - 1] == BEL && forall k :: 2 <= k < |s| - 1 ==> s[k] != BEL
    ensures |s| >= 4 && s[|s| - 2..] == ST ==> s[|s| - 1] != BEL
    ensures |s| >= 4 && OccursAt(s[2..], ST, |s| - 4) ==> s[|s| - 1] == '\\'
  {
    var t := s[2..];
    assert s == s[..2] + t;
    assert forall k :: 2 <= k < |s| ==> s[k] == t[k - 2];
  }

  // ---- the grammar ------------------------------------------------------------------------

  /** A minimal complete escape is exactly a sentence of the grammar. */
  lemma MinimalExactlyWhenEscape(s: string)
    ensures Minimal(s) <==> Escape(s)
  {
    hide Minimal, MouseReport, UpToTerminator, UpToBell, ControlSequence;
    if |s| < 2 || s[0] != ESC {
      TooShort(s);
    } else if s[1] == '[' {
      if |s| == 2 {
        Opener(s);
      } else if s[2] == 'M' {
        OldMouse(s);
        NotReport(s);
      } else if s[2] == '<' {
        MouseReports(s);
      } else {
        ControlSequences(s);
        NotReport(s);
      }
    } else if s[1] == ']' {
      SystemCommands(s);
    } else if s[1] == 'P' || s[1] == '_' {
      ControlStrings(s);
    } else {
      TwoOrThree(s);
    }
    NoSuchControl(s);
  }

  lemma NoSuchControl(s: string)
    ensures ControlSequence(s) ==> |s| >= 3 && s[2] != 'M' && s[2] != '<'
  {
  }

  lemma TooShort(s: string)
    requires |s| < 2 || s[0] != ESC
    ensures !Minimal(s)
  {
    if s != "" && s[0] == ESC {
      assert SequenceStatus(s[..1]) == Incomplete;
    }
  }

  lemma NotReport(s: string)
    requires |s| >= 3 && s[2] != '<'
    ensures !MouseReport(s)
  {
  }

  lemma Opener(s: string)
    requires |s| == 2 && s[0] == ESC && s[1] == '['
    ensures !Minimal(s) && !MouseReport(s)
  {
    MinimalIs(s);
  }

  /** The tokenizer cuts off ordinary characters and sentences of the grammar,
      and keeps back only the start of an escape none of whose prefixes is one. */
  lemma ExtractFollowsGrammar(s: string)
    ensures var p := Extract(s);
            && Concat(p.sequences) + p.remainder == s
            && (forall i :: 0 <= i < |p.sequences| ==>
                  var x := p.sequences[i]; (|x| == 1 && x[0] != ESC) || Escape(x))
            && (p.remainder != "" ==> p.remainder[0] == ESC && forall k :: 0 <= k <= |p.remainder| ==>
                !Escape(p.remainder[..k]))
  {
    hide Extract, Minimal, Escape;
    ExtractCuts(s);
    var p := Extract(s);
    forall i | 0 <= i < |p.sequences|
      ensures var x := p.sequences[i]; (|x| == 1 && x[0] != ESC) || Escape(x)
    {
      MinimalExactlyWhenEscape(p.sequences[i]);
    }
    forall k | 0 <= k <= |p.remainder|
      ensures p.remainder != "" ==> !Escape(p.remainder[..k])
    {
      MinimalExactlyWhenEscape(p.remainder[..k]);
      if p.remainder != "" {
        NoPrefix(p.remainder, k);
      }
    }
  }

  lemma NoPrefix(s: string, k: nat)
    requires s != "" && Unfinished(s) && k <= |s|
    ensures !Minimal(s[..k])
  {
    SequenceEndStable(s, k, 1);
  }
}
