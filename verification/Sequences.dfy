/** The tokenizer of packages/pi-tui/src/stdin-buffer.ts: when an escape
    sequence is complete (control sequences, section 5.4 of ECMA-48, and control
    strings, section 5.6), and how a buffer is cut into sequences.  A `char`
    stands for one UTF-16 code unit. */
module Sequences {
  import opened Strings

  const ESC := '\U{1b}'
  const BEL := '\U{7}'
  const ST := "\U{1b}\\"

  datatype Status = Complete | Incomplete | NotEscape

  predicate Digits(s: string) {
    s != "" && forall i :: 0 <= i < |s| ==> '0' <= s[i] <= '9'
  }

  /** <digits;digits;digits followed by M or m. */
  predicate MatchesMouse(payload: string) {
    exists i: nat, j: nat :: i < j < |payload| && MouseParts(payload, i, j)
  }

  predicate MouseParts(p: string, i: nat, j: nat)
    requires i < j < |p|
  {
    && 1 < i && p[0] == '<' && (p[|p| - 1] == 'M' || p[|p| - 1] == 'm')
    && p[i] == ';' && p[j] == ';'
    && Digits(p[1..i]) && Digits(p[i + 1..j]) && Digits(p[j + 1..|p| - 1])
  }

  /** ESC [ then a final byte from @ to ~; SGR mouse reports must have all
      their three numbers. */
  function CsiStatus(data: string): Status
    requires |data| >= 2
  {
    if |data| < 3 then Incomplete
    else
      var payload := data[2..];
      var last := payload[|payload| - 1];
      if '@' <= last <= '~' then
        if payload[0] == '<' then
          if MatchesMouse(payload) then Complete
          else if last == 'M' || last == 'm' then
            var parts := Split(payload[1..|payload| - 1], ';');
            if |parts| == 3 && forall p :: p in parts ==> Digits(p) then Complete else Incomplete
          else Incomplete
        else Complete
      else Incomplete
  }

  function SequenceStatus(data: string): Status {
    if data == "" || data[0] != ESC then NotEscape
    else if |data| == 1 then Incomplete
    else if data[1] == '[' then
      if |data| >= 3 && data[2] == 'M' then (if |data| >= 6 then Complete else Incomplete)
      else CsiStatus(data)
    else if data[1] == ']' then
      if EndsWith(data, ST) || EndsWith(data, [BEL]) then Complete else Incomplete
    else if data[1] == 'P' || data[1] == '_' then
      if EndsWith(data, ST) then Complete else Incomplete
    else if data[1] == 'O' then
      if |data| >= 3 then Complete else Incomplete
    else Complete
  }

  /** The length of the shortest prefix, from `n` on, that is not incomplete;
      one more than the length of `s` when there is none. */
  function SequenceEnd(s: string, n: nat): (r: nat)
    requires 1 <= n <= |s| + 1
    ensures n <= r <= |s| + 1
    ensures r <= |s| ==> SequenceStatus(s[..r]) != Incomplete
    ensures forall k :: n <= k < r ==> SequenceStatus(s[..k]) == Incomplete
    decreases |s| + 1 - n
  {
    if n > |s| then n
    else if SequenceStatus(s[..n]) == Incomplete then SequenceEnd(s, n + 1)
    else n
  }

  datatype Parse = Parse(sequences: seq<string>, remainder: string)

  function Extract(s: string): Parse
    decreases |s|
  {
    if s == "" then Parse([], "")
    else if s[0] == ESC then
      var end := SequenceEnd(s, 1);
      if end > |s| then Parse([], s)
      else
        var rest := Extract(s[end..]);
        Parse([s[..end]] + rest.sequences, rest.remainder)
    else
      var rest := Extract(s[1..]);
      Parse([s[..1]] + rest.sequences, rest.remainder)
  }

  // ---- what the pieces are -------------------------------------------------------

  /** A complete escape sequence none of whose proper prefixes is complete. */
  ghost predicate Minimal(s: string) {
    s != "" && s[0] == ESC && SequenceEnd(s, 1) == |s|
  }

  ghost predicate Piece(s: string) {
    (|s| == 1 && s[0] != ESC) || Minimal(s)
  }

  /** Nothing, or the start of an escape sequence that is complete nowhere. */
  predicate Unfinished(s: string) {
    s == "" || (s[0] == ESC && SequenceEnd(s, 1) == |s| + 1)
  }

  /** Cutting text off after the end found does not change it. */
  lemma {:induction false} SequenceEndStable(s: string, m: nat, n: nat)
    requires 1 <= n <= m + 1 <= |s| + 1
    ensures SequenceEnd(s[..m], n) == if SequenceEnd(s, n) <= m then SequenceEnd(s, n) else m + 1
  {
    hide SequenceStatus;
    assert forall k :: 0 <= k <= m ==> s[..m][..k] == s[..k];
  }

  /** Where the first piece ends; past the end when it is unfinished. */
  function PieceEnd(s: string): (r: nat)
    requires s != ""
    ensures 1 <= r <= |s| + 1
  {
    if s[0] == ESC then SequenceEnd(s, 1) else 1
  }

  lemma ExtractStep(s: string)
    ensures s == "" ==> Extract(s) == Parse([], "")
    ensures s != "" && PieceEnd(s) > |s| ==> Extract(s) == Parse([], s) && Unfinished(s)
    ensures s != "" && PieceEnd(s) <= |s| ==>
              var end := PieceEnd(s);
              var rest := Extract(s[end..]);
              Extract(s) == Parse([s[..end]] + rest.sequences, rest.remainder)
  {
    hide SequenceEnd;
  }

  lemma PieceIsPiece(s: string)
    requires s != "" && PieceEnd(s) <= |s|
    ensures Piece(s[..PieceEnd(s)])
  {
    hide SequenceEnd;
    if s[0] == ESC {
      SequenceEndStable(s, PieceEnd(s), 1);
    }
  }

  /** The items are single characters and minimal sequences, in order, and with
      the unfinished rest they make up the input. */
  lemma {:induction false} ExtractCuts(s: string)
    ensures var p := Extract(s);
            && Concat(p.sequences) + p.remainder == s
            && Unfinished(p.remainder)
            && forall i :: 0 <= i < |p.sequences| ==> Piece(p.sequences[i])
    decreases |s|
  {
    hide Extract, PieceEnd, Concat, Piece, Unfinished;
    ExtractStep(s);
    if s == "" {
      ConcatNone();
      NothingUnfinished();
    } else if PieceEnd(s) > |s| {
      ConcatNone();
    } else {
      var end := PieceEnd(s);
      ExtractCuts(s[end..]);
      PieceIsPiece(s);
      assert s[..end] + s[end..] == s;
      ConsConcat(s[..end], Extract(s[end..]).sequences);
    }
  }

  lemma NothingUnfinished()
    ensures Unfinished("")
  {
  }

  lemma ConcatNone()
    ensures Concat([]) == ""
  {
  }

  lemma ConsConcat(first: string, rest: seq<string>)
    ensures Concat([first] + rest) == first + Concat(rest)
  {
    assert ([first] + rest)[1..] == rest;
  }

  /** Parsing is streaming: what has been cut stays cut, and the rest is parsed
      together with what comes next. */
  lemma {:induction false} ExtractStreams(a: string, b: string)
    ensures var p := Extract(a);
            var q := Extract(p.remainder + b);
            Extract(a + b) == Parse(p.sequences + q.sequences, q.remainder)
    decreases |a|
  {
    hide Extract, PieceEnd, Unfinished;
    ExtractStep(a);
    if a == "" {
      assert a + b == b && "" + b == b;
    } else if PieceEnd(a) <= |a| {
      var end := PieceEnd(a);
      PieceEndStable(a, b);
      ExtractStep(a + b);
      assert (a + b)[..end] == a[..end] && (a + b)[end..] == a[end..] + b;
      ExtractStreams(a[end..], b);
      var p, q := Extract(a[end..]), Extract(Extract(a[end..]).remainder + b);
      assert [a[..end]] + p.sequences + q.sequences == [a[..end]] + (p.sequences + q.sequences);
    }
  }

  /** More text does not move the end of a finished piece. */
  lemma PieceEndStable(a: string, b: string)
    requires a != "" && PieceEnd(a) <= |a|
    ensures PieceEnd(a + b) == PieceEnd(a)
  {
    hide SequenceEnd;
    assert (a + b)[..|a|] == a;
    if a[0] == ESC {
      SequenceEndStable(a + b, |a|, 1);
    }
  }

  lemma UnfinishedStays(s: string)
    requires Unfinished(s)
    ensures Extract(s) == Parse([], s)
  {
  }

  lemma UnfinishedPrefix(s: string, k: nat)
    requires k <= |s| && Unfinished(s)
    ensures Unfinished(s[..k])
  {
    if k > 0 {
      SequenceEndStable(s, k, 1);
    }
  }

  /** The second look at a mouse report, piece by piece, never finds one the
      pattern missed. */
  lemma FallbackNeverFires(payload: string)
    requires |payload| >= 2 && payload[0] == '<' && (payload[|payload| - 1] == 'M' || payload[|payload| - 1] == 'm')
    requires var parts := Split(payload[1..|payload| - 1], ';');
             |parts| == 3 && forall p :: p in parts ==> Digits(p)
    ensures MatchesMouse(payload)
  {
    var s := payload[1..|payload| - 1];
    var i, j := ThreeParts(s, ';');
    var parts := Split(s, ';');
    assert Digits(parts[0]) && Digits(parts[1]) && Digits(parts[2]);
    SliceOfSlice(payload, 1, |payload| - 1, 0, i);
    SliceOfSlice(payload, 1, |payload| - 1, i + 1, j);
    SliceOfSlice(payload, 1, |payload| - 1, j + 1, |s|);
    assert MouseParts(payload, i + 1, j + 1);
  }

  lemma SliceOfSlice(s: string, m: nat, n: nat, i: nat, j: nat)
    requires m <= n <= |s| && i <= j <= n - m
    ensures s[m..n][i..j] == s[m + i..m + j]
  {
    var a, b := s[m..n][i..j], s[m + i..m + j];
    forall k | 0 <= k < |a|
      ensures a[k] == b[k]
    {
      assert a[k] == s[m..n][i + k] == s[m + (i + k)];
    }
  }

  lemma ThreeParts(s: string, separator: char) returns (i: nat, j: nat)
    requires |Split(s, separator)| == 3
    ensures i < j < |s| && s[i] == separator && s[j] == separator
    ensures Split(s, separator) == [s[..i], s[i + 1..j], s[j + 1..]]
  {
    hide Split;
    var parts := Split(s, separator);
    SplitFirst(s, separator);
    i := |parts[0]|;
    var tail := s[i + 1..];
    SplitFirst(tail, separator);
    j := i + 1 + |parts[1]|;
    assert parts[1..][1..] == [parts[2]];
    SplitFirst(tail[|parts[1]| + 1..], separator);
    assert tail[..|parts[1]|] == s[i + 1..j] && tail[|parts[1]| + 1..] == s[j + 1..];
  }

  lemma {:induction false} SplitFirst(s: string, separator: char)
    ensures var parts := Split(s, separator);
            if |parts| == 1 then parts[0] == s
            else |parts[0]| < |s| && parts[0] == s[..|parts[0]|] && s[|parts[0]|] == separator
                 && Split(s[|parts[0]| + 1..], separator) == parts[1..]
    decreases |s|
  {
    if s != "" && s[0] != separator {
      SplitFirst(s[1..], separator);
      var rest := Split(s[1..], separator);
      if |rest| > 1 {
        assert s[1..][|rest[0]| + 1..] == s[|rest[0]| + 2..];
      }
    }
  }
}
