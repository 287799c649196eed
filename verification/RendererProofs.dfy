/** What the control sequences of each path do to the terminal. */
module PaintProofs {
  import opened Common
  import opened Terminal
  import opened Renderer

  /** The row that shows a line: its cells, and blanks to the right edge. */
  function Shown(c: Setting, line: string): Row {
    var cells := c.text.Fit(line, c.width);
    cells + BlankRow(Max(0, c.width - |cells|))
  }

  function RowAt(c: Setting, lines: seq<string>, i: nat): Row {
    if i < |lines| then Shown(c, lines[i]) else BlankRow(c.width)
  }

  /** The rows that show `lines`, followed by blank rows up to `n`. */
  function Picture(c: Setting, lines: seq<string>, n: nat): (r: seq<Row>)
    ensures |r| == n
  {
    seq(n, i requires 0 <= i => RowAt(c, lines, i))
  }

  /** A terminal of the size the renderer was told. */
  ghost predicate Fits(c: Setting, t: Term) {
    t.Valid() && t.width == c.width && t.height == c.height && c.text.Truncates()
  }

  /** `r` is `t` with other rows and the cursor on another row: nothing was
      clamped or wrapped on the way. */
  predicate Quiet(t: Term, r: Term) {
    r.clamped == t.clamped && r.wrapped == t.wrapped
  }

  lemma FitFits(c: Setting, line: string)
    requires c.text.Truncates()
    ensures |c.text.Fit(line, c.width)| <= c.width
  {
  }

  lemma PrintOnBlank(c: Setting, t: Term, line: string)
    requires Fits(c, t) && t.col == 0 && t.rows[t.at] == BlankRow(t.width)
    ensures var cells := c.text.Fit(line, c.width);
            Step(t, Print(cells)) == t.(rows := t.rows[t.at := Shown(c, line)], col := |cells|)
  {
    var cells := c.text.Fit(line, c.width);
    FitFits(c, line);
    PutCellsFits(t, cells);
    var blank := BlankRow(t.width);
    assert blank[..0] + cells + blank[|cells|..] == Shown(c, line);
  }

  lemma ErasePrint(c: Setting, t: Term, line: string)
    requires Fits(c, t) && t.col == 0
    ensures var cells := c.text.Fit(line, c.width);
            Run(t, [EraseLine, Print(cells)]) == t.(rows := t.rows[t.at := Shown(c, line)], col := |cells|)
  {
    hide Run;
    var cells := c.text.Fit(line, c.width);
    var u := Step(t, EraseLine);
    RunTwo(t, EraseLine, Print(cells));
    PrintOnBlank(c, u, line);
    assert u.rows[t.at := Shown(c, line)] == t.rows[t.at := Shown(c, line)];
  }

  /** A line break, then a line on the blank row it leads to. */
  lemma PrintNext(c: Setting, u: Term, line: string, broken: bool)
    requires Fits(c, u) && (!broken ==> u.col == 0)
    requires var at := if broken then u.at + 1 else u.at;
             at < |u.rows| ==> u.rows[at] == BlankRow(u.width)
    ensures var r := Run(u, (if broken then [NewLine] else []) + [Print(c.text.Fit(line, c.width))]);
            var v := if broken then NextLine(u.(col := 0)) else u;
            r.rows == v.rows[v.at := Shown(c, line)] && r.at == v.at && Quiet(u, r)
  {
    hide Run;
    var sep := if broken then [NewLine] else [];
    var op := Print(c.text.Fit(line, c.width));
    var v := if broken then NextLine(u.(col := 0)) else u;
    if broken {
      RunOne(u, NewLine);
    } else {
      RunNone(u);
    }
    assert Run(u, sep) == v;
    RunConcat(u, sep, [op]);
    RunOne(v, op);
    PrintOnBlank(c, v, line);
  }

  lemma PictureGrows(c: Setting, lines: seq<string>, k: nat, n: nat)
    requires k < |lines| && k <= n
    ensures var rows := Picture(c, lines[..k], n);
            var more := if k < n then rows else rows + [BlankRow(c.width)];
            more[k := Shown(c, lines[k])] == Picture(c, lines[..k + 1], Max(n, k + 1))
  {
    var more := if k < n then Picture(c, lines[..k], n) else Picture(c, lines[..k], n) + [BlankRow(c.width)];
    assert |more| == Max(n, k + 1);
    var whole := Picture(c, lines[..k + 1], Max(n, k + 1));
    forall i | 0 <= i < |more|
      ensures more[k := Shown(c, lines[k])][i] == whole[i]
    {
      assert whole[i] == RowAt(c, lines[..k + 1], i);
    }
  }

  /** Printing from the top of a blank screen shows the lines, scrolling the
      first ones away when they do not all fit. */
  lemma {:induction false} PrintLinesPaints(c: Setting, t: Term, lines: seq<string>, k: nat)
    requires Fits(c, t) && t.at == 0 && t.col == 0 && t.rows == Picture(c, [], c.height)
    requires k <= |lines|
    ensures var r := Run(t, PrintLines(c, lines, k));
            && r.rows == Picture(c, lines[..k], Max(c.height, k))
            && r.at == Max(0, k - 1) && Quiet(t, r) && (k == 0 ==> r.col == 0)
    decreases k
  {
    hide Run;
    if k == 0 {
      RunNone(t);
      assert t.rows == Picture(c, lines[..0], c.height);
    } else {
      PrintLinesPaints(c, t, lines, k - 1);
      var before := PrintLines(c, lines, k - 1);
      var u := Run(t, before);
      var more := (if k > 1 then [NewLine] else []) + [Print(c.text.Fit(lines[k - 1], c.width))];
      PrintNext(c, u, lines[k - 1], k > 1);
      RunConcat(t, before, more);
      assert before + more == PrintLines(c, lines, k);
      PictureGrows(c, lines, k - 1, Max(c.height, k - 1));
    }
  }

  /** The rows with `lines[from..k]` painted over them. */
  function Painted(c: Setting, rows: seq<Row>, lines: seq<string>, from: nat, k: nat): (r: seq<Row>)
    requires from <= k <= |lines|
    ensures |r| == Max(|rows|, k)
  {
    seq(Max(|rows|, k), i requires 0 <= i < Max(|rows|, k) =>
      if from <= i < k then Shown(c, lines[i]) else if i < |rows| then rows[i] else BlankRow(c.width))
  }

  /** A line break when `broken`, then a line on a row cleared for it. */
  lemma PaintNext(c: Setting, u: Term, line: string, broken: bool)
    requires Fits(c, u) && (!broken ==> u.col == 0)
    ensures var r := Run(u, (if broken then [NewLine] else []) + [EraseLine, Print(c.text.Fit(line, c.width))]);
            var v := if broken then NextLine(u.(col := 0)) else u;
            r.rows == v.rows[v.at := Shown(c, line)] && r.at == v.at && Quiet(u, r)
  {
    hide Run;
    var sep := if broken then [NewLine] else [];
    var ops := [EraseLine, Print(c.text.Fit(line, c.width))];
    var v := if broken then NextLine(u.(col := 0)) else u;
    if broken {
      RunOne(u, NewLine);
    } else {
      RunNone(u);
    }
    assert Run(u, sep) == v;
    RunConcat(u, sep, ops);
    ErasePrint(c, v, line);
  }

  lemma PaintedGrows(c: Setting, rows: seq<Row>, lines: seq<string>, from: nat, k: nat)
    requires from <= k < |lines| && from < |rows|
    ensures var some := Painted(c, rows, lines, from, k);
            var more := if k < |some| then some else some + [BlankRow(c.width)];
            |some| >= k && more[k := Shown(c, lines[k])] == Painted(c, rows, lines, from, k + 1)
  {
  }

  lemma PaintedNone(c: Setting, rows: seq<Row>, lines: seq<string>, from: nat)
    requires from <= |lines| && from <= |rows|
    ensures Painted(c, rows, lines, from, from) == rows
  {
  }

  lemma {:induction false} PaintRangePaints(c: Setting, t: Term, lines: seq<string>, from: nat, k: nat)
    requires Fits(c, t) && t.at == from && t.col == 0 && from < k <= |lines|
    ensures var r := Run(t, PaintRange(c, lines, from, k));
            r.rows == Painted(c, t.rows, lines, from, k) && r.at == k - 1 && Quiet(t, r)
    decreases k
  {
    hide Run, Painted;
    var before := PaintRange(c, lines, from, k - 1);
    var u := Run(t, before);
    var more := (if k - 1 > from then [NewLine] else []) + [EraseLine, Print(c.text.Fit(lines[k - 1], c.width))];
    if k - 1 == from {
      RunNone(t);
      assert before == [] && u == t;
      PaintedNone(c, t.rows, lines, from);
    } else {
      PaintRangePaints(c, t, lines, from, k - 1);
    }
    PaintNext(c, u, lines[k - 1], k - 1 > from);
    RunConcat(t, before, more);
    assert before + more == PaintRange(c, lines, from, k);
    PaintedGrows(c, t.rows, lines, from, k - 1);
  }

  /** The rows with `n` of them blank from `from` on. */
  function Blanked(c: Setting, rows: seq<Row>, from: nat, n: nat): (r: seq<Row>)
    ensures |r| == |rows|
  {
    seq(|rows|, i requires 0 <= i < |rows| => if from <= i < from + n then BlankRow(c.width) else rows[i])
  }

  lemma {:induction false} ClearBelowBlanks(c: Setting, t: Term, n: nat)
    requires Fits(c, t) && t.at + n < |t.rows|
    ensures var r := Run(t, ClearBelow(n));
            r.rows == Blanked(c, t.rows, t.at + 1, n) && r.at == t.at + n && Quiet(t, r)
    decreases n
  {
    hide Run;
    if n == 0 {
      RunNone(t);
    } else {
      ClearBelowBlanks(c, t, n - 1);
      var u := Run(t, ClearBelow(n - 1));
      RunConcat(t, ClearBelow(n - 1), [NewLine, EraseLine]);
      RunTwo(u, NewLine, EraseLine);
    }
  }

  lemma ClearOneRow(u: Term, down: bool)
    requires u.Valid() && (down ==> u.at + 1 < |u.rows|)
    ensures Run(u, [Return, EraseLine] + if down then [Down(1)] else []) ==
            u.(rows := u.rows[u.at := BlankRow(u.width)], col := 0, at := if down then u.at + 1 else u.at)
  {
    hide Run, MoveUp, NextLine, PutCells;
    var v := u.(col := 0);
    var w := Step(v, EraseLine);
    var tail := if down then [Down(1)] else [];
    RunTwo(u, Return, EraseLine);
    RunConcat(u, [Return, EraseLine], tail);
    if down {
      RunOne(w, Down(1));
    } else {
      RunNone(w);
    }
  }

  lemma BlankedGrows(c: Setting, rows: seq<Row>, from: nat, n: nat)
    requires from + n < |rows|
    ensures Blanked(c, rows, from, n)[from + n := BlankRow(c.width)] == Blanked(c, rows, from, n + 1)
  {
  }

  lemma {:induction false} ClearDownBlanks(c: Setting, t: Term, k: nat, n: nat)
    requires Fits(c, t) && 0 < k <= n && t.at + n <= |t.rows|
    ensures var r := Run(t, ClearDown(k, n));
            && r.rows == Blanked(c, t.rows, t.at, k) && Quiet(t, r) && r.col == 0
            && r.at == (if k < n then t.at + k else t.at + n - 1)
    decreases k
  {
    hide Run;
    var before := ClearDown(k - 1, n);
    var step := [Return, EraseLine] + if k - 1 < n - 1 then [Down(1)] else [];
    var u := Run(t, before);
    if k > 1 {
      ClearDownBlanks(c, t, k - 1, n);
    } else {
      RunNone(t);
      assert before == [] && u == t;
      assert Blanked(c, t.rows, t.at, 0) == t.rows;
    }
    RunConcat(t, before, step);
    assert before + step == ClearDown(k, n);
    ClearOneRow(u, k < n);
    BlankedGrows(c, t.rows, t.at, k - 1);
  }

  /** A relative move that stays on screen reaches its row. */
  lemma VerticalMoves(t: Term, delta: int)
    requires t.Valid() && t.Top() <= t.at + delta < |t.rows|
    ensures Run(t, Vertical(delta)) == t.(at := t.at + delta)
  {
    hide Run;
    if delta > 0 {
      RunOne(t, Down(delta));
    } else if delta < 0 {
      RunOne(t, Up(-delta));
    } else {
      RunNone(t);
    }
  }

  lemma SeekMoves(t: Term, delta: int, next: bool)
    requires t.Valid() && t.Top() <= t.at + delta < |t.rows|
    ensures var u := t.(at := t.at + delta, col := 0);
            Run(t, SeekOps(delta, next)) == if next then NextLine(u) else u
  {
    VerticalMoves(t, delta);
    var v := t.(at := t.at + delta);
    var op := if next then NewLine else Return;
    hide *;
    assert SeekOps(delta, next) == Vertical(delta) + [op] by { SeekParts(delta, next); }
    ToColumnZero(v);
    RunSnoc(t, Vertical(delta), op);
  }

  lemma SeekParts(delta: int, next: bool)
    ensures SeekOps(delta, next) == Vertical(delta) + [if next then NewLine else Return]
  {
  }

  lemma ToColumnZero(t: Term)
    requires t.Valid()
    ensures Step(t, NewLine) == NextLine(t.(col := 0)) && Step(t, Return) == t.(col := 0)
  {
  }

  lemma WipeBlanks(c: Setting, t: Term, n: nat)
    requires Fits(c, t) && 0 < n && t.at + n < |t.rows|
    ensures var r := Run(t, WipeOps(n));
            r.rows == Blanked(c, t.rows, t.at + 1, n) && r.at == t.at && r.col == 0 && Quiet(t, r)
  {
    hide Run;
    var u := t.(at := t.at + 1);
    var v := Run(u, ClearDown(n, n));
    assert v.rows == Blanked(c, t.rows, t.at + 1, n) && v.at == t.at + n && v.col == 0 && Quiet(t, v) by {
      ClearDownBlanks(c, u, n, n);
    }
    assert Run(t, [Down(1)]) == u by {
      RunOne(t, Down(1));
    }
    RunConcat(t, [Down(1)], ClearDown(n, n));
    RunConcat(t, [Down(1)] + ClearDown(n, n), [Up(n)]);
    RunOne(v, Up(n));
  }

  /** The synchronized-output brackets around a write change nothing. */
  lemma Synchronized(t: Term, ops: seq<Op>)
    requires t.Valid()
    ensures Run(t, [BeginSync] + ops + [EndSync]) == Run(t, ops)
  {
    hide Run;
    RunOne(t, BeginSync);
    RunConcat(t, [BeginSync], ops);
    RunConcat(t, [BeginSync] + ops, [EndSync]);
    RunOne(Run(t, ops), EndSync);
  }

  lemma Clears(c: Setting, t: Term)
    requires Fits(c, t)
    ensures Run(t, [EraseScrollback, EraseScreen, Home]) == t.(rows := Picture(c, [], c.height), at := 0, col := 0)
  {
    hide Run;
    var u := Step(t, EraseScrollback);
    var v := Step(u, EraseScreen);
    RunTwo(t, EraseScrollback, EraseScreen);
    assert [EraseScrollback, EraseScreen, Home] == [EraseScrollback, EraseScreen] + [Home];
    RunConcat(t, [EraseScrollback, EraseScreen], [Home]);
    RunOne(v, Home);
    assert v.rows == Picture(c, [], c.height);
  }

  /** A full render shows the lines and nothing else, from any terminal when
      it clears, else from a blank screen with the cursor home. */
  lemma FullPaints(c: Setting, t: Term, lines: seq<string>, clear: bool)
    requires Fits(c, t)
    requires clear || (t.at == 0 && t.col == 0 && t.rows == Picture(c, [], c.height))
    ensures var r := Run(t, FullOps(c, lines, clear));
            && r.rows == Picture(c, lines, Max(c.height, |lines|))
            && r.at == Max(0, |lines| - 1) && Quiet(t, r) && (lines == [] ==> r.col == 0)
  {
    hide Run;
    var erase := if clear then [EraseScrollback, EraseScreen, Home] else [];
    var body := PrintLines(c, lines, |lines|);
    if clear {
      Clears(c, t);
    } else {
      RunNone(t);
    }
    var u := Run(t, erase);
    PrintLinesPaints(c, u, lines, |lines|);
    assert lines[..|lines|] == lines;
    RunConcat(t, erase, body);
    Synchronized(t, erase + body);
    assert FullOps(c, lines, clear) == [BeginSync] + (erase + body) + [EndSync];
  }
}
