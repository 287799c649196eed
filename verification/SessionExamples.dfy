/** Sessions on a two-row screen in which the default setting, and switching it,
    leave a wrong picture. */
module SessionExamples {
  import opened Common
  import opened Terminal
  import opened Renderer
  import opened PaintProofs
  import opened Fidelity
  import opened Session

  function PlainCells(s: string): seq<Cell> {
    seq(|s|, i requires 0 <= i < |s| => Glyph([s[i]]))
  }

  function PlainCut(s: string, w: nat): string {
    if w < |s| then s[..w] else s
  }

  const PLAIN := Options(Text(PlainCells, PlainCut), false, false)

  const FOUR := Frame(["a", "b", "c", "d"], None, false)
  const THREE := Frame(["a", "b", "c"], None, false)
  const EDITED := Frame(["a", "x", "c"], None, false)
  const LONGER := Frame(["a", "x", "c", "d"], None, false)

  const A: Row := [Glyph("a")]
  const B: Row := [Glyph("b")]
  const C: Row := [Glyph("c")]
  const X: Row := [Glyph("x")]
  const NONE: Row := [Blank]
  const EDIT_MOVES: seq<Op> := [BeginSync] + [Up(1), Return]
  const EDIT_PAINT: seq<Op> := [EraseLine, Print(X)]
  const EDIT_ENDS: seq<Op> := [EndSync, HideCursor]

  const START := Sys(PLAIN, INITIAL, Term(1, 2, [NONE, NONE], 0, 0, false, false, true))
  const SMALL := Setting(PLAIN.text, 1, 2, false, false)

  /** After four lines and then three of them, shown on two rows. */
  function Shrunk(): Sys {
    Apply(Apply(START, Rendered(FOUR)), Rendered(THREE))
  }

  lemma ShrunkState()
    ensures Untouched(SMALL, START.shadow, START.term) && Current(START) == SMALL == Current(Shrunk())
    ensures var two := Shrunk();
            && two.options == PLAIN && Tracks(SMALL, two.shadow, two.term) && !SizeChanged(SMALL, two.shadow)
            && two.shadow.lines == THREE.lines && two.shadow.max == 4 && two.shadow.top == 2
              && two.shadow.hardwareRow == 2
  {
    hide Run;
    var c := SMALL;
    assert BlankRow(1) == NONE;
    assert START.term.rows == Picture(c, [], 2);
    assert c.text.Truncates() by { PlainRows(c); }
    SafeRenderIsFaithful(c, START.shadow, FOUR, START.term);
    var one := Apply(START, Rendered(FOUR));
    assert one.shadow.lines == FOUR.lines && one.shadow.max == 4 && one.shadow.top == 2;
    hide Picture, FirstChanged, LastChanged, DeleteOps, CursorOps;
    ShrinkIsSafe(c, one.shadow);
    SafeRenderIsFaithful(c, one.shadow, THREE, one.term);
  }

  /** With the default setting the refinement fails: show four lines on a
      two-row screen, then three of them, then change the second.  The change is
      compared with the content's own top, row 1, but the screen still starts
      at row 2, so no repaint is taken, the upward move stops at the top of the
      screen, and the new text overwrites the third line. */
  lemma WithoutClearingItFails()
    ensures var two := Shrunk();
            var three := Apply(two, Rendered(EDITED));
            && Tracks(SMALL, two.shadow, two.term)
            && Choose(SMALL, two.shadow, EDITED) == Partial && !Tracks(SMALL, three.shadow, three.term)
            && two.term.Scrollback() + two.term.Screen() == [A, B] + [C, NONE]
            && three.term.Scrollback() + three.term.Screen() == [A, B] + [X, NONE]
            && three.term.Screen() == [X, NONE] && three.term.clamped
            && Repainted(PLAIN, three.term, EDITED.lines).Screen() == [X, C]
  {
    hide Run, Render, Tracks, Picture, Safe, Choose, Shrunk, SizeChanged;
    ShrunkState();
    var two := Shrunk();
    EditIsUnsafe(SMALL, two.shadow);
    EditFails(two);
    PlainRows(SMALL);
    ThreeRows(SMALL, two.shadow, two.term);
    EditOverwrites(SMALL, two.shadow, two.term);
    var three := Apply(two, Rendered(EDITED));
    FullPaints(SMALL, three.term, EDITED.lines, true);
    EditedPicture(SMALL);
    assert three.term.rows[2..] == [X, NONE] && three.term.rows[..2] == [A, B];
  }

  lemma EditFails(sys: Sys)
    requires Current(sys) == SMALL && Tracks(SMALL, sys.shadow, sys.term) && !SizeChanged(SMALL, sys.shadow)
    requires sys.shadow.lines == THREE.lines && sys.shadow.max == 4 && sys.shadow.top == 2
    ensures var next := Apply(sys, Rendered(EDITED)); !Tracks(SMALL, next.shadow, next.term)
  {
    hide Run, Render, Picture, Choose, FirstChanged, LastChanged;
    EditIsUnsafe(SMALL, sys.shadow);
    FaithfulExactlyWhenSafe(SMALL, sys.shadow, EDITED, sys.term);
  }

  /** Switching clearing on does not mend it: after the same two frames, four
      lines again, the second changed, are still patched out of reach. */
  lemma SwitchingOnCanFail()
    ensures var on := Apply(Shrunk(), Clearing(true));
            var c := Current(on);
            var next := Apply(on, Rendered(LONGER));
            && c.clearOnShrink && Tracks(c, on.shadow, on.term) && on.shadow.max == 4
            && Choose(c, on.shadow, LONGER) == Partial && !Tracks(c, next.shadow, next.term)
  {
    hide Run, Render, Picture, Choose, Shrunk, FirstChanged, LastChanged;
    ShrunkState();
    var on := Apply(Shrunk(), Clearing(true));
    var c := Current(on);
    assert Tracks(c, on.shadow, on.term) by {
      SamePicture(SMALL, c, on.shadow.lines, 4);
    }
    LongerIsUnsafe(c, on.shadow);
    FaithfulExactlyWhenSafe(c, on.shadow, LONGER, on.term);
  }

  ghost predicate IsPlain(c: Setting) {
    c.height == 2 && c.width == 1 && c.text == PLAIN.text
  }

  lemma PlainRows(c: Setting)
    requires IsPlain(c)
    ensures Shown(c, "a") == A && Shown(c, "b") == B && Shown(c, "c") == C && Shown(c, "x") == X
    ensures BlankRow(1) == NONE && c.text.Fit("x", 1) == X && c.text.Truncates()
  {
    assert PlainCells("a") == A && PlainCells("b") == B && PlainCells("c") == C && PlainCells("x") == X;
    forall s, w: nat
      ensures |PLAIN.text.cells(PLAIN.text.truncate(s, w))| <= w
    {
    }
  }

  lemma ThreeRows(c: Setting, s: Shadow, t: Term)
    requires IsPlain(c) && Tracks(c, s, t) && s.lines == THREE.lines && s.max == 4
    ensures t.Valid() && t.rows == [A, B, C, NONE] && t.Top() == 2
    ensures t.at == s.hardwareRow && t.width == 1 && t.height == 2
    ensures t.Scrollback() == [A, B] && t.Screen() == [C, NONE]
  {
    hide Shown;
    PlainRows(c);
    assert t.rows == Picture(c, THREE.lines, 4);
    assert t.rows[0] == RowAt(c, THREE.lines, 0) && t.rows[1] == RowAt(c, THREE.lines, 1);
    assert t.rows[2] == RowAt(c, THREE.lines, 2) && t.rows[3] == RowAt(c, THREE.lines, 3);
  }

  lemma EditedPicture(c: Setting)
    requires IsPlain(c)
    ensures Picture(c, EDITED.lines, 3)[1..] == [X, C]
  {
    hide Shown;
    PlainRows(c);
    var p := Picture(c, EDITED.lines, 3);
    assert p[1] == RowAt(c, EDITED.lines, 1) && p[2] == RowAt(c, EDITED.lines, 2);
  }

  /** What the renderer writes for the edit. */
  lemma EditOps(c: Setting, s: Shadow)
    requires IsPlain(c) && !c.clearOnShrink && !SizeChanged(c, s)
    requires s.lines == THREE.lines && s.max == 4 && s.top == 2 && s.hardwareRow == 2
    ensures Render(c, s, EDITED).1 == EDIT_MOVES + EDIT_PAINT + EDIT_ENDS
  {
    hide Run, Choose, FirstChanged, LastChanged, MoveTarget, ScrollAhead, PaintRange, SeekOps, SizeChanged, TrailingOps;
    EditIsUnsafe(c, s);
    EditShape(c, s);
    EditPieces(c);
    ThreePieces(SeekOps(-1, false), PaintRange(c, EDITED.lines, 1, 2));
  }

  lemma EditShape(c: Setting, s: Shadow)
    requires IsPlain(c) && s.lines == THREE.lines && s.max == 4 && s.top == 2 && s.hardwareRow == 2
    ensures FirstChanged(s.lines, EDITED.lines) == 1 == LastChanged(s.lines, EDITED.lines)
    ensures MoveTarget(s, EDITED.lines, 1) == 1 && ScrollAhead(c, s, 1) == (s, 2, [])
            && TrailingOps(s, EDITED.lines, 1) == []
  {
    assert !Changed(s.lines, EDITED.lines, 0) && Changed(s.lines, EDITED.lines, 1)
           && !Changed(s.lines, EDITED.lines, 2);
  }

  lemma EditPieces(c: Setting)
    requires IsPlain(c)
    ensures SeekOps(-1, false) == [Up(1), Return]
    ensures PaintRange(c, EDITED.lines, 1, 2) == EDIT_PAINT
  {
    PlainRows(c);
    hide IsPlain;
    assert Vertical(-1) == [Up(1)];
    assert PaintRange(c, EDITED.lines, 1, 1) == [];
  }

  lemma ThreePieces(seek: seq<Op>, paint: seq<Op>)
    ensures [BeginSync] + [] + seek + paint + [] + [EndSync] + [HideCursor] == ([BeginSync] + seek) + paint + EDIT_ENDS
  {
  }

  lemma EditOverwrites(c: Setting, s: Shadow, t: Term)
    requires IsPlain(c) && !c.clearOnShrink && !SizeChanged(c, s)
    requires s.lines == THREE.lines && s.max == 4 && s.top == 2 && s.hardwareRow == 2
    requires t.Valid() && t.width == 1 && t.height == 2 && t.rows == [A, B, C, NONE] && t.at == 2
    ensures var r := Run(t, Render(c, s, EDITED).1);
            r.rows == [A, B, X, NONE] && r.clamped && r.width == 1 && r.height == 2
  {
    hide Run, Render, Step;
    EditOps(c, s);
    EditSteps(t);
    RunEdit(t);
  }

  lemma EditSteps(t: Term)
    requires t.Valid() && t.width == 1 && t.height == 2 && t.rows == [A, B, C, NONE] && t.at == 2
    ensures var u := Step(Step(t, Up(1)), Return);
            u == t.(clamped := true, col := 0)
            && Step(Step(u, EraseLine), Print(X)) == u.(rows := [A, B, X, NONE], col := 1)
  {
    hide Run, PutCells;
    var u := t.(clamped := true, col := 0);
    var v := u.(rows := [A, B, NONE, NONE]);
    assert BlankRow(1) == NONE;
    assert u.rows[2 := NONE] == v.rows;
    PrintX(v);
    assert v.rows[2 := X] == [A, B, X, NONE];
  }

  lemma PrintX(v: Term)
    requires v.Valid() && v.width == 1 && v.rows[v.at] == NONE && v.col == 0
    ensures PutCells(v, X) == v.(rows := v.rows[v.at := X], col := 1)
  {
    assert X[1..] == [];
    assert SetCell(NONE, 0, X[0]) == X;
    assert PutCells(PutCell(v, X[0]), []) == PutCell(v, X[0]);
  }

  lemma RunEdit(t: Term)
    requires t.Valid()
    ensures Run(t, EDIT_MOVES + EDIT_PAINT + EDIT_ENDS) ==
            Step(Step(Step(Step(t, Up(1)), Return), EraseLine), Print(X)).(visible := false)
  {
    hide Run, Step;
    SilentOps(t);
    RunSeven(t, BeginSync, Up(1), Return, EraseLine, Print(X), EndSync, HideCursor);
    SilentOps(Step(Step(Step(Step(t, Up(1)), Return), EraseLine), Print(X)));
  }

  lemma RunSeven(t: Term, a: Op, b: Op, c: Op, d: Op, e: Op, f: Op, g: Op)
    requires t.Valid()
    ensures Run(t, [a] + [b, c] + [d, e] + [f, g]) == Step(Step(Step(Step(Step(Step(Step(t, a), b), c), d), e), f), g)
  {
    hide Run, Step;
    RunParts(t, [a] + [b, c], [d, e], [f, g]);
    RunThree(t, a, b, c);
    var u := Step(Step(Step(t, a), b), c);
    RunTwo(u, d, e);
    RunTwo(Step(Step(u, d), e), f, g);
  }

  lemma RunThree(t: Term, a: Op, b: Op, c: Op)
    requires t.Valid()
    ensures Run(t, [a] + [b, c]) == Step(Step(Step(t, a), b), c)
  {
    hide Run, Step;
    RunConcat(t, [a], [b, c]);
    RunOne(t, a);
    RunTwo(Step(t, a), b, c);
  }

  lemma RunParts(t: Term, a: seq<Op>, b: seq<Op>, c: seq<Op>)
    requires t.Valid()
    ensures Run(t, a + b + c) == Run(Run(Run(t, a), b), c)
  {
    hide Run;
    RunConcat(t, a + b, c);
    RunConcat(t, a, b);
  }

  lemma SilentOps(t: Term)
    requires t.Valid()
    ensures Step(t, BeginSync) == t && Step(Step(t, EndSync), HideCursor) == t.(visible := false)
  {
    hide MoveUp, PutCells;
  }

  lemma ShrinkIsSafe(c: Setting, s: Shadow)
    requires c.height == 2 && !c.clearOnShrink && !SizeChanged(c, s)
    requires s.lines == FOUR.lines && s.max == 4 && s.top == 2
    ensures Choose(c, s, THREE) == Shorter && Safe(c, s, THREE)
    ensures Render(c, s, THREE).0 ==
            s.(lines := THREE.lines, width := c.width, height := 2, cursorRow := 2, hardwareRow := 2)
  {
    assert !Changed(s.lines, THREE.lines, 0) && !Changed(s.lines, THREE.lines, 1) && !Changed(s.lines, THREE.lines, 2);
    assert Changed(s.lines, THREE.lines, 3);
  }

  lemma EditIsUnsafe(c: Setting, s: Shadow)
    requires c.height == 2 && c.width == 1 && c.text == PLAIN.text && !c.clearOnShrink && !SizeChanged(c, s)
    requires s.lines == THREE.lines && s.max == 4 && s.top == 2
    ensures Choose(c, s, EDITED) == Partial && !Safe(c, s, EDITED) && !EmptiesOneRow(c, s, EDITED)
    ensures Legible(c, s.lines, EDITED.lines)
  {
    assert !Changed(s.lines, EDITED.lines, 0) && Changed(s.lines, EDITED.lines, 1)
           && !Changed(s.lines, EDITED.lines, 2);
    assert PlainCells("b") == [Glyph("b")] && PlainCells("x") == [Glyph("x")];
    assert Shown(c, "b")[0] != Shown(c, "x")[0];
  }

  lemma LongerIsUnsafe(c: Setting, s: Shadow)
    requires IsPlain(c) && c.clearOnShrink && !SizeChanged(c, s)
    requires s.lines == THREE.lines && s.max == 4 && s.top == 2
    ensures Choose(c, s, LONGER) == Partial && !Safe(c, s, LONGER) && !EmptiesOneRow(c, s, LONGER)
    ensures Legible(c, s.lines, LONGER.lines) && Closed(LONGER.lines) && CursorInTail(c, LONGER)
  {
    assert !Changed(s.lines, LONGER.lines, 0) && Changed(s.lines, LONGER.lines, 1);
    assert !Changed(s.lines, LONGER.lines, 2) && Changed(s.lines, LONGER.lines, 3);
    assert PlainCells("b") == [Glyph("b")] && PlainCells("x") == [Glyph("x")] && PlainCells("d") == [Glyph("d")];
    assert Shown(c, "b")[0] != Shown(c, "x")[0] && Shown(c, "d")[0] != BlankRow(1)[0];
  }
}
