/** When the differential renderer shows what a full repaint would show. */
module Fidelity {
  import opened Common
  import opened Terminal
  import opened Renderer
  import opened PaintProofs

  /** Every line is non-empty: the renderer ends each with a style reset. */
  predicate Closed(lines: seq<string>) {
    forall i :: 0 <= i < |lines| ==> lines[i] != ""
  }

  /** The marker is looked for in the last `height` lines only. */
  predicate CursorInTail(c: Setting, f: Frame) {
    f.cursor.Some? ==> Max(0, |f.lines| - c.height) <= f.cursor.value.row < |f.lines|
  }

  /** The shadow tells the truth about the terminal: the rows show the last
      frame and nothing below it, and the cursor is on the row it records. */
  ghost predicate Tracks(c: Setting, s: Shadow, t: Term) {
    && Fits(c, t) && s.width == c.width && s.height == c.height
    && Closed(s.lines) && |s.lines| <= s.max
    && s.top == Max(0, s.max - c.height)
    && t.rows == Picture(c, s.lines, Max(s.max, c.height))
    && t.at == s.hardwareRow <= Max(0, |s.lines| - 1)
    && (s.lines == [] ==> t.col == 0 && s.max <= c.height)
  }

  /** Before the first frame the screen is blank with the cursor home. */
  ghost predicate Untouched(c: Setting, s: Shadow, t: Term) {
    && Fits(c, t) && s == INITIAL
    && t.rows == Picture(c, [], c.height) && t.at == 0 && t.col == 0
  }

  /** A repaint is due whatever the terminal holds. */
  ghost predicate Stale(c: Setting, s: Shadow, t: Term) {
    Fits(c, t) && SizeChanged(c, s)
  }

  ghost predicate Ready(c: Setting, s: Shadow, t: Term) {
    Tracks(c, s, t) || Untouched(c, s, t) || Stale(c, s, t)
  }

  /** The marker is not above the rows on screen after the render. */
  predicate CursorOnScreen(c: Setting, s: Shadow, f: Frame) {
    f.cursor.Some? ==> f.cursor.value.row >= Max(0, Max(s.max, |f.lines|) - c.height)
  }

  /** What can be told before a render about whether it will be faithful: a
      full repaint always is; otherwise nothing above the screen may change,
      some line must remain on screen, and so must the cursor. */
  predicate Safe(c: Setting, s: Shadow, f: Frame) {
    match Choose(c, s, f)
    case First => true
    case Repaint => true
    case Same => CursorOnScreen(c, s, f)
    case _ => FirstChanged(s.lines, f.lines) >= s.top && |f.lines| > s.top && CursorOnScreen(c, s, f)
  }

  /** The hardware cursor is where the marker was in the frame, in its own cell or
      in the last column, and shows if it is to; without a marker it is hidden. */
  ghost predicate CursorPlaced(c: Setting, f: Frame, t: Term) {
    if f.cursor.Some? && f.lines != [] then
      && t.at == f.cursor.value.row && t.col == Min(f.cursor.value.col, c.width - 1)
      && t.visible == c.showCursor
    else !t.visible
  }

  lemma CursorMoves(c: Setting, t: Term, hardwareRow: nat, cursor: Option<Position>, total: nat)
    requires Fits(c, t) && t.at == hardwareRow
    requires cursor.Some? && total > 0 ==> t.Top() <= cursor.value.row < total <= |t.rows|
    ensures var r := Run(t, CursorOps(c, hardwareRow, cursor, total));
            && r.rows == t.rows && r.at == CursorRowAfter(hardwareRow, cursor, total) && Quiet(t, r)
            && (cursor.None? || total == 0 ==> r.col == t.col && !r.visible)
            && (cursor.Some? && total > 0 ==>
                  && r.at == cursor.value.row && r.col == Min(cursor.value.col, c.width - 1)
                  && r.visible == c.showCursor)
  {
    hide Run;
    if cursor.None? || total == 0 {
      RunOne(t, HideCursor);
    } else {
      var delta := CursorRowAfter(hardwareRow, cursor, total) - hardwareRow;
      var a := Vertical(delta);
      var b := Column(cursor.value.col + 1);
      var d := if c.showCursor then ShowCursor else HideCursor;
      VerticalMoves(t, delta);
      RunConcat(t, a, [b]);
      RunOne(Run(t, a), b);
      RunConcat(t, a + [b], [d]);
      RunOne(Run(t, a + [b]), d);
    }
  }

  /** A write that leaves the right picture and the cursor on the recorded row,
      followed by the placing of the cursor. */
  lemma TracksAfter(c: Setting, s': Shadow, f: Frame, t: Term, ops: seq<Op>, end: nat)
    requires Fits(c, t) && Closed(f.lines) && CursorInTail(c, f)
    requires s'.lines == f.lines && s'.width == c.width && s'.height == c.height
    requires |f.lines| <= s'.max && s'.top == Max(0, s'.max - c.height)
    requires f.cursor.Some? ==> f.cursor.value.row >= s'.top
    requires end <= Max(0, |f.lines| - 1) && s'.hardwareRow == CursorRowAfter(end, f.cursor, |f.lines|)
    requires var u := Run(t, ops);
             && u.rows == Picture(c, f.lines, Max(s'.max, c.height)) && u.at == end && Quiet(t, u)
             && (f.lines == [] ==> u.col == 0 && s'.max <= c.height)
    ensures var t' := Run(t, ops + CursorOps(c, end, f.cursor, |f.lines|));
            Tracks(c, s', t') && Quiet(t, t') && CursorPlaced(c, f, t')
  {
    hide Run;
    var u := Run(t, ops);
    RunConcat(t, ops, CursorOps(c, end, f.cursor, |f.lines|));
    CursorMoves(c, u, end, f.cursor, |f.lines|);
  }

  lemma FullIsFaithful(c: Setting, s: Shadow, f: Frame, t: Term, clear: bool)
    requires Ready(c, s, t) && Closed(f.lines) && CursorInTail(c, f)
    requires clear || (s.lines == [] && !SizeChanged(c, s))
    ensures var (s', ops) := FullRender(c, s, f, clear);
            Tracks(c, s', Run(t, ops)) && Quiet(t, Run(t, ops)) && CursorPlaced(c, f, Run(t, ops))
  {
    hide Run;
    if !clear {
      assert t.rows == Picture(c, [], c.height) && t.at == 0 && s.max <= c.height;
    }
    FullPaints(c, t, f.lines, clear);
    TracksAfter(c, FullShadow(c, s, f, clear), f, t, FullOps(c, f.lines, clear), Max(0, |f.lines| - 1));
  }

  lemma {:induction false} SameLines(a: seq<string>, b: seq<string>)
    requires Closed(a) && Closed(b) && FirstChanged(a, b) == -1
    ensures a == b
  {
    if |a| > |b| {
      assert Changed(a, b, |b|);
    }
    forall i | 0 <= i < |a|
      ensures a[i] == b[i]
    {
      assert !Changed(a, b, i);
    }
  }

  lemma SameIsFaithful(c: Setting, s: Shadow, f: Frame, t: Term)
    requires Tracks(c, s, t) && Closed(f.lines) && CursorInTail(c, f)
    requires Choose(c, s, f) == Same && CursorOnScreen(c, s, f)
    ensures var (s', ops) := Unchanged(c, s, f);
            Tracks(c, s', Run(t, ops)) && Quiet(t, Run(t, ops)) && CursorPlaced(c, f, Run(t, ops))
  {
    hide Run;
    SameLines(s.lines, f.lines);
    CursorMoves(c, t, s.hardwareRow, f.cursor, |f.lines|);
  }

  /** The cursor goes to the end of the new lines, the rows below are cleared
      without scrolling, and the cursor comes back. */
  lemma DeleteOpsClear(c: Setting, s: Shadow, lines: seq<string>, t: Term)
    requires Tracks(c, s, t) && s.top < |lines| < |s.lines|
    ensures var r := Run(t, DeleteOps(c, s, lines));
            && r.rows == Blanked(c, t.rows, |lines|, |s.lines| - |lines|)
            && r.at == |lines| - 1 && Quiet(t, r)
  {
    hide Run;
    var seek := SeekOps(LineDiff(s, |lines| - 1, s.top), false);
    var wipe := WipeOps(|s.lines| - |lines|);
    var u := t.(at := |lines| - 1, col := 0);
    assert Run(t, seek) == u by {
      SeekMoves(t, |lines| - 1 - t.at, false);
    }
    RunConcat(t, seek, wipe);
    WipeBlanks(c, u, |s.lines| - |lines|);
    Synchronized(t, seek + wipe);
    assert DeleteOps(c, s, lines) == [BeginSync] + (seek + wipe) + [EndSync];
  }

  lemma DeletedPicture(c: Setting, old_: seq<string>, new_: seq<string>, n: nat)
    requires FirstChanged(old_, new_) >= |new_| && |new_| < |old_| <= n
    ensures Blanked(c, Picture(c, old_, n), |new_|, |old_| - |new_|) == Picture(c, new_, n)
  {
    forall i | 0 <= i < |new_|
      ensures old_[i] == new_[i]
    {
      assert !Changed(old_, new_, i);
    }
  }

  lemma DeleteIsFaithful(c: Setting, s: Shadow, f: Frame, t: Term)
    requires Tracks(c, s, t) && Closed(f.lines) && CursorInTail(c, f)
    requires Choose(c, s, f) == Shorter && Safe(c, s, f)
    ensures |f.lines| < |s.lines|
    ensures var (s', ops) := DeleteOnly(c, s, f);
            Tracks(c, s', Run(t, ops)) && Quiet(t, Run(t, ops)) && CursorPlaced(c, f, Run(t, ops))
  {
    hide Run;
    ChangesAreOrdered(s.lines, f.lines);
    DeleteOpsClear(c, s, f.lines, t);
    DeletedPicture(c, s.lines, f.lines, Max(s.max, c.height));
    TracksAfter(c, DeleteOnly(c, s, f).0, f, t, DeleteOps(c, s, f.lines), |f.lines| - 1);
  }

  /** What the fields keep among themselves, whatever the terminal shows: the
      working height covers the frame, and the top recorded is that of the
      working height. */
  ghost predicate Recorded(s: Shadow) {
    Closed(s.lines) && |s.lines| <= s.max && s.top == Max(0, s.max - Max(0, s.height))
  }

  /** The first change is at most one past the old lines, so the row to move to
      is one of theirs: nothing is ever scrolled ahead. */
  lemma NeverScrollsAhead(c: Setting, s: Shadow, f: Frame)
    requires Recorded(s) && !SizeChanged(c, s) && Closed(f.lines) && s.lines != []
    requires 0 <= FirstChanged(s.lines, f.lines) < |f.lines|
    ensures var first := FirstChanged(s.lines, f.lines);
            var target := MoveTarget(s, f.lines, first);
            && first <= |s.lines| && 0 <= target < |s.lines| && first - 1 <= target <= first
            && ScrollAhead(c, s, target) == (s, Max(0, s.max - c.height), [])
  {
    var first := FirstChanged(s.lines, f.lines);
    if |s.lines| < first {
      assert Changed(s.lines, f.lines, |s.lines|);
    }
  }

  /** Every render keeps the fields in step, and the frame is recorded. */
  lemma RenderRecords(c: Setting, s: Shadow, f: Frame)
    requires Recorded(s) && Closed(f.lines)
    ensures var s' := Render(c, s, f).0;
            Recorded(s') && s'.height == c.height && s'.lines == f.lines
  {
    hide FullOps, CursorOps, DeleteOps, PatchOps;
    ChosenPath(c, s, f);
    if Choose(c, s, f) == Same {
      SameLines(s.lines, f.lines);
    }
  }

  /** Whenever a render patches, the branch that scrolls ahead is not taken. */
  lemma PatchNeverScrollsAhead(c: Setting, s: Shadow, f: Frame)
    requires Recorded(s) && Closed(f.lines) && Choose(c, s, f) == Partial
    ensures var target := MoveTarget(s, f.lines, FirstChanged(s.lines, f.lines));
            0 <= target <= s.top + c.height - 1 && ScrollAhead(c, s, target) == (s, Max(0, s.max - c.height), [])
  {
    ChosenPath(c, s, f);
    NeverScrollsAhead(c, s, f);
  }

  /** After the last painted row, the rows of a longer old frame are cleared. */
  lemma TrailingClears(c: Setting, s: Shadow, lines: seq<string>, u: Term)
    requires Fits(c, u) && lines != [] && u.at == |lines| - 1 && u.Top() <= u.at
    requires |lines| < |s.lines| <= |u.rows|
    ensures var r := Run(u, TrailingOps(s, lines, |lines| - 1));
            && r.rows == Blanked(c, u.rows, |lines|, |s.lines| - |lines|)
            && r.at == u.at && Quiet(u, r)
  {
    hide Run;
    var extra := |s.lines| - |lines|;
    assert [] + ClearBelow(extra) == ClearBelow(extra);
    ClearBelowBlanks(c, u, extra);
    RunConcat(u, ClearBelow(extra), [Up(extra)]);
    RunOne(Run(u, ClearBelow(extra)), Up(extra));
  }

  /** Painting the rows from the first to the last change, and blanking those
      past the new end, turns the old picture into the new one. */
  lemma PatchedPicture(c: Setting, old_: seq<string>, new_: seq<string>, n: nat)
    requires Closed(old_) && Closed(new_)
    requires 0 <= FirstChanged(old_, new_) < |new_| && FirstChanged(old_, new_) <= |old_| <= n
    ensures var first := FirstChanged(old_, new_);
            var end := Min(LastChanged(old_, new_), |new_| - 1);
            && first <= end && (|old_| > |new_| ==> end == |new_| - 1)
            && var painted := Painted(c, Picture(c, old_, Max(n, first + 1)), new_, first, end + 1);
               (if |old_| > |new_| then Blanked(c, painted, |new_|, |old_| - |new_|) else painted)
               == Picture(c, new_, Max(n, |new_|))
  {
    hide Painted, Blanked, Picture, RowAt, FirstChanged, LastChanged;
    PatchEnds(old_, new_);
    var first := FirstChanged(old_, new_);
    var end := Min(LastChanged(old_, new_), |new_| - 1);
    var painted := Painted(c, Picture(c, old_, Max(n, first + 1)), new_, first, end + 1);
    var result := if |old_| > |new_| then Blanked(c, painted, |new_|, |old_| - |new_|) else painted;
    forall i: nat | i < |result|
      ensures result[i] == Picture(c, new_, Max(n, |new_|))[i]
    {
      PatchedRow(c, old_, new_, n, i);
    }
  }

  lemma PatchEnds(old_: seq<string>, new_: seq<string>)
    requires Closed(old_) && Closed(new_) && 0 <= FirstChanged(old_, new_) < |new_|
    ensures var first, end := FirstChanged(old_, new_), Min(LastChanged(old_, new_), |new_| - 1);
            first <= end < |new_| && (|old_| > |new_| ==> end == |new_| - 1) && (|old_| < |new_| ==> end == |new_| - 1)
  {
    ChangesAreOrdered(old_, new_);
    if |old_| > |new_| {
      assert Changed(old_, new_, |old_| - 1);
    }
  }

  lemma PatchedRow(c: Setting, old_: seq<string>, new_: seq<string>, n: nat, i: nat)
    requires Closed(old_) && Closed(new_)
    requires 0 <= FirstChanged(old_, new_) < |new_| && FirstChanged(old_, new_) <= |old_| <= n && i < Max(n, |new_|)
    requires FirstChanged(old_, new_) <= Min(LastChanged(old_, new_), |new_| - 1) < |new_|
    ensures var first := FirstChanged(old_, new_);
            var end := Min(LastChanged(old_, new_), |new_| - 1);
            var painted := Painted(c, Picture(c, old_, Max(n, first + 1)), new_, first, end + 1);
            |painted| == Max(n, |new_|)
            && (if |old_| > |new_| then Blanked(c, painted, |new_|, |old_| - |new_|) else painted)[i]
               == Picture(c, new_, Max(n, |new_|))[i]
  {
    hide Painted, Blanked, Picture, RowAt, FirstChanged, LastChanged;
    var first := FirstChanged(old_, new_);
    var end := Min(LastChanged(old_, new_), |new_| - 1);
    var rows := Picture(c, old_, Max(n, first + 1));
    var painted := Painted(c, rows, new_, first, end + 1);
    PatchEnds(old_, new_);
    PictureRow(c, new_, Max(n, |new_|), i);
    PaintedRow(c, rows, new_, first, end + 1, i);
    if |old_| > |new_| {
      BlankedRow(c, painted, |new_|, |old_| - |new_|, i);
    }
    if i < |rows| {
      PictureRow(c, old_, |rows|, i);
    }
    RowStays(c, old_, new_, i);
  }

  lemma PictureRow(c: Setting, lines: seq<string>, n: nat, i: nat)
    requires i < n
    ensures Picture(c, lines, n)[i] == RowAt(c, lines, i)
  {
  }

  lemma PaintedRow(c: Setting, rows: seq<Row>, lines: seq<string>, from: nat, k: nat, i: nat)
    requires from <= k <= |lines| && i < Max(|rows|, k)
    ensures Painted(c, rows, lines, from, k)[i] ==
            if from <= i < k then RowAt(c, lines, i) else if i < |rows| then rows[i] else BlankRow(c.width)
  {
    hide Shown;
  }

  lemma BlankedRow(c: Setting, rows: seq<Row>, from: nat, n: nat, i: nat)
    requires i < |rows|
    ensures Blanked(c, rows, from, n)[i] == if from <= i < from + n then BlankRow(c.width) else rows[i]
  {
  }

  /** Where nothing changes, and past the new end, rows are as they were. */
  lemma RowStays(c: Setting, old_: seq<string>, new_: seq<string>, i: nat)
    requires Closed(old_) && Closed(new_) && 0 <= FirstChanged(old_, new_)
    ensures i < FirstChanged(old_, new_) || LastChanged(old_, new_) < i ==> RowAt(c, old_, i) == RowAt(c, new_, i)
    ensures i >= |new_| ==> RowAt(c, new_, i) == BlankRow(c.width)
    ensures i >= |old_| ==> RowAt(c, old_, i) == BlankRow(c.width)
  {
    hide Shown;
    if i < FirstChanged(old_, new_) || LastChanged(old_, new_) < i {
      assert i < Max(|old_|, |new_|) ==> !Changed(old_, new_, i);
    }
  }

  /** The sequences that lead to the first row to paint. */
  function SeekFirst(s: Shadow, lines: seq<string>, first: nat): seq<Op> {
    var target := MoveTarget(s, lines, first);
    SeekOps(LineDiff(s, target, s.top), target < first)
  }

  lemma SeeksFirst(c: Setting, s: Shadow, f: Frame, t: Term)
    requires Tracks(c, s, t) && Closed(f.lines) && s.lines != []
    requires s.top <= FirstChanged(s.lines, f.lines) < |f.lines|
    ensures var first := FirstChanged(s.lines, f.lines);
            var u := Run(t, SeekFirst(s, f.lines, first));
            && u.rows == Picture(c, s.lines, Max(Max(s.max, c.height), first + 1))
            && u.at == first && u.col == 0 && Quiet(t, u)
  {
    hide Run;
    NeverScrollsAhead(c, s, f);
    var first := FirstChanged(s.lines, f.lines);
    var target := MoveTarget(s, f.lines, first);
    SeekMoves(t, target - t.at, target < first);
  }

  /** A write that seeks, paints and trails, whatever came before it. */
  lemma PatchEffect(c: Setting, t: Term, seek: seq<Op>, u: Term, s: Shadow, lines: seq<string>, first: nat, end: nat)
    requires Fits(c, t) && Run(t, seek) == u && u.at == first && u.col == 0 && Quiet(t, u)
    requires first <= end < |lines| && |s.lines| <= |u.rows|
    requires |s.lines| > |lines| ==> end == |lines| - 1
    ensures var r := Run(t, [BeginSync] + ((seek + PaintRange(c, lines, first, end + 1)) + TrailingOps(s, lines, end))
                         + [EndSync]);
            var painted := Painted(c, u.rows, lines, first, end + 1);
            && r.at == end && Quiet(t, r)
            && r.rows == (if |s.lines| > |lines| then Blanked(c, painted, |lines|, |s.lines| - |lines|) else painted)
  {
    hide Run;
    var paint := PaintRange(c, lines, first, end + 1);
    var trail := TrailingOps(s, lines, end);
    PaintRangePaints(c, u, lines, first, end + 1);
    RunConcat(t, seek, paint);
    if |s.lines| > |lines| {
      TrailingClears(c, s, lines, Run(u, paint));
    } else {
      RunNone(Run(u, paint));
    }
    RunConcat(t, seek + paint, trail);
    Synchronized(t, (seek + paint) + trail);
  }

  lemma PatchOpsShape(c: Setting, s: Shadow, lines: seq<string>, first: nat, last: int)
    requires first < |lines| && first <= last
    requires 0 <= MoveTarget(s, lines, first) && ScrollAhead(c, s, MoveTarget(s, lines, first)) == (s, s.top, [])
    ensures var end := Min(last, |lines| - 1);
            PatchOps(c, s, lines, first, last) ==
            [BeginSync] + ((SeekFirst(s, lines, first) + PaintRange(c, lines, first, end + 1))
                           + TrailingOps(s, lines, end)) + [EndSync]
  {
  }

  lemma PatchOpsPaint(c: Setting, s: Shadow, f: Frame, t: Term)
    requires Tracks(c, s, t) && Closed(f.lines) && s.lines != []
    requires s.top <= FirstChanged(s.lines, f.lines) < |f.lines|
    requires FirstChanged(s.lines, f.lines) <= LastChanged(s.lines, f.lines)
    ensures var first, last := FirstChanged(s.lines, f.lines), LastChanged(s.lines, f.lines);
            var r := Run(t, PatchOps(c, s, f.lines, first, last));
            && r.rows == Picture(c, f.lines, Max(Max(s.max, c.height), |f.lines|))
            && r.at == Min(last, |f.lines| - 1) && Quiet(t, r)
  {
    hide Run, Picture, Painted, Blanked, PaintRange, PatchOps, TrailingOps, SeekFirst;
    var first, last := FirstChanged(s.lines, f.lines), LastChanged(s.lines, f.lines);
    NeverScrollsAhead(c, s, f);
    SeeksFirst(c, s, f, t);
    PatchedPicture(c, s.lines, f.lines, Max(s.max, c.height));
    var seek := SeekFirst(s, f.lines, first);
    PatchEffect(c, t, seek, Run(t, seek), s, f.lines, first, Min(last, |f.lines| - 1));
    PatchOpsShape(c, s, f.lines, first, last);
  }

  lemma PatchIsFaithful(c: Setting, s: Shadow, f: Frame, t: Term)
    requires Tracks(c, s, t) && Closed(f.lines) && CursorInTail(c, f)
    requires Choose(c, s, f) == Partial && Safe(c, s, f)
    ensures 0 <= FirstChanged(s.lines, f.lines) < |f.lines|
            && FirstChanged(s.lines, f.lines) <= LastChanged(s.lines, f.lines)
    ensures var (s', ops) := Patch(c, s, f, FirstChanged(s.lines, f.lines), LastChanged(s.lines, f.lines));
            Tracks(c, s', Run(t, ops)) && Quiet(t, Run(t, ops)) && CursorPlaced(c, f, Run(t, ops))
  {
    hide Run, Picture, PatchOps, CursorOps, Painted, Blanked;
    ChangesAreOrdered(s.lines, f.lines);
    var first, last := FirstChanged(s.lines, f.lines), LastChanged(s.lines, f.lines);
    NeverScrollsAhead(c, s, f);
    PatchOpsPaint(c, s, f, t);
    PatchedPicture(c, s.lines, f.lines, Max(s.max, c.height));
    var end := Min(last, |f.lines| - 1);
    TracksAfter(c, Patch(c, s, f, first, last).0, f, t, PatchOps(c, s, f.lines, first, last), end);
  }

  /** From a terminal the shadow describes, a blank one, or any terminal whose
      size changed or whose repaint was forced, a safe render leaves the
      scrollback and the screen showing the new frame and nothing else, with
      the cursor where the marker was, no move clamped and no line wrapped. */
  lemma SafeRenderIsFaithful(c: Setting, s: Shadow, f: Frame, t: Term)
    requires Ready(c, s, t) && Closed(f.lines) && CursorInTail(c, f) && Safe(c, s, f)
    ensures var (s', ops) := Render(c, s, f);
            && Tracks(c, s', Run(t, ops)) && Quiet(t, Run(t, ops)) && s'.lines == f.lines
            && CursorPlaced(c, f, Run(t, ops))
  {
    hide Run;
    match Choose(c, s, f)
    case First => FullIsFaithful(c, s, f, t, false);
    case Repaint => FullIsFaithful(c, s, f, t, true);
    case Same => SameLines(s.lines, f.lines); SameIsFaithful(c, s, f, t);
    case Shorter => DeleteIsFaithful(c, s, f, t);
    case Partial => PatchIsFaithful(c, s, f, t);
  }

  // ---- when it is not safe ----------------------------------------------------

  /** Every changed row is a visible change: no two texts that differ show the
      same cells, and none shows blank. */
  predicate Legible(c: Setting, old_: seq<string>, new_: seq<string>) {
    forall i: nat :: i < Max(|old_|, |new_|) && Changed(old_, new_, i) ==> RowAt(c, old_, i) != RowAt(c, new_, i)
  }

  /** The one unsafe render that comes out right: emptying a one-row screen of
      its one line, where the downward move is clamped onto that very row. */
  predicate EmptiesOneRow(c: Setting, s: Shadow, f: Frame) {
    Choose(c, s, f) == Shorter && f.lines == [] && c.height == 1 && s.max <= 1
  }

  lemma CursorLeftBehind(c: Setting, s: Shadow, f: Frame, t: Term)
    requires Tracks(c, s, t) && Closed(f.lines) && CursorInTail(c, f)
    requires Choose(c, s, f) in {Same, Shorter, Partial} && !CursorOnScreen(c, s, f)
    ensures var (s', ops) := Render(c, s, f); !Tracks(c, s', Run(t, ops))
  {
    hide Run;
    if Choose(c, s, f) == Same {
      SameLines(s.lines, f.lines);
    }
  }

  lemma OnlyRepaintErasesScrollback(c: Setting, s: Shadow, f: Frame)
    requires Choose(c, s, f) in {Same, Shorter, Partial}
    ensures EraseScrollback !in Render(c, s, f).1
  {
    hide Choose, DeleteOps, PatchOps, CursorOps;
    ChangesAreOrdered(s.lines, f.lines);
  }

  lemma ChangeOutOfReach(c: Setting, s: Shadow, f: Frame, t: Term)
    requires Tracks(c, s, t) && Closed(f.lines) && Legible(c, s.lines, f.lines)
    requires Choose(c, s, f) in {Shorter, Partial} && 0 <= FirstChanged(s.lines, f.lines) < s.top
    ensures var (s', ops) := Render(c, s, f); !Tracks(c, s', Run(t, ops))
  {
    hide Run, Choose, Render, Picture, RowAt, FirstChanged;
    var (s', ops) := Render(c, s, f);
    var t' := Run(t, ops);
    var first := FirstChanged(s.lines, f.lines);
    RenderRecords(c, s, f);
    OnlyRepaintErasesScrollback(c, s, f);
    ScrollbackIsOutOfReach(t, ops);
    assert t'.rows[first] == t'.rows[..s.top][first] == t.rows[..s.top][first];
    TracksRow(c, s, t, first);
    if Tracks(c, s', t') {
      TracksRow(c, s', t', first);
    }
    assert Changed(s.lines, f.lines, first) by { FirstIsChanged(s.lines, f.lines); }
  }

  lemma TracksRow(c: Setting, s: Shadow, t: Term, i: nat)
    requires Tracks(c, s, t) && i < |t.rows|
    ensures t.rows[i] == RowAt(c, s.lines, i)
  {
    hide RowAt;
  }

  lemma FirstIsChanged(old_: seq<string>, new_: seq<string>)
    requires Closed(new_) && 0 <= FirstChanged(old_, new_)
    ensures Changed(old_, new_, FirstChanged(old_, new_)) && FirstChanged(old_, new_) < Max(|old_|, |new_|)
  {
  }

  lemma {:induction false} ClearDownSpares(t: Term, k: nat, n: nat)
    requires t.Valid() && k <= n
    ensures var r := Run(t, ClearDown(k, n));
            t.at <= r.at && |r.rows| == |t.rows| && forall i :: 0 <= i < t.at ==> r.rows[i] == t.rows[i]
    decreases k
  {
    hide Run;
    if k == 0 {
      RunNone(t);
    } else {
      ClearDownSpares(t, k - 1, n);
      var u := Run(t, ClearDown(k - 1, n));
      var tail := if k - 1 < n - 1 then [Down(1)] else [];
      RunConcat(t, ClearDown(k - 1, n), [Return, EraseLine]);
      RunTwo(u, Return, EraseLine);
      RunConcat(t, ClearDown(k - 1, n) + [Return, EraseLine], tail);
      assert ClearDown(k - 1, n) + [Return, EraseLine] + tail == ClearDown(k, n);
      var v := Run(t, ClearDown(k - 1, n) + [Return, EraseLine]);
      if tail == [] {
        RunNone(v);
      } else {
        RunOne(v, Down(1));
      }
    }
  }

  /** Emptying the frame clears from the second row on: the first row stays. */
  lemma FirstRowStays(c: Setting, s: Shadow, t: Term, n: nat)
    requires Tracks(c, s, t) && s.top == 0 && 2 <= c.height
    ensures Run(t, [BeginSync] + (SeekOps(-(t.at as int), false) + WipeOps(n)) + [EndSync]).rows[0] == t.rows[0]
  {
    hide Run;
    var u := t.(at := 0, col := 0);
    SeekMoves(t, -(t.at as int), false);
    RunConcat(t, SeekOps(-(t.at as int), false), WipeOps(n));
    Synchronized(t, SeekOps(-(t.at as int), false) + WipeOps(n));
    var v := t.(at := 1, col := 0);
    RunOne(u, Down(1));
    RunConcat(u, [Down(1)], ClearDown(n, n));
    ClearDownSpares(v, n, n);
    RunConcat(u, [Down(1)] + ClearDown(n, n), [Up(n)]);
    RunOne(Run(v, ClearDown(n, n)), Up(n));
  }

  lemma EmptyFrameOps(c: Setting, s: Shadow, f: Frame)
    requires Choose(c, s, f) == Shorter && f.lines == [] && s.top == Max(0, s.max - c.height) == 0
    ensures Render(c, s, f).1 ==
            [BeginSync] + (SeekOps(-(s.hardwareRow as int), false) + WipeOps(|s.lines|)) + [EndSync] + [HideCursor]
    ensures Render(c, s, f).0.lines == []
  {
    hide Choose, SeekOps, WipeOps;
    ChosenPath(c, s, f);
    Joins([BeginSync], SeekOps(-(s.hardwareRow as int), false), WipeOps(|s.lines|));
  }

  lemma EmptyFrameLeavesRow(c: Setting, s: Shadow, f: Frame, t: Term)
    requires Tracks(c, s, t) && Legible(c, s.lines, f.lines)
    requires Choose(c, s, f) == Shorter && f.lines == [] && s.top == 0 && 2 <= c.height
    ensures var (s', ops) := Render(c, s, f); !Tracks(c, s', Run(t, ops))
  {
    hide Run, SeekOps, WipeOps, Render;
    EmptyFrameOps(c, s, f);
    FirstRowStays(c, s, t, |s.lines|);
    var ops := [BeginSync] + (SeekOps(-(t.at as int), false) + WipeOps(|s.lines|)) + [EndSync];
    RunConcat(t, ops, [HideCursor]);
    RunOne(Run(t, ops), HideCursor);
    assert Changed(s.lines, f.lines, 0);
    assert t.rows[0] == RowAt(c, s.lines, 0);
  }

  lemma EmptyingOneRowWorks(c: Setting, s: Shadow, f: Frame, t: Term)
    requires Tracks(c, s, t) && EmptiesOneRow(c, s, f)
    ensures var (s', ops) := Render(c, s, f); Tracks(c, s', Run(t, ops))
  {
    hide Run;
    ChangesAreOrdered(s.lines, f.lines);
    var ops := DeleteOps(c, s, f.lines);
    var wipe := WipeOps(1);
    var u := t.(col := 0);
    SeekMoves(t, 0, false);
    RunConcat(t, SeekOps(0, false), wipe);
    Synchronized(t, SeekOps(0, false) + wipe);
    assert ops == [BeginSync] + (SeekOps(0, false) + wipe) + [EndSync];
    RunOne(u, Down(1));
    var v := u.(clamped := true);
    assert ClearDown(1, 1) == [Return, EraseLine];
    RunConcat(u, [Down(1)], ClearDown(1, 1));
    RunTwo(v, Return, EraseLine);
    RunConcat(u, [Down(1)] + ClearDown(1, 1), [Up(1)]);
    RunOne(Run(v, ClearDown(1, 1)), Up(1));
    RunConcat(t, ops, [HideCursor]);
    RunOne(Run(t, ops), HideCursor);
  }

  /** A render from a faithful screen is faithful exactly when it is safe, but
      for the one-row accident: whenever something changes above the screen,
      or no line is left on it, or the cursor is above it, and no repaint is
      taken, then the screen or the recorded cursor row is wrong afterwards. */
  lemma FaithfulExactlyWhenSafe(c: Setting, s: Shadow, f: Frame, t: Term)
    requires Ready(c, s, t) && Closed(f.lines) && CursorInTail(c, f) && Legible(c, s.lines, f.lines)
    ensures var (s', ops) := Render(c, s, f);
            Tracks(c, s', Run(t, ops)) <==> Safe(c, s, f) || EmptiesOneRow(c, s, f)
  {
    hide Run, Picture;
    if Safe(c, s, f) {
      SafeRenderIsFaithful(c, s, f, t);
    } else if !CursorOnScreen(c, s, f) {
      CursorLeftBehind(c, s, f, t);
    } else if FirstChanged(s.lines, f.lines) < s.top {
      ChangeOutOfReach(c, s, f, t);
    } else if EmptiesOneRow(c, s, f) {
      EmptyingOneRowWorks(c, s, f, t);
    } else if s.top == 0 {
      EmptyFrameLeavesRow(c, s, f, t);
    }
  }
}
