/** What the differential renderer does not write: rows that did not change. */
module Economy {
  import opened Common
  import opened Terminal
  import opened Renderer
  import opened PaintProofs
  import opened Fidelity

  /** The texts written, in order. */
  function Written(ops: seq<Op>): seq<seq<Cell>> {
    if ops == [] then []
    else (if ops[0].Print? then [ops[0].cells] else []) + Written(ops[1..])
  }

  predicate Erases(ops: seq<Op>) {
    EraseLine in ops || EraseScreen in ops || EraseScrollback in ops
  }

  lemma {:induction false} WrittenJoins(a: seq<Op>, b: seq<Op>)
    ensures Written(a + b) == Written(a) + Written(b)
    decreases |a|
  {
    if a == [] {
      NothingMore(b);
      NothingMore(Written(b));
    } else {
      assert (a + b)[0] == a[0] && (a + b)[1..] == a[1..] + b;
      WrittenJoins(a[1..], b);
      Joins(if a[0].Print? then [a[0].cells] else [], Written(a[1..]), Written(b));
    }
  }

  /** No text among these. */
  predicate Silent(ops: seq<Op>) {
    forall i :: 0 <= i < |ops| ==> !ops[i].Print?
  }

  lemma {:induction false} SilentWritesNothing(ops: seq<Op>)
    requires Silent(ops)
    ensures Written(ops) == []
    decreases |ops|
  {
    if ops != [] {
      assert forall i :: 0 <= i < |ops[1..]| ==> ops[1..][i] == ops[i + 1];
      SilentWritesNothing(ops[1..]);
    }
  }

  /** Lines `from` to `k - 1`, as printed. */
  function Fitted(c: Setting, lines: seq<string>, from: nat, k: nat): seq<seq<Cell>>
    requires from <= k <= |lines|
  {
    seq(k - from, i requires 0 <= i < k - from => c.text.Fit(lines[from + i], c.width))
  }

  lemma {:induction false} PaintWrites(c: Setting, lines: seq<string>, from: nat, k: nat)
    requires from <= k <= |lines|
    ensures Written(PaintRange(c, lines, from, k)) == Fitted(c, lines, from, k)
    decreases k
  {
    if k > from {
      var one := c.text.Fit(lines[k - 1], c.width);
      PaintWrites(c, lines, from, k - 1);
      PaintStep(c, lines, from, k);
      FittedStep(c, lines, from, k);
      hide *;
      StepWrites(PaintRange(c, lines, from, k - 1), k - 1 > from, one);
    }
  }

  lemma PaintStep(c: Setting, lines: seq<string>, from: nat, k: nat)
    requires from < k <= |lines|
    ensures PaintRange(c, lines, from, k)
         == PaintRange(c, lines, from, k - 1) + Separator(k - 1 > from)
            + [EraseLine, Print(c.text.Fit(lines[k - 1], c.width))]
  {
  }

  lemma FittedStep(c: Setting, lines: seq<string>, from: nat, k: nat)
    requires from < k <= |lines|
    ensures Fitted(c, lines, from, k) == Fitted(c, lines, from, k - 1) + [c.text.Fit(lines[k - 1], c.width)]
  {
  }

  function Separator(between: bool): seq<Op> {
    if between then [NewLine] else []
  }

  lemma StepWrites(before: seq<Op>, between: bool, cells: seq<Cell>)
    ensures Written(before + Separator(between) + [EraseLine, Print(cells)]) == Written(before) + [cells]
  {
    WrittenJoins(before, Separator(between));
    WrittenJoins(before + Separator(between), [EraseLine, Print(cells)]);
    SilentWritesNothing(Separator(between));
    OneWritten(cells);
    NothingMore(Written(before));
  }

  lemma OneWritten(cells: seq<Cell>)
    ensures Written([EraseLine, Print(cells)]) == [cells]
  {
    assert [EraseLine, Print(cells)][1..] == [Print(cells)] && [Print(cells)][1..] == [];
    assert Written([Print(cells)]) == [cells] + Written([]);
  }

  lemma SilentParts(c: Setting, s: Shadow, f: Frame, delta: int, next: bool, hardwareRow: nat)
    ensures Silent(SeekOps(delta, next)) && Silent(CursorOps(c, hardwareRow, f.cursor, |f.lines|))
    ensures !Erases(CursorOps(c, hardwareRow, f.cursor, |f.lines|))
  {
  }

  lemma {:induction false} SilentBelow(n: nat)
    ensures Silent(ClearBelow(n))
  {
    if n > 0 {
      SilentBelow(n - 1);
    }
  }

  lemma SilentTrail(s: Shadow, lines: seq<string>, renderEnd: nat)
    requires renderEnd < |lines|
    ensures Silent(TrailingOps(s, lines, renderEnd))
  {
    if |s.lines| > |lines| {
      SilentBelow(|s.lines| - |lines|);
    }
  }

  /** A frame like the one before writes and erases nothing. */
  lemma UnchangedWritesNothing(c: Setting, s: Shadow, f: Frame)
    requires s.width == c.width && s.height == c.height && s.lines == f.lines && s.lines != []
    requires !c.clearOnShrink || f.overlays || |f.lines| >= s.max
    ensures Written(Render(c, s, f).1) == [] && !Erases(Render(c, s, f).1)
  {
    assert FirstChanged(s.lines, f.lines) == -1;
    assert Choose(c, s, f) == Same;
    hide Choose, FirstChanged, CursorOps;
    SilentParts(c, s, f, 0, false, s.hardwareRow);
    SilentWritesNothing(CursorOps(c, s.hardwareRow, f.cursor, |f.lines|));
  }

  /** Where lines changed from `first` to `last`, exactly those are written again,
      if the first lies in the last screenful and clearing does not ask for more. */
  lemma OnlyChangesAreWritten(c: Setting, s: Shadow, f: Frame, first: nat, last: nat)
    requires Recorded(s) && s.width == c.width && s.height == c.height && s.lines != [] && Closed(f.lines)
    requires !c.clearOnShrink || f.overlays || |f.lines| >= s.max
    requires Max(0, |s.lines| - c.height) <= first < |f.lines| && first <= last
    requires LineAt(s.lines, first) != LineAt(f.lines, first) && LineAt(s.lines, last) != LineAt(f.lines, last)
    requires forall i: nat :: i < first || last < i ==> LineAt(s.lines, i) == LineAt(f.lines, i)
    ensures Written(Render(c, s, f).1) == Fitted(c, f.lines, first, Min(last, |f.lines| - 1) + 1)
    ensures EraseScreen !in Render(c, s, f).1 && EraseScrollback !in Render(c, s, f).1
  {
    ChangesAre(s.lines, f.lines, first, last);
    assert Choose(c, s, f) == Partial;
    hide Choose, FirstChanged, LastChanged, PaintRange, TrailingOps, CursorOps, SeekOps, Fitted, Recorded;
    NeverScrollsAhead(c, s, f);
    PatchWrites(c, s, f, first, last);
  }

  lemma ChangesAre(old_: seq<string>, new_: seq<string>, first: nat, last: nat)
    requires Closed(old_) && Closed(new_) && first <= last
    requires LineAt(old_, first) != LineAt(new_, first) && LineAt(old_, last) != LineAt(new_, last)
    requires forall i: nat :: i < first || last < i ==> LineAt(old_, i) == LineAt(new_, i)
    ensures FirstChanged(old_, new_) == first && LastChanged(old_, new_) == last
  {
    assert Changed(old_, new_, first) && Changed(old_, new_, last);
    assert forall i: nat :: i < first || last < i ==> !Changed(old_, new_, i);
    if |new_| > |old_| {
      assert Changed(old_, new_, |new_| - 1);
    }
  }

  lemma PatchWrites(c: Setting, s: Shadow, f: Frame, first: nat, last: nat)
    requires first < |f.lines| && first <= last && 0 <= MoveTarget(s, f.lines, first)
    requires ScrollAhead(c, s, MoveTarget(s, f.lines, first)) == (s, Max(0, s.max - c.height), [])
    ensures var ops := Patch(c, s, f, first, last).1;
            && Written(ops) == Fitted(c, f.lines, first, Min(last, |f.lines| - 1) + 1)
            && EraseScreen !in ops && EraseScrollback !in ops
  {
    hide PaintRange, TrailingOps, CursorOps, SeekOps, Fitted, Written;
    var target := MoveTarget(s, f.lines, first);
    var end := Min(last, |f.lines| - 1);
    var stop := if |s.lines| > |f.lines| && end < |f.lines| - 1 then |f.lines| - 1 else end;
    var seek := SeekOps(LineDiff(s, target, Max(0, s.max - c.height)), target < first);
    var paint, trail := PaintRange(c, f.lines, first, end + 1), TrailingOps(s, f.lines, end);
    var place := CursorOps(c, stop, f.cursor, |f.lines|);
    SilentParts(c, s, f, LineDiff(s, target, Max(0, s.max - c.height)), target < first, stop);
    SilentTrail(s, f.lines, end);
    PaintWrites(c, f.lines, first, end + 1);
    AroundPaint(seek, paint, trail, place);
    NoScreenErased(c, s, f, first, end, LineDiff(s, target, Max(0, s.max - c.height)), target < first);
    assert Patch(c, s, f, first, last).1 == [BeginSync] + [] + seek + paint + trail + [EndSync] + place;
  }

  lemma AroundPaint(seek: seq<Op>, paint: seq<Op>, trail: seq<Op>, place: seq<Op>)
    requires Silent(seek) && Silent(trail) && Silent(place)
    ensures Written([BeginSync] + [] + seek + paint + trail + [EndSync] + place) == Written(paint)
  {
    var before, after := [BeginSync] + [] + seek, trail + [EndSync] + place;
    assert [BeginSync] + [] + seek + paint + trail + [EndSync] + place == before + (paint + after);
    WrittenJoins(before, paint + after);
    WrittenJoins(paint, after);
    SilentWritesNothing(before);
    SilentWritesNothing(after);
    NothingMore(Written(paint));
  }

  lemma NoScreenErased(c: Setting, s: Shadow, f: Frame, first: nat, end: nat, delta: int, next: bool)
    requires first <= end < |f.lines|
    ensures EraseScreen !in PaintRange(c, f.lines, first, end + 1) && EraseScreen !in TrailingOps(s, f.lines, end)
    ensures EraseScreen !in SeekOps(delta, next) && EraseScrollback !in SeekOps(delta, next)
    ensures forall row: nat :: EraseScreen !in CursorOps(c, row, f.cursor, |f.lines|)
  {
    PlainPaint(c, f.lines, first, end + 1);
    PlainTrail(s, f.lines, end);
  }

  // ---- what a render writes, and when it starts over -----------------------------------

  /** Neither a mark of a synchronized update nor an erasure of the screen. */
  predicate Plain(ops: seq<Op>) {
    BeginSync !in ops && EndSync !in ops && EraseScreen !in ops && EraseScrollback !in ops
  }

  /** Moves the cursor, shows or hides it, and nothing else. */
  predicate Moves(ops: seq<Op>) {
    forall op :: op in ops ==> op.Up? || op.Down? || op.Column? || op.ShowCursor? || op.HideCursor?
  }

  /** When a frame is printed from the top on an erased screen: the size changed, or
      clearing was asked for, or a line changed above the last screenful, or more
      lines went from the end than the screen has rows. */
  ghost predicate StartsOver(c: Setting, s: Shadow, f: Frame) {
    || (s.width != 0 && s.width != c.width) || (s.height != 0 && s.height != c.height)
    || (s.lines != [] &&
        (|| (c.clearOnShrink && |f.lines| < s.max && !f.overlays)
         || (exists i: nat :: i < |f.lines| && i < |s.lines| - c.height && LineAt(s.lines, i) != LineAt(f.lines, i))
         || (f.lines < s.lines && |s.lines| - |f.lines| > c.height)))
  }

  /** A render of the frame shown before writes nothing but where the cursor is; any
      other is one synchronized update, which starts over exactly when it has to,
      with the cursor put in its place after it. */
  lemma OneUpdate(c: Setting, s: Shadow, f: Frame)
    requires Closed(s.lines) && Closed(f.lines)
    ensures var same := !StartsOver(c, s, f) && s.lines == f.lines && s.lines != [];
            exists body, place :: Plain(body) && Moves(place) && Render(c, s, f).1 ==
              if same then place
              else [BeginSync] + (if StartsOver(c, s, f) then [EraseScrollback, EraseScreen, Home] else [])
                   + body + [EndSync] + place
  {
    StartsOverExactlyWhen(c, s, f);
    RenderIs(c, s, f);
    hide *;
  }

  /** Every frame printed from the top is counted, and nothing else. */
  lemma RedrawsAreCounted(c: Setting, s: Shadow, f: Frame)
    requires Closed(s.lines) && Closed(f.lines)
    ensures Render(c, s, f).0.redraws == s.redraws + if s.lines == [] || StartsOver(c, s, f) then 1 else 0
  {
    StartsOverExactlyWhen(c, s, f);
    ChosenPath(c, s, f);
    hide FirstChanged, LastChanged, PatchOps, DeleteOps, FullOps, CursorOps, Closed;
  }

  /** The end of the content stays recorded. */
  lemma EndIsRecorded(c: Setting, s: Shadow, f: Frame)
    requires s.cursorRow == Max(0, |s.lines| - 1)
    ensures var r := Render(c, s, f).0; r.cursorRow == Max(0, |r.lines| - 1)
  {
    ChosenPath(c, s, f);
    hide FirstChanged, LastChanged, PatchOps, DeleteOps, FullOps, CursorOps, Choose;
  }

  ghost predicate Shaped(c: Setting, s: Shadow, f: Frame) {
    exists body, place :: Plain(body) && Moves(place) && Render(c, s, f).1 ==
      if Choose(c, s, f) == Same then place
      else [BeginSync] + (if Choose(c, s, f) == Repaint then [EraseScrollback, EraseScreen, Home] else [])
           + body + [EndSync] + place
  }

  lemma StartsOverExactlyWhen(c: Setting, s: Shadow, f: Frame)
    requires Closed(s.lines) && Closed(f.lines)
    ensures Choose(c, s, f) == Repaint <==> StartsOver(c, s, f)
    ensures Choose(c, s, f) == Same <==> !StartsOver(c, s, f) && s.lines == f.lines && s.lines != []
  {
    FirstIs(s.lines, f.lines, |s.lines| - c.height);
    hide FirstChanged, Closed;
  }

  lemma FirstIs(old_: seq<string>, new_: seq<string>, bound: int)
    requires Closed(old_) && Closed(new_)
    ensures FirstChanged(old_, new_) == -1 <==> old_ == new_
    ensures FirstChanged(old_, new_) >= |new_| && old_ != new_ <==> new_ < old_
    ensures 0 <= FirstChanged(old_, new_) < |new_| && FirstChanged(old_, new_) < bound <==>
            exists i: nat :: i < |new_| && i < bound && LineAt(old_, i) != LineAt(new_, i)
  {
    var first := FirstChanged(old_, new_);
    if |new_| > |old_| {
      assert Changed(old_, new_, |new_| - 1);
    } else if |new_| < |old_| {
      assert Changed(old_, new_, |new_|);
    }
    if first != -1 {
      assert Changed(old_, new_, first);
    }
    forall i: nat | i < |new_| && (first == -1 || i < first)
      ensures i < |old_| && old_[i] == new_[i]
    {
      assert !Changed(old_, new_, i);
    }
    if first >= |new_| {
      assert old_[..|new_|] == new_;
    }
    if new_ < old_ {
      assert forall i: nat :: i < |new_| ==> !Changed(old_, new_, i);
    }
  }

  lemma RenderIs(c: Setting, s: Shadow, f: Frame)
    ensures Shaped(c, s, f)
  {
    ChosenPath(c, s, f);
    hide FirstChanged, LastChanged, CursorOps, PrintLines, PatchOps, DeleteOps, Shaped;
    var n, first := |f.lines|, FirstChanged(s.lines, f.lines);
    match Choose(c, s, f)
    case Same =>
      MovesOnly(c, s.hardwareRow, f);
      ShapedBy(c, s, f, [], CursorOps(c, s.hardwareRow, f.cursor, n));
    case Shorter =>
      DeletionIs(c, s, f);
      MovesOnly(c, Max(0, n - 1), f);
      var body :| Plain(body) && DeleteOps(c, s, f.lines) == [BeginSync] + [] + body + [EndSync];
      ShapedBy(c, s, f, body, CursorOps(c, Max(0, n - 1), f.cursor, n));
    case Partial =>
      var last := LastChanged(s.lines, f.lines);
      PatchIs(c, s, f, first, last);
      var end := Min(last, n - 1);
      var stop := if |s.lines| > n && end < n - 1 then n - 1 else end;
      MovesOnly(c, stop, f);
      var body :| Plain(body) && PatchOps(c, s, f.lines, first, last) == [BeginSync] + [] + body + [EndSync];
      ShapedBy(c, s, f, body, CursorOps(c, stop, f.cursor, n));
    case _ =>
      PlainPrint(c, f.lines, n);
      MovesOnly(c, Max(0, n - 1), f);
      ShapedBy(c, s, f, PrintLines(c, f.lines, n), CursorOps(c, Max(0, n - 1), f.cursor, n));
  }

  lemma ShapedBy(c: Setting, s: Shadow, f: Frame, body: seq<Op>, place: seq<Op>)
    requires Plain(body) && Moves(place)
    requires Render(c, s, f).1 ==
             if Choose(c, s, f) == Same then place
             else [BeginSync] + (if Choose(c, s, f) == Repaint then [EraseScrollback, EraseScreen, Home] else [])
                  + body + [EndSync] + place
    ensures Shaped(c, s, f)
  {
  }

  lemma DeletionIs(c: Setting, s: Shadow, f: Frame)
    requires |f.lines| < |s.lines|
    ensures exists body :: Plain(body) && DeleteOps(c, s, f.lines) == [BeginSync] + [] + body + [EndSync]
  {
    hide ScrollAhead, SeekOps, Plain;
    var n := |s.lines| - |f.lines|;
    var delta := LineDiff(s, Max(0, |f.lines| - 1), Max(0, s.max - c.height));
    PlainParts(c, s, 0, delta, false);
    PlainWipe(n);
    PlainBoth(SeekOps(delta, false), WipeOps(n));
    Joins([BeginSync], SeekOps(delta, false), WipeOps(n));
    NothingMore([BeginSync]);
    assert DeleteOps(c, s, f.lines) == [BeginSync] + [] + (SeekOps(delta, false) + WipeOps(n)) + [EndSync];
  }

  lemma PatchIs(c: Setting, s: Shadow, f: Frame, first: nat, last: int)
    requires first < |f.lines| && first <= last
    ensures exists body :: Plain(body) && PatchOps(c, s, f.lines, first, last) == [BeginSync] + [] + body + [EndSync]
  {
    hide ScrollAhead, SeekOps, Plain, PaintRange, TrailingOps;
    var target, end := MoveTarget(s, f.lines, first), Min(last, |f.lines| - 1);
    var (s', viewportTop, ahead) := ScrollAhead(c, s, target);
    var seek := SeekOps(LineDiff(s', target, viewportTop), target < first);
    var paint, trail := PaintRange(c, f.lines, first, end + 1), TrailingOps(s, f.lines, end);
    PlainParts(c, s, target, LineDiff(s', target, viewportTop), target < first);
    PlainPaint(c, f.lines, first, end + 1);
    PlainTrail(s, f.lines, end);
    PlainBoth(ahead, seek);
    PlainBoth(ahead + seek, paint);
    PlainBoth(ahead + seek + paint, trail);
    assert [BeginSync] + ahead + seek + paint + trail == [BeginSync] + [] + (ahead + seek + paint + trail);
    assert PatchOps(c, s, f.lines, first, last) == [BeginSync] + ahead + seek + paint + trail + [EndSync];
  }

  lemma PlainBoth(a: seq<Op>, b: seq<Op>)
    requires Plain(a) && Plain(b)
    ensures Plain(a + b)
  {
  }

  lemma PlainWipe(n: nat)
    ensures Plain(WipeOps(n))
  {
    PlainDown(n, n);
  }

  lemma {:induction false} PlainPaint(c: Setting, lines: seq<string>, from: nat, k: nat)
    requires from <= k <= |lines|
    ensures Plain(PaintRange(c, lines, from, k))
    decreases k
  {
    if k > from {
      PlainPaint(c, lines, from, k - 1);
    }
  }

  lemma {:induction false} PlainPrint(c: Setting, lines: seq<string>, k: nat)
    requires k <= |lines|
    ensures Plain(PrintLines(c, lines, k))
  {
    if k > 0 {
      PlainPrint(c, lines, k - 1);
    }
  }

  lemma {:induction false} PlainBelow(n: nat)
    ensures Plain(ClearBelow(n))
  {
    if n > 0 {
      PlainBelow(n - 1);
    }
  }

  lemma {:induction false} PlainDown(k: nat, n: nat)
    requires k <= n
    ensures Plain(ClearDown(k, n))
  {
    if k > 0 {
      PlainDown(k - 1, n);
    }
  }

  lemma {:induction false} PlainNewLines(n: nat)
    ensures Plain(NewLines(n))
  {
    if n > 0 {
      PlainNewLines(n - 1);
    }
  }

  lemma PlainTrail(s: Shadow, lines: seq<string>, renderEnd: int)
    requires renderEnd < |lines|
    ensures Plain(TrailingOps(s, lines, renderEnd))
  {
    if |s.lines| > |lines| {
      PlainBelow(|s.lines| - |lines|);
    }
  }

  lemma PlainParts(c: Setting, s: Shadow, target: nat, delta: int, next: bool)
    ensures Plain(ScrollAhead(c, s, target).2) && Plain(SeekOps(delta, next))
  {
    var bottom := s.top + c.height - 1;
    if target > bottom {
      PlainNewLines(target - bottom);
    }
  }

  lemma MovesOnly(c: Setting, hardwareRow: nat, f: Frame)
    ensures Moves(CursorOps(c, hardwareRow, f.cursor, |f.lines|))
  {
  }
}
