/** The renderer as the class it is: fields updated in place, a buffer built up
    in loops and written to the terminal once. */
module Tui {
  import opened Common
  import opened Strings
  import opened Terminal
  import opened Renderer
  import opened PaintProofs
  import opened Fidelity
  import opened Session

  const CURSOR_MARKER := "\U{1b}_pi:c\U{7}"
  const SEGMENT_RESET := "\U{1b}[0m\U{1b}]8;;\U{7}"

  // ---- the frame, from the lines the components rendered ------------------------

  predicate HasMarker(line: string) {
    IndexOf(line, CURSOR_MARKER) != -1
  }

  /** The line without its first cursor marker. */
  function Stripped(line: string): string
    requires HasMarker(line)
  {
    var i := IndexOf(line, CURSOR_MARKER);
    line[..i] + line[i + |CURSOR_MARKER|..]
  }

  /** The last row in `lines[from..before]` with a marker, or -1. */
  function MarkedRow(lines: seq<string>, from: nat, before: nat): (r: int)
    requires before <= |lines|
    ensures r == -1 || (from <= r < before && HasMarker(lines[r]))
    ensures forall i :: (if r == -1 then from else r + 1) <= i < before ==> !HasMarker(lines[i])
    decreases before
  {
    if before <= from then -1
    else if HasMarker(lines[before - 1]) then before - 1
    else MarkedRow(lines, from, before - 1)
  }

  function Tail(lines: seq<string>, height: nat): nat {
    Max(0, |lines| - height)
  }

  function CursorOf(text: Text, lines: seq<string>, height: nat): Option<Position> {
    var row := MarkedRow(lines, Tail(lines, height), |lines|);
    if row == -1 then None
    else Some(Position(row, |text.cells(lines[row][..IndexOf(lines[row], CURSOR_MARKER)])|))
  }

  function WithoutMarker(lines: seq<string>, height: nat): (r: seq<string>)
    ensures |r| == |lines|
  {
    var row := MarkedRow(lines, Tail(lines, height), |lines|);
    if row == -1 then lines else lines[row := Stripped(lines[row])]
  }

  function WithResets(lines: seq<string>): seq<string> {
    seq(|lines|, i requires 0 <= i < |lines| => lines[i] + SEGMENT_RESET)
  }

  /** The frame the renderer compares and prints. */
  function FrameOf(text: Text, lines: seq<string>, height: nat, overlays: bool): Frame {
    Frame(WithResets(WithoutMarker(lines, height)), CursorOf(text, lines, height), overlays)
  }

  /** Every frame meets what the fidelity theorems ask of one. */
  lemma FramesAreClosed(c: Setting, lines: seq<string>, overlays: bool)
    ensures var f := FrameOf(c.text, lines, c.height, overlays);
            Closed(f.lines) && CursorInTail(c, f) && |f.lines| == |lines|
  {
  }

  /** The marker looked for is the lowest in the last `height` lines, and the
      first in its line.  What stood around it is the line left; its column is
      the width of what stood before it; and no other line changes. */
  lemma MarkerIsTakenOut(text: Text, lines: seq<string>, height: nat, row: nat, before: string, after: string)
    requires Max(0, |lines| - height) <= row < |lines|
    requires lines[row] == before + "\U{1b}_pi:c\U{7}" + after
    requires IndexOf(lines[row], "\U{1b}_pi:c\U{7}") == |before|
    requires forall r :: row < r < |lines| ==> IndexOf(lines[r], "\U{1b}_pi:c\U{7}") == -1
    ensures var f := FrameOf(text, lines, height, false);
            && f.cursor == Some(Position(row, |text.cells(before)|))
            && |f.lines| == |lines| && f.lines[row] == before + after + "\U{1b}[0m\U{1b}]8;;\U{7}"
            && forall r :: 0 <= r < |lines| && r != row ==> f.lines[r] == lines[r] + "\U{1b}[0m\U{1b}]8;;\U{7}"
  {
    assert MarkedRow(lines, Tail(lines, height), |lines|) == row
           by { LowestMarked(lines, Tail(lines, height), row, |lines|); }
    assert lines[row][..|before|] == before;
    assert lines[row][|before| + |CURSOR_MARKER|..] == after;
  }

  lemma LowestMarked(lines: seq<string>, from: nat, row: nat, before: nat)
    requires from <= row < before <= |lines| && HasMarker(lines[row])
    requires forall r :: row < r < before ==> !HasMarker(lines[r])
    ensures MarkedRow(lines, from, before) == row
  {
  }

  /** Without a marker in the last `height` lines, only the resets are added. */
  lemma NoMarkerNoCursor(text: Text, lines: seq<string>, height: nat)
    requires forall r :: Max(0, |lines| - height) <= r < |lines| ==> IndexOf(lines[r], CURSOR_MARKER) == -1
    ensures var f := FrameOf(text, lines, height, false);
            f.cursor == None && |f.lines| == |lines| && forall r :: 0 <= r < |lines| ==>
                f.lines[r] == lines[r] + SEGMENT_RESET
  {
  }

  // ---- the objects ----------------------------------------------------------------

  class Device {
    var term: Term

    constructor (width: nat, height: nat, text: Text)
      requires 1 <= width && 1 <= height
      ensures term.Valid() && term.width == width && term.height == height
      ensures text.Truncates() ==> Untouched(Setting(text, width, height, false, false), INITIAL, term)
    {
      term := Term(width, height, seq(height, _ => BlankRow(width)), 0, 0, false, false, true);
    }

    method Write(ops: seq<Op>)
      requires term.Valid()
      modifies this
      ensures term == Run(old(term), ops)
    {
      term := Run(term, ops);
    }
  }

  class TUI {
    const text: Text
    const terminal: Device
    var previousLines: seq<string>
    var previousWidth: int
    var previousHeight: int
    var cursorRow: nat
    var hardwareCursorRow: nat
    var maxLinesRendered: nat
    var previousViewportTop: nat
    var fullRedrawCount: nat
    var clearOnShrink: bool
    var showHardwareCursor: bool
    var renderRequested: bool

    constructor (text: Text, terminal: Device, clearOnShrink: bool, showHardwareCursor: bool)
      ensures this.text == text && this.terminal == terminal
      ensures Fields() == INITIAL && Opts() == Options(text, clearOnShrink, showHardwareCursor) && !renderRequested
    {
      this.text, this.terminal := text, terminal;
      this.clearOnShrink, this.showHardwareCursor := clearOnShrink, showHardwareCursor;
      previousLines, previousWidth, previousHeight := [], 0, 0;
      cursorRow, hardwareCursorRow, maxLinesRendered, previousViewportTop, fullRedrawCount := 0, 0, 0, 0, 0;
      renderRequested := false;
    }

    function Fields(): Shadow
      reads this
    {
      Shadow(previousLines, previousWidth, previousHeight, cursorRow, hardwareCursorRow,
             maxLinesRendered, previousViewportTop, fullRedrawCount)
    }

    function Opts(): Options
      reads this
    {
      Options(text, clearOnShrink, showHardwareCursor)
    }

    function State(): Sys
      reads this, terminal
    {
      Sys(Opts(), Fields(), terminal.term)
    }

    /** Asks for a render; a forced one forgets what is on screen.  Returns
        whether a render must be scheduled: one is already if `renderRequested`. */
    method RequestRender(force: bool) returns (schedule: bool)
      requires terminal.term.Valid()
      modifies this
      ensures State() == if force then Apply(old(State()), Forced) else old(State())
      ensures renderRequested && schedule == !old(renderRequested)
    {
      if force {
        previousLines, previousWidth, previousHeight := [], -1, -1;
        cursorRow, hardwareCursorRow, maxLinesRendered, previousViewportTop := 0, 0, 0, 0;
      }
      schedule := !renderRequested;
      renderRequested := true;
    }

    method SetClearOnShrink(enabled: bool)
      requires terminal.term.Valid()
      modifies this`clearOnShrink
      ensures State() == Apply(old(State()), Clearing(enabled))
    {
      clearOnShrink := enabled;
    }

    /** Hides the cursor at once; showing it waits for the next render. */
    method SetShowHardwareCursor(enabled: bool) returns (schedule: bool)
      requires terminal.term.Valid()
      modifies this, terminal
      ensures State() == Apply(old(State()), ShowingCursor(enabled))
      ensures var changed := old(showHardwareCursor) != enabled;
              schedule == (changed && !old(renderRequested)) && renderRequested == (changed || old(renderRequested))
    {
      if showHardwareCursor == enabled {
        return false;
      }
      hide Run, Step, Render;
      showHardwareCursor := enabled;
      if !enabled {
        RunOne(terminal.term, HideCursor);
        terminal.Write([HideCursor]);
      }
      schedule := RequestRender(false);
    }

    /** Finds the cursor marker in the visible lines, bottom up, and takes it out. */
    method ExtractCursorPosition(lines: array<string>, height: nat) returns (cursor: Option<Position>)
      modifies lines
      ensures cursor == CursorOf(text, old(lines[..]), height)
      ensures lines[..] == WithoutMarker(old(lines[..]), height)
    {
      var viewportTop := Tail(lines[..], height);
      var row := lines.Length;
      while row > viewportTop
        invariant viewportTop <= row <= lines.Length
        invariant lines[..] == old(lines[..])
        invariant MarkedRow(lines[..], viewportTop, lines.Length) == MarkedRow(lines[..], viewportTop, row)
      {
        row := row - 1;
        var line := lines[row];
        var i := IndexOf(line, CURSOR_MARKER);
        if i != -1 {
          var col := |text.cells(line[..i])|;
          lines[row] := line[..i] + line[i + |CURSOR_MARKER|..];
          return Some(Position(row, col));
        }
      }
      return None;
    }

    method ApplyLineResets(lines: array<string>)
      modifies lines
      ensures lines[..] == WithResets(old(lines[..]))
    {
      for i := 0 to lines.Length
        invariant lines[..] == WithResets(old(lines[..]))[..i] + old(lines[..])[i..]
      {
        lines[i] := lines[i] + SEGMENT_RESET;
      }
    }

    method FindChanges(newLines: seq<string>) returns (first: int, last: int)
      ensures first == FirstChanged(previousLines, newLines) && last == LastChanged(previousLines, newLines)
    {
      first, last := -1, -1;
      var maxLines := Max(|newLines|, |previousLines|);
      for i := 0 to maxLines
        invariant first == -1 ==>
                    FirstDifference(previousLines, newLines, 0) == FirstDifference(previousLines, newLines, i)
        invariant first != -1 ==> first == FirstDifference(previousLines, newLines, 0)
        invariant last == LastDifference(previousLines, newLines, i)
      {
        var oldLine := if i < |previousLines| then previousLines[i] else "";
        var newLine := if i < |newLines| then newLines[i] else "";
        if oldLine != newLine {
          if first == -1 {
            first := i;
          }
          last := i;
        }
      }
      if |newLines| > |previousLines| {
        if first == -1 {
          first := |previousLines|;
        }
        last := |newLines| - 1;
      }
    }

    method PositionHardwareCursor(c: Setting, cursor: Option<Position>, totalLines: nat)
      requires terminal.term.Valid() && c.showCursor == showHardwareCursor
      modifies this`hardwareCursorRow, terminal
      ensures terminal.term == Run(old(terminal.term), CursorOps(c, old(hardwareCursorRow), cursor, totalLines))
      ensures hardwareCursorRow == CursorRowAfter(old(hardwareCursorRow), cursor, totalLines)
    {
      if cursor.None? || totalLines <= 0 {
        terminal.Write([HideCursor]);
        return;
      }
      hide Run;
      var targetRow := Max(0, Min(cursor.value.row, totalLines - 1));
      var rowDelta := targetRow - hardwareCursorRow;
      var buffer := [];
      if rowDelta > 0 {
        buffer := buffer + [Down(rowDelta)];
      } else if rowDelta < 0 {
        buffer := buffer + [Up(-rowDelta)];
      }
      buffer := buffer + [Column(cursor.value.col + 1)];
      ghost var start := terminal.term;
      terminal.Write(buffer);
      hardwareCursorRow := targetRow;
      var show := if showHardwareCursor then ShowCursor else HideCursor;
      terminal.Write([show]);
      RunConcat(start, buffer, [show]);
    }

    /** The line as printed: cut if it is too wide for the terminal. */
    function Printed(line: string, width: nat): (r: Op)
      ensures r == Print(text.Fit(line, width))
    {
      Print(text.cells(if |text.cells(line)| > width then text.truncate(line, width) else line))
    }

    method BuildFull(c: Setting, lines: seq<string>, clear: bool) returns (buffer: seq<Op>)
      requires c.text == text
      ensures buffer == FullOps(c, lines, clear)
    {
      buffer := [BeginSync];
      if clear {
        buffer := buffer + [EraseScrollback, EraseScreen, Home];
      }
      ghost var head := buffer;
      for i := 0 to |lines|
        invariant buffer == head + PrintLines(c, lines, i)
      {
        if i > 0 {
          buffer := buffer + [NewLine];
        }
        buffer := buffer + [Printed(lines[i], c.width)];
      }
      buffer := buffer + [EndSync];
    }

    /** Clears scrollback and screen if asked, and prints every line. */
    method FullRender(c: Setting, f: Frame, clear: bool)
      requires terminal.term.Valid() && c.showCursor == showHardwareCursor && c.text == text
      modifies this, terminal
      ensures var (s', ops) := Renderer.FullRender(c, old(Fields()), f, clear);
              Fields() == s' && terminal.term == Run(old(terminal.term), ops)
      ensures Opts() == old(Opts()) && renderRequested == old(renderRequested)
    {
      hide Run, FullOps, CursorOps, CursorRowAfter;
      fullRedrawCount := fullRedrawCount + 1;
      var buffer := BuildFull(c, f.lines, clear);
      ghost var start := terminal.term;
      terminal.Write(buffer);
      cursorRow := Max(0, |f.lines| - 1);
      hardwareCursorRow := cursorRow;
      maxLinesRendered := if clear then |f.lines| else Max(maxLinesRendered, |f.lines|);
      previousViewportTop := Max(0, maxLinesRendered - c.height);
      PositionHardwareCursor(c, f.cursor, |f.lines|);
      RunConcat(start, buffer, CursorOps(c, Max(0, |f.lines| - 1), f.cursor, |f.lines|));
      previousLines, previousWidth, previousHeight := f.lines, c.width, c.height;
    }

    /** Moves relative to the cursor: down, up, or not at all. */
    method MoveBy(delta: int) returns (buffer: seq<Op>)
      ensures buffer == Vertical(delta)
    {
      buffer := [];
      if delta > 0 {
        buffer := [Down(delta)];
      } else if delta < 0 {
        buffer := [Up(-delta)];
      }
    }

    method BuildDelete(c: Setting, lines: seq<string>) returns (buffer: seq<Op>)
      requires |lines| < |previousLines|
      ensures buffer == DeleteOps(c, Fields(), lines)
    {
      hide Vertical;
      var viewportTop := Max(0, maxLinesRendered - c.height);
      var targetRow := Max(0, |lines| - 1);
      var lineDiff := (targetRow - viewportTop) - (hardwareCursorRow - previousViewportTop);
      var move := MoveBy(lineDiff);
      var seek := move + [Return];
      var extraLines := |previousLines| - |lines|;
      var wipe := [Down(1)];
      for i := 0 to extraLines
        invariant wipe == [Down(1)] + ClearDown(i, extraLines)
      {
        wipe := wipe + [Return, EraseLine];
        if i < extraLines - 1 {
          wipe := wipe + [Down(1)];
        }
      }
      wipe := wipe + [Up(extraLines)];
      buffer := [BeginSync] + seek + wipe + [EndSync];
    }

    /** Clears the rows of lines that are gone, printing nothing. */
    method ClearDeleted(c: Setting, f: Frame)
      requires terminal.term.Valid() && c.showCursor == showHardwareCursor
      requires |f.lines| < |previousLines|
      modifies this, terminal
      ensures var (s', ops) := DeleteOnly(c, old(Fields()), f);
              Fields() == s' && terminal.term == Run(old(terminal.term), ops)
      ensures Opts() == old(Opts()) && renderRequested == old(renderRequested)
    {
      hide Run, DeleteOps, CursorOps;
      var buffer := BuildDelete(c, f.lines);
      var targetRow := Max(0, |f.lines| - 1);
      ghost var start := terminal.term;
      terminal.Write(buffer);
      cursorRow, hardwareCursorRow := targetRow, targetRow;
      PositionHardwareCursor(c, f.cursor, |f.lines|);
      RunConcat(start, buffer, CursorOps(c, targetRow, f.cursor, |f.lines|));
      previousLines, previousWidth, previousHeight := f.lines, c.width, c.height;
      previousViewportTop := Max(0, maxLinesRendered - c.height);
    }

    method BuildScroll(c: Setting, target: nat) returns (buffer: seq<Op>, moved: Shadow, viewportTop: int)
      ensures (moved, viewportTop, buffer) == ScrollAhead(c, Fields(), target)
    {
      moved, viewportTop, buffer := Fields(), Max(0, maxLinesRendered - c.height), [];
      var prevViewportBottom := previousViewportTop + c.height - 1;
      if target > prevViewportBottom {
        var screenRow := Max(0, Min(c.height - 1, hardwareCursorRow - previousViewportTop));
        var moveToBottom := c.height - 1 - screenRow;
        if moveToBottom > 0 {
          buffer := [Down(moveToBottom)];
        }
        var scroll := target - prevViewportBottom;
        buffer := buffer + NewLines(scroll);
        moved := moved.(hardwareRow := target, top := moved.top + scroll);
        viewportTop := viewportTop + scroll;
      }
    }

    method BuildPaint(c: Setting, lines: seq<string>, first: nat, renderEnd: nat) returns (buffer: seq<Op>)
      requires first <= renderEnd < |lines| && c.text == text
      ensures buffer == PaintRange(c, lines, first, renderEnd + 1)
    {
      buffer := [];
      assert PaintRange(c, lines, first, first) == [];
      for i := first to renderEnd + 1
        invariant buffer == PaintRange(c, lines, first, i)
      {
        if i > first {
          buffer := buffer + [NewLine];
        }
        buffer := buffer + [EraseLine];
        buffer := buffer + [Printed(lines[i], c.width)];
      }
    }

    /** Clears the rows of a longer old frame; also says where the cursor ends. */
    method BuildTrail(lines: seq<string>, renderEnd: nat) returns (buffer: seq<Op>, finalRow: nat)
      requires renderEnd < |lines|
      ensures buffer == TrailingOps(Fields(), lines, renderEnd)
      ensures finalRow == if |previousLines| > |lines| then |lines| - 1 else renderEnd
    {
      buffer, finalRow := [], renderEnd;
      if |previousLines| > |lines| {
        if renderEnd < |lines| - 1 {
          buffer := [Down(|lines| - 1 - renderEnd)];
          finalRow := |lines| - 1;
        }
        ghost var moved := buffer;
        for i := |lines| to |previousLines|
          invariant buffer == moved + ClearBelow(i - |lines|)
        {
          buffer := buffer + [NewLine, EraseLine];
        }
        buffer := buffer + [Up(|previousLines| - |lines|)];
      }
    }

    /** The sequences that paint the changed lines and clear what trails. */
    method BuildPatch(c: Setting, lines: seq<string>, first: nat, last: int) returns (buffer: seq<Op>, finalRow: nat)
      requires first < |lines| && first <= last && c.text == text
      ensures buffer == PatchOps(c, Fields(), lines, first, last)
      ensures finalRow == if |previousLines| > |lines| then |lines| - 1 else Min(last, |lines| - 1)
    {
      hide Vertical, PaintRange, TrailingOps, ScrollAhead;
      var appendStart := |lines| > |previousLines| && first == |previousLines| && first > 0;
      var target := if appendStart then first - 1 else first;
      var ahead, moved, viewportTop := BuildScroll(c, target);
      var lineDiff := (target - viewportTop) - (moved.hardwareRow - moved.top);
      var move := MoveBy(lineDiff);
      var seek := move + [if appendStart then NewLine else Return];
      var renderEnd := Min(last, |lines| - 1);
      var paint := BuildPaint(c, lines, first, renderEnd);
      var trail;
      trail, finalRow := BuildTrail(lines, renderEnd);
      buffer := [BeginSync] + ahead + seek + paint + trail + [EndSync];
    }

    method PatchScreen(c: Setting, f: Frame, first: nat, last: int)
      requires terminal.term.Valid() && c.showCursor == showHardwareCursor && c.text == text
      requires first < |f.lines| && first <= last
      modifies this, terminal
      ensures var (s', ops) := Patch(c, old(Fields()), f, first, last);
              Fields() == s' && terminal.term == Run(old(terminal.term), ops)
      ensures Opts() == old(Opts()) && renderRequested == old(renderRequested)
    {
      hide Run, PatchOps, CursorOps;
      var buffer, finalRow := BuildPatch(c, f.lines, first, last);
      ghost var start := terminal.term;
      terminal.Write(buffer);
      cursorRow := Max(0, |f.lines| - 1);
      hardwareCursorRow := finalRow;
      maxLinesRendered := Max(maxLinesRendered, |f.lines|);
      previousViewportTop := Max(0, maxLinesRendered - c.height);
      PositionHardwareCursor(c, f.cursor, |f.lines|);
      RunConcat(start, buffer, CursorOps(c, finalRow, f.cursor, |f.lines|));
      previousLines, previousWidth, previousHeight := f.lines, c.width, c.height;
    }

    /** Which way to render, and the first and last changed lines for a patch. */
    method Decide(c: Setting, f: Frame) returns (path: Path, first: int, last: int)
      requires c.clearOnShrink == clearOnShrink
      ensures path == Choose(c, Fields(), f)
      ensures path in {Same, Shorter, Partial} ==>
                first == FirstChanged(previousLines, f.lines) && last == LastChanged(previousLines, f.lines)
    {
      hide FirstChanged, LastChanged;
      first, last := -1, -1;
      var newLines := f.lines;
      var widthChanged := previousWidth != 0 && previousWidth != c.width;
      var heightChanged := previousHeight != 0 && previousHeight != c.height;
      if |previousLines| == 0 && !widthChanged && !heightChanged {
        path := First;
        return;
      }
      if widthChanged || heightChanged {
        path := Repaint;
        return;
      }
      if clearOnShrink && |newLines| < maxLinesRendered && !f.overlays {
        path := Repaint;
        return;
      }
      first, last := FindChanges(newLines);
      if first == -1 {
        path := Same;
        return;
      }
      if first >= |newLines| {
        path := if |previousLines| - |newLines| > c.height then Repaint else Shorter;
        return;
      }
      var previousContentViewportTop := Max(0, |previousLines| - c.height);
      path := if first < previousContentViewportTop then Repaint else Partial;
    }

    /** Renders a frame the way decided on. */
    method RenderFrame(f: Frame)
      requires terminal.term.Valid()
      modifies this, terminal
      ensures State() == Apply(old(State()), Rendered(f))
      ensures renderRequested == old(renderRequested)
    {
      hide Run, Choose, Renderer.FullRender, DeleteOnly, Patch, CursorOps, FirstChanged, LastChanged;
      var c := Setting(text, terminal.term.width, terminal.term.height, clearOnShrink, showHardwareCursor);
      var path, first, last := Decide(c, f);
      ChosenPath(c, Fields(), f);
      match path
      case First => FullRender(c, f, false);
      case Repaint => FullRender(c, f, true);
      case Same =>
        PositionHardwareCursor(c, f.cursor, |f.lines|);
        previousViewportTop := Max(0, maxLinesRendered - c.height);
        previousHeight := c.height;
      case Shorter => ClearDeleted(c, f);
      case Partial => PatchScreen(c, f, first, last);
    }

    /** Renders the lines the components produced (overlays composited in). */
    method DoRender(lines: array<string>, overlays: bool)
      requires terminal.term.Valid()
      modifies this, terminal, lines
      ensures State() == Apply(old(State()),
                               Rendered(FrameOf(text, old(lines[..]), old(terminal.term.height), overlays)))
      ensures renderRequested == old(renderRequested)
    {
      hide Apply, CursorOf, WithoutMarker, WithResets;
      var height := terminal.term.height;
      var cursorPos := ExtractCursorPosition(lines, height);
      ApplyLineResets(lines);
      RenderFrame(Frame(lines[..], cursorPos, overlays));
    }

    /** What the scheduled tick does. */
    method Tick(lines: array<string>, overlays: bool)
      requires terminal.term.Valid()
      modifies this, terminal, lines
      ensures State() == Apply(old(State()),
                               Rendered(FrameOf(text, old(lines[..]), old(terminal.term.height), overlays)))
      ensures !renderRequested
    {
      renderRequested := false;
      DoRender(lines, overlays);
    }
  }
}
