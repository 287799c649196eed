/** The differential renderer of packages/pi-tui/src/tui.ts, as a function: from
    the shadow it keeps of the screen and the next frame, the control sequences
    it writes and the shadow it keeps afterwards. */
module Renderer {
  import opened Common
  import opened Terminal

  /** The native text functions: the cells a string occupies when printed, and
      the cut of a string to a number of columns. */
  datatype Text = Text(cells: string -> seq<Cell>, truncate: (string, nat) -> string) {
    ghost predicate Truncates() {
      forall s, w :: |cells(truncate(s, w))| <= w
    }

    /** The cells printed for a line: those of the line, cut if too wide. */
    function Fit(line: string, width: nat): seq<Cell> {
      cells(if |cells(line)| > width then truncate(line, width) else line)
    }
  }

  datatype Position = Position(row: nat, col: nat)

  /** A frame to show: its lines without the cursor marker, where the marker
      was, and whether the overlay stack is non-empty. */
  datatype Frame = Frame(lines: seq<string>, cursor: Option<Position>, overlays: bool)

  /** Terminal size and settings at the time of a render. */
  datatype Setting = Setting(text: Text, width: nat, height: nat, clearOnShrink: bool, showCursor: bool)

  /** The fields the renderer keeps between frames. */
  datatype Shadow = Shadow(
    lines: seq<string>,   // previousLines
    width: int,           // previousWidth: 0 before the first frame, -1 to force a repaint
    height: int,          // previousHeight
    cursorRow: nat,       // logical end of the content
    hardwareRow: nat,     // hardwareCursorRow
    max: nat,             // maxLinesRendered
    top: nat,             // previousViewportTop
    redraws: nat)         // fullRedrawCount

  const INITIAL := Shadow([], 0, 0, 0, 0, 0, 0, 0)

  // ---- what changed -------------------------------------------------------

  function LineAt(lines: seq<string>, i: nat): string {
    if i < |lines| then lines[i] else ""
  }

  predicate Changed(old_: seq<string>, new_: seq<string>, i: nat) {
    LineAt(old_, i) != LineAt(new_, i)
  }

  function FirstDifference(old_: seq<string>, new_: seq<string>, from: nat): (r: int)
    ensures r == -1 || from <= r < Max(|old_|, |new_|)
    ensures r != -1 ==> Changed(old_, new_, r)
    ensures forall i: nat :: from <= i < (if r == -1 then Max(|old_|, |new_|) else r) ==> !Changed(old_, new_, i)
    decreases Max(|old_|, |new_|) - from
  {
    if from >= Max(|old_|, |new_|) then -1
    else if Changed(old_, new_, from) then from
    else FirstDifference(old_, new_, from + 1)
  }

  function LastDifference(old_: seq<string>, new_: seq<string>, before: nat): (r: int)
    ensures -1 <= r < before
    ensures r != -1 ==> Changed(old_, new_, r)
    ensures forall i: nat :: r < i < before ==> !Changed(old_, new_, i)
  {
    if before == 0 then -1
    else if Changed(old_, new_, before - 1) then before - 1
    else LastDifference(old_, new_, before - 1)
  }

  predicate Appended(old_: seq<string>, new_: seq<string>) {
    |new_| > |old_|
  }

  function FirstChanged(old_: seq<string>, new_: seq<string>): int {
    var first := FirstDifference(old_, new_, 0);
    if Appended(old_, new_) && first == -1 then |old_| else first
  }

  function LastChanged(old_: seq<string>, new_: seq<string>): int {
    if Appended(old_, new_) then |new_| - 1 else LastDifference(old_, new_, Max(|old_|, |new_|))
  }

  // ---- the sequences written ----------------------------------------------

  function Vertical(delta: int): (r: seq<Op>)
    ensures EraseScrollback !in r
  {
    if delta > 0 then [Down(delta)] else if delta < 0 then [Up(-delta)] else []
  }

  function NewLines(n: nat): (r: seq<Op>)
    ensures EraseScrollback !in r
  {
    if n == 0 then [] else NewLines(n - 1) + [NewLine]
  }

  /** The first `k` lines, separated by new lines. */
  function PrintLines(c: Setting, lines: seq<string>, k: nat): seq<Op>
    requires k <= |lines|
  {
    if k == 0 then []
    else PrintLines(c, lines, k - 1) + (if k > 1 then [NewLine] else []) + [Print(c.text.Fit(lines[k - 1], c.width))]
  }

  /** Lines `from` to `k - 1`, each on a row cleared for it. */
  function PaintRange(c: Setting, lines: seq<string>, from: nat, k: nat): (r: seq<Op>)
    requires from <= k <= |lines|
    ensures EraseScrollback !in r
    decreases k
  {
    if k == from then []
    else PaintRange(c, lines, from, k - 1)
         + (if k - 1 > from then [NewLine] else [])
         + [EraseLine, Print(c.text.Fit(lines[k - 1], c.width))]
  }

  /** Clears the `n` rows below the cursor, scrolling if need be. */
  function ClearBelow(n: nat): (r: seq<Op>)
    ensures EraseScrollback !in r
  {
    if n == 0 then [] else ClearBelow(n - 1) + [NewLine, EraseLine]
  }

  /** Clears `k` of `n` rows from the cursor down, without scrolling. */
  function ClearDown(k: nat, n: nat): (r: seq<Op>)
    requires k <= n
    ensures EraseScrollback !in r
  {
    if k == 0 then []
    else ClearDown(k - 1, n) + [Return, EraseLine] + (if k - 1 < n - 1 then [Down(1)] else [])
  }

  /** Puts the hardware cursor where the marker was. */
  function CursorRowAfter(hardwareRow: nat, cursor: Option<Position>, total: nat): nat {
    if cursor.None? || total == 0 then hardwareRow else Max(0, Min(cursor.value.row, total - 1))
  }

  function CursorOps(c: Setting, hardwareRow: nat, cursor: Option<Position>, total: nat): (r: seq<Op>)
    ensures EraseScrollback !in r
  {
    if cursor.None? || total == 0 then [HideCursor]
    else Vertical(CursorRowAfter(hardwareRow, cursor, total) - hardwareRow)
         + [Column(cursor.value.col + 1)]
         + [if c.showCursor then ShowCursor else HideCursor]
  }

  // ---- one render -----------------------------------------------------------

  function FullOps(c: Setting, lines: seq<string>, clear: bool): seq<Op> {
    [BeginSync] + (if clear then [EraseScrollback, EraseScreen, Home] else [])
    + PrintLines(c, lines, |lines|) + [EndSync]
  }

  function FullShadow(c: Setting, s: Shadow, f: Frame, clear: bool): Shadow {
    var n := |f.lines|;
    var end := Max(0, n - 1);
    var max := if clear then n else Max(s.max, n);
    Shadow(f.lines, c.width, c.height, end, CursorRowAfter(end, f.cursor, n), max, Max(0, max - c.height),
           s.redraws + 1)
  }

  function FullRender(c: Setting, s: Shadow, f: Frame, clear: bool): (Shadow, seq<Op>) {
    (FullShadow(c, s, f, clear),
     FullOps(c, f.lines, clear) + CursorOps(c, Max(0, |f.lines| - 1), f.cursor, |f.lines|))
  }

  /** Nothing changed but, perhaps, the place of the cursor. */
  function Unchanged(c: Setting, s: Shadow, f: Frame): (Shadow, seq<Op>) {
    (s.(hardwareRow := CursorRowAfter(s.hardwareRow, f.cursor, |f.lines|),
        top := Max(0, s.max - c.height), height := c.height),
     CursorOps(c, s.hardwareRow, f.cursor, |f.lines|))
  }

  /** Screen rows from the cursor to `target`, when the content top was
      `s.top` and is now `viewportTop`. */
  function LineDiff(s: Shadow, target: int, viewportTop: int): int {
    (target - viewportTop) - (s.hardwareRow - s.top)
  }

  /** To column 0 of the row `delta` below, or of the row after that. */
  function SeekOps(delta: int, next: bool): seq<Op> {
    Vertical(delta) + [if next then NewLine else Return]
  }

  /** Clears the `n` rows below the cursor without scrolling, and comes back. */
  function WipeOps(n: nat): seq<Op> {
    [Down(1)] + ClearDown(n, n) + [Up(n)]
  }

  function DeleteOps(c: Setting, s: Shadow, lines: seq<string>): (r: seq<Op>)
    requires |lines| < |s.lines|
    ensures EraseScrollback !in r
  {
    var target := Max(0, |lines| - 1);
    [BeginSync] + SeekOps(LineDiff(s, target, Max(0, s.max - c.height)), false)
    + WipeOps(|s.lines| - |lines|) + [EndSync]
  }

  /** Every change is a line that is gone: clear it, print nothing. */
  function DeleteOnly(c: Setting, s: Shadow, f: Frame): (Shadow, seq<Op>)
    requires |f.lines| < |s.lines|
  {
    var target := Max(0, |f.lines| - 1);
    (Shadow(f.lines, c.width, c.height, target, CursorRowAfter(target, f.cursor, |f.lines|),
            s.max, Max(0, s.max - c.height), s.redraws),
     DeleteOps(c, s, f.lines) + CursorOps(c, target, f.cursor, |f.lines|))
  }

  /** The row to move to before painting: the last old row when the new lines
      are all appended, else the first changed one. */
  function MoveTarget(s: Shadow, lines: seq<string>, first: int): int {
    if Appended(s.lines, lines) && first == |s.lines| && first > 0 then first - 1 else first
  }

  /** Scrolls ahead when the target is below the screen; the shadow returned
      has the cursor row and the top moved along. */
  function ScrollAhead(c: Setting, s: Shadow, target: nat): (r: (Shadow, int, seq<Op>))
    ensures EraseScrollback !in r.2
  {
    var bottom := s.top + c.height - 1;
    var viewportTop := Max(0, s.max - c.height);
    if target > bottom then
      var screenRow := Max(0, Min(c.height - 1, s.hardwareRow - s.top));
      var toBottom := c.height - 1 - screenRow;
      var scroll := target - bottom;
      (s.(hardwareRow := target, top := s.top + scroll), viewportTop + scroll,
       (if toBottom > 0 then [Down(toBottom)] else []) + NewLines(scroll))
    else
      (s, viewportTop, [])
  }

  function TrailingOps(s: Shadow, lines: seq<string>, renderEnd: int): (r: seq<Op>)
    requires renderEnd < |lines|
    ensures EraseScrollback !in r
  {
    if |s.lines| > |lines| then
      var extra := |s.lines| - |lines|;
      (if renderEnd < |lines| - 1 then [Down(|lines| - 1 - renderEnd)] else [])
      + ClearBelow(extra) + [Up(extra)]
    else []
  }

  function PatchOps(c: Setting, s: Shadow, lines: seq<string>, first: nat, last: int): (r: seq<Op>)
    requires first < |lines| && first <= last
    ensures EraseScrollback !in r
  {
    var target := MoveTarget(s, lines, first);
    var (s', viewportTop, ahead) := ScrollAhead(c, s, target);
    var renderEnd := Min(last, |lines| - 1);
    [BeginSync] + ahead + SeekOps(LineDiff(s', target, viewportTop), target < first)
    + PaintRange(c, lines, first, renderEnd + 1) + TrailingOps(s, lines, renderEnd) + [EndSync]
  }

  /** Repaints the rows from the first to the last change, and clears the rows
      left over from a longer frame. */
  function Patch(c: Setting, s: Shadow, f: Frame, first: nat, last: int): (Shadow, seq<Op>)
    requires first < |f.lines| && first <= last
  {
    var n := |f.lines|;
    var renderEnd := Min(last, n - 1);
    var end := if |s.lines| > n && renderEnd < n - 1 then n - 1 else renderEnd;
    var max := Max(s.max, n);
    (Shadow(f.lines, c.width, c.height, Max(0, n - 1), CursorRowAfter(end, f.cursor, n),
            max, Max(0, max - c.height), s.redraws),
     PatchOps(c, s, f.lines, first, last) + CursorOps(c, end, f.cursor, n))
  }

  datatype Path = First | Repaint | Same | Shorter | Partial

  predicate SizeChanged(c: Setting, s: Shadow) {
    (s.width != 0 && s.width != c.width) || (s.height != 0 && s.height != c.height)
  }

  /** Which of its five ways the renderer takes. */
  function Choose(c: Setting, s: Shadow, f: Frame): Path {
    var first := FirstChanged(s.lines, f.lines);
    if s.lines == [] && !SizeChanged(c, s) then First
    else if SizeChanged(c, s) then Repaint
    else if c.clearOnShrink && |f.lines| < s.max && !f.overlays then Repaint
    else if first == -1 then Same
    else if first >= |f.lines| then
      if |s.lines| - |f.lines| > c.height then Repaint else Shorter
    else if first < Max(0, |s.lines| - c.height) then Repaint
    else Partial
  }

  lemma ChangesAreOrdered(old_: seq<string>, new_: seq<string>)
    ensures var first := FirstChanged(old_, new_);
            && -1 <= first < Max(|old_|, |new_|) && first <= LastChanged(old_, new_)
            && (first >= |new_| ==> |old_| > |new_|)
  {
  }

  lemma ChosenPath(c: Setting, s: Shadow, f: Frame)
    ensures var first, last := FirstChanged(s.lines, f.lines), LastChanged(s.lines, f.lines);
            && (Choose(c, s, f) == Shorter ==> |f.lines| < |s.lines|)
            && (Choose(c, s, f) == Partial ==> 0 <= first < |f.lines| && first <= last)
  {
    ChangesAreOrdered(s.lines, f.lines);
  }

  function Render(c: Setting, s: Shadow, f: Frame): (Shadow, seq<Op>) {
    ChosenPath(c, s, f);
    match Choose(c, s, f)
    case First => FullRender(c, s, f, false)
    case Repaint => FullRender(c, s, f, true)
    case Same => Unchanged(c, s, f)
    case Shorter => DeleteOnly(c, s, f)
    case Partial => Patch(c, s, f, FirstChanged(s.lines, f.lines), LastChanged(s.lines, f.lines))
  }
}
