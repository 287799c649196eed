/** Overlays painted over the frame, packages/pi-tui/src/tui.ts: the painter's
    algorithm in order of focus.  Lines are cells of one column each; styling has
    no width and is left out. */
module Compositor {
  import opened Common
  import opened Layout
  import StableSort

  type Line = seq<char>

  /** What the compositor reads of an overlay: its options, the lines it renders
      at a width, whether it is visible at this size, and its place in front. */
  datatype View = View(options: Options, render: int -> seq<Line>, visible: bool, focusOrder: int)

  datatype Layer = Layer(lines: seq<Line>, row: nat, col: nat, width: nat)

  function CellAt(line: Line, x: nat): char {
    if x < |line| then line[x] else ' '
  }

  function Spaces(n: int): (r: Line)
    ensures |r| == Max(0, n) && forall x :: 0 <= x < |r| ==> r[x] == ' '
  {
    seq(Max(0, n), _ => ' ')
  }

  /** The cells of columns `from` to `from + length`. */
  function Slice(line: Line, from: nat, length: nat): (r: Line)
    ensures |r| == Max(0, Min(length, |line| - from)) && forall x :: 0 <= x < |r| ==> r[x] == line[from + x]
  {
    if from >= |line| then [] else if from + length <= |line| then line[from..from + length] else line[from..]
  }

  /** The native function takes the length as an unsigned 32-bit number. */
  function Unsigned(n: int): nat {
    n % 0x1_0000_0000
  }

  // ---- one line --------------------------------------------------------------------------

  function CompositeLine(base: Line, overlay: Line, start: nat, width: nat, total: nat): Line {
    var before := Slice(base, 0, start);
    var after := Slice(base, start + width, Unsigned(total - (start + width)));
    var text := Slice(overlay, 0, width);
    var afterTarget := Max(0, total - Max(start, |before|) - Max(width, |text|));
    var result := before + Spaces(start - |before|) + text + Spaces(width - |text|) + after
        + Spaces(afterTarget - |after|);
    if |result| <= total then result else Slice(result, 0, total)
  }

  /** Cells `from` to `from + length`, blank where the line has ended. */
  ghost predicate Shows(r: Line, line: Line, from: nat, length: nat) {
    |r| == length && forall x :: 0 <= x < length ==> r[x] == CellAt(line, from + x)
  }

  function Padded(line: Line, from: nat, length: nat): Line {
    var s := Slice(line, from, length);
    s + Spaces(length - |s|)
  }

  lemma PaddedShows(line: Line, from: nat, length: nat)
    ensures Shows(Padded(line, from, length), line, from, length) && |Slice(line, from, length)| <= length
  {
  }

  lemma ThreeParts(left: Line, middle: Line, right: Line, base: Line, overlay: Line, start: nat, width: nat,
                   total: nat, r: Line)
    requires Shows(left, base, 0, start) && Shows(middle, overlay, 0, width)
    requires start + width <= total ==> Shows(right, base, start + width, total - start - width)
    requires |r| == total <= |left + middle + right| && r == (left + middle + right)[..total]
    ensures forall x :: 0 <= x < total ==>
              r[x] == if start <= x < start + width then CellAt(overlay, x - start) else CellAt(base, x)
  {
    hide CellAt;
    forall x | 0 <= x < total
      ensures r[x] == if start <= x < start + width then CellAt(overlay, x - start) else CellAt(base, x)
    {
      if x < start {
        assert r[x] == left[x] == CellAt(base, 0 + x);
      } else if x < start + width {
        assert r[x] == middle[x - start] == CellAt(overlay, 0 + (x - start));
      } else {
        assert r[x] == right[x - start - width] == CellAt(base, start + width + (x - start - width));
      }
    }
  }

  /** The whole width of the terminal, the overlay's cells in its columns and
      the line's own cells in the others. */
  lemma CompositeLineCells(base: Line, overlay: Line, start: nat, width: nat, total: nat)
    requires total < 0x1_0000_0000
    ensures var r := CompositeLine(base, overlay, start, width, total);
            && |r| == total
            && forall x :: 0 <= x < total ==>
                 r[x] == if start <= x < start + width then CellAt(overlay, x - start) else CellAt(base, x)
  {
    hide CompositeLine, Padded, Shows, CellAt, Slice;
    var left, middle := Padded(base, 0, start), Padded(overlay, 0, width);
    PaddedShows(base, 0, start);
    PaddedShows(overlay, 0, width);
    assert |left| == start && |middle| == width by { ShowsLength(base, 0, start); ShowsLength(overlay, 0, width); }
    var right := RightOf(base, start + width, total);
    if start + width <= total {
      PaddedShows(base, start + width, total - start - width);
    }
    RightReaches(base, start + width, total);
    CompositeLineForm(base, overlay, start, width, total);
    CutToTotal(left + middle + right, total);
    ThreeParts(left, middle, right, base, overlay, start, width, total,
               CompositeLine(base, overlay, start, width, total));
  }

  lemma ShowsLength(line: Line, from: nat, length: nat)
    ensures |Padded(line, from, length)| == length
  {
  }

  /** What follows the overlay; past the end of the line, whatever is there is
      cut off again. */
  function RightOf(base: Line, from: nat, total: nat): Line {
    if from <= total then Padded(base, from, total - from)
    else Slice(base, from, Unsigned(total - from))
  }

  lemma RightReaches(base: Line, from: nat, total: nat)
    requires total < 0x1_0000_0000
    ensures from + |RightOf(base, from, total)| >= total
    ensures from <= total ==> RightOf(base, from, total) == Padded(base, from, total - from)
  {
  }

  function CutTo(whole: Line, total: nat): Line {
    if |whole| <= total then whole else Slice(whole, 0, total)
  }

  lemma CutToTotal(whole: Line, total: nat)
    requires |whole| >= total
    ensures |CutTo(whole, total)| == total && CutTo(whole, total) == whole[..total]
  {
  }

  lemma CompositeLineForm(base: Line, overlay: Line, start: nat, width: nat, total: nat)
    requires total < 0x1_0000_0000
    ensures CompositeLine(base, overlay, start, width, total)
         == CutTo(Padded(base, 0, start) + Padded(overlay, 0, width) + RightOf(base, start + width, total), total)
  {
    hide Slice, Spaces;
    var before, text := Slice(base, 0, start), Slice(overlay, 0, width);
    PaddedShows(base, 0, start);
    PaddedShows(overlay, 0, width);
    var after := Slice(base, start + width, Unsigned(total - (start + width)));
    var room := Max(0, total - start - width);
    SixParts(before, Spaces(start - |before|), text, Spaces(width - |text|), after, Spaces(room - |after|));
    assert after + Spaces(room - |after|) == RightOf(base, start + width, total) by {
      if start + width <= total {
        assert Unsigned(total - (start + width)) == total - (start + width);
      } else {
        assert |Spaces(0 - |after|)| == 0 by { NoSpaces(|after|); }
      }
    }
  }

  lemma NoSpaces(n: nat)
    ensures Spaces(0 - n) == []
  {
  }

  lemma SixParts(a: Line, b: Line, c: Line, d: Line, e: Line, f: Line)
    ensures a + b + c + d + e + f == (a + b) + (c + d) + (e + f)
  {
    assert a + b + c + d == (a + b) + (c + d);
    assert (a + b + c + d) + e + f == (a + b + c + d) + (e + f);
  }

  // ---- layers ------------------------------------------------------------------------------

  /** Rendered at its width, cut to its height limit, then placed. */
  function LayerOf(v: View, columns: int, rows: int): Layer {
    var first := Resolve(v.options, 0, columns, rows);
    var rendered := v.render(first.width);
    var lines := if first.maxHeight.Some? && |rendered| > first.maxHeight.value
                 then rendered[..first.maxHeight.value]
                 else rendered;
    var placed := Resolve(v.options, |lines|, columns, rows);
    Layer(lines, placed.row, placed.col, first.width)
  }

  /** An overlay shows the first lines of what it renders at its width, all of them
      or as many as its limit lets it, and lies where its options put that many. */
  lemma LayerShows(v: View, columns: int, rows: int)
    ensures var l := LayerOf(v, columns, rows);
            var rendered := v.render(l.width);
            var limit := Resolve(v.options, 0, columns, rows).maxHeight;
            && l.lines <= rendered
            && |l.lines| == (if limit.Some? && limit.value < |rendered| then limit.value else |rendered|)
            && Resolve(v.options, |l.lines|, columns, rows) == Layout(l.width, l.row, l.col, limit)
  {
  }

  function LayersOf(views: seq<View>, columns: int, rows: int): (r: seq<Layer>)
    ensures |r| == |views|
  {
    seq(|views|, i requires 0 <= i < |views| => LayerOf(views[i], columns, rows))
  }

  lemma LayersAre(views: seq<View>, columns: int, rows: int)
    ensures var r := LayersOf(views, columns, rows); forall i :: 0 <= i < |r| ==>
            r[i] == LayerOf(views[i], columns, rows)
  {
  }

  /** Layers hold the rows `top + row` on, `top` being the first row in view. */
  predicate InRows(l: Layer, top: nat, y: int) {
    0 <= y - top - l.row < |l.lines|
  }

  predicate Covers(l: Layer, top: nat, y: int, x: int) {
    InRows(l, top, y) && l.col <= x < l.col + l.width
  }

  function LayerCell(l: Layer, top: nat, y: nat, x: nat): char
    requires Covers(l, top, y, x)
  {
    CellAt(l.lines[y - top - l.row], x - l.col)
  }

  /** A line of the layer, cut to its width. */
  function Cut(line: Line, width: nat): Line {
    if |line| > width then Slice(line, 0, width) else line
  }

  function PaintRow(line: Line, l: Layer, top: nat, y: nat, columns: nat): Line {
    if InRows(l, top, y) then CompositeLine(line, Cut(l.lines[y - top - l.row], l.width), l.col, l.width, columns)
      else line
  }

  function Paint(lines: seq<Line>, l: Layer, top: nat, columns: nat): (r: seq<Line>)
    ensures |r| == |lines| && forall y :: 0 <= y < |r| ==> r[y] == PaintRow(lines[y], l, top, y, columns)
  {
    seq(|lines|, y requires 0 <= y < |lines| => PaintRow(lines[y], l, top, y, columns))
  }

  function PaintAll(lines: seq<Line>, layers: seq<Layer>, top: nat, columns: nat): (r: seq<Line>)
    ensures |r| == |lines|
    decreases |layers|
  {
    if layers == [] then lines
    else Paint(PaintAll(lines, layers[..|layers| - 1], top, columns), layers[|layers| - 1], top, columns)
  }

  /** One layer changes the cells it covers, and no others. */
  lemma PaintCells(line: Line, l: Layer, top: nat, y: nat, x: nat, columns: nat)
    requires x < columns < 0x1_0000_0000
    ensures CellAt(PaintRow(line, l, top, y, columns), x) == if Covers(l, top, y, x) then LayerCell(l, top, y, x)
            else CellAt(line, x)
  {
    hide CompositeLine;
    if InRows(l, top, y) {
      CompositeLineCells(line, Cut(l.lines[y - top - l.row], l.width), l.col, l.width, columns);
    }
  }

  /** The cell of the last of the layers that cover it. */
  function TopCell(layers: seq<Layer>, top: nat, y: nat, x: nat, base: char): char {
    if layers == [] then base
    else
      var last := layers[|layers| - 1];
      if Covers(last, top, y, x) then LayerCell(last, top, y, x) else TopCell(layers[..|layers| - 1], top, y, x, base)
  }

  lemma {:induction false} PaintAllCells(lines: seq<Line>, layers: seq<Layer>, top: nat, y: nat, x: nat, columns: nat)
    requires y < |lines| && x < columns < 0x1_0000_0000
    ensures CellAt(PaintAll(lines, layers, top, columns)[y], x) == TopCell(layers, top, y, x, CellAt(lines[y], x))
    decreases |layers|
  {
    hide PaintRow, CellAt, LayerCell, Covers;
    if layers != [] {
      var before := layers[..|layers| - 1];
      PaintAllCells(lines, before, top, y, x, columns);
      PaintCells(PaintAll(lines, before, top, columns)[y], layers[|layers| - 1], top, y, x, columns);
    }
  }

  lemma {:induction false} TopIsLast(layers: seq<Layer>, top: nat, y: nat, x: nat, base: char, i: nat)
    requires i < |layers| && Covers(layers[i], top, y, x)
    requires forall j :: i < j < |layers| ==> !Covers(layers[j], top, y, x)
    ensures TopCell(layers, top, y, x, base) == LayerCell(layers[i], top, y, x)
    decreases |layers|
  {
    hide Covers, LayerCell;
    if i < |layers| - 1 {
      TopIsLast(layers[..|layers| - 1], top, y, x, base, i);
    }
  }

  lemma {:induction false} TopIsBase(layers: seq<Layer>, top: nat, y: nat, x: nat, base: char)
    requires forall j :: 0 <= j < |layers| ==> !Covers(layers[j], top, y, x)
    ensures TopCell(layers, top, y, x, base) == base
    decreases |layers|
  {
    hide Covers, LayerCell;
    if layers != [] {
      TopIsBase(layers[..|layers| - 1], top, y, x, base);
    }
  }

  // ---- the frame ----------------------------------------------------------------------------

  function Visible(views: seq<View>): (r: seq<View>)
    ensures forall v :: v in r <==> v in views && v.visible
  {
    if views == [] then []
    else (if views[0].visible then [views[0]] else []) + Visible(views[1..])
  }

  function Ordered(views: seq<View>): seq<View> {
    StableSort.Sort(Visible(views), (v: View) => v.focusOrder as real)
  }

  /** The rows needed to show every layer. */
  function Needed(layers: seq<Layer>, least: nat): (r: nat)
    ensures least <= r
    decreases |layers|
  {
    if layers == [] then least
    else
      var last := layers[|layers| - 1];
      Max(Needed(layers[..|layers| - 1], least), last.row + |last.lines|)
  }

  lemma {:induction false} NeededCovers(layers: seq<Layer>, least: nat)
    ensures var r := Needed(layers, least);
            && (forall l :: l in layers ==> l.row + |l.lines| <= r)
            && (r == least || exists l :: l in layers && l.row + |l.lines| == r)
    decreases |layers|
  {
    if layers != [] {
      var before, last := layers[..|layers| - 1], layers[|layers| - 1];
      assert layers == before + [last];
      NeededCovers(before, least);
    }
  }

  function Extend(lines: seq<Line>, height: nat): (r: seq<Line>)
    ensures |r| == Max(|lines|, height)
  {
    lines + seq(Max(0, height - |lines|), _ => "")
  }

  lemma ExtendedRow(lines: seq<Line>, height: nat, y: nat)
    requires y < Max(|lines|, height)
    ensures Extend(lines, height)[y] == if y < |lines| then lines[y] else ""
  {
  }

  function WorkingHeight(lines: seq<Line>, layers: seq<Layer>, maxRendered: nat): nat {
    Max(maxRendered, Needed(layers, |lines|))
  }

  function Top(height: nat, rows: nat): nat {
    Max(0, height - rows)
  }

  function CompositeLayers(lines: seq<Line>, layers: seq<Layer>, maxRendered: nat, columns: nat, rows: nat): seq<Line> {
    var height := WorkingHeight(lines, layers, maxRendered);
    PaintAll(Extend(lines, height), layers, Top(height, rows), columns)
  }

  function Composite(lines: seq<Line>, views: seq<View>, maxRendered: nat, columns: nat, rows: nat): seq<Line> {
    if views == [] then lines
    else CompositeLayers(lines, LayersOf(Ordered(views), columns, rows), maxRendered, columns, rows)
  }

  ghost predicate Distinct(views: seq<View>) {
    forall i, j :: 0 <= i < j < |views| ==> views[i].focusOrder != views[j].focusOrder
  }

  /** The frame is as high as the working area, the lines and the overlays need. */
  lemma CompositeHeight(lines: seq<Line>, views: seq<View>, maxRendered: nat, columns: nat, rows: nat)
    ensures var r := Composite(lines, views, maxRendered, columns, rows);
            if views == [] then r == lines
            else
              && |r| == WorkingHeight(lines, LayersOf(Ordered(views), columns, rows), maxRendered)
              && |r| >= maxRendered && |r| >= |lines|
  {
    hide LayersOf, Ordered, PaintAll, Extend, Needed;
  }

  lemma OrderedHasVisible(views: seq<View>)
    ensures StableSort.Sorted(Ordered(views), (v: View) => v.focusOrder as real)
    ensures forall v :: v in Ordered(views) <==> v in views && v.visible
  {
    hide StableSort.Sort, Visible;
    StableSort.SortIsStable(Visible(views), (v: View) => v.focusOrder as real, 0.0);
    assert forall v :: v in Ordered(views) <==> v in multiset(Ordered(views));
    assert forall v :: v in Visible(views) <==> v in multiset(Visible(views));
  }

  /** `v` is the visible overlay of greatest focus order that covers the cell. */
  ghost predicate Frontmost(views: seq<View>, columns: nat, rows: nat, v: View, top: nat, y: nat, x: nat) {
    && v in views && v.visible && Covers(LayerOf(v, columns, rows), top, y, x)
    && forall u :: u in views && u.visible && Covers(LayerOf(u, columns, rows), top, y, x) ==>
      u.focusOrder <= v.focusOrder
  }

  ghost predicate Uncovered(views: seq<View>, columns: nat, rows: nat, top: nat, y: nat, x: nat) {
    forall v :: v in views && v.visible ==> !Covers(LayerOf(v, columns, rows), top, y, x)
  }

  /** Every cell shows the visible overlay of greatest focus order that covers
      it, and the frame itself where none does. */
  lemma FrontmostShows(lines: seq<Line>, views: seq<View>, maxRendered: nat, columns: nat, rows: nat, y: nat, x: nat)
    requires Distinct(views) && views != []
    requires x < columns < 0x1_0000_0000
    ensures var r := Composite(lines, views, maxRendered, columns, rows);
            var top := Top(|r|, rows);
            y < |r| ==>
              && (Uncovered(views, columns, rows, top, y, x) ==>
                  CellAt(r[y], x) == if y < |lines| then CellAt(lines[y], x) else ' ')
              && forall v :: Frontmost(views, columns, rows, v, top, y, x) ==>
                CellAt(r[y], x) == LayerCell(LayerOf(v, columns, rows), top, y, x)
  {
    hide LayerOf, Ordered, PaintAll, Extend, Needed, TopCell, Covers, LayerCell, WorkingHeight;
    CompositeHeight(lines, views, maxRendered, columns, rows);
    OrderedHasVisible(views);
    var r := Composite(lines, views, maxRendered, columns, rows);
    var top := Top(|r|, rows);
    var layers := LayersOf(Ordered(views), columns, rows);
    var base := Extend(lines, |r|);
    LayersAre(Ordered(views), columns, rows);
    if y < |r| {
      ExtendedRow(lines, |r|, y);
      PaintAllCells(base, layers, top, y, x, columns);
      if Uncovered(views, columns, rows, top, y, x) {
        TopIsBase(layers, top, y, x, CellAt(base[y], x));
      }
      forall v | Frontmost(views, columns, rows, v, top, y, x)
        ensures CellAt(r[y], x) == LayerCell(LayerOf(v, columns, rows), top, y, x)
      {
        FrontIsLast(views, columns, rows, v, top, y, x, CellAt(base[y], x));
      }
    }
  }

  lemma FrontIsLast(views: seq<View>, columns: nat, rows: nat, v: View, top: nat, y: nat, x: nat, base: char)
    requires Distinct(views)
    ensures Frontmost(views, columns, rows, v, top, y, x) ==>
              TopCell(LayersOf(Ordered(views), columns, rows), top, y, x, base) ==
                  LayerCell(LayerOf(v, columns, rows), top, y, x)
  {
    hide LayerOf, Ordered, TopCell, Covers, LayerCell;
    if Frontmost(views, columns, rows, v, top, y, x) {
      OrderedHasVisible(views);
      var ordered := Ordered(views);
      var layers := LayersOf(ordered, columns, rows);
      LayersAre(ordered, columns, rows);
      // Equal views may stand side by side only if they are one and the same.
      var i := LastOf(ordered, v);
      forall j | i < j < |layers|
        ensures !Covers(layers[j], top, y, x)
      {
        var key := (v: View) => v.focusOrder as real;
        assert key(ordered[i]) <= key(ordered[j]);
        var u := ordered[j];
        var m :| 0 <= m < |views| && views[m] == u;
        var n :| 0 <= n < |views| && views[n] == v;
        assert u != v ==> u.focusOrder != v.focusOrder;
      }
      TopIsLast(layers, top, y, x, base, i);
    }
  }

  lemma {:induction false} LastOf(views: seq<View>, v: View) returns (i: nat)
    requires v in views
    ensures i < |views| && views[i] == v && v !in views[i + 1..]
    decreases |views|
  {
    if views[|views| - 1] == v {
      i := |views| - 1;
    } else {
      i := LastOf(views[..|views| - 1], v);
      assert views[i + 1..] == views[..|views| - 1][i + 1..] + [views[|views| - 1]];
    }
  }

  /** A visible overlay is cut off at the bottom exactly when it reaches below
      the screen while the frame fills it; one that fits between its margins
      never is, and lies within them on the screen. */
  lemma NeverClipped(lines: seq<Line>, views: seq<View>, maxRendered: nat, columns: nat, rows: nat, v: View)
    requires v in views && v.visible
    ensures var r := Composite(lines, views, maxRendered, columns, rows);
            var top, l, m := Top(|r|, rows), LayerOf(v, columns, rows), EdgesOf(v.options);
            && (top + l.row + |l.lines| <= |r| <==> top == 0 || l.row + |l.lines| <= rows)
            && (m.top + |l.lines| + m.bottom <= rows ==>
                  m.top <= l.row && l.row + |l.lines| <= rows - m.bottom && top + l.row + |l.lines| <= |r|)
            && (m.left + m.right < columns ==> m.left <= l.col && l.col + l.width <= columns - m.right)
  {
    hide Ordered, PaintAll, Extend, Needed, Resolve;
    CompositeHeight(lines, views, maxRendered, columns, rows);
    OrderedHasVisible(views);
    var ordered := Ordered(views);
    var i :| 0 <= i < |ordered| && ordered[i] == v;
    var layers := LayersOf(ordered, columns, rows);
    LayersAre(ordered, columns, rows);
    NeededCovers(layers, |lines|);
    assert layers[i] in layers;
  }
}
