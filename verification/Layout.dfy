/** Where an overlay goes, packages/pi-tui/src/tui.ts: sizes and positions in
    cells or percent, anchors, offsets and margins.  Options are whole numbers. */
module Layout {
  import opened Common

  function Or<T>(o: Option<T>, default: T): T {
    if o.Some? then o.value else default
  }

  /** `Unparsed` is a string that is not a percentage. */
  datatype SizeValue = Cells(n: int) | Percent(p: real) | Unparsed

  datatype Anchor =
    | TopLeft | TopCenter | TopRight
    | LeftCenter | Center | RightCenter
    | BottomLeft | BottomCenter | BottomRight

  datatype Margin = Uniform(n: int)
      | Sides(top: Option<int>, right: Option<int>, bottom: Option<int>, left: Option<int>)

  datatype Options = Options(
    width: Option<SizeValue>, minWidth: Option<int>, maxHeight: Option<SizeValue>,
    anchor: Option<Anchor>, offsetX: Option<int>, offsetY: Option<int>,
    row: Option<SizeValue>, col: Option<SizeValue>, margin: Option<Margin>)

  datatype Edges = Edges(top: nat, right: nat, bottom: nat, left: nat)

  datatype Layout = Layout(width: int, row: int, col: int, maxHeight: Option<int>)

  function Size(value: Option<SizeValue>, reference: int): Option<int> {
    match value
    case Some(Cells(n)) => Some(n)
    case Some(Percent(p)) => Some((reference as real * p / 100.0).Floor)
    case _ => None
  }

  /** Negative margins count as none. */
  function EdgesOf(o: Options): Edges {
    match o.margin
    case None => Edges(0, 0, 0, 0)
    case Some(Uniform(n)) => Edges(Max(0, n), Max(0, n), Max(0, n), Max(0, n))
    case Some(Sides(t, r, b, l)) => Edges(Max(0, Or(t, 0)), Max(0, Or(r, 0)), Max(0, Or(b, 0)), Max(0, Or(l, 0)))
  }

  // ---- one axis --------------------------------------------------------------------------

  datatype Place = Start | Middle | End

  function Vertical(a: Anchor): Place {
    match a
    case TopLeft | TopCenter | TopRight => Start
    case LeftCenter | Center | RightCenter => Middle
    case BottomLeft | BottomCenter | BottomRight => End
  }

  function Horizontal(a: Anchor): Place {
    match a
    case TopLeft | LeftCenter | BottomLeft => Start
    case TopCenter | Center | BottomCenter => Middle
    case TopRight | RightCenter | BottomRight => End
  }

  /** Dividing by two rounds down, also below zero. */
  function Anchored(place: Place, size: int, available: int, before: int): int {
    match place
    case Start => before
    case Middle => before + (available - size) / 2
    case End => before + available - size
  }

  /** A number is a position as it stands; an unreadable one means the middle. */
  function Asked(request: Option<SizeValue>, place: Place, size: int, available: int, before: int): int {
    match request
    case None => Anchored(place, size, available, before)
    case Some(Cells(n)) => n
    case Some(Percent(p)) => before + (Max(0, available - size) as real * (p / 100.0)).Floor
    case Some(Unparsed) => Anchored(Middle, size, available, before)
  }

  function Available(total: int, before: int, after: int): int {
    Max(1, total - before - after)
  }

  /** Rows and columns are placed alike: what is asked for, moved by the offset,
      and kept off the far margin first and the near margin last.  The near margin
      is always kept, the far one exactly when there is room; a request within
      both is granted, and anchors put the overlay at an edge of the space, or as
      near its middle as whole cells allow. */
  function Position(request: Option<SizeValue>, place: Place, offset: Option<int>, size: int, total: int, before: int,
                    after: int): (at: int)
    ensures before <= at
    ensures at + size <= total - after <==> before + size + after <= total
    ensures request.Some? && request.value.Cells? && before <= request.value.n + Or(offset, 0)
            && request.value.n + Or(offset, 0) + size <= total - after
            ==> at == request.value.n + Or(offset, 0)
    ensures request.None? && offset.None? && before + size + after <= total && before + after < total
            ==> var gapBefore, gapAfter := at - before, total - after - (at + size);
                match place
                case Start => gapBefore == 0
                case End => gapAfter == 0
                case Middle => 0 <= gapAfter - gapBefore <= 1
  {
    var asked := Asked(request, place, size, Available(total, before, after), before) + Or(offset, 0);
    Max(before, Min(asked, total - after - size))
  }

  function Width(o: Options, columns: int): int {
    var m := EdgesOf(o);
    var available := Available(columns, m.left, m.right);
    var asked := Or(Size(o.width, columns), Min(80, available));
    Max(1, Min(if o.minWidth.Some? then Max(asked, o.minWidth.value) else asked, available))
  }

  function MaxHeight(o: Options, rows: int): Option<int> {
    var m := EdgesOf(o);
    match Size(o.maxHeight, rows)
    case None => None
    case Some(n) => Some(Max(1, Min(n, Available(rows, m.top, m.bottom))))
  }

  /** The height an overlay keeps under its limit. */
  function Shown(o: Options, height: int, rows: int): int {
    var limit := MaxHeight(o, rows);
    if limit.Some? then Min(height, limit.value) else height
  }

  /** Width and height limit do not depend on the height, so that the compositor
      may ask for them first.  The overlay is placed between its margins exactly
      when it fits there: across, when the margins leave a column. */
  function Resolve(o: Options, height: int, columns: int, rows: int): (l: Layout)
    ensures l.width == Width(o, columns) && l.maxHeight == MaxHeight(o, rows)
    ensures var m := EdgesOf(o);
            && 1 <= l.width && m.left <= l.col && m.top <= l.row
            && (l.col + l.width <= columns - m.right <==> m.left + m.right < columns)
            && (l.row + Shown(o, height, rows) <= rows - m.bottom
                <==> m.top + Shown(o, height, rows) + m.bottom <= rows)
    ensures l.maxHeight.Some? ==> 1 <= l.maxHeight.value
    ensures l.maxHeight.Some? && EdgesOf(o).top + EdgesOf(o).bottom < rows
            ==> EdgesOf(o).top + Shown(o, height, rows) + EdgesOf(o).bottom <= rows
  {
    var m := EdgesOf(o);
    var width, maxHeight := Width(o, columns), MaxHeight(o, rows);
    var effective := Shown(o, height, rows);
    var anchor := Or(o.anchor, Center);
    Layout(width,
           Position(o.row, Vertical(anchor), o.offsetY, effective, rows, m.top, m.bottom),
           Position(o.col, Horizontal(anchor), o.offsetX, width, columns, m.left, m.right),
           maxHeight)
  }

  lemma FloorsInOrder(a: real, b: real)
    requires a <= b
    ensures a.Floor <= b.Floor
  {
  }

  lemma Scales(n: nat, p: real, q: real)
    requires p <= q
    ensures n as real * (p / 100.0) <= n as real * (q / 100.0)
  {
    var m := n as real;
    assert m * (q / 100.0) - m * (p / 100.0) == m * ((q - p) / 100.0);
  }

  function AtPercent(p: real, size: int, total: int, before: int, after: int): int {
    Position(Some(Percent(p)), Middle, None, size, total, before, after)
  }

  /** Percentages run from one end of the space to the other, never backwards. */
  lemma PercentsHold(p: real, q: real, size: nat, total: int, before: nat, after: nat)
    requires 0.0 <= p <= q && before + size + after <= total && before + after < total
    ensures AtPercent(0.0, size, total, before, after) == before
    ensures AtPercent(p, size, total, before, after) <= AtPercent(q, size, total, before, after)
    ensures p >= 100.0 ==> AtPercent(p, size, total, before, after) + size == total - after
  {
    var room := total - before - after - size;
    PercentShare(0.0, size, total, before, after);
    PercentShare(p, size, total, before, after);
    PercentShare(q, size, total, before, after);
    ShareInOrder(room, p, q);
    if p >= 100.0 {
      ShareInOrder(room, 100.0, p);
    }
  }

  function Share(room: nat, p: real): int {
    (room as real * (p / 100.0)).Floor
  }

  lemma ShareInOrder(room: nat, p: real, q: real)
    requires p <= q
    ensures Share(room, p) <= Share(room, q) && Share(room, 0.0) == 0 && Share(room, 100.0) == room
  {
    Scales(room, p, q);
    FloorsInOrder(room as real * (p / 100.0), room as real * (q / 100.0));
  }

  lemma PercentShare(p: real, size: nat, total: int, before: nat, after: nat)
    requires before + size + after <= total && before + after < total
    ensures var room := total - before - after - size;
            AtPercent(p, size, total, before, after) == Max(before, Min(before + Share(room, p), before + room))
  {
    assert Max(0, Available(total, before, after) - size) == total - before - after - size;
  }

  // ---- what the options mean ------------------------------------------------------------

  /** An overlay that fits goes where its anchor says: along the edge named first
      and towards the side named last, or as near the middle as whole cells allow. */
  lemma AnchorsHold(o: Options, height: nat, columns: nat, rows: nat)
    requires o.row.None? && o.col.None? && o.offsetX.None? && o.offsetY.None?
    requires var m := EdgesOf(o);
             && m.left + m.right < columns && m.top + m.bottom < rows
             && m.top + Shown(o, height, rows) + m.bottom <= rows
    ensures var m, l := EdgesOf(o), Resolve(o, height, columns, rows);
            var above, below := l.row - m.top, rows - m.bottom - (l.row + Shown(o, height, rows));
            var left, right := l.col - m.left, columns - m.right - (l.col + l.width);
            match if o.anchor.Some? then o.anchor.value else Center
            case TopLeft => above == 0 && left == 0
            case TopCenter => above == 0 && 0 <= right - left <= 1
            case TopRight => above == 0 && right == 0
            case LeftCenter => 0 <= below - above <= 1 && left == 0
            case Center => 0 <= below - above <= 1 && 0 <= right - left <= 1
            case RightCenter => 0 <= below - above <= 1 && right == 0
            case BottomLeft => below == 0 && left == 0
            case BottomCenter => below == 0 && 0 <= right - left <= 1
            case BottomRight => below == 0 && right == 0
  {
  }

  /** Requested rows and columns, moved by their offsets, are granted when they
      keep the margins; so anchors, rows and columns are along the right axes. */
  lemma RequestsGranted(o: Options, height: nat, columns: nat, rows: nat, row: int, col: int)
    requires o.row == Some(Cells(row)) && o.col == Some(Cells(col))
    ensures var m, l := EdgesOf(o), Resolve(o, height, columns, rows);
            var y := row + if o.offsetY.Some? then o.offsetY.value else 0;
            var x := col + if o.offsetX.Some? then o.offsetX.value else 0;
            && (m.top <= y && y + Shown(o, height, rows) <= rows - m.bottom ==> l.row == y)
            && (m.left <= x && x + l.width <= columns - m.right ==> l.col == x)
  {
  }

  /** What lies between two bounds is left alone. */
  predicate Within(size: int, asked: int, least: int, most: int) {
    size == if asked < least then least else if asked > most then most else asked
  }

  /** `n` cells, or a percentage of which that is the whole part. */
  predicate AsksFor(value: Option<SizeValue>, reference: nat, n: int) {
    match value
    case Some(Cells(k)) => n == k
    case Some(Percent(p)) => n as real <= reference as real * p / 100.0 < n as real + 1.0
    case _ => false
  }

  lemma SizeAsked(value: Option<SizeValue>, reference: nat)
    ensures var size := Size(value, reference);
            if value.None? || value.value.Unparsed? then size.None?
            else size.Some? && AsksFor(value, reference, size.value)
  {
    if value.Some? && value.value.Percent? {
      var x := reference as real * value.value.p / 100.0;
      assert x.Floor as real <= x < x.Floor as real + 1.0;
    }
  }

  /** The width asked for, or 80 if none can be read, is kept within a cell and
      what the margins leave; a least width raises it, if that fits. */
  lemma WidthGranted(o: Options, height: nat, columns: nat, rows: nat)
    ensures var m, width := EdgesOf(o), Resolve(o, height, columns, rows).width;
            var across := if m.left + m.right < columns then columns - m.left - m.right else 1;
            && (o.minWidth.None? && (o.width.None? || o.width.value.Unparsed?) ==> Within(width, 80, 1, across))
            && (o.minWidth.None? && o.width.Some? && !o.width.value.Unparsed? ==>
                  exists n: int :: AsksFor(o.width, columns, n) && Within(width, n, 1, across))
            && (o.minWidth.Some? ==>
                  var free := Resolve(o.(minWidth := None), height, columns, rows).width;
                  width == if o.minWidth.value <= free then free
                      else if o.minWidth.value <= across then o.minWidth.value else across)
  {
    hide AsksFor, Size, Position;
    SizeAsked(o.width, columns);
    assert EdgesOf(o.(minWidth := None)) == EdgesOf(o);
  }

  /** So is a height limit that can be read; else there is none. */
  lemma HeightGranted(o: Options, height: nat, columns: nat, rows: nat)
    ensures var m, limit := EdgesOf(o), Resolve(o, height, columns, rows).maxHeight;
            var down := if m.top + m.bottom < rows then rows - m.top - m.bottom else 1;
            if o.maxHeight.None? || o.maxHeight.value.Unparsed? then limit.None?
            else limit.Some? && exists n: int :: AsksFor(o.maxHeight, rows, n) && Within(limit.value, n, 1, down)
  {
    hide AsksFor, Size, Position, Width;
    SizeAsked(o.maxHeight, rows);
  }

  /** A margin counts on its own side. */
  lemma MarginsAreTheirSides(o: Options)
    ensures var m := EdgesOf(o);
            match o.margin
            case None => m == Edges(0, 0, 0, 0)
            case Some(Uniform(n)) => m.top == m.right == m.bottom == m.left == if n > 0 then n else 0
            case Some(Sides(t, r, b, l)) =>
              && m.top == (if t.Some? && t.value > 0 then t.value else 0)
              && m.right == (if r.Some? && r.value > 0 then r.value else 0)
              && m.bottom == (if b.Some? && b.value > 0 then b.value else 0)
              && m.left == if l.Some? && l.value > 0 then l.value else 0
  {
  }
}
