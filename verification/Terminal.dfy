/** A character terminal as the renderer sees it: rows that scrolled away, then
    the rows on screen, and a cursor.  Relative vertical moves stop at the edges
    of the screen (CUU and CUD, sections 8.3.22 and 8.3.19 of ECMA-48), a line
    feed on the last row scrolls, and erasing blanks a row, the screen or the
    scrollback (EL and ED, sections 8.3.41 and 8.3.39 of ECMA-48). */
module Terminal {

  datatype Cell = Blank | Glyph(text: string)

  type Row = seq<Cell>

  function BlankRow(width: nat): Row {
    seq(width, _ => Blank)
  }

  /** What the renderer can write.  The counts are those of the control
      sequence; `Column` is one-based, as CHA is; `NewLine` is a carriage
      return and a line feed. */
  datatype Op =
    | Up(n: nat)
    | Down(n: nat)
    | Column(n: nat)
    | Return
    | NewLine
    | EraseLine
    | EraseScreen
    | EraseScrollback
    | Home
    | Print(cells: seq<Cell>)
    | BeginSync
    | EndSync
    | ShowCursor
    | HideCursor

  /** `rows` is the scrollback followed by the `height` rows on screen; `at` is
      the cursor's index in `rows`; `col == width` is a cursor waiting to wrap.
      `clamped` and `wrapped` record that a vertical move was cut short by an
      edge, or that text ran past the last column; nothing clears them.
      `visible` is whether the cursor shows. */
  datatype Term = Term(
    width: nat, height: nat, rows: seq<Row>, at: nat, col: nat,
    clamped: bool, wrapped: bool, visible: bool)
  {
    function Top(): int {
      |rows| - height
    }

    predicate Valid() {
      && 1 <= width && 1 <= height <= |rows|
      && Top() <= at < |rows|
      && col <= width
    }

    function Scrollback(): seq<Row>
      requires Valid()
    {
      rows[..Top()]
    }

    function Screen(): seq<Row>
      requires Valid()
    {
      rows[Top()..]
    }
  }

  function NextLine(t: Term): (r: Term)
    requires t.Valid()
    ensures r.Valid() && r.width == t.width && r.height == t.height
  {
    if t.at + 1 < |t.rows| then t.(at := t.at + 1)
    else t.(rows := t.rows + [BlankRow(t.width)], at := t.at + 1)
  }

  /** A cell never written is blank. */
  function SetCell(row: Row, col: nat, c: Cell): Row {
    if col < |row| then row[col := c] else row + BlankRow(col - |row|) + [c]
  }

  function PutCell(t: Term, c: Cell): (r: Term)
    requires t.Valid()
    ensures r.Valid() && r.width == t.width && r.height == t.height
  {
    var u := if t.col == t.width then NextLine(t).(col := 0, wrapped := true) else t;
    u.(rows := u.rows[u.at := SetCell(u.rows[u.at], u.col, c)], col := u.col + 1)
  }

  function PutCells(t: Term, cells: seq<Cell>): (r: Term)
    requires t.Valid()
    ensures r.Valid() && r.width == t.width && r.height == t.height
    decreases |cells|
  {
    if cells == [] then t else PutCells(PutCell(t, cells[0]), cells[1..])
  }

  /** A parameter of zero means one, as the standard has it. */
  function MoveUp(t: Term, n: nat): (r: Term)
    requires t.Valid()
    ensures r.Valid() && r.width == t.width && r.height == t.height
  {
    var k := if n == 0 then 1 else n;
    if t.at - k < t.Top() then t.(at := t.Top(), clamped := true) else t.(at := t.at - k)
  }

  function MoveDown(t: Term, n: nat): (r: Term)
    requires t.Valid()
    ensures r.Valid() && r.width == t.width && r.height == t.height
  {
    var k := if n == 0 then 1 else n;
    if t.at + k >= |t.rows| then t.(at := |t.rows| - 1, clamped := true) else t.(at := t.at + k)
  }

  function Step(t: Term, op: Op): (r: Term)
    requires t.Valid()
    ensures r.Valid() && r.width == t.width && r.height == t.height
  {
    match op
    case Up(n) => MoveUp(t, n)
    case Down(n) => MoveDown(t, n)
    case Column(n) => t.(col := if n <= 1 then 0 else if n <= t.width then n - 1 else t.width - 1)
    case Return => t.(col := 0)
    case NewLine => NextLine(t.(col := 0))
    case EraseLine => t.(rows := t.rows[t.at := BlankRow(t.width)])
    case EraseScreen => t.(rows := t.rows[..t.Top()] + seq(t.height, _ => BlankRow(t.width)))
    case EraseScrollback => t.(rows := t.rows[t.Top()..], at := t.at - t.Top())
    case Home => t.(at := t.Top(), col := 0)
    case Print(cells) => PutCells(t, cells)
    case BeginSync => t
    case EndSync => t
    case ShowCursor => t.(visible := true)
    case HideCursor => t.(visible := false)
  }

  function Run(t: Term, ops: seq<Op>): (r: Term)
    requires t.Valid()
    ensures r.Valid() && r.width == t.width && r.height == t.height
    decreases |ops|
  {
    if ops == [] then t else Run(Step(t, ops[0]), ops[1..])
  }

  lemma {:induction false} RunConcat(t: Term, a: seq<Op>, b: seq<Op>)
    requires t.Valid()
    ensures Run(t, a + b) == Run(Run(t, a), b)
    decreases |a|
  {
    if a == [] {
      assert a + b == b;
    } else {
      assert (a + b)[0] == a[0] && (a + b)[1..] == a[1..] + b;
      RunConcat(Step(t, a[0]), a[1..], b);
    }
  }

  lemma RunNone(t: Term)
    requires t.Valid()
    ensures Run(t, []) == t
  {
  }

  lemma RunOne(t: Term, op: Op)
    requires t.Valid()
    ensures Run(t, [op]) == Step(t, op)
  {
    assert [op][1..] == [];
    assert Run(Step(t, op), []) == Step(t, op);
  }

  lemma RunSnoc(t: Term, ops: seq<Op>, op: Op)
    requires t.Valid()
    ensures Run(t, ops + [op]) == Step(Run(t, ops), op)
  {
    hide Run, Step;
    RunConcat(t, ops, [op]);
    RunOne(Run(t, ops), op);
  }

  lemma RunTwo(t: Term, a: Op, b: Op)
    requires t.Valid()
    ensures Run(t, [a, b]) == Step(Step(t, a), b)
  {
    assert [a, b] == [a] + [b];
    RunConcat(t, [a], [b]);
    RunOne(t, a);
    RunOne(Step(t, a), b);
  }

  /** Text that fits in the rest of the row replaces exactly its own columns,
      and does not wrap. */
  lemma {:induction false} PutCellsFits(t: Term, cells: seq<Cell>)
    requires t.Valid() && t.col + |cells| <= t.width == |t.rows[t.at]|
    ensures var row := t.rows[t.at];
            PutCells(t, cells) ==
            t.(rows := t.rows[t.at := row[..t.col] + cells + row[t.col + |cells|..]], col := t.col + |cells|)
    decreases |cells|
  {
    hide PutCell;
    var row := t.rows[t.at];
    if cells == [] {
      Spliced(row, t.col, cells);
      assert t.rows[t.at := row] == t.rows;
    } else {
      PutCellFits(t, cells[0]);
      PutCellsFits(PutCell(t, cells[0]), cells[1..]);
      Spliced(row, t.col, cells);
    }
  }

  lemma PutCellFits(t: Term, c: Cell)
    requires t.Valid() && t.col < t.width == |t.rows[t.at]|
    ensures PutCell(t, c) == t.(rows := t.rows[t.at := t.rows[t.at][t.col := c]], col := t.col + 1)
  {
  }

  /** Cells put one after the other are spliced in together. */
  lemma Spliced(row: Row, col: nat, cells: seq<Cell>)
    requires col + |cells| <= |row|
    ensures cells == [] ==> row[..col] + cells + row[col..] == row
    ensures cells != [] ==>
              var next := row[col := cells[0]];
              next[..col + 1] + cells[1..] + next[col + |cells|..] == row[..col] + cells + row[col + |cells|..]
  {
  }

  /** Rows that have scrolled away are out of reach of everything but the
      erasure of the scrollback. */
  lemma {:induction false} ScrollbackIsOutOfReach(t: Term, ops: seq<Op>)
    requires t.Valid() && EraseScrollback !in ops
    ensures var r := Run(t, ops); t.Top() <= r.Top() && r.rows[..t.Top()] == t.rows[..t.Top()]
    decreases |ops|
  {
    if ops != [] {
      var u := Step(t, ops[0]);
      StepKeepsScrollback(t, ops[0]);
      ScrollbackIsOutOfReach(u, ops[1..]);
      assert u.rows[..t.Top()] == u.rows[..u.Top()][..t.Top()];
    }
  }

  lemma StepKeepsScrollback(t: Term, op: Op)
    requires t.Valid() && op != EraseScrollback
    ensures var r := Step(t, op); t.Top() <= r.Top() && r.rows[..t.Top()] == t.rows[..t.Top()]
  {
    if op.Print? {
      PutCellsKeepsScrollback(t, op.cells);
    }
  }

  lemma {:induction false} PutCellsKeepsScrollback(t: Term, cells: seq<Cell>)
    requires t.Valid()
    ensures var r := PutCells(t, cells); t.Top() <= r.Top() && r.rows[..t.Top()] == t.rows[..t.Top()]
    decreases |cells|
  {
    hide PutCell;
    if cells != [] {
      var u := PutCell(t, cells[0]);
      PutCellKeepsScrollback(t, cells[0]);
      PutCellsKeepsScrollback(u, cells[1..]);
      PrefixKept(t.rows, u.rows, PutCells(t, cells).rows, t.Top(), u.Top());
    }
  }

  lemma PutCellKeepsScrollback(t: Term, c: Cell)
    requires t.Valid()
    ensures var r := PutCell(t, c); t.Top() <= r.Top() && r.rows[..t.Top()] == t.rows[..t.Top()]
  {
    hide SetCell;
  }

  lemma PrefixKept<T>(a: seq<T>, b: seq<T>, c: seq<T>, m: nat, n: nat)
    requires m <= n <= |b| && n <= |c| && m <= |a| && a[..m] == b[..m] && b[..n] == c[..n]
    ensures c[..m] == a[..m]
  {
    assert b[..m] == b[..n][..m] == c[..m];
  }
}
