/** The input buffer of packages/pi-tui/src/stdin-buffer.ts: chunks in, events
    out, with bracketed paste and a timer that flushes an unfinished sequence. */
module InputModel {
  import opened Strings
  import opened Sequences

  const PASTE_START := "\U{1b}[200~"
  const PASTE_END := "\U{1b}[201~"

  /** `armed` is whether a timer is pending. */
  datatype State = State(buffer: string, pasteMode: bool, pasteBuffer: string, armed: bool)

  const IDLE := State("", false, "", false)

  /** What becomes of input: data and paste events; bytes `flush` hands to its
      caller; and bytes that are dropped, of which no event tells. */
  datatype Item = Data(text: string) | Paste(text: string) | Flushed(text: string) | Lost(text: string)

  function DataItems(sequences: seq<string>): (r: seq<Item>)
    ensures |r| == |sequences|
    ensures forall i :: 0 <= i < |r| ==> r[i] == Data(sequences[i])
  {
    seq(|sequences|, i requires 0 <= i < |sequences| => Data(sequences[i]))
  }

  datatype Result = Result(state: State, items: seq<Item>)

  function Process(st: State, str: string): Result
    decreases |st.buffer| + |st.pasteBuffer| + |str|, 1
  {
    if str == "" && st.buffer == "" then Result(st.(armed := false), [Data("")])
    else
      var buffer := st.buffer + str;
      if st.pasteMode then InPaste(st.pasteBuffer + buffer)
      else
        var start := IndexOf(buffer, PASTE_START);
        if start != -1 then
          var before := Extract(buffer[..start]);
          var after := InPaste(buffer[start + |PASTE_START|..]);
          Result(after.state, BeforePaste(before) + after.items)
        else
          var parse := Extract(buffer);
          Result(State(parse.remainder, false, "", parse.remainder != ""), DataItems(parse.sequences))
  }

  /** Only the complete sequences before a paste are emitted. */
  function BeforePaste(before: Parse): seq<Item> {
    DataItems(before.sequences) + (if before.remainder != "" then [Lost(before.remainder)] else [])
  }

  /** A paste runs to its first end marker; what follows is input again. */
  function InPaste(pasted: string): Result
    decreases |pasted|, 0
  {
    var end := IndexOf(pasted, PASTE_END);
    if end == -1 then Result(State("", true, pasted, false), [])
    else
      var rest := pasted[end + |PASTE_END|..];
      var after := if rest != "" then Process(IDLE, rest) else Result(IDLE, []);
      Result(after.state, [Paste(pasted[..end])] + after.items)
  }

  /** The timer's callback, or a call of `flush` whose result the caller keeps. */
  function Flush(st: State, byTimer: bool): Result {
    Result(st.(buffer := "", armed := false),
           if st.buffer == "" then [] else [if byTimer then Data(st.buffer) else Flushed(st.buffer)])
  }

  /** The events a listener sees. */
  function Emitted(items: seq<Item>): seq<Item> {
    if items == [] then []
    else (if items[0].Data? || items[0].Paste? then [items[0]] else []) + Emitted(items[1..])
  }

  lemma {:induction false} EmittedAppend(a: seq<Item>, b: seq<Item>)
    ensures Emitted(a + b) == Emitted(a) + Emitted(b)
    decreases |a|
  {
    if a == [] {
      assert a + b == b;
    } else {
      assert (a + b)[0] == a[0] && (a + b)[1..] == a[1..] + b;
      EmittedAppend(a[1..], b);
      var head := if a[0].Data? || a[0].Paste? then [a[0]] else [];
      assert head + (Emitted(a[1..]) + Emitted(b)) == (head + Emitted(a[1..])) + Emitted(b);
    }
  }

  // ---- conservation ----------------------------------------------------------------

  function ItemBytes(item: Item): string {
    if item.Paste? then PASTE_START + item.text + PASTE_END else item.text
  }

  function Bytes(items: seq<Item>): string {
    if items == [] then "" else ItemBytes(items[0]) + Bytes(items[1..])
  }

  function Pending(st: State): string {
    if st.pasteMode then PASTE_START + st.pasteBuffer else st.buffer
  }

  /** In a paste nothing is buffered and the end marker has not come; outside
      one the buffer is an unfinished sequence; the timer runs while, and only
      while, something is buffered. */
  ghost predicate Valid(st: State) {
    && (st.pasteMode ==> st.buffer == "" && IndexOf(st.pasteBuffer, PASTE_END) == -1)
    && (!st.pasteMode ==> st.pasteBuffer == "" && IndexOf(st.buffer, PASTE_START) == -1)
    && Unfinished(st.buffer)
    && (st.armed <==> st.buffer != "")
  }

  /** Bytes are lost only where an unfinished escape stands directly before a
      paste, and they are that escape. */
  ghost predicate LostOnlyBeforePaste(items: seq<Item>, after: State) {
    forall i :: 0 <= i < |items| ==> LostRightly(items, i, after)
  }

  ghost predicate LostRightly(items: seq<Item>, i: nat, after: State)
    requires i < |items|
  {
    items[i].Lost? ==>
      && items[i].text != "" && Unfinished(items[i].text)
      && (if i + 1 < |items| then items[i + 1].Paste? else after.pasteMode)
  }

  lemma {:induction false} BytesAppend(a: seq<Item>, b: seq<Item>)
    ensures Bytes(a + b) == Bytes(a) + Bytes(b)
  {
    if a == [] {
      assert a + b == b;
    } else {
      assert (a + b)[0] == a[0] && (a + b)[1..] == a[1..] + b;
      BytesAppend(a[1..], b);
    }
  }

  lemma {:induction false} BytesOfData(sequences: seq<string>)
    ensures Bytes(DataItems(sequences)) == Concat(sequences)
  {
    if sequences != [] {
      assert DataItems(sequences)[1..] == DataItems(sequences[1..]);
      BytesOfData(sequences[1..]);
    }
  }

  lemma BytesOfOne(item: Item)
    ensures Bytes([item]) == ItemBytes(item)
  {
    assert [item][1..] == [];
  }

  lemma BeforePasteConserves(text: string)
    ensures var items := BeforePaste(Extract(text));
            && Bytes(items) == text
            && forall i :: 0 <= i < |items| && items[i].Lost? ==>
                 i == |items| - 1 && items[i].text != "" && Unfinished(items[i].text)
  {
    var p := Extract(text);
    ExtractCuts(text);
    BytesOfData(p.sequences);
    if p.remainder != "" {
      BytesAppend(DataItems(p.sequences), [Lost(p.remainder)]);
      BytesOfOne(Lost(p.remainder));
    } else {
      assert DataItems(p.sequences) + [] == DataItems(p.sequences);
    }
  }

  /** Each call keeps every byte: the items and what is pending afterwards are
      what was pending before and the new input, in order. */
  lemma {:induction false} ProcessConserves(st: State, str: string)
    requires Valid(st)
    ensures var r := Process(st, str);
            && Bytes(r.items) + Pending(r.state) == Pending(st) + str
            && Valid(r.state) && LostOnlyBeforePaste(r.items, r.state)
    decreases |st.buffer| + |st.pasteBuffer| + |str|, 1
  {
    hide Extract, IndexOf, Unfinished, InPaste, BeforePaste, LostOnlyBeforePaste, Bytes;
    if str == "" && st.buffer == "" {
      EmptyChunkConserves();
    } else {
      var buffer := st.buffer + str;
      if st.pasteMode {
        assert buffer == str;
        assert PASTE_START + (st.pasteBuffer + str) == Pending(st) + str;
        InPasteConserves(st.pasteBuffer + str);
      } else {
        var start := IndexOf(buffer, PASTE_START);
        if start != -1 {
          StartConserves(buffer, start);
        } else {
          PlainConserves(buffer);
          NothingLost(Extract(buffer).sequences, Process(st, str).state);
        }
      }
    }
  }

  lemma EmptyChunkConserves()
    ensures Bytes([Data("")]) == "" && forall st :: LostOnlyBeforePaste([Data("")], st)
  {
    BytesOfOne(Data(""));
  }

  lemma NothingLost(sequences: seq<string>, st: State)
    ensures LostOnlyBeforePaste(DataItems(sequences), st)
  {
  }

  lemma IdleIsValid()
    ensures Valid(IDLE)
  {
  }

  lemma PlainConserves(buffer: string)
    requires IndexOf(buffer, PASTE_START) == -1
    ensures var p := Extract(buffer);
            var st := State(p.remainder, false, "", p.remainder != "");
            Valid(st) && Bytes(DataItems(p.sequences)) + p.remainder == buffer
  {
    var p := Extract(buffer);
    ExtractCuts(buffer);
    BytesOfData(p.sequences);
    AbsentInParts(Concat(p.sequences), p.remainder, PASTE_START);
    assert IndexOf("", PASTE_END) == -1;
  }

  lemma LostJoin(before: seq<Item>, after: seq<Item>, st: State)
    requires forall i :: 0 <= i < |before| && before[i].Lost? ==>
               i == |before| - 1 && before[i].text != "" && Unfinished(before[i].text)
    requires LostOnlyBeforePaste(after, st)
    requires before != [] && before[|before| - 1].Lost? ==> if after == [] then st.pasteMode else after[0].Paste?
    ensures LostOnlyBeforePaste(before + after, st)
  {
    var items := before + after;
    forall i | 0 <= i < |items|
      ensures LostRightly(items, i, st)
    {
      if i < |before| {
        assert items[i] == before[i];
        if after != [] {
          assert items[|before|] == after[0];
        }
      } else {
        var k := i - |before|;
        assert LostRightly(after, k, st) && items[i] == after[k];
        if k + 1 < |after| {
          assert items[i + 1] == after[k + 1];
        }
      }
    }
  }

  lemma {:induction false} StartConserves(buffer: string, start: int)
    requires start == IndexOf(buffer, PASTE_START) != -1
    ensures var after := InPaste(buffer[start + |PASTE_START|..]);
            var items := BeforePaste(Extract(buffer[..start])) + after.items;
            && Valid(after.state) && LostOnlyBeforePaste(items, after.state)
            && Bytes(items) + Pending(after.state) == buffer
    decreases |buffer|, 0
  {
    hide Extract, Unfinished, BeforePaste, InPaste, Valid, LostOnlyBeforePaste, Bytes, Pending, IndexOf;
    var pasted := buffer[start + |PASTE_START|..];
    var before := BeforePaste(Extract(buffer[..start]));
    var after := InPaste(pasted);
    InPasteConserves(pasted);
    BeforePasteConserves(buffer[..start]);
    BytesAppend(before, after.items);
    LostJoin(before, after.items, after.state);
    assert buffer[start..start + |PASTE_START|] == PASTE_START;
    JoinRuns(buffer[..start], Bytes(after.items), "", "", Pending(after.state), buffer[..start], PASTE_START + pasted);
    assert buffer == buffer[..start] + (PASTE_START + pasted);
  }

  lemma {:induction false} InPasteConserves(pasted: string)
    ensures var r := InPaste(pasted);
            && Valid(r.state) && LostOnlyBeforePaste(r.items, r.state)
            && Bytes(r.items) + Pending(r.state) == PASTE_START + pasted
            && (if r.items == [] then r.state.pasteMode else r.items[0].Paste?)
    decreases |pasted|, 0
  {
    hide Process, Bytes, Pending;
    var end := IndexOf(pasted, PASTE_END);
    if end == -1 {
      NothingYet(pasted);
    } else {
      hide Valid, LostOnlyBeforePaste, IndexOf;
      var rest := pasted[end + |PASTE_END|..];
      var after := if rest != "" then Process(IDLE, rest) else Result(IDLE, []);
      if rest != "" {
        IdleIsValid();
        ProcessConserves(IDLE, rest);
        assert Pending(IDLE) + rest == rest by { NothingPending(); }
      } else {
        NothingPending();
      }
      assert Bytes(after.items) + Pending(after.state) == rest;
      BytesOfOne(Paste(pasted[..end]));
      BytesAppend([Paste(pasted[..end])], after.items);
      LostAfterPaste(pasted[..end], after.items, after.state);
      PasteBytes(pasted, end, Bytes(after.items), Pending(after.state));
    }
  }

  lemma PasteBytes(pasted: string, end: int, bytes: string, pending: string)
    requires OccursAt(pasted, PASTE_END, end) && bytes + pending == pasted[end + |PASTE_END|..]
    ensures (ItemBytes(Paste(pasted[..end])) + bytes) + pending == PASTE_START + pasted
  {
    assert pasted == pasted[..end] + PASTE_END + (bytes + pending);
  }

  lemma NothingYet(pasted: string)
    requires IndexOf(pasted, PASTE_END) == -1
    ensures var st := State("", true, pasted, false);
            Valid(st) && LostOnlyBeforePaste([], st) && Bytes([]) + Pending(st) == PASTE_START + pasted
  {
  }

  lemma NothingPending()
    ensures Valid(IDLE) && LostOnlyBeforePaste([], IDLE) && Bytes([]) == "" && Pending(IDLE) == ""
  {
  }

  lemma LostAfterPaste(text: string, items: seq<Item>, st: State)
    requires LostOnlyBeforePaste(items, st)
    ensures LostOnlyBeforePaste([Paste(text)] + items, st)
  {
    LostJoin([Paste(text)], items, st);
  }

  // ---- whole runs -------------------------------------------------------------------

  datatype Action = Chunk(text: string) | TimerFires | FlushCalled

  function Act(st: State, a: Action): Result {
    match a
    case Chunk(text) => Process(st, text)
    case TimerFires => Flush(st, true)
    case FlushCalled => Flush(st, false)
  }

  function RunActions(st: State, actions: seq<Action>): Result
    decreases |actions|
  {
    if actions == [] then Result(st, [])
    else
      var one := Act(st, actions[0]);
      var rest := RunActions(one.state, actions[1..]);
      Result(rest.state, one.items + rest.items)
  }

  function Input(actions: seq<Action>): string {
    if actions == [] then ""
    else (if actions[0].Chunk? then actions[0].text else "") + Input(actions[1..])
  }

  lemma ActConserves(st: State, a: Action)
    requires Valid(st)
    ensures var r := Act(st, a);
            && Valid(r.state) && LostOnlyBeforePaste(r.items, r.state)
            && Bytes(r.items) + Pending(r.state) == Pending(st) + Input([a])
  {
    assert Input([a]) == (if a.Chunk? then a.text else "") by {
      assert [a][1..] == [];
    }
    match a
    case Chunk(text) => ProcessConserves(st, text);
    case _ =>
      if st.buffer != "" {
        BytesOfOne(Act(st, a).items[0]);
      }
  }

  lemma JoinRuns(b1: string, b2: string, p0: string, p1: string, p2: string, in1: string, in2: string)
    requires b1 + p1 == p0 + in1 && b2 + p2 == p1 + in2
    ensures (b1 + b2) + p2 == p0 + (in1 + in2)
  {
    assert (b1 + b2) + p2 == b1 + (b2 + p2);
    assert b1 + (p1 + in2) == (b1 + p1) + in2;
    assert (p0 + in1) + in2 == p0 + (in1 + in2);
  }

  lemma InputOne(actions: seq<Action>)
    requires actions != []
    ensures Input(actions) == Input([actions[0]]) + Input(actions[1..])
  {
    assert [actions[0]][1..] == [];
  }

  /** What is left of the items without the empty data event that an empty
      chunk gives when nothing is buffered. */
  function Solid(items: seq<Item>): seq<Item> {
    if items == [] then []
    else (if items[0] == Data("") then [] else [items[0]]) + Solid(items[1..])
  }

  ghost predicate AllSolid(items: seq<Item>) {
    forall i :: 0 <= i < |items| ==> items[i] != Data("")
  }

  lemma {:induction false} SolidStays(items: seq<Item>)
    requires AllSolid(items)
    ensures Solid(items) == items
    decreases |items|
  {
    if items != [] {
      assert forall i :: 0 <= i < |items[1..]| ==> items[1..][i] == items[i + 1];
      SolidStays(items[1..]);
    }
  }

  lemma {:induction false} SolidAppend(a: seq<Item>, b: seq<Item>)
    ensures Solid(a + b) == Solid(a) + Solid(b)
    decreases |a|
  {
    if a == [] {
      assert a + b == b;
    } else {
      assert (a + b)[0] == a[0] && (a + b)[1..] == a[1..] + b;
      SolidAppend(a[1..], b);
      var head := if a[0] == Data("") then [] else [a[0]];
      assert head + (Solid(a[1..]) + Solid(b)) == (head + Solid(a[1..])) + Solid(b);
    }
  }

  /** The paste begun is what comes next, or has not ended yet. */
  predicate PasteComes(items: seq<Item>, after: State) {
    if items == [] then after.pasteMode else items[0].Paste?
  }

  lemma SequencesAreSolid(text: string)
    ensures AllSolid(DataItems(Extract(text).sequences)) && AllSolid(BeforePaste(Extract(text)))
  {
    hide Extract;
    ExtractCuts(text);
    var p := Extract(text);
    assert forall i :: 0 <= i < |p.sequences| ==> p.sequences[i] != "";
  }

  /** Only an empty chunk, with nothing buffered, gives an empty data event. */
  lemma {:induction false} ProcessIsSolid(st: State, str: string)
    requires str != "" || st.buffer != ""
    ensures AllSolid(Process(st, str).items)
    decreases |st.buffer| + |st.pasteBuffer| + |str|, 1
  {
    hide Extract, IndexOf, InPaste, BeforePaste;
    var buffer := st.buffer + str;
    if st.pasteMode {
      PasteIsSolid(st.pasteBuffer + buffer);
    } else {
      var start := IndexOf(buffer, PASTE_START);
      if start != -1 {
        SequencesAreSolid(buffer[..start]);
        PasteIsSolid(buffer[start + |PASTE_START|..]);
      } else {
        SequencesAreSolid(buffer);
      }
    }
  }

  lemma {:induction false} PasteIsSolid(pasted: string)
    ensures AllSolid(InPaste(pasted).items)
    decreases |pasted|, 0
  {
    hide Process, IndexOf;
    var end := IndexOf(pasted, PASTE_END);
    if end != -1 && pasted[end + |PASTE_END|..] != "" {
      ProcessIsSolid(IDLE, pasted[end + |PASTE_END|..]);
    }
  }

  lemma ActLoses(st: State, a: Action)
    requires Valid(st)
    ensures var r := Act(st, a);
            && LostOnlyBeforePaste(Solid(r.items), r.state)
            && (st.pasteMode ==> PasteComes(Solid(r.items), r.state))
            && (a != Chunk("") ==> AllSolid(r.items))
  {
    hide Process, LostOnlyBeforePaste, AllSolid, Solid;
    var r := Act(st, a);
    ActConserves(st, a);
    if a == Chunk("") && st.buffer == "" {
      EmptyChunkGives(st);
    } else {
      if a.Chunk? {
        ProcessIsSolid(st, a.text);
      } else {
        FlushIsSolid(st, a == TimerFires);
      }
      SolidStays(r.items);
      if st.pasteMode {
        PasteGoesOn(st, a);
      }
    }
  }

  lemma EmptyChunkGives(st: State)
    requires Valid(st) && st.buffer == ""
    ensures Process(st, "") == Result(st, [Data("")]) && Solid([Data("")]) == [] && LostOnlyBeforePaste([], st)
  {
    assert [Data("")][1..] == [];
  }

  lemma FlushIsSolid(st: State, byTimer: bool)
    ensures AllSolid(Flush(st, byTimer).items)
  {
  }

  lemma PasteGoesOn(st: State, a: Action)
    requires Valid(st) && st.pasteMode && a != Chunk("")
    ensures PasteComes(Act(st, a).items, Act(st, a).state)
  {
    hide InPaste;
    if a.Chunk? {
      assert st.buffer + a.text == a.text;
      InPasteConserves(st.pasteBuffer + a.text);
    }
  }

  lemma LostAcross(a: seq<Item>, mid: State, b: seq<Item>, after: State)
    requires LostOnlyBeforePaste(a, mid) && LostOnlyBeforePaste(b, after) && (mid.pasteMode ==> PasteComes(b, after))
    ensures LostOnlyBeforePaste(a + b, after)
  {
    forall i | 0 <= i < |a + b|
      ensures LostRightly(a + b, i, after)
    {
      if i < |a| {
        assert LostRightly(a, i, mid) && (a + b)[i] == a[i];
        if i + 1 < |a| {
          assert (a + b)[i + 1] == a[i + 1];
        } else if b != [] {
          assert (a + b)[i + 1] == b[0];
        }
      } else {
        assert LostRightly(b, i - |a|, after) && (a + b)[i] == b[i - |a|];
        if i + 1 < |a + b| {
          assert (a + b)[i + 1] == b[i - |a| + 1];
        }
      }
    }
  }

  lemma {:induction false} RunLoses(st: State, actions: seq<Action>)
    requires Valid(st)
    ensures var r := RunActions(st, actions);
            && LostOnlyBeforePaste(Solid(r.items), r.state)
            && (st.pasteMode ==> PasteComes(Solid(r.items), r.state))
            && (Chunk("") !in actions ==> AllSolid(r.items))
    decreases |actions|
  {
    hide Valid, Act, LostOnlyBeforePaste, Solid;
    if actions == [] {
      assert Solid([]) == [] by { SolidStays([]); }
      NothingLostYet(st);
    } else {
      var one := Act(st, actions[0]);
      var rest := RunActions(one.state, actions[1..]);
      ActConserves(st, actions[0]);
      ActLoses(st, actions[0]);
      RunLoses(one.state, actions[1..]);
      SolidAppend(one.items, rest.items);
      LostAcross(Solid(one.items), one.state, Solid(rest.items), rest.state);
      assert Solid(one.items) == [] ==> Solid(one.items) + Solid(rest.items) == Solid(rest.items);
    }
  }

  lemma NothingLostYet(st: State)
    ensures LostOnlyBeforePaste([], st)
  {
  }

  /** Over any run of chunks, timer flushes and calls of `flush`, the items and
      the pending bytes are the input, in order, and the state stays valid.
      Bytes are lost only where an unfinished escape stands directly before a
      paste: the next item is that paste, or the run ends within it.  An empty
      chunk may put an empty data event, and nothing else, in between. */
  lemma {:induction false} RunConserves(st: State, actions: seq<Action>)
    requires Valid(st)
    ensures var r := RunActions(st, actions);
            && Valid(r.state) && Bytes(r.items) + Pending(r.state) == Pending(st) + Input(actions)
            && LostOnlyBeforePaste(Solid(r.items), r.state)
            && (Chunk("") !in actions ==> Solid(r.items) == r.items)
    decreases |actions|
  {
    hide Valid, Act, Pending, Bytes, Solid, LostOnlyBeforePaste;
    RunLoses(st, actions);
    if Chunk("") !in actions {
      SolidStays(RunActions(st, actions).items);
    }
    if actions == [] {
      NothingPending();
    } else {
      var one := Act(st, actions[0]);
      var rest := RunActions(one.state, actions[1..]);
      ActConserves(st, actions[0]);
      RunConserves(one.state, actions[1..]);
      BytesAppend(one.items, rest.items);
      InputOne(actions);
      JoinRuns(Bytes(one.items), Bytes(rest.items), Pending(st), Pending(one.state), Pending(rest.state),
               Input([actions[0]]), Input(actions[1..]));
    }
  }
}
