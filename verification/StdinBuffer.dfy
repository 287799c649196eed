/** The buffer as the class it is.  `emitted` is what the listeners were sent. */
module Stdin {
  import opened Strings
  import opened Sequences
  import opened InputModel
  import opened Chunking

  /** Cuts a buffer into sequences, with the two loops of
      `extractCompleteSequences`. */
  method ExtractCompleteSequences(buffer: string) returns (parse: Parse)
    ensures parse == Extract(buffer)
  {
    hide Extract, SequenceStatus;
    var sequences := [];
    var pos := 0;
    assert buffer[0..] == buffer && [] + Extract(buffer).sequences == Extract(buffer).sequences;
    while pos < |buffer|
      invariant 0 <= pos <= |buffer|
      invariant var rest := Extract(buffer[pos..]); Extract(buffer) == Parse(sequences + rest.sequences, rest.remainder)
    {
      var remaining := buffer[pos..];
      var seqEnd := 1;
      if remaining[0] == ESC {
        seqEnd := FindEnd(remaining);
        if seqEnd > |remaining| {
          ExtractStep(remaining);
          assert sequences + [] == sequences;
          return Parse(sequences, remaining);
        }
      }
      ExtractOne(buffer, pos, seqEnd, sequences);
      sequences := sequences + [remaining[..seqEnd]];
      pos := pos + seqEnd;
    }
    ExtractStep(buffer[pos..]);
    assert sequences + [] == sequences;
    return Parse(sequences, "");
  }

  /** The end of the sequence `remaining` starts with, or past its end. */
  method FindEnd(remaining: string) returns (seqEnd: nat)
    requires remaining != "" && remaining[0] == ESC
    ensures seqEnd == PieceEnd(remaining)
  {
    hide SequenceStatus;
    seqEnd := 1;
    while seqEnd <= |remaining|
      invariant 1 <= seqEnd <= |remaining| + 1
      invariant SequenceEnd(remaining, 1) == SequenceEnd(remaining, seqEnd)
    {
      var status := SequenceStatus(remaining[..seqEnd]);
      if status == Incomplete {
        seqEnd := seqEnd + 1;
      } else {
        return;
      }
    }
  }

  lemma ExtractOne(buffer: string, pos: nat, n: nat, sequences: seq<string>)
    requires pos < |buffer| && n == PieceEnd(buffer[pos..]) && pos + n <= |buffer|
    ensures var now, next := Extract(buffer[pos..]), Extract(buffer[pos + n..]);
            && now.remainder == next.remainder
            && sequences + now.sequences == (sequences + [buffer[pos..][..n]]) + next.sequences
  {
    hide Extract, PieceEnd;
    var remaining := buffer[pos..];
    ExtractStep(remaining);
    assert remaining[n..] == buffer[pos + n..];
    var next := Extract(buffer[pos + n..]);
    assert sequences + ([remaining[..n]] + next.sequences) == (sequences + [remaining[..n]]) + next.sequences;
  }

  class StdinBuffer {
    var buffer: string
    var timeout: bool
    var pasteMode: bool
    var pasteBuffer: string
    var emitted: seq<Item>

    constructor ()
      ensures Fields() == IDLE && Valid(Fields()) && emitted == []
    {
      buffer, timeout, pasteMode, pasteBuffer, emitted := "", false, false, "", [];
      new;
      IdleIsValid();
    }

    function Fields(): State
      reads this
    {
      State(buffer, pasteMode, pasteBuffer, timeout)
    }

    method Emit(item: Item)
      modifies this`emitted
      ensures emitted == old(emitted) + [item]
    {
      emitted := emitted + [item];
    }

    method EmitAll(sequences: seq<string>)
      modifies this`emitted
      ensures emitted == old(emitted) + DataItems(sequences)
    {
      for i := 0 to |sequences|
        invariant emitted == old(emitted) + DataItems(sequences)[..i]
      {
        Emit(Data(sequences[i]));
      }
    }

    /** Events come out in the order of `InputModel.Process`, which says what
        is lost; nothing lost is emitted. */
    method Process(str: string)
      requires Valid(Fields())
      modifies this
      ensures Valid(Fields())
      ensures var r := InputModel.Process(old(Fields()), str);
              Fields() == r.state && emitted == old(emitted) + Emitted(r.items)
      decreases |buffer| + |pasteBuffer| + |str|, 1
    {
      ghost var before := Fields();
      NothingYetEmitted();
      assert !pasteMode ==> pasteBuffer == "";
      hide Extract, IndexOf, InPaste, BeforePaste, DataItems, Emitted, Valid, Bytes, Pending, LostOnlyBeforePaste,
          InputModel.Process;
      ProcessConserves(before, str);
      timeout := false;
      if |str| == 0 && |buffer| == 0 {
        EmptyChunk(before);
        Emit(Data(""));
        EmittedOne(Data(""));
        return;
      }
      buffer := buffer + str;
      if pasteMode {
        PasteChunk(before, str);
        pasteBuffer := pasteBuffer + buffer;
        buffer := "";
        FinishPaste();
        return;
      }
      var startIndex := IndexOf(buffer, PASTE_START);
      if startIndex != -1 {
        ProcessWithPaste(before, str);
        BeginPaste(startIndex);
        return;
      }
      FeedPlain(before, str);
      var result := ExtractCompleteSequences(buffer);
      buffer := result.remainder;
      EmitAll(result.sequences);
      EmittedData(result.sequences);
      if |buffer| > 0 {
        timeout := true;
      }
    }

    /** Emits what is complete before the marker, and starts the paste. */
    method BeginPaste(startIndex: nat)
      requires !pasteMode && !timeout && startIndex + |PASTE_START| <= |buffer|
      modifies this
      ensures var before := Extract(old(buffer)[..startIndex]);
              var after := InPaste(old(buffer)[startIndex + |PASTE_START|..]);
              && Fields() == after.state
              && emitted == old(emitted) + Emitted(BeforePaste(before) + after.items)
      decreases |buffer| + |pasteBuffer|, 0
    {
      NothingYetEmitted();
      hide Extract, IndexOf, InPaste, BeforePaste, DataItems, Emitted;
      ghost var before := Extract(buffer[..startIndex]);
      ghost var after := InPaste(buffer[startIndex + |PASTE_START|..]);
      if startIndex > 0 {
        var result := ExtractCompleteSequences(buffer[..startIndex]);
        EmitAll(result.sequences);
      }
      assert emitted == old(emitted) + DataItems(before.sequences);
      buffer := buffer[startIndex + |PASTE_START|..];
      pasteMode := true;
      pasteBuffer := buffer;
      buffer := "";
      FinishPaste();
      EmittedBefore(before);
      EmittedAppend(BeforePaste(before), after.items);
      assert (old(emitted) + DataItems(before.sequences)) + Emitted(after.items)
          == old(emitted) + (DataItems(before.sequences) + Emitted(after.items));
    }

    /** Emits the paste once its end marker is there, and reads on after it. */
    method FinishPaste()
      requires pasteMode && buffer == "" && !timeout
      modifies this
      ensures var r := InPaste(old(pasteBuffer));
              Fields() == r.state && emitted == old(emitted) + Emitted(r.items)
      decreases |pasteBuffer|, 0
    {
      NothingYetEmitted();
      hide Extract, IndexOf, InputModel.Process, Emitted;
      var endIndex := IndexOf(pasteBuffer, PASTE_END);
      if endIndex != -1 {
        var pastedContent := pasteBuffer[..endIndex];
        var remaining := pasteBuffer[endIndex + |PASTE_END|..];
        pasteMode := false;
        pasteBuffer := "";
        Emit(Paste(pastedContent));
        EmittedOne(Paste(pastedContent));
        ghost var after := if remaining != "" then InputModel.Process(IDLE, remaining) else Result(IDLE, []);
        EmittedAppend([Paste(pastedContent)], after.items);
        if |remaining| > 0 {
          IdleIsValid();
          Process(remaining);
        }
      }
    }

    method Flush() returns (sequences: seq<string>)
      requires Valid(Fields())
      modifies this
      ensures Valid(Fields()) && emitted == old(emitted)
      ensures Fields() == InputModel.Flush(old(Fields()), false).state
      ensures sequences == if old(buffer) == "" then [] else [old(buffer)]
      ensures InputModel.Flush(old(Fields()), false).items == if sequences == [] then [] else [Flushed(sequences[0])]
    {
      NothingPending();
      timeout := false;
      if |buffer| == 0 {
        return [];
      }
      sequences := [buffer];
      buffer := "";
    }

    /** The timer's callback. */
    method TimerFires()
      requires Valid(Fields())
      modifies this
      ensures Valid(Fields())
      ensures var r := InputModel.Flush(old(Fields()), true);
              Fields() == r.state && emitted == old(emitted) + r.items
    {
      var flushed := Flush();
      EmitAll(flushed);
    }
  }

  lemma EmptyChunk(st: State)
    requires st.buffer == ""
    ensures InputModel.Process(st, "") == Result(st.(armed := false), [Data("")])
  {
  }

  lemma PasteChunk(st: State, str: string)
    requires st.pasteMode && (str != "" || st.buffer != "")
    ensures InputModel.Process(st, str) == InPaste(st.pasteBuffer + (st.buffer + str))
  {
  }

  lemma NothingYetEmitted()
    ensures Emitted([]) == [] && Extract("") == Parse([], "") && DataItems([]) == []
  {
  }

  lemma EmittedOne(item: Item)
    ensures Emitted([item]) == if item.Data? || item.Paste? then [item] else []
  {
    assert [item][1..] == [];
  }
}
