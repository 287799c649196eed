/** How input is split into chunks does not matter, exactly when no sequence
    can be completed by the first characters of a paste marker; and tokens
    printed to the input come back, however it is split. */
module Chunking {
  import opened Strings
  import opened Sequences
  import opened InputModel

  function Feed(st: State, text: string): Result {
    if text == "" then Result(st, []) else Process(st, text)
  }

  function RunChunks(st: State, chunks: seq<string>): Result
    decreases |chunks|
  {
    if chunks == [] then Result(st, [])
    else
      var one := Process(st, chunks[0]);
      var rest := RunChunks(one.state, chunks[1..]);
      Result(rest.state, one.items + rest.items)
  }

  predicate NonEmpty(chunks: seq<string>) {
    forall i :: 0 <= i < |chunks| ==> chunks[i] != ""
  }

  /** At each paste, what is left over before it stays incomplete when the first
      five characters of the marker are appended. */
  predicate Steady(text: string)
    decreases |text|, 1
  {
    var start := IndexOf(text, PASTE_START);
    start == -1 ||
    (Unfinished(Extract(text[..start]).remainder + PASTE_START[..5]) && SteadyAfter(text[start + |PASTE_START|..]))
  }

  predicate SteadyAfter(pasted: string)
    decreases |pasted|, 0
  {
    var end := IndexOf(pasted, PASTE_END);
    end == -1 || Steady(pasted[end + |PASTE_END|..])
  }

  lemma SlicesOfSum(a: string, b: string, k: nat)
    requires k <= |a|
    ensures (a + b)[..k] == a[..k] && (a + b)[k..] == a[k..] + b
  {
  }

  lemma {:induction false} SteadyPrefix(a: string, b: string)
    requires Steady(a + b)
    ensures Steady(a)
    decreases |a|
  {
    hide Extract, Unfinished, IndexOf;
    var start := IndexOf(a, PASTE_START);
    if start != -1 {
      IndexOfPrefix(a, b, PASTE_START);
      SlicesOfSum(a, b, start);
      SlicesOfSum(a, b, start + |PASTE_START|);
      var pasted := a[start + |PASTE_START|..];
      assert SteadyAfter(pasted + b);
      var end := IndexOf(pasted, PASTE_END);
      if end != -1 {
        IndexOfPrefix(pasted, b, PASTE_END);
        SlicesOfSum(pasted, b, end + |PASTE_END|);
        SteadyPrefix(pasted[end + |PASTE_END|..], b);
      }
    }
  }

  lemma FeedWithPaste(text: string)
    requires IndexOf(text, PASTE_START) != -1
    ensures var start := IndexOf(text, PASTE_START);
            var after := InPaste(text[start + |PASTE_START|..]);
            Feed(IDLE, text) == Result(after.state, BeforePaste(Extract(text[..start])) + after.items)
  {
    assert IDLE.buffer + text == text;
  }

  lemma FeedPlain(st: State, text: string)
    requires !st.pasteMode && st.buffer + text != "" && IndexOf(st.buffer + text, PASTE_START) == -1
    ensures var p := Extract(st.buffer + text);
            Process(st, text) == Result(State(p.remainder, false, "", p.remainder != ""), DataItems(p.sequences))
  {
  }

  /** One split, in the text of a paste or after it. */
  lemma {:induction false} SplitInPaste(p: string, b: string)
    requires b != "" && SteadyAfter(p + b)
    ensures var one := InPaste(p);
            var two := Process(one.state, b);
            InPaste(p + b) == Result(two.state, one.items + two.items)
    decreases |p|, 0
  {
    hide Extract, Unfinished, IndexOf;
    var end := IndexOf(p, PASTE_END);
    if end == -1 {
      assert "" + b == b;
    } else {
      IndexOfPrefix(p, b, PASTE_END);
      SlicesOfSum(p, b, end + |PASTE_END|);
      SlicesOfSum(p, b, end);
      var rest := p[end + |PASTE_END|..];
      SplitFeed(rest, b);
      var one, two := Feed(IDLE, rest), Process(Feed(IDLE, rest).state, b);
      assert [Paste(p[..end])] + (one.items + two.items) == ([Paste(p[..end])] + one.items) + two.items;
    }
  }

  /** One split anywhere: the two halves give what the whole gives. */
  lemma {:induction false} SplitFeed(a: string, b: string)
    requires b != "" && Steady(a + b)
    ensures var one := Feed(IDLE, a);
            var two := Process(one.state, b);
            Feed(IDLE, a + b) == Result(two.state, one.items + two.items)
    decreases |a|, 1
  {
    hide Extract, Unfinished, IndexOf, Process, InPaste, Steady, SteadyAfter;
    if a == "" {
      assert a + b == b;
      assert [] + Process(IDLE, b).items == Process(IDLE, b).items;
    } else if IndexOf(a, PASTE_START) != -1 {
      SplitWithPaste(a, b);
    } else if IndexOf(a + b, PASTE_START) == -1 {
      SplitPlain(a, b);
    } else {
      SplitBeforePaste(a, b);
    }
  }

  lemma {:induction false} SplitWithPaste(a: string, b: string)
    requires b != "" && Steady(a + b) && IndexOf(a, PASTE_START) != -1
    ensures var one := Feed(IDLE, a);
            var two := Process(one.state, b);
            Feed(IDLE, a + b) == Result(two.state, one.items + two.items)
    decreases |a|, 0
  {
    hide Extract, Unfinished, IndexOf, Process, InPaste, SteadyAfter, Feed, BeforePaste;
    var start := IndexOf(a, PASTE_START);
    IndexOfPrefix(a, b, PASTE_START);
    SlicesOfSum(a, b, start);
    SlicesOfSum(a, b, start + |PASTE_START|);
    var pasted := a[start + |PASTE_START|..];
    FeedWithPaste(a);
    FeedWithPaste(a + b);
    SplitInPaste(pasted, b);
    var one, two := InPaste(pasted), Process(InPaste(pasted).state, b);
    var before := BeforePaste(Extract(a[..start]));
    assert before + (one.items + two.items) == (before + one.items) + two.items;
  }

  lemma DataItemsAppend(a: seq<string>, b: seq<string>)
    ensures DataItems(a + b) == DataItems(a) + DataItems(b)
  {
  }

  /** What is left of `a` is its end. */
  lemma RemainderIsSuffix(a: string)
    ensures var r := Extract(a).remainder;
            |r| <= |a| && a == a[..|a| - |r|] + r && Unfinished(r)
  {
    ExtractCuts(a);
    var p := Extract(a);
    assert a[..|a| - |p.remainder|] == Concat(p.sequences);
  }

  lemma SplitPlain(a: string, b: string)
    requires a != "" && b != "" && IndexOf(a + b, PASTE_START) == -1
    ensures var one := Feed(IDLE, a);
            var two := Process(one.state, b);
            Feed(IDLE, a + b) == Result(two.state, one.items + two.items)
  {
    hide Extract, Unfinished, IndexOf, Process, DataItems;
    AbsentInParts(a, b, PASTE_START);
    assert IDLE.buffer + a == a && IDLE.buffer + (a + b) == a + b;
    FeedPlain(IDLE, a);
    FeedPlain(IDLE, a + b);
    RemainderIsSuffix(a);
    var p := Extract(a);
    assert a + b == a[..|a| - |p.remainder|] + (p.remainder + b);
    AbsentInParts(a[..|a| - |p.remainder|], p.remainder + b, PASTE_START);
    FeedPlain(Feed(IDLE, a).state, b);
    ExtractStreams(a, b);
    DataItemsAppend(p.sequences, Extract(p.remainder + b).sequences);
  }

  lemma MarkerHead(a: string, b: string, start: nat)
    requires start < |a| < start + |PASTE_START| && OccursAt(a + b, PASTE_START, start)
    ensures a == a[..start] + PASTE_START[..|a| - start]
  {
    var marker := (a + b)[start..start + |PASTE_START|];
    var end := a[start..];
    forall i | 0 <= i < |end|
      ensures end[i] == PASTE_START[..|a| - start][i]
    {
      assert end[i] == (a + b)[start + i] == marker[i];
    }
    assert end == PASTE_START[..|a| - start];
  }

  /** A paste begins in `a + b` but not within `a`: the first half leaves a
      remainder that the second completes up to the same marker. */
  lemma BeforeTheMarker(a: string, b: string)
    requires IndexOf(a, PASTE_START) == -1 && IndexOf(a + b, PASTE_START) != -1 && Steady(a + b)
    ensures var start := IndexOf(a + b, PASTE_START);
            var p := Extract(a);
            && |a| - |p.remainder| <= start
            && Extract((a + b)[..start]) ==
               (var q := Extract((p.remainder + b)[..start - (|a| - |p.remainder|)]);
                Parse(p.sequences + q.sequences, q.remainder))
  {
    hide Extract, Unfinished, IndexOf;
    var start := IndexOf(a + b, PASTE_START);
    var p := Extract(a);
    RemainderIsSuffix(a);
    var cut := |a| - |p.remainder|;
    if start >= |a| {
      assert (a + b)[..start] == a + b[..start - |a|];
      assert (p.remainder + b)[..start - cut] == p.remainder + b[..start - |a|];
      ExtractStreams(a, b[..start - |a|]);
    } else {
      var k := |a| - start;
      assert a[..start] == (a + b)[..start];
      var before := Extract(a[..start]);
      if start + |PASTE_START| <= |a| {
        OccursInPrefix(a, b, PASTE_START, start);
        assert false;
      }
      MarkerHead(a, b, start);
      UnfinishedPrefix(before.remainder + PASTE_START[..5], |before.remainder| + k);
      assert (before.remainder + PASTE_START[..5])[..|before.remainder| + k] == before.remainder + PASTE_START[..k];
      UnfinishedStays(before.remainder + PASTE_START[..k]);
      ExtractStreams(a[..start], PASTE_START[..k]);
      assert before.sequences + [] == before.sequences;
      assert p == Parse(before.sequences, before.remainder + PASTE_START[..k]);
      assert (p.remainder + b)[..start - cut] == before.remainder;
      UnfinishedPrefix(before.remainder + PASTE_START[..5], |before.remainder|);
      assert (before.remainder + PASTE_START[..5])[..|before.remainder|] == before.remainder;
      UnfinishedStays(before.remainder);
    }
  }

  lemma SplitBeforePaste(a: string, b: string)
    requires a != "" && b != "" && IndexOf(a, PASTE_START) == -1 && IndexOf(a + b, PASTE_START) != -1 && Steady(a + b)
    ensures var one := Feed(IDLE, a);
            var two := Process(one.state, b);
            Feed(IDLE, a + b) == Result(two.state, one.items + two.items)
  {
    hide Extract, Unfinished, IndexOf, InPaste, Steady, DataItems, Feed, Process;
    var start := IndexOf(a + b, PASTE_START);
    var p := Extract(a);
    RemainderIsSuffix(a);
    var cut := |a| - |p.remainder|;
    BeforeTheMarker(a, b);
    var rest := p.remainder + b;
    assert a + b == a[..cut] + rest;
    IndexOfSuffix(a[..cut], rest, PASTE_START);
    var q := Extract(rest[..start - cut]);
    var st := State(p.remainder, false, "", p.remainder != "");
    assert Feed(IDLE, a) == Result(st, DataItems(p.sequences)) by {
      IdleFeed(a);
    }
    FeedWithPaste(a + b);
    ProcessWithPaste(st, b);
    assert (a + b)[start + |PASTE_START|..] == rest[start - cut + |PASTE_START|..];
    BeforePasteAppend(p.sequences, q);
    var after := InPaste(rest[start - cut + |PASTE_START|..]);
    assert (DataItems(p.sequences) + BeforePaste(q)) + after.items ==
           DataItems(p.sequences) + (BeforePaste(q) + after.items);
  }

  lemma IdleFeed(a: string)
    requires a != "" && IndexOf(a, PASTE_START) == -1
    ensures var p := Extract(a);
            Feed(IDLE, a) == Result(State(p.remainder, false, "", p.remainder != ""), DataItems(p.sequences))
  {
    assert IDLE.buffer + a == a;
    FeedPlain(IDLE, a);
  }

  lemma ProcessWithPaste(st: State, b: string)
    requires !st.pasteMode && IndexOf(st.buffer + b, PASTE_START) != -1
    ensures var start := IndexOf(st.buffer + b, PASTE_START);
            var after := InPaste((st.buffer + b)[start + |PASTE_START|..]);
            Process(st, b) == Result(after.state, BeforePaste(Extract((st.buffer + b)[..start])) + after.items)
  {
  }

  lemma BeforePasteAppend(sequences: seq<string>, q: Parse)
    ensures BeforePaste(Parse(sequences + q.sequences, q.remainder)) == DataItems(sequences) + BeforePaste(q)
  {
    DataItemsAppend(sequences, q.sequences);
  }

  /** Feeding the rest in any chunks, after a first part fed whole. */
  lemma {:induction false} ChunksAfter(fed: string, chunks: seq<string>)
    requires NonEmpty(chunks) && Steady(fed + Concat(chunks))
    ensures var one := Feed(IDLE, fed);
            var rest := RunChunks(one.state, chunks);
            Feed(IDLE, fed + Concat(chunks)) == Result(rest.state, one.items + rest.items)
    decreases |chunks|
  {
    hide Steady, Feed, Process;
    var one := Feed(IDLE, fed);
    if chunks == [] {
      assert fed + Concat(chunks) == fed;
      assert one.items + [] == one.items;
    } else {
      var c := chunks[0];
      assert fed + Concat(chunks) == (fed + c) + Concat(chunks[1..]);
      SteadyPrefix(fed + c, Concat(chunks[1..]));
      SplitFeed(fed, c);
      ChunksAfter(fed + c, chunks[1..]);
      var two := Process(one.state, c);
      var rest := RunChunks(two.state, chunks[1..]);
      assert (one.items + two.items) + rest.items == one.items + (two.items + rest.items);
    }
  }

  // ---- when splitting does matter -------------------------------------------------

  lemma EmittedData(sequences: seq<string>)
    ensures Emitted(DataItems(sequences)) == DataItems(sequences)
  {
    if sequences != [] {
      assert DataItems(sequences)[1..] == DataItems(sequences[1..]);
      EmittedData(sequences[1..]);
    }
  }

  lemma EmittedBefore(p: Parse)
    ensures Emitted(BeforePaste(p)) == DataItems(p.sequences)
  {
    EmittedData(p.sequences);
    if p.remainder != "" {
      EmittedAppend(DataItems(p.sequences), [Lost(p.remainder)]);
      assert [Lost(p.remainder)][1..] == [];
    } else {
      assert DataItems(p.sequences) + [] == DataItems(p.sequences);
    }
  }

  /** The events of feeding two parts, and those of feeding them at once. */
  function Halves(a: string, b: string): seq<Item> {
    var one := Feed(IDLE, a);
    Emitted(one.items) + Emitted(Process(one.state, b).items)
  }

  function Whole(text: string): seq<Item> {
    Emitted(Feed(IDLE, text).items)
  }

  lemma WholeWithPaste(text: string)
    requires IndexOf(text, PASTE_START) != -1
    ensures var start := IndexOf(text, PASTE_START);
            Whole(text) == DataItems(Extract(text[..start]).sequences)
                + Emitted(InPaste(text[start + |PASTE_START|..]).items)
  {
    hide Extract, IndexOf, InPaste, Feed, BeforePaste;
    FeedWithPaste(text);
    var start := IndexOf(text, PASTE_START);
    var before := Extract(text[..start]);
    EmittedAppend(BeforePaste(before), InPaste(text[start + |PASTE_START|..]).items);
    EmittedBefore(before);
  }

  lemma PasteComesFirst(p: string)
    ensures var events := Emitted(InPaste(p).items); events == [] || events[0].Paste?
  {
    hide Process, IndexOf;
  }

  /** When the marker's first characters complete what is left before it, the
      split inside the marker emits data where the whole emits none. */
  lemma SplitInsideMarker(text: string)
    requires IndexOf(text, PASTE_START) != -1
    requires !Unfinished(Extract(text[..IndexOf(text, PASTE_START)]).remainder + PASTE_START[..5])
    ensures var at := IndexOf(text, PASTE_START) + 5;
            at < |text| && Halves(text[..at], text[at..]) != Whole(text)
  {
    hide Extract, IndexOf, InPaste, Feed, Process, DataItems, Unfinished;
    var start := IndexOf(text, PASTE_START);
    var at := start + 5;
    var a, b := text[..at], text[at..];
    assert a + b == text;
    if IndexOf(a, PASTE_START) != -1 {
      IndexOfPrefix(a, b, PASTE_START);
      assert false;
    }
    var before := Extract(text[..start]);
    assert text[start..start + |PASTE_START|][..5] == PASTE_START[..5];
    assert a == text[..start] + PASTE_START[..5];
    ExtractStreams(text[..start], PASTE_START[..5]);
    var q := Extract(before.remainder + PASTE_START[..5]);
    FinishedGives(before.remainder + PASTE_START[..5]);
    IdleFeed(a);
    EmittedData(Extract(a).sequences);
    DataItemsAppend(before.sequences, q.sequences);
    WholeWithPaste(text);
    PasteComesFirst(text[start + |PASTE_START|..]);
    var n := |before.sequences|;
    assert Halves(a, b)[n] == DataItems(q.sequences)[0];
    assert |Whole(text)| > n ==> Whole(text)[n] == Emitted(InPaste(text[start + |PASTE_START|..]).items)[0];
  }

  lemma FinishedGives(s: string)
    requires !Unfinished(s)
    ensures Extract(s).sequences != []
  {
  }

  /** If the text is not steady, some split in two gives other events. */
  lemma {:induction false} SomeSplitMatters(text: string) returns (at: nat)
    requires !Steady(text)
    ensures 0 < at < |text| && Halves(text[..at], text[at..]) != Whole(text)
    decreases |text|
  {
    hide Extract, IndexOf, InPaste, Feed, Process, DataItems, Unfinished;
    var start := IndexOf(text, PASTE_START);
    if !Unfinished(Extract(text[..start]).remainder + PASTE_START[..5]) {
      SplitInsideMarker(text);
      at := start + 5;
    } else {
      var pasted := text[start + |PASTE_START|..];
      var end := IndexOf(pasted, PASTE_END);
      var rest := pasted[end + |PASTE_END|..];
      var k := SomeSplitMatters(rest);
      at := |text| - |rest| + k;
      SplitAfterPaste(text, pasted, rest, k);
    }
  }

  lemma Cancel(common: seq<Item>, x: seq<Item>, y: seq<Item>)
    requires x != y
    ensures common + x != common + y
  {
    assert (common + x)[|common|..] == x && (common + y)[|common|..] == y;
  }

  /** A split after a whole paste shows in the events after it only. */
  lemma SplitAfterPaste(text: string, pasted: string, rest: string, k: nat)
    requires IndexOf(text, PASTE_START) != -1 && pasted == text[IndexOf(text, PASTE_START) + |PASTE_START|..]
    requires IndexOf(pasted, PASTE_END) != -1 && rest == pasted[IndexOf(pasted, PASTE_END) + |PASTE_END|..]
    requires 0 < k < |rest| && Halves(rest[..k], rest[k..]) != Whole(rest)
    ensures var at := |text| - |rest| + k;
            0 < at < |text| && Halves(text[..at], text[at..]) != Whole(text)
  {
    hide Extract, IndexOf, InPaste, Feed, Process, DataItems, Emitted;
    var start := IndexOf(text, PASTE_START);
    var end := IndexOf(pasted, PASTE_END);
    var at := |text| - |rest| + k;
    var a, b := text[..at], text[at..];
    assert b == rest[k..];
    SameStart(text, at);
    var pasted' := a[start + |PASTE_START|..];
    assert pasted' == pasted[..|pasted'|];
    SamePasteEnd(pasted, |pasted'|);
    assert pasted'[end + |PASTE_END|..] == rest[..k];
    assert pasted'[..end] == pasted[..end] && a[..start] == text[..start];
    WholeWithPaste(text);
    WholeWithPaste(a);
    PastedEvents(pasted);
    PastedEvents(pasted');
    SameFinalState(a);
    var d := DataItems(Extract(text[..start]).sequences);
    var p := [Paste(pasted[..end])];
    var one := Feed(IDLE, rest[..k]);
    var two := Emitted(Process(one.state, b).items);
    assert Whole(text) == (d + p) + Whole(rest);
    assert Halves(a, b) == (d + (p + Emitted(one.items))) + two == (d + p) + (Emitted(one.items) + two);
    Cancel(d + p, Halves(rest[..k], b), Whole(rest));
  }

  lemma SameStart(text: string, at: nat)
    requires IndexOf(text, PASTE_START) != -1 && IndexOf(text, PASTE_START) + |PASTE_START| <= at <= |text|
    ensures IndexOf(text[..at], PASTE_START) == IndexOf(text, PASTE_START)
  {
    assert text == text[..at] + text[at..];
    OccursInPrefix(text[..at], text[at..], PASTE_START, IndexOf(text, PASTE_START));
    IndexOfPrefix(text[..at], text[at..], PASTE_START);
  }

  lemma SamePasteEnd(pasted: string, at: nat)
    requires IndexOf(pasted, PASTE_END) != -1 && IndexOf(pasted, PASTE_END) + |PASTE_END| <= at <= |pasted|
    ensures IndexOf(pasted[..at], PASTE_END) == IndexOf(pasted, PASTE_END)
  {
    assert pasted == pasted[..at] + pasted[at..];
    OccursInPrefix(pasted[..at], pasted[at..], PASTE_END, IndexOf(pasted, PASTE_END));
    IndexOfPrefix(pasted[..at], pasted[at..], PASTE_END);
  }

  lemma PastedEvents(pasted: string)
    requires IndexOf(pasted, PASTE_END) != -1
    ensures var end := IndexOf(pasted, PASTE_END);
            var rest := Feed(IDLE, pasted[end + |PASTE_END|..]);
            && Emitted(InPaste(pasted).items) == [Paste(pasted[..end])] + Emitted(rest.items)
            && InPaste(pasted).state == rest.state
  {
    hide Process, IndexOf;
    var end := IndexOf(pasted, PASTE_END);
    var rest := Feed(IDLE, pasted[end + |PASTE_END|..]);
    EmittedAppend([Paste(pasted[..end])], rest.items);
    assert [Paste(pasted[..end])][1..] == [];
  }

  lemma SameFinalState(a: string)
    requires IndexOf(a, PASTE_START) != -1
    ensures Feed(IDLE, a).state == InPaste(a[IndexOf(a, PASTE_START) + |PASTE_START|..]).state
  {
    hide Extract, IndexOf, InPaste, Feed, BeforePaste;
    FeedWithPaste(a);
  }

  /** Every split into non-empty chunks gives the events and the final state of
      the whole. */
  ghost predicate ChunkInvariant(text: string) {
    forall chunks: seq<string> :: NonEmpty(chunks) && Concat(chunks) == text ==>
      && RunChunks(IDLE, chunks).state == Feed(IDLE, text).state
      && Emitted(RunChunks(IDLE, chunks).items) == Whole(text)
  }

  /** Chunking does not matter exactly when the text is steady. */
  lemma ChunkInvariantExactlyWhenSteady(text: string)
    ensures ChunkInvariant(text) <==> Steady(text)
  {
    hide Steady, Feed, Process;
    if Steady(text) {
      forall chunks: seq<string> | NonEmpty(chunks) && Concat(chunks) == text
        ensures RunChunks(IDLE, chunks).state == Feed(IDLE, text).state
        ensures Emitted(RunChunks(IDLE, chunks).items) == Whole(text)
      {
        SteadyChunks(text, chunks);
      }
    } else {
      var at := SomeSplitMatters(text);
      var chunks := [text[..at], text[at..]];
      TwoChunks(text, at);
      assert NonEmpty(chunks);
    }
  }

  lemma SteadyChunks(text: string, chunks: seq<string>)
    requires NonEmpty(chunks) && Concat(chunks) == text && Steady(text)
    ensures RunChunks(IDLE, chunks) == Feed(IDLE, text)
  {
    hide Steady, Process;
    assert "" + Concat(chunks) == text;
    ChunksAfter("", chunks);
    var rest := RunChunks(IDLE, chunks);
    assert [] + rest.items == rest.items;
  }

  lemma TwoChunks(text: string, at: nat)
    requires 0 < at < |text|
    ensures var chunks := [text[..at], text[at..]];
            Concat(chunks) == text && Emitted(RunChunks(IDLE, chunks).items) == Halves(text[..at], text[at..])
  {
    hide Process;
    var a, b := text[..at], text[at..];
    assert a + b == text;
    assert [a, b][1..] == [b] && [b][1..] == [];
    assert Concat([b]) == b + Concat([]) == b;
    assert Concat([a, b]) == a + Concat([b]);
    var one := Process(IDLE, a);
    var two := Process(one.state, b);
    assert RunChunks(one.state, [b]) == Result(two.state, two.items + []);
    assert two.items + [] == two.items;
    assert RunChunks(IDLE, [a, b]).items == one.items + two.items;
    EmittedAppend(one.items, two.items);
    assert Feed(IDLE, a) == one;
  }
}
