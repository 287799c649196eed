/** Printing tokens to the input and reading them back. */
module Tokens {
  import opened Strings
  import opened Sequences
  import opened InputModel
  import opened Chunking

  datatype Token = Char(c: char) | Escape(text: string) | Pasted(text: string)

  ghost predicate Good(t: Token) {
    match t
    case Char(c) => c != ESC
    case Escape(text) => Minimal(text)
    case Pasted(text) => IndexOf(text, PASTE_END) == -1
  }

  ghost predicate AllGood(tokens: seq<Token>) {
    forall i :: 0 <= i < |tokens| ==> Good(tokens[i])
  }

  function Text(t: Token): string {
    match t
    case Char(c) => [c]
    case Escape(text) => text
    case Pasted(text) => "\U{1b}[200~" + text + "\U{1b}[201~"
  }

  function Printed(tokens: seq<Token>): string {
    if tokens == [] then "" else Text(tokens[0]) + Printed(tokens[1..])
  }

  function EventOf(t: Token): Item {
    if t.Pasted? then Paste(t.text) else Data(Text(t))
  }

  function Events(tokens: seq<Token>): seq<Item> {
    seq(|tokens|, i requires 0 <= i < |tokens| => EventOf(tokens[i]))
  }

  /** How many tokens come before the first paste. */
  function PlainCount(tokens: seq<Token>): (k: nat)
    ensures k <= |tokens| && (k < |tokens| ==> tokens[k].Pasted?)
    ensures forall i :: 0 <= i < k ==> !tokens[i].Pasted?
  {
    if tokens == [] || tokens[0].Pasted? then 0 else 1 + PlainCount(tokens[1..])
  }

  /** Outside pasted text, the paste-start marker shows up only where a paste
      token begins. */
  ghost predicate MarkerOnlyAtPastes(tokens: seq<Token>)
    decreases |tokens|
  {
    var k := PlainCount(tokens);
    var plain := Printed(tokens[..k]);
    if k == |tokens| then IndexOf(plain, PASTE_START) == -1
    else IndexOf(plain + PASTE_START, PASTE_START) == |plain| && MarkerOnlyAtPastes(tokens[k + 1..])
  }

  lemma {:induction false} PrintedAppend(a: seq<Token>, b: seq<Token>)
    ensures Printed(a + b) == Printed(a) + Printed(b)
  {
    if a == [] {
      assert a + b == b;
    } else {
      assert (a + b)[0] == a[0] && (a + b)[1..] == a[1..] + b;
      PrintedAppend(a[1..], b);
      assert Text(a[0]) + (Printed(a[1..]) + Printed(b)) == (Text(a[0]) + Printed(a[1..])) + Printed(b);
    }
  }

  function Texts(tokens: seq<Token>): seq<string> {
    seq(|tokens|, i requires 0 <= i < |tokens| => Text(tokens[i]))
  }

  /** Without pastes, cutting what is printed gives the tokens' texts. */
  lemma {:induction false} PlainParses(tokens: seq<Token>)
    requires AllGood(tokens) && forall i :: 0 <= i < |tokens| ==> !tokens[i].Pasted?
    ensures Extract(Printed(tokens)) == Parse(Texts(tokens), "")
    decreases |tokens|
  {
    hide SequenceEnd;
    if tokens == [] {
    } else {
      var t := tokens[0];
      var rest := Printed(tokens[1..]);
      assert Good(t);
      PlainParses(tokens[1..]);
      assert Texts(tokens) == [Text(t)] + Texts(tokens[1..]);
      assert (Text(t) + rest)[..|Text(t)|] == Text(t) && (Text(t) + rest)[|Text(t)|..] == rest;
      if t.Escape? {
        SequenceEndStable(Text(t) + rest, |Text(t)|, 1);
      }
    }
  }

  /** The end marker cannot begin inside the pasted text and end outside it. */
  lemma NoOverlap(text: string, i: nat)
    requires i < |text| < i + |PASTE_END|
    ensures !OccursAt(text + PASTE_END, PASTE_END, i)
  {
    var all := text + PASTE_END;
    var k := |text| - i;
    assert all[i..i + |PASTE_END|][k] == all[|text|] == ESC;
    assert 1 <= k < |PASTE_END| && PASTE_END[k] != ESC;
  }

  lemma EndMarkerComesFirst(text: string)
    requires IndexOf(text, PASTE_END) == -1
    ensures IndexOf(text + PASTE_END, PASTE_END) == |text|
  {
    var all := text + PASTE_END;
    assert all[|text|..|text| + |PASTE_END|] == PASTE_END;
    assert OccursAt(all, PASTE_END, |text|);
    forall i | 0 <= i < |text|
      ensures !OccursAt(all, PASTE_END, i)
    {
      if i + |PASTE_END| <= |text| {
        OccursInPrefix(text, PASTE_END, PASTE_END, i);
      } else {
        NoOverlap(text, i);
      }
    }
  }

  lemma MarkerStartUnfinished()
    ensures Unfinished(PASTE_START[..5])
  {
    var m := "\U{1b}[200";
    assert PASTE_START[..5] == m;
    assert m[..1] == "\U{1b}" && m[..2] == "\U{1b}[" && m[..3] == "\U{1b}[2" && m[..4] == "\U{1b}[20" && m[..5] == m;
    assert m[..3][2..] == "2" && m[..4][2..] == "20" && m[2..] == "200";
    assert forall k :: 1 <= k <= 5 ==> SequenceStatus(m[..k]) == Incomplete;
    assert SequenceEnd(m, 1) == 6;
  }

  /** Tokens printed and fed at once come back in order, nothing is left over,
      and the text is one that may be split anywhere. */
  lemma {:induction false} PrintedParses(tokens: seq<Token>)
    requires AllGood(tokens) && MarkerOnlyAtPastes(tokens)
    ensures Feed(IDLE, Printed(tokens)) == Result(IDLE, Events(tokens)) && Steady(Printed(tokens))
    decreases |tokens|
  {
    hide Extract, IndexOf, Process, InPaste, Unfinished, Printed, Events, Texts, DataItems, Steady;
    var k := PlainCount(tokens);
    var plain := Printed(tokens[..k]);
    PlainParses(tokens[..k]);
    if k == |tokens| {
      assert tokens[..k] == tokens;
      PlainEvents(tokens);
      if tokens != [] {
        PrintedSomething(tokens);
        IdleFeed(plain);
      }
    } else {
      var pasted := tokens[k].text;
      var rest := Printed(tokens[k + 1..]);
      PrintedParses(tokens[k + 1..]);
      PasteParses(plain, pasted, rest, Texts(tokens[..k]));
      AroundPaste(tokens, k);
      EventsAroundPaste(tokens, k);
    }
  }

  lemma PrintedSomething(tokens: seq<Token>)
    requires AllGood(tokens) && tokens != []
    ensures Printed(tokens) != ""
  {
    assert Good(tokens[0]);
  }

  lemma PlainEvents(tokens: seq<Token>)
    requires forall i :: 0 <= i < |tokens| ==> !tokens[i].Pasted?
    ensures DataItems(Texts(tokens)) == Events(tokens)
    ensures IndexOf(Printed(tokens), PASTE_START) == -1 ==> Steady(Printed(tokens))
    ensures tokens == [] ==> Printed(tokens) == "" && Events(tokens) == []
  {
  }

  lemma AroundPaste(tokens: seq<Token>, k: nat)
    requires k < |tokens| && tokens[k].Pasted?
    ensures Printed(tokens) == Printed(tokens[..k]) + (Text(tokens[k]) + Printed(tokens[k + 1..]))
  {
    hide Printed;
    var tail := tokens[k..];
    assert tokens == tokens[..k] + tail;
    PrintedAppend(tokens[..k], tail);
    PrintedCons(tail);
    assert tail[1..] == tokens[k + 1..];
  }

  lemma PrintedCons(tokens: seq<Token>)
    requires tokens != []
    ensures Printed(tokens) == Text(tokens[0]) + Printed(tokens[1..])
  {
  }

  lemma EventsJoin(a: seq<Token>, b: seq<Token>)
    ensures Events(a + b) == Events(a) + Events(b)
  {
  }

  lemma PasteEvent(t: Token)
    requires t.Pasted?
    ensures Events([t]) == [Paste(t.text)]
  {
  }

  lemma EventsAroundPaste(tokens: seq<Token>, k: nat)
    requires k < |tokens| && tokens[k].Pasted? && forall i :: 0 <= i < k ==> !tokens[i].Pasted?
    ensures Events(tokens) == DataItems(Texts(tokens[..k])) + ([Paste(tokens[k].text)] + Events(tokens[k + 1..]))
  {
    hide EventOf, DataItems, Texts;
    PlainEvents(tokens[..k]);
    EventsJoin(tokens[..k], tokens[k..]);
    EventsJoin([tokens[k]], tokens[k + 1..]);
    assert tokens == tokens[..k] + tokens[k..] && tokens[k..] == [tokens[k]] + tokens[k + 1..];
    assert Events([tokens[k]]) == [Paste(tokens[k].text)] by { PasteEvent(tokens[k]); }
  }

  lemma PasteParses(plain: string, pasted: string, rest: string, texts: seq<string>)
    requires Extract(plain) == Parse(texts, "") && IndexOf(plain + PASTE_START, PASTE_START) == |plain|
    requires IndexOf(pasted, PASTE_END) == -1 && Steady(rest)
    ensures var all := plain + ((PASTE_START + pasted + PASTE_END) + rest);
            var after := Feed(IDLE, rest);
            && Feed(IDLE, all) == Result(after.state, DataItems(texts) + ([Paste(pasted)] + after.items))
            && Steady(all)
  {
    hide Extract, IndexOf, Process, Unfinished;
    var all := plain + ((PASTE_START + pasted + PASTE_END) + rest);
    var tail := pasted + PASTE_END + rest;
    assert all == (plain + PASTE_START) + tail;
    IndexOfPrefix(plain + PASTE_START, tail, PASTE_START);
    assert all[..|plain|] == plain && all[|plain| + |PASTE_START|..] == tail;
    EndMarkerComesFirst(pasted);
    IndexOfPrefix(pasted + PASTE_END, rest, PASTE_END);
    assert tail[..|pasted|] == pasted && tail[|pasted| + |PASTE_END|..] == rest;
    FeedWithPaste(all);
    assert DataItems(texts) + [] == DataItems(texts);
    MarkerStartUnfinished();
    assert "" + PASTE_START[..5] == PASTE_START[..5];
  }

  /** Printed tokens come back exactly, however the text is split into chunks. */
  lemma {:induction false} RoundTripInAnyChunks(tokens: seq<Token>, chunks: seq<string>)
    requires AllGood(tokens) && MarkerOnlyAtPastes(tokens)
    requires NonEmpty(chunks) && Concat(chunks) == Printed(tokens)
    ensures RunChunks(IDLE, chunks) == Result(IDLE, Events(tokens))
  {
    PrintedParses(tokens);
    SteadyChunks(Printed(tokens), chunks);
  }

  /** Two escapes and the rest of a marker: read at once, the first escape is
      dropped and a paste begins; read in two parts, it is a key and text. */
  lemma ChunkingCanMatter()
    ensures var text := [ESC] + PASTE_START;
            !Steady(text) && !ChunkInvariant(text)
            && Process(IDLE, text) == Result(State("", true, "", false), [Lost([ESC])])
  {
    hide *;
    var text := [ESC] + PASTE_START;
    MarkerAfterEscape();
    EscapesBeforeMarker();
    NotSteady(text);
    ChunkInvariantExactlyWhenSteady(text);
    LostEscape(text);
  }

  lemma MarkerAfterEscape()
    ensures var text := [ESC] + PASTE_START;
            IndexOf(text, PASTE_START) == 1 && |PASTE_START| == 6 && text[..1] == [ESC] && text[7..] == ""
  {
    hide IndexOf;
    var text := [ESC] + PASTE_START;
    assert text[1..7] == PASTE_START && text[..1] == [ESC] && text[7..] == "";
    assert text[0..6][1] == ESC != PASTE_START[1];
    assert !OccursAt(text, PASTE_START, 0) && OccursAt(text, PASTE_START, 1);
  }

  /** An escape alone is unfinished; two are a key, whatever follows. */
  lemma EscapesBeforeMarker()
    ensures Extract([ESC]) == Parse([], [ESC])
    ensures !Unfinished([ESC] + PASTE_START[..5])
  {
    assert SequenceStatus([ESC][..1]) == Incomplete;
    var s := [ESC] + PASTE_START[..5];
    assert SequenceStatus(s[..2]) == Complete;
    assert SequenceEnd(s, 1) <= 2;
  }

  lemma NotSteady(text: string)
    requires IndexOf(text, PASTE_START) == 1 && text[..1] == [ESC] && Extract([ESC]) == Parse([], [ESC])
    requires !Unfinished([ESC] + PASTE_START[..5])
    ensures !Steady(text)
  {
    hide IndexOf, Extract, Unfinished;
  }

  lemma LostEscape(text: string)
    requires IndexOf(text, PASTE_START) == 1 && text[..1] == [ESC] && Extract([ESC]) == Parse([], [ESC])
    requires |PASTE_START| == 6 && text[7..] == ""
    ensures Process(IDLE, text) == Result(State("", true, "", false), [Lost([ESC])])
  {
    hide IndexOf, Extract, InPaste;
    assert IDLE.buffer + text == text;
    ProcessWithPaste(IDLE, text);
    EmptyPaste();
    assert DataItems([]) == [];
    assert BeforePaste(Parse([], [ESC])) == [Lost([ESC])];
    assert [Lost([ESC])] + [] == [Lost([ESC])];
  }

  lemma EmptyPaste()
    ensures InPaste("") == Result(State("", true, "", false), [])
  {
    assert IndexOf("", PASTE_END) == -1;
  }
}
