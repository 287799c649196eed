/** Reassembly of a proxied response, packages/pi-agent-core/src/proxy.ts: decoded
    text comes in chunks, each complete `data: ` line holds one event (a subset of
    section 9.2.6 of the WHATWG HTML Living Standard), and events rebuild the
    message.  `Wire` stands for JSON parsing, which may throw, and for white space. */
module Proxy {
  import opened Common
  import opened Strings

  datatype Wire = Wire(parse: string -> Option<Event>, arguments: string -> string, isSpace: char -> bool)

  datatype Event =
    | Start
    | TextStart(index: nat)
    | TextDelta(index: nat, delta: string)
    | TextEnd(index: nat, signature: Option<string>)
    | ThinkingStart(index: nat)
    | ThinkingDelta(index: nat, delta: string)
    | ThinkingEnd(index: nat, signature: Option<string>)
    | ToolStart(index: nat, id: string, name: string)
    | ToolDelta(index: nat, delta: string)
    | ToolEnd(index: nat)
    | Done(reason: string, usage: string)
    | Failure(reason: string, message: Option<string>, usage: string)
    | Unknown(kind: string)

  datatype Content =
    | Text(text: string, textSignature: Option<string>)
    | Thinking(thinking: string, thinkingSignature: Option<string>)
    | Tool(id: string, name: string, arguments: string, partialJson: Option<string>)

  datatype Partial = Partial(content: map<nat, Content>, stopReason: string, errorMessage: Option<string>,
                             usage: string)

  /** What an event makes of the message, and whether it is passed on; or the
      error it throws. */
  datatype Effect = Passed(partial: Partial, emitted: bool) | Threw(message: string)

  function Put(p: Partial, i: nat, c: Content): Effect {
    Passed(p.(content := p.content[i := c]), true)
  }

  /** One event of the proxy.  Appending to a tool call already closed finds its
      text undefined, as the language prints it. */
  function Handle(wire: Wire, p: Partial, e: Event): Effect {
    match e
    case Start => Passed(p, true)
    case TextStart(i) => Put(p, i, Text("", None))
    case TextDelta(i, d) =>
      if i in p.content && p.content[i].Text? then Put(p, i, p.content[i].(text := p.content[i].text + d))
      else Threw("Received text_delta for non-text content")
    case TextEnd(i, s) =>
      if i in p.content && p.content[i].Text? then Put(p, i, p.content[i].(textSignature := s))
      else Threw("Received text_end for non-text content")
    case ThinkingStart(i) => Put(p, i, Thinking("", None))
    case ThinkingDelta(i, d) =>
      if i in p.content && p.content[i].Thinking? then Put(p, i, p.content[i].(thinking := p.content[i].thinking + d))
      else Threw("Received thinking_delta for non-thinking content")
    case ThinkingEnd(i, s) =>
      if i in p.content && p.content[i].Thinking? then Put(p, i, p.content[i].(thinkingSignature := s))
      else Threw("Received thinking_end for non-thinking content")
    case ToolStart(i, id, name) => Put(p, i, Tool(id, name, "{}", Some("")))
    case ToolDelta(i, d) =>
      if i in p.content && p.content[i].Tool? then
        var json := (if p.content[i].partialJson.Some? then p.content[i].partialJson.value else "undefined") + d;
        Put(p, i, p.content[i].(partialJson := Some(json), arguments := wire.arguments(json)))
      else Threw("Received toolcall_delta for non-toolCall content")
    case ToolEnd(i) =>
      if i in p.content && p.content[i].Tool? then Put(p, i, p.content[i].(partialJson := None))
      else Passed(p, false)
    case Unknown(_) => Passed(p, false)
    case Done(reason, usage) => Passed(p.(stopReason := reason, usage := usage), true)
    case Failure(reason, message, usage) => Passed(p.(stopReason := reason, errorMessage := message, usage := usage),
                                                   true)
  }

  // ---- lines -------------------------------------------------------------------------

  datatype Lines = Lines(complete: seq<string>, rest: string)

  /** The lines that end in a line feed, and what follows the last of them. */
  function SplitLines(s: string): Lines {
    if s == "" then Lines([], "")
    else Prepend(s[0], SplitLines(s[1..]))
  }

  function Prepend(c: char, tail: Lines): Lines {
    if c == '\n' then Lines([""] + tail.complete, tail.rest)
    else if tail.complete == [] then Lines([], [c] + tail.rest)
    else Lines([[c] + tail.complete[0]] + tail.complete[1..], tail.rest)
  }

  function Joined(lines: seq<string>): string {
    if lines == [] then "" else lines[0] + "\n" + Joined(lines[1..])
  }

  /** The lines and what is left are the text, cut at its line feeds. */
  lemma {:induction false} LinesAreTheText(s: string)
    ensures var p := SplitLines(s);
            Joined(p.complete) + p.rest == s && '\n' !in p.rest && forall line :: line in p.complete ==> '\n' !in line
    decreases |s|
  {
    if s != "" {
      LinesAreTheText(s[1..]);
      assert s == [s[0]] + s[1..];
      PrependedText(s[0], SplitLines(s[1..]));
    }
  }

  lemma PrependedText(c: char, tail: Lines)
    ensures var p := Prepend(c, tail);
            Joined(p.complete) + p.rest == [c] + (Joined(tail.complete) + tail.rest)
  {
    hide Joined;
    JoinedCons("", tail.complete);
    Joins([c], Joined(tail.complete), tail.rest);
    if c != '\n' {
      NoneJoined();
      if tail.complete != [] {
        var line, more := tail.complete[0], tail.complete[1..];
        assert [line] + more == tail.complete;
        JoinedCons(line, more);
        JoinedCons([c] + line, more);
        assert ([c] + line) + "\n" + Joined(more) == [c] + (line + "\n" + Joined(more));
      } else {
        NothingMore(tail.rest);
        NothingMore([c] + tail.rest);
      }
    }
  }

  lemma JoinedCons(line: string, more: seq<string>)
    ensures Joined([line] + more) == line + "\n" + Joined(more)
  {
    FirstAndRest(line, more);
  }

  lemma NoneJoined()
    ensures Joined([]) == ""
  {
  }

  lemma SplitStep(c: char, s: string)
    ensures SplitLines([c] + s) == Prepend(c, SplitLines(s))
  {
    assert ([c] + s)[1..] == s;
  }

  lemma PrependStream(c: char, p: Lines, q: Lines)
    ensures c == '\n' || p.complete != [] ==>
              Prepend(c, Lines(p.complete + q.complete, q.rest)) == Lines(Prepend(c, p).complete + q.complete, q.rest)
    ensures c != '\n' && p.complete == [] ==> Prepend(c, Lines(p.complete + q.complete, q.rest)) == Prepend(c, q)
  {
    assert [""] + (p.complete + q.complete) == ([""] + p.complete) + q.complete;
    if p.complete == [] {
      assert [] + q.complete == q.complete;
    } else {
      assert (p.complete + q.complete)[1..] == p.complete[1..] + q.complete;
    }
  }

  /** More text only adds to the last, open line. */
  lemma {:induction false} LinesStream(a: string, b: string)
    ensures var p := SplitLines(a);
            var q := SplitLines(p.rest + b);
            SplitLines(a + b) == Lines(p.complete + q.complete, q.rest)
    decreases |a|, 1
  {
    if a == "" {
      assert a + b == b;
    } else {
      var c, s := a[0], a[1..];
      assert a == [c] + s && a + b == [c] + (s + b);
      StreamStep(c, s, b);
    }
  }

  lemma {:induction false} StreamStep(c: char, s: string, b: string)
    ensures var p := SplitLines([c] + s);
            var q := SplitLines(p.rest + b);
            SplitLines([c] + (s + b)) == Lines(p.complete + q.complete, q.rest)
    decreases |s| + 1, 0
  {
    hide SplitLines;
    LinesStream(s, b);
    SplitStep(c, s);
    SplitStep(c, s + b);
    var p := SplitLines(s);
    var q := SplitLines(p.rest + b);
    PrependStream(c, p, q);
    if c != '\n' && p.complete == [] {
      assert ([c] + p.rest) + b == [c] + (p.rest + b);
      SplitStep(c, p.rest + b);
      assert [] + Prepend(c, q).complete == Prepend(c, q).complete;
    }
  }

  function TrimLeft(wire: Wire, s: string): string {
    if s != "" && wire.isSpace(s[0]) then TrimLeft(wire, s[1..]) else s
  }

  function TrimRight(wire: Wire, s: string): string {
    if s != "" && wire.isSpace(s[|s| - 1]) then TrimRight(wire, s[..|s| - 1]) else s
  }

  // ---- reading -------------------------------------------------------------------------

  /** `Failed` once something threw: reading has stopped, and the error was the
      last thing pushed. */
  datatype State =
    | Reading(buffer: string, partial: Partial, pushed: seq<Event>)
    | Failed(partial: Partial, pushed: seq<Event>, message: string)

  predicate Closes(e: Event) {
    e.Done? || e.Failure?
  }

  /** What a consumer of the stream gets of the events pushed: those up to the
      first that closes it. */
  function Delivered(pushed: seq<Event>): seq<Event> {
    if pushed == [] then []
    else if Closes(pushed[0]) then [pushed[0]]
    else [pushed[0]] + Delivered(pushed[1..])
  }

  /** Nothing is delivered after the closing event, and nothing is missed before
      it. */
  lemma {:induction false} DeliveredIsCut(pushed: seq<Event>)
    ensures var d := Delivered(pushed);
            && d <= pushed && (forall i :: 0 <= i < |d| - 1 ==> !Closes(d[i]))
            && (d != pushed ==> d != [] && Closes(d[|d| - 1]))
    decreases |pushed|
  {
    if pushed != [] && !Closes(pushed[0]) {
      DeliveredIsCut(pushed[1..]);
      var rest := Delivered(pushed[1..]);
      assert pushed == [pushed[0]] + pushed[1..];
      assert forall i :: 0 < i <= |rest| ==> Delivered(pushed)[i] == rest[i - 1];
    }
  }

  const DATA := "data: "

  /** The error ends the message and is the last thing pushed. */
  function Fail(p: Partial, pushed: seq<Event>, message: string): State {
    Failed(p.(stopReason := "error", errorMessage := Some(message)),
           pushed + [Failure("error", Some(message), p.usage)], message)
  }

  function DataOf(wire: Wire, line: string): string {
    if DATA <= line then TrimRight(wire, TrimLeft(wire, line[|DATA|..])) else ""
  }

  predicate Blank(wire: Wire, s: string) {
    forall c :: c in s ==> wire.isSpace(c)
  }

  lemma {:induction false} TrimmedLeft(wire: Wire, a: string, d: string)
    requires Blank(wire, a) && (d == "" || !wire.isSpace(d[0]))
    ensures TrimLeft(wire, a + d) == d
    decreases |a|
  {
    if a == "" {
      assert a + d == d;
    } else {
      assert (a + d)[1..] == a[1..] + d;
      TrimmedLeft(wire, a[1..], d);
    }
  }

  lemma {:induction false} TrimmedRight(wire: Wire, d: string, b: string)
    requires Blank(wire, b) && (d == "" || !wire.isSpace(d[|d| - 1]))
    ensures TrimRight(wire, d + b) == d
    decreases |b|
  {
    if b == "" {
      assert d + b == d;
    } else {
      assert (d + b)[..|d + b| - 1] == d + b[..|b| - 1];
      TrimmedRight(wire, d, b[..|b| - 1]);
    }
  }

  /** What a data line says is what stands after its name, without the white space
      around it; no other line says anything. */
  lemma DataIsTrimmed(wire: Wire, a: string, d: string, b: string, other: string)
    requires Blank(wire, a) && Blank(wire, b) && d != "" && !wire.isSpace(d[0]) && !wire.isSpace(d[|d| - 1])
    requires !("data: " <= other)
    ensures DataOf(wire, "data: " + (a + (d + b))) == d && DataOf(wire, "data: " + a) == "" && DataOf(wire, other) == ""
  {
    var line := "data: " + (a + (d + b));
    assert line[|DATA|..] == a + (d + b) && ("data: " + a)[|DATA|..] == a;
    assert (d + b)[0] == d[0];
    TrimmedLeft(wire, a, d + b);
    TrimmedRight(wire, d, b);
    assert a + "" == a;
    TrimmedLeft(wire, a, "");
  }

  /** One complete line; other lines than data lines, and empty ones, say nothing. */
  function ReadLine(wire: Wire, st: State, line: string): State {
    var data := DataOf(wire, line);
    if st.Failed? || data == "" then st
    else
      match wire.parse(data)
      case None => Fail(st.partial, st.pushed, "parse")
      case Some(e) =>
        match Handle(wire, st.partial, e)
        case Threw(message) => Fail(st.partial, st.pushed, message)
        case Passed(p, emitted) => Reading(st.buffer, p, if emitted then st.pushed + [e] else st.pushed)
  }

  function ReadLines(wire: Wire, st: State, lines: seq<string>): State
    decreases |lines|
  {
    if lines == [] then st else ReadLines(wire, ReadLine(wire, st, lines[0]), lines[1..])
  }

  /** One chunk: the lines it completes are read, the open one is kept. */
  function ReadChunk(wire: Wire, st: State, chunk: string): State {
    if st.Failed? then st
    else
      var lines := SplitLines(st.buffer + chunk);
      ReadLines(wire, st.(buffer := lines.rest), lines.complete)
  }

  function ReadChunks(wire: Wire, st: State, chunks: seq<string>): State
    decreases |chunks|
  {
    if chunks == [] then st else ReadChunks(wire, ReadChunk(wire, st, chunks[0]), chunks[1..])
  }

  /** The buffer has no part in reading a line. */
  lemma {:induction false} LinesIgnoreBuffer(wire: Wire, st: State, buffer: string, lines: seq<string>)
    requires st.Reading?
    ensures var r := ReadLines(wire, st, lines);
            var s := ReadLines(wire, st.(buffer := buffer), lines);
            if r.Failed? then s == r else r.buffer == st.buffer && s == r.(buffer := buffer)
    decreases |lines|
  {
    hide Handle, DataOf;
    if lines != [] {
      var next := ReadLine(wire, st, lines[0]);
      if next.Reading? {
        LinesIgnoreBuffer(wire, next, buffer, lines[1..]);
      } else {
        FailedStays(wire, next, lines[1..]);
      }
    }
  }

  lemma {:induction false} FailedStays(wire: Wire, st: State, lines: seq<string>)
    requires st.Failed?
    ensures ReadLines(wire, st, lines) == st
    decreases |lines|
  {
    if lines != [] {
      FailedStays(wire, st, lines[1..]);
    }
  }

  lemma {:induction false} LinesJoin(wire: Wire, st: State, a: seq<string>, b: seq<string>)
    ensures ReadLines(wire, st, a + b) == ReadLines(wire, ReadLines(wire, st, a), b)
    decreases |a|
  {
    hide ReadLine;
    if a == [] {
      assert a + b == b;
    } else {
      assert (a + b)[0] == a[0] && (a + b)[1..] == a[1..] + b;
      LinesJoin(wire, ReadLine(wire, st, a[0]), a[1..], b);
    }
  }

  /** Two chunks are read as one. */
  lemma ChunksJoin(wire: Wire, st: State, a: string, b: string)
    ensures ReadChunk(wire, ReadChunk(wire, st, a), b) == ReadChunk(wire, st, a + b)
  {
    hide ReadLines, SplitLines;
    if st.Reading? {
      var text := st.buffer + a;
      assert st.buffer + (a + b) == text + b;
      LinesStream(text, b);
      var p := SplitLines(text);
      var q := SplitLines(p.rest + b);
      LinesIgnoreBuffer(wire, st, p.rest, p.complete);
      LinesIgnoreBuffer(wire, st, q.rest, p.complete);
      LinesJoin(wire, st.(buffer := q.rest), p.complete, q.complete);
      var one := ReadLines(wire, st.(buffer := p.rest), p.complete);
      if one.Failed? {
        FailedStays(wire, one, q.complete);
      }
    }
  }

  /** Any chunking of the text reads exactly the complete lines of the whole. */
  lemma {:induction false} ChunkingDoesNotMatter(wire: Wire, st: State, chunks: seq<string>)
    requires chunks != []
    ensures ReadChunks(wire, st, chunks) == ReadChunk(wire, st, Concat(chunks))
    decreases |chunks|
  {
    hide ReadChunk;
    if chunks[1..] == [] {
      assert chunks[0] + Concat([]) == chunks[0];
    } else {
      ChunkingDoesNotMatter(wire, ReadChunk(wire, st, chunks[0]), chunks[1..]);
      ChunksJoin(wire, st, chunks[0], Concat(chunks[1..]));
    }
  }

  // ---- blocks ------------------------------------------------------------------------------

  /** What has been appended to block `i` since it was last started. */
  function Since(events: seq<Event>, i: nat): string {
    if events == [] then ""
    else
      SinceNext(Since(events[..|events| - 1], i), events[|events| - 1], i)
  }

  predicate Restarts(e: Event, i: nat) {
    (e.TextStart? || e.ThinkingStart? || e.ToolStart?) && e.index == i
  }

  function SinceNext(before: string, e: Event, i: nat): string {
    if Restarts(e, i) then ""
    else if (e.TextDelta? || e.ThinkingDelta? || e.ToolDelta?) && e.index == i then before + e.delta
    else before
  }

  function HandleAll(wire: Wire, p: Partial, events: seq<Event>): Effect {
    if events == [] then Passed(p, true)
    else
      var before := HandleAll(wire, p, events[..|events| - 1]);
      if before.Threw? then before else Handle(wire, before.partial, events[|events| - 1])
  }

  /** In a log without errors every text or thinking block is what was appended
      to it since its last start. */
  lemma {:induction false} BlocksAreTheirDeltas(wire: Wire, p: Partial, events: seq<Event>, i: nat)
    requires p.content == map[] && HandleAll(wire, p, events).Passed?
    ensures Holds(HandleAll(wire, p, events).partial, i, Since(events, i))
    decreases |events|
  {
    hide Handle, SinceNext, Holds;
    NothingHeld(p, i);
    if events != [] {
      var before, e := events[..|events| - 1], events[|events| - 1];
      BlocksAreTheirDeltas(wire, p, before, i);
      OneDelta(wire, HandleAll(wire, p, before).partial, e, i, Since(before, i));
    }
  }

  /** The block, if it is text or thinking, holds `text`. */
  predicate Holds(p: Partial, i: nat, text: string) {
    i in p.content ==>
      && (p.content[i].Text? ==> p.content[i].text == text)
      && (p.content[i].Thinking? ==> p.content[i].thinking == text)
  }

  lemma NothingHeld(p: Partial, i: nat)
    ensures p.content == map[] ==> Holds(p, i, "")
  {
  }

  lemma OneDelta(wire: Wire, p: Partial, e: Event, i: nat, before: string)
    requires Holds(p, i, before) && Handle(wire, p, e).Passed?
    ensures Holds(Handle(wire, p, e).partial, i, SinceNext(before, e, i))
  {
  }

  /** Whether something was appended to block `i` since it was last started. */
  ghost predicate Appended(events: seq<Event>, i: nat) {
    exists k :: AppendsAt(events, i, k) && forall l :: k < l < |events| ==> !StartsAt(events, i, l)
  }

  predicate AppendsAt(events: seq<Event>, i: nat, k: int) {
    0 <= k < |events| && events[k].ToolDelta? && events[k].index == i
  }

  predicate StartsAt(events: seq<Event>, i: nat, k: int) {
    0 <= k < |events| && Restarts(events[k], i)
  }

  /** Nothing is appended to a tool call after its end, before another start. */
  ghost predicate EndsLast(events: seq<Event>, i: nat) {
    forall k, l :: 0 <= k < l < |events| && events[k] == ToolEnd(i) && AppendsAt(events, i, l) ==>
      exists s :: k < s < l && StartsAt(events, i, s)
  }

  /** The call's arguments are the parse of what was appended to it, or empty; it
      is open until its end, and keeps what was appended meanwhile. */
  predicate Argued(wire: Wire, p: Partial, i: nat, text: string, some: bool, open: bool) {
    i in p.content && p.content[i].Tool? ==>
      && p.content[i].arguments == (if some then wire.arguments(text) else "{}")
      && (open ==> p.content[i].partialJson == Some(text))
  }

  /** Whether the last of the starts and ends of call `i` is not an end. */
  ghost predicate Open(events: seq<Event>, i: nat) {
    forall k :: 0 <= k < |events| && events[k] == ToolEnd(i) ==> exists s :: k < s < |events| && StartsAt(events, i, s)
  }

  /** In a log without errors a tool call's arguments are the parse of all its
      deltas since its start. */
  lemma {:induction false} ArgumentsAreTheirDeltas(wire: Wire, p: Partial, events: seq<Event>, i: nat)
    requires p.content == map[] && HandleAll(wire, p, events).Passed? && EndsLast(events, i)
    ensures Argued(wire, HandleAll(wire, p, events).partial, i, Since(events, i), Appended(events, i), Open(events, i))
    decreases |events|
  {
    hide Handle, SinceNext, Argued, Appended, Open, EndsLast;
    if events == [] {
      NothingArgued(wire, p, i);
    } else {
      var before, e := events[..|events| - 1], events[|events| - 1];
      assert events == before + [e];
      EndsLastBefore(before, e, i);
      ArgumentsAreTheirDeltas(wire, p, before, i);
      OpenNext(before, e, i);
      AppendedNext(before, e, i);
      OneArgument(wire, HandleAll(wire, p, before).partial, e, i, Since(before, i), Appended(before, i),
                  Open(before, i));
    }
  }

  lemma NothingArgued(wire: Wire, p: Partial, i: nat)
    requires p.content == map[]
    ensures Argued(wire, p, i, "", Appended([], i), Open([], i))
  {
  }

  lemma EndsLastBefore(before: seq<Event>, e: Event, i: nat)
    requires EndsLast(before + [e], i)
    ensures EndsLast(before, i)
    ensures e.ToolDelta? && e.index == i ==> Open(before, i)
  {
    var events := before + [e];
    assert forall k :: 0 <= k < |before| ==> events[k] == before[k];
    forall k, l | 0 <= k < l < |before| && before[k] == ToolEnd(i) && AppendsAt(before, i, l)
      ensures exists s :: k < s < l && StartsAt(before, i, s)
    {
      assert AppendsAt(events, i, l);
      var s :| k < s < l && StartsAt(events, i, s);
      assert StartsAt(before, i, s);
    }
    if e.ToolDelta? && e.index == i {
      assert AppendsAt(events, i, |before|);
      forall k | 0 <= k < |before| && before[k] == ToolEnd(i)
        ensures exists s :: k < s < |before| && StartsAt(before, i, s)
      {
        var s :| k < s < |before| && StartsAt(events, i, s);
        assert StartsAt(before, i, s);
      }
    }
  }

  lemma OpenNext(before: seq<Event>, e: Event, i: nat)
    ensures Open(before + [e], i) <==> Restarts(e, i) || (Open(before, i) && e != ToolEnd(i))
  {
    var events := before + [e];
    assert forall k :: 0 <= k < |before| ==> events[k] == before[k];
    assert forall k :: 0 <= k < |before| ==> (StartsAt(events, i, k) <==> StartsAt(before, i, k));
    assert StartsAt(events, i, |before|) <==> Restarts(e, i);
    if Open(events, i) && !Restarts(e, i) {
      forall k | 0 <= k < |before| && before[k] == ToolEnd(i)
        ensures exists s :: k < s < |before| && StartsAt(before, i, s)
      {
        var s :| k < s < |events| && StartsAt(events, i, s);
        assert s < |before| && StartsAt(before, i, s);
      }
    }
    if Restarts(e, i) || (Open(before, i) && e != ToolEnd(i)) {
      forall k | 0 <= k < |events| && events[k] == ToolEnd(i)
        ensures exists s :: k < s < |events| && StartsAt(events, i, s)
      {
        if Restarts(e, i) {
          assert StartsAt(events, i, |before|);
        } else {
          var s :| k < s < |before| && StartsAt(before, i, s);
          assert StartsAt(events, i, s);
        }
      }
    }
  }

  lemma AppendedNext(before: seq<Event>, e: Event, i: nat)
    ensures Appended(before + [e], i) <==> (e.ToolDelta? && e.index == i) || (Appended(before, i) && !Restarts(e, i))
  {
    var events := before + [e];
    assert forall k :: 0 <= k < |before| ==> events[k] == before[k];
    assert forall k :: 0 <= k < |before| ==> (StartsAt(events, i, k) <==> StartsAt(before, i, k));
    assert forall k :: 0 <= k < |before| ==> (AppendsAt(events, i, k) <==> AppendsAt(before, i, k));
    assert StartsAt(events, i, |before|) <==> Restarts(e, i);
    assert AppendsAt(events, i, |before|) <==> e.ToolDelta? && e.index == i;
    if Appended(events, i) && !(e.ToolDelta? && e.index == i) {
      var k :| AppendsAt(events, i, k) && forall l :: k < l < |events| ==> !StartsAt(events, i, l);
      assert AppendsAt(before, i, k);
    }
    if Appended(before, i) && !Restarts(e, i) {
      var k :| AppendsAt(before, i, k) && forall l :: k < l < |before| ==> !StartsAt(before, i, l);
      assert AppendsAt(events, i, k);
    }
  }

  lemma OneArgument(wire: Wire, p: Partial, e: Event, i: nat, text: string, some: bool, open: bool)
    requires Argued(wire, p, i, text, some, open) && Handle(wire, p, e).Passed?
    requires e.ToolDelta? && e.index == i ==> open
    ensures Argued(wire, Handle(wire, p, e).partial, i, SinceNext(text, e, i),
                   (e.ToolDelta? && e.index == i) || (some && !Restarts(e, i)),
                   Restarts(e, i) || (open && e != ToolEnd(i)))
  {
  }

  /** The last word on how the message ended is that of the last closing event. */
  lemma {:induction false} LastWordStands(wire: Wire, p: Partial, events: seq<Event>, k: nat)
    requires k < |events| && Closes(events[k]) && forall l :: k < l < |events| ==> !Closes(events[l])
    requires HandleAll(wire, p, events).Passed?
    ensures var r := HandleAll(wire, p, events).partial;
            && r.stopReason == events[k].reason && r.usage == events[k].usage
            && (events[k].Failure? ==> r.errorMessage == events[k].message)
    decreases |events|
  {
    hide Handle;
    var before := events[..|events| - 1];
    OneWord(wire, HandleAll(wire, p, before).partial, events[|events| - 1]);
    if k < |before| {
      LastWordStands(wire, p, before, k);
    }
  }

  lemma OneWord(wire: Wire, p: Partial, e: Event)
    requires Handle(wire, p, e).Passed?
    ensures var r := Handle(wire, p, e).partial;
            if e.Failure? then r.stopReason == e.reason && r.usage == e.usage && r.errorMessage == e.message
            else if e.Done? then r.stopReason == e.reason && r.usage == e.usage
            else r.stopReason == p.stopReason && r.usage == p.usage && r.errorMessage == p.errorMessage
  {
  }

  /** The events of the data lines, parsed. */
  function EventsOf(wire: Wire, lines: seq<string>): seq<Event> {
    if lines == [] then []
    else
      var data := DataOf(wire, lines[|lines| - 1]);
      var before := EventsOf(wire, lines[..|lines| - 1]);
      if data == "" || wire.parse(data).None? then before else before + [wire.parse(data).value]
  }

  /** Those passed on: all but those of unknown kind, and the end of a
      tool call where there is none. */
  function Announced(wire: Wire, p: Partial, events: seq<Event>): seq<Event> {
    if events == [] then []
    else
      var before, e := events[..|events| - 1], events[|events| - 1];
      var st := HandleAll(wire, p, before);
      Announced(wire, p, before) + (if st.Passed? && Handle(wire, st.partial, e).Passed?
                                    && Handle(wire, st.partial, e).emitted then [e] else [])
  }

  lemma {:induction false} LinesAreTheirEvents(wire: Wire, st: State, lines: seq<string>)
    requires st.Reading? && ReadLines(wire, st, lines).Reading?
    ensures var r := ReadLines(wire, st, lines);
            var h := HandleAll(wire, st.partial, EventsOf(wire, lines));
            && h.Passed? && r.partial == h.partial
            && r.pushed == st.pushed + Announced(wire, st.partial, EventsOf(wire, lines))
    decreases |lines|
  {
    hide Handle, DataOf, ReadLines, ReadLine, HandleAll, Announced, EventsOf;
    if lines == [] {
      NoLines(wire, st);
    } else {
      var before, line := lines[..|lines| - 1], lines[|lines| - 1];
      assert lines == before + [line];
      LastLine(wire, st, before, line);
      var mid := ReadLines(wire, st, before);
      LinesAreTheirEvents(wire, st, before);
      var events := EventsOf(wire, before);
      LineGives(wire, mid, line);
      if DataOf(wire, line) != "" {
        OneMore(wire, st.partial, events, wire.parse(DataOf(wire, line)).value);
        var e := wire.parse(DataOf(wire, line)).value;
        Joins(st.pushed, Announced(wire, st.partial, events), [e]);
        NothingMore(Announced(wire, st.partial, events));
      }
    }
  }

  lemma NoLines(wire: Wire, st: State)
    requires st.Reading?
    ensures ReadLines(wire, st, []) == st && EventsOf(wire, []) == []
            && HandleAll(wire, st.partial, []) == Passed(st.partial, true)
    ensures Announced(wire, st.partial, []) == [] && st.pushed + [] == st.pushed
  {
  }

  lemma LastLine(wire: Wire, st: State, before: seq<string>, line: string)
    ensures ReadLines(wire, st, before + [line]) == ReadLine(wire, ReadLines(wire, st, before), line)
    ensures ReadLines(wire, st, before).Failed? ==> ReadLines(wire, st, before + [line]).Failed?
    ensures var data := DataOf(wire, line);
            EventsOf(wire, before + [line]) ==
            if data == "" || wire.parse(data).None? then EventsOf(wire, before)
              else EventsOf(wire, before) + [wire.parse(data).value]
  {
    hide Handle, DataOf, TrimLeft, TrimRight;
    LinesJoin(wire, st, before, [line]);
    var mid := ReadLines(wire, st, before);
    assert [line][1..] == [];
    assert ReadLines(wire, mid, [line]) == ReadLines(wire, ReadLine(wire, mid, line), []);
    assert (before + [line])[..|before|] == before;
  }

  /** A line read without error. */
  lemma LineGives(wire: Wire, st: State, line: string)
    requires st.Reading? && ReadLine(wire, st, line).Reading?
    ensures var data, r := DataOf(wire, line), ReadLine(wire, st, line);
            if data == "" then r == st
            else wire.parse(data).Some?
                 && var e := wire.parse(data).value;
                    var h := Handle(wire, st.partial, e);
                    h.Passed? && r == Reading(st.buffer, h.partial, if h.emitted then st.pushed + [e] else st.pushed)
  {
    hide Handle, DataOf;
  }

  lemma OneMore(wire: Wire, p: Partial, events: seq<Event>, e: Event)
    requires HandleAll(wire, p, events).Passed?
    ensures var h := HandleAll(wire, p, events);
            && HandleAll(wire, p, events + [e]) == Handle(wire, h.partial, e)
            && (Handle(wire, h.partial, e).Passed? ==>
                  Announced(wire, p, events + [e]) ==
                  Announced(wire, p, events) + (if Handle(wire, h.partial, e).emitted then [e] else []))
  {
    hide Handle;
    assert (events + [e])[..|events|] == events;
  }

  /** How block `i` was last started, if it was. */
  function LastStart(events: seq<Event>, i: nat): Option<Event> {
    if events == [] then None
    else
      var e := events[|events| - 1];
      if Restarts(e, i) then Some(e) else LastStart(events[..|events| - 1], i)
  }

  /** The signature given since block `i` was last started. */
  function Signature(events: seq<Event>, i: nat): Option<string> {
    if events == [] then None
    else
      var e := events[|events| - 1];
      if Restarts(e, i) then None
      else if (e.TextEnd? || e.ThinkingEnd?) && e.index == i then e.signature
      else Signature(events[..|events| - 1], i)
  }

  /** The block is of the kind it was started as, has the call's id and name, and
      the signature. */
  predicate Kept(p: Partial, i: nat, started: Option<Event>, signature: Option<string>) {
    match started
    case Some(TextStart(_)) => i in p.content && p.content[i].Text? && p.content[i].textSignature == signature
    case Some(ThinkingStart(_)) =>
      i in p.content && p.content[i].Thinking? && p.content[i].thinkingSignature == signature
    case Some(ToolStart(_, id, name)) =>
      i in p.content && p.content[i].Tool? && p.content[i].id == id && p.content[i].name == name
    case _ => i !in p.content
  }

  /** What an event needs its block to have been started as. */
  predicate Fits(e: Event, started: Option<Event>) {
    match e
    case TextDelta(_, _) => started.Some? && started.value.TextStart?
    case TextEnd(_, _) => started.Some? && started.value.TextStart?
    case ThinkingDelta(_, _) => started.Some? && started.value.ThinkingStart?
    case ThinkingEnd(_, _) => started.Some? && started.value.ThinkingStart?
    case ToolDelta(_, _) => started.Some? && started.value.ToolStart?
    case _ => true
  }

  function Index(e: Event): nat {
    match e
    case Start | Done(_, _) | Failure(_, _, _) | Unknown(_) => 0
    case _ => e.index
  }

  /** After a log without errors each block is what it was last started as. */
  lemma {:induction false} BlocksAreKept(wire: Wire, p: Partial, events: seq<Event>, i: nat)
    requires p.content == map[] && HandleAll(wire, p, events).Passed?
    ensures Kept(HandleAll(wire, p, events).partial, i, LastStart(events, i), Signature(events, i))
    decreases |events|
  {
    hide Handle, Kept;
    if events == [] {
      NothingKept(p, i);
    } else {
      var before, e := events[..|events| - 1], events[|events| - 1];
      BlocksAreKept(wire, p, before, i);
      KeptNext(wire, HandleAll(wire, p, before).partial, e, i, LastStart(before, i), Signature(before, i));
    }
  }

  lemma NothingKept(p: Partial, i: nat)
    requires p.content == map[]
    ensures Kept(p, i, None, None)
  {
  }

  lemma KeptNext(wire: Wire, p: Partial, e: Event, i: nat, started: Option<Event>, signature: Option<string>)
    requires Kept(p, i, started, signature) && Handle(wire, p, e).Passed?
    ensures Kept(Handle(wire, p, e).partial, i, if Restarts(e, i) then Some(e) else started,
                 if Restarts(e, i) then None
                 else if (e.TextEnd? || e.ThinkingEnd?) && e.index == i then e.signature
                 else signature)
  {
  }

  /** After a log without errors, the next event is an error exactly when its block
      was last started as another kind, or never; and of the others all are passed on
      but those of unknown kind and the end of what is no tool call. */
  lemma ThrowsExactlyWhen(wire: Wire, p: Partial, events: seq<Event>, e: Event)
    requires p.content == map[] && HandleAll(wire, p, events).Passed?
    ensures var r := HandleAll(wire, p, events + [e]);
            var started := LastStart(events, Index(e));
            && (r.Threw? <==> !Fits(e, started))
            && (r.Passed? ==>
                  Announced(wire, p, events + [e]) == Announced(wire, p, events)
                  + if e.Unknown? || (e.ToolEnd? && !(started.Some? && started.value.ToolStart?)) then [] else [e])
  {
    hide HandleAll, Announced, Handle, LastStart, Signature, Kept, Fits;
    BlocksAreKept(wire, p, events, Index(e));
    OneMore(wire, p, events, e);
    LastStarts(events, Index(e));
    OneFits(wire, HandleAll(wire, p, events).partial, e, LastStart(events, Index(e)), Signature(events, Index(e)));
  }

  lemma {:induction false} LastStarts(events: seq<Event>, i: nat)
    ensures LastStart(events, i).Some? ==> Restarts(LastStart(events, i).value, i)
    decreases |events|
  {
    if events != [] {
      LastStarts(events[..|events| - 1], i);
    }
  }

  lemma OneFits(wire: Wire, p: Partial, e: Event, started: Option<Event>, signature: Option<string>)
    requires Kept(p, Index(e), started, signature)
    requires started.Some? ==> Restarts(started.value, Index(e))
    ensures Handle(wire, p, e).Threw? <==> !Fits(e, started)
    ensures Handle(wire, p, e).Passed? ==>
              (Handle(wire, p, e).emitted <==>
               !(e.Unknown? || (e.ToolEnd? && !(started.Some? && started.value.ToolStart?))))
  {
  }

  /** Reading that fails does so at a first line that cannot be parsed or handled,
      tells of the error last, and keeps the rest of the message. */
  lemma {:induction false} StopsAtTheFirstError(wire: Wire, st: State, lines: seq<string>)
    requires st.Reading? && ReadLines(wire, st, lines).Failed?
    ensures exists n :: 0 <= n < |lines| && FailsAt(wire, ReadLines(wire, st, lines[..n]), lines[n],
                                                     ReadLines(wire, st, lines))
    decreases |lines|
  {
    hide Handle, DataOf, FailsAt;
    assert lines != [];
    var next, rest := ReadLine(wire, st, lines[0]), lines[1..];
    assert ReadLines(wire, st, lines) == ReadLines(wire, next, rest);
    if next.Failed? {
      FailedStays(wire, next, rest);
      LineFails(wire, st, lines[0]);
      assert lines[..0] == [];
    } else {
      StopsAtTheFirstError(wire, next, rest);
      var n :| 0 <= n < |rest| && FailsAt(wire, ReadLines(wire, next, rest[..n]), rest[n], ReadLines(wire, next, rest));
      assert lines[..n + 1][0] == lines[0] && lines[..n + 1][1..] == rest[..n];
      assert lines[n + 1] == rest[n];
    }
  }

  predicate FailsAt(wire: Wire, st: State, line: string, r: State) {
    && st.Reading? && r.Failed? && DataOf(wire, line) != ""
    && (wire.parse(DataOf(wire, line)).None? || Handle(wire, st.partial, wire.parse(DataOf(wire, line)).value).Threw?)
    && r.pushed == st.pushed + [Failure("error", Some(r.message), st.partial.usage)]
    && r.partial.content == st.partial.content && r.partial.usage == st.partial.usage
    && r.partial.stopReason == "error" && r.partial.errorMessage == Some(r.message)
  }

  lemma LineFails(wire: Wire, st: State, line: string)
    requires st.Reading? && ReadLine(wire, st, line).Failed?
    ensures FailsAt(wire, st, line, ReadLine(wire, st, line))
  {
    hide Handle, DataOf;
  }

  const FRESH := Reading("", Partial(map[], "stop", None, ""), [])

  /** In any chunking of a text that reads without error, what was pushed are the
      events of its complete data lines, of which those up to the closing one
      are delivered, and each text or thinking block is what the events appended
      to it since its last start. */
  lemma ReadsItsDataLines(wire: Wire, chunks: seq<string>, i: nat)
    requires chunks != [] && ReadChunks(wire, FRESH, chunks).Reading?
    ensures var r := ReadChunks(wire, FRESH, chunks);
            var events := EventsOf(wire, SplitLines(Concat(chunks)).complete);
            && r.buffer == SplitLines(Concat(chunks)).rest
            && r.pushed == Announced(wire, FRESH.partial, events)
            && Delivered(r.pushed) <= r.pushed
            && ((forall e :: e in r.pushed ==> !Closes(e)) ==> Delivered(r.pushed) == r.pushed)
            && Holds(r.partial, i, Since(events, i))
  {
    hide ReadChunks, ReadLines, SplitLines, HandleAll, Announced, EventsOf, Since, Delivered, Holds;
    DeliveredIsCut(ReadChunks(wire, FRESH, chunks).pushed);
    ChunkingDoesNotMatter(wire, FRESH, chunks);
    var text := Concat(chunks);
    assert "" + text == text;
    var lines := SplitLines(text);
    var st := FRESH.(buffer := lines.rest);
    LinesIgnoreBuffer(wire, st, lines.rest, lines.complete);
    LinesAreTheirEvents(wire, st, lines.complete);
    BlocksAreTheirDeltas(wire, FRESH.partial, EventsOf(wire, lines.complete), i);
    assert [] + Announced(wire, FRESH.partial, EventsOf(wire, lines.complete)) ==
           Announced(wire, FRESH.partial, EventsOf(wire, lines.complete));
  }

  // ---- the reader -----------------------------------------------------------------------------

  class Reader {
    const wire: Wire
    var buffer: string
    var partial: Partial
    var pushed: seq<Event>
    var failure: Option<string>

    constructor (wire: Wire)
      ensures this.wire == wire && Fields() == Reading("", Partial(map[], "stop", None, ""), [])
    {
      this.wire := wire;
      buffer, partial, pushed, failure := "", Partial(map[], "stop", None, ""), [], None;
    }

    function Fields(): State
      reads this
    {
      if failure.Some? then Failed(partial, pushed, failure.value) else Reading(buffer, partial, pushed)
    }

    /** Reads a chunk, until something throws. */
    method Read(chunk: string)
      requires Fields().Reading?
      modifies this
      ensures Fields() == ReadChunk(wire, old(Fields()), chunk)
    {
      hide ReadLine, SplitLines;
      var lines := SplitLines(buffer + chunk);
      buffer := lines.rest;
      ghost var start := Fields();
      for i := 0 to |lines.complete|
        invariant Fields().Reading? && ReadLines(wire, Fields(), lines.complete[i..]) ==
                  ReadLines(wire, start, lines.complete)
      {
        assert lines.complete[i..][1..] == lines.complete[i + 1..];
        ReadOne(lines.complete[i]);
        if failure.Some? {
          FailedStays(wire, Fields(), lines.complete[i + 1..]);
          return;
        }
      }
    }

    method ReadOne(line: string)
      requires Fields().Reading?
      modifies this
      ensures Fields() == ReadLine(wire, old(Fields()), line)
    {
      hide Handle, DataOf;
      var data := DataOf(wire, line);
      if |data| > 0 {
        var parsed := wire.parse(data);
        if parsed.None? {
          Throw("parse");
          return;
        }
        match Handle(wire, partial, parsed.value)
        case Threw(message) => Throw(message);
        case Passed(p, emitted) =>
          partial := p;
          if emitted {
            pushed := pushed + [parsed.value];
          }
      }
    }

    method Throw(message: string)
      requires Fields().Reading?
      modifies this
      ensures Fields() == old(Fail(partial, pushed, message))
    {
      pushed := pushed + [Failure("error", Some(message), partial.usage)];
      partial := partial.(stopReason := "error", errorMessage := Some(message));
      failure := Some(message);
    }
  }
}
