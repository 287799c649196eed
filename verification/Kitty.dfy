/** Images for the terminal, packages/pi-tui/src/terminal-image.ts: base64 data is
    sent in one or more application program commands (section 5.6 of ECMA-48) of
    the Kitty graphics protocol, each holding comma-separated keys, a semicolon
    and a piece of the data. */
module Kitty {
  import opened Common
  import opened Strings

  const CHUNK_SIZE: nat := 4096
  const ESC := '\U{1b}'
  const OPENING := "\U{1b}_G"
  const CLOSING := "\U{1b}\\"

  /** Zero stands for an option left out: the encoder treats both alike. */
  datatype Options = Options(columns: nat, rows: nat, imageId: nat)

  datatype Chunk = Chunk(keys: seq<string>, payload: string)

  datatype Image = Image(options: Options, data: string)

  // ---- numbers and lists in text -----------------------------------------------------

  function Decimal(n: nat): (r: string)
    ensures r != "" && forall c :: c in r ==> '0' <= c <= '9'
  {
    if n < 10 then ['0' + n as char] else Decimal(n / 10) + ['0' + (n % 10) as char]
  }

  function Number(s: string): int {
    if s == "" then 0 else 10 * Number(s[..|s| - 1]) + s[|s| - 1] as int - '0' as int
  }

  lemma {:induction false} NumberOfDecimal(n: nat)
    ensures Number(Decimal(n)) == n
  {
    if n >= 10 {
      NumberOfDecimal(n / 10);
      assert Decimal(n)[..|Decimal(n)| - 1] == Decimal(n / 10);
    }
  }

  function Join(keys: seq<string>): string
    requires keys != []
  {
    if |keys| == 1 then keys[0] else keys[0] + "," + Join(keys[1..])
  }

  /** The position of the first `c`, or the length. */
  function Find(s: string, c: char): (r: nat)
    ensures r <= |s| && c !in s[..r] && (r < |s| ==> s[r] == c)
  {
    if s == "" || s[0] == c then 0 else 1 + Find(s[1..], c)
  }

  lemma {:induction false} FindAt(a: string, c: char, b: string)
    requires c !in a
    ensures Find(a + [c] + b, c) == |a|
    decreases |a|
  {
    var s := a + [c] + b;
    if a != "" {
      assert s[1..] == a[1..] + [c] + b;
      FindAt(a[1..], c, b);
    }
  }

  lemma {:induction false} SplitAt(a: string, c: char, b: string)
    requires c !in a
    ensures Split(a + [c] + b, c) == [a] + Split(b, c)
    decreases |a|
  {
    var s := a + [c] + b;
    if a == "" {
      assert s[1..] == b;
    } else {
      assert s[1..] == a[1..] + [c] + b;
      SplitAt(a[1..], c, b);
      assert [a[0]] + a[1..] == a;
      assert ([a[1..]] + Split(b, c))[1..] == Split(b, c);
    }
  }

  lemma {:induction false} SplitNone(a: string, c: char)
    requires c !in a
    ensures Split(a, c) == [a]
    decreases |a|
  {
    if a != "" {
      SplitNone(a[1..], c);
      assert [a[0]] + a[1..] == a;
    }
  }

  lemma {:induction false} SplitOfJoin(keys: seq<string>)
    requires keys != [] && forall k :: k in keys ==> ',' !in k
    ensures Split(Join(keys), ',') == keys
    decreases |keys|
  {
    hide Split;
    if |keys| == 1 {
      SplitNone(keys[0], ',');
    } else {
      SplitAt(keys[0], ',', Join(keys[1..]));
      SplitOfJoin(keys[1..]);
    }
  }

  lemma {:induction false} JoinMore(keys: seq<string>, key: string)
    requires keys != []
    ensures Join(keys + [key]) == Join(keys) + "," + key
    decreases |keys|
  {
    if |keys| == 1 {
      assert (keys + [key])[1..] == [key];
    } else {
      assert (keys + [key])[1..] == keys[1..] + [key];
      JoinMore(keys[1..], key);
      assert keys[0] + "," + (Join(keys[1..]) + "," + key) == (keys[0] + "," + Join(keys[1..])) + "," + key;
    }
  }

  // ---- encoding ---------------------------------------------------------------------------

  function Key(letter: char, n: nat): seq<string> {
    if n == 0 then [] else [[letter, '='] + Decimal(n)]
  }

  function Params(o: Options): (r: seq<string>)
    ensures |r| >= 3
  {
    ["a=T", "f=100", "q=2"] + Key('c', o.columns) + Key('r', o.rows) + Key('i', o.imageId)
  }

  function Print(c: Chunk): string
    requires c.keys != []
  {
    OPENING + Join(c.keys) + ";" + c.payload + CLOSING
  }

  ghost predicate Keyed(chunks: seq<Chunk>) {
    forall c :: c in chunks ==> c.keys != []
  }

  function PrintAll(chunks: seq<Chunk>): string
    requires Keyed(chunks)
  {
    if chunks == [] then "" else Print(chunks[0]) + PrintAll(chunks[1..])
  }

  /** The chunks after the first. */
  function Rest(data: string): (r: seq<Chunk>)
    ensures Keyed(r)
    decreases |data|
  {
    if |data| <= CHUNK_SIZE then [Chunk(["m=0"], data)]
    else [Chunk(["m=1"], data[..CHUNK_SIZE])] + Rest(data[CHUNK_SIZE..])
  }

  function Chunks(params: seq<string>, data: string): (r: seq<Chunk>)
    requires params != []
    ensures Keyed(r)
  {
    if |data| <= CHUNK_SIZE then [Chunk(params, data)]
    else [Chunk(params + ["m=1"], data[..CHUNK_SIZE])] + Rest(data[CHUNK_SIZE..])
  }

  function Payloads(chunks: seq<Chunk>): string {
    if chunks == [] then "" else chunks[0].payload + Payloads(chunks[1..])
  }

  /** Full chunks that promise more, then one that ends the data. */
  lemma {:induction false} RestShape(data: string)
    ensures var r := Rest(data);
            && r != [] && Payloads(r) == data
            && (forall i :: 0 <= i < |r| - 1 ==> r[i].keys == ["m=1"] && |r[i].payload| == CHUNK_SIZE)
            && r[|r| - 1].keys == ["m=0"] && |r[|r| - 1].payload| <= CHUNK_SIZE
    decreases |data|
  {
    hide Payloads;
    if |data| > CHUNK_SIZE {
      var head, tail := data[..CHUNK_SIZE], data[CHUNK_SIZE..];
      assert data == head + tail;
      RestShape(tail);
      OnePayload(Chunk(["m=1"], head), Rest(tail));
    } else {
      OnePayload(Chunk(["m=0"], data), []);
      NothingMore(data);
    }
  }

  /** No payload is over the limit, together they are the data, only the first
      carries the parameters, and of several exactly the last says it is the
      last; it is never empty. */
  lemma ChunkShape(params: seq<string>, data: string)
    requires params != []
    ensures var r := Chunks(params, data);
            && r != [] && Payloads(r) == data
            && (|r| == 1 <==> |data| <= 4096)
            && (forall i :: 0 <= i < |r| - 1 ==> |r[i].payload| == 4096)
            && |r[|r| - 1].payload| <= 4096
            && r[0].keys == params + (if |r| == 1 then [] else ["m=1"])
            && forall i :: 1 <= i < |r| ==> r[i].keys == [if i == |r| - 1 then "m=0" else "m=1"]
  {
    hide Rest, Payloads;
    if |data| <= CHUNK_SIZE {
      OnePayload(Chunk(params, data), []);
      NothingMore(params);
      NothingMore(data);
    } else {
      var head, tail := data[..CHUNK_SIZE], data[CHUNK_SIZE..];
      assert data == head + tail;
      RestShape(tail);
      var rest := Rest(tail);
      OnePayload(Chunk(params + ["m=1"], head), rest);
      assert forall i :: 1 <= i <= |rest| ==> Chunks(params, data)[i] == rest[i - 1];
    }
  }

  lemma OnePayload(c: Chunk, rest: seq<Chunk>)
    ensures Payloads([c] + rest) == c.payload + Payloads(rest) && Payloads([]) == "" && [c] + [] == [c]
  {
    FirstAndRest(c, rest);
  }

  lemma ConcatAdd(parts: seq<string>, part: string)
    ensures Concat(parts + [part]) == Concat(parts) + part
  {
    ConcatAppend(parts, [part]);
    assert [part][1..] == [] && part + "" == part;
  }

  lemma Regroup(done: string, first: string, rest: string)
    ensures done + (first + rest) == (done + first) + rest
  {
  }

  method EncodeKitty(data: string, options: Options) returns (result: string)
    ensures result == PrintAll(Chunks(Params(options), data))
  {
    hide Params, Join, PrintAll;
    var params := BuildParams(options);
    if |data| <= CHUNK_SIZE {
      result := OPENING + Join(params) + ";" + data + CLOSING;
      PrintOne(Chunk(params, data), []);
      NothingMore([Chunk(params, data)]);
      NothingMore(result);
      return;
    }
    hide Rest, Concat, Chunks, Left, PartAt;
    var chunks: seq<string> := [];
    var offset := 0;
    var isFirst := true;
    NoParts(params, data);
    while offset < |data|
      invariant isFirst <==> offset == 0
      invariant Concat(chunks) + Left(params, data, offset) == PrintAll(Chunks(params, data))
      decreases |data| - offset
    {
      var chunk := data[offset..if offset + CHUNK_SIZE <= |data| then offset + CHUNK_SIZE else |data|];
      var isLast := offset + CHUNK_SIZE >= |data|;
      var part;
      if isFirst {
        part := OPENING + Join(params) + ",m=1;" + chunk + CLOSING;
        isFirst := false;
      } else if isLast {
        part := OPENING + "m=0;" + chunk + CLOSING;
      } else {
        part := OPENING + "m=1;" + chunk + CLOSING;
      }
      assert part == PartAt(params, data, offset) by { PartIs(params, data, offset); }
      LeftStep(params, data, offset);
      ConcatAdd(chunks, part);
      Regroup(Concat(chunks), part, Left(params, data, offset + CHUNK_SIZE));
      chunks := chunks + [part];
      offset := offset + CHUNK_SIZE;
    }
    LeftNone(params, data, offset);
    result := Concat(chunks);
    NothingMore(result);
  }

  method BuildParams(options: Options) returns (params: seq<string>)
    ensures params == Params(options)
  {
    hide Decimal;
    params := ["a=T", "f=100", "q=2"];
    if options.columns != 0 {
      params := params + ["c=" + Decimal(options.columns)];
    }
    if options.rows != 0 {
      params := params + ["r=" + Decimal(options.rows)];
    }
    if options.imageId != 0 {
      params := params + ["i=" + Decimal(options.imageId)];
    }
  }

  /** What is still to be sent from `offset` on. */
  function Left(params: seq<string>, data: string, offset: nat): string
    requires params != []
  {
    if offset == 0 then PrintAll(Chunks(params, data))
    else if offset < |data| then PrintAll(Rest(data[offset..]))
    else ""
  }

  function PartAt(params: seq<string>, data: string, offset: nat): string
    requires params != [] && offset < |data|
  {
    OPENING
    + (if offset == 0 then Join(params) + ",m=1;" else if offset + CHUNK_SIZE >= |data| then "m=0;" else "m=1;")
    + data[offset..if offset + CHUNK_SIZE <= |data| then offset + CHUNK_SIZE else |data|]
    + CLOSING
  }

  lemma PartIs(params: seq<string>, data: string, offset: nat)
    requires params != [] && offset < |data|
    ensures var chunk := data[offset..if offset + CHUNK_SIZE <= |data| then offset + CHUNK_SIZE else |data|];
            PartAt(params, data, offset) ==
              if offset == 0 then OPENING + Join(params) + ",m=1;" + chunk + CLOSING
              else if offset + CHUNK_SIZE >= |data| then OPENING + "m=0;" + chunk + CLOSING
              else OPENING + "m=1;" + chunk + CLOSING
  {
    hide Join;
    assert OPENING + (Join(params) + ",m=1;") == OPENING + Join(params) + ",m=1;";
  }

  lemma LeftNone(params: seq<string>, data: string, offset: nat)
    requires params != [] && offset > 0 && offset >= |data|
    ensures Left(params, data, offset) == ""
  {
  }

  lemma LeftStep(params: seq<string>, data: string, offset: nat)
    requires params != [] && |data| > CHUNK_SIZE && offset < |data|
    ensures Left(params, data, offset) == PartAt(params, data, offset) + Left(params, data, offset + CHUNK_SIZE)
  {
    hide *;
    if offset == 0 {
      LeftFirst(params, data);
    } else if offset + CHUNK_SIZE >= |data| {
      LeftLast(params, data, offset);
    } else {
      LeftMiddle(params, data, offset);
    }
  }

  lemma LeftFirst(params: seq<string>, data: string)
    requires params != [] && |data| > CHUNK_SIZE
    ensures Left(params, data, 0) == PartAt(params, data, 0) + Left(params, data, CHUNK_SIZE)
  {
    hide PrintAll, Rest, Join, Chunks, Print, PartAt;
    PartIs(params, data, 0);
    FirstPart(params, data, PartAt(params, data, 0));
  }

  lemma LeftLast(params: seq<string>, data: string, offset: nat)
    requires params != [] && 0 < offset < |data| <= offset + CHUNK_SIZE
    ensures Left(params, data, offset) == PartAt(params, data, offset) + Left(params, data, offset + CHUNK_SIZE)
  {
    hide PrintAll, Rest, Join, Chunks, Print, PartAt;
    assert Left(params, data, offset) == PrintAll(Rest(data[offset..]))
           && Left(params, data, offset + CHUNK_SIZE) == "";
    hide Left;
    PartIs(params, data, offset);
    RestStep(data, offset);
    SmallKey("m=0", data[offset..]);
    assert data[offset..|data|] == data[offset..];
  }

  lemma LeftMiddle(params: seq<string>, data: string, offset: nat)
    requires params != [] && 0 < offset && offset + CHUNK_SIZE < |data|
    ensures Left(params, data, offset) == PartAt(params, data, offset) + Left(params, data, offset + CHUNK_SIZE)
  {
    hide PrintAll, Rest, Join, Chunks, Print, PartAt;
    assert Left(params, data, offset) == PrintAll(Rest(data[offset..]));
    assert Left(params, data, offset + CHUNK_SIZE) == PrintAll(Rest(data[offset + CHUNK_SIZE..]));
    hide Left;
    PartIs(params, data, offset);
    RestStep(data, offset);
    SmallKey("m=1", data[offset..offset + CHUNK_SIZE]);
  }

  lemma NoParts(params: seq<string>, data: string)
    requires params != []
    ensures Concat([]) + Left(params, data, 0) == PrintAll(Chunks(params, data))
  {
  }

  lemma PrintOne(c: Chunk, rest: seq<Chunk>)
    requires c.keys != [] && Keyed(rest)
    ensures Keyed([c] + rest) && PrintAll([c] + rest) == Print(c) + PrintAll(rest) && PrintAll([]) == ""
  {
    assert ([c] + rest)[1..] == rest;
  }

  lemma SmallKey(key: string, payload: string)
    ensures Print(Chunk([key], payload)) == OPENING + (key + ";") + payload + CLOSING
  {
    assert OPENING + key + ";" == OPENING + (key + ";");
  }

  lemma FirstPart(params: seq<string>, data: string, part: string)
    requires params != [] && |data| > CHUNK_SIZE
    requires part == OPENING + Join(params) + ",m=1;" + data[..CHUNK_SIZE] + CLOSING
    ensures PrintAll(Chunks(params, data)) == part + PrintAll(Rest(data[CHUNK_SIZE..]))
  {
    hide PrintAll, Rest;
    JoinMore(params, "m=1");
    PrintOne(Chunk(params + ["m=1"], data[..CHUNK_SIZE]), Rest(data[CHUNK_SIZE..]));
    assert "," + "m=1" + ";" == ",m=1;";
    assert OPENING + (Join(params) + "," + "m=1") + ";" == OPENING + Join(params) + ("," + "m=1" + ";");
  }

  lemma RestStep(data: string, offset: nat)
    requires offset < |data|
    ensures var rest := data[offset..];
            if offset + CHUNK_SIZE >= |data| then PrintAll(Rest(rest)) == Print(Chunk(["m=0"], rest)) + ""
            else
              PrintAll(Rest(rest)) ==
              Print(Chunk(["m=1"], data[offset..offset + CHUNK_SIZE])) + PrintAll(Rest(data[offset + CHUNK_SIZE..]))
  {
    hide PrintAll;
    var rest := data[offset..];
    if offset + CHUNK_SIZE >= |data| {
      PrintOne(Chunk(["m=0"], rest), []);
      assert [Chunk(["m=0"], rest)] + [] == [Chunk(["m=0"], rest)];
    } else {
      assert rest[..CHUNK_SIZE] == data[offset..offset + CHUNK_SIZE];
      assert rest[CHUNK_SIZE..] == data[offset + CHUNK_SIZE..];
      PrintOne(Chunk(["m=1"], rest[..CHUNK_SIZE]), Rest(rest[CHUNK_SIZE..]));
    }
  }

  // ---- decoding, as a terminal would --------------------------------------------------------

  /** The commands of a stream: a payload ends at the first escape character. */
  function Parse(s: string): Option<seq<Chunk>>
    decreases |s|
  {
    if s == "" then Some([])
    else if !("\U{1b}_G" <= s) then None
    else
      var body := s[3..];
      var e := Find(body, '\U{1b}');
      if !("\U{1b}\\" <= body[e..]) then None
      else
        var k := Find(body[..e], ';');
        var rest := Parse(body[e + 2..]);
        if k == e || rest.None? then None
        else Some([Chunk(Split(body[..k], ','), body[k + 1..e])] + rest.value)
  }

  /** Chunks after the first carry nothing but whether more follow. */
  function Continue(chunks: seq<Chunk>): Option<string>
    decreases |chunks|
  {
    if chunks == [] then None
    else if chunks[0].keys == ["m=0"] then (if |chunks| == 1 then Some(chunks[0].payload) else None)
    else if chunks[0].keys != ["m=1"] || Continue(chunks[1..]).None? then None
    else Some(chunks[0].payload + Continue(chunks[1..]).value)
  }

  function KeyValue(keys: seq<string>, letter: char): int
    decreases |keys|
  {
    if keys == [] then 0
    else if [letter, '='] <= keys[0] then Number(keys[0][2..])
    else KeyValue(keys[1..], letter)
  }

  function ReadOptions(keys: seq<string>): Option<Options> {
    var c, r, i := KeyValue(keys, 'c'), KeyValue(keys, 'r'), KeyValue(keys, 'i');
    if ["a=T", "f=100", "q=2"] <= keys && c >= 0 && r >= 0 && i >= 0 then Some(Options(c, r, i)) else None
  }

  function Assemble(chunks: seq<Chunk>): Option<Image> {
    if chunks == [] || chunks[0].keys == [] then None
    else
      var keys := chunks[0].keys;
      var more := keys[|keys| - 1] == "m=1";
      var o := ReadOptions(if more then keys[..|keys| - 1] else keys);
      var rest := if more then Continue(chunks[1..]) else if |chunks| == 1 then Some("") else None;
      if o.None? || rest.None? then None else Some(Image(o.value, chunks[0].payload + rest.value))
  }

  function Decode(s: string): Option<Image> {
    var chunks := Parse(s);
    if chunks.None? then None else Assemble(chunks.value)
  }

  // ---- round trip --------------------------------------------------------------------------

  ghost predicate Plain(s: string) {
    ESC !in s && ',' !in s && ';' !in s
  }

  /** Nothing in a chunk could be taken for its end, or for the end of its keys. */
  ghost predicate Clear(c: Chunk) {
    c.keys != [] && ESC !in c.payload && forall k :: k in c.keys ==> Plain(k)
  }

  lemma {:induction false} JoinIsClear(keys: seq<string>)
    requires keys != [] && forall k :: k in keys ==> Plain(k)
    ensures ESC !in Join(keys) && ';' !in Join(keys)
    decreases |keys|
  {
    assert Plain(keys[0]);
    if |keys| > 1 {
      JoinIsClear(keys[1..]);
    }
  }

  lemma ParseStep(s: string, body: string, e: nat, k: nat)
    requires OPENING <= s && s[|OPENING|..] == body
    requires e == Find(body, ESC) && CLOSING <= body[e..] && k == Find(body[..e], ';') && k < e
    requires Parse(body[e + |CLOSING|..]).Some?
    ensures Parse(s) == Some([Chunk(Split(body[..k], ','), body[k + 1..e])] + Parse(body[e + |CLOSING|..]).value)
  {
    hide Split, Find;
  }

  lemma Tail(a: string, b: string)
    ensures (a + b)[..|a|] == a && (a + b)[|a|..] == b && a <= a + b
  {
  }

  /** The parts of a command, one after the other. */
  lemma CommandParts(keys: string, payload: string, rest: string)
    ensures var inner, tail := keys + ";" + payload, CLOSING + rest;
            var body := inner + CLOSING + rest;
            && body == inner + [ESC] + tail[1..]
            && body[..|inner|] == inner && body[|inner|..] == tail
            && body[..|keys|] == keys && body[|keys| + 1..|inner|] == payload
            && body[|inner| + |CLOSING|..] == rest
  {
    var inner, tail := keys + ";" + payload, CLOSING + rest;
    Joins(inner, CLOSING, rest);
    assert tail == [ESC] + tail[1..];
    Joins(inner, [ESC], tail[1..]);
    Tail(inner, tail);
  }

  lemma ParseText(keys: string, payload: string, rest: string)
    requires ESC !in keys && ';' !in keys && ESC !in payload && Parse(rest).Some?
    ensures Parse(OPENING + (keys + ";" + payload + CLOSING + rest)) ==
            Some([Chunk(Split(keys, ','), payload)] + Parse(rest).value)
  {
    hide Split, Parse, Find;
    var inner, tail := keys + ";" + payload, CLOSING + rest;
    var body := inner + CLOSING + rest;
    CommandParts(keys, payload, rest);
    FindAt(inner, ESC, tail[1..]);
    FindAt(keys, ';', payload);
    Tail(CLOSING, rest);
    Tail(OPENING, body);
    ParseStep(OPENING + body, body, |inner|, |keys|);
  }

  lemma ParseOne(c: Chunk, rest: string)
    requires Clear(c) && Parse(rest).Some?
    ensures Parse(Print(c) + rest) == Some([c] + Parse(rest).value)
  {
    hide Join, Split, Parse;
    JoinIsClear(c.keys);
    SplitOfJoin(c.keys);
    ParseText(Join(c.keys), c.payload, rest);
    Regroups(OPENING, Join(c.keys), c.payload, rest);
  }

  lemma Regroups(opening: string, keys: string, payload: string, rest: string)
    ensures opening + keys + ";" + payload + CLOSING + rest == opening + (keys + ";" + payload + CLOSING + rest)
  {
  }

  lemma {:induction false} ParseOfPrint(chunks: seq<Chunk>)
    requires Keyed(chunks) && forall c :: c in chunks ==> Clear(c)
    ensures Parse(PrintAll(chunks)) == Some(chunks)
    decreases |chunks|
  {
    if chunks != [] {
      hide Print;
      ParseOfPrint(chunks[1..]);
      ParseOne(chunks[0], PrintAll(chunks[1..]));
      assert [chunks[0]] + chunks[1..] == chunks;
    }
  }

  lemma {:induction false} ContinueRest(data: string)
    ensures Continue(Rest(data)) == Some(data)
    decreases |data|
  {
    if |data| > CHUNK_SIZE {
      var rest := data[CHUNK_SIZE..];
      ContinueRest(rest);
      assert ([Chunk(["m=1"], data[..CHUNK_SIZE])] + Rest(rest))[1..] == Rest(rest);
      assert data == data[..CHUNK_SIZE] + rest;
    }
  }

  lemma KeyFirst(letter: char, n: nat, others: seq<string>, wanted: char)
    requires letter == wanted ==> KeyValue(others, wanted) == 0
    ensures KeyValue(Key(letter, n) + others, wanted) == if letter == wanted then n else KeyValue(others, wanted)
  {
    if n == 0 {
      assert Key(letter, n) + others == others;
    } else {
      var key := [letter, '='] + Decimal(n);
      NumberOfDecimal(n);
      assert key[2..] == Decimal(n) && key[0] == letter && key[..2] == [letter, '='];
      assert [wanted, '='] <= key ==> [wanted, '='][0] == key[0];
      assert ([key] + others)[1..] == others;
    }
  }

  function Wanted(o: Options, letter: char): nat {
    if letter == 'c' then o.columns else if letter == 'r' then o.rows else o.imageId
  }

  lemma ParamRead(o: Options, wanted: char)
    requires wanted in ['c', 'r', 'i']
    ensures KeyValue(Params(o), wanted) == Wanted(o, wanted)
  {
    hide Key, KeyValue;
    var c, r, i := Key('c', o.columns), Key('r', o.rows), Key('i', o.imageId);
    assert i + [] == i;
    assert KeyValue([], wanted) == 0 by { NoKeys(wanted); }
    KeyFirst('i', o.imageId, [], wanted);
    KeyFirst('r', o.rows, i, wanted);
    KeyFirst('c', o.columns, r + i, wanted);
    FixedKeys(c + (r + i), wanted);
    assert Params(o) == ["a=T", "f=100", "q=2"] + (c + (r + i));
  }

  lemma NoKeys(wanted: char)
    ensures KeyValue([], wanted) == 0
  {
  }

  lemma KeyIsPlain(letter: char, n: nat, k: string)
    requires letter in ['c', 'r', 'i'] && k in Key(letter, n)
    ensures Plain(k) && k != "" && k[0] != 'm'
  {
  }

  lemma ParamIsPlain(o: Options, k: string)
    requires k in Params(o)
    ensures Plain(k) && k != "" && k[0] != 'm'
  {
    hide Key, Plain;
    if k in Key('c', o.columns) {
      KeyIsPlain('c', o.columns, k);
    } else if k in Key('r', o.rows) {
      KeyIsPlain('r', o.rows, k);
    } else if k in Key('i', o.imageId) {
      KeyIsPlain('i', o.imageId, k);
    } else {
      FixedIsPlain(k);
    }
  }

  lemma FixedIsPlain(k: string)
    requires k in ["a=T", "f=100", "q=2"]
    ensures Plain(k) && k != "" && k[0] != 'm'
  {
  }

  lemma ParamsRead(o: Options)
    ensures ReadOptions(Params(o)) == Some(o) && (forall k :: k in Params(o) ==> Plain(k))
            && Params(o)[|Params(o)| - 1] != "m=1"
  {
    hide Plain, Key, KeyValue;
    forall k | k in Params(o)
      ensures Plain(k) && k != "" && k[0] != 'm'
    {
      ParamIsPlain(o, k);
    }
    ParamRead(o, 'c');
    ParamRead(o, 'r');
    ParamRead(o, 'i');
    assert Params(o)[|Params(o)| - 1] in Params(o);
    var mark := "m=1";
    assert mark[0] == 'm';
  }

  lemma FixedKeys(others: seq<string>, wanted: char)
    requires wanted in ['c', 'r', 'i']
    ensures KeyValue(["a=T", "f=100", "q=2"] + others, wanted) == KeyValue(others, wanted)
  {
    SkipKey("a=T", ["f=100", "q=2"] + others, wanted);
    SkipKey("f=100", ["q=2"] + others, wanted);
    SkipKey("q=2", others, wanted);
    assert ["a=T", "f=100", "q=2"] + others == ["a=T"] + (["f=100"] + (["q=2"] + others));
    assert ["f=100", "q=2"] + others == ["f=100"] + (["q=2"] + others);
  }

  lemma SkipKey(key: string, others: seq<string>, wanted: char)
    requires key != "" && key[0] != wanted
    ensures KeyValue([key] + others, wanted) == KeyValue(others, wanted)
  {
    var start := [wanted, '='];
    assert start[0] != key[0];
    assert ([key] + others)[1..] == others;
  }

  /** Data with no escape character in it, and the options, come back whole; no
      stream brings other data back. */
  lemma DecodesExactlyWhenPlain(data: string, o: Options)
    ensures Decode(PrintAll(Chunks(Params(o), data))) == Some(Image(o, data)) <==> '\U{1b}' !in data
  {
    hide Parse, PrintAll, ReadOptions, Params, Continue, Rest;
    var chunks := Chunks(Params(o), data);
    if ESC !in data {
      ParamsRead(o);
      ChunksAreClear(Params(o), data);
      ParseOfPrint(chunks);
      if |data| > CHUNK_SIZE {
        var rest := data[CHUNK_SIZE..];
        ContinueRest(rest);
        assert chunks[1..] == Rest(rest);
        assert (Params(o) + ["m=1"])[..|Params(o)|] == Params(o);
        assert data == data[..CHUNK_SIZE] + rest;
      } else {
        assert data + "" == data;
      }
    } else {
      DecodedIsPlain(PrintAll(chunks));
    }
  }

  lemma {:induction false} RestIsClear(data: string)
    requires ESC !in data
    ensures forall c :: c in Rest(data) ==> Clear(c)
    decreases |data|
  {
    assert Plain("m=1") && Plain("m=0");
    if |data| > CHUNK_SIZE {
      RestIsClear(data[CHUNK_SIZE..]);
      assert Clear(Chunk(["m=1"], data[..CHUNK_SIZE]));
    }
  }

  lemma ChunksAreClear(params: seq<string>, data: string)
    requires ESC !in data && params != [] && forall k :: k in params ==> Plain(k)
    ensures forall c :: c in Chunks(params, data) ==> Clear(c)
  {
    assert Plain("m=1");
    if |data| > CHUNK_SIZE {
      RestIsClear(data[CHUNK_SIZE..]);
      assert Clear(Chunk(params + ["m=1"], data[..CHUNK_SIZE]));
    }
  }

  lemma {:induction false} PayloadsArePlain(s: string)
    ensures Parse(s).Some? ==> forall c :: c in Parse(s).value ==> ESC !in c.payload
    decreases |s|
  {
    hide Find, Split;
    if s != "" && OPENING <= s {
      var body := s[|OPENING|..];
      var e := Find(body, ESC);
      FindStops(body, ESC);
      if CLOSING <= body[e..] {
        PayloadsArePlain(body[e + |CLOSING|..]);
        var k := Find(body[..e], ';');
        FindStops(body[..e], ';');
        if k < e {
          assert forall x :: x in body[k + 1..e] ==> x in body[..e];
        }
      }
    }
  }

  lemma FindStops(s: string, c: char)
    ensures Find(s, c) <= |s| && c !in s[..Find(s, c)]
  {
  }

  lemma {:induction false} ContinuedIsPlain(chunks: seq<Chunk>)
    requires forall c :: c in chunks ==> ESC !in c.payload
    ensures Continue(chunks).Some? ==> ESC !in Continue(chunks).value
    decreases |chunks|
  {
    if chunks != [] {
      ContinuedIsPlain(chunks[1..]);
    }
  }

  lemma DecodedIsPlain(s: string)
    ensures Decode(s).Some? ==> ESC !in Decode(s).value.data
  {
    hide Parse, Continue, ReadOptions;
    PayloadsArePlain(s);
    if Parse(s).Some? && Parse(s).value != [] {
      ContinuedIsPlain(Parse(s).value[1..]);
    }
  }
}
