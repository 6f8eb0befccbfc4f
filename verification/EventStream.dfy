/**
 The incremental splitter for a stream of server-sent events: characters arrive in chunks cut
 anywhere, and a buffer is cut at each blank line as soon as one is complete.
 */
module EventStream {
  import opened Options
  import opened Sorting
  import opened Strings

  const SEPARATOR := "\n\n"
  const PREFIX := "data:"
  const DONE := "[DONE]"

  predicate StartsWithData(line: string) {
    PREFIX <= line
  }

  function PayloadOf(line: string): string {
    if StartsWithData(line) then Trim(line[|PREFIX|..]) else ""
  }

  /** The payloads of the lines that carry data, in order. */
  function DataLines(lines: seq<string>): seq<string> {
    Mapped(Filter(lines, StartsWithData), PayloadOf)
  }

  // ----- one event

  /** The event of one chunk; `json` answers `None` for text that is not a JSON object. */
  function ParseChunk<E>(chunk: string, json: string -> Option<E>): Option<E> {
    var normalized := Trim(chunk);
    if normalized == "" then None
    else
      var lines := DataLines(Split(normalized, '\n'));
      if lines == [] then None
      else
        var data := Trim(Join(lines, "\n"));
        if data == "" || data == DONE then None else json(data)
  }

  function Yield<E>(event: Option<E>): seq<E> {
    if event.Some? then [event.value] else []
  }

  // ----- the whole stream at once

  predicate SeparatorAt(s: string, i: nat) {
    i + 1 < |s| && s[i] == SEPARATOR[0] && s[i + 1] == SEPARATOR[1]
  }

  /** The first index at which a blank line starts, or the length. */
  function FirstSeparator(s: string): (i: nat)
    ensures i <= |s| && (i < |s| ==> SeparatorAt(s, i))
  {
    if |s| < 2 then |s| else if SeparatorAt(s, 0) then 0 else FirstSeparator(s[1..]) + 1
  }

  /** The pieces cut off at the leftmost separator, again and again. */
  function Pieces(s: string): seq<string>
    decreases |s|
  {
    var i := FirstSeparator(s);
    if i == |s| then [] else [s[..i]] + Pieces(s[i + 2..])
  }

  /** What is left after the last piece. */
  function Remainder(s: string): (rest: string)
    ensures FirstSeparator(rest) == |rest|
    decreases |s|
  {
    var i := FirstSeparator(s);
    if i == |s| then s else Remainder(s[i + 2..])
  }

  function Events<E>(pieces: seq<string>, json: string -> Option<E>): seq<E> {
    if pieces == [] then [] else Events(pieces[..|pieces| - 1], json) + Yield(ParseChunk(pieces[|pieces| - 1], json))
  }

  /** The events of a complete stream. */
  function StreamEvents<E>(stream: string, json: string -> Option<E>): seq<E> {
    Events(Pieces(stream) + [Remainder(stream)], json)
  }

  function Concat(chunks: seq<string>): string {
    if chunks == [] then "" else Concat(chunks[..|chunks| - 1]) + chunks[|chunks| - 1]
  }

  // ----- text that arrives later leaves earlier cuts alone

  lemma {:induction false} FirstSeparatorExtends(a: string, b: string)
    requires FirstSeparator(a) < |a|
    ensures FirstSeparator(a + b) == FirstSeparator(a)
  {
    if !SeparatorAt(a, 0) {
      assert (a + b)[1..] == a[1..] + b;
      FirstSeparatorExtends(a[1..], b);
    }
  }

  /** One cut of a stream. */
  lemma CutOne(s: string)
    requires FirstSeparator(s) < |s|
    ensures Pieces(s) == [s[..FirstSeparator(s)]] + Pieces(s[FirstSeparator(s) + 2..])
    ensures Remainder(s) == Remainder(s[FirstSeparator(s) + 2..])
  {
  }

  lemma CutExtended(a: string, b: string)
    requires FirstSeparator(a) < |a|
    ensures Pieces(a + b) == [a[..FirstSeparator(a)]] + Pieces(a[FirstSeparator(a) + 2..] + b)
    ensures Remainder(a + b) == Remainder(a[FirstSeparator(a) + 2..] + b)
  {
    var i := FirstSeparator(a);
    FirstSeparatorExtends(a, b);
    assert (a + b)[..i] == a[..i] && (a + b)[i + 2..] == a[i + 2..] + b;
    CutOne(a + b);
  }

  lemma ConsAppend<T>(x: T, a: seq<T>, b: seq<T>)
    ensures [x] + (a + b) == ([x] + a) + b
  {
  }

  lemma {:induction false} PiecesExtend(a: string, b: string)
    ensures Pieces(a + b) == Pieces(a) + Pieces(Remainder(a) + b)
    ensures Remainder(a + b) == Remainder(Remainder(a) + b)
    decreases |a|
  {
    var i := FirstSeparator(a);
    if i < |a| {
      CutOne(a);
      CutExtended(a, b);
      PiecesExtend(a[i + 2..], b);
      ConsAppend(a[..i], Pieces(a[i + 2..]), Pieces(Remainder(a) + b));
    }
  }

  lemma {:induction false} EventsAppend<E>(a: seq<string>, b: seq<string>, json: string -> Option<E>)
    ensures Events(a + b, json) == Events(a, json) + Events(b, json)
  {
    if b == [] {
      assert a + b == a;
    } else {
      var last := b[|b| - 1];
      EventsAppend(a, b[..|b| - 1], json);
      assert (a + b)[..|a + b| - 1] == a + b[..|b| - 1] && (a + b)[|a + b| - 1] == last;
    }
  }

  // ----- the buffered loop

  /** Of the pieces `all`, those in `cut` have been turned into events and those in `left` have not. */
  ghost predicate Draining<E>(
      all: seq<string>, cut: seq<string>, left: seq<string>, before: seq<E>, events: seq<E>, json: string -> Option<E>) {
    all == cut + left && events == before + Events(cut, json)
  }

  lemma DrainOne<E>(
      all: seq<string>, cut: seq<string>, chunk: string, left: seq<string>,
      before: seq<E>, events: seq<E>, json: string -> Option<E>)
    requires Draining(all, cut, [chunk] + left, before, events, json)
    ensures Draining(all, cut + [chunk], left, before, events + Yield(ParseChunk(chunk, json)), json)
  {
    assert (cut + [chunk])[..|cut|] == cut;
  }

  lemma DrainDone<E>(all: seq<string>, cut: seq<string>, before: seq<E>, events: seq<E>, json: string -> Option<E>)
    requires Draining(all, cut, [], before, events, json)
    ensures events == before + Events(all, json)
  {
    assert cut + [] == cut;
  }

  /** The inner loop: cuts every complete piece off the buffer. */
  method Drain<E>(buffer: string, before: seq<E>, json: string -> Option<E>)
    returns (rest: string, events: seq<E>)
    ensures rest == Remainder(buffer)
    ensures events == before + Events(Pieces(buffer), json)
  {
    rest, events := buffer, before;
    ghost var cut: seq<string> := [];
    var separatorIndex := FirstSeparator(rest);
    while separatorIndex != |rest|
      invariant separatorIndex == FirstSeparator(rest)
      invariant Remainder(rest) == Remainder(buffer)
      invariant Draining(Pieces(buffer), cut, Pieces(rest), before, events, json)
      decreases |rest|
    {
      CutOne(rest);
      var chunk := rest[..separatorIndex];
      DrainOne(Pieces(buffer), cut, chunk, Pieces(rest[separatorIndex + 2..]), before, events, json);
      rest := rest[separatorIndex + 2..];
      cut := cut + [chunk];
      var parsed := ParseChunk(chunk, json);
      if parsed.Some? {
        events := events + [parsed.value];
      }
      separatorIndex := FirstSeparator(rest);
    }
    DrainDone(Pieces(buffer), cut, before, events, json);
  }

  /** Whatever way the stream is cut into chunks, the events are those of the stream. */
  method ParseServerSentEvents<E>(chunks: seq<string>, json: string -> Option<E>) returns (events: seq<E>)
    ensures events == StreamEvents(Concat(chunks), json)
  {
    var buffer := "";
    events := [];
    var n := 0;
    assert chunks[..0] == [];
    while n < |chunks|
      invariant n <= |chunks|
      invariant buffer == Remainder(Concat(chunks[..n]))
      invariant events == Events(Pieces(Concat(chunks[..n])), json)
    {
      ghost var seen := Concat(chunks[..n]);
      ConcatNext(chunks, n);
      PiecesExtend(seen, chunks[n]);
      EventsAppend(Pieces(seen), Pieces(buffer + chunks[n]), json);
      buffer, events := Drain(buffer + chunks[n], events, json);
      n := n + 1;
    }
    assert chunks[..n] == chunks;
    ghost var pieces := Pieces(Concat(chunks));
    assert (pieces + [buffer])[..|pieces|] == pieces;
    var trailing := ParseChunk(buffer, json);
    if trailing.Some? {
      events := events + [trailing.value];
    }
  }

  lemma ConcatNext(chunks: seq<string>, n: nat)
    requires n < |chunks|
    ensures Concat(chunks[..n + 1]) == Concat(chunks[..n]) + chunks[n]
  {
    assert chunks[..n + 1][..n] == chunks[..n];
  }

  // ----- the pieces are a cut of the stream

  function Unsplit(pieces: seq<string>, rest: string): string {
    if pieces == [] then rest else pieces[0] + SEPARATOR + Unsplit(pieces[1..], rest)
  }

  lemma UnsplitCons(chunk: string, pieces: seq<string>, rest: string)
    ensures Unsplit([chunk] + pieces, rest) == chunk + SEPARATOR + Unsplit(pieces, rest)
  {
  }

  lemma CutAt(s: string, i: nat)
    requires SeparatorAt(s, i)
    ensures s == s[..i] + SEPARATOR + s[i + 2..]
  {
  }

  /** Splitting loses nothing, and no piece holds a separator. */
  lemma {:induction false} PiecesRebuildStream(s: string)
    ensures Unsplit(Pieces(s), Remainder(s)) == s
    ensures forall p :: p in Pieces(s) ==> FirstSeparator(p) == |p|
    decreases |s|
  {
    var i := FirstSeparator(s);
    if i < |s| {
      CutOne(s);
      CutAt(s, i);
      PiecesRebuildStream(s[i + 2..]);
      NoSeparatorBefore(s, i);
      UnsplitCons(s[..i], Pieces(s[i + 2..]), Remainder(s));
    }
  }

  lemma {:induction false} NoSeparatorBefore(s: string, i: nat)
    requires i <= FirstSeparator(s)
    ensures FirstSeparator(s[..i]) == i
  {
    if i >= 2 {
      assert s[..i][1..] == s[1..][..i - 1];
      NoSeparatorBefore(s[1..], i - 1);
    }
  }

  // ----- what one chunk parses to

  predicate CarriesData(line: string) {
    "data:" <= line
  }

  /** `at` are the positions, in order, of exactly those lines that begin with `data:`. */
  ghost predicate DataAt(lines: seq<string>, at: seq<nat>) {
    PositionsOf(lines, CarriesData, at)
  }

  /** The payloads are what follows the field name on those lines, trimmed. */
  ghost predicate PayloadsAt(lines: seq<string>, at: seq<nat>, payloads: seq<string>)
    requires DataAt(lines, at)
  {
    |payloads| == |at| && forall i :: 0 <= i < |at| ==> payloads[i] == Trim(lines[at[i]][5..])
  }

  lemma DataLinesAre(lines: seq<string>, at: seq<nat>, payloads: seq<string>)
    requires DataAt(lines, at) && PayloadsAt(lines, at, payloads)
    ensures DataLines(lines) == payloads
  {
    assert forall l :: CarriesData(l) <==> StartsWithData(l);
    FilterAt(lines, StartsWithData, at);
    forall i | 0 <= i < |at| ensures DataLines(lines)[i] == payloads[i] {
      PayloadOfData(lines[at[i]]);
    }
  }

  lemma PayloadOfData(line: string)
    requires CarriesData(line)
    ensures PayloadOf(line) == Trim(line[5..])
  {
  }

  /**
   A chunk without spaces around it parses to what its data lines carry, trimmed and joined by
   line feeds, and to nothing when it has none or when that text is empty or the end mark.
   */
  lemma ParseMeans<E>(lines: seq<string>, at: seq<nat>, payloads: seq<string>, json: string -> Option<E>)
    requires lines != [] && forall l :: l in lines ==> '\n' !in l
    requires Trim(Join(lines, "\n")) == Join(lines, "\n")
    requires DataAt(lines, at) && PayloadsAt(lines, at, payloads)
    ensures
      var data := Trim(Join(payloads, "\n"));
      ParseChunk(Join(lines, "\n"), json) == if at == [] || data == "" || data == "[DONE]" then None else json(data)
  {
    SplitOfJoin(lines, '\n');
    DataLinesAre(lines, at, payloads);
    if Join(lines, "\n") == "" {
      EmptyCarriesNothing(lines, at);
    }
  }

  lemma EmptyCarriesNothing(lines: seq<string>, at: seq<nat>)
    requires lines != [] && Join(lines, "\n") == "" && DataAt(lines, at)
    ensures at == []
  {
    assert |lines| == 1 && lines[0] == "" && !CarriesData("");
    NoPosition(lines, CarriesData, at);
  }

  /** Spaces around a chunk do not count, and every chunk is some lines joined: `ParseMeans` speaks of all chunks. */
  lemma ParseTrims<E>(chunk: string, json: string -> Option<E>) returns (lines: seq<string>)
    ensures ParseChunk(chunk, json) == ParseChunk(Trim(chunk), json)
    ensures lines != [] && Join(lines, "\n") == Trim(chunk) && forall l :: l in lines ==> '\n' !in l
  {
    TrimTwice(chunk);
    lines := Split(Trim(chunk), '\n');
    JoinOfSplit(Trim(chunk), '\n');
  }

  // ----- a sender's frames come back as they were sent

  /** What a sender puts in one frame: other field lines, and a payload of any number of lines. */
  datatype Message = Message(headers: seq<string>, payload: string)

  predicate Line(l: string) {
    l != "" && '\n' !in l
  }

  /** The payload has content, is trimmed as a whole and line by line; the headers are lines without data. */
  predicate Sendable(m: Message) {
    && m.payload != "" && m.payload != "[DONE]"
    && !IsSpace(m.payload[0]) && !IsSpace(m.payload[|m.payload| - 1])
    && (forall l :: l in Split(m.payload, '\n') ==> Trim(l) == l)
    && (forall h :: h in m.headers ==> Line(h) && !CarriesData(h))
    && (m.headers != [] ==> m.headers[0] != "" && !IsSpace(m.headers[0][0]))
  }

  function DataFields(lines: seq<string>): (r: seq<string>)
    ensures |r| == |lines| && forall i :: 0 <= i < |lines| ==> r[i] == "data: " + lines[i]
  {
    if lines == [] then [] else DataFields(lines[..|lines| - 1]) + ["data: " + lines[|lines| - 1]]
  }

  /** The headers, then one data field per line of the payload. */
  function FieldLines(headers: seq<string>, payload: seq<string>): (r: seq<string>)
    ensures |r| == |headers| + |payload|
    ensures forall i :: 0 <= i < |headers| ==> r[i] == headers[i]
    ensures forall i :: |headers| <= i < |r| ==> r[i] == "data: " + payload[i - |headers|]
  {
    headers + DataFields(payload)
  }

  function FrameLines(m: Message): seq<string> {
    FieldLines(m.headers, Split(m.payload, '\n'))
  }

  function Frame(m: Message): string {
    Join(FrameLines(m), "\n")
  }

  function Encode(messages: seq<Message>): string {
    if messages == [] then "" else Frame(messages[0]) + SEPARATOR + Encode(messages[1..])
  }

  function Decoded<E>(messages: seq<Message>, json: string -> Option<E>): seq<E> {
    if messages == [] then [] else Yield(json(messages[0].payload)) + Decoded(messages[1..], json)
  }

  lemma FieldOfLine(l: string)
    requires Trim(l) == l && '\n' !in l
    ensures CarriesData("data: " + l) && Trim(("data: " + l)[5..]) == l && Line("data: " + l)
  {
    var field := "data: " + l;
    assert field[5..] == " " + l && (" " + l)[1..] == l;
    assert field[..5] == "data:";
    assert forall k :: 0 <= k < |field| ==> field[k] == if k < 6 then "data: "[k] else l[k - 6];
    assert forall k :: 6 <= k < |field| ==> field[k] in l;
  }

  /** Lines without data, then lines that carry the payload. */
  ghost predicate Carry(lines: seq<string>, first: nat, payload: seq<string>) {
    && |lines| == first + |payload|
    && (forall i :: 0 <= i < |lines| ==> Line(lines[i]))
    && (forall i :: 0 <= i < first ==> !CarriesData(lines[i]))
    && forall i :: first <= i < |lines| ==> CarriesData(lines[i]) && Trim(lines[i][5..]) == payload[i - first]
  }

  lemma FieldsCarry(headers: seq<string>, payload: seq<string>)
    requires forall h :: h in headers ==> Line(h) && !CarriesData(h)
    requires forall l :: l in payload ==> Trim(l) == l && '\n' !in l
    ensures Carry(FieldLines(headers, payload), |headers|, payload)
  {
    var lines := FieldLines(headers, payload);
    forall i | 0 <= i < |headers| ensures Line(lines[i]) && !CarriesData(lines[i]) {
      assert headers[i] in headers;
    }
    forall i | |headers| <= i < |lines|
      ensures Line(lines[i]) && CarriesData(lines[i]) && Trim(lines[i][5..]) == payload[i - |headers|]
    {
      assert payload[i - |headers|] in payload;
      FieldOfLine(payload[i - |headers|]);
    }
  }

  lemma CarriedAt(lines: seq<string>, first: nat, payload: seq<string>)
    requires Carry(lines, first, payload)
    ensures DataAt(lines, UpFrom(first, |payload|)) && PayloadsAt(lines, UpFrom(first, |payload|), payload)
  {
    var at := UpFrom(first, |payload|);
    PositionsUpFrom(lines, CarriesData, first, |payload|);
    forall i | 0 <= i < |at| ensures payload[i] == Trim(lines[at[i]][5..]) {
      assert at[i] == first + i;
    }
  }

  /** The lines of a frame: the headers, then one data field per line of the payload. */
  lemma FrameShape(m: Message)
    requires Sendable(m)
    ensures
      var lines, payload := FrameLines(m), Split(m.payload, '\n');
      && lines != [] && (forall l :: l in lines ==> Line(l))
      && DataAt(lines, UpFrom(|m.headers|, |payload|)) && PayloadsAt(lines, UpFrom(|m.headers|, |payload|), payload)
  {
    JoinOfSplit(m.payload, '\n');
    FieldsCarry(m.headers, Split(m.payload, '\n'));
    CarriedAt(FrameLines(m), |m.headers|, Split(m.payload, '\n'));
  }

  lemma PayloadEnds(m: Message)
    requires Sendable(m)
    ensures
      var payload := Split(m.payload, '\n');
      && payload != []
      && var last := payload[|payload| - 1]; last != "" && !IsSpace(last[|last| - 1])
  {
    var payload := Split(m.payload, '\n');
    JoinOfSplit(m.payload, '\n');
    if payload[|payload| - 1] == "" {
      EndsInSeparator(payload);
    } else {
      JoinLast(payload, "\n");
    }
  }

  lemma FrameStarts(m: Message)
    requires Sendable(m)
    ensures FrameLines(m) != [] && FrameLines(m)[0] != "" && !IsSpace(FrameLines(m)[0][0])
  {
    JoinOfSplit(m.payload, '\n');
    var fields := DataFields(Split(m.payload, '\n'));
    assert fields[0][0] == 'd';
    assert FrameLines(m)[0] == if m.headers == [] then fields[0] else m.headers[0];
  }

  lemma FieldEnds(payload: seq<string>)
    requires payload != [] && payload[|payload| - 1] != ""
    ensures
      var last, end := DataFields(payload)[|payload| - 1], payload[|payload| - 1];
      last != "" && last[|last| - 1] == end[|end| - 1]
  {
  }

  lemma FrameEnds(m: Message)
    requires Sendable(m)
    ensures
      var lines := FrameLines(m);
      lines != [] && var last := lines[|lines| - 1]; last != "" && !IsSpace(last[|last| - 1])
  {
    PayloadEnds(m);
    FieldEnds(Split(m.payload, '\n'));
    FrameLinesEnd(m);
  }

  lemma FrameLinesEnd(m: Message)
    requires Split(m.payload, '\n') != []
    ensures
      var lines, fields := FrameLines(m), DataFields(Split(m.payload, '\n'));
      lines != [] && lines[|lines| - 1] == fields[|fields| - 1]
  {
  }

  lemma FrameIsTrimmed(m: Message)
    requires Sendable(m)
    ensures Trim(Frame(m)) == Frame(m)
  {
    FrameStarts(m);
    FrameEnds(m);
    JoinEnds(FrameLines(m), "\n");
    NothingToTrim(Frame(m));
  }

  lemma {:induction false} EndsInSeparator(lines: seq<string>)
    requires lines != [] && lines[|lines| - 1] == ""
    ensures Join(lines, "\n") == "" || Join(lines, "\n")[|Join(lines, "\n")| - 1] == '\n'
  {
    if |lines| > 1 {
      EndsInSeparator(lines[1..]);
    }
  }

  lemma FrameParses<E>(m: Message, json: string -> Option<E>)
    requires Sendable(m)
    ensures ParseChunk(Frame(m), json) == json(m.payload)
  {
    var payload := Split(m.payload, '\n');
    FrameShape(m);
    FrameIsTrimmed(m);
    JoinOfSplit(m.payload, '\n');
    NothingToTrim(m.payload);
    ParseMeans(FrameLines(m), UpFrom(|m.headers|, |payload|), payload, json);
  }

  lemma {:induction false} LineBeforeSeparator(s: string, rest: string)
    requires '\n' !in s
    ensures FirstSeparator(s + SEPARATOR + rest) == |s|
  {
    var all := s + SEPARATOR + rest;
    if s == "" {
      assert SeparatorAt(all, 0);
    } else {
      assert all[0] == s[0] && s[0] in s;
      assert all[1..] == s[1..] + SEPARATOR + rest;
      LineBeforeSeparator(s[1..], rest);
    }
  }

  lemma {:induction false} LineBeforeLine(s: string, rest: string)
    requires Line(s) && rest != "" && rest[0] != '\n'
    ensures FirstSeparator(s + "\n" + rest) == |s| + 1 + FirstSeparator(rest)
  {
    var all := s + "\n" + rest;
    assert s[0] in s && all[0] == s[0];
    if |s| == 1 {
      assert all[1..] == "\n" + rest;
      var tail := "\n" + rest;
      assert tail[1] == rest[0] && tail[1..] == rest;
      assert |rest| == 1 ==> FirstSeparator(rest) == 1 && !SeparatorAt(tail, 0);
    } else {
      assert all[1..] == s[1..] + "\n" + rest;
      LineBeforeLine(s[1..], rest);
    }
  }

  /** Lines with content joined by single line feeds hold no separator. */
  lemma {:induction false} LinesBeforeSeparator(lines: seq<string>, rest: string)
    requires lines != [] && forall l :: l in lines ==> Line(l)
    ensures FirstSeparator(Join(lines, "\n") + SEPARATOR + rest) == |Join(lines, "\n")|
  {
    assert lines[0] in lines;
    if |lines| == 1 {
      LineBeforeSeparator(lines[0], rest);
    } else {
      LinesBeforeSeparator(lines[1..], rest);
      assert lines[1] in lines;
      var tail := Join(lines[1..], "\n");
      assert tail != "" && tail[0] == lines[1][0] && lines[1][0] in lines[1];
      LineBeforeLine(lines[0], tail + SEPARATOR + rest);
      assert Join(lines, "\n") + SEPARATOR + rest == lines[0] + "\n" + (tail + SEPARATOR + rest);
    }
  }

  function Frames(messages: seq<Message>): seq<string> {
    if messages == [] then [] else [Frame(messages[0])] + Frames(messages[1..])
  }

  lemma {:induction false} EncodePieces(messages: seq<Message>)
    requires forall m :: m in messages ==> Sendable(m)
    ensures Pieces(Encode(messages)) == Frames(messages)
    ensures Remainder(Encode(messages)) == ""
  {
    if messages != [] {
      assert Sendable(messages[0]);
      var frame, rest := Frame(messages[0]), Encode(messages[1..]);
      FrameShape(messages[0]);
      LinesBeforeSeparator(FrameLines(messages[0]), rest);
      EncodePieces(messages[1..]);
      CutAfter(frame, rest);
    }
  }

  lemma CutAfter(frame: string, rest: string)
    requires FirstSeparator(frame + SEPARATOR + rest) == |frame|
    ensures Pieces(frame + SEPARATOR + rest) == [frame] + Pieces(rest)
    ensures Remainder(frame + SEPARATOR + rest) == Remainder(rest)
  {
    var all := frame + SEPARATOR + rest;
    CutOne(all);
    assert all[..|frame|] == frame && all[|frame| + 2..] == rest;
  }

  lemma EventsOne<E>(piece: string, json: string -> Option<E>)
    ensures Events([piece], json) == Yield(ParseChunk(piece, json))
  {
    var one := [piece];
    assert one[..|one| - 1] == [];
    assert Events([], json) == [];
  }

  lemma EventsCons<E>(piece: string, more: seq<string>, json: string -> Option<E>)
    ensures Events([piece] + more, json) == Yield(ParseChunk(piece, json)) + Events(more, json)
  {
    EventsAppend([piece], more, json);
    EventsOne(piece, json);
  }

  lemma {:induction false} EventsOfFrames<E>(messages: seq<Message>, json: string -> Option<E>)
    requires forall m :: m in messages ==> Sendable(m)
    ensures Events(Frames(messages), json) == Decoded(messages, json)
  {
    if messages != [] {
      var first, more := messages[0], messages[1..];
      assert Sendable(first);
      calc {
        Events(Frames(messages), json);
        Events([Frame(first)] + Frames(more), json);
        { EventsCons(Frame(first), Frames(more), json); }
        Yield(ParseChunk(Frame(first), json)) + Events(Frames(more), json);
        { FrameParses(first, json); EventsOfFrames(more, json); }
        Yield(json(first.payload)) + Decoded(more, json);
      }
    }
  }

  /** Round trip: one event per message sent, in order, however the stream was chunked. */
  lemma {:induction false} FramesRoundTrip<E>(messages: seq<Message>, chunks: seq<string>, json: string -> Option<E>)
    requires forall m :: m in messages ==> Sendable(m)
    requires Concat(chunks) == Encode(messages)
    ensures StreamEvents(Concat(chunks), json) == Decoded(messages, json)
  {
    EncodePieces(messages);
    EventsOfFrames(messages, json);
    var pieces := Frames(messages);
    assert (pieces + [""])[..|pieces|] == pieces;
    assert ParseChunk("", json) == None;
  }

  /** The same when the stream ends right after the last frame, with no blank line behind it. */
  lemma TrailingFrameRead<E>(messages: seq<Message>, last: Message, chunks: seq<string>, json: string -> Option<E>)
    requires Sendable(last) && forall m :: m in messages ==> Sendable(m)
    requires Concat(chunks) == Encode(messages) + Frame(last)
    ensures StreamEvents(Concat(chunks), json) == Decoded(messages, json) + Yield(json(last.payload))
  {
    EncodePieces(messages);
    EventsOfFrames(messages, json);
    PiecesExtend(Encode(messages), Frame(last));
    FrameUncut(last);
    assert "" + Frame(last) == Frame(last);
    var pieces := Frames(messages);
    assert pieces + [] == pieces;
    assert (pieces + [Frame(last)])[..|pieces|] == pieces;
    FrameParses(last, json);
  }

  lemma FrameUncut(m: Message)
    requires Sendable(m)
    ensures FirstSeparator(Frame(m)) == |Frame(m)| && Pieces(Frame(m)) == [] && Remainder(Frame(m)) == Frame(m)
  {
    FrameShape(m);
    LinesBeforeSeparator(FrameLines(m), "");
    var frame := Frame(m);
    NoSeparatorBefore(frame + SEPARATOR + "", |frame|);
    assert (frame + SEPARATOR + "")[..|frame|] == frame;
  }

  /** Stopping early keeps a prefix: the events of a stream begin with the pieces already complete. */
  lemma EventsGrow<E>(seen: string, more: string, json: string -> Option<E>)
    ensures Events(Pieces(seen), json) <= StreamEvents(seen + more, json)
  {
    PiecesExtend(seen, more);
    EventsAppend(Pieces(seen), Pieces(Remainder(seen) + more), json);
    var all := Pieces(seen + more);
    assert (all + [Remainder(seen + more)])[..|all|] == all;
  }
}
