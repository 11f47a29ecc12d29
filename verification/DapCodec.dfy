/**
 Frames of the Debug Adapter Protocol ("Base Protocol" in its overview): the incremental
 decoder, the encoder, and the proof that they undo each other however the bytes arrive.
 */
module DapCodec {
  import opened Wrappers
  import opened Search
  import opened Text
  import opened Utf8
  import opened Framing

  const MAX_FRAME_BYTES := 0x10_0000
  const MAX_BUFFER_BYTES := 2 * MAX_FRAME_BYTES
  const READ_BYTES := 8192
  const MAX_USIZE := 0xFFFF_FFFF_FFFF_FFFF

  /** JSON values as the codec uses them. */
  datatype Json<!V> = Json(parse: Bytes -> Option<V>, isObject: V -> bool, serialise: V -> Bytes)

  datatype DapError =
    | BufferFull
    | HeaderNotUtf8
    | MalformedHeader
    | DuplicateLength
    | InvalidLength
    | MissingLength
    | FrameTooLarge
    | InvalidJson
    | NotAnObject

  // ---------------------------------------------------------------- header lines

  const LINE_END := "\r\n"

  function Lines(text: string): (lines: seq<string>)
    ensures lines != []
    decreases |text|
  {
    var at := Find(text, LINE_END);
    if at.None? then [text] else [text[..at.value]] + Lines(text[at.value + 2..])
  }

  /** The name and value of a header line, at its first colon. */
  function Field(line: string): (field: Option<(string, string)>)
    ensures field.Some? ==> line == field.value.0 + ":" + field.value.1
  {
    var at := Find(line, ":");
    if at.None? then None
    else
      assert line[at.value..at.value + 1] == ":";
      Some((line[..at.value], line[at.value + 1..]))
  }

  // ---------------------------------------------------------------- the content length

  function LowerUnit(c: char): char {
    if 'A' <= c <= 'Z' then (c as int + 32) as char else c
  }

  function Lower(text: string): (lower: string)
    ensures |lower| == |text| && forall i :: 0 <= i < |text| ==> lower[i] == LowerUnit(text[i])
  {
    seq(|text|, i requires 0 <= i < |text| => LowerUnit(text[i]))
  }

  predicate NamesLength(name: string) {
    Lower(Trim(name, WHITE_SPACE)) == "content-length"
  }

  predicate IsDigit(c: char) {
    '0' <= c <= '9'
  }

  function DigitValue(c: char): nat
    requires IsDigit(c)
  {
    c as int - '0' as int
  }

  function Number(digits: string): nat
    requires forall i :: 0 <= i < |digits| ==> IsDigit(digits[i])
  {
    if digits == "" then 0 else Number(digits[..|digits| - 1]) * 10 + DigitValue(digits[|digits| - 1])
  }

  /** A machine word in decimal, with an optional plus sign. */
  function ParseSize(text: string): Option<nat> {
    var digits := if |text| > 1 && text[0] == '+' then text[1..] else text;
    if digits == "" || (exists i :: 0 <= i < |digits| && !IsDigit(digits[i])) || Number(digits) > MAX_USIZE
    then None else Some(Number(digits))
  }

  predicate IsLengthLine(line: string) {
    Field(line).Some? && NamesLength(Field(line).value.0)
  }

  function LengthOf(line: string): Option<nat>
    requires IsLengthLine(line)
  {
    ParseSize(Trim(Field(line).value.1, WHITE_SPACE))
  }

  /** The lines in order, from the length seen so far. */
  function Scan(lines: seq<string>, length: Option<nat>): Result<nat, DapError> {
    if lines == [] then if length.None? then Err(MissingLength) else Ok(length.value)
    else if Field(lines[0]).None? then Err(MalformedHeader)
    else if !IsLengthLine(lines[0]) then Scan(lines[1..], length)
    else if length.Some? then Err(DuplicateLength)
    else if LengthOf(lines[0]).None? then Err(InvalidLength)
    else Scan(lines[1..], LengthOf(lines[0]))
  }

  function ContentLength(header: string): Result<nat, DapError> {
    Scan(Lines(header), None)
  }

  method ParseContentLength(header: string) returns (parsed: Result<nat, DapError>)
    ensures parsed == ContentLength(header)
  {
    var lines := Lines(header);
    var length: Option<nat> := None;
    for i := 0 to |lines|
      invariant Scan(lines[i..], length) == ContentLength(header)
    {
      assert lines[i..][0] == lines[i] && lines[i..][1..] == lines[i + 1..];
      var field := Field(lines[i]);
      if field.None? { return Err(MalformedHeader); }
      if NamesLength(field.value.0) {
        if length.Some? { return Err(DuplicateLength); }
        length := ParseSize(Trim(field.value.1, WHITE_SPACE));
        if length.None? { return Err(InvalidLength); }
      }
    }
    if length.None? { return Err(MissingLength); }
    return Ok(length.value);
  }

  /** A header gives a length if and only if every line has a colon and exactly one line is a
      content length, with a valid number. */
  lemma {:induction false} LengthIsUnique(lines: seq<string>, n: nat)
    ensures Scan(lines, None) == Ok(n) <==>
            (forall line :: line in lines ==> Field(line).Some?) && exists i :: IsOnlyLength(lines, i, n)
  {
    if lines != [] && Field(lines[0]).Some? {
      if IsLengthLine(lines[0]) {
        OnlyLengthAtHead(lines, n);
        if LengthOf(lines[0]).Some? { NoSecondLength(lines[1..], LengthOf(lines[0]).value); }
      } else {
        OnlyLengthLater(lines, n);
        LengthIsUnique(lines[1..], n);
      }
      assert lines == [lines[0]] + lines[1..];
    }
  }

  /** The line at i is the only one that gives a length, and gives n. */
  predicate IsOnlyLength(lines: seq<string>, i: int, n: nat) {
    && 0 <= i < |lines| && IsLengthLine(lines[i]) && LengthOf(lines[i]) == Some(n)
    && forall j :: 0 <= j < |lines| && j != i ==> !IsLengthLine(lines[j])
  }

  lemma OnlyLengthAtHead(lines: seq<string>, n: nat)
    requires lines != [] && IsLengthLine(lines[0])
    ensures (exists i :: IsOnlyLength(lines, i, n)) <==>
            LengthOf(lines[0]) == Some(n) && forall line :: line in lines[1..] ==> !IsLengthLine(line)
  {
    if LengthOf(lines[0]) == Some(n) && forall line :: line in lines[1..] ==> !IsLengthLine(line) {
      assert forall j :: 0 < j < |lines| ==> lines[j] == lines[1..][j - 1];
      assert IsOnlyLength(lines, 0, n);
    }
    if i :| IsOnlyLength(lines, i, n) {
      assert i == 0;
    }
  }

  lemma OnlyLengthLater(lines: seq<string>, n: nat)
    requires lines != [] && !IsLengthLine(lines[0])
    ensures (exists i :: IsOnlyLength(lines, i, n)) <==> exists i :: IsOnlyLength(lines[1..], i, n)
  {
    if i :| IsOnlyLength(lines, i, n) {
      assert IsOnlyLength(lines[1..], i - 1, n);
    }
    if i :| IsOnlyLength(lines[1..], i, n) {
      assert forall j :: 0 < j < |lines| ==> lines[j] == lines[1..][j - 1];
      assert IsOnlyLength(lines, i + 1, n);
    }
  }

  lemma {:induction false} NoSecondLength(lines: seq<string>, length: nat)
    ensures Scan(lines, Some(length)) == Ok(length) <==>
            forall line :: line in lines ==> Field(line).Some? && !IsLengthLine(line)
    ensures Scan(lines, Some(length)).Ok? ==> Scan(lines, Some(length)) == Ok(length)
  {
    if lines != [] {
      NoSecondLength(lines[1..], length);
      assert lines == [lines[0]] + lines[1..];
    }
  }

  // ---------------------------------------------------------------- decoding

  const HEADER_END: Bytes := [13, 10, 13, 10]

  function HeaderLength(bytes: Bytes): Result<nat, DapError> {
    var header := DecodeUtf8(bytes);
    if header.None? then Err(HeaderNotUtf8)
    else
      var length := ContentLength(header.value);
      if length.Err? then length
      else if length.value > MAX_FRAME_BYTES then Err(FrameTooLarge)
      else length
  }

  function BodyStep<V>(json: Json<V>, buffer: Bytes, start: nat, end: nat): (step: Step<V, DapError>)
    requires start <= end <= |buffer|
    ensures !step.Waiting? && (step.Item? ==> step.size == end)
  {
    var value := json.parse(buffer[start..end]);
    if value.None? then Broken(InvalidJson)
    else if !json.isObject(value.value) then Broken(NotAnObject)
    else Item(value.value, end)
  }

  /** The step once the header has been read and the body begins at start. */
  function HeadedStep<V>(json: Json<V>, buffer: Bytes, start: nat, length: Result<nat, DapError>):
    (step: Step<V, DapError>)
    ensures step.Item? ==> start <= step.size <= |buffer|
  {
    if length.Err? then Broken(length.error)
    else if |buffer| < start + length.value then Waiting
    else BodyStep(json, buffer, start, start + length.value)
  }

  function NextStep<V>(json: Json<V>, buffer: Bytes): (step: Step<V, DapError>)
    ensures step.Item? ==> 4 <= step.size <= |buffer|
  {
    var at := Find(buffer, HEADER_END);
    if at.None? then Waiting
    else HeadedStep(json, buffer, at.value + 4, HeaderLength(buffer[..at.value]))
  }

  /** The decoder as a splitter of its stream. */
  function Messages<V>(json: Json<V>): (next: Splitter<Byte, V, DapError>)
    ensures Advances(next)
  {
    (buffer: Bytes) => NextStep(json, buffer)
  }

  /** What a feed gives, in terms of the drain of all that is buffered. */
  lemma FedIs<V>(json: Json<V>, buffer: Bytes, bytes: Bytes, drained: Drained<Byte, V, DapError>)
    requires |buffer| + |bytes| <= MAX_BUFFER_BYTES && drained == Drain(Messages(json), buffer + bytes)
    ensures Fed(Messages(json), buffer, bytes) ==
            (if drained.error.Some? then Err(drained.error.value) else Ok(drained.values), drained.rest)
  {
  }

  class DapFrameDecoder<!V> {
    const json: Json<V>
    var buffer: Bytes

    constructor (json: Json<V>)
      ensures this.json == json && buffer == []
    {
      this.json := json;
      buffer := [];
    }

    /** The head of the decoding loop: looks at the front of the buffer. */
    method Look() returns (step: Step<V, DapError>)
      ensures step == NextStep(json, buffer)
    {
      var at := Find(buffer, HEADER_END);
      if at.None? { return Waiting; }
      var header := DecodeUtf8(buffer[..at.value]);
      if header.None? { return Broken(HeaderNotUtf8); }
      var length := ParseContentLength(header.value);
      if length.Err? { return Broken(length.error); }
      if length.value > MAX_FRAME_BYTES { return Broken(FrameTooLarge); }
      var start := at.value + 4;
      var end := start + length.value;
      if |buffer| < end { return Waiting; }
      var value := json.parse(buffer[start..end]);
      if value.None? { return Broken(InvalidJson); }
      if !json.isObject(value.value) { return Broken(NotAnObject); }
      return Item(value.value, end);
    }

    /** Takes bytes in and gives out the messages they complete. After an error the messages
        decoded by the same call are lost. */
    method Feed(bytes: Bytes) returns (fed: Result<seq<V>, DapError>)
      modifies this`buffer
      ensures fed == Fed(Messages(json), old(buffer), bytes).0
      ensures buffer == Fed(Messages(json), old(buffer), bytes).1
    {
      if |buffer| + |bytes| > MAX_BUFFER_BYTES { return Err(BufferFull); }
      buffer := buffer + bytes;
      ghost var next := Messages(json);
      ghost var all := Drain(next, buffer);
      var values: seq<V> := [];
      AfterIsAssociative([], [], all);
      var step := Look();
      while step.Item?
        invariant step == next(buffer)
        invariant all == After(values, Drain(next, buffer))
        decreases |buffer|
      {
        TakeItem(next, all, values, buffer);
        values := values + [step.value];
        buffer := buffer[step.size..];
        step := Look();
      }
      NoMoreItems(next, all, values, buffer);
      FedIs(json, old(buffer), bytes, all);
      if step.Broken? { return Err(step.error); }
      return Ok(values);
    }
  }

  /** The specification of one feed: the result and the buffer it leaves. */
  function Fed<V>(next: Splitter<Byte, V, DapError>, buffer: Bytes, bytes: Bytes): (Result<seq<V>, DapError>, Bytes)
    requires Advances(next)
  {
    if |buffer| + |bytes| > MAX_BUFFER_BYTES then (Err(BufferFull), buffer)
    else
      var drained := Drain(next, buffer + bytes);
      (if drained.error.Some? then Err(drained.error.value) else Ok(drained.values), drained.rest)
  }

  // ---------------------------------------------------------------- fragmentation

  lemma StepIsStable<V>(json: Json<V>, buffer: Bytes, more: Bytes)
    requires !NextStep(json, buffer).Waiting?
    ensures NextStep(json, buffer + more) == NextStep(json, buffer)
  {
    FindIsStable(buffer, more, HEADER_END);
    var at := Find(buffer, HEADER_END).value;
    SliceStays(buffer, more, 0, at);
    HeadedStepStays(json, buffer, more, at + 4, HeaderLength(buffer[..at]));
  }

  lemma HeadedStepStays<V>(json: Json<V>, buffer: Bytes, more: Bytes, start: nat, length: Result<nat, DapError>)
    requires !HeadedStep(json, buffer, start, length).Waiting?
    ensures HeadedStep(json, buffer + more, start, length) == HeadedStep(json, buffer, start, length)
  {
    if length.Ok? { SliceStays(buffer, more, start, start + length.value); }
  }

  lemma SliceStays(buffer: Bytes, more: Bytes, start: nat, end: nat)
    requires start <= end <= |buffer|
    ensures (buffer + more)[start..end] == buffer[start..end]
  {
  }

  lemma MessagesAreStable<V>(json: Json<V>)
    ensures Stable(Messages(json))
  {
    var next := Messages(json);
    forall buffer, more | !next(buffer).Waiting? ensures next(buffer + more) == next(buffer) {
      StepIsStable(json, buffer, more);
    }
  }

  /** Feeding bytes in two parts gives the same messages and the same buffer as feeding them
      at once, whenever that succeeds. */
  lemma FeedInParts<V>(json: Json<V>, buffer: Bytes, first: Bytes, second: Bytes)
    requires Fed(Messages(json), buffer, first + second).0.Ok?
    ensures var (one, left) := Fed(Messages(json), buffer, first);
            var (two, rest) := Fed(Messages(json), left, second);
            one.Ok? && two.Ok? && Fed(Messages(json), buffer, first + second) == (Ok(one.value + two.value), rest)
  {
    assert buffer + (first + second) == buffer + first + second;
    MessagesAreStable(json);
    DrainInParts(Messages(json), buffer + first, second);
  }

  // ---------------------------------------------------------------- encoding

  function Decimal(n: nat): (digits: string)
    ensures digits != "" && forall i :: 0 <= i < |digits| ==> IsDigit(digits[i])
    ensures Number(digits) == n
  {
    var last := ('0' as int + n % 10) as char;
    var digits := if n < 10 then [last] else Decimal(n / 10) + [last];
    assert n < 10 ==> digits[..0] == "";
    assert n >= 10 ==> digits[..|digits| - 1] == Decimal(n / 10);
    digits
  }

  function HeaderText(length: nat): (header: string)
    ensures IsAscii(header)
  {
    "Content-Length: " + Decimal(length)
  }

  function Frame(body: Bytes): Bytes {
    Ascii(HeaderText(|body|)) + HEADER_END + body
  }

  function EncodeMessage<V>(json: Json<V>, message: V): Result<Bytes, DapError> {
    if !json.isObject(message) then Err(NotAnObject)
    else if |json.serialise(message)| > MAX_FRAME_BYTES then Err(FrameTooLarge)
    else Ok(Frame(json.serialise(message)))
  }

  lemma DigitIsNoSpace(c: char)
    requires IsDigit(c)
    ensures c !in WHITE_SPACE
  {
  }

  /** Text that neither begins nor ends with white space is its own trimming. */
  lemma TrimIsIdle(text: string, space: set<char>)
    requires text != "" && text[0] !in space && text[|text| - 1] !in space
    ensures Trim(text, space) == text
  {
  }

  lemma SizeIsParsed(length: nat)
    requires length <= MAX_USIZE
    ensures ParseSize(Trim(" " + Decimal(length), WHITE_SPACE)) == Some(length)
  {
    var digits := Decimal(length);
    var value := " " + digits;
    assert value[1..] == digits;
    DigitIsNoSpace(digits[0]);
    DigitIsNoSpace(digits[|digits| - 1]);
    TrimIsIdle(digits, WHITE_SPACE);
    assert TrimStart(value, WHITE_SPACE) == TrimStart(digits, WHITE_SPACE);
    assert !IsDigit('+');
  }

  const LENGTH_NAME := "Content-Length"

  lemma NameIsRead()
    ensures NamesLength(LENGTH_NAME)
  {
    TrimIsIdle(LENGTH_NAME, WHITE_SPACE);
  }

  lemma HeaderLines(length: nat)
    ensures Lines(HeaderText(length)) == [HeaderText(length)]
    ensures Field(HeaderText(length)) == Some((LENGTH_NAME, " " + Decimal(length)))
  {
    var header := HeaderText(length);
    assert forall i :: 0 <= i < |header| ==> header[i] != '\r' && (i < 14 ==> header[i] != ':');
    forall i ensures !OccursAt(header, LINE_END, i) {
      if 0 <= i <= |header| - 2 { assert header[i..i + 2][0] == header[i]; }
    }
    forall i | i < 14 ensures !OccursAt(header, ":", i) {
      if 0 <= i { assert header[i..i + 1][0] == header[i]; }
    }
    assert header[14..15] == ":";
    FindIsFirst(header, ":", 14);
    assert header[..14] == LENGTH_NAME;
    assert header[15..] == " " + Decimal(length);
  }

  lemma HeaderIsParsed(length: nat)
    requires length <= MAX_FRAME_BYTES
    ensures HeaderLength(Ascii(HeaderText(length))) == Ok(length)
  {
    var header := HeaderText(length);
    AsciiDecodes(header);
    HeaderLines(length);
    NameIsRead();
    SizeIsParsed(length);
    assert IsLengthLine(header) && LengthOf(header) == Some(length);
    assert Scan([header], None) == Scan([header][1..], Some(length));
  }

  // ---------------------------------------------------------------- round trip

  /** Messages the encoder accepts and JSON brings back. */
  ghost predicate Encodable<V>(json: Json<V>, message: V) {
    EncodeMessage(json, message).Ok? && json.parse(json.serialise(message)) == Some(message)
  }

  function Encoded<V>(json: Json<V>, messages: seq<V>): Bytes {
    if messages == [] then [] else Frame(json.serialise(messages[0])) + Encoded(json, messages[1..])
  }

  /** The blank line ends the header, and occurs nowhere before. */
  lemma HeaderEndIsFirst(length: nat, rest: Bytes)
    ensures Find(Ascii(HeaderText(length)) + HEADER_END + rest, HEADER_END) == Some(|HeaderText(length)|)
  {
    var header := Ascii(HeaderText(length));
    var all := header + HEADER_END + rest;
    var text := HeaderText(length);
    assert forall i :: 0 <= i < |text| ==> text[i] != '\r';
    forall i | i < |header| ensures !OccursAt(all, HEADER_END, i) {
      if 0 <= i <= |all| - 4 { assert all[i..i + 4][0] == all[i] == header[i]; }
    }
    assert all[|header|..|header| + 4] == HEADER_END;
    FindIsFirst(all, HEADER_END, |header|);
  }

  lemma FrameIsRead<V>(json: Json<V>, message: V, rest: Bytes)
    requires Encodable(json, message)
    ensures var frame := Frame(json.serialise(message));
            NextStep(json, frame + rest) == Item(message, |frame|)
  {
    var body := json.serialise(message);
    var header := Ascii(HeaderText(|body|));
    var buffer := Frame(body) + rest;
    assert buffer == header + HEADER_END + (body + rest);
    HeaderEndIsFirst(|body|, body + rest);
    HeaderIsParsed(|body|);
    assert buffer[..|header|] == header;
    assert buffer[|header| + 4..|header| + 4 + |body|] == body;
  }

  /** A frame that has not arrived completely is waited for. */
  lemma PartIsAwaited<V>(json: Json<V>, message: V, part: Bytes)
    requires Encodable(json, message) && part < Frame(json.serialise(message))
    ensures NextStep(json, part).Waiting?
  {
    var body := json.serialise(message);
    var header := Ascii(HeaderText(|body|));
    var text := HeaderText(|body|);
    if |part| < |header| + 4 {
      assert forall i :: 0 <= i < |text| ==> text[i] != '\r';
      forall i ensures !OccursAt(part, HEADER_END, i) {
        if 0 <= i <= |part| - 4 { assert part[i..i + 4][0] == part[i] == header[i]; }
      }
    } else {
      var arrived := part[|header| + 4..];
      assert part == header + HEADER_END + arrived;
      HeaderEndIsFirst(|body|, arrived);
      HeaderIsParsed(|body|);
      assert part[..|header|] == header;
    }
  }

  lemma {:induction false} DecimalIsShort(n: nat, digits: nat, bound: nat)
    requires n < bound && 1 <= digits && bound == Power10(digits)
    ensures |Decimal(n)| <= digits
  {
    if digits > 1 && n >= 10 { DecimalIsShort(n / 10, digits - 1, bound / 10); }
  }

  function Power10(digits: nat): nat {
    if digits == 0 then 1 else 10 * Power10(digits - 1)
  }

  /** Room for the header of the longest frame. */
  const HEADER_BYTES := 27

  lemma FramesAreBounded<V>(json: Json<V>, message: V)
    requires Encodable(json, message)
    ensures |Frame(json.serialise(message))| <= HEADER_BYTES + MAX_FRAME_BYTES
  {
    assert Power10(7) == 10_000_000;
    DecimalIsShort(|json.serialise(message)|, 7, 10_000_000);
  }

  lemma FrameDrains<V>(json: Json<V>, message: V, rest: Bytes)
    requires Encodable(json, message)
    ensures Drain(Messages(json), Frame(json.serialise(message)) + rest)
            == After([message], Drain(Messages(json), rest))
  {
    var frame := Frame(json.serialise(message));
    FrameIsRead(json, message, rest);
    DrainUnfolds(Messages(json), frame + rest);
    assert (frame + rest)[|frame|..] == rest;
  }

  lemma PartDrains<V>(json: Json<V>, message: V, part: Bytes)
    requires Encodable(json, message) && part < Frame(json.serialise(message))
    ensures Drain(Messages(json), part) == Drained([], part, None)
  {
    PartIsAwaited(json, message, part);
    DrainUnfolds(Messages(json), part);
  }

  lemma NothingDrains<V>(json: Json<V>)
    ensures Drain(Messages(json), []) == Drained([], [], None)
  {
    var empty: Bytes := [];
    assert Find(empty, HEADER_END).None?;
    DrainUnfolds(Messages(json), empty);
  }

  lemma OneThenTheRest<V>(messages: seq<V>)
    requires messages != []
    ensures After([messages[0]], Drained<Byte, V, DapError>.Drained(messages[1..], [], None))
            == Drained(messages, [], None)
  {
    assert [messages[0]] + messages[1..] == messages;
  }

  lemma RestIsEncodable<V>(json: Json<V>, messages: seq<V>)
    requires messages != [] && forall m :: m in messages ==> Encodable(json, m)
    ensures Encodable(json, messages[0]) && forall m :: m in messages[1..] ==> Encodable(json, m)
  {
  }

  /** Draining encoded messages gives exactly the messages, and leaves nothing. */
  lemma {:induction false} EncodedDrains<V>(json: Json<V>, messages: seq<V>)
    requires forall m :: m in messages ==> Encodable(json, m)
    ensures Drain(Messages(json), Encoded(json, messages)) == Drained(messages, [], None)
    decreases |messages|
  {
    if messages == [] {
      NothingDrains(json);
    } else {
      RestIsEncodable(json, messages);
      EncodedDrains(json, messages[1..]);
      FrameDrains(json, messages[0], Encoded(json, messages[1..]));
      OneThenTheRest(messages);
    }
  }

  /** Draining the first bytes of encoded messages fails in no way, and leaves less than a frame. */
  ghost predicate LeavesPart<V>(drained: Drained<Byte, V, DapError>) {
    drained.error.None? && |drained.rest| <= HEADER_BYTES + MAX_FRAME_BYTES
  }

  lemma {:induction false} PrefixDrains<V>(json: Json<V>, messages: seq<V>, part: Bytes)
    requires (forall m :: m in messages ==> Encodable(json, m)) && part <= Encoded(json, messages)
    ensures LeavesPart(Drain(Messages(json), part))
    decreases |messages|
  {
    if messages == [] {
      NothingDrains(json);
      assert part == [];
    } else {
      var frame := Frame(json.serialise(messages[0]));
      FramesAreBounded(json, messages[0]);
      if |part| < |frame| {
        assert part == Encoded(json, messages)[..|part|] == frame[..|part|];
        PartDrains(json, messages[0], part);
      } else {
        var later := part[|frame|..];
        assert part == frame + later;
        assert later <= Encoded(json, messages[1..]) by {
          assert later == Encoded(json, messages)[..|part|][|frame|..];
        }
        FrameDrains(json, messages[0], later);
        PrefixDrains(json, messages[1..], later);
      }
    }
  }

  /** What a client of the decoder sees while pieces of the stream arrive. */
  ghost predicate Arrived<V>(json: Json<V>, arrived: Bytes, values: seq<V>, buffer: Bytes) {
    Drain(Messages(json), arrived) == Drained(values, buffer, None)
  }

  /** Pieces of at most one read never overflow the buffer of a decoder in the middle of a stream
      of encoded messages, and never fail. */
  lemma PieceIsTaken<V>(json: Json<V>, messages: seq<V>, arrived: Bytes, values: seq<V>, buffer: Bytes, piece: Bytes)
    requires forall m :: m in messages ==> Encodable(json, m)
    requires arrived + piece <= Encoded(json, messages) && |piece| <= READ_BYTES
    requires Arrived(json, arrived, values, buffer)
    ensures var (fed, rest) := Fed(Messages(json), buffer, piece);
            fed.Ok? && Arrived(json, arrived + piece, values + fed.value, rest)
  {
    assert arrived <= Encoded(json, messages) by {
      assert arrived == (arrived + piece)[..|arrived|];
    }
    PrefixDrains(json, messages, arrived);
    PrefixDrains(json, messages, arrived + piece);
    MessagesAreStable(json);
    DrainInParts(Messages(json), arrived, piece);
    FedIs(json, buffer, piece, Drain(Messages(json), buffer + piece));
  }

  /** A new decoder fed with pieces until an error: what it gave out and what it holds. */
  function FeedAll<V>(next: Splitter<Byte, V, DapError>, pieces: seq<Bytes>): Drained<Byte, V, DapError>
    requires Advances(next)
  {
    if pieces == [] then Drained([], [], None)
    else
      var before := FeedAll(next, pieces[..|pieces| - 1]);
      if before.error.Some? then before
      else
        var (fed, rest) := Fed(next, before.rest, pieces[|pieces| - 1]);
        if fed.Err? then Drained(before.values, rest, Some(fed.error))
        else Drained(before.values + fed.value, rest, None)
  }

  lemma EarlierPieces<V>(json: Json<V>, messages: seq<V>, pieces: seq<Bytes>)
    requires pieces != [] && Flatten(pieces) <= Encoded(json, messages)
    requires forall piece :: piece in pieces ==> |piece| <= READ_BYTES
    ensures Flatten(pieces[..|pieces| - 1]) <= Encoded(json, messages)
    ensures Flatten(pieces[..|pieces| - 1]) + pieces[|pieces| - 1] == Flatten(pieces)
    ensures |pieces[|pieces| - 1]| <= READ_BYTES
    ensures forall piece :: piece in pieces[..|pieces| - 1] ==> |piece| <= READ_BYTES
  {
    var before := Flatten(pieces[..|pieces| - 1]);
    assert before == Flatten(pieces)[..|before|];
    assert pieces[|pieces| - 1] in pieces;
  }

  lemma {:induction false} PiecesArrive<V>(json: Json<V>, messages: seq<V>, pieces: seq<Bytes>)
    requires forall m :: m in messages ==> Encodable(json, m)
    requires Flatten(pieces) <= Encoded(json, messages)
    requires forall piece :: piece in pieces ==> |piece| <= READ_BYTES
    ensures var fed := FeedAll(Messages(json), pieces);
            fed.error.None? && Arrived(json, Flatten(pieces), fed.values, fed.rest)
    decreases |pieces|
  {
    if pieces == [] {
      NothingDrains(json);
    } else {
      var before := pieces[..|pieces| - 1];
      var last := pieces[|pieces| - 1];
      EarlierPieces(json, messages, pieces);
      PiecesArrive(json, messages, before);
      var fed := FeedAll(Messages(json), before);
      PieceIsTaken(json, messages, Flatten(before), fed.values, fed.rest, last);
    }
  }

  /** The encoder made these frames of these messages. */
  ghost predicate Encodes<V>(json: Json<V>, messages: seq<V>, frames: seq<Bytes>) {
    && |frames| == |messages|
    && forall i :: 0 <= i < |messages| ==> EncodeMessage(json, messages[i]) == Ok(frames[i])
  }

  lemma EncodedIsFrame<V>(json: Json<V>, message: V, frame: Bytes)
    requires EncodeMessage(json, message) == Ok(frame)
    ensures frame == Frame(json.serialise(message))
  {
  }

  lemma {:induction false} FramesAreEncoded<V>(json: Json<V>, messages: seq<V>, frames: seq<Bytes>)
    requires Encodes(json, messages, frames)
    ensures Flatten(frames) == Encoded(json, messages)
  {
    if messages != [] {
      FramesAreEncoded(json, messages[1..], frames[1..]);
      FlattenFirst(frames);
      EncodedIsFrame(json, messages[0], frames[0]);
    }
  }

  /** The round trip: whatever pieces the frames of the encoder arrive in, the decoder gives exactly
      the messages in order, meets no limit, and ends with an empty buffer. */
  lemma RoundTrip<V>(json: Json<V>, messages: seq<V>, frames: seq<Bytes>, pieces: seq<Bytes>)
    requires Encodes(json, messages, frames)
    requires forall m :: m in messages ==> json.parse(json.serialise(m)) == Some(m)
    requires Flatten(pieces) == Flatten(frames)
    requires forall piece :: piece in pieces ==> |piece| <= READ_BYTES
    ensures FeedAll(Messages(json), pieces) == Drained(messages, [], None)
  {
    FramesAreEncoded(json, messages, frames);
    PiecesArrive(json, messages, pieces);
    EncodedDrains(json, messages);
  }

  /** The reader thread: feeds what each read returns, until an error. */
  method ReadAll<V>(json: Json<V>, pieces: seq<Bytes>) returns (values: seq<V>, error: Option<DapError>)
    ensures values == FeedAll(Messages(json), pieces).values && error == FeedAll(Messages(json), pieces).error
  {
    var decoder := new DapFrameDecoder(json);
    values := [];
    ghost var next := Messages(json);
    for i := 0 to |pieces|
      invariant fresh(decoder) && decoder.json == json
      invariant FeedAll(next, pieces[..i]) == Drained(values, decoder.buffer, None)
    {
      assert pieces[..i + 1][..i] == pieces[..i];
      var fed := decoder.Feed(pieces[i]);
      if fed.Err? {
        ErrorEndsFeeding(next, pieces, i + 1);
        return values, Some(fed.error);
      }
      values := values + fed.value;
    }
    assert pieces[..|pieces|] == pieces;
    return values, None;
  }

  lemma {:induction false} ErrorEndsFeeding<V>(next: Splitter<Byte, V, DapError>, pieces: seq<Bytes>, i: nat)
    requires Advances(next) && i <= |pieces| && FeedAll(next, pieces[..i]).error.Some?
    ensures FeedAll(next, pieces) == FeedAll(next, pieces[..i])
    decreases |pieces|
  {
    if i == |pieces| {
      assert pieces[..i] == pieces;
    } else {
      assert pieces[..|pieces| - 1][..i] == pieces[..i];
      ErrorEndsFeeding(next, pieces[..|pieces| - 1], i);
    }
  }

  // ---------------------------------------------------------------- bounded queues

  const MAX_PENDING_MESSAGES := 512
  const MAX_STDERR_BYTES := 256 * 1024

  /** The last `count` items. */
  function Last<T>(items: seq<T>, count: nat): seq<T> {
    if |items| <= count then items else items[|items| - count..]
  }

  class DapInbox<!V> {
    var messages: seq<V>
    ghost var pushed: seq<V>

    ghost predicate Valid()
      reads this
    {
      messages == Last(pushed, MAX_PENDING_MESSAGES)
    }

    constructor ()
      ensures Valid() && pushed == []
    {
      messages, pushed := [], [];
    }

    /** Whatever was pushed, the newest 512 messages are there in order. */
    method Push(message: V)
      requires Valid()
      modifies this
      ensures Valid() && pushed == old(pushed) + [message]
    {
      if |messages| >= MAX_PENDING_MESSAGES { messages := messages[1..]; }
      messages := messages + [message];
      pushed := pushed + [message];
    }
  }

  /** Keeps the last 256 KiB of everything appended. */
  method AppendBounded(buffer: Bytes, bytes: Bytes) returns (after: Bytes)
    requires |buffer| <= MAX_STDERR_BYTES
    ensures after == Last(buffer + bytes, MAX_STDERR_BYTES)
  {
    var overflow := if |buffer| + |bytes| > MAX_STDERR_BYTES then |buffer| + |bytes| - MAX_STDERR_BYTES else 0;
    after := buffer;
    var popped := 0;
    while popped < overflow && popped < |buffer|
      invariant popped <= overflow && popped <= |buffer| && after == buffer[popped..]
    {
      after := after[1..];
      popped := popped + 1;
    }
    var start := if |bytes| > MAX_STDERR_BYTES then |bytes| - MAX_STDERR_BYTES else 0;
    after := after + bytes[start..];
  }
}
