/**
 Server-sent events ("9.2.6 Interpreting an event stream" in the HTML standard, data field
 only): payloads out of a stream that arrives in chunks.
 */
module EventStream {
  import opened Framing
  import opened HookText
  import opened LineFraming
  import opened LineText
  import opened Search
  import opened Seqs
  import opened Wrappers

  // ---------------------------------------------------------------- what the stream means

  predicate IsData(line: string) {
    StartsWith(line, "data:")
  }

  /** The value of a data line, without one space at its start. */
  function DataOf(line: string): string
    requires IsData(line)
  {
    if |line| > 5 && line[5] == ' ' then line[6..] else line[5..]
  }

  function DataIn(group: seq<string>): seq<string> {
    if group == [] then []
    else DataIn(group[..|group| - 1]) + if IsData(group[|group| - 1]) then [DataOf(group[|group| - 1])] else []
  }

  function Join(parts: seq<string>): string {
    if parts == [] then ""
    else if |parts| == 1 then parts[0]
    else Join(parts[..|parts| - 1]) + "\n" + parts[|parts| - 1]
  }

  /** The payload of a group of lines, if it has any data. */
  function Payload(group: seq<string>): seq<string> {
    if DataIn(group) == [] then [] else [Join(DataIn(group))]
  }

  function Payloads(groups: seq<seq<string>>): seq<string> {
    if groups == [] then [] else Payloads(groups[..|groups| - 1]) + Payload(groups[|groups| - 1])
  }

  /** The groups that a blank line ends, and the lines after the last one. */
  datatype Grouped = Grouped(groups: seq<seq<string>>, open: seq<string>)

  function Groups(lines: seq<string>): Grouped {
    if lines == [] then Grouped([], [])
    else
      var before := Groups(lines[..|lines| - 1]);
      if lines[|lines| - 1] == "" then Grouped(before.groups + [before.open], [])
      else before.(open := before.open + [lines[|lines| - 1]])
  }

  // ---------------------------------------------------------------- the reader

  datatype Events = Events(data: seq<string>, dataLength: nat, emitted: seq<string>, failed: bool)

  const START := Events([], 0, [], false)

  /** One line. Only the current stream of a session emits; one that was replaced or stopped is silent. */
  function OnLine(e: Events, line: string, current: bool): Events {
    if e.failed then e
    else if line == "" then
      Events([], 0, e.emitted + (if e.data == [] || !current then [] else [Join(e.data)]), false)
    else if IsData(line) then
      if e.dataLength + |DataOf(line)| > MAX_LINE then e.(failed := true)
      else e.(data := e.data + [DataOf(line)], dataLength := e.dataLength + |DataOf(line)|)
    else e
  }

  function OnLines(e: Events, lines: seq<string>, current: bool): Events {
    if lines == [] then e else OnLine(OnLines(e, lines[..|lines| - 1], current), lines[|lines| - 1], current)
  }

  lemma {:induction false} OnLinesOfConcat(e: Events, left: seq<string>, right: seq<string>, current: bool)
    ensures OnLines(e, left + right, current) == OnLines(OnLines(e, left, current), right, current)
  {
    if right == [] {
      assert left + right == left;
    } else {
      var all := left + right;
      assert all[..|all| - 1] == left + right[..|right| - 1];
      OnLinesOfConcat(e, left, right[..|right| - 1], current);
    }
  }

  lemma PayloadsOfOneMore(groups: seq<seq<string>>, group: seq<string>)
    ensures Payloads(groups + [group]) == Payloads(groups) + Payload(group)
  {
    Appended(groups, group);
  }

  lemma DataInOneMore(group: seq<string>, line: string)
    ensures DataIn(group + [line]) == DataIn(group) + if IsData(line) then [DataOf(line)] else []
  {
    Appended(group, line);
  }

  /** As long as no event is too long, the reader has emitted the payloads of the groups that a
      blank line ended, and holds the data of the open group. */
  lemma {:induction false} EmitsPayloads(lines: seq<string>)
    requires !OnLines(START, lines, true).failed
    ensures var e, grouped := OnLines(START, lines, true), Groups(lines);
            e.emitted == Payloads(grouped.groups) && e.data == DataIn(grouped.open)
  {
    if lines != [] {
      var front, line := lines[..|lines| - 1], lines[|lines| - 1];
      EmitsPayloads(front);
      EmitsOneMore(OnLines(START, front, true), Groups(front), line);
    }
  }

  lemma EmitsOneMore(e: Events, before: Grouped, line: string)
    requires e.emitted == Payloads(before.groups) && e.data == DataIn(before.open)
    requires !OnLine(e, line, true).failed
    ensures var after := if line == "" then Grouped(before.groups + [before.open], [])
                         else before.(open := before.open + [line]);
            OnLine(e, line, true).emitted == Payloads(after.groups) && OnLine(e, line, true).data == DataIn(after.open)
  {
    PayloadsOfOneMore(before.groups, before.open);
    DataInOneMore(before.open, line);
    assert DataIn(before.open) + [] == DataIn(before.open);
  }

  datatype EventReader = EventReader(buffer: string, events: Events)

  /** One chunk, for a reader that has not failed. */
  function ReceivedEvents(reader: EventReader, chunk: string, current: bool): EventReader {
    var drained := Drain(LineSplitter(MAX_LINE), reader.buffer + chunk);
    if |reader.buffer + chunk| > MAX_LINE then reader.(events := reader.events.(failed := true))
    else EventReader(drained.rest, OnLines(reader.events, drained.values, current))
  }

  /** The chunks of a stream that is current all the time. */
  function AllReceived(chunks: seq<string>): EventReader {
    if chunks == [] then EventReader("", START)
    else
      var before := AllReceived(chunks[..|chunks| - 1]);
      if before.events.failed then before else ReceivedEvents(before, chunks[|chunks| - 1], true)
  }

  /** A buffer within the limit has no line beyond it. */
  lemma {:induction false} ShortBuffersSplit(buffer: string)
    requires |buffer| <= MAX_LINE
    ensures Drain(LineSplitter(MAX_LINE), buffer).error.None?
    decreases |buffer|
  {
    DrainUnfolds(LineSplitter(MAX_LINE), buffer);
    var step := LineStep(buffer, MAX_LINE);
    if step.Item? { ShortBuffersSplit(buffer[step.size..]); }
  }

  lemma {:induction false} EventChunksDrain(chunks: seq<string>)
    requires !AllReceived(chunks).events.failed
    ensures var reader, drained := AllReceived(chunks), Drain(LineSplitter(MAX_LINE), Flatten(chunks));
            && drained.error.None? && reader.buffer == drained.rest
            && reader.events == OnLines(START, drained.values, true)
    decreases |chunks|
  {
    var next := LineSplitter(MAX_LINE);
    if chunks == [] {
      DrainUnfolds(next, "");
      assert Flatten(chunks) == "";
    } else {
      var before := chunks[..|chunks| - 1];
      var chunk := chunks[|chunks| - 1];
      EventChunksDrain(before);
      LinesAreStable(MAX_LINE);
      DrainInParts(next, Flatten(before), chunk);
      ShortBuffersSplit(AllReceived(before).buffer + chunk);
      OnLinesOfConcat(START, Drain(next, Flatten(before)).values,
                      Drain(next, AllReceived(before).buffer + chunk).values, true);
    }
  }

  /** The terminated lines of a stream. */
  function TerminatedLines(stream: string): seq<string> {
    var lines := Lines(stream);
    if EndsLine(stream) then lines else lines[..|lines| - 1]
  }

  lemma {:induction false} DrainedAreTerminated(stream: string)
    requires Drain(LineSplitter(MAX_LINE), stream).error.None?
    ensures Drain(LineSplitter(MAX_LINE), stream).values == TerminatedLines(stream)
    decreases |stream|
  {
    var drained := Drain(LineSplitter(MAX_LINE), stream);
    DrainIsSplit(stream, MAX_LINE);
    RestIsLast(stream);
    if drained.rest == "" {
      assert drained.values + [] == drained.values;
    } else {
      assert (drained.values + [drained.rest])[..|drained.values|] == drained.values;
    }
  }

  predicate EndsLine(text: string) {
    text == "" || text[|text| - 1] == '\n'
  }

  lemma SameEnd(text: string, size: nat)
    requires 0 < size <= |text| && text[size - 1] == '\n'
    ensures EndsLine(text[size..]) <==> EndsLine(text)
  {
  }

  lemma LineEndIsThere(text: string)
    requires LineStep(text, MAX_LINE).Item?
    ensures text[LineStep(text, MAX_LINE).size - 1] == '\n'
  {
    var at := Find(text, "\n").value;
    assert text[at..at + 1][0] == '\n';
  }

  /** Something is left over exactly when the stream does not end with a line end. */
  lemma {:induction false} RestIsLast(stream: string)
    requires Drain(LineSplitter(MAX_LINE), stream).error.None?
    ensures Drain(LineSplitter(MAX_LINE), stream).rest == "" <==> EndsLine(stream)
    decreases |stream|
  {
    DrainUnfolds(LineSplitter(MAX_LINE), stream);
    var step := LineStep(stream, MAX_LINE);
    if step.Item? {
      RestIsLast(stream[step.size..]);
      LineEndIsThere(stream);
      SameEnd(stream, step.size);
    } else if stream != "" && stream[|stream| - 1] == '\n' {
      assert OccursAt(stream, "\n", |stream| - 1);
    }
  }

  /** As long as no limit is hit, the payloads are those of the groups of the whole stream,
      however it was cut into chunks. */
  lemma ChunkingDoesNotChangeEvents(chunks: seq<string>)
    requires !AllReceived(chunks).events.failed
    ensures AllReceived(chunks).events.emitted == Payloads(Groups(TerminatedLines(Flatten(chunks))).groups)
  {
    EventChunksDrain(chunks);
    DrainedAreTerminated(Flatten(chunks));
    EmitsPayloads(TerminatedLines(Flatten(chunks)));
  }

  class EventStreamReader {
    var lines: LineReader
    var data: seq<string>
    var dataLength: nat
    var emitted: seq<string>
    var failed: bool

    ghost function View(): EventReader
      reads this, lines
    {
      EventReader(lines.buffer, Events(data, dataLength, emitted, failed))
    }

    constructor ()
      ensures fresh(lines) && View() == EventReader("", START)
    {
      lines := new LineReader();
      data, dataLength, emitted, failed := [], 0, [], false;
    }

    method Take(line: string, current: bool)
      requires !failed
      modifies this`data, this`dataLength, this`emitted, this`failed
      ensures Events(data, dataLength, emitted, failed)
              == OnLine(Events(old(data), old(dataLength), old(emitted), false), line, current)
    {
      if line == "" {
        if data != [] && current { emitted := emitted + [Join(data)]; }
        data, dataLength := [], 0;
      } else if StartsWith(line, "data:") {
        var piece := DataOf(line);
        if dataLength + |piece| > MAX_LINE { failed := true; return; }
        dataLength := dataLength + |piece|;
        data := data + [piece];
      }
    }

    /** The lines of a chunk, up to one that makes an event too long. */
    method TakeAll(taken: seq<string>, current: bool)
      requires !failed
      modifies this`data, this`dataLength, this`emitted, this`failed
      ensures Events(data, dataLength, emitted, failed)
              == OnLines(Events(old(data), old(dataLength), old(emitted), false), taken, current)
    {
      ghost var before := Events(data, dataLength, emitted, false);
      for i := 0 to |taken|
        invariant !failed && Events(data, dataLength, emitted, failed) == OnLines(before, taken[..i], current)
      {
        assert taken[..i + 1][..i] == taken[..i];
        Take(taken[i], current);
        if failed {
          FailureStays(before, taken, i + 1, current);
          return;
        }
      }
      assert taken[..|taken|] == taken;
    }

    /** One chunk of decoded text. `current` is whether this is still the stream of its session, which
        cannot change while the chunk is read. */
    method Receive(chunk: string, current: bool)
      requires !failed
      modifies this, lines
      ensures View().events == ReceivedEvents(old(View()), chunk, current).events
      ensures !failed ==> View() == ReceivedEvents(old(View()), chunk, current)
    {
      ghost var before := View();
      if |lines.buffer + chunk| > MAX_LINE { failed := true; return; }
      lines.buffer := lines.buffer + chunk;
      var taken, ok := lines.Split();
      ReceivedEventsAre(before, chunk, taken, lines.buffer, ok, current);
      TakeAll(taken, current);
    }
  }

  lemma ReceivedEventsAre(reader: EventReader, chunk: string, taken: seq<string>, rest: string, ok: bool, current: bool)
    requires |reader.buffer + chunk| <= MAX_LINE
    requires Drain(LineSplitter(MAX_LINE), reader.buffer + chunk) == Drained(taken, rest, if ok then None else Some(TooLong))
    ensures ReceivedEvents(reader, chunk, current) == EventReader(rest, OnLines(reader.events, taken, current))
  {
  }

  lemma {:induction false} FailureStays(e: Events, lines: seq<string>, i: nat, current: bool)
    requires i <= |lines| && OnLines(e, lines[..i], current).failed
    ensures OnLines(e, lines, current) == OnLines(e, lines[..i], current)
    decreases |lines|
  {
    if i == |lines| {
      assert lines[..i] == lines;
    } else {
      assert lines[..|lines| - 1][..i] == lines[..i];
      FailureStays(e, lines[..|lines| - 1], i, current);
    }
  }
}
