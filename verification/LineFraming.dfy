/**
 Splitting the output of a provider process into lines, and an event stream into payloads,
 while the text arrives in chunks of any size.
 */
module LineFraming {
  import opened Framing
  import opened LineText
  import opened Search
  import opened Wrappers

  const MAX_LINE := 8 * 1024 * 1024

  datatype TooLong = TooLong

  // ---------------------------------------------------------------- lines

  function LineStep(buffer: string, limit: nat): (step: Step<string, TooLong>)
    ensures step.Item? ==> 0 < step.size <= |buffer|
  {
    var at := Find(buffer, "\n");
    if at.None? then Waiting
    else if |WithoutReturn(buffer[..at.value])| > limit then Broken(TooLong)
    else Item(WithoutReturn(buffer[..at.value]), at.value + 1)
  }

  /** The terminated lines of a stream. */
  function LineSplitter(limit: nat): (next: Splitter<char, string, TooLong>)
    ensures Advances(next)
  {
    (buffer: string) => LineStep(buffer, limit)
  }

  lemma LineStepIsStable(buffer: string, more: string, limit: nat)
    requires !LineStep(buffer, limit).Waiting?
    ensures LineStep(buffer + more, limit) == LineStep(buffer, limit)
  {
    FindIsStable(buffer, more, "\n");
    var at := Find(buffer, "\n").value;
    assert (buffer + more)[..at] == buffer[..at];
  }

  lemma LinesAreStable(limit: nat)
    ensures Stable(LineSplitter(limit))
  {
    var next := LineSplitter(limit);
    forall buffer, more | !next(buffer).Waiting? ensures next(buffer + more) == next(buffer) {
      LineStepIsStable(buffer, more, limit);
    }
  }

  /** A drained stream is the split of the stream at its line ends: the terminated lines, and a
      rest that is not empty. */
  lemma {:induction false} DrainIsSplit(stream: string, limit: nat)
    requires Drain(LineSplitter(limit), stream).error.None?
    ensures var drained := Drain(LineSplitter(limit), stream);
            Lines(stream) == drained.values + if drained.rest == "" then [] else [drained.rest]
    decreases |stream|
  {
    var next := LineSplitter(limit);
    DrainUnfolds(next, stream);
    var step := LineStep(stream, limit);
    if step.Item? {
      var rest := stream[step.size..];
      DrainIsSplit(rest, limit);
      assert Lines(stream) == [step.value] + Lines(rest);
    }
  }

  datatype Reader = Reader(buffer: string, emitted: seq<string>, killed: bool)

  /** The text after its first line. */
  function AfterLine(text: string): string {
    var at := Find(text, "\n");
    if at.None? then text else text[at.value + 1..]
  }

  /** What one chunk does to a reader. The output of a process that is being killed is still read. */
  function Received(reader: Reader, chunk: string): Reader {
    var drained := Drain(LineSplitter(MAX_LINE), reader.buffer + chunk);
    if drained.error.Some? then Reader(AfterLine(drained.rest), reader.emitted + drained.values, true)
    else if |drained.rest| > MAX_LINE then Reader("", reader.emitted + drained.values, true)
    else Reader(drained.rest, reader.emitted + drained.values, reader.killed)
  }

  lemma ReceivedIs(reader: Reader, chunk: string, lines: seq<string>, rest: string, ok: bool)
    requires Drain(LineSplitter(MAX_LINE), reader.buffer + chunk) == Drained(lines, rest, if ok then None else Some(TooLong))
    ensures Received(reader, chunk) ==
            if !ok then Reader(AfterLine(rest), reader.emitted + lines, true)
            else if |rest| > MAX_LINE then Reader("", reader.emitted + lines, true)
            else Reader(rest, reader.emitted + lines, reader.killed)
  {
  }

  function ReceivedAll(chunks: seq<string>): Reader {
    if chunks == [] then Reader("", [], false)
    else Received(ReceivedAll(chunks[..|chunks| - 1]), chunks[|chunks| - 1])
  }

  /** The lines a reader has given out when its stream ends. */
  function Ended(reader: Reader): seq<string> {
    reader.emitted + if reader.buffer == "" then [] else [reader.buffer]
  }

  lemma {:induction false} ChunksDrain(chunks: seq<string>)
    requires !ReceivedAll(chunks).killed
    ensures var reader := ReceivedAll(chunks);
            Drain(LineSplitter(MAX_LINE), Flatten(chunks)) == Drained(reader.emitted, reader.buffer, None)
    decreases |chunks|
  {
    var next := LineSplitter(MAX_LINE);
    if chunks == [] {
      DrainUnfolds(next, "");
      assert Flatten(chunks) == "";
    } else {
      var before := chunks[..|chunks| - 1];
      ChunksDrain(before);
      LinesAreStable(MAX_LINE);
      DrainInParts(next, Flatten(before), chunks[|chunks| - 1]);
    }
  }

  /** As long as no limit is hit, the emitted lines are the split of the whole stream, however it
      was cut into chunks. */
  lemma ChunkingDoesNotMatter(chunks: seq<string>)
    requires !ReceivedAll(chunks).killed
    ensures Ended(ReceivedAll(chunks)) == Lines(Flatten(chunks))
  {
    ChunksDrain(chunks);
    DrainIsSplit(Flatten(chunks), MAX_LINE);
  }

  class LineReader {
    var buffer: string
    var emitted: seq<string>
    var killed: bool

    constructor ()
      ensures buffer == "" && emitted == [] && !killed
    {
      buffer, emitted, killed := "", [], false;
    }

    /** Looks for the first line of the buffer. */
    method Look() returns (step: Step<string, TooLong>)
      ensures step == LineStep(buffer, MAX_LINE)
    {
      var index := Find(buffer, "\n");
      if index.None? { return Waiting; }
      var line := WithoutReturn(buffer[..index.value]);
      if |line| > MAX_LINE { return Broken(TooLong); }
      return Item(line, index.value + 1);
    }

    /** Takes the terminated lines out of the buffer, up to one that is too long. */
    method Split() returns (lines: seq<string>, ok: bool)
      modifies this`buffer
      ensures Drain(LineSplitter(MAX_LINE), old(buffer)) == Drained(lines, buffer, if ok then None else Some(TooLong))
    {
      ghost var next := LineSplitter(MAX_LINE);
      ghost var all := Drain(next, buffer);
      lines := [];
      AfterIsAssociative([], [], all);
      var step := Look();
      while step.Item?
        invariant step == next(buffer)
        invariant all == After(lines, Drain(next, buffer))
        decreases |buffer|
      {
        TakeItem(next, all, lines, buffer);
        lines := lines + [step.value];
        buffer := buffer[step.size..];
        step := Look();
      }
      NoMoreItems(next, all, lines, buffer);
      ok := step.Waiting?;
    }

    /** One chunk of text. A line or a rest that is too long kills the process. */
    method Data(chunk: string)
      modifies this
      ensures Reader(buffer, emitted, killed) == Received(Reader(old(buffer), old(emitted), old(killed)), chunk)
    {
      ghost var before := Reader(buffer, emitted, killed);
      buffer := buffer + chunk;
      var lines, ok := Split();
      ReceivedIs(before, chunk, lines, buffer, ok);
      emitted := emitted + lines;
      if !ok {
        buffer := AfterLine(buffer);
        killed := true;
        return;
      }
      if |buffer| > MAX_LINE {
        buffer := "";
        killed := true;
      }
    }

    method End()
      modifies this`emitted
      ensures emitted == Ended(Reader(buffer, old(emitted), killed))
    {
      if buffer != "" { emitted := emitted + [buffer]; }
    }
  }
}
