/**
 The event streams of all sessions. Opening a stream replaces the one its session had, whose reader
 may still get a chunk that was on its way.
 */
module EventStreams {
  import opened EventStream
  import opened Framing
  import opened LineFraming
  import opened Seqs

  type Id = string

  /** The object made for one stream. */
  type Controller = nat

  datatype Loop = Loop(id: Id, reader: EventReader)

  /** `current` is the table of streams; `readers` are the loops that were ever begun. */
  datatype Streams = Streams(current: map<Id, Controller>, readers: map<Controller, Loop>)

  datatype Happening =
    | Open(id: Id, made: Controller)
    | Stop(id: Id)
    | Data(from: Controller, chunk: string)
    | End(from: Controller)

  predicate IsCurrent(s: Streams, c: Controller) {
    c in s.readers && s.readers[c].id in s.current && s.current[s.readers[c].id] == c
  }

  /** A loop that ends takes its own stream out of the table, and no other. */
  function Leave(s: Streams, c: Controller): Streams {
    if IsCurrent(s, c) then s.(current := s.current - {s.readers[c].id}) else s
  }

  function Read(s: Streams, c: Controller, chunk: string): Streams
    requires c in s.readers
  {
    var next := ReceivedEvents(s.readers[c].reader, chunk, IsCurrent(s, c));
    var t := s.(readers := s.readers[c := s.readers[c].(reader := next)]);
    if next.events.failed then Leave(t, c) else t
  }

  function Next(s: Streams, h: Happening): Streams {
    match h
    case Open(id, made) =>
      if made in s.readers then s
      else Streams(s.current[id := made], s.readers[made := Loop(id, EventReader("", EventStream.START))])
    case Stop(id) => s.(current := s.current - {id})
    case Data(c, chunk) => if c in s.readers && !s.readers[c].reader.events.failed then Read(s, c, chunk) else s
    case End(c) => Leave(s, c)
  }

  function After(happenings: seq<Happening>): Streams {
    if happenings == [] then Streams(map[], map[])
    else Next(After(happenings[..|happenings| - 1]), happenings[|happenings| - 1])
  }

  /** The chunks a stream got while it was the current one of its session. */
  function WhileCurrent(happenings: seq<Happening>, c: Controller): seq<string> {
    if happenings == [] then []
    else
      var before, last := happenings[..|happenings| - 1], happenings[|happenings| - 1];
      WhileCurrent(before, c) + if last.Data? && last.from == c && IsCurrent(After(before), c) then [last.chunk] else []
  }

  function Emitted(s: Streams, c: Controller): seq<string> {
    if c in s.readers then s.readers[c].reader.events.emitted else []
  }

  lemma {:induction false} SilentLines(e: Events, lines: seq<string>)
    ensures OnLines(e, lines, false).emitted == e.emitted
  {
    if lines != [] { SilentLines(e, lines[..|lines| - 1]); }
  }

  lemma SilentChunk(reader: EventReader, chunk: string)
    ensures ReceivedEvents(reader, chunk, false).events.emitted == reader.events.emitted
  {
    SilentLines(reader.events, Drain(LineSplitter(MAX_LINE), reader.buffer + chunk).values);
  }

  /** A stream has emitted what its chunks say, as long as it was current, and reads on while it is. */
  ghost predicate Follows(s: Streams, c: Controller, chunks: seq<string>) {
    && Emitted(s, c) == AllReceived(chunks).events.emitted
    && (IsCurrent(s, c) ==> s.readers[c].reader == AllReceived(chunks) && !AllReceived(chunks).events.failed)
    && (c !in s.readers ==> chunks == [])
  }

  lemma ReadFollows(s: Streams, c: Controller, chunks: seq<string>, chunk: string)
    requires Follows(s, c, chunks) && c in s.readers && !s.readers[c].reader.events.failed
    ensures Follows(Read(s, c, chunk), c, chunks + if IsCurrent(s, c) then [chunk] else [])
  {
    if IsCurrent(s, c) {
      assert (chunks + [chunk])[..|chunks|] == chunks;
    } else {
      SilentChunk(s.readers[c].reader, chunk);
      assert chunks + [] == chunks;
    }
  }

  /** What does not feed a stream leaves its loop alone, and does not make it current again. */
  lemma Untouched(s: Streams, c: Controller, h: Happening)
    requires c in s.readers && !(h.Data? && h.from == c)
    ensures var t := Next(s, h);
            c in t.readers && t.readers[c] == s.readers[c] && (IsCurrent(t, c) ==> IsCurrent(s, c))
  {
    if h.Data? && h.from in s.readers { ReadLeavesOthers(s, h.from, h.chunk, c); }
    if h.End? { LeaveKeeps(s, h.from, c); }
  }

  lemma LeaveKeeps(s: Streams, from: Controller, c: Controller)
    ensures var t := Leave(s, from); t.readers == s.readers && (IsCurrent(t, c) ==> IsCurrent(s, c))
  {
  }

  lemma ReadLeavesOthers(s: Streams, from: Controller, chunk: string, c: Controller)
    requires from in s.readers && c in s.readers && from != c
    ensures var t := Read(s, from, chunk);
            c in t.readers && t.readers[c] == s.readers[c] && (IsCurrent(t, c) ==> IsCurrent(s, c))
  {
    var next := ReceivedEvents(s.readers[from].reader, chunk, IsCurrent(s, from));
    LeaveKeeps(s.(readers := s.readers[from := s.readers[from].(reader := next)]), from, c);
  }

  lemma Unopened(s: Streams, c: Controller, h: Happening)
    requires c !in s.readers
    ensures var t := Next(s, h);
            c in t.readers ==> t.readers[c].reader == EventReader("", EventStream.START)
  {
  }

  lemma NextFollows(s: Streams, c: Controller, chunks: seq<string>, h: Happening)
    requires Follows(s, c, chunks)
    ensures Follows(Next(s, h), c, chunks + if h.Data? && h.from == c && IsCurrent(s, c) then [h.chunk] else [])
  {
    assert chunks + [] == chunks;
    if c !in s.readers {
      Unopened(s, c, h);
    } else if !(h.Data? && h.from == c) {
      Untouched(s, c, h);
    } else if !s.readers[c].reader.events.failed {
      ReadFollows(s, c, chunks, h.chunk);
    }
  }

  lemma {:induction false} EveryStreamFollows(happenings: seq<Happening>, c: Controller)
    ensures Follows(After(happenings), c, WhileCurrent(happenings, c))
  {
    if happenings != [] {
      var before := happenings[..|happenings| - 1];
      EveryStreamFollows(before, c);
      NextFollows(After(before), c, WhileCurrent(before, c), happenings[|happenings| - 1]);
    }
  }

  /** In whatever order streams are opened, replaced, stopped and fed, a stream emits exactly the
      payloads of the chunks it got while it was the current one of its session, as long as no limit
      is hit, and nothing of what it gets afterwards. */
  lemma OnlyCurrentStreamsEmit(happenings: seq<Happening>, c: Controller)
    requires !AllReceived(WhileCurrent(happenings, c)).events.failed
    ensures Emitted(After(happenings), c)
            == Payloads(Groups(TerminatedLines(Flatten(WhileCurrent(happenings, c)))).groups)
  {
    EveryStreamFollows(happenings, c);
    ChunkingDoesNotChangeEvents(WhileCurrent(happenings, c));
  }

  /** A stream that is no longer current stays so, and emits nothing more. */
  lemma {:induction false} ReplacedStaysSilent(happenings: seq<Happening>, c: Controller, later: seq<Happening>)
    requires c in After(happenings).readers && !IsCurrent(After(happenings), c)
    ensures var t := After(happenings + later);
            c in t.readers && !IsCurrent(t, c) && Emitted(t, c) == Emitted(After(happenings), c)
  {
    if later == [] {
      assert happenings + later == happenings;
    } else {
      var all, before := happenings + later, later[..|later| - 1];
      assert all[..|all| - 1] == happenings + before;
      ReplacedStaysSilent(happenings, c, before);
      SilentStep(After(happenings + before), c, later[|later| - 1]);
    }
  }

  lemma SilentStep(s: Streams, c: Controller, h: Happening)
    requires c in s.readers && !IsCurrent(s, c)
    ensures c in Next(s, h).readers && !IsCurrent(Next(s, h), c) && Emitted(Next(s, h), c) == Emitted(s, c)
  {
    if h.Data? && h.from == c { SilentChunk(s.readers[c].reader, h.chunk); } else { Untouched(s, c, h); }
  }
}
