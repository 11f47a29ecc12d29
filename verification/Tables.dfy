/**
 The durable tables of the session store and the row operations on them, as values.

 Each function is one statement or one read; a class over these tables adds
 transactions and the cache.
 */
module Tables {
  import opened Wrappers
  import opened Sessions
  import opened Protocol
  import opened DeltaSync
  import opened Numbers

  /** `summary` is absent for a row written by a host that kept no summaries. */
  datatype Row = Row(projectId: Id, snapshot: HostSession, summary: Option<Summary>)

  datatype ReceiptRow = ReceiptRow(command: HostCommand, receipt: Receipt)

  datatype Tables = Tables(
    projects: map<Id, string>,
    sessions: map<Id, Row>,
    events: map<(Id, int), Payload>,
    receipts: map<Id, ReceiptRow>)

  const RETAINED_EVENTS := 2000

  function Stored(tables: Tables, id: Id): Option<HostSession> {
    if id in tables.sessions then Some(tables.sessions[id].snapshot) else None
  }

  /** The value a save stores: creation time carried over, blocks stamped. */
  function Stamped(previous: Option<HostSession>, input: HostSession): HostSession {
    input.(
      createdAt := Some(
        if input.createdAt.Some? then input.createdAt.value
        else if previous.None? then input.updatedAt
        else if previous.value.createdAt.Some? then previous.value.createdAt.value
        else previous.value.updatedAt),
      blockRevisions := Some(Revisions(previous, input.session.blocks, input.revision)))
  }

  function NewRow(sessions: map<Id, Row>, value: HostSession): Row {
    var id := value.session.id;
    Row(if id in sessions then sessions[id].projectId else value.projectId, value, Some(Summarise(value)))
  }

  function PutSession(tables: Tables, value: HostSession): Tables {
    tables.(sessions := tables.sessions[value.session.id := NewRow(tables.sessions, value)])
  }

  function PutEvent(tables: Tables, id: Id, revision: int, payload: Payload): Tables {
    tables.(events := tables.events[(id, revision) := payload])
  }

  function TrimEvents(tables: Tables, id: Id, revision: int): Tables {
    tables.(events := map key | key in tables.events && !(key.0 == id && key.1 < revision - RETAINED_EVENTS)
                          :: tables.events[key])
  }

  /** Why a save of `input` cannot be written: an unregistered project for a new row, or a
      revision already in the event log. */
  predicate Rejected(tables: Tables, input: HostSession) {
    || (input.session.id !in tables.sessions && input.projectId !in tables.projects)
    || (input.session.id, input.revision) in tables.events
  }

  function Saving(tables: Tables, input: HostSession): HostSession {
    Stamped(Stored(tables, input.session.id), input)
  }

  function SaveRows(tables: Tables, input: HostSession, payload: Payload): Tables {
    var value := Saving(tables, input);
    TrimEvents(
      PutEvent(PutSession(tables, value), value.session.id, value.revision, payload),
      value.session.id, value.revision)
  }

  function DropSession(tables: Tables, id: Id): Tables {
    tables.(sessions := tables.sessions - {id},
            events := map key | key in tables.events && key.0 != id :: tables.events[key])
  }

  // ---------------------------------------------------------------- the event log

  datatype EventsAnswer = FullSnapshot(value: HostSession) | Log(rows: seq<(int, Payload)>, revision: int)

  function RevisionsAfter(tables: Tables, id: Id, after: int): set<int> {
    set key | key in tables.events && key.0 == id && key.1 > after :: key.1
  }

  /** The selected rows in revision order. */
  function Ordered(tables: Tables, id: Id, revisions: set<int>): (rows: seq<(int, Payload)>)
    requires forall r :: r in revisions ==> (id, r) in tables.events
  {
    if revisions == {} then []
    else
      var least := Least(revisions);
      [(least, tables.events[(id, least)])] + Ordered(tables, id, revisions - {least})
  }

  function EventsAfter(tables: Tables, id: Id, after: int): EventsAnswer
    requires id in tables.sessions
  {
    var value := tables.sessions[id].snapshot;
    var rows := Ordered(tables, id, RevisionsAfter(tables, id, after));
    if after > value.revision || (after < value.revision && (rows == [] || rows[0].0 != after + 1))
    then FullSnapshot(value)
    else Log(rows, value.revision)
  }

  /** The log of a session is the range first..last without gaps, at most 2001 entries long. */
  ghost predicate LogIs(tables: Tables, id: Id, first: int, last: int) {
    && first <= last <= first + RETAINED_EVENTS
    && forall r :: (id, r) in tables.events <==> first <= r <= last
  }

  ghost predicate Contiguous(tables: Tables, id: Id) {
    id in tables.sessions && exists first :: LogIs(tables, id, first, tables.sessions[id].snapshot.revision)
  }

  /** A save that takes the next revision, or a first save, leaves a gap-free log that ends
      at the saved revision, and leaves every other log alone. */
  lemma SaveKeepsLogs(tables: Tables, input: HostSession, payload: Payload)
    requires !Rejected(tables, input)
    requires var id := input.session.id;
             if id in tables.sessions
             then Contiguous(tables, id) && input.revision == tables.sessions[id].snapshot.revision + 1
             else forall r :: (id, r) !in tables.events
    ensures Contiguous(SaveRows(tables, input, payload), input.session.id)
    ensures forall other :: other != input.session.id && Contiguous(tables, other)
                            ==> Contiguous(SaveRows(tables, input, payload), other)
  {
    var id := input.session.id;
    var saved := SaveRows(tables, input, payload);
    var last := input.revision;
    if id in tables.sessions {
      var first :| LogIs(tables, id, first, tables.sessions[id].snapshot.revision);
      assert LogIs(saved, id, if first < last - RETAINED_EVENTS then last - RETAINED_EVENTS else first, last);
    } else {
      assert LogIs(saved, id, last, last);
    }
    forall other | other != id && Contiguous(tables, other) ensures Contiguous(saved, other) {
      var first :| LogIs(tables, other, first, tables.sessions[other].snapshot.revision);
      assert LogIs(saved, other, first, saved.sessions[other].snapshot.revision);
    }
  }

  lemma {:induction false} OrderedIsRange(tables: Tables, id: Id, revisions: set<int>, from: int, last: int)
    requires forall r :: r in revisions <==> from <= r <= last
    requires forall r :: r in revisions ==> (id, r) in tables.events
    requires from <= last + 1
    ensures var rows := Ordered(tables, id, revisions);
            && |rows| == last + 1 - from
            && forall i :: 0 <= i < |rows| ==> rows[i] == (from + i, tables.events[(id, from + i)])
    decreases last + 1 - from
  {
    if from <= last {
      assert from in revisions;
      assert Least(revisions) == from;
      OrderedIsRange(tables, id, revisions - {from}, from + 1, last);
    } else {
      assert forall r :: r !in revisions;
      assert revisions == {};
    }
  }

  /** Reading the log: exactly the revisions after+1 up to the current one when the cursor is
      inside the retained range, and a full snapshot exactly when it is not. */
  lemma EventsAreExact(tables: Tables, id: Id, first: int, after: int)
    requires id in tables.sessions && LogIs(tables, id, first, tables.sessions[id].snapshot.revision)
    ensures var last := tables.sessions[id].snapshot.revision;
            var answer := EventsAfter(tables, id, after);
            && (answer.Log? <==> first - 1 <= after <= last)
            && (answer.FullSnapshot? ==> answer.value == tables.sessions[id].snapshot)
            && (answer.Log? ==>
                  && answer.revision == last
                  && |answer.rows| == last - after
                  && forall i :: 0 <= i < |answer.rows| ==>
                       answer.rows[i] == (after + 1 + i, tables.events[(id, after + 1 + i)]))
  {
    var last := tables.sessions[id].snapshot.revision;
    var revisions := RevisionsAfter(tables, id, after);
    forall r ensures r in revisions <==> (first <= r <= last && after < r) {
      if first <= r <= last && after < r {
        assert (id, r) in tables.events;
      }
    }
    var from := if after + 1 < first then first else after + 1;
    if from <= last + 1 {
      OrderedIsRange(tables, id, revisions, from, last);
    }
  }
}
