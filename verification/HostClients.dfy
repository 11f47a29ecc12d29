/** What clients that hold old revisions and cursors obtain from any reachable host. */
module HostClients {
  import opened Wrappers
  import opened Sessions
  import opened Protocol
  import opened DeltaSync
  import opened Tables
  import opened HostModel
  import opened HostInvariants
  import opened HostSteps
  import HostStored

  lemma ReachableIsDurable(c: Config, actions: seq<Action>)
    requires KeepsIdentity(c)
    ensures var s := Exec(c, NEW_HOST, actions); Durable(s.tables, s.history)
  {
    HostStored.RunKeepsStore(c, actions);
  }

  /** In every reachable state a client at any earlier committed revision of a session obtains
      exactly the current value from the delta, if and only if blocks that share an id are equal. */
  lemma ClientsCatchUp(c: Config, actions: seq<Action>, id: Id, j: nat)
    requires KeepsIdentity(c)
    requires var s := Exec(c, NEW_HOST, actions);
             id in s.tables.sessions && id in s.history && j < |s.history[id]| - 1
    ensures var s := Exec(c, NEW_HOST, actions);
            var now, held := s.tables.sessions[id].snapshot, s.history[id][j].value;
            ApplySessionSync(Some(Strip(held)), Sync(now, Some(held.revision))) == Ok(Strip(now))
            <==> SameIdSameBlock(now.session.blocks)
  {
    ReachableIsDurable(c, actions);
    var s := Exec(c, NEW_HOST, actions);
    CatchesUp(s.tables.sessions, s.history, id, j);
  }

  lemma CatchesUp(rows: map<Id, Row>, history: map<Id, seq<Commit>>, id: Id, j: nat)
    requires Histories(rows, history) && id in rows && id in history && j < |history[id]| - 1
    ensures var now, held := rows[id].snapshot, history[id][j].value;
            ApplySessionSync(Some(Strip(held)), Sync(now, Some(held.revision))) == Ok(Strip(now))
            <==> SameIdSameBlock(now.session.blocks)
  {
    DeltaIsExact(Values(history[id]), j);
  }

  /** The commits of a session after a revision, when the log still holds them all. */
  function CommitsAfter(commits: seq<Commit>, last: int, after: int): seq<Commit>
    requires 0 <= last - after <= |commits|
  {
    commits[|commits| - (last - after)..]
  }

  /** In every reachable state a cursor inside the retained range gets exactly the payloads of the
      commits after it, in order and without gaps, and any other cursor gets the snapshot. */
  lemma CursorsAreServedExactly(c: Config, actions: seq<Action>, id: Id, after: int)
    requires KeepsIdentity(c) && id in Exec(c, NEW_HOST, actions).tables.sessions
    ensures var s := Exec(c, NEW_HOST, actions);
            && id in s.history
            && Served(s.tables, s.history[id], id, after)
  {
    ReachableIsDurable(c, actions);
    ServedExactly(Exec(c, NEW_HOST, actions).tables, Exec(c, NEW_HOST, actions).history, id, after);
  }

  ghost predicate Served(tables: Tables, commits: seq<Commit>, id: Id, after: int)
    requires id in tables.sessions
  {
    var last, answer := tables.sessions[id].snapshot.revision, EventsAfter(tables, id, after);
    && (answer.Log? <==> after == last || (after < last && (id, after + 1) in tables.events))
    && (answer.FullSnapshot? ==> answer.value == tables.sessions[id].snapshot)
    && (answer.Log? ==>
          && answer.revision == last
          && 0 <= last - after <= |commits| && last - after <= RETAINED_EVENTS + 1
          && |answer.rows| == last - after
          && forall i :: 0 <= i < |answer.rows| ==>
               answer.rows[i] == (after + 1 + i, CommitsAfter(commits, last, after)[i].payload))
  }

  lemma LoggedCommit(events: map<(Id, int), Payload>, history: map<Id, seq<Commit>>, id: Id, last: int, r: int)
    requires LogMatches(events, history) && (id, r) in events && r <= last
    requires id in history && EndsAt(history[id], last)
    ensures 0 <= last - r < |history[id]|
    ensures events[(id, r)] == history[id][|history[id]| - 1 - (last - r)].payload
  {
    var commits := history[id];
    assert commits[|commits| - 1 - (last - r)].value.revision == r;
  }

  ghost predicate EndsAt(commits: seq<Commit>, last: int) {
    commits != [] && Consecutive(commits) && commits[|commits| - 1].value.revision == last
  }

  lemma CommitsEnd(tables: Tables, history: map<Id, seq<Commit>>, id: Id)
    requires Durable(tables, history) && id in tables.sessions
    ensures id in history && EndsAt(history[id], tables.sessions[id].snapshot.revision)
  {
    assert HistoryOk(history[id], tables.sessions[id].snapshot);
  }

  /** The rows of the log from after+1 up to the last revision. */
  ghost predicate LogRows(tables: Tables, id: Id, after: int, last: int, rows: seq<(int, Payload)>) {
    && after <= last && |rows| == last - after
    && forall i :: 0 <= i < |rows| ==>
         (id, after + 1 + i) in tables.events && rows[i] == (after + 1 + i, tables.events[(id, after + 1 + i)])
  }

  lemma RowsAreCommits(tables: Tables, history: map<Id, seq<Commit>>, id: Id, after: int, last: int,
                       rows: seq<(int, Payload)>)
    requires LogMatches(tables.events, history) && id in history && EndsAt(history[id], last)
    requires LogRows(tables, id, after, last, rows)
    ensures last - after <= |history[id]|
    ensures forall i :: 0 <= i < |rows| ==>
              rows[i] == (after + 1 + i, CommitsAfter(history[id], last, after)[i].payload)
  {
    if rows != [] { LoggedCommit(tables.events, history, id, last, rows[0].0); }
    forall i | 0 <= i < |rows|
      ensures rows[i] == (after + 1 + i, CommitsAfter(history[id], last, after)[i].payload)
    {
      assert rows[i].0 == after + 1 + i;
      LoggedCommit(tables.events, history, id, last, after + 1 + i);
    }
  }

  lemma LogBounds(tables: Tables, id: Id, after: int) returns (first: int)
    requires TablesOk(tables) && id in tables.sessions
    ensures LogIs(tables, id, first, tables.sessions[id].snapshot.revision)
  {
    assert Contiguous(tables, id);
    first :| LogIs(tables, id, first, tables.sessions[id].snapshot.revision);
  }

  lemma ServedExactly(tables: Tables, history: map<Id, seq<Commit>>, id: Id, after: int)
    requires Durable(tables, history) && id in tables.sessions
    ensures id in history && Served(tables, history[id], id, after)
  {
    var first := LogBounds(tables, id, after);
    EventsAreExact(tables, id, first, after);
    var answer := EventsAfter(tables, id, after);
    CommitsEnd(tables, history, id);
    if answer.Log? {
      RowsAreCommits(tables, history, id, after, tables.sessions[id].snapshot.revision, answer.rows);
    }
  }
}
