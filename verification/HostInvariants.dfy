/**
 The invariant of the host, its running map and promise chains included, and the first part of
 the proof that each action keeps it whose final `bind` does not throw. HostStored shows what
 every action keeps, and HostLateRetry what goes wrong otherwise.
 */
module HostInvariants {
  import opened Wrappers
  import opened Sessions
  import opened Protocol
  import opened DeltaSync
  import opened Tables
  import opened Turns
  import opened HostModel
  import Storage

  // ---------------------------------------------------------------- the invariant

  function Values(commits: seq<Commit>): (values: seq<HostSession>)
    ensures |values| == |commits|
    ensures forall i :: 0 <= i < |commits| ==> values[i] == commits[i].value
  {
    seq(|commits|, i requires 0 <= i < |commits| => commits[i].value)
  }

  function FoldEvents(c: Config, session: Session, events: seq<HarnessEvent>): Session {
    if events == [] then session
    else
      var before := FoldEvents(c, session, events[..|events| - 1]);
      var after := c.apply(before, events[|events| - 1]);
      if after.Some? then after.value else before
  }

  /** A row is stored under its session's id and project, with its own card. */
  ghost predicate RowOk(tables: Tables, id: Id) {
    && id in tables.sessions
    && tables.sessions[id].snapshot.session.id == id
    && tables.sessions[id].projectId == tables.sessions[id].snapshot.projectId
    && tables.sessions[id].projectId in tables.projects
    && Card(tables.sessions[id]) == Summarise(tables.sessions[id].snapshot)
  }

  /** Every commit took the next revision. */
  ghost predicate Consecutive(commits: seq<Commit>) {
    forall k :: 0 <= k < |commits| ==>
      commits[k].value.revision == commits[|commits| - 1].value.revision - (|commits| - 1 - k)
  }

  /** The committed values of a session end with its snapshot. */
  ghost predicate HistoryOk(commits: seq<Commit>, snapshot: HostSession) {
    && |commits| > 0
    && commits[|commits| - 1].value == snapshot
    && Saved(Values(commits))
    && Consecutive(commits)
  }

  /** What the event log retains is what was committed, and nothing older. */
  ghost predicate LogMatches(events: map<(Id, int), Payload>, history: map<Id, seq<Commit>>) {
    && (forall id, k :: id in history && 0 <= k < |history[id]| && (id, history[id][k].value.revision) in events
          ==> events[(id, history[id][k].value.revision)] == history[id][k].payload)
    && (forall id, r :: (id, r) in events ==>
          id in history && history[id] != [] && r > history[id][|history[id]| - 1].value.revision - |history[id]|)
  }

  ghost predicate TablesOk(tables: Tables) {
    && (forall id :: id in tables.sessions ==> RowOk(tables, id) && Contiguous(tables, id))
    && (forall key :: key in tables.events ==> key.0 in tables.sessions)
  }

  ghost predicate Histories(rows: Rows, history: map<Id, seq<Commit>>) {
    && history.Keys == rows.Keys
    && forall id :: id in rows ==> HistoryOk(history[id], rows[id].snapshot)
  }

  ghost predicate Durable(tables: Tables, history: map<Id, seq<Commit>>) {
    && TablesOk(tables)
    && Histories(tables.sessions, history)
    && LogMatches(tables.events, history)
  }

  type Rows = map<Id, Row>

  predicate IsRunning(rows: Rows, id: Id) {
    id in rows && rows[id].snapshot.status.Running?
  }

  /** The running map holds exactly the runs stored as running. */
  ghost predicate RunningOk(up: bool, rows: Rows, running: map<Id, Id>) {
    && (forall id :: id in running <==> up && IsRunning(rows, id))
    && (forall id :: id in running ==> rows[id].snapshot.runId == Some(running[id]))
  }

  /** The overlay of a live session: the stored value with the pending events applied to it. */
  function Overlay(c: Config, stored: HostSession, events: seq<HarnessEvent>): HostSession {
    stored.(session := FoldEvents(c, stored.session, events))
  }

  ghost predicate LiveOk(c: Config, rows: Rows, running: map<Id, Id>, live: map<Id, Live>) {
    forall id :: id in live ==>
      && id in running && id in rows
      && live[id].value == Overlay(c, rows[id].snapshot, live[id].events)
  }

  /** What a reader sees of a session, if it is live, is its overlay. */
  ghost predicate Shown(c: Config, s: Host, id: Id) {
    id in s.live ==>
      id in s.tables.sessions && s.live[id].value == Overlay(c, s.tables.sessions[id].snapshot, s.live[id].events)
  }

  function Pending(live: map<Id, Live>, id: Id): seq<HarnessEvent> {
    if id in live then live[id].events else []
  }

  /** Every accepted event is either in a committed log entry or still pending, once, in order. */
  ghost predicate AcceptedOk(accepted: map<Id, seq<HarnessEvent>>, history: map<Id, seq<Commit>>, live: map<Id, Live>) {
    && accepted.Keys == history.Keys
    && forall id :: id in accepted ==> accepted[id] == Written(history[id]) + Pending(live, id)
  }

  /** Promise chains and running sessions correspond one to one, until a closing process
      drops a chain; armed retries correspond to chains waiting for one. */
  ghost predicate TurnsOk(closing: bool, running: map<Id, Id>, turns: map<Id, Turn>, retryTimers: map<Id, Id>) {
    && (forall r :: r in turns ==> turns[r].sessionId in running && running[turns[r].sessionId] == r)
    && (forall id :: id in running ==>
          closing || (running[id] in turns && turns[running[id]].sessionId == id))
    && (forall id :: id in retryTimers ==>
          && retryTimers[id] in turns
          && turns[retryTimers[id]].sessionId == id
          && turns[retryTimers[id]].phase.RetryWaiting?)
    && (forall r :: r in turns && turns[r].phase.RetryWaiting? ==>
          turns[r].sessionId in retryTimers && retryTimers[turns[r].sessionId] == r)
  }

  /** A process that is down has no memory. */
  ghost predicate MemoryOk(up: bool, closing: bool, turns: map<Id, Turn>, live: map<Id, Live>,
                           timers: map<Id, Id>, switching: set<Id>) {
    !up ==> turns == map[] && live == map[] && timers == map[] && switching == {} && !closing
  }

  /** No run was handed to a provider twice, and a queued one not at all. */
  ghost predicate DispatchOk(turns: map<Id, Turn>, dispatched: seq<Id>, used: set<Id>) {
    && (forall i, j :: 0 <= i < j < |dispatched| ==> dispatched[i] != dispatched[j])
    && (forall r :: r in dispatched ==> r in used)
    && (forall r :: r in turns ==> r in used)
    && (forall r :: r in turns && turns[r].phase.Queued? ==> r !in dispatched)
  }

  /** Session ids were drawn, and so were the runs in the running map. */
  ghost predicate UsedOk(rows: Rows, running: map<Id, Id>, used: set<Id>) {
    && (forall id :: id in rows ==> id in used)
    && (forall id :: id in running ==> running[id] in used)
  }

  ghost predicate SwitchOk(rows: Rows, running: map<Id, Id>, switching: set<Id>) {
    forall id :: id in running && id in rows ==> rows[id].projectId !in switching
  }

  ghost predicate Inv(c: Config, s: Host) {
    && Durable(s.tables, s.history)
    && RunningOk(s.up, s.tables.sessions, s.running)
    && LiveOk(c, s.tables.sessions, s.running, s.live)
    && AcceptedOk(s.accepted, s.history, s.live)
    && TurnsOk(s.closing, s.running, s.turns, s.retryTimers)
    && MemoryOk(s.up, s.closing, s.turns, s.live, s.retryTimers, s.switching)
    && DispatchOk(s.turns, s.dispatched, s.used)
    && UsedOk(s.tables.sessions, s.running, s.used)
    && SwitchOk(s.tables.sessions, s.running, s.switching)
  }

  predicate Binds(a: Action) {
    match a
    case DoSettle(_, _, _, calls) => calls.bound
    case DoRetrySettle(_, _, _, calls) => calls.bound
    case _ => true
  }

  // ---------------------------------------------------------------- saving

  /** A save the engine makes: the next revision of a stored session, or a first save. */
  ghost predicate NextSave(tables: Tables, input: HostSession) {
    && !Rejected(tables, input)
    && (input.session.id in tables.sessions ==>
          && input.revision == tables.sessions[input.session.id].snapshot.revision + 1
          && input.projectId == tables.sessions[input.session.id].snapshot.projectId)
  }

  lemma SaveKeepsRows(tables: Tables, input: HostSession, payload: Payload)
    requires TablesOk(tables) && NextSave(tables, input)
    ensures TablesOk(SaveRows(tables, input, payload))
  {
    var id := input.session.id;
    var saved := SaveRows(tables, input, payload);
    assert id in tables.sessions ==> RowOk(tables, id) && Contiguous(tables, id);
    SaveKeepsLogs(tables, input, payload);
    forall other | other in saved.sessions ensures RowOk(saved, other) && Contiguous(saved, other) {
      if other != id {
        assert RowOk(tables, other) && Contiguous(tables, other);
      }
    }
  }

  lemma SaveExtendsHistory(tables: Tables, commits: seq<Commit>, input: HostSession, payload: Payload)
    requires NextSave(tables, input)
    requires if input.session.id in tables.sessions
             then HistoryOk(commits, tables.sessions[input.session.id].snapshot) else commits == []
    ensures HistoryOk(commits + [Commit(Saving(tables, input), payload)], Saving(tables, input))
  {
    var value := Saving(tables, input);
    var longer := commits + [Commit(value, payload)];
    if commits == [] {
      assert Values(longer) == [value];
    } else {
      SavedExtends(Values(commits), value);
      assert Values(longer) == Values(commits) + [value];
    }
  }

  lemma LogAfterSave(events: map<(Id, int), Payload>, fewer: map<(Id, int), Payload>, history: map<Id, seq<Commit>>,
                     commit: Commit)
    requires LogMatches(events, history)
    requires forall key :: key in fewer ==>
               if key == (commit.value.session.id, commit.value.revision) then fewer[key] == commit.payload
               else key in events && fewer[key] == events[key]
    requires var id := commit.value.session.id;
             if id in history && history[id] != []
             then && commit.value.revision == history[id][|history[id]| - 1].value.revision + 1
                  && forall k :: 0 <= k < |history[id]| ==> history[id][k].value.revision < commit.value.revision
             else forall r :: (id, r) !in events
    ensures LogMatches(fewer, Appended(history, commit.value.session.id, commit))
  {
  }

  /** A save logs its payload under a revision that no earlier commit has. */
  lemma SaveKeepsLog(tables: Tables, history: map<Id, seq<Commit>>, input: HostSession, payload: Payload)
    requires LogMatches(tables.events, history) && Histories(tables.sessions, history) && NextSave(tables, input)
    ensures LogMatches(SaveRows(tables, input, payload).events,
                       Appended(history, input.session.id, Commit(Saving(tables, input), payload)))
  {
    var id := input.session.id;
    if id in tables.sessions {
      assert HistoryOk(history[id], tables.sessions[id].snapshot);
    }
    LogAfterSave(tables.events, SaveRows(tables, input, payload).events, history, Commit(Saving(tables, input), payload));
  }

  function Appended<T>(lists: map<Id, seq<T>>, id: Id, item: T): map<Id, seq<T>> {
    lists[id := (if id in lists then lists[id] else []) + [item]]
  }

  lemma SaveKeepsHistories(rows: Rows, history: map<Id, seq<Commit>>, value: HostSession, row: Row, payload: Payload)
    requires Histories(rows, history) && row.snapshot == value
    requires HistoryOk((if value.session.id in history then history[value.session.id] else []) + [Commit(value, payload)],
                       value)
    ensures Histories(rows[value.session.id := row], Appended(history, value.session.id, Commit(value, payload)))
  {
  }

  lemma SaveCommittedShape(s: Host, input: HostSession, payload: Payload)
    ensures var t, value := SaveCommitted(s, input, payload), Saving(s.tables, input);
            && t.tables == SaveRows(s.tables, input, payload)
            && t.tables.sessions == s.tables.sessions[input.session.id := NewRow(s.tables.sessions, value)]
            && t.history == Appended(s.history, input.session.id, Commit(value, payload))
            && value.session.id == input.session.id
  {
  }

  lemma SaveKeepsDurable(s: Host, input: HostSession, payload: Payload)
    requires Durable(s.tables, s.history) && NextSave(s.tables, input)
    ensures var t := SaveCommitted(s, input, payload); Durable(t.tables, t.history)
  {
    var value := Saving(s.tables, input);
    SaveCommittedShape(s, input, payload);
    SaveKeepsRows(s.tables, input, payload);
    SaveExtendsHistory(s.tables, if input.session.id in s.history then s.history[input.session.id] else [], input, payload);
    SaveKeepsHistories(s.tables.sessions, s.history, value, NewRow(s.tables.sessions, value), payload);
    SaveKeepsLog(s.tables, s.history, input, payload);
  }

  /** A save of a live session restarts its overlay from the saved value. */
  function Restarted(live: map<Id, Live>, value: HostSession): map<Id, Live> {
    if value.session.id in live then live[value.session.id := Live(value, [])] else live
  }

  function SaveThrough(s: Host, input: HostSession, payload: Payload): Host {
    SaveCommitted(s, input, payload).(live := Restarted(s.live, Saving(s.tables, input)))
  }

  /** The payload of a save carries exactly the pending events. */
  ghost predicate Carries(live: map<Id, Live>, id: Id, payload: Payload) {
    if payload.EventsPayload? then payload.events == Pending(live, id) else Pending(live, id) == []
  }

  function Carried(payload: Payload): seq<HarnessEvent> {
    if payload.EventsPayload? then payload.events else []
  }

  lemma WrittenGrows(commits: seq<Commit>, next: Commit)
    ensures Written(commits + [next]) == Written(commits) + Carried(next.payload)
  {
    assert (commits + [next])[..|commits|] == commits;
  }

  lemma AcceptedAfterSave(accepted: map<Id, seq<HarnessEvent>>, history: map<Id, seq<Commit>>, live: map<Id, Live>,
                          value: HostSession, payload: Payload)
    requires AcceptedOk(accepted, history, live) && value.session.id in accepted
    requires Carries(live, value.session.id, payload)
    ensures AcceptedOk(accepted, Appended(history, value.session.id, Commit(value, payload)), Restarted(live, value))
  {
    var id := value.session.id;
    WrittenGrows(history[id], Commit(value, payload));
  }

  lemma RunningAfterSave(up: bool, rows: Rows, running: map<Id, Id>, id: Id, row: Row)
    requires RunningOk(up, rows, running) && id in rows
    requires row.snapshot.status == rows[id].snapshot.status && row.snapshot.runId == rows[id].snapshot.runId
    ensures RunningOk(up, rows[id := row], running)
  {
  }

  lemma LiveAfterSave(c: Config, rows: Rows, running: map<Id, Id>, live: map<Id, Live>, row: Row)
    requires LiveOk(c, rows, running, live)
    ensures LiveOk(c, rows[row.snapshot.session.id := row], running, Restarted(live, row.snapshot))
  {
    var value := row.snapshot;
    assert Overlay(c, value, []) == value;
  }

  lemma SwitchAfterSave(rows: Rows, running: map<Id, Id>, switching: set<Id>, id: Id, row: Row)
    requires SwitchOk(rows, running, switching) && id in rows && row.projectId == rows[id].projectId
    ensures SwitchOk(rows[id := row], running, switching)
  {
  }

  lemma UsedAfterSave(rows: Rows, running: map<Id, Id>, used: set<Id>, id: Id, row: Row)
    requires UsedOk(rows, running, used) && id in rows
    ensures UsedOk(rows[id := row], running, used)
  {
  }

  lemma SaveThroughGlue(c: Config, s: Host, t: Host, row: Row, payload: Payload)
    requires Inv(c, s) && Durable(t.tables, t.history) && row.snapshot.session.id in s.tables.sessions
    requires t.tables.sessions == s.tables.sessions[row.snapshot.session.id := row]
    requires t.history == Appended(s.history, row.snapshot.session.id, Commit(row.snapshot, payload))
    requires t == s.(tables := t.tables, history := t.history, live := Restarted(s.live, row.snapshot))
    requires row.projectId == s.tables.sessions[row.snapshot.session.id].projectId
    requires var stored := s.tables.sessions[row.snapshot.session.id].snapshot;
             row.snapshot.status == stored.status && row.snapshot.runId == stored.runId
    requires Carries(s.live, row.snapshot.session.id, payload)
    ensures Inv(c, t)
  {
    AcceptedAfterSave(s.accepted, s.history, s.live, row.snapshot, payload);
    RunningAfterSave(s.up, s.tables.sessions, s.running, row.snapshot.session.id, row);
    LiveAfterSave(c, s.tables.sessions, s.running, s.live, row);
    SwitchAfterSave(s.tables.sessions, s.running, s.switching, row.snapshot.session.id, row);
    UsedAfterSave(s.tables.sessions, s.running, s.used, row.snapshot.session.id, row);
  }

  /** What a save of a stored session changes. */
  lemma SaveThroughShape(s: Host, input: HostSession, payload: Payload)
    requires s.accepted.Keys == s.history.Keys == s.tables.sessions.Keys
    requires input.session.id in s.tables.sessions
    ensures var t, value := SaveThrough(s, input, payload), Saving(s.tables, input);
            && t == s.(tables := t.tables, history := t.history, live := Restarted(s.live, value))
            && t.tables.sessions == s.tables.sessions[input.session.id := NewRow(s.tables.sessions, value)]
            && t.history == Appended(s.history, input.session.id, Commit(value, payload))
    ensures var row := NewRow(s.tables.sessions, Saving(s.tables, input));
            && row.snapshot.session.id == input.session.id
            && row.snapshot.status == input.status && row.snapshot.runId == input.runId
            && row.projectId == s.tables.sessions[input.session.id].projectId
  {
  }

  lemma SaveThroughKeepsDurable(s: Host, input: HostSession, payload: Payload)
    requires Durable(s.tables, s.history) && NextSave(s.tables, input)
    ensures var t := SaveThrough(s, input, payload); Durable(t.tables, t.history)
  {
    SaveKeepsDurable(s, input, payload);
  }

  lemma SaveThroughKeeps(c: Config, s: Host, input: HostSession, payload: Payload)
    requires Inv(c, s) && NextSave(s.tables, input) && input.session.id in s.tables.sessions
    requires Carries(s.live, input.session.id, payload)
    requires var stored := s.tables.sessions[input.session.id].snapshot;
             input.status == stored.status && input.runId == stored.runId
    ensures Inv(c, SaveThrough(s, input, payload))
  {
    SaveThroughKeepsDurable(s, input, payload);
    SaveThroughShape(s, input, payload);
    SaveThroughGlue(c, s, SaveThrough(s, input, payload), NewRow(s.tables.sessions, Saving(s.tables, input)), payload);
  }

  // ---------------------------------------------------------------- flushing

  lemma NextIsNext(s: Host, id: Id, value: HostSession)
    requires Durable(s.tables, s.history) && id in s.tables.sessions && !Rejected(s.tables, value)
    requires var stored := s.tables.sessions[id].snapshot;
             value.session.id == id && value.revision == stored.revision + 1 && value.projectId == stored.projectId
    ensures NextSave(s.tables, value)
  {
  }

  /** Provider events never change which session they belong to. */
  ghost predicate KeepsIdentity(c: Config) {
    forall session: Session, event: HarnessEvent ::
      c.apply(session, event).Some? ==> c.apply(session, event).value.id == session.id
  }

  lemma {:induction false} FoldKeepsIdentity(c: Config, session: Session, events: seq<HarnessEvent>)
    requires KeepsIdentity(c)
    ensures FoldEvents(c, session, events).id == session.id
  {
    if events != [] { FoldKeepsIdentity(c, session, events[..|events| - 1]); }
  }

  lemma FlushShape(c: Config, s: Host, id: Id, now: Time, ok: bool)
    requires Durable(s.tables, s.history) && Shown(c, s, id) && KeepsIdentity(c)
    requires id in s.live && s.live[id].events != [] && !FlushThrows(s, id, now, ok)
    ensures var input := Next(s.live[id].value, now);
            && id in s.tables.sessions && input.session.id == id
            && NextSave(s.tables, input)
            && input.status == s.tables.sessions[id].snapshot.status
            && input.runId == s.tables.sessions[id].snapshot.runId
            && Flush(s, id, now, ok) == SaveThrough(s, input, EventsPayload(s.live[id].events))
  {
    var stored := s.tables.sessions[id].snapshot;
    FoldKeepsIdentity(c, stored.session, s.live[id].events);
    assert RowOk(s.tables, id);
  }

  lemma FlushKeeps(c: Config, s: Host, id: Id, now: Time, ok: bool)
    requires Inv(c, s) && KeepsIdentity(c)
    ensures Inv(c, Flush(s, id, now, ok))
  {
    if id in s.live && s.live[id].events != [] && !FlushThrows(s, id, now, ok) {
      FlushShape(c, s, id, now, ok);
      SaveThroughKeeps(c, s, Next(s.live[id].value, now), EventsPayload(s.live[id].events));
    }
  }

  /** What any flush leaves alone, and what one that does not throw empties. */
  lemma FlushFrame(s: Host, id: Id, now: Time, ok: bool)
    ensures var t := Flush(s, id, now, ok);
            && t.running == s.running && t.turns == s.turns && t.retryTimers == s.retryTimers
            && t.closing == s.closing && t.up == s.up && t.switching == s.switching
            && t.dispatched == s.dispatched && t.used == s.used
            && t.live.Keys == s.live.Keys
            && (!FlushThrows(s, id, now, ok) ==> Pending(t.live, id) == [])
  {
  }

  lemma FlushTables(s: Host, id: Id, now: Time, ok: bool)
    requires id in s.live ==> id in s.tables.sessions && s.live[id].value.session.id == id
    ensures var t := Flush(s, id, now, ok);
            && t.tables.receipts == s.tables.receipts && t.tables.projects == s.tables.projects
            && t.tables.sessions.Keys == s.tables.sessions.Keys
  {
    if id in s.live {
      assert s.tables.sessions.Keys + {id} == s.tables.sessions.Keys;
    }
  }

  lemma LiveIsKeyed(c: Config, s: Host, id: Id)
    requires Durable(s.tables, s.history) && Shown(c, s, id) && KeepsIdentity(c)
    requires id in s.live
    ensures id in s.tables.sessions && s.live[id].value.session.id == id
  {
    FoldKeepsIdentity(c, s.tables.sessions[id].snapshot.session, s.live[id].events);
    assert RowOk(s.tables, id);
  }
}
