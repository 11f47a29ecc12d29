/** How each part of the host's memory changes, one invariant at a time. */
module HostMemory {
  import opened Wrappers
  import opened Sessions
  import opened Protocol
  import opened Tables
  import opened HostModel
  import opened HostInvariants

  // ---------------------------------------------------------------- promise chains

  lemma TurnsAfterUpdate(closing: bool, running: map<Id, Id>, turns: map<Id, Turn>, timers: map<Id, Id>, r: Id, turn: Turn)
    requires TurnsOk(closing, running, turns, timers) && r in turns
    requires turn.sessionId == turns[r].sessionId
    requires !turn.phase.RetryWaiting? || turns[r].phase.RetryWaiting?
    requires !turns[r].phase.RetryWaiting? || turn.phase.RetryWaiting?
    ensures TurnsOk(closing, running, turns[r := turn], timers)
  {
  }

  lemma NoTimerWhileActive(closing: bool, running: map<Id, Id>, turns: map<Id, Turn>, timers: map<Id, Id>, r: Id)
    requires TurnsOk(closing, running, turns, timers) && r in turns && !turns[r].phase.RetryWaiting?
    ensures turns[r].sessionId !in timers
  {
  }

  lemma TurnsAfterArming(running: map<Id, Id>, turns: map<Id, Turn>, timers: map<Id, Id>, r: Id)
    requires TurnsOk(false, running, turns, timers) && r in turns
    ensures TurnsOk(false, running, turns[r := turns[r].(phase := RetryWaiting)], timers[turns[r].sessionId := r])
  {
  }

  lemma TurnsAfterDropping(running: map<Id, Id>, turns: map<Id, Turn>, timers: map<Id, Id>, r: Id)
    requires TurnsOk(true, running, turns, timers) && r in turns && !turns[r].phase.RetryWaiting?
    ensures TurnsOk(true, running, turns - {r}, timers)
  {
  }

  lemma TurnsAfterLaunch(closing: bool, running: map<Id, Id>, turns: map<Id, Turn>, timers: map<Id, Id>, id: Id, r: Id)
    requires TurnsOk(closing, running, turns, timers) && id !in running && r !in turns
    requires forall other :: other in running ==> running[other] != r
    ensures TurnsOk(closing, running[id := r], turns[r := Turn(id, Queued, false, false)], timers)
  {
  }

  lemma TurnsAfterLeave(closing: bool, running: map<Id, Id>, turns: map<Id, Turn>, timers: map<Id, Id>, r: Id)
    requires TurnsOk(closing, running, turns, timers) && r in turns && !turns[r].phase.RetryWaiting?
    ensures TurnsOk(closing, running - {turns[r].sessionId}, turns - {r}, timers)
  {
  }

  lemma TurnsAfterRetryFired(closing: bool, running: map<Id, Id>, turns: map<Id, Turn>, timers: map<Id, Id>, id: Id)
    requires TurnsOk(closing, running, turns, timers) && id in timers
    ensures timers[id] in turns
    ensures TurnsOk(closing, running, turns[timers[id] := turns[timers[id]].(phase := RetryStopping)], timers - {id})
  {
  }

  lemma TurnsAfterClose(closing: bool, running: map<Id, Id>, turns: map<Id, Turn>, timers: map<Id, Id>)
    requires TurnsOk(closing, running, turns, timers)
    ensures TurnsOk(true, running, map r | r in turns && !turns[r].phase.RetryWaiting? :: turns[r], map[])
  {
  }

  // ---------------------------------------------------------------- dispatching

  lemma DispatchAfterUpdate(turns: map<Id, Turn>, dispatched: seq<Id>, used: set<Id>, r: Id, turn: Turn)
    requires DispatchOk(turns, dispatched, used) && r in turns
    requires turn.phase.Queued? ==> turns[r].phase.Queued?
    ensures DispatchOk(turns[r := turn], dispatched, used)
  {
  }

  lemma DispatchAfterSending(turns: map<Id, Turn>, dispatched: seq<Id>, used: set<Id>, r: Id)
    requires DispatchOk(turns, dispatched, used) && r in turns && turns[r].phase.Queued?
    ensures DispatchOk(turns[r := turns[r].(phase := Sending)], dispatched + [r], used)
  {
  }

  lemma DispatchAfterRemoval(turns: map<Id, Turn>, fewer: map<Id, Turn>, dispatched: seq<Id>, used: set<Id>)
    requires DispatchOk(turns, dispatched, used)
    requires forall r :: r in fewer ==> r in turns && fewer[r] == turns[r]
    ensures DispatchOk(fewer, dispatched, used)
  {
  }

  lemma DispatchAfterLaunch(turns: map<Id, Turn>, dispatched: seq<Id>, used: set<Id>, r: Id, turn: Turn)
    requires DispatchOk(turns, dispatched, used) && r in used && r !in dispatched
    ensures DispatchOk(turns[r := turn], dispatched, used)
  {
  }

  // ---------------------------------------------------------------- rows and the running map

  lemma RunningAfterLaunch(rows: map<Id, Row>, running: map<Id, Id>, id: Id, row: Row, r: Id)
    requires RunningOk(true, rows, running)
    requires row.snapshot.status.Running? && row.snapshot.runId == Some(r)
    ensures RunningOk(true, rows[id := row], running[id := r])
  {
  }

  lemma RunningAfterLeave(up: bool, rows: map<Id, Row>, running: map<Id, Id>, id: Id, row: Row)
    requires RunningOk(up, rows, running) && !row.snapshot.status.Running?
    ensures RunningOk(up, rows[id := row], running - {id})
  {
  }

  lemma RunningAfterNewRow(up: bool, rows: map<Id, Row>, running: map<Id, Id>, id: Id, row: Row)
    requires RunningOk(up, rows, running) && id !in running && !row.snapshot.status.Running?
    ensures RunningOk(up, rows[id := row], running)
  {
  }

  lemma RunningAfterDelete(up: bool, rows: map<Id, Row>, running: map<Id, Id>, id: Id)
    requires RunningOk(up, rows, running) && !IsRunning(rows, id)
    ensures RunningOk(up, rows - {id}, running)
  {
  }

  lemma LiveAfterLaunch(c: Config, rows: map<Id, Row>, running: map<Id, Id>, live: map<Id, Live>, row: Row, r: Id)
    requires LiveOk(c, rows, running, live)
    ensures var id := row.snapshot.session.id;
            LiveOk(c, rows[id := row], running[id := r], live[id := Live(row.snapshot, [])])
  {
    assert Overlay(c, row.snapshot, []) == row.snapshot;
  }

  lemma LiveAfterNewRow(c: Config, rows: map<Id, Row>, running: map<Id, Id>, live: map<Id, Live>, id: Id, row: Row)
    requires LiveOk(c, rows, running, live) && id !in live
    ensures LiveOk(c, rows[id := row], running, live)
  {
  }

  lemma LiveAfterEnding(c: Config, rows: map<Id, Row>, running: map<Id, Id>, live: map<Id, Live>, id: Id)
    requires LiveOk(c, rows, running, live)
    ensures LiveOk(c, rows, running, live - {id})
  {
  }

  lemma LiveAfterLeave(c: Config, rows: map<Id, Row>, running: map<Id, Id>, live: map<Id, Live>, id: Id, row: Row)
    requires LiveOk(c, rows, running, live)
    ensures LiveOk(c, rows[id := row], running - {id}, live - {id})
  {
  }

  lemma LiveAfterDelete(c: Config, rows: map<Id, Row>, running: map<Id, Id>, live: map<Id, Live>, id: Id)
    requires LiveOk(c, rows, running, live) && id !in running
    ensures LiveOk(c, rows - {id}, running, live)
  {
  }

  lemma LiveAfterEvent(c: Config, rows: map<Id, Row>, running: map<Id, Id>, live: map<Id, Live>, id: Id, event: HarnessEvent)
    requires LiveOk(c, rows, running, live) && id in live && c.apply(live[id].value.session, event).Some?
    ensures var next := live[id].value.(session := c.apply(live[id].value.session, event).value);
            LiveOk(c, rows, running, live[id := Live(next, live[id].events + [event])])
  {
    var events := live[id].events + [event];
    assert events[..|events| - 1] == live[id].events;
  }

  lemma AcceptedAfterEvent(accepted: map<Id, seq<HarnessEvent>>, history: map<Id, seq<Commit>>, live: map<Id, Live>,
                           id: Id, value: HostSession, event: HarnessEvent)
    requires AcceptedOk(accepted, history, live) && id in live && id in accepted
    ensures AcceptedOk(Appended(accepted, id, event), history, live[id := Live(value, live[id].events + [event])])
  {
  }

  lemma AcceptedAfterQuietSave(accepted: map<Id, seq<HarnessEvent>>, history: map<Id, seq<Commit>>, live: map<Id, Live>,
                               id: Id, commit: Commit)
    requires AcceptedOk(accepted, history, live) && !commit.payload.EventsPayload?
    ensures AcceptedOk(if id in accepted then accepted else accepted[id := Pending(live, id)],
                       Appended(history, id, commit), live)
  {
    var commits := if id in history then history[id] else [];
    WrittenQuietly(commits, commit);
    assert Written([]) == [];
  }

  lemma WrittenQuietly(commits: seq<Commit>, commit: Commit)
    requires !commit.payload.EventsPayload?
    ensures Written(commits + [commit]) == Written(commits)
  {
    WrittenGrows(commits, commit);
  }

  lemma AcceptedAfterLaunch(accepted: map<Id, seq<HarnessEvent>>, history: map<Id, seq<Commit>>, live: map<Id, Live>,
                            commit: Commit, value: HostSession)
    requires AcceptedOk(accepted, history, live) && !commit.payload.EventsPayload?
    requires value.session.id !in live && value.session.id in accepted
    ensures AcceptedOk(accepted, Appended(history, value.session.id, commit), live[value.session.id := Live(value, [])])
  {
    AcceptedAfterQuietSave(accepted, history, live, value.session.id, commit);
  }

  lemma AcceptedAfterNewRow(accepted: map<Id, seq<HarnessEvent>>, history: map<Id, seq<Commit>>, live: map<Id, Live>,
                            id: Id, commit: Commit)
    requires AcceptedOk(accepted, history, live) && !commit.payload.EventsPayload?
    requires id !in live && id !in accepted
    ensures AcceptedOk(accepted[id := []], Appended(history, id, commit), live)
  {
    AcceptedAfterQuietSave(accepted, history, live, id, commit);
  }

  /** A session leaves the overlay with nothing pending. */
  lemma AcceptedAfterEnding(accepted: map<Id, seq<HarnessEvent>>, history: map<Id, seq<Commit>>, live: map<Id, Live>, id: Id)
    requires AcceptedOk(accepted, history, live) && Pending(live, id) == []
    ensures AcceptedOk(accepted, history, live - {id})
  {
  }

  lemma AcceptedAfterDelete(accepted: map<Id, seq<HarnessEvent>>, history: map<Id, seq<Commit>>, live: map<Id, Live>, id: Id)
    requires AcceptedOk(accepted, history, live)
    ensures AcceptedOk(accepted - {id}, history - {id}, live)
  {
  }

  // ---------------------------------------------------------------- switching and drawn ids

  lemma SwitchAfterLaunch(rows: map<Id, Row>, running: map<Id, Id>, switching: set<Id>, id: Id, row: Row, r: Id)
    requires SwitchOk(rows, running, switching) && row.projectId !in switching
    ensures SwitchOk(rows[id := row], running[id := r], switching)
  {
  }

  lemma SwitchAfterLeave(rows: map<Id, Row>, running: map<Id, Id>, switching: set<Id>, id: Id, row: Row)
    requires SwitchOk(rows, running, switching)
    ensures SwitchOk(rows[id := row], running - {id}, switching)
  {
  }

  lemma SwitchAfterNewRow(rows: map<Id, Row>, running: map<Id, Id>, switching: set<Id>, id: Id, row: Row)
    requires SwitchOk(rows, running, switching) && id !in running
    ensures SwitchOk(rows[id := row], running, switching)
  {
  }

  lemma UsedAfterNewRow(rows: map<Id, Row>, running: map<Id, Id>, used: set<Id>, id: Id, row: Row)
    requires UsedOk(rows, running, used) && id in used
    ensures UsedOk(rows[id := row], running, used)
  {
  }

  lemma UsedAfterLaunch(rows: map<Id, Row>, running: map<Id, Id>, used: set<Id>, id: Id, row: Row, r: Id)
    requires UsedOk(rows, running, used) && id in used && r in used
    ensures UsedOk(rows[id := row], running[id := r], used)
  {
  }

  lemma UsedAfterLeave(rows: map<Id, Row>, running: map<Id, Id>, used: set<Id>, id: Id, row: Row)
    requires UsedOk(rows, running, used) && id in used
    ensures UsedOk(rows[id := row], running - {id}, used)
  {
  }

  // ---------------------------------------------------------------- the process

  lemma WithTurnsIsUp(up: bool, closing: bool, turns: map<Id, Turn>, live: map<Id, Live>,
                      timers: map<Id, Id>, switching: set<Id>, r: Id)
    requires MemoryOk(up, closing, turns, live, timers, switching) && r in turns
    ensures up
  {
  }

  lemma WithLiveIsUp(up: bool, closing: bool, turns: map<Id, Turn>, live: map<Id, Live>,
                     timers: map<Id, Id>, switching: set<Id>, id: Id)
    requires MemoryOk(up, closing, turns, live, timers, switching) && id in live
    ensures up
  {
  }

  lemma SwitchAfterBegin(rows: map<Id, Row>, running: map<Id, Id>, switching: set<Id>, projectId: Id)
    requires SwitchOk(rows, running, switching)
    requires forall id :: id in running && id in rows ==> rows[id].projectId != projectId
    ensures SwitchOk(rows, running, switching + {projectId})
  {
  }

  lemma AfterDelete(rows: map<Id, Row>, running: map<Id, Id>, switching: set<Id>, used: set<Id>, id: Id)
    requires SwitchOk(rows, running, switching) && UsedOk(rows, running, used)
    ensures SwitchOk(rows - {id}, running, switching) && UsedOk(rows - {id}, running, used)
  {
  }

  lemma HistoriesAfterDelete(rows: map<Id, Row>, history: map<Id, seq<Commit>>, id: Id)
    requires Histories(rows, history)
    ensures Histories(rows - {id}, history - {id})
  {
  }

  lemma LogAfterDelete(tables: Tables, history: map<Id, seq<Commit>>, id: Id)
    requires LogMatches(tables.events, history)
    ensures LogMatches(DropSession(tables, id).events, history - {id})
  {
  }

  /** What is left once the memory is gone. */
  lemma NothingRuns(c: Config, rows: map<Id, Row>, used: set<Id>)
    requires forall id :: id in rows ==> id in used
    ensures RunningOk(false, rows, map[]) && LiveOk(c, rows, map[], map[]) && TurnsOk(false, map[], map[], map[])
    ensures MemoryOk(false, false, map[], map[], map[], {})
    ensures UsedOk(rows, map[], used) && SwitchOk(rows, map[], {})
  {
  }

  lemma OnlyWrittenIsLeft(history: map<Id, seq<Commit>>)
    ensures AcceptedOk(map id | id in history :: Written(history[id]), history, map[])
  {
  }
}
