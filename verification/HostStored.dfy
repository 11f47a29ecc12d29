/**
 What every run of the host keeps, whether or not the final `bind` of a turn throws: the tables
 and their history, the overlay against the rows stored as running, the accepted events, the
 branch-switch lock. Nothing here speaks of the running map or of promise chains, so nothing
 here depends on their agreement with the store.
 */
module HostStored {
  import opened Wrappers
  import opened Sessions
  import opened Protocol
  import opened Tables
  import opened Turns
  import opened HostModel
  import opened HostInvariants
  import opened HostMemory
  import opened HostSteps
  import Storage

  /** A live session is stored as running, and its overlay is the stored value with the pending
      events applied to it. */
  ghost predicate LiveStored(c: Config, s: Host) {
    forall id :: id in s.live ==>
      && s.up && IsRunning(s.tables.sessions, id)
      && s.live[id].value == Overlay(c, s.tables.sessions[id].snapshot, s.live[id].events)
  }

  /** The runs stored as running by a process that is up have drawn ids. */
  ghost predicate RunsDrawn(s: Host) {
    forall id :: s.up && IsRunning(s.tables.sessions, id) ==>
      s.tables.sessions[id].snapshot.runId.Some? && s.tables.sessions[id].snapshot.runId.value in s.used
  }

  /** No session of a project that is switching branches is stored as running. */
  ghost predicate SwitchStored(s: Host) {
    forall id :: s.up && IsRunning(s.tables.sessions, id) ==> s.tables.sessions[id].projectId !in s.switching
  }

  ghost predicate StoreInv(c: Config, s: Host) {
    && Durable(s.tables, s.history)
    && AcceptedOk(s.accepted, s.history, s.live)
    && LiveStored(c, s)
    && RunsDrawn(s)
    && SwitchStored(s)
    && (!s.up ==> s.live == map[] && s.switching == {})
    && (forall id :: id in s.tables.sessions ==> id in s.used)
  }

  // ---------------------------------------------------------------- forgetting the running map

  function StoredRuns(rows: map<Id, Row>): map<Id, Id> {
    map id | id in rows && IsRunning(rows, id) && rows[id].snapshot.runId.Some? :: rows[id].snapshot.runId.value
  }

  /** The same host with a running map that agrees with the store, and no promise chains. */
  function Agreed(s: Host): Host {
    s.(running := if s.up then StoredRuns(s.tables.sessions) else map[],
       turns := map[], retryTimers := map[], closing := s.up, dispatched := [])
  }

  ghost predicate SameStore(s: Host, t: Host) {
    && s.tables == t.tables && s.up == t.up && s.switching == t.switching && s.live == t.live
    && s.history == t.history && s.accepted == t.accepted && s.used == t.used
  }

  lemma AgreedIsValid(c: Config, s: Host)
    requires StoreInv(c, s)
    ensures Inv(c, Agreed(s)) && SameStore(s, Agreed(s))
  {
    var t := Agreed(s);
    AgreedRuns(s);
    assert LiveOk(c, t.tables.sessions, t.running, t.live);
    assert SwitchOk(t.tables.sessions, t.running, t.switching);
  }

  lemma AgreedRuns(s: Host)
    requires RunsDrawn(s) && forall id :: id in s.tables.sessions ==> id in s.used
    ensures RunningOk(s.up, s.tables.sessions, Agreed(s).running) && UsedOk(s.tables.sessions, Agreed(s).running, s.used)
    ensures forall id :: id in Agreed(s).running <==> s.up && IsRunning(s.tables.sessions, id)
  {
  }

  lemma Forget(c: Config, s: Host, running: map<Id, Id>)
    requires Durable(s.tables, s.history) && RunningOk(s.up, s.tables.sessions, running)
    requires LiveOk(c, s.tables.sessions, running, s.live) && AcceptedOk(s.accepted, s.history, s.live)
    requires UsedOk(s.tables.sessions, running, s.used) && SwitchOk(s.tables.sessions, running, s.switching)
    requires !s.up ==> s.live == map[] && s.switching == {}
    ensures StoreInv(c, s)
  {
  }

  lemma SameStoreIsValid(c: Config, s: Host, t: Host)
    requires Inv(c, t) && SameStore(s, t)
    ensures StoreInv(c, s)
  {
    Forget(c, s, t.running);
  }

  // ---------------------------------------------------------------- requests and events

  lemma SaveCommutes(s: Host, t: Host, input: HostSession, payload: Payload)
    requires SameStore(s, t)
    ensures SameStore(SaveCommitted(s, input, payload), SaveCommitted(t, input, payload))
  {
  }

  lemma WrittenCommutes(s: Host, t: Host, id: Id, now: Time, ok: bool)
    requires SameStore(s, t) && id in s.live && s.live[id].events != [] && !FlushThrows(s, id, now, ok)
    ensures SameStore(Flush(s, id, now, ok), Flush(t, id, now, ok))
  {
    SaveCommutes(s, t, Next(s.live[id].value, now), EventsPayload(s.live[id].events));
  }

  lemma FlushCommutes(s: Host, t: Host, id: Id, now: Time, ok: bool)
    requires SameStore(s, t)
    ensures SameStore(Flush(s, id, now, ok), Flush(t, id, now, ok))
    ensures FlushThrows(s, id, now, ok) == FlushThrows(t, id, now, ok)
  {
    if id in s.live && s.live[id].events != [] && !FlushThrows(s, id, now, ok) {
      WrittenCommutes(s, t, id, now, ok);
    } else {
      assert Flush(s, id, now, ok) == s && Flush(t, id, now, ok) == t;
    }
  }

  lemma ScheduledCommutes(s: Host, t: Host, id: Id, now: Time, ok: bool)
    requires SameStore(s, t)
    ensures SameStore(ScheduledFlush(s, id, now, ok), ScheduledFlush(t, id, now, ok))
  {
    FlushCommutes(s, t, id, now, ok);
  }

  lemma EventCommutes(c: Config, s: Host, t: Host, id: Id, runId: Id, event: HarnessEvent, now: Time, ok: bool)
    requires SameStore(s, t)
    ensures SameStore(ReceiveEvent(c, s, id, runId, event, now, ok), ReceiveEvent(c, t, id, runId, event, now, ok))
  {
    if Accepts(c, s, id, runId, event) {
      ScheduledCommutes(Accept(c, s, id, event), Accept(c, t, id, event), id, now, ok);
    }
  }

  lemma RefreshCommutes(s: Host, t: Host, id: Id)
    requires SameStore(s, t)
    ensures SameStore(Refresh(s, id), Refresh(t, id))
  {
  }

  lemma AcceptKeepsStore(c: Config, s: Host, id: Id, event: HarnessEvent)
    requires StoreInv(c, s) && id in s.live && c.apply(s.live[id].value.session, event).Some?
    ensures StoreInv(c, Accept(c, s, id, event))
  {
    AgreedIsValid(c, s);
    AcceptKeeps(c, Agreed(s), id, event);
    SameStoreIsValid(c, Accept(c, s, id, event), Accept(c, Agreed(s), id, event));
  }

  lemma UpdateOutcomes(s: Host, input: HostSession, payload: Payload, ok: bool)
    ensures Update(s, input, payload, ok) ==
            if SaveThrows(s, input, ok) then s else Refresh(SaveCommitted(s, input, payload), input.session.id)
  {
  }

  lemma UpdateCommutes(s: Host, t: Host, input: HostSession, payload: Payload, ok: bool)
    requires SameStore(s, t)
    ensures SameStore(Update(s, input, payload, ok), Update(t, input, payload, ok))
  {
    UpdateOutcomes(s, input, payload, ok);
    UpdateOutcomes(t, input, payload, ok);
    SaveCommutes(s, t, input, payload);
    RefreshCommutes(SaveCommitted(s, input, payload), SaveCommitted(t, input, payload), input.session.id);
  }

  lemma PatchFlushedCommutes(s: Host, t: Host, id: Id, patch: Patch, ok: bool)
    requires SameStore(s, t)
    ensures SameStore(PatchFlushed(s, id, patch, ok), PatchFlushed(t, id, patch, ok))
  {
    if id in s.tables.sessions {
      UpdateCommutes(s, t, Storage.Patched(s.tables.sessions[id].snapshot, patch), MetadataPayload(patch), ok);
    }
  }

  lemma PatchCommutes(s: Host, t: Host, id: Id, patch: Patch, now: Time, flushOk: bool, saveOk: bool)
    requires SameStore(s, t)
    ensures SameStore(PatchSession(s, id, patch, now, flushOk, saveOk), PatchSession(t, id, patch, now, flushOk, saveOk))
  {
    FlushCommutes(s, t, id, now, flushOk);
    PatchFlushedCommutes(Flush(s, id, now, flushOk), Flush(t, id, now, flushOk), id, patch, saveOk);
  }

  lemma NameFlushedCommutes(s: Host, t: Host, id: Id, expected: string, title: string, now: Time, ok: bool)
    requires SameStore(s, t)
    ensures SameStore(NameFlushed(s, id, expected, title, now, ok), NameFlushed(t, id, expected, title, now, ok))
  {
    if id in s.tables.sessions {
      var current := s.tables.sessions[id].snapshot;
      UpdateCommutes(s, t, Next(current.(session := current.session.(title := title)), now), GeneratedTitlePayload, ok);
    }
  }

  lemma NameCommutes(s: Host, t: Host, id: Id, expected: string, title: string, now: Time, flushOk: bool, saveOk: bool)
    requires SameStore(s, t)
    ensures SameStore(NameSession(s, id, expected, title, now, flushOk, saveOk),
                      NameSession(t, id, expected, title, now, flushOk, saveOk))
  {
    FlushCommutes(s, t, id, now, flushOk);
    NameFlushedCommutes(Flush(s, id, now, flushOk), Flush(t, id, now, flushOk), id, expected, title, now, saveOk);
  }

  lemma BranchFlushedCommutes(s: Host, t: Host, id: Id, branch: string, now: Time, ok: bool)
    requires SameStore(s, t)
    ensures SameStore(BranchFlushed(s, id, branch, now, ok), BranchFlushed(t, id, branch, now, ok))
  {
    if id in s.tables.sessions {
      var current := s.tables.sessions[id].snapshot;
      UpdateCommutes(s, t, Next(current.(autoWorktreeBranch := None, session := current.session.(branch := Some(branch))),
                                now), GeneratedBranchPayload(branch), ok);
    }
  }

  lemma BranchCommutes(s: Host, t: Host, id: Id, branch: string, now: Time, flushOk: bool, saveOk: bool)
    requires SameStore(s, t)
    ensures SameStore(NameBranch(s, id, branch, now, flushOk, saveOk), NameBranch(t, id, branch, now, flushOk, saveOk))
  {
    FlushCommutes(s, t, id, now, flushOk);
    BranchFlushedCommutes(Flush(s, id, now, flushOk), Flush(t, id, now, flushOk), id, branch, now, saveOk);
  }

  lemma PerformCommutes(s: Host, t: Host, saved: HostSession, effect: Effect)
    requires SameStore(s, t)
    ensures SameStore(Perform(s, saved, effect), Perform(t, saved, effect))
  {
  }

  /** The save of a command with its receipt, shown by the overlay. */
  function Receipted(s: Host, input: HostSession, payload: Payload, commandId: Id, row: ReceiptRow): Host {
    WithReceipt(Refresh(SaveCommitted(s, input, payload), input.session.id), commandId, row)
  }

  lemma ReceiptedCommutes(s: Host, t: Host, input: HostSession, payload: Payload, commandId: Id, row: ReceiptRow)
    requires SameStore(s, t)
    ensures SameStore(Receipted(s, input, payload, commandId, row), Receipted(t, input, payload, commandId, row))
  {
    SaveCommutes(s, t, input, payload);
    RefreshCommutes(SaveCommitted(s, input, payload), SaveCommitted(t, input, payload), input.session.id);
  }

  lemma AcceptedCommutes(s: Host, t: Host, command: HostCommand, decided: Decided, around: Surroundings)
    requires SameStore(s, t)
    ensures SameStore(Accepted(s, command, decided, around), Accepted(t, command, decided, around))
  {
    var input := CommandInput(command, decided, around.now);
    var payload := CommandPayload(command);
    AcceptedIsUpdate(s, command, decided, around);
    AcceptedIsUpdate(t, command, decided, around);
    ReceiptedCommutes(s, t, input, payload, command.commandId, ReceiptOf(command, input));
    PerformCommutes(Receipted(s, input, payload, command.commandId, ReceiptOf(command, input)),
                    Receipted(t, input, payload, command.commandId, ReceiptOf(command, input)),
                    Saving(s.tables, input), decided.effect);
  }

  lemma RunFlushedCommutes(c: Config, s: Host, t: Host, command: HostCommand, around: Surroundings, ok: bool)
    requires SameStore(s, t)
    ensures SameStore(RunFlushed(c, s, command, around, ok).host, RunFlushed(c, t, command, around, ok).host)
  {
    var decided := Decide(s.tables, command, s.switching, c.providers, around);
    RunFlushedOutcomes(c, s, command, around, ok);
    RunFlushedOutcomes(c, t, command, around, ok);
    if decided.Ok? { AcceptedCommutes(s, t, command, decided.value, around); }
  }

  lemma PreparedCommutes(s: Host, t: Host, command: HostCommand, around: Surroundings, ok: bool)
    requires SameStore(s, t)
    ensures SameStore(Prepared(s, command, around, ok), Prepared(t, command, around, ok))
  {
    if !command.Create? { FlushCommutes(s, t, command.sessionId, around.now, ok); }
  }

  lemma CommandKeepsStore(c: Config, s: Host, command: HostCommand, around: Surroundings, flushOk: bool, saveOk: bool)
    requires StoreInv(c, s) && s.up && KeepsIdentity(c) && Unused(Agreed(s), around.uuid)
    ensures StoreInv(c, RunCommand(c, s, command, around, flushOk, saveOk).host)
  {
    AgreedIsValid(c, s);
    if s.closing || command.commandId in s.tables.receipts {
    } else if !command.Create? && FlushThrows(s, command.sessionId, around.now, flushOk) {
    } else {
      NewCommandKeepsStore(c, s, Agreed(s), command, around, flushOk, saveOk);
    }
  }

  lemma NewCommandKeepsStore(c: Config, s: Host, t: Host, command: HostCommand, around: Surroundings,
                             flushOk: bool, saveOk: bool)
    requires Inv(c, t) && SameStore(s, t) && s.up && KeepsIdentity(c) && Unused(t, around.uuid)
    requires !command.Create? ==> !FlushThrows(s, command.sessionId, around.now, flushOk)
    ensures StoreInv(c, RunFlushed(c, Prepared(s, command, around, flushOk), command, around, saveOk).host)
  {
    var p, q := Prepared(s, command, around, flushOk), Prepared(t, command, around, flushOk);
    if !command.Create? { FlushCommutes(s, t, command.sessionId, around.now, flushOk); }
    PreparedKeeps(c, t, command, around, flushOk);
    RunFlushedKeeps(c, q, command, around, saveOk);
    PreparedCommutes(s, t, command, around, flushOk);
    RunFlushedCommutes(c, p, q, command, around, saveOk);
    SameStoreIsValid(c, RunFlushed(c, p, command, around, saveOk).host, RunFlushed(c, q, command, around, saveOk).host);
  }

  // ---------------------------------------------------------------- the end of a turn

  lemma FlushPreparesStore(c: Config, s: Host, id: Id, now: Time, ok: bool)
    requires StoreInv(c, s) && KeepsIdentity(c) && !FlushThrows(s, id, now, ok)
    ensures StoreInv(c, Flush(s, id, now, ok)) && Pending(Flush(s, id, now, ok).live, id) == []
  {
    AgreedIsValid(c, s);
    FlushCommutes(s, Agreed(s), id, now, ok);
    FlushKeeps(c, Agreed(s), id, now, ok);
    SameStoreIsValid(c, Flush(s, id, now, ok), Flush(Agreed(s), id, now, ok));
    FlushFrame(s, id, now, ok);
  }

  lemma EndLiveKeepsStore(c: Config, s: Host, t: Host, id: Id)
    requires StoreInv(c, s) && Pending(s.live, id) == [] && SameStore(t, s.(live := s.live - {id}))
    ensures StoreInv(c, t)
  {
    AgreedIsValid(c, s);
    EndLiveKeeps(c, Agreed(s), id);
    SameStoreIsValid(c, t, EndLive(Agreed(s), id));
  }

  lemma RetryLaterIsInvisible(s: Host, r: Id)
    requires r in s.turns
    ensures SameStore(RetryLater(s, r), s)
  {
  }

  lemma SameStoreKeeps(c: Config, s: Host, t: Host)
    requires StoreInv(c, s) && SameStore(t, s)
    ensures StoreInv(c, t)
  {
  }

  lemma RetriedIsStored(c: Config, s: Host, r: Id)
    requires StoreInv(c, s) && r in s.turns
    ensures StoreInv(c, RetryLater(s, r))
  {
    RetryLaterIsInvisible(s, r);
    SameStoreKeeps(c, s, RetryLater(s, r));
  }

  lemma LeaveShows(s: Host, r: Id, calls: Calls)
    requires r in s.turns
    ensures SameStore(Leave(s, r, calls), s.(live := s.live - {s.turns[r].sessionId}))
  {
  }

  /** A stored session that stops running and leaves the overlay, with any running map. */
  lemma LeaveStored(c: Config, s: Host, t: Host, row: Row, payload: Payload)
    requires StoreInv(c, s) && Durable(t.tables, t.history) && SavedInto(s, t, row, payload)
    requires !payload.EventsPayload? && !row.snapshot.status.Running?
    requires var id := row.snapshot.session.id; id in s.tables.sessions && Pending(s.live, id) == []
    ensures StoreInv(c, t.(live := t.live - {row.snapshot.session.id}))
  {
    var id := row.snapshot.session.id;
    AgreedIsValid(c, s);
    assert id in s.accepted && id in s.used;
    LeaveRows(c, Agreed(s), t.history, row, payload);
    LeftStored(c, s, t, row, Agreed(s).running - {id});
  }

  lemma LeftStored(c: Config, s: Host, t: Host, row: Row, running: map<Id, Id>)
    requires Durable(t.tables, t.history) && (!s.up ==> s.live == map[] && s.switching == {})
    requires t == s.(tables := t.tables, history := t.history)
    requires t.tables.sessions == s.tables.sessions[row.snapshot.session.id := row]
    requires var rows, live := s.tables.sessions[row.snapshot.session.id := row], s.live - {row.snapshot.session.id};
             && RunningOk(s.up, rows, running) && LiveOk(c, rows, running, live) && AcceptedOk(s.accepted, t.history, live)
             && UsedOk(rows, running, s.used) && SwitchOk(rows, running, s.switching)
    ensures StoreInv(c, t.(live := t.live - {row.snapshot.session.id}))
  {
    Forget(c, t.(live := t.live - {row.snapshot.session.id}), running);
  }

  lemma EndTurnKeepsStore(c: Config, s: Host, r: Id, input: HostSession, payload: Payload, calls: Calls)
    requires StoreInv(c, s) && r in s.turns && !payload.EventsPayload? && !input.status.Running?
    requires var id := s.turns[r].sessionId;
             && Pending(s.live, id) == [] && id in s.tables.sessions
             && var stored := s.tables.sessions[id].snapshot;
             input.session.id == stored.session.id && input.revision == stored.revision + 1
             && input.projectId == stored.projectId
    ensures StoreInv(c, EndTurn(s, r, input, payload, calls))
  {
    if SaveThrows(s, input, calls.saved) {
      RetriedIsStored(c, s, r);
    } else {
      EndedTurnIsStored(c, s, r, input, payload, calls);
    }
  }

  lemma EndedTurnIsStored(c: Config, s: Host, r: Id, input: HostSession, payload: Payload, calls: Calls)
    requires StoreInv(c, s) && r in s.turns && !payload.EventsPayload? && !input.status.Running?
    requires !Rejected(s.tables, input)
    requires var id := s.turns[r].sessionId;
             && Pending(s.live, id) == [] && id in s.tables.sessions
             && var stored := s.tables.sessions[id].snapshot;
             input.session.id == stored.session.id && input.revision == stored.revision + 1
             && input.projectId == stored.projectId
    ensures StoreInv(c, Leave(SaveCommitted(s, input, payload), r, calls))
  {
    SavedTurnIsStored(c, s, s.turns[r].sessionId, input, payload);
    LeftIsStored(c, SaveCommitted(s, input, payload), r, calls);
  }

  lemma LeftIsStored(c: Config, s: Host, r: Id, calls: Calls)
    requires r in s.turns && StoreInv(c, s.(live := s.live - {s.turns[r].sessionId}))
    ensures StoreInv(c, Leave(s, r, calls))
  {
    LeaveShows(s, r, calls);
    SameStoreKeeps(c, s.(live := s.live - {s.turns[r].sessionId}), Leave(s, r, calls));
  }

  lemma SavedTurnIsStored(c: Config, s: Host, id: Id, input: HostSession, payload: Payload)
    requires StoreInv(c, s) && !payload.EventsPayload? && !input.status.Running? && !Rejected(s.tables, input)
    requires Pending(s.live, id) == [] && id in s.tables.sessions
    requires var stored := s.tables.sessions[id].snapshot;
             input.session.id == stored.session.id && input.revision == stored.revision + 1
             && input.projectId == stored.projectId
    ensures var saved := SaveCommitted(s, input, payload); StoreInv(c, saved.(live := saved.live - {id}))
  {
    SnapshotIsKeyed(s, id);
    NextIsNext(s, id, input);
    SaveKeepsDurable(s, input, payload);
    SaveCommittedInto(s, input, payload);
    LeaveStored(c, s, SaveCommitted(s, input, payload), NewRow(s.tables.sessions, Saving(s.tables, input)), payload);
  }

  lemma SettleFlushedKeepsStore(c: Config, s: Host, r: Id, now: Time, uuid: Id, calls: Calls)
    requires StoreInv(c, s) && r in s.turns && Pending(s.live, s.turns[r].sessionId) == []
    ensures StoreInv(c, SettleFlushed(s, r, now, uuid, calls))
  {
    var turn := s.turns[r];
    if turn.sessionId !in s.tables.sessions {
      RetriedIsStored(c, s, r);
    } else if s.tables.sessions[turn.sessionId].snapshot.runId != Some(r) {
      LeaveShows(s, r, calls);
      EndLiveKeepsStore(c, s, Leave(s, r, calls), turn.sessionId);
    } else {
      var latest := s.tables.sessions[turn.sessionId].snapshot;
      EndTurnKeepsStore(c, s, r, SettledInput(s, turn, latest, now, uuid), SettledPayloadOf(turn), calls);
    }
  }

  lemma RetryFlushedKeepsStore(c: Config, s: Host, r: Id, now: Time, uuid: Id, calls: Calls)
    requires StoreInv(c, s) && r in s.turns && Pending(s.live, s.turns[r].sessionId) == []
    ensures StoreInv(c, RetryFlushed(s, r, now, uuid, calls))
  {
    var id := s.turns[r].sessionId;
    if id !in s.tables.sessions {
      RetriedIsStored(c, s, r);
    } else {
      var latest := s.tables.sessions[id].snapshot;
      if latest.runId != Some(r) || !latest.status.Running? {
        LeaveShows(s, r, calls);
        EndLiveKeepsStore(c, s, Leave(s, r, calls), id);
      } else {
        EndTurnKeepsStore(c, s, r, RetryInput(latest, now, uuid), InterruptedPayload, calls);
      }
    }
  }

  lemma SettleKeepsStore(c: Config, s: Host, r: Id, now: Time, uuid: Id, calls: Calls)
    requires StoreInv(c, s) && KeepsIdentity(c)
    ensures StoreInv(c, Settle(s, r, now, uuid, calls))
  {
    if r in s.turns && s.turns[r].phase.Stopping? {
      var id := s.turns[r].sessionId;
      if !calls.stopped || FlushThrows(s, id, now, calls.flushed) {
        RetriedIsStored(c, s, r);
      } else {
        var flushed := Flush(s, id, now, calls.flushed);
        FlushPreparesStore(c, s, id, now, calls.flushed);
        EndLiveKeepsStore(c, flushed, EndLive(flushed, id), id);
        SettleFlushedKeepsStore(c, EndLive(flushed, id), r, now, uuid, calls);
      }
    }
  }

  lemma RetrySettleKeepsStore(c: Config, s: Host, r: Id, now: Time, uuid: Id, calls: Calls)
    requires StoreInv(c, s) && KeepsIdentity(c)
    ensures StoreInv(c, RetrySettle(s, r, now, uuid, calls))
  {
    if r in s.turns && s.turns[r].phase.RetryStopping? {
      var id := s.turns[r].sessionId;
      if !calls.stopped || FlushThrows(s, id, now, calls.flushed) {
        RetriedIsStored(c, s, r);
      } else {
        FlushPreparesStore(c, s, id, now, calls.flushed);
        RetryFlushedKeepsStore(c, Flush(s, id, now, calls.flushed), r, now, uuid, calls);
      }
    }
  }

  // ---------------------------------------------------------------- every step

  // Some actions change only the promise chains.

  lemma SendingIsInvisible(s: Host, r: Id, error: Option<string>)
    ensures SameStore(StartSending(s, r, error), s)
  {
  }

  lemma ReturningIsInvisible(s: Host, r: Id, error: Option<string>)
    ensures SameStore(SendReturned(s, r, error), s)
  {
  }

  lemma TimersAreInvisible(s: Host, id: Id)
    ensures SameStore(RetryFired(s, id), s)
  {
  }

  lemma ClosingIsInvisible(s: Host)
    ensures SameStore(Close(s), s)
  {
  }

  lemma ChainKeepsStore(c: Config, s: Host, a: Action)
    requires StoreInv(c, s) && (a.DoStartSending? || a.DoSendReturned? || a.DoRetryFired? || a.DoClose?)
    ensures StoreInv(c, Act(c, s, a))
  {
    match a {
      case DoStartSending(runId, prepared) => SendingIsInvisible(s, runId, prepared);
      case DoSendReturned(runId, error) => ReturningIsInvisible(s, runId, error);
      case DoRetryFired(id) => TimersAreInvisible(s, id);
      case _ => ClosingIsInvisible(s);
    }
    SameStoreKeeps(c, s, Act(c, s, a));
  }

  lemma DeleteCommutes(s: Host, t: Host, id: Id, ok: bool)
    requires SameStore(s, t)
    ensures SameStore(Delete(s, id, ok), Delete(t, id, ok))
  {
  }

  lemma RecoverCommutes(s: Host, t: Host, id: Id, now: Time, uuid: Id, ok: bool)
    requires SameStore(s, t)
    ensures SameStore(Recover(s, id, now, uuid, ok), Recover(t, id, now, uuid, ok))
  {
    if IsRunning(s.tables.sessions, id) {
      SaveCommutes(s, t, RecoveredInput(s.tables.sessions[id].snapshot, now, uuid), InterruptedPayload);
    }
  }

  lemma BeginSwitchCommutes(s: Host, t: Host, projectId: Id)
    requires SameStore(s, t)
    ensures SameStore(BeginSwitch(s, projectId), BeginSwitch(t, projectId))
  {
    assert ProjectIsIdle(s.tables, projectId) == ProjectIsIdle(t.tables, projectId);
  }

  lemma RegisterCommutes(s: Host, t: Host, projectId: Id, cwd: string)
    requires SameStore(s, t)
    ensures SameStore(RegisterProject(s, projectId, cwd), RegisterProject(t, projectId, cwd))
  {
  }

  lemma CrashCommutes(s: Host, t: Host)
    requires SameStore(s, t)
    ensures SameStore(Crash(s), Crash(t))
  {
  }

  lemma ProjectKeepsStore(c: Config, s: Host, a: Action)
    requires StoreInv(c, s) && s.up && (a.DoBeginSwitch? || a.DoEndSwitch? || a.DoRegisterProject?)
    ensures StoreInv(c, Act(c, s, a))
  {
    AgreedIsValid(c, s);
    ProjectStepKeeps(c, Agreed(s), a);
    match a {
      case DoBeginSwitch(projectId) => BeginSwitchCommutes(s, Agreed(s), projectId);
      case DoRegisterProject(projectId, cwd) => RegisterCommutes(s, Agreed(s), projectId, cwd);
      case _ =>
    }
    SameStoreIsValid(c, Act(c, s, a), Act(c, Agreed(s), a));
  }

  lemma DeleteKeepsStore(c: Config, s: Host, id: Id, ok: bool)
    requires StoreInv(c, s)
    ensures StoreInv(c, Delete(s, id, ok))
  {
    AgreedIsValid(c, s);
    DeleteKeeps(c, Agreed(s), id, ok);
    DeleteCommutes(s, Agreed(s), id, ok);
    SameStoreIsValid(c, Delete(s, id, ok), Delete(Agreed(s), id, ok));
  }

  lemma CrashKeepsStore(c: Config, s: Host)
    requires StoreInv(c, s)
    ensures StoreInv(c, Crash(s))
  {
    AgreedIsValid(c, s);
    CrashKeeps(c, Agreed(s));
    CrashCommutes(s, Agreed(s));
    SameStoreIsValid(c, Crash(s), Crash(Agreed(s)));
  }

  lemma RecoverKeepsStore(c: Config, s: Host, id: Id, now: Time, uuid: Id, ok: bool)
    requires StoreInv(c, s) && !s.up
    ensures StoreInv(c, Recover(s, id, now, uuid, ok))
  {
    AgreedIsValid(c, s);
    RecoverKeeps(c, Agreed(s), id, now, uuid, ok);
    RecoverCommutes(s, Agreed(s), id, now, uuid, ok);
    SameStoreIsValid(c, Recover(s, id, now, uuid, ok), Recover(Agreed(s), id, now, uuid, ok));
  }

  lemma ReadyKeepsStore(c: Config, s: Host)
    requires StoreInv(c, s) && !s.up && AllRecovered(s)
    ensures StoreInv(c, s.(up := true))
  {
  }

  lemma ProcessKeepsStore(c: Config, s: Host, a: Action)
    requires StoreInv(c, s) && (a.DoCrash? || (!s.up && (a.DoRecover? || (a.DoReady? && AllRecovered(s)))))
    ensures StoreInv(c, Act(c, s, a))
  {
    match a
    case DoCrash => CrashKeepsStore(c, s);
    case DoRecover(id, now, uuid, saveOk) => RecoverKeepsStore(c, s, id, now, uuid, saveOk);
    case _ => ReadyKeepsStore(c, s);
  }

  lemma EventKeepsStore(c: Config, s: Host, a: Action)
    requires StoreInv(c, s) && KeepsIdentity(c) && (a.DoEvent? || a.DoFlushTimer?)
    ensures StoreInv(c, Act(c, s, a))
  {
    AgreedIsValid(c, s);
    var t := Agreed(s);
    match a {
      case DoEvent(id, runId, event, now, saveOk) =>
        EventKeeps(c, t, id, runId, event, now, saveOk);
        EventCommutes(c, s, t, id, runId, event, now, saveOk);
      case DoFlushTimer(id, now, saveOk) =>
        ScheduledFlushKeeps(c, t, id, now, saveOk);
        ScheduledCommutes(s, t, id, now, saveOk);
      case _ =>
    }
    SameStoreIsValid(c, Act(c, s, a), Act(c, t, a));
  }

  lemma PatchKeepsStore(c: Config, s: Host, id: Id, patch: Patch, now: Time, flushOk: bool, saveOk: bool)
    requires StoreInv(c, s) && KeepsIdentity(c)
    ensures StoreInv(c, PatchSession(s, id, patch, now, flushOk, saveOk))
  {
    AgreedIsValid(c, s);
    PatchKeeps(c, Agreed(s), id, patch, now, flushOk, saveOk);
    PatchCommutes(s, Agreed(s), id, patch, now, flushOk, saveOk);
    SameStoreIsValid(c, PatchSession(s, id, patch, now, flushOk, saveOk),
                     PatchSession(Agreed(s), id, patch, now, flushOk, saveOk));
  }

  lemma NameKeepsStore(c: Config, s: Host, id: Id, expected: string, title: string,
                       now: Time, flushOk: bool, saveOk: bool)
    requires StoreInv(c, s) && KeepsIdentity(c)
    ensures StoreInv(c, NameSession(s, id, expected, title, now, flushOk, saveOk))
  {
    AgreedIsValid(c, s);
    NameSessionKeeps(c, Agreed(s), id, expected, title, now, flushOk, saveOk);
    NameCommutes(s, Agreed(s), id, expected, title, now, flushOk, saveOk);
    SameStoreIsValid(c, NameSession(s, id, expected, title, now, flushOk, saveOk),
                     NameSession(Agreed(s), id, expected, title, now, flushOk, saveOk));
  }

  lemma BranchKeepsStore(c: Config, s: Host, id: Id, branch: string, now: Time, flushOk: bool, saveOk: bool)
    requires StoreInv(c, s) && KeepsIdentity(c)
    ensures StoreInv(c, NameBranch(s, id, branch, now, flushOk, saveOk))
  {
    AgreedIsValid(c, s);
    NameBranchKeeps(c, Agreed(s), id, branch, now, flushOk, saveOk);
    BranchCommutes(s, Agreed(s), id, branch, now, flushOk, saveOk);
    SameStoreIsValid(c, NameBranch(s, id, branch, now, flushOk, saveOk),
                     NameBranch(Agreed(s), id, branch, now, flushOk, saveOk));
  }

  lemma RenameKeepsStore(c: Config, s: Host, a: Action)
    requires StoreInv(c, s) && KeepsIdentity(c) && (a.DoPatch? || a.DoNameSession? || a.DoNameBranch?)
    ensures StoreInv(c, Act(c, s, a))
  {
    match a
    case DoPatch(id, patch, now, flushOk, saveOk) => PatchKeepsStore(c, s, id, patch, now, flushOk, saveOk);
    case DoNameSession(id, expected, title, now, flushOk, saveOk) =>
      NameKeepsStore(c, s, id, expected, title, now, flushOk, saveOk);
    case DoNameBranch(id, branch, now, flushOk, saveOk) => BranchKeepsStore(c, s, id, branch, now, flushOk, saveOk);
    case _ =>
  }

  lemma DrawIsUnused(c: Config, s: Host, uuid: Id)
    requires StoreInv(c, s) && uuid !in s.used
    ensures Unused(Agreed(s.(used := s.used + {uuid})), uuid)
  {
  }

  lemma MoreUsedKeepsStore(c: Config, s: Host, ids: set<Id>)
    requires StoreInv(c, s)
    ensures StoreInv(c, s.(used := s.used + ids))
  {
  }

  lemma ActKeepsStore(c: Config, s: Host, a: Action)
    requires StoreInv(c, s) && KeepsIdentity(c)
    requires if a.DoReady? || a.DoRecover? then !s.up else a.DoCrash? || s.up
    requires a.DoReady? ==> AllRecovered(s)
    requires Drawn(a).Some? ==> Unused(Agreed(s), Drawn(a).value)
    ensures StoreInv(c, Act(c, s, a))
  {
    if a.DoEvent? || a.DoFlushTimer? {
      EventKeepsStore(c, s, a);
    } else if a.DoPatch? || a.DoNameSession? || a.DoNameBranch? {
      RenameKeepsStore(c, s, a);
    } else if a.DoStartSending? || a.DoSendReturned? || a.DoRetryFired? || a.DoClose? {
      ChainKeepsStore(c, s, a);
    } else if a.DoBeginSwitch? || a.DoEndSwitch? || a.DoRegisterProject? {
      ProjectKeepsStore(c, s, a);
    } else if a.DoCrash? || a.DoRecover? || a.DoReady? {
      ProcessKeepsStore(c, s, a);
    } else {
      TurnKeepsStore(c, s, a);
    }
  }

  lemma TurnKeepsStore(c: Config, s: Host, a: Action)
    requires StoreInv(c, s) && KeepsIdentity(c) && s.up
    requires a.DoCommand? || a.DoSettle? || a.DoRetrySettle? || a.DoDelete?
    requires a.DoCommand? ==> Unused(Agreed(s), a.around.uuid)
    ensures StoreInv(c, Act(c, s, a))
  {
    match a
    case DoCommand(command, around, flushOk, saveOk) => CommandKeepsStore(c, s, command, around, flushOk, saveOk);
    case DoSettle(runId, now, uuid, calls) => SettleKeepsStore(c, s, runId, now, uuid, calls);
    case DoRetrySettle(runId, now, uuid, calls) => RetrySettleKeepsStore(c, s, runId, now, uuid, calls);
    case DoDelete(id, saveOk) => DeleteKeepsStore(c, s, id, saveOk);
    case _ =>
  }

  /** Every action keeps what is stored in order, whichever of its calls fail. */
  lemma StepKeepsStore(c: Config, s: Host, a: Action)
    requires StoreInv(c, s) && KeepsIdentity(c)
    ensures StoreInv(c, Step(c, s, a))
  {
    if Enabled(s, a) {
      EnabledIsReady(c, s, a);
      ActKeepsStore(c, Draw(s, a), a);
    }
  }

  lemma EnabledIsReady(c: Config, s: Host, a: Action)
    requires StoreInv(c, s) && Enabled(s, a)
    ensures StoreInv(c, Draw(s, a))
    ensures Drawn(a).Some? ==> Unused(Agreed(Draw(s, a)), Drawn(a).value)
    ensures if a.DoReady? || a.DoRecover? then !s.up else a.DoCrash? || s.up
    ensures a.DoReady? ==> AllRecovered(Draw(s, a))
  {
    MoreUsedKeepsStore(c, s, if Drawn(a).Some? then {Drawn(a).value} else {});
    if Drawn(a).Some? { DrawIsUnused(c, s, Drawn(a).value); }
  }

  lemma NewHostIsStored(c: Config)
    ensures StoreInv(c, NEW_HOST)
  {
  }

  /** Every run whatever keeps it. */
  lemma {:induction false} RunKeepsStore(c: Config, actions: seq<Action>)
    requires KeepsIdentity(c)
    ensures StoreInv(c, Exec(c, NEW_HOST, actions))
  {
    if actions == [] {
      NewHostIsStored(c);
    } else {
      var before := actions[..|actions| - 1];
      RunKeepsStore(c, before);
      StepKeepsStore(c, Exec(c, NEW_HOST, before), actions[|actions| - 1]);
    }
  }
}
