/** Every action of the host keeps the invariant. */
module HostSteps {
  import opened Wrappers
  import opened Sessions
  import opened Protocol
  import opened Tables
  import opened Turns
  import opened HostModel
  import opened HostInvariants
  import opened HostMemory
  import Storage

  /** A freshly drawn id: recorded as drawn, and in no other place. */
  ghost predicate Unused(s: Host, uuid: Id) {
    && uuid in s.used
    && uuid !in s.turns
    && uuid !in s.dispatched
    && uuid !in s.tables.sessions
    && forall id :: id in s.running ==> s.running[id] != uuid
  }

  lemma DrawGivesUnused(c: Config, s: Host, uuid: Id)
    requires Inv(c, s) && uuid !in s.used
    ensures Inv(c, s.(used := s.used + {uuid})) && Unused(s.(used := s.used + {uuid}), uuid)
  {
    assert DispatchOk(s.turns, s.dispatched, s.used + {uuid});
    assert UsedOk(s.tables.sessions, s.running, s.used + {uuid});
  }

  // ---------------------------------------------------------------- saves of a stored session

  lemma RefreshIsSaveThrough(s: Host, input: HostSession, payload: Payload)
    requires input.session.id in s.tables.sessions && Pending(s.live, input.session.id) == []
    ensures Refresh(SaveCommitted(s, input, payload), input.session.id) == SaveThrough(s, input, payload)
  {
  }

  lemma RefreshedSaveKeeps(c: Config, s: Host, input: HostSession, payload: Payload)
    requires Inv(c, s) && NextSave(s.tables, input) && input.session.id in s.tables.sessions
    requires Pending(s.live, input.session.id) == [] && !payload.EventsPayload?
    requires var stored := s.tables.sessions[input.session.id].snapshot;
             input.status == stored.status && input.runId == stored.runId
    ensures Inv(c, Refresh(SaveCommitted(s, input, payload), input.session.id))
  {
    RefreshIsSaveThrough(s, input, payload);
    SaveThroughKeeps(c, s, input, payload);
  }

  lemma SnapshotIsKeyed(s: Host, id: Id)
    requires Durable(s.tables, s.history) && id in s.tables.sessions
    ensures s.tables.sessions[id].snapshot.session.id == id
    ensures s.tables.sessions[id].snapshot.projectId == s.tables.sessions[id].projectId
  {
    assert RowOk(s.tables, id);
  }

  /** An update of the stored value that leaves the run alone. */
  lemma UpdateCommits(c: Config, s: Host, id: Id, input: HostSession, payload: Payload)
    requires Inv(c, s) && id in s.tables.sessions && !Rejected(s.tables, input)
    requires Pending(s.live, id) == [] && !payload.EventsPayload?
    requires var stored := s.tables.sessions[id].snapshot;
             && input.session.id == stored.session.id && input.revision == stored.revision + 1
             && input.projectId == stored.projectId
             && input.status == stored.status && input.runId == stored.runId
    ensures Inv(c, Refresh(SaveCommitted(s, input, payload), id))
  {
    SnapshotIsKeyed(s, id);
    NextIsNext(s, id, input);
    RefreshedSaveKeeps(c, s, input, payload);
  }

  lemma UpdateKeeps(c: Config, s: Host, id: Id, input: HostSession, payload: Payload, ok: bool)
    requires Inv(c, s) && id in s.tables.sessions
    requires Pending(s.live, id) == [] && !payload.EventsPayload?
    requires var stored := s.tables.sessions[id].snapshot;
             && input.session.id == stored.session.id && input.revision == stored.revision + 1
             && input.projectId == stored.projectId
             && input.status == stored.status && input.runId == stored.runId
    ensures Inv(c, Update(s, input, payload, ok))
  {
    if !SaveThrows(s, input, ok) { UpdateCommits(c, s, id, input, payload); }
  }

  lemma PatchFlushedKeeps(c: Config, s: Host, id: Id, patch: Patch, ok: bool)
    requires Inv(c, s) && Pending(s.live, id) == []
    ensures Inv(c, PatchFlushed(s, id, patch, ok))
  {
    if id in s.tables.sessions && !(patch.title.Some? && !Storage.ValidTitle(patch.title.value)) {
      UpdateKeeps(c, s, id, Storage.Patched(s.tables.sessions[id].snapshot, patch), MetadataPayload(patch), ok);
    }
  }

  lemma NameFlushedKeeps(c: Config, s: Host, id: Id, expected: string, title: string, now: Time, ok: bool)
    requires Inv(c, s) && Pending(s.live, id) == []
    ensures Inv(c, NameFlushed(s, id, expected, title, now, ok))
  {
    if id in s.tables.sessions && s.tables.sessions[id].snapshot.session.title == expected {
      var current := s.tables.sessions[id].snapshot;
      UpdateKeeps(c, s, id, Next(current.(session := current.session.(title := title)), now), GeneratedTitlePayload, ok);
    }
  }

  lemma BranchFlushedKeeps(c: Config, s: Host, id: Id, branch: string, now: Time, ok: bool)
    requires Inv(c, s) && Pending(s.live, id) == []
    ensures Inv(c, BranchFlushed(s, id, branch, now, ok))
  {
    if id in s.tables.sessions {
      var current := s.tables.sessions[id].snapshot;
      UpdateKeeps(c, s, id,
                  Next(current.(autoWorktreeBranch := None, session := current.session.(branch := Some(branch))), now),
                  GeneratedBranchPayload(branch), ok);
    }
  }

  /** A flush that does not throw keeps the invariant and leaves nothing pending. */
  lemma FlushPrepares(c: Config, s: Host, id: Id, now: Time, ok: bool)
    requires Inv(c, s) && KeepsIdentity(c) && !FlushThrows(s, id, now, ok)
    ensures Inv(c, Flush(s, id, now, ok)) && Pending(Flush(s, id, now, ok).live, id) == []
  {
    FlushKeeps(c, s, id, now, ok);
    FlushFrame(s, id, now, ok);
  }

  lemma PatchKeeps(c: Config, s: Host, id: Id, patch: Patch, now: Time, flushOk: bool, saveOk: bool)
    requires Inv(c, s) && KeepsIdentity(c)
    ensures Inv(c, PatchSession(s, id, patch, now, flushOk, saveOk))
  {
    if !FlushThrows(s, id, now, flushOk) {
      FlushPrepares(c, s, id, now, flushOk);
      PatchFlushedKeeps(c, Flush(s, id, now, flushOk), id, patch, saveOk);
    }
  }

  lemma NameSessionKeeps(c: Config, s: Host, id: Id, expected: string, title: string,
                         now: Time, flushOk: bool, saveOk: bool)
    requires Inv(c, s) && KeepsIdentity(c)
    ensures Inv(c, NameSession(s, id, expected, title, now, flushOk, saveOk))
  {
    if !FlushThrows(s, id, now, flushOk) {
      FlushPrepares(c, s, id, now, flushOk);
      NameFlushedKeeps(c, Flush(s, id, now, flushOk), id, expected, title, now, saveOk);
    }
  }

  lemma NameBranchKeeps(c: Config, s: Host, id: Id, branch: string, now: Time, flushOk: bool, saveOk: bool)
    requires Inv(c, s) && KeepsIdentity(c)
    ensures Inv(c, NameBranch(s, id, branch, now, flushOk, saveOk))
  {
    if !FlushThrows(s, id, now, flushOk) {
      FlushPrepares(c, s, id, now, flushOk);
      BranchFlushedKeeps(c, Flush(s, id, now, flushOk), id, branch, now, saveOk);
    }
  }

  // ---------------------------------------------------------------- provider events

  lemma FlagKeeps(c: Config, s: Host, r: Id, turn: Turn)
    requires Inv(c, s) && r in s.turns
    requires turn.sessionId == s.turns[r].sessionId && turn.phase == s.turns[r].phase
    ensures Inv(c, s.(turns := s.turns[r := turn]))
  {
    TurnsAfterUpdate(s.closing, s.running, s.turns, s.retryTimers, r, turn);
    DispatchAfterUpdate(s.turns, s.dispatched, s.used, r, turn);
    WithTurnsIsUp(s.up, s.closing, s.turns, s.live, s.retryTimers, s.switching, r);
  }

  lemma MarkFailedKeeps(c: Config, s: Host, id: Id)
    requires Inv(c, s)
    ensures Inv(c, MarkFailed(s, id))
  {
    if id in s.running && s.running[id] in s.turns {
      FlagKeeps(c, s, s.running[id], s.turns[s.running[id]].(persistenceFailed := true));
    }
  }

  lemma ScheduledFlushKeeps(c: Config, s: Host, id: Id, now: Time, ok: bool)
    requires Inv(c, s) && KeepsIdentity(c)
    ensures Inv(c, ScheduledFlush(s, id, now, ok))
  {
    if FlushThrows(s, id, now, ok) {
      MarkFailedKeeps(c, s, id);
    } else {
      FlushKeeps(c, s, id, now, ok);
    }
  }

  lemma AcceptKeeps(c: Config, s: Host, id: Id, event: HarnessEvent)
    requires Inv(c, s) && id in s.live && c.apply(s.live[id].value.session, event).Some?
    ensures Inv(c, Accept(c, s, id, event))
  {
    var s1 := Accept(c, s, id, event);
    var next := s.live[id].value.(session := c.apply(s.live[id].value.session, event).value);
    LiveAfterEvent(c, s.tables.sessions, s.running, s.live, id, event);
    AcceptedAfterEvent(s.accepted, s.history, s.live, id, next, event);
    WithLiveIsUp(s.up, s.closing, s.turns, s.live, s.retryTimers, s.switching, id);
  }

  lemma EventKeeps(c: Config, s: Host, id: Id, runId: Id, event: HarnessEvent, now: Time, ok: bool)
    requires Inv(c, s) && KeepsIdentity(c)
    ensures Inv(c, ReceiveEvent(c, s, id, runId, event, now, ok))
  {
    if Accepts(c, s, id, runId, event) {
      AcceptKeeps(c, s, id, event);
      if event.kind !in BATCHED { ScheduledFlushKeeps(c, Accept(c, s, id, event), id, now, ok); }
    }
  }

  // ---------------------------------------------------------------- commands

  function WithReceipt(s: Host, id: Id, row: ReceiptRow): Host {
    s.(tables := s.tables.(receipts := s.tables.receipts[id := row]))
  }

  lemma ReceiptKeepsTables(tables: Tables, id: Id, row: ReceiptRow)
    requires TablesOk(tables)
    ensures TablesOk(tables.(receipts := tables.receipts[id := row]))
  {
    var more := tables.(receipts := tables.receipts[id := row]);
    forall other | other in more.sessions ensures RowOk(more, other) && Contiguous(more, other) {
      assert RowOk(tables, other) && Contiguous(tables, other);
      var first :| LogIs(tables, other, first, tables.sessions[other].snapshot.revision);
      assert LogIs(more, other, first, more.sessions[other].snapshot.revision);
    }
  }

  lemma ReceiptKeeps(c: Config, s: Host, id: Id, row: ReceiptRow)
    requires Inv(c, s)
    ensures Inv(c, WithReceipt(s, id, row))
  {
    ReceiptKeepsTables(s.tables, id, row);
    assert Durable(WithReceipt(s, id, row).tables, s.history);
  }

  /** A command that does not start a turn leaves the run of its session alone. */
  lemma DecideKeepsRun(value: HostSession, command: HostCommand, switching: set<Id>,
                       providers: Providers, around: Surroundings)
    requires !command.Create?
    requires DecideExisting(value, command, switching, providers, around).Ok?
    ensures var decided := DecideExisting(value, command, switching, providers, around).value;
            && decided.value.revision == value.revision && decided.value.projectId == value.projectId
            && decided.value.session.id == value.session.id
            && (!decided.effect.Launch? ==> decided.value.status == value.status && decided.value.runId == value.runId)
            && (decided.effect.Launch? ==>
                  && decided.effect.runId == around.uuid
                  && !value.status.Running? && value.projectId !in switching
                  && decided.value.status == Running && decided.value.runId == Some(around.uuid))
  {
  }

  lemma CancelKeeps(c: Config, s: Host, saved: HostSession)
    requires Inv(c, s)
    ensures Inv(c, Perform(s, saved, CancelTurn))
  {
    var id := saved.session.id;
    if id in s.running && s.running[id] in s.turns {
      FlagKeeps(c, s, s.running[id], s.turns[s.running[id]].(cancelled := true));
    }
  }

  /** A save of a session that is not live, seen from memory. */
  ghost predicate SavedInto(s: Host, t: Host, row: Row, payload: Payload) {
    && t == s.(tables := t.tables, history := t.history, accepted := t.accepted)
    && t.tables.sessions == s.tables.sessions[row.snapshot.session.id := row]
    && t.history == Appended(s.history, row.snapshot.session.id, Commit(row.snapshot, payload))
    && t.accepted == if row.snapshot.session.id in s.accepted then s.accepted
                     else s.accepted[row.snapshot.session.id := []]
  }

  lemma SaveCommittedInto(s: Host, input: HostSession, payload: Payload)
    ensures var row := NewRow(s.tables.sessions, Saving(s.tables, input));
            && SavedInto(s, SaveCommitted(s, input, payload), row, payload)
            && row.snapshot.session.id == input.session.id
            && row.snapshot.status == input.status && row.snapshot.runId == input.runId
            && row.snapshot.projectId == input.projectId
            && (input.session.id !in s.tables.sessions ==> row.projectId == input.projectId)
            && (input.session.id in s.tables.sessions ==>
                  row.projectId == s.tables.sessions[input.session.id].projectId)
  {
  }

  lemma UnknownHasNoMemory(c: Config, s: Host, id: Id)
    requires Inv(c, s) && id !in s.tables.sessions
    ensures id !in s.running && id !in s.live && id !in s.accepted && id !in s.history
  {
  }

  lemma IdleHasNoMemory(c: Config, s: Host, id: Id)
    requires Inv(c, s) && id in s.tables.sessions && !IsRunning(s.tables.sessions, id)
    ensures id !in s.running && id !in s.live && id in s.accepted && id in s.used
  {
  }

  /** A session that starts running, seen from the rows. */
  lemma LaunchRows(c: Config, s: Host, history: map<Id, seq<Commit>>, row: Row, payload: Payload, r: Id)
    requires Inv(c, s) && s.up && !payload.EventsPayload?
    requires history == Appended(s.history, row.snapshot.session.id, Commit(row.snapshot, payload))
    requires var id := row.snapshot.session.id;
             id !in s.live && id in s.accepted && id in s.used && row.projectId !in s.switching && r in s.used
    requires row.snapshot.status.Running? && row.snapshot.runId == Some(r)
    ensures var id := row.snapshot.session.id;
            var rows, running, live := s.tables.sessions[id := row], s.running[id := r], s.live[id := Live(row.snapshot, [])];
            && RunningOk(true, rows, running) && LiveOk(c, rows, running, live) && AcceptedOk(s.accepted, history, live)
            && UsedOk(rows, running, s.used) && SwitchOk(rows, running, s.switching)
  {
    var id := row.snapshot.session.id;
    RunningAfterLaunch(s.tables.sessions, s.running, id, row, r);
    LiveAfterLaunch(c, s.tables.sessions, s.running, s.live, row, r);
    AcceptedAfterLaunch(s.accepted, s.history, s.live, Commit(row.snapshot, payload), row.snapshot);
    UsedAfterLaunch(s.tables.sessions, s.running, s.used, id, row, r);
    SwitchAfterLaunch(s.tables.sessions, s.running, s.switching, id, row, r);
  }

  lemma LaunchTurns(c: Config, s: Host, id: Id, r: Id)
    requires Inv(c, s) && Unused(s, r) && id !in s.running
    ensures TurnsOk(s.closing, s.running[id := r], s.turns[r := Turn(id, Queued, false, false)], s.retryTimers)
    ensures DispatchOk(s.turns[r := Turn(id, Queued, false, false)], s.dispatched, s.used)
  {
    TurnsAfterLaunch(s.closing, s.running, s.turns, s.retryTimers, id, r);
    DispatchAfterLaunch(s.turns, s.dispatched, s.used, r, Turn(id, Queued, false, false));
  }

  lemma LaunchGlue(c: Config, s: Host, t: Host, row: Row, payload: Payload, r: Id)
    requires Inv(c, s) && s.up && Durable(t.tables, t.history) && SavedInto(s, t, row, payload)
    requires !payload.EventsPayload? && Unused(s, r)
    requires var id := row.snapshot.session.id;
             && id in s.tables.sessions && id !in s.running && id !in s.live && id in s.accepted && id in s.used
             && row.projectId !in s.switching
    requires row.snapshot.status.Running? && row.snapshot.runId == Some(r)
    ensures Inv(c, HostModel.Begin(t, row.snapshot, r))
  {
    LaunchRows(c, s, t.history, row, payload, r);
    LaunchTurns(c, s, row.snapshot.session.id, r);
  }

  lemma LaunchKeeps(c: Config, s: Host, id: Id, input: HostSession, payload: Payload, r: Id)
    requires Inv(c, s) && s.up && Unused(s, r) && !payload.EventsPayload?
    requires id in s.tables.sessions && !Rejected(s.tables, input)
    requires var stored := s.tables.sessions[id].snapshot;
             && input.session.id == stored.session.id && input.revision == stored.revision + 1
             && input.projectId == stored.projectId
             && !stored.status.Running? && stored.projectId !in s.switching
    requires input.status.Running? && input.runId == Some(r)
    ensures Inv(c, HostModel.Begin(SaveCommitted(s, input, payload), Saving(s.tables, input), r))
  {
    SnapshotIsKeyed(s, id);
    NextIsNext(s, id, input);
    SaveKeepsDurable(s, input, payload);
    SaveCommittedInto(s, input, payload);
    IdleHasNoMemory(c, s, id);
    LaunchGlue(c, s, SaveCommitted(s, input, payload), NewRow(s.tables.sessions, Saving(s.tables, input)), payload, r);
  }

  lemma NewRowGlue(c: Config, s: Host, t: Host, row: Row, payload: Payload)
    requires Inv(c, s) && Durable(t.tables, t.history) && SavedInto(s, t, row, payload)
    requires !payload.EventsPayload? && !row.snapshot.status.Running?
    requires var id := row.snapshot.session.id;
             id in s.used && id !in s.running && id !in s.live && id !in s.accepted
    ensures Inv(c, t)
  {
    var id := row.snapshot.session.id;
    RunningAfterNewRow(s.up, s.tables.sessions, s.running, id, row);
    LiveAfterNewRow(c, s.tables.sessions, s.running, s.live, id, row);
    AcceptedAfterNewRow(s.accepted, s.history, s.live, id, Commit(row.snapshot, payload));
    UsedAfterNewRow(s.tables.sessions, s.running, s.used, id, row);
    SwitchAfterNewRow(s.tables.sessions, s.running, s.switching, id, row);
  }

  lemma NewSessionKeeps(c: Config, s: Host, input: HostSession, payload: Payload)
    requires Inv(c, s) && Unused(s, input.session.id) && !payload.EventsPayload?
    requires !Rejected(s.tables, input) && !input.status.Running?
    ensures Inv(c, SaveCommitted(s, input, payload))
  {
    SaveKeepsDurable(s, input, payload);
    SaveCommittedInto(s, input, payload);
    UnknownHasNoMemory(c, s, input.session.id);
    NewRowGlue(c, s, SaveCommitted(s, input, payload), NewRow(s.tables.sessions, Saving(s.tables, input)), payload);
  }

  function ReceiptOf(command: HostCommand, input: HostSession): ReceiptRow {
    ReceiptRow(command, CommandReceipt(command, input))
  }

  lemma AcceptedIsUpdate(s: Host, command: HostCommand, decided: Decided, around: Surroundings)
    ensures var input := CommandInput(command, decided, around.now);
            var committed := SaveCommitted(s, input, CommandPayload(command));
            Accepted(s, command, decided, around) ==
            Perform(WithReceipt(Refresh(committed, input.session.id), command.commandId, ReceiptOf(command, input)),
                    Saving(s.tables, input), decided.effect)
  {
  }

  lemma AcceptedIsLaunch(s: Host, command: HostCommand, decided: Decided, around: Surroundings, r: Id)
    requires decided.effect == Launch(r) && decided.value.session.id !in s.live
    ensures var input := CommandInput(command, decided, around.now);
            var committed := SaveCommitted(s, input, CommandPayload(command));
            Accepted(s, command, decided, around) ==
            WithReceipt(HostModel.Begin(committed, Saving(s.tables, input), r), command.commandId,
                        ReceiptOf(command, input))
  {
  }

  lemma EffectKeeps(c: Config, s: Host, saved: HostSession, effect: Effect)
    requires Inv(c, s) && !effect.Launch?
    ensures Inv(c, Perform(s, saved, effect))
  {
    if effect.CancelTurn? { CancelKeeps(c, s, saved); }
  }

  lemma LaunchWithReceiptKeeps(c: Config, s: Host, id: Id, input: HostSession, payload: Payload, r: Id, command: HostCommand)
    requires Inv(c, s) && s.up && Unused(s, r) && !payload.EventsPayload?
    requires id in s.tables.sessions && !Rejected(s.tables, input)
    requires var stored := s.tables.sessions[id].snapshot;
             && input.session.id == stored.session.id && input.revision == stored.revision + 1
             && input.projectId == stored.projectId
             && !stored.status.Running? && stored.projectId !in s.switching
    requires input.status.Running? && input.runId == Some(r)
    ensures Inv(c, WithReceipt(HostModel.Begin(SaveCommitted(s, input, payload), Saving(s.tables, input), r),
                               command.commandId, ReceiptOf(command, input)))
  {
    LaunchKeeps(c, s, id, input, payload, r);
    ReceiptKeeps(c, HostModel.Begin(SaveCommitted(s, input, payload), Saving(s.tables, input), r),
                 command.commandId, ReceiptOf(command, input));
  }

  /** What the input of a launching command is, compared with the stored value. */
  lemma LaunchInput(c: Config, s: Host, command: HostCommand, around: Surroundings, decided: Decided)
    requires Durable(s.tables, s.history) && !command.Create? && command.sessionId in s.tables.sessions
    requires DecideExisting(s.tables.sessions[command.sessionId].snapshot, command, s.switching, c.providers, around)
             == Ok(decided)
    requires decided.effect.Launch?
    ensures var stored, input := s.tables.sessions[command.sessionId].snapshot, CommandInput(command, decided, around.now);
            && stored.session.id == command.sessionId && decided.value.session.id == command.sessionId
            && input.session.id == stored.session.id && input.revision == stored.revision + 1
            && input.projectId == stored.projectId
            && !stored.status.Running? && stored.projectId !in s.switching
            && input.status.Running? && input.runId == Some(around.uuid) && decided.effect == Launch(around.uuid)
  {
    DecideKeepsRun(s.tables.sessions[command.sessionId].snapshot, command, s.switching, c.providers, around);
    SnapshotIsKeyed(s, command.sessionId);
  }

  lemma SameState(c: Config, s: Host, t: Host)
    requires Inv(c, s) && t == s
    ensures Inv(c, t)
  {
  }

  lemma LaunchAccepted(c: Config, s: Host, command: HostCommand, around: Surroundings, decided: Decided)
    requires Inv(c, s) && s.up && Unused(s, around.uuid) && !command.Create? && command.sessionId in s.tables.sessions
    requires !Rejected(s.tables, CommandInput(command, decided, around.now))
    requires var stored, input := s.tables.sessions[command.sessionId].snapshot, CommandInput(command, decided, around.now);
             && stored.session.id == command.sessionId && decided.value.session.id == command.sessionId
             && input.session.id == stored.session.id && input.revision == stored.revision + 1
             && input.projectId == stored.projectId
             && !stored.status.Running? && stored.projectId !in s.switching
             && input.status.Running? && input.runId == Some(around.uuid) && decided.effect == Launch(around.uuid)
    ensures Inv(c, Accepted(s, command, decided, around))
  {
    IdleHasNoMemory(c, s, command.sessionId);
    var input := CommandInput(command, decided, around.now);
    var payload := CommandPayload(command);
    LaunchWithReceiptKeeps(c, s, command.sessionId, input, payload, around.uuid, command);
    AcceptedIsLaunch(s, command, decided, around, around.uuid);
    SameState(c, WithReceipt(HostModel.Begin(SaveCommitted(s, input, payload), Saving(s.tables, input), around.uuid),
                             command.commandId, ReceiptOf(command, input)),
              Accepted(s, command, decided, around));
  }

  lemma AcceptedLaunchKeeps(c: Config, s: Host, command: HostCommand, around: Surroundings, decided: Decided)
    requires Inv(c, s) && s.up && Unused(s, around.uuid)
    requires !command.Create? && command.sessionId in s.tables.sessions
    requires DecideExisting(s.tables.sessions[command.sessionId].snapshot, command, s.switching, c.providers, around)
             == Ok(decided)
    requires decided.effect.Launch? && !Rejected(s.tables, CommandInput(command, decided, around.now))
    ensures Inv(c, Accepted(s, command, decided, around))
  {
    LaunchInput(c, s, command, around, decided);
    LaunchAccepted(c, s, command, around, decided);
  }

  lemma AcceptedUpdateKeeps(c: Config, s: Host, command: HostCommand, around: Surroundings, decided: Decided)
    requires Inv(c, s)
    requires !command.Create? && command.sessionId in s.tables.sessions && Pending(s.live, command.sessionId) == []
    requires DecideExisting(s.tables.sessions[command.sessionId].snapshot, command, s.switching, c.providers, around)
             == Ok(decided)
    requires !decided.effect.Launch? && !Rejected(s.tables, CommandInput(command, decided, around.now))
    ensures Inv(c, Accepted(s, command, decided, around))
  {
    var id := command.sessionId;
    var input := CommandInput(command, decided, around.now);
    var payload := CommandPayload(command);
    DecideKeepsRun(s.tables.sessions[id].snapshot, command, s.switching, c.providers, around);
    SnapshotIsKeyed(s, id);
    var updated := Refresh(SaveCommitted(s, input, payload), id);
    UpdateCommits(c, s, id, input, payload);
    ReceiptKeeps(c, updated, command.commandId, ReceiptOf(command, input));
    EffectKeeps(c, WithReceipt(updated, command.commandId, ReceiptOf(command, input)),
                Saving(s.tables, input), decided.effect);
    AcceptedIsUpdate(s, command, decided, around);
  }

  lemma AcceptedCreateKeeps(c: Config, s: Host, command: HostCommand, around: Surroundings, decided: Decided)
    requires Inv(c, s) && Unused(s, around.uuid) && command.Create?
    requires DecideCreate(s.tables, command, s.switching, c.providers, around) == Ok(decided)
    requires !Rejected(s.tables, CommandInput(command, decided, around.now))
    ensures Inv(c, Accepted(s, command, decided, around))
  {
    var input := CommandInput(command, decided, around.now);
    NewSessionKeeps(c, s, input, CommandPayload(command));
    UnknownHasNoMemory(c, s, around.uuid);
    ReceiptKeeps(c, SaveCommitted(s, input, CommandPayload(command)), command.commandId, ReceiptOf(command, input));
    AcceptedIsUpdate(s, command, decided, around);
  }

  lemma AcceptedKeeps(c: Config, s: Host, command: HostCommand, around: Surroundings, decided: Decided)
    requires Inv(c, s) && s.up && Unused(s, around.uuid)
    requires !command.Create? ==> Pending(s.live, command.sessionId) == []
    requires Decide(s.tables, command, s.switching, c.providers, around) == Ok(decided)
    requires !Rejected(s.tables, CommandInput(command, decided, around.now))
    ensures Inv(c, Accepted(s, command, decided, around))
  {
    if command.Create? {
      AcceptedCreateKeeps(c, s, command, around, decided);
    } else if decided.effect.Launch? {
      AcceptedLaunchKeeps(c, s, command, around, decided);
    } else {
      AcceptedUpdateKeeps(c, s, command, around, decided);
    }
  }

  lemma RunFlushedOutcomes(c: Config, s: Host, command: HostCommand, around: Surroundings, ok: bool)
    ensures var decided := Decide(s.tables, command, s.switching, c.providers, around);
            RunFlushed(c, s, command, around, ok).host ==
            if decided.Ok? && !SaveThrows(s, CommandInput(command, decided.value, around.now), ok)
            then Accepted(s, command, decided.value, around) else s
  {
  }

  lemma CommandOutcomes(c: Config, s: Host, a: Action)
    requires a.DoCommand?
    ensures var t := Act(c, s, a);
            t == s || t == RunFlushed(c, Prepared(s, a.command, a.around, a.flushOk), a.command, a.around, a.saveOk).host
  {
  }

  lemma RunFlushedKeeps(c: Config, s: Host, command: HostCommand, around: Surroundings, ok: bool)
    requires Inv(c, s) && s.up && Unused(s, around.uuid)
    requires !command.Create? ==> Pending(s.live, command.sessionId) == []
    ensures Inv(c, RunFlushed(c, s, command, around, ok).host)
  {
    var decided := Decide(s.tables, command, s.switching, c.providers, around);
    RunFlushedOutcomes(c, s, command, around, ok);
    if decided.Ok? && !SaveThrows(s, CommandInput(command, decided.value, around.now), ok) {
      AcceptedKeeps(c, s, command, around, decided.value);
    }
  }

  lemma FlushKeepsUnused(c: Config, s: Host, id: Id, now: Time, ok: bool, uuid: Id)
    requires Inv(c, s) && KeepsIdentity(c) && Unused(s, uuid)
    ensures Unused(Flush(s, id, now, ok), uuid)
  {
    if id in s.live { LiveIsKeyed(c, s, id); }
    FlushFrame(s, id, now, ok);
    FlushTables(s, id, now, ok);
  }

  lemma PreparedKeeps(c: Config, s: Host, command: HostCommand, around: Surroundings, ok: bool)
    requires Inv(c, s) && s.up && KeepsIdentity(c) && Unused(s, around.uuid)
    requires !command.Create? ==> !FlushThrows(s, command.sessionId, around.now, ok)
    ensures var t := Prepared(s, command, around, ok);
            && Inv(c, t) && t.up && Unused(t, around.uuid)
            && (!command.Create? ==> Pending(t.live, command.sessionId) == [])
  {
    if !command.Create? {
      FlushPrepares(c, s, command.sessionId, around.now, ok);
      FlushKeepsUnused(c, s, command.sessionId, around.now, ok, around.uuid);
      FlushFrame(s, command.sessionId, around.now, ok);
    }
  }

  lemma CommandKeeps(c: Config, s: Host, command: HostCommand, around: Surroundings, flushOk: bool, saveOk: bool)
    requires Inv(c, s) && s.up && KeepsIdentity(c) && Unused(s, around.uuid)
    ensures Inv(c, RunCommand(c, s, command, around, flushOk, saveOk).host)
  {
    if s.closing || command.commandId in s.tables.receipts {
    } else if !command.Create? && FlushThrows(s, command.sessionId, around.now, flushOk) {
    } else {
      PreparedKeeps(c, s, command, around, flushOk);
      RunFlushedKeeps(c, Prepared(s, command, around, flushOk), command, around, saveOk);
    }
  }

  // ---------------------------------------------------------------- the run of a turn

  lemma PhaseKeeps(c: Config, s: Host, r: Id, phase: Phase)
    requires Inv(c, s) && r in s.turns
    requires !phase.RetryWaiting? && !phase.Queued? && !s.turns[r].phase.RetryWaiting?
    ensures Inv(c, SetPhase(s, r, phase))
  {
    TurnsAfterUpdate(s.closing, s.running, s.turns, s.retryTimers, r, s.turns[r].(phase := phase));
    DispatchAfterUpdate(s.turns, s.dispatched, s.used, r, s.turns[r].(phase := phase));
    WithTurnsIsUp(s.up, s.closing, s.turns, s.live, s.retryTimers, s.switching, r);
  }

  lemma DispatchKeeps(c: Config, s: Host, r: Id)
    requires Inv(c, s) && r in s.turns && s.turns[r].phase.Queued?
    ensures Inv(c, Dispatch(s, r))
  {
    TurnsAfterUpdate(s.closing, s.running, s.turns, s.retryTimers, r, s.turns[r].(phase := Sending));
    DispatchAfterSending(s.turns, s.dispatched, s.used, r);
    WithTurnsIsUp(s.up, s.closing, s.turns, s.live, s.retryTimers, s.switching, r);
  }

  lemma NotSendingKeeps(c: Config, s: Host, runId: Id, error: Option<string>)
    requires Inv(c, s) && runId in s.turns && s.turns[runId].phase.Queued?
    ensures Inv(c, SetPhase(s, runId, Stopping(error)))
  {
    PhaseKeeps(c, s, runId, Stopping(error));
  }

  lemma StartSendingKeeps(c: Config, s: Host, runId: Id, prepared: Option<string>)
    requires Inv(c, s)
    ensures Inv(c, StartSending(s, runId, prepared))
  {
    if runId in s.turns && s.turns[runId].phase.Queued? {
      if s.closing || s.turns[runId].cancelled || prepared.Some? {
        NotSendingKeeps(c, s, runId, if s.closing || s.turns[runId].cancelled then None else prepared);
      } else {
        DispatchKeeps(c, s, runId);
      }
    }
  }

  lemma ReturnedKeeps(c: Config, s: Host, runId: Id, error: Option<string>)
    requires Inv(c, s) && runId in s.turns && s.turns[runId].phase.Sending?
    ensures Inv(c, SetPhase(s, runId, Stopping(error)))
  {
    PhaseKeeps(c, s, runId, Stopping(error));
  }

  lemma SendReturnedKeeps(c: Config, s: Host, runId: Id, error: Option<string>)
    requires Inv(c, s)
    ensures Inv(c, SendReturned(s, runId, error))
  {
    if runId in s.turns && s.turns[runId].phase.Sending? { ReturnedKeeps(c, s, runId, error); }
  }

  lemma RetryLaterKeeps(c: Config, s: Host, r: Id)
    requires Inv(c, s) && r in s.turns && !s.turns[r].phase.RetryWaiting?
    ensures Inv(c, RetryLater(s, r))
  {
    NoTimerWhileActive(s.closing, s.running, s.turns, s.retryTimers, r);
    WithTurnsIsUp(s.up, s.closing, s.turns, s.live, s.retryTimers, s.switching, r);
    if s.closing {
      TurnsAfterDropping(s.running, s.turns, s.retryTimers, r);
      DispatchAfterRemoval(s.turns, s.turns - {r}, s.dispatched, s.used);
    } else {
      TurnsAfterArming(s.running, s.turns, s.retryTimers, r);
      DispatchAfterUpdate(s.turns, s.dispatched, s.used, r, s.turns[r].(phase := RetryWaiting));
    }
  }

  lemma EndLiveKeeps(c: Config, s: Host, id: Id)
    requires Inv(c, s) && Pending(s.live, id) == []
    ensures Inv(c, EndLive(s, id))
  {
    LiveAfterEnding(c, s.tables.sessions, s.running, s.live, id);
    AcceptedAfterEnding(s.accepted, s.history, s.live, id);
    assert !s.up ==> s.live - {id} == map[];
  }

  /** A row that stops running, and its session leaving the memory. */
  lemma LeaveRows(c: Config, s: Host, history: map<Id, seq<Commit>>, row: Row, payload: Payload)
    requires Inv(c, s) && !payload.EventsPayload? && !row.snapshot.status.Running?
    requires var id := row.snapshot.session.id;
             id in s.tables.sessions && Pending(s.live, id) == [] && id in s.accepted && id in s.used
    requires history == Appended(s.history, row.snapshot.session.id, Commit(row.snapshot, payload))
    ensures var id := row.snapshot.session.id;
            var rows, running, live := s.tables.sessions[id := row], s.running - {id}, s.live - {id};
            && RunningOk(s.up, rows, running) && LiveOk(c, rows, running, live) && AcceptedOk(s.accepted, history, live)
            && UsedOk(rows, running, s.used) && SwitchOk(rows, running, s.switching)
  {
    var id := row.snapshot.session.id;
    RunningAfterLeave(s.up, s.tables.sessions, s.running, id, row);
    LiveAfterLeave(c, s.tables.sessions, s.running, s.live, id, row);
    AcceptedAfterQuietSave(s.accepted, s.history, s.live, id, Commit(row.snapshot, payload));
    AcceptedAfterEnding(s.accepted, history, s.live, id);
    UsedAfterLeave(s.tables.sessions, s.running, s.used, id, row);
    SwitchAfterLeave(s.tables.sessions, s.running, s.switching, id, row);
  }

  lemma LeaveTurns(c: Config, s: Host, r: Id)
    requires Inv(c, s) && r in s.turns && !s.turns[r].phase.RetryWaiting?
    ensures TurnsOk(s.closing, s.running - {s.turns[r].sessionId}, s.turns - {r}, s.retryTimers)
    ensures DispatchOk(s.turns - {r}, s.dispatched, s.used) && s.up
  {
    TurnsAfterLeave(s.closing, s.running, s.turns, s.retryTimers, r);
    DispatchAfterRemoval(s.turns, s.turns - {r}, s.dispatched, s.used);
    WithTurnsIsUp(s.up, s.closing, s.turns, s.live, s.retryTimers, s.switching, r);
  }

  lemma LeaveAssembles(c: Config, s: Host, t: Host, row: Row, r: Id)
    requires Durable(t.tables, t.history) && s.up
    requires t == s.(tables := t.tables, history := t.history)
    requires t.tables.sessions == s.tables.sessions[row.snapshot.session.id := row]
    requires var id := row.snapshot.session.id;
             var rows, running, live := s.tables.sessions[id := row], s.running - {id}, s.live - {id};
             && RunningOk(s.up, rows, running) && LiveOk(c, rows, running, live) && AcceptedOk(s.accepted, t.history, live)
             && UsedOk(rows, running, s.used) && SwitchOk(rows, running, s.switching)
             && TurnsOk(s.closing, running, s.turns - {r}, s.retryTimers)
    requires DispatchOk(s.turns - {r}, s.dispatched, s.used)
    ensures var id := row.snapshot.session.id;
            Inv(c, t.(running := t.running - {id}, live := t.live - {id}, turns := t.turns - {r}))
  {
  }

  lemma LeaveGlue(c: Config, s: Host, t: Host, row: Row, payload: Payload, r: Id)
    requires Inv(c, s) && Durable(t.tables, t.history) && SavedInto(s, t, row, payload)
    requires !payload.EventsPayload? && !row.snapshot.status.Running?
    requires var id := row.snapshot.session.id;
             && r in s.turns && s.turns[r].sessionId == id && !s.turns[r].phase.RetryWaiting?
             && id in s.tables.sessions && Pending(s.live, id) == [] && id in s.accepted && id in s.used
    ensures var id := row.snapshot.session.id;
            Inv(c, t.(running := t.running - {id}, live := t.live - {id}, turns := t.turns - {r}))
  {
    LeaveRows(c, s, t.history, row, payload);
    LeaveTurns(c, s, r);
    LeaveAssembles(c, s, t, row, r);
  }

  lemma LeaveShape(s: Host, r: Id, calls: Calls)
    requires r in s.turns && calls.bound
    ensures var id := s.turns[r].sessionId;
            Leave(s, r, calls) == s.(running := s.running - {id}, live := s.live - {id}, turns := s.turns - {r})
  {
  }

  lemma RunningIsAccepted(c: Config, s: Host, r: Id)
    requires Inv(c, s) && r in s.turns
    ensures var id := s.turns[r].sessionId;
            && id in s.tables.sessions && id in s.accepted && id in s.used
            && IsRunning(s.tables.sessions, id) && s.tables.sessions[id].snapshot.runId == Some(r)
  {
  }

  /** The save that ends a turn, and leaving the running map. */
  lemma EndTurnCommits(c: Config, s: Host, r: Id, input: HostSession, payload: Payload, calls: Calls)
    requires Inv(c, s) && r in s.turns && !s.turns[r].phase.RetryWaiting? && calls.bound
    requires !payload.EventsPayload? && !input.status.Running? && !Rejected(s.tables, input)
    requires var id := s.turns[r].sessionId;
             && Pending(s.live, id) == [] && id in s.tables.sessions
             && var stored := s.tables.sessions[id].snapshot;
             input.session.id == stored.session.id && input.revision == stored.revision + 1
             && input.projectId == stored.projectId
    ensures Inv(c, Leave(SaveCommitted(s, input, payload), r, calls))
  {
    var id := s.turns[r].sessionId;
    SnapshotIsKeyed(s, id);
    NextIsNext(s, id, input);
    SaveKeepsDurable(s, input, payload);
    SaveCommittedInto(s, input, payload);
    RunningIsAccepted(c, s, r);
    LeaveGlue(c, s, SaveCommitted(s, input, payload), NewRow(s.tables.sessions, Saving(s.tables, input)), payload, r);
    LeaveShape(SaveCommitted(s, input, payload), r, calls);
  }

  lemma EndTurnKeeps(c: Config, s: Host, r: Id, input: HostSession, payload: Payload, calls: Calls)
    requires Inv(c, s) && r in s.turns && !s.turns[r].phase.RetryWaiting? && calls.bound
    requires !payload.EventsPayload? && !input.status.Running?
    requires var id := s.turns[r].sessionId;
             && Pending(s.live, id) == [] && id in s.tables.sessions
             && var stored := s.tables.sessions[id].snapshot;
             input.session.id == stored.session.id && input.revision == stored.revision + 1
             && input.projectId == stored.projectId
    ensures Inv(c, EndTurn(s, r, input, payload, calls))
  {
    if SaveThrows(s, input, calls.saved) {
      RetryLaterKeeps(c, s, r);
    } else {
      EndTurnCommits(c, s, r, input, payload, calls);
    }
  }

  lemma SettleFlushedKeeps(c: Config, s: Host, r: Id, now: Time, uuid: Id, calls: Calls)
    requires Inv(c, s) && r in s.turns && !s.turns[r].phase.RetryWaiting? && calls.bound
    requires Pending(s.live, s.turns[r].sessionId) == []
    ensures Inv(c, SettleFlushed(s, r, now, uuid, calls))
  {
    RunningIsAccepted(c, s, r);
    var latest := s.tables.sessions[s.turns[r].sessionId].snapshot;
    EndTurnKeeps(c, s, r, SettledInput(s, s.turns[r], latest, now, uuid), SettledPayloadOf(s.turns[r]), calls);
  }

  lemma SettleEndedKeeps(c: Config, s: Host, r: Id, now: Time, uuid: Id, calls: Calls)
    requires Inv(c, s) && r in s.turns && !s.turns[r].phase.RetryWaiting? && calls.bound
    requires Pending(s.live, s.turns[r].sessionId) == []
    ensures Inv(c, SettleFlushed(EndLive(s, s.turns[r].sessionId), r, now, uuid, calls))
  {
    EndLiveKeeps(c, s, s.turns[r].sessionId);
    SettleFlushedKeeps(c, EndLive(s, s.turns[r].sessionId), r, now, uuid, calls);
  }

  lemma SettleStoppedKeeps(c: Config, s: Host, r: Id, now: Time, uuid: Id, calls: Calls)
    requires Inv(c, s) && KeepsIdentity(c) && calls.bound
    requires r in s.turns && s.turns[r].phase.Stopping?
    requires !FlushThrows(s, s.turns[r].sessionId, now, calls.flushed)
    ensures r in Flush(s, s.turns[r].sessionId, now, calls.flushed).turns
    ensures var id := s.turns[r].sessionId;
            Inv(c, SettleFlushed(EndLive(Flush(s, id, now, calls.flushed), id), r, now, uuid, calls))
  {
    var id := s.turns[r].sessionId;
    FlushPrepares(c, s, id, now, calls.flushed);
    FlushFrame(s, id, now, calls.flushed);
    SettleEndedKeeps(c, Flush(s, id, now, calls.flushed), r, now, uuid, calls);
  }

  lemma SettleKeeps(c: Config, s: Host, r: Id, now: Time, uuid: Id, calls: Calls)
    requires Inv(c, s) && KeepsIdentity(c) && calls.bound
    ensures Inv(c, Settle(s, r, now, uuid, calls))
  {
    if r in s.turns && s.turns[r].phase.Stopping? {
      var id := s.turns[r].sessionId;
      if !calls.stopped || FlushThrows(s, id, now, calls.flushed) {
        RetryLaterKeeps(c, s, r);
      } else {
        SettleStoppedKeeps(c, s, r, now, uuid, calls);
      }
    }
  }

  lemma RetryFiredKeeps(c: Config, s: Host, id: Id)
    requires Inv(c, s)
    ensures Inv(c, RetryFired(s, id))
  {
    if id in s.retryTimers {
      var r := s.retryTimers[id];
      TurnsAfterRetryFired(s.closing, s.running, s.turns, s.retryTimers, id);
      DispatchAfterUpdate(s.turns, s.dispatched, s.used, r, s.turns[r].(phase := RetryStopping));
      WithTurnsIsUp(s.up, s.closing, s.turns, s.live, s.retryTimers, s.switching, r);
    }
  }

  lemma RetryFlushedKeeps(c: Config, s: Host, r: Id, now: Time, uuid: Id, calls: Calls)
    requires Inv(c, s) && r in s.turns && !s.turns[r].phase.RetryWaiting? && calls.bound
    requires Pending(s.live, s.turns[r].sessionId) == []
    ensures Inv(c, RetryFlushed(s, r, now, uuid, calls))
  {
    RunningIsAccepted(c, s, r);
    EndTurnKeeps(c, s, r, RetryInput(s.tables.sessions[s.turns[r].sessionId].snapshot, now, uuid),
                 InterruptedPayload, calls);
  }

  lemma RetrySettleKeeps(c: Config, s: Host, r: Id, now: Time, uuid: Id, calls: Calls)
    requires Inv(c, s) && KeepsIdentity(c) && calls.bound
    ensures Inv(c, RetrySettle(s, r, now, uuid, calls))
  {
    if r in s.turns && s.turns[r].phase.RetryStopping? {
      var id := s.turns[r].sessionId;
      if !calls.stopped || FlushThrows(s, id, now, calls.flushed) {
        RetryLaterKeeps(c, s, r);
      } else {
        RetryStoppedKeeps(c, s, r, now, uuid, calls);
      }
    }
  }

  lemma RetryStoppedKeeps(c: Config, s: Host, r: Id, now: Time, uuid: Id, calls: Calls)
    requires Inv(c, s) && KeepsIdentity(c) && calls.bound
    requires r in s.turns && s.turns[r].phase.RetryStopping?
    requires !FlushThrows(s, s.turns[r].sessionId, now, calls.flushed)
    ensures r in Flush(s, s.turns[r].sessionId, now, calls.flushed).turns
    ensures Inv(c, RetryFlushed(Flush(s, s.turns[r].sessionId, now, calls.flushed), r, now, uuid, calls))
  {
    var id := s.turns[r].sessionId;
    FlushPrepares(c, s, id, now, calls.flushed);
    FlushFrame(s, id, now, calls.flushed);
    RetryFlushedKeeps(c, Flush(s, id, now, calls.flushed), r, now, uuid, calls);
  }

  // ---------------------------------------------------------------- other requests and the process

  lemma DropKeepsTables(tables: Tables, id: Id)
    requires TablesOk(tables)
    ensures TablesOk(DropSession(tables, id))
  {
    var fewer := DropSession(tables, id);
    forall other | other in fewer.sessions ensures RowOk(fewer, other) && Contiguous(fewer, other) {
      assert RowOk(tables, other) && Contiguous(tables, other);
      var first :| LogIs(tables, other, first, tables.sessions[other].snapshot.revision);
      assert LogIs(fewer, other, first, fewer.sessions[other].snapshot.revision);
    }
  }

  lemma DeleteKeeps(c: Config, s: Host, id: Id, ok: bool)
    requires Inv(c, s)
    ensures Inv(c, Delete(s, id, ok))
  {
    if id in s.tables.sessions && !s.tables.sessions[id].snapshot.status.Running? && ok {
      DropKeepsTables(s.tables, id);
      HistoriesAfterDelete(s.tables.sessions, s.history, id);
      LogAfterDelete(s.tables, s.history, id);
      RunningAfterDelete(s.up, s.tables.sessions, s.running, id);
      LiveAfterDelete(c, s.tables.sessions, s.running, s.live, id);
      AcceptedAfterDelete(s.accepted, s.history, s.live, id);
      AfterDelete(s.tables.sessions, s.running, s.switching, s.used, id);
    }
  }

  /** The card column is current, so an idle list of cards means no session is running. */
  lemma IdleCardsMeanIdle(tables: Tables, running: map<Id, Id>, projectId: Id)
    requires TablesOk(tables) && RunningOk(true, tables.sessions, running) && ProjectIsIdle(tables, projectId)
    ensures forall id :: id in running && id in tables.sessions ==> tables.sessions[id].projectId != projectId
  {
    forall id | id in running && id in tables.sessions ensures tables.sessions[id].projectId != projectId {
      assert RowOk(tables, id);
      assert IsRunning(tables.sessions, id);
    }
  }

  lemma BeginSwitchKeeps(c: Config, s: Host, projectId: Id)
    requires Inv(c, s) && s.up
    ensures Inv(c, BeginSwitch(s, projectId))
  {
    if projectId in s.tables.projects && projectId !in s.switching && ProjectIsIdle(s.tables, projectId) {
      IdleCardsMeanIdle(s.tables, s.running, projectId);
      SwitchAfterBegin(s.tables.sessions, s.running, s.switching, projectId);
    }
  }

  lemma EndSwitchKeeps(c: Config, s: Host, projectId: Id)
    requires Inv(c, s)
    ensures Inv(c, s.(switching := s.switching - {projectId}))
  {
  }

  lemma ProjectKeepsTables(tables: Tables, projectId: Id, cwd: string)
    requires TablesOk(tables)
    ensures TablesOk(tables.(projects := tables.projects[projectId := cwd]))
  {
    var more := tables.(projects := tables.projects[projectId := cwd]);
    forall other | other in more.sessions ensures RowOk(more, other) && Contiguous(more, other) {
      assert RowOk(tables, other) && Contiguous(tables, other);
      var first :| LogIs(tables, other, first, tables.sessions[other].snapshot.revision);
      assert LogIs(more, other, first, more.sessions[other].snapshot.revision);
    }
  }

  lemma RegisterKeeps(c: Config, s: Host, projectId: Id, cwd: string)
    requires Inv(c, s)
    ensures Inv(c, RegisterProject(s, projectId, cwd))
  {
    if projectId !in s.tables.projects { ProjectKeepsTables(s.tables, projectId, cwd); }
  }

  lemma CloseKeeps(c: Config, s: Host)
    requires Inv(c, s) && s.up
    ensures Inv(c, Close(s))
  {
    TurnsAfterClose(s.closing, s.running, s.turns, s.retryTimers);
    DispatchAfterRemoval(s.turns, Close(s).turns, s.dispatched, s.used);
  }

  lemma CrashGlue(c: Config, s: Host, t: Host)
    requires Durable(s.tables, s.history) && DispatchOk(s.turns, s.dispatched, s.used)
    requires forall id :: id in s.tables.sessions ==> id in s.used
    requires t == Host(s.tables, false, false, {}, map[], map[], map[], map[], s.history, t.accepted, s.dispatched, s.used)
    requires AcceptedOk(t.accepted, t.history, map[])
    ensures Inv(c, t)
  {
    NothingRuns(c, s.tables.sessions, s.used);
    DispatchAfterRemoval(s.turns, map[], s.dispatched, s.used);
  }

  lemma CrashKeeps(c: Config, s: Host)
    requires Inv(c, s)
    ensures Inv(c, Crash(s))
  {
    OnlyWrittenIsLeft(s.history);
    CrashGlue(c, s, Crash(s));
  }

  lemma RecoverGlue(c: Config, s: Host, t: Host, row: Row, payload: Payload)
    requires Inv(c, s) && !s.up && Durable(t.tables, t.history) && SavedInto(s, t, row, payload)
    requires row.snapshot.session.id in s.tables.sessions && !payload.EventsPayload?
    ensures Inv(c, t)
  {
    AcceptedAfterQuietSave(s.accepted, s.history, s.live, row.snapshot.session.id, Commit(row.snapshot, payload));
  }

  lemma RecoverKeeps(c: Config, s: Host, id: Id, now: Time, uuid: Id, ok: bool)
    requires Inv(c, s) && !s.up
    ensures Inv(c, Recover(s, id, now, uuid, ok))
  {
    if IsRunning(s.tables.sessions, id) {
      var input := RecoveredInput(s.tables.sessions[id].snapshot, now, uuid);
      if !SaveThrows(s, input, ok) {
        SnapshotIsKeyed(s, id);
        NextIsNext(s, id, input);
        SaveKeepsDurable(s, input, InterruptedPayload);
        SaveCommittedInto(s, input, InterruptedPayload);
        RecoverGlue(c, s, SaveCommitted(s, input, InterruptedPayload),
                    NewRow(s.tables.sessions, Saving(s.tables, input)), InterruptedPayload);
      }
    }
  }

  lemma ReadyKeeps(c: Config, s: Host)
    requires Inv(c, s) && !s.up && AllRecovered(s)
    ensures Inv(c, s.(up := true))
  {
  }

  // ---------------------------------------------------------------- every step

  lemma RequestKeeps(c: Config, s: Host, a: Action)
    requires Inv(c, s) && KeepsIdentity(c)
    requires a.DoCommand? || a.DoPatch? || a.DoNameSession? || a.DoNameBranch? || a.DoDelete?
    requires Drawn(a).Some? ==> Unused(s, Drawn(a).value)
    requires a.DoCommand? ==> s.up
    ensures Inv(c, Act(c, s, a))
  {
    if a.DoCommand? {
      CommandKeeps(c, s, a.command, a.around, a.flushOk, a.saveOk);
    } else if a.DoPatch? || a.DoNameSession? {
      RenameStepKeeps(c, s, a);
    } else {
      SessionStepKeeps(c, s, a);
    }
  }

  lemma RenameStepKeeps(c: Config, s: Host, a: Action)
    requires Inv(c, s) && KeepsIdentity(c) && (a.DoPatch? || a.DoNameSession?)
    ensures Inv(c, Act(c, s, a))
  {
    match a
    case DoPatch(id, patch, now, flushOk, saveOk) => PatchKeeps(c, s, id, patch, now, flushOk, saveOk);
    case DoNameSession(id, expected, title, now, flushOk, saveOk) =>
      NameSessionKeeps(c, s, id, expected, title, now, flushOk, saveOk);
    case _ =>
  }

  lemma SessionStepKeeps(c: Config, s: Host, a: Action)
    requires Inv(c, s) && KeepsIdentity(c) && (a.DoNameBranch? || a.DoDelete?)
    ensures Inv(c, Act(c, s, a))
  {
    match a
    case DoNameBranch(id, branch, now, flushOk, saveOk) => NameBranchKeeps(c, s, id, branch, now, flushOk, saveOk);
    case DoDelete(id, saveOk) => DeleteKeeps(c, s, id, saveOk);
    case _ =>
  }

  lemma StreamStepKeeps(c: Config, s: Host, a: Action)
    requires Inv(c, s) && KeepsIdentity(c)
    requires a.DoStartSending? || a.DoSendReturned? || a.DoEvent? || a.DoFlushTimer?
    ensures Inv(c, Act(c, s, a))
  {
    match a
    case DoStartSending(runId, prepared) => StartSendingKeeps(c, s, runId, prepared);
    case DoEvent(id, runId, event, now, saveOk) => EventKeeps(c, s, id, runId, event, now, saveOk);
    case DoFlushTimer(id, now, saveOk) => ScheduledFlushKeeps(c, s, id, now, saveOk);
    case DoSendReturned(runId, error) => SendReturnedKeeps(c, s, runId, error);
    case _ =>
  }

  lemma TurnStepKeeps(c: Config, s: Host, a: Action)
    requires Inv(c, s) && KeepsIdentity(c) && Binds(a)
    requires a.DoSettle? || a.DoRetryFired? || a.DoRetrySettle?
    ensures Inv(c, Act(c, s, a))
  {
    match a
    case DoSettle(runId, now, uuid, calls) => SettleKeeps(c, s, runId, now, uuid, calls);
    case DoRetryFired(id) => RetryFiredKeeps(c, s, id);
    case DoRetrySettle(runId, now, uuid, calls) => RetrySettleKeeps(c, s, runId, now, uuid, calls);
    case _ =>
  }

  lemma ProjectStepKeeps(c: Config, s: Host, a: Action)
    requires Inv(c, s) && s.up
    requires a.DoBeginSwitch? || a.DoEndSwitch? || a.DoRegisterProject?
    ensures Inv(c, Act(c, s, a))
  {
    match a
    case DoBeginSwitch(projectId) => BeginSwitchKeeps(c, s, projectId);
    case DoEndSwitch(projectId) => EndSwitchKeeps(c, s, projectId);
    case DoRegisterProject(projectId, cwd) => RegisterKeeps(c, s, projectId, cwd);
    case _ =>
  }

  lemma StopStepKeeps(c: Config, s: Host, a: Action)
    requires Inv(c, s) && ((a.DoClose? && s.up) || a.DoCrash?)
    ensures Inv(c, Act(c, s, a))
  {
    if a.DoClose? { CloseKeeps(c, s); } else { CrashKeeps(c, s); }
  }

  lemma RestartStepKeeps(c: Config, s: Host, a: Action)
    requires Inv(c, s) && !s.up && (a.DoRecover? || (a.DoReady? && AllRecovered(s)))
    ensures Inv(c, Act(c, s, a))
  {
    if a.DoRecover? { RecoverKeeps(c, s, a.id, a.now, a.uuid, a.saveOk); } else { ReadyKeeps(c, s); }
  }

  lemma DrawKeeps(c: Config, s: Host, a: Action)
    requires Inv(c, s) && Enabled(s, a)
    ensures Inv(c, Draw(s, a))
    ensures Drawn(a).Some? ==> Unused(Draw(s, a), Drawn(a).value)
  {
    if Drawn(a).Some? {
      DrawGivesUnused(c, s, Drawn(a).value);
    } else {
      assert s.used + {} == s.used;
    }
  }

  lemma ActKeeps(c: Config, s: Host, a: Action)
    requires Inv(c, s) && KeepsIdentity(c) && Binds(a)
    requires Drawn(a).Some? ==> Unused(s, Drawn(a).value)
    requires if a.DoReady? || a.DoRecover? then !s.up else a.DoCrash? || s.up
    requires a.DoReady? ==> AllRecovered(s)
    ensures Inv(c, Act(c, s, a))
  {
    if a.DoCommand? || a.DoPatch? || a.DoNameSession? || a.DoNameBranch? || a.DoDelete? {
      RequestKeeps(c, s, a);
    } else if a.DoStartSending? || a.DoSendReturned? || a.DoEvent? || a.DoFlushTimer? {
      StreamStepKeeps(c, s, a);
    } else if a.DoSettle? || a.DoRetryFired? || a.DoRetrySettle? {
      TurnStepKeeps(c, s, a);
    } else if a.DoBeginSwitch? || a.DoEndSwitch? || a.DoRegisterProject? {
      ProjectStepKeeps(c, s, a);
    } else if a.DoClose? || a.DoCrash? {
      StopStepKeeps(c, s, a);
    } else {
      RestartStepKeeps(c, s, a);
    }
  }

  /** Every action keeps the invariant, as long as the final `bind` of a turn does not throw. */
  lemma StepKeeps(c: Config, s: Host, a: Action)
    requires Inv(c, s) && KeepsIdentity(c) && Binds(a)
    ensures Inv(c, Step(c, s, a))
  {
    if Enabled(s, a) {
      DrawKeeps(c, s, a);
      EnabledUp(s, a);
      ActKeeps(c, Draw(s, a), a);
    }
  }

  lemma EnabledUp(s: Host, a: Action)
    requires Enabled(s, a)
    ensures var d := Draw(s, a);
            && (if a.DoReady? || a.DoRecover? then !d.up else a.DoCrash? || d.up)
            && (a.DoReady? ==> AllRecovered(d))
  {
  }
}
