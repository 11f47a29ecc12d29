/**
 How any rule about the stored values is kept: a rule that depends only on the status and the
 blocks of a value holds of every row after an action, if it held before and holds of the few
 new values the action may store.
 */
module HostRows {
  import opened Wrappers
  import opened Sessions
  import opened Protocol
  import opened Tables
  import opened Turns
  import opened HostModel
  import opened HostInvariants
  import opened HostSteps
  import opened HostRuns
  import opened HostStored
  import Storage

  type Rule = HostSession -> bool

  /** Only the status and the blocks of a value matter. */
  ghost predicate Plain(p: Rule) {
    forall v: HostSession, w: HostSession ::
      v.status == w.status && v.session.blocks == w.session.blocks && p(v) ==> p(w)
  }

  ghost predicate AllRows(rows: map<Id, Row>, p: Rule) {
    forall id :: id in rows ==> p(rows[id].snapshot)
  }

  ghost predicate LiveHolds(s: Host, id: Id, p: Rule) {
    id in s.live ==> p(s.live[id].value)
  }

  /** The values that an action may store obey the rule: the overlay it flushes, the value a command
      decides on, the value after an accepted event, and the settled value of a turn. */
  ghost predicate Sources(c: Config, s: Host, a: Action, p: Rule) {
    match a
    case DoCommand(command, around, flushOk, _) =>
      command.commandId !in s.tables.receipts ==>
      && (!command.Create? ==> LiveHolds(s, command.sessionId, p))
      && var t := Prepared(s, command, around, flushOk);
      var decided := Decide(t.tables, command, t.switching, c.providers, around);
      decided.Ok? ==> p(decided.value.value)
    case DoEvent(id, runId, event, _, _) =>
      Accepts(c, s, id, runId, event) ==> LiveHolds(Accept(c, s, id, event), id, p)
    case DoFlushTimer(id, _, _) => LiveHolds(s, id, p)
    case DoSettle(r, now, uuid, calls) =>
      r in s.turns ==>
        var id, f := s.turns[r].sessionId, Flush(s, s.turns[r].sessionId, now, calls.flushed);
        && LiveHolds(s, id, p)
        && (id in f.tables.sessions ==> p(SettledInput(s, s.turns[r], f.tables.sessions[id].snapshot, now, uuid)))
    case DoRetrySettle(r, now, uuid, calls) =>
      r in s.turns ==>
        var id, f := s.turns[r].sessionId, Flush(s, s.turns[r].sessionId, now, calls.flushed);
        && LiveHolds(s, id, p)
        && (id in f.tables.sessions ==> p(RetryInput(f.tables.sessions[id].snapshot, now, uuid)))
    case DoPatch(id, _, _, _, _) => LiveHolds(s, id, p)
    case DoNameSession(id, _, _, _, _, _) => LiveHolds(s, id, p)
    case DoNameBranch(id, _, _, _, _) => LiveHolds(s, id, p)
    case DoRecover(id, now, uuid, _) =>
      id in s.tables.sessions ==> p(RecoveredInput(s.tables.sessions[id].snapshot, now, uuid))
    case _ => true
  }

  // ---------------------------------------------------------------- saves and flushes

  lemma SavedObeys(s: Host, input: HostSession, payload: Payload, p: Rule)
    requires AllRows(s.tables.sessions, p) && Plain(p) && p(input)
    ensures AllRows(SaveCommitted(s, input, payload).tables.sessions, p)
  {
    SavedRow(s, input, payload);
  }

  lemma FlushObeys(s: Host, id: Id, now: Time, ok: bool, p: Rule)
    requires AllRows(s.tables.sessions, p) && Plain(p) && LiveHolds(s, id, p)
    ensures AllRows(Flush(s, id, now, ok).tables.sessions, p)
  {
    if id in s.live && s.live[id].events != [] && !FlushThrows(s, id, now, ok) {
      SavedObeys(s, Next(s.live[id].value, now), EventsPayload(s.live[id].events), p);
    }
  }

  lemma ScheduledObeys(s: Host, id: Id, now: Time, ok: bool, p: Rule)
    requires AllRows(s.tables.sessions, p) && Plain(p) && LiveHolds(s, id, p)
    ensures AllRows(ScheduledFlush(s, id, now, ok).tables.sessions, p)
  {
    FlushObeys(s, id, now, ok, p);
    assert ScheduledFlush(s, id, now, ok).tables in {s.tables, Flush(s, id, now, ok).tables};
  }

  lemma UpdateObeys(s: Host, input: HostSession, payload: Payload, ok: bool, p: Rule)
    requires AllRows(s.tables.sessions, p) && Plain(p) && p(input)
    ensures AllRows(Update(s, input, payload, ok).tables.sessions, p)
  {
    SavedObeys(s, input, payload, p);
  }

  lemma RowsOfEvent(c: Config, s: Host, id: Id, runId: Id, event: HarnessEvent, now: Time, ok: bool)
    ensures var t := ReceiveEvent(c, s, id, runId, event, now, ok);
            || t.tables == s.tables
            || (Accepts(c, s, id, runId, event) && t == ScheduledFlush(Accept(c, s, id, event), id, now, ok))
  {
  }

  lemma EventObeys(c: Config, s: Host, id: Id, runId: Id, event: HarnessEvent, now: Time, ok: bool, p: Rule)
    requires AllRows(s.tables.sessions, p) && Plain(p)
    requires Accepts(c, s, id, runId, event) ==> LiveHolds(Accept(c, s, id, event), id, p)
    ensures AllRows(ReceiveEvent(c, s, id, runId, event, now, ok).tables.sessions, p)
  {
    RowsOfEvent(c, s, id, runId, event, now, ok);
    if Accepts(c, s, id, runId, event) { ScheduledObeys(Accept(c, s, id, event), id, now, ok, p); }
  }

  // ---------------------------------------------------------------- commands

  lemma AcceptedRows(s: Host, command: HostCommand, decided: Decided, around: Surroundings)
    ensures Accepted(s, command, decided, around).tables.sessions
            == SaveCommitted(s, CommandInput(command, decided, around.now), CommandPayload(command)).tables.sessions
  {
  }

  lemma RunFlushedObeys(c: Config, s: Host, command: HostCommand, around: Surroundings, ok: bool, p: Rule)
    requires AllRows(s.tables.sessions, p) && Plain(p)
    requires var decided := Decide(s.tables, command, s.switching, c.providers, around);
             decided.Ok? ==> p(decided.value.value)
    ensures AllRows(RunFlushed(c, s, command, around, ok).host.tables.sessions, p)
  {
    var decided := Decide(s.tables, command, s.switching, c.providers, around);
    RunFlushedOutcomes(c, s, command, around, ok);
    if decided.Ok? {
      AcceptedRows(s, command, decided.value, around);
      SavedObeys(s, CommandInput(command, decided.value, around.now), CommandPayload(command), p);
    }
  }

  lemma CommandObeys(c: Config, s: Host, a: Action, p: Rule)
    requires a.DoCommand? && AllRows(s.tables.sessions, p) && Plain(p) && Sources(c, s, a, p)
    ensures AllRows(Act(c, s, a).tables.sessions, p)
  {
    if a.command.commandId in s.tables.receipts {
      assert Act(c, s, a) == s;
    } else {
      if !a.command.Create? { FlushObeys(s, a.command.sessionId, a.around.now, a.flushOk, p); }
      RunFlushedObeys(c, Prepared(s, a.command, a.around, a.flushOk), a.command, a.around, a.saveOk, p);
      CommandOutcomes(c, s, a);
    }
  }

  // ---------------------------------------------------------------- the end of a turn

  lemma EndTurnObeys(s: Host, r: Id, input: HostSession, payload: Payload, calls: Calls, p: Rule)
    requires r in s.turns && AllRows(s.tables.sessions, p) && Plain(p) && p(input)
    ensures AllRows(EndTurn(s, r, input, payload, calls).tables.sessions, p)
  {
    SavedObeys(s, input, payload, p);
  }

  lemma SettleFlushedObeys(s: Host, r: Id, now: Time, uuid: Id, calls: Calls, p: Rule)
    requires r in s.turns && AllRows(s.tables.sessions, p) && Plain(p)
    requires var id := s.turns[r].sessionId;
             id in s.tables.sessions ==> p(SettledInput(s, s.turns[r], s.tables.sessions[id].snapshot, now, uuid))
    ensures AllRows(SettleFlushed(s, r, now, uuid, calls).tables.sessions, p)
  {
    var turn := s.turns[r];
    if turn.sessionId in s.tables.sessions {
      var latest := s.tables.sessions[turn.sessionId].snapshot;
      EndTurnObeys(s, r, SettledInput(s, turn, latest, now, uuid), SettledPayloadOf(turn), calls, p);
    }
  }

  lemma SettleObeys(c: Config, s: Host, r: Id, now: Time, uuid: Id, calls: Calls, p: Rule)
    requires AllRows(s.tables.sessions, p) && Plain(p) && Sources(c, s, DoSettle(r, now, uuid, calls), p)
    ensures AllRows(Settle(s, r, now, uuid, calls).tables.sessions, p)
  {
    if r in s.turns && s.turns[r].phase.Stopping? {
      var id := s.turns[r].sessionId;
      FlushObeys(s, id, now, calls.flushed, p);
      FlushFrame(s, id, now, calls.flushed);
      SettleFlushedObeys(EndLive(Flush(s, id, now, calls.flushed), id), r, now, uuid, calls, p);
    }
  }

  lemma RetryFlushedObeys(s: Host, r: Id, now: Time, uuid: Id, calls: Calls, p: Rule)
    requires r in s.turns && AllRows(s.tables.sessions, p) && Plain(p)
    requires var id := s.turns[r].sessionId;
             id in s.tables.sessions ==> p(RetryInput(s.tables.sessions[id].snapshot, now, uuid))
    ensures AllRows(RetryFlushed(s, r, now, uuid, calls).tables.sessions, p)
  {
    var turn := s.turns[r];
    if turn.sessionId in s.tables.sessions {
      EndTurnObeys(s, r, RetryInput(s.tables.sessions[turn.sessionId].snapshot, now, uuid), InterruptedPayload, calls, p);
    }
  }

  lemma RetryObeys(c: Config, s: Host, r: Id, now: Time, uuid: Id, calls: Calls, p: Rule)
    requires AllRows(s.tables.sessions, p) && Plain(p) && Sources(c, s, DoRetrySettle(r, now, uuid, calls), p)
    ensures AllRows(RetrySettle(s, r, now, uuid, calls).tables.sessions, p)
  {
    if r in s.turns && s.turns[r].phase.RetryStopping? {
      var id := s.turns[r].sessionId;
      FlushObeys(s, id, now, calls.flushed, p);
      FlushFrame(s, id, now, calls.flushed);
      RetryFlushedObeys(Flush(s, id, now, calls.flushed), r, now, uuid, calls, p);
    }
  }

  lemma RecoverObeys(s: Host, id: Id, now: Time, uuid: Id, ok: bool, p: Rule)
    requires AllRows(s.tables.sessions, p) && Plain(p)
    requires id in s.tables.sessions ==> p(RecoveredInput(s.tables.sessions[id].snapshot, now, uuid))
    ensures AllRows(Recover(s, id, now, uuid, ok).tables.sessions, p)
  {
    if IsRunning(s.tables.sessions, id) {
      SavedObeys(s, RecoveredInput(s.tables.sessions[id].snapshot, now, uuid), InterruptedPayload, p);
    }
  }

  // ---------------------------------------------------------------- other requests

  lemma PatchObeys(s: Host, id: Id, patch: Patch, ok: bool, p: Rule)
    requires AllRows(s.tables.sessions, p) && Plain(p)
    ensures AllRows(PatchFlushed(s, id, patch, ok).tables.sessions, p)
  {
    if id in s.tables.sessions {
      var patched := Storage.Patched(s.tables.sessions[id].snapshot, patch);
      assert patched.session.blocks == s.tables.sessions[id].snapshot.session.blocks;
      UpdateObeys(s, patched, MetadataPayload(patch), ok, p);
    }
  }

  lemma NamesObey(s: Host, id: Id, expected: string, name: string, now: Time, ok: bool, p: Rule)
    requires AllRows(s.tables.sessions, p) && Plain(p)
    ensures AllRows(NameFlushed(s, id, expected, name, now, ok).tables.sessions, p)
    ensures AllRows(BranchFlushed(s, id, name, now, ok).tables.sessions, p)
  {
    if id in s.tables.sessions {
      var value := s.tables.sessions[id].snapshot;
      var titled := Next(value.(session := value.session.(title := name)), now);
      var branched := Next(value.(autoWorktreeBranch := None, session := value.session.(branch := Some(name))), now);
      UpdateObeys(s, titled, GeneratedTitlePayload, ok, p);
      UpdateObeys(s, branched, GeneratedBranchPayload(name), ok, p);
    }
  }

  lemma FlushedRequestTables(c: Config, s: Host, a: Action)
    requires a.DoPatch? || a.DoNameSession? || a.DoNameBranch?
    ensures var t, flushed := Act(c, s, a), Flush(s, a.id, a.now, a.flushOk);
            t.tables == s.tables
            || t.tables == (match a
                            case DoPatch(id, patch, _, _, saveOk) => PatchFlushed(flushed, id, patch, saveOk)
                            case DoNameSession(id, expected, title, now, _, saveOk) =>
                              NameFlushed(flushed, id, expected, title, now, saveOk)
                            case DoNameBranch(id, branch, now, _, saveOk) =>
                              BranchFlushed(flushed, id, branch, now, saveOk)
                            case _ => flushed).tables
  {
  }

  lemma RequestObeys(c: Config, s: Host, a: Action, p: Rule)
    requires AllRows(s.tables.sessions, p) && Plain(p)
    requires (a.DoPatch? || a.DoNameSession? || a.DoNameBranch?) && LiveHolds(s, a.id, p)
    ensures AllRows(Act(c, s, a).tables.sessions, p)
  {
    FlushObeys(s, a.id, a.now, a.flushOk, p);
    FlushedRequestTables(c, s, a);
    var t := Flush(s, a.id, a.now, a.flushOk);
    if a.DoPatch? {
      PatchObeys(t, a.id, a.patch, a.saveOk, p);
    } else if a.DoNameSession? {
      NamesObey(t, a.id, a.expected, a.title, a.now, a.saveOk, p);
    } else {
      NamesObey(t, a.id, "", a.branch, a.now, a.saveOk, p);
    }
  }

  lemma OthersObey(c: Config, s: Host, a: Action, p: Rule)
    requires AllRows(s.tables.sessions, p)
    requires a.DoStartSending? || a.DoSendReturned? || a.DoRetryFired? || a.DoDelete? || a.DoBeginSwitch?
             || a.DoEndSwitch? || a.DoRegisterProject? || a.DoClose? || a.DoCrash? || a.DoReady?
    ensures AllRows(Act(c, s, a).tables.sessions, p)
  {
  }

  // ---------------------------------------------------------------- every action

  lemma TurnsObey(c: Config, s: Host, a: Action, p: Rule)
    requires AllRows(s.tables.sessions, p) && Plain(p) && Sources(c, s, a, p)
    requires a.DoSettle? || a.DoRetrySettle? || a.DoRecover?
    ensures AllRows(Act(c, s, a).tables.sessions, p)
  {
    if a.DoSettle? {
      SettleObeys(c, s, a.runId, a.now, a.uuid, a.calls, p);
    } else if a.DoRetrySettle? {
      RetryObeys(c, s, a.runId, a.now, a.uuid, a.calls, p);
    } else {
      RecoverObeys(s, a.id, a.now, a.uuid, a.saveOk, p);
    }
  }

  lemma StreamObeys(c: Config, s: Host, a: Action, p: Rule)
    requires AllRows(s.tables.sessions, p) && Plain(p) && Sources(c, s, a, p)
    requires a.DoEvent? || a.DoFlushTimer?
    ensures AllRows(Act(c, s, a).tables.sessions, p)
  {
    if a.DoEvent? {
      EventObeys(c, s, a.id, a.runId, a.event, a.now, a.saveOk, p);
    } else {
      ScheduledObeys(s, a.id, a.now, a.saveOk, p);
    }
  }

  /** An action keeps a plain rule of all rows if the values it may store obey the rule. */
  lemma ActObeys(c: Config, s: Host, a: Action, p: Rule)
    requires AllRows(s.tables.sessions, p) && Plain(p) && Sources(c, s, a, p)
    ensures AllRows(Act(c, s, a).tables.sessions, p)
  {
    if a.DoCommand? {
      CommandObeys(c, s, a, p);
    } else if a.DoEvent? || a.DoFlushTimer? {
      StreamObeys(c, s, a, p);
    } else if a.DoSettle? || a.DoRetrySettle? || a.DoRecover? {
      TurnsObey(c, s, a, p);
    } else if a.DoPatch? || a.DoNameSession? || a.DoNameBranch? {
      RequestObeys(c, s, a, p);
    } else {
      OthersObey(c, s, a, p);
    }
  }
}
