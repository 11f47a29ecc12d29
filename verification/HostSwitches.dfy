/** Branch switches of one project do not overlap: each ends, or the process does, before the next begins. */
module HostSwitches {
  import opened Wrappers
  import opened Sessions
  import opened Protocol
  import opened Tables
  import opened Turns
  import opened HostModel
  import opened HostSteps
  import Storage

  // ---------------------------------------------------------------- who ends a switch

  lemma FlushKeepsSwitching(s: Host, id: Id, now: Time, ok: bool)
    ensures Flush(s, id, now, ok).switching == s.switching
    ensures ScheduledFlush(s, id, now, ok).switching == s.switching
  {
  }

  lemma EventKeepsSwitching(c: Config, s: Host, id: Id, runId: Id, event: HarnessEvent, now: Time, ok: bool)
    ensures ReceiveEvent(c, s, id, runId, event, now, ok).switching == s.switching
  {
    if Accepts(c, s, id, runId, event) { FlushKeepsSwitching(Accept(c, s, id, event), id, now, ok); }
  }

  lemma RunFlushedKeepsSwitching(c: Config, s: Host, command: HostCommand, around: Surroundings, ok: bool)
    ensures RunFlushed(c, s, command, around, ok).host.switching == s.switching
  {
    var decided := Decide(s.tables, command, s.switching, c.providers, around);
    RunFlushedOutcomes(c, s, command, around, ok);
    if decided.Ok? { AcceptedIsUpdate(s, command, decided.value, around); }
  }

  lemma CommandKeepsSwitching(c: Config, s: Host, a: Action)
    requires a.DoCommand?
    ensures Act(c, s, a).switching == s.switching
  {
    if !a.command.Create? { FlushKeepsSwitching(s, a.command.sessionId, a.around.now, a.flushOk); }
    RunFlushedKeepsSwitching(c, Prepared(s, a.command, a.around, a.flushOk), a.command, a.around, a.saveOk);
    CommandOutcomes(c, s, a);
  }

  lemma LeaveKeepsSwitching(s: Host, r: Id, calls: Calls)
    requires r in s.turns
    ensures RetryLater(s, r).switching == s.switching && Leave(s, r, calls).switching == s.switching
  {
  }

  lemma EndTurnKeepsSwitching(s: Host, r: Id, input: HostSession, payload: Payload, calls: Calls)
    requires r in s.turns
    ensures EndTurn(s, r, input, payload, calls).switching == s.switching
  {
    LeaveKeepsSwitching(s, r, calls);
    LeaveKeepsSwitching(SaveCommitted(s, input, payload), r, calls);
  }

  lemma FlushedKeepsSwitching(s: Host, r: Id, now: Time, uuid: Id, calls: Calls)
    requires r in s.turns
    ensures SettleFlushed(s, r, now, uuid, calls).switching == s.switching
    ensures RetryFlushed(s, r, now, uuid, calls).switching == s.switching
  {
    var turn := s.turns[r];
    LeaveKeepsSwitching(s, r, calls);
    if turn.sessionId in s.tables.sessions {
      var latest := s.tables.sessions[turn.sessionId].snapshot;
      EndTurnKeepsSwitching(s, r, SettledInput(s, turn, latest, now, uuid), SettledPayloadOf(turn), calls);
      EndTurnKeepsSwitching(s, r, RetryInput(latest, now, uuid), InterruptedPayload, calls);
    }
  }

  lemma SettleKeepsSwitching(s: Host, r: Id, now: Time, uuid: Id, calls: Calls)
    ensures Settle(s, r, now, uuid, calls).switching == s.switching
  {
    if r in s.turns {
      var id := s.turns[r].sessionId;
      FlushKeepsSwitching(s, id, now, calls.flushed);
      LeaveKeepsSwitching(s, r, calls);
      FlushedKeepsSwitching(EndLive(Flush(s, id, now, calls.flushed), id), r, now, uuid, calls);
    }
  }

  lemma RetryKeepsSwitching(s: Host, r: Id, now: Time, uuid: Id, calls: Calls)
    ensures RetrySettle(s, r, now, uuid, calls).switching == s.switching
  {
    if r in s.turns {
      var id := s.turns[r].sessionId;
      FlushKeepsSwitching(s, id, now, calls.flushed);
      LeaveKeepsSwitching(s, r, calls);
      FlushedKeepsSwitching(Flush(s, id, now, calls.flushed), r, now, uuid, calls);
    }
  }

  lemma UpdateKeepsSwitching(s: Host, input: HostSession, payload: Payload, ok: bool)
    ensures Update(s, input, payload, ok).switching == s.switching
  {
  }

  lemma PatchKeepsSwitching(s: Host, id: Id, patch: Patch, now: Time, flushOk: bool, saveOk: bool)
    ensures PatchSession(s, id, patch, now, flushOk, saveOk).switching == s.switching
  {
    var t := Flush(s, id, now, flushOk);
    FlushKeepsSwitching(s, id, now, flushOk);
    if id in t.tables.sessions {
      UpdateKeepsSwitching(t, Storage.Patched(t.tables.sessions[id].snapshot, patch), MetadataPayload(patch), saveOk);
    }
  }

  lemma NameKeepsSwitching(s: Host, id: Id, expected: string, title: string, now: Time, flushOk: bool, saveOk: bool)
    ensures NameSession(s, id, expected, title, now, flushOk, saveOk).switching == s.switching
  {
    var t := Flush(s, id, now, flushOk);
    FlushKeepsSwitching(s, id, now, flushOk);
    if id in t.tables.sessions {
      var current := t.tables.sessions[id].snapshot;
      UpdateKeepsSwitching(t, Next(current.(session := current.session.(title := title)), now), GeneratedTitlePayload, saveOk);
    }
  }

  lemma BranchKeepsSwitching(s: Host, id: Id, branch: string, now: Time, flushOk: bool, saveOk: bool)
    ensures NameBranch(s, id, branch, now, flushOk, saveOk).switching == s.switching
  {
    var t := Flush(s, id, now, flushOk);
    FlushKeepsSwitching(s, id, now, flushOk);
    if id in t.tables.sessions {
      var current := t.tables.sessions[id].snapshot;
      UpdateKeepsSwitching(t, Next(current.(autoWorktreeBranch := None, session := current.session.(branch := Some(branch))),
                                   now), GeneratedBranchPayload(branch), saveOk);
    }
  }

  lemma RequestKeepsSwitching(c: Config, s: Host, a: Action)
    requires a.DoPatch? || a.DoNameSession? || a.DoNameBranch?
    ensures Act(c, s, a).switching == s.switching
  {
    match a
    case DoPatch(id, patch, now, flushOk, saveOk) => PatchKeepsSwitching(s, id, patch, now, flushOk, saveOk);
    case DoNameSession(id, expected, title, now, flushOk, saveOk) =>
      NameKeepsSwitching(s, id, expected, title, now, flushOk, saveOk);
    case DoNameBranch(id, branch, now, flushOk, saveOk) => BranchKeepsSwitching(s, id, branch, now, flushOk, saveOk);
    case _ =>
  }

  lemma OthersKeepSwitching(c: Config, s: Host, a: Action, projectId: Id)
    requires a.DoStartSending? || a.DoSendReturned? || a.DoRetryFired? || a.DoDelete? || a.DoBeginSwitch?
             || a.DoEndSwitch? || a.DoRegisterProject? || a.DoClose? || a.DoRecover? || a.DoReady?
    requires projectId in s.switching && a != DoEndSwitch(projectId)
    ensures projectId in Act(c, s, a).switching
  {
  }

  predicate Ends(a: Action, projectId: Id) {
    a == DoEndSwitch(projectId) || a.DoCrash?
  }

  lemma SwitchStays(c: Config, s: Host, a: Action, projectId: Id)
    requires projectId in s.switching && !Ends(a, projectId)
    ensures projectId in Step(c, s, a).switching
  {
    var d := Draw(s, a);
    match a
    case DoCommand(_, _, _, _) => CommandKeepsSwitching(c, d, a);
    case DoEvent(id, runId, event, now, saveOk) => EventKeepsSwitching(c, d, id, runId, event, now, saveOk);
    case DoFlushTimer(id, now, saveOk) => FlushKeepsSwitching(d, id, now, saveOk);
    case DoSettle(runId, now, uuid, calls) => SettleKeepsSwitching(d, runId, now, uuid, calls);
    case DoRetrySettle(runId, now, uuid, calls) => RetryKeepsSwitching(d, runId, now, uuid, calls);
    case _ =>
      if a.DoPatch? || a.DoNameSession? || a.DoNameBranch? {
        RequestKeepsSwitching(c, d, a);
      } else {
        OthersKeepSwitching(c, d, a, projectId);
      }
  }

  // ---------------------------------------------------------------- every run

  /** The k-th action of the run begins a switch of this project. */
  predicate Begins(c: Config, actions: seq<Action>, k: int, projectId: Id) {
    && 0 <= k < |actions| && actions[k] == DoBeginSwitch(projectId)
    && projectId !in Exec(c, NEW_HOST, actions[..k]).switching
    && projectId in Exec(c, NEW_HOST, actions[..k + 1]).switching
  }

  lemma {:induction false} StillSwitching(c: Config, actions: seq<Action>, i: nat, j: nat, projectId: Id)
    requires i <= j <= |actions| && projectId in Exec(c, NEW_HOST, actions[..i]).switching
    requires forall k :: i <= k < j ==> !Ends(actions[k], projectId)
    ensures projectId in Exec(c, NEW_HOST, actions[..j]).switching
    decreases j
  {
    if i < j {
      StillSwitching(c, actions, i, j - 1, projectId);
      assert actions[..j][..j - 1] == actions[..j - 1];
      SwitchStays(c, Exec(c, NEW_HOST, actions[..j - 1]), actions[j - 1], projectId);
    }
  }

  /** Between two switches of one project the first one ends, or the process does. */
  lemma SwitchesDoNotOverlap(c: Config, actions: seq<Action>, i: int, j: int, projectId: Id)
    requires Begins(c, actions, i, projectId) && Begins(c, actions, j, projectId) && i < j
    ensures exists k :: i < k < j && Ends(actions[k], projectId)
  {
    if forall k :: i < k < j ==> !Ends(actions[k], projectId) {
      StillSwitching(c, actions, i + 1, j, projectId);
    }
  }
}
