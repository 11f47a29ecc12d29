/** What the actions of the host leave alone: receipts once given, and runs until they are settled. */
module HostFrames {
  import opened Wrappers
  import opened Sessions
  import opened Protocol
  import opened Tables
  import opened Turns
  import opened HostModel
  import opened HostInvariants
  import opened HostSteps
  import Storage

  // ---------------------------------------------------------------- receipts

  predicate Extends<K, V(==)>(more: map<K, V>, fewer: map<K, V>) {
    forall k :: k in fewer ==> k in more && more[k] == fewer[k]
  }

  lemma RunFlushedExtendsReceipts(c: Config, s: Host, command: HostCommand, around: Surroundings, ok: bool)
    requires command.commandId !in s.tables.receipts
    ensures var outcome := RunFlushed(c, s, command, around, ok);
            && Extends(outcome.host.tables.receipts, s.tables.receipts)
            && (Replied(outcome.reply) ==>
                  exists receipt: Receipt ::
                    && (outcome.reply.Ok? ==> outcome.reply.value == receipt)
                    && outcome.host.tables.receipts ==
                       s.tables.receipts[command.commandId := ReceiptRow(command, receipt)])
            && (!Replied(outcome.reply) ==> outcome.host == s)
  {
    NeverAProviderError(s.tables, command, s.switching, c.providers, around);
  }

  /** The transaction of a command was committed: the client got a receipt, or the error of the
      provider that the effect was passed on to. */
  predicate Replied(reply: Result<Receipt, HostError>) {
    reply.Ok? || reply.error.ProviderFailed?
  }

  lemma NeverAProviderError(tables: Tables, command: HostCommand, switching: set<Id>, providers: Providers,
                            around: Surroundings)
    ensures var decided := Decide(tables, command, switching, providers, around);
            decided.Err? ==> !decided.error.ProviderFailed?
  {
  }

  /** What a command does to the receipts, in every state and however its environment behaves. */
  lemma CommandReceipts(c: Config, s: Host, command: HostCommand, around: Surroundings, flushOk: bool, saveOk: bool)
    ensures var outcome := RunCommand(c, s, command, around, flushOk, saveOk);
            && Extends(outcome.host.tables.receipts, s.tables.receipts)
            && (Replied(outcome.reply) ==>
                  && command.commandId in outcome.host.tables.receipts
                  && outcome.host.tables.receipts[command.commandId].command == command
                  && (outcome.reply.Ok? ==>
                        outcome.host.tables.receipts[command.commandId].receipt == outcome.reply.value))
            && (!Replied(outcome.reply) ==> outcome.host.tables.receipts == s.tables.receipts)
  {
    if command.commandId !in s.tables.receipts {
      RunFlushedExtendsReceipts(c, Prepared(s, command, around, flushOk), command, around, saveOk);
    }
  }

  lemma OthersKeepReceipts(c: Config, s: Host, a: Action)
    requires !a.DoCommand?
    ensures Act(c, s, a).tables.receipts == s.tables.receipts
  {
  }

  lemma StepExtendsReceipts(c: Config, s: Host, a: Action)
    ensures Extends(Step(c, s, a).tables.receipts, s.tables.receipts)
  {
    if Enabled(s, a) {
      if a.DoCommand? {
        CommandReceipts(c, Draw(s, a), a.command, a.around, a.flushOk, a.saveOk);
      } else {
        OthersKeepReceipts(c, Draw(s, a), a);
      }
    }
  }

  // ---------------------------------------------------------------- runs

  /** The run an action settles, if the provider's stop has returned for it. */
  function SettledRun(a: Action): Option<Id> {
    match a
    case DoSettle(runId, _, _, calls) => if calls.stopped then Some(runId) else None
    case DoRetrySettle(runId, _, _, calls) => if calls.stopped then Some(runId) else None
    case _ => None
  }

  ghost predicate OnlyEnds(before: map<Id, Id>, after: map<Id, Id>, ended: Option<Id>) {
    forall id :: id in before && Some(before[id]) != ended ==> id in after && after[id] == before[id]
  }

  lemma LeaveEndsOneRun(s: Host, r: Id, calls: Calls)
    requires r in s.turns && s.turns[r].sessionId in s.running && s.running[s.turns[r].sessionId] == r
    ensures OnlyEnds(s.running, Leave(s, r, calls).running, Some(r))
  {
  }

  lemma EndTurnEndsOneRun(s: Host, r: Id, input: HostSession, payload: Payload, calls: Calls)
    requires r in s.turns && s.turns[r].sessionId in s.running && s.running[s.turns[r].sessionId] == r
    ensures OnlyEnds(s.running, EndTurn(s, r, input, payload, calls).running, Some(r))
  {
    if !SaveThrows(s, input, calls.saved) { LeaveEndsOneRun(SaveCommitted(s, input, payload), r, calls); }
  }

  lemma SettleFlushedEndsOneRun(s: Host, r: Id, now: Time, uuid: Id, calls: Calls)
    requires r in s.turns && s.turns[r].sessionId in s.running && s.running[s.turns[r].sessionId] == r
    ensures OnlyEnds(s.running, SettleFlushed(s, r, now, uuid, calls).running, Some(r))
    ensures OnlyEnds(s.running, RetryFlushed(s, r, now, uuid, calls).running, Some(r))
  {
    var turn := s.turns[r];
    LeaveEndsOneRun(s, r, calls);
    if turn.sessionId in s.tables.sessions {
      var latest := s.tables.sessions[turn.sessionId].snapshot;
      EndTurnEndsOneRun(s, r, SettledInput(s, turn, latest, now, uuid), SettledPayloadOf(turn), calls);
      EndTurnEndsOneRun(s, r, RetryInput(latest, now, uuid), InterruptedPayload, calls);
    }
  }

  lemma SettleEndsOneRun(s: Host, r: Id, now: Time, uuid: Id, calls: Calls)
    requires TurnsOk(s.closing, s.running, s.turns, s.retryTimers)
    ensures OnlyEnds(s.running, Settle(s, r, now, uuid, calls).running, if calls.stopped then Some(r) else None)
  {
    if r in s.turns {
      var id := s.turns[r].sessionId;
      FlushFrame(s, id, now, calls.flushed);
      SettleFlushedEndsOneRun(EndLive(Flush(s, id, now, calls.flushed), id), r, now, uuid, calls);
    }
  }

  lemma RetryEndsOneRun(s: Host, r: Id, now: Time, uuid: Id, calls: Calls)
    requires TurnsOk(s.closing, s.running, s.turns, s.retryTimers)
    ensures OnlyEnds(s.running, RetrySettle(s, r, now, uuid, calls).running, if calls.stopped then Some(r) else None)
  {
    if r in s.turns {
      var id := s.turns[r].sessionId;
      FlushFrame(s, id, now, calls.flushed);
      SettleFlushedEndsOneRun(Flush(s, id, now, calls.flushed), r, now, uuid, calls);
    }
  }

  /** Only a session that is not running starts a turn. */
  lemma LaunchIsOfIdle(c: Config, s: Host, command: HostCommand, around: Surroundings, decided: Decided)
    requires Durable(s.tables, s.history) && RunningOk(s.up, s.tables.sessions, s.running)
    requires Decide(s.tables, command, s.switching, c.providers, around) == Ok(decided) && decided.effect.Launch?
    ensures decided.value.session.id !in s.running
  {
    SnapshotIsKeyed(s, command.sessionId);
    DecideKeepsRun(s.tables.sessions[command.sessionId].snapshot, command, s.switching, c.providers, around);
    assert !IsRunning(s.tables.sessions, command.sessionId);
  }

  function RunningAfter(running: map<Id, Id>, reply: Result<Receipt, HostError>,
                        decided: Result<Decided, HostError>): map<Id, Id> {
    if Replied(reply) && decided.Ok? && decided.value.effect.Launch?
    then running[decided.value.value.session.id := decided.value.effect.runId]
    else running
  }

  lemma RunFlushedRunning(c: Config, s: Host, command: HostCommand, around: Surroundings, ok: bool)
    ensures var o := RunFlushed(c, s, command, around, ok);
            o.host.running == RunningAfter(s.running, o.reply, Decide(s.tables, command, s.switching, c.providers, around))
  {
  }

  lemma CommandRunning(c: Config, s: Host, command: HostCommand, around: Surroundings, flushOk: bool, saveOk: bool)
    ensures var after := RunCommand(c, s, command, around, flushOk, saveOk).host.running;
            after == s.running
            || after == RunFlushed(c, Prepared(s, command, around, flushOk), command, around, saveOk).host.running
  {
  }

  lemma LaunchOnlyAdds(running: map<Id, Id>, reply: Result<Receipt, HostError>, decided: Result<Decided, HostError>)
    requires decided.Ok? && decided.value.effect.Launch? ==> decided.value.value.session.id !in running
    ensures OnlyEnds(running, RunningAfter(running, reply, decided), None)
  {
  }

  lemma RunFlushedKeepsRuns(c: Config, s: Host, command: HostCommand, around: Surroundings, ok: bool)
    requires Durable(s.tables, s.history) && RunningOk(s.up, s.tables.sessions, s.running)
    ensures OnlyEnds(s.running, RunFlushed(c, s, command, around, ok).host.running, None)
  {
    var decided := Decide(s.tables, command, s.switching, c.providers, around);
    if decided.Ok? && decided.value.effect.Launch? { LaunchIsOfIdle(c, s, command, around, decided.value); }
    LaunchOnlyAdds(s.running, RunFlushed(c, s, command, around, ok).reply, decided);
    RunFlushedRunning(c, s, command, around, ok);
  }

  lemma PreparedCommandKeepsRuns(c: Config, s: Host, command: HostCommand, around: Surroundings, flushOk: bool, saveOk: bool)
    requires Inv(c, s) && KeepsIdentity(c)
    ensures OnlyEnds(s.running,
                     RunFlushed(c, Prepared(s, command, around, flushOk), command, around, saveOk).host.running, None)
  {
    if !command.Create? { FlushKeeps(c, s, command.sessionId, around.now, flushOk); }
    RunFlushedKeepsRuns(c, Prepared(s, command, around, flushOk), command, around, saveOk);
  }

  lemma EitherOnlyEnds(before: map<Id, Id>, after: map<Id, Id>, other: map<Id, Id>)
    requires OnlyEnds(before, other, None) && (after == before || after == other)
    ensures OnlyEnds(before, after, None)
  {
  }

  lemma CommandKeepsRuns(c: Config, s: Host, a: Action)
    requires Inv(c, s) && KeepsIdentity(c) && a.DoCommand?
    ensures OnlyEnds(s.running, Act(c, s, a).running, None)
  {
    PreparedCommandKeepsRuns(c, s, a.command, a.around, a.flushOk, a.saveOk);
    CommandRunning(c, s, a.command, a.around, a.flushOk, a.saveOk);
    EitherOnlyEnds(s.running, Act(c, s, a).running,
                   RunFlushed(c, Prepared(s, a.command, a.around, a.flushOk), a.command, a.around, a.saveOk).host.running);
  }

  lemma SettlingEndsOneRun(c: Config, s: Host, a: Action)
    requires TurnsOk(s.closing, s.running, s.turns, s.retryTimers) && (a.DoSettle? || a.DoRetrySettle?)
    ensures OnlyEnds(s.running, Act(c, s, a).running, SettledRun(a))
  {
    if a.DoSettle? {
      SettleEndsOneRun(s, a.runId, a.now, a.uuid, a.calls);
    } else {
      RetryEndsOneRun(s, a.runId, a.now, a.uuid, a.calls);
    }
  }

  lemma OtherActionsKeepRuns(c: Config, s: Host, a: Action)
    requires !a.DoCommand? && !a.DoSettle? && !a.DoRetrySettle? && !a.DoCrash?
    ensures Act(c, s, a).running == s.running
  {
  }

  lemma ActEndsOnlyStoppedRuns(c: Config, s: Host, a: Action)
    requires Inv(c, s) && KeepsIdentity(c) && !a.DoCrash?
    ensures OnlyEnds(s.running, Act(c, s, a).running, SettledRun(a))
  {
    if a.DoCommand? {
      CommandKeepsRuns(c, s, a);
    } else if a.DoSettle? || a.DoRetrySettle? {
      SettlingEndsOneRun(c, s, a);
    } else {
      OtherActionsKeepRuns(c, s, a);
    }
  }

  /** While the process lives, a run leaves the running map only when the provider's stop has
      returned for it. */
  lemma StepEndsOnlyStoppedRuns(c: Config, s: Host, a: Action)
    requires Inv(c, s) && KeepsIdentity(c) && !a.DoCrash?
    ensures OnlyEnds(s.running, Step(c, s, a).running, SettledRun(a))
  {
    if Enabled(s, a) {
      DrawKeeps(c, s, a);
      ActEndsOnlyStoppedRuns(c, Draw(s, a), a);
    }
  }
}
