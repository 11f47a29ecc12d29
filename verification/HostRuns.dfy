/**
 What holds in every run of the host, over any number of crashes and restarts: at most one
 turn a session, no prompt sent twice, no event lost or written twice, and receipts that
 never change.
 */
module HostRuns {
  import opened Wrappers
  import opened Sessions
  import opened Protocol
  import opened DeltaSync
  import opened Tables
  import opened Turns
  import opened HostModel
  import opened HostInvariants
  import opened HostMemory
  import opened HostSteps
  import opened HostFrames
  import opened HostStored

  /** Runs in which the provider keeps session ids and the final `bind` of a turn does not throw. */
  ghost predicate Sound(c: Config, actions: seq<Action>) {
    KeepsIdentity(c) && forall i :: 0 <= i < |actions| ==> Binds(actions[i])
  }

  lemma NewHostIsValid(c: Config)
    ensures Inv(c, NEW_HOST)
  {
  }

  lemma {:induction false} RunKeeps(c: Config, s: Host, actions: seq<Action>)
    requires Inv(c, s) && Sound(c, actions)
    ensures Inv(c, Exec(c, s, actions))
  {
    if actions != [] {
      var before := actions[..|actions| - 1];
      RunKeeps(c, s, before);
      StepKeeps(c, Exec(c, s, before), actions[|actions| - 1]);
    }
  }

  // ---------------------------------------------------------------- one turn a session

  /** In every reachable state a session is stored as running with a run exactly when the
      running map holds that run, and no two promise chains share a session. */
  lemma OneTurnPerSession(c: Config, actions: seq<Action>)
    requires Sound(c, actions)
    ensures var s := Exec(c, NEW_HOST, actions);
            && (forall id :: id in s.running <==> s.up && IsRunning(s.tables.sessions, id))
            && (forall id :: id in s.running ==> s.tables.sessions[id].snapshot.runId == Some(s.running[id]))
            && (forall q, r :: q in s.turns && r in s.turns && s.turns[q].sessionId == s.turns[r].sessionId ==> q == r)
  {
    NewHostIsValid(c);
    RunKeeps(c, NEW_HOST, actions);
  }

  /** While the process lives, a stored turn stops being the running one only in the step after
      the provider's stop returned for that very run. */
  lemma SettledOnlyAfterStop(c: Config, actions: seq<Action>, a: Action, id: Id)
    requires Sound(c, actions + [a]) && !a.DoCrash?
    requires var s := Exec(c, NEW_HOST, actions);
             && s.up && IsRunning(s.tables.sessions, id) && s.tables.sessions[id].snapshot.runId.Some?
             && SettledRun(a) != s.tables.sessions[id].snapshot.runId
    ensures var s, t := Exec(c, NEW_HOST, actions), Step(c, Exec(c, NEW_HOST, actions), a);
            IsRunning(t.tables.sessions, id) && t.tables.sessions[id].snapshot.runId == s.tables.sessions[id].snapshot.runId
  {
    NewHostIsValid(c);
    assert actions == (actions + [a])[..|actions|];
    assert forall i :: 0 <= i < |actions| ==> actions[i] == (actions + [a])[i];
    assert a == (actions + [a])[|actions|];
    RunKeeps(c, NEW_HOST, actions);
    StopOrder(c, Exec(c, NEW_HOST, actions), a, id);
  }

  lemma RunningIsHeld(c: Config, s: Host, id: Id)
    requires Inv(c, s)
    ensures id in s.running <==> s.up && IsRunning(s.tables.sessions, id)
    ensures id in s.running ==> s.tables.sessions[id].snapshot.runId == Some(s.running[id])
  {
  }

  lemma StopOrder(c: Config, s: Host, a: Action, id: Id)
    requires Inv(c, s) && KeepsIdentity(c) && Binds(a) && !a.DoCrash?
    requires s.up && IsRunning(s.tables.sessions, id) && SettledRun(a) != s.tables.sessions[id].snapshot.runId
    ensures var t := Step(c, s, a);
            IsRunning(t.tables.sessions, id) && t.tables.sessions[id].snapshot.runId == s.tables.sessions[id].snapshot.runId
  {
    StepKeeps(c, s, a);
    StepEndsOnlyStoppedRuns(c, s, a);
    RunningIsHeld(c, s, id);
    RunningIsHeld(c, Step(c, s, a), id);
  }

  /** An event that changes anything carries the run its session is stored as running, which is
      also the run the running map holds whenever that map agrees with the store. */
  lemma StaleEventsChangeNothing(c: Config, s: Host, id: Id, runId: Id, event: HarnessEvent, now: Time, ok: bool)
    requires StoreInv(c, s)
    ensures !(IsRunning(s.tables.sessions, id) && s.tables.sessions[id].snapshot.runId == Some(runId))
            ==> ReceiveEvent(c, s, id, runId, event, now, ok) == s
    ensures Inv(c, s) && !(id in s.running && s.running[id] == runId)
            ==> ReceiveEvent(c, s, id, runId, event, now, ok) == s
  {
    if Accepts(c, s, id, runId, event) {
      assert s.live[id].value.runId == s.tables.sessions[id].snapshot.runId;
    }
  }

  // ---------------------------------------------------------------- no prompt sent twice

  /** What holds even when `bind` throws. */
  ghost predicate SentOnce(s: Host) {
    && DispatchOk(s.turns, s.dispatched, s.used)
    && (!s.up ==> s.running == map[] && s.turns == map[])
  }

  lemma DispatchAfterShrinking(before: map<Id, Turn>, after: map<Id, Turn>, dispatched: seq<Id>, used: set<Id>)
    requires DispatchOk(before, dispatched, used) && NoNewTurns(before, after)
    ensures DispatchOk(after, dispatched, used)
  {
  }

  /** A command adds at most one chain, under the id it drew, and sends nothing itself. */
  ghost predicate AddsOnly(before: map<Id, Turn>, after: map<Id, Turn>, uuid: Id) {
    forall r :: r in after && r != uuid ==> r in before && (after[r].phase.Queued? ==> before[r].phase.Queued?)
  }

  lemma DispatchAfterAdding(before: map<Id, Turn>, after: map<Id, Turn>, dispatched: seq<Id>, used: set<Id>, uuid: Id)
    requires DispatchOk(before, dispatched, used) && uuid !in used && AddsOnly(before, after, uuid)
    ensures DispatchOk(after, dispatched, used + {uuid})
  {
  }

  lemma PerformAddsOnly(s: Host, saved: HostSession, effect: Effect, uuid: Id)
    requires effect.Launch? ==> effect.runId == uuid
    ensures var t := Perform(s, saved, effect);
            AddsOnly(s.turns, t.turns, uuid) && t.dispatched == s.dispatched && t.up == s.up
  {
  }

  lemma DecideLaunchesTheDrawnRun(tables: Tables, command: HostCommand, switching: set<Id>, providers: Providers,
                                  around: Surroundings)
    ensures var decided := Decide(tables, command, switching, providers, around);
            decided.Ok? && decided.value.effect.Launch? ==> decided.value.effect.runId == around.uuid
  {
  }

  lemma AcceptedAddsOnly(s: Host, command: HostCommand, decided: Decided, around: Surroundings)
    requires decided.effect.Launch? ==> decided.effect.runId == around.uuid
    ensures var t := Accepted(s, command, decided, around);
            AddsOnly(s.turns, t.turns, around.uuid) && t.dispatched == s.dispatched && t.up == s.up
  {
    var input := CommandInput(command, decided, around.now);
    var s1 := SaveCommitted(s, input, CommandPayload(command));
    var s2 := WithReceipt(s1, command.commandId, ReceiptOf(command, input));
    PerformAddsOnly(Refresh(s2, input.session.id), Saving(s.tables, input), decided.effect, around.uuid);
  }

  lemma RunFlushedAddsOnly(c: Config, s: Host, command: HostCommand, around: Surroundings, ok: bool)
    ensures var t := RunFlushed(c, s, command, around, ok).host;
            AddsOnly(s.turns, t.turns, around.uuid) && t.dispatched == s.dispatched && t.up == s.up && t.used == s.used
  {
    var decided := Decide(s.tables, command, s.switching, c.providers, around);
    DecideLaunchesTheDrawnRun(s.tables, command, s.switching, c.providers, around);
    if decided.Ok? { AcceptedAddsOnly(s, command, decided.value, around); }
  }

  lemma CommandAddsOnly(c: Config, s: Host, a: Action)
    requires a.DoCommand?
    ensures var t := Act(c, s, a);
            AddsOnly(s.turns, t.turns, a.around.uuid) && t.dispatched == s.dispatched && t.up == s.up && t.used == s.used
  {
    CommandOutcomes(c, s, a);
    RunFlushedAddsOnly(c, Prepared(s, a.command, a.around, a.flushOk), a.command, a.around, a.saveOk);
  }

  lemma CommandSendsNothing(c: Config, s: Host, a: Action)
    requires SentOnce(s) && s.up && a.DoCommand? && a.around.uuid !in s.used
    ensures SentOnce(Act(c, Draw(s, a), a))
  {
    CommandAddsOnly(c, Draw(s, a), a);
    DispatchAfterAdding(s.turns, Act(c, Draw(s, a), a).turns, s.dispatched, s.used, a.around.uuid);
  }

  lemma StartSendsOnce(s: Host, r: Id, prepared: Option<string>)
    requires DispatchOk(s.turns, s.dispatched, s.used)
    ensures var t := StartSending(s, r, prepared); DispatchOk(t.turns, t.dispatched, t.used)
  {
    if r in s.turns && s.turns[r].phase.Queued? { DispatchAfterSending(s.turns, s.dispatched, s.used, r); }
  }

  /** Actions of a process that is up, other than commands and sends. */
  lemma OthersHaveNoNewTurns(c: Config, s: Host, a: Action)
    requires !a.DoCommand? && !a.DoStartSending? && !a.DoCrash?
    ensures var t := Act(c, s, a);
            && NoNewTurns(s.turns, t.turns) && t.dispatched == s.dispatched && t.used == s.used
            && (t.up == s.up || a.DoReady?)
  {
  }

  lemma OthersSendNothing(c: Config, s: Host, a: Action)
    requires SentOnce(s) && Enabled(s, a) && !a.DoCommand?
    ensures SentOnce(Act(c, Draw(s, a), a))
  {
    var d := Draw(s, a);
    if a.DoStartSending? {
      StartSendsOnce(d, a.runId, a.prepared);
    } else if a.DoCrash? {
      DispatchAfterShrinking(s.turns, map[], s.dispatched, d.used);
    } else {
      OthersHaveNoNewTurns(c, d, a);
      DispatchAfterShrinking(s.turns, Act(c, d, a).turns, s.dispatched, d.used);
    }
  }

  lemma StepSendsOnce(c: Config, s: Host, a: Action)
    requires SentOnce(s)
    ensures SentOnce(Step(c, s, a))
  {
    if Enabled(s, a) {
      if a.DoCommand? { CommandSendsNothing(c, s, a); } else { OthersSendNothing(c, s, a); }
    }
  }

  lemma {:induction false} RunSendsOnce(c: Config, s: Host, actions: seq<Action>)
    requires SentOnce(s)
    ensures SentOnce(Exec(c, s, actions))
  {
    if actions != [] {
      RunSendsOnce(c, s, actions[..|actions| - 1]);
      StepSendsOnce(c, Exec(c, s, actions[..|actions| - 1]), actions[|actions| - 1]);
    }
  }

  /** In every run whatever, with crashes anywhere and calls that fail, no run id reaches a
      provider twice. */
  lemma NoPromptIsSentTwice(c: Config, actions: seq<Action>)
    ensures var sent := Exec(c, NEW_HOST, actions).dispatched;
            forall i, j :: 0 <= i < j < |sent| ==> sent[i] != sent[j]
  {
    RunSendsOnce(c, NEW_HOST, actions);
  }

  // ---------------------------------------------------------------- restarts

  /** The log never holds the next revision, so only the database can fail a save. */
  lemma NextRevisionIsFree(tables: Tables, id: Id, input: HostSession)
    requires TablesOk(tables) && id in tables.sessions && input.session.id == id
    requires input.revision == tables.sessions[id].snapshot.revision + 1
    ensures !Rejected(tables, input)
  {
    assert Contiguous(tables, id);
  }

  lemma SavedRow(s: Host, input: HostSession, payload: Payload)
    ensures var t, id := SaveCommitted(s, input, payload), input.session.id;
            && t.tables.sessions == s.tables.sessions[id := t.tables.sessions[id]]
            && t.tables.sessions[id].snapshot.status == input.status
            && t.tables.sessions[id].snapshot.session == input.session
  {
    SaveCommittedShape(s, input, payload);
  }

  lemma RecoverSaves(s: Host, id: Id, now: Time, uuid: Id)
    requires Durable(s.tables, s.history) && IsRunning(s.tables.sessions, id)
    ensures var input := RecoveredInput(s.tables.sessions[id].snapshot, now, uuid);
            Recover(s, id, now, uuid, true) == SaveCommitted(s, input, InterruptedPayload) && input.session.id == id
  {
    SnapshotIsKeyed(s, id);
    NextRevisionIsFree(s.tables, id, RecoveredInput(s.tables.sessions[id].snapshot, now, uuid));
  }

  /** A settled value with nothing left open. */
  ghost predicate Closed(value: HostSession) {
    && !value.session.busy && value.session.pendingQuestion.None?
    && Quiet(value.session.blocks)
    && forall b :: b in value.session.blocks ==> !Building(b)
  }

  /** Recovery of a session succeeds whenever the database does: its turn becomes an
      interrupted one with nothing left open, and no other session changes. */
  lemma RecoveryInterrupts(s: Host, id: Id, now: Time, uuid: Id)
    requires Durable(s.tables, s.history) && IsRunning(s.tables.sessions, id)
    ensures var t := Recover(s, id, now, uuid, true);
            && id in t.tables.sessions
            && t.tables.sessions == s.tables.sessions[id := t.tables.sessions[id]]
            && t.tables.sessions[id].snapshot.status == Interrupted
            && Closed(t.tables.sessions[id].snapshot)
  {
    var value := s.tables.sessions[id].snapshot;
    RecoverSaves(s, id, now, uuid);
    SavedRow(s, RecoveredInput(value, now, uuid), InterruptedPayload);
    SettledLeavesNothingOpen(value, Interrupted, Some(RESTARTED), value.updatedAt, now, uuid);
  }

  // ---------------------------------------------------------------- branch switching

  /** While a project is switching branches none of its sessions is running, in every reachable state. */
  lemma SwitchingProjectsAreIdle(c: Config, actions: seq<Action>, id: Id)
    requires KeepsIdentity(c)
    ensures var s := Exec(c, NEW_HOST, actions);
            IsRunning(s.tables.sessions, id) ==> s.tables.sessions[id].projectId !in s.switching
  {
    RunKeepsStore(c, actions);
  }

  // ---------------------------------------------------------------- nothing lost, nothing twice

  /** In every reachable state the overlay of a live session is its stored value with the
      pending events applied, and the accepted events are exactly the written ones followed
      by the pending ones. */
  lemma EventsAreNeitherLostNorRepeated(c: Config, actions: seq<Action>)
    requires KeepsIdentity(c)
    ensures var s := Exec(c, NEW_HOST, actions);
            && (forall id :: id in s.live ==>
                  id in s.tables.sessions
                  && s.live[id].value == Overlay(c, s.tables.sessions[id].snapshot, s.live[id].events))
            && (forall id :: id in s.tables.sessions ==>
                  id in s.history && id in s.accepted
                  && s.accepted[id] == Written(s.history[id]) + Pending(s.live, id))
  {
    RunKeepsStore(c, actions);
  }

  // ---------------------------------------------------------------- receipts

  lemma {:induction false} ReceiptsAreForever(c: Config, s: Host, actions: seq<Action>)
    ensures Extends(Exec(c, s, actions).tables.receipts, s.tables.receipts)
  {
    if actions != [] {
      ReceiptsAreForever(c, s, actions[..|actions| - 1]);
      StepExtendsReceipts(c, Exec(c, s, actions[..|actions| - 1]), actions[|actions| - 1]);
    }
  }

  /** A command that took effect is answered with its receipt for ever, across any run with
      crashes, and repeating it changes nothing, also when its first answer was the error of the
      provider its effect was passed on to. Another command under its id is refused and changes
      nothing. */
  lemma AcceptedOnce(c: Config, s: Host, command: HostCommand, around: Surroundings, flushOk: bool, saveOk: bool,
                     actions: seq<Action>, again: HostCommand, later: Surroundings, flushLater: bool, saveLater: bool)
    requires Replied(RunCommand(c, s, command, around, flushOk, saveOk).reply)
    requires again.commandId == command.commandId
    ensures var first := RunCommand(c, s, command, around, flushOk, saveOk);
            var t := Exec(c, first.host, actions);
            && command.commandId in first.host.tables.receipts
            && var receipt := first.host.tables.receipts[command.commandId].receipt;
            && (first.reply.Ok? ==> first.reply.value == receipt)
            && (!t.closing ==>
                  RunCommand(c, t, again, later, flushLater, saveLater) ==
                  Outcome(t, if again == command then Ok(receipt) else Err(CommandIdReused)))
  {
    var first := RunCommand(c, s, command, around, flushOk, saveOk);
    CommandReceipts(c, s, command, around, flushOk, saveOk);
    ReceiptsAreForever(c, first.host, actions);
  }

  /** A new answer or approval that is accepted and saved, and then not taken by the provider it is
      passed on to. */
  predicate FailsAfterCommit(c: Config, s: Host, command: HostCommand, around: Surroundings, flushOk: bool, saveOk: bool) {
    && (command.Approve? || command.Answer?) && !around.relayed
    && !s.closing && command.commandId !in s.tables.receipts
    && !FlushThrows(s, command.sessionId, around.now, flushOk)
    && var t := Prepared(s, command, around, flushOk);
    var decided := Decide(t.tables, command, t.switching, c.providers, around);
    decided.Ok? && !SaveThrows(t, CommandInput(command, decided.value, around.now), saveOk)
  }

  /** A command that gets an error leaves no receipt and changes no more than writing pending events,
      unless it fails after its commit. Then it is committed with its receipt, just as if the provider
      had taken it. */
  lemma RefusedLeavesNothing(c: Config, s: Host, command: HostCommand, around: Surroundings, flushOk: bool, saveOk: bool)
    requires RunCommand(c, s, command, around, flushOk, saveOk).reply.Err?
    ensures var t, prepared := RunCommand(c, s, command, around, flushOk, saveOk).host, Prepared(s, command, around, flushOk);
            if FailsAfterCommit(c, s, command, around, flushOk, saveOk)
            then && command.commandId in t.tables.receipts
                 && RunFlushed(c, prepared, command, around.(relayed := true), saveOk)
                    == Outcome(t, Ok(t.tables.receipts[command.commandId].receipt))
            else t.tables.receipts == s.tables.receipts && (t == s || t == prepared)
  {
    CommandReceipts(c, s, command, around, flushOk, saveOk);
    FailureIsLate(c, s, command, around, flushOk, saveOk);
    if RunCommand(c, s, command, around, flushOk, saveOk).reply.error.ProviderFailed? {
      CommittedAllTheSame(c, s, command, around, flushOk, saveOk);
    }
  }

  /** An error adds a receipt if and only if the command fails after its commit, and its error is then
      that of the provider. */
  lemma FailureIsLate(c: Config, s: Host, command: HostCommand, around: Surroundings, flushOk: bool, saveOk: bool)
    ensures var outcome := RunCommand(c, s, command, around, flushOk, saveOk);
            && (FailsAfterCommit(c, s, command, around, flushOk, saveOk)
                <==> outcome.reply.Err? && outcome.host.tables.receipts != s.tables.receipts)
            && (FailsAfterCommit(c, s, command, around, flushOk, saveOk) <==> outcome.reply == Err(ProviderFailed))
  {
    CommandReceipts(c, s, command, around, flushOk, saveOk);
    var t := Prepared(s, command, around, flushOk);
    RelayingDecides(t.tables, command, t.switching, c.providers, around);
  }

  lemma RelayingDecides(tables: Tables, command: HostCommand, switching: set<Id>, providers: Providers,
                        around: Surroundings)
    ensures var decided := Decide(tables, command, switching, providers, around);
            && decided == Decide(tables, command, switching, providers, around.(relayed := true))
            && (decided.Ok? ==> (decided.value.effect.Relay? <==> command.Approve? || command.Answer?))
            && (decided.Err? ==> !decided.error.ProviderFailed?)
  {
  }

  lemma CommittedAllTheSame(c: Config, s: Host, command: HostCommand, around: Surroundings, flushOk: bool, saveOk: bool)
    requires RunCommand(c, s, command, around, flushOk, saveOk).reply == Err(ProviderFailed)
    ensures var outcome, prepared := RunCommand(c, s, command, around, flushOk, saveOk), Prepared(s, command, around, flushOk);
            && (command.Approve? || command.Answer?) && !around.relayed && command.commandId !in s.tables.receipts
            && command.commandId in outcome.host.tables.receipts
            && RunFlushed(c, prepared, command, around.(relayed := true), saveOk)
               == Outcome(outcome.host, Ok(outcome.host.tables.receipts[command.commandId].receipt))
  {
    var prepared := Prepared(s, command, around, flushOk);
    RelayingDecides(prepared.tables, command, prepared.switching, c.providers, around);
  }
}
