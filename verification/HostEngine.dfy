/**
 The engine of the headless host as an object over a store. Each method is one synchronous
 stretch of the program, and is proved to be one step of the state machine.
 */
module Engine {
  import opened Wrappers
  import opened Sessions
  import opened Protocol
  import opened DeltaSync
  import opened Tables
  import opened Turns
  import HostModel
  import Storage

  class HostEngine {
    const store: Storage.HostStore
    const config: HostModel.Config

    var closing: bool
    var switchingProjects: set<Id>
    var running: map<Id, Id>
    var live: map<Id, HostModel.Live>
    var retryTimers: map<Id, Id>
    /** The promise chains of the runs, by run id. */
    var turns: map<Id, HostModel.Turn>

    /** False until the recovery of a starting process is complete. */
    ghost var up: bool
    ghost var history: map<Id, seq<HostModel.Commit>>
    ghost var accepted: map<Id, seq<HarnessEvent>>
    ghost var dispatched: seq<Id>
    ghost var used: set<Id>

    ghost function View(): HostModel.Host
      reads this, store
    {
      HostModel.Host(store.View(), up, closing, switchingProjects, running, live, retryTimers, turns,
                     history, accepted, dispatched, used)
    }

    ghost predicate Valid()
      reads this, store
    {
      store.Valid() && !store.transactionActive
    }

    /** A starting process over a database left by the runs before it. */
    constructor (store: Storage.HostStore, config: HostModel.Config, ghost past: HostModel.Host)
      requires store.Valid() && !store.transactionActive && store.View() == past.tables
      ensures this.store == store && this.config == config
      ensures Valid() && View() == HostModel.Crash(past).(accepted := past.accepted)
    {
      this.store := store;
      this.config := config;
      closing, switchingProjects := false, {};
      running, live, retryTimers, turns := map[], map[], map[], map[];
      up, history, accepted, dispatched, used := false, past.history, past.accepted, past.dispatched, past.used;
    }

    method SaveRow(input: HostSession, payload: Payload, fault: Storage.Fault)
      returns (saved: Result<HostSession, HostError>)
      requires Valid()
      modifies store
      ensures Valid()
      ensures saved.Err? <==> !fault.NoFault? || Rejected(old(store.View()), input)
      ensures saved.Ok? ==> saved.value == Saving(old(store.View()), input)
      ensures store.View() == if saved.Ok? then SaveRows(old(store.View()), input, payload) else old(store.View())
    {
      store.Begin();
      saved := store.Save(input, payload, fault);
      if saved.Err? || fault.AtCommit? {
        store.Rollback();
        return Err(StorageFailed);
      }
      store.Commit();
    }

    /** Notes a commit in the record of the past. */
    ghost method Record(before: HostModel.Host, input: HostSession, payload: Payload)
      requires View() == before.(tables := SaveRows(before.tables, input, payload))
      modifies this`history, this`accepted
      ensures View() == HostModel.SaveCommitted(before, input, payload)
    {
      var after := HostModel.SaveCommitted(before, input, payload);
      history, accepted := after.history, after.accepted;
    }

    /** The engine's save: the next revision, in a transaction of its own. */
    method Save(value: HostSession, payload: Payload, now: Time, fault: Storage.Fault)
      returns (saved: Result<HostSession, HostError>)
      requires Valid()
      modifies this`history, this`accepted, store
      ensures Valid()
      ensures saved.Err? <==> HostModel.SaveThrows(old(View()), HostModel.Next(value, now), fault.NoFault?)
      ensures saved.Ok? ==> saved.value == Saving(old(View()).tables, HostModel.Next(value, now))
      ensures View() == if saved.Ok? then HostModel.SaveCommitted(old(View()), HostModel.Next(value, now), payload)
                        else old(View())
    {
      var input := HostModel.Next(value, now);
      saved := SaveRow(input, payload, fault);
      if saved.Ok? { Record(old(View()), input, payload); }
    }

    method Flush(id: Id, now: Time, fault: Storage.Fault) returns (threw: bool)
      requires Valid()
      modifies this`live, this`history, this`accepted, store
      ensures Valid()
      ensures threw == HostModel.FlushThrows(old(View()), id, now, fault.NoFault?)
      ensures View() == HostModel.Flush(old(View()), id, now, fault.NoFault?)
    {
      if id !in live || live[id].events == [] { return false; }
      var entry := live[id];
      var saved := Save(entry.value, EventsPayload(entry.events), now, fault);
      if saved.Err? { return true; }
      live := live[id := HostModel.Live(saved.value, [])];
      return false;
    }

    /** One stored session of a starting process: its turn is interrupted if it was running, and it is
        bound to its provider. `binds` is false when the provider is missing or throws. */
    method RecoverOne(id: Id, now: Time, uuid: Id, fault: Storage.Fault, binds: bool) returns (threw: bool)
      requires Valid() && id in store.sessions
      modifies this`history, this`accepted, store
      ensures Valid()
      ensures View() == HostModel.Recover(old(View()), id, now, uuid, fault.NoFault?)
      ensures OthersUnchanged(old(store.sessions), store.sessions, id)
      ensures threw <==> store.sessions[id].snapshot.status.Running?
                         || (store.sessions[id].snapshot.session.providerSessionId.Some? && !binds)
      ensures !threw ==> Recovered(old(store.sessions)[id].snapshot, store.sessions[id].snapshot, now, uuid)
    {
      var value := store.GetSession(id);
      if value.value.status.Running? {
        var settled := Settled(value.value, Interrupted, Some(HostModel.RESTARTED), value.value.updatedAt, now, uuid);
        var saved := Save(settled, InterruptedPayload, now, fault);
        if saved.Err? { return true; }
      }
      return value.value.session.providerSessionId.Some? && !binds;
    }

    /** The loop of a starting process over the stored sessions. A failed save or a failed binding
        stops it, and the process. */
    method Recover(now: Time, uuids: map<Id, Id>, faults: map<Id, Storage.Fault>, bound: set<Id>) returns (ok: bool)
      requires Valid() && !up && uuids.Keys == faults.Keys == store.sessions.Keys
      modifies this`up, this`history, this`accepted, store
      ensures Valid() && up == ok
      ensures store.sessions.Keys == old(store.sessions).Keys
      ensures ok <==> HostModel.AllRecovered(View()) && HostModel.AllBound(store.sessions, bound)
      ensures ok ==> forall id :: id in store.sessions ==>
                Recovered(old(store.sessions)[id].snapshot, store.sessions[id].snapshot, now, uuids[id])
    {
      ghost var before := store.sessions;
      var todo := store.sessions.Keys;
      while todo != {}
        invariant Valid() && !up
        invariant PartlyRecovered(before, store.sessions, todo, now, uuids)
        invariant PartlyBound(store.sessions, todo, bound)
      {
        var id :| id in todo;
        ghost var rows := store.sessions;
        var threw := RecoverOne(id, now, uuids[id], faults[id], id in bound);
        OneMoreRecovered(before, rows, store.sessions, todo, id, now, uuids, threw);
        if threw { return false; }
        OneMoreBound(rows, store.sessions, todo, id, bound);
        todo := todo - {id};
      }
      AllDone(before, store.sessions, now, uuids);
      up := true;
      return true;
    }

    method ScheduledFlush(id: Id, now: Time, fault: Storage.Fault)
      requires Valid()
      modifies this`live, this`turns, this`history, this`accepted, store
      ensures Valid()
      ensures View() == HostModel.ScheduledFlush(old(View()), id, now, fault.NoFault?)
    {
      var threw := Flush(id, now, fault);
      if threw && id in running && running[id] in turns {
        turns := turns[running[id] := turns[running[id]].(persistenceFailed := true)];
      }
    }

    method ReceiveEvent(id: Id, runId: Id, event: HarnessEvent, now: Time, fault: Storage.Fault)
      requires Valid()
      modifies this`live, this`turns, this`history, this`accepted, store
      ensures Valid()
      ensures View() == HostModel.ReceiveEvent(config, old(View()), id, runId, event, now, fault.NoFault?)
    {
      if id !in live { return; }
      var entry := live[id];
      if entry.value.runId != Some(runId) || !entry.value.status.Running? { return; }
      var session := config.apply(entry.value.session, event);
      if session.None? { return; }
      live := live[id := HostModel.Live(entry.value.(session := session.value), entry.events + [event])];
      accepted := accepted[id := (if id in accepted then accepted[id] else []) + [event]];
      if event.kind !in BATCHED { ScheduledFlush(id, now, fault); }
    }

    // -------------------------------------------------------------- commands

    method DecideCommand(command: HostCommand, around: Surroundings) returns (decided: Result<Decided, HostError>)
      requires store.Valid()
      modifies store`cache, store`accesses
      ensures store.Valid()
      ensures decided == Decide(store.View(), command, switchingProjects, config.providers, around)
    {
      if command.Create? { return DecideCreate(store.View(), command, switchingProjects, config.providers, around); }
      var value := store.GetSession(command.sessionId);
      if value.Err? { return Err(value.error); }
      return DecideExisting(value.value, command, switchingProjects, config.providers, around);
    }

    /** The transaction of a command: the save and the receipt, or nothing. */
    method Transact(command: HostCommand, around: Surroundings, fault: Storage.Fault)
      returns (done: Result<Decided, HostError>)
      requires Valid() && command.commandId !in store.receipts
      modifies store
      ensures Valid()
      ensures var decided := Decide(old(store.View()), command, switchingProjects, config.providers, around);
              if decided.Err? then done == decided && store.View() == old(store.View())
              else
                var input := HostModel.CommandInput(command, decided.value, around.now);
                if !fault.NoFault? || Rejected(old(store.View()), input)
                then done == Err(StorageFailed) && store.View() == old(store.View())
                else done == decided && store.View() == Transacted(old(store.View()), command, input)
    {
      store.Begin();
      var decided := DecideCommand(command, around);
      if decided.Err? { store.Rollback(); return Err(decided.error); }
      var input := HostModel.CommandInput(command, decided.value, around.now);
      var saved := store.Save(input, CommandPayload(command), fault);
      if saved.Err? { store.Rollback(); return Err(StorageFailed); }
      var recorded := store.RecordReceipt(command, HostModel.CommandReceipt(command, input));
      if !recorded || fault.AtCommit? { store.Rollback(); return Err(StorageFailed); }
      store.Commit();
      return Ok(decided.value);
    }

    /** What follows the commit of a command, once the overlay shows the saved value. */
    method Perform(saved: HostSession, effect: Effect)
      modifies this`running, this`live, this`turns
      ensures View() == HostModel.Perform(old(View()), saved, effect)
    {
      var id := saved.session.id;
      match effect {
        case Launch(runId) =>
          running := running[id := runId];
          live := live[id := HostModel.Live(saved, [])];
          turns := turns[runId := HostModel.Turn(id, HostModel.Queued, false, false)];
        case CancelTurn =>
          if id in running && running[id] in turns {
            turns := turns[running[id] := turns[running[id]].(cancelled := true)];
          }
        case _ =>
      }
    }

    method Refresh(id: Id)
      requires Valid()
      modifies this`live, store`cache, store`accesses
      ensures Valid() && View() == HostModel.Refresh(old(View()), id)
    {
      if id in live {
        var value := store.GetSession(id);
        if value.Ok? { live := live[id := live[id].(value := value.value)]; }
      }
    }

    /** The overlay shows the saved value, then the effect of the command happens. */
    method Resume(id: Id, effect: Effect)
      requires Valid() && id in store.sessions
      modifies this`running, this`live, this`turns, store`cache, store`accesses
      ensures Valid()
      ensures View() == HostModel.Perform(HostModel.Refresh(old(View()), id), old(store.sessions)[id].snapshot, effect)
    {
      Refresh(id);
      var saved := store.GetSession(id);
      Perform(saved.value, effect);
    }

    /** The synchronous rest of a command after its transaction. */
    method Conclude(command: HostCommand, decided: Decided, around: Surroundings, ghost before: HostModel.Host)
      requires Valid()
      requires var input := HostModel.CommandInput(command, decided, around.now);
               View() == before.(tables := Transacted(before.tables, command, input))
      modifies this, store
      ensures Valid()
      ensures View() == HostModel.Accepted(before, command, decided, around)
    {
      var input := HostModel.CommandInput(command, decided, around.now);
      ghost var committed := HostModel.SaveCommitted(before, input, CommandPayload(command));
      history, accepted := committed.history, committed.accepted;
      Resume(input.session.id, decided.effect);
    }

    method RunFlushed(command: HostCommand, around: Surroundings, fault: Storage.Fault)
      returns (reply: Result<Receipt, HostError>)
      requires Valid() && command.commandId !in store.receipts
      modifies this, store
      ensures Valid()
      ensures var outcome := HostModel.RunFlushed(config, old(View()), command, around, fault.NoFault?);
              View() == outcome.host && reply == outcome.reply
    {
      ghost var before := View();
      var done := Transact(command, around, fault);
      if done.Err? { return Err(done.error); }
      Conclude(command, done.value, around, before);
      if HostModel.EffectThrows(done.value, around) { return Err(ProviderFailed); }
      reply := Ok(HostModel.CommandReceipt(command, HostModel.CommandInput(command, done.value, around.now)));
    }

    /** The command entry point. */
    method Command(command: HostCommand, around: Surroundings, flushFault: Storage.Fault, fault: Storage.Fault)
      returns (reply: Result<Receipt, HostError>)
      requires Valid()
      modifies this, store
      ensures Valid()
      ensures var outcome := HostModel.RunCommand(config, old(View()), command, around,
                                                  flushFault.NoFault?, fault.NoFault?);
              View() == outcome.host && reply == outcome.reply
    {
      if closing { return Err(HostStopping); }
      var previous := store.FindReceipt(command);
      if previous.Err? { return Err(previous.error); }
      if previous.value.Some? { return Ok(previous.value.value); }
      if !command.Create? {
        var threw := Flush(command.sessionId, around.now, flushFault);
        if threw { return Err(StorageFailed); }
      }
      reply := RunFlushed(command, around, fault);
    }

    // -------------------------------------------------------------- the run of a turn

    /** The first step of the chain. `prepared` is the error of preparing the input, if any. */
    method StartSending(runId: Id, prepared: Option<string>)
      requires Valid()
      modifies this`turns, this`dispatched
      ensures Valid() && View() == HostModel.StartSending(old(View()), runId, prepared)
    {
      if runId !in turns || !turns[runId].phase.Queued? { return; }
      if closing || turns[runId].cancelled {
        turns := turns[runId := turns[runId].(phase := HostModel.Stopping(None))];
      } else if prepared.Some? {
        turns := turns[runId := turns[runId].(phase := HostModel.Stopping(prepared))];
      } else {
        turns := turns[runId := turns[runId].(phase := HostModel.Sending)];
        dispatched := dispatched + [runId];
      }
    }

    method SendReturned(runId: Id, error: Option<string>)
      requires Valid()
      modifies this`turns
      ensures Valid() && View() == HostModel.SendReturned(old(View()), runId, error)
    {
      if runId in turns && turns[runId].phase.Sending? {
        turns := turns[runId := turns[runId].(phase := HostModel.Stopping(error))];
      }
    }

    /** Arms a retry of the settlement, unless one is armed or the process is closing. */
    method RetrySettlement(runId: Id)
      requires Valid() && runId in turns
      modifies this`turns, this`retryTimers
      ensures Valid() && View() == HostModel.RetryLater(old(View()), runId)
    {
      var id := turns[runId].sessionId;
      if closing || id in retryTimers {
        turns := turns - {runId};
      } else {
        turns := turns[runId := turns[runId].(phase := HostModel.RetryWaiting)];
        retryTimers := retryTimers[id := runId];
      }
    }

    method Leave(runId: Id, calls: HostModel.Calls)
      requires Valid() && runId in turns
      modifies this`running, this`live, this`turns, this`retryTimers, store`cache, store`accesses
      ensures Valid() && View() == HostModel.Leave(old(View()), runId, calls)
    {
      var id := turns[runId].sessionId;
      running := running - {id};
      live := live - {id};
      var persisted := store.GetSession(id);
      if persisted.Ok? && persisted.value.session.providerSessionId.Some? && !calls.bound {
        RetrySettlement(runId);
      } else {
        turns := turns - {runId};
      }
    }

    method EndTurn(runId: Id, settled: HostSession, payload: Payload, now: Time, fault: Storage.Fault,
                   calls: HostModel.Calls)
      requires Valid() && runId in turns && calls.saved == fault.NoFault?
      modifies this, store
      ensures Valid()
      ensures View() == HostModel.EndTurn(old(View()), runId, HostModel.Next(settled, now), payload, calls)
    {
      var saved := Save(settled, payload, now, fault);
      if saved.Err? { RetrySettlement(runId); } else { Leave(runId, calls); }
    }

    method SettleFlushed(runId: Id, now: Time, uuid: Id, fault: Storage.Fault, calls: HostModel.Calls)
      requires Valid() && runId in turns && calls.saved == fault.NoFault?
      modifies this, store
      ensures Valid() && View() == HostModel.SettleFlushed(old(View()), runId, now, uuid, calls)
    {
      var turn := turns[runId];
      var latest := store.GetSession(turn.sessionId);
      if latest.Err? {
        RetrySettlement(runId);
      } else if latest.value.runId != Some(runId) {
        Leave(runId, calls);
      } else {
        var status := if closing || turn.persistenceFailed then Interrupted else Idle;
        var settled := Settled(latest.value, status, HostModel.ClosingMessage(closing, turn), now, now, uuid);
        EndTurn(runId, settled, HostModel.SettledPayloadOf(turn), now, fault, calls);
      }
    }

    /** The step after the awaited stop of the provider, which may have failed. */
    method Settle(runId: Id, now: Time, uuid: Id, flushFault: Storage.Fault, fault: Storage.Fault, calls: HostModel.Calls)
      requires Valid() && calls.flushed == flushFault.NoFault? && calls.saved == fault.NoFault?
      modifies this, store
      ensures Valid() && View() == HostModel.Settle(old(View()), runId, now, uuid, calls)
    {
      if runId !in turns || !turns[runId].phase.Stopping? { return; }
      var id := turns[runId].sessionId;
      if !calls.stopped { RetrySettlement(runId); return; }
      var threw := Flush(id, now, flushFault);
      if threw { RetrySettlement(runId); return; }
      live := live - {id};
      SettleFlushed(runId, now, uuid, fault, calls);
    }

    method RetryFired(id: Id)
      requires Valid()
      modifies this`turns, this`retryTimers
      ensures Valid() && View() == HostModel.RetryFired(old(View()), id)
    {
      if id !in retryTimers { return; }
      var runId := retryTimers[id];
      retryTimers := retryTimers - {id};
      if runId in turns { turns := turns[runId := turns[runId].(phase := HostModel.RetryStopping)]; }
    }

    method RetryFlushed(runId: Id, now: Time, uuid: Id, fault: Storage.Fault, calls: HostModel.Calls)
      requires Valid() && runId in turns && calls.saved == fault.NoFault?
      modifies this, store
      ensures Valid() && View() == HostModel.RetryFlushed(old(View()), runId, now, uuid, calls)
    {
      var latest := store.GetSession(turns[runId].sessionId);
      if latest.Err? {
        RetrySettlement(runId);
      } else if latest.value.runId != Some(runId) || !latest.value.status.Running? {
        Leave(runId, calls);
      } else {
        var settled := Settled(latest.value, Interrupted, Some(HostModel.STORAGE_FAILED), latest.value.updatedAt, now, uuid);
        EndTurn(runId, settled, InterruptedPayload, now, fault, calls);
      }
    }

    /** The step after the awaited stop of a retry. */
    method RetrySettle(runId: Id, now: Time, uuid: Id, flushFault: Storage.Fault, fault: Storage.Fault,
                       calls: HostModel.Calls)
      requires Valid() && calls.flushed == flushFault.NoFault? && calls.saved == fault.NoFault?
      modifies this, store
      ensures Valid() && View() == HostModel.RetrySettle(old(View()), runId, now, uuid, calls)
    {
      if runId !in turns || !turns[runId].phase.RetryStopping? { return; }
      if !calls.stopped { RetrySettlement(runId); return; }
      var threw := Flush(turns[runId].sessionId, now, flushFault);
      if threw { RetrySettlement(runId); return; }
      RetryFlushed(runId, now, uuid, fault, calls);
    }

    // -------------------------------------------------------------- other requests

    /** A save of the stored value with some fields replaced, seen by the overlay. */
    method Update(value: HostSession, payload: Payload, now: Time, fault: Storage.Fault)
      requires Valid()
      modifies this`live, this`history, this`accepted, store
      ensures Valid()
      ensures View() == HostModel.Update(old(View()), HostModel.Next(value, now), payload, fault.NoFault?)
    {
      var saved := Save(value, payload, now, fault);
      if saved.Ok? { Refresh(value.session.id); }
    }

    method UpdateSession(id: Id, patch: Patch, now: Time, flushFault: Storage.Fault, fault: Storage.Fault)
      returns (card: Result<Summary, HostError>)
      requires Valid()
      modifies this`live, this`history, this`accepted, store
      ensures Valid()
      ensures View() == HostModel.PatchSession(old(View()), id, patch, now, flushFault.NoFault?, fault.NoFault?)
      ensures card.Ok? ==> id in store.sessions && card.value == Summarise(store.sessions[id].snapshot)
      ensures card.Err? ==> View() == HostModel.Flush(old(View()), id, now, flushFault.NoFault?)
    {
      var threw := Flush(id, now, flushFault);
      if threw { return Err(StorageFailed); }
      ghost var flushed := View();
      card := Patch(id, patch, fault);
      if card.Ok? { PatchedCard(flushed, id, patch, fault.NoFault?); }
    }

    /** The store's part of a metadata update. */
    method PatchRow(id: Id, patch: Patch, fault: Storage.Fault) returns (card: Result<Summary, HostError>)
      requires Valid()
      modifies this`history, this`accepted, store
      ensures Valid()
      ensures card.Ok? <==> PatchIsSaved(old(View()), id, patch, fault.NoFault?)
      ensures card.Ok? ==> card.value == PatchCard(old(View()), id, patch, fault.NoFault?)
      ensures View() == if card.Ok? then HostModel.SaveCommitted(
                          old(View()), Storage.Patched(old(View()).tables.sessions[id].snapshot, patch), MetadataPayload(patch))
                        else old(View())
    {
      ghost var before := View();
      card := store.UpdateSession(id, patch, fault);
      if card.Ok? {
        Record(before, Storage.Patched(before.tables.sessions[id].snapshot, patch), MetadataPayload(patch));
      }
    }

    method Patch(id: Id, patch: Patch, fault: Storage.Fault) returns (card: Result<Summary, HostError>)
      requires Valid()
      modifies this`live, this`history, this`accepted, store
      ensures Valid()
      ensures View() == HostModel.PatchFlushed(old(View()), id, patch, fault.NoFault?)
      ensures card.Ok? <==> PatchIsSaved(old(View()), id, patch, fault.NoFault?)
      ensures card.Ok? ==> card.value == PatchCard(old(View()), id, patch, fault.NoFault?)
    {
      card := PatchRow(id, patch, fault);
      PatchIsUpdate(old(View()), id, patch, fault.NoFault?);
      if card.Ok? { Refresh(id); }
    }

    method NameSession(id: Id, expected: string, title: string, now: Time,
                       flushFault: Storage.Fault, fault: Storage.Fault)
      requires Valid()
      modifies this`live, this`history, this`accepted, store
      ensures Valid()
      ensures View() == HostModel.NameSession(old(View()), id, expected, title, now, flushFault.NoFault?, fault.NoFault?)
    {
      var threw := Flush(id, now, flushFault);
      if threw { return; }
      var current := store.GetSession(id);
      if current.Err? || current.value.session.title != expected { return; }
      Update(current.value.(session := current.value.session.(title := title)), GeneratedTitlePayload, now, fault);
    }

    method NameBranch(id: Id, branch: string, now: Time, flushFault: Storage.Fault, fault: Storage.Fault)
      requires Valid()
      modifies this`live, this`history, this`accepted, store
      ensures Valid()
      ensures View() == HostModel.NameBranch(old(View()), id, branch, now, flushFault.NoFault?, fault.NoFault?)
    {
      var threw := Flush(id, now, flushFault);
      if threw { return; }
      var current := store.GetSession(id);
      if current.Err? { return; }
      Update(current.value.(autoWorktreeBranch := None, session := current.value.session.(branch := Some(branch))),
             GeneratedBranchPayload(branch), now, fault);
    }

    /** The synchronous head of a branch switch: refused while one is active or a session runs. */
    method BeginSwitch(projectId: Id) returns (begun: bool)
      requires Valid()
      modifies this`switchingProjects, store`cache, store`accesses, store`sessions
      ensures Valid()
      ensures begun <==> projectId in store.projects && projectId !in old(switchingProjects)
                         && forall id :: id in old(store.sessions) && old(store.sessions)[id].projectId == projectId
                              ==> !old(store.sessions)[id].snapshot.status.Running?
      ensures switchingProjects == old(switchingProjects) + if begun then {projectId} else {}
      ensures Storage.OnlyCardsDiffer(store.sessions, old(store.sessions))
    {
      if projectId !in store.projects || projectId in switchingProjects { return false; }
      var cards := store.Summaries(projectId);
      if exists card :: card in cards && card.status.Running? { return false; }
      switchingProjects := switchingProjects + {projectId};
      return true;
    }

    method EndSwitch(projectId: Id)
      requires Valid()
      modifies this`switchingProjects
      ensures Valid() && switchingProjects == old(switchingProjects) - {projectId}
    {
      switchingProjects := switchingProjects - {projectId};
    }

    /** The synchronous head of closing: no more commands, and no more retries. */
    method Close()
      requires Valid()
      modifies this`closing, this`retryTimers, this`turns
      ensures Valid() && View() == HostModel.Close(old(View()))
    {
      closing := true;
      retryTimers := map[];
      turns := map r | r in turns && !turns[r].phase.RetryWaiting? :: turns[r];
    }
  }

  /** A metadata update that is saved: of a stored session, with a title that is valid. */
  ghost predicate PatchIsSaved(s: HostModel.Host, id: Id, patch: Patch, ok: bool) {
    && id in s.tables.sessions && (patch.title.Some? ==> Storage.ValidTitle(patch.title.value))
    && !HostModel.SaveThrows(s, Storage.Patched(s.tables.sessions[id].snapshot, patch), ok)
  }

  /** The card of what it saves. */
  ghost function PatchCard(s: HostModel.Host, id: Id, patch: Patch, ok: bool): Summary
    requires PatchIsSaved(s, id, patch, ok)
  {
    Summarise(Saving(s.tables, Storage.Patched(s.tables.sessions[id].snapshot, patch)))
  }

  lemma PatchIsUpdate(s: HostModel.Host, id: Id, patch: Patch, ok: bool)
    requires id in s.tables.sessions ==> s.tables.sessions[id].snapshot.session.id == id
    ensures HostModel.PatchFlushed(s, id, patch, ok) ==
            if PatchIsSaved(s, id, patch, ok)
            then HostModel.Refresh(
                   HostModel.SaveCommitted(s, Storage.Patched(s.tables.sessions[id].snapshot, patch), MetadataPayload(patch)),
                   id)
            else s
  {
  }

  lemma PatchedCard(s: HostModel.Host, id: Id, patch: Patch, ok: bool)
    requires PatchIsSaved(s, id, patch, ok) && s.tables.sessions[id].snapshot.session.id == id
    ensures var rows := HostModel.PatchFlushed(s, id, patch, ok).tables.sessions;
            id in rows && PatchCard(s, id, patch, ok) == Summarise(rows[id].snapshot)
  {
  }

  ghost predicate OthersUnchanged(before: map<Id, Row>, after: map<Id, Row>, id: Id) {
    after.Keys == before.Keys && forall other :: other in before && other != id ==> after[other] == before[other]
  }

  /** What recovery makes of a stored value. */
  ghost predicate Recovered(before: HostSession, after: HostSession, now: Time, uuid: Id) {
    if before.status.Running?
    then after.status == Interrupted && after.session == HostModel.RecoveredInput(before, now, uuid).session
    else after == before
  }

  ghost predicate PartlyRecovered(before: map<Id, Row>, rows: map<Id, Row>, todo: set<Id>, now: Time, uuids: map<Id, Id>) {
    && before.Keys == rows.Keys == uuids.Keys && todo <= rows.Keys
    && (forall id :: id in todo ==> rows[id] == before[id])
    && forall id :: id in rows && id !in todo ==> Recovered(before[id].snapshot, rows[id].snapshot, now, uuids[id])
  }

  lemma OneMoreRecovered(before: map<Id, Row>, rows: map<Id, Row>, after: map<Id, Row>, todo: set<Id>, id: Id,
                         now: Time, uuids: map<Id, Id>, threw: bool)
    requires PartlyRecovered(before, rows, todo, now, uuids) && id in todo && OthersUnchanged(rows, after, id)
    requires !threw ==> Recovered(rows[id].snapshot, after[id].snapshot, now, uuids[id])
    ensures after.Keys == before.Keys
    ensures !threw ==> PartlyRecovered(before, after, todo - {id}, now, uuids)
  {
  }

  ghost predicate PartlyBound(rows: map<Id, Row>, todo: set<Id>, bound: set<Id>) {
    forall id :: id in rows && id !in todo && rows[id].snapshot.session.providerSessionId.Some? ==> id in bound
  }

  lemma OneMoreBound(rows: map<Id, Row>, after: map<Id, Row>, todo: set<Id>, id: Id, bound: set<Id>)
    requires PartlyBound(rows, todo, bound) && id in todo && OthersUnchanged(rows, after, id)
    requires id in rows && (after[id].snapshot.session.providerSessionId.Some? ==> id in bound)
    ensures PartlyBound(after, todo - {id}, bound)
  {
  }

  lemma AllDone(before: map<Id, Row>, rows: map<Id, Row>, now: Time, uuids: map<Id, Id>)
    requires PartlyRecovered(before, rows, {}, now, uuids)
    ensures forall id :: id in rows ==>
              !rows[id].snapshot.status.Running? && Recovered(before[id].snapshot, rows[id].snapshot, now, uuids[id])
  {
  }

  function Transacted(tables: Tables, command: HostCommand, input: HostSession): Tables {
    var saved := SaveRows(tables, input, CommandPayload(command));
    saved.(receipts := saved.receipts[command.commandId :=
             ReceiptRow(command, HostModel.CommandReceipt(command, input))])
  }
}
