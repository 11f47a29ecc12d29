/**
 The headless host as a state machine. One action is one JavaScript turn: everything
 between two `await`s or timers happens at once, and a crash may come between any two.

 The state is the durable tables, the memory of the running process, and a record of the
 past (`history`, `accepted`, `dispatched`, `used`) that no action reads for a decision.
 Actions that are not enabled leave the state alone.
 */
module HostModel {
  import opened Wrappers
  import opened Sessions
  import opened Protocol
  import opened DeltaSync
  import opened Tables
  import opened Turns
  import Storage

  /** How a provider event changes a session; None when it changes nothing. */
  type Applier = (Session, HarnessEvent) -> Option<Session>

  datatype Config = Config(apply: Applier, providers: Providers)

  /** A running session with the streamed events not yet written. */
  datatype Live = Live(value: HostSession, events: seq<HarnessEvent>)

  datatype Phase =
    | Queued
    | Sending
    | Stopping(error: Option<string>)
    | RetryWaiting
    | RetryStopping

  /** The promise chain of one run, with the flags its closure shares with the running map. */
  datatype Turn = Turn(sessionId: Id, phase: Phase, cancelled: bool, persistenceFailed: bool)

  datatype Commit = Commit(value: HostSession, payload: Payload)

  datatype Host = Host(
    tables: Tables,
    up: bool,
    closing: bool,
    switching: set<Id>,
    running: map<Id, Id>,
    live: map<Id, Live>,
    retryTimers: map<Id, Id>,
    turns: map<Id, Turn>,
    history: map<Id, seq<Commit>>,
    accepted: map<Id, seq<HarnessEvent>>,
    dispatched: seq<Id>,
    used: set<Id>)

  /** No promise chain is new, and none goes back to waiting for its provider. */
  ghost predicate NoNewTurns(before: map<Id, Turn>, after: map<Id, Turn>) {
    forall r :: r in after ==> r in before && (after[r].phase.Queued? ==> before[r].phase.Queued?)
  }

  /** Every commit of a command was there before, in the same place. */
  ghost predicate NoNewCommands(before: map<Id, seq<Commit>>, after: map<Id, seq<Commit>>) {
    forall id, i :: id in after && 0 <= i < |after[id]| && after[id][i].payload.CommandPayload? ==>
      id in before && i < |before[id]| && before[id][i] == after[id][i]
  }

  // ---------------------------------------------------------------- saving

  predicate SaveThrows(s: Host, input: HostSession, ok: bool) {
    !ok || Rejected(s.tables, input)
  }

  /** One committed save. */
  function SaveCommitted(s: Host, input: HostSession, payload: Payload): (t: Host)
    ensures t.tables.receipts == s.tables.receipts && t.running == s.running
    ensures t.turns == s.turns && t.dispatched == s.dispatched
    ensures t.up == s.up && t.used == s.used
    ensures !payload.CommandPayload? ==> NoNewCommands(s.history, t.history)
  {
    var id := input.session.id;
    var value := Saving(s.tables, input);
    s.(tables := SaveRows(s.tables, input, payload),
       history := s.history[id := (if id in s.history then s.history[id] else []) + [Commit(value, payload)]],
       accepted := if id in s.accepted then s.accepted else s.accepted[id := []])
  }

  /** The engine's save: the next revision of a value, at the current time. */
  function Next(value: HostSession, now: Time): HostSession {
    value.(revision := value.revision + 1, updatedAt := now)
  }

  // ---------------------------------------------------------------- the overlay

  predicate FlushThrows(s: Host, id: Id, now: Time, ok: bool) {
    id in s.live && s.live[id].events != [] && SaveThrows(s, Next(s.live[id].value, now), ok)
  }

  function Flush(s: Host, id: Id, now: Time, ok: bool): (t: Host)
    ensures t.tables.receipts == s.tables.receipts && t.running == s.running
    ensures t.turns == s.turns && t.dispatched == s.dispatched
    ensures t.up == s.up && t.used == s.used
    ensures NoNewCommands(s.history, t.history)
  {
    if id !in s.live || s.live[id].events == [] || FlushThrows(s, id, now, ok) then s
    else
      var input := Next(s.live[id].value, now);
      SaveCommitted(s, input, EventsPayload(s.live[id].events)).(
        live := s.live[id := Live(Saving(s.tables, input), [])])
  }

  function MarkFailed(s: Host, id: Id): (t: Host)
    ensures t.tables == s.tables && t.running == s.running
    ensures NoNewTurns(s.turns, t.turns) && t.dispatched == s.dispatched
    ensures t.up == s.up && t.used == s.used
    ensures t.history == s.history
  {
    if id in s.running && s.running[id] in s.turns
    then s.(turns := s.turns[s.running[id] := s.turns[s.running[id]].(persistenceFailed := true)])
    else s
  }

  function ScheduledFlush(s: Host, id: Id, now: Time, ok: bool): (t: Host)
    ensures t.tables.receipts == s.tables.receipts && t.running == s.running
    ensures NoNewTurns(s.turns, t.turns) && t.dispatched == s.dispatched
    ensures t.up == s.up && t.used == s.used
    ensures NoNewCommands(s.history, t.history)
  {
    if FlushThrows(s, id, now, ok) then MarkFailed(s, id) else Flush(s, id, now, ok)
  }

  predicate Accepts(c: Config, s: Host, id: Id, runId: Id, event: HarnessEvent) {
    && id in s.live
    && s.live[id].value.runId == Some(runId)
    && s.live[id].value.status.Running?
    && c.apply(s.live[id].value.session, event).Some?
  }

  function Accept(c: Config, s: Host, id: Id, event: HarnessEvent): Host
    requires id in s.live && c.apply(s.live[id].value.session, event).Some?
  {
    var live := s.live[id];
    s.(live := s.live[id := Live(live.value.(session := c.apply(live.value.session, event).value),
                                 live.events + [event])],
       accepted := s.accepted[id := (if id in s.accepted then s.accepted[id] else []) + [event]])
  }

  function ReceiveEvent(c: Config, s: Host, id: Id, runId: Id, event: HarnessEvent, now: Time, ok: bool): (t: Host)
    ensures t.tables.receipts == s.tables.receipts && t.running == s.running
    ensures NoNewTurns(s.turns, t.turns) && t.dispatched == s.dispatched
    ensures t.up == s.up && t.used == s.used
    ensures NoNewCommands(s.history, t.history)
  {
    if !Accepts(c, s, id, runId, event) then s
    else
      var s1 := Accept(c, s, id, event);
      if event.kind in BATCHED then s1 else ScheduledFlush(s1, id, now, ok)
  }

  /** After any other save of a session that is live, the overlay starts from the saved value. */
  function Refresh(s: Host, id: Id): (t: Host)
    ensures t.tables == s.tables && t.running == s.running
    ensures t.turns == s.turns && t.dispatched == s.dispatched
    ensures t.up == s.up && t.used == s.used
    ensures t.history == s.history
  {
    if id in s.live && id in s.tables.sessions
    then s.(live := s.live[id := s.live[id].(value := s.tables.sessions[id].snapshot)])
    else s
  }

  // ---------------------------------------------------------------- commands

  function Begin(s: Host, value: HostSession, runId: Id): Host {
    var id := value.session.id;
    s.(running := s.running[id := runId],
       live := s.live[id := Live(value, [])],
       turns := s.turns[runId := Turn(id, Queued, false, false)])
  }

  function Perform(s: Host, saved: HostSession, effect: Effect): (t: Host)
    ensures t.tables == s.tables
    ensures t.running == if effect.Launch? then s.running[saved.session.id := effect.runId] else s.running
    ensures t.up == s.up && t.used == s.used
  {
    match effect
    case NoEffect => s
    case Relay => s
    case Launch(runId) => Begin(s, saved, runId)
    case CancelTurn =>
      var id := saved.session.id;
      if id in s.running && s.running[id] in s.turns
      then s.(turns := s.turns[s.running[id] := s.turns[s.running[id]].(cancelled := true)])
      else s
  }

  function CommandInput(command: HostCommand, decided: Decided, now: Time): HostSession {
    decided.value.(revision := decided.value.revision + 1,
                   updatedAt := if command.Create? then decided.value.updatedAt else now)
  }

  function CommandReceipt(command: HostCommand, input: HostSession): Receipt {
    Receipt(command.commandId, input.session.id, input.revision)
  }

  /** The transaction of a command: the save and the receipt, or nothing. */
  function Accepted(s: Host, command: HostCommand, decided: Decided, around: Surroundings): (t: Host)
    ensures var input := CommandInput(command, decided, around.now);
            t.tables.receipts ==
            s.tables.receipts[command.commandId := ReceiptRow(command, CommandReceipt(command, input))]
    ensures t.running == if decided.effect.Launch? then s.running[decided.value.session.id := decided.effect.runId]
                         else s.running
    ensures t.up == s.up && t.used == s.used
  {
    var input := CommandInput(command, decided, around.now);
    var s1 := SaveCommitted(s, input, CommandPayload(command));
    var s2 := s1.(tables := s1.tables.(
                    receipts := s1.tables.receipts[
                      command.commandId := ReceiptRow(command, CommandReceipt(command, input))]));
    Perform(Refresh(s2, input.session.id), Saving(s.tables, input), decided.effect)
  }

  datatype Outcome = Outcome(host: Host, reply: Result<Receipt, HostError>)

  /** The effect of a command throws into its caller, after the transaction is committed. */
  predicate EffectThrows(decided: Decided, around: Surroundings) {
    decided.effect.Relay? && !around.relayed
  }

  /** A new command, once the session it concerns is flushed. */
  function RunFlushed(c: Config, s: Host, command: HostCommand, around: Surroundings, ok: bool): Outcome {
    var decided := Decide(s.tables, command, s.switching, c.providers, around);
    if decided.Err? then Outcome(s, Err(decided.error))
    else
      var input := CommandInput(command, decided.value, around.now);
      if SaveThrows(s, input, ok) then Outcome(s, Err(StorageFailed))
      else Outcome(Accepted(s, command, decided.value, around),
                   if EffectThrows(decided.value, around) then Err(ProviderFailed)
                   else Ok(CommandReceipt(command, input)))
  }

  /** Commands apply to the latest state, including batched output. */
  function Prepared(s: Host, command: HostCommand, around: Surroundings, ok: bool): (t: Host)
    ensures t.tables.receipts == s.tables.receipts && t.running == s.running
    ensures t.turns == s.turns && t.dispatched == s.dispatched
    ensures t.up == s.up && t.used == s.used
    ensures NoNewCommands(s.history, t.history)
  {
    if command.Create? then s else Flush(s, command.sessionId, around.now, ok)
  }

  function RunCommand(c: Config, s: Host, command: HostCommand, around: Surroundings,
                      flushOk: bool, saveOk: bool): Outcome {
    if s.closing then Outcome(s, Err(HostStopping))
    else if command.commandId in s.tables.receipts then
      if s.tables.receipts[command.commandId].command == command
      then Outcome(s, Ok(s.tables.receipts[command.commandId].receipt))
      else Outcome(s, Err(CommandIdReused))
    else if !command.Create? && FlushThrows(s, command.sessionId, around.now, flushOk)
    then Outcome(s, Err(StorageFailed))
    else RunFlushed(c, Prepared(s, command, around, flushOk), command, around, saveOk)
  }

  // ---------------------------------------------------------------- the run of a turn

  function SetPhase(s: Host, runId: Id, phase: Phase): Host
    requires runId in s.turns
  {
    s.(turns := s.turns[runId := s.turns[runId].(phase := phase)])
  }

  function Dispatch(s: Host, runId: Id): Host
    requires runId in s.turns
  {
    SetPhase(s, runId, Sending).(dispatched := s.dispatched + [runId])
  }

  /** The first step of the chain: hand the prompt to the provider, unless there is a reason not to. */
  function StartSending(s: Host, runId: Id, prepared: Option<string>): (t: Host)
    ensures t.tables == s.tables && t.running == s.running
    ensures t.up == s.up && t.used == s.used
    ensures t.history == s.history
  {
    if runId !in s.turns || !s.turns[runId].phase.Queued? then s
    else if s.closing || s.turns[runId].cancelled || prepared.Some? then
      SetPhase(s, runId, Stopping(if s.closing || s.turns[runId].cancelled then None else prepared))
    else Dispatch(s, runId)
  }

  function SendReturned(s: Host, runId: Id, error: Option<string>): (t: Host)
    ensures t.tables == s.tables && t.running == s.running
    ensures NoNewTurns(s.turns, t.turns) && t.dispatched == s.dispatched
    ensures t.up == s.up && t.used == s.used
    ensures t.history == s.history
  {
    if runId !in s.turns || !s.turns[runId].phase.Sending? then s else SetPhase(s, runId, Stopping(error))
  }

  /** The catch of the chain: settle later, unless the process is closing or a retry is armed. */
  function RetryLater(s: Host, runId: Id): (t: Host)
    requires runId in s.turns
    ensures t.tables == s.tables && t.running == s.running
    ensures NoNewTurns(s.turns, t.turns) && t.dispatched == s.dispatched
    ensures t.up == s.up && t.used == s.used
    ensures t.history == s.history
  {
    var id := s.turns[runId].sessionId;
    if s.closing || id in s.retryTimers then s.(turns := s.turns - {runId})
    else SetPhase(s, runId, RetryWaiting).(retryTimers := s.retryTimers[id := runId])
  }

  const STOPPED_BY_HOST := "Host stopped. This turn was interrupted."
  const STORAGE_FAILED := "Session storage failed during this turn. Inspect its work before continuing."
  const STOPPED_BY_USER := "Stopped by you."
  const RESTARTED := "Host restarted. This turn was interrupted; inspect its work before continuing."

  function ClosingMessage(closing: bool, turn: Turn): Option<string> {
    if closing then Some(STOPPED_BY_HOST)
    else if turn.persistenceFailed then Some(STORAGE_FAILED)
    else if turn.cancelled then Some(STOPPED_BY_USER)
    else if turn.phase.Stopping? then turn.phase.error
    else None
  }

  /** Which environment calls of a settling step work. `bound` is false when the final `bind` throws. */
  datatype Calls = Calls(stopped: bool, flushed: bool, saved: bool, bound: bool)

  function SettledInput(s: Host, turn: Turn, latest: HostSession, now: Time, uuid: Id): HostSession {
    var status := if s.closing || turn.persistenceFailed then Interrupted else Idle;
    Next(Settled(latest, status, ClosingMessage(s.closing, turn), now, now, uuid), now)
  }

  function SettledPayloadOf(turn: Turn): Payload {
    SettledPayload(if turn.phase.Stopping? then turn.phase.error else None, turn.cancelled)
  }

  /** The session is neither running nor live. */
  function Release(s: Host, id: Id): (t: Host)
    ensures t.turns == s.turns && t.tables == s.tables && t.history == s.history
    ensures t.dispatched == s.dispatched && t.up == s.up && t.used == s.used
  {
    s.(running := s.running - {id}, live := s.live - {id})
  }

  /** What follows the settled save: the run leaves the running map, then the provider is bound. */
  function Leave(s: Host, runId: Id, calls: Calls): (t: Host)
    requires runId in s.turns
    ensures t.tables == s.tables
    ensures NoNewTurns(s.turns, t.turns) && t.dispatched == s.dispatched
    ensures t.up == s.up && t.used == s.used
    ensures t.history == s.history
  {
    var id := s.turns[runId].sessionId;
    var released := Release(s, id);
    var needsBind := id in s.tables.sessions && s.tables.sessions[id].snapshot.session.providerSessionId.Some?;
    if needsBind && !calls.bound then RetryLater(released, runId)
    else released.(turns := released.turns - {runId})
  }

  /** The save that ends a turn. */
  function EndTurn(s: Host, runId: Id, input: HostSession, payload: Payload, calls: Calls): (t: Host)
    requires runId in s.turns
    ensures t.tables.receipts == s.tables.receipts
    ensures NoNewTurns(s.turns, t.turns) && t.dispatched == s.dispatched
    ensures t.up == s.up && t.used == s.used
    ensures !payload.CommandPayload? ==> NoNewCommands(s.history, t.history)
  {
    if SaveThrows(s, input, calls.saved) then RetryLater(s, runId)
    else Leave(SaveCommitted(s, input, payload), runId, calls)
  }

  /** The settled save and what follows it, once the session is flushed and no longer live. */
  function SettleFlushed(s: Host, runId: Id, now: Time, uuid: Id, calls: Calls): (t: Host)
    requires runId in s.turns
    ensures t.tables.receipts == s.tables.receipts
    ensures NoNewTurns(s.turns, t.turns) && t.dispatched == s.dispatched
    ensures t.up == s.up && t.used == s.used
    ensures NoNewCommands(s.history, t.history)
  {
    var turn := s.turns[runId];
    if turn.sessionId !in s.tables.sessions then RetryLater(s, runId)
    else
      var latest := s.tables.sessions[turn.sessionId].snapshot;
      if latest.runId != Some(runId) then Leave(s, runId, calls)
      else EndTurn(s, runId, SettledInput(s, turn, latest, now, uuid), SettledPayloadOf(turn), calls)
  }

  function EndLive(s: Host, id: Id): (t: Host)
    ensures t.tables == s.tables && t.history == s.history && t.turns == s.turns
  {
    s.(live := s.live - {id})
  }

  /** The step after the awaited `provider.stop`. */
  function Settle(s: Host, runId: Id, now: Time, uuid: Id, calls: Calls): (t: Host)
    ensures t.tables.receipts == s.tables.receipts
    ensures NoNewTurns(s.turns, t.turns) && t.dispatched == s.dispatched
    ensures t.up == s.up && t.used == s.used
    ensures NoNewCommands(s.history, t.history)
  {
    if runId !in s.turns || !s.turns[runId].phase.Stopping? then s
    else
      var id := s.turns[runId].sessionId;
      if !calls.stopped || FlushThrows(s, id, now, calls.flushed) then RetryLater(s, runId)
      else SettleFlushed(EndLive(Flush(s, id, now, calls.flushed), id), runId, now, uuid, calls)
  }

  function RetryFired(s: Host, id: Id): (t: Host)
    ensures t.tables == s.tables && t.running == s.running
    ensures NoNewTurns(s.turns, t.turns) && t.dispatched == s.dispatched
    ensures t.up == s.up && t.used == s.used
    ensures t.history == s.history
  {
    if id !in s.retryTimers then s
    else
      var runId := s.retryTimers[id];
      var s1 := s.(retryTimers := s.retryTimers - {id});
      if runId in s.turns then SetPhase(s1, runId, RetryStopping) else s1
  }

  function RetryInput(latest: HostSession, now: Time, uuid: Id): HostSession {
    Next(Settled(latest, Interrupted, Some(STORAGE_FAILED), latest.updatedAt, now, uuid), now)
  }

  function RetryFlushed(s: Host, runId: Id, now: Time, uuid: Id, calls: Calls): (t: Host)
    requires runId in s.turns
    ensures t.tables.receipts == s.tables.receipts
    ensures NoNewTurns(s.turns, t.turns) && t.dispatched == s.dispatched
    ensures t.up == s.up && t.used == s.used
    ensures NoNewCommands(s.history, t.history)
  {
    var id := s.turns[runId].sessionId;
    if id !in s.tables.sessions then RetryLater(s, runId)
    else
      var latest := s.tables.sessions[id].snapshot;
      if latest.runId != Some(runId) || !latest.status.Running? then Leave(s, runId, calls)
      else EndTurn(s, runId, RetryInput(latest, now, uuid), InterruptedPayload, calls)
  }

  /** The step after the awaited `provider.stop` of a retry. */
  function RetrySettle(s: Host, runId: Id, now: Time, uuid: Id, calls: Calls): (t: Host)
    ensures t.tables.receipts == s.tables.receipts
    ensures NoNewTurns(s.turns, t.turns) && t.dispatched == s.dispatched
    ensures t.up == s.up && t.used == s.used
    ensures NoNewCommands(s.history, t.history)
  {
    if runId !in s.turns || !s.turns[runId].phase.RetryStopping? then s
    else
      var id := s.turns[runId].sessionId;
      if !calls.stopped || FlushThrows(s, id, now, calls.flushed) then RetryLater(s, runId)
      else RetryFlushed(Flush(s, id, now, calls.flushed), runId, now, uuid, calls)
  }

  // ---------------------------------------------------------------- other requests

  /** An update of the stored session, and of the overlay if it is live. */
  function Update(s: Host, input: HostSession, payload: Payload, ok: bool): (t: Host)
    ensures t.tables.receipts == s.tables.receipts && t.running == s.running
    ensures t.turns == s.turns && t.dispatched == s.dispatched
    ensures t.up == s.up && t.used == s.used
    ensures !payload.CommandPayload? ==> NoNewCommands(s.history, t.history)
  {
    if SaveThrows(s, input, ok) then s else Refresh(SaveCommitted(s, input, payload), input.session.id)
  }

  function PatchFlushed(s: Host, id: Id, patch: Patch, ok: bool): (t: Host)
    ensures t.tables.receipts == s.tables.receipts && t.running == s.running
    ensures t.turns == s.turns && t.dispatched == s.dispatched
    ensures t.up == s.up && t.used == s.used
    ensures NoNewCommands(s.history, t.history)
  {
    if id !in s.tables.sessions || (patch.title.Some? && !Storage.ValidTitle(patch.title.value)) then s
    else Update(s, Storage.Patched(s.tables.sessions[id].snapshot, patch), MetadataPayload(patch), ok)
  }

  function PatchSession(s: Host, id: Id, patch: Patch, now: Time, flushOk: bool, saveOk: bool): (t: Host)
    ensures t.tables.receipts == s.tables.receipts && t.running == s.running
    ensures t.turns == s.turns && t.dispatched == s.dispatched
    ensures t.up == s.up && t.used == s.used
    ensures NoNewCommands(s.history, t.history)
  {
    if FlushThrows(s, id, now, flushOk) then s else PatchFlushed(Flush(s, id, now, flushOk), id, patch, saveOk)
  }

  /** A generated title replaces the one it was asked for, unless that has changed since. */
  function NameFlushed(s: Host, id: Id, expected: string, title: string, now: Time, ok: bool): (t: Host)
    ensures t.tables.receipts == s.tables.receipts && t.running == s.running
    ensures t.turns == s.turns && t.dispatched == s.dispatched
    ensures t.up == s.up && t.used == s.used
    ensures NoNewCommands(s.history, t.history)
  {
    if id !in s.tables.sessions || s.tables.sessions[id].snapshot.session.title != expected then s
    else
      var current := s.tables.sessions[id].snapshot;
      Update(s, Next(current.(session := current.session.(title := title)), now), GeneratedTitlePayload, ok)
  }

  function NameSession(s: Host, id: Id, expected: string, title: string,
                       now: Time, flushOk: bool, saveOk: bool): (t: Host)
    ensures t.tables.receipts == s.tables.receipts && t.running == s.running
    ensures t.turns == s.turns && t.dispatched == s.dispatched
    ensures t.up == s.up && t.used == s.used
    ensures NoNewCommands(s.history, t.history)
  {
    if FlushThrows(s, id, now, flushOk) then s
    else NameFlushed(Flush(s, id, now, flushOk), id, expected, title, now, saveOk)
  }

  function BranchFlushed(s: Host, id: Id, branch: string, now: Time, ok: bool): (t: Host)
    ensures t.tables.receipts == s.tables.receipts && t.running == s.running
    ensures t.turns == s.turns && t.dispatched == s.dispatched
    ensures t.up == s.up && t.used == s.used
    ensures NoNewCommands(s.history, t.history)
  {
    if id !in s.tables.sessions then s
    else
      var current := s.tables.sessions[id].snapshot;
      Update(s, Next(current.(autoWorktreeBranch := None, session := current.session.(branch := Some(branch))), now),
             GeneratedBranchPayload(branch), ok)
  }

  function NameBranch(s: Host, id: Id, branch: string, now: Time, flushOk: bool, saveOk: bool): (t: Host)
    ensures t.tables.receipts == s.tables.receipts && t.running == s.running
    ensures t.turns == s.turns && t.dispatched == s.dispatched
    ensures t.up == s.up && t.used == s.used
    ensures NoNewCommands(s.history, t.history)
  {
    if FlushThrows(s, id, now, flushOk) then s
    else BranchFlushed(Flush(s, id, now, flushOk), id, branch, now, saveOk)
  }

  function Delete(s: Host, id: Id, ok: bool): (t: Host)
    ensures t.tables.receipts == s.tables.receipts && t.running == s.running
    ensures t.turns == s.turns && t.dispatched == s.dispatched
    ensures t.up == s.up && t.used == s.used
    ensures NoNewCommands(s.history, t.history)
  {
    if id !in s.tables.sessions || s.tables.sessions[id].snapshot.status.Running? || !ok then s
    else s.(tables := DropSession(s.tables, id), history := s.history - {id}, accepted := s.accepted - {id})
  }

  /** The card of a row, as the store serves it: the stored one when it is complete. */
  function Card(row: Row): Summary {
    if row.summary.Some? && row.summary.value.model != "" then row.summary.value else Summarise(row.snapshot)
  }

  predicate ProjectIsIdle(tables: Tables, projectId: Id) {
    forall id :: id in tables.sessions && tables.sessions[id].projectId == projectId
                 ==> !Card(tables.sessions[id]).status.Running?
  }

  function BeginSwitch(s: Host, projectId: Id): (t: Host)
    ensures t.tables == s.tables && t.running == s.running
    ensures t.turns == s.turns && t.dispatched == s.dispatched
    ensures t.up == s.up && t.used == s.used
    ensures t.history == s.history
  {
    if projectId !in s.tables.projects || projectId in s.switching || !ProjectIsIdle(s.tables, projectId) then s
    else s.(switching := s.switching + {projectId})
  }

  function RegisterProject(s: Host, projectId: Id, cwd: string): (t: Host)
    ensures t.tables.receipts == s.tables.receipts && t.running == s.running
    ensures t.turns == s.turns && t.dispatched == s.dispatched
    ensures t.up == s.up && t.used == s.used
    ensures t.history == s.history
  {
    if projectId in s.tables.projects then s
    else s.(tables := s.tables.(projects := s.tables.projects[projectId := cwd]))
  }

  // ---------------------------------------------------------------- the process

  /** The events a session's committed log holds. */
  function Written(commits: seq<Commit>): seq<HarnessEvent> {
    if commits == [] then []
    else
      Written(commits[..|commits| - 1]) +
      match commits[|commits| - 1].payload
      case EventsPayload(events) => events
      case _ => []
  }

  function Crash(s: Host): Host {
    s.(up := false, closing := false, switching := {}, running := map[], live := map[],
       retryTimers := map[], turns := map[],
       accepted := map id | id in s.history :: Written(s.history[id]))
  }

  function RecoveredInput(value: HostSession, now: Time, uuid: Id): HostSession {
    Next(Settled(value, Interrupted, Some(RESTARTED), value.updatedAt, now, uuid), now)
  }

  /** One session of the recovery loop of a starting process. */
  function Recover(s: Host, id: Id, now: Time, uuid: Id, ok: bool): (t: Host)
    ensures t.tables.receipts == s.tables.receipts && t.running == s.running
    ensures t.turns == s.turns && t.dispatched == s.dispatched
    ensures t.up == s.up && t.used == s.used
    ensures NoNewCommands(s.history, t.history)
  {
    if id !in s.tables.sessions || !s.tables.sessions[id].snapshot.status.Running? then s
    else
      var input := RecoveredInput(s.tables.sessions[id].snapshot, now, uuid);
      if SaveThrows(s, input, ok) then s else SaveCommitted(s, input, InterruptedPayload)
  }

  predicate AllRecovered(s: Host) {
    forall id :: id in s.tables.sessions ==> !s.tables.sessions[id].snapshot.status.Running?
  }

  /** Every session that has an id at its provider is bound to it. */
  predicate AllBound(rows: map<Id, Row>, bound: set<Id>) {
    forall id :: id in rows && rows[id].snapshot.session.providerSessionId.Some? ==> id in bound
  }

  function Close(s: Host): (t: Host)
    ensures t.tables == s.tables && t.running == s.running
    ensures NoNewTurns(s.turns, t.turns) && t.dispatched == s.dispatched
    ensures t.up == s.up && t.used == s.used
    ensures t.history == s.history
  {
    s.(closing := true, retryTimers := map[],
       turns := map r | r in s.turns && !s.turns[r].phase.RetryWaiting? :: s.turns[r])
  }

  // ---------------------------------------------------------------- steps and runs

  datatype Action =
    | DoCommand(command: HostCommand, around: Surroundings, flushOk: bool, saveOk: bool)
    | DoEvent(id: Id, runId: Id, event: HarnessEvent, now: Time, saveOk: bool)
    | DoFlushTimer(id: Id, now: Time, saveOk: bool)
    | DoStartSending(runId: Id, prepared: Option<string>)
    | DoSendReturned(runId: Id, error: Option<string>)
    | DoSettle(runId: Id, now: Time, uuid: Id, calls: Calls)
    | DoRetryFired(id: Id)
    | DoRetrySettle(runId: Id, now: Time, uuid: Id, calls: Calls)
    | DoPatch(id: Id, patch: Patch, now: Time, flushOk: bool, saveOk: bool)
    | DoNameSession(id: Id, expected: string, title: string, now: Time, flushOk: bool, saveOk: bool)
    | DoNameBranch(id: Id, branch: string, now: Time, flushOk: bool, saveOk: bool)
    | DoDelete(id: Id, saveOk: bool)
    | DoBeginSwitch(projectId: Id)
    | DoEndSwitch(projectId: Id)
    | DoRegisterProject(projectId: Id, cwd: string)
    | DoClose
    | DoCrash
    | DoRecover(id: Id, now: Time, uuid: Id, saveOk: bool)
    | DoReady(bound: set<Id>)

  /** The random id an action draws, if any. Ids are never drawn twice. */
  function Drawn(a: Action): Option<Id> {
    match a
    case DoCommand(_, around, _, _) => Some(around.uuid)
    case DoSettle(_, _, uuid, _) => Some(uuid)
    case DoRetrySettle(_, _, uuid, _) => Some(uuid)
    case DoRecover(_, _, uuid, _) => Some(uuid)
    case _ => None
  }

  function Act(c: Config, s: Host, a: Action): Host {
    match a
    case DoCommand(command, around, flushOk, saveOk) => RunCommand(c, s, command, around, flushOk, saveOk).host
    case DoEvent(id, runId, event, now, saveOk) => ReceiveEvent(c, s, id, runId, event, now, saveOk)
    case DoFlushTimer(id, now, saveOk) => ScheduledFlush(s, id, now, saveOk)
    case DoStartSending(runId, prepared) => StartSending(s, runId, prepared)
    case DoSendReturned(runId, error) => SendReturned(s, runId, error)
    case DoSettle(runId, now, uuid, calls) => Settle(s, runId, now, uuid, calls)
    case DoRetryFired(id) => RetryFired(s, id)
    case DoRetrySettle(runId, now, uuid, calls) => RetrySettle(s, runId, now, uuid, calls)
    case DoPatch(id, patch, now, flushOk, saveOk) => PatchSession(s, id, patch, now, flushOk, saveOk)
    case DoNameSession(id, expected, title, now, flushOk, saveOk) =>
      NameSession(s, id, expected, title, now, flushOk, saveOk)
    case DoNameBranch(id, branch, now, flushOk, saveOk) => NameBranch(s, id, branch, now, flushOk, saveOk)
    case DoDelete(id, saveOk) => Delete(s, id, saveOk)
    case DoBeginSwitch(projectId) => BeginSwitch(s, projectId)
    case DoEndSwitch(projectId) => s.(switching := s.switching - {projectId})
    case DoRegisterProject(projectId, cwd) => RegisterProject(s, projectId, cwd)
    case DoClose => Close(s)
    case DoCrash => Crash(s)
    case DoRecover(id, now, uuid, saveOk) => Recover(s, id, now, uuid, saveOk)
    case DoReady(_) => s.(up := true)
  }

  /** Only a process that is up serves requests. One that is starting recovers, and is up once no
      session is running and each is bound again: `bound` are those whose provider is there and takes
      the binding. */
  predicate Enabled(s: Host, a: Action) {
    && (Drawn(a).Some? ==> Drawn(a).value !in s.used)
    && match a
       case DoCrash => true
       case DoRecover(_, _, _, _) => !s.up
       case DoReady(bound) => !s.up && AllRecovered(s) && AllBound(s.tables.sessions, bound)
       case _ => s.up
  }

  function Draw(s: Host, a: Action): Host {
    s.(used := s.used + if Drawn(a).Some? then {Drawn(a).value} else {})
  }

  function Step(c: Config, s: Host, a: Action): Host {
    if Enabled(s, a) then Act(c, Draw(s, a), a) else s
  }

  /** An empty database and no process. */
  const NEW_HOST := Host(Tables(map[], map[], map[], map[]), false, false, {}, map[], map[], map[], map[],
                         map[], map[], [], {})

  function Exec(c: Config, s: Host, actions: seq<Action>): Host {
    if actions == [] then s
    else Step(c, Exec(c, s, actions[..|actions| - 1]), actions[|actions| - 1])
  }
}
