/**
 What a `bind` that throws after a turn was settled does: the promise chain of the old run
 stays armed for a retry, and the retry releases whatever run the session has by then.
 */
module HostBind {
  import opened Wrappers
  import opened Sessions
  import opened Protocol
  import opened DeltaSync
  import opened Tables
  import opened Turns
  import opened HostModel
  import opened HostInvariants
  import opened HostMemory
  import opened HostSteps
  import opened HostRuns

  ghost predicate SameRun(before: map<Id, Row>, after: map<Id, Row>, id: Id) {
    && id in before && id in after && after == before[id := after[id]]
    && after[id].snapshot.status == before[id].snapshot.status
    && after[id].snapshot.runId == before[id].snapshot.runId
  }

  lemma SaveThroughKeepsRun(s: Host, input: HostSession, payload: Payload)
    requires s.accepted.Keys == s.history.Keys == s.tables.sessions.Keys
    requires input.session.id in s.tables.sessions
    requires var stored := s.tables.sessions[input.session.id].snapshot;
             input.status == stored.status && input.runId == stored.runId
    ensures SameRun(s.tables.sessions, SaveThrough(s, input, payload).tables.sessions, input.session.id)
  {
    SaveThroughShape(s, input, payload);
  }

  lemma WrittenRun(c: Config, s: Host, id: Id, now: Time, ok: bool)
    requires Durable(s.tables, s.history) && Shown(c, s, id) && KeepsIdentity(c)
    requires s.accepted.Keys == s.history.Keys
    requires id in s.live && s.live[id].events != [] && !FlushThrows(s, id, now, ok)
    ensures SameRun(s.tables.sessions, Flush(s, id, now, ok).tables.sessions, id)
  {
    FlushShape(c, s, id, now, ok);
    SaveThroughKeepsRun(s, Next(s.live[id].value, now), EventsPayload(s.live[id].events));
  }

  lemma WrittenIsDurable(c: Config, s: Host, id: Id, now: Time, ok: bool)
    requires Durable(s.tables, s.history) && Shown(c, s, id) && KeepsIdentity(c)
    requires id in s.live && s.live[id].events != [] && !FlushThrows(s, id, now, ok)
    ensures var t := Flush(s, id, now, ok); Durable(t.tables, t.history)
  {
    FlushShape(c, s, id, now, ok);
    SaveThroughKeepsDurable(s, Next(s.live[id].value, now), EventsPayload(s.live[id].events));
  }

  lemma FlushedRun(c: Config, s: Host, id: Id, now: Time, ok: bool)
    requires Durable(s.tables, s.history) && Shown(c, s, id) && KeepsIdentity(c)
    requires id in s.tables.sessions && s.accepted.Keys == s.history.Keys
    ensures var t := Flush(s, id, now, ok);
            Durable(t.tables, t.history) && SameRun(s.tables.sessions, t.tables.sessions, id)
  {
    if id in s.live && s.live[id].events != [] && !FlushThrows(s, id, now, ok) {
      WrittenRun(c, s, id, now, ok);
      WrittenIsDurable(c, s, id, now, ok);
    } else {
      NothingIsWritten(s, id, now, ok);
    }
  }

  lemma NothingIsWritten(s: Host, id: Id, now: Time, ok: bool)
    requires id !in s.live || s.live[id].events == [] || FlushThrows(s, id, now, ok)
    ensures Flush(s, id, now, ok) == s
  {
  }

  lemma ReleaseBreaksOtherRuns(up: bool, rows: map<Id, Row>, running: map<Id, Id>, id: Id)
    requires RunningOk(up, rows, running)
    ensures RunningOk(up, rows, running - {id}) <==> !(up && IsRunning(rows, id))
  {
  }

  lemma RetryEndsItsRun(s: Host, r: Id, now: Time, uuid: Id, calls: Calls)
    requires r in s.turns && calls.saved && Durable(s.tables, s.history)
    requires var id := s.turns[r].sessionId;
             && RunningOk(s.up, s.tables.sessions, s.running) && IsRunning(s.tables.sessions, id)
             && s.tables.sessions[id].snapshot.runId == Some(r)
    ensures var t := RetryFlushed(s, r, now, uuid, calls); RunningOk(t.up, t.tables.sessions, t.running)
  {
    var id := s.turns[r].sessionId;
    var input := RetryInput(s.tables.sessions[id].snapshot, now, uuid);
    SnapshotIsKeyed(s, id);
    NextRevisionIsFree(s.tables, id, input);
    SavedRow(s, input, InterruptedPayload);
    var saved := SaveCommitted(s, input, InterruptedPayload);
    RunningAfterLeave(s.up, s.tables.sessions, s.running, id, saved.tables.sessions[id]);
    LeaveReleases(saved, r, calls);
  }

  lemma LeaveReleases(s: Host, r: Id, calls: Calls)
    requires r in s.turns
    ensures var t := Leave(s, r, calls);
            t.running == s.running - {s.turns[r].sessionId} && t.tables == s.tables && t.up == s.up
  {
  }

  lemma RetryReleasesAnother(s: Host, r: Id, now: Time, uuid: Id, calls: Calls)
    requires r in s.turns && RunningOk(s.up, s.tables.sessions, s.running)
    requires var id := s.turns[r].sessionId;
             id in s.tables.sessions && !(IsRunning(s.tables.sessions, id) && s.tables.sessions[id].snapshot.runId == Some(r))
    ensures var t, id := RetryFlushed(s, r, now, uuid, calls), s.turns[r].sessionId;
            RunningOk(t.up, t.tables.sessions, t.running) <==> !(s.up && IsRunning(s.tables.sessions, id))
  {
    LeaveReleases(s, r, calls);
    ReleaseBreaksOtherRuns(s.up, s.tables.sessions, s.running, s.turns[r].sessionId);
  }

  lemma RetryFlushedAgreement(s: Host, r: Id, now: Time, uuid: Id, calls: Calls)
    requires r in s.turns && calls.saved && Durable(s.tables, s.history) && s.up
    requires RunningOk(s.up, s.tables.sessions, s.running) && s.turns[r].sessionId in s.tables.sessions
    ensures var t, id := RetryFlushed(s, r, now, uuid, calls), s.turns[r].sessionId;
            RunningOk(t.up, t.tables.sessions, t.running)
            <==> !(IsRunning(s.tables.sessions, id) && s.tables.sessions[id].snapshot.runId != Some(r))
  {
    var id := s.turns[r].sessionId;
    if IsRunning(s.tables.sessions, id) && s.tables.sessions[id].snapshot.runId == Some(r) {
      RetryEndsItsRun(s, r, now, uuid, calls);
    } else {
      RetryReleasesAnother(s, r, now, uuid, calls);
    }
  }

  /** The retry of a run, once its provider has stopped and the database works, leaves the
      running map in agreement with the store if and only if the session is not running
      another run by then. */
  lemma RetryKeepsAgreement(c: Config, s: Host, r: Id, now: Time, uuid: Id, calls: Calls)
    requires Durable(s.tables, s.history) && KeepsIdentity(c)
    requires RunningOk(s.up, s.tables.sessions, s.running) && s.up && s.accepted.Keys == s.history.Keys
    requires r in s.turns && s.turns[r].phase.RetryStopping? && s.turns[r].sessionId in s.tables.sessions
    requires Shown(c, s, s.turns[r].sessionId)
    requires calls.stopped && calls.saved && !FlushThrows(s, s.turns[r].sessionId, now, calls.flushed)
    ensures var t, id := RetrySettle(s, r, now, uuid, calls), s.turns[r].sessionId;
            RunningOk(t.up, t.tables.sessions, t.running)
            <==> !(IsRunning(s.tables.sessions, id) && s.tables.sessions[id].snapshot.runId != Some(r))
  {
    var id := s.turns[r].sessionId;
    var flushed := Flush(s, id, now, calls.flushed);
    FlushedRun(c, s, id, now, calls.flushed);
    RunningAfterSave(s.up, s.tables.sessions, s.running, id, flushed.tables.sessions[id]);
    RetryFlushedAgreement(flushed, r, now, uuid, calls);
  }

  /** When only the final `bind` of a turn throws, the session is free for the next run while
      the old chain waits for its retry. */
  lemma UnboundTurnStaysArmed(s: Host, r: Id, calls: Calls)
    requires r in s.turns && r in Leave(s, r, calls).turns && !s.closing && s.turns[r].sessionId !in s.retryTimers
    ensures var t, id := Leave(s, r, calls), s.turns[r].sessionId;
            && id !in t.running && id !in t.live
            && t.retryTimers == s.retryTimers[id := r]
            && t.turns[r] == s.turns[r].(phase := RetryWaiting)
  {
  }
}
