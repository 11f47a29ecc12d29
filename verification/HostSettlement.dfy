/** What a turn leaves behind when it is settled. */
module HostSettlement {
  import opened Wrappers
  import opened Sessions
  import opened Protocol
  import opened Tables
  import opened Turns
  import opened HostModel
  import opened HostInvariants
  import opened HostSteps
  import opened HostRuns
  import HostBind

  /** How a turn ended, as its chain knows it. */
  predicate EndedCleanly(closing: bool, turn: Turn) {
    && !closing && !turn.persistenceFailed && !turn.cancelled
    && !(turn.phase.Stopping? && Truthy(turn.phase.error))
  }

  /** There is something to say exactly when the turn did not end cleanly. */
  lemma SilentWhenClean(closing: bool, turn: Turn)
    ensures Truthy(ClosingMessage(closing, turn)) <==> !EndedCleanly(closing, turn)
  {
  }

  /** The stored value of a settled turn: interrupted when the process is closing or could not
      write the stream, idle otherwise; nothing left open; and a notice at its end exactly when
      the turn did not end cleanly. */
  ghost predicate IsSettled(value: HostSession, latest: HostSession, closing: bool, turn: Turn) {
    && value.status == (if closing || turn.persistenceFailed then Interrupted else Idle)
    && value.runId == latest.runId
    && Closed(value)
    && (EndedCleanly(closing, turn) <==> |value.session.blocks| == |StopStreaming(latest.session, 0).blocks|)
    && (!EndedCleanly(closing, turn) ==>
          && |value.session.blocks| == |StopStreaming(latest.session, 0).blocks| + 1
          && var notice := value.session.blocks[|value.session.blocks| - 1];
          notice.role.System? && Some(notice.text) == ClosingMessage(closing, turn))
  }

  lemma StoppedLength(session: Session, now: Time, clean: bool, endedAt: Time)
    ensures |SettledBlocks(session, clean, endedAt, now)| == |StopStreaming(session, 0).blocks|
  {
  }

  lemma InputIsSettled(s: Host, turn: Turn, latest: HostSession, now: Time, uuid: Id)
    ensures IsSettled(SettledInput(s, turn, latest, now, uuid), latest, s.closing, turn)
  {
    var status := if s.closing || turn.persistenceFailed then Interrupted else Idle;
    var message := ClosingMessage(s.closing, turn);
    var clean := status.Idle? && !Truthy(message);
    SilentWhenClean(s.closing, turn);
    SettledLeavesNothingOpen(latest, status, message, now, now, uuid);
    StoppedLength(latest.session, now, clean, now);
  }

  lemma SettledRow(c: Config, s: Host, r: Id, now: Time, uuid: Id, calls: Calls)
    requires Inv(c, s) && r in s.turns && calls.saved
    ensures var t, id := SettleFlushed(s, r, now, uuid, calls), s.turns[r].sessionId;
            && id in s.tables.sessions && id in t.tables.sessions
            && t.running == s.running - {id}
            && t.tables.sessions[id].snapshot.status
               == SettledInput(s, s.turns[r], s.tables.sessions[id].snapshot, now, uuid).status
            && t.tables.sessions[id].snapshot.session
               == SettledInput(s, s.turns[r], s.tables.sessions[id].snapshot, now, uuid).session
            && t.tables.sessions[id].snapshot.runId == s.tables.sessions[id].snapshot.runId
  {
    var id := s.turns[r].sessionId;
    RunningIsAccepted(c, s, r);
    SnapshotIsKeyed(s, id);
    var input := SettledInput(s, s.turns[r], s.tables.sessions[id].snapshot, now, uuid);
    NextRevisionIsFree(s.tables, id, input);
    SettledSave(s, r, input, calls, SettledPayloadOf(s.turns[r]));
  }

  lemma SettledSave(s: Host, r: Id, input: HostSession, calls: Calls, payload: Payload)
    requires r in s.turns && s.turns[r].sessionId == input.session.id && calls.saved && !Rejected(s.tables, input)
    ensures var t, id := EndTurn(s, r, input, payload, calls), input.session.id;
            && id in t.tables.sessions && t.running == s.running - {id}
            && t.tables.sessions[id].snapshot.status == input.status
            && t.tables.sessions[id].snapshot.session == input.session
            && t.tables.sessions[id].snapshot.runId == input.runId
  {
    SavedRow(s, input, payload);
    SaveCommittedShape(s, input, payload);
    HostBind.LeaveReleases(SaveCommitted(s, input, payload), r, calls);
  }

  /** Settling a turn whose provider has stopped, while the database works, ends it: the session
      leaves the running map and its stored value is settled, even if the final `bind` throws. */
  lemma SettlingEndsTheTurn(c: Config, s: Host, r: Id, now: Time, uuid: Id, calls: Calls)
    requires Inv(c, s) && KeepsIdentity(c) && r in s.turns && s.turns[r].phase.Stopping?
    requires calls.stopped && calls.saved && !FlushThrows(s, s.turns[r].sessionId, now, calls.flushed)
    ensures var t, id := Settle(s, r, now, uuid, calls), s.turns[r].sessionId;
            var flushed := Flush(s, id, now, calls.flushed);
            && id in flushed.tables.sessions && id in t.tables.sessions && id !in t.running
            && IsSettled(t.tables.sessions[id].snapshot, flushed.tables.sessions[id].snapshot, s.closing, s.turns[r])
  {
    var id := s.turns[r].sessionId;
    var ended := EndLive(Flush(s, id, now, calls.flushed), id);
    FlushedForSettling(c, s, r, now, calls.flushed);
    SettledRow(c, ended, r, now, uuid, calls);
    InputIsSettled(ended, s.turns[r], ended.tables.sessions[id].snapshot, now, uuid);
    SameSettled(Settle(s, r, now, uuid, calls).tables.sessions[id].snapshot,
                SettledInput(ended, s.turns[r], ended.tables.sessions[id].snapshot, now, uuid),
                ended.tables.sessions[id].snapshot, s.closing, s.turns[r]);
  }

  lemma SameSettled(value: HostSession, input: HostSession, latest: HostSession, closing: bool, turn: Turn)
    requires IsSettled(input, latest, closing, turn)
    requires value.status == input.status && value.session == input.session && value.runId == latest.runId
    ensures IsSettled(value, latest, closing, turn)
  {
  }

  lemma FlushedForSettling(c: Config, s: Host, r: Id, now: Time, ok: bool)
    requires Inv(c, s) && KeepsIdentity(c) && r in s.turns
    requires !FlushThrows(s, s.turns[r].sessionId, now, ok)
    ensures var id := s.turns[r].sessionId;
            var ended := EndLive(Flush(s, id, now, ok), id);
            Inv(c, ended) && ended.turns == s.turns && ended.closing == s.closing
  {
    var id := s.turns[r].sessionId;
    FlushPrepares(c, s, id, now, ok);
    FlushFrame(s, id, now, ok);
    EndLiveKeeps(c, Flush(s, id, now, ok), id);
  }
}
