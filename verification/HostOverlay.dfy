/**
 The write-behind overlay refines a store that writes every event at once: what a reader of
 the latest value sees does not depend on when, or whether, pending events reach the disk.
 */
module HostOverlay {
  import opened Wrappers
  import opened Sessions
  import opened Protocol
  import opened DeltaSync
  import opened Tables
  import opened Turns
  import opened HostModel
  import opened HostInvariants
  import opened HostSteps
  import opened HostFrames
  import opened HostRuns
  import opened HostStored
  import Storage

  /** The latest value of a session: the overlay when it is live, the stored row otherwise. */
  function Latest(s: Host, id: Id): HostSession
    requires id in s.tables.sessions
  {
    if id in s.live then s.live[id].value else s.tables.sessions[id].snapshot
  }

  /** A value without what a save itself changes. */
  function Content(value: HostSession): HostSession {
    value.(revision := 0, updatedAt := 0, createdAt := None, blockRevisions := None)
  }

  lemma SavingKeepsContent(tables: Tables, input: HostSession)
    ensures Content(Saving(tables, input)) == Content(input)
  {
  }

  lemma SaveThroughShows(s: Host, input: HostSession, payload: Payload, other: Id)
    requires input.session.id in s.tables.sessions && other in s.tables.sessions
    ensures var t := SaveThrough(s, input, payload);
            && other in t.tables.sessions
            && Latest(t, other) == if other == input.session.id then Saving(s.tables, input) else Latest(s, other)
  {
  }

  lemma WrittenIsInvisible(c: Config, s: Host, id: Id, now: Time, ok: bool, other: Id)
    requires Durable(s.tables, s.history) && Shown(c, s, id) && KeepsIdentity(c)
    requires other in s.tables.sessions
    requires id in s.live && s.live[id].events != [] && !FlushThrows(s, id, now, ok)
    ensures var t := Flush(s, id, now, ok);
            other in t.tables.sessions && Content(Latest(t, other)) == Content(Latest(s, other))
  {
    FlushShape(c, s, id, now, ok);
    var input := Next(s.live[id].value, now);
    SaveThroughShows(s, input, EventsPayload(s.live[id].events), other);
    SavingKeepsContent(s.tables, input);
  }

  /** Writing the pending events, or failing to, is invisible. */
  lemma FlushIsInvisible(c: Config, s: Host, id: Id, now: Time, ok: bool, other: Id)
    requires StoreInv(c, s) && KeepsIdentity(c) && other in s.tables.sessions
    ensures var t := Flush(s, id, now, ok);
            other in t.tables.sessions && Content(Latest(t, other)) == Content(Latest(s, other))
  {
    if id in s.live && s.live[id].events != [] && !FlushThrows(s, id, now, ok) {
      WrittenIsInvisible(c, s, id, now, ok, other);
    } else {
      assert Flush(s, id, now, ok) == s;
    }
  }

  lemma MarkFailedIsInvisible(s: Host, id: Id, other: Id)
    requires other in s.tables.sessions
    ensures var t := MarkFailed(s, id); other in t.tables.sessions && Latest(t, other) == Latest(s, other)
  {
  }

  lemma ScheduledShowsAsFlushed(s: Host, id: Id, now: Time, ok: bool, other: Id)
    requires other in s.tables.sessions && other in Flush(s, id, now, ok).tables.sessions
    requires Content(Latest(Flush(s, id, now, ok), other)) == Content(Latest(s, other))
    ensures var t := ScheduledFlush(s, id, now, ok);
            other in t.tables.sessions && Content(Latest(t, other)) == Content(Latest(s, other))
  {
    MarkFailedIsInvisible(s, id, other);
  }

  lemma ScheduledFlushIsInvisible(c: Config, s: Host, id: Id, now: Time, ok: bool, other: Id)
    requires StoreInv(c, s) && KeepsIdentity(c) && other in s.tables.sessions
    ensures var t := ScheduledFlush(s, id, now, ok);
            other in t.tables.sessions && Content(Latest(t, other)) == Content(Latest(s, other))
  {
    FlushIsInvisible(c, s, id, now, ok, other);
    ScheduledShowsAsFlushed(s, id, now, ok, other);
  }

  lemma AcceptShows(c: Config, s: Host, id: Id, event: HarnessEvent, other: Id)
    requires id in s.live && c.apply(s.live[id].value.session, event).Some? && other in s.tables.sessions
    ensures var t := Accept(c, s, id, event);
            && t.tables == s.tables
            && Latest(t, other) ==
               if other == id then Latest(s, id).(session := c.apply(Latest(s, id).session, event).value)
               else Latest(s, other)
  {
  }

  lemma AcceptedShowsAtOnce(c: Config, s: Host, id: Id, event: HarnessEvent, now: Time, ok: bool, other: Id)
    requires StoreInv(c, s) && KeepsIdentity(c) && other in s.tables.sessions
    requires id in s.live && c.apply(s.live[id].value.session, event).Some?
    ensures var t := ScheduledFlush(Accept(c, s, id, event), id, now, ok);
            && other in t.tables.sessions
            && Content(Latest(t, other)) == Content(Latest(Accept(c, s, id, event), other))
  {
    AcceptKeepsStore(c, s, id, event);
    ScheduledFlushIsInvisible(c, Accept(c, s, id, event), id, now, ok, other);
  }

  lemma ReceivedShows(c: Config, s: Host, id: Id, runId: Id, event: HarnessEvent, now: Time, ok: bool, other: Id)
    requires Accepts(c, s, id, runId, event) && other in s.tables.sessions
    requires var t := ScheduledFlush(Accept(c, s, id, event), id, now, ok);
             && other in t.tables.sessions
             && Content(Latest(t, other)) == Content(Latest(Accept(c, s, id, event), other))
    ensures var t := ReceiveEvent(c, s, id, runId, event, now, ok);
            && other in t.tables.sessions
            && Content(Latest(t, other)) ==
               if other == id then Content(Latest(s, id).(session := c.apply(Latest(s, id).session, event).value))
               else Content(Latest(s, other))
  {
    AcceptShows(c, s, id, event, other);
  }

  /** An accepted event shows at once and exactly once, whether it is batched, written or
      fails to be written; an event that is not accepted never shows. */
  lemma EventsShowAtOnce(c: Config, s: Host, id: Id, runId: Id, event: HarnessEvent, now: Time, ok: bool, other: Id)
    requires StoreInv(c, s) && KeepsIdentity(c) && other in s.tables.sessions
    ensures var t := ReceiveEvent(c, s, id, runId, event, now, ok);
            && other in t.tables.sessions
            && Content(Latest(t, other)) ==
               if other == id && Accepts(c, s, id, runId, event)
               then Content(Latest(s, id).(session := c.apply(Latest(s, id).session, event).value))
               else Content(Latest(s, other))
  {
    if Accepts(c, s, id, runId, event) {
      AcceptedShowsAtOnce(c, s, id, event, now, ok, other);
      ReceivedShows(c, s, id, runId, event, now, ok, other);
    }
  }

  /** A request that reads the store after a flush sees every accepted event. */
  lemma FlushedStoreIsLatest(c: Config, s: Host, id: Id, now: Time, ok: bool)
    requires StoreInv(c, s) && KeepsIdentity(c) && id in s.tables.sessions && !FlushThrows(s, id, now, ok)
    ensures var t := Flush(s, id, now, ok);
            id in t.tables.sessions && Content(t.tables.sessions[id].snapshot) == Content(Latest(s, id))
  {
    FlushIsInvisible(c, s, id, now, ok, id);
    FlushPreparesStore(c, s, id, now, ok);
    NothingPendingShowsTheStore(c, Flush(s, id, now, ok), id);
  }

  lemma NothingPendingShowsTheStore(c: Config, s: Host, id: Id)
    requires Shown(c, s, id) && id in s.tables.sessions && Pending(s.live, id) == []
    ensures Latest(s, id) == s.tables.sessions[id].snapshot
  {
    if id in s.live { assert Overlay(c, s.tables.sessions[id].snapshot, []) == s.tables.sessions[id].snapshot; }
  }

  lemma UpdateShows(s: Host, id: Id, input: HostSession, payload: Payload)
    requires id in s.tables.sessions && input.session.id == id && Pending(s.live, id) == []
    requires !Rejected(s.tables, input)
    ensures var t := Update(s, input, payload, true);
            id in t.tables.sessions && Content(Latest(t, id)) == Content(input)
  {
    RefreshIsSaveThrough(s, input, payload);
    SaveThroughShows(s, input, payload, id);
    SavingKeepsContent(s.tables, input);
  }

  lemma PatchedContent(value: HostSession, other: HostSession, patch: Patch)
    requires Content(value) == Content(other)
    ensures Content(Storage.Patched(value, patch)) == Content(Storage.Patched(other, patch))
  {
  }

  /** A title, archive or pin update merges with the stream: it changes its own fields of the
      latest value and nothing else, with all pending events in place. */
  lemma PatchMergesWithTheStream(c: Config, s: Host, id: Id, patch: Patch, now: Time, flushOk: bool)
    requires StoreInv(c, s) && KeepsIdentity(c) && id in s.tables.sessions && !FlushThrows(s, id, now, flushOk)
    requires patch.title.Some? ==> Storage.ValidTitle(patch.title.value)
    ensures var t := PatchSession(s, id, patch, now, flushOk, true);
            && id in t.tables.sessions
            && Content(Latest(t, id)) == Content(Storage.Patched(Latest(s, id), patch))
            && Pending(t.live, id) == []
  {
    var flushed := Flush(s, id, now, flushOk);
    FlushPreparesStore(c, s, id, now, flushOk);
    FlushedStoreIsLatest(c, s, id, now, flushOk);
    PatchFlushedShows(c, flushed, id, patch);
    PatchedContent(flushed.tables.sessions[id].snapshot, Latest(s, id), patch);
  }

  lemma PatchFlushedShows(c: Config, s: Host, id: Id, patch: Patch)
    requires StoreInv(c, s) && id in s.tables.sessions && Pending(s.live, id) == []
    requires patch.title.Some? ==> Storage.ValidTitle(patch.title.value)
    ensures var t := PatchFlushed(s, id, patch, true);
            && id in t.tables.sessions
            && Content(Latest(t, id)) == Content(Storage.Patched(s.tables.sessions[id].snapshot, patch))
            && Pending(t.live, id) == []
  {
    var input := Storage.Patched(s.tables.sessions[id].snapshot, patch);
    SnapshotIsKeyed(s, id);
    NextRevisionIsFree(s.tables, id, input);
    UpdateShows(s, id, input, MetadataPayload(patch));
    RefreshIsSaveThrough(s, input, MetadataPayload(patch));
  }

  /** A command decides on the latest value, as a host without batching would. */
  lemma CommandsSeeTheLatest(c: Config, s: Host, command: HostCommand, around: Surroundings, flushOk: bool)
    requires StoreInv(c, s) && KeepsIdentity(c) && !command.Create? && command.sessionId in s.tables.sessions
    requires !FlushThrows(s, command.sessionId, around.now, flushOk)
    ensures var t := Prepared(s, command, around, flushOk);
            && command.sessionId in t.tables.sessions
            && Content(t.tables.sessions[command.sessionId].snapshot) == Content(Latest(s, command.sessionId))
  {
    FlushedStoreIsLatest(c, s, command.sessionId, around.now, flushOk);
  }
}
