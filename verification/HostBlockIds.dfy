/**
 When the ids of the blocks of a transcript are distinct in every run, and what clients then
 obtain: exactly the current value, outright.
 */
module HostBlockIds {
  import opened Wrappers
  import opened Sessions
  import opened Protocol
  import opened DeltaSync
  import opened Tables
  import opened Turns
  import opened TurnLaws
  import opened HostModel
  import opened HostInvariants
  import opened HostSteps
  import opened HostRows
  import opened HostStored
  import HostClients

  predicate DistinctBlocks(value: HostSession) {
    DistinctIds(value.session.blocks)
  }

  /** Provider events never give two blocks one id. */
  ghost predicate KeepsIdsDistinct(c: Config) {
    forall session: Session, event: HarnessEvent ::
      c.apply(session, event).Some? && DistinctIds(session.blocks)
      ==> DistinctIds(c.apply(session, event).value.blocks)
  }

  // ---------------------------------------------------------------- building new values

  lemma {:induction false} SettledIds(blocks: seq<Block>)
    requires DistinctIds(blocks)
    ensures DistinctIds(SettleApprovals(blocks))
    ensures forall id :: HasId(SettleApprovals(blocks), id) ==> HasId(blocks, id)
  {
    if blocks != [] {
      var n := |blocks| - 1;
      assert blocks == blocks[..n] + [blocks[n]];
      SettledIds(blocks[..n]);
      DistinctWithOneMore(blocks[..n], blocks[n]);
      var last := if !Undecided(blocks[n]) then [blocks[n]]
                  else if blocks[n].role.ApprovalCard? then []
                  else [blocks[n].(streaming := false, approval := Some(blocks[n].approval.value.(decided := true)))];
      if last != [] {
        assert last[0].id == blocks[n].id && !HasId(SettleApprovals(blocks[..n]), blocks[n].id);
        DistinctWithOneMore(SettleApprovals(blocks[..n]), last[0]);
      }
      IdsOfOneMore(blocks, SettleApprovals(blocks[..n]), last);
    }
  }

  lemma IdsOfOneMore(blocks: seq<Block>, front: seq<Block>, last: seq<Block>)
    requires blocks != [] && |last| <= 1 && (last != [] ==> last[0].id == blocks[|blocks| - 1].id)
    requires forall id :: HasId(front, id) ==> HasId(blocks[..|blocks| - 1], id)
    ensures forall id :: HasId(front + last, id) ==> HasId(blocks, id)
  {
    forall id | HasId(front + last, id) ensures HasId(blocks, id) {
      var b :| b in front + last && b.id == id;
      if b in front {
        assert HasId(front, id);
        var e :| e in blocks[..|blocks| - 1] && e.id == id;
        assert e in blocks;
      } else {
        assert blocks[|blocks| - 1] in blocks;
      }
    }
  }

  /** The blocks of a stopped session have the ids of those that stay. */
  lemma StoppedIds(session: Session, now: Time)
    ensures SameIds(SettleApprovals(session.blocks), StopStreaming(session, now).blocks)
  {
  }

  predicate SameIds(blocks: seq<Block>, others: seq<Block>) {
    |blocks| == |others| && forall i :: 0 <= i < |blocks| ==> blocks[i].id == others[i].id
  }

  lemma SettledBlocksIds(session: Session, clean: bool, endedAt: Time, now: Time)
    requires DistinctIds(session.blocks)
    ensures var settled := SettledBlocks(session, clean, endedAt, now);
            DistinctIds(settled) && forall id :: HasId(settled, id) ==> HasId(session.blocks, id)
  {
    var kept, settled := SettleApprovals(session.blocks), SettledBlocks(session, clean, endedAt, now);
    SettledIds(session.blocks);
    StoppedIds(session, now);
    assert SameIds(kept, settled);
    SameIdsSameDistinctness(kept, settled);
  }

  lemma SettledIsDistinct(value: HostSession, status: Status, message: Option<string>,
                          endedAt: Time, now: Time, noticeId: Id)
    requires DistinctBlocks(value) && !HasId(value.session.blocks, noticeId)
    ensures DistinctBlocks(Settled(value, status, message, endedAt, now, noticeId))
  {
    var blocks := SettledBlocks(value.session, status.Idle? && !Truthy(message), endedAt, now);
    SettledBlocksIds(value.session, status.Idle? && !Truthy(message), endedAt, now);
    if Truthy(message) {
      DistinctWithOneMore(blocks, Notice(noticeId, message.value));
    } else {
      assert blocks + [] == blocks;
    }
  }

  /** The command id, chosen by the client, is not the id of a block that stays. */
  ghost predicate FreshCommand(value: HostSession, command: HostCommand) {
    && (command.Draft? ==> !HasId(value.session.blocks, command.commandId))
    && (command.Send? || command.Compact? ==>
          !exists b :: b in value.session.blocks && !b.draft && b.id == command.commandId)
  }

  lemma TurnIsDistinct(value: HostSession, command: HostCommand, providers: Providers, around: Surroundings)
    requires DistinctBlocks(value) && FreshCommand(value, command) && (command.Send? || command.Compact?)
    requires DecideTurn(value, command, providers, around).Ok?
    ensures DistinctBlocks(DecideTurn(value, command, providers, around).value.value)
  {
    var next := DecideTurn(value, command, providers, around).value.value;
    var prompt := next.session.blocks[|next.session.blocks| - 1];
    var plan := if command.Send? && command.planBlockId.Some?
                then FindPlan(value.session.blocks, command.planBlockId.value) else None;
    assert next.session.blocks == TurnBlocks(value.session.blocks, plan, prompt) && prompt.id == command.commandId;
    TurnKeepsIdsDistinct(value.session.blocks, plan, prompt);
  }

  lemma DecidedIsDistinct(value: HostSession, command: HostCommand, switching: set<Id>,
                          providers: Providers, around: Surroundings)
    requires DistinctBlocks(value) && FreshCommand(value, command) && !command.Create?
    requires DecideExisting(value, command, switching, providers, around).Ok?
    ensures DistinctBlocks(DecideExisting(value, command, switching, providers, around).value.value)
  {
    match command
    case Draft(id, _, text, attachments) =>
      DistinctWithOneMore(value.session.blocks, UserBlock(id, text, attachments, true, None));
    case RemoveDraft(_, _, removed) => KeptIdsAreDistinct(value.session.blocks, (b: Block) => b.id != removed);
    case Send(_, _, _, _, _, _, _) => TurnIsDistinct(value, command, providers, around);
    case Compact(_, _) => TurnIsDistinct(value, command, providers, around);
    case Approve(_, _, _, requestId, _) =>
      SameIdsSameDistinctness(value.session.blocks, ResolveApproval(value.session.blocks, requestId));
    case _ =>
  }

  // ---------------------------------------------------------------- every step

  /** The id is not that of a block of a stored session. */
  ghost predicate FreshNotice(rows: map<Id, Row>, id: Id, uuid: Id) {
    id in rows ==> !HasId(rows[id].snapshot.session.blocks, uuid)
  }

  /** An action names its new block freshly: a new command, if it is accepted, by an id that no
      staying block has, and a settlement or recovery by a drawn id that no block has. */
  ghost predicate FreshBlock(c: Config, s: Host, a: Action) {
    match a
    case DoCommand(command, around, flushOk, _) =>
      var t := Prepared(s, command, around, flushOk);
      command.commandId !in s.tables.receipts && !command.Create? && command.sessionId in t.tables.sessions
      && Decide(t.tables, command, t.switching, c.providers, around).Ok?
      ==> FreshCommand(t.tables.sessions[command.sessionId].snapshot, command)
    case DoSettle(r, now, uuid, calls) =>
      r in s.turns ==>
        FreshNotice(Flush(s, s.turns[r].sessionId, now, calls.flushed).tables.sessions, s.turns[r].sessionId, uuid)
    case DoRetrySettle(r, now, uuid, calls) =>
      r in s.turns ==>
        FreshNotice(Flush(s, s.turns[r].sessionId, now, calls.flushed).tables.sessions, s.turns[r].sessionId, uuid)
    case DoRecover(id, _, uuid, _) => FreshNotice(s.tables.sessions, id, uuid)
    case _ => true
  }

  lemma DistinctIsPlain()
    ensures Plain(DistinctBlocks)
  {
  }

  lemma {:induction false} FoldKeepsIdsDistinct(c: Config, session: Session, events: seq<HarnessEvent>)
    requires KeepsIdsDistinct(c) && DistinctIds(session.blocks)
    ensures DistinctIds(FoldEvents(c, session, events).blocks)
  {
    if events != [] { FoldKeepsIdsDistinct(c, session, events[..|events| - 1]); }
  }

  lemma LiveIsDistinct(c: Config, s: Host, id: Id)
    requires LiveStored(c, s) && AllRows(s.tables.sessions, DistinctBlocks) && KeepsIdsDistinct(c)
    ensures LiveHolds(s, id, DistinctBlocks)
  {
    if id in s.live {
      assert DistinctBlocks(s.tables.sessions[id].snapshot);
      FoldKeepsIdsDistinct(c, s.tables.sessions[id].snapshot.session, s.live[id].events);
    }
  }

  lemma FlushedIsDistinct(c: Config, s: Host, id: Id, now: Time, ok: bool)
    requires LiveStored(c, s) && AllRows(s.tables.sessions, DistinctBlocks) && KeepsIdsDistinct(c)
    ensures AllRows(Flush(s, id, now, ok).tables.sessions, DistinctBlocks)
    ensures LiveHolds(s, id, DistinctBlocks)
  {
    DistinctIsPlain();
    LiveIsDistinct(c, s, id);
    FlushObeys(s, id, now, ok, DistinctBlocks);
  }

  lemma SettledInputIsDistinct(s: Host, turn: Turn, latest: HostSession, now: Time, uuid: Id)
    requires DistinctBlocks(latest) && !HasId(latest.session.blocks, uuid)
    ensures DistinctBlocks(SettledInput(s, turn, latest, now, uuid))
    ensures DistinctBlocks(RetryInput(latest, now, uuid)) && DistinctBlocks(RecoveredInput(latest, now, uuid))
  {
    var status := if s.closing || turn.persistenceFailed then Interrupted else Idle;
    SettledIsDistinct(latest, status, ClosingMessage(s.closing, turn), now, now, uuid);
    SettledIsDistinct(latest, Interrupted, Some(STORAGE_FAILED), latest.updatedAt, now, uuid);
    SettledIsDistinct(latest, Interrupted, Some(RESTARTED), latest.updatedAt, now, uuid);
  }

  lemma EndingIsDistinct(c: Config, s: Host, a: Action)
    requires LiveStored(c, s) && AllRows(s.tables.sessions, DistinctBlocks) && KeepsIdsDistinct(c)
    requires (a.DoSettle? || a.DoRetrySettle?) && FreshBlock(c, s, a)
    ensures Sources(c, s, a, DistinctBlocks)
  {
    if a.runId in s.turns {
      var id := s.turns[a.runId].sessionId;
      FlushedIsDistinct(c, s, id, a.now, a.calls.flushed);
      var rows := Flush(s, id, a.now, a.calls.flushed).tables.sessions;
      if id in rows {
        assert DistinctBlocks(rows[id].snapshot);
        SettledInputIsDistinct(s, s.turns[a.runId], rows[id].snapshot, a.now, a.uuid);
      }
    }
  }

  lemma RecoveryIsDistinct(c: Config, s: Host, a: Action)
    requires AllRows(s.tables.sessions, DistinctBlocks) && a.DoRecover? && FreshBlock(c, s, a)
    ensures Sources(c, s, a, DistinctBlocks)
  {
    if a.id in s.tables.sessions {
      assert DistinctBlocks(s.tables.sessions[a.id].snapshot);
      SettledInputIsDistinct(s, Turn(a.id, Queued, false, false), s.tables.sessions[a.id].snapshot, a.now, a.uuid);
    }
  }

  lemma DecisionIsDistinct(c: Config, s: Host, command: HostCommand, around: Surroundings)
    requires AllRows(s.tables.sessions, DistinctBlocks)
    requires !command.Create? && command.sessionId in s.tables.sessions
             && Decide(s.tables, command, s.switching, c.providers, around).Ok? ==>
               FreshCommand(s.tables.sessions[command.sessionId].snapshot, command)
    ensures var decided := Decide(s.tables, command, s.switching, c.providers, around);
            decided.Ok? ==> DistinctBlocks(decided.value.value)
  {
    if !command.Create? && command.sessionId in s.tables.sessions {
      var value := s.tables.sessions[command.sessionId].snapshot;
      assert DistinctBlocks(value);
      if DecideExisting(value, command, s.switching, c.providers, around).Ok? {
        DecidedIsDistinct(value, command, s.switching, c.providers, around);
      }
    }
  }

  lemma CommandIsDistinct(c: Config, s: Host, a: Action)
    requires LiveStored(c, s) && AllRows(s.tables.sessions, DistinctBlocks) && KeepsIdsDistinct(c)
    requires a.DoCommand? && FreshBlock(c, s, a)
    ensures Sources(c, s, a, DistinctBlocks)
  {
    if !a.command.Create? { FlushedIsDistinct(c, s, a.command.sessionId, a.around.now, a.flushOk); }
    if a.command.commandId !in s.tables.receipts { DecisionIsDistinct(c, Prepared(s, a.command, a.around, a.flushOk), a.command, a.around); }
  }

  lemma RequestIsDistinct(c: Config, s: Host, a: Action)
    requires LiveStored(c, s) && AllRows(s.tables.sessions, DistinctBlocks) && KeepsIdsDistinct(c)
    requires a.DoFlushTimer? || a.DoPatch? || a.DoNameSession? || a.DoNameBranch?
    ensures Sources(c, s, a, DistinctBlocks)
  {
    LiveIsDistinct(c, s, a.id);
  }

  lemma ReceivedIsDistinct(c: Config, s: Host, a: Action)
    requires StoreInv(c, s) && AllRows(s.tables.sessions, DistinctBlocks) && KeepsIdsDistinct(c) && a.DoEvent?
    ensures Sources(c, s, a, DistinctBlocks)
  {
    if Accepts(c, s, a.id, a.runId, a.event) {
      AcceptKeepsStore(c, s, a.id, a.event);
      LiveIsDistinct(c, Accept(c, s, a.id, a.event), a.id);
    }
  }

  lemma SourcesAreDistinct(c: Config, s: Host, a: Action)
    requires StoreInv(c, s) && AllRows(s.tables.sessions, DistinctBlocks) && KeepsIdsDistinct(c) && FreshBlock(c, s, a)
    ensures Sources(c, s, a, DistinctBlocks)
  {
    if a.DoCommand? {
      CommandIsDistinct(c, s, a);
    } else if a.DoSettle? || a.DoRetrySettle? {
      EndingIsDistinct(c, s, a);
    } else if a.DoRecover? {
      RecoveryIsDistinct(c, s, a);
    } else if a.DoEvent? {
      ReceivedIsDistinct(c, s, a);
    } else if a.DoFlushTimer? || a.DoPatch? || a.DoNameSession? || a.DoNameBranch? {
      RequestIsDistinct(c, s, a);
    }
  }

  lemma StepKeepsIdsDistinct(c: Config, s: Host, a: Action)
    requires StoreInv(c, s) && AllRows(s.tables.sessions, DistinctBlocks) && KeepsIdsDistinct(c)
    requires FreshBlock(c, Draw(s, a), a)
    ensures AllRows(Step(c, s, a).tables.sessions, DistinctBlocks)
  {
    if Enabled(s, a) {
      MoreUsedKeepsStore(c, s, if Drawn(a).Some? then {Drawn(a).value} else {});
      SourcesAreDistinct(c, Draw(s, a), a);
      DistinctIsPlain();
      ActObeys(c, Draw(s, a), a, DistinctBlocks);
    }
  }

  /** A run in which every new block gets a fresh id. */
  ghost predicate FreshRun(c: Config, actions: seq<Action>) {
    forall k :: 0 <= k < |actions| ==> FreshBlock(c, Draw(Exec(c, NEW_HOST, actions[..k]), actions[k]), actions[k])
  }

  /** In every reachable state of such runs the block ids of every transcript are distinct. */
  lemma {:induction false} BlockIdsAreDistinct(c: Config, actions: seq<Action>)
    requires KeepsIdentity(c) && KeepsIdsDistinct(c) && FreshRun(c, actions)
    ensures AllRows(Exec(c, NEW_HOST, actions).tables.sessions, DistinctBlocks)
  {
    if actions != [] {
      var n := |actions| - 1;
      FreshPrefix(c, actions, n);
      BlockIdsAreDistinct(c, actions[..n]);
      RunKeepsStore(c, actions[..n]);
      StepKeepsIdsDistinct(c, Exec(c, NEW_HOST, actions[..n]), actions[n]);
    }
  }

  lemma FreshPrefix(c: Config, actions: seq<Action>, n: nat)
    requires FreshRun(c, actions) && n <= |actions|
    ensures FreshRun(c, actions[..n])
  {
    forall k | 0 <= k < n
      ensures FreshBlock(c, Draw(Exec(c, NEW_HOST, actions[..n][..k]), actions[..n][k]), actions[..n][k])
    {
      assert actions[..n][..k] == actions[..k];
    }
  }

  // ---------------------------------------------------------------- clients

  /** Such a client obtains exactly the current value from every delta. */
  lemma DeltasAreExact(c: Config, actions: seq<Action>, id: Id, j: nat)
    requires KeepsIdentity(c) && KeepsIdsDistinct(c) && FreshRun(c, actions)
    requires var s := Exec(c, NEW_HOST, actions);
             id in s.tables.sessions && id in s.history && j < |s.history[id]| - 1
    ensures var s := Exec(c, NEW_HOST, actions);
            var now, held := s.tables.sessions[id].snapshot, s.history[id][j].value;
            ApplySessionSync(Some(Strip(held)), Sync(now, Some(held.revision))) == Ok(Strip(now))
  {
    BlockIdsAreDistinct(c, actions);
    var now := Exec(c, NEW_HOST, actions).tables.sessions[id].snapshot;
    assert DistinctBlocks(now);
    DistinctIdsAgree(now.session.blocks);
    HostClients.ClientsCatchUp(c, actions, id, j);
  }

  /** A client that holds nothing, or any value committed so far, holds the current value after a
      load, whatever the session becomes before a second request. */
  lemma LoadsAreCurrent(c: Config, actions: seq<Action>, id: Id, known: Option<HostSession>, later: HostSession)
    requires KeepsIdentity(c) && KeepsIdsDistinct(c) && FreshRun(c, actions)
    requires var s := Exec(c, NEW_HOST, actions);
             && id in s.tables.sessions && id in s.history
             && (known.None? || exists j :: 0 <= j < |s.history[id]| && known.value == Strip(s.history[id][j].value))
    ensures var now := Exec(c, NEW_HOST, actions).tables.sessions[id].snapshot;
            LoadRemoteSession(now, later, known) == Ok(Strip(now))
  {
    var s := Exec(c, NEW_HOST, actions);
    BlockIdsAreDistinct(c, actions);
    RunKeepsStore(c, actions);
    LoadIsCurrent(s.tables, s.history, id, known, later);
  }

  lemma LoadIsCurrent(tables: Tables, history: map<Id, seq<Commit>>, id: Id, known: Option<HostSession>, later: HostSession)
    requires Durable(tables, history) && id in tables.sessions && AllRows(tables.sessions, DistinctBlocks)
    requires known.None? || exists j :: 0 <= j < |history[id]| && known.value == Strip(history[id][j].value)
    ensures LoadRemoteSession(tables.sessions[id].snapshot, later, known) == Ok(Strip(tables.sessions[id].snapshot))
  {
    var values, now := Values(history[id]), tables.sessions[id].snapshot;
    assert HistoryOk(history[id], now) && DistinctBlocks(now);
    DistinctIdsAgree(now.session.blocks);
    if known.Some? {
      var j :| 0 <= j < |history[id]| && known.value == Strip(history[id][j].value);
      assert known.value == Strip(values[j]);
    }
    LoadFollowsHistory(values, |values| - 1, later, known);
  }
}
