/**
 What every stored transcript satisfies in every run: at most one draft, none during a turn,
 and no plan building outside a turn.
 */
module HostTranscripts {
  import opened Wrappers
  import opened Sessions
  import opened Protocol
  import opened DeltaSync
  import opened Tables
  import opened Turns
  import opened HostModel
  import opened HostInvariants
  import opened HostSteps
  import opened HostRows
  import opened HostStored

  // ---------------------------------------------------------------- counting drafts

  lemma {:induction false} DraftsOfConcat(left: seq<Block>, right: seq<Block>)
    ensures Drafts(left + right) == Drafts(left) + Drafts(right)
  {
    if right == [] {
      assert left + right == left;
    } else {
      var all := left + right;
      assert all[..|all| - 1] == left + right[..|right| - 1];
      DraftsOfConcat(left, right[..|right| - 1]);
    }
  }

  lemma {:induction false} NoDrafts(blocks: seq<Block>)
    ensures Drafts(blocks) == 0 <==> forall b :: b in blocks ==> !b.draft
  {
    if blocks != [] {
      var n := |blocks| - 1;
      NoDrafts(blocks[..n]);
      assert blocks == blocks[..n] + [blocks[n]];
    }
  }

  /** Blocks changed one by one, with the draft mark kept. */
  lemma {:induction false} SameDrafts(blocks: seq<Block>, changed: seq<Block>)
    requires |blocks| == |changed| && forall i :: 0 <= i < |blocks| ==> blocks[i].draft == changed[i].draft
    ensures Drafts(blocks) == Drafts(changed)
  {
    if blocks != [] { SameDrafts(blocks[..|blocks| - 1], changed[..|changed| - 1]); }
  }

  lemma {:induction false} KeepDropsDrafts(blocks: seq<Block>, keep: Block -> bool)
    ensures Drafts(Keep(blocks, keep)) <= Drafts(blocks)
  {
    if blocks != [] {
      var n := |blocks| - 1;
      KeepDropsDrafts(blocks[..n], keep);
      DraftsOfConcat(Keep(blocks[..n], keep), if keep(blocks[n]) then [blocks[n]] else []);
      DraftsOfOne(blocks[n]);
    }
  }

  lemma DraftsOfOne(block: Block)
    ensures Drafts([block]) == if block.draft then 1 else 0
  {
    assert [block][..0] == [];
  }

  lemma {:induction false} ApprovalsDropDrafts(blocks: seq<Block>)
    ensures Drafts(SettleApprovals(blocks)) <= Drafts(blocks)
  {
    if blocks != [] {
      var n := |blocks| - 1;
      ApprovalsDropDrafts(blocks[..n]);
      var last := if !Undecided(blocks[n]) then [blocks[n]]
                  else if blocks[n].role.ApprovalCard? then []
                  else [blocks[n].(streaming := false, approval := Some(blocks[n].approval.value.(decided := true)))];
      DraftsOfConcat(SettleApprovals(blocks[..n]), last);
      if last != [] { DraftsOfOne(last[0]); }
    }
  }

  // ---------------------------------------------------------------- building new values

  lemma SettledIsOrderly(value: HostSession, status: Status, message: Option<string>,
                         endedAt: Time, now: Time, noticeId: Id)
    requires Drafts(value.session.blocks) <= 1 && !status.Running?
    ensures Orderly(Settled(value, status, message, endedAt, now, noticeId))
  {
    var clean := status.Idle? && !Truthy(message);
    SettledDrafts(value.session, clean, endedAt, now);
    SettledLeavesNothingOpen(value, status, message, endedAt, now, noticeId);
    if Truthy(message) {
      DraftsOfConcat(SettledBlocks(value.session, clean, endedAt, now), [Notice(noticeId, message.value)]);
      DraftsOfOne(Notice(noticeId, message.value));
    } else {
      assert SettledBlocks(value.session, clean, endedAt, now) + [] == SettledBlocks(value.session, clean, endedAt, now);
    }
  }

  lemma StoppedDrafts(session: Session, now: Time)
    ensures Drafts(StopStreaming(session, now).blocks) == Drafts(SettleApprovals(session.blocks))
  {
    var settled := SettleApprovals(session.blocks);
    SameDrafts(settled, Map(settled, StopBlock));
    SameDrafts(Map(settled, StopBlock), StampDuration(Map(settled, StopBlock), now));
  }

  lemma StampedTurnDrafts(blocks: seq<Block>, id: Id, durationMs: int)
    ensures Drafts(StampTurn(blocks, id, durationMs)) == Drafts(blocks)
  {
    SameDrafts(blocks, StampTurn(blocks, id, durationMs));
  }

  lemma FinishedDrafts(blocks: seq<Block>, clean: bool)
    ensures Drafts(Map(blocks, (b: Block) => FinishPlan(b, clean))) == Drafts(blocks)
  {
    SameDrafts(blocks, Map(blocks, (b: Block) => FinishPlan(b, clean)));
  }

  lemma SettledDrafts(session: Session, clean: bool, endedAt: Time, now: Time)
    ensures Drafts(SettledBlocks(session, clean, endedAt, now)) <= Drafts(session.blocks)
  {
    ApprovalsDropDrafts(session.blocks);
    StoppedDrafts(session, now);
    var stopped := StopStreaming(session, now).blocks;
    var at := LastUser(session.blocks);
    if at.Some? && session.blocks[at.value].startedAt.Some? && session.blocks[at.value].durationMs.None? {
      var elapsed := Elapsed(session.blocks[at.value].startedAt.value, endedAt);
      StampedTurnDrafts(stopped, session.blocks[at.value].id, elapsed);
      FinishedDrafts(StampTurn(stopped, session.blocks[at.value].id, elapsed), clean);
    } else {
      FinishedDrafts(stopped, clean);
    }
  }

  lemma DraftIsOrderly(value: HostSession, command: HostCommand, around: Surroundings)
    requires Orderly(value) && command.Draft? && DecideDraft(value, command, around).Ok?
    ensures Orderly(DecideDraft(value, command, around).value.value)
  {
    var block := UserBlock(command.commandId, command.text, command.attachments, true, None);
    NoDrafts(value.session.blocks);
    DraftsOfConcat(value.session.blocks, [block]);
    DraftsOfOne(block);
  }

  lemma RemovedDraftIsOrderly(value: HostSession, removed: Id)
    requires Orderly(value)
    ensures Orderly(value.(session := value.session.(blocks := Keep(value.session.blocks, (b: Block) => b.id != removed))))
  {
    KeepDropsDrafts(value.session.blocks, (b: Block) => b.id != removed);
  }

  lemma ResolvedIsOrderly(value: HostSession, requestId: nat)
    requires Orderly(value)
    ensures Orderly(value.(session := value.session.(blocks := ResolveApproval(value.session.blocks, requestId))))
  {
    var resolved := ResolveApproval(value.session.blocks, requestId);
    SameDrafts(value.session.blocks, resolved);
    forall b | b in resolved && !value.status.Running? ensures !Building(b) {
      var i :| 0 <= i < |resolved| && resolved[i] == b;
      assert !Building(value.session.blocks[i]);
    }
  }

  lemma TurnIsOrderly(value: HostSession, command: HostCommand, providers: Providers, around: Surroundings)
    requires (command.Send? || command.Compact?) && DecideTurn(value, command, providers, around).Ok?
    ensures Orderly(DecideTurn(value, command, providers, around).value.value)
  {
    NoDrafts(DecideTurn(value, command, providers, around).value.value.session.blocks);
  }

  lemma DecidedIsOrderly(value: HostSession, command: HostCommand, switching: set<Id>,
                         providers: Providers, around: Surroundings)
    requires Orderly(value) && !command.Create?
    requires DecideExisting(value, command, switching, providers, around).Ok?
    ensures Orderly(DecideExisting(value, command, switching, providers, around).value.value)
  {
    match command
    case Draft(_, _, _, _) => DraftIsOrderly(value, command, around);
    case RemoveDraft(_, _, removed) => RemovedDraftIsOrderly(value, removed);
    case Send(_, _, _, _, _, _, _) => TurnIsOrderly(value, command, providers, around);
    case Compact(_, _) => TurnIsOrderly(value, command, providers, around);
    case Approve(_, _, _, requestId, _) => ResolvedIsOrderly(value, requestId);
    case _ =>
  }

  // ---------------------------------------------------------------- every step

  /** Provider events never make a draft. */
  ghost predicate MakesNoDrafts(c: Config) {
    forall session: Session, event: HarnessEvent ::
      c.apply(session, event).Some? && Drafts(session.blocks) == 0
      ==> Drafts(c.apply(session, event).value.blocks) == 0
  }

  lemma OrderlyIsPlain()
    ensures Plain(Orderly)
  {
  }

  lemma {:induction false} FoldMakesNoDrafts(c: Config, session: Session, events: seq<HarnessEvent>)
    requires MakesNoDrafts(c) && Drafts(session.blocks) == 0
    ensures Drafts(FoldEvents(c, session, events).blocks) == 0
  {
    if events != [] { FoldMakesNoDrafts(c, session, events[..|events| - 1]); }
  }

  lemma LiveIsOrderly(c: Config, s: Host, id: Id)
    requires LiveStored(c, s) && AllRows(s.tables.sessions, Orderly) && MakesNoDrafts(c)
    ensures LiveHolds(s, id, Orderly)
  {
    if id in s.live {
      assert Orderly(s.tables.sessions[id].snapshot);
      FoldMakesNoDrafts(c, s.tables.sessions[id].snapshot.session, s.live[id].events);
    }
  }

  lemma SettledInputIsOrderly(s: Host, turn: Turn, latest: HostSession, now: Time, uuid: Id)
    requires Orderly(latest)
    ensures Orderly(SettledInput(s, turn, latest, now, uuid)) && Orderly(RetryInput(latest, now, uuid))
  {
    var status := if s.closing || turn.persistenceFailed then Interrupted else Idle;
    SettledIsOrderly(latest, status, ClosingMessage(s.closing, turn), now, now, uuid);
    SettledIsOrderly(latest, Interrupted, Some(STORAGE_FAILED), latest.updatedAt, now, uuid);
  }

  lemma RecoveredIsOrderly(value: HostSession, now: Time, uuid: Id)
    requires Orderly(value)
    ensures Orderly(RecoveredInput(value, now, uuid))
  {
    SettledIsOrderly(value, Interrupted, Some(RESTARTED), value.updatedAt, now, uuid);
  }

  lemma DecideIsOrderly(c: Config, s: Host, command: HostCommand, around: Surroundings)
    requires AllRows(s.tables.sessions, Orderly)
    ensures var decided := Decide(s.tables, command, s.switching, c.providers, around);
            decided.Ok? ==> Orderly(decided.value.value)
  {
    if !command.Create? && command.sessionId in s.tables.sessions {
      var value := s.tables.sessions[command.sessionId].snapshot;
      assert Orderly(value);
      if DecideExisting(value, command, s.switching, c.providers, around).Ok? {
        DecidedIsOrderly(value, command, s.switching, c.providers, around);
      }
    }
  }

  lemma PreparedIsOrderly(c: Config, s: Host, command: HostCommand, around: Surroundings, flushOk: bool)
    requires LiveStored(c, s) && AllRows(s.tables.sessions, Orderly) && MakesNoDrafts(c)
    ensures AllRows(Prepared(s, command, around, flushOk).tables.sessions, Orderly)
  {
    OrderlyIsPlain();
    if !command.Create? {
      LiveIsOrderly(c, s, command.sessionId);
      FlushObeys(s, command.sessionId, around.now, flushOk, Orderly);
    }
  }

  lemma FlushedIsOrderly(c: Config, s: Host, id: Id, now: Time, ok: bool)
    requires LiveStored(c, s) && AllRows(s.tables.sessions, Orderly) && MakesNoDrafts(c)
    ensures AllRows(Flush(s, id, now, ok).tables.sessions, Orderly)
    ensures LiveHolds(s, id, Orderly)
  {
    OrderlyIsPlain();
    LiveIsOrderly(c, s, id);
    FlushObeys(s, id, now, ok, Orderly);
  }

  lemma EndingIsOrderly(c: Config, s: Host, a: Action)
    requires LiveStored(c, s) && AllRows(s.tables.sessions, Orderly) && MakesNoDrafts(c)
    requires a.DoSettle? || a.DoRetrySettle?
    ensures Sources(c, s, a, Orderly)
  {
    if a.runId in s.turns {
      var id := s.turns[a.runId].sessionId;
      FlushedIsOrderly(c, s, id, a.now, a.calls.flushed);
      var rows := Flush(s, id, a.now, a.calls.flushed).tables.sessions;
      if id in rows { SettledInputIsOrderly(s, s.turns[a.runId], rows[id].snapshot, a.now, a.uuid); }
    }
  }

  lemma CommandIsOrderly(c: Config, s: Host, a: Action)
    requires LiveStored(c, s) && AllRows(s.tables.sessions, Orderly) && MakesNoDrafts(c) && a.DoCommand?
    ensures Sources(c, s, a, Orderly)
  {
    if !a.command.Create? { LiveIsOrderly(c, s, a.command.sessionId); }
    PreparedIsOrderly(c, s, a.command, a.around, a.flushOk);
    DecideIsOrderly(c, Prepared(s, a.command, a.around, a.flushOk), a.command, a.around);
  }

  lemma EventIsOrderly(c: Config, s: Host, id: Id, event: HarnessEvent)
    requires StoreInv(c, s) && AllRows(s.tables.sessions, Orderly) && MakesNoDrafts(c)
    requires id in s.live && c.apply(s.live[id].value.session, event).Some?
    ensures LiveHolds(Accept(c, s, id, event), id, Orderly)
  {
    AcceptKeepsStore(c, s, id, event);
    LiveIsOrderly(c, Accept(c, s, id, event), id);
  }

  lemma RequestIsOrderly(c: Config, s: Host, a: Action)
    requires LiveStored(c, s) && AllRows(s.tables.sessions, Orderly) && MakesNoDrafts(c)
    requires a.DoFlushTimer? || a.DoPatch? || a.DoNameSession? || a.DoNameBranch?
    ensures Sources(c, s, a, Orderly)
  {
    LiveIsOrderly(c, s, a.id);
  }

  lemma ReceivedIsOrderly(c: Config, s: Host, a: Action)
    requires StoreInv(c, s) && AllRows(s.tables.sessions, Orderly) && MakesNoDrafts(c) && a.DoEvent?
    ensures Sources(c, s, a, Orderly)
  {
    if Accepts(c, s, a.id, a.runId, a.event) { EventIsOrderly(c, s, a.id, a.event); }
  }

  lemma RecoveryIsOrderly(c: Config, s: Host, a: Action)
    requires AllRows(s.tables.sessions, Orderly) && a.DoRecover?
    ensures Sources(c, s, a, Orderly)
  {
    if a.id in s.tables.sessions { RecoveredIsOrderly(s.tables.sessions[a.id].snapshot, a.now, a.uuid); }
  }

  lemma SourcesAreOrderly(c: Config, s: Host, a: Action)
    requires StoreInv(c, s) && AllRows(s.tables.sessions, Orderly) && MakesNoDrafts(c)
    ensures Sources(c, s, a, Orderly)
  {
    if a.DoCommand? {
      CommandIsOrderly(c, s, a);
    } else if a.DoSettle? || a.DoRetrySettle? {
      EndingIsOrderly(c, s, a);
    } else if a.DoRecover? {
      RecoveryIsOrderly(c, s, a);
    } else if a.DoEvent? {
      ReceivedIsOrderly(c, s, a);
    } else if a.DoFlushTimer? || a.DoPatch? || a.DoNameSession? || a.DoNameBranch? {
      RequestIsOrderly(c, s, a);
    }
  }

  lemma StepIsOrderly(c: Config, s: Host, a: Action)
    requires StoreInv(c, s) && AllRows(s.tables.sessions, Orderly) && MakesNoDrafts(c)
    ensures AllRows(Step(c, s, a).tables.sessions, Orderly)
  {
    if Enabled(s, a) {
      MoreUsedKeepsStore(c, s, if Drawn(a).Some? then {Drawn(a).value} else {});
      SourcesAreOrderly(c, Draw(s, a), a);
      OrderlyIsPlain();
      ActObeys(c, Draw(s, a), a, Orderly);
    }
  }

  lemma {:induction false} RunIsOrderly(c: Config, actions: seq<Action>)
    requires KeepsIdentity(c) && MakesNoDrafts(c)
    ensures AllRows(Exec(c, NEW_HOST, actions).tables.sessions, Orderly)
  {
    if actions != [] {
      var before := actions[..|actions| - 1];
      RunIsOrderly(c, before);
      RunKeepsStore(c, before);
      StepIsOrderly(c, Exec(c, NEW_HOST, before), actions[|actions| - 1]);
    }
  }

  /** In every reachable state every stored transcript has at most one draft, none while its
      turn runs, and no plan building once it does not. */
  lemma TranscriptsAreOrderly(c: Config, actions: seq<Action>, id: Id)
    requires KeepsIdentity(c) && MakesNoDrafts(c)
    requires id in Exec(c, NEW_HOST, actions).tables.sessions
    ensures Orderly(Exec(c, NEW_HOST, actions).tables.sessions[id].snapshot)
  {
    RunIsOrderly(c, actions);
  }
}
