/** What starting and settling a turn do to a transcript. */
module TurnLaws {
  import opened Wrappers
  import opened Sessions
  import opened Protocol
  import opened Turns

  // ---------------------------------------------------------------- block ids

  predicate HasId(blocks: seq<Block>, id: Id) {
    exists b :: b in blocks && b.id == id
  }

  lemma DistinctWithOneMore(blocks: seq<Block>, block: Block)
    ensures DistinctIds(blocks + [block]) <==> DistinctIds(blocks) && !HasId(blocks, block.id)
  {
    var longer := blocks + [block];
    if DistinctIds(longer) {
      forall i, j | 0 <= i < j < |blocks| ensures blocks[i].id != blocks[j].id {
        assert longer[i].id != longer[j].id;
      }
      forall b | b in blocks ensures b.id != block.id {
        var i :| 0 <= i < |blocks| && blocks[i] == b;
        assert longer[i].id != longer[|blocks|].id;
      }
    }
  }

  lemma {:induction false} KeptIdsAreDistinct(blocks: seq<Block>, keep: Block -> bool)
    requires DistinctIds(blocks)
    ensures DistinctIds(Keep(blocks, keep))
  {
    if blocks != [] {
      var n := |blocks| - 1;
      KeptIdsAreDistinct(blocks[..n], keep);
      assert blocks == blocks[..n] + [blocks[n]];
      DistinctWithOneMore(blocks[..n], blocks[n]);
      if keep(blocks[n]) { DistinctWithOneMore(Keep(blocks[..n], keep), blocks[n]); }
    }
  }

  lemma SameIdsSameDistinctness(blocks: seq<Block>, changed: seq<Block>)
    requires |blocks| == |changed| && forall i :: 0 <= i < |blocks| ==> blocks[i].id == changed[i].id
    ensures DistinctIds(blocks) <==> DistinctIds(changed)
    ensures forall id :: HasId(blocks, id) <==> HasId(changed, id)
  {
    forall id ensures HasId(blocks, id) <==> HasId(changed, id) {
      if HasId(blocks, id) {
        var b :| b in blocks && b.id == id;
        var i :| 0 <= i < |blocks| && blocks[i] == b;
        assert changed[i] in changed;
      }
      if HasId(changed, id) {
        var b :| b in changed && b.id == id;
        var i :| 0 <= i < |changed| && changed[i] == b;
        assert blocks[i] in blocks;
      }
    }
  }

  /** A turn keeps block ids distinct if and only if its command id, chosen by the client, is not
      the id of a block that stays. */
  lemma TurnKeepsIdsDistinct(blocks: seq<Block>, plan: Option<Block>, prompt: Block)
    requires DistinctIds(blocks)
    ensures DistinctIds(TurnBlocks(blocks, plan, prompt)) <==>
            !exists b :: b in blocks && !b.draft && b.id == prompt.id
  {
    var kept := Keep(blocks, (b: Block) => !b.draft);
    var built := Map(kept, (b: Block) => BuildPlan(b, plan));
    KeptIdsAreDistinct(blocks, (b: Block) => !b.draft);
    SameIdsSameDistinctness(kept, built);
    DistinctWithOneMore(built, prompt);
    assert TurnBlocks(blocks, plan, prompt) == built + [prompt];
    assert HasId(kept, prompt.id) <==> exists b :: b in blocks && !b.draft && b.id == prompt.id;
  }

  // ---------------------------------------------------------------- plans

  function Ended(block: Block, clean: bool): Option<PlanInfo>
    requires Building(block)
  {
    Some(block.plan.value.(status := if clean then PlanBuilt else PlanReady))
  }

  lemma {:induction false} DecidedBlocksStay(blocks: seq<Block>, block: Block)
    requires block in blocks && !Undecided(block)
    ensures block in SettleApprovals(blocks)
  {
    var n := |blocks| - 1;
    assert blocks == blocks[..n] + [blocks[n]];
    if block in blocks[..n] { DecidedBlocksStay(blocks[..n], block); }
  }

  predicate SamePlan(block: Block, other: Block) {
    other.id == block.id && other.role == block.role && other.plan == block.plan
  }

  lemma PlanStaysWhenStopped(session: Session, now: Time, block: Block) returns (i: nat)
    requires block in session.blocks && Building(block) && !Undecided(block)
    ensures i < |StopStreaming(session, now).blocks| && SamePlan(block, StopStreaming(session, now).blocks[i])
  {
    DecidedBlocksStay(session.blocks, block);
    var settled := SettleApprovals(session.blocks);
    i :| 0 <= i < |settled| && settled[i] == block;
    var stopped := Map(settled, StopBlock);
    assert stopped[i] == StopBlock(block);
    assert StopStreaming(session, now).blocks == StampDuration(stopped, now);
  }

  lemma StampedTurnKeepsPlans(blocks: seq<Block>, id: Id, durationMs: int, i: nat)
    requires i < |blocks|
    ensures SamePlan(blocks[i], StampTurn(blocks, id, durationMs)[i])
  {
  }

  lemma FinishedAt(session: Session, clean: bool, endedAt: Time, now: Time, i: nat)
    requires i < |StopStreaming(session, now).blocks|
    ensures i < |SettledBlocks(session, clean, endedAt, now)|
    ensures var before, after := StopStreaming(session, now).blocks[i], SettledBlocks(session, clean, endedAt, now)[i];
            exists timed: Block :: SamePlan(before, timed) && after == FinishPlan(timed, clean)
  {
    var stopped := StopStreaming(session, now).blocks;
    var at := LastUser(session.blocks);
    if at.Some? && session.blocks[at.value].startedAt.Some? && session.blocks[at.value].durationMs.None? {
      var elapsed := Elapsed(session.blocks[at.value].startedAt.value, endedAt);
      var timed := StampTurn(stopped, session.blocks[at.value].id, elapsed);
      StampedTurnKeepsPlans(stopped, session.blocks[at.value].id, elapsed, i);
      assert SamePlan(stopped[i], timed[i]);
    } else {
      assert SamePlan(stopped[i], stopped[i]);
    }
  }

  /** A plan being built is built when its turn ends cleanly, and ready again otherwise. */
  lemma BuildingPlansEnd(session: Session, clean: bool, endedAt: Time, now: Time, block: Block) returns (i: nat)
    requires block in session.blocks && Building(block) && !Undecided(block)
    ensures var settled := SettledBlocks(session, clean, endedAt, now);
            i < |settled| && settled[i].id == block.id && settled[i].plan == Ended(block, clean)
  {
    i := PlanStaysWhenStopped(session, now, block);
    FinishedAt(session, clean, endedAt, now, i);
    var before := StopStreaming(session, now).blocks[i];
    var timed: Block :| SamePlan(before, timed)
                        && SettledBlocks(session, clean, endedAt, now)[i] == FinishPlan(timed, clean);
  }
}
