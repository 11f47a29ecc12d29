/**
 The values the host keeps for a session: transcript blocks, the session, and the
 versioned envelope around it, with the pure functions that build new values.

 Every value is immutable here, as the host treats it: an update makes a new value.
 */
module Sessions {
  import opened Wrappers

  type Id = string
  type Time = int

  datatype Role = User | Assistant | Plan | System | ApprovalCard | OtherRole

  datatype PlanStatus = PlanStreaming | PlanReady | PlanBuilding | PlanBuilt

  datatype PlanInfo = PlanInfo(status: PlanStatus, approvedText: Option<string>)

  datatype Approval = Approval(requestId: nat, decided: bool)

  datatype Block = Block(
    id: Id,
    role: Role,
    text: string,
    draft: bool,
    streaming: bool,
    plan: Option<PlanInfo>,
    approval: Option<Approval>,
    attachments: seq<Id>,
    startedAt: Option<Time>,
    durationMs: Option<int>)

  datatype Session = Session(
    id: Id,
    cwd: string,
    harness: string,
    model: string,
    modelSettings: map<string, string>,
    runtimeMode: string,
    title: string,
    branch: Option<string>,
    busy: bool,
    pendingQuestion: Option<nat>,
    providerSessionId: Option<Id>,
    linkedWorkItem: Option<string>,
    blocks: seq<Block>)

  datatype Status = Idle | Running | Interrupted

  datatype HostSession = HostSession(
    projectId: Id,
    revision: int,
    runId: Option<Id>,
    status: Status,
    createdAt: Option<Time>,
    updatedAt: Time,
    archived: bool,
    pinned: bool,
    autoWorktreeBranch: Option<string>,
    blockRevisions: Option<map<Id, int>>,
    session: Session)

  /** The card shown in a session list. */
  datatype Summary = Summary(
    id: Id,
    projectId: Id,
    revision: int,
    runId: Option<Id>,
    status: Status,
    createdAt: Time,
    updatedAt: Time,
    archived: bool,
    pinned: bool,
    cwd: string,
    title: string,
    harness: string,
    model: string,
    runtimeMode: string,
    providerSessionId: Option<Id>,
    linkedWorkItem: Option<string>,
    needsInput: bool,
    draft: bool)

  function Summarise(value: HostSession): Summary {
    Summary(
      value.session.id,
      value.projectId,
      value.revision,
      value.runId,
      value.status,
      if value.createdAt.Some? then value.createdAt.value else value.updatedAt,
      value.updatedAt,
      value.archived,
      value.pinned,
      value.session.cwd,
      value.session.title,
      value.session.harness,
      value.session.model,
      value.session.runtimeMode,
      value.session.providerSessionId,
      value.session.linkedWorkItem,
      value.session.pendingQuestion.Some? || exists b :: b in value.session.blocks && Undecided(b),
      exists b :: b in value.session.blocks && b.role.User? && b.draft)
  }

  predicate Undecided(block: Block) {
    block.approval.Some? && !block.approval.value.decided
  }

  function Ids(blocks: seq<Block>): (ids: seq<Id>)
    ensures |ids| == |blocks|
    ensures forall i :: 0 <= i < |ids| ==> ids[i] == blocks[i].id
  {
    seq(|blocks|, i requires 0 <= i < |blocks| => blocks[i].id)
  }

  predicate DistinctIds(blocks: seq<Block>) {
    forall i, j :: 0 <= i < j < |blocks| ==> blocks[i].id != blocks[j].id
  }

  /** The last block with the given id, which is what a JavaScript Map built from the list holds. */
  function Lookup(blocks: seq<Block>, id: Id): (block: Option<Block>)
    ensures block.Some? ==> block.value.id == id
  {
    if blocks == [] then None
    else if blocks[|blocks| - 1].id == id then Some(blocks[|blocks| - 1])
    else Lookup(blocks[..|blocks| - 1], id)
  }

  lemma {:induction false} LookupFindsMembers(blocks: seq<Block>, id: Id)
    ensures Lookup(blocks, id).Some? ==> Lookup(blocks, id).value in blocks
    ensures Lookup(blocks, id).None? ==> forall b :: b in blocks ==> b.id != id
  {
    if blocks != [] {
      var n := |blocks| - 1;
      LookupFindsMembers(blocks[..n], id);
      assert blocks == blocks[..n] + [blocks[n]];
    }
  }

  function Keep(blocks: seq<Block>, keep: Block -> bool): (kept: seq<Block>)
    ensures forall b :: b in kept <==> b in blocks && keep(b)
    ensures |kept| <= |blocks|
  {
    if blocks == [] then []
    else
      assert blocks == blocks[..|blocks| - 1] + [blocks[|blocks| - 1]];
      Keep(blocks[..|blocks| - 1], keep) +
      (if keep(blocks[|blocks| - 1]) then [blocks[|blocks| - 1]] else [])
  }

  function Map(blocks: seq<Block>, change: Block -> Block): (changed: seq<Block>)
    ensures |changed| == |blocks|
    ensures forall i :: 0 <= i < |blocks| ==> changed[i] == change(blocks[i])
  {
    seq(|blocks|, i requires 0 <= i < |blocks| => change(blocks[i]))
  }
}
