/**
 The pure decisions of the host engine: what a command turns a session into, and how a
 finished turn is settled.
 */
module Turns {
  import opened Wrappers
  import opened Sessions
  import opened Protocol
  import opened Tables
  import opened Text

  // ---------------------------------------------------------------- settling a turn

  function LastUser(blocks: seq<Block>): (at: Option<nat>)
    ensures at.Some? ==> at.value < |blocks| && blocks[at.value].role.User?
    ensures at.None? ==> forall b :: b in blocks ==> !b.role.User?
  {
    if blocks == [] then None
    else if blocks[|blocks| - 1].role.User? then Some(|blocks| - 1)
    else
      assert blocks == blocks[..|blocks| - 1] + [blocks[|blocks| - 1]];
      LastUser(blocks[..|blocks| - 1])
  }

  function Elapsed(from: Time, to: Time): int {
    if to > from then to - from else 0
  }

  /** Undecided approvals die with the turn: their cards go, other blocks record it. */
  function SettleApprovals(blocks: seq<Block>): (settled: seq<Block>)
    ensures forall b :: b in settled ==> !Undecided(b)
  {
    if blocks == [] then []
    else
      var last := blocks[|blocks| - 1];
      SettleApprovals(blocks[..|blocks| - 1]) +
      (if !Undecided(last) then [last]
       else if last.role.ApprovalCard? then []
       else [last.(streaming := false, approval := Some(last.approval.value.(decided := true)))])
  }

  function StopBlock(block: Block): Block {
    block.(
      streaming := false,
      plan := if block.role.Plan? && block.plan.Some? && block.plan.value.status.PlanStreaming?
              then Some(block.plan.value.(status := PlanReady)) else block.plan)
  }

  function StampDuration(blocks: seq<Block>, now: Time): seq<Block> {
    var at := LastUser(blocks);
    if at.None? || blocks[at.value].durationMs.Some? || blocks[at.value].startedAt.None? then blocks
    else blocks[at.value := blocks[at.value].(
                  durationMs := Some(Elapsed(blocks[at.value].startedAt.value, now)))]
  }

  function StopStreaming(session: Session, now: Time): Session {
    session.(busy := false, pendingQuestion := None,
             blocks := StampDuration(Map(SettleApprovals(session.blocks), StopBlock), now))
  }

  predicate Truthy(message: Option<string>) {
    message.Some? && message.value != ""
  }

  /** A turn that was building a plan leaves it built only when it ended cleanly. */
  function FinishPlan(block: Block, clean: bool): Block {
    if block.role.Plan? && block.plan.Some? && block.plan.value.status.PlanBuilding?
    then block.(plan := Some(block.plan.value.(status := if clean then PlanBuilt else PlanReady)))
    else block
  }

  function Notice(id: Id, text: string): Block {
    Block(id, System, text, false, false, None, None, [], None, None)
  }

  function StampTurn(blocks: seq<Block>, id: Id, durationMs: int): seq<Block> {
    Map(blocks, (b: Block) => if b.id == id then b.(durationMs := Some(durationMs)) else b)
  }

  function SettledBlocks(session: Session, clean: bool, endedAt: Time, now: Time): seq<Block> {
    var stopped := StopStreaming(session, now).blocks;
    var at := LastUser(session.blocks);
    var timed :=
      if at.Some? && session.blocks[at.value].startedAt.Some? && session.blocks[at.value].durationMs.None?
      then StampTurn(stopped, session.blocks[at.value].id,
                     Elapsed(session.blocks[at.value].startedAt.value, endedAt))
      else stopped;
    Map(timed, (b: Block) => FinishPlan(b, clean))
  }

  function Settled(value: HostSession, status: Status, message: Option<string>,
                   endedAt: Time, now: Time, noticeId: Id): HostSession {
    var blocks := SettledBlocks(value.session, status.Idle? && !Truthy(message), endedAt, now);
    value.(
      status := status,
      session := StopStreaming(value.session, now).(
        blocks := blocks + if Truthy(message) then [Notice(noticeId, message.value)] else []))
  }

  predicate Building(block: Block) {
    block.role.Plan? && block.plan.Some? && block.plan.value.status.PlanBuilding?
  }

  predicate Quiet(blocks: seq<Block>) {
    forall i :: 0 <= i < |blocks| ==> !blocks[i].streaming && !Undecided(blocks[i])
  }

  lemma StoppedIsQuiet(session: Session, now: Time)
    ensures Quiet(StopStreaming(session, now).blocks)
  {
    var settled := SettleApprovals(session.blocks);
    var stopped := Map(settled, StopBlock);
    forall i | 0 <= i < |stopped| ensures !stopped[i].streaming && !Undecided(stopped[i]) {
      assert settled[i] in settled;
    }
  }

  lemma SettledBlocksAreQuiet(session: Session, clean: bool, endedAt: Time, now: Time)
    ensures Quiet(SettledBlocks(session, clean, endedAt, now))
    ensures forall b :: b in SettledBlocks(session, clean, endedAt, now) ==> !Building(b)
  {
    StoppedIsQuiet(session, now);
  }

  /** Nothing of a settled turn is left in progress: no stream, no open approval or question,
      no plan still building, and the session is not busy. */
  lemma SettledLeavesNothingOpen(value: HostSession, status: Status, message: Option<string>,
                                 endedAt: Time, now: Time, noticeId: Id)
    ensures var next := Settled(value, status, message, endedAt, now, noticeId);
            && next.status == status && next.runId == value.runId
            && !next.session.busy && next.session.pendingQuestion.None?
            && Quiet(next.session.blocks)
            && forall b :: b in next.session.blocks ==> !Building(b)
  {
    SettledBlocksAreQuiet(value.session, status.Idle? && !Truthy(message), endedAt, now);
  }

  // ---------------------------------------------------------------- deciding a command

  datatype Providers = Providers(available: set<string>, compacting: set<string>)

  /** What the host meets in its surroundings while it handles one command. `relayed` tells whether
      the provider takes an answer or an approval that is passed on to it, or throws. */
  datatype Surroundings = Surroundings(
    now: Time,
    uuid: Id,
    cwd: Option<string>,
    filesReady: bool,
    promptTitle: string,
    replaceableTitle: bool,
    relayed: bool)

  datatype Effect = NoEffect | Launch(runId: Id) | CancelTurn | Relay

  datatype Decided = Decided(value: HostSession, effect: Effect)

  const NEW_SESSION_TITLE := "New remote session"

  function UserBlock(id: Id, text: string, attachments: seq<Id>, draft: bool, startedAt: Option<Time>): Block {
    Block(id, User, text, draft, false, None, None, attachments, startedAt, None)
  }

  function FindDraft(blocks: seq<Block>, id: Id): (found: Option<Block>)
    ensures found.Some? ==> found.value in blocks && found.value.id == id && found.value.draft
  {
    if blocks == [] then None
    else if blocks[0].id == id && blocks[0].draft then Some(blocks[0])
    else FindDraft(blocks[1..], id)
  }

  function FindPlan(blocks: seq<Block>, id: Id): (found: Option<Block>)
    ensures found.Some? ==> found.value in blocks && found.value.id == id && found.value.role.Plan?
  {
    if blocks == [] then None
    else if blocks[0].id == id && blocks[0].role.Plan? then Some(blocks[0])
    else FindPlan(blocks[1..], id)
  }

  predicate PlanIsReady(plan: Option<Block>) {
    && plan.Some?
    && Trim(plan.value.text, SCRIPT_WHITE_SPACE) != ""
    && !plan.value.streaming
    && (plan.value.plan.None? || plan.value.plan.value.status in {PlanStreaming, PlanReady})
  }

  function BuildPlan(block: Block, plan: Option<Block>): Block {
    if plan == Some(block) then block.(plan := Some(PlanInfo(PlanBuilding, Some(block.text)))) else block
  }

  /** The transcript a turn starts with: drafts dropped, the approved plan building, the prompt last. */
  function TurnBlocks(blocks: seq<Block>, plan: Option<Block>, prompt: Block): (next: seq<Block>)
    ensures !prompt.draft ==> forall b :: b in next ==> !b.draft
  {
    var kept := Keep(blocks, (b: Block) => !b.draft);
    assert forall i :: 0 <= i < |kept| ==> kept[i] in kept;
    Map(kept, (b: Block) => BuildPlan(b, plan)) + [prompt]
  }

  function StartTurn(value: HostSession, command: HostCommand, attachments: seq<Id>,
                     plan: Option<Block>, around: Surroundings): (next: HostSession)
    requires command.Send? || command.Compact?
    ensures next.status == Running && next.runId == Some(around.uuid)
    ensures forall b :: b in next.session.blocks ==> !b.draft
  {
    var firstTurn := command.Send? && forall b :: b in value.session.blocks ==> b.draft;
    var placeholder := value.session.title == NEW_SESSION_TITLE || around.replaceableTitle;
    var text := if command.Compact? then "/compact" else command.text;
    value.(
      status := Running,
      runId := Some(around.uuid),
      session := value.session.(
        busy := true,
        pendingQuestion := None,
        title := if firstTurn && placeholder then around.promptTitle else value.session.title,
        blocks := TurnBlocks(value.session.blocks, plan,
                             UserBlock(command.commandId, text, attachments, false, Some(around.now)))))
  }

  function DecideTurn(value: HostSession, command: HostCommand, providers: Providers,
                      around: Surroundings): (decided: Result<Decided, HostError>)
    requires command.Send? || command.Compact?
    ensures decided.Ok? ==>
              decided.value.value.status == Running && forall b :: b in decided.value.value.session.blocks ==> !b.draft
  {
    if value.status.Running? then Err(TurnRunning)
    else if command.Compact? && value.session.harness !in providers.compacting then Err(CompactionUnavailable)
    else
      var draft := if command.Send? && command.draftBlockId.Some?
                   then FindDraft(value.session.blocks, command.draftBlockId.value) else None;
      if command.Send? && command.draftBlockId.Some? && draft.None? then Err(DraftNotFound)
      else
        var plan := if command.Send? && command.planBlockId.Some?
                    then FindPlan(value.session.blocks, command.planBlockId.value) else None;
        if command.Send? && command.planBlockId.Some? && !PlanIsReady(plan) then Err(PlanNotReady)
        else
          var reuse := draft.Some? && draft.value.attachments != [];
          var requested := if command.Send? then command.attachments else [];
          if !reuse && requested != [] && !around.filesReady then Err(AttachmentIncomplete)
          else
            var attachments := if reuse then draft.value.attachments else requested;
            Ok(Decided(StartTurn(value, command, attachments, plan, around), Launch(around.uuid)))
  }

  function DecideDraft(value: HostSession, command: HostCommand, around: Surroundings): Result<Decided, HostError>
    requires command.Draft?
  {
    if value.status.Running? || exists b :: b in value.session.blocks && b.draft then Err(DraftRefused)
    else if command.attachments != [] && !around.filesReady then Err(AttachmentIncomplete)
    else Ok(Decided(
      value.(session := value.session.(
               title := if value.session.blocks != [] then value.session.title else around.promptTitle,
               blocks := value.session.blocks +
                         [UserBlock(command.commandId, command.text, command.attachments, true, None)])),
      NoEffect))
  }

  function ResolveApproval(blocks: seq<Block>, requestId: nat): seq<Block> {
    Map(blocks, (b: Block) =>
          if b.approval.Some? && b.approval.value.requestId == requestId
          then b.(approval := Some(b.approval.value.(decided := true))) else b)
  }

  /** The branch for a session that exists. */
  function DecideExisting(value: HostSession, command: HostCommand, switching: set<Id>,
                          providers: Providers, around: Surroundings): Result<Decided, HostError>
    requires !command.Create?
  {
    if (command.Send? || command.Compact?) && value.projectId in switching then Err(BranchSwitching)
    else if value.session.harness !in providers.available then Err(UnknownProvider)
    else match command
      case Configure(_, _, model, modelSettings, runtimeMode) =>
        if value.status.Running? then Err(TurnRunning)
        else Ok(Decided(
          value.(session := value.session.(
                   model := model, modelSettings := modelSettings, runtimeMode := runtimeMode)),
          NoEffect))
      case Draft(_, _, _, _) => DecideDraft(value, command, around)
      case RemoveDraft(_, _, removed) =>
        if FindDraft(value.session.blocks, removed).None? then Err(DraftNotFound)
        else Ok(Decided(
          value.(session := value.session.(
                   blocks := Keep(value.session.blocks, (b: Block) => b.id != removed))),
          NoEffect))
      case Send(_, _, _, _, _, _, _) => DecideTurn(value, command, providers, around)
      case Compact(_, _) => DecideTurn(value, command, providers, around)
      case Cancel(_, _, runId) =>
        if value.runId != Some(runId) || !value.status.Running? then Err(FinishedTurn)
        else Ok(Decided(value, CancelTurn))
      case Approve(_, _, runId, requestId, _) =>
        if value.runId != Some(runId) || !value.status.Running? then Err(FinishedTurn)
        else if !exists b :: b in value.session.blocks && Undecided(b) && b.approval.value.requestId == requestId
        then Err(ApprovalResolved)
        else Ok(Decided(
          value.(session := value.session.(blocks := ResolveApproval(value.session.blocks, requestId))), Relay))
      case Answer(_, _, runId, requestId) =>
        if value.runId != Some(runId) || !value.status.Running? then Err(FinishedTurn)
        else if value.session.pendingQuestion != Some(requestId) then Err(QuestionResolved)
        else Ok(Decided(value.(session := value.session.(pendingQuestion := None)), Relay))
  }

  function NewSession(command: HostCommand, cwd: string, around: Surroundings): HostSession
    requires command.Create?
  {
    HostSession(
      command.projectId, 0, None, Idle, Some(around.now), around.now, false, false,
      command.autoWorktreeBranch, None,
      Session(around.uuid, cwd, command.harness, command.model, command.modelSettings, command.runtimeMode,
              NEW_SESSION_TITLE, command.autoWorktreeBranch, false, None, None, None, []))
  }

  function DecideCreate(tables: Tables, command: HostCommand, switching: set<Id>,
                        providers: Providers, around: Surroundings): Result<Decided, HostError>
    requires command.Create?
  {
    if command.projectId !in tables.projects then Err(UnknownProject)
    else if command.projectId in switching then Err(BranchSwitching)
    else if command.harness !in providers.available then Err(UnknownProvider)
    else if around.cwd.None? then Err(InvalidWorktree)
    else Ok(Decided(NewSession(command, around.cwd.value, around), NoEffect))
  }

  /** What a command makes of the stored sessions, before anything is written. */
  function Decide(tables: Tables, command: HostCommand, switching: set<Id>,
                  providers: Providers, around: Surroundings): Result<Decided, HostError> {
    if command.Create? then DecideCreate(tables, command, switching, providers, around)
    else if command.sessionId !in tables.sessions then Err(UnknownSession)
    else DecideExisting(tables.sessions[command.sessionId].snapshot, command, switching, providers, around)
  }

  // ---------------------------------------------------------------- transcript invariants

  function Drafts(blocks: seq<Block>): nat {
    if blocks == [] then 0
    else Drafts(blocks[..|blocks| - 1]) + if blocks[|blocks| - 1].draft then 1 else 0
  }

  /** At most one draft, none during a turn, and no plan building outside one. */
  predicate Orderly(value: HostSession) {
    && Drafts(value.session.blocks) <= 1
    && (value.status.Running? ==> Drafts(value.session.blocks) == 0)
    && (!value.status.Running? ==> forall b :: b in value.session.blocks ==> !Building(b))
  }
}
