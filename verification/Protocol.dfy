/** Commands a client sends, the receipts it gets, and what the host writes to its event log. */
module Protocol {
  import opened Wrappers
  import opened Sessions

  datatype HarnessEvent = HarnessEvent(kind: string, body: string)

  /** Streamed output is written in batches; every other kind is written at once. */
  const BATCHED: set<string> := {"message.delta", "reasoning.delta", "tool.updated", "agent.step", "status"}

  datatype Intent = DefaultIntent | PlanIntent | BuildIntent

  datatype Decision = Allow | Deny

  datatype HostCommand =
    | Create(commandId: Id, projectId: Id, worktreeCwd: Option<string>, autoWorktreeBranch: Option<string>,
             harness: string, model: string, modelSettings: map<string, string>, runtimeMode: string)
    | Configure(commandId: Id, sessionId: Id, model: string, modelSettings: map<string, string>, runtimeMode: string)
    | Compact(commandId: Id, sessionId: Id)
    | Send(commandId: Id, sessionId: Id, text: string, attachments: seq<Id>, intent: Option<Intent>,
           draftBlockId: Option<Id>, planBlockId: Option<Id>)
    | Draft(commandId: Id, sessionId: Id, text: string, attachments: seq<Id>)
    | RemoveDraft(commandId: Id, sessionId: Id, removedBlockId: Id)
    | Cancel(commandId: Id, sessionId: Id, runId: Id)
    | Approve(commandId: Id, sessionId: Id, runId: Id, requestId: nat, decision: Decision)
    | Answer(commandId: Id, sessionId: Id, runId: Id, requestId: nat)

  datatype Receipt = Receipt(commandId: Id, sessionId: Id, revision: int)

  datatype Patch = Patch(
    title: Option<string>,
    archived: Option<bool>,
    pinned: Option<bool>,
    linkedWorkItem: Option<Option<string>>)

  datatype Payload =
    | CommandPayload(command: HostCommand)
    | EventsPayload(events: seq<HarnessEvent>)
    | InterruptedPayload
    | SettledPayload(error: Option<string>, cancelled: bool)
    | MetadataPayload(patch: Patch)
    | GeneratedTitlePayload
    | GeneratedBranchPayload(branch: string)

  datatype HostError =
    | HostStopping
    | CommandIdReused
    | UnknownProject
    | UnknownSession
    | UnknownProvider
    | BranchSwitching
    | TurnRunning
    | DraftRefused
    | DraftNotFound
    | PlanNotReady
    | CompactionUnavailable
    | AttachmentIncomplete
    | InvalidWorktree
    | FinishedTurn
    | ApprovalResolved
    | QuestionResolved
    | InvalidTitle
    | StorageFailed
    | ProviderFailed
}
