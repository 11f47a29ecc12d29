/** Commands take effect once: each accepted command is one commit, named by its receipt. */
module HostCommands {
  import opened Wrappers
  import opened Sessions
  import opened Protocol
  import opened DeltaSync
  import opened Tables
  import opened Turns
  import opened HostModel
  import opened HostInvariants
  import opened HostSteps
  import opened HostFrames
  import opened HostRuns
  import HostStored

  predicate HasCommand(history: map<Id, seq<Commit>>, id: Id, i: int) {
    id in history && 0 <= i < |history[id]| && history[id][i].payload.CommandPayload?
  }

  function CommandAt(history: map<Id, seq<Commit>>, id: Id, i: int): HostCommand
    requires HasCommand(history, id, i)
  {
    history[id][i].payload.command
  }

  /** The commit of a command is the one its receipt names. */
  ghost predicate Receipted(history: map<Id, seq<Commit>>, receipts: map<Id, ReceiptRow>) {
    forall id, i :: HasCommand(history, id, i) ==>
      var command := CommandAt(history, id, i);
      && command.commandId in receipts
      && receipts[command.commandId]
         == ReceiptRow(command, Receipt(command.commandId, id, history[id][i].value.revision))
  }

  lemma StillReceipted(before: map<Id, seq<Commit>>, after: map<Id, seq<Commit>>,
                       fewer: map<Id, ReceiptRow>, more: map<Id, ReceiptRow>)
    requires Receipted(before, fewer) && NoNewCommands(before, after) && Extends(more, fewer)
    ensures Receipted(after, more)
  {
    forall id, i | HasCommand(after, id, i)
      ensures var command := CommandAt(after, id, i);
              command.commandId in more
              && more[command.commandId]
                 == ReceiptRow(command, Receipt(command.commandId, id, after[id][i].value.revision))
    {
      assert HasCommand(before, id, i);
    }
  }

  lemma ReceiptedAfterCommand(history: map<Id, seq<Commit>>, receipts: map<Id, ReceiptRow>, id: Id,
                              value: HostSession, command: HostCommand)
    requires Receipted(history, receipts) && command.commandId !in receipts
    ensures Receipted(Appended(history, id, Commit(value, CommandPayload(command))),
                      receipts[command.commandId := ReceiptRow(command, Receipt(command.commandId, id, value.revision))])
  {
    var after := Appended(history, id, Commit(value, CommandPayload(command)));
    forall other, i | HasCommand(after, other, i)
      ensures HasCommand(history, other, i) || (other == id && i == |after[id]| - 1)
    {
    }
    forall other, i | HasCommand(after, other, i) && HasCommand(history, other, i)
      ensures CommandAt(after, other, i) == CommandAt(history, other, i)
              && CommandAt(after, other, i).commandId in receipts
    {
    }
  }

  lemma AcceptedHistory(s: Host, command: HostCommand, decided: Decided, around: Surroundings)
    ensures var input := CommandInput(command, decided, around.now);
            && Accepted(s, command, decided, around).history
               == Appended(s.history, input.session.id, Commit(Saving(s.tables, input), CommandPayload(command)))
            && Saving(s.tables, input).revision == input.revision
  {
    AcceptedIsUpdate(s, command, decided, around);
  }

  lemma AcceptedIsReceipted(s: Host, command: HostCommand, decided: Decided, around: Surroundings)
    requires Receipted(s.history, s.tables.receipts) && command.commandId !in s.tables.receipts
    ensures var t := Accepted(s, command, decided, around); Receipted(t.history, t.tables.receipts)
  {
    var input := CommandInput(command, decided, around.now);
    AcceptedHistory(s, command, decided, around);
    ReceiptedAfterCommand(s.history, s.tables.receipts, input.session.id, Saving(s.tables, input), command);
  }

  lemma RunFlushedIsReceipted(c: Config, s: Host, command: HostCommand, around: Surroundings, ok: bool)
    requires Receipted(s.history, s.tables.receipts) && command.commandId !in s.tables.receipts
    ensures var t := RunFlushed(c, s, command, around, ok).host; Receipted(t.history, t.tables.receipts)
  {
    var decided := Decide(s.tables, command, s.switching, c.providers, around);
    if decided.Ok? { AcceptedIsReceipted(s, command, decided.value, around); }
  }

  lemma CommandIsReceipted(c: Config, s: Host, a: Action)
    requires Receipted(s.history, s.tables.receipts) && a.DoCommand?
    ensures var t := Act(c, s, a); Receipted(t.history, t.tables.receipts)
  {
    if a.command.commandId !in s.tables.receipts {
      var prepared := Prepared(s, a.command, a.around, a.flushOk);
      StillReceipted(s.history, prepared.history, s.tables.receipts, prepared.tables.receipts);
      RunFlushedIsReceipted(c, prepared, a.command, a.around, a.saveOk);
      CommandOutcomes(c, s, a);
    }
  }

  lemma OthersCommitNoCommands(c: Config, s: Host, a: Action)
    requires !a.DoCommand?
    ensures NoNewCommands(s.history, Act(c, s, a).history)
  {
  }

  lemma StepIsReceipted(c: Config, s: Host, a: Action)
    requires Receipted(s.history, s.tables.receipts)
    ensures var t := Step(c, s, a); Receipted(t.history, t.tables.receipts)
  {
    if Enabled(s, a) {
      if a.DoCommand? {
        CommandIsReceipted(c, Draw(s, a), a);
      } else {
        OthersCommitNoCommands(c, Draw(s, a), a);
        StepExtendsReceipts(c, s, a);
        StillReceipted(s.history, Act(c, Draw(s, a), a).history, s.tables.receipts, Step(c, s, a).tables.receipts);
      }
    }
  }

  lemma {:induction false} RunIsReceipted(c: Config, s: Host, actions: seq<Action>)
    requires Receipted(s.history, s.tables.receipts)
    ensures var t := Exec(c, s, actions); Receipted(t.history, t.tables.receipts)
  {
    if actions != [] {
      RunIsReceipted(c, s, actions[..|actions| - 1]);
      StepIsReceipted(c, Exec(c, s, actions[..|actions| - 1]), actions[|actions| - 1]);
    }
  }

  lemma OneCommitPerReceipt(history: map<Id, seq<Commit>>, receipts: map<Id, ReceiptRow>, p: Id, i: nat, q: Id, j: nat)
    requires Receipted(history, receipts) && HasCommand(history, p, i) && HasCommand(history, q, j)
    requires CommandAt(history, p, i).commandId == CommandAt(history, q, j).commandId
    requires Saved(Values(history[p]))
    ensures p == q && i == j
  {
    var values := Values(history[p]);
    if i < j { RevisionsIncrease(values, i, j); } else if j < i { RevisionsIncrease(values, j, i); }
  }

  /** In every run, with any crashes and repetitions, two commits of commands under one
      command id are the same commit: no command is ever applied twice. */
  lemma CommandsApplyOnce(c: Config, actions: seq<Action>, p: Id, i: nat, q: Id, j: nat)
    requires KeepsIdentity(c)
    requires var history := Exec(c, NEW_HOST, actions).history;
             && HasCommand(history, p, i) && HasCommand(history, q, j)
             && CommandAt(history, p, i).commandId == CommandAt(history, q, j).commandId
    ensures p == q && i == j
  {
    HostStored.RunKeepsStore(c, actions);
    RunIsReceipted(c, NEW_HOST, actions);
    var s := Exec(c, NEW_HOST, actions);
    OneCommitPerReceipt(s.history, s.tables.receipts, p, i, q, j);
  }
}
