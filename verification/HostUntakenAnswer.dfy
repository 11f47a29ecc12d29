/**
 A run of the host, from an empty database, in which a client gets an error for an answer that is
 committed: the provider asks a question, and then does not take the answer passed on to it.
 */
module HostUntakenAnswer {
  import opened Wrappers
  import opened Sessions
  import opened Protocol
  import opened Tables
  import opened Turns
  import opened HostModel
  import opened HostInvariants
  import opened HostScenario
  import HostRuns

  const QUESTION := HarnessEvent(ASKED, "")
  const ANSWER := Answer("c3", "s", "first", 1)

  const ASKING: seq<Action> := OPENING + [DoStartSending("first", None), DoEvent("s", "first", QUESTION, 0, true)]

  /** The provider throws at the answer. */
  const UNTAKEN := Around("unused").(relayed := false)

  /** The first turn is running, and its provider waits for the answer to its question. */
  ghost predicate Waits(s: Host) {
    && At(s, Some("first"), false, FirstIn(Sending), map[], FIRST, SENT)
    && s.tables.sessions["s"].snapshot.session.pendingQuestion == Some(1)
  }

  lemma Asks(s: Host)
    requires At(s, Some("first"), false, FirstIn(Sending), map[], FIRST, SENT)
    ensures Waits(ReceiveEvent(PROVIDER, s, "s", "first", QUESTION, 0, true))
  {
    EventIsWritten(s, QUESTION, "first", false, false, FirstIn(Sending), FIRST, SENT);
  }

  lemma FirstHears(s: Host)
    requires At(s, Some("first"), false, FirstIn(Sending), map[], FIRST, SENT)
    ensures Waits(Step(PROVIDER, s, ASKING[5]))
  {
    Undrawn(s, ASKING[5]);
    assert Act(PROVIDER, s, ASKING[5]) == ReceiveEvent(PROVIDER, s, "s", "first", QUESTION, 0, true);
    Asks(s);
  }

  lemma AskingSends()
    ensures At(Upto(ASKING, 5), Some("first"), false, FirstIn(Sending), map[], FIRST, SENT)
  {
    Opens(ASKING);
    UptoNext(ASKING, 4);
    FirstSends(Upto(ASKING, 4));
  }

  lemma AskingWaits()
    ensures Waits(Exec(PROVIDER, NEW_HOST, ASKING))
  {
    AskingSends();
    UptoNext(ASKING, 5);
    FirstHears(Upto(ASKING, 5));
    assert ASKING[..6] == ASKING;
  }

  lemma AnswerIsCommitted(s: Host)
    requires Waits(s)
    ensures HostRuns.FailsAfterCommit(PROVIDER, s, ANSWER, UNTAKEN, true, true)
  {
    var value := s.tables.sessions["s"].snapshot;
    assert Prepared(s, ANSWER, UNTAKEN, true) == s;
    assert Decide(s.tables, ANSWER, {}, PROVIDER.providers, UNTAKEN)
        == Ok(Decided(value.(session := value.session.(pendingQuestion := None)), Relay));
  }

  /** The answer gets an error, and is committed with its receipt. */
  ghost predicate FailsLate(s: Host) {
    var outcome := RunCommand(PROVIDER, s, ANSWER, UNTAKEN, true, true);
    && outcome.reply == Err(ProviderFailed)
    && ANSWER.commandId !in s.tables.receipts && ANSWER.commandId in outcome.host.tables.receipts
  }

  lemma AnswerFails(s: Host)
    requires Waits(s)
    ensures FailsLate(s)
  {
    AnswerIsCommitted(s);
    HostRuns.FailureIsLate(PROVIDER, s, ANSWER, UNTAKEN, true, true);
    HostRuns.RefusedLeavesNothing(PROVIDER, s, ANSWER, UNTAKEN, true, true);
  }

  /** A run from an empty database reaches a state in which an answer fails after its commit. */
  lemma AnswerFailsAfterCommit()
    ensures KeepsIdentity(PROVIDER) && FailsLate(Exec(PROVIDER, NEW_HOST, ASKING))
  {
    AskingWaits();
    AnswerFails(Exec(PROVIDER, NEW_HOST, ASKING));
  }
}
