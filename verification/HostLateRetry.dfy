/**
 A run of the host, from an empty database, in which a `bind` that throws makes the retry of one
 turn release the next: the session stays stored as running while the running map and the overlay
 no longer hold it.
 */
module HostLateRetry {
  import opened Wrappers
  import opened Sessions
  import opened Protocol
  import opened Tables
  import opened Turns
  import opened HostModel
  import opened HostInvariants
  import opened HostScenario
  import HostBind

  const STARTED := HarnessEvent("session.started", "")

  const LATE_RETRY: seq<Action> := OPENING + [
    DoStartSending("first", None),
    DoEvent("s", "first", STARTED, 0, true),
    DoSendReturned("first", None),
    DoSettle("first", 0, "n1", Calls(true, true, true, false)),
    DoRetryFired("s"),
    DoCommand(SendAs("c3"), Around("second"), true, true),
    DoRetrySettle("first", 0, "n2", Calls(true, true, true, true))]

  // ---------------------------------------------------------------- the first turn

  lemma Streams(s: Host, used: set<Id>, commands: set<Id>)
    requires At(s, Some("first"), false, FirstIn(Sending), map[], used, commands)
    ensures At(ReceiveEvent(PROVIDER, s, "s", "first", STARTED, 0, true), Some("first"), true, FirstIn(Sending), map[],
               used, commands)
  {
    EventIsWritten(s, STARTED, "first", false, true, FirstIn(Sending), used, commands);
  }

  lemma Returns(s: Host, used: set<Id>, commands: set<Id>)
    requires At(s, Some("first"), true, FirstIn(Sending), map[], used, commands)
    ensures At(SendReturned(s, "first", None), Some("first"), true, FirstIn(Stopping(None)), map[], used, commands)
  {
  }

  const UNBOUND := Calls(true, true, true, false)

  lemma SettledValue(s: Host, turn: Turn, latest: HostSession)
    requires StoredAs(latest, Some("first"), true)
    ensures var input := SettledInput(s, turn, latest, 0, "n1");
            StoredAs(input, None, true) && input.revision == latest.revision + 1
  {
  }

  lemma SettledUnbound(s: Host, input: HostSession, payload: Payload, used: set<Id>, commands: set<Id>)
    requires At(s, Some("first"), true, FirstIn(Stopping(None)), map[], used, commands)
    requires StoredAs(input, None, true) && input.revision == s.tables.sessions["s"].snapshot.revision + 1
    ensures At(EndTurn(EndLive(s, "s"), "first", input, payload, UNBOUND), None, true, FirstIn(RetryWaiting),
               map["s" := "first"], used, commands)
  {
    var ended := EndLive(s, "s");
    SaveStores(ended, input, payload, None, true);
    HostBind.UnboundTurnStaysArmed(SaveCommitted(ended, input, payload), "first", UNBOUND);
  }

  lemma Settles(s: Host, used: set<Id>, commands: set<Id>)
    requires At(s, Some("first"), true, FirstIn(Stopping(None)), map[], used, commands)
    ensures At(Settle(s, "first", 0, "n1", UNBOUND), None, true, FirstIn(RetryWaiting), map["s" := "first"], used, commands)
  {
    var latest, turn := s.tables.sessions["s"].snapshot, s.turns["first"];
    assert Flush(s, "s", 0, true) == s;
    SettledValue(EndLive(s, "s"), turn, latest);
    SettledUnbound(s, SettledInput(EndLive(s, "s"), turn, latest, 0, "n1"), SettledPayloadOf(turn), used, commands);
  }

  lemma Fires(s: Host, used: set<Id>, commands: set<Id>)
    requires At(s, None, true, FirstIn(RetryWaiting), map["s" := "first"], used, commands)
    ensures At(RetryFired(s, "s"), None, true, FirstIn(RetryStopping), map[], used, commands)
  {
  }

  // ---------------------------------------------------------------- the late retry

  lemma Drops(s: Host, turns: map<Id, Turn>, used: set<Id>, commands: set<Id>)
    requires At(s, Some("second"), true, turns, map[], used, commands)
    requires "first" in turns && turns["first"] == Turn("s", RetryStopping, false, false)
    ensures var t := RetrySettle(s, "first", 0, "n2", Calls(true, true, true, true));
            Dropped(t)
  {
    assert Flush(s, "s", 0, true) == s;
  }

  lemma FirstHears(s: Host)
    requires At(s, Some("first"), false, FirstIn(Sending), map[], FIRST, SENT)
    ensures At(Step(PROVIDER, s, LATE_RETRY[5]), Some("first"), true, FirstIn(Sending), map[], FIRST, SENT)
  {
    Undrawn(s, LATE_RETRY[5]);
    assert Act(PROVIDER, s, LATE_RETRY[5]) == ReceiveEvent(PROVIDER, s, "s", "first", STARTED, 0, true);
    Streams(s, FIRST, SENT);
  }

  lemma FirstReturns(s: Host)
    requires At(s, Some("first"), true, FirstIn(Sending), map[], FIRST, SENT)
    ensures At(Step(PROVIDER, s, LATE_RETRY[6]), Some("first"), true, FirstIn(Stopping(None)), map[], FIRST, SENT)
  {
    Undrawn(s, LATE_RETRY[6]);
    assert Act(PROVIDER, s, LATE_RETRY[6]) == SendReturned(s, "first", None);
    Returns(s, FIRST, SENT);
  }

  lemma FirstSettles(s: Host)
    requires At(s, Some("first"), true, FirstIn(Stopping(None)), map[], FIRST, SENT)
    ensures At(Step(PROVIDER, s, LATE_RETRY[7]), None, true, FirstIn(RetryWaiting), map["s" := "first"], FIRST + {"n1"}, SENT)
  {
    var d := Draw(s, LATE_RETRY[7]);
    assert Step(PROVIDER, s, LATE_RETRY[7]) == Settle(d, "first", 0, "n1", UNBOUND);
    Settles(d, FIRST + {"n1"}, SENT);
  }

  lemma FirstFires(s: Host)
    requires At(s, None, true, FirstIn(RetryWaiting), map["s" := "first"], FIRST + {"n1"}, SENT)
    ensures At(Step(PROVIDER, s, LATE_RETRY[8]), None, true, FirstIn(RetryStopping), map[], FIRST + {"n1"}, SENT)
  {
    Undrawn(s, LATE_RETRY[8]);
    assert Act(PROVIDER, s, LATE_RETRY[8]) == RetryFired(s, "s");
    Fires(s, FIRST + {"n1"}, SENT);
  }

  lemma FirstSending()
    ensures At(Upto(LATE_RETRY, 5), Some("first"), false, FirstIn(Sending), map[], FIRST, SENT)
  {
    Opens(LATE_RETRY);
    UptoNext(LATE_RETRY, 4);
    FirstSends(Upto(LATE_RETRY, 4));
  }

  lemma FirstStreaming()
    ensures At(Upto(LATE_RETRY, 6), Some("first"), true, FirstIn(Sending), map[], FIRST, SENT)
  {
    FirstSending();
    UptoNext(LATE_RETRY, 5);
    FirstHears(Upto(LATE_RETRY, 5));
  }

  lemma FirstStopping()
    ensures At(Upto(LATE_RETRY, 7), Some("first"), true, FirstIn(Stopping(None)), map[], FIRST, SENT)
  {
    FirstStreaming();
    UptoNext(LATE_RETRY, 6);
    FirstReturns(Upto(LATE_RETRY, 6));
  }

  lemma FirstWaiting()
    ensures At(Upto(LATE_RETRY, 8), None, true, FirstIn(RetryWaiting), map["s" := "first"], FIRST + {"n1"}, SENT)
  {
    FirstStopping();
    UptoNext(LATE_RETRY, 7);
    FirstSettles(Upto(LATE_RETRY, 7));
  }

  lemma FirstRetrying()
    ensures At(Upto(LATE_RETRY, 9), None, true, FirstIn(RetryStopping), map[], FIRST + {"n1"}, SENT)
  {
    FirstWaiting();
    UptoNext(LATE_RETRY, 8);
    FirstFires(Upto(LATE_RETRY, 8));
  }

  function BothIn(): map<Id, Turn> {
    FirstIn(RetryStopping)["second" := Turn("s", Queued, false, false)]
  }

  lemma SecondQueued()
    ensures At(Upto(LATE_RETRY, 10), Some("second"), true, BothIn(), map[], FIRST + {"n1"} + {"second"}, SENT + {"c3"})
  {
    FirstRetrying();
    UptoNext(LATE_RETRY, 9);
    Launches(Upto(LATE_RETRY, 9), "c3", "second", true, FirstIn(RetryStopping), map[], FIRST + {"n1"}, SENT);
  }

  lemma LateRetryDrops(s: Host)
    requires At(s, Some("second"), true, BothIn(), map[], FIRST + {"n1"} + {"second"}, SENT + {"c3"})
    ensures Dropped(Step(PROVIDER, s, LATE_RETRY[10]))
  {
    var d := Draw(s, LATE_RETRY[10]);
    LateRetryIsSettled(s);
    Drops(d, BothIn(), FIRST + {"n1"} + {"second"} + {"n2"}, SENT + {"c3"});
  }

  lemma LateRetryIsSettled(s: Host)
    requires s.up && "n2" !in s.used
    ensures Step(PROVIDER, s, LATE_RETRY[10])
            == RetrySettle(Draw(s, LATE_RETRY[10]), "first", 0, "n2", Calls(true, true, true, true))
  {
  }

  /** Stored as running its second turn, which neither the running map nor the overlay holds. */
  ghost predicate Dropped(t: Host) {
    && t.up && IsRunning(t.tables.sessions, "s") && t.tables.sessions["s"].snapshot.runId == Some("second")
    && "s" !in t.running && "s" !in t.live
  }

  /** At the end of this run the late retry of the first turn has released the second. */
  lemma LateRetryDropsTheNextRun()
    ensures KeepsIdentity(PROVIDER) && Dropped(Exec(PROVIDER, NEW_HOST, LATE_RETRY))
  {
    SecondQueued();
    UptoNext(LATE_RETRY, 10);
    assert LATE_RETRY[..11] == LATE_RETRY;
    LateRetryDrops(Upto(LATE_RETRY, 10));
  }
}
