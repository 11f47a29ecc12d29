/**
 A run of the host, from an empty database, after which every delta is wrong: a turn that cannot be
 sent leaves a notice, and a client sends its next prompt under the id of that notice.
 */
module HostCollision {
  import opened Wrappers
  import opened Sessions
  import opened Protocol
  import opened DeltaSync
  import opened Tables
  import opened Turns
  import opened HostModel
  import opened HostInvariants
  import opened HostSteps
  import opened HostScenario
  import HostClients

  const PROBLEM := "The prompt could not be prepared."
  const WORKING := Calls(true, true, true, true)

  /** The second prompt, under the id of the notice. */
  const SECOND := DoCommand(SendAs("n1"), Around("second"), true, true)

  const COLLIDING: seq<Action> := OPENING + [
    DoStartSending("first", Some(PROBLEM)),
    DoSettle("first", 0, "n1", WORKING),
    SECOND]

  const FAILED := Stopping(Some(PROBLEM))

  predicate EndsWith(blocks: seq<Block>, last: Block) {
    blocks != [] && blocks[|blocks| - 1] == last
  }

  // ---------------------------------------------------------------- the notice

  lemma Refuses(s: Host)
    requires At(s, Some("first"), false, FirstIn(Queued), map[], FIRST, SENT)
    ensures At(StartSending(s, "first", Some(PROBLEM)), Some("first"), false, FirstIn(FAILED), map[], FIRST, SENT)
  {
  }

  lemma NoticeIsLast(s: Host, latest: HostSession)
    requires StoredAs(latest, Some("first"), false) && !s.closing
    ensures var input := SettledInput(s, Turn("s", FAILED, false, false), latest, 0, "n1");
            && StoredAs(input, None, false) && input.revision == latest.revision + 1
            && EndsWith(input.session.blocks, Notice("n1", PROBLEM))
  {
  }

  /** The session is idle, and its transcript ends with the notice. */
  ghost predicate Noticed(s: Host, used: set<Id>) {
    && At(s, None, false, map[], map[], used, SENT)
    && EndsWith(s.tables.sessions["s"].snapshot.session.blocks, Notice("n1", PROBLEM))
  }

  lemma EndsNoticed(s: Host, input: HostSession, payload: Payload, used: set<Id>)
    requires At(s, Some("first"), false, FirstIn(FAILED), map[], used, SENT)
    requires StoredAs(input, None, false) && input.revision == s.tables.sessions["s"].snapshot.revision + 1
    requires EndsWith(input.session.blocks, Notice("n1", PROBLEM))
    ensures Noticed(EndTurn(EndLive(s, "s"), "first", input, payload, WORKING), used)
  {
    SaveStores(EndLive(s, "s"), input, payload, None, false);
  }

  lemma Settles(s: Host, used: set<Id>)
    requires At(s, Some("first"), false, FirstIn(FAILED), map[], used, SENT)
    ensures Noticed(Settle(s, "first", 0, "n1", WORKING), used)
  {
    var latest, turn := s.tables.sessions["s"].snapshot, s.turns["first"];
    assert Flush(s, "s", 0, true) == s;
    NoticeIsLast(EndLive(s, "s"), latest);
    EndsNoticed(s, SettledInput(EndLive(s, "s"), turn, latest, 0, "n1"), SettledPayloadOf(turn), used);
  }

  lemma CollidingRefuses()
    ensures At(Upto(COLLIDING, 5), Some("first"), false, FirstIn(FAILED), map[], FIRST, SENT)
  {
    Opens(COLLIDING);
    UptoNext(COLLIDING, 4);
    Undrawn(Upto(COLLIDING, 4), COLLIDING[4]);
    Refuses(Upto(COLLIDING, 4));
  }

  lemma FirstSettles(s: Host)
    requires At(s, Some("first"), false, FirstIn(FAILED), map[], FIRST, SENT)
    ensures Noticed(Step(PROVIDER, s, COLLIDING[5]), FIRST + {"n1"})
  {
    var d := Draw(s, COLLIDING[5]);
    assert Step(PROVIDER, s, COLLIDING[5]) == Settle(d, "first", 0, "n1", WORKING);
    Settles(d, FIRST + {"n1"});
  }

  lemma CollidingSettles()
    ensures Noticed(Upto(COLLIDING, 6), FIRST + {"n1"})
  {
    CollidingRefuses();
    UptoNext(COLLIDING, 5);
    FirstSettles(Upto(COLLIDING, 5));
  }

  // ---------------------------------------------------------------- the prompt under its id

  lemma PromptCollides(value: HostSession)
    requires EndsWith(value.session.blocks, Notice("n1", PROBLEM))
    ensures !SameIdSameBlock(Launched(value, "n1", "second").value.session.blocks)
  {
    var blocks := value.session.blocks;
    var kept := Keep(blocks, (b: Block) => !b.draft);
    assert Notice("n1", PROBLEM) in kept;
    var i :| 0 <= i < |kept| && kept[i] == Notice("n1", PROBLEM);
    var after := Launched(value, "n1", "second").value.session.blocks;
    assert after[i] == Notice("n1", PROBLEM);
    assert after[|after| - 1].id == "n1" && after[|after| - 1].role.User?;
  }

  /** A prompt is saved after what was committed before. */
  lemma SavedPrompt(s: Host, value: HostSession)
    requires "s" in s.history && s.history["s"] != [] && s.live == map[] && value.session.id == "s"
    ensures var t := Accepted(s, SendAs("n1"), Launched(value, "n1", "second"), Around("second"));
            && "s" in t.tables.sessions && "s" in t.history && |t.history["s"]| >= 2
            && t.tables.sessions["s"].snapshot.session == Launched(value, "n1", "second").value.session
  {
    AcceptedIsLaunch(s, SendAs("n1"), Launched(value, "n1", "second"), Around("second"), "second");
  }

  /** Two different blocks of the session share an id, and there are earlier values to hold. */
  ghost predicate Collides(t: Host) {
    && "s" in t.tables.sessions && "s" in t.history && |t.history["s"]| >= 2
    && !SameIdSameBlock(t.tables.sessions["s"].snapshot.session.blocks)
  }

  /** What the second prompt needs. */
  ghost predicate IsReady(s: Host) {
    && s.up && !s.closing && s.switching == {} && s.live == map[]
    && "second" !in s.used && "n1" !in s.tables.receipts
    && Latest(s.tables) && StoredAs(s.tables.sessions["s"].snapshot, None, false)
  }

  lemma NoticedIsReady(s: Host)
    requires Noticed(s, FIRST + {"n1"})
    ensures IsReady(s)
  {
  }

  lemma SendIsTaken(s: Host)
    requires IsReady(s)
    ensures Step(PROVIDER, s, SECOND)
            == Accepted(Draw(s, SECOND), SendAs("n1"), Launched(s.tables.sessions["s"].snapshot, "n1", "second"),
                        Around("second"))
  {
    SendIsAccepted(Draw(s, SECOND), "n1", "second", false);
  }

  lemma SendCollides(s: Host)
    requires Noticed(s, FIRST + {"n1"}) && "s" in s.history && s.history["s"] != []
    ensures Collides(Step(PROVIDER, s, SECOND))
  {
    var value := s.tables.sessions["s"].snapshot;
    NoticedIsReady(s);
    SendIsTaken(s);
    PromptCollides(value);
    PromptIsSaved(Draw(s, SECOND), value);
  }

  lemma PromptIsSaved(s: Host, value: HostSession)
    requires "s" in s.history && s.history["s"] != [] && s.live == map[] && value.session.id == "s"
    requires !SameIdSameBlock(Launched(value, "n1", "second").value.session.blocks)
    ensures Collides(Accepted(s, SendAs("n1"), Launched(value, "n1", "second"), Around("second")))
  {
    SavedPrompt(s, value);
  }

  lemma CollidingCollides()
    ensures Collides(Exec(PROVIDER, NEW_HOST, COLLIDING))
  {
    CollidingSettles();
    HostClients.ReachableIsDurable(PROVIDER, COLLIDING[..6]);
    HostClients.CommitsEnd(Upto(COLLIDING, 6).tables, Upto(COLLIDING, 6).history, "s");
    SendCollides(Upto(COLLIDING, 6));
    CollidingEnds();
  }

  lemma CollidingEnds()
    ensures Exec(PROVIDER, NEW_HOST, COLLIDING) == Step(PROVIDER, Upto(COLLIDING, 6), SECOND)
  {
    UptoNext(COLLIDING, 6);
    assert COLLIDING[..7] == COLLIDING && COLLIDING[6] == SECOND;
  }

  /** After this run no client at any earlier committed revision gets the current value from the
      delta, and there is such a revision. */
  lemma NoClientCatchesUp(j: nat)
    ensures var s := Exec(PROVIDER, NEW_HOST, COLLIDING);
            && KeepsIdentity(PROVIDER) && "s" in s.tables.sessions && "s" in s.history && |s.history["s"]| >= 2
            && (j < |s.history["s"]| - 1 ==>
                  var now, held := s.tables.sessions["s"].snapshot, s.history["s"][j].value;
                  ApplySessionSync(Some(Strip(held)), Sync(now, Some(held.revision))) != Ok(Strip(now)))
  {
    CollidingCollides();
    if j < |Exec(PROVIDER, NEW_HOST, COLLIDING).history["s"]| - 1 {
      HostClients.ClientsCatchUp(PROVIDER, COLLIDING, "s", j);
    }
  }
}
