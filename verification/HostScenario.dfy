/**
 The beginning that the runs of HostLateRetry, HostUntakenAnswer and HostCollision share: from an empty
 database a project, a session "s" and its first turn, with what matters of the state along a run.
 */
module HostScenario {
  import opened Wrappers
  import opened Sessions
  import opened Protocol
  import opened Tables
  import opened Turns
  import opened HostModel
  import opened HostInvariants
  import opened HostSteps
  import HostRuns

  const ASKED := "question.asked"

  /** A provider whose events ask a question, or tell the session its id at the provider. */
  const PROVIDER := Config((session: Session, event: HarnessEvent) => Some(Heard(session, event)),
                           Providers({"codex"}, {}))

  function Heard(session: Session, event: HarnessEvent): Session {
    if event.kind == ASKED then session.(pendingQuestion := Some(1)) else session.(providerSessionId := Some("thread"))
  }

  function Around(uuid: Id): Surroundings {
    Surroundings(0, uuid, Some("/"), true, "go", true, true)
  }

  function SendAs(commandId: Id): HostCommand {
    Send(commandId, "s", "go", [], None, None, None)
  }

  const CREATE := Create("c1", "p", None, None, "codex", "model", map[], "default")

  const OPENING: seq<Action> := [
    DoReady({}),
    DoRegisterProject("p", "/"),
    DoCommand(CREATE, Around("s"), true, true),
    DoCommand(SendAs("c2"), Around("first"), true, true)]

  /** What matters of the session "s" along the run: the run it is stored as running, whether the
      provider's id is known, and the memory of the process. */
  ghost predicate At(s: Host, run: Option<Id>, known: bool, turns: map<Id, Turn>, timers: map<Id, Id>,
                     used: set<Id>, commands: set<Id>) {
    && s.up && !s.closing && s.switching == {} && s.turns == turns && s.retryTimers == timers && s.used == used
    && s.tables.receipts.Keys == commands
    && Latest(s.tables) && StoredAs(s.tables.sessions["s"].snapshot, run, known)
    && s.running == (if run.Some? then map["s" := run.value] else map[])
    && s.live == (if run.Some? then map["s" := Live(s.tables.sessions["s"].snapshot, [])] else map[])
  }

  predicate StoredAs(value: HostSession, run: Option<Id>, known: bool) {
    && value.session.id == "s" && value.session.harness == "codex"
    && (value.session.providerSessionId.Some? <==> known)
    && (value.status.Running? <==> run.Some?)
    && (run.Some? ==> value.runId == run)
  }

  /** The session is stored, and the log holds nothing after its revision. */
  ghost predicate Latest(tables: Tables) {
    && "s" in tables.sessions
    && forall r :: ("s", r) in tables.events ==> r <= tables.sessions["s"].snapshot.revision
  }

  /** A save of the session, whatever becomes of the memory. */
  ghost predicate Stores(s: Host, t: Host, run: Option<Id>, known: bool) {
    && Latest(t.tables) && StoredAs(t.tables.sessions["s"].snapshot, run, known)
    && t.tables.receipts == s.tables.receipts
    && t == s.(tables := t.tables, history := t.history, accepted := t.accepted)
  }

  lemma SaveStores(s: Host, input: HostSession, payload: Payload, run: Option<Id>, known: bool)
    requires StoredAs(input, run, known) && forall r :: ("s", r) in s.tables.events ==> r < input.revision
    ensures var t := SaveCommitted(s, input, payload);
            Stores(s, t, run, known) && t.tables.sessions["s"].snapshot == Saving(s.tables, input)
  {
  }

  // ---------------------------------------------------------------- creating the session

  lemma CreateIsAccepted(s: Host)
    requires s == NEW_HOST.(up := true, tables := Tables(map["p" := "/"], map[], map[], map[]), used := {"s"})
    ensures var decided := Decided(NewSession(CREATE, "/", Around("s")), NoEffect);
            && Act(PROVIDER, s, OPENING[2]) == Accepted(s, CREATE, decided, Around("s"))
            && !Rejected(s.tables, CommandInput(CREATE, decided, 0))
  {
    var decided := Decided(NewSession(CREATE, "/", Around("s")), NoEffect);
    assert DecideCreate(s.tables, CREATE, {}, PROVIDER.providers, Around("s")) == Ok(decided);
    RunFlushedOutcomes(PROVIDER, s, CREATE, Around("s"), true);
  }

  lemma Creates(s: Host)
    requires s == NEW_HOST.(up := true, tables := Tables(map["p" := "/"], map[], map[], map[]), used := {"s"})
    ensures At(Act(PROVIDER, s, OPENING[2]), None, false, map[], map[], {"s"}, {"c1"})
  {
    var decided := Decided(NewSession(CREATE, "/", Around("s")), NoEffect);
    var input := CommandInput(CREATE, decided, 0);
    CreateIsAccepted(s);
    AcceptedIsUpdate(s, CREATE, decided, Around("s"));
    SaveStores(s, input, CommandPayload(CREATE), None, false);
  }

  lemma OpensSession()
    ensures At(Exec(PROVIDER, NEW_HOST, OPENING[..3]), None, false, map[], map[], {"s"}, {"c1"})
  {
    var ready := Step(PROVIDER, NEW_HOST, DoReady({}));
    assert ready == NEW_HOST.(up := true);
    var registered := Step(PROVIDER, ready, OPENING[1]);
    assert registered == ready.(tables := ready.tables.(projects := map["p" := "/"]));
    assert OPENING[..3][..2] == OPENING[..2] && OPENING[..2][..1] == OPENING[..1];
    assert OPENING[..1][..0] == [];
    assert Exec(PROVIDER, NEW_HOST, OPENING[..1]) == ready;
    assert Exec(PROVIDER, NEW_HOST, OPENING[..2]) == registered;
    Creates(Draw(registered, OPENING[2]));
  }

  // ---------------------------------------------------------------- sending prompts

  function Launched(value: HostSession, commandId: Id, uuid: Id): Decided {
    Decided(StartTurn(value, SendAs(commandId), [], None, Around(uuid)), Launch(uuid))
  }

  lemma DecidesToLaunch(value: HostSession, commandId: Id, uuid: Id, known: bool)
    requires StoredAs(value, None, known)
    ensures DecideExisting(value, SendAs(commandId), {}, PROVIDER.providers, Around(uuid))
            == Ok(Launched(value, commandId, uuid))
    ensures var input := CommandInput(SendAs(commandId), Launched(value, commandId, uuid), 0);
            StoredAs(input, Some(uuid), known) && input.revision == value.revision + 1
  {
  }

  lemma SendIsAccepted(s: Host, commandId: Id, uuid: Id, known: bool)
    requires Latest(s.tables) && StoredAs(s.tables.sessions["s"].snapshot, None, known)
    requires s.switching == {} && !s.closing && commandId !in s.tables.receipts && s.live == map[]
    ensures Act(PROVIDER, s, DoCommand(SendAs(commandId), Around(uuid), true, true))
            == Accepted(s, SendAs(commandId), Launched(s.tables.sessions["s"].snapshot, commandId, uuid), Around(uuid))
  {
    DecidesToLaunch(s.tables.sessions["s"].snapshot, commandId, uuid, known);
    RunFlushedOutcomes(PROVIDER, s, SendAs(commandId), Around(uuid), true);
    assert Prepared(s, SendAs(commandId), Around(uuid), true) == s;
  }

  /** A save of the session that begins a run, with the receipt of its command. */
  lemma BeginsRun(s: Host, input: HostSession, commandId: Id, uuid: Id, known: bool, row: ReceiptRow)
    requires Latest(s.tables) && StoredAs(input, Some(uuid), known) && s.live == map[]
    requires input.revision == s.tables.sessions["s"].snapshot.revision + 1
    ensures var payload := CommandPayload(SendAs(commandId));
            var t := WithReceipt(HostModel.Begin(SaveCommitted(s, input, payload), Saving(s.tables, input), uuid),
                                 commandId, row);
            Begun(s, t, commandId, uuid, known)
  {
    SaveStores(s, input, CommandPayload(SendAs(commandId)), Some(uuid), known);
  }

  ghost predicate Begun(s: Host, t: Host, commandId: Id, uuid: Id, known: bool) {
    && Latest(t.tables) && StoredAs(t.tables.sessions["s"].snapshot, Some(uuid), known)
    && t.tables.receipts.Keys == s.tables.receipts.Keys + {commandId}
    && t == s.(tables := t.tables, history := t.history, accepted := t.accepted,
               running := s.running["s" := uuid], live := map["s" := Live(t.tables.sessions["s"].snapshot, [])],
               turns := s.turns[uuid := Turn("s", Queued, false, false)])
  }

  lemma LaunchShows(s: Host, commandId: Id, uuid: Id, known: bool)
    requires Latest(s.tables) && StoredAs(s.tables.sessions["s"].snapshot, None, known) && s.live == map[]
    ensures var decided := Launched(s.tables.sessions["s"].snapshot, commandId, uuid);
            Begun(s, Accepted(s, SendAs(commandId), decided, Around(uuid)), commandId, uuid, known)
  {
    var decided := Launched(s.tables.sessions["s"].snapshot, commandId, uuid);
    var input := CommandInput(SendAs(commandId), decided, 0);
    DecidesToLaunch(s.tables.sessions["s"].snapshot, commandId, uuid, known);
    BeginsRun(s, input, commandId, uuid, known, ReceiptOf(SendAs(commandId), input));
    AcceptedIsLaunch(s, SendAs(commandId), decided, Around(uuid), uuid);
    SameBegun(s, WithReceipt(HostModel.Begin(SaveCommitted(s, input, CommandPayload(SendAs(commandId))),
                                             Saving(s.tables, input), uuid),
                             commandId, ReceiptOf(SendAs(commandId), input)),
              Accepted(s, SendAs(commandId), decided, Around(uuid)), commandId, uuid, known);
  }

  lemma SameBegun(s: Host, t: Host, other: Host, commandId: Id, uuid: Id, known: bool)
    requires Begun(s, t, commandId, uuid, known) && other == t
    ensures Begun(s, other, commandId, uuid, known)
  {
  }

  lemma Launches(s: Host, commandId: Id, uuid: Id, known: bool, turns: map<Id, Turn>, timers: map<Id, Id>,
                 used: set<Id>, commands: set<Id>)
    requires At(s, None, known, turns, timers, used, commands) && commandId !in commands && uuid !in used
    ensures At(Step(PROVIDER, s, DoCommand(SendAs(commandId), Around(uuid), true, true)), Some(uuid), known,
               turns[uuid := Turn("s", Queued, false, false)], timers, used + {uuid}, commands + {commandId})
  {
    var d := Draw(s, DoCommand(SendAs(commandId), Around(uuid), true, true));
    SendIsAccepted(d, commandId, uuid, known);
    LaunchShows(d, commandId, uuid, known);
  }

  // ---------------------------------------------------------------- events

  function Told(value: HostSession, event: HarnessEvent): HostSession {
    value.(session := Heard(value.session, event))
  }

  /** An event that is not batched is written at once. */
  lemma EventIsWritten(s: Host, event: HarnessEvent, run: Id, known: bool, after: bool, turns: map<Id, Turn>,
                       used: set<Id>, commands: set<Id>)
    requires At(s, Some(run), known, turns, map[], used, commands) && event.kind !in BATCHED
    requires StoredAs(Told(s.tables.sessions["s"].snapshot, event), Some(run), after)
    ensures var t := ReceiveEvent(PROVIDER, s, "s", run, event, 0, true);
            && At(t, Some(run), after, turns, map[], used, commands)
            && t.tables.sessions["s"].snapshot.session == Heard(s.tables.sessions["s"].snapshot.session, event)
  {
    var value := s.tables.sessions["s"].snapshot;
    var heard := Accept(PROVIDER, s, "s", event);
    EventIsAccepted(s, value, event, run, known);
    AcceptShows(s, value, event);
    AcceptedIsWritten(heard, Told(value, event), event, run, after);
    WrittenIsAt(s, heard, ScheduledFlush(heard, "s", 0, true), run, known, after, turns, used, commands);
  }

  lemma WrittenIsAt(s: Host, heard: Host, t: Host, run: Id, known: bool, after: bool, turns: map<Id, Turn>,
                    used: set<Id>, commands: set<Id>)
    requires At(s, Some(run), known, turns, map[], used, commands)
    requires heard == s.(live := heard.live, accepted := heard.accepted)
    requires Stores(heard, t.(live := heard.live), Some(run), after)
    requires t.live == map["s" := Live(t.tables.sessions["s"].snapshot, [])]
    ensures At(t, Some(run), after, turns, map[], used, commands)
  {
  }

  lemma EventIsAccepted(s: Host, value: HostSession, event: HarnessEvent, run: Id, known: bool)
    requires "s" in s.live && s.live["s"] == Live(value, []) && StoredAs(value, Some(run), known)
    requires event.kind !in BATCHED
    ensures ReceiveEvent(PROVIDER, s, "s", run, event, 0, true)
            == ScheduledFlush(Accept(PROVIDER, s, "s", event), "s", 0, true)
  {
  }

  lemma AcceptShows(s: Host, value: HostSession, event: HarnessEvent)
    requires s.live == map["s" := Live(value, [])]
    ensures var t := Accept(PROVIDER, s, "s", event);
            && t.live == map["s" := Live(Told(value, event), [event])]
            && t == s.(live := t.live, accepted := t.accepted)
  {
    assert [] + [event] == [event];
  }

  lemma AcceptedIsWritten(s: Host, value: HostSession, event: HarnessEvent, run: Id, known: bool)
    requires Latest(s.tables) && "s" in s.live && s.live["s"] == Live(value, [event]) && StoredAs(value, Some(run), known)
    requires value.revision == s.tables.sessions["s"].snapshot.revision
    ensures var t := ScheduledFlush(s, "s", 0, true);
            && Stores(s, t.(live := s.live), Some(run), known)
            && t.tables.sessions["s"].snapshot.session == value.session
            && t.live == s.live["s" := Live(t.tables.sessions["s"].snapshot, [])]
  {
    var input := Next(value, 0);
    SaveStores(s, input, EventsPayload([event]), Some(run), known);
    assert ScheduledFlush(s, "s", 0, true)
        == SaveCommitted(s, input, EventsPayload([event])).(live := s.live["s" := Live(Saving(s.tables, input), [])]);
  }

  // ---------------------------------------------------------------- runs

  function Upto(actions: seq<Action>, k: nat): Host
    requires k <= |actions|
  {
    Exec(PROVIDER, NEW_HOST, actions[..k])
  }

  lemma UptoNext(actions: seq<Action>, k: nat)
    requires k < |actions|
    ensures Upto(actions, k + 1) == Step(PROVIDER, Upto(actions, k), actions[k])
  {
    assert actions[..k + 1][..k] == actions[..k];
  }

  lemma Undrawn(s: Host, a: Action)
    requires Drawn(a).None? && s.up && !a.DoReady? && !a.DoRecover?
    ensures Step(PROVIDER, s, a) == Act(PROVIDER, s, a)
  {
    assert Draw(s, a) == s;
  }

  const FIRST: set<Id> := {"s", "first"}
  const SENT: set<Id> := {"c1", "c2"}

  function FirstIn(phase: Phase): map<Id, Turn> {
    map["first" := Turn("s", phase, false, false)]
  }

  lemma FirstNames()
    ensures {"s"} + {"first"} == FIRST && {"c1"} + {"c2"} == SENT
    ensures map[]["first" := Turn("s", Queued, false, false)] == FirstIn(Queued)
  {
  }

  lemma FirstLaunches(s: Host)
    requires At(s, None, false, map[], map[], {"s"}, {"c1"})
    ensures At(Step(PROVIDER, s, OPENING[3]), Some("first"), false, FirstIn(Queued), map[], FIRST, SENT)
  {
    assert OPENING[3] == DoCommand(SendAs("c2"), Around("first"), true, true);
    Launches(s, "c2", "first", false, map[], map[], {"s"}, {"c1"});
    FirstNames();
  }

  /** Every run that begins with the opening has queued its first turn by then. */
  lemma Opens(actions: seq<Action>)
    requires |actions| >= 4 && actions[..4] == OPENING
    ensures At(Upto(actions, 4), Some("first"), false, FirstIn(Queued), map[], FIRST, SENT)
  {
    assert actions[..3] == OPENING[..3] && actions[3] == actions[..4][3];
    OpensSession();
    UptoNext(actions, 3);
    FirstLaunches(Upto(actions, 3));
  }

  lemma FirstSends(s: Host)
    requires At(s, Some("first"), false, FirstIn(Queued), map[], FIRST, SENT)
    ensures At(Step(PROVIDER, s, DoStartSending("first", None)), Some("first"), false, FirstIn(Sending), map[], FIRST, SENT)
  {
    Undrawn(s, DoStartSending("first", None));
  }
}
