/** What a restart makes of the turns that were running when the process went down. */
module HostRestart {
  import opened Wrappers
  import opened Protocol
  import opened Sessions
  import opened Tables
  import opened HostModel
  import opened HostInvariants
  import opened HostRuns
  import opened HostStored

  /** One session of the recovery loop: when it is recovered, and the id drawn for its notice. */
  datatype Pass = Pass(id: Id, now: Time, uuid: Id)

  function Recovery(pass: Pass): Action {
    DoRecover(pass.id, pass.now, pass.uuid, true)
  }

  function Recoveries(passes: seq<Pass>): (actions: seq<Action>)
    ensures |actions| == |passes| && forall i :: 0 <= i < |passes| ==> actions[i] == Recovery(passes[i])
  {
    seq(|passes|, i requires 0 <= i < |passes| => Recovery(passes[i]))
  }

  /** A running turn has become an interrupted one with nothing open, of the same session at its provider. */
  ghost predicate Interrupts(before: Row, after: Row) {
    && after.snapshot.status == Interrupted && Closed(after.snapshot)
    && after.snapshot.session.providerSessionId == before.snapshot.session.providerSessionId
  }

  /** Every row is as before, or its running turn was interrupted. */
  ghost predicate OnlyInterrupted(before: map<Id, Row>, after: map<Id, Row>) {
    && after.Keys == before.Keys
    && forall id :: id in before && after[id] != before[id] ==> IsRunning(before, id) && Interrupts(before[id], after[id])
  }

  lemma OneRowRecovers(s: Host, pass: Pass)
    requires Durable(s.tables, s.history)
    ensures var rows := Recover(s, pass.id, pass.now, pass.uuid, true).tables.sessions;
            OnlyInterrupted(s.tables.sessions, rows) && !IsRunning(rows, pass.id)
            && forall id :: IsRunning(rows, id) ==> IsRunning(s.tables.sessions, id)
  {
    var t := Recover(s, pass.id, pass.now, pass.uuid, true);
    if IsRunning(s.tables.sessions, pass.id) {
      RecoveryInterrupts(s, pass.id, pass.now, pass.uuid);
      RecoveryKeepsProvider(s, pass);
      OneRowInterrupted(s.tables.sessions, pass.id, t.tables.sessions[pass.id]);
    } else {
      assert t == s;
    }
  }

  lemma RecoveryKeepsProvider(s: Host, pass: Pass)
    requires Durable(s.tables, s.history) && IsRunning(s.tables.sessions, pass.id)
    ensures var rows := Recover(s, pass.id, pass.now, pass.uuid, true).tables.sessions;
            && pass.id in rows
            && rows[pass.id].snapshot.session.providerSessionId
               == s.tables.sessions[pass.id].snapshot.session.providerSessionId
  {
    RecoverSaves(s, pass.id, pass.now, pass.uuid);
    SavedRow(s, RecoveredInput(s.tables.sessions[pass.id].snapshot, pass.now, pass.uuid), InterruptedPayload);
  }

  lemma OneRowInterrupted(before: map<Id, Row>, id: Id, row: Row)
    requires IsRunning(before, id) && Interrupts(before[id], row)
    ensures OnlyInterrupted(before, before[id := row]) && !IsRunning(before[id := row], id)
    ensures forall other :: IsRunning(before[id := row], other) ==> IsRunning(before, other)
  {
  }

  lemma InterruptedInTurn(before: map<Id, Row>, middle: map<Id, Row>, after: map<Id, Row>)
    requires OnlyInterrupted(before, middle) && OnlyInterrupted(middle, after)
    ensures OnlyInterrupted(before, after)
  {
  }

  ghost predicate Fresh(passes: seq<Pass>, used: set<Id>) {
    && (forall i :: 0 <= i < |passes| ==> passes[i].uuid !in used)
    && (forall i, j :: 0 <= i < j < |passes| ==> passes[i].uuid != passes[j].uuid)
  }

  function Uuids(passes: seq<Pass>): set<Id> {
    set i | 0 <= i < |passes| :: passes[i].uuid
  }

  lemma RecoveryStep(c: Config, t: Host, pass: Pass)
    requires !t.up && pass.uuid !in t.used && Durable(t.tables, t.history)
    ensures var next := Step(c, t, Recovery(pass));
            && OnlyInterrupted(t.tables.sessions, next.tables.sessions)
            && !IsRunning(next.tables.sessions, pass.id)
            && (forall id :: IsRunning(next.tables.sessions, id) ==> IsRunning(t.tables.sessions, id))
            && !next.up && next.running == t.running && next.used == t.used + {pass.uuid}
  {
    OneRowRecovers(Draw(t, Recovery(pass)), pass);
  }

  /** The host after some passes of the recovery loop. */
  ghost predicate Recovered(s: Host, t: Host, passes: seq<Pass>) {
    && !t.up && t.running == s.running && t.used == s.used + Uuids(passes)
    && OnlyInterrupted(s.tables.sessions, t.tables.sessions)
    && (forall i :: 0 <= i < |passes| ==> !IsRunning(t.tables.sessions, passes[i].id))
  }

  lemma OneMorePass(c: Config, s: Host, t: Host, passes: seq<Pass>, pass: Pass)
    requires Recovered(s, t, passes) && pass.uuid !in t.used && Durable(t.tables, t.history)
    ensures Recovered(s, Step(c, t, Recovery(pass)), passes + [pass])
  {
    var next := Step(c, t, Recovery(pass));
    RecoveryStep(c, t, pass);
    InterruptedInTurn(s.tables.sessions, t.tables.sessions, next.tables.sessions);
    MoreUuids(passes, pass);
    MoreIdle(t.tables.sessions, next.tables.sessions, passes, pass);
  }

  lemma MoreIdle(rows: map<Id, Row>, after: map<Id, Row>, passes: seq<Pass>, pass: Pass)
    requires forall i :: 0 <= i < |passes| ==> !IsRunning(rows, passes[i].id)
    requires !IsRunning(after, pass.id) && forall id :: IsRunning(after, id) ==> IsRunning(rows, id)
    ensures forall i :: 0 <= i < |passes + [pass]| ==> !IsRunning(after, (passes + [pass])[i].id)
  {
  }

  lemma MoreUuids(passes: seq<Pass>, pass: Pass)
    ensures Uuids(passes + [pass]) == Uuids(passes) + {pass.uuid}
  {
    var all := passes + [pass];
    forall u | u in Uuids(passes) + {pass.uuid} ensures u in Uuids(all) {
      if u == pass.uuid {
        assert all[|passes|].uuid == u;
      } else {
        var i :| 0 <= i < |passes| && passes[i].uuid == u;
        assert all[i].uuid == u;
      }
    }
  }

  lemma {:induction false} PassesRecover(c: Config, s: Host, passes: seq<Pass>)
    requires StoreInv(c, s) && KeepsIdentity(c) && !s.up && Fresh(passes, s.used)
    ensures StoreInv(c, Exec(c, s, Recoveries(passes))) && Recovered(s, Exec(c, s, Recoveries(passes)), passes)
  {
    if passes != [] {
      var n := |passes| - 1;
      PassesRecover(c, s, passes[..n]);
      LastPass(c, s, passes);
    }
  }

  lemma LastPass(c: Config, s: Host, passes: seq<Pass>)
    requires passes != [] && KeepsIdentity(c) && Fresh(passes, s.used)
    requires var t := Exec(c, s, Recoveries(passes[..|passes| - 1]));
             StoreInv(c, t) && Recovered(s, t, passes[..|passes| - 1])
    ensures StoreInv(c, Exec(c, s, Recoveries(passes))) && Recovered(s, Exec(c, s, Recoveries(passes)), passes)
  {
    var n := |passes| - 1;
    var t := Exec(c, s, Recoveries(passes[..n]));
    assert passes == passes[..n] + [passes[n]];
    LastRecovery(c, s, passes);
    LastIsFresh(passes, s.used);
    RecoversOneMore(c, s, t, passes[..n], passes[n]);
  }

  lemma RecoversOneMore(c: Config, s: Host, t: Host, passes: seq<Pass>, pass: Pass)
    requires StoreInv(c, t) && KeepsIdentity(c) && Recovered(s, t, passes) && pass.uuid !in s.used + Uuids(passes)
    ensures StoreInv(c, Step(c, t, Recovery(pass))) && Recovered(s, Step(c, t, Recovery(pass)), passes + [pass])
  {
    StepKeepsStore(c, t, Recovery(pass));
    OneMorePass(c, s, t, passes, pass);
  }

  lemma LastIsFresh(passes: seq<Pass>, used: set<Id>)
    requires passes != [] && Fresh(passes, used)
    ensures passes[|passes| - 1].uuid !in used + Uuids(passes[..|passes| - 1])
  {
  }

  lemma LastRecovery(c: Config, s: Host, passes: seq<Pass>)
    requires passes != []
    ensures var n := |passes| - 1;
            Exec(c, s, Recoveries(passes)) == Step(c, Exec(c, s, Recoveries(passes[..n])), Recovery(passes[n]))
  {
    assert Recoveries(passes)[..|passes| - 1] == Recoveries(passes[..|passes| - 1]);
  }

  /** What a restart makes of the rows. */
  ghost predicate Restarted(before: map<Id, Row>, after: map<Id, Row>) {
    && after.Keys == before.Keys
    && forall id :: id in before ==>
         if IsRunning(before, id) then Interrupts(before[id], after[id]) else after[id] == before[id]
  }

  lemma InterruptedIsRestarted(before: map<Id, Row>, after: map<Id, Row>)
    requires OnlyInterrupted(before, after) && forall id :: !IsRunning(after, id)
    ensures Restarted(before, after)
  {
    forall id | IsRunning(before, id) ensures after[id] != before[id] {
      assert !IsRunning(after, id);
    }
  }

  lemma AllAreRecovered(s: Host, t: Host, passes: seq<Pass>)
    requires Recovered(s, t, passes)
    requires forall id :: id in s.tables.sessions ==> exists i :: 0 <= i < |passes| && passes[i].id == id
    ensures AllRecovered(t) && Restarted(s.tables.sessions, t.tables.sessions)
  {
    forall id ensures !IsRunning(t.tables.sessions, id) {
      if id in s.tables.sessions {
        var i :| 0 <= i < |passes| && passes[i].id == id;
      }
    }
    InterruptedIsRestarted(s.tables.sessions, t.tables.sessions);
  }

  /** A process that serves requests on these tables, with no run of its own. */
  predicate Serves(t: Host, tables: Tables) {
    t.up && t.running == map[] && t.tables == tables
  }

  /** The rest of the start: it succeeds exactly when every session can be bound. */
  ghost predicate Starts(c: Config, t: Host, before: map<Id, Row>) {
    forall bound: set<Id> ::
      && (Enabled(t, DoReady(bound)) <==> AllBound(before, bound))
      && if AllBound(before, bound) then Serves(Step(c, t, DoReady(bound)), t.tables) else Step(c, t, DoReady(bound)) == t
  }

  lemma ReadyServes(c: Config, t: Host, before: map<Id, Row>)
    requires !t.up && t.running == map[] && AllRecovered(t) && Restarted(before, t.tables.sessions)
    ensures Starts(c, t, before)
  {
    forall bound: set<Id> ensures AllBound(before, bound) <==> AllBound(t.tables.sessions, bound) {
      SameBound(before, t.tables.sessions, bound);
    }
  }

  lemma SameBound(before: map<Id, Row>, after: map<Id, Row>, bound: set<Id>)
    requires Restarted(before, after)
    ensures AllBound(before, bound) <==> AllBound(after, bound)
  {
    assert forall id :: id in before ==>
        after[id].snapshot.session.providerSessionId == before[id].snapshot.session.providerSessionId;
  }

  lemma PassesRestart(c: Config, s: Host, passes: seq<Pass>)
    requires StoreInv(c, s) && SentOnce(s) && KeepsIdentity(c) && !s.up && Fresh(passes, s.used)
    requires forall id :: id in s.tables.sessions ==> exists i :: 0 <= i < |passes| && passes[i].id == id
    ensures var t := Exec(c, s, Recoveries(passes));
            Starts(c, t, s.tables.sessions) && Restarted(s.tables.sessions, t.tables.sessions)
  {
    var t := Exec(c, s, Recoveries(passes));
    PassesRecover(c, s, passes);
    AllAreRecovered(s, t, passes);
    ReadyServes(c, t, s.tables.sessions);
  }

  /** From every reachable state of a process that is down, one recovery of each stored session,
      while the database works, interrupts every turn that was running, with nothing left open, and
      changes no other row. The new process then serves, with no run of its own, if and only if each
      session that has an id at its provider can be bound to it. */
  lemma RestartInterruptsEveryTurn(c: Config, actions: seq<Action>, passes: seq<Pass>)
    requires KeepsIdentity(c) && !Exec(c, NEW_HOST, actions).up
    requires Fresh(passes, Exec(c, NEW_HOST, actions).used)
    requires forall id :: id in Exec(c, NEW_HOST, actions).tables.sessions ==>
               exists i :: 0 <= i < |passes| && passes[i].id == id
    ensures var s := Exec(c, NEW_HOST, actions);
            var t := Exec(c, s, Recoveries(passes));
            && Starts(c, t, s.tables.sessions)
            && Restarted(s.tables.sessions, t.tables.sessions)
  {
    var s := Exec(c, NEW_HOST, actions);
    RunKeepsStore(c, actions);
    RunSendsOnce(c, NEW_HOST, actions);
    PassesRestart(c, s, passes);
  }
}
