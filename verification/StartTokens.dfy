/**
 Starting, killing and closing provider processes. A start awaits three times before it
 spawns; a token per session says which attempt is the current one. One step is what runs
 between two awaits.
 */
module StartTokens {
  import opened Seqs
  import opened Wrappers

  type Id = string
  type Attempt = nat

  datatype Phase = Authorizing | Stopping | Launching | Spawning

  datatype Start = Start(id: Id, phase: Phase)

  /** The maps of the backend; a child is known by the attempt that spawned it. `cancelled` and
      `spawned` record the past: the attempts that were superseded, killed or overtaken by close
      before they spawned, and those that spawned. */
  datatype Backend = Backend(
    starts: map<Id, Attempt>,
    children: map<Id, Attempt>,
    closing: bool,
    active: map<Attempt, Start>,
    cancelled: set<Attempt>,
    spawned: seq<Attempt>,
    begun: set<Attempt>)

  const NEW_BACKEND := Backend(map[], map[], false, map[], {}, [], {})

  datatype Action =
    | Begin(id: Id, attempt: Attempt, valid: bool)
    | Authorized(attempt: Attempt, ok: bool)
    | Stopped(attempt: Attempt, ok: bool)
    | Launched(attempt: Attempt, ok: bool)
    | Returned(attempt: Attempt)
    | ChildClosed(child: Attempt)
    | Kill(id: Id)
    | Close

  /** The attempts for a session that have not spawned. */
  function Waiting(b: Backend, id: Id): set<Attempt> {
    set a | a in b.active && b.active[a].id == id && !b.active[a].phase.Spawning?
  }

  function AllWaiting(b: Backend): set<Attempt> {
    set a | a in b.active && !b.active[a].phase.Spawning?
  }

  function IsCurrent(b: Backend, a: Attempt): bool
    requires a in b.active
  {
    b.active[a].id in b.starts && b.starts[b.active[a].id] == a
  }

  /** The `finally` of a start: the token goes, if it is still this attempt's. */
  function End(b: Backend, a: Attempt): Backend
    requires a in b.active
  {
    b.(starts := if IsCurrent(b, a) then b.starts - {b.active[a].id} else b.starts, active := b.active - {a})
  }

  function Advance(b: Backend, a: Attempt, phase: Phase): Backend
    requires a in b.active
  {
    b.(active := b.active[a := b.active[a].(phase := phase)])
  }

  function BeginStart(b: Backend, id: Id, a: Attempt, valid: bool): Backend {
    var begun := b.(starts := b.starts[id := a], active := b.active[a := Start(id, Authorizing)],
                    cancelled := b.cancelled + Waiting(b, id), begun := b.begun + {a});
    if b.closing || !valid then End(begun, a) else begun
  }

  function AfterAuthorized(b: Backend, a: Attempt, ok: bool): Backend
    requires a in b.active
  {
    if !ok || !IsCurrent(b, a) then End(b, a)
    else Advance(b.(children := b.children - {b.active[a].id}), a, Stopping)
  }

  function AfterStopped(b: Backend, a: Attempt, ok: bool): Backend
    requires a in b.active
  {
    if b.closing || !IsCurrent(b, a) || !ok then End(b, a) else Advance(b, a, Launching)
  }

  function AfterLaunched(b: Backend, a: Attempt, ok: bool): Backend
    requires a in b.active
  {
    if !ok || b.closing || !IsCurrent(b, a) then End(b, a)
    else Advance(b.(children := b.children[b.active[a].id := a], spawned := b.spawned + [a]), a, Spawning)
  }

  function KillChild(b: Backend, id: Id): Backend {
    b.(starts := b.starts - {id}, children := b.children - {id}, cancelled := b.cancelled + Waiting(b, id))
  }

  function Shut(b: Backend): Backend {
    b.(closing := true, starts := map[], children := map[], cancelled := b.cancelled + AllWaiting(b))
  }

  function Step(b: Backend, action: Action): Backend {
    match action
    case Begin(id, a, valid) => if a in b.begun then b else BeginStart(b, id, a, valid)
    case Authorized(a, ok) =>
      if a in b.active && b.active[a].phase.Authorizing? then AfterAuthorized(b, a, ok) else b
    case Stopped(a, ok) => if a in b.active && b.active[a].phase.Stopping? then AfterStopped(b, a, ok) else b
    case Launched(a, ok) => if a in b.active && b.active[a].phase.Launching? then AfterLaunched(b, a, ok) else b
    case Returned(a) => if a in b.active && b.active[a].phase.Spawning? then End(b, a) else b
    case ChildClosed(child) =>
      b.(children := map id | id in b.children && b.children[id] != child :: b.children[id])
    case Kill(id) => KillChild(b, id)
    case Close => Shut(b)
  }

  function Run(actions: seq<Action>): Backend {
    if actions == [] then NEW_BACKEND else Step(Run(actions[..|actions| - 1]), actions[|actions| - 1])
  }

  // ---------------------------------------------------------------- what every interleaving keeps

  /** An attempt that waits holds the token of its session exactly when nothing cancelled it. */
  ghost predicate TokensOk(b: Backend) {
    && (forall a :: a in b.active && !b.active[a].phase.Spawning? ==> (IsCurrent(b, a) <==> a !in b.cancelled))
    && (forall id :: id in b.starts ==> b.starts[id] in b.active && b.active[b.starts[id]].id == id)
  }

  /** Once the current attempt has stopped the old child, no child is tracked. */
  ghost predicate ChildrenOk(b: Backend) {
    && (forall a :: a in b.active && IsCurrent(b, a) && b.active[a].phase in {Stopping, Launching}
          ==> b.active[a].id !in b.children)
    && (forall id :: id in b.children ==> b.children[id] in b.spawned)
    && (b.closing ==> b.children == map[] && forall a :: a in b.active && !b.active[a].phase.Spawning? ==> a in b.cancelled)
  }

  ghost predicate SpawnsOk(b: Backend) {
    && (forall i, j :: 0 <= i < j < |b.spawned| ==> b.spawned[i] != b.spawned[j])
    && (forall a :: a in b.spawned ==> a !in b.cancelled && a in b.begun)
    && (forall a :: a in b.active ==> a in b.begun && (a in b.spawned <==> b.active[a].phase.Spawning?))
    && b.cancelled <= b.begun
  }

  ghost predicate Inv(b: Backend) {
    TokensOk(b) && ChildrenOk(b) && SpawnsOk(b)
  }

  lemma BeginKeeps(b: Backend, id: Id, a: Attempt, valid: bool)
    requires Inv(b) && a !in b.begun
    ensures Inv(BeginStart(b, id, a, valid))
  {
  }

  lemma AuthorizedKeeps(b: Backend, a: Attempt, ok: bool)
    requires Inv(b) && a in b.active && b.active[a].phase.Authorizing?
    ensures Inv(AfterAuthorized(b, a, ok))
  {
  }

  lemma StoppedKeeps(b: Backend, a: Attempt, ok: bool)
    requires Inv(b) && a in b.active && b.active[a].phase.Stopping?
    ensures Inv(AfterStopped(b, a, ok))
  {
  }

  lemma LaunchedKeeps(b: Backend, a: Attempt, ok: bool)
    requires Inv(b) && a in b.active && b.active[a].phase.Launching?
    ensures Inv(AfterLaunched(b, a, ok))
  {
  }

  lemma EndKeeps(b: Backend, a: Attempt)
    requires Inv(b) && a in b.active
    ensures Inv(End(b, a))
  {
  }

  lemma OthersKeep(b: Backend, action: Action)
    requires Inv(b) && (action.ChildClosed? || action.Kill? || action.Close?)
    ensures Inv(Step(b, action))
  {
  }

  lemma StepKeeps(b: Backend, action: Action)
    requires Inv(b)
    ensures Inv(Step(b, action))
  {
    match action
    case Begin(id, a, valid) => if a !in b.begun { BeginKeeps(b, id, a, valid); }
    case Authorized(a, ok) => if a in b.active && b.active[a].phase.Authorizing? { AuthorizedKeeps(b, a, ok); }
    case Stopped(a, ok) => if a in b.active && b.active[a].phase.Stopping? { StoppedKeeps(b, a, ok); }
    case Launched(a, ok) => if a in b.active && b.active[a].phase.Launching? { LaunchedKeeps(b, a, ok); }
    case Returned(a) => if a in b.active && b.active[a].phase.Spawning? { EndKeeps(b, a); }
    case _ => OthersKeep(b, action);
  }

  lemma {:induction false} RunKeeps(actions: seq<Action>)
    ensures Inv(Run(actions))
  {
    if actions != [] {
      RunKeeps(actions[..|actions| - 1]);
      StepKeeps(Run(actions[..|actions| - 1]), actions[|actions| - 1]);
    }
  }

  /** In every interleaving a spawn never overwrites a tracked child, and happens exactly for an
      attempt that was not superseded, killed or overtaken by close before its last check. */
  lemma SpawnsAreExact(actions: seq<Action>, a: Attempt, ok: bool)
    requires a in Run(actions).active && Run(actions).active[a].phase.Launching?
    ensures var b, t := Run(actions), Step(Run(actions), Launched(a, ok));
            && (t.spawned != b.spawned <==> ok && a !in b.cancelled)
            && (t.spawned != b.spawned ==>
                  && b.active[a].id !in b.children && !b.closing
                  && t.children == b.children[b.active[a].id := a])
  {
    RunKeeps(actions);
  }

  /** A cancelled attempt never spawns, in whatever follows. */
  lemma CancelledNeverSpawn(actions: seq<Action>, a: Attempt)
    ensures a in Run(actions).cancelled ==> a !in Run(actions).spawned
  {
    RunKeeps(actions);
  }

  lemma StepKeepsCancelled(b: Backend, action: Action)
    ensures b.cancelled <= Step(b, action).cancelled
  {
  }

  lemma RunOneMore(actions: seq<Action>, action: Action)
    ensures Run(actions + [action]) == Step(Run(actions), action)
  {
    Appended(actions, action);
  }

  lemma {:induction false} CancelledForGood(actions: seq<Action>, more: seq<Action>, a: Attempt)
    requires a in Run(actions).cancelled
    ensures a in Run(actions + more).cancelled
  {
    if more == [] {
      assert actions + more == actions;
    } else {
      var front, last := more[..|more| - 1], more[|more| - 1];
      SplitLast(more);
      Regroup(actions, front, [last]);
      CancelledForGood(actions, front, a);
      RunOneMore(actions + front, last);
      StepKeepsCancelled(Run(actions + front), last);
    }
  }

  lemma ClosedStepSpawnsNothing(b: Backend, action: Action)
    requires Inv(b) && b.closing
    ensures Step(b, action).closing && Step(b, action).spawned == b.spawned && Step(b, action).children == map[]
  {
  }

  /** Nothing is spawned once close has begun, and no child stays tracked. */
  lemma {:induction false} NothingSpawnsAfterClose(actions: seq<Action>, more: seq<Action>)
    requires Run(actions).closing
    ensures var t := Run(actions + more);
            t.closing && t.spawned == Run(actions).spawned && t.children == map[]
  {
    if more == [] {
      assert actions + more == actions;
      RunKeeps(actions);
    } else {
      var front, last := more[..|more| - 1], more[|more| - 1];
      SplitLast(more);
      Regroup(actions, front, [last]);
      NothingSpawnsAfterClose(actions, front);
      RunOneMore(actions + front, last);
      RunKeeps(actions + front);
      ClosedStepSpawnsNothing(Run(actions + front), last);
    }
  }

  // ---------------------------------------------------------------- the program

  class ChildBackend {
    var starts: map<Id, Attempt>
    var children: map<Id, Attempt>
    var closing: bool
    /** The suspended calls of `start`. */
    var active: map<Attempt, Start>

    ghost var cancelled: set<Attempt>
    ghost var spawned: seq<Attempt>
    ghost var begun: set<Attempt>

    ghost function View(): Backend
      reads this
    {
      Backend(starts, children, closing, active, cancelled, spawned, begun)
    }

    constructor ()
      ensures View() == NEW_BACKEND
    {
      starts, children, closing, active := map[], map[], false, map[];
      cancelled, spawned, begun := {}, [], {};
    }

    method Finally(a: Attempt)
      requires a in active
      modifies this`starts, this`active
      ensures View() == End(old(View()), a)
    {
      var id := active[a].id;
      if id in starts && starts[id] == a { starts := starts - {id}; }
      active := active - {a};
    }

    /** A start up to its first await. */
    method Begin(id: Id, a: Attempt, valid: bool)
      requires a !in begun
      modifies this
      ensures View() == Step(old(View()), Action.Begin(id, a, valid))
    {
      cancelled := cancelled + Waiting(View(), id);
      begun := begun + {a};
      starts := starts[id := a];
      active := active[a := Start(id, Authorizing)];
      if closing || !valid { Finally(a); }
    }

    /** The synchronous head of stopping a child: it is no longer tracked. */
    method StopChild(id: Id)
      modifies this`children
      ensures View() == old(View()).(children := old(children) - {id})
    {
      children := children - {id};
    }

    method ResumeAuthorized(a: Attempt, ok: bool)
      modifies this
      ensures View() == Step(old(View()), Authorized(a, ok))
    {
      if a !in active || !active[a].phase.Authorizing? { return; }
      var id := active[a].id;
      if !ok || id !in starts || starts[id] != a { Finally(a); return; }
      StopChild(id);
      active := active[a := Start(id, Stopping)];
    }

    method ResumeStopped(a: Attempt, ok: bool)
      modifies this
      ensures View() == Step(old(View()), Stopped(a, ok))
    {
      if a !in active || !active[a].phase.Stopping? { return; }
      var id := active[a].id;
      if closing || id !in starts || starts[id] != a || !ok { Finally(a); return; }
      active := active[a := Start(id, Launching)];
    }

    method ResumeLaunched(a: Attempt, ok: bool)
      modifies this
      ensures View() == Step(old(View()), Launched(a, ok))
    {
      if a !in active || !active[a].phase.Launching? { return; }
      var id := active[a].id;
      if !ok || closing || id !in starts || starts[id] != a { Finally(a); return; }
      children := children[id := a];
      spawned := spawned + [a];
      active := active[a := Start(id, Spawning)];
    }

    method ResumeReturned(a: Attempt)
      modifies this
      ensures View() == Step(old(View()), Returned(a))
    {
      if a in active && active[a].phase.Spawning? { Finally(a); }
    }

    method Kill(id: Id)
      modifies this
      ensures View() == Step(old(View()), Action.Kill(id))
    {
      cancelled := cancelled + Waiting(View(), id);
      starts := starts - {id};
      StopChild(id);
    }

    /** The synchronous part of closing: no start goes on, and no child stays tracked. */
    method Close()
      modifies this
      ensures View() == Step(old(View()), Action.Close)
    {
      closing := true;
      cancelled := cancelled + AllWaiting(View());
      starts := map[];
      var ids := children.Keys;
      while ids != {}
        invariant children.Keys == ids
        invariant View() == Shut(old(View())).(children := children)
      {
        var id :| id in ids;
        starts := starts - {id};
        StopChild(id);
        ids := ids - {id};
      }
      assert children == map[];
    }
  }
}
