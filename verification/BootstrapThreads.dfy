/**
 All threads of the bootstrap at once: operations that reserve an owner, prepare, spawn under the
 spawn gate and finish, and threads that close owners. One step is one critical section of a lock
 or one access to shared state; any thread may take the next one.

 A thread that frees owners captures their handles, cleans them up one by one, and removes each
 whose cleanup returned success: `reserve` does so for all retired owners when the registry is
 full, `retry_binding` for those of a binding, `finish` and closing for one owner.
 */
module BootstrapThreads {
  import opened Wrappers
  import opened BootstrapRegistry
  import Bootstrap

  type Thread = nat

  /** What a thread does after its sweep. */
  datatype Goal = ToReserve(id: Id, binding: Binding) | ToPrepare(handle: Handle) | ToReport

  /** What a thread does next. */
  datatype Control =
    | Sweeping(todo: seq<Handle>, pending: bool, goal: Goal)
    | Cleaning(handle: Handle, todo: seq<Handle>, pending: bool, goal: Goal)
    | Removing(handle: Handle, todo: seq<Handle>, pending: bool, goal: Goal)
    | Waiting(handle: Handle)
    | Claimed(handle: Handle)
    | Checked(handle: Handle)
    | Vacant(handle: Handle)
    | Started(handle: Handle, child: Bootstrap.Asset)
    | Spawned(handle: Handle)
    | Judging(handle: Handle, ok: bool)
    | Retiring(handle: Handle)
    | Done(ok: bool)

  /** `gates` tells which thread holds a spawn gate. `spawned` is a record of every process that was
      ever started and the owner it was started for; no step reads it for a decision. */
  datatype System = System(registry: Registry, threads: map<Thread, Control>, gates: map<Gate, Thread>,
                           spawned: map<Bootstrap.Asset, Handle>)

  const START := System(EMPTY, map[], map[], map[])

  /** The object and the gate of a new owner. */
  datatype Fresh = Fresh(handle: Handle, gate: Gate)

  datatype Move =
    | BeginReserve(thread: Thread, id: Id, binding: Binding, captured: seq<Handle>, made: Fresh)
    | BeginSpawn(thread: Thread, handle: Handle, captured: seq<Handle>)
    | BeginFinish(thread: Thread, handle: Handle, ok: bool)
    | BeginClose(thread: Thread, handle: Handle)
    | Advance(thread: Thread, made: Fresh)
    | CleanUp(thread: Thread, action: Bootstrap.Action)
    | SpawnChild(thread: Thread, child: Option<Bootstrap.Asset>)
    | Operate(handle: Handle, action: Bootstrap.Action)

  // ---------------------------------------------------------------- handles

  function GoalHandles(goal: Goal): set<Handle> {
    if goal.ToPrepare? then {goal.handle} else {}
  }

  function Handles(control: Control): set<Handle> {
    match control
    case Sweeping(todo, _, goal) => (set h | h in todo) + GoalHandles(goal)
    case Cleaning(handle, todo, _, goal) => {handle} + (set h | h in todo) + GoalHandles(goal)
    case Removing(handle, todo, _, goal) => {handle} + (set h | h in todo) + GoalHandles(goal)
    case Done(_) => {}
    case _ => {control.handle}
  }

  /** Threads hold only handles of owners that were made. */
  predicate Known(s: System) {
    forall t :: t in s.threads ==> Handles(s.threads[t]) <= s.registry.objects.Keys
  }

  predicate IsRegistered(r: Registry, h: Handle) {
    h in r.objects && r.objects[h].id in r.owners && r.owners[r.objects[h].id] == h
  }

  function Go(s: System, t: Thread, control: Control): System {
    s.(threads := s.threads[t := control])
  }

  function Owned(s: System, h: Handle, a: Bootstrap.Action): System
    requires h in s.registry.objects
  {
    s.(registry := Act(s.registry, h, a))
  }

  function Release(s: System, h: Handle): System
    requires h in s.registry.objects
  {
    s.(gates := s.gates - {s.registry.objects[h].gate})
  }

  // ---------------------------------------------------------------- one step

  /** The critical section that makes an owner. */
  function Reserved(s: System, t: Thread, id: Id, binding: Binding, made: Fresh): System {
    if ReserveFailure(s.registry, id).Some? then Go(s, t, Done(false))
    else Go(s.(registry := Insert(s.registry, id, binding, made.gate, made.handle)), t, Done(true))
  }

  function Swept(s: System, t: Thread, pending: bool, goal: Goal, made: Fresh): System
    requires GoalHandles(goal) <= s.registry.objects.Keys
  {
    match goal
    case ToReserve(id, binding) => Reserved(s, t, id, binding, made)
    case ToPrepare(h) => Go(s, t, if !pending && CheckStage(s.registry, h) then Waiting(h) else Done(false))
    case ToReport => Go(s, t, Done(!pending))
  }

  /** The next owner of a sweep, unless another thread is cleaning it up. */
  function SweepNext(s: System, t: Thread, h: Handle, todo: seq<Handle>, goal: Goal, pending: bool): System
    requires h in s.registry.objects
  {
    if s.registry.objects[h].owner.closer.Idle?
    then Go(Owned(s, h, Bootstrap.BeginCleanup), t, Cleaning(h, todo, pending, goal))
    else Go(s, t, Sweeping(todo, true, goal))
  }

  function Advanced(s: System, t: Thread, made: Fresh): System
    requires Known(s) && t in s.threads
  {
    var control := s.threads[t];
    assert Handles(control) <= s.registry.objects.Keys;
    match control
    case Sweeping(todo, pending, goal) =>
      if todo == [] then Swept(s, t, pending, goal, made)
      else
        assert todo[0] in Handles(control);
        SweepNext(s, t, todo[0], todo[1..], goal, pending)
    case Removing(h, todo, pending, goal) =>
      Go(s.(registry := Remove(s.registry, h)), t, Sweeping(todo, pending, goal))
    case Waiting(h) =>
      if s.registry.objects[h].gate in s.gates then s
      else Go(s.(gates := s.gates[s.registry.objects[h].gate := t]), t, Claimed(h))
    case Claimed(h) =>
      if CheckStage(s.registry, h) then Go(s, t, Checked(h)) else Go(Release(s, h), t, Done(false))
    case Checked(h) =>
      if s.registry.objects[h].owner.child.Some? then Go(Release(s, h), t, Done(false)) else Go(s, t, Vacant(h))
    case Started(h, child) => Go(Owned(s, h, Bootstrap.Spawn(child)), t, Spawned(h))
    case Spawned(h) => Go(Release(s, h), t, Done(CheckStage(s.registry, h)))
    case Judging(h, ok) =>
      var owner := s.registry.objects[h].owner;
      Go(s, t, if ok && owner.published && !owner.retired then Done(true) else Retiring(h))
    case Retiring(h) => Go(Owned(s, h, Bootstrap.Retire), t, Sweeping([h], false, ToReport))
    case _ => s
  }

  /** One step of the cleanup a thread runs: it may return success, or failure, or go on. */
  function CleanedUp(s: System, t: Thread, a: Bootstrap.Action): System
    requires Known(s) && t in s.threads && s.threads[t].Cleaning?
  {
    var c := s.threads[t];
    assert c.handle in Handles(c);
    Go(Owned(s, c.handle, a), t, AfterCleanup(c, s.registry.objects[c.handle].owner, a))
  }

  /** What a thread does after a step of the cleanup it runs. */
  function AfterCleanup(c: Control, o: Bootstrap.Owner, a: Bootstrap.Action): Control
    requires c.Cleaning?
  {
    if a.TakeAskpass? && o.closer.TakingAskpass? then Removing(c.handle, c.todo, c.pending, c.goal)
    else if Bootstrap.Step(o, a).closer.Idle? then Sweeping(c.todo, true, c.goal)
    else c
  }

  /** The operating system starts a process, or fails to. The child lock is free meanwhile, and until
      the thread stores what it got. */
  function SpawnedChild(s: System, t: Thread, child: Option<Bootstrap.Asset>): System
    requires Known(s) && t in s.threads && s.threads[t].Vacant?
  {
    var h := s.threads[t].handle;
    assert h in Handles(s.threads[t]);
    if child.None? then Go(Release(s, h), t, Done(false))
    else Go(s.(spawned := s.spawned[child.value := h]), t, Started(h, child.value))
  }

  // ---------------------------------------------------------------- which steps there are

  predicate IsFree(s: System, t: Thread) {
    t !in s.threads || s.threads[t].Done?
  }

  predicate HoldsGate(control: Control) {
    control.Claimed? || control.Checked? || FoundNone(control) || control.Spawned?
  }

  /** Between the check that the owner has no child and the store of the new one. */
  predicate FoundNone(control: Control) {
    control.Vacant? || control.Started?
  }

  /** The operation of this owner is inside `spawn`. */
  predicate InSpawn(control: Control, h: Handle) {
    || ((control.Waiting? || HoldsGate(control)) && control.handle == h)
    || ((control.Sweeping? || control.Cleaning? || control.Removing?) && control.goal == ToPrepare(h))
  }

  /** `finish` and dropping take the permit of an operation by value, so it is in no `spawn` then. */
  predicate PermitFree(s: System, h: Handle) {
    forall t :: t in s.threads ==> !InSpawn(s.threads[t], h)
  }

  /** The retired owners of a binding, or of every binding, in any order. */
  ghost predicate Captures(r: Registry, captured: seq<Handle>, binding: Option<Binding>) {
    forall h :: h in captured <==>
      && IsRegistered(r, h) && r.objects[h].owner.retired
      && (binding.Some? ==> r.objects[h].binding == binding.value)
  }

  /** A new owner is a new object, with the gate of an owner of its binding if there is one. */
  predicate IsFresh(r: Registry, binding: Binding, made: Fresh) {
    made.handle !in r.objects && GateFor(r, binding, made.gate, made.gate)
  }

  predicate IsCleanup(a: Bootstrap.Action) {
    !Bootstrap.IsOperation(a) && !a.Retire? && !a.BeginCleanup?
  }

  ghost predicate Enabled(s: System, m: Move) {
    match m
    case BeginReserve(t, id, binding, captured, made) =>
      && IsFree(s, t)
      && if |s.registry.owners| >= MAX_OWNERS then Captures(s.registry, captured, None)
         else IsFresh(s.registry, binding, made)
    case BeginSpawn(t, h, captured) =>
      && IsFree(s, t) && h in s.registry.objects && s.registry.objects[h].owner.running
      && Captures(s.registry, captured, Some(s.registry.objects[h].binding))
    case BeginFinish(t, h, _) => IsFree(s, t) && h in s.registry.objects && PermitFree(s, h)
    case BeginClose(t, h) => IsFree(s, t) && IsRegistered(s.registry, h)
    case Advance(t, made) =>
      && t in s.threads
      && var c := s.threads[t];
      (c.Sweeping? && c.todo == [] && c.goal.ToReserve? ==> IsFresh(s.registry, c.goal.binding, made))
    case CleanUp(t, a) => t in s.threads && s.threads[t].Cleaning? && IsCleanup(a)
    case SpawnChild(t, child) =>
      t in s.threads && s.threads[t].Vacant? && (child.Some? ==> child.value !in s.spawned)
    case Operate(h, a) =>
      && h in s.registry.objects
      && (a.Retire? || (Bootstrap.IsOperation(a) && !a.Spawn? && (a.Settle? ==> PermitFree(s, h))))
  }

  function Moved(s: System, m: Move): System
    requires Known(s)
    requires m.BeginSpawn? || m.BeginFinish? || m.BeginClose? || m.Operate? ==> m.handle in s.registry.objects
    requires m.Advance? || m.CleanUp? || m.SpawnChild? ==> m.thread in s.threads
    requires m.CleanUp? ==> s.threads[m.thread].Cleaning?
    requires m.SpawnChild? ==> s.threads[m.thread].Vacant?
  {
    match m
    case BeginReserve(t, id, binding, captured, made) =>
      if |s.registry.owners| >= MAX_OWNERS then Go(s, t, Sweeping(captured, false, ToReserve(id, binding)))
      else Reserved(s, t, id, binding, made)
    case BeginSpawn(t, h, captured) =>
      Go(s, t, if s.registry.objects[h].owner.retired then Done(false) else Sweeping(captured, false, ToPrepare(h)))
    case BeginFinish(t, h, ok) => Go(Owned(s, h, Bootstrap.Settle), t, Judging(h, ok))
    case BeginClose(t, h) => Go(Owned(s, h, Bootstrap.Retire), t, Sweeping([h], false, ToReport))
    case Advance(t, made) => Advanced(s, t, made)
    case CleanUp(t, a) => CleanedUp(s, t, a)
    case SpawnChild(t, child) => SpawnedChild(s, t, child)
    case Operate(h, a) => Owned(s, h, a)
  }

  // ---------------------------------------------------------------- what every thread may rely on

  /** The cleanup of an owner is run by one thread, the one that holds its close lock. */
  ghost predicate OneCloser(threads: map<Thread, Control>) {
    forall t, u ::
      t in threads && u in threads && threads[t].Cleaning? && threads[u].Cleaning? && threads[t].handle == threads[u].handle
      ==> t == u
  }

  /** What a thread has made sure of: an owner it removes has acknowledged, the operation of an owner
      it spawns for has not settled, it holds the gate it claimed, and the owner it found without a
      child still has none. */
  ghost predicate ControlOk(r: Registry, gates: map<Gate, Thread>, t: Thread, control: Control) {
    && Handles(control) <= r.objects.Keys
    && (control.Cleaning? ==> control.handle in r.objects && !r.objects[control.handle].owner.closer.Idle?)
    && (control.Removing? ==> control.handle in r.objects && r.objects[control.handle].owner.acknowledged)
    && (forall h :: InSpawn(control, h) ==> h in r.objects && r.objects[h].owner.running)
    && (HoldsGate(control) ==>
          && control.handle in r.objects && r.objects[control.handle].gate in gates
          && gates[r.objects[control.handle].gate] == t)
    && (FoundNone(control) ==> control.handle in r.objects && r.objects[control.handle].owner.child.None?)
  }

  ghost predicate ThreadsOk(s: System) {
    && OneCloser(s.threads)
    && forall t :: t in s.threads ==> ControlOk(s.registry, s.gates, t, s.threads[t])
  }

  lemma OkIsKnown(s: System)
    requires ThreadsOk(s)
    ensures Known(s)
  {
  }

  /** A thread goes on; nothing else changes. */
  lemma GoKeeps(s: System, t: Thread, control: Control)
    requires ThreadsOk(s) && !control.Cleaning? && ControlOk(s.registry, s.gates, t, control)
    ensures ThreadsOk(Go(s, t, control))
  {
  }

  /** An owner changes, while the threads stay. */
  lemma ControlStays(r: Registry, gates: map<Gate, Thread>, t: Thread, control: Control, h: Handle, a: Bootstrap.Action)
    requires ControlOk(r, gates, t, control) && h in r.objects
    requires InSpawn(control, h) ==> !a.Settle?
    requires control.Cleaning? && control.handle == h ==> !Bootstrap.Step(r.objects[h].owner, a).closer.Idle?
    requires FoundNone(control) && control.handle == h ==> !a.Spawn?
    ensures ControlOk(Act(r, h, a), gates, t, control)
  {
    if !a.Settle? { RunningStays(r.objects[h].owner, a); }
    if !a.Spawn? { ChildrenStay(r.objects[h].owner, a); }
    AcknowledgedForGood(r.objects[h].owner, a);
  }

  /** Only a spawn fills the place of the child. */
  lemma ChildrenStay(o: Bootstrap.Owner, a: Bootstrap.Action)
    requires !a.Spawn?
    ensures var t := Bootstrap.Step(o, a); t.children == o.children && (o.child.None? ==> t.child.None?)
  {
    if !Bootstrap.IsOperation(a) && !a.Retire? { CleaningFillsNothing(o, a); }
  }

  lemma CleaningFillsNothing(o: Bootstrap.Owner, a: Bootstrap.Action)
    ensures var t := Bootstrap.Clean(o, a); t.children == o.children && (o.child.None? ==> t.child.None?)
  {
  }

  lemma RunningStays(o: Bootstrap.Owner, a: Bootstrap.Action)
    requires !a.Settle?
    ensures Bootstrap.Step(o, a).running == o.running
  {
    if !Bootstrap.IsOperation(a) && !a.Retire? { CleaningKeepsRunning(o, a); }
  }

  lemma CleaningKeepsRunning(o: Bootstrap.Owner, a: Bootstrap.Action)
    ensures Bootstrap.Clean(o, a).running == o.running
  {
  }

  lemma OperationKeepsCloser(o: Bootstrap.Owner, a: Bootstrap.Action)
    requires Bootstrap.IsOperation(a) || a.Retire?
    ensures Bootstrap.Step(o, a).closer == o.closer
  {
  }

  /** A step of an operation, or a retirement, by any thread. */
  lemma OwnedKeeps(s: System, h: Handle, a: Bootstrap.Action)
    requires ThreadsOk(s) && h in s.registry.objects
    requires Bootstrap.IsOperation(a) || a.Retire?
    requires a.Settle? ==> PermitFree(s, h)
    requires a.Spawn? ==> forall t :: t in s.threads && FoundNone(s.threads[t]) ==> s.threads[t].handle != h
    ensures ThreadsOk(Owned(s, h, a))
  {
    OperationKeepsCloser(s.registry.objects[h].owner, a);
    forall t | t in s.threads ensures ControlOk(Owned(s, h, a).registry, s.gates, t, s.threads[t]) {
      ControlStays(s.registry, s.gates, t, s.threads[t], h, a);
    }
  }

  lemma RegistryGrows(s: System, registry: Registry)
    requires ThreadsOk(s)
    requires forall h :: h in s.registry.objects ==> h in registry.objects && registry.objects[h] == s.registry.objects[h]
    ensures ThreadsOk(s.(registry := registry))
  {
    forall t | t in s.threads ensures ControlOk(registry, s.gates, t, s.threads[t]) {
      assert ControlOk(s.registry, s.gates, t, s.threads[t]);
    }
  }

  lemma ReservedKeeps(s: System, t: Thread, id: Id, binding: Binding, made: Fresh)
    requires ThreadsOk(s) && IsFresh(s.registry, binding, made)
    ensures ThreadsOk(Reserved(s, t, id, binding, made))
  {
    if ReserveFailure(s.registry, id).Some? {
      GoKeeps(s, t, Done(false));
    } else {
      var registry := Insert(s.registry, id, binding, made.gate, made.handle);
      RegistryGrows(s, registry);
      GoKeeps(s.(registry := registry), t, Done(true));
    }
  }

  lemma SweptKeeps(s: System, t: Thread, pending: bool, goal: Goal, made: Fresh)
    requires ThreadsOk(s) && t in s.threads && s.threads[t] == Sweeping([], pending, goal)
    requires goal.ToReserve? ==> IsFresh(s.registry, goal.binding, made)
    ensures GoalHandles(goal) <= s.registry.objects.Keys && ThreadsOk(Swept(s, t, pending, goal, made))
  {
    assert ControlOk(s.registry, s.gates, t, s.threads[t]);
    match goal
    case ToReserve(id, binding) => ReservedKeeps(s, t, id, binding, made);
    case ToPrepare(h) =>
      assert InSpawn(s.threads[t], h);
      GoKeeps(s, t, Waiting(h));
      GoKeeps(s, t, Done(false));
    case ToReport => GoKeeps(s, t, Done(!pending));
  }

  lemma TodoIsKnown(s: System, t: Thread)
    requires ThreadsOk(s) && t in s.threads && s.threads[t].Sweeping? && s.threads[t].todo != []
    ensures s.threads[t].todo[0] in s.registry.objects
    ensures var c := s.threads[t];
            Handles(Sweeping(c.todo[1..], true, c.goal)) + Handles(Cleaning(c.todo[0], c.todo[1..], c.pending, c.goal))
            <= s.registry.objects.Keys
    ensures forall h :: InSpawn(Sweeping(s.threads[t].todo[1..], true, s.threads[t].goal), h) ==> InSpawn(s.threads[t], h)
  {
    var c := s.threads[t];
    assert ControlOk(s.registry, s.gates, t, c);
    assert c.todo[0] in Handles(c);
    assert forall h :: h in c.todo[1..] ==> h in c.todo;
  }

  /** The close lock is taken: the owner is idle, so no other thread is cleaning it up. */
  lemma BeginCleanupKeeps(s: System, t: Thread)
    requires ThreadsOk(s) && t in s.threads && s.threads[t].Sweeping? && s.threads[t].todo != []
    requires s.threads[t].todo[0] in s.registry.objects
    requires s.registry.objects[s.threads[t].todo[0]].owner.closer.Idle?
    ensures var c := s.threads[t];
            ThreadsOk(Go(Owned(s, c.todo[0], Bootstrap.BeginCleanup), t, Cleaning(c.todo[0], c.todo[1..], c.pending, c.goal)))
  {
    var c := s.threads[t];
    var h := c.todo[0];
    var next := Owned(s, h, Bootstrap.BeginCleanup);
    TodoIsKnown(s, t);
    forall u | u in s.threads ensures ControlOk(next.registry, s.gates, u, s.threads[u]) {
      assert ControlOk(s.registry, s.gates, u, s.threads[u]);
      ControlStays(s.registry, s.gates, u, s.threads[u], h, Bootstrap.BeginCleanup);
    }
    CloserTakes(next, t, h, Cleaning(h, c.todo[1..], c.pending, c.goal));
  }

  lemma CloserTakes(s: System, t: Thread, h: Handle, control: Control)
    requires OneCloser(s.threads)
    requires forall u :: u in s.threads ==> ControlOk(s.registry, s.gates, u, s.threads[u])
    requires control.Cleaning? && control.handle == h && Handles(control) <= s.registry.objects.Keys
    requires h in s.registry.objects && !s.registry.objects[h].owner.closer.Idle?
    requires forall u :: u in s.threads && s.threads[u].Cleaning? ==> s.threads[u].handle != h
    requires forall g :: InSpawn(control, g) ==> t in s.threads && InSpawn(s.threads[t], g)
    ensures ThreadsOk(Go(s, t, control))
  {
  }

  lemma SweepNextKeeps(s: System, t: Thread)
    requires ThreadsOk(s) && t in s.threads && s.threads[t].Sweeping? && s.threads[t].todo != []
    ensures var c := s.threads[t];
            c.todo[0] in s.registry.objects && ThreadsOk(SweepNext(s, t, c.todo[0], c.todo[1..], c.goal, c.pending))
  {
    var c := s.threads[t];
    TodoIsKnown(s, t);
    if s.registry.objects[c.todo[0]].owner.closer.Idle? {
      BeginCleanupKeeps(s, t);
    } else {
      assert ControlOk(s.registry, s.gates, t, c);
      GoKeeps(s, t, Sweeping(c.todo[1..], true, c.goal));
    }
  }

  /** Removing is safe: the cleanup of the owner acknowledged. */
  lemma RemovingKeeps(s: System, t: Thread)
    requires ThreadsOk(s) && t in s.threads && s.threads[t].Removing?
    ensures var c := s.threads[t];
            && c.handle in s.registry.objects
            && ThreadsOk(Go(s.(registry := Remove(s.registry, c.handle)), t, Sweeping(c.todo, c.pending, c.goal)))
  {
    var c := s.threads[t];
    assert ControlOk(s.registry, s.gates, t, c);
    RegistryGrows(s, Remove(s.registry, c.handle));
    assert forall h :: InSpawn(Sweeping(c.todo, c.pending, c.goal), h) ==> InSpawn(c, h);
    GoKeeps(s.(registry := Remove(s.registry, c.handle)), t, Sweeping(c.todo, c.pending, c.goal));
  }

  lemma ClaimKeeps(s: System, t: Thread)
    requires ThreadsOk(s) && t in s.threads && s.threads[t].Waiting?
    requires s.threads[t].handle in s.registry.objects
    requires s.registry.objects[s.threads[t].handle].gate !in s.gates
    ensures var h := s.threads[t].handle;
            ThreadsOk(Go(s.(gates := s.gates[s.registry.objects[h].gate := t]), t, Claimed(h)))
  {
    var h := s.threads[t].handle;
    assert ControlOk(s.registry, s.gates, t, s.threads[t]);
    assert InSpawn(s.threads[t], h);
    var gates := s.gates[s.registry.objects[h].gate := t];
    forall u | u in s.threads ensures ControlOk(s.registry, gates, u, s.threads[u]) {
      assert ControlOk(s.registry, s.gates, u, s.threads[u]);
    }
    GoKeeps(s.(gates := gates), t, Claimed(h));
  }

  /** A thread lets its gate go, which no other thread holds. */
  lemma ReleaseKeeps(s: System, t: Thread, ok: bool)
    requires ThreadsOk(s) && t in s.threads && HoldsGate(s.threads[t])
    ensures s.threads[t].handle in s.registry.objects
    ensures ThreadsOk(Go(Release(s, s.threads[t].handle), t, Done(ok)))
  {
    var h := s.threads[t].handle;
    assert ControlOk(s.registry, s.gates, t, s.threads[t]);
    var left := Go(Release(s, h), t, Done(ok));
    forall u | u in left.threads ensures ControlOk(left.registry, left.gates, u, left.threads[u]) {
      if u != t { assert ControlOk(s.registry, s.gates, u, s.threads[u]); }
    }
  }

  /** A thread that holds the gate goes on holding it. */
  lemma HoldingKeeps(s: System, t: Thread, control: Control)
    requires ThreadsOk(s) && t in s.threads && HoldsGate(s.threads[t])
    requires HoldsGate(control) && control.handle == s.threads[t].handle
    requires FoundNone(control) ==>
               control.handle in s.registry.objects && s.registry.objects[control.handle].owner.child.None?
    ensures ThreadsOk(Go(s, t, control))
  {
    assert ControlOk(s.registry, s.gates, t, s.threads[t]);
    assert InSpawn(s.threads[t], s.threads[t].handle);
    GoKeeps(s, t, control);
  }

  /** The thread that stores a child is alone in having found none. */
  lemma StoreKeeps(s: System, t: Thread)
    requires ThreadsOk(s) && t in s.threads && s.threads[t].Started?
    ensures var h, child := s.threads[t].handle, s.threads[t].child;
            h in s.registry.objects && ThreadsOk(Go(Owned(s, h, Bootstrap.Spawn(child)), t, Spawned(h)))
  {
    var h, child := s.threads[t].handle, s.threads[t].child;
    var gone := Go(s, t, Spawned(h));
    assert ControlOk(s.registry, s.gates, t, s.threads[t]);
    HoldingKeeps(s, t, Spawned(h));
    forall u | u in gone.threads && FoundNone(gone.threads[u]) ensures gone.threads[u].handle != h {
      assert ControlOk(s.registry, s.gates, u, s.threads[u]);
    }
    OwnedKeeps(gone, h, Bootstrap.Spawn(child));
    assert Owned(gone, h, Bootstrap.Spawn(child)) == Go(Owned(s, h, Bootstrap.Spawn(child)), t, Spawned(h));
  }

  lemma RetiringKeeps(s: System, t: Thread, h: Handle)
    requires ThreadsOk(s) && h in s.registry.objects
    ensures ThreadsOk(Go(Owned(s, h, Bootstrap.Retire), t, Sweeping([h], false, ToReport)))
  {
    OwnedKeeps(s, h, Bootstrap.Retire);
    GoKeeps(Owned(s, h, Bootstrap.Retire), t, Sweeping([h], false, ToReport));
  }

  lemma GateStepsKeep(s: System, t: Thread, made: Fresh)
    requires ThreadsOk(s) && Known(s) && t in s.threads
    requires s.threads[t].Waiting? || (HoldsGate(s.threads[t]) && !s.threads[t].Vacant?)
    ensures ThreadsOk(Advanced(s, t, made))
  {
    assert ControlOk(s.registry, s.gates, t, s.threads[t]);
    var h := s.threads[t].handle;
    assert h in Handles(s.threads[t]);
    if s.threads[t].Waiting? {
      if s.registry.objects[h].gate !in s.gates { ClaimKeeps(s, t); }
    } else if s.threads[t].Claimed? && CheckStage(s.registry, h) {
      HoldingKeeps(s, t, Checked(h));
    } else if s.threads[t].Checked? && s.registry.objects[h].owner.child.None? {
      HoldingKeeps(s, t, Vacant(h));
    } else if s.threads[t].Started? {
      StoreKeeps(s, t);
    } else {
      ReleaseKeeps(s, t, s.threads[t].Spawned? && CheckStage(s.registry, h));
    }
  }

  lemma FinishStepsKeep(s: System, t: Thread, made: Fresh)
    requires ThreadsOk(s) && Known(s) && t in s.threads && (s.threads[t].Judging? || s.threads[t].Retiring?)
    ensures ThreadsOk(Advanced(s, t, made))
  {
    assert ControlOk(s.registry, s.gates, t, s.threads[t]);
    var h := s.threads[t].handle;
    assert h in Handles(s.threads[t]);
    if s.threads[t].Judging? {
      GoKeeps(s, t, Done(true));
      GoKeeps(s, t, Retiring(h));
    } else {
      RetiringKeeps(s, t, h);
    }
  }

  lemma AdvanceKeeps(s: System, t: Thread, made: Fresh)
    requires ThreadsOk(s) && Known(s) && Enabled(s, Advance(t, made))
    ensures ThreadsOk(Advanced(s, t, made))
  {
    var c := s.threads[t];
    if c.Sweeping? {
      if c.todo == [] { SweptKeeps(s, t, c.pending, c.goal, made); } else { SweepNextKeeps(s, t); }
    } else if c.Removing? {
      RemovingKeeps(s, t);
    } else if c.Waiting? || (HoldsGate(c) && !c.Vacant?) {
      GateStepsKeep(s, t, made);
    } else if c.Judging? || c.Retiring? {
      FinishStepsKeep(s, t, made);
    }
  }

  // ---------------------------------------------------------------- cleanups and spawns

  /** A thread that removes an owner next has just seen its cleanup acknowledge. */
  lemma CleanupOutcome(c: Control, o: Bootstrap.Owner, a: Bootstrap.Action)
    requires c.Cleaning? && IsCleanup(a) && !o.closer.Idle?
    ensures var next, after := AfterCleanup(c, o, a), Bootstrap.Step(o, a);
            && (next.Removing? ==> next.handle == c.handle && after.acknowledged)
            && (next.Cleaning? ==> next == c && !after.closer.Idle?)
            && after.running == o.running
  {
    RunningStays(o, a);
  }

  lemma CleanerOk(r: Registry, gates: map<Gate, Thread>, t: Thread, c: Control, a: Bootstrap.Action)
    requires ControlOk(r, gates, t, c) && c.Cleaning? && IsCleanup(a)
    ensures c.handle in r.objects
    ensures ControlOk(Act(r, c.handle, a), gates, t, AfterCleanup(c, r.objects[c.handle].owner, a))
  {
    var next := AfterCleanup(c, r.objects[c.handle].owner, a);
    CleanupOutcome(c, r.objects[c.handle].owner, a);
    assert Handles(next) <= Handles(c);
    forall h | InSpawn(next, h) ensures h in r.objects && r.objects[h].owner.running {
      assert InSpawn(c, h);
    }
  }

  lemma CleanUpKeeps(s: System, t: Thread, a: Bootstrap.Action)
    requires ThreadsOk(s) && Known(s) && Enabled(s, CleanUp(t, a))
    ensures ThreadsOk(CleanedUp(s, t, a))
  {
    var c, after := s.threads[t], CleanedUp(s, t, a);
    assert ControlOk(s.registry, s.gates, t, c);
    CleanerOk(s.registry, s.gates, t, c, a);
    forall u | u in after.threads ensures ControlOk(after.registry, after.gates, u, after.threads[u]) {
      if u != t {
        assert ControlOk(s.registry, s.gates, u, s.threads[u]);
        ControlStays(s.registry, s.gates, u, s.threads[u], c.handle, a);
      }
    }
    assert after.threads[t].Cleaning? ==> after.threads[t] == c;
  }

  lemma SpawnChildKeeps(s: System, t: Thread, child: Option<Bootstrap.Asset>)
    requires ThreadsOk(s) && Known(s) && Enabled(s, SpawnChild(t, child))
    ensures ThreadsOk(SpawnedChild(s, t, child))
  {
    var h := s.threads[t].handle;
    assert ControlOk(s.registry, s.gates, t, s.threads[t]);
    if child.None? {
      ReleaseKeeps(s, t, false);
    } else {
      HoldingKeeps(s, t, Started(h, child.value));
    }
  }

  // ---------------------------------------------------------------- every interleaving

  lemma BeginKeeps(s: System, m: Move)
    requires ThreadsOk(s) && Known(s) && Enabled(s, m)
    requires m.BeginReserve? || m.BeginSpawn? || m.BeginFinish? || m.BeginClose?
    ensures ThreadsOk(Moved(s, m))
  {
    match m
    case BeginReserve(t, id, binding, captured, made) =>
      if |s.registry.owners| >= MAX_OWNERS {
        GoKeeps(s, t, Sweeping(captured, false, ToReserve(id, binding)));
      } else {
        ReservedKeeps(s, t, id, binding, made);
      }
    case BeginSpawn(t, h, captured) =>
      GoKeeps(s, t, Done(false));
      GoKeeps(s, t, Sweeping(captured, false, ToPrepare(h)));
    case BeginFinish(t, h, ok) =>
      OwnedKeeps(s, h, Bootstrap.Settle);
      GoKeeps(Owned(s, h, Bootstrap.Settle), t, Judging(h, ok));
    case BeginClose(t, h) => RetiringKeeps(s, t, h);
  }

  lemma MoveKeeps(s: System, m: Move)
    requires ThreadsOk(s) && Known(s) && Enabled(s, m)
    ensures ThreadsOk(Moved(s, m))
  {
    match m
    case Advance(t, made) => AdvanceKeeps(s, t, made);
    case CleanUp(t, a) => CleanUpKeeps(s, t, a);
    case SpawnChild(t, child) => SpawnChildKeeps(s, t, child);
    case Operate(h, a) => OwnedKeeps(s, h, a);
    case _ => BeginKeeps(s, m);
  }

  /** What a move does to the registry: nothing, a step of one owner, a new owner, or the removal of
      one that has acknowledged. */
  ghost predicate RegistryMoves(r: Registry, next: Registry) {
    || next == r
    || (exists h, a :: h in r.objects && next == Act(r, h, a))
    || (exists id, binding, made: Fresh ::
          ReserveFailure(r, id).None? && IsFresh(r, binding, made) && next == Insert(r, id, binding, made.gate, made.handle))
    || (exists h :: h in r.objects && r.objects[h].owner.acknowledged && next == Remove(r, h))
  }

  lemma MovesKeepRegistry(r: Registry, next: Registry)
    requires Inv(r) && RegistryMoves(r, next)
    ensures Inv(next)
  {
    if next == r {
    } else if h, a :| h in r.objects && next == Act(r, h, a) {
      ActKeeps(r, h, a);
    } else if id, binding, made: Fresh :|
        ReserveFailure(r, id).None? && IsFresh(r, binding, made) && next == Insert(r, id, binding, made.gate, made.handle) {
      InsertKeeps(r, id, binding, made.gate, made.handle, made.gate);
    } else {
      var h :| h in r.objects && r.objects[h].owner.acknowledged && next == Remove(r, h);
      RemoveKeeps(r, h);
    }
  }

  lemma ReservedMoves(s: System, t: Thread, id: Id, binding: Binding, made: Fresh)
    requires IsFresh(s.registry, binding, made)
    ensures RegistryMoves(s.registry, Reserved(s, t, id, binding, made).registry)
  {
  }

  lemma AdvanceMoves(s: System, t: Thread, made: Fresh)
    requires ThreadsOk(s) && Known(s) && Enabled(s, Advance(t, made))
    ensures RegistryMoves(s.registry, Advanced(s, t, made).registry)
  {
    var c := s.threads[t];
    assert ControlOk(s.registry, s.gates, t, c);
    if c.Sweeping? {
      if c.todo == [] {
        if c.goal.ToReserve? { ReservedMoves(s, t, c.goal.id, c.goal.binding, made); }
      } else {
        assert c.todo[0] in Handles(c);
        assert s.registry.objects[c.todo[0]].owner.closer.Idle? ==>
            Advanced(s, t, made).registry == Act(s.registry, c.todo[0], Bootstrap.BeginCleanup);
      }
    } else if c.Retiring? {
      assert c.handle in Handles(c);
      assert Advanced(s, t, made).registry == Act(s.registry, c.handle, Bootstrap.Retire);
    } else if c.Started? {
      assert c.handle in Handles(c);
      assert Advanced(s, t, made).registry == Act(s.registry, c.handle, Bootstrap.Spawn(c.child));
    }
  }

  lemma MoveMoves(s: System, m: Move)
    requires ThreadsOk(s) && Known(s) && Enabled(s, m)
    ensures RegistryMoves(s.registry, Moved(s, m).registry)
  {
    match m
    case BeginReserve(t, id, binding, captured, made) =>
      if |s.registry.owners| < MAX_OWNERS { ReservedMoves(s, t, id, binding, made); }
    case BeginFinish(t, h, ok) => assert Moved(s, m).registry == Act(s.registry, h, Bootstrap.Settle);
    case BeginClose(t, h) => assert Moved(s, m).registry == Act(s.registry, h, Bootstrap.Retire);
    case Advance(t, made) => AdvanceMoves(s, t, made);
    case CleanUp(t, a) =>
      assert s.threads[t].handle in Handles(s.threads[t]);
      assert Moved(s, m).registry == Act(s.registry, s.threads[t].handle, a);
    case Operate(h, a) => assert Moved(s, m).registry == Act(s.registry, h, a);
    case _ =>
  }

  // ---------------------------------------------------------------- processes

  /** A thread has started this process and not stored it yet. */
  ghost predicate InHand(threads: map<Thread, Control>, h: Handle, process: Bootstrap.Asset) {
    exists t :: t in threads && threads[t] == Started(h, process)
  }

  predicate IsRecorded(r: Registry, h: Handle, process: Bootstrap.Asset) {
    h in r.objects && process in r.objects[h].owner.children
  }

  /** Every process that was ever started is recorded in the owner it was started for, or is in the
      hand of one thread and recorded nowhere; and nothing else is recorded. */
  ghost predicate ProcessesOk(s: System) {
    && (forall p :: p in s.spawned ==> IsRecorded(s.registry, s.spawned[p], p) || InHand(s.threads, s.spawned[p], p))
    && (forall h, p :: IsRecorded(s.registry, h, p) ==> p in s.spawned && s.spawned[p] == h)
    && (forall t :: t in s.threads && s.threads[t].Started? ==>
          && s.threads[t].child in s.spawned && s.spawned[s.threads[t].child] == s.threads[t].handle
          && !IsRecorded(s.registry, s.threads[t].handle, s.threads[t].child))
  }

  ghost predicate SameRecords(r: Registry, next: Registry) {
    forall h, p :: IsRecorded(next, h, p) <==> IsRecorded(r, h, p)
  }

  ghost predicate SameHands(threads: map<Thread, Control>, next: map<Thread, Control>) {
    && (forall t :: t in threads && threads[t].Started? ==> t in next && next[t] == threads[t])
    && (forall t :: t in next && next[t].Started? ==> t in threads && threads[t] == next[t])
  }

  lemma ProcessesStay(s: System, next: System)
    requires ProcessesOk(s) && next.spawned == s.spawned
    requires SameRecords(s.registry, next.registry) && SameHands(s.threads, next.threads)
    ensures ProcessesOk(next)
  {
    forall h, p | InHand(s.threads, h, p) ensures InHand(next.threads, h, p) {
      var t :| t in s.threads && s.threads[t] == Started(h, p);
      assert next.threads[t] == Started(h, p);
    }
  }

  lemma ActRecordsNothing(r: Registry, h: Handle, a: Bootstrap.Action)
    requires h in r.objects && !a.Spawn?
    ensures SameRecords(r, Act(r, h, a))
  {
    ChildrenStay(r.objects[h].owner, a);
  }

  /** What a thread does, unless it holds a process or starts one. */
  lemma AdvanceRecordsNothing(s: System, t: Thread, made: Fresh)
    requires ThreadsOk(s) && Known(s) && Enabled(s, Advance(t, made)) && !s.threads[t].Started?
    ensures SameRecords(s.registry, Advanced(s, t, made).registry)
  {
    var c := s.threads[t];
    assert ControlOk(s.registry, s.gates, t, c);
    if c.Sweeping? && c.todo != [] {
      assert c.todo[0] in Handles(c);
      ActRecordsNothing(s.registry, c.todo[0], Bootstrap.BeginCleanup);
    } else if c.Retiring? {
      assert c.handle in Handles(c);
      ActRecordsNothing(s.registry, c.handle, Bootstrap.Retire);
    }
  }

  lemma MoveRecordsNothing(s: System, m: Move)
    requires ThreadsOk(s) && Known(s) && Enabled(s, m) && !(m.Advance? && s.threads[m.thread].Started?)
    ensures SameRecords(s.registry, Moved(s, m).registry)
  {
    match m
    case BeginFinish(t, h, ok) => ActRecordsNothing(s.registry, h, Bootstrap.Settle);
    case BeginClose(t, h) => ActRecordsNothing(s.registry, h, Bootstrap.Retire);
    case Advance(t, made) => AdvanceRecordsNothing(s, t, made);
    case CleanUp(t, a) =>
      assert s.threads[t].handle in Handles(s.threads[t]);
      ActRecordsNothing(s.registry, s.threads[t].handle, a);
    case Operate(h, a) => ActRecordsNothing(s.registry, h, a);
    case _ =>
  }

  /** One thread goes on, and takes no process into its hand. */
  ghost predicate Goes(s: System, next: System, t: Thread) {
    && next.spawned == s.spawned
    && t in next.threads && !next.threads[t].Started? && next.threads == s.threads[t := next.threads[t]]
  }

  lemma GoesOn(s: System, base: System, t: Thread, control: Control)
    requires base.threads == s.threads && base.spawned == s.spawned && !control.Started?
    ensures Goes(s, Go(base, t, control), t)
  {
    assert s.threads[t := control][t] == control;
  }

  lemma GoingKeepsHands(s: System, next: System, t: Thread)
    requires Goes(s, next, t) && (t in s.threads ==> !s.threads[t].Started?)
    ensures SameHands(s.threads, next.threads)
  {
  }

  lemma SweptGoes(s: System, t: Thread, pending: bool, goal: Goal, made: Fresh)
    requires GoalHandles(goal) <= s.registry.objects.Keys
    ensures Goes(s, Swept(s, t, pending, goal, made), t)
  {
  }

  lemma SweepNextGoes(s: System, t: Thread, h: Handle, todo: seq<Handle>, goal: Goal, pending: bool)
    requires h in s.registry.objects
    ensures Goes(s, SweepNext(s, t, h, todo, goal, pending), t)
  {
  }

  lemma SweepGoes(s: System, t: Thread, made: Fresh)
    requires Known(s) && t in s.threads && s.threads[t].Sweeping?
    ensures Goes(s, Advanced(s, t, made), t)
  {
    var c := s.threads[t];
    if c.todo == [] {
      SweptGoes(s, t, c.pending, c.goal, made);
    } else {
      assert c.todo[0] in Handles(c);
      SweepNextGoes(s, t, c.todo[0], c.todo[1..], c.goal, c.pending);
    }
  }

  lemma AdvanceGoes(s: System, t: Thread, made: Fresh)
    requires Known(s) && t in s.threads && !s.threads[t].Started?
    ensures Goes(s, Advanced(s, t, made), t)
  {
    if s.threads[t].Sweeping? {
      SweepGoes(s, t, made);
    } else if Advanced(s, t, made) == s {
      assert s.threads[t := s.threads[t]] == s.threads;
    } else {
      StepGoes(s, t, made);
    }
  }

  lemma StepGoes(s: System, t: Thread, made: Fresh)
    requires Known(s) && t in s.threads && !s.threads[t].Started? && !s.threads[t].Sweeping?
    requires Advanced(s, t, made) != s
    ensures Goes(s, Advanced(s, t, made), t)
  {
    var c, next := s.threads[t], Advanced(s, t, made);
    assert c.Removing? || c.Waiting? || HoldsGate(c) || c.Judging? || c.Retiring?;
    assert c.handle in Handles(c);
    GoesOn(s, next.(threads := s.threads), t, next.threads[t]);
  }

  lemma MoveKeepsHands(s: System, m: Move)
    requires Known(s) && Enabled(s, m) && !(m.Advance? && s.threads[m.thread].Started?)
    requires m.SpawnChild? ==> m.child.None?
    ensures SameHands(s.threads, Moved(s, m).threads) && Moved(s, m).spawned == s.spawned
  {
    if m.Advance? {
      AdvanceGoes(s, m.thread, m.made);
      GoingKeepsHands(s, Advanced(s, m.thread, m.made), m.thread);
    } else if !m.Operate? {
      GoesOn(s, Moved(s, m).(threads := s.threads), m.thread, Moved(s, m).threads[m.thread]);
      GoingKeepsHands(s, Moved(s, m), m.thread);
    }
  }

  /** A process is started, and in the hand of its thread. */
  lemma SpawnKeepsProcesses(s: System, t: Thread, child: Bootstrap.Asset)
    requires ProcessesOk(s) && Known(s) && Enabled(s, SpawnChild(t, Some(child)))
    ensures ProcessesOk(SpawnedChild(s, t, Some(child)))
  {
    var next, h := SpawnedChild(s, t, Some(child)), s.threads[t].handle;
    assert next.threads[t] == Started(h, child);
    forall g, p | InHand(s.threads, g, p) ensures InHand(next.threads, g, p) {
      var u :| u in s.threads && s.threads[u] == Started(g, p);
      assert next.threads[u] == Started(g, p);
    }
  }

  /** The thread that holds a process records it in the owner, which has no child. */
  lemma StoreRecords(s: System, t: Thread)
    requires ThreadsOk(s) && ProcessesOk(s) && t in s.threads && s.threads[t].Started?
    ensures var h, process := s.threads[t].handle, s.threads[t].child;
            && h in s.registry.objects
            && var o := s.registry.objects[h].owner;
            && o.running && o.child.None?
            && Bootstrap.Step(o, Bootstrap.Spawn(process)) == o.(child := Some(process), children := o.children + {process})
  {
    var h := s.threads[t].handle;
    assert ControlOk(s.registry, s.gates, t, s.threads[t]);
    assert InSpawn(s.threads[t], h);
    assert !IsRecorded(s.registry, h, s.threads[t].child);
  }

  lemma StoreKeepsProcesses(s: System, t: Thread, made: Fresh)
    requires ThreadsOk(s) && ProcessesOk(s) && Known(s) && t in s.threads && s.threads[t].Started?
    ensures ProcessesOk(Advanced(s, t, made))
  {
    var next, h, process := Advanced(s, t, made), s.threads[t].handle, s.threads[t].child;
    StoreRecords(s, t);
    forall g, p ensures IsRecorded(next.registry, g, p) <==> IsRecorded(s.registry, g, p) || (g == h && p == process) {
    }
    forall g, p | InHand(s.threads, g, p) && p != process ensures InHand(next.threads, g, p) {
      var u :| u in s.threads && s.threads[u] == Started(g, p);
      assert next.threads[u] == Started(g, p);
    }
    forall u | u in next.threads && next.threads[u].Started? ensures next.threads[u].child != process {
      assert s.threads[u] == next.threads[u];
      assert ControlOk(s.registry, s.gates, u, s.threads[u]) && ControlOk(s.registry, s.gates, t, s.threads[t]);
    }
  }

  lemma MoveKeepsProcesses(s: System, m: Move)
    requires ThreadsOk(s) && ProcessesOk(s) && Known(s) && Enabled(s, m)
    ensures ProcessesOk(Moved(s, m))
  {
    if m.Advance? && s.threads[m.thread].Started? {
      StoreKeepsProcesses(s, m.thread, m.made);
    } else if m.SpawnChild? && m.child.Some? {
      SpawnKeepsProcesses(s, m.thread, m.child.value);
    } else {
      MoveRecordsNothing(s, m);
      MoveKeepsHands(s, m);
      ProcessesStay(s, Moved(s, m));
    }
  }

  // ---------------------------------------------------------------- all together

  ghost predicate SystemOk(s: System) {
    Inv(s.registry) && ThreadsOk(s) && ProcessesOk(s)
  }

  /** One move; a move that is not enabled changes nothing. */
  ghost function Next(s: System, m: Move): System {
    if Known(s) && Enabled(s, m) then Moved(s, m) else s
  }

  ghost function After(moves: seq<Move>): System {
    if moves == [] then START else Next(After(moves[..|moves| - 1]), moves[|moves| - 1])
  }

  lemma NextKeeps(s: System, m: Move)
    requires SystemOk(s)
    ensures SystemOk(Next(s, m))
  {
    OkIsKnown(s);
    if Enabled(s, m) {
      MoveKeeps(s, m);
      MoveMoves(s, m);
      MovesKeepRegistry(s.registry, Moved(s, m).registry);
      MoveKeepsProcesses(s, m);
    }
  }

  /** Every interleaving of all threads keeps the registry in order and what its threads rely on. */
  lemma {:induction false} EveryInterleaving(moves: seq<Move>)
    ensures SystemOk(After(moves))
  {
    if moves == [] {
      assert EMPTY.owners == map[];
    } else {
      EveryInterleaving(moves[..|moves| - 1]);
      NextKeeps(After(moves[..|moves| - 1]), moves[|moves| - 1]);
    }
  }

  // ---------------------------------------------------------------- what follows for every run

  /** Where a started process is, as long as it was not seen to exit: in its owner, as the child or as
      the child of the session, or in the hand of the thread that has just started it and stores it
      next. */
  ghost predicate IsTracked(s: System, h: Handle, process: Bootstrap.Asset)
    requires h in s.registry.objects
  {
    var o := s.registry.objects[h].owner;
    o.child == Some(process) || o.session == Some(process) || (o.running && InHand(s.threads, h, process))
  }

  /** In every reachable state each process ever started was seen to exit, or it is tracked and the
      owner it was started for is registered. */
  lemma ProcessesAreNeverLost(moves: seq<Move>, process: Bootstrap.Asset)
    requires process in After(moves).spawned
    ensures var s, h := After(moves), After(moves).spawned[process];
            && h in s.registry.objects
            && (process in s.registry.objects[h].owner.stopped
                || (IsRegistered(s.registry, h) && IsTracked(s, h, process)))
  {
    var s, h := After(moves), After(moves).spawned[process];
    EveryInterleaving(moves);
    if IsRecorded(s.registry, h, process) {
      assert Bootstrap.Inv(s.registry.objects[h].owner);
    } else {
      var t :| t in s.threads && s.threads[t] == Started(h, process);
      SpawnersAreRegistered(moves, t, h);
    }
  }

  /** At most 256 owners are registered, and those that share a binding share a spawn gate. */
  lemma RegistryIsBounded(moves: seq<Move>)
    ensures var r := After(moves).registry; |r.owners| <= MAX_OWNERS && GatesShared(r)
  {
    EveryInterleaving(moves);
  }

  /** Whichever threads sweep, retry, finish and close, an owner leaves the registry only when its
      operation has settled and everything it ever installed was seen to stop. */
  lemma OnlyCertifiedOwnersLeave(moves: seq<Move>, m: Move, h: Handle)
    requires IsRegistered(After(moves).registry, h) && !IsRegistered(Next(After(moves), m).registry, h)
    ensures var o := After(moves).registry.objects[h].owner;
            o.acknowledged && !o.running && Bootstrap.AllStopped(o)
  {
    var s := After(moves);
    EveryInterleaving(moves);
    OkIsKnown(s);
    MoveMoves(s, m);
    LeavingIsAcknowledged(s.registry, Moved(s, m).registry, h);
    assert Bootstrap.Inv(s.registry.objects[h].owner);
  }

  lemma StaysRegistered(r: Registry, h: Handle)
    requires Keyed(r) && IsRegistered(r, h)
    ensures forall g, a :: g in r.objects ==> IsRegistered(Act(r, g, a), h)
    ensures forall id, binding, made: Fresh :: ReserveFailure(r, id).None? && IsFresh(r, binding, made)
              ==> IsRegistered(Insert(r, id, binding, made.gate, made.handle), h)
    ensures forall g :: g in r.objects && g != h ==> IsRegistered(Remove(r, g), h)
  {
  }

  lemma LeavingIsAcknowledged(r: Registry, next: Registry, h: Handle)
    requires RegistryMoves(r, next) && Keyed(r) && IsRegistered(r, h) && !IsRegistered(next, h)
    ensures r.objects[h].owner.acknowledged
  {
    StaysRegistered(r, h);
  }

  /** The operation of an owner that a thread spawns for has not settled, so the owner is registered. */
  lemma SpawnersAreRegistered(moves: seq<Move>, t: Thread, h: Handle)
    requires t in After(moves).threads && InSpawn(After(moves).threads[t], h)
    ensures IsRegistered(After(moves).registry, h) && After(moves).registry.objects[h].owner.running
  {
    var s := After(moves);
    EveryInterleaving(moves);
    assert ControlOk(s.registry, s.gates, t, s.threads[t]);
    assert Bootstrap.Inv(s.registry.objects[h].owner);
  }

  /** Of all threads that spawn for one binding, one at a time is between its claim of the gate and
      its last check, whichever owners they spawn for. */
  lemma SpawnsAreExclusive(moves: seq<Move>, t: Thread, u: Thread)
    requires var s := After(moves); t in s.threads && u in s.threads && HoldsGate(s.threads[t]) && HoldsGate(s.threads[u])
    ensures var r, a, b := After(moves).registry, After(moves).threads[t].handle, After(moves).threads[u].handle;
            a in r.objects && b in r.objects && (r.objects[a].binding == r.objects[b].binding ==> t == u)
  {
    var s := After(moves);
    EveryInterleaving(moves);
    var a, b := s.threads[t].handle, s.threads[u].handle;
    SpawnersAreRegistered(moves, t, a);
    SpawnersAreRegistered(moves, u, b);
    assert ControlOk(s.registry, s.gates, t, s.threads[t]) && ControlOk(s.registry, s.gates, u, s.threads[u]);
    assert s.registry.owners[s.registry.objects[a].id] == a && s.registry.owners[s.registry.objects[b].id] == b;
  }

  /** The store puts a process into an owner that is registered and had no child, so no other process
      is forgotten for it. */
  ghost predicate Records(r: Registry, next: Registry, h: Handle, process: Bootstrap.Asset) {
    && h in r.objects && IsRegistered(next, h)
    && r.objects[h].owner.child.None? && next.objects[h].owner.child == Some(process)
    && next.objects[h].owner.children == r.objects[h].owner.children + {process}
  }

  /** Whatever other threads do between the check that the owner has no child, the start of the
      process and the store, the owner still has no child when it is stored, and is registered. */
  lemma SpawnsAreRecorded(moves: seq<Move>, t: Thread, h: Handle, process: Bootstrap.Asset, made: Fresh)
    requires t in After(moves).threads && After(moves).threads[t] == Started(h, process)
    ensures var s, next := After(moves), Next(After(moves), Advance(t, made));
            Records(s.registry, next.registry, h, process) && next.threads[t] == Spawned(h)
  {
    var s := After(moves);
    EveryInterleaving(moves);
    OkIsKnown(s);
    SpawnersAreRegistered(moves, t, h);
    StoreRecords(s, t);
    StoreIs(s, t, made);
  }

  lemma StoreIs(s: System, t: Thread, made: Fresh)
    requires Known(s) && t in s.threads && s.threads[t].Started?
    ensures var h := s.threads[t].handle;
            && h in s.registry.objects
            && Next(s, Advance(t, made)) == Go(Owned(s, h, Bootstrap.Spawn(s.threads[t].child)), t, Spawned(h))
  {
    assert s.threads[t].handle in Handles(s.threads[t]);
  }
}
