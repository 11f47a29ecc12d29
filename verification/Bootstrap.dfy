/**
 Ownership of an SSH bootstrap: one operation installs a child process, workers and an
 askpass while other threads may stop what is installed and, once the operation has settled,
 acknowledge that nothing is left.

 The owner is an interleaved machine: one step is one access to shared state. The operation
 installs in any order; one cleanup at a time runs, under the close lock.
 */
module Bootstrap {
  import opened Wrappers

  type Asset = nat

  /** Where a cleanup stands: what it does next. `askpass` is what it found at its start. */
  datatype Closer =
    | Idle
    | Checking
    | SeeingAskpass(settled: bool)
    | StoppingChild(settled: bool, askpass: Option<Asset>)
    | ClosingSession(settled: bool, askpass: Option<Asset>)
    | Discarding
    | Rechecking
    | Draining(askpass: Option<Asset>)
    | ClosingAskpass(askpass: Option<Asset>)
    | TakingChild
    | TakingAskpass

  /** The shared fields of an owner, its cleanup, and a record of what was ever installed and
      what was seen to have stopped. */
  datatype Owner = Owner(
    retired: bool,
    running: bool,
    published: bool,
    child: Option<Asset>,
    session: Option<Asset>,
    workers: set<Asset>,
    askpass: Option<Asset>,
    closer: Closer,
    acknowledged: bool,
    children: set<Asset>,
    threads: set<Asset>,
    bridges: set<Asset>,
    stopped: set<Asset>,
    joined: set<Asset>,
    closed: set<Asset>)

  const NEW_OWNER := Owner(false, true, false, None, None, {}, None, Idle, false, {}, {}, {}, {}, {}, {})

  datatype Action =
    // the operation
    | Spawn(child: Asset)
    | HandOver
    | SeeExit
    | TakeExited
    | AddWorker(worker: Asset)
    | TakeOutputs
    | InstallAskpass(askpass: Asset)
    | Publish
    | Settle
    // any thread
    | Retire
    // the cleanup
    | BeginCleanup
    | LoadRunning
    | SeeAskpass(down: bool)
    | StopChild(ok: bool)
    | CloseSession(ok: bool)
    | Discard(finished: set<Asset>)
    | Recheck(timeLeft: bool)
    | Drain(finished: set<Asset>, timeLeft: bool)
    | CloseAskpass(ok: bool)
    | TakeChild
    | TakeAskpass

  function Stopped(o: Owner, asset: Option<Asset>): Owner {
    if asset.None? then o else o.(stopped := o.stopped + {asset.value})
  }

  /** What only the operation does, and only until it settles. */
  function Operate(o: Owner, a: Action): Owner {
    match a
    case Spawn(p) =>
      if o.child.Some? || p in o.children then o else o.(child := Some(p), children := o.children + {p})
    case HandOver => if o.child.None? || o.session.Some? then o else o.(session := o.child, child := None)
    case SeeExit => Stopped(o, o.child)
    case TakeExited => if o.child.Some? && o.child.value in o.stopped then o.(child := None) else o
    case AddWorker(w) => if w in o.threads then o else o.(workers := o.workers + {w}, threads := o.threads + {w})
    case TakeOutputs => o.(workers := {}, joined := o.joined + o.workers)
    case InstallAskpass(b) =>
      if o.bridges != {} then o else o.(askpass := Some(b), bridges := {b})
    case Publish => if o.retired then o else o.(published := true)
    case Settle => o.(running := false)
    case _ => o
  }

  function Fail(o: Owner): Owner {
    o.(closer := Idle)
  }

  /** Joins the workers that have finished. */
  function Joined(o: Owner, finished: set<Asset>): Owner {
    o.(workers := o.workers - finished, joined := o.joined + (o.workers * finished))
  }

  /** The next step of a cleanup. */
  function Clean(o: Owner, a: Action): Owner {
    match (o.closer, a)
    case (Idle, BeginCleanup) => o.(closer := Checking)
    case (Checking, LoadRunning) => o.(closer := SeeingAskpass(!o.running))
    case (SeeingAskpass(settled), SeeAskpass(down)) =>
      var seen := o.(closer := StoppingChild(settled, o.askpass));
      if down && o.askpass.Some? then seen.(closed := o.closed + {o.askpass.value}) else seen
    case (StoppingChild(settled, askpass), StopChild(ok)) =>
      if !ok then Fail(o) else Stopped(o, o.child).(closer := ClosingSession(settled, askpass))
    case (ClosingSession(settled, askpass), CloseSession(ok)) =>
      if !ok then Fail(o)
      else Stopped(o, o.session).(closer := if settled then Draining(askpass) else Discarding)
    case (Discarding, Discard(finished)) => Joined(o, finished).(closer := Rechecking)
    case (Rechecking, Recheck(timeLeft)) =>
      if !o.running || timeLeft then o.(closer := Checking) else Fail(o)
    case (Draining(askpass), Drain(finished, timeLeft)) =>
      var left := Joined(o, finished);
      if left.workers == {} then left.(closer := ClosingAskpass(askpass))
      else if timeLeft then left else Fail(left)
    case (ClosingAskpass(askpass), CloseAskpass(ok)) =>
      if askpass.None? then o.(closer := TakingChild)
      else if ok then o.(closed := o.closed + {askpass.value}, closer := TakingChild)
      else Fail(o)
    case (TakingChild, TakeChild) => o.(child := None, closer := TakingAskpass)
    case (TakingAskpass, TakeAskpass) => o.(askpass := None, closer := Idle, acknowledged := true)
    case _ => o
  }

  predicate IsOperation(a: Action) {
    a.Spawn? || a.HandOver? || a.SeeExit? || a.TakeExited? || a.AddWorker? || a.TakeOutputs?
    || a.InstallAskpass? || a.Publish? || a.Settle?
  }

  function Step(o: Owner, a: Action): Owner {
    if a.Retire? then o.(retired := true)
    else if IsOperation(a) then if o.running then Operate(o, a) else o
    else Clean(o, a)
  }

  function Run(o: Owner, actions: seq<Action>): Owner {
    if actions == [] then o else Step(Run(o, actions[..|actions| - 1]), actions[|actions| - 1])
  }

  // ---------------------------------------------------------------- what every interleaving keeps

  /** Whatever was ever installed and not seen to stop is still where a retry finds it. */
  ghost predicate Kept(o: Owner) {
    && (forall p :: p in o.children && p !in o.stopped ==> o.child == Some(p) || o.session == Some(p))
    && (forall w :: w in o.threads && w !in o.joined ==> w in o.workers)
    && (forall b :: b in o.bridges && b !in o.closed ==> o.askpass == Some(b))
  }

  ghost predicate AllStopped(o: Owner) {
    o.children <= o.stopped && o.threads <= o.joined && o.bridges <= o.closed
  }

  predicate ChildStopped(o: Owner) {
    o.child.Some? ==> o.child.value in o.stopped
  }

  predicate SessionStopped(o: Owner) {
    o.session.Some? ==> o.session.value in o.stopped
  }

  /** What a pass that found the operation settled has established so far. */
  ghost predicate Certified(o: Owner) {
    match o.closer
    case Idle => true
    case Checking => true
    case Discarding => true
    case Rechecking => true
    case SeeingAskpass(settled) => settled ==> !o.running
    case StoppingChild(settled, askpass) => settled ==> !o.running && askpass == o.askpass
    case ClosingSession(settled, askpass) => settled ==> !o.running && askpass == o.askpass && ChildStopped(o)
    case Draining(askpass) => !o.running && askpass == o.askpass && ChildStopped(o) && SessionStopped(o)
    case ClosingAskpass(askpass) =>
      !o.running && askpass == o.askpass && ChildStopped(o) && SessionStopped(o) && o.workers == {}
    case TakingChild =>
      !o.running && AllStopped(o)
    case TakingAskpass => !o.running && AllStopped(o)
  }

  ghost predicate Inv(o: Owner) {
    && Kept(o)
    && Certified(o)
    && (o.acknowledged ==> !o.running && AllStopped(o))
  }

  lemma OperateKeeps(o: Owner, a: Action)
    requires Inv(o) && o.running && IsOperation(a)
    ensures Inv(Operate(o, a))
  {
  }

  lemma CleanKeepsKept(o: Owner, a: Action)
    requires Inv(o)
    ensures Kept(Clean(o, a))
  {
  }

  lemma CleanKeepsCertified(o: Owner, a: Action)
    requires Inv(o)
    ensures Certified(Clean(o, a))
  {
  }

  lemma CleanKeepsAcknowledged(o: Owner, a: Action)
    requires Inv(o)
    ensures var t := Clean(o, a); t.acknowledged ==> !t.running && AllStopped(t)
  {
  }

  lemma CleanKeeps(o: Owner, a: Action)
    requires Inv(o)
    ensures Inv(Clean(o, a))
  {
    CleanKeepsKept(o, a);
    CleanKeepsCertified(o, a);
    CleanKeepsAcknowledged(o, a);
  }

  lemma StepKeeps(o: Owner, a: Action)
    requires Inv(o)
    ensures Inv(Step(o, a))
  {
    if IsOperation(a) {
      if o.running { OperateKeeps(o, a); }
    } else if !a.Retire? {
      CleanKeeps(o, a);
    }
  }

  lemma {:induction false} RunKeeps(actions: seq<Action>)
    ensures Inv(Run(NEW_OWNER, actions))
  {
    if actions != [] {
      RunKeeps(actions[..|actions| - 1]);
      StepKeeps(Run(NEW_OWNER, actions[..|actions| - 1]), actions[|actions| - 1]);
    }
  }

  /** Acknowledgements are sound under every interleaving: a cleanup that returned success means
      the operation has settled and everything it ever installed was seen to stop. */
  lemma AcknowledgementsAreSound(actions: seq<Action>)
    requires Run(NEW_OWNER, actions).acknowledged
    ensures var o := Run(NEW_OWNER, actions); !o.running && AllStopped(o)
  {
    RunKeeps(actions);
  }

  /** At every moment, so also after any failed cleanup, what was not seen to stop is still held. */
  lemma NothingIsForgotten(actions: seq<Action>)
    ensures Kept(Run(NEW_OWNER, actions))
  {
    RunKeeps(actions);
  }

  lemma CleanupTakesOnlyJoined(o: Owner, a: Action)
    requires !IsOperation(a)
    ensures var t := Step(o, a);
            o.workers - t.workers <= t.joined && t.workers <= o.workers && t.session == o.session
  {
    if a.Discard? || a.Drain? {
      var left := Joined(o, a.finished);
      assert o.workers - left.workers <= left.joined;
    } else {
      assert Step(o, a).workers == o.workers;
    }
  }

  lemma FailedCleanupTakesNothing(o: Owner, a: Action)
    requires !IsOperation(a)
    ensures var t := Step(o, a);
            t.closer.Idle? && !o.closer.Idle? && !t.acknowledged ==> t.child == o.child && t.askpass == o.askpass
  {
  }

  /** A cleanup takes nothing away that was not seen to stop. When it fails it has taken neither
      the child nor the askpass, and of the workers only joined ones. */
  lemma CleanupTakesOnlyWhatStopped(o: Owner, a: Action)
    requires Inv(o) && !IsOperation(a)
    ensures var t := Step(o, a);
            && (t.child != o.child || t.askpass != o.askpass ==> AllStopped(o) && !o.running)
            && o.workers - t.workers <= t.joined && t.workers <= o.workers
            && t.session == o.session
            && (t.closer.Idle? && !o.closer.Idle? && !t.acknowledged ==> t.child == o.child && t.askpass == o.askpass)
  {
    CleanupTakesOnlyJoined(o, a);
    FailedCleanupTakesNothing(o, a);
  }

  function Approach(o: Owner): Owner {
    Step(Step(Step(o, BeginCleanup), LoadRunning), SeeAskpass(true))
  }

  /** The first half of a pass: everything that is there at this time is stopped. */
  function StopAssets(o: Owner): Owner {
    Step(Step(Approach(o), StopChild(true)), CloseSession(true))
  }

  lemma ApproachIs(o: Owner)
    requires o.closer.Idle?
    ensures Approach(o) == o.(closer := StoppingChild(!o.running, o.askpass),
                              closed := if o.askpass.Some? then o.closed + {o.askpass.value} else o.closed)
  {
  }

  lemma StopAndClose(o: Owner)
    requires o.closer.StoppingChild?
    ensures Step(Step(o, StopChild(true)), CloseSession(true))
            == Stopped(Stopped(o, o.child), o.session).(
                 closer := if o.closer.settled then Draining(o.closer.askpass) else Discarding)
  {
  }

  lemma StopAssetsIs(o: Owner)
    requires o.closer.Idle?
    ensures StopAssets(o) == Stopped(Stopped(Approach(o), o.child), o.session).(
                               closer := if o.running then Discarding else Draining(o.askpass))
  {
    ApproachIs(o);
    StopAndClose(Approach(o));
  }

  /** The second half, when everything has finished. */
  function Acknowledge(o: Owner): Owner {
    Step(Step(Step(Step(o, Drain(o.workers, false)), CloseAskpass(true)), TakeChild), TakeAskpass)
  }

  lemma AcknowledgeIs(o: Owner)
    requires o.closer.Draining?
    ensures var t := Acknowledge(o); t.acknowledged && t.child.None? && t.askpass.None? && t.workers == {}
  {
    var drained := Step(o, Drain(o.workers, false));
    assert drained.closer == ClosingAskpass(o.closer.askpass) && drained.workers == {};
    var down := Step(drained, CloseAskpass(true));
    assert down.closer == TakingChild && down.workers == {};
  }

  /** A retry after the operation has settled acknowledges as soon as the stops succeed. */
  lemma RetrySucceeds(o: Owner)
    requires !o.running && o.closer.Idle?
    ensures var t := Acknowledge(StopAssets(o));
            t.acknowledged && t.child.None? && t.askpass.None? && t.workers == {}
  {
    StopAssetsIs(o);
    AcknowledgeIs(StopAssets(o));
  }

  /** Why a pass that began before settlement certifies nothing: all it saw is stopped, the
      operation settles, and a child installed in between runs on. */
  lemma EarlySnapshotsCertifyNothing(child: Asset)
    ensures var seen := StopAssets(NEW_OWNER);
            var o := Step(Step(seen, Spawn(child)), Settle);
            && ChildStopped(seen) && SessionStopped(seen) && seen.workers == {} && seen.askpass.None?
            && !o.running && !AllStopped(o) && !o.acknowledged
            && Step(Step(o, Discard({})), Recheck(true)).closer == Checking
  {
    StopAssetsIs(NEW_OWNER);
    ApproachIs(NEW_OWNER);
    InstalledLate(StopAssets(NEW_OWNER), child);
  }

  lemma InstalledLate(seen: Owner, child: Asset)
    requires seen == NEW_OWNER.(closer := Discarding)
    ensures var o := Step(Step(seen, Spawn(child)), Settle);
            && o == seen.(child := Some(child), children := {child}, running := false)
            && !AllStopped(o) && Step(Step(o, Discard({})), Recheck(true)).closer == Checking
  {
    var o := Step(Step(seen, Spawn(child)), Settle);
    assert o == seen.(child := Some(child), children := {child}, running := false);
    assert child in o.children && child !in o.stopped;
    assert Step(o, Discard({})).closer == Rechecking;
  }

  // ---------------------------------------------------------------- the worker list

  /** Joins and removes the finished workers: the last worker takes the place of a removed one. */
  method DiscardFinished(workers: seq<Asset>, finished: set<Asset>) returns (left: seq<Asset>, isEmpty: bool)
    ensures forall w :: multiset(left)[w] == if w in finished then 0 else multiset(workers)[w]
    ensures isEmpty <==> forall w :: w in workers ==> w in finished
  {
    left := workers;
    var index := 0;
    while index < |left|
      invariant index <= |left|
      invariant forall i :: 0 <= i < index ==> left[i] !in finished
      invariant forall w :: w !in finished ==> multiset(left)[w] == multiset(workers)[w]
      decreases |left| - index
    {
      if left[index] in finished {
        ghost var before := left;
        left := SwapRemove(left, index);
      } else {
        index := index + 1;
      }
    }
    isEmpty := left == [];
    forall w | w in finished ensures multiset(left)[w] == 0 {
      assert w !in left;
    }
    if isEmpty {
      forall w | w in workers ensures w in finished {
        assert multiset(workers)[w] > 0;
      }
    } else {
      assert multiset(workers)[left[0]] > 0;
    }
  }

  function SwapRemove(items: seq<Asset>, at: nat): (left: seq<Asset>)
    requires at < |items|
    ensures |left| == |items| - 1 && left[..at] == items[..at]
    ensures multiset(left) + multiset{items[at]} == multiset(items)
  {
    var last := |items| - 1;
    assert items == items[..last] + [items[last]];
    if at == last then items[..last]
    else
      assert items[..last] == items[..at] + [items[at]] + items[at + 1..last];
      var left := items[..at] + [items[last]] + items[at + 1..last];
      left
  }
}
