/**
 The registry of bootstrap owners, shared by every operation and every closing thread: its
 critical sections, one at a time, and what each keeps. BootstrapThreads interleaves them.
 */
module BootstrapRegistry {
  import opened Wrappers
  import Bootstrap

  const MAX_OWNERS := 256

  type Id = nat
  /** The identity of an owner object, which its id does not determine. */
  type Handle = nat
  type Binding = string
  type Gate = nat

  datatype Entry = Entry(id: Id, binding: Binding, gate: Gate, owner: Bootstrap.Owner)

  /** The registered owners, and every owner object ever made. */
  datatype Registry = Registry(owners: map<Id, Handle>, objects: map<Handle, Entry>)

  const EMPTY := Registry(map[], map[])

  datatype ReserveError = CapacityReached | DuplicateOwner

  predicate SharesBinding(r: Registry, id: Id, binding: Binding) {
    id in r.owners && r.owners[id] in r.objects && r.objects[r.owners[id]].binding == binding
  }

  predicate GateFor(r: Registry, binding: Binding, newGate: Gate, gate: Gate) {
    if exists id :: id in r.owners && SharesBinding(r, id, binding)
    then exists id :: id in r.owners && SharesBinding(r, id, binding) && r.objects[r.owners[id]].gate == gate
    else gate == newGate
  }

  function ReserveFailure(r: Registry, id: Id): Option<ReserveError> {
    if |r.owners| >= MAX_OWNERS then Some(CapacityReached)
    else if id in r.owners then Some(DuplicateOwner)
    else None
  }

  function Insert(r: Registry, id: Id, binding: Binding, gate: Gate, handle: Handle): Registry {
    Registry(r.owners[id := handle], r.objects[handle := Entry(id, binding, gate, Bootstrap.NEW_OWNER)])
  }

  /** Removes exactly this owner object, if it is the one registered under its id. */
  function Remove(r: Registry, handle: Handle): Registry
    requires handle in r.objects
  {
    var id := r.objects[handle].id;
    if id in r.owners && r.owners[id] == handle then r.(owners := r.owners - {id}) else r
  }

  function Act(r: Registry, handle: Handle, a: Bootstrap.Action): Registry
    requires handle in r.objects
  {
    r.(objects := r.objects[handle := r.objects[handle].(owner := Bootstrap.Step(r.objects[handle].owner, a))])
  }

  predicate Retired(r: Registry, id: Id) {
    id in r.owners && r.owners[id] in r.objects && r.objects[r.owners[id]].owner.retired
  }

  /** Whether an operation may go on: it is not retired, and neither is any owner it shares
      its binding with. */
  predicate CheckStage(r: Registry, handle: Handle)
    requires handle in r.objects
  {
    && !r.objects[handle].owner.retired
    && forall id :: id in r.owners && SharesBinding(r, id, r.objects[handle].binding) ==> !Retired(r, id)
  }

  // ---------------------------------------------------------------- what the critical sections keep

  ghost predicate Keyed(r: Registry) {
    forall id :: id in r.owners ==> r.owners[id] in r.objects && r.objects[r.owners[id]].id == id
  }

  ghost predicate OwnersOk(r: Registry) {
    forall h :: h in r.objects ==> Bootstrap.Inv(r.objects[h].owner)
  }

  /** An owner that has not acknowledged is registered. */
  ghost predicate Conserved(r: Registry) {
    forall h :: h in r.objects && !r.objects[h].owner.acknowledged ==>
      r.objects[h].id in r.owners && r.owners[r.objects[h].id] == h
  }

  ghost predicate GatesShared(r: Registry) {
    forall i, j :: i in r.owners && j in r.owners && r.owners[i] in r.objects && r.owners[j] in r.objects
                   && r.objects[r.owners[i]].binding == r.objects[r.owners[j]].binding
                   ==> r.objects[r.owners[i]].gate == r.objects[r.owners[j]].gate
  }

  ghost predicate Inv(r: Registry) {
    && |r.owners| <= MAX_OWNERS
    && Keyed(r) && OwnersOk(r) && Conserved(r) && GatesShared(r)
  }

  lemma InsertKeepsGates(r: Registry, id: Id, binding: Binding, gate: Gate, handle: Handle, newGate: Gate)
    requires Keyed(r) && GatesShared(r) && handle !in r.objects && GateFor(r, binding, newGate, gate)
    ensures GatesShared(Insert(r, id, binding, gate, handle))
  {
    var t := Insert(r, id, binding, gate, handle);
    forall i | i in r.owners && i != id && r.objects[r.owners[i]].binding == binding
      ensures r.objects[r.owners[i]].gate == gate
    {
      assert SharesBinding(r, i, binding);
    }
  }

  lemma InsertKeepsOwners(r: Registry, id: Id, binding: Binding, gate: Gate, handle: Handle)
    requires Keyed(r) && OwnersOk(r) && Conserved(r) && id !in r.owners && handle !in r.objects
    ensures var t := Insert(r, id, binding, gate, handle); Keyed(t) && OwnersOk(t) && Conserved(t)
  {
    assert Bootstrap.Inv(Bootstrap.NEW_OWNER);
  }

  lemma InsertIsBounded(r: Registry, id: Id, binding: Binding, gate: Gate, handle: Handle)
    requires |r.owners| < MAX_OWNERS
    ensures |Insert(r, id, binding, gate, handle).owners| <= MAX_OWNERS
  {
    assert Insert(r, id, binding, gate, handle).owners.Keys == r.owners.Keys + {id};
  }

  lemma InsertKeeps(r: Registry, id: Id, binding: Binding, gate: Gate, handle: Handle, newGate: Gate)
    requires Inv(r) && ReserveFailure(r, id).None? && handle !in r.objects && GateFor(r, binding, newGate, gate)
    ensures Inv(Insert(r, id, binding, gate, handle))
  {
    InsertKeepsGates(r, id, binding, gate, handle, newGate);
    InsertKeepsOwners(r, id, binding, gate, handle);
    InsertIsBounded(r, id, binding, gate, handle);
  }

  lemma RemoveKeeps(r: Registry, handle: Handle)
    requires Inv(r) && handle in r.objects && r.objects[handle].owner.acknowledged
    ensures Inv(Remove(r, handle))
  {
    var t := Remove(r, handle);
    assert t.owners.Keys <= r.owners.Keys;
    SubsetSize(t.owners.Keys, r.owners.Keys);
  }

  lemma {:induction false} SubsetSize<T>(small: set<T>, large: set<T>)
    requires small <= large
    ensures |small| <= |large|
  {
    if small != {} {
      var x :| x in small;
      SubsetSize(small - {x}, large - {x});
    }
  }

  lemma ReplacedOwner(r: Registry, handle: Handle, owner: Bootstrap.Owner)
    requires Inv(r) && handle in r.objects && Bootstrap.Inv(owner)
    requires r.objects[handle].owner.acknowledged ==> owner.acknowledged
    ensures Inv(r.(objects := r.objects[handle := r.objects[handle].(owner := owner)]))
  {
  }

  /** A step of an owner never undoes its acknowledgement. */
  lemma ActKeeps(r: Registry, handle: Handle, a: Bootstrap.Action)
    requires Inv(r) && handle in r.objects
    ensures Inv(Act(r, handle, a))
  {
    var owner := r.objects[handle].owner;
    assert Bootstrap.Inv(owner);
    Bootstrap.StepKeeps(owner, a);
    AcknowledgedForGood(owner, a);
    ReplacedOwner(r, handle, Bootstrap.Step(owner, a));
  }

  lemma AcknowledgedForGood(o: Bootstrap.Owner, a: Bootstrap.Action)
    ensures o.acknowledged ==> Bootstrap.Step(o, a).acknowledged
  {
  }

  /** Removing an owner object removes its own registration, and never that of a newer owner
      with the same id. */
  lemma OnlyItsOwnRegistration(r: Registry, handle: Handle)
    requires Keyed(r) && handle in r.objects
    ensures forall id :: id in Remove(r, handle).owners <==> id in r.owners && r.owners[id] != handle
    ensures forall id :: id in Remove(r, handle).owners ==> Remove(r, handle).owners[id] == r.owners[id]
  {
  }
}
