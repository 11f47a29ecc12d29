/**
 Incremental splitting of a stream: a buffer grows at the end, and complete items are taken
 from its front as soon as they are there.
 */
module Framing {
  import opened Wrappers

  /** What the front of a buffer holds: nothing complete yet, something broken, or an item. */
  datatype Step<V, E> = Waiting | Broken(error: E) | Item(value: V, size: nat)

  type Splitter<!T, V, E> = seq<T> -> Step<V, E>

  ghost predicate Advances<T(!new), V, E>(next: Splitter<T, V, E>) {
    forall buffer :: next(buffer).Item? ==> 0 < next(buffer).size <= |buffer|
  }

  /** Later input never changes what the front of the buffer turned out to be. */
  ghost predicate Stable<T(!new), V, E>(next: Splitter<T, V, E>) {
    forall buffer, more :: !next(buffer).Waiting? ==> next(buffer + more) == next(buffer)
  }

  datatype Drained<T, V, E> = Drained(values: seq<V>, rest: seq<T>, error: Option<E>)

  /** Every complete item at the front of the buffer, and what is left. */
  function Drain<T(!new), V, E>(next: Splitter<T, V, E>, buffer: seq<T>): (drained: Drained<T, V, E>)
    requires Advances(next)
    ensures |drained.rest| <= |buffer|
    decreases |buffer|
  {
    match next(buffer)
    case Waiting => Drained([], buffer, None)
    case Broken(error) => Drained([], buffer, Some(error))
    case Item(value, size) =>
      var later := Drain(next, buffer[size..]);
      later.(values := [value] + later.values)
  }

  /** What was drained before, then what is drained later. */
  function After<T(!new), V, E>(values: seq<V>, later: Drained<T, V, E>): Drained<T, V, E> {
    later.(values := values + later.values)
  }

  lemma AfterIsAssociative<T(!new), V, E>(first: seq<V>, second: seq<V>, later: Drained<T, V, E>)
    ensures After(first, After(second, later)) == After(first + second, later)
    ensures After([], later) == later
  {
    assert first + (second + later.values) == first + second + later.values;
    assert [] + later.values == later.values;
  }

  lemma DrainUnfolds<T(!new), V, E>(next: Splitter<T, V, E>, buffer: seq<T>)
    requires Advances(next)
    ensures next(buffer).Waiting? ==> Drain(next, buffer) == Drained([], buffer, None)
    ensures next(buffer).Broken? ==> Drain(next, buffer) == Drained([], buffer, Some(next(buffer).error))
    ensures next(buffer).Item? ==>
              next(buffer).size <= |buffer|
              && Drain(next, buffer) == After([next(buffer).value], Drain(next, buffer[next(buffer).size..]))
  {
  }

  /** Taking the item at the front of the buffer, in the middle of draining `all`. */
  lemma TakeItem<T(!new), V, E>(next: Splitter<T, V, E>, all: Drained<T, V, E>, taken: seq<V>, buffer: seq<T>)
    requires Advances(next) && next(buffer).Item? && all == After(taken, Drain(next, buffer))
    ensures 0 < next(buffer).size <= |buffer|
    ensures all == After(taken + [next(buffer).value], Drain(next, buffer[next(buffer).size..]))
  {
    DrainUnfolds(next, buffer);
    AfterIsAssociative(taken, [next(buffer).value], Drain(next, buffer[next(buffer).size..]));
  }

  /** The end of draining `all`. */
  lemma NoMoreItems<T(!new), V, E>(next: Splitter<T, V, E>, all: Drained<T, V, E>, taken: seq<V>, buffer: seq<T>)
    requires Advances(next) && !next(buffer).Item? && all == After(taken, Drain(next, buffer))
    ensures all == Drained(taken, buffer, if next(buffer).Broken? then Some(next(buffer).error) else None)
  {
    DrainUnfolds(next, buffer);
    assert taken + [] == taken;
  }

  lemma SameStep<T(!new), V, E>(next: Splitter<T, V, E>, buffer: seq<T>, more: seq<T>)
    requires Stable(next) && !next(buffer).Waiting?
    ensures next(buffer + more) == next(buffer)
  {
  }

  /** How the drain of a whole stream relates to that of its first part. */
  ghost predicate InParts<T(!new), V, E>(next: Splitter<T, V, E>, first: Drained<T, V, E>,
                                         whole: Drained<T, V, E>, more: seq<T>)
    requires Advances(next)
  {
    if first.error.Some? then whole.error == first.error && whole.values == first.values
    else whole == After(first.values, Drain(next, first.rest + more))
  }

  lemma AfterInParts<T(!new), V, E>(next: Splitter<T, V, E>, value: V, first: Drained<T, V, E>,
                                    whole: Drained<T, V, E>, more: seq<T>)
    requires Advances(next) && InParts(next, first, whole, more)
    ensures InParts(next, After([value], first), After([value], whole), more)
  {
    if first.error.None? {
      AfterIsAssociative([value], first.values, Drain(next, first.rest + more));
    }
  }

  /** Draining in two parts is draining the whole; an error found in the first part stays. */
  lemma {:induction false} DrainInParts<T(!new), V, E>(next: Splitter<T, V, E>, buffer: seq<T>, more: seq<T>)
    requires Advances(next) && Stable(next)
    ensures InParts(next, Drain(next, buffer), Drain(next, buffer + more), more)
    decreases |buffer|
  {
    var step := next(buffer);
    DrainUnfolds(next, buffer);
    if step.Waiting? {
      AfterIsAssociative([], [], Drain(next, buffer + more));
    } else {
      SameStep(next, buffer, more);
      DrainUnfolds(next, buffer + more);
      if step.Item? {
        assert (buffer + more)[step.size..] == buffer[step.size..] + more;
        DrainInParts(next, buffer[step.size..], more);
        AfterInParts(next, step.value, Drain(next, buffer[step.size..]), Drain(next, buffer[step.size..] + more), more);
      }
    }
  }

  /** The pieces of a stream put together. */
  function Flatten<T>(pieces: seq<seq<T>>): seq<T> {
    if pieces == [] then [] else Flatten(pieces[..|pieces| - 1]) + pieces[|pieces| - 1]
  }

  lemma {:induction false} FlattenOfConcat<T>(left: seq<seq<T>>, right: seq<seq<T>>)
    ensures Flatten(left + right) == Flatten(left) + Flatten(right)
  {
    if right == [] {
      assert left + right == left;
    } else {
      var all := left + right;
      assert all[..|all| - 1] == left + right[..|right| - 1];
      FlattenOfConcat(left, right[..|right| - 1]);
    }
  }

  lemma FlattenFirst<T>(pieces: seq<seq<T>>)
    requires pieces != []
    ensures Flatten(pieces) == pieces[0] + Flatten(pieces[1..])
  {
    assert pieces == [pieces[0]] + pieces[1..];
    FlattenOfConcat([pieces[0]], pieces[1..]);
    assert [pieces[0]][..0] == [];
  }
}
