/** Finding one sequence in another. */
module Search {
  import opened Wrappers

  predicate OccursAt<T(==)>(haystack: seq<T>, needle: seq<T>, at: int) {
    0 <= at <= |haystack| - |needle| && haystack[at..at + |needle|] == needle
  }

  lemma ShiftedSlice<T>(haystack: seq<T>, at: nat, length: nat)
    requires 1 <= at && at + length <= |haystack|
    ensures haystack[at..at + length] == haystack[1..][at - 1..at - 1 + length]
  {
  }

  /** The first place where the needle occurs. */
  function Find<T(==)>(haystack: seq<T>, needle: seq<T>): (at: Option<nat>)
    requires needle != []
    ensures at.Some? ==> OccursAt(haystack, needle, at.value) && forall i :: i < at.value ==> !OccursAt(haystack, needle, i)
    ensures at.None? ==> forall i :: !OccursAt(haystack, needle, i)
  {
    if |haystack| < |needle| then None
    else if haystack[..|needle|] == needle then Some(0)
    else
      var later := Find(haystack[1..], needle);
      forall i {:trigger OccursAt(haystack, needle, i)} | i >= 1
        ensures OccursAt(haystack, needle, i) == OccursAt(haystack[1..], needle, i - 1)
      {
        if i <= |haystack| - |needle| { ShiftedSlice(haystack, i, |needle|); }
      }
      if later.None? then None else Some(later.value + 1)
  }

  lemma FindIsFirst<T>(haystack: seq<T>, needle: seq<T>, at: nat)
    requires needle != [] && OccursAt(haystack, needle, at)
    requires forall i :: i < at ==> !OccursAt(haystack, needle, i)
    ensures Find(haystack, needle) == Some(at)
  {
  }

  lemma FindIsStable<T>(haystack: seq<T>, more: seq<T>, needle: seq<T>)
    requires needle != [] && Find(haystack, needle).Some?
    ensures Find(haystack + more, needle) == Find(haystack, needle)
  {
    var at := Find(haystack, needle).value;
    forall i | 0 <= i <= at ensures OccursAt(haystack + more, needle, i) == OccursAt(haystack, needle, i) {
      assert (haystack + more)[i..i + |needle|] == haystack[i..i + |needle|];
    }
    FindIsFirst(haystack + more, needle, at);
  }
}
