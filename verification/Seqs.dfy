/** Small facts about sequences that proofs by induction on the last element need. */
module Seqs {

  lemma Regroup<T>(left: seq<T>, middle: seq<T>, right: seq<T>)
    ensures left + (middle + right) == left + middle + right
  {
  }

  lemma Appended<T>(front: seq<T>, last: T)
    ensures |front + [last]| == |front| + 1
    ensures (front + [last])[..|front|] == front && (front + [last])[|front|] == last
  {
  }

  lemma SplitLast<T>(items: seq<T>)
    requires items != []
    ensures items == items[..|items| - 1] + [items[|items| - 1]]
  {
  }
}
