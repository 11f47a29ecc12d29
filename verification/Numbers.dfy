/** The least element of a finite set of integers. */
module Numbers {

  lemma Member<T>(s: set<T>) returns (x: T)
    requires s != {}
    ensures x in s
  {
    x :| x in s;
  }

  lemma {:induction false} LeastExists(numbers: set<int>)
    requires numbers != {}
    ensures exists least :: least in numbers && forall n :: n in numbers ==> least <= n
  {
    var n := Member(numbers);
    var rest := numbers - {n};
    if rest == {} {
      assert numbers == {n};
    } else {
      LeastExists(rest);
      var least :| least in rest && forall m :: m in rest ==> least <= m;
      var smaller := if n < least then n else least;
      assert smaller in numbers;
      forall m | m in numbers ensures smaller <= m {
        assert m == n || m in rest;
      }
    }
  }

  function Least(numbers: set<int>): (least: int)
    requires numbers != {}
    ensures least in numbers && forall n :: n in numbers ==> least <= n
  {
    LeastExists(numbers);
    var least :| least in numbers && forall n :: n in numbers ==> least <= n;
    least
  }
}
