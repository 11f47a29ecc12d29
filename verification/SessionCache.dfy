/**
 The bounded map of recently used sessions, oldest use first, as an insertion-ordered
 Map behaves when every use deletes and re-inserts its key.
 */
module SessionCache {
  import opened Wrappers
  import opened Sessions

  const CACHED_SESSIONS := 32

  function Cached(cache: seq<HostSession>, id: Id): (value: Option<HostSession>)
    ensures value.Some? ==> value.value in cache && value.value.session.id == id
    ensures value.None? ==> forall v :: v in cache ==> v.session.id != id
  {
    if cache == [] then None
    else if cache[0].session.id == id then Some(cache[0])
    else Cached(cache[1..], id)
  }

  function Without(cache: seq<HostSession>, id: Id): (rest: seq<HostSession>)
    ensures |rest| <= |cache|
    ensures forall v :: v in rest <==> v in cache && v.session.id != id
  {
    if cache == [] then []
    else (if cache[0].session.id == id then [] else [cache[0]]) + Without(cache[1..], id)
  }

  function Remember(cache: seq<HostSession>, value: HostSession): seq<HostSession> {
    var used := Without(cache, value.session.id) + [value];
    if |used| > CACHED_SESSIONS then used[1..] else used
  }

  predicate DistinctKeys(cache: seq<HostSession>) {
    forall i, j :: 0 <= i < j < |cache| ==> cache[i].session.id != cache[j].session.id
  }

  lemma {:induction false} WithoutKeepsDistinct(cache: seq<HostSession>, id: Id)
    requires DistinctKeys(cache)
    ensures DistinctKeys(Without(cache, id))
    ensures |Without(cache, id)| == if Cached(cache, id).Some? then |cache| - 1 else |cache|
  {
    if cache != [] {
      WithoutKeepsDistinct(cache[1..], id);
      if cache[0].session.id == id {
        forall v | v in cache[1..] ensures v.session.id != id {
          var i :| 0 <= i < |cache[1..]| && cache[1..][i] == v;
          assert cache[i + 1] == v;
        }
        assert Cached(cache[1..], id).None?;
      }
    }
  }

  lemma NewestIsDistinct(cache: seq<HostSession>, value: HostSession)
    requires DistinctKeys(cache) && forall v :: v in cache ==> v.session.id != value.session.id
    ensures DistinctKeys(cache + [value]) && DistinctKeys((cache + [value])[1..])
  {
    var used := cache + [value];
    forall i, j | 0 <= i < j < |used| ensures used[i].session.id != used[j].session.id {
      if j == |cache| { assert used[i] in cache; }
    }
  }

  lemma RememberKeepsDistinct(cache: seq<HostSession>, value: HostSession)
    requires DistinctKeys(cache) && |cache| <= CACHED_SESSIONS
    ensures DistinctKeys(Remember(cache, value)) && |Remember(cache, value)| <= CACHED_SESSIONS
    ensures forall v :: v in Remember(cache, value) ==> v == value || (v in cache && v.session.id != value.session.id)
  {
    var rest := Without(cache, value.session.id);
    WithoutKeepsDistinct(cache, value.session.id);
    NewestIsDistinct(rest, value);
    forall v | v in Remember(cache, value) ensures v == value || v in rest {
      var i :| 0 <= i < |Remember(cache, value)| && Remember(cache, value)[i] == v;
    }
  }

  // ---------------------------------------------------------------- eviction order

  datatype Access = Use(value: HostSession) | Drop(id: Id) | Clear

  function Caching(accesses: seq<Access>): seq<HostSession> {
    if accesses == [] then []
    else
      var before := Caching(accesses[..|accesses| - 1]);
      match accesses[|accesses| - 1]
      case Use(value) => Remember(before, value)
      case Drop(id) => Without(before, id)
      case Clear => []
  }

  /** Every session ever used and not dropped, least recently used first, without any bound. */
  function Recency(accesses: seq<Access>): seq<HostSession> {
    if accesses == [] then []
    else
      var before := Recency(accesses[..|accesses| - 1]);
      match accesses[|accesses| - 1]
      case Use(value) => Without(before, value.session.id) + [value]
      case Drop(id) => Without(before, id)
      case Clear => []
  }

  lemma {:induction false} WithoutDistributes(a: seq<HostSession>, b: seq<HostSession>, id: Id)
    ensures Without(a + b, id) == Without(a, id) + Without(b, id)
  {
    if a == [] {
      assert a + b == b;
    } else {
      assert (a + b)[1..] == a[1..] + b;
      WithoutDistributes(a[1..], b, id);
    }
  }

  /** `held` is the most recent end of `all`; when `full`, as much of it as fits. */
  ghost predicate Mirrors(all: seq<HostSession>, held: seq<HostSession>, full: bool) {
    && |held| <= CACHED_SESSIONS
    && |held| <= |all|
    && all[|all| - |held|..] == held
    && DistinctKeys(all)
    && (full ==> |held| == CACHED_SESSIONS || held == all)
  }

  lemma WithoutKeepsMirror(all: seq<HostSession>, held: seq<HostSession>, id: Id)
    requires Mirrors(all, held, false)
    ensures Mirrors(Without(all, id), Without(held, id), false)
    ensures |held| <= |Without(held, id)| + 1
    ensures held == all ==> Without(held, id) == Without(all, id)
    ensures forall v :: v in Without(all, id) ==> v.session.id != id
  {
    var front := all[..|all| - |held|];
    assert all == front + held;
    WithoutDistributes(front, held, id);
    WithoutKeepsDistinct(all, id);
    assert DistinctKeys(held);
    WithoutKeepsDistinct(held, id);
  }

  lemma AppendKeepsMirror(all: seq<HostSession>, held: seq<HostSession>, value: HostSession, full: bool)
    requires Mirrors(all, held, false) && (forall v :: v in all ==> v.session.id != value.session.id)
    requires full ==> |held| + 1 >= CACHED_SESSIONS || held == all
    ensures var used := held + [value];
            Mirrors(all + [value], if |used| > CACHED_SESSIONS then used[1..] else used, full)
  {
    var used := held + [value];
    var kept := if |used| > CACHED_SESSIONS then used[1..] else used;
    var more := all + [value];
    assert more[|more| - |kept|..] == kept;
  }

  lemma UseKeepsMirror(all: seq<HostSession>, held: seq<HostSession>, value: HostSession, full: bool)
    requires Mirrors(all, held, full)
    ensures Mirrors(Without(all, value.session.id) + [value], Remember(held, value), full)
  {
    WithoutKeepsMirror(all, held, value.session.id);
    AppendKeepsMirror(Without(all, value.session.id), Without(held, value.session.id), value, full);
  }

  /** After any accesses the cache is the most recent end of the unbounded recency list: what
      it evicted was used less recently than everything it holds. Without drops it holds as
      much of that list as fits. */
  lemma {:induction false} CacheIsMostRecent(accesses: seq<Access>)
    ensures Mirrors(Recency(accesses), Caching(accesses), forall a :: a in accesses ==> !a.Drop?)
  {
    if accesses != [] {
      var n := |accesses| - 1;
      var front := accesses[..n];
      CacheIsMostRecent(front);
      var full := forall a :: a in accesses ==> !a.Drop?;
      assert forall a :: a in front ==> a in accesses;
      assert Mirrors(Recency(front), Caching(front), full);
      match accesses[n] {
        case Use(value) => UseKeepsMirror(Recency(front), Caching(front), value, full);
        case Drop(id) =>
          WithoutKeepsMirror(Recency(front), Caching(front), id);
          assert accesses[n] in accesses;
        case Clear =>
      }
    }
  }
}
