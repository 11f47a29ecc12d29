/**
 Per-block change stamps, the sync answer built from them, and the client that applies it.

 A saved block keeps its stamp while it does not change, so a client that holds an
 earlier revision needs only the blocks stamped later.
 */
module DeltaSync {
  import opened Wrappers
  import opened Sessions

  /** The stamp of one block of a value being saved at `revision`. */
  function StampOf(previous: Option<HostSession>, block: Block, revision: int): int {
    if previous.Some? && previous.value.blockRevisions.Some?
       && block.id in previous.value.blockRevisions.value
       && Lookup(previous.value.session.blocks, block.id) == Some(block)
    then previous.value.blockRevisions.value[block.id]
    else revision
  }

  function Revisions(previous: Option<HostSession>, blocks: seq<Block>, revision: int): map<Id, int> {
    if blocks == [] then map[]
    else
      var last := blocks[|blocks| - 1];
      Revisions(previous, blocks[..|blocks| - 1], revision)[last.id := StampOf(previous, last, revision)]
  }

  lemma {:induction false} RevisionsFollowLookup(previous: Option<HostSession>, blocks: seq<Block>, revision: int, id: Id)
    ensures id in Revisions(previous, blocks, revision) <==> Lookup(blocks, id).Some?
    ensures Lookup(blocks, id).Some? ==>
              Revisions(previous, blocks, revision)[id] == StampOf(previous, Lookup(blocks, id).value, revision)
  {
    if blocks != [] {
      RevisionsFollowLookup(previous, blocks[..|blocks| - 1], revision, id);
    }
  }

  /** Fills the record block by block, as the host does. */
  method BlockRevisions(previous: Option<HostSession>, next: HostSession) returns (revisions: map<Id, int>)
    ensures revisions == Revisions(previous, next.session.blocks, next.revision)
  {
    revisions := map[];
    var blocks := next.session.blocks;
    for i := 0 to |blocks|
      invariant revisions == Revisions(previous, blocks[..i], next.revision)
    {
      var block := blocks[i];
      var before := if previous.Some? then Lookup(previous.value.session.blocks, block.id) else None;
      var stamps := if previous.Some? then previous.value.blockRevisions else None;
      var stamp :=
        if stamps.Some? && block.id in stamps.value then Some(stamps.value[block.id]) else None;
      assert blocks[..i + 1][..i] == blocks[..i];
      revisions := revisions[block.id :=
        if before.Some? && stamp.Some? && before.value == block then stamp.value else next.revision];
    }
    assert blocks[..|blocks|] == blocks;
  }

  // ---------------------------------------------------------------- the host's answer

  datatype SessionSync =
    | Unchanged(revision: int)
    | Snapshot(value: HostSession)
    | Delta(base: int, shell: HostSession, blockIds: seq<Id>, blocks: seq<Block>)

  /** What leaves the host: the stamps stay behind. */
  function Strip(value: HostSession): HostSession {
    value.(blockRevisions := None)
  }

  function Shell(value: HostSession): HostSession {
    Strip(value).(session := value.session.(blocks := []))
  }

  predicate IsAfter(stamps: map<Id, int>, now: int, revision: int, id: Id) {
    (if id in stamps then stamps[id] else now) > revision
  }

  /** The blocks stamped after `revision`, in order. */
  function ChangedAfter(blocks: seq<Block>, stamps: map<Id, int>, now: int, revision: int): seq<Block> {
    if blocks == [] then []
    else
      var last := blocks[|blocks| - 1];
      ChangedAfter(blocks[..|blocks| - 1], stamps, now, revision) +
      (if IsAfter(stamps, now, revision, last.id) then [last] else [])
  }

  function Sync(value: HostSession, revision: Option<int>): SessionSync {
    if revision == Some(value.revision) then Unchanged(value.revision)
    else if revision.None? || revision.value > value.revision || value.blockRevisions.None? then
      Snapshot(Strip(value))
    else
      Delta(
        revision.value,
        Shell(value),
        Ids(value.session.blocks),
        ChangedAfter(value.session.blocks, value.blockRevisions.value, value.revision, revision.value))
  }

  // ---------------------------------------------------------------- the client

  datatype SyncError = BaseMismatch | MissingBlock

  function Assemble(ids: seq<Id>, pool: seq<Block>): Result<seq<Block>, SyncError> {
    if ids == [] then Ok([])
    else
      var front := Assemble(ids[..|ids| - 1], pool);
      var block := Lookup(pool, ids[|ids| - 1]);
      if front.Err? then front
      else if block.None? then Err(MissingBlock)
      else Ok(front.value + [block.value])
  }

  function ApplySessionSync(known: Option<HostSession>, sync: SessionSync): Result<HostSession, SyncError> {
    match sync
    case Snapshot(value) => Ok(value)
    case Unchanged(revision) =>
      if known.None? || known.value.revision != revision then Err(BaseMismatch) else Ok(known.value)
    case Delta(base, shell, blockIds, blocks) =>
      if known.None? || known.value.revision != base then Err(BaseMismatch)
      else
        var assembled := Assemble(blockIds, known.value.session.blocks + blocks);
        if assembled.Err? then Err(assembled.error)
        else Ok(shell.(session := shell.session.(blocks := assembled.value)))
  }

  // ---------------------------------------------------------------- histories of saves

  /** Consecutive saved values of one session, oldest first. The first may come from a
      host that kept no stamps. */
  ghost predicate Saved(history: seq<HostSession>) {
    && |history| > 0
    && (history[0].blockRevisions.None? ||
        history[0].blockRevisions == Some(Revisions(None, history[0].session.blocks, history[0].revision)))
    && forall i :: 0 < i < |history| ==> SavedAfter(history[i - 1], history[i])
  }

  ghost predicate SavedAfter(previous: HostSession, next: HostSession) {
    && previous.revision < next.revision
    && next.blockRevisions == Some(Revisions(Some(previous), next.session.blocks, next.revision))
  }

  lemma SavedExtends(history: seq<HostSession>, next: HostSession)
    requires Saved(history) && SavedAfter(history[|history| - 1], next)
    ensures Saved(history + [next])
  {
    var longer := history + [next];
    forall i | 0 < i < |longer| ensures SavedAfter(longer[i - 1], longer[i]) {
      if i < |history| { assert SavedAfter(history[i - 1], history[i]); }
    }
  }

  lemma SavedPrefix(history: seq<HostSession>, n: nat)
    requires Saved(history) && 0 < n <= |history|
    ensures Saved(history[..n])
  {
    forall i | 0 < i < n ensures SavedAfter(history[..n][i - 1], history[..n][i]) {
      assert SavedAfter(history[i - 1], history[i]);
    }
  }

  lemma {:induction false} RevisionsIncrease(history: seq<HostSession>, i: nat, j: nat)
    requires Saved(history) && i < j < |history|
    ensures history[i].revision < history[j].revision
    decreases j - i
  {
    assert SavedAfter(history[j - 1], history[j]);
    if i + 1 < j { RevisionsIncrease(history, i, j - 1); }
  }

  /** A block stamped s is the same block in every value saved from s to now. */
  lemma {:induction false} StampMeansUnchanged(history: seq<HostSession>, id: Id, j: nat)
    requires Saved(history) && j < |history|
    requires var now := history[|history| - 1];
             now.blockRevisions.Some? && id in now.blockRevisions.value
             && now.blockRevisions.value[id] <= history[j].revision
    ensures var now := history[|history| - 1];
            && Lookup(now.session.blocks, id).Some?
            && Lookup(history[j].session.blocks, id) == Lookup(now.session.blocks, id)
  {
    var n := |history| - 1;
    var now := history[n];
    if n == 0 {
      RevisionsFollowLookup(None, now.session.blocks, now.revision, id);
    } else {
      var previous := history[n - 1];
      assert SavedAfter(previous, now);
      RevisionsFollowLookup(Some(previous), now.session.blocks, now.revision, id);
      if j < n {
        RevisionsIncrease(history, j, n);
        assert now.blockRevisions.value[id] != now.revision;
        assert history[..n][n - 1] == previous;
        StampMeansUnchanged(history[..n], id, j);
      }
    }
  }

  /** What the host sends to a client that holds `history[j]`. */
  function Sent(now: HostSession, revision: int): seq<Block> {
    if now.blockRevisions.None? then []
    else ChangedAfter(now.session.blocks, now.blockRevisions.value, now.revision, revision)
  }

  /** The pool the client builds answers every id with the current block. */
  lemma PoolHoldsCurrentBlocks(history: seq<HostSession>, j: nat, id: Id)
    requires Saved(history) && j < |history| - 1
    requires Lookup(history[|history| - 1].session.blocks, id).Some?
    ensures var now := history[|history| - 1];
            && now.blockRevisions.Some?
            && Lookup(history[j].session.blocks + Sent(now, history[j].revision), id)
               == Lookup(now.session.blocks, id)
  {
    var n := |history| - 1;
    var now := history[n];
    assert SavedAfter(history[n - 1], now);
    RevisionsFollowLookup(Some(history[n - 1]), now.session.blocks, now.revision, id);
    var stamps := now.blockRevisions.value;
    LookupInPool(history[j].session.blocks, Sent(now, history[j].revision), id);
    LookupAfterFilter(now.session.blocks, stamps, now.revision, history[j].revision, id);
    if !IsAfter(stamps, now.revision, history[j].revision, id) {
      StampMeansUnchanged(history, id, j);
    }
  }

  lemma {:induction false} LookupInPool(known: seq<Block>, sent: seq<Block>, id: Id)
    ensures Lookup(known + sent, id) ==
            if Lookup(sent, id).Some? then Lookup(sent, id) else Lookup(known, id)
  {
    if sent == [] {
      assert known + sent == known;
    } else {
      var pool := known + sent;
      assert pool[..|pool| - 1] == known + sent[..|sent| - 1];
      LookupInPool(known, sent[..|sent| - 1], id);
    }
  }

  /** The filter depends only on the id, so it keeps or drops all that an id stands for. */
  lemma {:induction false} LookupAfterFilter(blocks: seq<Block>, stamps: map<Id, int>, now: int, revision: int, id: Id)
    ensures Lookup(ChangedAfter(blocks, stamps, now, revision), id) ==
            if IsAfter(stamps, now, revision, id) then Lookup(blocks, id) else None
  {
    if blocks != [] {
      var n := |blocks| - 1;
      var front := ChangedAfter(blocks[..n], stamps, now, revision);
      LookupAfterFilter(blocks[..n], stamps, now, revision, id);
      var kept := front + [blocks[n]];
      assert kept[..|kept| - 1] == front;
      assert front + [] == front;
    }
  }

  /** The block list in which every position holds the block its id stands for. */
  function Resolved(blocks: seq<Block>): (resolved: seq<Block>)
    ensures |resolved| == |blocks|
  {
    Map(blocks, (b: Block) => if Lookup(blocks, b.id).Some? then Lookup(blocks, b.id).value else b)
  }

  /** Blocks that share an id are equal. Distinct ids are the usual way to have this. */
  predicate SameIdSameBlock(blocks: seq<Block>) {
    forall b, c :: b in blocks && c in blocks && b.id == c.id ==> b == c
  }

  lemma {:induction false} AssembleFollowsPool(ids: seq<Id>, pool: seq<Block>, expected: seq<Block>)
    requires |ids| == |expected|
    requires forall i :: 0 <= i < |ids| ==> Lookup(pool, ids[i]) == Some(expected[i])
    ensures Assemble(ids, pool) == Ok(expected)
  {
    if ids != [] {
      var n := |ids| - 1;
      AssembleFollowsPool(ids[..n], pool, expected[..n]);
      assert expected == expected[..n] + [expected[n]];
    }
  }

  lemma ResolvedIsExactWhenIdsAgree(blocks: seq<Block>)
    ensures Resolved(blocks) == blocks <==> SameIdSameBlock(blocks)
  {
    if SameIdSameBlock(blocks) {
      forall i | 0 <= i < |blocks| ensures Resolved(blocks)[i] == blocks[i] {
        LookupFindsMembers(blocks, blocks[i].id);
      }
    }
    if Resolved(blocks) == blocks {
      forall b, c | b in blocks && c in blocks && b.id == c.id ensures b == c {
        var i :| 0 <= i < |blocks| && blocks[i] == b;
        var j :| 0 <= j < |blocks| && blocks[j] == c;
        LookupFindsMembers(blocks, b.id);
        assert Resolved(blocks)[i] == b && Resolved(blocks)[j] == c;
      }
    }
  }

  /** The pool the client builds gives every position the block its id stands for now. */
  lemma PoolResolves(history: seq<HostSession>, j: nat)
    requires Saved(history) && j < |history| - 1
    ensures var now := history[|history| - 1];
            Assemble(Ids(now.session.blocks), history[j].session.blocks + Sent(now, history[j].revision))
            == Ok(Resolved(now.session.blocks))
  {
    var now := history[|history| - 1];
    var blocks := now.session.blocks;
    var pool := history[j].session.blocks + Sent(now, history[j].revision);
    forall i | 0 <= i < |blocks|
      ensures Lookup(pool, Ids(blocks)[i]) == Some(Resolved(blocks)[i])
    {
      LookupFindsMembers(blocks, blocks[i].id);
      PoolHoldsCurrentBlocks(history, j, blocks[i].id);
    }
    AssembleFollowsPool(Ids(blocks), pool, Resolved(blocks));
  }

  lemma LaterIsStamped(history: seq<HostSession>, j: nat)
    requires Saved(history) && j < |history| - 1
    ensures var now := history[|history| - 1];
            now.blockRevisions.Some? && history[j].revision < now.revision
  {
    RevisionsIncrease(history, j, |history| - 1);
    assert SavedAfter(history[|history| - 2], history[|history| - 1]);
  }

  /** What a client at any earlier saved revision obtains: always an answer, and always the
      current value with each position resolved by id. */
  lemma ClientObtains(history: seq<HostSession>, j: nat)
    requires Saved(history) && j < |history|
    ensures var now := history[|history| - 1];
            ApplySessionSync(Some(Strip(history[j])), Sync(now, Some(history[j].revision))) ==
            if j == |history| - 1 then Ok(Strip(now))
            else Ok(Strip(now).(session := now.session.(blocks := Resolved(now.session.blocks))))
  {
    if j < |history| - 1 {
      PoolResolves(history, j);
      LaterIsStamped(history, j);
    }
  }

  /** Delta sync refines full snapshots: from every earlier saved revision the client obtains
      exactly the current value, if and only if blocks that share an id are equal. */
  lemma DeltaIsExact(history: seq<HostSession>, j: nat)
    requires Saved(history) && j < |history| - 1
    ensures var now := history[|history| - 1];
            ApplySessionSync(Some(Strip(history[j])), Sync(now, Some(history[j].revision))) == Ok(Strip(now))
            <==> SameIdSameBlock(now.session.blocks)
  {
    ClientObtains(history, j);
    ResolvedIsExactWhenIdsAgree(history[|history| - 1].session.blocks);
  }

  lemma DistinctIdsAgree(blocks: seq<Block>)
    requires DistinctIds(blocks)
    ensures SameIdSameBlock(blocks)
  {
  }

  /** The client's request loop: a delta against what it knows, and a snapshot when that fails. By
      the time of the second request the session may have changed from `value` to `later`. */
  function LoadRemoteSession(value: HostSession, later: HostSession, known: Option<HostSession>): Result<HostSession, SyncError> {
    var update := ApplySessionSync(known, Sync(value, if known.Some? then Some(known.value.revision) else None));
    if update.Ok? then update else ApplySessionSync(None, Sync(later, None))
  }

  /** A client that starts with nothing, or with any earlier saved value, holds after every load
      the value that was current when its first request was answered, whatever is saved meanwhile,
      so it can go on doing so. */
  lemma LoadFollowsHistory(history: seq<HostSession>, at: nat, later: HostSession, known: Option<HostSession>)
    requires Saved(history) && at < |history|
    requires SameIdSameBlock(history[at].session.blocks)
    requires known.None? || exists j :: 0 <= j <= at && known.value == Strip(history[j])
    ensures LoadRemoteSession(history[at], later, known) == Ok(Strip(history[at]))
  {
    if known.Some? {
      var j :| 0 <= j <= at && known.value == Strip(history[j]);
      var past := history[..at + 1];
      SavedPrefix(history, at + 1);
      if j == at { ClientObtains(past, j); } else { DeltaIsExact(past, j); }
    }
  }

  /** A client that knows something else, such as a session of another host, gets the snapshot of its
      second request: the load never fails. */
  lemma LoadAlwaysEnds(value: HostSession, later: HostSession, known: Option<HostSession>)
    ensures LoadRemoteSession(value, later, known).Ok?
    ensures ApplySessionSync(known, Sync(value, if known.Some? then Some(known.value.revision) else None)).Err?
            ==> LoadRemoteSession(value, later, known) == Ok(Strip(later))
  {
  }

  /** Two different blocks under one id are enough to make a delta wrong: the client that
      held the first block alone ends with the second one in both places. */
  lemma CollidingIdsMisleadTheClient(value: HostSession, block: Block, other: Block)
    requires value.session.blocks == [block] && value.blockRevisions.None?
    requires other.id == block.id && other != block
    ensures var draft := value.(revision := value.revision + 1,
                                session := value.session.(blocks := [block, other]));
            var next := draft.(blockRevisions := Some(Revisions(Some(value), [block, other], draft.revision)));
            && Saved([value, next])
            && ApplySessionSync(Some(Strip(value)), Sync(next, Some(value.revision))) ==
               Ok(Strip(next).(session := next.session.(blocks := [other, other])))
  {
    var draft := value.(revision := value.revision + 1,
                        session := value.session.(blocks := [block, other]));
    var next := draft.(blockRevisions := Some(Revisions(Some(value), [block, other], draft.revision)));
    var history := [value, next];
    assert SavedAfter(history[0], history[1]);
    ClientObtains(history, 0);
    assert Lookup([block, other], block.id) == Some(other);
    assert Resolved([block, other]) == [other, other];
  }
}
