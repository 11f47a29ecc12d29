/**
 Session syncs too large for one response, served as pieces of one serialized revision, and
 the client that puts the pieces together.
 */
module Transfers {
  import opened Wrappers
  import opened Sessions
  import opened DeltaSync
  import opened JsonText
  import opened Seqs

  const TRANSFER_TTL_MS := 120_000
  const MAX_TRANSFERS := 8
  const LEAST_LIMIT := 16
  const MAX_SAFE_INTEGER := 0x1F_FFFF_FFFF_FFFF

  datatype Transfer = Transfer(id: Id, sessionId: Id, text: Text, expires: Time)

  datatype Response = Inline | Chunked(transfer: Id, length: nat)

  datatype TransferError = Expired | InvalidOffset

  predicate ValidLimit(limit: int) {
    LEAST_LIMIT <= limit <= MAX_SAFE_INTEGER
  }

  // ---------------------------------------------------------------- one piece

  /** What a piece must be: nonempty unless nothing is left, whole characters, light enough,
      and no shorter than it has to be. */
  predicate GoodPiece(text: Text, offset: nat, end: nat, limit: int) {
    && offset <= end <= |text|
    && (offset < |text| ==> offset < end)
    && !PairAt(text, end - 1)
    && EncodedBytes(text[offset..end]) <= limit
    && (end < |text| ==> 12 * (end - offset + 1) > limit - 2)
  }

  /** A pair on its own never needs cutting. */
  lemma PairsAreLight(text: Text, at: nat)
    requires PairAt(text, at)
    ensures EncodedBytes(text[at..at + 2]) == 6
  {
    var pair := text[at..at + 2];
    assert PairAt(pair, 0) && pair[2..] == [];
  }

  /** A piece that is small in units is small in bytes. */
  lemma SingleUnitsFit(text: Text, offset: nat, limit: int)
    requires 8 <= limit && offset < |text|
    ensures EncodedBytes(text[offset..offset + 1]) <= limit
  {
    assert text[offset..offset + 1][1..] == [];
  }

  /** Leaving out a high surrogate at the end of a piece does not make it heavier. */
  lemma TrimmedIsLighter(text: Text, offset: nat, end: nat, limit: int)
    requires offset < end - 1 && end <= |text| && High(text[end - 1])
    requires EncodedBytes(text[offset..end]) <= limit
    ensures EncodedBytes(text[offset..end - 1]) <= limit
  {
    var piece := text[offset..end];
    DropLast(piece);
    assert piece[..|piece| - 1] == text[offset..end - 1];
  }

  /** The end of the piece at `offset`. From limits of 8 bytes up every piece is good. */
  method PieceEnd(text: Text, offset: nat, limit: int) returns (end: nat)
    requires offset <= |text| && 8 <= limit
    ensures GoodPiece(text, offset, end, limit)
  {
    var step := if limit * 2 / 3 > 1 then limit * 2 / 3 else 1;
    end := if offset + step < |text| then offset + step else |text|;
    while end - offset > 1 && EncodedBytes(text[offset..end]) > limit
      invariant offset <= end <= |text|
      invariant offset < |text| ==> offset < end
      invariant end < |text| ==> 12 * (end - offset) > limit - 2
      invariant end == offset + 1 && end < |text| ==> !PairAt(text, offset)
    {
      ghost var before := end;
      end := offset + (end - offset + 1) / 2;
      if before == offset + 2 && PairAt(text, offset) { PairsAreLight(text, offset); }
    }
    if end == offset + 1 { SingleUnitsFit(text, offset, limit); }
    if end == offset { assert text[offset..end] == []; }
    if end < |text| && end - offset > 1 && High(text[end - 1]) {
      TrimmedIsLighter(text, offset, end, limit);
      end := end - 1;
    }
  }

  /** Below 8 bytes there is a text whose every nonempty piece is too heavy. */
  lemma SmallLimitsCannotHold(limit: int, end: nat)
    requires limit < 8
    ensures !GoodPiece([0x01], 0, end, limit)
  {
    if end == 1 { assert [0x01][0..1] == [0x01] && [0x01][1..] == []; }
  }

  // ---------------------------------------------------------------- the transfers of one host

  predicate Fresh(transfer: Transfer, now: Time) {
    transfer.expires >= now
  }

  function Unexpired(transfers: seq<Transfer>, now: Time): (kept: seq<Transfer>)
    ensures |kept| <= |transfers|
    ensures forall t :: t in kept <==> t in transfers && Fresh(t, now)
  {
    if transfers == [] then []
    else
      assert transfers == transfers[..|transfers| - 1] + [transfers[|transfers| - 1]];
      Unexpired(transfers[..|transfers| - 1], now) +
      (if Fresh(transfers[|transfers| - 1], now) then [transfers[|transfers| - 1]] else [])
  }

  /** The newest seven that have not expired. */
  function Pruned(transfers: seq<Transfer>, now: Time): (kept: seq<Transfer>)
    ensures |kept| < MAX_TRANSFERS
  {
    var left := Unexpired(transfers, now);
    if |left| < MAX_TRANSFERS then left else left[|left| - MAX_TRANSFERS + 1..]
  }

  predicate DistinctTransfers(transfers: seq<Transfer>) {
    forall i, j :: 0 <= i < j < |transfers| ==> transfers[i].id != transfers[j].id
  }

  function TransferIds(transfers: seq<Transfer>): set<Id> {
    set t | t in transfers :: t.id
  }

  /** Where a transfer is, if it is. */
  function Position(transfers: seq<Transfer>, id: Id): (at: Option<nat>)
    ensures at.Some? ==> at.value < |transfers| && transfers[at.value].id == id
    ensures at.None? ==> forall t :: t in transfers ==> t.id != id
  {
    if transfers == [] then None
    else if transfers[|transfers| - 1].id == id then Some(|transfers| - 1)
    else
      assert transfers == transfers[..|transfers| - 1] + [transfers[|transfers| - 1]];
      Position(transfers[..|transfers| - 1], id)
  }

  lemma {:induction false} UnexpiredKeepsDistinct(transfers: seq<Transfer>, now: Time)
    requires DistinctTransfers(transfers)
    ensures DistinctTransfers(Unexpired(transfers, now))
  {
    if transfers != [] {
      var n := |transfers| - 1;
      UnexpiredKeepsDistinct(transfers[..n], now);
      forall t | t in Unexpired(transfers[..n], now) ensures t.id != transfers[n].id {
        var i :| 0 <= i < n && transfers[i] == t;
      }
    }
  }

  class SyncTransfers {
    const inlineLimit: int
    const chunkLimit: int
    /** In the order in which the transfers began. */
    var transfers: seq<Transfer>

    ghost predicate Valid()
      reads this
    {
      && ValidLimit(inlineLimit) && ValidLimit(chunkLimit)
      && DistinctTransfers(transfers) && |transfers| <= MAX_TRANSFERS
    }

    constructor (inlineLimit: int, chunkLimit: int)
      requires ValidLimit(inlineLimit) && ValidLimit(chunkLimit)
      ensures Valid() && transfers == []
      ensures this.inlineLimit == inlineLimit && this.chunkLimit == chunkLimit
    {
      this.inlineLimit, this.chunkLimit := inlineLimit, chunkLimit;
      transfers := [];
    }

    /** The limits a host may be given. */
    static method Create(inlineLimit: int, chunkLimit: int) returns (transfers: SyncTransfers?)
      ensures transfers != null <==> ValidLimit(inlineLimit) && ValidLimit(chunkLimit)
      ensures transfers != null ==>
                fresh(transfers) && transfers.Valid() && transfers.transfers == []
                && transfers.inlineLimit == inlineLimit && transfers.chunkLimit == chunkLimit
    {
      if !ValidLimit(inlineLimit) || !ValidLimit(chunkLimit) { return null; }
      transfers := new SyncTransfers(inlineLimit, chunkLimit);
    }

    /** Drops the expired transfers, then the oldest ones until a new one fits. */
    method Prune(now: Time)
      requires Valid()
      modifies this`transfers
      ensures Valid() && transfers == Pruned(old(transfers), now)
    {
      ghost var before := transfers;
      var kept: seq<Transfer> := [];
      var i := 0;
      while i < |transfers|
        invariant i <= |transfers| && transfers == before
        invariant kept == Unexpired(before[..i], now)
      {
        if !(transfers[i].expires < now) { kept := kept + [transfers[i]]; }
        assert before[..i + 1][..i] == before[..i];
        i := i + 1;
      }
      assert before[..i] == before;
      UnexpiredKeepsDistinct(before, now);
      transfers := kept;
      ghost var dropped := 0;
      while |transfers| >= MAX_TRANSFERS
        invariant dropped <= |kept| && transfers == kept[dropped..]
        invariant dropped == 0 || |transfers| >= MAX_TRANSFERS - 1
        decreases |transfers|
      {
        transfers := transfers[1..];
        dropped := dropped + 1;
      }
    }

    /** The answer to a sync request whose serialized answer is `text`. Small answers are not measured. */
    method Respond(sessionId: Id, text: Text, isUnchanged: bool, now: Time, uuid: Id) returns (response: Response)
      requires Valid()
      requires !isUnchanged && Utf8Length(text) > inlineLimit ==> forall t :: t in transfers ==> t.id != uuid
      modifies this`transfers
      ensures Valid()
      ensures response == if isUnchanged || Utf8Length(text) <= inlineLimit then Inline else Chunked(uuid, |text|)
      ensures transfers == if response.Inline? then old(transfers)
                           else Pruned(old(transfers), now) + [Transfer(uuid, sessionId, text, now + TRANSFER_TTL_MS)]
    {
      if isUnchanged { return Inline; }
      if |text| * 3 <= inlineLimit || Utf8Length(text) <= inlineLimit { return Inline; }
      ghost var before := transfers;
      Prune(now);
      assert forall t :: t in transfers ==> t in before;
      transfers := transfers + [Transfer(uuid, sessionId, text, now + TRANSFER_TTL_MS)];
      return Chunked(uuid, |text|);
    }

    /** One piece of a transfer. The last piece ends it, any other one renews it. */
    method Chunk(sessionId: Id, transfer: Id, offset: int, now: Time) returns (piece: Result<Text, TransferError>)
      requires Valid()
      modifies this`transfers
      ensures Valid()
      ensures var at := Position(old(transfers), transfer);
              if at.None? || old(transfers)[at.value].sessionId != sessionId || !Fresh(old(transfers)[at.value], now)
              then piece == Err(Expired) && transfers == old(transfers)
              else
                var entry := old(transfers)[at.value];
                if !(0 <= offset <= MAX_SAFE_INTEGER && offset <= |entry.text|) || PairAt(entry.text, offset - 1)
                then piece == Err(InvalidOffset) && transfers == old(transfers)
                else
                  && piece.Ok? && offset + |piece.value| <= |entry.text|
                  && piece.value == entry.text[offset..offset + |piece.value|]
                  && GoodPiece(entry.text, offset, offset + |piece.value|, chunkLimit)
                  && transfers ==
                     if offset + |piece.value| == |entry.text|
                     then old(transfers)[..at.value] + old(transfers)[at.value + 1..]
                     else old(transfers)[at.value := entry.(expires := now + TRANSFER_TTL_MS)]
    {
      var at := Position(transfers, transfer);
      if at.None? { return Err(Expired); }
      var entry := transfers[at.value];
      if entry.sessionId != sessionId || entry.expires < now { return Err(Expired); }
      if !(0 <= offset <= MAX_SAFE_INTEGER) || offset > |entry.text| { return Err(InvalidOffset); }
      if 0 < offset < |entry.text| && Low(entry.text[offset]) && High(entry.text[offset - 1]) {
        return Err(InvalidOffset);
      }
      var end := PieceEnd(entry.text, offset, chunkLimit);
      transfers := transfers[at.value := entry.(expires := now + TRANSFER_TTL_MS)];
      if end == |entry.text| { transfers := transfers[..at.value] + transfers[at.value + 1..]; }
      return Ok(entry.text[offset..end]);
    }
  }

  // ---------------------------------------------------------------- how long a transfer lasts

  function UnexpiredOne(transfer: Transfer, now: Time): seq<Transfer> {
    if Fresh(transfer, now) then [transfer] else []
  }

  lemma UnexpiredOfOneMore(transfers: seq<Transfer>, transfer: Transfer, now: Time)
    ensures Unexpired(transfers + [transfer], now) == Unexpired(transfers, now) + UnexpiredOne(transfer, now)
  {
    Appended(transfers, transfer);
  }

  lemma {:induction false} UnexpiredOfConcat(left: seq<Transfer>, right: seq<Transfer>, now: Time)
    ensures Unexpired(left + right, now) == Unexpired(left, now) + Unexpired(right, now)
  {
    if right == [] {
      assert left + right == left;
    } else {
      var front, last := right[..|right| - 1], right[|right| - 1];
      SplitLast(right);
      Regroup(left, front, [last]);
      UnexpiredOfConcat(left, front, now);
      UnexpiredOfOneMore(left + front, last, now);
      UnexpiredOfOneMore(front, last, now);
      Regroup(Unexpired(left, now), Unexpired(front, now), UnexpiredOne(last, now));
    }
  }

  lemma UnexpiredAround(transfers: seq<Transfer>, now: Time, i: nat)
    requires i < |transfers|
    ensures Unexpired(transfers, now) ==
            Unexpired(transfers[..i], now) + (if Fresh(transfers[i], now) then [transfers[i]] else [])
            + Unexpired(transfers[i + 1..], now)
  {
    var one := [transfers[i]];
    assert one[..0] == [];
    assert transfers == transfers[..i + 1] + transfers[i + 1..];
    assert transfers[..i + 1] == transfers[..i] + one;
    UnexpiredOfConcat(transfers[..i + 1], transfers[i + 1..], now);
    UnexpiredOfConcat(transfers[..i], one, now);
  }

  /** Of distinct transfers, the last seven contain one if and only if fewer than seven follow it. */
  lemma LastSeven(older: seq<Transfer>, transfer: Transfer, newer: seq<Transfer>)
    requires DistinctTransfers(older + [transfer] + newer)
    ensures var left := older + [transfer] + newer;
            var kept := if |left| < MAX_TRANSFERS then left else left[|left| - MAX_TRANSFERS + 1..];
            && (transfer in kept <==> |newer| < MAX_TRANSFERS - 1)
            && (transfer in kept ==> |kept| > |newer| && kept[|kept| - 1 - |newer|] == transfer)
  {
    var left := older + [transfer] + newer;
    var kept := if |left| < MAX_TRANSFERS then left else left[|left| - MAX_TRANSFERS + 1..];
    assert left[|older|] == transfer;
    if |newer| < MAX_TRANSFERS - 1 {
      assert kept[|kept| - 1 - |newer|] == left[|older|];
    } else {
      forall k | 0 <= k < |kept| ensures kept[k] != transfer {
        assert kept[k] == left[|left| - MAX_TRANSFERS + 1 + k];
      }
    }
  }

  /** Pruning keeps a transfer if and only if it has not expired and fewer than seven
      unexpired ones are newer. */
  lemma PruneKeepsExactly(transfers: seq<Transfer>, now: Time, i: nat)
    requires DistinctTransfers(transfers) && i < |transfers|
    ensures var newer, kept := Unexpired(transfers[i + 1..], now), Pruned(transfers, now);
            && (transfers[i] in kept <==> Fresh(transfers[i], now) && |newer| < MAX_TRANSFERS - 1)
            && (transfers[i] in kept ==> |kept| > |newer| && kept[|kept| - 1 - |newer|] == transfers[i])
  {
    UnexpiredAround(transfers, now, i);
    UnexpiredKeepsDistinct(transfers, now);
    if Fresh(transfers[i], now) {
      LastSeven(Unexpired(transfers[..i], now), transfers[i], Unexpired(transfers[i + 1..], now));
    } else {
      assert forall t :: t in Pruned(transfers, now) ==> t in Unexpired(transfers, now);
    }
  }

  /** The transfers after a series of responses, each with its time. */
  function AfterResponses(transfers: seq<Transfer>, begun: seq<(Time, Transfer)>): seq<Transfer> {
    if begun == [] then transfers
    else
      var last := begun[|begun| - 1];
      Pruned(AfterResponses(transfers, begun[..|begun| - 1]), last.0) + [last.1]
  }

  /** Near the end of the list: at most `newer` transfers come after it. */
  predicate Near(transfers: seq<Transfer>, transfer: Transfer, newer: nat) {
    exists i :: 0 <= i < |transfers| && transfers[i] == transfer && |transfers| - 1 - i <= newer
  }

  /** Where pruning leaves a transfer that it keeps. */
  lemma PruneMoves(transfers: seq<Transfer>, now: Time, i: nat) returns (at: nat)
    requires DistinctTransfers(transfers) && i < |transfers| && Fresh(transfers[i], now)
    requires |transfers| - 1 - i < MAX_TRANSFERS - 1
    ensures at < |Pruned(transfers, now)| && Pruned(transfers, now)[at] == transfers[i]
    ensures |Pruned(transfers, now)| - 1 - at <= |transfers| - 1 - i
  {
    PruneKeepsExactly(transfers, now, i);
    at := |Pruned(transfers, now)| - 1 - |Unexpired(transfers[i + 1..], now)|;
  }

  lemma PruneKeepsNear(transfers: seq<Transfer>, now: Time, transfer: Transfer, newer: nat, next: Transfer)
    requires DistinctTransfers(transfers) && Near(transfers, transfer, newer)
    requires newer < MAX_TRANSFERS - 1 && Fresh(transfer, now)
    ensures Near(Pruned(transfers, now) + [next], transfer, newer + 1)
  {
    var i :| 0 <= i < |transfers| && transfers[i] == transfer && |transfers| - 1 - i <= newer;
    var at := PruneMoves(transfers, now, i);
    assert (Pruned(transfers, now) + [next])[at] == transfer;
  }

  /** An unexpired transfer survives the seven transfers that begin after it. */
  lemma {:induction false} SevenMoreAreSafe(transfers: seq<Transfer>, transfer: Transfer, begun: seq<(Time, Transfer)>)
    requires |begun| < MAX_TRANSFERS
    requires forall k :: 0 <= k < |begun| ==> Fresh(transfer, begun[k].0)
    requires forall k :: 0 <= k < |begun| ==> DistinctTransfers(AfterResponses(transfers + [transfer], begun[..k]))
    ensures Near(AfterResponses(transfers + [transfer], begun), transfer, |begun|)
  {
    if begun == [] {
      assert (transfers + [transfer])[|transfers|] == transfer;
    } else {
      var before := begun[..|begun| - 1];
      forall k | 0 <= k < |before| ensures DistinctTransfers(AfterResponses(transfers + [transfer], before[..k])) {
        assert before[..k] == begun[..k];
      }
      SevenMoreAreSafe(transfers, transfer, before);
      PruneKeepsNear(AfterResponses(transfers + [transfer], before), begun[|begun| - 1].0, transfer, |before|,
                     begun[|begun| - 1].1);
    }
  }

  // ---------------------------------------------------------------- requests of other clients

  datatype Request =
    | SyncRequest(sessionId: Id, text: Text, isUnchanged: bool, now: Time, uuid: Id)
    | PieceRequest(sessionId: Id, transfer: Id, offset: int, now: Time)

  /** A sync begins a transfer only when there is something to send, and too much for one response. */
  function Begins(r: Request, inline: int): nat {
    if r.SyncRequest? && !r.isUnchanged && Utf8Length(r.text) > inline then 1 else 0
  }

  /** What a request may do to the transfers of a host with this inline limit. */
  ghost predicate Effect(before: seq<Transfer>, after: seq<Transfer>, r: Request, inline: int) {
    || after == before
    || (Begins(r, inline) == 1 && after == Pruned(before, r.now) + [Transfer(r.uuid, r.sessionId, r.text, r.now + TRANSFER_TTL_MS)])
    || (r.PieceRequest? && exists i :: 0 <= i < |before| && before[i].id == r.transfer
                                       && (after == before[i := before[i].(expires := r.now + TRANSFER_TTL_MS)]
                                           || after == before[..i] + before[i + 1..]))
  }

  lemma NoNewIds(transfers: seq<Transfer>, at: nat, renewed: Transfer)
    requires at < |transfers| && renewed.id == transfers[at].id
    ensures TransferIds(transfers[..at] + transfers[at + 1..]) <= TransferIds(transfers)
    ensures TransferIds(transfers[at := renewed]) <= TransferIds(transfers)
  {
  }

  /** Only a sync that begins a transfer draws an id. */
  function NewId(r: Request, inline: int): set<Id> {
    if Begins(r, inline) == 1 then {r.uuid} else {}
  }

  method Serve(host: SyncTransfers, r: Request)
    requires host.Valid() && NewId(r, host.inlineLimit) !! TransferIds(host.transfers)
    modifies host`transfers
    ensures host.Valid() && Effect(old(host.transfers), host.transfers, r, host.inlineLimit)
  {
    match r {
      case SyncRequest(sessionId, text, isUnchanged, now, uuid) =>
        var response := host.Respond(sessionId, text, isUnchanged, now, uuid);
      case PieceRequest(sessionId, transfer, offset, now) =>
        var piece := host.Chunk(sessionId, transfer, offset, now);
    }
  }

  /** A transfer is there, at least until a deadline, and at most `newer` transfers follow it. */
  ghost predicate Held(transfers: seq<Transfer>, entry: Transfer, deadline: Time, newer: int) {
    exists i :: 0 <= i < |transfers| && |transfers| - 1 - i <= newer && Serves(transfers[i], entry, deadline)
  }

  predicate Serves(held: Transfer, entry: Transfer, deadline: Time) {
    held.id == entry.id && held.sessionId == entry.sessionId && held.text == entry.text && held.expires >= deadline
  }

  /** A request leaves a transfer alone: it names another one, or begins none, or it comes before
      the deadline and begins at most the seventh after it. */
  predicate Harmless(r: Request, inline: int, entry: Transfer, deadline: Time, newer: int) {
    match r
    case SyncRequest(_, _, _, now, _) => Begins(r, inline) == 1 ==> now <= deadline && newer < MAX_TRANSFERS - 1
    case PieceRequest(_, transfer, _, _) => transfer != entry.id
  }

  lemma PrunedHolds(before: seq<Transfer>, now: Time, next: Transfer, entry: Transfer, deadline: Time, newer: int)
    requires DistinctTransfers(before) && Held(before, entry, deadline, newer)
    requires now <= deadline && newer < MAX_TRANSFERS - 1
    ensures Held(Pruned(before, now) + [next], entry, deadline, newer + 1)
  {
    var i :| 0 <= i < |before| && |before| - 1 - i <= newer && Serves(before[i], entry, deadline);
    var at := PruneMoves(before, now, i);
    assert (Pruned(before, now) + [next])[at] == before[i];
  }

  lemma RenewedHolds(before: seq<Transfer>, at: nat, renewed: Transfer, entry: Transfer, deadline: Time, newer: int)
    requires Held(before, entry, deadline, newer) && at < |before| && before[at].id != entry.id
    ensures Held(before[at := renewed], entry, deadline, newer)
  {
    var i :| 0 <= i < |before| && |before| - 1 - i <= newer && Serves(before[i], entry, deadline);
    assert before[at := renewed][i] == before[i];
  }

  lemma RemovedHolds(before: seq<Transfer>, at: nat, entry: Transfer, deadline: Time, newer: int)
    requires Held(before, entry, deadline, newer) && at < |before| && before[at].id != entry.id
    ensures Held(before[..at] + before[at + 1..], entry, deadline, newer)
  {
    var i :| 0 <= i < |before| && |before| - 1 - i <= newer && Serves(before[i], entry, deadline);
    assert (before[..at] + before[at + 1..])[if i < at then i else i - 1] == before[i];
  }

  lemma HarmlessHolds(before: seq<Transfer>, after: seq<Transfer>, r: Request, inline: int, entry: Transfer,
                      deadline: Time, newer: int)
    requires DistinctTransfers(before) && Held(before, entry, deadline, newer)
    requires Effect(before, after, r, inline) && Harmless(r, inline, entry, deadline, newer)
    ensures Held(after, entry, deadline, newer + Begins(r, inline))
  {
    if after != before {
      if r.SyncRequest? {
        PrunedHolds(before, r.now, Transfer(r.uuid, r.sessionId, r.text, r.now + TRANSFER_TTL_MS), entry, deadline, newer);
      } else {
        var at :| 0 <= at < |before| && before[at].id == r.transfer
                  && (after == before[at := before[at].(expires := r.now + TRANSFER_TTL_MS)]
                      || after == before[..at] + before[at + 1..]);
        RenewedHolds(before, at, before[at].(expires := r.now + TRANSFER_TTL_MS), entry, deadline, newer);
        RemovedHolds(before, at, entry, deadline, newer);
      }
    }
  }

  lemma EffectIds(before: seq<Transfer>, after: seq<Transfer>, r: Request, inline: int)
    requires Effect(before, after, r, inline)
    ensures TransferIds(after) <= TransferIds(before) + NewId(r, inline)
  {
    if r.PieceRequest? && after != before {
      var at :| 0 <= at < |before| && before[at].id == r.transfer
                && (after == before[at := before[at].(expires := r.now + TRANSFER_TTL_MS)]
                    || after == before[..at] + before[at + 1..]);
      NoNewIds(before, at, before[at].(expires := r.now + TRANSFER_TTL_MS));
    } else if after != before {
      assert forall t :: t in Pruned(before, r.now) ==> t in before;
    }
  }

  function NewIds(requests: seq<Request>, inline: int): set<Id> {
    if requests == [] then {} else NewIds(requests[..|requests| - 1], inline) + NewId(requests[|requests| - 1], inline)
  }

  /** How many transfers a series of requests begins. */
  function Begun(requests: seq<Request>, inline: int): nat {
    if requests == [] then 0 else Begun(requests[..|requests| - 1], inline) + Begins(requests[|requests| - 1], inline)
  }

  /** The ids drawn are ids that no one has used. */
  ghost predicate DrawsFresh(requests: seq<Request>, inline: int, used: set<Id>) {
    forall k :: 0 <= k < |requests| ==> NewId(requests[k], inline) !! used + NewIds(requests[..k], inline)
  }

  /** Requests of others that name other transfers, and of which few enough begin transfers, by a
      deadline. Syncs answered at once do not matter. */
  ghost predicate Tolerable(requests: seq<Request>, inline: int, entry: Transfer, deadline: Time, newer: int) {
    && newer + Begun(requests, inline) < MAX_TRANSFERS
    && forall r :: r in requests ==>
         if r.SyncRequest? then Begins(r, inline) == 1 ==> r.now <= deadline else r.transfer != entry.id
  }

  lemma {:induction false} BegunGrows(requests: seq<Request>, inline: int, k: nat)
    requires k <= |requests|
    ensures Begun(requests[..k], inline) <= Begun(requests, inline)
    decreases |requests|
  {
    if k < |requests| {
      BegunGrows(requests[..|requests| - 1], inline, k);
      assert requests[..|requests| - 1][..k] == requests[..k];
    } else {
      assert requests[..k] == requests;
    }
  }

  lemma NextIsHarmless(requests: seq<Request>, inline: int, k: nat, entry: Transfer, deadline: Time, newer: int)
    requires Tolerable(requests, inline, entry, deadline, newer) && k < |requests|
    ensures Harmless(requests[k], inline, entry, deadline, newer + Begun(requests[..k], inline))
    ensures Begun(requests[..k + 1], inline) == Begun(requests[..k], inline) + Begins(requests[k], inline)
    ensures NewIds(requests[..k + 1], inline) == NewIds(requests[..k], inline) + NewId(requests[k], inline)
  {
    assert requests[..k + 1][..k] == requests[..k];
    BegunGrows(requests, inline, k + 1);
  }

  /** The requests of others between two pieces leave a transfer where its client finds it. */
  method ServeAll(host: SyncTransfers, requests: seq<Request>, ghost entry: Transfer, ghost deadline: Time,
                  ghost newer: int, ghost used: set<Id>)
    requires host.Valid() && TransferIds(host.transfers) <= used && DrawsFresh(requests, host.inlineLimit, used)
    requires Held(host.transfers, entry, deadline, newer)
    requires Tolerable(requests, host.inlineLimit, entry, deadline, newer)
    modifies host`transfers
    ensures host.Valid() && TransferIds(host.transfers) <= used + NewIds(requests, host.inlineLimit)
    ensures Held(host.transfers, entry, deadline, newer + Begun(requests, host.inlineLimit))
  {
    for k := 0 to |requests|
      invariant host.Valid() && TransferIds(host.transfers) <= used + NewIds(requests[..k], host.inlineLimit)
      invariant Held(host.transfers, entry, deadline, newer + Begun(requests[..k], host.inlineLimit))
    {
      ghost var before := host.transfers;
      NextIsHarmless(requests, host.inlineLimit, k, entry, deadline, newer);
      Serve(host, requests[k]);
      HarmlessHolds(before, host.transfers, requests[k], host.inlineLimit, entry, deadline,
                    newer + Begun(requests[..k], host.inlineLimit));
      EffectIds(before, host.transfers, requests[k], host.inlineLimit);
    }
    assert requests[..|requests|] == requests;
  }

  // ---------------------------------------------------------------- the client

  function Joined(pieces: seq<Text>): Text {
    if pieces == [] then [] else Joined(pieces[..|pieces| - 1]) + pieces[|pieces| - 1]
  }

  /** The pieces make the text; each is nonempty, light enough and ends between characters, and all
      but the one that ends the text are as long as the limit asks for. */
  ghost predicate Covers(text: Text, pieces: seq<Text>, limit: int) {
    && Joined(pieces) <= text
    && (forall piece :: piece in pieces ==> piece != [] && EncodedBytes(piece) <= limit)
    && (forall k :: 0 <= k <= |pieces| ==> !PairAt(text, |Joined(pieces[..k])| - 1))
    && forall k :: 0 <= k < |pieces| ==> LongEnough(text, pieces, k, limit)
  }

  /** A piece that does not end the text is no shorter than it has to be. */
  predicate LongEnough(text: Text, pieces: seq<Text>, k: nat, limit: int)
    requires k < |pieces|
  {
    |Joined(pieces[..k + 1])| < |text| ==> 12 * (|pieces[k]| + 1) > limit - 2
  }

  /** The client asks for the next piece within two minutes. */
  predicate InTime(clock: nat -> Time, turn: nat) {
    clock(turn + 1) <= clock(turn) + TRANSFER_TTL_MS
  }

  lemma CoversMore(text: Text, pieces: seq<Text>, piece: Text, limit: int)
    requires Covers(text, pieces, limit)
    requires var offset := |Joined(pieces)|;
             && piece != [] && offset + |piece| <= |text| && piece == text[offset..offset + |piece|]
             && GoodPiece(text, offset, offset + |piece|, limit)
    ensures Covers(text, pieces + [piece], limit)
    ensures |Joined(pieces + [piece])| == |Joined(pieces)| + |piece|
  {
    var more := pieces + [piece];
    assert more[..|pieces|] == pieces;
    forall k | 0 <= k <= |more| ensures !PairAt(text, |Joined(more[..k])| - 1) {
      if k <= |pieces| {
        assert more[..k] == pieces[..k];
      } else {
        assert more[..k] == more;
      }
    }
    forall k | 0 <= k < |more| ensures LongEnough(text, more, k, limit) {
      if k < |pieces| {
        assert more[..k + 1] == pieces[..k + 1];
        assert LongEnough(text, pieces, k, limit);
      } else {
        assert more[..k + 1] == more;
      }
    }
  }

  lemma RemovedIsGone(transfers: seq<Transfer>, at: nat)
    requires DistinctTransfers(transfers) && at < |transfers|
    ensures Position(transfers[..at] + transfers[at + 1..], transfers[at].id).None?
  {
    var left := transfers[..at] + transfers[at + 1..];
    forall k | 0 <= k < |left| ensures left[k].id != transfers[at].id {
      assert left[k] == if k < at then transfers[k] else transfers[k + 1];
    }
  }

  lemma HeldAt(transfers: seq<Transfer>, entry: Transfer, deadline: Time, newer: int) returns (at: nat)
    requires DistinctTransfers(transfers) && Held(transfers, entry, deadline, newer)
    ensures Position(transfers, entry.id) == Some(at) && at < |transfers|
    ensures |transfers| - 1 - at <= newer && Serves(transfers[at], entry, deadline)
  {
    at :| 0 <= at < |transfers| && |transfers| - 1 - at <= newer && Serves(transfers[at], entry, deadline);
    assert transfers[at] in transfers;
  }

  /** One request of the loop: it is served, and the next one will be. */
  method NextPiece(host: SyncTransfers, sessionId: Id, transfer: Id, ghost entry: Transfer, offset: nat,
                   clock: nat -> Time, turn: nat, ghost newer: int)
    returns (data: Text)
    requires entry.id == transfer && entry.sessionId == sessionId && InTime(clock, turn)
    requires host.Valid() && Held(host.transfers, entry, clock(turn), newer)
    requires offset < |entry.text| <= MAX_SAFE_INTEGER && !PairAt(entry.text, offset - 1)
    modifies host`transfers
    ensures host.Valid() && TransferIds(host.transfers) <= TransferIds(old(host.transfers))
    ensures data != [] && offset + |data| <= |entry.text| && data == entry.text[offset..offset + |data|]
    ensures GoodPiece(entry.text, offset, offset + |data|, host.chunkLimit)
    ensures offset + |data| < |entry.text| ==> Held(host.transfers, entry, clock(turn + 1), newer)
    ensures offset + |data| == |entry.text| ==> Position(host.transfers, transfer).None?
  {
    ghost var before := host.transfers;
    ghost var at := HeldAt(before, entry, clock(turn), newer);
    ghost var renewed := before[at].(expires := clock(turn) + TRANSFER_TTL_MS);
    var piece := host.Chunk(sessionId, transfer, offset, clock(turn));
    data := piece.value;
    NoNewIds(before, at, renewed);
    if offset + |data| == |entry.text| {
      assert host.transfers == before[..at] + before[at + 1..];
      RemovedIsGone(before, at);
    } else {
      assert host.transfers == before[at := renewed];
      assert Serves(host.transfers[at], entry, clock(turn + 1));
    }
  }

  /** The requests of others before each piece: how many transfers they have begun by a turn, and
      which ids they have drawn. */
  function BegunBy(others: nat -> seq<Request>, inline: int, turn: nat): nat {
    if turn == 0 then 0 else BegunBy(others, inline, turn - 1) + Begun(others(turn - 1), inline)
  }

  function NewIdsBy(others: nat -> seq<Request>, inline: int, turn: nat): set<Id> {
    if turn == 0 then {} else NewIdsBy(others, inline, turn - 1) + NewIds(others(turn - 1), inline)
  }

  /** Before each piece others may ask for anything, in any order: any pieces of any other
      transfers, and any syncs, of which at most seven begin transfers during the whole download. */
  ghost predicate Interleaves(others: nat -> seq<Request>, inline: int, clock: nat -> Time, entry: Transfer, used: set<Id>) {
    forall turn: nat :: Interleaved(others, inline, clock, entry, used, turn)
  }

  ghost predicate Interleaved(others: nat -> seq<Request>, inline: int, clock: nat -> Time, entry: Transfer,
                              used: set<Id>, turn: nat) {
    && DrawsFresh(others(turn), inline, used + NewIdsBy(others, inline, turn))
    && Tolerable(others(turn), inline, entry, clock(turn), BegunBy(others, inline, turn))
  }

  /** What others ask for, and then the next piece. */
  method NextRound(host: SyncTransfers, sessionId: Id, transfer: Id, ghost entry: Transfer, offset: nat,
                   clock: nat -> Time, others: nat -> seq<Request>, turn: nat, ghost used: set<Id>)
    returns (data: Text)
    requires entry.id == transfer && entry.sessionId == sessionId && InTime(clock, turn)
    requires host.Valid() && TransferIds(host.transfers) <= used + NewIdsBy(others, host.inlineLimit, turn)
    requires Held(host.transfers, entry, clock(turn), BegunBy(others, host.inlineLimit, turn))
    requires Interleaves(others, host.inlineLimit, clock, entry, used)
    requires offset < |entry.text| <= MAX_SAFE_INTEGER && !PairAt(entry.text, offset - 1)
    modifies host`transfers
    ensures host.Valid() && TransferIds(host.transfers) <= used + NewIdsBy(others, host.inlineLimit, turn + 1)
    ensures data != [] && offset + |data| <= |entry.text| && data == entry.text[offset..offset + |data|]
    ensures GoodPiece(entry.text, offset, offset + |data|, host.chunkLimit)
    ensures offset + |data| < |entry.text| ==>
              Held(host.transfers, entry, clock(turn + 1), BegunBy(others, host.inlineLimit, turn + 1))
    ensures offset + |data| == |entry.text| ==> Position(host.transfers, transfer).None?
  {
    ghost var newer := BegunBy(others, host.inlineLimit, turn);
    assert Interleaved(others, host.inlineLimit, clock, entry, used, turn);
    ServeAll(host, others(turn), entry, clock(turn), newer, used + NewIdsBy(others, host.inlineLimit, turn));
    data := NextPiece(host, sessionId, transfer, entry, offset, clock, turn,
                      newer + Begun(others(turn), host.inlineLimit));
  }

  /** The client's loop, with the requests of other clients between its pieces. It is never refused,
      every request makes progress, and the pieces join to the text. */
  method Download(host: SyncTransfers, sessionId: Id, transfer: Id, ghost entry: Transfer, length: nat,
                  clock: nat -> Time, others: nat -> seq<Request>, ghost used: set<Id>)
    returns (pieces: seq<Text>)
    requires host.Valid() && TransferIds(host.transfers) <= used
    requires entry.id == transfer && entry.sessionId == sessionId && length == |entry.text| <= MAX_SAFE_INTEGER
    requires entry.text != [] && Held(host.transfers, entry, clock(0), 0)
    requires (forall turn: nat :: InTime(clock, turn)) && Interleaves(others, host.inlineLimit, clock, entry, used)
    modifies host`transfers
    ensures host.Valid() && Position(host.transfers, transfer).None?
    ensures TransferIds(host.transfers) <= used + NewIdsBy(others, host.inlineLimit, |pieces|)
    ensures Joined(pieces) == entry.text && Covers(entry.text, pieces, host.chunkLimit)
  {
    pieces := [];
    var offset := 0;
    while offset < length
      invariant host.Valid() && offset <= length
      invariant TransferIds(host.transfers) <= used + NewIdsBy(others, host.inlineLimit, |pieces|)
      invariant Covers(entry.text, pieces, host.chunkLimit) && offset == |Joined(pieces)|
      invariant offset < length ==>
                  Held(host.transfers, entry, clock(|pieces|), BegunBy(others, host.inlineLimit, |pieces|))
      invariant offset == length ==> Position(host.transfers, transfer).None?
    {
      assert pieces[..|pieces|] == pieces;
      var data := NextRound(host, sessionId, transfer, entry, offset, clock, others, |pieces|, used);
      CoversMore(entry.text, pieces, data, host.chunkLimit);
      pieces := pieces + [data];
      offset := offset + |data|;
    }
  }
}
