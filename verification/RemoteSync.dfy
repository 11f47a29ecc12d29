/** A client loading a session from a host, through inline answers or transfers of any size. */
module RemoteSync {
  import opened Wrappers
  import opened Sessions
  import opened DeltaSync
  import opened JsonText
  import opened Transfers

  /** How syncs become text and text becomes syncs. */
  datatype Codec = Codec(serialise: SessionSync -> Text, parse: Text -> Option<SessionSync>)

  ghost predicate RoundTrips(codec: Codec) {
    forall sync :: codec.parse(codec.serialise(sync)) == Some(sync) && codec.serialise(sync) != []
  }

  /** No JavaScript string is longer. */
  predicate Fits(codec: Codec, sync: SessionSync) {
    |codec.serialise(sync)| <= MAX_SAFE_INTEGER
  }

  /** The times of one exchange: the request, and each request for a piece. */
  ghost predicate Prompt(now: Time, clock: nat -> Time) {
    clock(0) <= now + TRANSFER_TTL_MS && forall turn: nat :: InTime(clock, turn)
  }

  lemma JustBegun(transfers: seq<Transfer>, begun: Transfer, deadline: Time)
    requires deadline <= begun.expires
    ensures Held(transfers + [begun], begun, deadline, 0)
  {
    assert (transfers + [begun])[|transfers|] == begun;
  }

  /** What others ask between the requests of one sync, should it be served in pieces. */
  ghost predicate Undisturbed(others: nat -> seq<Request>, inline: int, clock: nat -> Time, codec: Codec, sessionId: Id,
                              answer: SessionSync, now: Time, uuid: Id, used: set<Id>) {
    Interleaves(others, inline, clock, Transfer(uuid, sessionId, codec.serialise(answer), now + TRANSFER_TTL_MS), used + {uuid})
  }

  /** One sync: the answer arrives unchanged, whatever its size and whatever others ask meanwhile. */
  method SyncSession(host: SyncTransfers, codec: Codec, value: HostSession, revision: Option<int>,
                     now: Time, uuid: Id, clock: nat -> Time, others: nat -> seq<Request>, ghost used: set<Id>)
    returns (sync: Option<SessionSync>, ghost turns: nat)
    requires host.Valid() && RoundTrips(codec) && Prompt(now, clock) && Fits(codec, Sync(value, revision))
    requires TransferIds(host.transfers) <= used && uuid !in used
    requires Undisturbed(others, host.inlineLimit, clock, codec, value.session.id, Sync(value, revision), now, uuid, used)
    modifies host`transfers
    ensures host.Valid() && TransferIds(host.transfers) <= used + {uuid} + NewIdsBy(others, host.inlineLimit, turns)
    ensures sync == Some(Sync(value, revision))
  {
    var answer := Sync(value, revision);
    var text := codec.serialise(answer);
    assert codec.parse(text) == Some(answer);
    var response := host.Respond(value.session.id, text, answer.Unchanged?, now, uuid);
    turns := 0;
    if response.Inline? { return Some(answer), turns; }
    ghost var entry := Transfer(uuid, value.session.id, text, now + TRANSFER_TTL_MS);
    JustBegun(host.transfers[..|host.transfers| - 1], entry, clock(0));
    assert host.transfers == host.transfers[..|host.transfers| - 1] + [entry];
    var pieces := Download(host, value.session.id, response.transfer, entry, response.length, clock, others, used + {uuid});
    turns := |pieces|;
    sync := codec.parse(Joined(pieces));
  }

  /** A load: a sync against what the client knows, and a full one when that cannot be applied. The
      session may change between the two, from `value` to `later`, and so may the transfers, as others
      go on syncing. */
  method LoadSession(host: SyncTransfers, codec: Codec, value: HostSession, later: HostSession, known: Option<HostSession>,
                     first: Exchange, second: Exchange, ghost used: set<Id>)
    returns (loaded: Result<HostSession, SyncError>)
    requires host.Valid() && RoundTrips(codec) && TransferIds(host.transfers) <= used
    requires var revision := if known.Some? then Some(known.value.revision) else None;
             Answered(first, host.inlineLimit, codec, value.session.id, Sync(value, revision), used)
    requires forall turns ::
               Answered(second, host.inlineLimit, codec, later.session.id, Sync(later, None),
                        used + {first.uuid} + NewIdsBy(first.others, host.inlineLimit, turns))
    modifies host`transfers
    ensures host.Valid() && loaded == LoadRemoteSession(value, later, known)
  {
    var revision := if known.Some? then Some(known.value.revision) else None;
    var sync, turns := SyncSession(host, codec, value, revision, first.now, first.uuid, first.clock, first.others, used);
    loaded := ApplySessionSync(known, sync.value);
    if loaded.Err? {
      ghost var before := used + {first.uuid} + NewIdsBy(first.others, host.inlineLimit, turns);
      var full, more := SyncSession(host, codec, later, None, second.now, second.uuid, second.clock, second.others, before);
      loaded := ApplySessionSync(None, full.value);
    }
  }

  /** The times of one sync, the id its transfer would get, and what others ask meanwhile. */
  datatype Exchange = Exchange(now: Time, uuid: Id, clock: nat -> Time, others: nat -> seq<Request>)

  ghost predicate Answered(e: Exchange, inline: int, codec: Codec, sessionId: Id, answer: SessionSync, used: set<Id>) {
    && Prompt(e.now, e.clock) && Fits(codec, answer) && e.uuid !in used
    && Undisturbed(e.others, inline, e.clock, codec, sessionId, answer, e.now, e.uuid, used)
  }
}
