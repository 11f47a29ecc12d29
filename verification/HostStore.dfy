/**
 The session store: durable tables, transactions that restore them, and a cache of
 recently used snapshots that must agree with them at all times.

 Every method is one synchronous call of the host. A `Fault` says at which statement the
 database throws, if it does.
 */
module Storage {
  import opened Wrappers
  import opened Sessions
  import opened Protocol
  import opened DeltaSync
  import opened Tables
  import opened SessionCache
  import opened Text

  datatype Fault = NoFault | AtSessionRow | AtEventRow | AtTrim | AtCommit

  /** Rows are stored under their own id, and a stored card is the card of the stored snapshot. */
  ghost predicate Consistent(tables: Tables) {
    forall id :: id in tables.sessions ==>
      && tables.sessions[id].snapshot.session.id == id
      && (tables.sessions[id].summary.Some? ==>
            tables.sessions[id].summary.value == Summarise(tables.sessions[id].snapshot))
  }

  /** No directory has two projects. */
  ghost predicate OnePerDirectory(projects: map<Id, string>) {
    forall p, q :: p in projects && q in projects && projects[p] == projects[q] ==> p == q
  }

  // ---------------------------------------------------------------- the order of the cards

  predicate NewestFirst(cards: seq<Summary>) {
    forall i, j :: 0 <= i < j < |cards| ==> cards[i].updatedAt >= cards[j].updatedAt
  }

  /** Puts a card behind those that are as recent, as a stable sort would. */
  function InsertCard(cards: seq<Summary>, card: Summary): (more: seq<Summary>)
    ensures |more| == |cards| + 1 && forall c :: c in more <==> c in cards || c == card
  {
    if cards == [] || cards[|cards| - 1].updatedAt >= card.updatedAt then cards + [card]
    else
      assert cards == cards[..|cards| - 1] + [cards[|cards| - 1]];
      InsertCard(cards[..|cards| - 1], card) + [cards[|cards| - 1]]
  }

  lemma {:induction false} InsertKeepsOrder(cards: seq<Summary>, card: Summary)
    requires NewestFirst(cards)
    ensures NewestFirst(InsertCard(cards, card))
  {
    if cards != [] && cards[|cards| - 1].updatedAt < card.updatedAt {
      var n := |cards| - 1;
      InsertKeepsOrder(cards[..n], card);
      forall c | c in InsertCard(cards[..n], card) ensures c.updatedAt >= cards[n].updatedAt {
        if c in cards[..n] {
          var i :| 0 <= i < n && cards[i] == c;
        }
      }
    }
  }

  /** One card for each of these rows, each the summary of its snapshot. */
  ghost predicate ListsCards(cards: seq<Summary>, rows: map<Id, Row>, ids: set<Id>) {
    && |cards| == |ids|
    && (forall id :: id in ids ==> id in rows && Summarise(rows[id].snapshot) in cards)
    && (forall card :: card in cards ==> card.id in ids && card.id in rows && card == Summarise(rows[card.id].snapshot))
  }

  function ProjectRows(rows: map<Id, Row>, projectId: Id): set<Id> {
    set id | id in rows && rows[id].projectId == projectId
  }

  lemma CardIsSame(rows: map<Id, Row>, middle: map<Id, Row>, before: map<Id, Row>, id: Id)
    requires OnlyCardsDiffer(rows, middle) && OnlyCardsDiffer(middle, before) && id in middle
    ensures OnlyCardsDiffer(rows, before) && id in before && middle[id].snapshot == before[id].snapshot
  {
  }

  lemma Moves(todo: set<Id>, done: set<Id>, id: Id)
    requires id in todo && done !! todo
    ensures done + {id} !! todo - {id} && done + {id} + (todo - {id}) == done + todo && id !in done
  {
  }

  lemma NextCard(cards: seq<Summary>, tables: Tables, done: set<Id>, id: Id)
    requires Consistent(tables) && id in tables.sessions && id !in done
    requires NewestFirst(cards) && ListsCards(cards, tables.sessions, done)
    ensures var more := InsertCard(cards, Summarise(tables.sessions[id].snapshot));
            NewestFirst(more) && ListsCards(more, tables.sessions, done + {id})
  {
    InsertKeepsOrder(cards, Summarise(tables.sessions[id].snapshot));
    OneMoreCard(cards, tables.sessions, done, id);
  }

  lemma OneMoreCard(cards: seq<Summary>, rows: map<Id, Row>, ids: set<Id>, id: Id)
    requires ListsCards(cards, rows, ids) && id in rows && id !in ids && rows[id].snapshot.session.id == id
    ensures ListsCards(InsertCard(cards, Summarise(rows[id].snapshot)), rows, ids + {id})
  {
  }

  ghost predicate CacheAgrees(cache: seq<HostSession>, tables: Tables) {
    forall v :: v in cache ==> Stored(tables, v.session.id) == Some(v)
  }

  lemma SaveLeavesOthersCached(cache: seq<HostSession>, tables: Tables, input: HostSession, payload: Payload)
    requires Consistent(tables) && CacheAgrees(cache, tables)
    ensures var saved := SaveRows(tables, input, payload);
            && Consistent(saved)
            && CacheAgrees(Without(cache, input.session.id), saved)
            && Stored(saved, input.session.id) == Some(Saving(tables, input))
  {
  }

  lemma DropLeavesOthersCached(cache: seq<HostSession>, tables: Tables, id: Id)
    requires Consistent(tables) && CacheAgrees(cache, tables)
    ensures Consistent(DropSession(tables, id)) && CacheAgrees(Without(cache, id), DropSession(tables, id))
  {
  }

  ghost predicate OnlyCardsDiffer(rows: map<Id, Row>, others: map<Id, Row>) {
    && rows.Keys == others.Keys
    && forall id :: id in rows ==>
         rows[id].snapshot == others[id].snapshot && rows[id].projectId == others[id].projectId
  }

  function FillCard(tables: Tables, id: Id): Tables
    requires id in tables.sessions
  {
    var row := tables.sessions[id];
    tables.(sessions := tables.sessions[id := row.(summary := Some(Summarise(row.snapshot)))])
  }

  lemma FillCardKeepsCached(cache: seq<HostSession>, tables: Tables, id: Id)
    requires Consistent(tables) && CacheAgrees(cache, tables) && id in tables.sessions
    ensures Consistent(FillCard(tables, id)) && CacheAgrees(cache, FillCard(tables, id))
  {
  }

  class HostStore {
    var projects: map<Id, string>
    var sessions: map<Id, Row>
    var events: map<(Id, int), Payload>
    var receipts: map<Id, ReceiptRow>

    var transactionActive: bool
    /** What the database would restore. */
    var backup: Tables
    var cache: seq<HostSession>
    /** Every use, drop and clear of the cache so far. */
    ghost var accesses: seq<Access>

    function View(): Tables
      reads this
    {
      Tables(projects, sessions, events, receipts)
    }

    ghost predicate Valid()
      reads this
    {
      && Consistent(View())
      && CacheAgrees(cache, View())
      && DistinctKeys(cache) && |cache| <= CACHED_SESSIONS
      && cache == Caching(accesses)
      && (transactionActive ==> Consistent(backup))
    }

    /** Between a failed statement and the rollback only this is known. */
    ghost predicate Recoverable()
      reads this
    {
      transactionActive && Consistent(backup) && cache == Caching(accesses)
    }

    constructor (tables: Tables)
      requires Consistent(tables)
      ensures Valid() && View() == tables && !transactionActive && cache == []
    {
      projects, sessions, events, receipts := tables.projects, tables.sessions, tables.events, tables.receipts;
      transactionActive := false;
      backup := tables;
      cache := [];
      accesses := [];
    }

    method Begin()
      requires Valid() && !transactionActive
      modifies this
      ensures Valid() && transactionActive && View() == old(View()) && backup == View()
    {
      backup := View();
      transactionActive := true;
    }

    method Commit()
      requires Valid() && transactionActive
      modifies this
      ensures Valid() && !transactionActive && View() == old(View())
    {
      transactionActive := false;
    }

    method Rollback()
      requires Recoverable()
      modifies this
      ensures Valid() && !transactionActive && View() == old(backup) && cache == []
    {
      cache := [];
      accesses := accesses + [Clear];
      projects, sessions, events, receipts :=
        backup.projects, backup.sessions, backup.events, backup.receipts;
      transactionActive := false;
    }

    /** The project of a directory, made with the drawn id unless there is one. */
    method AddProject(cwd: string, id: Id) returns (projectId: Id)
      requires Valid() && !transactionActive
      modifies this
      ensures Valid() && !transactionActive
      ensures projectId in projects && (id !in old(projects) ==> projects[projectId] == cwd)
      ensures View() == old(View()).(projects := projects)
      ensures forall p :: p in old(projects) ==> p in projects && projects[p] == old(projects)[p]
      ensures cwd in old(projects).Values ==> projects == old(projects) && projects[projectId] == cwd
      ensures OnePerDirectory(old(projects)) ==> OnePerDirectory(projects)
    {
      if p :| p in projects && projects[p] == cwd {
        projectId := p;
      } else {
        projectId := id;
        if id !in projects { projects := projects[id := cwd]; }
      }
    }

    /** Makes the value the most recently used one. */
    method Keep(value: HostSession)
      requires Recoverable() || Valid()
      requires CacheAgrees(Without(cache, value.session.id), View())
      requires DistinctKeys(cache) && |cache| <= CACHED_SESSIONS
      requires Consistent(View()) && Stored(View(), value.session.id) == Some(value)
      modifies this`cache, this`accesses
      ensures Valid() && cache == Remember(old(cache), value)
    {
      ghost var before := cache;
      var rest := Without(cache, value.session.id);
      cache := rest + [value];
      if |cache| > CACHED_SESSIONS { cache := cache[1..]; }
      accesses := accesses + [Use(value)];
      RememberKeepsDistinct(before, value);
      assert accesses[..|accesses| - 1] == old(accesses);
      forall v | v in cache ensures Stored(View(), v.session.id) == Some(v) {
        assert v == value || v in rest;
      }
    }

    method Forget(id: Id)
      requires cache == Caching(accesses) && DistinctKeys(cache)
      modifies this`cache, this`accesses
      ensures cache == Without(old(cache), id) && cache == Caching(accesses) && DistinctKeys(cache)
    {
      WithoutKeepsDistinct(cache, id);
      cache := Without(cache, id);
      accesses := accesses + [Drop(id)];
      assert accesses[..|accesses| - 1] == old(accesses);
    }

    method Find(id: Id) returns (found: Option<HostSession>)
      requires Valid()
      modifies this`cache, this`accesses
      ensures Valid()
      ensures found == Stored(View(), id)
      ensures found.Some? ==> cache != [] && cache[|cache| - 1] == found.value
    {
      var cached := Cached(cache, id);
      if cached.Some? {
        Keep(cached.value);
        return cached;
      }
      if id !in sessions { return None; }
      found := Some(sessions[id].snapshot);
      Keep(found.value);
    }

    method GetSession(id: Id) returns (result: Result<HostSession, HostError>)
      requires Valid()
      modifies this`cache, this`accesses
      ensures Valid()
      ensures result == if id in sessions then Ok(sessions[id].snapshot) else Err(UnknownSession)
    {
      var found := Find(id);
      result := if found.Some? then Ok(found.value) else Err(UnknownSession);
    }

    /** One card. A missing card, or one without a model, is computed and stored. */
    method Card(id: Id) returns (card: Summary)
      requires Valid() && id in sessions
      modifies this`cache, this`accesses, this`sessions
      ensures Valid() && card == Summarise(old(sessions)[id].snapshot)
      ensures View() == old(View()) || View() == FillCard(old(View()), id)
      ensures OnlyCardsDiffer(sessions, old(sessions))
    {
      var stored := sessions[id].summary;
      if stored.Some? && stored.value.model != "" { return stored.value; }
      var value := GetSession(id);
      card := Summarise(value.value);
      FillCardKeepsCached(cache, View(), id);
      sessions := sessions[id := sessions[id].(summary := Some(card))];
    }

    /** The cards of a project, the most recently updated first. A missing card is computed and stored. */
    method Summaries(projectId: Id) returns (cards: seq<Summary>)
      requires Valid()
      modifies this`cache, this`accesses, this`sessions
      ensures Valid()
      ensures NewestFirst(cards)
      ensures ListsCards(cards, old(sessions), ProjectRows(old(sessions), projectId))
      ensures OnlyCardsDiffer(sessions, old(sessions))
    {
      cards := [];
      ghost var before := View();
      var todo := ProjectRows(sessions, projectId);
      ghost var done: set<Id> := {};
      while todo != {}
        invariant Valid() && OnlyCardsDiffer(sessions, before.sessions)
        invariant NewestFirst(cards) && ListsCards(cards, before.sessions, done)
        invariant done !! todo && done + todo == ProjectRows(before.sessions, projectId)
      {
        var id :| id in todo;
        ghost var rows := sessions;
        var card := Card(id);
        CardIsSame(sessions, rows, before.sessions, id);
        NextCard(cards, before, done, id);
        cards := InsertCard(cards, card);
        Moves(todo, done, id);
        todo, done := todo - {id}, done + {id};
      }
    }

    method SyncSession(id: Id, revision: Option<int>) returns (answer: Result<SessionSync, HostError>)
      requires Valid()
      modifies this`cache, this`accesses
      ensures Valid()
      ensures answer == if id in sessions then Ok(Sync(sessions[id].snapshot, revision)) else Err(UnknownSession)
    {
      var current := GetSession(id);
      if current.Err? { return Err(current.error); }
      answer := Ok(Sync(current.value, revision));
    }

    /** The session row, the event row and the trim, in that order. */
    method WriteRows(value: HostSession, payload: Payload, fault: Fault) returns (written: bool)
      modifies this`sessions, this`events
      ensures written <==>
                && (value.session.id in old(sessions) || value.projectId in projects)
                && (value.session.id, value.revision) !in old(events)
                && fault in {NoFault, AtCommit}
      ensures written ==>
                View() == TrimEvents(
                            PutEvent(PutSession(old(View()), value), value.session.id, value.revision, payload),
                            value.session.id, value.revision)
    {
      var id := value.session.id;
      if (id !in sessions && value.projectId !in projects) || fault.AtSessionRow? { return false; }
      var projectId := if id in sessions then sessions[id].projectId else value.projectId;
      sessions := sessions[id := Row(projectId, value, Some(Summarise(value)))];
      if (id, value.revision) in events || fault.AtEventRow? { return false; }
      events := events[(id, value.revision) := payload];
      if fault.AtTrim? { return false; }
      events := map key | key in events && !(key.0 == id && key.1 < value.revision - RETAINED_EVENTS)
                    :: events[key];
      return true;
    }

    /** The value to store: creation time carried over, blocks stamped. */
    method Stamp(previous: Option<HostSession>, input: HostSession) returns (value: HostSession)
      ensures value == Stamped(previous, input)
    {
      var revisions := BlockRevisions(previous, input);
      var createdAt :=
        if input.createdAt.Some? then input.createdAt.value
        else if previous.None? then input.updatedAt
        else if previous.value.createdAt.Some? then previous.value.createdAt.value
        else previous.value.updatedAt;
      value := input.(createdAt := Some(createdAt), blockRevisions := Some(revisions));
    }

    /** The value a save of `input` stores, against the row as it is. */
    method Prepare(input: HostSession) returns (value: HostSession)
      requires Valid()
      modifies this`cache, this`accesses
      ensures Valid() && value == Saving(View(), input)
    {
      var previous := Find(input.session.id);
      value := Stamp(previous, input);
    }

    method WriteSession(input: HostSession, payload: Payload, fault: Fault)
      returns (saved: Result<HostSession, HostError>)
      requires Valid() && transactionActive
      modifies this
      ensures backup == old(backup)
      ensures saved.Ok? <==> !Rejected(old(View()), input) && fault in {NoFault, AtCommit}
      ensures saved.Ok? ==>
                Valid() && transactionActive
                && saved.value == Saving(old(View()), input)
                && View() == SaveRows(old(View()), input, payload)
      ensures saved.Err? ==> Recoverable()
    {
      var value := Prepare(input);
      ghost var before := View();
      SaveLeavesOthersCached(cache, before, input, payload);
      var written := WriteRows(value, payload, fault);
      if !written { return Err(StorageFailed); }
      Keep(value);
      return Ok(value);
    }

    /** Saves inside the active transaction, or in one of its own. */
    method Save(input: HostSession, payload: Payload, fault: Fault) returns (saved: Result<HostSession, HostError>)
      requires Valid()
      modifies this
      ensures transactionActive == old(transactionActive)
      ensures old(transactionActive) ==> backup == old(backup)
      ensures saved.Ok? <==>
                !Rejected(old(View()), input) && (fault.NoFault? || (fault.AtCommit? && old(transactionActive)))
      ensures saved.Ok? ==>
                Valid()
                && saved.value == Saving(old(View()), input)
                && View() == SaveRows(old(View()), input, payload)
      ensures saved.Err? && old(transactionActive) ==> Recoverable()
      ensures saved.Err? && !old(transactionActive) ==> Valid() && View() == old(View())
    {
      if transactionActive {
        saved := WriteSession(input, payload, fault);
        return;
      }
      Begin();
      saved := WriteSession(input, payload, fault);
      if saved.Ok? && fault.AtCommit? { saved := Err(StorageFailed); }
      if saved.Ok? { Commit(); } else { Rollback(); }
    }

    method UpdateSession(id: Id, patch: Patch, fault: Fault) returns (card: Result<Summary, HostError>)
      requires Valid() && !transactionActive
      modifies this
      ensures Valid() && !transactionActive
      ensures card.Ok? <==>
                && id in old(sessions)
                && (patch.title.Some? ==> ValidTitle(patch.title.value))
                && !Rejected(old(View()), Patched(old(sessions)[id].snapshot, patch))
                && fault.NoFault?
      ensures card.Ok? ==>
                var next := Patched(old(sessions)[id].snapshot, patch);
                && View() == SaveRows(old(View()), next, MetadataPayload(patch))
                && card.value == Summarise(Saving(old(View()), next))
      ensures card.Err? ==> View() == old(View())
    {
      Begin();
      var current := GetSession(id);
      if current.Err? { Rollback(); return Err(current.error); }
      if patch.title.Some? && !ValidTitle(patch.title.value) { Rollback(); return Err(InvalidTitle); }
      var next := Save(Patched(current.value, patch), MetadataPayload(patch), fault);
      if next.Err? || fault.AtCommit? { Rollback(); return Err(StorageFailed); }
      Commit();
      return Ok(Summarise(next.value));
    }

    method DeleteRows(id: Id)
      modifies this`sessions, this`events
      ensures View() == DropSession(old(View()), id)
    {
      events := map key | key in events && key.0 != id :: events[key];
      sessions := sessions - {id};
    }

    method DeleteSession(id: Id, fault: Fault) returns (done: Result<(), HostError>)
      requires Valid() && !transactionActive
      modifies this
      ensures Valid() && !transactionActive
      ensures done.Ok? <==> id in old(sessions) && !old(sessions)[id].snapshot.status.Running? && fault.NoFault?
      ensures View() == if done.Ok? then DropSession(old(View()), id) else old(View())
    {
      Begin();
      var current := GetSession(id);
      if current.Err? { Rollback(); return Err(current.error); }
      if current.value.status.Running? { Rollback(); return Err(TurnRunning); }
      DropLeavesOthersCached(cache, View(), id);
      DeleteRows(id);
      Forget(id);
      if !fault.NoFault? { Rollback(); return Err(StorageFailed); }
      Commit();
      return Ok(());
    }

    method FindReceipt(command: HostCommand) returns (receipt: Result<Option<Receipt>, HostError>)
      requires Valid()
      ensures command.commandId !in receipts ==> receipt == Ok(None)
      ensures command.commandId in receipts ==>
                receipt == if receipts[command.commandId].command == command
                           then Ok(Some(receipts[command.commandId].receipt))
                           else Err(CommandIdReused)
    {
      if command.commandId !in receipts { return Ok(None); }
      var row := receipts[command.commandId];
      if row.command != command { return Err(CommandIdReused); }
      return Ok(Some(row.receipt));
    }

    method RecordReceipt(command: HostCommand, receipt: Receipt) returns (recorded: bool)
      requires Valid() && transactionActive
      modifies this`receipts
      ensures Valid() && recorded == (receipt.commandId !in old(receipts))
      ensures View() == if recorded
                        then old(View()).(receipts := old(receipts)[receipt.commandId := ReceiptRow(command, receipt)])
                        else old(View())
    {
      recorded := receipt.commandId !in receipts;
      if recorded { receipts := receipts[receipt.commandId := ReceiptRow(command, receipt)]; }
    }

    method ReadEvents(id: Id, after: int) returns (answer: Result<EventsAnswer, HostError>)
      requires Valid()
      modifies this`cache, this`accesses
      ensures Valid()
      ensures answer == if id in sessions then Ok(EventsAfter(View(), id, after)) else Err(UnknownSession)
    {
      var current := GetSession(id);
      if current.Err? { return Err(current.error); }
      answer := Ok(EventsAfter(View(), id, after));
    }
  }

  predicate ValidTitle(title: string) {
    Trim(title, SCRIPT_WHITE_SPACE) != "" && |title| <= 200
  }

  /** The next revision of a session with the patched metadata. */
  function Patched(current: HostSession, patch: Patch): HostSession {
    current.(
      revision := current.revision + 1,
      archived := if patch.archived.Some? then patch.archived.value else current.archived,
      pinned := if patch.pinned.Some? then patch.pinned.value else current.pinned,
      session := current.session.(
        title := if patch.title.Some? then Trim(patch.title.value, SCRIPT_WHITE_SPACE) else current.session.title,
        linkedWorkItem :=
          if patch.linkedWorkItem.Some? then patch.linkedWorkItem.value else current.session.linkedWorkItem))
  }
}
