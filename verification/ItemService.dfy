/** The repository, the unit of work and the service over the item table
    (app/repositories/item_repository.py, app/db/unit_of_work.py, app/services/item_service.py).
    Ids and times are handed in, and so are the statements of other clients that get through between
    two statements of one call: each statement sees what is committed when it runs. */
module ItemService {
  import opened Wrappers
  import opened ItemOrder
  import opened Items
  import opened ItemListing

  datatype AppError =
    | ItemNameConflict
    | ItemNotFound
    | ItemVersionConflict(current: int)
    | ResourceConflict
    | RequestInvalid
    | MultipleRows

  // ------------------------------------------------------------------ cursors

  /** The cursor codec: text for a key and back; text that is no cursor decodes to nothing. */
  datatype Codec = Codec(encode: Key -> string, decode: string -> Option<Key>)

  /** Encoding is exact and never yields the empty text. */
  ghost predicate Exact(codec: Codec) {
    forall k: Key :: codec.encode(k) != "" && codec.decode(codec.encode(k)) == Some(k)
  }

  /** An absent and an empty cursor both ask for the first page. */
  predicate HasCursor(cursor: Option<string>) {
    cursor.Some? && cursor.value != ""
  }

  function KeyFrom(codec: Codec, cursor: Option<string>): Option<Key> {
    if HasCursor(cursor) then codec.decode(cursor.value) else None
  }

  function NextCursor(codec: Codec, next: Option<Key>): Option<string> {
    if next.Some? then Some(codec.encode(next.value)) else None
  }

  /** A page as it goes over the wire. */
  datatype ListResponse = ListResponse(items: seq<Item>, nextCursor: Option<string>)

  /** The response to a request for a page, read off the rows: the first `limit` rows after the cursor, or
      after nothing when there is no cursor or an empty one, and the text for the last of them exactly
      when rows are left. */
  ghost predicate IsResponse(rows: Rows, codec: Codec, owner: string, status: Option<Status>, limit: nat,
                             cursor: Option<string>, response: ListResponse)
  {
    var filter, items := Filter(owner, status), response.items;
    var below := if cursor == None || cursor.value == "" then None else codec.decode(cursor.value);
    && IsPage(rows, filter, below, limit, items)
    && (if exists x :: LeftFor(rows, filter, below, items, x)
        then 0 < limit == |items|
             && response.nextCursor == Some(codec.encode(Key(items[limit - 1].createdAt, items[limit - 1].id)))
        else response.nextCursor == None)
  }

  // ------------------------------------------------------------- unit of work

  class Database {
    var committed: Rows

    constructor ()
      ensures committed == map[]
    {
      committed := map[];
    }

    /** What other clients do in the meantime. */
    method Overlap(others: seq<Op>)
      modifies this
      ensures committed == Run(old(committed), others)
    {
      committed := Run(committed, others);
    }
  }

  /** The rows as one transaction sees them. */
  class Session {
    var rows: Rows

    constructor (rows: Rows)
      ensures this.rows == rows
    {
      this.rows := rows;
    }
  }

  class UnitOfWork {
    const db: Database
    var session: Session?

    constructor (db: Database)
      ensures this.db == db && session == null
    {
      this.db, session := db, null;
    }

    method Enter()
      modifies this
      ensures session != null && fresh(session) && session.rows == db.committed
    {
      session := new Session(db.committed);
    }

    /** Fails when the unit of work is not entered, as does `Rollback`. */
    method Commit() returns (ok: bool)
      modifies db
      ensures ok == (session != null)
      ensures db.committed == if session != null then session.rows else old(db.committed)
    {
      if session == null { return false; }
      db.committed := session.rows;
      ok := true;
    }

    method Rollback() returns (ok: bool)
      modifies session
      ensures ok == (session != null)
      ensures session != null ==> session.rows == db.committed
    {
      if session == null { return false; }
      session.rows := db.committed;
      ok := true;
    }
  }

  // --------------------------------------------------------------- repository

  lemma OnlyOneActiveName(rows: Rows, owner: string, name: string, hits: set<string>)
    requires UniqueNames(rows)
    requires forall id <- hits :: id in rows && IsActiveNamed(rows[id], owner, name)
    ensures |hits| <= 1
  {
    if hits != {} {
      var id :| id in hits;
      assert hits == {id};
    }
  }

  /** The pre-checks of the service leave the index nothing to reject. */
  lemma PreChecksSuffice(rows: Rows, op: Op)
    requires UniqueNames(rows)
    requires op.Create? ==> forall id <- rows :: !IsActiveNamed(rows[id], op.owner, op.name)
    requires op.Mutate? && op.patch.Update? && op.patch.name.Some? ==>
               forall id <- rows :: IsActiveNamed(rows[id], op.owner, op.patch.name.value) ==> id == op.id
    ensures OutcomeOf(rows, op) != NameIndexViolation
  {}

  /** One row more than the page tells whether there are more. */
  lemma OneMoreTells<T>(all: seq<T>, limit: nat)
    ensures Take(Take(all, limit + 1), limit) == Take(all, limit)
    ensures |Take(all, limit + 1)| > limit <==> |all| > limit
    ensures |all| > limit ==> |Take(all, limit)| == limit && Take(all, limit) == all[..limit]
  {}

  class ItemRepository {
    const session: Session

    constructor (session: Session)
      ensures this.session == session
    {
      this.session := session;
    }

    method Create(id: string, owner: string, name: string, description: Option<string>, status: Status, now: int)
      returns (outcome: Outcome)
      modifies session
      ensures var op := Op.Create(id, owner, name, description, status, now);
              outcome == OutcomeOf(old(session.rows), op) && session.rows == Step(old(session.rows), op)
    {
      if id in session.rows { return PrimaryKeyViolation; }
      if NameTaken(session.rows, owner, name, id) { return NameIndexViolation; }
      var item := Item(id, owner, name, description, status, 1, now, now, None);
      session.rows := session.rows[id := item];
      outcome := Done(item);
    }

    method GetActiveById(owner: string, id: string) returns (item: Option<Item>)
      ensures item == if Visible(session.rows, owner, id) then Some(session.rows[id]) else None
    {
      item := if Visible(session.rows, owner, id) then Some(session.rows[id]) else None;
    }

    /** Two hits are an error, which unique names rule out. */
    method GetActiveByName(owner: string, name: string) returns (r: Result<Option<Item>, AppError>)
      ensures UniqueNames(session.rows) ==> r.Ok?
      ensures r == Ok(None) <==> forall id <- session.rows :: !IsActiveNamed(session.rows[id], owner, name)
      ensures r.Ok? && r.value.Some? ==>
                var item := r.value.value;
                && item.id in session.rows && session.rows[item.id] == item && IsActiveNamed(item, owner, name)
                && forall id <- session.rows :: IsActiveNamed(session.rows[id], owner, name) ==> id == item.id
    {
      var hits := set id | id in session.rows && IsActiveNamed(session.rows[id], owner, name);
      if UniqueNames(session.rows) {
        OnlyOneActiveName(session.rows, owner, name, hits);
      }
      assert forall id <- session.rows :: IsActiveNamed(session.rows[id], owner, name) ==> id in hits;
      if hits == {} { return Ok(None); }
      var id :| id in hits;
      if hits != {id} {
        assert |hits - {id}| == |hits| - 1;
        assert |hits - {id}| > 0 by { var other :| other in hits - {id}; }
        return Err(MultipleRows);
      }
      r := Ok(Some(session.rows[id]));
    }

    /** The query: the first `n` wanted rows, newest first. */
    method SelectDescending(filter: Filter, cursor: Option<Key>, n: nat) returns (items: seq<Item>)
      ensures IsPage(session.rows, filter, cursor, n, items)
      ensures items == Take(Selection(session.rows, filter, cursor), n)
    {
      var todo := session.rows.Keys;
      items := [];
      while todo != {}
        invariant todo <= session.rows.Keys
        invariant IsSelection(session.rows - todo, filter, cursor, items)
        decreases todo
      {
        var id :| id in todo;
        ghost var done, more := session.rows - todo, session.rows - (todo - {id});
        assert forall other <- more :: other == id || (other in done && done[other] == more[other]);
        if Matches(filter, cursor, session.rows[id]) {
          InsertKeepsOrderIf(items, session.rows[id]);
          items := Insert(items, session.rows[id]);
        }
        todo := todo - {id};
      }
      assert session.rows - {} == session.rows;
      SelectionUnique(session.rows, filter, cursor, items, Selection(session.rows, filter, cursor));
      items := Take(items, n);
      TakeMeans(session.rows, filter, cursor, n);
    }

    method ListActive(codec: Codec, owner: string, status: Option<Status>, limit: nat, cursor: Option<string>)
      returns (r: Result<ListResponse, AppError>)
      ensures r.Err? <==> cursor.Some? && cursor.value != "" && codec.decode(cursor.value) == None
      ensures r.Err? ==> r.error == RequestInvalid
      ensures r.Ok? && limit > 0 ==> IsResponse(session.rows, codec, owner, status, limit, cursor, r.value)
      ensures r.Ok? ==>
                var page := PageOf(session.rows, Filter(owner, status), limit, KeyFrom(codec, cursor));
                r.value == ListResponse(page.items, NextCursor(codec, page.next))
    {
      var below: Option<Key> := None;
      if HasCursor(cursor) {
        below := codec.decode(cursor.value);
        if below.None? { return Err(RequestInvalid); }
      }
      var rows := SelectDescending(Filter(owner, status), below, limit + 1);
      OneMoreTells(Selection(session.rows, Filter(owner, status), below), limit);
      var items := Take(rows, limit);
      var next: Option<string> := None;
      if |rows| > limit && items != [] {
        next := Some(codec.encode(KeyOf(items[|items| - 1])));
      }
      r := Ok(ListResponse(items, next));
      if limit > 0 { PageMeans(session.rows, Filter(owner, status), limit, below); }
    }

    /** `late` are the statements of others between a compare-and-swap that matched no row and the
        lookup after it. */
    method UpdateCas(owner: string, id: string, expected: int, patch: Patch, now: int, late: seq<Op>)
      returns (outcome: Outcome)
      requires patch.Update?
      modifies session
      ensures var rows, op := old(session.rows), Mutate(owner, id, expected, patch, now);
              if Hits(rows, op) then outcome == OutcomeOf(rows, op) && session.rows == Step(rows, op)
              else session.rows == Run(rows, late) && outcome == Missed(session.rows, owner, id)
      ensures outcome.Done? ==> id in old(session.rows) && IsUpdated(old(session.rows)[id], outcome.item, patch, now)
    {
      if Visible(session.rows, owner, id) && session.rows[id].version == expected {
        var item := session.rows[id];
        item := item.(version := item.version + 1, updatedAt := now);
        if patch.name.Some? { item := item.(name := patch.name.value); }
        if patch.description.Some? { item := item.(description := patch.description); }
        if patch.status.Some? { item := item.(status := patch.status.value); }
        if NameTaken(session.rows, owner, item.name, id) { return NameIndexViolation; }
        session.rows := session.rows[id := item];
        return Done(item);
      }
      session.rows := Run(session.rows, late);
      var current := GetActiveById(owner, id);
      outcome := if current.None? then NotFound else VersionConflict(current.value.version);
    }

    method SoftDeleteCas(owner: string, id: string, expected: int, actor: string, now: int, late: seq<Op>)
      returns (outcome: Outcome)
      modifies session
      ensures var rows, op := old(session.rows), Mutate(owner, id, expected, SoftDelete(actor), now);
              if Hits(rows, op) then outcome == OutcomeOf(rows, op) && session.rows == Step(rows, op)
              else session.rows == Run(rows, late) && outcome == Missed(session.rows, owner, id)
    {
      if Visible(session.rows, owner, id) && session.rows[id].version == expected {
        var item := session.rows[id];
        item := item.(deleted := Some(Deletion(now, actor)), version := item.version + 1, updatedAt := now);
        session.rows := session.rows[id := item];
        return Done(item);
      }
      session.rows := Run(session.rows, late);
      var current := GetActiveById(owner, id);
      outcome := if current.None? then NotFound else VersionConflict(current.value.version);
    }
  }

  /** The compare-and-swap statement matches its row. */
  predicate Hits(rows: Rows, op: Op)
    requires op.Mutate?
  {
    Visible(rows, op.owner, op.id) && rows[op.id].version == op.expected
  }

  /** What the lookup after a miss tells. */
  function Missed(rows: Rows, owner: string, id: string): Outcome {
    if Visible(rows, owner, id) then VersionConflict(rows[id].version) else NotFound
  }

  /** A client that is behind is told a version that is ahead of its own, whatever gets in between. */
  lemma StaleClientLearnsLaterVersion(rows: Rows, op: Op, late: seq<Op>)
    requires op.Mutate? && Visible(rows, op.owner, op.id) && op.expected < rows[op.id].version
    ensures var told := Missed(Run(rows, late), op.owner, op.id);
      told == NotFound || (told.VersionConflict? && told.current > op.expected)
  {
    ItemIsFoldOfWinners(rows, late, op.id);
  }

  /** When nobody gets in between, a miss is what the statement itself tells. */
  lemma MissedIsOutcome(rows: Rows, op: Op)
    requires op.Mutate? && !Hits(rows, op)
    ensures Missed(Run(rows, []), op.owner, op.id) == OutcomeOf(rows, op) && Step(rows, op) == Run(rows, [])
  {}

  // ------------------------------------------------------------------ service

  const MAX_LIST_LIMIT := 100

  function MapIntegrityError(outcome: Outcome): AppError {
    if outcome.NameIndexViolation? then ItemNameConflict else ResourceConflict
  }

  class Service {
    const db: Database

    constructor (db: Database)
      ensures this.db == db
    {
      this.db := db;
    }

    /** A create succeeds exactly when the name was free at the check, is free at the insert, and the id
        is new; `others` get in between. */
    method CreateItem(owner: string, name: string, description: Option<string>, status: Status, id: string, now: int,
                      others: seq<Op>)
      returns (r: Result<Item, AppError>)
      requires UniqueNames(db.committed)
      modifies db
      ensures UniqueNames(db.committed)
      ensures var before, at := old(db.committed), Run(old(db.committed), others);
              var refused := HasName(before, owner, name);
              && (r.Ok? <==> !refused && !HasName(at, owner, name) && id !in at)
              && (r.Ok? ==> r.value == Item(id, owner, name, description, status, 1, now, now, None)
                            && db.committed == at[id := r.value])
              && (r == Err(ItemNameConflict) <==> refused || (id !in at && HasName(at, owner, name)))
              && (r == Err(ResourceConflict) <==> !refused && id in at)
              && (r.Err? ==> db.committed == if refused then before else at)
    {
      var uow := new UnitOfWork(db);
      uow.Enter();
      var items := new ItemRepository(uow.session);
      var existing := items.GetActiveByName(owner, name);
      if existing.Err? { return Err(existing.error); }
      if existing.value.Some? { return Err(ItemNameConflict); }
      RunKeepsNamesUnique(db.committed, others);
      db.Overlap(others);
      uow.session.rows := db.committed;
      ghost var op := Op.Create(id, owner, name, description, status, now);
      StepKeepsNamesUnique(db.committed, op);
      CreateStep(db.committed, op);
      var outcome := items.Create(id, owner, name, description, status, now);
      if !outcome.Done? {
        var _ := uow.Rollback();
        return Err(MapIntegrityError(outcome));
      }
      var _ := uow.Commit();
      r := Ok(outcome.item);
    }

    /** A page, for every limit the service admits. */
    method ListItems(codec: Codec, owner: string, status: Option<Status>, limit: int, cursor: Option<string>)
      returns (r: Result<ListResponse, AppError>)
      ensures r.Err? ==> r.error == RequestInvalid
      ensures r.Err? <==> !(1 <= limit <= 100) ||
                          (cursor.Some? && cursor.value != "" && codec.decode(cursor.value) == None)
      ensures r.Ok? ==> IsResponse(db.committed, codec, owner, status, limit, cursor, r.value)
      ensures r.Ok? ==>
                var page := PageOf(db.committed, Filter(owner, status), limit, KeyFrom(codec, cursor));
                r.value == ListResponse(page.items, NextCursor(codec, page.next))
    {
      if limit < 1 || limit > MAX_LIST_LIMIT { return Err(RequestInvalid); }
      var uow := new UnitOfWork(db);
      uow.Enter();
      var items := new ItemRepository(uow.session);
      r := items.ListActive(codec, owner, status, limit, cursor);
    }

    /** An update checks the name first. `between` get through before its statement, `late` before the
        lookup after a miss. A miss and a refused name change nothing, and when nobody got in between,
        the name check leaves the index nothing to reject. */
    method UpdateItem(owner: string, id: string, expected: int, patch: Patch, now: int, between: seq<Op>, late: seq<Op>)
      returns (r: Result<Item, AppError>)
      requires UniqueNames(db.committed) && patch.Update?
      modifies db
      ensures UniqueNames(db.committed)
      ensures var before, at := old(db.committed), Run(old(db.committed), between);
              if patch.name.Some? && HasNameBut(before, owner, patch.name.value, id) then
                r == Err(ItemNameConflict) && db.committed == before
              else if Meets(at, owner, id, expected) then
                && (r.Ok? <==> !HasNameBut(at, owner, patch.name.GetOr(at[id].name), id))
                && (r.Ok? ==> IsUpdated(at[id], r.value, patch, now) && db.committed == at[id := r.value])
                && (r.Err? ==> r == Err(ItemNameConflict) && db.committed == at)
                && (between == [] ==> r.Ok?)
              else
                var after := Run(at, late);
                && db.committed == after
                && r == Err(if id in after && after[id].owner == owner && after[id].deleted == None
                            then ItemVersionConflict(after[id].version) else ItemNotFound)
    {
      var uow := new UnitOfWork(db);
      uow.Enter();
      var items := new ItemRepository(uow.session);
      if patch.name.Some? {
        var existing := items.GetActiveByName(owner, patch.name.value);
        if existing.Err? { return Err(existing.error); }
        if existing.value.Some? && existing.value.value.id != id { return Err(ItemNameConflict); }
      }
      ghost var op := Mutate(owner, id, expected, patch, now);
      assert patch.name.Some? ==> !HasNameBut(db.committed, owner, patch.name.value, id);
      PreChecksSuffice(db.committed, op);
      MutateStep(Run(db.committed, between), op);
      RunKeepsNamesUnique(db.committed, between);
      db.Overlap(between);
      uow.session.rows := db.committed;
      StepKeepsNamesUnique(db.committed, op);
      RunKeepsNamesUnique(db.committed, late);
      var outcome := items.UpdateCas(owner, id, expected, patch, now, late);
      r := Settle(uow, outcome, late);
    }

    method DeleteItem(owner: string, id: string, expected: int, actor: string, now: int, late: seq<Op>)
      returns (r: Result<Item, AppError>)
      requires UniqueNames(db.committed)
      modifies db
      ensures UniqueNames(db.committed)
      ensures var before := old(db.committed);
              if Meets(before, owner, id, expected) then
                && r.Ok? && IsDeleted(before[id], r.value, actor, now)
                && db.committed == before[id := r.value]
              else
                var after := Run(before, late);
                && db.committed == after
                && r == Err(if id in after && after[id].owner == owner && after[id].deleted == None
                            then ItemVersionConflict(after[id].version) else ItemNotFound)
    {
      var uow := new UnitOfWork(db);
      uow.Enter();
      var items := new ItemRepository(uow.session);
      StepKeepsNamesUnique(db.committed, Mutate(owner, id, expected, SoftDelete(actor), now));
      RunKeepsNamesUnique(db.committed, late);
      var outcome := items.SoftDeleteCas(owner, id, expected, actor, now, late);
      r := Settle(uow, outcome, late);
    }

    /** Maps the outcome of a mutation: an error leaves the transaction uncommitted. After a miss the
        statements `late` of others are in the table. */
    method Settle(uow: UnitOfWork, outcome: Outcome, late: seq<Op>) returns (r: Result<Item, AppError>)
      requires uow.db == db && uow.session != null
      modifies db, uow.session
      ensures db.committed ==
              match outcome
              case Done(_) => old(uow.session.rows)
              case NotFound => Run(old(db.committed), late)
              case VersionConflict(_) => Run(old(db.committed), late)
              case _ => old(db.committed)
      ensures r == match outcome
                   case Done(item) => Ok(item)
                   case NotFound => Err(ItemNotFound)
                   case VersionConflict(current) => Err(ItemVersionConflict(current))
                   case _ => Err(MapIntegrityError(outcome))
    {
      match outcome {
        case Done(item) =>
          var _ := uow.Commit();
          r := Ok(item);
        case NotFound =>
          db.Overlap(late);
          r := Err(ItemNotFound);
        case VersionConflict(current) =>
          db.Overlap(late);
          r := Err(ItemVersionConflict(current));
        case _ =>
          var _ := uow.Rollback();
          r := Err(MapIntegrityError(outcome));
      }
    }
  }

  // --------------------------------------------------- traversal over the wire

  /** What a client sees of a fetch, beside the table at that moment. */
  datatype WireFetch = WireFetch(rows: Rows, response: ListResponse)

  /** The client sends back each cursor it gets, starting with `cursor`. */
  ghost predicate IsWireWalk(codec: Codec, filter: Filter, limit: nat, cursor: Option<string>, fetches: seq<WireFetch>)
    decreases |fetches|
  {
    && fetches != []
    && (var page := PageOf(fetches[0].rows, filter, limit, KeyFrom(codec, cursor));
        fetches[0].response == ListResponse(page.items, NextCursor(codec, page.next)))
    && (|fetches| > 1 ==>
          && fetches[0].response.nextCursor.Some?
          && Changes(fetches[0].rows, fetches[1].rows)
          && IsWireWalk(codec, filter, limit, fetches[0].response.nextCursor, fetches[1..]))
  }

  ghost function Decoded(codec: Codec, fetches: seq<WireFetch>): seq<Fetch> {
    seq(|fetches|, i requires 0 <= i < |fetches| =>
      Fetch(fetches[i].rows, Page(fetches[i].response.items, KeyFrom(codec, fetches[i].response.nextCursor))))
  }

  /** Under an exact codec a walk over the wire is a walk over keys, so `TraversalIsExact`
      and `StillTableWalk` hold of it. */
  lemma {:induction false} WireWalkIsWalk(codec: Codec, filter: Filter, limit: nat, cursor: Option<string>,
                                          fetches: seq<WireFetch>)
    requires Exact(codec) && IsWireWalk(codec, filter, limit, cursor, fetches)
    ensures IsWalk(filter, limit, KeyFrom(codec, cursor), Decoded(codec, fetches))
    ensures Finished(Decoded(codec, fetches)) <==> fetches[|fetches| - 1].response.nextCursor.None?
    decreases |fetches|
  {
    var keyed, rest := Decoded(codec, fetches), fetches[1..];
    assert keyed[1..] == Decoded(codec, rest);
    if rest != [] {
      WireWalkIsWalk(codec, filter, limit, fetches[0].response.nextCursor, rest);
    }
  }
}
