/** The item table: its rows, the statements that change them, and the histories they make up
    (app/repositories/item_repository.py, app/models/item.py). */
module Items {
  import opened Wrappers
  import opened ItemOrder

  datatype Status = Draft | Active | Archived

  datatype Deletion = Deletion(at: int, actor: string)

  datatype Item = Item(id: string, owner: string, name: string, description: Option<string>, status: Status,
                       version: int, createdAt: int, updatedAt: int, deleted: Option<Deletion>)

  /** Rows are stored under their primary key and never leave the table. */
  type Rows = m: map<string, Item> | forall id <- m :: m[id].id == id

  function KeyOf(item: Item): Key {
    Key(item.createdAt, item.id)
  }

  /** The partial unique index over the names of an owner's active items. */
  ghost predicate UniqueNames(rows: Rows) {
    forall a, b | a in rows && b in rows && a != b && rows[a].deleted.None? && rows[b].deleted.None? ::
      rows[a].owner != rows[b].owner || rows[a].name != rows[b].name
  }

  /** An active row other than `id` has that name: the index would reject it. */
  predicate NameTaken(rows: Rows, owner: string, name: string, id: string) {
    exists other :: other in rows && other != id && IsActiveNamed(rows[other], owner, name)
  }

  predicate IsActiveNamed(item: Item, owner: string, name: string) {
    item.owner == owner && item.name == name && item.deleted.None?
  }

  // ------------------------------------------------------------------ statements

  datatype Patch =
    | Update(name: Option<string>, description: Option<string>, status: Option<Status>)
    | SoftDelete(actor: string)

  datatype Op =
    | Create(id: string, owner: string, name: string, description: Option<string>, status: Status, now: int)
    | Mutate(owner: string, id: string, expected: int, patch: Patch, now: int)

  datatype Outcome =
    | Done(item: Item)
    | NotFound
    | VersionConflict(current: int)
    | NameIndexViolation
    | PrimaryKeyViolation

  function NewItem(op: Op): Item
    requires op.Create?
  {
    Item(op.id, op.owner, op.name, op.description, op.status, 1, op.now, op.now, None)
  }

  function Patched(item: Item, patch: Patch, now: int): Item {
    match patch
    case Update(name, description, status) =>
      item.(name := name.GetOr(item.name),
            description := if description.Some? then description else item.description,
            status := status.GetOr(item.status),
            version := item.version + 1,
            updatedAt := now)
    case SoftDelete(actor) =>
      item.(deleted := Some(Deletion(now, actor)), version := item.version + 1, updatedAt := now)
  }

  predicate Visible(rows: Rows, owner: string, id: string) {
    id in rows && rows[id].owner == owner && rows[id].deleted.None?
  }

  /** What one statement answers. */
  function OutcomeOf(rows: Rows, op: Op): Outcome {
    match op
    case Create(id, owner, name, _, _, _) =>
      if id in rows then PrimaryKeyViolation
      else if NameTaken(rows, owner, name, id) then NameIndexViolation
      else Done(NewItem(op))
    case Mutate(owner, id, expected, patch, now) =>
      if !Visible(rows, owner, id) then NotFound
      else if rows[id].version != expected then VersionConflict(rows[id].version)
      else
        var item := Patched(rows[id], patch, now);
        if item.deleted.None? && NameTaken(rows, owner, item.name, id) then NameIndexViolation else Done(item)
  }

  /** The table after one statement: only a statement that is done changes it. */
  function Step(rows: Rows, op: Op): Rows {
    var outcome := OutcomeOf(rows, op);
    if outcome.Done? then rows[op.id := outcome.item] else rows
  }

  /** The table after the statements of all clients, in the order in which they got through. */
  function Run(rows: Rows, ops: seq<Op>): Rows
    decreases |ops|
  {
    if ops == [] then rows else Run(Step(rows, ops[0]), ops[1..])
  }

  lemma {:induction false} RunAppend(rows: Rows, a: seq<Op>, b: seq<Op>)
    ensures Run(rows, a + b) == Run(Run(rows, a), b)
    decreases |a|
  {
    if a == [] {
      assert a + b == b;
    } else {
      assert (a + b)[0] == a[0] && (a + b)[1..] == a[1..] + b;
      RunAppend(Step(rows, a[0]), a[1..], b);
    }
  }

  // --------------------------------------------- a statement, read off the fields of the rows

  /** Some undeleted row of the owner has the name. */
  ghost predicate HasName(rows: Rows, owner: string, name: string) {
    exists other <- rows :: rows[other].owner == owner && rows[other].name == name && rows[other].deleted == None
  }

  ghost predicate HasNameBut(rows: Rows, owner: string, name: string, id: string) {
    exists other <- rows ::
      other != id && rows[other].owner == owner && rows[other].name == name && rows[other].deleted == None
  }

  /** `after` is `before` one version later, at that time; all else but name, description and status is kept. */
  ghost predicate IsNextVersion(before: Item, after: Item, now: int) {
    && after.id == before.id && after.owner == before.owner && after.createdAt == before.createdAt
    && after.version == before.version + 1 && after.updatedAt == now
  }

  /** `after` has what the update gives, and keeps what it leaves out. */
  ghost predicate IsUpdated(before: Item, after: Item, patch: Patch, now: int)
    requires patch.Update?
  {
    && IsNextVersion(before, after, now) && after.deleted == before.deleted
    && after.name == (if patch.name.Some? then patch.name.value else before.name)
    && after.description == (if patch.description.Some? then patch.description else before.description)
    && after.status == (if patch.status.Some? then patch.status.value else before.status)
  }

  ghost predicate IsDeleted(before: Item, after: Item, actor: string, now: int) {
    && IsNextVersion(before, after, now) && after.deleted == Some(Deletion(now, actor))
    && after.name == before.name && after.description == before.description && after.status == before.status
  }

  /** The statement of a mutation meets its row. */
  ghost predicate Meets(rows: Rows, owner: string, id: string, expected: int) {
    id in rows && rows[id].owner == owner && rows[id].deleted == None && rows[id].version == expected
  }

  lemma CreateStep(rows: Rows, op: Op)
    requires op.Create?
    ensures var outcome, after := OutcomeOf(rows, op), Step(rows, op);
      if op.id in rows then outcome == PrimaryKeyViolation && after == rows
      else if HasName(rows, op.owner, op.name) then outcome == NameIndexViolation && after == rows
      else outcome == Done(Item(op.id, op.owner, op.name, op.description, op.status, 1, op.now, op.now, None))
           && after == rows[op.id := outcome.item]
  {
    assert op.id !in rows ==> (HasName(rows, op.owner, op.name) <==> NameTaken(rows, op.owner, op.name, op.id));
  }

  /** A mutation that meets its row and leaves names unique rewrites that row; any other changes nothing. */
  lemma MutateStep(rows: Rows, op: Op)
    requires op.Mutate?
    ensures var outcome, after, meets := OutcomeOf(rows, op), Step(rows, op), Meets(rows, op.owner, op.id, op.expected);
      && (outcome.Done? <==>
            meets && (op.patch.Update? ==> !HasNameBut(rows, op.owner, op.patch.name.GetOr(rows[op.id].name), op.id)))
      && (meets && !outcome.Done? ==> outcome == NameIndexViolation)
      && (outcome.Done? ==>
            match op.patch
            case Update(_, _, _) => IsUpdated(rows[op.id], outcome.item, op.patch, op.now)
            case SoftDelete(actor) => IsDeleted(rows[op.id], outcome.item, actor, op.now))
      && after == if outcome.Done? then rows[op.id := outcome.item] else rows
  {
    assert forall name :: HasNameBut(rows, op.owner, name, op.id) <==> NameTaken(rows, op.owner, name, op.id);
  }

  // ------------------------------------------------- what no statement ever changes

  /** Rows stay, and keep what their list position and their visibility rest on. */
  ghost predicate Evolves(before: Rows, after: Rows) {
    forall id <- before ::
      && id in after
      && KeyOf(after[id]) == KeyOf(before[id])
      && after[id].owner == before[id].owner
      && (before[id].deleted.Some? ==> after[id] == before[id])
  }

  lemma {:induction false} RunEvolves(rows: Rows, ops: seq<Op>)
    ensures Evolves(rows, Run(rows, ops))
    decreases |ops|
  {
    if ops != [] {
      RunEvolves(Step(rows, ops[0]), ops[1..]);
    }
  }

  lemma StepKeepsNamesUnique(rows: Rows, op: Op)
    requires UniqueNames(rows)
    ensures UniqueNames(Step(rows, op))
  {}

  /** Whatever the clients do, and however their statements interleave. */
  lemma {:induction false} RunKeepsNamesUnique(rows: Rows, ops: seq<Op>)
    requires UniqueNames(rows)
    ensures UniqueNames(Run(rows, ops))
    decreases |ops|
  {
    if ops != [] {
      StepKeepsNamesUnique(rows, ops[0]);
      RunKeepsNamesUnique(Step(rows, ops[0]), ops[1..]);
    }
  }

  // ----------------------------------------------------------- compare and swap

  /** The mutations of item `id` that succeed in a run, in order. */
  function Wins(rows: Rows, ops: seq<Op>, id: string): seq<Op>
    decreases |ops|
  {
    if ops == [] then []
    else
      (if WinsOn(rows, ops[0], id) then [ops[0]] else [])
      + Wins(Step(rows, ops[0]), ops[1..], id)
  }

  /** An item with patches laid over it, without regard to versions, owners or other rows. */
  function Folded(item: Item, wins: seq<Op>): Item
    requires forall w <- wins :: w.Mutate?
    decreases |wins|
  {
    if wins == [] then item else Folded(Patched(item, wins[0].patch, wins[0].now), wins[1..])
  }

  predicate WinsOn(rows: Rows, op: Op, id: string) {
    op.Mutate? && op.id == id && OutcomeOf(rows, op).Done?
  }

  lemma StepOnItem(rows: Rows, op: Op, id: string)
    requires id in rows
    ensures id in Step(rows, op)
    ensures WinsOn(rows, op, id) ==>
              && op.expected == rows[id].version && op.owner == rows[id].owner && rows[id].deleted.None?
              && Step(rows, op)[id] == Patched(rows[id], op.patch, op.now)
    ensures !WinsOn(rows, op, id) ==> Step(rows, op)[id] == rows[id]
  {}

  lemma WinsSplit(rows: Rows, ops: seq<Op>, id: string)
    requires ops != []
    ensures var rest := Wins(Step(rows, ops[0]), ops[1..], id);
            if WinsOn(rows, ops[0], id)
            then Wins(rows, ops, id) == [ops[0]] + rest && Wins(rows, ops, id)[1..] == rest
            else Wins(rows, ops, id) == rest
  {}

  /** The winners expect consecutive versions, starting at the item's own: no two expect the same. */
  lemma {:induction false} WinnersExpectConsecutiveVersions(rows: Rows, ops: seq<Op>, id: string)
    requires id in rows
    ensures var wins := Wins(rows, ops, id);
            forall k | 0 <= k < |wins| ::
              wins[k].Mutate? && wins[k].id == id && wins[k].owner == rows[id].owner
              && wins[k].expected == rows[id].version + k
    decreases |ops|
  {
    if ops != [] {
      WinsSplit(rows, ops, id);
      StepOnItem(rows, ops[0], id);
      WinnersExpectConsecutiveVersions(Step(rows, ops[0]), ops[1..], id);
    }
  }

  /** The item is the fold of the winning patches, and its version counts them. */
  lemma {:induction false} ItemIsFoldOfWinners(rows: Rows, ops: seq<Op>, id: string)
    requires id in rows
    ensures id in Run(rows, ops)
    ensures forall w <- Wins(rows, ops, id) :: w.Mutate?
    ensures Run(rows, ops)[id] == Folded(rows[id], Wins(rows, ops, id))
    ensures Run(rows, ops)[id].version == rows[id].version + |Wins(rows, ops, id)|
    decreases |ops|
  {
    if ops != [] {
      WinsSplit(rows, ops, id);
      StepOnItem(rows, ops[0], id);
      ItemIsFoldOfWinners(Step(rows, ops[0]), ops[1..], id);
    }
  }

  /** Nothing wins on a deleted item, and a winning deletion is the last to win. */
  lemma {:induction false} DeletionWinsLast(rows: Rows, ops: seq<Op>, id: string)
    requires id in rows
    ensures id in Run(rows, ops)
    ensures rows[id].deleted.Some? ==> Wins(rows, ops, id) == []
    ensures var wins := Wins(rows, ops, id);
            forall k | 0 <= k < |wins| :: wins[k].Mutate? &&
              (wins[k].patch.SoftDelete? <==> k == |wins| - 1 && Run(rows, ops)[id].deleted.Some?)
    decreases |ops|
  {
    if ops != [] {
      WinsSplit(rows, ops, id);
      StepOnItem(rows, ops[0], id);
      DeletionWinsLast(Step(rows, ops[0]), ops[1..], id);
      ItemIsFoldOfWinners(Step(rows, ops[0]), ops[1..], id);
    }
  }

  /** An item's version is one more than the number of its successful mutations. */
  lemma VersionCountsWins(rows: Rows, before: seq<Op>, create: Op, after: seq<Op>)
    requires create.Create? && OutcomeOf(Run(rows, before), create).Done?
    ensures create.id in Run(rows, before + [create] + after)
    ensures var wins := Wins(Step(Run(rows, before), create), after, create.id);
            Run(rows, before + [create] + after)[create.id].version == 1 + |wins|
  {
    RunAppend(rows, before, [create]);
    RunAppend(rows, before + [create], after);
    assert Run(Run(rows, before), [create]) == Step(Run(rows, before), create);
    ItemIsFoldOfWinners(Step(Run(rows, before), create), after, create.id);
  }
}
