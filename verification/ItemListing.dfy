/** Keyset pages over a table that changes between fetches
    (app/repositories/item_repository.py:43-70, app/db/pagination.py). */
module ItemListing {
  import opened Wrappers
  import opened ItemOrder
  import opened Items

  /** What a client lists by. */
  datatype Filter = Filter(owner: string, status: Option<Status>)

  predicate Accepts(filter: Filter, item: Item) {
    && item.owner == filter.owner
    && item.deleted.None?
    && (filter.status.Some? ==> item.status == filter.status.value)
  }

  predicate Matches(filter: Filter, cursor: Option<Key>, item: Item) {
    Accepts(filter, item) && (cursor.Some? ==> Below(KeyOf(item), cursor.value))
  }

  ghost predicate Descending(items: seq<Item>) {
    forall i, j | 0 <= i < j < |items| :: Below(KeyOf(items[j]), KeyOf(items[i]))
  }

  /** `items` are exactly the matching rows, in descending order. */
  ghost predicate IsSelection(rows: Rows, filter: Filter, cursor: Option<Key>, items: seq<Item>) {
    && Descending(items)
    && (forall x <- items :: x.id in rows && rows[x.id] == x && Matches(filter, cursor, x))
    && (forall id <- rows :: Matches(filter, cursor, rows[id]) ==> rows[id] in items)
  }

  lemma DescendingTail(items: seq<Item>)
    requires Descending(items) && items != []
    ensures Descending(items[1..]) && items[0] !in items[1..]
    ensures forall x <- items[1..] :: Below(KeyOf(x), KeyOf(items[0]))
  {
    BelowTrichotomy(KeyOf(items[0]), KeyOf(items[0]));
  }

  lemma DescendingConcat(a: seq<Item>, b: seq<Item>)
    requires Descending(a) && Descending(b)
    requires forall x, y | x in a && y in b :: Below(KeyOf(y), KeyOf(x))
    ensures Descending(a + b)
  {}

  lemma SameMembersEmpty(a: seq<Item>, b: seq<Item>)
    requires forall x :: x in a <==> x in b
    ensures a == [] <==> b == []
  {
    if a != [] { assert a[0] in b; }
    if b != [] { assert b[0] in a; }
  }

  lemma {:induction false} DescendingUnique(a: seq<Item>, b: seq<Item>)
    requires Descending(a) && Descending(b)
    requires forall x :: x in a <==> x in b
    ensures a == b
    decreases |a|
  {
    SameMembersEmpty(a, b);
    if a != [] {
      assert a[0] in b && b[0] in a;
      BelowTrichotomy(KeyOf(a[0]), KeyOf(b[0]));
      DescendingTail(a);
      DescendingTail(b);
      assert a == [a[0]] + a[1..] && b == [b[0]] + b[1..];
      forall x ensures x in a[1..] <==> x in b[1..] {
        if x in a[1..] { assert x in a && x != a[0]; }
        if x in b[1..] { assert x in b && x != b[0]; }
      }
      DescendingUnique(a[1..], b[1..]);
    }
  }

  lemma SelectionUnique(rows: Rows, filter: Filter, cursor: Option<Key>, a: seq<Item>, b: seq<Item>)
    requires IsSelection(rows, filter, cursor, a) && IsSelection(rows, filter, cursor, b)
    ensures a == b
  {
    forall x ensures x in a <==> x in b {}
    DescendingUnique(a, b);
  }

  /** Puts an item in its place. */
  function Insert(items: seq<Item>, x: Item): (r: seq<Item>)
    ensures multiset(r) == multiset(items) + multiset{x}
  {
    if items == [] || Below(KeyOf(items[0]), KeyOf(x)) then [x] + items
    else
      assert items == [items[0]] + items[1..];
      [items[0]] + Insert(items[1..], x)
  }

  lemma {:induction false} InsertKeepsOrder(items: seq<Item>, x: Item)
    requires Descending(items) && forall y <- items :: KeyOf(y) != KeyOf(x)
    ensures Descending(Insert(items, x))
    ensures forall y :: y in Insert(items, x) <==> y == x || y in items
  {
    forall y ensures y in Insert(items, x) <==> y == x || y in items {
      assert y in Insert(items, x) <==> y in multiset(Insert(items, x));
    }
    if items != [] {
      var head, tail := items[0], items[1..];
      assert items == [head] + tail;
      DescendingTail(items);
      BelowTrichotomy(KeyOf(head), KeyOf(x));
      if Below(KeyOf(head), KeyOf(x)) {
        forall y <- items ensures Below(KeyOf(y), KeyOf(x)) {
          if y != head { BelowTransitive(KeyOf(y), KeyOf(head), KeyOf(x)); }
        }
        DescendingConcat([x], items);
      } else {
        InsertKeepsOrder(tail, x);
        DescendingConcat([head], Insert(tail, x));
      }
    }
  }

  /** The matching rows in descending order: the answer to the query without its limit. */
  ghost function Selection(rows: Rows, filter: Filter, cursor: Option<Key>): (items: seq<Item>)
    ensures IsSelection(rows, filter, cursor, items)
    decreases rows.Keys
  {
    if rows == map[] then []
    else
      var id :| id in rows;
      var others: Rows := rows - {id};
      assert others.Keys < rows.Keys;
      var rest := Selection(others, filter, cursor);
      InsertKeepsOrderIf(rest, rows[id]);
      if Matches(filter, cursor, rows[id]) then Insert(rest, rows[id]) else rest
  }

  lemma InsertKeepsOrderIf(items: seq<Item>, x: Item)
    requires Descending(items) && forall y <- items :: y.id != x.id
    ensures Descending(Insert(items, x))
    ensures forall y :: y in Insert(items, x) <==> y == x || y in items
  {
    InsertKeepsOrder(items, x);
  }

  // ------------------------------------------- the listing, read off the fields of the rows

  /** Times never rise, and ids fall among equal times. */
  ghost predicate NewestFirst(items: seq<Item>) {
    forall i, j | 0 <= i < j < |items| ::
      ListedBefore(items[i].createdAt, items[i].id, items[j].createdAt, items[j].id)
  }

  /** An undeleted row of that owner, in that status if one is asked for. */
  ghost predicate Listable(filter: Filter, x: Item) {
    && x.owner == filter.owner
    && x.deleted == None
    && (filter.status == None || filter.status == Some(x.status))
  }

  /** A row that the listing has yet to show to a client that holds the cursor. */
  ghost predicate Wanted(filter: Filter, cursor: Option<Key>, x: Item) {
    && Listable(filter, x)
    && (cursor == None || ListedBefore(cursor.value.createdAt, cursor.value.id, x.createdAt, x.id))
  }

  ghost predicate WantedRow(rows: Rows, filter: Filter, cursor: Option<Key>, x: Item) {
    x.id in rows && rows[x.id] == x && Wanted(filter, cursor, x)
  }

  lemma DescendingMeans(items: seq<Item>)
    ensures Descending(items) <==> NewestFirst(items)
  {
    forall i, j | 0 <= i < j < |items|
      ensures Below(KeyOf(items[j]), KeyOf(items[i])) <==>
              ListedBefore(items[i].createdAt, items[i].id, items[j].createdAt, items[j].id)
    {
      BelowMeans(KeyOf(items[j]), KeyOf(items[i]));
    }
  }

  lemma MatchesMeans(filter: Filter, cursor: Option<Key>, x: Item)
    ensures Matches(filter, cursor, x) <==> Wanted(filter, cursor, x)
  {
    if cursor.Some? { BelowMeans(KeyOf(x), cursor.value); }
  }

  /** A selection lists exactly the wanted rows, newest first. */
  lemma SelectionMeans(rows: Rows, filter: Filter, cursor: Option<Key>, items: seq<Item>)
    ensures IsSelection(rows, filter, cursor, items) <==>
            NewestFirst(items) && forall x :: x in items <==> WantedRow(rows, filter, cursor, x)
  {
    DescendingMeans(items);
    forall x ensures Matches(filter, cursor, x) <==> Wanted(filter, cursor, x) { MatchesMeans(filter, cursor, x); }
    if NewestFirst(items) && forall x :: x in items <==> WantedRow(rows, filter, cursor, x) {
      forall id <- rows ensures Matches(filter, cursor, rows[id]) ==> rows[id] in items {
        assert rows[id] in items <==> WantedRow(rows, filter, cursor, rows[id]);
      }
    }
  }

  // -------------------------------------------------------------------- pages

  datatype Page = Page(items: seq<Item>, next: Option<Key>)

  function Take<T>(s: seq<T>, n: nat): seq<T> {
    if n < |s| then s[..n] else s
  }

  /** The page that a fetch of `limit + 1` rows makes. */
  ghost function PageOf(rows: Rows, filter: Filter, limit: nat, cursor: Option<Key>): Page {
    var all := Selection(rows, filter, cursor);
    Page(Take(all, limit), if |all| > limit > 0 then Some(KeyOf(all[limit - 1])) else None)
  }

  /** The wanted rows that a page leaves for later. */
  ghost predicate LeftFor(rows: Rows, filter: Filter, cursor: Option<Key>, items: seq<Item>, x: Item) {
    WantedRow(rows, filter, cursor, x) && x !in items
  }

  /** The first `limit` wanted rows, newest first: the page is short only if it leaves no row, and the
      rows it leaves are listed after its last one. */
  ghost predicate IsPage(rows: Rows, filter: Filter, cursor: Option<Key>, limit: nat, items: seq<Item>) {
    && NewestFirst(items)
    && |items| <= limit
    && (forall x <- items :: WantedRow(rows, filter, cursor, x))
    && (forall x | LeftFor(rows, filter, cursor, items, x) ::
          |items| == limit
          && (limit > 0 ==> ListedBefore(items[limit - 1].createdAt, items[limit - 1].id, x.createdAt, x.id)))
  }

  lemma TakeMeans(rows: Rows, filter: Filter, cursor: Option<Key>, n: nat)
    ensures var all := Selection(rows, filter, cursor);
      && IsPage(rows, filter, cursor, n, Take(all, n))
      && ((exists x :: LeftFor(rows, filter, cursor, Take(all, n), x)) <==> |all| > n)
  {
    var all := Selection(rows, filter, cursor);
    var items := Take(all, n);
    SelectionMeans(rows, filter, cursor, all);
    assert forall i | 0 <= i < |items| :: all[i] in items;
    forall x | LeftFor(rows, filter, cursor, items, x)
      ensures |items| == n
      ensures n > 0 ==> ListedBefore(items[n - 1].createdAt, items[n - 1].id, x.createdAt, x.id)
    {
      var j :| 0 <= j < |all| && all[j] == x;
    }
    if |all| > n {
      TakeLeaves(rows, filter, cursor, n);
    }
  }

  lemma TakeLeaves(rows: Rows, filter: Filter, cursor: Option<Key>, n: nat)
    requires |Selection(rows, filter, cursor)| > n
    ensures var all := Selection(rows, filter, cursor); LeftFor(rows, filter, cursor, Take(all, n), all[n])
  {
    var all := Selection(rows, filter, cursor);
    SelectionMeans(rows, filter, cursor, all);
    assert all[n] in all;
    forall i | 0 <= i < n ensures all[i] != all[n] { BelowTrichotomy(KeyOf(all[i]), KeyOf(all[n])); }
  }

  /** A page read off the rows; it hands a cursor out exactly when it leaves rows, the place of its last one. */
  lemma PageMeans(rows: Rows, filter: Filter, limit: nat, cursor: Option<Key>)
    requires limit > 0
    ensures var page := PageOf(rows, filter, limit, cursor);
      && IsPage(rows, filter, cursor, limit, page.items)
      && (if exists x :: LeftFor(rows, filter, cursor, page.items, x)
          then |page.items| == limit
               && page.next == Some(Key(page.items[limit - 1].createdAt, page.items[limit - 1].id))
          else page.next == None)
  {
    TakeMeans(rows, filter, cursor, limit);
  }

  lemma BelowIsBehind(items: seq<Item>, n: nat, x: Item)
    requires Descending(items) && 0 < n <= |items| && x in items
    ensures x in items[n..] <==> Below(KeyOf(x), KeyOf(items[n - 1]))
  {
    var j :| 0 <= j < |items| && items[j] == x;
    BelowTrichotomy(KeyOf(x), KeyOf(items[n - 1]));
    if x in items[n..] {
      var k :| n <= k < |items| && items[k] == x;
      assert Below(KeyOf(items[k]), KeyOf(items[n - 1]));
    } else {
      assert j < n;
    }
  }

  /** The rows after a page are the selection below its last row. */
  lemma SelectionAfter(rows: Rows, filter: Filter, cursor: Option<Key>, n: nat)
    requires 0 < n <= |Selection(rows, filter, cursor)|
    ensures var all := Selection(rows, filter, cursor);
            Selection(rows, filter, Some(KeyOf(all[n - 1]))) == all[n..]
  {
    var all := Selection(rows, filter, cursor);
    var last := KeyOf(all[n - 1]);
    forall x | x in all ensures x in all[n..] <==> Below(KeyOf(x), last) { BelowIsBehind(all, n, x); }
    forall id | id in rows && Matches(filter, Some(last), rows[id]) ensures rows[id] in all {
      if cursor.Some? { BelowTransitive(KeyOf(rows[id]), last, cursor.value); }
    }
    SelectionUnique(rows, filter, Some(last), all[n..], Selection(rows, filter, Some(last)));
  }

  // -------------------------------------------------------------------- walks

  /** A fetch: the table at that moment and the page that came back. */
  datatype Fetch = Fetch(rows: Rows, page: Page)

  /** Any clients run any statements between two fetches. */
  ghost predicate Changes(before: Rows, after: Rows) {
    exists ops: seq<Op> :: after == Run(before, ops)
  }

  /** The client follows `next_cursor` from fetch to fetch, starting with `cursor`. */
  ghost predicate IsWalk(filter: Filter, limit: nat, cursor: Option<Key>, fetches: seq<Fetch>)
    decreases |fetches|
  {
    && fetches != []
    && fetches[0].page == PageOf(fetches[0].rows, filter, limit, cursor)
    && (|fetches| > 1 ==>
          && fetches[0].page.next.Some?
          && Changes(fetches[0].rows, fetches[1].rows)
          && IsWalk(filter, limit, fetches[0].page.next, fetches[1..]))
  }

  ghost predicate Finished(fetches: seq<Fetch>) {
    fetches != [] && fetches[|fetches| - 1].page.next.None?
  }

  function Returned(fetches: seq<Fetch>): seq<Item> {
    if fetches == [] then [] else fetches[0].page.items + Returned(fetches[1..])
  }

  /** A page lies below its cursor and above the cursor it hands out. */
  lemma PageBounds(rows: Rows, filter: Filter, limit: nat, cursor: Option<Key>)
    ensures var page := PageOf(rows, filter, limit, cursor);
      && Descending(page.items)
      && (forall x <- page.items :: Matches(filter, cursor, x))
      && (page.next.Some? ==>
            && (cursor.Some? ==> Below(page.next.value, cursor.value))
            && forall x <- page.items :: KeyOf(x) == page.next.value || Below(page.next.value, KeyOf(x)))
  {}

  /** Over a walk the returned keys strictly descend, and none reaches the cursor again. */
  lemma {:induction false} WalkDescends(filter: Filter, limit: nat, cursor: Option<Key>, fetches: seq<Fetch>)
    requires IsWalk(filter, limit, cursor, fetches)
    ensures Descending(Returned(fetches))
    ensures forall x <- Returned(fetches) :: Matches(filter, cursor, x)
    decreases |fetches|
  {
    var page, rest := fetches[0].page, fetches[1..];
    PageBounds(fetches[0].rows, filter, limit, cursor);
    if rest != [] {
      WalkDescends(filter, limit, page.next, rest);
      PageThenRest(filter, cursor, page, Returned(rest));
    } else {
      assert Returned(rest) == [];
    }
  }

  lemma PageThenRest(filter: Filter, cursor: Option<Key>, page: Page, rest: seq<Item>)
    requires page.next.Some? && Descending(page.items) && Descending(rest)
    requires forall x <- page.items :: Matches(filter, cursor, x)
    requires forall x <- page.items :: KeyOf(x) == page.next.value || Below(page.next.value, KeyOf(x))
    requires forall y <- rest :: Matches(filter, page.next, y)
    requires cursor.Some? ==> Below(page.next.value, cursor.value)
    ensures Descending(page.items + rest)
    ensures forall x <- page.items + rest :: Matches(filter, cursor, x)
  {
    forall x, y | x in page.items && y in rest ensures Below(KeyOf(y), KeyOf(x)) {
      if KeyOf(x) != page.next.value { BelowTransitive(KeyOf(y), page.next.value, KeyOf(x)); }
    }
    forall y <- rest ensures Matches(filter, cursor, y) {
      if cursor.Some? { BelowTransitive(KeyOf(y), page.next.value, cursor.value); }
    }
    DescendingConcat(page.items, rest);
  }

  /** The rows at fetch `i` of the walk have the identity they had at the first fetch. */
  lemma {:induction false} WalkEvolves(filter: Filter, limit: nat, cursor: Option<Key>, fetches: seq<Fetch>, i: nat)
    requires IsWalk(filter, limit, cursor, fetches) && i < |fetches|
    ensures Evolves(fetches[0].rows, fetches[i].rows)
    decreases |fetches|
  {
    if i > 0 {
      var ops :| fetches[1].rows == Run(fetches[0].rows, ops);
      RunEvolves(fetches[0].rows, ops);
      WalkEvolves(filter, limit, fetches[0].page.next, fetches[1..], i - 1);
    }
  }

  /** A row that is accepted at every fetch of a finished walk is returned. */
  lemma {:induction false} WalkCovers(filter: Filter, limit: nat, cursor: Option<Key>, fetches: seq<Fetch>, id: string)
    requires IsWalk(filter, limit, cursor, fetches) && Finished(fetches) && limit > 0
    requires forall f <- fetches :: id in f.rows && Accepts(filter, f.rows[id])
    requires cursor.Some? ==> Below(KeyOf(fetches[0].rows[id]), cursor.value)
    ensures exists x :: x in Returned(fetches) && x.id == id
    decreases |fetches|
  {
    var page, rest, row := fetches[0].page, fetches[1..], fetches[0].rows[id];
    var all := Selection(fetches[0].rows, filter, cursor);
    assert fetches[0] in fetches && row in all;
    if row in page.items {
      assert row in Returned(fetches);
    } else {
      var j :| 0 <= j < |all| && all[j] == row;
      assert j >= limit && Below(KeyOf(row), KeyOf(all[limit - 1]));
      WalkEvolves(filter, limit, cursor, fetches, 1);
      WalkCovers(filter, limit, page.next, rest, id);
      var x :| x in Returned(rest) && x.id == id;
      assert x in Returned(fetches);
    }
  }

  /** Every returned row comes from the table at some fetch, with the key it always had. */
  lemma {:induction false} ReturnedKeys(filter: Filter, limit: nat, cursor: Option<Key>, fetches: seq<Fetch>, x: Item)
    requires IsWalk(filter, limit, cursor, fetches) && x in Returned(fetches)
    ensures x.id in fetches[|fetches| - 1].rows
    ensures KeyOf(fetches[|fetches| - 1].rows[x.id]) == KeyOf(x)
    decreases |fetches|
  {
    if x in fetches[0].page.items {
      WalkEvolves(filter, limit, cursor, fetches, |fetches| - 1);
    } else {
      ReturnedKeys(filter, limit, fetches[0].page.next, fetches[1..], x);
    }
  }

  /** The row is there to be listed at every fetch of the walk. */
  ghost predicate AlwaysListable(filter: Filter, fetches: seq<Fetch>, id: string) {
    forall f <- fetches :: id in f.rows && Listable(filter, f.rows[id])
  }

  ghost predicate ReturnedAt(items: seq<Item>, id: string, i: int) {
    0 <= i < |items| && items[i].id == id
  }

  /** The traversal theorem: whatever happens between the fetches, the rows that come back are listable
      and newest first, no row comes back twice, and a row that is listable at every fetch comes back,
      hence exactly once. */
  lemma TraversalIsExact(filter: Filter, limit: nat, fetches: seq<Fetch>)
    requires IsWalk(filter, limit, None, fetches) && limit > 0
    ensures NewestFirst(Returned(fetches))
    ensures forall x <- Returned(fetches) :: Listable(filter, x)
    ensures forall id, i, j | ReturnedAt(Returned(fetches), id, i) && ReturnedAt(Returned(fetches), id, j) :: i == j
    ensures Finished(fetches) ==>
              forall id | AlwaysListable(filter, fetches, id) :: exists i :: ReturnedAt(Returned(fetches), id, i)
  {
    var all := Returned(fetches);
    WalkDescends(filter, limit, None, fetches);
    DescendingMeans(all);
    forall x ensures Accepts(filter, x) <==> Listable(filter, x) { MatchesMeans(filter, None, x); }
    forall id, i, j | ReturnedAt(all, id, i) && ReturnedAt(all, id, j) ensures i == j {
      ReturnedKeys(filter, limit, None, fetches, all[i]);
      ReturnedKeys(filter, limit, None, fetches, all[j]);
      BelowTrichotomy(KeyOf(all[i]), KeyOf(all[j]));
    }
    if Finished(fetches) {
      forall id | AlwaysListable(filter, fetches, id) ensures exists i :: ReturnedAt(all, id, i) {
        WalkCovers(filter, limit, None, fetches, id);
        var x :| x in all && x.id == id;
        var i :| 0 <= i < |all| && all[i] == x;
        assert ReturnedAt(all, id, i);
      }
    }
  }

  // ------------------------------------------------------- a table that stands still

  function CeilDiv(n: nat, d: nat): (r: nat)
    requires d > 0
    ensures if n == 0 then r == 0 else (r - 1) * d < n <= r * d
  {
    if n == 0 then 0 else if n <= d then 1 else 1 + CeilDiv(n - d, d)
  }

  ghost predicate AllSee(rows: Rows, fetches: seq<Fetch>) {
    forall i | 0 <= i < |fetches| :: fetches[i].rows == rows
  }

  /** One page of a table that stands still, and what is left after it. */
  lemma StillTablePage(rows: Rows, filter: Filter, limit: nat, cursor: Option<Key>)
    requires limit > 0
    ensures var all, page := Selection(rows, filter, cursor), PageOf(rows, filter, limit, cursor);
            if |all| <= limit then page == Page(all, None)
            else page.items == all[..limit] && page.next.Some? && Selection(rows, filter, page.next) == all[limit..]
  {
    if |Selection(rows, filter, cursor)| > limit {
      SelectionAfter(rows, filter, cursor, limit);
    }
  }

  /** How many fetches `n` rows need. */
  function Need(n: nat, limit: nat): nat
    requires limit > 0
  {
    if n == 0 then 1 else CeilDiv(n, limit)
  }

  lemma NeedOneMore(n: nat, limit: nat)
    requires limit > 0
    ensures n <= limit ==> Need(n, limit) == 1
    ensures n > limit ==> Need(n, limit) == 1 + Need(n - limit, limit)
  {}

  function ItemsOf(fetches: seq<Fetch>): seq<seq<Item>> {
    if fetches == [] then [] else [fetches[0].page.items] + ItemsOf(fetches[1..])
  }

  /** `pages` cut a front part of `all` into pieces of `limit`; only the last piece may be shorter,
      when it takes all that is left. */
  ghost predicate Cut<T>(all: seq<T>, limit: nat, pages: seq<seq<T>>)
    decreases |pages|
  {
    && pages != []
    && pages[0] == Take(all, limit)
    && (|pages| > 1 ==> |all| > limit && Cut(all[limit..], limit, pages[1..]))
  }

  function Concat<T>(pages: seq<seq<T>>): seq<T> {
    if pages == [] then [] else pages[0] + Concat(pages[1..])
  }

  lemma {:induction false} CutMeans<T>(all: seq<T>, limit: nat, pages: seq<seq<T>>)
    requires limit > 0 && Cut(all, limit, pages)
    ensures |pages| <= Need(|all|, limit)
    ensures Concat(pages) <= all
    ensures Concat(pages) == all <==> |pages| == Need(|all|, limit)
    ensures forall i | 0 <= i < |pages| - 1 :: |pages[i]| == limit
    decreases |pages|
  {
    NeedOneMore(|all|, limit);
    if |pages| == 1 {
      assert Concat(pages[1..]) == [];
      assert Concat(pages) == pages[0];
    } else {
      CutMeans(all[limit..], limit, pages[1..]);
      assert all[..limit] + all[limit..] == all;
    }
  }

  lemma {:induction false} ReturnedIsConcat(fetches: seq<Fetch>)
    ensures |ItemsOf(fetches)| == |fetches| && Returned(fetches) == Concat(ItemsOf(fetches))
    ensures forall i | 0 <= i < |fetches| :: ItemsOf(fetches)[i] == fetches[i].page.items
  {
    if fetches != [] { ReturnedIsConcat(fetches[1..]); }
  }

  lemma CutFurther<T>(all: seq<T>, limit: nat, pages: seq<seq<T>>)
    requires |all| > limit && Cut(all[limit..], limit, pages)
    ensures Cut(all, limit, [Take(all, limit)] + pages)
  {}

  lemma PageThenCut(rows: Rows, filter: Filter, limit: nat, cursor: Option<Key>, pages: seq<seq<Item>>)
    requires limit > 0
    ensures var all, page := Selection(rows, filter, cursor), PageOf(rows, filter, limit, cursor);
      && Cut(all, limit, [page.items])
      && (page.next.Some? && Cut(Selection(rows, filter, page.next), limit, pages) ==>
            Cut(all, limit, [page.items] + pages))
  {
    var all, page := Selection(rows, filter, cursor), PageOf(rows, filter, limit, cursor);
    StillTablePage(rows, filter, limit, cursor);
    if page.next.Some? && Cut(all[limit..], limit, pages) { CutFurther(all, limit, pages); }
  }

  /** The pages of a table that stands still cut up the selection from the front. */
  lemma {:induction false} StillTableIsCut(rows: Rows, filter: Filter, limit: nat, cursor: Option<Key>,
                                           fetches: seq<Fetch>)
    requires IsWalk(filter, limit, cursor, fetches) && limit > 0 && AllSee(rows, fetches)
    ensures Cut(Selection(rows, filter, cursor), limit, ItemsOf(fetches))
    decreases |fetches|
  {
    assert fetches[0].rows == rows;
    var page, rest := fetches[0].page, fetches[1..];
    PageThenCut(rows, filter, limit, cursor, ItemsOf(rest));
    if rest == [] {
      assert ItemsOf(fetches) == [page.items];
    } else {
      StillTableIsCut(rows, filter, limit, page.next, rest);
    }
  }

  lemma PageNeeds(rows: Rows, filter: Filter, limit: nat, cursor: Option<Key>)
    requires limit > 0
    ensures var n, next := |Selection(rows, filter, cursor)|, PageOf(rows, filter, limit, cursor).next;
      if next.None? then Need(n, limit) == 1
      else Need(n, limit) == 1 + Need(|Selection(rows, filter, next)|, limit)
  {
    StillTablePage(rows, filter, limit, cursor);
    NeedOneMore(|Selection(rows, filter, cursor)|, limit);
  }

  /** A walk of a table that stands still is finished exactly when it took all fetches that it needs. */
  lemma {:induction false} StillTableFinishes(rows: Rows, filter: Filter, limit: nat, cursor: Option<Key>,
                                              fetches: seq<Fetch>)
    requires IsWalk(filter, limit, cursor, fetches) && limit > 0 && AllSee(rows, fetches)
    ensures Finished(fetches) <==> |fetches| == Need(|Selection(rows, filter, cursor)|, limit)
    decreases |fetches|
  {
    assert fetches[0].rows == rows;
    PageNeeds(rows, filter, limit, cursor);
    if |fetches| > 1 {
      StillTableFinishes(rows, filter, limit, fetches[0].page.next, fetches[1..]);
    }
  }

  /** On a table that stands still every walk ends: it never takes more than max(1, ceil(n / limit))
      fetches for n matching rows and is finished exactly when it took that many. What it returned
      so far is a front part of the matching rows in descending order, in full pages but for the
      last one, and all of them exactly when it is finished. */
  lemma StillTableWalk(rows: Rows, filter: Filter, limit: nat, fetches: seq<Fetch>)
    requires IsWalk(filter, limit, None, fetches) && limit > 0 && AllSee(rows, fetches)
    ensures var all := Selection(rows, filter, None);
      && |fetches| <= Need(|all|, limit)
      && (Finished(fetches) <==> |fetches| == Need(|all|, limit))
      && Returned(fetches) <= all
      && (Finished(fetches) <==> Returned(fetches) == all)
    ensures forall i | 0 <= i < |fetches| - 1 :: |fetches[i].page.items| == limit
    ensures Finished(fetches) ==>
              && NewestFirst(Returned(fetches))
              && forall x :: x in Returned(fetches) <==> WantedRow(rows, filter, None, x)
  {
    SelectionMeans(rows, filter, None, Returned(fetches));
    StillTableIsCut(rows, filter, limit, None, fetches);
    StillTableFinishes(rows, filter, limit, None, fetches);
    CutMeans(Selection(rows, filter, None), limit, ItemsOf(fetches));
    ReturnedIsConcat(fetches);
  }

  lemma OneFetch(rows: Rows, filter: Filter, limit: nat, cursor: Option<Key>)
    ensures IsWalk(filter, limit, cursor, [Fetch(rows, PageOf(rows, filter, limit, cursor))])
  {}

  lemma FetchBefore(filter: Filter, limit: nat, cursor: Option<Key>, first: Fetch, rest: seq<Fetch>)
    requires rest != [] && rest[0].rows == first.rows
    requires first.page == PageOf(first.rows, filter, limit, cursor) && first.page.next.Some?
    requires IsWalk(filter, limit, first.page.next, rest)
    ensures IsWalk(filter, limit, cursor, [first] + rest)
  {
    assert Run(first.rows, []) == first.rows;
    assert ([first] + rest)[1..] == rest;
  }

  /** A walk that is not finished goes on: there is a next fetch of the table as it stands. */
  lemma {:induction false} UnfinishedWalkGoesOn(rows: Rows, filter: Filter, limit: nat, cursor: Option<Key>,
                                                fetches: seq<Fetch>)
    returns (f: Fetch)
    requires IsWalk(filter, limit, cursor, fetches) && AllSee(rows, fetches) && !Finished(fetches)
    ensures f.rows == rows && IsWalk(filter, limit, cursor, fetches + [f])
    decreases |fetches|
  {
    var first, rest := fetches[0], fetches[1..];
    if rest == [] {
      OneFetch(rows, filter, limit, first.page.next);
      f := Fetch(rows, PageOf(rows, filter, limit, first.page.next));
    } else {
      f := UnfinishedWalkGoesOn(rows, filter, limit, first.page.next, rest);
    }
    FetchBefore(filter, limit, cursor, first, rest + [f]);
    assert fetches + [f] == [first] + (rest + [f]);
  }
}
