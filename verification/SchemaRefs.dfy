/** The closure of OpenAPI component references (app/core/registry_checks.py).
    Component maps may be cyclic and may lack a referenced component. */
module SchemaRefs {
  import opened Wrappers
  import opened Closure

  /** A JSON value. A dict is the sequence of its items in insertion order. */
  datatype Schema =
    | Obj(entries: seq<(string, Schema)>)
    | Arr(items: seq<Schema>)
    | Str(text: string)
    | Scalar

  type Components = map<string, Schema>

  const PREFIX := "#/components/schemas/"

  /** The part after the last slash. */
  function LastSegment(s: string): (r: string)
    ensures '/' !in r
    ensures |r| <= |s| && r == s[|s| - |r|..]
    ensures |r| < |s| ==> s[|s| - |r| - 1] == '/'
  {
    if s == "" || s[|s| - 1] == '/' then ""
    else LastSegment(s[..|s| - 1]) + [s[|s| - 1]]
  }

  function Lookup(entries: seq<(string, Schema)>, key: string): Option<Schema> {
    if entries == [] then None
    else if entries[0].0 == key then Some(entries[0].1)
    else Lookup(entries[1..], key)
  }

  /** The component that this very node refers to. */
  function OwnRef(schema: Schema): Option<string> {
    if !schema.Obj? then None
    else match Lookup(schema.entries, "$ref")
      case Some(Str(ref)) => if PREFIX <= ref then Some(LastSegment(ref)) else None
      case _ => None
  }

  function Children(schema: Schema): (r: seq<Schema>)
    ensures forall i | 0 <= i < |r| :: r[i] < schema
  {
    match schema
    case Obj(entries) => seq(|entries|, i requires 0 <= i < |entries| => entries[i].1)
    case Arr(items) => items
    case _ => []
  }

  function Component(components: Components, name: string): Schema {
    if name in components then components[name] else Obj([])
  }

  ghost function OwnNames(schema: Schema): set<string> {
    if OwnRef(schema).Some? then {OwnRef(schema).value} else {}
  }

  /** The names that occur in `schema` itself, no reference being followed. */
  ghost function Direct(schema: Schema): set<string> {
    OwnNames(schema)
    + set i, n | 0 <= i < |Children(schema)| && n in Direct(Children(schema)[i]) :: n
  }

  ghost function DirectAll(schemas: seq<Schema>): set<string> {
    set i, n | 0 <= i < |schemas| && n in Direct(schemas[i]) :: n
  }

  lemma DirectSplits(schema: Schema)
    ensures Direct(schema) == OwnNames(schema) + DirectAll(Children(schema))
  {}

  /** The graph of the components: an edge for each reference. */
  ghost function References(components: Components): Graph {
    (name: string) => Direct(Component(components, name))
  }

  lemma DirectAllJoins(schemas: seq<Schema>, last: Schema)
    ensures DirectAll(schemas + [last]) == DirectAll(schemas) + Direct(last)
  {
    var longer := schemas + [last];
    forall n | n in DirectAll(schemas) ensures n in DirectAll(longer) {
      var j :| 0 <= j < |schemas| && n in Direct(schemas[j]);
      assert longer[j] == schemas[j];
    }
    forall n | n in Direct(last) ensures n in DirectAll(longer) {
      assert longer[|schemas|] == last;
    }
    forall n | n in DirectAll(longer) ensures n in DirectAll(schemas) + Direct(last) {
      var j :| 0 <= j < |longer| && n in Direct(longer[j]);
      assert j < |schemas| ==> longer[j] == schemas[j];
    }
  }

  lemma DirectAllExtend(schemas: seq<Schema>, i: nat)
    requires i < |schemas|
    ensures DirectAll(schemas[..i + 1]) == DirectAll(schemas[..i]) + Direct(schemas[i])
  {
    assert schemas[..i + 1] == schemas[..i] + [schemas[i]];
    DirectAllJoins(schemas[..i], schemas[i]);
  }

  // ------------------------------------------------ what a reference is, read off the value

  /** A path ends in a name: the part after its last slash. */
  ghost predicate EndsIn(path: string, name: string) {
    '/' !in name && (path == name || exists front: string :: path == front + "/" + name)
  }

  /** The text refers to the component of that name. */
  ghost predicate Refers(text: string, name: string) {
    exists path: string :: text == "#/components/schemas/" + path && EndsIn(path, name)
  }

  /** The value under the key `$ref`, which is there once in a dict, refers to the component. */
  ghost predicate RefersHere(entries: seq<(string, Schema)>, name: string) {
    exists k | 0 <= k < |entries| ::
      && entries[k].0 == "$ref" && (forall j | 0 <= j < k :: entries[j].0 != "$ref")
      && entries[k].1.Str? && Refers(entries[k].1.text, name)
  }

  /** Somewhere inside the value, in dicts and lists at any depth, a reference stands. */
  ghost predicate Mentions(schema: Schema, name: string) {
    match schema
    case Obj(entries) => RefersHere(entries, name) || exists i | 0 <= i < |entries| :: Mentions(entries[i].1, name)
    case Arr(items) => exists i | 0 <= i < |items| :: Mentions(items[i], name)
    case Str(_) => false
    case Scalar => false
  }

  ghost predicate ComponentMentions(components: Components, from: string, to: string) {
    from in components && Mentions(components[from], to)
  }

  /** References lead from the value over the components to the name. */
  ghost predicate IsChain(schema: Schema, components: Components, name: string, chain: seq<string>) {
    && chain != [] && chain[|chain| - 1] == name && Mentions(schema, chain[0])
    && forall i | 0 < i < |chain| :: ComponentMentions(components, chain[i - 1], chain[i])
  }

  ghost predicate LeadsTo(schema: Schema, components: Components, name: string) {
    exists chain: seq<string> :: IsChain(schema, components, name, chain)
  }

  lemma LastSegmentEnds(path: string)
    ensures EndsIn(path, LastSegment(path))
  {
    var last := LastSegment(path);
    var n := |path| - |last|;
    if n == 0 {
      assert path == last;
    } else {
      assert path[..n] == path[..n - 1] + "/";
      assert path == path[..n] + last;
    }
  }

  lemma LastSegmentIsEnd(path: string, name: string)
    ensures EndsIn(path, name) <==> LastSegment(path) == name
  {
    LastSegmentEnds(path);
    if EndsIn(path, name) {
      if path == name {
        assert forall k | 0 <= k < |path| :: path[k] != '/';
      } else {
        var front: string :| path == front + "/" + name;
        EndsAtLastSlash(front, name, LastSegment(path));
      }
    }
  }

  /** Two ends without a slash, each behind a slash or the whole, are the same. */
  lemma EndsAtLastSlash(front: string, name: string, last: string)
    requires '/' !in name && '/' !in last
    requires last == LastSegment(front + "/" + name)
    ensures last == name
  {
    var path := front + "/" + name;
    var n := |path|;
    assert last == path[n - |last|..] && name == path[n - |name|..] && path[n - |name| - 1] == '/';
    assert forall k | 0 <= k < |last| :: last[k] == path[n - |last| + k];
    assert forall k | 0 <= k < |name| :: name[k] == path[n - |name| + k];
  }

  lemma {:induction false} SegmentBehindPrefix(path: string)
    ensures LastSegment(PREFIX + path) == LastSegment(path)
    decreases |path|
  {
    var n, whole := |path|, PREFIX + path;
    if n == 0 {
      assert whole[|whole| - 1] == '/';
    } else {
      assert whole[|whole| - 1] == path[n - 1] && whole[..|whole| - 1] == PREFIX + path[..n - 1];
      SegmentBehindPrefix(path[..n - 1]);
    }
  }

  lemma LookupFinds(entries: seq<(string, Schema)>, key: string)
    ensures Lookup(entries, key).None? <==> forall k | 0 <= k < |entries| :: entries[k].0 != key
    ensures forall k | 0 <= k < |entries| && entries[k].0 == key && (forall j | 0 <= j < k :: entries[j].0 != key) ::
      Lookup(entries, key) == Some(entries[k].1)
    ensures Lookup(entries, key).Some? ==>
      exists k | 0 <= k < |entries| ::
        && entries[k].0 == key && Lookup(entries, key) == Some(entries[k].1)
        && forall j | 0 <= j < k :: entries[j].0 != key
  {
    if entries != [] && entries[0].0 != key {
      LookupFinds(entries[1..], key);
      var rest := entries[1..];
      forall k | 0 <= k < |entries| && entries[k].0 == key && (forall j | 0 <= j < k :: entries[j].0 != key)
        ensures Lookup(entries, key) == Some(entries[k].1)
      {
        assert rest[k - 1] == entries[k] && forall j | 0 <= j < k - 1 :: rest[j] == entries[j + 1];
      }
      if k :| 0 <= k < |rest| && rest[k].0 == key && Lookup(rest, key) == Some(rest[k].1)
              && forall j | 0 <= j < k :: rest[j].0 != key {
        assert entries[k + 1] == rest[k];
        forall j | 0 <= j < k + 1 ensures entries[j].0 != key { assert j > 0 ==> entries[j] == rest[j - 1]; }
      }
      assert forall k | 0 < k < |entries| :: entries[k] == rest[k - 1];
    }
  }

  lemma ReferenceIsRead(text: string, name: string)
    ensures Refers(text, name) <==> PREFIX <= text && LastSegment(text) == name
  {
    if PREFIX <= text {
      var path := text[|PREFIX|..];
      assert text == PREFIX + path;
      SegmentBehindPrefix(path);
      LastSegmentIsEnd(path, name);
    }
    if path: string :| text == "#/components/schemas/" + path && EndsIn(path, name) {
      assert PREFIX <= text && path == text[|PREFIX|..];
    }
  }

  lemma OwnRefIsRead(entries: seq<(string, Schema)>, name: string)
    ensures RefersHere(entries, name) <==> OwnRef(Obj(entries)) == Some(name)
  {
    LookupFinds(entries, "$ref");
    forall text: string ensures Refers(text, name) <==> PREFIX <= text && LastSegment(text) == name {
      ReferenceIsRead(text, name);
    }
  }

  /** What the walk collects from a value is what the value mentions. */
  lemma {:induction false} DirectMeans(schema: Schema, name: string)
    ensures name in Direct(schema) <==> Mentions(schema, name)
  {
    match schema {
      case Obj(entries) =>
        OwnRefIsRead(entries, name);
        forall i | 0 <= i < |entries| ensures name in Direct(Children(schema)[i]) <==> Mentions(entries[i].1, name) {
          DirectMeans(entries[i].1, name);
        }
      case Arr(items) =>
        forall i | 0 <= i < |items| ensures name in Direct(Children(schema)[i]) <==> Mentions(items[i], name) {
          DirectMeans(items[i], name);
        }
      case Str(_) =>
      case Scalar =>
    }
  }

  lemma ReachesMeans(schema: Schema, components: Components, name: string)
    ensures Reaches(References(components), Direct(schema), name) <==> LeadsTo(schema, components, name)
  {
    var graph := References(components);
    forall s: Schema, n: string ensures n in Direct(s) <==> Mentions(s, n) { DirectMeans(s, n); }
    forall m: string, n: string ensures n in graph(m) <==> ComponentMentions(components, m, n) {
      assert Children(Obj([])) == [] && Direct(Obj([])) == {};
    }
    forall path: seq<string>
      ensures PathFrom(graph, Direct(schema), name, path) <==> IsChain(schema, components, name, path)
    {
      ChainIsPath(schema, components, name, path);
    }
  }

  lemma ChainIsPath(schema: Schema, components: Components, name: string, path: seq<string>)
    requires forall n: string :: n in Direct(schema) <==> Mentions(schema, n)
    requires forall m: string, n: string ::
      n in References(components)(m) <==> ComponentMentions(components, m, n)
    ensures PathFrom(References(components), Direct(schema), name, path) <==> IsChain(schema, components, name, path)
  {}

  // ------------------------------------------------------------- the walk

  /** What a call from `from` does to the set it was handed: a set that was empty on entry is replaced
      and stays empty, and the result is the whole closure; any other absorbs what it newly sees. */
  ghost predicate Walked(graph: Graph, from: set<string>, entry: set<string>, after: set<string>, names: set<string>) {
    if entry == {} then after == {} && IsClosure(graph, from, names) else Absorbed(graph, from, entry, after, names)
  }

  lemma WalkedNext(graph: Graph, children: seq<Schema>, i: nat, entry: set<string>, mid: set<string>,
                   after: set<string>, names: set<string>, more: set<string>)
    requires i < |children|
    requires Walked(graph, DirectAll(children[..i]), entry, mid, names)
    requires Walked(graph, Direct(children[i]), mid, after, more)
    ensures Walked(graph, DirectAll(children[..i + 1]), entry, after, names + more)
  {
    DirectAllExtend(children, i);
    if entry == {} {
      ClosureOfUnion(graph, DirectAll(children[..i]), names, Direct(children[i]), more);
    } else {
      AbsorbedUnion(graph, DirectAll(children[..i]), names, Direct(children[i]), more, entry, mid, after);
    }
  }

  /** A mutable set that is passed by reference. */
  class NameSet {
    var names: set<string>

    constructor ()
      ensures names == {}
    {
      names := {};
    }
  }

  /** The components that `seen` does not hold yet; they bound the depth of the recursion. */
  function Unseen(components: Components, seen: set<string>): set<string> {
    components.Keys - seen
  }

  /** The node's own reference and its children together. */
  lemma WalkedNode(graph: Graph, schema: Schema, entry: set<string>, mid: set<string>, after: set<string>,
                   own: set<string>, more: set<string>)
    requires OwnRef(schema).None? ==> own == {} && mid == entry
    requires OwnRef(schema).Some? ==> mid != {} && Absorbed(graph, OwnNames(schema), entry, mid, own)
    requires Walked(graph, DirectAll(Children(schema)), mid, after, more)
    ensures entry == {} ==> IsClosure(graph, Direct(schema), own + more)
    ensures entry != {} ==> Absorbed(graph, Direct(schema), entry, after, own + more)
  {
    DirectSplits(schema);
    if OwnRef(schema).None? {
      assert OwnNames(schema) + DirectAll(Children(schema)) == DirectAll(Children(schema));
      assert own + more == more;
    } else {
      AbsorbedUnion(graph, OwnNames(schema), own, DirectAll(Children(schema)), more, entry, mid, after);
      if entry == {} { AbsorbedFromNothing(graph, Direct(schema), after, own + more); }
    }
  }

  /** `_schema_ref_names`: an absent or empty `seen` is replaced by a fresh set that the caller
      never sees, a non-empty one is shared with the caller and grows. */
  method SchemaRefNames(schema: Schema, components: Components, seen: NameSet?) returns (names: set<string>)
    modifies if seen != null then {seen} else {}
    ensures seen == null ==> IsClosure(References(components), Direct(schema), names)
    ensures seen != null ==> Walked(References(components), Direct(schema), old(seen.names), seen.names, names)
    decreases Unseen(components, if seen == null then {} else seen.names), schema != Obj([]), schema, 1
  {
    var shared: NameSet;
    if seen != null && seen.names != {} {
      shared := seen;
    } else {
      shared := new NameSet();
    }
    ghost var graph, entry := References(components), shared.names;
    names := FollowOwnRef(schema, components, shared);
    ghost var mid, own := shared.names, names;
    assert Unseen(components, mid) <= Unseen(components, entry);
    var more := SchemaRefNamesOfChildren(schema, components, shared);
    names := names + more;
    WalkedNode(graph, schema, entry, mid, shared.names, own, more);
  }

  /** The branch on the `$ref` of the node itself. */
  method FollowOwnRef(schema: Schema, components: Components, shared: NameSet) returns (names: set<string>)
    modifies shared
    ensures OwnRef(schema).None? ==> names == {} && shared.names == old(shared.names)
    ensures OwnRef(schema).Some? ==>
              && shared.names != {}
              && Absorbed(References(components), OwnNames(schema), old(shared.names), shared.names, names)
    decreases Unseen(components, shared.names), schema != Obj([]), schema, 0
  {
    ghost var graph, entry := References(components), shared.names;
    names := {};
    var ref := OwnRef(schema);
    if ref.Some? {
      var name := ref.value;
      names := names + {name};
      if name !in shared.names {
        shared.names := shared.names + {name};
        assert Unseen(components, shared.names) <= Unseen(components, entry);
        var more := SchemaRefNames(Component(components, name), components, shared);
        AbsorbedFollow(graph, name, entry, shared.names, more);
        names := names + more;
      } else {
        ReachesStart(graph, {name}, name);
      }
    }
  }

  /** The loop over the values of a dict or the items of a list. */
  method SchemaRefNamesOfChildren(schema: Schema, components: Components, shared: NameSet) returns (names: set<string>)
    modifies shared
    ensures Walked(References(components), DirectAll(Children(schema)), old(shared.names), shared.names, names)
    decreases Unseen(components, shared.names), schema != Obj([]), schema, 0
  {
    names := {};
    var children := Children(schema);
    ghost var graph := References(components);
    for i := 0 to |children|
      invariant old(shared.names) <= shared.names
      invariant Walked(graph, DirectAll(children[..i]), old(shared.names), shared.names, names)
    {
      ghost var mid, soFar := shared.names, names;
      assert Unseen(components, mid) <= Unseen(components, old(shared.names));
      var more := SchemaRefNames(children[i], components, shared);
      names := names + more;
      WalkedNext(graph, children, i, old(shared.names), mid, shared.names, soFar, more);
    }
    assert children[..|children|] == children;
  }

  /** A call without `seen` returns exactly the names of the components that references lead to. */
  method AllRefNames(schema: Schema, components: Components) returns (names: set<string>)
    ensures forall n: string :: n in names <==> LeadsTo(schema, components, n)
    ensures IsClosure(References(components), Direct(schema), names)
  {
    names := SchemaRefNames(schema, components, null);
    forall n: string ensures n in names <==> LeadsTo(schema, components, n) {
      ReachesMeans(schema, components, n);
    }
  }
}
