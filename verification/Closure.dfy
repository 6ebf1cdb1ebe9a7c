/** Reachability in a graph over names that is given by its successor function. */
module Closure {

  type Graph = string -> set<string>

  /** Every step of the path is an edge. */
  ghost predicate Follows(graph: Graph, path: seq<string>) {
    forall i | 0 < i < |path| :: path[i] in graph(path[i - 1])
  }

  ghost predicate PathFrom(graph: Graph, start: set<string>, name: string, path: seq<string>) {
    |path| > 0 && path[0] in start && path[|path| - 1] == name && Follows(graph, path)
  }

  /** Some path leads from `start` to `name`. */
  ghost predicate Reaches(graph: Graph, start: set<string>, name: string) {
    exists path: seq<string> :: PathFrom(graph, start, name, path)
  }

  ghost predicate IsClosure(graph: Graph, start: set<string>, names: set<string>) {
    forall n: string :: n in names <==> Reaches(graph, start, n)
  }

  /** What a walk that shares a non-empty `seen` set guarantees: `before` and `after`
      are the contents of that set, `names` is the result. */
  ghost predicate Absorbed(graph: Graph, start: set<string>, before: set<string>, after: set<string>,
                           names: set<string>)
  {
    && before <= after
    && start <= names <= after
    && (forall n <- after :: n !in before ==> n in names && graph(n) <= names)
    && (forall n <- names :: Reaches(graph, start, n))
  }

  lemma ReachesMonotone(graph: Graph, start: set<string>, more: set<string>, name: string)
    requires Reaches(graph, start, name) && start <= more
    ensures Reaches(graph, more, name)
  {
    var path :| PathFrom(graph, start, name, path);
    assert PathFrom(graph, more, name, path);
  }

  lemma ReachesStart(graph: Graph, start: set<string>, name: string)
    requires name in start
    ensures Reaches(graph, start, name)
  {
    assert PathFrom(graph, start, name, [name]);
  }

  /** What a name reaches is reached by whoever reaches the name. */
  lemma ReachesStep(graph: Graph, start: set<string>, via: string, name: string)
    requires via in start && Reaches(graph, graph(via), name)
    ensures Reaches(graph, start, name)
  {
    var tail :| PathFrom(graph, graph(via), name, tail);
    assert PathFrom(graph, start, name, [via] + tail);
  }

  lemma {:induction false} PathStaysInside(graph: Graph, start: set<string>, names: set<string>, name: string,
                                           path: seq<string>)
    requires PathFrom(graph, start, name, path)
    requires start <= names && forall n <- names :: graph(n) <= names
    ensures name in names
    decreases |path|
  {
    if |path| > 1 {
      var init := path[..|path| - 1];
      PathStaysInside(graph, start, names, init[|init| - 1], init);
      assert name in graph(init[|init| - 1]);
    }
  }

  /** Reached names that hold the start and are closed under the edges are the closure. */
  lemma ClosedIsClosure(graph: Graph, start: set<string>, names: set<string>)
    requires start <= names
    requires forall n <- names :: graph(n) <= names
    requires forall n <- names :: Reaches(graph, start, n)
    ensures IsClosure(graph, start, names)
  {
    forall n: string | Reaches(graph, start, n) ensures n in names {
      var path :| PathFrom(graph, start, n, path);
      PathStaysInside(graph, start, names, n, path);
    }
  }

  lemma ClosureOfUnion(graph: Graph, s1: set<string>, n1: set<string>, s2: set<string>, n2: set<string>)
    requires IsClosure(graph, s1, n1) && IsClosure(graph, s2, n2)
    ensures IsClosure(graph, s1 + s2, n1 + n2)
  {
    forall n: string ensures n in n1 + n2 <==> Reaches(graph, s1 + s2, n) {
      if n in n1 { ReachesMonotone(graph, s1, s1 + s2, n); }
      if n in n2 { ReachesMonotone(graph, s2, s1 + s2, n); }
      if Reaches(graph, s1 + s2, n) {
        var path :| PathFrom(graph, s1 + s2, n, path);
        assert PathFrom(graph, s1, n, path) || PathFrom(graph, s2, n, path);
      }
    }
  }

  lemma AbsorbedUnion(graph: Graph, s1: set<string>, n1: set<string>, s2: set<string>, n2: set<string>,
                      before: set<string>, mid: set<string>, after: set<string>)
    requires Absorbed(graph, s1, before, mid, n1) && Absorbed(graph, s2, mid, after, n2)
    ensures Absorbed(graph, s1 + s2, before, after, n1 + n2)
  {
    forall n <- n1 + n2 ensures Reaches(graph, s1 + s2, n) {
      if n in n1 { ReachesMonotone(graph, s1, s1 + s2, n); }
      else { ReachesMonotone(graph, s2, s1 + s2, n); }
    }
  }

  /** Expanding a name that was just put into `seen`. */
  lemma AbsorbedFollow(graph: Graph, name: string, before: set<string>, after: set<string>, names: set<string>)
    requires Absorbed(graph, graph(name), before + {name}, after, names)
    ensures Absorbed(graph, {name}, before, after, {name} + names)
  {
    ReachesStart(graph, {name}, name);
    forall n <- names ensures Reaches(graph, {name}, n) {
      ReachesStep(graph, {name}, name, n);
    }
  }

  /** A walk whose `seen` set was private from the start has seen the whole closure. */
  lemma AbsorbedFromNothing(graph: Graph, start: set<string>, after: set<string>, names: set<string>)
    requires Absorbed(graph, start, {}, after, names)
    ensures IsClosure(graph, start, names)
  {
    ClosedIsClosure(graph, start, names);
  }
}
