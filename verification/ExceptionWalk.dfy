/** iter_exception_chain and extract_http_status_error (pc-api-python/main.py): a depth-first walk over a finite,
    possibly cyclic, graph of exceptions with one shared set of seen objects. */
module ExceptionWalk {
  import opened Basics

  type Id = nat

  /** The links of an exception object: __cause__, __context__, the last attempt's exception when the object is a
      RetryError that has one, and the members when it is a group. */
  datatype Links = Links(cause: Option<Id>, context: Option<Id>, attempt: Option<Id>, members: seq<Id>)

  type Graph = map<Id, Links>

  function Link(x: Option<Id>): seq<Id> {
    if x.Some? then [x.value] else []
  }

  /** All links of an exception, in the order they are followed. */
  function Next(g: Graph, x: Id): seq<Id> {
    if x in g then Link(g[x].cause) + Link(g[x].context) + Link(g[x].attempt) + g[x].members else []
  }

  /** Links lead to objects of the graph. */
  predicate Closed(g: Graph) {
    forall x, y :: x in g && y in Next(g, x) ==> y in g
  }

  /** A path of links from x to y. */
  ghost predicate IsPath(g: Graph, path: seq<Id>, x: Id, y: Id) {
    && path != [] && path[0] == x && path[|path| - 1] == y
    && forall i :: 0 <= i < |path| - 1 ==> path[i + 1] in Next(g, path[i])
  }

  ghost predicate Reachable(g: Graph, x: Id, y: Id) {
    exists path :: IsPath(g, path, x, y)
  }

  lemma ReachableSelf(g: Graph, x: Id)
    ensures Reachable(g, x, x)
  {
    assert IsPath(g, [x], x, x);
  }

  /** A set that contains x and every link of its elements contains all that is reachable from x. */
  lemma {:induction false} ClosedSetHoldsPath(g: Graph, s: set<Id>, path: seq<Id>, x: Id, y: Id)
    requires x in s && IsPath(g, path, x, y)
    requires forall a, b :: a in s && b in Next(g, a) ==> b in s
    ensures y in s
    decreases |path|
  {
    if |path| > 1 {
      assert path[1] in s;
      forall i | 0 <= i < |path[1..]| - 1
        ensures path[1..][i + 1] in Next(g, path[1..][i])
      {
        assert path[1..][i] == path[i + 1] && path[1..][i + 1] == path[i + 2];
      }
      ClosedSetHoldsPath(g, s, path[1..], path[1], y);
    }
  }

  predicate NoDuplicates(s: seq<Id>) {
    forall i, j :: 0 <= i < j < |s| ==> s[i] != s[j]
  }

  /** Everything seen, but not in `before`, has all its links in seen. */
  ghost predicate Complete(g: Graph, seen: set<Id>, before: set<Id>) {
    forall x, y :: x in seen - before && y in Next(g, x) ==> y in seen
  }

  ghost predicate ReachedFrom(g: Graph, seen: set<Id>, before: set<Id>, x: Id) {
    forall y :: y in seen - before ==> Reachable(g, x, y)
  }

  /** While the links of x are being followed. */
  ghost predicate Following(g: Graph, seen: set<Id>, before: set<Id>, x: Id) {
    && x in g && x !in before && before + {x} <= seen
    && Complete(g, seen, before + {x})
    && ReachedFrom(g, seen, before, x)
  }

  lemma FollowingStarts(g: Graph, before: set<Id>, x: Id)
    requires x in g && x !in before
    ensures Following(g, before + {x}, before, x)
  {
    ReachableSelf(g, x);
  }

  /** A link of x was walked with the shared set going from `earlier` to `seen`. */
  lemma FollowingGoesOn(g: Graph, earlier: set<Id>, seen: set<Id>, before: set<Id>, x: Id, y: Id)
    requires Following(g, earlier, before, x) && earlier <= seen && y in Next(g, x)
    requires Complete(g, seen, earlier) && ReachedFrom(g, seen, earlier, y)
    ensures Following(g, seen, before, x)
  {
    ReachableBeyond(g, x, y, seen - earlier);
    hide Next, Reachable;
  }

  lemma FollowingEnds(g: Graph, seen: set<Id>, before: set<Id>, x: Id)
    requires Following(g, seen, before, x)
    requires forall y :: y in Link(g[x].cause) ==> y in seen
    requires forall y :: y in Link(g[x].context) ==> y in seen
    requires forall y :: y in Link(g[x].attempt) ==> y in seen
    requires forall y :: y in g[x].members ==> y in seen
    ensures Complete(g, seen, before) && ReachedFrom(g, seen, before, x)
  {
    forall z, y | z in seen - before && y in Next(g, z)
      ensures y in seen
    {
      if z != x {
        assert z in seen - (before + {x});
      }
    }
  }

  // ---------- the order of the walk

  /** The order in which a walk that has still to follow `todo`, in this order, meets what it has not seen: depth first,
      an exception before its links, each one where it is first met. */
  ghost function Order(g: Graph, todo: seq<Id>, seen: set<Id>): seq<Id>
    decreases |g.Keys - seen|, |todo|
  {
    if todo == [] then []
    else if todo[0] in seen || todo[0] !in g then Order(g, todo[1..], seen)
    else
      assert g.Keys - seen == (g.Keys - (seen + {todo[0]})) + {todo[0]};
      [todo[0]] + Order(g, Next(g, todo[0]) + todo[1..], seen + {todo[0]})
  }

  lemma OrderSkips(g: Graph, x: Id, todo: seq<Id>, seen: set<Id>)
    requires x in seen
    ensures Order(g, [x] + todo, seen) == Order(g, todo, seen)
  {
    assert ([x] + todo)[1..] == todo;
  }

  lemma OrderVisits(g: Graph, x: Id, todo: seq<Id>, seen: set<Id>)
    requires x in g && x !in seen
    ensures Order(g, [x] + todo, seen) ==
            [x] + Order(g, Link(g[x].cause) + (Link(g[x].context) + (Link(g[x].attempt) + (g[x].members + todo))), seen + {x})
  {
    assert ([x] + todo)[1..] == todo;
    assert Next(g, x) + todo == Link(g[x].cause) + (Link(g[x].context) + (Link(g[x].attempt) + (g[x].members + todo)));
  }

  class Walker {
    const graph: Graph
    var seen: set<Id>
    var yielded: seq<Id>

    constructor (graph: Graph)
      ensures this.graph == graph && seen == {} && yielded == []
    {
      this.graph := graph;
      seen, yielded := {}, [];
    }

    /** What has been yielded is what has been seen, each once. */
    ghost predicate Valid()
      reads this
    {
      && Closed(graph)
      && seen <= graph.Keys
      && (forall x :: x in yielded <==> x in seen)
      && NoDuplicates(yielded)
    }

    /** What the walk will have yielded once it has followed `todo`. */
    ghost function Whole(todo: seq<Id>): seq<Id>
      reads this
    {
      yielded + Order(graph, todo, seen)
    }

    ghost function Unseen(): nat
      reads this
    {
      |graph.Keys - seen|
    }

    /** Mark and yield one exception. */
    method Yield(x: Id)
      requires Valid() && x in graph && x !in seen
      modifies this
      ensures Valid() && seen == old(seen) + {x} && yielded == old(yielded) + [x]
      ensures Unseen() < old(Unseen())
    {
      assert graph.Keys - seen == (graph.Keys - (seen + {x})) + {x};
      seen := seen + {x};
      yielded := yielded + [x];
    }

    /** Enter one exception: its links are to be followed before the rest. */
    method Enter(x: Id, ghost todo: seq<Id>)
      requires Valid() && x in graph && x !in seen
      modifies this
      ensures Valid() && seen == old(seen) + {x} && yielded == old(yielded) + [x] && Unseen() < old(Unseen())
      ensures var links := graph[x];
              Whole(Link(links.cause) + (Link(links.context) + (Link(links.attempt) + (links.members + todo)))) ==
              old(Whole([x] + todo))
    {
      hide Closed, NoDuplicates, Next, Order;
      OrderVisits(graph, x, todo, seen);
      Yield(x);
    }

    lemma NothingToEnter(exc: Option<Id>, todo: seq<Id>)
      requires exc.None? || exc.value in seen
      ensures Whole(todo) == Whole(Link(exc) + todo)
    {
      if exc.None? {
        assert Link(exc) + todo == todo;
      } else {
        OrderSkips(graph, exc.value, todo, seen);
      }
    }

    /** One call of the generator, run to its end, with `todo` still to be followed after it. */
    method Visit(exc: Option<Id>, ghost todo: seq<Id>)
      requires Valid() && (exc.Some? ==> exc.value in graph)
      modifies this
      ensures Valid() && old(seen) <= seen && old(yielded) <= yielded
      ensures Complete(graph, seen, old(seen))
      ensures exc.Some? ==> exc.value in seen && ReachedFrom(graph, seen, old(seen), exc.value)
      ensures exc.None? ==> seen == old(seen)
      ensures Whole(todo) == old(Whole(Link(exc) + todo))
      decreases Unseen(), 0
    {
      hide Next, Reachable, NoDuplicates, Closed, Whole;
      if exc.None? || exc.value in seen {
        NothingToEnter(exc, todo);
        return;
      }
      var x := exc.value;
      ghost var before := seen;
      FollowingStarts(graph, before, x);
      Enter(x, todo);
      ghost var links := graph[x];
      Follow(before, x, graph[x].cause, Link(links.context) + (Link(links.attempt) + (links.members + todo)));
      Follow(before, x, graph[x].context, Link(links.attempt) + (links.members + todo));
      Follow(before, x, graph[x].attempt, links.members + todo);
      FollowMembers(before, x, todo);
      FollowingEnds(graph, seen, before, x);
    }

    /** yield from a link of x, with x already seen. */
    method Follow(ghost before: set<Id>, ghost x: Id, link: Option<Id>, ghost todo: seq<Id>)
      requires Valid() && Following(graph, seen, before, x)
      requires link in {graph[x].cause, graph[x].context, graph[x].attempt} || (link.Some? && link.value in graph[x].members)
      modifies this
      ensures Valid() && old(seen) <= seen && old(yielded) <= yielded
      ensures forall y :: y in Link(link) ==> y in seen
      ensures Following(graph, seen, before, x)
      ensures Unseen() <= old(Unseen())
      ensures Whole(todo) == old(Whole(Link(link) + todo))
      decreases Unseen(), 1
    {
      ghost var earlier := seen;
      if link.Some? {
        assert link.value in Next(graph, x);
      }
      hide Next, Reachable, NoDuplicates, Complete, ReachedFrom, Following, Whole;
      Visit(link, todo);
      if link.Some? {
        FollowingGoesOn(graph, earlier, seen, before, x, link.value);
      }
      SmallerSet(graph.Keys - seen, graph.Keys - earlier);
    }

    /** The loop over the members of a group. */
    method FollowMembers(ghost before: set<Id>, x: Id, ghost todo: seq<Id>)
      requires Valid() && Following(graph, seen, before, x)
      modifies this
      ensures Valid() && old(seen) <= seen && old(yielded) <= yielded
      ensures forall y :: y in graph[x].members ==> y in seen
      ensures Following(graph, seen, before, x)
      ensures Whole(todo) == old(Whole(graph[x].members + todo))
      decreases Unseen(), 2
    {
      hide Next, Complete, ReachedFrom, NoDuplicates, Closed, Reachable, Whole;
      var members := graph[x].members;
      var i := 0;
      while i < |members|
        invariant 0 <= i <= |members|
        invariant Valid() && old(seen) <= seen && old(yielded) <= yielded
        invariant forall k :: 0 <= k < i ==> members[k] in seen
        invariant Following(graph, seen, before, x)
        invariant Unseen() <= old(Unseen())
        invariant Whole(members[i..] + todo) == old(Whole(graph[x].members + todo))
      {
        assert members[i..] + todo == Link(Some(members[i])) + (members[i + 1..] + todo);
        Follow(before, x, Some(members[i]), members[i + 1..] + todo);
        i := i + 1;
      }
      assert members[i..] + todo == todo;
    }
  }

  lemma {:induction false} SmallerSet(a: set<Id>, b: set<Id>)
    requires a <= b
    ensures |a| <= |b|
  {
    if a != {} {
      var x :| x in a;
      SmallerSet(a - {x}, b - {x});
    }
  }

  lemma ReachableBeyond(g: Graph, x: Id, y: Id, s: set<Id>)
    requires y in Next(g, x)
    requires forall z :: z in s ==> Reachable(g, y, z)
    ensures forall z :: z in s ==> Reachable(g, x, z)
  {
    forall z | z in s
      ensures Reachable(g, x, z)
    {
      var path :| IsPath(g, path, y, z);
      var longer := [x] + path;
      forall i | 0 <= i < |longer| - 1
        ensures longer[i + 1] in Next(g, longer[i])
      {
        if i > 0 {
          assert longer[i] == path[i - 1] && longer[i + 1] == path[i];
        }
      }
      assert IsPath(g, longer, x, z);
    }
  }

  /** The whole walk terminates and yields every reachable exception exactly once, depth first. */
  method WalkAll(g: Graph, exc: Option<Id>) returns (yielded: seq<Id>)
    requires Closed(g) && (exc.Some? ==> exc.value in g)
    ensures yielded == Order(g, Link(exc), {})
    ensures NoDuplicates(yielded)
    ensures forall y :: y in yielded <==> exc.Some? && Reachable(g, exc.value, y)
  {
    var walker := new Walker(g);
    assert Link(exc) + [] == Link(exc);
    walker.Visit(exc, []);
    yielded := walker.yielded;
    assert walker.yielded + Order(g, [], walker.seen) == walker.yielded;
    if exc.Some? {
      forall y | Reachable(g, exc.value, y)
        ensures y in walker.seen
      {
        var path :| IsPath(g, path, exc.value, y);
        ClosedSetHoldsPath(g, walker.seen, path, exc.value, y);
      }
      assert walker.seen - {} == walker.seen;
    }
  }

  /** x is in the list and matches, and nothing before it does. */
  ghost predicate FirstMatch(chain: seq<Id>, isStatusError: Id -> bool, x: Id) {
    exists i :: 0 <= i < |chain| && chain[i] == x && isStatusError(x) && forall k :: 0 <= k < i ==> !isStatusError(chain[k])
  }

  /** extract_http_status_error: the first match of the walk, None exactly when no reachable exception matches. */
  method ExtractHttpStatusError(g: Graph, exc: Option<Id>, isStatusError: Id -> bool) returns (found: Option<Id>)
    requires Closed(g) && (exc.Some? ==> exc.value in g)
    ensures found.None? <==> !(exists y :: exc.Some? && Reachable(g, exc.value, y) && isStatusError(y))
    ensures found.Some? ==> Reachable(g, exc.value, found.value) && isStatusError(found.value)
    ensures found.Some? ==> FirstMatch(Order(g, Link(exc), {}), isStatusError, found.value)
  {
    var chain := WalkAll(g, exc);
    found := None;
    for i := 0 to |chain|
      invariant found.None?
      invariant forall k :: 0 <= k < i ==> !isStatusError(chain[k])
    {
      if isStatusError(chain[i]) {
        found := Some(chain[i]);
        assert chain[i] in chain && FirstMatch(chain, isStatusError, chain[i]);
        return;
      }
    }
  }
}
