/**
 Reachability in a control-flow graph, with an optional blocked edge: the worklist of the
 ARM CFG script.
 */
module Reachability {
  import opened Basics

  type Addr = int
  type Edges = map<Addr, set<Addr>>

  function Targets(edges: Edges, a: Addr): set<Addr> {
    if a in edges then edges[a] else {}
  }

  // A step the search may take.
  predicate Step(edges: Edges, blocked: Option<(Addr, Addr)>, a: Addr, b: Addr) {
    b in Targets(edges, a) && blocked != Some((a, b))
  }

  predicate IsPath(edges: Edges, blocked: Option<(Addr, Addr)>, path: seq<Addr>) {
    path != [] && forall i :: 0 < i < |path| ==> Step(edges, blocked, path[i - 1], path[i])
  }

  ghost predicate Reaches(edges: Edges, blocked: Option<(Addr, Addr)>, entry: Addr, a: Addr) {
    exists path :: IsPath(edges, blocked, path) && path[0] == entry && path[|path| - 1] == a
  }

  lemma ReachesEntry(edges: Edges, blocked: Option<(Addr, Addr)>, entry: Addr)
    ensures Reaches(edges, blocked, entry, entry)
  {
    assert IsPath(edges, blocked, [entry]);
  }

  lemma ReachesStep(edges: Edges, blocked: Option<(Addr, Addr)>, entry: Addr, a: Addr, b: Addr)
    requires Reaches(edges, blocked, entry, a) && Step(edges, blocked, a, b)
    ensures Reaches(edges, blocked, entry, b)
  {
    var path :| IsPath(edges, blocked, path) && path[0] == entry && path[|path| - 1] == a;
    assert IsPath(edges, blocked, path + [b]);
  }

  // Nothing outside the set is one permitted step away.
  ghost predicate ClosedUnder(edges: Edges, blocked: Option<(Addr, Addr)>, s: set<Addr>) {
    forall a, b :: a in s && Step(edges, blocked, a, b) ==> b in s
  }

  lemma {:induction false} PathStaysInside(edges: Edges, blocked: Option<(Addr, Addr)>, s: set<Addr>, path: seq<Addr>)
    requires ClosedUnder(edges, blocked, s) && IsPath(edges, blocked, path) && path[0] in s
    ensures path[|path| - 1] in s
  {
    if |path| > 1 {
      var front := path[..|path| - 1];
      PathStaysInside(edges, blocked, s, front);
      assert Step(edges, blocked, path[|path| - 2], path[|path| - 1]);
    }
  }

  // Every node an edge can lead to, and the entry.
  ghost function Nodes(edges: Edges, entry: Addr): set<Addr> {
    {entry} + (set a, b | a in edges && b in edges[a] :: b)
  }

  method AnyOf<T>(s: set<T>) returns (a: T)
    requires s != {}
    ensures a in s
  {
    a :| a in s;
  }

  method PushTargets(edges: Edges, blocked: Option<(Addr, Addr)>, a: Addr, stack: seq<Addr>) returns (r: seq<Addr>)
    ensures forall x :: x in r <==> x in stack || Step(edges, blocked, a, x)
  {
    r := stack;
    var todo := Targets(edges, a);
    while todo != {}
      invariant todo <= Targets(edges, a)
      invariant forall x :: x in r <==> x in stack || (Step(edges, blocked, a, x) && x !in todo)
      decreases todo
    {
      var t := AnyOf(todo);
      todo := todo - {t};
      if blocked != Some((a, t)) {
        r := r + [t];
      }
    }
  }

  /** The search ends on every finite graph and finds exactly the reachable nodes. */
  method Reachable(edges: Edges, entry: Addr, blocked: Option<(Addr, Addr)>) returns (seen: set<Addr>)
    ensures forall a :: a in seen <==> Reaches(edges, blocked, entry, a)
  {
    seen := {};
    var stack := [entry];
    ReachesEntry(edges, blocked, entry);
    while stack != []
      invariant seen <= Nodes(edges, entry)
      invariant forall a :: a in stack ==> a in Nodes(edges, entry)
      invariant forall a :: a in seen || a in stack ==> Reaches(edges, blocked, entry, a)
      invariant entry in seen || entry in stack
      invariant forall a, b :: a in seen && Step(edges, blocked, a, b) ==> b in seen || b in stack
      decreases Nodes(edges, entry) - seen, |stack|
    {
      var a := stack[|stack| - 1];
      ghost var before := stack;
      stack := stack[..|stack| - 1];
      assert forall x :: x in before <==> x in stack || x == a;
      if a !in seen {
        seen := seen + {a};
        ghost var base := stack;
        stack := PushTargets(edges, blocked, a, stack);
        forall x | x in stack ensures x in Nodes(edges, entry) && Reaches(edges, blocked, entry, x) {
          if x !in base {
            ReachesStep(edges, blocked, entry, a, x);
          }
        }
      }
    }
    forall a | Reaches(edges, blocked, entry, a) ensures a in seen {
      var path :| IsPath(edges, blocked, path) && path[0] == entry && path[|path| - 1] == a;
      PathStaysInside(edges, blocked, seen, path);
    }
  }
}
