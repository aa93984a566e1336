/** The dependency loop search of src/container.cpp (`dep_cycle`): a depth-first
  * walk along depends_on with one shared seen-set and one shared path stack.
  */
module DependencyGraph {

  /** depends_on per container; a name without an entry has no dependencies. */
  type Graph = map<string, seq<string>>

  function Deps(g: Graph, n: string): seq<string> {
    if n in g then g[n] else []
  }

  /** p steps along depends_on edges only. */
  ghost predicate IsWalk(g: Graph, p: seq<string>) {
    && |p| > 0
    && forall i | 0 <= i < |p| - 1 :: p[i + 1] in Deps(g, p[i])
  }

  /** There is a way from a to b over at least one edge. */
  ghost predicate Reaches(g: Graph, a: string, b: string) {
    exists p :: IsWalk(g, p) && |p| >= 2 && p[0] == a && p[|p| - 1] == b
  }

  ghost predicate Distinct(p: seq<string>) {
    forall i, j | 0 <= i < j < |p| :: p[i] != p[j]
  }

  /** Every edge out of the set stays in the set and none of them ends at t. */
  ghost predicate ClosedAvoiding(g: Graph, inside: set<string>, all: set<string>, t: string) {
    forall v | v in inside :: forall d | d in Deps(g, v) :: d != t && d in all
  }

  /** All names a search from start can meet. */
  ghost function Nodes(g: Graph, start: string): set<string> {
    {start} + g.Keys + (set v, d | v in g.Keys && d in g[v] :: d)
  }

  /** The loop as it is logged: "a -> b -> a". */
  function Chain(target: string, path: seq<string>): string {
    if path == [] then target else Chain(target, path[..|path| - 1]) + " -> " + path[|path| - 1]
  }

  /** What a found loop is: a real walk from start back to target whose nodes
    * before the end are pairwise different, and past the first one not the target.
    */
  ghost predicate IsLoop(g: Graph, start: string, target: string, path: seq<string>) {
    && IsWalk(g, path) && |path| >= 2
    && path[0] == start && path[|path| - 1] == target
    && Distinct(path[..|path| - 1])
    && target !in path[1..|path| - 1]
  }

  /** A set closed under edges that never points at t holds no way to t. */
  lemma {:induction false} ClosedSetBlocks(g: Graph, all: set<string>, t: string, p: seq<string>)
    requires ClosedAvoiding(g, all, all, t)
    requires IsWalk(g, p) && p[0] in all && |p| >= 2
    ensures p[|p| - 1] != t && p[|p| - 1] in all
    decreases |p|
  {
    if |p| > 2 {
      var q := p[..|p| - 1];
      ClosedSetBlocks(g, all, t, q);
      assert p[|p| - 1] in Deps(g, q[|q| - 1]);
    } else {
      assert p[1] in Deps(g, p[0]);
    }
  }

  lemma WalkTrans(g: Graph, a: string, b: string, c: string)
    requires Reaches(g, a, b) && Reaches(g, b, c)
    ensures Reaches(g, a, c)
  {
    var p :| IsWalk(g, p) && |p| >= 2 && p[0] == a && p[|p| - 1] == b;
    var q :| IsWalk(g, q) && |q| >= 2 && q[0] == b && q[|q| - 1] == c;
    var r := p + q[1..];
    forall i | 0 <= i < |r| - 1 ensures r[i + 1] in Deps(g, r[i]) {
      if i >= |p| - 1 {
        assert r[i] == q[i - |p| + 1] && r[i + 1] == q[i - |p| + 2];
      }
    }
    assert IsWalk(g, r) && r[0] == a && r[|r| - 1] == c;
  }

  lemma EdgeReaches(g: Graph, a: string, b: string)
    requires b in Deps(g, a)
    ensures Reaches(g, a, b)
  {
    var p := [a, b];
    assert IsWalk(g, p) && p[0] == a && p[|p| - 1] == b;
  }

  /** The path stack while n is about to be walked: a walk of different, already
    * seen nodes that leads to n and has not come past the target.
    */
  ghost predicate StackLeadsTo(g: Graph, target: string, seen: set<string>, path: seq<string>, n: string) {
    && Distinct(path)
    && (forall v | v in path :: v in seen)
    && (forall k | 1 <= k < |path| :: path[k] != target)
    && (path != [] ==> IsWalk(g, path) && n in Deps(g, path[|path| - 1]) && n != target)
  }

  /** The finished stack: it grew from `from` by n and ends at the target. */
  ghost predicate StackHits(g: Graph, target: string, from: seq<string>, path: seq<string>, n: string) {
    && |path| >= |from| + 2 && path[..|from|] == from && path[|from|] == n
    && IsWalk(g, path) && path[|path| - 1] == target
    && Distinct(path[..|path| - 1])
    && (forall k | 1 <= k < |path| - 1 :: path[k] != target)
  }

  lemma PushKeepsStack(g: Graph, target: string, seen: set<string>, path: seq<string>, n: string, d: string)
    requires StackLeadsTo(g, target, seen, path, n) && n !in seen
    requires d in Deps(g, n) && d != target
    ensures StackLeadsTo(g, target, seen + {n}, path + [n], d)
  {
  }

  lemma PushTargetHits(g: Graph, target: string, seen: set<string>, path: seq<string>, n: string)
    requires StackLeadsTo(g, target, seen, path, n) && n !in seen
    requires target in Deps(g, n)
    ensures StackHits(g, target, path, path + [n] + [target], n)
  {
    var p := path + [n] + [target];
    assert p[..|p| - 1] == path + [n];
  }

  lemma StackGrowsSeen(g: Graph, target: string, seen: set<string>, more: set<string>, path: seq<string>, n: string)
    requires StackLeadsTo(g, target, seen, path, n) && seen <= more
    ensures StackLeadsTo(g, target, more, path, n)
  {
  }

  lemma HitFromBelow(g: Graph, target: string, from: seq<string>, path: seq<string>, n: string, d: string)
    requires StackHits(g, target, from + [n], path, d)
    ensures StackHits(g, target, from, path, n)
  {
    assert path[..|from|] == (from + [n])[..|from|] == from;
  }

  /** The state the recursive lambda of dep_cycle captures. */
  class Search {
    const g: Graph
    const target: string
    var seen: set<string>
    var path: seq<string>

    constructor (g: Graph, target: string)
      ensures this.g == g && this.target == target && seen == {} && path == []
    {
      this.g, this.target := g, target;
      seen, path := {}, [];
    }

    /** One node of the walk. On success the path stack holds the way to the
      * target; on failure the stack is as before and everything newly seen is
      * fully explored.
      */
    method Walk(n: string, ghost all: set<string>) returns (found: bool)
      requires seen <= all && n in all
      requires forall v | v in all :: forall d | d in Deps(g, v) :: d in all
      requires StackLeadsTo(g, target, seen, path, n)
      modifies this
      ensures old(seen) <= seen <= all
      ensures found ==> StackHits(g, target, old(path), path, n)
      ensures !found ==> path == old(path) && n in seen && ClosedAvoiding(g, seen - old(seen), seen, target)
      decreases all - seen
    {
      if n in seen {
        return false;
      }
      ghost var seen0, path0 := seen, path;
      seen := seen + {n};
      path := path + [n];
      var deps := Deps(g, n);
      var i := 0;
      while i < |deps|
        invariant 0 <= i <= |deps|
        invariant seen0 + {n} <= seen <= all
        invariant path == path0 + [n]
        invariant ClosedAvoiding(g, seen - (seen0 + {n}), seen, target)
        invariant forall j | 0 <= j < i :: deps[j] != target && deps[j] in seen
      {
        var d := deps[i];
        if d == target {
          path := path + [target];
          PushTargetHits(g, target, seen0, path0, n);
          return true;
        }
        PushKeepsStack(g, target, seen0, path0, n, d);
        StackGrowsSeen(g, target, seen0 + {n}, seen, path, d);
        ghost var seen1 := seen;
        var hit := Walk(d, all);
        if hit {
          HitFromBelow(g, target, path0, path, n, d);
          return true;
        }
        ExploredJoins(g, seen0 + {n}, seen1, seen, target);
        i := i + 1;
      }
      path := path[..|path| - 1];
      assert path == path0;
      return false;
    }
  }

  lemma ExploredJoins(g: Graph, a: set<string>, b: set<string>, c: set<string>, t: string)
    requires a <= b <= c
    requires ClosedAvoiding(g, b - a, b, t) && ClosedAvoiding(g, c - b, c, t)
    ensures ClosedAvoiding(g, c - a, c, t)
  {
    forall v, d | v in c - a && d in Deps(g, v) ensures d != t && d in c {
      if v in b { assert v in b - a; } else { assert v in c - b; }
    }
  }

  /** dep_cycle: the readable chain of a loop through target that leaves over
    * start, or "" when there is none. Sound and complete, on every finite graph.
    */
  method DepCycle(g: Graph, target: string, start: string) returns (chain: string, ghost path: seq<string>)
    ensures chain != "" <==> Reaches(g, start, target)
    ensures chain != "" ==> IsLoop(g, start, target, path) && chain == Chain(target, path)
  {
    var search := new Search(g, target);
    ghost var all := Nodes(g, start);
    var found := search.Walk(start, all);
    path := search.path;
    if !found {
      forall p | IsWalk(g, p) && |p| >= 2 && p[0] == start
        ensures p[|p| - 1] != target
      {
        ClosedSetBlocks(g, search.seen, target, p);
      }
      return "", path;
    }
    chain := target;
    var i := 0;
    while i < |search.path|
      invariant 0 <= i <= |search.path|
      invariant chain == Chain(target, search.path[..i])
      invariant i > 0 ==> chain != ""
    {
      assert search.path[..i + 1][..i] == search.path[..i];
      chain := chain + " -> " + search.path[i];
      i := i + 1;
    }
    assert search.path[..i] == search.path;
  }
}
