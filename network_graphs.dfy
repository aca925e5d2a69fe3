/**
 * Cycle detection on the delegation graph: a depth-first search with a
 * visited set and a recursion stack, recording a cycle whenever an edge
 * reaches a node that is still on the stack.
 */
module NetworkGraphs {
  import opened Assoc
  import opened NetworkCompiler

  /** `graph.get(node) ?? []`. */
  function Neighbors(g: Graph, n: string): (ns: seq<string>)
    ensures |ns| > 0 ==> n in Keys(g)
  {
    match Get(g, n)
    case Some(ns) => ns
    case None => []
  }

  /** Each node of `p` after the first is a neighbour of the one before it. */
  predicate IsWalk(g: Graph, p: seq<string>)
  {
    forall i :: 0 <= i < |p| - 1 ==> p[i + 1] in Neighbors(g, p[i])
  }

  /** A walk with at least one edge that ends where it starts. */
  predicate IsCycle(g: Graph, c: seq<string>)
  {
    |c| >= 2 && c[0] == c[|c| - 1] && IsWalk(g, c)
  }

  ghost predicate HasCycle(g: Graph)
  {
    exists c :: IsCycle(g, c)
  }

  /** Every node the graph mentions, as a key or as a neighbour. */
  function NodesOf(g: Graph): (ns: set<string>)
    ensures forall j :: 0 <= j < |g| ==> g[j].0 in ns && forall v :: v in g[j].1 ==> v in ns
  {
    if |g| == 0 then {}
    else
      var rest := NodesOf(g[1..]);
      assert forall j :: 1 <= j < |g| ==> g[j] == g[1..][j - 1];
      {g[0].0} + (set v | v in g[0].1) + rest
  }

  lemma {:induction false} NeighborsInNodes(g: Graph, n: string)
    ensures forall v :: v in Neighbors(g, n) ==> v in NodesOf(g)
  {
    if |g| > 0 && g[0].0 != n {
      NeighborsInNodes(g[1..], n);
      assert Neighbors(g, n) == Neighbors(g[1..], n);
      assert forall j :: 0 <= j < |g[1..]| ==> g[1..][j] == g[j + 1];
    }
  }

  /** The position of the first occurrence of `x` in `s` (`indexOf`). */
  function IndexOf(s: seq<string>, x: string): (i: nat)
    requires x in s
    ensures i < |s| && s[i] == x && x !in s[..i]
  {
    if s[0] == x then 0
    else
      var i := IndexOf(s[1..], x);
      assert s[..i + 1] == [s[0]] + s[1..][..i];
      i + 1
  }

  /** The path from the first occurrence of `nb` to the end, closed by the back edge to `nb`, is a cycle. */
  lemma BackEdgeCycle(g: Graph, p: seq<string>, nb: string)
    requires |p| > 0 && IsWalk(g, p) && nb in Neighbors(g, p[|p| - 1]) && nb in p
    ensures IsCycle(g, p[IndexOf(p, nb)..] + [nb])
  {
    var start := IndexOf(p, nb);
    var c := p[start..] + [nb];
    forall i | 0 <= i < |c| - 1
      ensures c[i + 1] in Neighbors(g, c[i])
    {
      assert c[i] == p[start + i];
      if start + i + 1 < |p| {
        assert c[i + 1] == p[start + i + 1];
      }
    }
  }

  lemma FewerUnvisited(all: set<string>, before: set<string>, after: set<string>, x: string)
    requires before <= after && x in all && x !in before && x in after
    ensures |all - after| < |all - before|
  {
    var gone := (all - before) - (all - after);
    assert x in gone;
    assert all - before == (all - after) + gone;
    assert (all - after) !! gone;
  }

  lemma PrefixStaysInside(s: seq<string>, i: nat, before: set<string>, after: set<string>)
    requires i < |s| && before <= after && s[i] in after
    requires forall k :: 0 <= k < i ==> s[k] in before
    ensures forall k :: 0 <= k < i + 1 ==> s[k] in after
  {
  }

  /** Every edge out of a finished node leads to a node that finished earlier. */
  ghost predicate EdgesGoBack(g: Graph, finish: map<string, nat>)
  {
    forall u, v :: u in finish && v in Neighbors(g, u) ==> v in finish && finish[v] < finish[u]
  }

  /** Every finish time is below `clock`. */
  ghost predicate FinishedBefore(finish: map<string, nat>, clock: nat)
  {
    forall u :: u in finish ==> finish[u] < clock
  }

  /** Finishing a node whose neighbours have all finished keeps every edge pointing back. */
  lemma FinishNode(g: Graph, finish: map<string, nat>, clock: nat, node: string)
    requires EdgesGoBack(g, finish) && FinishedBefore(finish, clock) && node !in finish
    requires forall v :: v in Neighbors(g, node) ==> v in finish
    ensures EdgesGoBack(g, finish[node := clock]) && FinishedBefore(finish[node := clock], clock + 1)
  {
  }

  /** Along a walk from a finished node, finish times strictly decrease when edges go back. */
  lemma {:induction false} FinishDecreases(g: Graph, finish: map<string, nat>, c: seq<string>, k: nat)
    requires EdgesGoBack(g, finish)
    requires IsWalk(g, c) && |c| > 0 && c[0] in finish && k < |c|
    ensures c[k] in finish && finish[c[k]] + k <= finish[c[0]]
  {
    if k > 0 {
      FinishDecreases(g, finish, c, k - 1);
      var u, v := c[k - 1], c[k];
      assert v in Neighbors(g, u);
      assert v in finish && finish[v] < finish[u];
    }
  }

  /** When every key has finished and all edges go back, the graph has no cycle. */
  lemma Acyclic(g: Graph, finish: map<string, nat>)
    requires EdgesGoBack(g, finish)
    requires forall k :: 0 <= k < |Keys(g)| ==> Keys(g)[k] in finish
    ensures !HasCycle(g)
  {
    forall c | IsCycle(g, c)
      ensures false
    {
      assert c[1] in Neighbors(g, c[0]);
      var k :| 0 <= k < |Keys(g)| && Keys(g)[k] == c[0];
      FinishDecreases(g, finish, c, |c| - 1);
    }
  }

  /**
   * What holds of the search between calls: the stack lies inside the
   * visited nodes, exactly the visited nodes off the stack have finished,
   * every recorded cycle is one, and with none recorded every edge out of a
   * finished node points back in time.
   */
  ghost predicate SearchInvariant(g: Graph, visited: set<string>, onStack: set<string>, finish: map<string, nat>,
                                  clock: nat, cycles: seq<seq<string>>)
  {
    && onStack <= visited <= NodesOf(g)
    && finish.Keys == visited - onStack
    && FinishedBefore(finish, clock)
    && (forall c :: c in cycles ==> IsCycle(g, c))
    && (cycles == [] ==> EdgesGoBack(g, finish))
  }

  /** Taking a node whose neighbours have finished off the stack, and finishing it, keeps the invariant. */
  lemma FinishStep(g: Graph, visited: set<string>, onStack: set<string>, finish: map<string, nat>,
                   clock: nat, cycles: seq<seq<string>>, node: string)
    requires SearchInvariant(g, visited, onStack, finish, clock, cycles)
    requires node in onStack
    requires cycles == [] ==> forall v :: v in Neighbors(g, node) ==> v in finish
    ensures SearchInvariant(g, visited, onStack - {node}, finish[node := clock], clock + 1, cycles)
  {
    if cycles == [] {
      FinishNode(g, finish, clock, node);
    }
  }

  /** Once every key is visited and the stack is empty, cycles were recorded exactly when the graph has one. */
  lemma SearchDone(g: Graph, visited: set<string>, finish: map<string, nat>, clock: nat, cycles: seq<seq<string>>)
    requires SearchInvariant(g, visited, {}, finish, clock, cycles)
    requires forall k :: 0 <= k < |Keys(g)| ==> Keys(g)[k] in visited
    ensures cycles == [] <==> !HasCycle(g)
  {
    if cycles == [] {
      Acyclic(g, finish);
    } else {
      assert IsCycle(g, cycles[0]);
    }
  }

  /** The search state shared by the recursive `dfs` calls. */
  class CycleSearch {
    const graph: Graph
    var visited: set<string>
    var onStack: set<string>
    var cycles: seq<seq<string>>
    /** When each node left the recursion stack. */
    ghost var finish: map<string, nat>
    ghost var clock: nat

    ghost predicate Valid()
      reads this
    {
      SearchInvariant(graph, visited, onStack, finish, clock, cycles)
    }

    constructor (g: Graph)
      ensures graph == g && visited == {} && onStack == {} && cycles == [] && Valid()
    {
      graph := g;
      visited := {};
      onStack := {};
      cycles := [];
      finish := map[];
      clock := 0;
    }

    /** `dfs(node, path)`: `path` holds the nodes on the recursion stack, in order. */
    method Dfs(node: string, path: seq<string>)
      requires Valid()
      requires node in NodesOf(graph) && node !in visited
      requires IsWalk(graph, path + [node])
      requires onStack == set x | x in path
      modifies this
      ensures Valid()
      ensures old(visited) + {node} <= visited && onStack == old(onStack)
      ensures old(cycles) <= cycles
      ensures old(finish).Keys <= finish.Keys && node in finish
      decreases |NodesOf(graph) - visited|, 0
    {
      ghost var visited0 := visited;
      visited := visited + {node};
      onStack := onStack + {node};
      var p := path + [node];
      var neighbors := Neighbors(graph, node);
      NeighborsInNodes(graph, node);
      var i := 0;
      while i < |neighbors|
        invariant 0 <= i <= |neighbors|
        invariant Valid() && visited0 + {node} <= visited
        invariant onStack == old(onStack) + {node} && onStack == set x | x in p
        invariant cycles == [] ==> forall k :: 0 <= k < i ==> neighbors[k] in finish.Keys
        invariant old(cycles) <= cycles
        invariant old(finish).Keys <= finish.Keys
      {
        ghost var done := finish.Keys;
        FewerUnvisited(NodesOf(graph), visited0, visited, node);
        Explore(p, neighbors[i]);
        if cycles == [] {
          PrefixStaysInside(neighbors, i, done, finish.Keys);
        }
        i := i + 1;
      }
      FinishStep(graph, visited, onStack, finish, clock, cycles, node);
      onStack, finish, clock := onStack - {node}, finish[node := clock], clock + 1;
    }

    /** One edge of `dfs`: recurse into an unvisited neighbour, or record the cycle closed by an edge back onto the stack. */
    method Explore(p: seq<string>, nb: string)
      requires Valid()
      requires |p| > 0 && IsWalk(graph, p) && onStack == set x | x in p
      requires nb in Neighbors(graph, p[|p| - 1]) && nb in NodesOf(graph)
      modifies this
      ensures Valid()
      ensures old(visited) <= visited && onStack == old(onStack)
      ensures old(cycles) <= cycles && (old(cycles) != [] ==> cycles != [])
      ensures old(finish).Keys <= finish.Keys && (cycles == [] ==> nb in finish)
      decreases |NodesOf(graph) - visited|, 1
    {
      if nb !in visited {
        Dfs(nb, p);
      } else if nb in onStack {
        BackEdgeCycle(graph, p, nb);
        cycles := cycles + [p[IndexOf(p, nb)..] + [nb]];
      }
    }
  }

  /** `detectCycles`: a search from every key not yet visited. */
  method DetectCycles(graph: Graph) returns (cycles: seq<seq<string>>)
    ensures forall c :: c in cycles ==> IsCycle(graph, c)
    ensures cycles == [] <==> !HasCycle(graph)
  {
    var search := new CycleSearch(graph);
    var keys := Keys(graph);
    var i := 0;
    while i < |keys|
      invariant 0 <= i <= |keys|
      invariant search.Valid() && search.graph == graph && search.onStack == {}
      invariant forall k :: 0 <= k < i ==> keys[k] in search.visited
    {
      if keys[i] !in search.visited {
        search.Dfs(keys[i], []);
      }
      i := i + 1;
    }
    SearchDone(graph, search.visited, search.finish, search.clock, search.cycles);
    cycles := search.cycles;
  }
}
