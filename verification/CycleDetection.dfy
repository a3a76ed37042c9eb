/**
 Depth-first search for a cycle in the package graph. The closure's shared variables are the fields of
 `CycleFinder`; successors are visited in an arbitrary order, so the sorted order is one case of it.
 */
module CycleDetection {
  import opened Options

  type Node = string
  type Graph = map<Node, set<Node>>

  datatype Mark = Open | Done

  predicate Edge(graph: Graph, a: Node, b: Node) {
    a in graph && b in graph[a]
  }

  ghost predicate IsPath(graph: Graph, path: seq<Node>) {
    forall i :: 0 <= i < |path| - 1 ==> Edge(graph, path[i], path[i + 1])
  }

  ghost predicate IsCycle(graph: Graph, path: seq<Node>) {
    |path| >= 2 && path[0] == path[|path| - 1] && IsPath(graph, path)
  }

  /** A cycle that comes back to no node but the one it starts at. */
  ghost predicate IsSimpleCycle(graph: Graph, path: seq<Node>) {
    IsCycle(graph, path) && Distinct(path[1..])
  }

  predicate Distinct(nodes: seq<Node>) {
    forall i, j :: 0 <= i < j < |nodes| ==> nodes[i] != nodes[j]
  }

  ghost predicate Acyclic(graph: Graph) {
    forall path: seq<Node> :: !IsCycle(graph, path)
  }

  /** Every edge between finished nodes leads to a node that finished earlier. */
  ghost predicate FinishOrder(graph: Graph, finished: seq<Node>) {
    && (forall i, j :: 0 <= i < j < |finished| ==> finished[i] != finished[j])
    && (forall i :: 0 <= i < |finished| ==> finished[i] in graph)
    && (forall i, n :: 0 <= i < |finished| && n in graph && Edge(graph, finished[i], n) ==> n in finished[..i])
  }

  /** Along a path whose nodes all finished, the finishing positions fall. */
  lemma {:induction false} PathsFall(graph: Graph, finished: seq<Node>, path: seq<Node>, at: nat)
    requires FinishOrder(graph, finished) && IsPath(graph, path) && |path| >= 2
    requires forall n :: n in graph ==> n in finished
    requires at < |finished| && finished[at] == path[0]
    requires forall i :: 0 <= i < |path| ==> path[i] in graph
    ensures path[|path| - 1] in finished[..at]
    decreases |path|
  {
    assert Edge(graph, path[0], path[1]) && path[1] in finished[..at];
    var next :| 0 <= next < at && finished[next] == path[1];
    if |path| > 2 {
      forall i | 0 <= i < |path[1..]| - 1 ensures Edge(graph, path[1..][i], path[1..][i + 1]) {
        assert Edge(graph, path[i + 1], path[i + 2]);
      }
      PathsFall(graph, finished, path[1..], next);
      assert finished[..next] <= finished[..at];
    }
  }

  lemma FinishedIsAcyclic(graph: Graph, finished: seq<Node>)
    requires FinishOrder(graph, finished) && forall n :: n in graph ==> n in finished
    ensures Acyclic(graph)
  {
    forall path: seq<Node> | IsCycle(graph, path) ensures false {
      forall i | 0 <= i < |path| ensures path[i] in graph {
        if i < |path| - 1 { assert Edge(graph, path[i], path[i + 1]); } else { assert Edge(graph, path[0], path[1]); }
      }
      assert path[0] in finished;
      var at :| 0 <= at < |finished| && finished[at] == path[0];
      PathsFall(graph, finished, path, at);
    }
  }

  /** The stack is the path of open nodes, and the finished nodes are the done ones in finishing order. */
  ghost predicate Marks(graph: Graph, state: map<Node, Mark>, stack: seq<Node>, finished: seq<Node>) {
    && (forall n :: n in state ==> n in graph)
    && (forall n :: n in stack <==> n in state && state[n] == Open)
    && (forall n :: n in finished <==> n in state && state[n] == Done)
    && IsPath(graph, stack) && Distinct(stack)
    && FinishOrder(graph, finished)
  }

  ghost predicate Grown(before: map<Node, Mark>, after: map<Node, Mark>) {
    forall n :: n in before ==> n in after && after[n] == before[n]
  }

  ghost predicate Settled(graph: Graph, state: map<Node, Mark>, nodes: set<Node>) {
    forall n :: n in nodes && n in graph ==> n in state && state[n] == Done
  }

  lemma EnterKeeps(graph: Graph, state: map<Node, Mark>, stack: seq<Node>, finished: seq<Node>, node: Node)
    requires Marks(graph, state, stack, finished) && node in graph && node !in state
    requires stack != [] ==> Edge(graph, stack[|stack| - 1], node)
    ensures Marks(graph, state[node := Open], stack + [node], finished)
  {
    var path := stack + [node];
    forall i | 0 <= i < |path| - 1 ensures Edge(graph, path[i], path[i + 1]) {
      if i < |stack| - 1 { assert Edge(graph, stack[i], stack[i + 1]); }
    }
  }

  lemma FinishGrows(graph: Graph, finished: seq<Node>, node: Node)
    requires FinishOrder(graph, finished) && node in graph && node !in finished
    requires forall n :: Edge(graph, node, n) && n in graph ==> n in finished
    ensures FinishOrder(graph, finished + [node])
  {
    var order := finished + [node];
    forall i, n | 0 <= i < |order| && n in graph && Edge(graph, order[i], n) ensures n in order[..i] {
      if i < |finished| { assert order[..i] == finished[..i]; } else { assert order[..i] == finished; }
    }
    forall i, j | 0 <= i < j < |order| ensures order[i] != order[j] { assert finished[i] in finished; }
  }

  lemma StackShrinks(graph: Graph, stack: seq<Node>, node: Node)
    requires IsPath(graph, stack + [node]) && Distinct(stack + [node])
    ensures IsPath(graph, stack) && Distinct(stack) && forall n :: n in stack <==> n in stack + [node] && n != node
  {
    var path := stack + [node];
    forall i | 0 <= i < |stack| - 1 ensures Edge(graph, stack[i], stack[i + 1]) { assert Edge(graph, path[i], path[i + 1]); }
    forall i, j | 0 <= i < j < |stack| ensures stack[i] != stack[j] { assert path[i] != path[j]; }
    forall i | 0 <= i < |stack| ensures stack[i] != node { assert path[i] != path[|stack|]; }
  }

  lemma LeaveKeeps(graph: Graph, state: map<Node, Mark>, stack: seq<Node>, finished: seq<Node>, node: Node)
    requires Marks(graph, state, stack + [node], finished) && node !in stack
    requires forall n :: Edge(graph, node, n) && n in graph ==> n in state && state[n] == Done
    ensures Marks(graph, state[node := Done], stack, finished + [node])
  {
    assert node in stack + [node];
    StackShrinks(graph, stack, node);
    FinishGrows(graph, finished, node);
  }

  class CycleFinder {
    const graph: Graph
    var state: map<Node, Mark>
    var stack: seq<Node>
    ghost var finished: seq<Node>

    ghost predicate Valid()
      reads this
    {
      Marks(graph, state, stack, finished)
    }

    constructor (graph: Graph)
      ensures Valid() && this.graph == graph && state == map[] && stack == [] && finished == []
    {
      this.graph := graph;
      state, stack, finished := map[], [], [];
    }

    ghost function Unvisited(): set<Node>
      reads this
    {
      graph.Keys - state.Keys
    }

    /**
     Visit one node that was not seen before. Either a real cycle comes back, or the node and everything
     reachable from it is finished and the stack is as it was.
     */
    method Visit(node: Node) returns (cycle: Option<seq<Node>>)
      requires Valid() && node in graph && node !in state
      requires stack != [] ==> Edge(graph, stack[|stack| - 1], node)
      modifies this
      ensures cycle.Some? ==> IsSimpleCycle(graph, cycle.value)
      ensures cycle.None? ==> Valid() && stack == old(stack)
      ensures cycle.None? ==> Grown(old(state), state) && Settled(graph, state, {node})
      decreases Unvisited(), 0
    {
      Enter(node);
      cycle := FollowAll(node);
      if cycle.None? { Leave(node); }
    }

    method Enter(node: Node)
      requires Valid() && node in graph && node !in state
      requires stack != [] ==> Edge(graph, stack[|stack| - 1], node)
      modifies this
      ensures Valid() && stack == old(stack) + [node] && state == old(state)[node := Open] && finished == old(finished)
      ensures Unvisited() < old(Unvisited())
    {
      EnterKeeps(graph, state, stack, finished, node);
      assert node in Unvisited();
      state := state[node := Open];
      stack := stack + [node];
    }

    /** The node on top of the stack is done. */
    method Leave(node: Node)
      requires Valid() && stack != [] && stack[|stack| - 1] == node && node !in stack[..|stack| - 1]
      requires Settled(graph, state, graph[node])
      modifies this
      ensures Valid() && stack == old(stack)[..|old(stack)| - 1] && state == old(state)[node := Done]
    {
      var below := stack[..|stack| - 1];
      assert below + [node] == stack;
      LeaveKeeps(graph, state, below, finished, node);
      stack := below;
      state := state[node := Done];
      finished := finished + [node];
    }

    /** The loop over the successors of the node on top of the stack. */
    method FollowAll(node: Node) returns (cycle: Option<seq<Node>>)
      requires Valid() && node in graph && stack != [] && stack[|stack| - 1] == node
      modifies this
      ensures cycle.Some? ==> IsSimpleCycle(graph, cycle.value)
      ensures cycle.None? ==> Valid() && stack == old(stack)
      ensures cycle.None? ==> Grown(old(state), state) && Settled(graph, state, graph[node])
      decreases Unvisited(), 2
    {
      var todo := graph[node];
      while todo != {}
        invariant Valid() && stack == old(stack) && todo <= graph[node]
        invariant Grown(old(state), state) && Settled(graph, state, graph[node] - todo)
        decreases |todo|
      {
        var next := Pick(todo);
        cycle := Follow(next);
        if cycle.Some? { return; }
        todo := todo - {next};
      }
      assert graph[node] - todo == graph[node];
      cycle := None;
    }

    /** Follow one edge out of the node on top of the stack. */
    method Follow(next: Node) returns (cycle: Option<seq<Node>>)
      requires Valid() && stack != [] && Edge(graph, stack[|stack| - 1], next)
      modifies this
      ensures cycle.Some? ==> IsSimpleCycle(graph, cycle.value)
      ensures cycle.None? ==> Valid() && stack == old(stack)
      ensures cycle.None? ==> Grown(old(state), state) && Settled(graph, state, {next})
      decreases Unvisited(), 1
    {
      cycle := None;
      if next in state && state[next] == Open {
        var start := IndexOf(stack, next);
        ClosesCycle(graph, stack, start, next);
        cycle := Some(stack[start..] + [next]);
      } else if next !in state && next in graph {
        cycle := Visit(next);
      }
    }

    /** A cycle that repeats no node but its ends, exactly when there is a cycle. */
    method FindCycle() returns (cycle: Option<seq<Node>>)
      requires Valid() && state == map[] && stack == [] && finished == []
      modifies this
      ensures cycle.Some? ==> IsSimpleCycle(graph, cycle.value)
      ensures cycle.None? <==> Acyclic(graph)
    {
      var todo := graph.Keys;
      while todo != {}
        invariant Valid() && stack == [] && todo <= graph.Keys
        invariant Settled(graph, state, graph.Keys - todo)
        decreases |todo|
      {
        var node := Pick(todo);
        if node !in state {
          cycle := Visit(node);
          if cycle.Some? { return; }
        }
        todo := todo - {node};
      }
      FinishedIsAcyclic(graph, finished);
      cycle := None;
    }
  }

  lemma ClosesCycle(graph: Graph, stack: seq<Node>, start: nat, next: Node)
    requires IsPath(graph, stack) && Distinct(stack) && start < |stack| && stack[start] == next
    requires Edge(graph, stack[|stack| - 1], next)
    ensures IsSimpleCycle(graph, stack[start..] + [next])
  {
    var path := stack[start..] + [next];
    forall i | 0 <= i < |path| - 1 ensures Edge(graph, path[i], path[i + 1]) {
      if i < |path| - 2 { assert Edge(graph, stack[start + i], stack[start + i + 1]); }
    }
  }

  method IndexOf(xs: seq<Node>, x: Node) returns (k: nat)
    requires x in xs
    ensures k < |xs| && xs[k] == x && forall j :: 0 <= j < k ==> xs[j] != x
  {
    k := 0;
    while xs[k] != x
      invariant k < |xs| && x in xs[k..] && forall j :: 0 <= j < k ==> xs[j] != x
      decreases |xs| - k
    {
      k := k + 1;
    }
  }

  /** A package that depends on itself is a cycle, two that depend on each other are, and one on an unknown one is none. */
  lemma SmallGraphs()
    ensures IsSimpleCycle(map["a" := {"a"}], ["a", "a"])
    ensures IsSimpleCycle(map["a" := {"b"}, "b" := {"a"}], ["a", "b", "a"])
    ensures Acyclic(map["a" := {"b"}])
  {
    var graph := map["a" := {"b"}];
    forall path: seq<Node> ensures !IsCycle(graph, path) {
      if |path| >= 2 && IsPath(graph, path) { FromAToB(path); }
    }
  }

  lemma FromAToB(path: seq<Node>)
    requires |path| >= 2 && IsPath(map["a" := {"b"}], path)
    ensures path[0] == "a" && path[|path| - 1] == "b"
  {
    assert Edge(map["a" := {"b"}], path[0], path[1]);
    assert Edge(map["a" := {"b"}], path[|path| - 2], path[|path| - 1]);
  }
}
