/** The random workflow graphs of the stress-test seeder and their compiled form. */
module StressGraph {
  import opened Options

  type NodeId = nat

  datatype Template = SimpleHttp | AiAgent | ComplexBranching | Subflow | LargePipeline

  datatype Edge = Edge(source: NodeId, target: NodeId)

  datatype Graph = Graph(nodes: seq<NodeId>, edges: seq<Edge>)

  // ---------- what a generated graph is ----------

  predicate DistinctNodes(nodes: seq<NodeId>) {
    forall i, j :: 0 <= i < j < |nodes| ==> nodes[i] != nodes[j]
  }

  predicate IsAmong(nodes: seq<NodeId>, n: int, id: NodeId) {
    exists j :: 0 <= j < n && j < |nodes| && nodes[j] == id
  }

  /** Edge k leads into node k + 1, from some earlier node. */
  predicate GrowsForward(g: Graph) {
    && |g.nodes| == |g.edges| + 1
    && forall k :: 0 <= k < |g.edges| ==>
         g.edges[k].target == g.nodes[k + 1] && IsAmong(g.nodes, k + 1, g.edges[k].source)
  }

  predicate IsTree(g: Graph) {
    DistinctNodes(g.nodes) && GrowsForward(g)
  }

  /** A walk along edges, as the list of the nodes it visits. */
  predicate IsPath(g: Graph, path: seq<NodeId>) {
    path != [] && forall i :: 0 <= i < |path| - 1 ==> Edge(path[i], path[i + 1]) in g.edges
  }

  ghost predicate Leads(g: Graph, from: NodeId, to: NodeId, path: seq<NodeId>) {
    IsPath(g, path) && path[0] == from && path[|path| - 1] == to
  }

  /** Every node can be reached from the entry point. */
  lemma {:induction false} EveryNodeReachable(g: Graph, k: nat)
    requires IsTree(g) && k < |g.nodes|
    ensures exists path :: Leads(g, g.nodes[0], g.nodes[k], path)
  {
    if k == 0 {
      assert Leads(g, g.nodes[0], g.nodes[0], [g.nodes[0]]);
    } else {
      var e := g.edges[k - 1];
      var j :| 0 <= j < k && j < |g.nodes| && g.nodes[j] == e.source;
      EveryNodeReachable(g, j);
      var path :| Leads(g, g.nodes[0], g.nodes[j], path);
      assert e in g.edges;
      assert Leads(g, g.nodes[0], g.nodes[k], path + [g.nodes[k]]);
    }
  }

  /** Each node other than the entry point has exactly one incoming edge, the entry point none. */
  lemma OneIncomingEdge(g: Graph, k: nat)
    requires IsTree(g) && k < |g.nodes|
    ensures forall i :: 0 <= i < |g.edges| ==> (g.edges[i].target == g.nodes[k] <==> k == i + 1)
  {
    forall i | 0 <= i < |g.edges|
      ensures g.edges[i].target == g.nodes[k] <==> k == i + 1
    {
      assert g.edges[i].target == g.nodes[i + 1];
    }
  }

  function Position(nodes: seq<NodeId>, id: NodeId): nat
    requires id in nodes
  {
    if nodes[0] == id then 0 else 1 + Position(nodes[1..], id)
  }

  lemma {:induction false} PositionOf(nodes: seq<NodeId>, k: nat)
    requires DistinctNodes(nodes) && k < |nodes|
    ensures Position(nodes, nodes[k]) == k
  {
    if k > 0 {
      PositionOf(nodes[1..], k - 1);
    }
  }

  lemma EdgeGoesForward(g: Graph, e: Edge)
    requires IsTree(g) && e in g.edges
    ensures e.source in g.nodes && e.target in g.nodes
    ensures Position(g.nodes, e.source) < Position(g.nodes, e.target)
  {
    var k :| 0 <= k < |g.edges| && g.edges[k] == e;
    var j :| 0 <= j < k + 1 && j < |g.nodes| && g.nodes[j] == e.source;
    PositionOf(g.nodes, j);
    PositionOf(g.nodes, k + 1);
  }

  lemma {:induction false} PathGoesForward(g: Graph, path: seq<NodeId>)
    requires IsTree(g) && IsPath(g, path) && |path| >= 2
    ensures path[0] in g.nodes && path[|path| - 1] in g.nodes
    ensures Position(g.nodes, path[0]) < Position(g.nodes, path[|path| - 1])
  {
    var n := |path|;
    EdgeGoesForward(g, Edge(path[n - 2], path[n - 1]));
    if n > 2 {
      PathGoesForward(g, path[..n - 1]);
    }
  }

  /** No path of at least one edge returns to its start. */
  lemma Acyclic(g: Graph, path: seq<NodeId>)
    requires IsTree(g) && IsPath(g, path) && |path| >= 2
    ensures path[0] != path[|path| - 1]
  {
    PathGoesForward(g, path);
  }

  // ---------- the generator ----------

  /** Fresh ids, and the random choices: whether to fetch a secret, whether node i branches
      off, and from which index if it does. */
  datatype Choices = Choices(freshId: nat -> NodeId, fetchSecret: bool, branch: nat -> bool, earlier: nat -> nat)

  ghost predicate IdsAreFresh(freshId: nat -> NodeId) {
    forall i: nat, j: nat :: i < j ==> freshId(i) != freshId(j)
  }

  /** The random index stays within the bounds it is drawn from. */
  ghost predicate EarlierInRange(c: Choices) {
    forall i: nat :: 1 <= c.earlier(i) <= if i - 2 > 1 then i - 2 else 1
  }

  /** Where the edge into node k + 1 comes from, when `secrets` nodes come before those of the
      loop: from node k, or, where the branching template branches, from the node drawn. */
  function From(template: Template, secrets: nat, c: Choices, k: nat): nat {
    var i := k + 1 - secrets;
    if template == ComplexBranching && i > 3 && c.branch(i) then c.earlier(i) else k
  }

  ghost predicate FollowsChoices(g: Graph, template: Template, secrets: nat, c: Choices) {
    forall k :: 0 <= k < |g.edges| ==>
      From(template, secrets, c, k) < |g.nodes| && g.edges[k].source == g.nodes[From(template, secrets, c, k)]
  }

  function Grown(g: Graph, source: NodeId, id: NodeId): Graph {
    Graph(g.nodes + [id], g.edges + [Edge(source, id)])
  }

  lemma ForwardGrows(g: Graph, j: nat, id: NodeId)
    requires GrowsForward(g) && j < |g.nodes|
    ensures GrowsForward(Grown(g, g.nodes[j], id))
  {
    var h := Grown(g, g.nodes[j], id);
    forall k | 0 <= k < |h.edges|
      ensures h.edges[k].target == h.nodes[k + 1] && IsAmong(h.nodes, k + 1, h.edges[k].source)
    {
      if k == |g.edges| {
        assert h.nodes[j] == g.nodes[j];
      } else {
        assert IsAmong(g.nodes, k + 1, g.edges[k].source);
        var m :| 0 <= m < k + 1 && m < |g.nodes| && g.nodes[m] == g.edges[k].source;
        assert h.nodes[m] == g.nodes[m];
      }
    }
  }

  /** The nodes carry the first fresh ids in order. */
  ghost predicate UsesIds(nodes: seq<NodeId>, freshId: nat -> NodeId) {
    forall k: nat :: k < |nodes| ==> nodes[k] == freshId(k)
  }

  lemma IdsGrow(nodes: seq<NodeId>, freshId: nat -> NodeId)
    requires UsesIds(nodes, freshId)
    ensures UsesIds(nodes + [freshId(|nodes|)], freshId)
  {
  }

  predicate IsChain(g: Graph) {
    |g.nodes| == |g.edges| + 1 && forall k :: 0 <= k < |g.edges| ==> g.edges[k].source == g.nodes[k]
  }

  lemma ChainGrows(g: Graph, id: NodeId)
    requires IsChain(g)
    ensures IsChain(Grown(g, g.nodes[|g.nodes| - 1], id))
  {
  }

  /** Appending one node, connected to the node at index j. */
  method AddNode(g: Graph, j: nat, freshId: nat -> NodeId) returns (h: Graph)
    requires GrowsForward(g) && UsesIds(g.nodes, freshId) && j < |g.nodes|
    ensures GrowsForward(h) && UsesIds(h.nodes, freshId) && |h.nodes| == |g.nodes| + 1
    ensures h == Grown(g, g.nodes[j], freshId(|g.nodes|))
    ensures IsChain(g) && j == |g.nodes| - 1 ==> IsChain(h)
  {
    var id := freshId(|g.nodes|);
    ForwardGrows(g, j, id);
    IdsGrow(g.nodes, freshId);
    if IsChain(g) && j == |g.nodes| - 1 {
      ChainGrows(g, id);
    }
    h := Grown(g, g.nodes[j], id);
  }

  lemma ChoicesGrow(g: Graph, template: Template, secrets: nat, c: Choices, id: NodeId)
    requires FollowsChoices(g, template, secrets, c) && |g.nodes| == |g.edges| + 1
    requires From(template, secrets, c, |g.edges|) < |g.nodes|
    ensures FollowsChoices(Grown(g, g.nodes[From(template, secrets, c, |g.edges|)], id), template, secrets, c)
  {
  }

  /** What the loop keeps: the graph so far, of so many nodes. */
  ghost predicate GrownSoFar(g: Graph, template: Template, secrets: nat, c: Choices, n: nat) {
    && |g.nodes| == n && GrowsForward(g) && UsesIds(g.nodes, c.freshId)
    && (template != ComplexBranching ==> IsChain(g))
    && FollowsChoices(g, template, secrets, c)
  }

  /** One pass of the loop. */
  method Connect(g: Graph, template: Template, i: nat, c: Choices, ghost secrets: nat) returns (h: Graph)
    requires GrownSoFar(g, template, secrets, c, i + secrets) && 1 <= i
    requires 1 <= c.earlier(i) <= if i - 2 > 1 then i - 2 else 1
    ensures GrownSoFar(h, template, secrets, c, i + 1 + secrets)
  {
    var branches := template == ComplexBranching && i > 3 && c.branch(i);
    var j := if branches then c.earlier(i) else |g.nodes| - 1;
    h := AddNode(g, j, c.freshId);
    ConnectFollows(g, template, i, c, secrets, j);
  }

  lemma ConnectFollows(g: Graph, template: Template, i: nat, c: Choices, secrets: nat, j: nat)
    requires GrownSoFar(g, template, secrets, c, i + secrets) && 1 <= i
    requires 1 <= c.earlier(i) <= if i - 2 > 1 then i - 2 else 1
    requires j == if template == ComplexBranching && i > 3 && c.branch(i) then c.earlier(i) else |g.nodes| - 1
    ensures j < |g.nodes|
    ensures FollowsChoices(Grown(g, g.nodes[j], c.freshId(|g.nodes|)), template, secrets, c)
  {
    assert |g.edges| == i + secrets - 1;
    assert j == From(template, secrets, c, |g.edges|);
    ChoicesGrow(g, template, secrets, c, c.freshId(|g.nodes|));
  }

  /** The entry point, and behind it the node that fetches a secret if there is one. */
  method Begin(template: Template, secret: bool, c: Choices) returns (g: Graph)
    ensures GrownSoFar(g, template, if secret then 1 else 0, c, if secret then 2 else 1)
  {
    g := Graph([c.freshId(0)], []);
    if secret {
      g := AddNode(g, 0, c.freshId);
    }
  }

  /** For every template, node count and random choice the graph is a tree whose root is the
      entry point, of the stated size and in generation order; only the branching template
      leaves the chain, and only where it was drawn to. */
  method GenerateWorkflowGraph(template: Template, nodeCount: int, hasSecrets: bool, c: Choices)
    returns (g: Graph)
    requires IdsAreFresh(c.freshId) && EarlierInRange(c)
    ensures IsTree(g) && UsesIds(g.nodes, c.freshId)
    ensures |g.nodes| == (if nodeCount > 1 then nodeCount else 1) + (if hasSecrets && c.fetchSecret then 1 else 0)
    ensures template != ComplexBranching ==> IsChain(g)
    ensures FollowsChoices(g, template, if hasSecrets && c.fetchSecret then 1 else 0, c)
  {
    g := Begin(template, hasSecrets && c.fetchSecret, c);
    ghost var secrets := if hasSecrets && c.fetchSecret then 1 else 0;
    var i := 1;
    while i < nodeCount
      invariant 1 <= i && (i <= nodeCount || i == 1)
      invariant GrownSoFar(g, template, secrets, c, i + secrets)
    {
      g := Connect(g, template, i, c, secrets);
      i := i + 1;
    }
    FreshNodesAreDistinct(g.nodes, c.freshId);
  }

  lemma FreshNodesAreDistinct(nodes: seq<NodeId>, freshId: nat -> NodeId)
    requires IdsAreFresh(freshId) && UsesIds(nodes, freshId)
    ensures DistinctNodes(nodes)
  {
  }

  // ---------- the compiled definition ----------

  datatype Action = Action(ref: NodeId, dependsOn: seq<NodeId>)

  predicate IsFirstWithRef(actions: seq<Action>, ref: NodeId, k: nat) {
    k < |actions| && actions[k].ref == ref && forall j :: 0 <= j < k ==> actions[j].ref != ref
  }

  /** The first action with a reference, as the find of the compiler returns it. */
  method FindAction(actions: seq<Action>, ref: NodeId) returns (found: Option<nat>)
    ensures found.Some? ==> IsFirstWithRef(actions, ref, found.value)
    ensures found.None? ==> forall j :: 0 <= j < |actions| ==> actions[j].ref != ref
  {
    var k := 0;
    while k < |actions|
      invariant k <= |actions| && forall j :: 0 <= j < k ==> actions[j].ref != ref
    {
      if actions[k].ref == ref { return Some(k); }
      k := k + 1;
    }
    return None;
  }

  /** The dependencies of the first e edges have been entered. */
  predicate Entered(g: Graph, actions: seq<Action>, e: nat)
    requires |g.nodes| == |g.edges| + 1 && e <= |g.edges|
  {
    && |actions| == |g.nodes|
    && (forall k :: 0 <= k < |actions| ==> actions[k].ref == g.nodes[k])
    && (forall k :: 0 <= k < |actions| ==>
          actions[k].dependsOn == if 1 <= k <= e then [g.edges[k - 1].source] else [])
  }

  lemma TargetIsNext(g: Graph, actions: seq<Action>, e: nat, k: nat)
    requires IsTree(g) && e < |g.edges| && Entered(g, actions, e)
    ensures e + 1 < |actions| && actions[e + 1].ref == g.edges[e].target
    ensures IsFirstWithRef(actions, g.edges[e].target, k) ==> k == e + 1
  {
    assert g.edges[e].target == g.nodes[e + 1];
  }

  /** One edge: its source becomes a dependency of the first action with its target. */
  method EnterEdge(g: Graph, actions: seq<Action>, e: nat) returns (entered: seq<Action>)
    requires IsTree(g) && e < |g.edges| && Entered(g, actions, e)
    ensures Entered(g, entered, e + 1)
  {
    hide DistinctNodes, IsAmong;
    entered := actions;
    EdgeEntered(g, actions, e);
    var edge := g.edges[e];
    var found := FindAction(actions, edge.target);
    TargetIsNext(g, actions, e, if found.Some? then found.value else 0);
    if found.Some? {
      var action := actions[found.value];
      if edge.source !in action.dependsOn {
        entered := actions[found.value := action.(dependsOn := action.dependsOn + [edge.source])];
      }
    }
  }

  lemma EdgeEntered(g: Graph, actions: seq<Action>, e: nat)
    requires |g.nodes| == |g.edges| + 1 && e < |g.edges| && Entered(g, actions, e)
    ensures e + 1 < |actions| && actions[e + 1].dependsOn == []
    ensures Entered(g, actions[e + 1 := Action(actions[e + 1].ref, [g.edges[e].source])], e + 1)
  {
  }

  /** Compiling a generated graph: the entry point depends on nothing, every other node on
      exactly the source of its one incoming edge. */
  method CompileActions(g: Graph) returns (actions: seq<Action>)
    requires IsTree(g)
    ensures Entered(g, actions, |g.edges|)
  {
    actions := seq(|g.nodes|, i requires 0 <= i < |g.nodes| => Action(g.nodes[i], []));
    var e := 0;
    while e < |g.edges|
      invariant e <= |g.edges| && Entered(g, actions, e)
    {
      actions := EnterEdge(g, actions, e);
      e := e + 1;
    }
  }

  predicate DistinctRefs(actions: seq<Action>) {
    forall i, j :: 0 <= i < j < |actions| ==> actions[i].ref != actions[j].ref
  }

  method CountDependencies(actions: seq<Action>) returns (counts: map<NodeId, nat>)
    requires DistinctRefs(actions)
    ensures forall k :: 0 <= k < |actions| ==>
              actions[k].ref in counts && counts[actions[k].ref] == |actions[k].dependsOn|
  {
    counts := map[];
    var k := 0;
    while k < |actions|
      invariant k <= |actions|
      invariant forall j :: 0 <= j < k ==>
                  actions[j].ref in counts && counts[actions[j].ref] == |actions[j].dependsOn|
    {
      counts := counts[actions[k].ref := |actions[k].dependsOn|];
      k := k + 1;
    }
  }

  /** The compiled dependency counts are 0 for the entry point and 1 for every other node. */
  method DependencyCounts(g: Graph) returns (counts: map<NodeId, nat>)
    requires IsTree(g)
    ensures forall k :: 0 <= k < |g.nodes| ==>
              g.nodes[k] in counts && counts[g.nodes[k]] == if k == 0 then 0 else 1
  {
    var actions := CompileActions(g);
    counts := CountDependencies(actions);
    forall k | 0 <= k < |g.nodes|
      ensures g.nodes[k] in counts && counts[g.nodes[k]] == if k == 0 then 0 else 1
    {
      assert actions[k].ref == g.nodes[k];
    }
  }
}
