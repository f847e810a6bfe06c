/** The validator's cycle check: a recursive depth-first search over the edge list. */
module CycleCheck {
  import opened Results
  import opened Graphs
  import opened AgentModel

  datatype CycleError =
    | UnboundedSelfLoop(edgeId: string)
    | SelfLoopNotRetryable(edgeId: string)
    | UnboundedCycle(node: string)
    | CycleNotRetryable(node: string)

  ghost predicate IsCycle(rel: Relation, c: seq<string>) {
    IsWalk(rel, c) && |c| >= 2 && c[0] == c[|c| - 1]
  }

  /** Finish numbers: every edge out of a finished node enters a retryable node or a node
      that finished earlier. */
  ghost predicate Settled(g: AgentGraph, finish: map<string, nat>) {
    forall p :: p in g.Links() && p.0 in finish ==>
                  g.Retryable(p.1) || (p.1 in finish && finish[p.1] < finish[p.0])
  }

  lemma {:induction false} WalkDescends(g: AgentGraph, finish: map<string, nat>, w: seq<string>)
    requires Settled(g, finish) && IsWalk(g.Links(), w) && w[0] in finish
    requires forall i :: 0 < i < |w| ==> !g.Retryable(w[i])
    ensures w[|w| - 1] in finish && finish[w[|w| - 1]] + |w| - 1 <= finish[w[0]]
    decreases |w|
  {
    if |w| > 1 {
      assert (w[0], w[1]) in g.Links();
      WalkDescends(g, finish, w[1..]);
    }
  }

  lemma CycleRotates(rel: Relation, c: seq<string>, k: nat)
    requires IsCycle(rel, c) && k < |c|
    ensures IsCycle(rel, c[k..] + c[1..k + 1])
  {
    var r := c[k..] + c[1..k + 1];
    forall i | 0 <= i < |r| - 1
      ensures (r[i], r[i + 1]) in rel
    {
      if k + i < |c| - 1 {
        assert r[i] == c[k + i] && r[i + 1] == c[k + i + 1];
      } else {
        var j := k + i - (|c| - 1);
        assert r[i] == c[j] && r[i + 1] == c[j + 1];
      }
    }
  }

  /** A cycle through a finished node passes a retryable node. */
  lemma CycleIsBounded(g: AgentGraph, finish: map<string, nat>, c: seq<string>, k: nat)
    requires Settled(g, finish) && IsCycle(g.Links(), c) && k < |c| && c[k] in finish
    ensures exists i :: 0 <= i < |c| && g.Retryable(c[i])
  {
    if forall i :: 0 <= i < |c| ==> !g.Retryable(c[i]) {
      CycleRotates(g.Links(), c, k);
      WalkDescends(g, finish, c[k..] + c[1..k + 1]);
    }
  }

  function IndexOf(s: seq<string>, x: string): (k: nat)
    requires x in s
    ensures k < |s| && s[k] == x && x !in s[..k]
  {
    if s[0] == x then 0 else 1 + IndexOf(s[1..], x)
  }

  ghost function Elements(s: seq<string>): set<string> {
    set n | n in s
  }

  ghost predicate PathEdges(path: seq<string>, edgePath: seq<EdgeContract>) {
    && |path| == |edgePath| + 1
    && forall i :: 0 <= i < |edgePath| ==> edgePath[i].fromNode == path[i] && edgePath[i].toNode == path[i + 1]
  }

  function Outgoing(edges: seq<EdgeContract>, n: string): (r: seq<EdgeContract>)
    ensures forall e :: e in r <==> e in edges && e.fromNode == n
  {
    if edges == [] then []
    else (if edges[0].fromNode == n then [edges[0]] else []) + Outgoing(edges[1..], n)
  }

  lemma EdgeLinks(g: AgentGraph, e: EdgeContract)
    requires e in g.edges
    ensures (e.fromNode, e.toNode) in g.Links()
    ensures e.fromNode in Endpoints(g.Links()) && e.toNode in Endpoints(g.Links())
  {
    assert (e.fromNode, e.toNode) in g.Links();
  }

  lemma PathGrows(path: seq<string>, edgePath: seq<EdgeContract>, edge: EdgeContract)
    requires PathEdges(path, edgePath) && path[|path| - 1] == edge.fromNode
    ensures PathEdges(path + [edge.toNode], edgePath + [edge])
    ensures Elements(path + [edge.toNode]) == Elements(path) + {edge.toNode}
    ensures forall n :: n in Elements(path) <==> n in path
  {
    assert edge.toNode in path + [edge.toNode];
  }

  /** What a rejection by the search exhibits: a cycle whose first node is not retryable.
      The kind of error says whether a RETRY edge lies on the cycle, leaving out its closing edge. */
  ghost predicate Rejects(g: AgentGraph, error: CycleError, cycle: seq<string>, along: seq<EdgeContract>) {
    && IsCycle(g.Links(), cycle) && !g.Retryable(cycle[0])
    && PathEdges(cycle[..|cycle| - 1], along)
    && error == if exists e :: e in along && e.edgeType == RETRY then CycleNotRetryable(cycle[0]) else UnboundedCycle(cycle[0])
  }

  lemma PathCloses(g: AgentGraph, path: seq<string>, edgePath: seq<EdgeContract>, start: nat)
    requires IsWalk(g.Links(), path) && PathEdges(path, edgePath) && start < |path|
    requires (path[|path| - 1], path[start]) in g.Links() && !g.Retryable(path[start])
    ensures Rejects(g, if exists e :: e in edgePath[start..] && e.edgeType == RETRY
                       then CycleNotRetryable(path[start]) else UnboundedCycle(path[start]),
                    path[start..] + [path[start]], edgePath[start..])
  {
    var c := path[start..] + [path[start]];
    forall i | 0 <= i < |c| - 1
      ensures (c[i], c[i + 1]) in g.Links()
    {
      assert c[i] == path[start + i];
    }
    assert c[..|c| - 1] == path[start..];
  }

  /** A node whose out-edges all enter retryable or finished nodes may finish next. */
  lemma NodeSettles(g: AgentGraph, finish: map<string, nat>, node: string, clock: nat, out: seq<EdgeContract>)
    requires Settled(g, finish) && node !in finish && forall n :: n in finish ==> finish[n] < clock
    requires forall e :: e in g.edges && e.fromNode == node ==> e in out
    requires forall j :: 0 <= j < |out| ==> g.Retryable(out[j].toNode) || out[j].toNode in finish
    ensures Settled(g, finish[node := clock])
  {
  }

  // ----- the search as a function

  /** What a search leaves behind: the nodes visited, and its error if it found one. */
  datatype Search = Search(visited: set<string>, error: Option<CycleError>)

  /** The error for an edge from the end of the path back to a node on it. */
  function CycleFound(path: seq<string>, edgePath: seq<EdgeContract>, neighbor: string): CycleError
    requires neighbor in path && |path| == |edgePath| + 1
  {
    var cycleEdges := edgePath[IndexOf(path, neighbor)..];
    if exists e :: e in cycleEdges && e.edgeType == RETRY then CycleNotRetryable(neighbor) else UnboundedCycle(neighbor)
  }

  /** Explores a node that was not visited before; the recursion stack is the path. */
  ghost function Visit(g: AgentGraph, node: string, path: seq<string>, edgePath: seq<EdgeContract>, visited: set<string>): (r: Search)
    requires node !in visited && node in Endpoints(g.Links()) && |path| == |edgePath| + 1
    ensures visited + {node} <= r.visited
    decreases Endpoints(g.Links()) - visited, 0
  {
    assert Endpoints(g.Links()) - (visited + {node}) < Endpoints(g.Links()) - visited;
    Scan(g, Outgoing(g.edges, node), path, edgePath, visited + {node})
  }

  /** Follows the edges out of the last node of the path, in the order they are listed. */
  ghost function Scan(g: AgentGraph, out: seq<EdgeContract>, path: seq<string>, edgePath: seq<EdgeContract>, visited: set<string>): (r: Search)
    requires |path| == |edgePath| + 1 && forall e :: e in out ==> e in g.edges
    ensures visited <= r.visited
    decreases Endpoints(g.Links()) - visited, |out|
  {
    if out == [] then Search(visited, None)
    else
      var edge := out[0];
      if edge.toNode !in visited then
        EdgeLinks(g, edge);
        var below := Visit(g, edge.toNode, path + [edge.toNode], edgePath + [edge], visited);
        assert Endpoints(g.Links()) - below.visited < Endpoints(g.Links()) - visited;
        if below.error.Some? then below else Scan(g, out[1..], path, edgePath, below.visited)
      else if edge.toNode in path && !g.Retryable(edge.toNode) then
        Search(visited, Some(CycleFound(path, edgePath, edge.toNode)))
      else Scan(g, out[1..], path, edgePath, visited)
  }

  /** One turn of the loop over the edges out of a node. */
  lemma ScanStep(g: AgentGraph, out: seq<EdgeContract>, i: nat, path: seq<string>, edgePath: seq<EdgeContract>, visited: set<string>)
    requires i < |out| && |path| == |edgePath| + 1 && forall e :: e in out ==> e in g.edges
    ensures var edge := out[i];
            && edge.toNode in Endpoints(g.Links())
            && Scan(g, out[i..], path, edgePath, visited)
               == if edge.toNode !in visited then
                    var below := Visit(g, edge.toNode, path + [edge.toNode], edgePath + [edge], visited);
                    if below.error.Some? then below else Scan(g, out[i + 1..], path, edgePath, below.visited)
                  else if edge.toNode in path && !g.Retryable(edge.toNode) then
                    Search(visited, Some(CycleFound(path, edgePath, edge.toNode)))
                  else Scan(g, out[i + 1..], path, edgePath, visited)
  {
    hide Visit, Outgoing, CycleFound, Endpoints, AgentGraph.Retryable, AgentGraph.Links;
    EdgeLinks(g, out[i]);
    assert out[i..][0] == out[i] && out[i..][1..] == out[i + 1..];
  }

  lemma VisitScans(g: AgentGraph, node: string, path: seq<string>, edgePath: seq<EdgeContract>, visited: set<string>)
    requires node !in visited && node in Endpoints(g.Links()) && |path| == |edgePath| + 1
    ensures Visit(g, node, path, edgePath, visited) == Scan(g, Outgoing(g.edges, node), path, edgePath, visited + {node})
  {
    hide Scan, Outgoing, Endpoints;
  }

  lemma ScanEnds(g: AgentGraph, out: seq<EdgeContract>, path: seq<string>, edgePath: seq<EdgeContract>, visited: set<string>)
    requires |path| == |edgePath| + 1
    ensures Scan(g, out[|out|..], path, edgePath, visited) == Search(visited, None)
    ensures out[0..] == out
  {
    hide Visit;
  }

  /** The search from every edge source but END, in the order of the edges. */
  ghost function SearchFrom(g: AgentGraph, es: seq<EdgeContract>, visited: set<string>): Option<CycleError>
    requires forall e :: e in es ==> e in g.edges
    decreases |es|
  {
    if es == [] then None
    else
      var source := es[0].fromNode;
      if source !in visited && source != END then
        EdgeLinks(g, es[0]);
        var below := Visit(g, source, [source], [], visited);
        if below.error.Some? then below.error else SearchFrom(g, es[1..], below.visited)
      else SearchFrom(g, es[1..], visited)
  }

  lemma SearchStep(g: AgentGraph, es: seq<EdgeContract>, i: nat, visited: set<string>)
    requires i < |es| && forall e :: e in es ==> e in g.edges
    ensures var source := es[i].fromNode;
            && source in Endpoints(g.Links())
            && SearchFrom(g, es[i..], visited)
               == if source !in visited && source != END then
                    var below := Visit(g, source, [source], [], visited);
                    if below.error.Some? then below.error else SearchFrom(g, es[i + 1..], below.visited)
                  else SearchFrom(g, es[i + 1..], visited)
  {
    hide Visit, Endpoints, AgentGraph.Links;
    EdgeLinks(g, es[i]);
    assert es[i..][0] == es[i] && es[i..][1..] == es[i + 1..];
  }

  /** The first self-loop that is not allowed. */
  function BadLoop(g: AgentGraph, es: seq<EdgeContract>): Option<CycleError> {
    if es == [] then None
    else if LoopAllowed(g, es[0]) then BadLoop(g, es[1..])
    else Some(if es[0].edgeType != RETRY then UnboundedSelfLoop(es[0].edgeId) else SelfLoopNotRetryable(es[0].edgeId))
  }

  lemma BadLoopStep(g: AgentGraph, i: nat)
    requires i < |g.edges|
    ensures var edge := g.edges[i];
            BadLoop(g, g.edges[i..])
            == if LoopAllowed(g, edge) then BadLoop(g, g.edges[i + 1..])
               else Some(if edge.edgeType != RETRY then UnboundedSelfLoop(edge.edgeId) else SelfLoopNotRetryable(edge.edgeId))
  {
    hide LoopAllowed;
    assert g.edges[i..][0] == g.edges[i] && g.edges[i..][1..] == g.edges[i + 1..];
  }

  /** The outcome of the whole check. */
  ghost function Checked(g: AgentGraph): Option<CycleError> {
    if BadLoop(g, g.edges).Some? then BadLoop(g, g.edges) else SearchFrom(g, g.edges, {})
  }

  class CycleSearch {
    const graph: AgentGraph
    var visited: set<string>
    var recStack: set<string>
    ghost var finish: map<string, nat>
    ghost var clock: nat

    constructor (g: AgentGraph)
      ensures graph == g && Valid() && visited == {} && recStack == {}
    {
      graph := g;
      visited := {};
      recStack := {};
      finish := map[];
      clock := 0;
    }

    /** Visited nodes are those finished and those on the recursion stack. */
    ghost predicate Valid()
      reads this
    {
      && visited == finish.Keys + recStack && finish.Keys !! recStack
      && visited <= Universe()
      && Settled(graph, finish)
      && forall n :: n in finish ==> finish[n] < clock
    }

    ghost function Universe(): set<string> {
      Endpoints(graph.Links())
    }

    /** Explores from `node`. On entry the recursion stack is the path without its last
        node; while `node` is explored it is exactly the set of nodes on the path. */
    method Dfs(node: string, path: seq<string>, edgePath: seq<EdgeContract>)
      returns (r: Option<CycleError>, ghost cycle: seq<string>, ghost along: seq<EdgeContract>)
      requires Valid() && node !in visited && node in Universe()
      requires IsWalk(graph.Links(), path) && path[|path| - 1] == node && PathEdges(path, edgePath)
      requires recStack + {node} == Elements(path) && node !in recStack
      modifies this
      ensures r.None? ==> Valid() && recStack == old(recStack) && node in finish
      ensures r.None? ==> old(finish).Keys <= finish.Keys
      ensures r.Some? ==> Rejects(graph, r.value, cycle, along)
      ensures var done := Visit(graph, node, path, edgePath, old(visited));
              r == done.error && (r.None? ==> visited == done.visited)
      decreases Universe() - visited
    {
      hide Settled, IsCycle, Outgoing, Rejects, IsWalk, PathEdges, Elements, AgentGraph.Retryable, AgentGraph.Links, Endpoints,
           Visit, Scan;
      PathSizes(path, edgePath);
      VisitScans(graph, node, path, edgePath, visited);
      cycle, along := [], [];
      visited := visited + {node};
      recStack := recStack + {node};
      var out := Outgoing(graph.edges, node);
      ScanEnds(graph, out, path, edgePath, visited);
      for i := 0 to |out|
        invariant Valid() && old(finish).Keys <= finish.Keys
        invariant recStack == old(recStack) + {node} == Elements(path)
        invariant forall j :: 0 <= j < i ==> graph.Retryable(out[j].toNode) || out[j].toNode in finish
        invariant Visit(graph, node, path, edgePath, old(visited)) == Scan(graph, out[i..], path, edgePath, visited)
      {
        var edge := out[i];
        var neighbor := edge.toNode;
        EdgeLinks(graph, edge);
        ScanStep(graph, out, i, path, edgePath, visited);
        PathGrows(path, edgePath, edge);
        if neighbor !in visited {
          WalkExtends(graph.Links(), path, path[0], node, neighbor);
          r, cycle, along := Dfs(neighbor, path + [neighbor], edgePath + [edge]);
          if r.Some? {
            return;
          }
        } else if neighbor in recStack {
          var start := IndexOf(path, neighbor);
          var cycleEdges := edgePath[start..];
          var hasRetryEdge := exists e :: e in cycleEdges && e.edgeType == RETRY;
          if !graph.Retryable(neighbor) {
            PathCloses(graph, path, edgePath, start);
            return Some(if hasRetryEdge then CycleNotRetryable(neighbor) else UnboundedCycle(neighbor)),
                   path[start..] + [neighbor], cycleEdges;
          }
        }
      }
      ScanEnds(graph, out, path, edgePath, visited);
      recStack := recStack - {node};
      NodeSettles(graph, finish, node, clock, out);
      finish := finish[node := clock];
      clock := clock + 1;
      r := None;
    }
  }

  lemma PathSizes(path: seq<string>, edgePath: seq<EdgeContract>)
    requires PathEdges(path, edgePath)
    ensures |path| == |edgePath| + 1
  {
  }

  predicate LoopAllowed(g: AgentGraph, e: EdgeContract) {
    e.fromNode == e.toNode && !Special(e.fromNode) ==> e.edgeType == RETRY && g.Retryable(e.toNode)
  }

  /** A self-loop that is no retry, or one of a node not registered as retryable at least once. */
  predicate BareLoop(g: AgentGraph, e: EdgeContract) {
    && e.fromNode == e.toNode && e.fromNode != "START" && e.fromNode != "END"
    && !(e.edgeType.RETRY? && e.fromNode in g.nodes && g.nodes[e.fromNode].retryable && g.nodes[e.fromNode].maxRetries >= 1)
  }

  lemma BareExactly(g: AgentGraph)
    ensures forall e :: BareLoop(g, e) <==> !LoopAllowed(g, e)
  {
  }

  /** Every cycle passes a retryable node, unless it stays on END and nothing else enters END. */
  ghost predicate CyclesBounded(g: AgentGraph) {
    forall c :: IsCycle(g.Links(), c) ==>
                  || (exists i :: 0 <= i < |c| && g.Retryable(c[i]))
                  || ((forall i :: 0 <= i < |c| ==> c[i] == END) && forall e :: e in g.edges && e.toNode == END ==> e.fromNode == END)
  }

  /** The whole check: self-loops first, then a search from every edge source but END. */
  method ValidateCyclesAreBounded(g: AgentGraph)
    returns (r: Option<CycleError>, ghost cycle: seq<string>, ghost along: seq<EdgeContract>)
    ensures r.None? ==> CyclesBounded(g) && forall e :: e in g.edges ==> LoopAllowed(g, e)
    ensures r.Some? && (r.value.UnboundedSelfLoop? || r.value.SelfLoopNotRetryable?) <==> exists e :: e in g.edges && BareLoop(g, e)
    ensures r.Some? && (r.value.UnboundedSelfLoop? || r.value.SelfLoopNotRetryable?) ==>
              exists e :: e in g.edges && !LoopAllowed(g, e)
                          && r.value == if e.edgeType != RETRY then UnboundedSelfLoop(e.edgeId) else SelfLoopNotRetryable(e.edgeId)
    ensures r.Some? && (r.value.UnboundedCycle? || r.value.CycleNotRetryable?) ==> Rejects(g, r.value, cycle, along)
    ensures (forall c :: !IsCycle(g.Links(), c)) ==> r.None?
    ensures r == Checked(g)
  {
    hide Rejects, IsCycle, IsWalk, CyclesBounded, AgentGraph.Links, AgentGraph.Retryable, Endpoints, Settled, Visit, SearchFrom, BadLoop, BareLoop;
    cycle, along := [], [];
    BareExactly(g);
    NothingToCheck(g);
    for i := 0 to |g.edges|
      invariant forall j :: 0 <= j < i ==> LoopAllowed(g, g.edges[j])
      invariant BadLoop(g, g.edges) == BadLoop(g, g.edges[i..])
    {
      var edge := g.edges[i];
      BadLoopStep(g, i);
      if edge.fromNode == edge.toNode && !Special(edge.fromNode) {
        LoopIsCycle(g, edge);
        if edge.edgeType != RETRY {
          return Some(UnboundedSelfLoop(edge.edgeId)), [], [];
        }
        if !g.Retryable(edge.toNode) {
          return Some(SelfLoopNotRetryable(edge.edgeId)), [], [];
        }
      }
    }
    var search := new CycleSearch(g);
    for i := 0 to |g.edges|
      invariant fresh(search) && search.graph == g && search.Valid() && search.recStack == {}
      invariant SearchFrom(g, g.edges, {}) == SearchFrom(g, g.edges[i..], search.visited)
      invariant forall j :: 0 <= j < i ==> g.edges[j].fromNode in search.finish || g.edges[j].fromNode == END
    {
      var source := g.edges[i].fromNode;
      SearchStep(g, g.edges, i, search.visited);
      if source !in search.visited && source != END {
        EdgeLinks(g, g.edges[i]);
        PathStarts(g, source);
        r, cycle, along := search.Dfs(source, [source], []);
        if r.Some? {
          RejectsCycle(g, r.value, cycle, along);
          return;
        }
      }
    }
    AllSourcesSettled(g, search.finish);
    r := None;
  }

  lemma NothingToCheck(g: AgentGraph)
    ensures g.edges[0..] == g.edges
    ensures BadLoop(g, g.edges[|g.edges|..]) == None
    ensures forall visited :: SearchFrom(g, g.edges[|g.edges|..], visited) == None
  {
    hide Visit;
  }

  lemma LoopIsCycle(g: AgentGraph, e: EdgeContract)
    requires e in g.edges && e.fromNode == e.toNode
    ensures IsCycle(g.Links(), [e.fromNode, e.toNode])
  {
    EdgeLinks(g, e);
  }

  lemma PathStarts(g: AgentGraph, n: string)
    ensures IsWalk(g.Links(), [n]) && PathEdges([n], []) && Elements([n]) == {n}
  {
  }

  lemma RejectsCycle(g: AgentGraph, error: CycleError, cycle: seq<string>, along: seq<EdgeContract>)
    requires Rejects(g, error, cycle, along)
    ensures IsCycle(g.Links(), cycle) && (error.UnboundedCycle? || error.CycleNotRetryable?)
  {
  }

  lemma AllSourcesSettled(g: AgentGraph, finish: map<string, nat>)
    requires Settled(g, finish)
    requires forall e :: e in g.edges ==> e.fromNode in finish || e.fromNode == END
    ensures CyclesBounded(g)
  {
    forall c | IsCycle(g.Links(), c) && forall i :: 0 <= i < |c| ==> !g.Retryable(c[i])
      ensures forall i :: 0 <= i < |c| ==> c[i] == END
      ensures forall e :: e in g.edges && e.toNode == END ==> e.fromNode == END
    {
      forall i | 0 <= i < |c|
        ensures c[i] !in finish
      {
        if c[i] in finish {
          CycleIsBounded(g, finish, c, i);
        }
      }
      forall i | 0 <= i < |c|
        ensures c[i] == END
      {
        var k := if i == |c| - 1 then 0 else i;
        assert (c[k], c[k + 1]) in g.Links();
      }
      forall e | e in g.edges && e.toNode == END
        ensures e.fromNode == END
      {
        assert (e.fromNode, END) in g.Links() && c[0] == END;
      }
    }
  }
}
