/** What the cycle check decides whatever the ids of the edges, which fix the order of the search. */
module CycleOrder {
  import opened Results
  import opened Graphs
  import opened AgentModel
  import opened CycleCheck
  import opened Text

  /** A cycle that passes no node twice but the one it starts and ends at. */
  ghost predicate SimpleCycle(rel: Relation, c: seq<string>) {
    IsCycle(rel, c) && forall i, j :: 0 <= i < j < |c| - 1 ==> c[i] != c[j]
  }

  /** Every node on the cycle is retryable; but END need not be, if nothing outside the cycle
      enters it, because no search starts there. */
  ghost predicate Tolerated(g: AgentGraph, c: seq<string>) {
    && (forall n :: n in c && n != END ==> g.Retryable(n))
    && (END in c && !g.Retryable(END) ==> forall n :: (n, END) in g.Links() ==> n in c)
  }

  ghost predicate AllTolerated(g: AgentGraph) {
    && (forall e :: e in g.edges ==> LoopAllowed(g, e))
    && (forall c :: SimpleCycle(g.Links(), c) ==> Tolerated(g, c))
  }

  /** The registry lists its edges in the order of their ids, which are unique. */
  ghost predicate InIdOrder(es: seq<EdgeContract>) {
    forall i, j :: 0 <= i < j < |es| ==> AtMost(es[i].edgeId, es[j].edgeId) && es[i].edgeId != es[j].edgeId
  }

  /** The same edges, in the same places, under other ids. */
  ghost predicate SameButIds(es: seq<EdgeContract>, fs: seq<EdgeContract>) {
    |es| == |fs| && forall i :: 0 <= i < |es| ==> es[i] == fs[i].(edgeId := es[i].edgeId)
  }

  /** The graph under another choice of edge ids, and so with its edges listed in another order. */
  ghost predicate Renamed(g: AgentGraph, h: AgentGraph) {
    h.nodes == g.nodes && InIdOrder(h.edges) && exists es :: multiset(es) == multiset(g.edges) && SameButIds(h.edges, es)
  }

  // ----- what is rejected is not tolerated

  ghost predicate Distinct(path: seq<string>) {
    forall i, j :: 0 <= i < j < |path| ==> path[i] != path[j]
  }

  /** The path of a search: a walk of distinct visited nodes, not from END, with edges out of
      its last node left to follow. */
  ghost predicate OnPath(g: AgentGraph, out: seq<EdgeContract>, path: seq<string>, edgePath: seq<EdgeContract>, visited: set<string>) {
    && IsWalk(g.Links(), path) && Distinct(path) && path[0] != END && |path| == |edgePath| + 1
    && (forall n :: n in path ==> n in visited)
    && (forall e :: e in out ==> e in g.edges && e.fromNode == path[|path| - 1])
  }

  lemma BackEdgeClosesCycle(g: AgentGraph, out: seq<EdgeContract>, path: seq<string>, edgePath: seq<EdgeContract>, visited: set<string>)
    requires out != [] && OnPath(g, out, path, edgePath, visited)
    requires out[0].toNode in path && !g.Retryable(out[0].toNode)
    ensures !AllTolerated(g)
  {
    var n := out[0].toNode;
    var k := IndexOf(path, n);
    var c := path[k..] + [n];
    EdgeLinks(g, out[0]);
    forall i | 0 <= i < |c| - 1
      ensures (c[i], c[i + 1]) in g.Links()
    {
      assert c[i] == path[k + i];
    }
    assert SimpleCycle(g.Links(), c);
    if n == END {
      assert (path[k - 1], path[k - 1 + 1]) in g.Links();
      assert path[k - 1] !in c;
    }
    assert n in c;
    assert !Tolerated(g, c);
  }

  lemma PathOn(g: AgentGraph, out: seq<EdgeContract>, path: seq<string>, edgePath: seq<EdgeContract>, visited: set<string>)
    requires out != [] && OnPath(g, out, path, edgePath, visited) && out[0].toNode !in visited
    ensures var n := out[0].toNode;
            OnPath(g, Outgoing(g.edges, n), path + [n], edgePath + [out[0]], visited + {n})
  {
    EdgeLinks(g, out[0]);
    WalkExtends(g.Links(), path, path[0], path[|path| - 1], out[0].toNode);
  }

  lemma {:induction false} ScanRejectsOnly(g: AgentGraph, out: seq<EdgeContract>, path: seq<string>, edgePath: seq<EdgeContract>, visited: set<string>)
    requires OnPath(g, out, path, edgePath, visited)
    requires Scan(g, out, path, edgePath, visited).error.Some?
    ensures !AllTolerated(g)
    decreases Endpoints(g.Links()) - visited, |out|
  {
    hide AllTolerated, AgentGraph.Retryable, AgentGraph.Links, Endpoints, Outgoing, CycleFound, OnPath;
    PathShape(g, out, path, edgePath, visited);
    if out != [] {
      var edge := out[0];
      EdgeLinks(g, edge);
      if edge.toNode !in visited {
        PathOn(g, out, path, edgePath, visited);
        var below := Visit(g, edge.toNode, path + [edge.toNode], edgePath + [edge], visited);
        if below.error.Some? {
          ScanRejectsOnly(g, Outgoing(g.edges, edge.toNode), path + [edge.toNode], edgePath + [edge], visited + {edge.toNode});
        } else {
          Onwards(g, out, path, edgePath, visited, below.visited);
          ScanRejectsOnly(g, out[1..], path, edgePath, below.visited);
        }
      } else if edge.toNode in path && !g.Retryable(edge.toNode) {
        BackEdgeClosesCycle(g, out, path, edgePath, visited);
      } else {
        Onwards(g, out, path, edgePath, visited, visited);
        ScanRejectsOnly(g, out[1..], path, edgePath, visited);
      }
    }
  }

  lemma PathShape(g: AgentGraph, out: seq<EdgeContract>, path: seq<string>, edgePath: seq<EdgeContract>, visited: set<string>)
    requires OnPath(g, out, path, edgePath, visited)
    ensures |path| == |edgePath| + 1 && forall e :: e in out ==> e in g.edges
  {
  }

  lemma Onwards(
    g: AgentGraph, out: seq<EdgeContract>, path: seq<string>, edgePath: seq<EdgeContract>, visited: set<string>, more: set<string>)
    requires out != [] && OnPath(g, out, path, edgePath, visited) && visited <= more
    ensures OnPath(g, out[1..], path, edgePath, more)
  {
  }

  lemma {:induction false} SearchRejectsOnly(g: AgentGraph, es: seq<EdgeContract>, visited: set<string>)
    requires (forall e :: e in es ==> e in g.edges) && SearchFrom(g, es, visited).Some?
    ensures !AllTolerated(g)
    decreases |es|
  {
    hide AllTolerated, AgentGraph.Links, Endpoints, Outgoing, Scan, Visit;
    if es != [] {
      var source := es[0].fromNode;
      EdgeLinks(g, es[0]);
      if source !in visited && source != END {
        var below := Visit(g, source, [source], [], visited);
        if below.error.Some? {
          VisitScans(g, source, [source], [], visited);
          ScanRejectsOnly(g, Outgoing(g.edges, source), [source], [], visited + {source});
        } else {
          SearchRejectsOnly(g, es[1..], below.visited);
        }
      } else {
        SearchRejectsOnly(g, es[1..], visited);
      }
    }
  }

  lemma {:induction false} BadLoopExactly(g: AgentGraph, es: seq<EdgeContract>)
    ensures BadLoop(g, es).None? <==> forall e :: e in es ==> LoopAllowed(g, e)
  {
    hide LoopAllowed;
    if es != [] {
      BadLoopExactly(g, es[1..]);
      assert es == [es[0]] + es[1..];
    }
  }

  lemma ToleratedAccepted(g: AgentGraph)
    requires AllTolerated(g)
    ensures Checked(g).None?
  {
    BadLoopExactly(g, g.edges);
    hide LoopAllowed, SearchFrom, BadLoop, SimpleCycle, Tolerated;
    if SearchFrom(g, g.edges, {}).Some? {
      SearchRejectsOnly(g, g.edges, {});
    }
  }

  /** A graph without retryable nodes whose edges all lead down some numbering is accepted. */
  lemma DescendingAccepted(g: AgentGraph, finish: map<string, nat>)
    requires Settled(g, finish) && forall e :: e in g.edges ==> e.fromNode in finish
    requires forall n :: !g.Retryable(n)
    ensures Checked(g).None?
  {
    forall c | IsCycle(g.Links(), c)
      ensures false
    {
      assert (c[0], c[1]) in g.Links();
      CycleIsBounded(g, finish, c, 0);
    }
    forall e | e in g.edges
      ensures LoopAllowed(g, e)
    {
      if e.fromNode == e.toNode {
        LoopIsCycle(g, e);
      }
    }
    ToleratedAccepted(g);
  }

  /** The links, and which self-loops are allowed, depend neither on the ids nor on the order. */
  lemma SameEdges(g: AgentGraph, h: AgentGraph)
    requires h.nodes == g.nodes && (multiset(h.edges) == multiset(g.edges) || SameButIds(h.edges, g.edges))
    ensures h.Links() == g.Links()
    ensures (forall e :: e in h.edges ==> LoopAllowed(h, e)) <==> forall e :: e in g.edges ==> LoopAllowed(g, e)
  {
    hide LoopAllowed;
    if multiset(h.edges) == multiset(g.edges) {
      assert forall e :: e in h.edges <==> e in multiset(h.edges);
      assert forall e :: e in g.edges <==> e in multiset(g.edges);
      forall e
        ensures LoopAllowed(h, e) == LoopAllowed(g, e)
      {
        LoopAllowedBy(g, h, e, e);
      }
    } else {
      forall i | 0 <= i < |g.edges|
        ensures h.edges[i].fromNode == g.edges[i].fromNode && h.edges[i].toNode == g.edges[i].toNode
        ensures LoopAllowed(h, h.edges[i]) == LoopAllowed(g, g.edges[i])
      {
        LoopAllowedBy(g, h, g.edges[i], h.edges[i]);
      }
      assert forall e :: e in h.edges ==> exists i :: 0 <= i < |h.edges| && h.edges[i] == e;
      assert forall e :: e in g.edges ==> exists i :: 0 <= i < |g.edges| && g.edges[i] == e;
    }
  }

  lemma LoopAllowedBy(g: AgentGraph, h: AgentGraph, e: EdgeContract, f: EdgeContract)
    requires h.nodes == g.nodes && f == e.(edgeId := f.edgeId)
    ensures LoopAllowed(h, f) == LoopAllowed(g, e)
  {
  }

  lemma RenamedSame(g: AgentGraph, h: AgentGraph)
    requires Renamed(g, h)
    ensures h.Links() == g.Links()
    ensures AllTolerated(h) <==> AllTolerated(g)
  {
    hide SimpleCycle, LoopAllowed, AgentGraph.Links, SameButIds, InIdOrder;
    var es :| multiset(es) == multiset(g.edges) && SameButIds(h.edges, es);
    SameEdges(g, AgentGraph(g.nodes, es));
    SameEdges(AgentGraph(g.nodes, es), h);
    assert forall c :: Tolerated(h, c) <==> Tolerated(g, c);
  }

  // ----- what is not tolerated is rejected under some ids

  lemma {:induction false} FirstOutgoing(edges: seq<EdgeContract>, n: string, j: nat)
    requires j < |edges| && edges[j].fromNode == n && forall i :: 0 <= i < j ==> edges[i].fromNode != n
    ensures Outgoing(edges, n) != [] && Outgoing(edges, n)[0] == edges[j]
  {
    if j > 0 {
      FirstOutgoing(edges[1..], n, j - 1);
    }
  }

  /** The edge by which a search leaves each node of the cycle first goes on round the cycle. */
  ghost predicate Rounds(g: AgentGraph, c: seq<string>) {
    forall k :: 0 <= k < |c| - 1 ==>
                  Outgoing(g.edges, c[k]) != [] && Outgoing(g.edges, c[k])[0].toNode == c[k + 1]
  }

  lemma RoundStep(g: AgentGraph, c: seq<string>, k: nat)
    requires SimpleCycle(g.Links(), c) && Rounds(g, c) && k < |c| - 1
    ensures Outgoing(g.edges, c[k]) != [] && Outgoing(g.edges, c[k])[0].toNode == c[k + 1]
    ensures c[k] in Endpoints(g.Links()) && c[k + 1] in Endpoints(g.Links())
    ensures forall i :: k + 1 <= i < |c| - 1 ==> c[i] != c[k]
    ensures k + 1 == |c| - 1 ==> c[k + 1] == c[0]
  {
    assert (c[k], c[k + 1]) in g.Links();
  }

  /** A search that goes round the cycle comes back to its first node. */
  lemma {:induction false} RoundRejects(
    g: AgentGraph, c: seq<string>, k: nat, path: seq<string>, edgePath: seq<EdgeContract>, visited: set<string>)
    requires SimpleCycle(g.Links(), c) && Rounds(g, c) && !g.Retryable(c[0]) && k < |c| - 1
    requires |path| == |edgePath| + 1 && c[0] in path && (k > 0 ==> c[0] in visited)
    requires forall i :: k <= i < |c| - 1 ==> c[i] !in visited
    requires c[k] in Endpoints(g.Links())
    ensures Visit(g, c[k], path, edgePath, visited).error.Some?
    decreases |c| - k
  {
    hide Scan, Visit, Rounds, SimpleCycle, AgentGraph.Retryable, AgentGraph.Links, Endpoints, Outgoing, CycleFound;
    var out := Outgoing(g.edges, c[k]);
    VisitScans(g, c[k], path, edgePath, visited);
    RoundStep(g, c, k);
    ScanStep(g, out, 0, path, edgePath, visited + {c[k]});
    assert out[0..] == out;
    if k + 1 < |c| - 1 {
      RoundRejects(g, c, k + 1, path + [c[k + 1]], edgePath + [out[0]], visited + {c[k]});
    }
  }

  lemma CycleEdges(g: AgentGraph, c: seq<string>) returns (ce: seq<EdgeContract>)
    requires SimpleCycle(g.Links(), c)
    ensures |ce| == |c| - 1 && forall i :: 0 <= i < |ce| ==> ce[i] in g.edges && ce[i].fromNode == c[i] && ce[i].toNode == c[i + 1]
    ensures forall i, j :: 0 <= i < j < |ce| ==> ce[i].fromNode != ce[j].fromNode
  {
    ce := [];
    while |ce| < |c| - 1
      invariant |ce| <= |c| - 1
      invariant forall i :: 0 <= i < |ce| ==> ce[i] in g.edges && ce[i].fromNode == c[i] && ce[i].toNode == c[i + 1]
    {
      var i := |ce|;
      assert (c[i], c[i + 1]) in g.Links();
      var e :| e in g.edges && e.fromNode == c[i] && e.toNode == c[i + 1];
      ce := ce + [e];
    }
  }

  /** Distinct edges of a listing can be listed first, in any order. */
  lemma {:induction false} ListedFirst(edges: seq<EdgeContract>, block: seq<EdgeContract>) returns (r: seq<EdgeContract>)
    requires forall e :: e in block ==> e in edges
    requires forall i, j :: 0 <= i < j < |block| ==> block[i] != block[j]
    ensures multiset(r) == multiset(edges) && block <= r
    decreases |block|
  {
    if block == [] {
      r := edges;
    } else {
      var e := block[0];
      var s := ListedFirst(edges, block[1..]);
      assert e in block && e in multiset(edges) && e in multiset(s);
      assert forall i :: 0 <= i < |block| - 1 ==> s[i] == block[1..][i] == block[i + 1];
      var j :| 0 <= j < |s| && s[j] == e;
      r := [s[j]] + (s[..j] + s[j + 1..]);
      MovedFirst(s, block[1..], j);
      assert block == [e] + block[1..];
    }
  }

  lemma MovedFirst(s: seq<EdgeContract>, front: seq<EdgeContract>, j: nat)
    requires |front| <= j < |s| && front <= s
    ensures var r := [s[j]] + (s[..j] + s[j + 1..]);
            multiset(r) == multiset(s) && [s[j]] + front <= r
  {
    assert s == s[..j] + ([s[j]] + s[j + 1..]);
  }

  /** Distinct edges can be given the first ids, in any order. */
  lemma NamedFirst(g: AgentGraph, block: seq<EdgeContract>) returns (h: AgentGraph)
    requires InIdOrder(g.edges) && forall e :: e in block ==> e in g.edges
    requires forall i, j :: 0 <= i < j < |block| ==> block[i] != block[j]
    ensures Renamed(g, h) && |block| <= |h.edges|
    ensures forall i :: 0 <= i < |block| ==> h.edges[i].fromNode == block[i].fromNode && h.edges[i].toNode == block[i].toNode
  {
    var es := ListedFirst(g.edges, block);
    assert |es| == |multiset(es)| == |multiset(g.edges)| == |g.edges|;
    h := AgentGraph(g.nodes, seq(|es|, i requires 0 <= i < |es| => es[i].(edgeId := g.edges[i].edgeId)));
    assert SameButIds(h.edges, es);
  }

  lemma RoundsListed(h: AgentGraph, c: seq<string>, from: nat)
    requires |c| >= 2 && from + |c| - 1 <= |h.edges| && forall i, j :: 0 <= i < j < |c| - 1 ==> c[i] != c[j]
    requires forall i :: from <= i < from + |c| - 1 ==> h.edges[i].fromNode == c[i - from] && h.edges[i].toNode == c[i - from + 1]
    requires forall i :: 0 <= i < from ==> h.edges[i].fromNode !in c
    ensures Rounds(h, c)
  {
    hide Outgoing;
    forall k | 0 <= k < |c| - 1
      ensures Outgoing(h.edges, c[k]) != [] && Outgoing(h.edges, c[k])[0].toNode == c[k + 1]
    {
      forall i | 0 <= i < from + k
        ensures h.edges[i].fromNode != c[k]
      {
        if i < from {
          assert c[k] in c;
        }
      }
      FirstOutgoing(h.edges, c[k], from + k);
    }
  }

  lemma RotatedSimple(rel: Relation, c: seq<string>, k: nat) returns (r: seq<string>)
    requires SimpleCycle(rel, c) && k < |c| - 1
    ensures SimpleCycle(rel, r) && r[0] == c[k] && forall n :: n in r <==> n in c
  {
    r := c[k..] + c[1..k + 1];
    CycleRotates(rel, c, k);
    var m := |c| - 1;
    forall i | 0 <= i < m
      ensures r[i] == if k + i < m then c[k + i] else c[k + i - m]
    {
    }
    forall n | n in c
      ensures n in r
    {
      var i :| 0 <= i < |c| && c[i] == n;
      if i >= k {
        assert r[i - k] == n;
      } else if i > 0 {
        assert r[|c| - k + i - 1] == c[i];
      } else {
        assert r[m - k] == c[m];
      }
    }
  }

  lemma PositionOn(rel: Relation, c: seq<string>, n: string) returns (k: nat)
    requires IsCycle(rel, c) && n in c
    ensures k < |c| - 1 && c[k] == n
  {
    k :| k < |c| && c[k] == n;
    if k == |c| - 1 {
      k := 0;
    }
  }

  /** A cycle through a node that is not retryable, other than END, is rejected if its edges come
      first, from that node on. */
  lemma StartRejects(g: AgentGraph, c: seq<string>) returns (h: AgentGraph)
    requires InIdOrder(g.edges) && SimpleCycle(g.Links(), c) && c[0] != END && !g.Retryable(c[0])
    ensures Renamed(g, h) && SearchFrom(h, h.edges, {}).Some?
  {
    h := NamedRound(g, c, []);
    RenamedSame(g, h);
    SearchStep(h, h.edges, 0, {});
    assert h.edges[0..] == h.edges;
    assert h.Retryable(c[0]) == g.Retryable(c[0]);
    hide Scan, Visit, Rounds, SimpleCycle, AgentGraph.Retryable, AgentGraph.Links, Endpoints, Outgoing, CycleFound, SearchFrom, Renamed;
    RoundRejects(h, c, 0, [c[0]], [], {});
  }

  /** The edges of the cycle first, after at most one edge from outside it. */
  lemma NamedRound(g: AgentGraph, c: seq<string>, entry: seq<EdgeContract>) returns (h: AgentGraph)
    requires InIdOrder(g.edges) && SimpleCycle(g.Links(), c)
    requires |entry| <= 1 && forall e :: e in entry ==> e in g.edges && e.fromNode !in c
    ensures Renamed(g, h) && Rounds(h, c) && |entry| < |h.edges|
    ensures h.edges[|entry|].fromNode == c[0]
    ensures entry != [] ==> h.edges[0].fromNode == entry[0].fromNode && h.edges[0].toNode == entry[0].toNode
  {
    hide AgentGraph.Links, Renamed, Rounds, InIdOrder;
    var ce := CycleEdges(g, c);
    var block := entry + ce;
    forall i, j | 0 <= i < j < |block|
      ensures block[i] != block[j]
    {
      if i < |entry| {
        assert entry[i] in entry && c[j - |entry|] in c;
      }
    }
    h := NamedFirst(g, block);
    forall i | |entry| <= i < |block|
      ensures h.edges[i].fromNode == c[i - |entry|] && h.edges[i].toNode == c[i - |entry| + 1]
    {
      assert block[i] == ce[i - |entry|];
    }
    forall i | 0 <= i < |entry|
      ensures h.edges[i].fromNode !in c
    {
      assert block[i] == entry[i] && entry[i] in entry;
    }
    RoundsListed(h, c, |entry|);
  }

  /** A cycle through END, entered from outside, is rejected if that edge comes first and then
      those of the cycle, from END on. */
  lemma EntryRejects(g: AgentGraph, c: seq<string>, e: EdgeContract) returns (h: AgentGraph)
    requires InIdOrder(g.edges) && SimpleCycle(g.Links(), c) && c[0] == END && !g.Retryable(END)
    requires e in g.edges && e.toNode == END && e.fromNode !in c
    ensures Renamed(g, h) && SearchFrom(h, h.edges, {}).Some?
  {
    h := NamedRound(g, c, [e]);
    RenamedSame(g, h);
    var f := h.edges[0];
    FirstOutgoing(h.edges, f.fromNode, 0);
    SearchStep(h, h.edges, 0, {});
    assert h.edges[0..] == h.edges;
    assert h.Retryable(END) == g.Retryable(END) && c[0] in c;
    hide Scan, Visit, Rounds, SimpleCycle, AgentGraph.Retryable, AgentGraph.Links, Endpoints, Outgoing, CycleFound, SearchFrom, Renamed;
    EntryVisit(h, c, f);
  }

  lemma EntryVisit(h: AgentGraph, c: seq<string>, e: EdgeContract)
    requires SimpleCycle(h.Links(), c) && Rounds(h, c) && c[0] == END && END in c && !h.Retryable(END)
    requires e in h.edges && e.toNode == END && e.fromNode !in c && e.fromNode in Endpoints(h.Links())
    requires Outgoing(h.edges, e.fromNode) != [] && Outgoing(h.edges, e.fromNode)[0] == e
    ensures Visit(h, e.fromNode, [e.fromNode], [], {}).error.Some?
  {
    assert |c| >= 2;
    hide Scan, Visit, Rounds, SimpleCycle, AgentGraph.Retryable, AgentGraph.Links, Endpoints, Outgoing, CycleFound;
    RoundStep(h, c, 0);
    var u := e.fromNode;
    var out := Outgoing(h.edges, u);
    VisitScans(h, u, [u], [], {});
    ScanStep(h, out, 0, [u], [], {} + {u});
    assert out[0..] == out;
    assert END in [u] + [END];
    RoundRejects(h, c, 0, [u] + [END], [] + [e], {} + {u});
  }

  lemma NotToleratedRejected(g: AgentGraph) returns (h: AgentGraph)
    requires InIdOrder(g.edges) && !AllTolerated(g)
    ensures Renamed(g, h) && Checked(h).Some?
  {
    hide LoopAllowed, SearchFrom, BadLoop, AgentGraph.Retryable, IsCycle;
    h := g;
    BadLoopExactly(g, g.edges);
    if forall e :: e in g.edges ==> LoopAllowed(g, e) {
      var c :| SimpleCycle(g.Links(), c) && !Tolerated(g, c);
      if n :| n in c && n != END && !g.Retryable(n) {
        var k := PositionOn(g.Links(), c, n);
        var r := RotatedSimple(g.Links(), c, k);
        h := StartRejects(g, r);
      } else {
        var n :| (n, END) in g.Links() && n !in c;
        var e :| e in g.edges && e.fromNode == n && e.toNode == END;
        var k := PositionOn(g.Links(), c, END);
        var r := RotatedSimple(g.Links(), c, k);
        h := EntryRejects(g, r, e);
      }
    } else {
      assert SameButIds(g.edges, g.edges);
    }
  }

  /** The check accepts a graph whatever ids its edges have if and only if self-loops are allowed
      and every simple cycle is tolerated. */
  lemma AcceptedUnderAllIds(g: AgentGraph)
    requires InIdOrder(g.edges)
    ensures (forall h :: Renamed(g, h) ==> Checked(h).None?) <==> AllTolerated(g)
  {
    hide AllTolerated, Checked, Renamed, InIdOrder;
    if AllTolerated(g) {
      forall h | Renamed(g, h)
        ensures Checked(h).None?
      {
        RenamedSame(g, h);
        ToleratedAccepted(h);
      }
    } else {
      var h := NotToleratedRejected(g);
    }
  }

  // ----- the ids matter

  lemma {:induction false} ScanQuiet(g: AgentGraph, out: seq<EdgeContract>, path: seq<string>, edgePath: seq<EdgeContract>, visited: set<string>)
    requires |path| == |edgePath| + 1 && forall e :: e in out ==> e in g.edges
    requires forall e :: e in out ==> e.toNode in visited && (e.toNode in path ==> g.Retryable(e.toNode))
    ensures Scan(g, out, path, edgePath, visited) == Search(visited, None)
    decreases |out|
  {
    hide Visit, Outgoing, CycleFound, Endpoints, AgentGraph.Retryable, AgentGraph.Links;
    if out != [] {
      ScanQuiet(g, out[1..], path, edgePath, visited);
    }
  }

  /** A node from which every edge leads to a visited one, off the path or retryable, is left at once. */
  lemma VisitQuiet(g: AgentGraph, n: string, path: seq<string>, edgePath: seq<EdgeContract>, visited: set<string>)
    requires n !in visited && n in Endpoints(g.Links()) && |path| == |edgePath| + 1
    requires forall e :: e in g.edges && e.fromNode == n ==> e.toNode in visited && (e.toNode in path ==> g.Retryable(e.toNode))
    ensures Visit(g, n, path, edgePath, visited) == Search(visited + {n}, None)
  {
    hide Visit, Scan, Endpoints, AgentGraph.Retryable, AgentGraph.Links;
    VisitScans(g, n, path, edgePath, visited);
    ScanQuiet(g, Outgoing(g.edges, n), path, edgePath, visited + {n});
  }

  lemma {:induction false} SearchQuiet(g: AgentGraph, es: seq<EdgeContract>, visited: set<string>)
    requires forall e :: e in es ==> e in g.edges && e.fromNode in visited
    ensures SearchFrom(g, es, visited) == None
    decreases |es|
  {
    hide Visit, Endpoints, AgentGraph.Links;
    if es != [] {
      SearchQuiet(g, es[1..], visited);
    }
  }

  /** Two nodes retry one another, only the first of them retryable, and the first leads to END.
      The edges are listed in this order. */
  ghost predicate Mixed(g: AgentGraph, a: string, b: string, out: EdgeContract, back: EdgeContract, last: EdgeContract) {
    && a != b && a != END && b != END && g.Retryable(a) && !g.Retryable(b) && g.edges == [out, back, last]
    && out.fromNode == a && out.toNode == b && back.fromNode == b && back.toNode == a && last.fromNode == a && last.toNode == END
  }

  lemma MixedLoops(g: AgentGraph, a: string, b: string, out: EdgeContract, back: EdgeContract, last: EdgeContract)
    requires Mixed(g, a, b, out, back, last)
    ensures BadLoop(g, g.edges).None?
  {
    hide BadLoop;
    BadLoopExactly(g, g.edges);
  }

  lemma ThreeEdges(g: AgentGraph, e: EdgeContract, f: EdgeContract, h: EdgeContract)
    requires g.edges == [e, f, h]
    ensures g.Links() == {(e.fromNode, e.toNode), (f.fromNode, f.toNode), (h.fromNode, h.toNode)}
  {
    assert forall x :: x in g.edges <==> x == e || x == f || x == h;
  }

  lemma OutOfThree(edges: seq<EdgeContract>, n: string)
    requires |edges| == 3 && edges[0].fromNode == n && edges[1].fromNode != n && edges[2].fromNode == n
    ensures Outgoing(edges, n) == [edges[0], edges[2]]
  {
    assert edges[1..][1..] == [edges[2]] && [edges[2]][1..] == [];
    assert Outgoing([edges[2]], n) == [edges[2]];
  }

  lemma MixedLinks(g: AgentGraph, a: string, b: string, out: EdgeContract, back: EdgeContract, last: EdgeContract)
    requires Mixed(g, a, b, out, back, last)
    ensures a in Endpoints(g.Links()) && b in Endpoints(g.Links()) && END in Endpoints(g.Links())
    ensures g.Links() == {(a, b), (b, a), (a, END)}
    ensures out in g.edges && back in g.edges && last in g.edges && last.toNode == END
    ensures Outgoing(g.edges, a) == [out, last]
    ensures BadLoop(g, g.edges).None?
  {
    hide LoopAllowed, BadLoop, Outgoing, Endpoints, AgentGraph.Links;
    EdgeLinks(g, out);
    EdgeLinks(g, last);
    MixedLoops(g, a, b, out, back, last);
    ThreeEdges(g, out, back, last);
    OutOfThree(g.edges, a);
  }

  /** The search starts at the retryable node and only comes back to it. */
  lemma MixedAccepted(g: AgentGraph, a: string, b: string, out: EdgeContract, back: EdgeContract, last: EdgeContract)
    requires Mixed(g, a, b, out, back, last)
    ensures Checked(g).None?
  {
    hide Visit, Scan, Outgoing, SearchFrom, BadLoop, Endpoints, AgentGraph.Links, AgentGraph.Retryable, CycleFound;
    MixedLinks(g, a, b, out, back, last);
    var outs := [out, last];
    VisitScans(g, a, [a], [], {});
    ScanStep(g, outs, 0, [a], [], {} + {a});
    VisitQuiet(g, b, [a] + [b], [] + [out], {} + {a});
    ScanStep(g, outs, 1, [a], [], {} + {a} + {b});
    VisitQuiet(g, END, [a] + [END], [] + [last], {} + {a} + {b});
    ScanEnds(g, outs, [a], [], {} + {a} + {b} + {END});
    SearchStep(g, g.edges, 0, {});
    SearchQuiet(g, g.edges[1..], {} + {a} + {b} + {END});
    assert g.edges[0..] == g.edges;
  }

  lemma MixedNotTolerated(g: AgentGraph, a: string, b: string, out: EdgeContract, back: EdgeContract, last: EdgeContract)
    requires Mixed(g, a, b, out, back, last)
    ensures !AllTolerated(g)
  {
    hide AgentGraph.Links, LoopAllowed, Outgoing, Endpoints, BadLoop;
    MixedLinks(g, a, b, out, back, last);
    var c := [a, b, a];
    assert b in c && SimpleCycle(g.Links(), c);
    assert !Tolerated(g, c);
  }

  /** The ids matter: with these the check accepts the graph, with some others it does not. */
  lemma IdsMatter(g: AgentGraph, a: string, b: string, out: EdgeContract, back: EdgeContract, last: EdgeContract)
    requires InIdOrder(g.edges) && Mixed(g, a, b, out, back, last)
    ensures Checked(g).None? && exists h :: Renamed(g, h) && Checked(h).Some?
  {
    hide InIdOrder, Mixed, AllTolerated, Checked, Renamed;
    MixedAccepted(g, a, b, out, back, last);
    MixedNotTolerated(g, a, b, out, back, last);
    var h := NotToleratedRejected(g);
  }
}
