/** Read-only queries over one immutable digital twin snapshot: an adjacency index, a
    depth-bounded breadth-first path search and a capped breadth-first subgraph. */
module TwinQuery {
  import opened Results
  import opened Graphs
  import opened TwinModel

  const MAX_ALLOWED_DEPTH := 10
  const MAX_ALLOWED_NODES := 500
  const MAX_ALLOWED_EDGES := 1000

  datatype QueryError = MissingNodeId | NodeNotFound(nodeId: string) | TenantIsolation(nodeId: string)

  /** `OtherText` is any direction string the search does not recognise. */
  datatype Direction = Outbound | Inbound | Both | OtherText

  datatype PathResult = PathResult(pathFound: bool, nodeIds: seq<string>, edgeIds: seq<string>, hopCount: nat)

  datatype Subgraph = Subgraph(depth: nat, nodes: map<string, TwinNode>, edges: map<string, TwinEdge>)

  /** One entry of the path search's queue. */
  datatype Trail = Trail(nodeId: string, nodes: seq<string>, edges: seq<string>)

  function Clamp(requested: int, cap: nat): (r: nat)
    requires cap >= 1
    ensures 1 <= r <= cap
    ensures 1 <= requested <= cap ==> r == requested
    ensures requested < 1 ==> r == 1
    ensures requested > cap ==> r == cap
  {
    if requested < 1 then 1 else if requested > cap then cap else requested
  }

  function Links(edges: set<TwinEdge>): Relation {
    set e | e in edges :: (e.fromNodeId, e.toNodeId)
  }

  /** The edge with this id leads from `u` to `v`. */
  ghost predicate JoinedBy(edges: set<TwinEdge>, u: string, id: string, v: string) {
    exists e :: e in edges && e.edgeId == id && e.fromNodeId == u && e.toNodeId == v
  }

  /** `edgeIds` joins the consecutive members of `nodeIds`, none of which repeats. */
  ghost predicate SimplePath(edges: set<TwinEdge>, nodeIds: seq<string>, edgeIds: seq<string>) {
    && |nodeIds| == |edgeIds| + 1
    && (forall i :: 0 <= i < |edgeIds| ==> JoinedBy(edges, nodeIds[i], edgeIds[i], nodeIds[i + 1]))
    && (forall i, j :: 0 <= i < j < |nodeIds| ==> nodeIds[i] != nodeIds[j])
  }

  lemma SimplePathExtends(edges: set<TwinEdge>, ns: seq<string>, es: seq<string>, e: TwinEdge)
    requires SimplePath(edges, ns, es) && e in edges
    requires ns[|ns| - 1] == e.fromNodeId && e.toNodeId !in ns
    ensures SimplePath(edges, ns + [e.toNodeId], es + [e.edgeId])
  {
    var ns', es' := ns + [e.toNodeId], es + [e.edgeId];
    forall i | 0 <= i < |es'|
      ensures JoinedBy(edges, ns'[i], es'[i], ns'[i + 1])
    {
      if i < |es| {
        assert JoinedBy(edges, ns[i], es[i], ns[i + 1]);
      } else {
        assert ns'[i] == e.fromNodeId;
      }
    }
  }

  lemma SimplePathWalks(edges: set<TwinEdge>, ns: seq<string>, es: seq<string>)
    requires SimplePath(edges, ns, es)
    ensures Joins(Links(edges), ns, ns[0], ns[|ns| - 1])
  {
    forall i | 0 <= i < |ns| - 1
      ensures (ns[i], ns[i + 1]) in Links(edges)
    {
      assert JoinedBy(edges, ns[i], es[i], ns[i + 1]);
    }
  }

  ghost function Hops(queue: seq<Trail>): Queue {
    seq(|queue|, i requires 0 <= i < |queue| => Found(queue[i].nodeId, |queue[i].edges|))
  }

  /** Each queued trail is a simple path from the source through found nodes. */
  ghost predicate Trails(edges: set<TwinEdge>, s: string, queue: seq<Trail>, level: map<string, nat>) {
    forall q :: q in queue ==> IsTrail(edges, s, q) && forall n :: n in q.nodes ==> n in level
  }

  ghost predicate IsTrail(edges: set<TwinEdge>, s: string, q: Trail) {
    && |q.nodes| == |q.edges| + 1 && SimplePath(edges, q.nodes, q.edges)
    && q.nodes[0] == s && q.nodes[|q.edges|] == q.nodeId
  }

  function Along(q: Trail, e: TwinEdge): Trail {
    Trail(e.toNodeId, q.nodes + [e.toNodeId], q.edges + [e.edgeId])
  }

  lemma TrailExtends(edges: set<TwinEdge>, s: string, q: Trail, e: TwinEdge)
    requires IsTrail(edges, s, q) && e in edges && e.fromNodeId == q.nodeId && e.toNodeId !in q.nodes
    ensures IsTrail(edges, s, Along(q, e))
  {
    SimplePathExtends(edges, q.nodes, q.edges, e);
  }

  /** The complete account of a path search between two node ids. */
  ghost predicate AnswersPath(edges: set<TwinEdge>, s: string, t: string, depth: nat, r: PathResult) {
    && (r.pathFound <==> ReachesWithin(Links(edges), s, t, depth))
    && (r.pathFound ==>
          && SimplePath(edges, r.nodeIds, r.edgeIds)
          && r.nodeIds[0] == s && r.nodeIds[|r.edgeIds|] == t
          && r.hopCount == |r.edgeIds| <= depth
          && (forall w :: Joins(Links(edges), w, s, t) ==> r.hopCount <= |w| - 1))
    && (!r.pathFound ==> r == PathResult(false, [], [], 0))
  }

  function Listed(index: map<string, seq<TwinEdge>>, n: string): seq<TwinEdge> {
    if n in index then index[n] else []
  }

  function Filed(index: map<string, seq<TwinEdge>>, n: string, edge: TwinEdge): map<string, seq<TwinEdge>> {
    index[n := Listed(index, n) + [edge]]
  }

  /** The index lists exactly these edges, each under its source (`outward`) or target. */
  ghost predicate Indexes(index: map<string, seq<TwinEdge>>, edges: set<TwinEdge>, outward: bool) {
    forall n, e :: e in Listed(index, n) <==> e in edges && n == (if outward then e.fromNodeId else e.toNodeId)
  }

  lemma FiledIndexes(index: map<string, seq<TwinEdge>>, edges: set<TwinEdge>, outward: bool, edge: TwinEdge)
    requires Indexes(index, edges, outward)
    ensures Indexes(Filed(index, if outward then edge.fromNodeId else edge.toNodeId, edge), edges + {edge}, outward)
  {
    var n := if outward then edge.fromNodeId else edge.toNodeId;
    var index' := Filed(index, n, edge);
    forall m, e
      ensures e in Listed(index', m) <==> e in edges + {edge} && m == (if outward then e.fromNodeId else e.toNodeId)
    {
      if m != n {
        assert Listed(index', m) == Listed(index, m);
      }
    }
  }

  predicate Incident(e: TwinEdge, dir: Direction, u: string) {
    (dir in {Outbound, Both} && e.fromNodeId == u) || (dir in {Inbound, Both} && e.toNodeId == u)
  }

  function FarEnd(e: TwinEdge, u: string): string {
    if e.fromNodeId == u then e.toNodeId else e.fromNodeId
  }

  /** The hops a subgraph search may make along these edges, to registered nodes only. */
  ghost function Steps(edges: set<TwinEdge>, registered: set<string>, dir: Direction): Relation {
    (set e | e in edges && dir in {Outbound, Both} && e.toNodeId in registered :: (e.fromNodeId, e.toNodeId))
    + (set e | e in edges && dir in {Inbound, Both} && e.fromNodeId in registered :: (e.toNodeId, e.fromNodeId))
  }

  ghost predicate UniqueIds(edges: set<TwinEdge>) {
    forall e, f :: e in edges && f in edges && e.edgeId == f.edgeId ==> e == f
  }

  /** Every found node is within its level of the root, along these edges. */
  ghost predicate Rooted(edges: set<TwinEdge>, registered: set<string>, dir: Direction, root: string, level: map<string, nat>) {
    forall v :: v in level ==> ReachesWithin(Steps(edges, registered, dir), root, v, level[v])
  }

  /** Collected edges are the snapshot's own, each incident to a node found above the cut-off. */
  ghost predicate Gathered(
    edges: set<TwinEdge>, dir: Direction, depth: nat, level: map<string, nat>, got: map<string, TwinEdge>)
  {
    forall id :: id in got ==>
                   && got[id] in edges && got[id].edgeId == id
                   && exists u :: u in level && level[u] < depth && Incident(got[id], dir, u)
  }

  ghost predicate Grounded(
    edges: set<TwinEdge>, registered: set<string>, dir: Direction, root: string, depth: nat,
    level: map<string, nat>, got: map<string, TwinEdge>)
  {
    && (forall v :: v in level ==> level[v] <= depth)
    && Rooted(edges, registered, dir, root, level)
    && (UniqueIds(edges) ==> Rooted(got.Values, registered, dir, root, level))
    && Gathered(edges, dir, depth, level, got)
  }

  /** These edges of node `n` have been collected and their far ends found. */
  ghost predicate Scanned(
    cs: seq<TwinEdge>, n: string, registered: set<string>, found: set<string>, got: map<string, TwinEdge>)
  {
    forall j :: 0 <= j < |cs| ==> cs[j].edgeId in got && (FarEnd(cs[j], n) in registered ==> FarEnd(cs[j], n) in found)
  }

  /** Found nodes carry the snapshot's contracts. */
  ghost predicate Copied(snapshot: Snapshot, root: string, rootNode: TwinNode, nodes: map<string, TwinNode>) {
    && root in nodes && nodes[root] == rootNode
    && forall v :: v in nodes && v != root ==> v in snapshot.nodes && nodes[v] == snapshot.nodes[v]
  }

  ghost predicate Levelled(q: Queue, level: map<string, nat>) {
    forall i :: 0 <= i < |q| ==> q[i].node in level && level[q[i].node] == q[i].level
  }

  /** The state of a subgraph search. A node is visited exactly when it is collected. */
  datatype Search = Search(queue: Queue, nodes: map<string, TwinNode>, edges: map<string, TwinEdge>)

  /** What the request fixes for the whole search. */
  datatype Request = Request(snapshot: Snapshot, dir: Direction, root: string, rootNode: TwinNode, depth: nat, nodeCap: nat, edgeCap: nat)
  {
    ghost function Edges(): set<TwinEdge> {
      snapshot.edges.Values
    }

    ghost function Registered(): set<string> {
      snapshot.nodes.Keys
    }

    ghost function Rel(): Relation {
      Steps(Edges(), Registered(), dir)
    }
  }

  function WithEdge(st: Search, edge: TwinEdge): Search {
    st.(edges := st.edges[edge.edgeId := edge])
  }

  function WithNode(rq: Request, st: Search, v: string, h: nat): Search
    requires v in rq.snapshot.nodes
  {
    st.(nodes := st.nodes[v := rq.snapshot.nodes[v]], queue := st.queue + [Found(v, h)])
  }

  ghost predicate Sound(rq: Request, st: Search, level: map<string, nat>) {
    && level.Keys == st.nodes.Keys
    && |st.nodes| <= rq.nodeCap && |st.edges| <= rq.edgeCap
    && Copied(rq.snapshot, rq.root, rq.rootNode, st.nodes)
    && Levelled(st.queue, level)
    && Grounded(rq.Edges(), rq.Registered(), rq.dir, rq.root, rq.depth, level, st.edges)
  }

  /** A search only adds to what it has collected, and enqueues only what it adds. */
  ghost predicate Grew(rq: Request, st0: Search, st: Search) {
    && st0.nodes.Keys <= st.nodes.Keys <= st0.nodes.Keys + rq.Registered()
    && st0.edges.Keys <= st.edges.Keys
    && |st0.nodes| <= |st.nodes| && |st0.edges| <= |st.edges|
    && (st.nodes.Keys == st0.nodes.Keys ==> st.queue == st0.queue)
  }

  lemma GrewNone(rq: Request, st: Search)
    ensures Grew(rq, st, st)
  {
  }

  lemma GrewFull(rq: Request, st0: Search, st: Search, level: map<string, nat>)
    requires Sound(rq, st, level) && Grew(rq, st0, st)
    requires Full(rq, st0) || |st.edges| >= rq.edgeCap || |st.nodes| >= rq.nodeCap
    ensures Full(rq, st)
  {
  }

  lemma GrewByEdge(rq: Request, st0: Search, st: Search, edge: TwinEdge)
    requires Grew(rq, st0, st)
    ensures Grew(rq, st0, WithEdge(st, edge))
  {
  }

  lemma GrewByNode(rq: Request, st0: Search, st: Search, v: string, h: nat)
    requires Grew(rq, st0, st) && v !in st.nodes && v in rq.snapshot.nodes
    ensures Grew(rq, st0, WithNode(rq, st, v, h))
  {
  }

  ghost predicate Full(rq: Request, st: Search) {
    |st.nodes| == rq.nodeCap || |st.edges| == rq.edgeCap
  }

  /** All edges incident to expanded nodes have been collected. */
  ghost predicate Complete(edges: set<TwinEdge>, dir: Direction, done: set<string>, got: map<string, TwinEdge>) {
    forall e, u :: e in edges && u in done && Incident(e, dir, u) ==> e.edgeId in got
  }

  /** The part of a subgraph answer that holds whether or not a cap was reached. */
  ghost predicate SoundSubgraph(
    edges: set<TwinEdge>, registered: set<string>, dir: Direction, root: string, depth: nat, sub: Subgraph)
  {
    && (forall v :: v in sub.nodes ==> ReachesWithin(Steps(edges, registered, dir), root, v, depth))
    && (UniqueIds(edges) ==>
          forall v :: v in sub.nodes ==> ReachesWithin(Steps(sub.edges.Values, registered, dir), root, v, depth))
    && (forall id :: id in sub.edges ==>
                       && sub.edges[id] in edges && sub.edges[id].edgeId == id
                       && exists u :: ReachesWithin(Steps(edges, registered, dir), root, u, depth - 1)
                                      && Incident(sub.edges[id], dir, u))
  }

  /** The answer leaves out no node within `depth` hops and no edge incident to a node
      within `depth - 1` hops. */
  ghost predicate FullSubgraph(
    edges: set<TwinEdge>, registered: set<string>, dir: Direction, root: string, depth: nat, sub: Subgraph)
  {
    && (forall v :: ReachesWithin(Steps(edges, registered, dir), root, v, depth) ==> v in sub.nodes)
    && (forall e, u :: e in edges && Incident(e, dir, u)
                       && ReachesWithin(Steps(edges, registered, dir), root, u, depth - 1)
                       ==> e.edgeId in sub.edges)
  }

  class DigitalTwinQueryService {
    const snapshot: Snapshot
    var outboundEdges: map<string, seq<TwinEdge>>
    var inboundEdges: map<string, seq<TwinEdge>>

    /** The two indices hold exactly the snapshot's edges, under their two endpoints. */
    ghost predicate Valid()
      reads this
    {
      Indexes(outboundEdges, snapshot.edges.Values, true) && Indexes(inboundEdges, snapshot.edges.Values, false)
    }

    constructor (snapshot: Snapshot)
      ensures Valid() && this.snapshot == snapshot
    {
      this.snapshot := snapshot;
      this.outboundEdges := map[];
      this.inboundEdges := map[];
      new;
      var keys := snapshot.edges.Keys;
      ghost var indexed: set<TwinEdge> := {};
      while keys != {}
        invariant keys <= snapshot.edges.Keys
        invariant forall k :: k in snapshot.edges && k !in keys ==> snapshot.edges[k] in indexed
        invariant indexed <= snapshot.edges.Values
        invariant Indexes(outboundEdges, indexed, true) && Indexes(inboundEdges, indexed, false)
        decreases keys
      {
        hide Indexes;
        var k :| k in keys;
        var edge := snapshot.edges[k];
        FiledIndexes(outboundEdges, indexed, true, edge);
        FiledIndexes(inboundEdges, indexed, false, edge);
        outboundEdges := Filed(outboundEdges, edge.fromNodeId, edge);
        inboundEdges := Filed(inboundEdges, edge.toNodeId, edge);
        keys := keys - {k};
        indexed := indexed + {edge};
      }
      assert indexed == snapshot.edges.Values;
    }

    function GetNode(nodeId: string): (r: Result<TwinNode, QueryError>)
      ensures r.Ok? <==> nodeId != "" && nodeId in snapshot.nodes
                         && snapshot.nodes[nodeId].organizationId == snapshot.organizationId
      ensures r.Ok? ==> r.value == snapshot.nodes[nodeId]
    {
      if nodeId == "" then Err(MissingNodeId)
      else if nodeId !in snapshot.nodes then Err(NodeNotFound(nodeId))
      else if snapshot.nodes[nodeId].organizationId != snapshot.organizationId then Err(TenantIsolation(nodeId))
      else Ok(snapshot.nodes[nodeId])
    }

    method FindPath(sourceId: string, targetId: string, maxDepth: int) returns (r: Result<PathResult, QueryError>)
      requires Valid()
      ensures r.Err? <==> GetNode(sourceId).Err? || GetNode(targetId).Err?
      ensures r.Err? ==> r.error == if GetNode(sourceId).Err? then GetNode(sourceId).error else GetNode(targetId).error
      ensures r.Ok? ==>
                var s, t := snapshot.nodes[sourceId].nodeId, snapshot.nodes[targetId].nodeId;
                if s == t then r.value == PathResult(true, [sourceId], [], 0)
                else AnswersPath(snapshot.edges.Values, s, t, Clamp(maxDepth, MAX_ALLOWED_DEPTH), r.value)
    {
      hide AnswersPath, Frontier, Growing, IsTrail, Trails, Hops, Indexes, Links, Endpoints;
      var depth := Clamp(maxDepth, MAX_ALLOWED_DEPTH);
      var source :- GetNode(sourceId);
      var target :- GetNode(targetId);
      var s, t := source.nodeId, target.nodeId;
      if s == t {
        return Ok(PathResult(true, [sourceId], [], 0));
      }
      ghost var edges := snapshot.edges.Values;
      ghost var rel := Links(edges);
      ghost var universe := Endpoints(rel) + {s};
      var queue := [Trail(s, [s], [])];
      var visited := {s};
      ghost var level: map<string, nat> := map[s := 0];
      ghost var done: set<string> := {};
      SearchStarts(edges, s, depth);
      while queue != []
        invariant visited == level.Keys <= universe && t !in visited
        invariant Frontier(rel, s, depth, Hops(queue), level, done)
        invariant Trails(edges, s, queue, level)
        decreases universe - visited, |queue|
      {
        var curr := queue[0];
        ghost var before, rest := queue, queue[1..];
        queue := queue[1..];
        ghost var level0 := level;
        TrailsPop(edges, s, before, level);
        FrontierHead(rel, s, depth, Hops(before), level, done);
        if |curr.nodes| - 1 < depth {
          var out := Listed(outboundEdges, curr.nodeId);
          ListedOut(outboundEdges, edges, curr.nodeId);
          for i := 0 to |out|
            invariant visited == level.Keys <= universe && t !in visited
            invariant level0.Keys <= level.Keys && (level.Keys == level0.Keys ==> queue == rest)
            invariant Growing(|curr.edges|, Hops(rest), Hops(queue), level0, level)
            invariant Trails(edges, s, queue, level)
            invariant forall j :: 0 <= j < i ==> out[j].toNodeId in visited
          {
            var edge := out[i];
            var next := edge.toNodeId;
            if next == t {
              FoundIsShortest(edges, s, t, depth, before, level0, done, edge);
              return Ok(PathResult(true, curr.nodes + [next], curr.edges + [edge.edgeId], |curr.edges| + 1));
            }
            if next !in visited {
              TrailsPush(edges, s, queue, level, curr, edge);
              GrowsByOne(|curr.edges|, Hops(rest), Hops(queue), level0, level, next);
              visited := visited + {next};
              level := level[next := |curr.edges| + 1];
              queue := queue + [Trail(next, curr.nodes + [next], curr.edges + [edge.edgeId])];
            }
          }
          FrontierAdvances(rel, s, depth, Hops(before), Hops(queue), level0, level, done);
          done := done + {curr.nodeId};
        }
      }
      ExhaustedMeansNone(edges, s, t, depth, level, done);
      r := Ok(PathResult(false, [], [], 0));
    }

    method GetSubgraph(rootId: string, maxDepth: int, maxNodes: int, maxEdges: int, dir: Direction)
      returns (r: Result<Subgraph, QueryError>)
      requires Valid()
      ensures r.Err? <==> GetNode(rootId).Err?
      ensures r.Err? ==> r.error == GetNode(rootId).error
      ensures r.Ok? ==>
                var root := snapshot.nodes[rootId].nodeId;
                var sub := r.value;
                && sub.depth == Clamp(maxDepth, MAX_ALLOWED_DEPTH)
                && |sub.nodes| <= Clamp(maxNodes, MAX_ALLOWED_NODES) && |sub.edges| <= Clamp(maxEdges, MAX_ALLOWED_EDGES)
                && Copied(snapshot, root, snapshot.nodes[rootId], sub.nodes)
                && SoundSubgraph(snapshot.edges.Values, snapshot.nodes.Keys, dir, root, sub.depth, sub)
                && (|sub.nodes| < Clamp(maxNodes, MAX_ALLOWED_NODES) && |sub.edges| < Clamp(maxEdges, MAX_ALLOWED_EDGES)
                    ==> FullSubgraph(snapshot.edges.Values, snapshot.nodes.Keys, dir, root, sub.depth, sub))
    {
      hide Frontier, Indexes, Complete, SoundSubgraph, FullSubgraph, Sound;
      var depth := Clamp(maxDepth, MAX_ALLOWED_DEPTH);
      var rootNode :- GetNode(rootId);
      var root := rootNode.nodeId;
      var rq := Request(snapshot, dir, root, rootNode, depth,
                        Clamp(maxNodes, MAX_ALLOWED_NODES), Clamp(maxEdges, MAX_ALLOWED_EDGES));
      var st := Search([Found(root, 0)], map[root := rootNode], map[]);
      ghost var level: map<string, nat> := map[root := 0];
      ghost var done: set<string> := {};
      ghost var capped := false;
      ghost var universe := snapshot.nodes.Keys + {root};
      SubgraphStarts(rq);
      while st.queue != []
        invariant st.nodes.Keys <= universe
        invariant Sound(rq, st, level)
        invariant capped ==> Full(rq, st)
        invariant !capped ==> Frontier(rq.Rel(), root, depth, st.queue, level, done) && Complete(rq.Edges(), dir, done, st.edges)
        decreases universe - st.nodes.Keys, |st.queue|
      {
        var curr := st.queue[0];
        ghost var before := st;
        QueuePop(rq, st, level);
        st := st.(queue := st.queue[1..]);
        if !capped {
          FrontierHead(rq.Rel(), root, depth, before.queue, level, done);
        }
        if curr.level < depth {
          var candidates := (if dir in {Outbound, Both} then Listed(outboundEdges, curr.node) else [])
                            + (if dir in {Inbound, Both} then Listed(inboundEdges, curr.node) else []);
          CandidatesIncident(outboundEdges, inboundEdges, rq.Edges(), dir, curr.node, candidates);
          ghost var level0, hit := level, capped;
          st, level, hit := ScanCandidates(rq, curr, candidates, st, level);
          if !capped && !hit {
            SubgraphAdvances(rq, before, st, level0, level, done, candidates);
          }
          capped := capped || hit;
          done := done + {curr.node};
        }
      }
      r := Ok(Subgraph(depth, st.nodes, st.edges));
      SubgraphIsSound(rq, st, level);
      if !capped {
        SubgraphIsFull(rq, st, level, done);
      }
    }
  }

  /** While one node is scanned, its queue grows as a breadth-first queue should. */
  ghost predicate Widens(h: nat, st0: Search, st: Search, level0: map<string, nat>, level: map<string, nat>) {
    Growing(h, st0.queue, st0.queue, level0, level0) ==> Growing(h, st0.queue, st.queue, level0, level)
  }

  lemma EdgeStep(rq: Request, st0: Search, st: Search, level0: map<string, nat>, level: map<string, nat>, edge: TwinEdge, curr: Found)
    requires Sound(rq, st, level) && Grew(rq, st0, st) && |st.edges| < rq.edgeCap
    requires edge in rq.Edges() && Incident(edge, rq.dir, curr.node)
    requires curr.node in level && level[curr.node] == curr.level < rq.depth
    requires Widens(curr.level, st0, st, level0, level)
    ensures Sound(rq, WithEdge(st, edge), level) && Grew(rq, st0, WithEdge(st, edge)) && Widens(curr.level, st0, WithEdge(st, edge), level0, level)
  {
    EdgeCollected(rq, st, level, edge, curr.node);
    GrewByEdge(rq, st0, st, edge);
    hide Sound, Growing, Incident, Grew;
  }

  lemma NodeStep(
    rq: Request, st0: Search, st: Search, level0: map<string, nat>, level: map<string, nat>, edge: TwinEdge, u: string, v: string, h: nat)
    requires Sound(rq, st, level) && Grew(rq, st0, st) && |st.nodes| < rq.nodeCap
    requires edge in rq.Edges() && Incident(edge, rq.dir, u) && edge.edgeId in st.edges && st.edges[edge.edgeId] == edge
    requires u in level && level[u] == h < rq.depth
    requires v == FarEnd(edge, u) && v in rq.snapshot.nodes && v !in st.nodes
    requires Widens(h, st0, st, level0, level)
    ensures Sound(rq, WithNode(rq, st, v, h + 1), level[v := h + 1])
    ensures Grew(rq, st0, WithNode(rq, st, v, h + 1)) && Widens(h, st0, WithNode(rq, st, v, h + 1), level0, level[v := h + 1])
  {
    hide Sound, Growing, Incident, Grew, FarEnd, Request.Edges, Widens, WithNode;
    SoundBounds(rq, st, level);
    NodeCollected(rq, st, level, edge, u, v, h);
    GrewByNode(rq, st0, st, v, h + 1);
    WidensByNode(rq, h, st0, st, level0, level, v);
  }

  lemma WidensByNode(rq: Request, h: nat, st0: Search, st: Search, level0: map<string, nat>, level: map<string, nat>, v: string)
    requires Widens(h, st0, st, level0, level) && v !in level && v in rq.snapshot.nodes
    ensures Widens(h, st0, WithNode(rq, st, v, h + 1), level0, level[v := h + 1])
  {
    hide Growing;
    if Growing(h, st0.queue, st.queue, level0, level) {
      GrowsByOne(h, st0.queue, st.queue, level0, level, v);
    }
  }

  lemma WidensNone(h: nat, st: Search, level: map<string, nat>)
    ensures Widens(h, st, st, level, level)
  {
  }

  lemma Widened(h: nat, st0: Search, st: Search, level0: map<string, nat>, level: map<string, nat>)
    requires Widens(h, st0, st, level0, level) && Growing(h, st0.queue, st0.queue, level0, level0)
    ensures Growing(h, st0.queue, st.queue, level0, level)
  {
  }

  /** Collects one candidate edge, and its far end if that is new and registered, unless a cap
      is reached first. */
  method FollowEdge(
    rq: Request, curr: Found, edge: TwinEdge, st1: Search, ghost st0: Search, ghost level0: map<string, nat>, ghost level1: map<string, nat>)
    returns (st: Search, ghost level: map<string, nat>, hit: bool)
    requires Sound(rq, st1, level1) && Grew(rq, st0, st1) && Widens(curr.level, st0, st1, level0, level1)
    requires edge in rq.Edges() && Incident(edge, rq.dir, curr.node)
    requires curr.node in level1 && level1[curr.node] == curr.level < rq.depth
    ensures Sound(rq, st, level) && Grew(rq, st0, st) && Widens(curr.level, st0, st, level0, level)
    ensures curr.node in level && level[curr.node] == curr.level
    ensures hit ==> Full(rq, st)
    ensures !hit ==>
              && st1.nodes.Keys <= st.nodes.Keys && st1.edges.Keys <= st.edges.Keys && edge.edgeId in st.edges
              && (FarEnd(edge, curr.node) in rq.Registered() ==> FarEnd(edge, curr.node) in st.nodes.Keys)
  {
    hide Sound, Incident, FarEnd, Request.Edges, Grew, Full, Widens;
    var next := FarEnd(edge, curr.node);
    st, level, hit := st1, level1, true;
    SoundBounds(rq, st, level);
    if |st.edges| >= rq.edgeCap {
      GrewFull(rq, st0, st, level);
      return;
    }
    EdgeStep(rq, st0, st, level0, level, edge, curr);
    st := WithEdge(st, edge);
    SoundBounds(rq, st, level);
    if next !in st.nodes {
      if |st.nodes| >= rq.nodeCap {
        GrewFull(rq, st0, st, level);
        return;
      }
      if next in rq.snapshot.nodes {
        NodeStep(rq, st0, st, level0, level, edge, curr.node, next, curr.level);
        st := WithNode(rq, st, next, curr.level + 1);
        level := level[next := curr.level + 1];
      }
    }
    hit := false;
  }

  /** The inner loop of the subgraph search: collects one node's candidate edges and
      enqueues the nodes they newly reach, stopping when a cap is hit. */
  method ScanCandidates(rq: Request, curr: Found, candidates: seq<TwinEdge>, st0: Search, ghost level0: map<string, nat>)
    returns (st: Search, ghost level: map<string, nat>, ghost hit: bool)
    requires Sound(rq, st0, level0) && curr.node in level0 && level0[curr.node] == curr.level < rq.depth
    requires forall i :: 0 <= i < |candidates| ==> candidates[i] in rq.Edges() && Incident(candidates[i], rq.dir, curr.node)
    ensures Sound(rq, st, level)
    ensures Grew(rq, st0, st)
    ensures Full(rq, st0) || hit ==> Full(rq, st)
    ensures !hit && Growing(curr.level, st0.queue, st0.queue, level0, level0) ==>
              && Growing(curr.level, st0.queue, st.queue, level0, level)
              && Scanned(candidates, curr.node, rq.Registered(), st.nodes.Keys, st.edges)
  {
    hide Sound, Growing, Scanned, Incident, FarEnd, Request.Edges, Request.Registered, Grew, Full, Widens;
    st, level, hit := st0, level0, false;
    GrewNone(rq, st0);
    WidensNone(curr.level, st0, level0);
    ScannedNone(candidates, curr.node, rq.Registered(), st.nodes.Keys, st.edges);
    for i := 0 to |candidates|
      invariant Sound(rq, st, level) && curr.node in level && level[curr.node] == curr.level
      invariant Grew(rq, st0, st) && Widens(curr.level, st0, st, level0, level)
      invariant !hit && Scanned(candidates[..i], curr.node, rq.Registered(), st.nodes.Keys, st.edges)
    {
      var edge := candidates[i];
      ghost var before := st;
      var full;
      st, level, full := FollowEdge(rq, curr, edge, st, st0, level0, level);
      if full {
        hit := true;
        break;
      }
      assert candidates[..i + 1] == candidates[..i] + [edge];
      ScannedOne(candidates[..i], edge, curr.node, rq.Registered(), before.nodes.Keys, st.nodes.Keys, before.edges, st.edges);
    }
    assert candidates[..|candidates|] == candidates;
    if Full(rq, st0) {
      GrewFull(rq, st0, st, level);
    }
    if !hit && Growing(curr.level, st0.queue, st0.queue, level0, level0) {
      Widened(curr.level, st0, st, level0, level);
    }
  }

  lemma SearchStarts(edges: set<TwinEdge>, s: string, depth: nat)
    ensures Frontier(Links(edges), s, depth, Hops([Trail(s, [s], [])]), map[s := 0], {})
    ensures Trails(edges, s, [Trail(s, [s], [])], map[s := 0])
  {
    FrontierStarts(Links(edges), s, depth);
    assert Hops([Trail(s, [s], [])]) == [Found(s, 0)];
  }

  lemma ListedOut(index: map<string, seq<TwinEdge>>, edges: set<TwinEdge>, n: string)
    requires Indexes(index, edges, true)
    ensures forall i :: 0 <= i < |Listed(index, n)| ==>
                          var e := Listed(index, n)[i];
                          e in edges && e.fromNodeId == n && e.toNodeId in Endpoints(Links(edges))
    ensures forall p | p in Links(edges) && p.0 == n ::
              exists i :: 0 <= i < |Listed(index, n)| && Listed(index, n)[i].toNodeId == p.1
  {
    forall i | 0 <= i < |Listed(index, n)|
      ensures var e := Listed(index, n)[i];
              e in edges && e.fromNodeId == n && e.toNodeId in Endpoints(Links(edges))
    {
      var e := Listed(index, n)[i];
      assert e in Listed(index, n);
      assert (n, e.toNodeId) in Links(edges);
    }
  }

  lemma TrailsPop(edges: set<TwinEdge>, s: string, queue: seq<Trail>, level: map<string, nat>)
    requires queue != [] && Trails(edges, s, queue, level)
    ensures IsTrail(edges, s, queue[0]) && |queue[0].nodes| == |queue[0].edges| + 1
    ensures forall n :: n in queue[0].nodes ==> n in level
    ensures Trails(edges, s, queue[1..], level)
    ensures Hops(queue) != [] && Hops(queue)[0] == Found(queue[0].nodeId, |queue[0].edges|)
    ensures Hops(queue)[1..] == Hops(queue[1..])
  {
    assert queue[0] in queue;
  }

  lemma TrailsPush(
    edges: set<TwinEdge>, s: string, queue: seq<Trail>, level: map<string, nat>, curr: Trail, edge: TwinEdge)
    requires Trails(edges, s, queue, level) && IsTrail(edges, s, curr) && forall n :: n in curr.nodes ==> n in level
    requires edge in edges && edge.fromNodeId == curr.nodeId && edge.toNodeId !in level
    ensures Trails(edges, s, queue + [Along(curr, edge)], level[edge.toNodeId := |curr.edges| + 1])
    ensures Hops(queue + [Along(curr, edge)]) == Hops(queue) + [Found(edge.toNodeId, |curr.edges| + 1)]
  {
    TrailExtends(edges, s, curr, edge);
    hide IsTrail;
  }

  /** An edge from the head of the queue to the target completes a shortest path. */
  lemma FoundIsShortest(
    edges: set<TwinEdge>, s: string, t: string, depth: nat,
    queue: seq<Trail>, level: map<string, nat>, done: set<string>, edge: TwinEdge)
    requires queue != [] && Frontier(Links(edges), s, depth, Hops(queue), level, done) && t !in level
    requires Trails(edges, s, queue, level) && |queue[0].edges| < depth
    requires edge in edges && edge.fromNodeId == queue[0].nodeId && edge.toNodeId == t
    ensures AnswersPath(edges, s, t, depth,
                        PathResult(true, queue[0].nodes + [t], queue[0].edges + [edge.edgeId], |queue[0].edges| + 1))
  {
    var curr := queue[0];
    TrailsPop(edges, s, queue, level);
    TrailExtends(edges, s, curr, edge);
    SimplePathWalks(edges, curr.nodes + [t], curr.edges + [edge.edgeId]);
    FrontierHead(Links(edges), s, depth, Hops(queue), level, done);
    ShorterWalksMiss(Links(edges), level, done, |curr.edges|, s, t);
  }

  lemma ExhaustedMeansNone(
    edges: set<TwinEdge>, s: string, t: string, depth: nat, level: map<string, nat>, done: set<string>)
    requires Frontier(Links(edges), s, depth, Hops([]), level, done) && t !in level
    ensures AnswersPath(edges, s, t, depth, PathResult(false, [], [], 0))
  {
    ShorterWalksMiss(Links(edges), level, done, depth, s, t);
  }

  lemma SubgraphStarts(rq: Request)
    requires rq.nodeCap >= 1
    ensures var st := Search([Found(rq.root, 0)], map[rq.root := rq.rootNode], map[]);
            && Sound(rq, st, map[rq.root := 0])
            && Frontier(rq.Rel(), rq.root, rq.depth, st.queue, map[rq.root := 0], {})
            && Complete(rq.Edges(), rq.dir, {}, st.edges)
  {
    var none: map<string, TwinEdge> := map[];
    FrontierStarts(rq.Rel(), rq.root, rq.depth);
    assert Joins(rq.Rel(), [rq.root], rq.root, rq.root);
    assert Joins(Steps(none.Values, rq.Registered(), rq.dir), [rq.root], rq.root, rq.root);
  }

  lemma QueuePop(rq: Request, st: Search, level: map<string, nat>)
    requires Sound(rq, st, level) && st.queue != []
    ensures Sound(rq, st.(queue := st.queue[1..]), level)
    ensures st.queue[0].node in level && level[st.queue[0].node] == st.queue[0].level
  {
    hide Grounded, Copied;
  }

  lemma SoundBounds(rq: Request, st: Search, level: map<string, nat>)
    requires Sound(rq, st, level)
    ensures level.Keys == st.nodes.Keys && |st.nodes| <= rq.nodeCap && |st.edges| <= rq.edgeCap
  {
  }

  lemma ScannedNone(cs: seq<TwinEdge>, n: string, registered: set<string>, found: set<string>, got: map<string, TwinEdge>)
    ensures Scanned(cs[..0], n, registered, found, got)
  {
  }

  lemma CandidatesIncident(
    outbound: map<string, seq<TwinEdge>>, inbound: map<string, seq<TwinEdge>>,
    edges: set<TwinEdge>, dir: Direction, n: string, candidates: seq<TwinEdge>)
    requires Indexes(outbound, edges, true) && Indexes(inbound, edges, false)
    requires candidates == (if dir in {Outbound, Both} then Listed(outbound, n) else [])
                           + (if dir in {Inbound, Both} then Listed(inbound, n) else [])
    ensures forall i :: 0 <= i < |candidates| ==> candidates[i] in edges && Incident(candidates[i], dir, n)
    ensures forall e :: e in edges && Incident(e, dir, n) ==> e in candidates
  {
    forall i | 0 <= i < |candidates|
      ensures candidates[i] in edges && Incident(candidates[i], dir, n)
    {
      assert candidates[i] in candidates;
    }
  }

  lemma ScannedOne(
    cs: seq<TwinEdge>, c: TwinEdge, n: string, registered: set<string>, found: set<string>, found': set<string>,
    got: map<string, TwinEdge>, got': map<string, TwinEdge>)
    requires Scanned(cs, n, registered, found, got) && found <= found' && got.Keys <= got'.Keys
    requires c.edgeId in got' && (FarEnd(c, n) in registered ==> FarEnd(c, n) in found')
    ensures Scanned(cs + [c], n, registered, found', got')
  {
  }

  lemma StepsMonotone(es: set<TwinEdge>, es': set<TwinEdge>, registered: set<string>, dir: Direction, s: string, t: string, hops: int)
    requires es <= es' && ReachesWithin(Steps(es, registered, dir), s, t, hops)
    ensures ReachesWithin(Steps(es', registered, dir), s, t, hops)
  {
    var w :| Joins(Steps(es, registered, dir), w, s, t) && |w| - 1 <= hops;
    assert Joins(Steps(es', registered, dir), w, s, t);
  }

  lemma RootedMonotone(
    es: set<TwinEdge>, es': set<TwinEdge>, registered: set<string>, dir: Direction, root: string, level: map<string, nat>)
    requires Rooted(es, registered, dir, root, level) && es <= es'
    ensures Rooted(es', registered, dir, root, level)
  {
    forall v | v in level
      ensures ReachesWithin(Steps(es', registered, dir), root, v, level[v])
    {
      StepsMonotone(es, es', registered, dir, root, v, level[v]);
    }
  }

  /** Collecting an edge keeps everything said of the collection. */
  lemma EdgeCollected(rq: Request, st: Search, level: map<string, nat>, edge: TwinEdge, u: string)
    requires Sound(rq, st, level) && |st.edges| < rq.edgeCap
    requires edge in rq.Edges() && Incident(edge, rq.dir, u) && u in level && level[u] < rq.depth
    ensures Sound(rq, WithEdge(st, edge), level)
  {
    var got, got' := st.edges, st.edges[edge.edgeId := edge];
    hide Rooted, Copied, Levelled;
    if UniqueIds(rq.Edges()) {
      forall f | f in got.Values
        ensures f in got'.Values
      {
        var id :| id in got && got[id] == f;
        assert got'[id] == f;
      }
      RootedMonotone(got.Values, got'.Values, rq.Registered(), rq.dir, rq.root, level);
    }
  }

  lemma NodeRooted(
    es: set<TwinEdge>, registered: set<string>, dir: Direction, root: string,
    level: map<string, nat>, edge: TwinEdge, u: string)
    requires Rooted(es, registered, dir, root, level) && u in level
    requires edge in es && Incident(edge, dir, u) && FarEnd(edge, u) in registered && FarEnd(edge, u) !in level
    ensures Rooted(es, registered, dir, root, level[FarEnd(edge, u) := level[u] + 1])
  {
    var rel, v := Steps(es, registered, dir), FarEnd(edge, u);
    assert (u, v) in rel;
    var w :| Joins(rel, w, root, u) && |w| - 1 <= level[u];
    WalkExtends(rel, w, root, u, v);
  }

  lemma GatheredMonotone(
    edges: set<TwinEdge>, dir: Direction, depth: nat, level: map<string, nat>, got: map<string, TwinEdge>, v: string, h: nat)
    requires Gathered(edges, dir, depth, level, got) && v !in level
    ensures Gathered(edges, dir, depth, level[v := h], got)
  {
    forall id | id in got
      ensures exists u :: u in level[v := h] && level[v := h][u] < depth && Incident(got[id], dir, u)
    {
      var u :| u in level && level[u] < depth && Incident(got[id], dir, u);
      assert level[v := h][u] == level[u];
    }
  }

  lemma GroundedGrows(rq: Request, level: map<string, nat>, got: map<string, TwinEdge>, edge: TwinEdge, u: string, v: string, h: nat)
    requires Grounded(rq.Edges(), rq.Registered(), rq.dir, rq.root, rq.depth, level, got)
    requires edge in rq.Edges() && edge.edgeId in got && got[edge.edgeId] == edge
    requires Incident(edge, rq.dir, u) && u in level && level[u] == h < rq.depth
    requires v == FarEnd(edge, u) && v in rq.Registered() && v !in level
    ensures Grounded(rq.Edges(), rq.Registered(), rq.dir, rq.root, rq.depth, level[v := h + 1], got)
  {
    hide Rooted, Gathered, UniqueIds, Incident, FarEnd;
    assert edge in got.Values;
    assert Rooted(rq.Edges(), rq.Registered(), rq.dir, rq.root, level[v := h + 1]) by {
      NodeRooted(rq.Edges(), rq.Registered(), rq.dir, rq.root, level, edge, u);
    }
    assert UniqueIds(rq.Edges()) ==> Rooted(got.Values, rq.Registered(), rq.dir, rq.root, level[v := h + 1]) by {
      if UniqueIds(rq.Edges()) {
        NodeRooted(got.Values, rq.Registered(), rq.dir, rq.root, level, edge, u);
      }
    }
    assert Gathered(rq.Edges(), rq.dir, rq.depth, level[v := h + 1], got) by {
      GatheredMonotone(rq.Edges(), rq.dir, rq.depth, level, got, v, h + 1);
    }
  }

  lemma OneMore<V>(m: map<string, V>, k: string, v: V)
    requires k !in m
    ensures |m[k := v]| == |m| + 1
  {
    assert m[k := v].Keys == m.Keys + {k};
    assert |m.Keys + {k}| == |m.Keys| + 1;
  }

  /** A node found across a collected edge is rooted one hop further out. */
  lemma NodeCollected(rq: Request, st: Search, level: map<string, nat>, edge: TwinEdge, u: string, v: string, h: nat)
    requires Sound(rq, st, level) && |st.nodes| < rq.nodeCap
    requires edge in rq.Edges() && edge.edgeId in st.edges && st.edges[edge.edgeId] == edge
    requires Incident(edge, rq.dir, u) && u in level && level[u] == h < rq.depth
    requires v == FarEnd(edge, u) && v in rq.snapshot.nodes && v !in st.nodes
    ensures Sound(rq, WithNode(rq, st, v, h + 1), level[v := h + 1])
  {
    hide Grounded, Copied, Levelled, Incident, FarEnd, Request.Edges;
    GroundedGrows(rq, level, st.edges, edge, u, v, h);
    NodeCopied(rq, st, level, v, h + 1);
    assert st.nodes[v := rq.snapshot.nodes[v]].Keys == st.nodes.Keys + {v};
    OneMore(st.nodes, v, rq.snapshot.nodes[v]);
  }

  lemma NodeCopied(rq: Request, st: Search, level: map<string, nat>, v: string, h: nat)
    requires Copied(rq.snapshot, rq.root, rq.rootNode, st.nodes) && Levelled(st.queue, level)
    requires v in rq.snapshot.nodes && v !in st.nodes && v !in level
    ensures Copied(rq.snapshot, rq.root, rq.rootNode, st.nodes[v := rq.snapshot.nodes[v]])
    ensures Levelled(st.queue + [Found(v, h)], level[v := h])
  {
  }

  lemma SubgraphAdvances(
    rq: Request, before: Search, st: Search, level0: map<string, nat>, level: map<string, nat>,
    done: set<string>, candidates: seq<TwinEdge>)
    requires before.queue != [] && Frontier(rq.Rel(), rq.root, rq.depth, before.queue, level0, done)
    requires Growing(before.queue[0].level, before.queue[1..], st.queue, level0, level)
    requires Complete(rq.Edges(), rq.dir, done, before.edges) && before.edges.Keys <= st.edges.Keys
    requires forall e :: e in rq.Edges() && Incident(e, rq.dir, before.queue[0].node) ==> e in candidates
    requires Scanned(candidates, before.queue[0].node, rq.Registered(), st.nodes.Keys, st.edges)
    requires Sound(rq, st, level)
    ensures Frontier(rq.Rel(), rq.root, rq.depth, st.queue, level, done + {before.queue[0].node})
    ensures Complete(rq.Edges(), rq.dir, done + {before.queue[0].node}, st.edges)
  {
    hide Grounded, Copied, Levelled, Frontier, Growing;
    var n := before.queue[0].node;
    forall p | p in rq.Rel() && p.0 == n
      ensures p.1 in level
    {
      var e :| e in rq.Edges() && Incident(e, rq.dir, n) && FarEnd(e, n) == p.1 && p.1 in rq.Registered();
      assert e in candidates;
    }
    FrontierAdvances(rq.Rel(), rq.root, rq.depth, before.queue, st.queue, level0, level, done);
  }

  lemma SubgraphIsSound(rq: Request, st: Search, level: map<string, nat>)
    requires Sound(rq, st, level)
    ensures Copied(rq.snapshot, rq.root, rq.rootNode, st.nodes) && |st.nodes| <= rq.nodeCap && |st.edges| <= rq.edgeCap
    ensures SoundSubgraph(rq.Edges(), rq.Registered(), rq.dir, rq.root, rq.depth, Subgraph(rq.depth, st.nodes, st.edges))
  {
    hide Steps, UniqueIds, Copied;
    forall id | id in st.edges
      ensures exists u :: ReachesWithin(rq.Rel(), rq.root, u, rq.depth - 1) && Incident(st.edges[id], rq.dir, u)
    {
      var u :| u in level && level[u] < rq.depth && Incident(st.edges[id], rq.dir, u);
      var w :| Joins(rq.Rel(), w, rq.root, u) && |w| - 1 <= level[u];
    }
  }

  lemma SubgraphIsFull(rq: Request, st: Search, level: map<string, nat>, done: set<string>)
    requires Sound(rq, st, level)
    requires Frontier(rq.Rel(), rq.root, rq.depth, [], level, done)
    requires Complete(rq.Edges(), rq.dir, done, st.edges)
    ensures FullSubgraph(rq.Edges(), rq.Registered(), rq.dir, rq.root, rq.depth, Subgraph(rq.depth, st.nodes, st.edges))
  {
    var rel := rq.Rel();
    hide Steps, Grounded, Copied;
    forall v | ReachesWithin(rel, rq.root, v, rq.depth)
      ensures v in st.nodes
    {
      var w :| Joins(rel, w, rq.root, v) && |w| - 1 <= rq.depth;
      WalkFollowsLevels(rel, level, done, rq.depth, w);
    }
    forall e, u | e in rq.Edges() && Incident(e, rq.dir, u) && ReachesWithin(rel, rq.root, u, rq.depth - 1)
      ensures e.edgeId in st.edges
    {
      var w :| Joins(rel, w, rq.root, u) && |w| - 1 <= rq.depth - 1;
      WalkFollowsLevels(rel, level, done, rq.depth, w);
      assert u in done;
    }
  }
}
