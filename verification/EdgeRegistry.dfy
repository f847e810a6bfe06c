/** The registry of allowlisted edges: a dictionary by id with an index by source node. */
module EdgeRegistry {
  import opened Results
  import opened AgentModel
  import opened StageTopology
  import opened GraphValidator
  import opened CycleCheck
  import opened CycleOrder
  import opened Collections
  import opened Text

  datatype RegistryError =
    | DuplicateId
    | DuplicateTransition
    | UnregisteredSource
    | UnregisteredDestination
    | BadStages(cause: TransitionError)

  predicate SameTransition(e: EdgeContract, f: EdgeContract) {
    e.fromNode == f.fromNode && e.toNode == f.toNode && e.conditionCode == f.conditionCode
  }

  function EndpointError(nodes: map<string, NodeContract>, e: EdgeContract): Option<RegistryError> {
    if !Special(e.fromNode) && e.fromNode !in nodes then Some(UnregisteredSource)
    else if !Special(e.toNode) && e.toNode !in nodes then Some(UnregisteredDestination)
    else None
  }

  /** Stages are checked only between two ordinary nodes that are both registered. */
  function StageError(nodes: map<string, NodeContract>, e: EdgeContract): Option<RegistryError> {
    if Special(e.fromNode) || Special(e.toNode) || e.fromNode !in nodes || e.toNode !in nodes then None
    else
      var cause := ValidateTransition(nodes[e.fromNode].stage, nodes[e.toNode].stage, e.edgeType == RETRY);
      if cause.Some? then Some(BadStages(cause.value)) else None
  }

  /** Whether the edge may join those registered so far. */
  function Registration(
    log: seq<EdgeContract>, nodes: map<string, NodeContract>, e: EdgeContract, checkNodes: bool, checkStages: bool)
    : Option<RegistryError>
  {
    if exists f :: f in log && f.edgeId == e.edgeId then Some(DuplicateId)
    else if exists f :: f in log && SameTransition(f, e) then Some(DuplicateTransition)
    else if checkNodes && EndpointError(nodes, e).Some? then EndpointError(nodes, e)
    else if checkStages && StageError(nodes, e).Some? then StageError(nodes, e)
    else None
  }

  /** The dictionary holds exactly the edges of the log, under their ids. */
  ghost predicate Holds(edges: map<string, EdgeContract>, log: seq<EdgeContract>) {
    && (forall e :: e in log ==> e.edgeId in edges && edges[e.edgeId] == e)
    && (forall id :: id in edges ==> edges[id] in log && edges[id].edgeId == id)
  }

  lemma HoldsMore(edges: map<string, EdgeContract>, log: seq<EdgeContract>, edge: EdgeContract)
    requires Holds(edges, log) && edge.edgeId !in edges
    ensures Holds(edges[edge.edgeId := edge], log + [edge])
  {
    assert forall e :: e in log + [edge] <==> e in log || e == edge;
  }

  lemma HeldIds(edges: map<string, EdgeContract>, log: seq<EdgeContract>, edge: EdgeContract)
    requires Holds(edges, log)
    ensures edge.edgeId in edges <==> exists f :: f in log && f.edgeId == edge.edgeId
    ensures (exists f :: f in edges.Values && SameTransition(f, edge)) <==> exists f :: f in log && SameTransition(f, edge)
  {
    hide SameTransition;
    assert forall f :: f in edges.Values <==> f in log;
  }

  class EdgeRegistry {
    var edges: map<string, EdgeContract>
    var outgoing: map<string, seq<EdgeContract>>
    ghost var log: seq<EdgeContract>  // the registered edges, oldest first

    ghost predicate Valid()
      reads this
    {
      Holds(edges, log) && forall n :: Listed(n) == Outgoing(log, n)
    }

    function Listed(n: string): seq<EdgeContract>
      reads this
    {
      if n in outgoing then outgoing[n] else []
    }

    constructor ()
      ensures Valid() && log == []
    {
      edges := map[];
      outgoing := map[];
      log := [];
    }

    method RegisterEdge(nodes: map<string, NodeContract>, edge: EdgeContract, checkNodes: bool, checkStages: bool)
      returns (r: Option<RegistryError>)
      requires Valid()
      modifies this
      ensures Valid()
      ensures r == Registration(old(log), nodes, edge, checkNodes, checkStages)
      ensures log == if r.None? then old(log) + [edge] else old(log)
    {
      hide StageError, EndpointError, Outgoing, SameTransition, Holds;
      HeldIds(edges, log, edge);
      if edge.edgeId in edges {
        return Some(DuplicateId);
      }
      if exists f :: f in edges.Values && SameTransition(f, edge) {
        return Some(DuplicateTransition);
      }
      if checkNodes {
        r := EndpointError(nodes, edge);
        if r.Some? {
          return;
        }
      }
      if checkStages {
        r := StageError(nodes, edge);
        if r.Some? {
          return;
        }
      }
      HoldsMore(edges, log, edge);
      edges := edges[edge.edgeId := edge];
      outgoing := outgoing[edge.fromNode := Listed(edge.fromNode) + [edge]];
      log := log + [edge];
      forall n
        ensures Listed(n) == Outgoing(log, n)
      {
        OutgoingAppends(old(log), edge, n);
      }
      r := None;
    }

    /** The registered edges in the order of their ids. */
    method ListEdges() returns (r: seq<EdgeContract>)
      requires Valid()
      ensures InIdOrder(r) && forall e :: e in r <==> e in log
    {
      hide Outgoing, InIdOrder, AtMost, Insert, Sort, Sorted;
      ghost var ks;
      var vs;
      ks, vs := Values(edges);
      var ids := Sort(seq(|vs|, i requires 0 <= i < |vs| => vs[i].edgeId));
      ListedIds(edges, log, ks, vs, ids);
      r := [];
      for i := 0 to |ids|
        invariant |r| == i && forall j :: 0 <= j < i ==> r[j] == edges[ids[j]]
      {
        r := r + [edges[ids[i]]];
      }
      ListedById(edges, log, ids, r);
    }

    method Clear()
      modifies this
      ensures Valid() && log == []
    {
      edges := map[];
      outgoing := map[];
      log := [];
    }
  }

  lemma {:induction false} OnceEach(s: seq<string>)
    requires forall i, j :: 0 <= i < j < |s| ==> s[i] != s[j]
    ensures forall x :: multiset(s)[x] <= 1
  {
    if s != [] {
      OnceEach(s[1..]);
      assert s == [s[0]] + s[1..];
      assert s[0] !in s[1..];
    }
  }

  /** A rearrangement of distinct strings repeats none either. */
  lemma DistinctAgain(ks: seq<string>, ids: seq<string>)
    requires multiset(ids) == multiset(ks) && forall i, j :: 0 <= i < j < |ks| ==> ks[i] != ks[j]
    ensures forall i, j :: 0 <= i < j < |ids| ==> ids[i] != ids[j]
  {
    OnceEach(ks);
    forall i, j | 0 <= i < j < |ids|
      ensures ids[i] != ids[j]
    {
      assert ids == ids[..i] + [ids[i]] + ids[i + 1..j] + [ids[j]] + ids[j + 1..];
      assert multiset(ids)[ids[i]] <= 1;
    }
  }

  lemma ListedIds(edges: map<string, EdgeContract>, log: seq<EdgeContract>, ks: seq<string>, vs: seq<EdgeContract>, ids: seq<string>)
    requires Holds(edges, log) && Lists(ks, vs, edges)
    requires ids == Sort(seq(|vs|, i requires 0 <= i < |vs| => vs[i].edgeId))
    ensures Sorted(ids) && multiset(ids) == multiset(ks)
    ensures forall id :: id in ids <==> id in edges
    ensures forall i, j :: 0 <= i < j < |ids| ==> ids[i] != ids[j]
  {
    hide AtMost, Insert, Sort, Sorted;
    SortSorts(ks);
    assert seq(|vs|, i requires 0 <= i < |vs| => vs[i].edgeId) == ks;
    assert forall id :: id in ids <==> id in multiset(ids);
    DistinctAgain(ks, ids);
  }

  lemma ListedById(edges: map<string, EdgeContract>, log: seq<EdgeContract>, ids: seq<string>, r: seq<EdgeContract>)
    requires Holds(edges, log) && Sorted(ids) && forall id :: id in ids <==> id in edges
    requires forall i, j :: 0 <= i < j < |ids| ==> ids[i] != ids[j]
    requires |r| == |ids| && forall i :: 0 <= i < |r| ==> r[i] == edges[ids[i]]
    ensures InIdOrder(r) && forall e :: e in r <==> e in log
  {
    hide AtMost;
    forall e | e in log
      ensures e in r
    {
      var i :| 0 <= i < |ids| && ids[i] == e.edgeId;
      assert r[i] == e;
    }
  }

  /** A set of edges has one listing by id, so the order is deterministic. */
  lemma {:induction false} ListingUnique(a: seq<EdgeContract>, b: seq<EdgeContract>)
    requires InIdOrder(a) && InIdOrder(b) && forall e :: e in a <==> e in b
    ensures a == b
    decreases |a|
  {
    hide AtMost;
    assert b == [] || b[0] in b;
    if a != [] {
      assert a[0] in a;
      assert b[0] in b && b[0] in a && a[0] in b;
      var i :| 0 <= i < |b| && b[i] == a[0];
      var j :| 0 <= j < |a| && a[j] == b[0];
      OrderTotal(a[0].edgeId, b[0].edgeId);
      assert i == 0 || j == 0;
      assert a == [a[0]] + a[1..] && b == [b[0]] + b[1..];
      assert a[0] !in a[1..] && b[0] !in b[1..];
      forall e
        ensures e in a[1..] <==> e in b[1..]
      {
        assert e in a[1..] <==> e in a && e != a[0];
        assert e in b[1..] <==> e in b && e != b[0];
      }
      ListingUnique(a[1..], b[1..]);
    }
  }

  lemma {:induction false} OutgoingAppends(log: seq<EdgeContract>, e: EdgeContract, n: string)
    ensures Outgoing(log + [e], n) == Outgoing(log, n) + (if e.fromNode == n then [e] else [])
  {
    if log == [] {
      assert log + [e] == [e];
    } else {
      assert (log + [e])[1..] == log[1..] + [e];
      OutgoingAppends(log[1..], e, n);
    }
  }

  lemma RegisteredIsFresh(
    log: seq<EdgeContract>, nodes: map<string, NodeContract>, e: EdgeContract, checkNodes: bool, checkStages: bool)
    requires Registration(log, nodes, e, checkNodes, checkStages).None?
    ensures forall i :: 0 <= i < |log| ==>
                          log[i].edgeId != e.edgeId
                          && (log[i].fromNode, log[i].toNode, log[i].conditionCode) != (e.fromNode, e.toNode, e.conditionCode)
  {
    forall i | 0 <= i < |log|
      ensures log[i].edgeId != e.edgeId && !SameTransition(log[i], e)
    {
      assert log[i] in log;
    }
  }

  /** The edge repeats the id of none registered, nor the ends and condition of one; its ends are
      registered, if that is checked, and the topology allows it, if that is. */
  ghost predicate MayRegister(log: seq<EdgeContract>, nodes: map<string, NodeContract>, q: Request) {
    && (forall f :: f in log ==>
                      f.edgeId != q.edge.edgeId
                      && (f.fromNode, f.toNode, f.conditionCode) != (q.edge.fromNode, q.edge.toNode, q.edge.conditionCode))
    && (q.checkNodes ==> EndpointsRegistered(AgentGraph(nodes, log), q.edge))
    && (q.checkStages && q.edge.fromNode in nodes && q.edge.toNode in nodes ==> EdgeInOrder(AgentGraph(nodes, log), q.edge))
  }

  /** A request adds its edge exactly if it may be registered. */
  lemma RunRegisters(nodes: map<string, NodeContract>, requests: seq<Request>)
    requires requests != []
    ensures var (before, last) := (RunLog(nodes, requests[..|requests| - 1]), requests[|requests| - 1]);
            RunLog(nodes, requests) == if MayRegister(before, nodes, last) then before + [last.edge] else before
  {
    hide ValidateTransition;
  }

  datatype Request = Request(edge: EdgeContract, checkNodes: bool, checkStages: bool)

  /** The edges registered by a run of requests, refused ones leaving no trace. */
  function RunLog(nodes: map<string, NodeContract>, requests: seq<Request>): seq<EdgeContract> {
    if requests == [] then []
    else
      var log := RunLog(nodes, requests[..|requests| - 1]);
      var last := requests[|requests| - 1];
      if Registration(log, nodes, last.edge, last.checkNodes, last.checkStages).None? then log + [last.edge] else log
  }

  ghost predicate AllDistinct(log: seq<EdgeContract>) {
    forall i, j :: 0 <= i < j < |log| ==>
                     log[i].edgeId != log[j].edgeId
                     && (log[i].fromNode, log[i].toNode, log[i].conditionCode) != (log[j].fromNode, log[j].toNode, log[j].conditionCode)
  }

  /** Over every run, ids and (source, target, condition) triples stay unique; with all
      checks on, the registered edges pass the validator's endpoint and stage checks. */
  lemma {:induction false} RunKeepsOrder(nodes: map<string, NodeContract>, requests: seq<Request>)
    ensures var log := RunLog(nodes, requests);
            && AllDistinct(log)
            && ((forall q :: q in requests ==> q.checkNodes && q.checkStages) ==>
                  && StagesInOrder(AgentGraph(nodes, log))
                  && forall e :: e in log ==> EndpointsRegistered(AgentGraph(nodes, log), e))
    decreases |requests|
  {
    if requests != [] {
      var front := requests[..|requests| - 1];
      RunKeepsOrder(nodes, front);
      var before, log := RunLog(nodes, front), RunLog(nodes, requests);
      var last := requests[|requests| - 1];
      if log != before {
        RegisteredIsFresh(before, nodes, last.edge, last.checkNodes, last.checkStages);
        assert log == before + [last.edge];
      }
      assert AllDistinct(before);
      assert AllDistinct(log);
      if forall q :: q in requests ==> q.checkNodes && q.checkStages {
        assert forall q :: q in front ==> q.checkNodes && q.checkStages;
        assert requests[|requests| - 1] in requests;
        forall e | e in log
          ensures EdgeInOrder(AgentGraph(nodes, log), e) && EndpointsRegistered(AgentGraph(nodes, log), e)
        {
          if e in before {
            assert EdgeInOrder(AgentGraph(nodes, before), e) && EndpointsRegistered(AgentGraph(nodes, before), e);
          }
        }
      }
    }
  }
}
