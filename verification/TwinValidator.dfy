/** The validator of twin graphs and snapshots. */
module TwinValidator {
  import opened Results
  import opened Collections
  import opened TwinModel
  import opened TwinFingerprints

  datatype Kind =
    | DUPLICATE_NODE | NODE_TENANT | LATITUDE | LONGITUDE | HEALTH_SCORE | NODE_FINGERPRINT
    | DUPLICATE_EDGE | EDGE_TENANT | NO_SOURCE | NO_TARGET | RISK_SCORE | FLOW_CAPACITY | CURRENT_FLOW | EDGE_FINGERPRINT

  datatype Fault = Fault(kind: Kind, id: string)

  predicate Outside(x: Option<real>, lo: real, hi: real) {
    x.Some? && !(lo <= x.value <= hi)
  }

  predicate Negative(x: Option<real>) {
    x.Some? && x.value < 0.0
  }

  predicate NodeFault(h: Hashes, n: TwinNode, org: string, verify: bool, kind: Kind) {
    match kind
    case NODE_TENANT => org != "" && n.organizationId != org
    case LATITUDE => Outside(n.latitude, -90.0, 90.0)
    case LONGITUDE => Outside(n.longitude, -180.0, 180.0)
    case HEALTH_SCORE => Outside(n.healthScore, 0.0, 100.0)
    case NODE_FINGERPRINT => verify && NodeFingerprint(h, n) != n.fingerprint
    case _ => false
  }

  predicate ReferenceFault(e: TwinEdge, known: set<string>, org: string, kind: Kind) {
    match kind
    case EDGE_TENANT => org != "" && e.organizationId != org
    case NO_SOURCE => e.fromNodeId !in known
    case NO_TARGET => e.toNodeId !in known
    case _ => false
  }

  predicate ValueFault(h: Hashes, e: TwinEdge, verify: bool, kind: Kind) {
    match kind
    case RISK_SCORE => Outside(e.riskScore, 0.0, 100.0)
    case FLOW_CAPACITY => Negative(e.flowCapacity)
    case CURRENT_FLOW => Negative(e.currentFlow)
    case EDGE_FINGERPRINT => verify && EdgeFingerprint(h, e) != e.fingerprint
    case _ => false
  }

  predicate EdgeFault(h: Hashes, e: TwinEdge, known: set<string>, org: string, verify: bool, kind: Kind) {
    ReferenceFault(e, known, org, kind) || ValueFault(h, e, verify, kind)
  }

  /** What each fault of a node stands for. */
  lemma NodeFaultsExactly(h: Hashes, n: TwinNode, org: string, verify: bool)
    ensures NodeFault(h, n, org, verify, NODE_TENANT) <==> org != "" && org != n.organizationId
    ensures NodeFault(h, n, org, verify, LATITUDE) <==> n.latitude.Some? && (n.latitude.value < -90.0 || n.latitude.value > 90.0)
    ensures NodeFault(h, n, org, verify, LONGITUDE) <==> n.longitude.Some? && (n.longitude.value < -180.0 || n.longitude.value > 180.0)
    ensures NodeFault(h, n, org, verify, HEALTH_SCORE) <==> n.healthScore.Some? && (n.healthScore.value < 0.0 || n.healthScore.value > 100.0)
    ensures NodeFault(h, n, org, verify, NODE_FINGERPRINT) <==> verify && n.fingerprint != NodeFingerprint(h, n)
    ensures forall kind :: NodeFault(h, n, org, verify, kind) ==> kind in {NODE_TENANT, LATITUDE, LONGITUDE, HEALTH_SCORE, NODE_FINGERPRINT}
  {
    hide NodeFingerprint;
  }

  /** And each of an edge. */
  lemma EdgeFaultsExactly(h: Hashes, e: TwinEdge, known: set<string>, org: string, verify: bool)
    ensures EdgeFault(h, e, known, org, verify, EDGE_TENANT) <==> org != "" && org != e.organizationId
    ensures EdgeFault(h, e, known, org, verify, NO_SOURCE) <==> e.fromNodeId !in known
    ensures EdgeFault(h, e, known, org, verify, NO_TARGET) <==> e.toNodeId !in known
    ensures EdgeFault(h, e, known, org, verify, RISK_SCORE) <==> e.riskScore.Some? && (e.riskScore.value < 0.0 || e.riskScore.value > 100.0)
    ensures EdgeFault(h, e, known, org, verify, FLOW_CAPACITY) <==> e.flowCapacity.Some? && 0.0 > e.flowCapacity.value
    ensures EdgeFault(h, e, known, org, verify, CURRENT_FLOW) <==> e.currentFlow.Some? && 0.0 > e.currentFlow.value
    ensures EdgeFault(h, e, known, org, verify, EDGE_FINGERPRINT) <==> verify && e.fingerprint != EdgeFingerprint(h, e)
    ensures forall kind :: EdgeFault(h, e, known, org, verify, kind) ==>
                             kind in {EDGE_TENANT, NO_SOURCE, NO_TARGET, RISK_SCORE, FLOW_CAPACITY, CURRENT_FLOW, EDGE_FINGERPRINT}
  {
    hide EdgeFingerprint;
  }

  method Check(before: seq<Fault>, failed: bool, kind: Kind, id: string) returns (errors: seq<Fault>)
    ensures forall f :: f in errors <==> f in before || (failed && f == Fault(kind, id))
  {
    errors := before;
    if failed {
      errors := errors + [Fault(kind, id)];
    }
  }

  method ValidateNode(h: Hashes, n: TwinNode, org: string, verify: bool) returns (errors: seq<Fault>)
    ensures forall f :: f in errors <==> f.id == n.nodeId && NodeFault(h, n, org, verify, f.kind)
  {
    hide Outside, NodeFingerprint;
    errors := Check([], org != "" && n.organizationId != org, NODE_TENANT, n.nodeId);
    errors := Check(errors, Outside(n.latitude, -90.0, 90.0), LATITUDE, n.nodeId);
    errors := Check(errors, Outside(n.longitude, -180.0, 180.0), LONGITUDE, n.nodeId);
    errors := Check(errors, Outside(n.healthScore, 0.0, 100.0), HEALTH_SCORE, n.nodeId);
    errors := Check(errors, verify && NodeFingerprint(h, n) != n.fingerprint, NODE_FINGERPRINT, n.nodeId);
  }

  method ValidateReferences(e: TwinEdge, known: set<string>, org: string) returns (errors: seq<Fault>)
    ensures forall f :: f in errors <==> f.id == e.edgeId && ReferenceFault(e, known, org, f.kind)
  {
    errors := Check([], org != "" && e.organizationId != org, EDGE_TENANT, e.edgeId);
    errors := Check(errors, e.fromNodeId !in known, NO_SOURCE, e.edgeId);
    errors := Check(errors, e.toNodeId !in known, NO_TARGET, e.edgeId);
  }

  method ValidateValues(h: Hashes, e: TwinEdge, verify: bool) returns (errors: seq<Fault>)
    ensures forall f :: f in errors <==> f.id == e.edgeId && ValueFault(h, e, verify, f.kind)
  {
    hide Outside, Negative, EdgeFingerprint;
    errors := Check([], Outside(e.riskScore, 0.0, 100.0), RISK_SCORE, e.edgeId);
    errors := Check(errors, Negative(e.flowCapacity), FLOW_CAPACITY, e.edgeId);
    errors := Check(errors, Negative(e.currentFlow), CURRENT_FLOW, e.edgeId);
    errors := Check(errors, verify && EdgeFingerprint(h, e) != e.fingerprint, EDGE_FINGERPRINT, e.edgeId);
  }

  method ValidateEdge(h: Hashes, e: TwinEdge, known: set<string>, org: string, verify: bool) returns (errors: seq<Fault>)
    ensures forall f :: f in errors <==> f.id == e.edgeId && EdgeFault(h, e, known, org, verify, f.kind)
  {
    hide ReferenceFault, ValueFault;
    errors := ValidateReferences(e, known, org);
    var values := ValidateValues(h, e, verify);
    errors := errors + values;
  }

  function NodeIds(ns: seq<TwinNode>): set<string> {
    set n | n in ns :: n.nodeId
  }

  function EdgeIds(es: seq<TwinEdge>): set<string> {
    set e | e in es :: e.edgeId
  }

  /** The faults of the i-th node: its own, and repeating an earlier id. */
  predicate FaultAtNode(h: Hashes, ns: seq<TwinNode>, i: nat, org: string, verify: bool, f: Fault)
    requires i < |ns|
  {
    && f.id == ns[i].nodeId
    && (NodeFault(h, ns[i], org, verify, f.kind) || (f.kind == DUPLICATE_NODE && f.id in NodeIds(ns[..i])))
  }

  predicate FaultAtEdge(h: Hashes, es: seq<TwinEdge>, i: nat, known: set<string>, org: string, verify: bool, f: Fault)
    requires i < |es|
  {
    && f.id == es[i].edgeId
    && (EdgeFault(h, es[i], known, org, verify, f.kind) || (f.kind == DUPLICATE_EDGE && f.id in EdgeIds(es[..i])))
  }

  ghost predicate FaultyNode(h: Hashes, ns: seq<TwinNode>, n: nat, org: string, verify: bool, f: Fault)
    requires n <= |ns|
  {
    exists i :: 0 <= i < n && FaultAtNode(h, ns, i, org, verify, f)
  }

  ghost predicate FaultyEdge(h: Hashes, es: seq<TwinEdge>, n: nat, known: set<string>, org: string, verify: bool, f: Fault)
    requires n <= |es|
  {
    exists i :: 0 <= i < n && FaultAtEdge(h, es, i, known, org, verify, f)
  }

  lemma FaultyEdgeStep(h: Hashes, es: seq<TwinEdge>, n: nat, known: set<string>, org: string, verify: bool)
    requires n < |es|
    ensures forall f :: FaultyEdge(h, es, n + 1, known, org, verify, f) <==>
                        FaultyEdge(h, es, n, known, org, verify, f) || FaultAtEdge(h, es, n, known, org, verify, f)
    ensures EdgeIds(es[..n + 1]) == EdgeIds(es[..n]) + {es[n].edgeId}
  {
    assert es[..n + 1] == es[..n] + [es[n]];
    hide FaultAtEdge;
  }

  /** The errors reported are exactly the faults of the nodes and of the edges. */
  method ValidateGraph(h: Hashes, ns: seq<TwinNode>, es: seq<TwinEdge>, org: string, verify: bool) returns (errors: seq<Fault>)
    ensures forall f :: f in errors <==>
                        FaultyNode(h, ns, |ns|, org, verify, f) || FaultyEdge(h, es, |es|, NodeIds(ns), org, verify, f)
  {
    assert NodeIds(ns[..0]) == {} && EdgeIds(es[..0]) == {};
    var known := CheckNodes(h, ns, org, verify);
    errors := known.1;
    var seen: set<string> := {};
    hide NodeFault, EdgeFault, FaultyNode, NodeIds, EdgeIds;
    for i := 0 to |es|
      invariant seen == EdgeIds(es[..i])
      invariant forall f :: f in errors <==> FaultyNode(h, ns, |ns|, org, verify, f) || FaultyEdge(h, es, i, NodeIds(ns), org, verify, f)
    {
      FaultyEdgeStep(h, es, i, NodeIds(ns), org, verify);
      hide FaultyEdge;
      errors := Check(errors, es[i].edgeId in seen, DUPLICATE_EDGE, es[i].edgeId);
      seen := seen + {es[i].edgeId};
      var own := ValidateEdge(h, es[i], known.0, org, verify);
      errors := errors + own;
    }
  }

  method CheckNodes(h: Hashes, ns: seq<TwinNode>, org: string, verify: bool) returns (r: (set<string>, seq<Fault>))
    ensures r.0 == NodeIds(ns)
    ensures forall f :: f in r.1 <==> FaultyNode(h, ns, |ns|, org, verify, f)
  {
    assert NodeIds(ns[..0]) == {} && ns[..|ns|] == ns;
    var seen: set<string>, errors: seq<Fault> := {}, [];
    hide NodeFault, NodeIds;
    for i := 0 to |ns|
      invariant seen == NodeIds(ns[..i])
      invariant forall f :: f in errors <==> FaultyNode(h, ns, i, org, verify, f)
    {
      hide FaultyNode;
      errors := Check(errors, ns[i].nodeId in seen, DUPLICATE_NODE, ns[i].nodeId);
      seen := seen + {ns[i].nodeId};
      var own := ValidateNode(h, ns[i], org, verify);
      ghost var before := errors;
      errors := errors + own;
      forall f
        ensures f in errors <==> FaultyNode(h, ns, i + 1, org, verify, f)
      {
        assert f in errors <==> f in before || f in own;
        assert FaultAtNode(h, ns, i, org, verify, f) <==>
          f in own || (ns[i].nodeId in NodeIds(ns[..i]) && f == Fault(DUPLICATE_NODE, ns[i].nodeId));
      }
    }
    r := (seen, errors);
  }

  // ----- graphs held as dictionaries, and snapshots

  ghost predicate ValidNode(h: Hashes, n: TwinNode, org: string) {
    forall kind :: !NodeFault(h, n, org, true, kind)
  }

  ghost predicate ValidEdge(h: Hashes, e: TwinEdge, known: set<string>, org: string) {
    forall kind :: !EdgeFault(h, e, known, org, true, kind)
  }

  ghost function KnownIds(nodes: map<string, TwinNode>): set<string> {
    set k | k in nodes :: nodes[k].nodeId
  }

  /** Ids unique among the values, whatever their keys; every node and edge valid. */
  ghost predicate ValidGraph(h: Hashes, nodes: map<string, TwinNode>, edges: map<string, TwinEdge>, org: string) {
    && (forall a, b :: a in nodes && b in nodes && a != b ==> nodes[a].nodeId != nodes[b].nodeId)
    && (forall k :: k in nodes ==> ValidNode(h, nodes[k], org))
    && (forall a, b :: a in edges && b in edges && a != b ==> edges[a].edgeId != edges[b].edgeId)
    && (forall k :: k in edges ==> ValidEdge(h, edges[k], KnownIds(nodes), org))
  }

  lemma ListedKnown(ks: seq<string>, ns: seq<TwinNode>, nodes: map<string, TwinNode>)
    requires Lists(ks, ns, nodes)
    ensures NodeIds(ns) == KnownIds(nodes)
  {
    forall k | k in nodes
      ensures nodes[k].nodeId in NodeIds(ns)
    {
      var i :| 0 <= i < |ks| && ks[i] == k;
      assert ns[i] in ns;
    }
    forall n | n in ns
      ensures n.nodeId in KnownIds(nodes)
    {
      var i :| 0 <= i < |ns| && ns[i] == n;
      assert nodes[ks[i]] == n;
    }
  }

  ghost predicate NodesSound(h: Hashes, ns: seq<TwinNode>, org: string) {
    && (forall i :: 0 <= i < |ns| ==> ValidNode(h, ns[i], org))
    && (forall i, j :: 0 <= j < i < |ns| ==> ns[j].nodeId != ns[i].nodeId)
  }

  ghost predicate EdgesSound(h: Hashes, es: seq<TwinEdge>, known: set<string>, org: string) {
    && (forall i :: 0 <= i < |es| ==> ValidEdge(h, es[i], known, org))
    && (forall i, j :: 0 <= j < i < |es| ==> es[j].edgeId != es[i].edgeId)
  }

  lemma NoFaultyNode(h: Hashes, ns: seq<TwinNode>, org: string)
    ensures (forall f :: !FaultyNode(h, ns, |ns|, org, true, f)) <==> NodesSound(h, ns, org)
  {
    hide NodeFault;
    if NodesSound(h, ns, org) {
      forall i, f | 0 <= i < |ns|
        ensures !FaultAtNode(h, ns, i, org, true, f)
      {
        if f.id in NodeIds(ns[..i]) {
          var j :| 0 <= j < i && ns[..i][j].nodeId == f.id;
        }
      }
    }
    if forall f :: !FaultyNode(h, ns, |ns|, org, true, f) {
      forall i, kind | 0 <= i < |ns|
        ensures !NodeFault(h, ns[i], org, true, kind)
      {
        assert !FaultyNode(h, ns, |ns|, org, true, Fault(kind, ns[i].nodeId));
        assert !FaultAtNode(h, ns, i, org, true, Fault(kind, ns[i].nodeId));
      }
      forall i, j | 0 <= j < i < |ns|
        ensures ns[j].nodeId != ns[i].nodeId
      {
        assert !FaultyNode(h, ns, |ns|, org, true, Fault(DUPLICATE_NODE, ns[i].nodeId));
        assert !FaultAtNode(h, ns, i, org, true, Fault(DUPLICATE_NODE, ns[i].nodeId));
        assert ns[..i][j] in ns[..i];
      }
    }
  }

  lemma NoFaultyEdge(h: Hashes, es: seq<TwinEdge>, known: set<string>, org: string)
    ensures (forall f :: !FaultyEdge(h, es, |es|, known, org, true, f)) <==> EdgesSound(h, es, known, org)
  {
    hide EdgeFault;
    if EdgesSound(h, es, known, org) {
      forall i, f | 0 <= i < |es|
        ensures !FaultAtEdge(h, es, i, known, org, true, f)
      {
        if f.id in EdgeIds(es[..i]) {
          var j :| 0 <= j < i && es[..i][j].edgeId == f.id;
        }
      }
    }
    if forall f :: !FaultyEdge(h, es, |es|, known, org, true, f) {
      forall i, kind | 0 <= i < |es|
        ensures !EdgeFault(h, es[i], known, org, true, kind)
      {
        assert !FaultyEdge(h, es, |es|, known, org, true, Fault(kind, es[i].edgeId));
        assert !FaultAtEdge(h, es, i, known, org, true, Fault(kind, es[i].edgeId));
      }
      forall i, j | 0 <= j < i < |es|
        ensures es[j].edgeId != es[i].edgeId
      {
        assert !FaultyEdge(h, es, |es|, known, org, true, Fault(DUPLICATE_EDGE, es[i].edgeId));
        assert !FaultAtEdge(h, es, i, known, org, true, Fault(DUPLICATE_EDGE, es[i].edgeId));
        assert es[..i][j] in es[..i];
      }
    }
  }

  /** Over dictionaries the validator looks at the values, in whatever order. */
  method ValidateGraphDicts(h: Hashes, nodes: map<string, TwinNode>, edges: map<string, TwinEdge>, org: string) returns (errors: seq<Fault>)
    ensures errors == [] <==> ValidGraph(h, nodes, edges, org)
  {
    var ks, ns := Values(nodes);
    var kes, es := Values(edges);
    errors := ValidateGraph(h, ns, es, org, true);
    ListedKnown(ks, ns, nodes);
    NoFaultyNode(h, ns, org);
    NoFaultyEdge(h, es, NodeIds(ns), org);
    hide FaultyNode, FaultyEdge, NodesSound, EdgesSound, NodeIds, KnownIds, ValidNode, ValidEdge, Lists;
    assert errors == [] <==> forall f :: f !in errors by {
      if errors != [] {
        assert errors[0] in errors;
      }
    }
  }

  ghost function NodeFingerprints(nodes: map<string, TwinNode>): map<string, string> {
    map k | k in nodes :: nodes[k].fingerprint
  }

  ghost function EdgeFingerprints(edges: map<string, TwinEdge>): map<string, string> {
    map k | k in edges :: edges[k].fingerprint
  }

  /** The fingerprint of a graph: that of its fingerprints in any order. */
  ghost function GraphFingerprint(
    h: Hashes, twinId: string, org: string, version: string, nodes: map<string, TwinNode>, edges: map<string, TwinEdge>): string
  {
    TwinFingerprint(h, twinId, org, version, Arrange(Bag(NodeFingerprints(nodes))), Arrange(Bag(EdgeFingerprints(edges))))
  }

  function NodeFps(ns: seq<TwinNode>): (r: seq<string>)
    ensures |r| == |ns| && forall i :: 0 <= i < |r| ==> r[i] == ns[i].fingerprint
  {
    seq(|ns|, i requires 0 <= i < |ns| => ns[i].fingerprint)
  }

  function EdgeFps(es: seq<TwinEdge>): (r: seq<string>)
    ensures |r| == |es| && forall i :: 0 <= i < |r| ==> r[i] == es[i].fingerprint
  {
    seq(|es|, i requires 0 <= i < |es| => es[i].fingerprint)
  }

  method FingerprintGraph(
    h: Hashes, twinId: string, org: string, version: string, nodes: map<string, TwinNode>, edges: map<string, TwinEdge>)
    returns (fp: string)
    ensures fp == GraphFingerprint(h, twinId, org, version, nodes, edges)
  {
    var ks, ns := Values(nodes);
    var kes, es := Values(edges);
    assert Lists(ks, NodeFps(ns), NodeFingerprints(nodes));
    assert Lists(kes, EdgeFps(es), EdgeFingerprints(edges));
    hide Bag, Arrange, NodeFps, EdgeFps, TwinFingerprint, Lists;
    BagOfListing(ks, NodeFps(ns), NodeFingerprints(nodes));
    BagOfListing(kes, EdgeFps(es), EdgeFingerprints(edges));
    TwinFingerprintExact(
      h, twinId, org, version, NodeFps(ns), EdgeFps(es),
      Arrange(Bag(NodeFingerprints(nodes))), Arrange(Bag(EdgeFingerprints(edges))));
    fp := ComputeTwinFingerprint(h, twinId, org, version, NodeFps(ns), EdgeFps(es));
  }

  ghost predicate ValidSnapshot(h: Hashes, s: Snapshot) {
    && s.nodeCount == |s.nodes| && s.edgeCount == |s.edges|
    && ValidGraph(h, s.nodes, s.edges, s.organizationId)
    && s.twinFingerprint == GraphFingerprint(h, s.twinId, s.organizationId, s.version, s.nodes, s.edges)
  }

  method ValidateSnapshot(h: Hashes, s: Snapshot) returns (valid: bool)
    ensures valid <==> ValidSnapshot(h, s)
  {
    hide ValidGraph, GraphFingerprint;
    var errors := ValidateGraphDicts(h, s.nodes, s.edges, s.organizationId);
    var fp := FingerprintGraph(h, s.twinId, s.organizationId, s.version, s.nodes, s.edges);
    valid := s.nodeCount == |s.nodes| && s.edgeCount == |s.edges| && errors == [] && fp == s.twinFingerprint;
  }
}
