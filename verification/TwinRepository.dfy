/** Persisting snapshots in two tables, and loading them back. */
module TwinRepository {
  import opened Results
  import opened Collections
  import opened TwinModel
  import opened TwinFingerprints
  import opened TwinValidator

  datatype NodeRow = NodeRow(
    id: string, org: Option<string>, nodeType: NodeType, entityId: Option<string>, rowLabel: string,
    latitude: Option<real>, longitude: Option<real>, healthScore: Option<real>, properties: map<string, Json>)

  datatype EdgeRow = EdgeRow(
    id: string, org: Option<string>, fromNodeId: string, toNodeId: string, edgeType: EdgeType,
    flowCapacity: Option<real>, currentFlow: Option<real>, riskScore: Option<real>, properties: map<string, Json>)

  const TYPE_KEY := "_source_entity_type"
  const FINGERPRINT_KEY := "_fingerprint"
  const STATUS_KEY := "_status"
  const TIME_KEY := "_source_timestamp"
  const REFERENCE_KEY := "_source_reference"

  const NODE_KEYS := {TYPE_KEY, FINGERPRINT_KEY, STATUS_KEY, TIME_KEY}
  const EDGE_KEYS := {FINGERPRINT_KEY, STATUS_KEY, REFERENCE_KEY}

  function FromOption(o: Option<string>): Json {
    if o.Some? then JString(o.value) else JNull
  }

  /** What a popped property reads as; None if missing or null. */
  function ToOption(m: map<string, Json>, key: string): Option<string> {
    if key in m && m[key].JString? then Some(m[key].text) else None
  }

  function OrElse(o: Option<string>, fallback: string): string {
    if o.Some? && o.value != "" then o.value else fallback
  }

  /** The instant whose text was stored; the text form of instants is not modelled. */
  function ToTime(m: map<string, Json>): Option<int> {
    if TIME_KEY in m && m[TIME_KEY].JNumber? then Some(m[TIME_KEY].number.Floor) else None
  }

  const ZEROS := "0000000000000000000000000000000000000000000000000000000000000000"

  function NodeProperties(n: TwinNode): map<string, Json> {
    var props := n.properties[TYPE_KEY := JString(n.sourceEntityType)][FINGERPRINT_KEY := JString(n.fingerprint)][STATUS_KEY := FromOption(n.status)];
    if n.sourceTimestamp.Some? then props[TIME_KEY := JNumber(n.sourceTimestamp.value as real)] else props
  }

  function EdgeProperties(e: TwinEdge): map<string, Json> {
    var props := e.properties[FINGERPRINT_KEY := JString(e.fingerprint)][STATUS_KEY := FromOption(e.status)];
    if e.sourceReference.Some? && e.sourceReference.value != "" then props[REFERENCE_KEY := JString(e.sourceReference.value)] else props
  }

  function NodeRowOf(n: TwinNode, org: string): NodeRow {
    NodeRow(n.nodeId, Some(org), n.nodeType, Some(n.sourceEntityId), n.displayLabel, n.latitude, n.longitude, n.healthScore, NodeProperties(n))
  }

  function EdgeRowOf(e: TwinEdge, org: string): EdgeRow {
    EdgeRow(e.edgeId, Some(org), e.fromNodeId, e.toNodeId, e.edgeType, e.flowCapacity, e.currentFlow, e.riskScore, EdgeProperties(e))
  }

  /** A node read back from its row; `typeName` spells node types. */
  function NodeFrom(r: NodeRow, org: string, typeName: NodeType -> string): TwinNode {
    TwinNode(
      r.id, OrElse(r.org, org), r.nodeType,
      if TYPE_KEY in r.properties then ToText(r.properties[TYPE_KEY]) else typeName(r.nodeType),
      OrElse(r.entityId, r.id), r.rowLabel, r.latitude, r.longitude, r.healthScore,
      ToOption(r.properties, STATUS_KEY), r.properties - NODE_KEYS, ToTime(r.properties), None,
      OrElse(ToOption(r.properties, FINGERPRINT_KEY), ZEROS))
  }

  function ToText(j: Json): string {
    if j.JString? then j.text else ""
  }

  function EdgeFrom(r: EdgeRow, org: string): TwinEdge {
    TwinEdge(
      r.id, OrElse(r.org, org), r.fromNodeId, r.toNodeId, r.edgeType, ToOption(r.properties, STATUS_KEY),
      r.flowCapacity, r.currentFlow, r.riskScore, r.properties - EDGE_KEYS, ToOption(r.properties, REFERENCE_KEY), None,
      OrElse(ToOption(r.properties, FINGERPRINT_KEY), ZEROS))
  }

  // ----- which nodes and edges survive the round trip

  predicate Restorable(n: TwinNode, org: string) {
    && n.organizationId == org && n.provenance.None? && n.fingerprint != ""
    && (n.sourceEntityId != "" || n.nodeId == "")
    && n.properties.Keys !! NODE_KEYS
  }

  predicate RestorableEdge(e: TwinEdge, org: string) {
    && e.organizationId == org && e.provenance.None? && e.fingerprint != ""
    && e.sourceReference != Some("")
    && e.properties.Keys !! EDGE_KEYS
  }

  lemma NodePropertiesRead(n: TwinNode)
    ensures ToOption(NodeProperties(n), STATUS_KEY) == n.status
    ensures ToOption(NodeProperties(n), FINGERPRINT_KEY) == Some(n.fingerprint)
    ensures TYPE_KEY in NodeProperties(n) && NodeProperties(n)[TYPE_KEY] == JString(n.sourceEntityType)
    ensures n.properties.Keys !! NODE_KEYS ==> ToTime(NodeProperties(n)) == n.sourceTimestamp && NodeProperties(n) - NODE_KEYS == n.properties
    ensures NodeProperties(n) - NODE_KEYS == n.properties ==> n.properties.Keys !! NODE_KEYS
  {
  }

  /** A node is read back unchanged exactly when it carries no provenance and no reserved
      property, and its entity id and fingerprint are not empty. */
  lemma NodeRoundTrip(n: TwinNode, org: string, typeName: NodeType -> string)
    requires org != ""
    ensures NodeFrom(NodeRowOf(n, org), org, typeName) == n <==> Restorable(n, org)
  {
    hide NodeProperties, ToOption, ToTime;
    NodePropertiesRead(n);
  }

  lemma EdgePropertiesRead(e: TwinEdge)
    ensures ToOption(EdgeProperties(e), STATUS_KEY) == e.status
    ensures ToOption(EdgeProperties(e), FINGERPRINT_KEY) == Some(e.fingerprint)
    ensures e.properties.Keys !! EDGE_KEYS ==>
              && EdgeProperties(e) - EDGE_KEYS == e.properties
              && ToOption(EdgeProperties(e), REFERENCE_KEY) == if e.sourceReference == Some("") then None else e.sourceReference
    ensures EdgeProperties(e) - EDGE_KEYS == e.properties ==> e.properties.Keys !! EDGE_KEYS
  {
  }

  /** An edge is read back unchanged exactly when it carries no provenance, no reserved
      property and no empty reference, and its fingerprint is not empty. */
  lemma EdgeRoundTrip(e: TwinEdge, org: string)
    requires org != ""
    ensures EdgeFrom(EdgeRowOf(e, org), org) == e <==> RestorableEdge(e, org)
  {
    hide EdgeProperties, ToOption;
    EdgePropertiesRead(e);
  }

  // ----- the tables

  type NodeTable = map<string, NodeRow>
  type EdgeTable = map<string, EdgeRow>

  /** Rows are stored under their own primary key, and edges refer to stored nodes. */
  ghost predicate Referential(nodes: NodeTable, edges: EdgeTable) {
    && (forall id :: id in nodes ==> nodes[id].id == id)
    && (forall id :: id in edges ==> edges[id].id == id && edges[id].fromNodeId in nodes && edges[id].toNodeId in nodes)
  }

  function OtherNodes(nodes: NodeTable, org: string): NodeTable {
    map id | id in nodes && nodes[id].org != Some(org) :: nodes[id]
  }

  function OtherEdges(edges: EdgeTable, org: string): EdgeTable {
    map id | id in edges && edges[id].org != Some(org) :: edges[id]
  }

  function NodeRows(ns: seq<TwinNode>, org: string): (r: seq<NodeRow>)
    ensures |r| == |ns| && forall i :: 0 <= i < |r| ==> r[i] == NodeRowOf(ns[i], org)
  {
    seq(|ns|, i requires 0 <= i < |ns| => NodeRowOf(ns[i], org))
  }

  function EdgeRows(es: seq<TwinEdge>, org: string): (r: seq<EdgeRow>)
    ensures |r| == |es| && forall i :: 0 <= i < |r| ==> r[i] == EdgeRowOf(es[i], org)
  {
    seq(|es|, i requires 0 <= i < |es| => EdgeRowOf(es[i], org))
  }

  /** The rows added to a table, and nothing else changed. */
  ghost predicate NodesInserted(rows: seq<NodeRow>, before: NodeTable, after: NodeTable) {
    && (forall i :: 0 <= i < |rows| ==> rows[i].id in after && after[rows[i].id] == rows[i])
    && (forall id :: id in before ==> id in after && after[id] == before[id])
    && (forall id :: id in after ==> id in before || exists i :: 0 <= i < |rows| && rows[i].id == id)
  }

  ghost predicate EdgesInserted(rows: seq<EdgeRow>, before: EdgeTable, after: EdgeTable) {
    && (forall i :: 0 <= i < |rows| ==> rows[i].id in after && after[rows[i].id] == rows[i])
    && (forall id :: id in before ==> id in after && after[id] == before[id])
    && (forall id :: id in after ==> id in before || exists i :: 0 <= i < |rows| && rows[i].id == id)
  }

  ghost predicate NewNodes(rows: seq<NodeRow>, before: NodeTable) {
    forall i :: 0 <= i < |rows| ==> rows[i].id !in before
  }

  ghost predicate NewEdges(rows: seq<EdgeRow>, before: EdgeTable, nodes: NodeTable) {
    forall i :: 0 <= i < |rows| ==> rows[i].id !in before && rows[i].fromNodeId in nodes && rows[i].toNodeId in nodes
  }

  /** The two tables under one transaction. Each operation raises if the database breaks
      (`broken`) or a key constraint is violated, and then leaves its table in any state. */
  class Database {
    var nodes: NodeTable
    var edges: EdgeTable

    constructor ()
      ensures nodes == map[] && edges == map[]
    {
      nodes, edges := map[], map[];
    }

    method DeleteEdges(org: string, broken: bool) returns (ok: bool)
      modifies this`edges
      ensures ok <==> !broken
      ensures ok ==> edges == OtherEdges(old(edges), org)
    {
      ok := !broken;
      edges := OtherEdges(edges, org);
    }

    /** Refused while an edge refers to one of the nodes. */
    method DeleteNodes(org: string, broken: bool) returns (ok: bool)
      requires Referential(nodes, edges)
      modifies this`nodes
      ensures ok <==> !broken && Referential(OtherNodes(old(nodes), org), edges)
      ensures ok ==> nodes == OtherNodes(old(nodes), org)
    {
      var kept := OtherNodes(nodes, org);
      ok := !broken && forall id :: id in edges ==> edges[id].fromNodeId in kept && edges[id].toNodeId in kept;
      nodes := kept;
    }

    method InsertNodes(rows: seq<NodeRow>, broken: bool) returns (ok: bool)
      requires forall i, j :: 0 <= i < j < |rows| ==> rows[i].id != rows[j].id
      modifies this`nodes
      ensures ok <==> !broken && NewNodes(rows, old(nodes))
      ensures ok ==> NodesInserted(rows, old(nodes), nodes)
    {
      if broken {
        return false;
      }
      for i := 0 to |rows|
        invariant forall j :: 0 <= j < i ==> rows[j].id !in old(nodes) && rows[j].id in nodes && nodes[rows[j].id] == rows[j]
        invariant forall id :: id in old(nodes) ==> id in nodes && nodes[id] == old(nodes)[id]
        invariant forall id :: id in nodes ==> id in old(nodes) || exists j :: 0 <= j < i && rows[j].id == id
      {
        if rows[i].id in nodes {
          return false;
        }
        nodes := nodes[rows[i].id := rows[i]];
      }
      ok := true;
    }

    method InsertEdges(rows: seq<EdgeRow>, broken: bool) returns (ok: bool)
      requires forall i, j :: 0 <= i < j < |rows| ==> rows[i].id != rows[j].id
      modifies this`edges
      ensures ok <==> !broken && NewEdges(rows, old(edges), nodes)
      ensures ok ==> EdgesInserted(rows, old(edges), edges)
    {
      if broken {
        return false;
      }
      for i := 0 to |rows|
        invariant forall j :: 0 <= j < i ==>
                                && rows[j].id !in old(edges) && rows[j].fromNodeId in nodes && rows[j].toNodeId in nodes
                                && rows[j].id in edges && edges[rows[j].id] == rows[j]
        invariant forall id :: id in old(edges) ==> id in edges && edges[id] == old(edges)[id]
        invariant forall id :: id in edges ==> id in old(edges) || exists j :: 0 <= j < i && rows[j].id == id
      {
        if rows[i].id in edges || rows[i].fromNodeId !in nodes || rows[i].toNodeId !in nodes {
          return false;
        }
        edges := edges[rows[i].id := rows[i]];
      }
      ok := true;
    }
  }

  ghost function EdgeIdsOf(edges: map<string, TwinEdge>): set<string> {
    set k | k in edges :: edges[k].edgeId
  }

  /** The node table after the snapshot has replaced whatever its tenant had stored. */
  ghost predicate NodesStored(before: NodeTable, s: Snapshot, after: NodeTable) {
    var others := OtherNodes(before, s.organizationId);
    && (forall id :: id in others ==> id in after && after[id] == others[id])
    && (forall k :: k in s.nodes ==> s.nodes[k].nodeId in after && after[s.nodes[k].nodeId] == NodeRowOf(s.nodes[k], s.organizationId))
    && (forall id :: id in after ==> id in others || id in KnownIds(s.nodes))
  }

  ghost predicate EdgesStored(before: EdgeTable, s: Snapshot, after: EdgeTable) {
    var others := OtherEdges(before, s.organizationId);
    && (forall id :: id in others ==> id in after && after[id] == others[id])
    && (forall k :: k in s.edges ==> s.edges[k].edgeId in after && after[s.edges[k].edgeId] == EdgeRowOf(s.edges[k], s.organizationId))
    && (forall id :: id in after ==> id in others || id in EdgeIdsOf(s.edges))
  }

  /** Other tenants neither refer to this tenant's nodes nor hold any of the snapshot's ids. */
  ghost predicate Fits(nodes: NodeTable, edges: EdgeTable, s: Snapshot) {
    var org := s.organizationId;
    && Referential(OtherNodes(nodes, org), OtherEdges(edges, org))
    && KnownIds(s.nodes) !! OtherNodes(nodes, org).Keys
    && EdgeIdsOf(s.edges) !! OtherEdges(edges, org).Keys
  }

  datatype Breaks = Breaks(deleteEdges: bool, deleteNodes: bool, insertNodes: bool, insertEdges: bool)

  datatype PersistError = InvalidSnapshot | Failed

  /** Replaces the tenant's graph by the snapshot, or leaves both tables as they were. It
      succeeds exactly when the snapshot is valid, fits beside the other tenants' rows, and
      the database does not break. */
  method PersistSnapshot(db: Database, h: Hashes, s: Snapshot, breaks: Breaks) returns (r: Result<(), PersistError>)
    requires Referential(db.nodes, db.edges) && s.organizationId != ""
    modifies db
    ensures Referential(db.nodes, db.edges)
    ensures r.Ok? <==> ValidSnapshot(h, s) && Fits(old(db.nodes), old(db.edges), s) && breaks == Breaks(false, false, false, false)
    ensures r.Ok? ==> NodesStored(old(db.nodes), s, db.nodes) && EdgesStored(old(db.edges), s, db.edges)
    ensures r.Err? ==> db.nodes == old(db.nodes) && db.edges == old(db.edges)
  {
    var valid := ValidateSnapshot(h, s);
    if !valid {
      return Err(InvalidSnapshot);
    }
    var nodes0, edges0 := db.nodes, db.edges;
    var ok := Replace(db, h, s, breaks);
    if !ok {
      db.nodes, db.edges := nodes0, edges0;
      return Err(Failed);
    }
    r := Ok(());
  }

  lemma ListedAt<V>(ks: seq<string>, vs: seq<V>, m: map<string, V>, k: string) returns (i: nat)
    requires Lists(ks, vs, m) && k in m
    ensures i < |ks| == |vs| && ks[i] == k && vs[i] == m[k]
  {
    i :| 0 <= i < |ks| && ks[i] == k;
  }

  lemma NodeRowIds(ns: seq<TwinNode>, org: string)
    ensures forall i :: 0 <= i < |ns| ==> NodeRows(ns, org)[i].id == ns[i].nodeId
  {
    hide NodeProperties;
  }

  lemma EdgeRowEnds(es: seq<TwinEdge>, org: string)
    ensures forall i :: 0 <= i < |es| ==>
                          var r := EdgeRows(es, org)[i];
                          r.id == es[i].edgeId && r.fromNodeId == es[i].fromNodeId && r.toNodeId == es[i].toNodeId
  {
    hide EdgeProperties;
  }

  lemma NodeRowsListed(h: Hashes, s: Snapshot, ks: seq<string>, ns: seq<TwinNode>, before: NodeTable)
    requires ValidSnapshot(h, s) && Lists(ks, ns, s.nodes)
    ensures var rows := NodeRows(ns, s.organizationId);
            && (forall i, j :: 0 <= i < j < |rows| ==> rows[i].id != rows[j].id)
            && (NewNodes(rows, before) <==> KnownIds(s.nodes) !! before.Keys)
  {
    hide ValidNode, ValidEdge, GraphFingerprint, NodeRowOf, NodeRows;
    NodeRowIds(ns, s.organizationId);
    var rows := NodeRows(ns, s.organizationId);
    if KnownIds(s.nodes) !! before.Keys {
      forall i | 0 <= i < |rows|
        ensures rows[i].id !in before
      {
        assert rows[i].id in KnownIds(s.nodes);
      }
    }
    if NewNodes(rows, before) {
      forall id | id in KnownIds(s.nodes)
        ensures id !in before
      {
        var k :| k in s.nodes && s.nodes[k].nodeId == id;
        var i :| 0 <= i < |ks| && ks[i] == k;
        assert rows[i].id == id;
      }
    }
  }

  lemma NodeStoredAt(s: Snapshot, ks: seq<string>, ns: seq<TwinNode>, others: NodeTable, after: NodeTable, k: string)
    requires Lists(ks, ns, s.nodes) && NodesInserted(NodeRows(ns, s.organizationId), others, after) && k in s.nodes
    ensures s.nodes[k].nodeId in after && after[s.nodes[k].nodeId] == NodeRowOf(s.nodes[k], s.organizationId)
  {
    hide NodeRowOf, NodeRows;
    NodeRowIds(ns, s.organizationId);
    var i := ListedAt(ks, ns, s.nodes, k);
    hide Lists;
    assert NodeRows(ns, s.organizationId)[i] == NodeRowOf(ns[i], s.organizationId);
  }

  lemma NodeIdListed(s: Snapshot, ks: seq<string>, ns: seq<TwinNode>, i: nat)
    requires Lists(ks, ns, s.nodes) && i < |ns|
    ensures NodeRows(ns, s.organizationId)[i].id in KnownIds(s.nodes)
  {
    hide NodeRowOf, NodeRows;
    NodeRowIds(ns, s.organizationId);
    assert s.nodes[ks[i]] == ns[i];
  }

  lemma NodesListed(s: Snapshot, ks: seq<string>, ns: seq<TwinNode>, before: NodeTable, after: NodeTable)
    requires Lists(ks, ns, s.nodes)
    requires NodesInserted(NodeRows(ns, s.organizationId), OtherNodes(before, s.organizationId), after)
    ensures NodesStored(before, s, after)
  {
    hide NodeRowOf, NodeRows, OtherNodes, KnownIds, Lists;
    forall k | k in s.nodes
      ensures s.nodes[k].nodeId in after && after[s.nodes[k].nodeId] == NodeRowOf(s.nodes[k], s.organizationId)
    {
      NodeStoredAt(s, ks, ns, OtherNodes(before, s.organizationId), after, k);
    }
    forall i | 0 <= i < |ns|
      ensures NodeRows(ns, s.organizationId)[i].id in KnownIds(s.nodes)
    {
      NodeIdListed(s, ks, ns, i);
    }
  }

  lemma EdgeRowsFit(h: Hashes, s: Snapshot, kes: seq<string>, es: seq<TwinEdge>, nodes: NodeTable, i: nat)
    requires ValidSnapshot(h, s) && Lists(kes, es, s.edges) && KnownIds(s.nodes) <= nodes.Keys && i < |es|
    ensures var r := EdgeRows(es, s.organizationId)[i];
            r.fromNodeId in nodes && r.toNodeId in nodes
  {
    hide EdgeRowOf, EdgeRows, GraphFingerprint, ValidNode, EdgeFingerprint;
    EdgeRowEnds(es, s.organizationId);
    var e := s.edges[kes[i]];
    assert ValidEdge(h, e, KnownIds(s.nodes), s.organizationId);
    assert !EdgeFault(h, e, KnownIds(s.nodes), s.organizationId, true, NO_SOURCE);
    assert !EdgeFault(h, e, KnownIds(s.nodes), s.organizationId, true, NO_TARGET);
  }

  lemma EdgeRowsListed(h: Hashes, s: Snapshot, kes: seq<string>, es: seq<TwinEdge>, nodes: NodeTable, before: EdgeTable)
    requires ValidSnapshot(h, s) && Lists(kes, es, s.edges) && KnownIds(s.nodes) <= nodes.Keys
    ensures var rows := EdgeRows(es, s.organizationId);
            && (forall i, j :: 0 <= i < j < |rows| ==> rows[i].id != rows[j].id)
            && (forall i :: 0 <= i < |rows| ==> rows[i].fromNodeId in nodes && rows[i].toNodeId in nodes)
            && (NewEdges(rows, before, nodes) <==> EdgeIdsOf(s.edges) !! before.Keys)
  {
    hide ValidNode, ValidEdge, GraphFingerprint, EdgeRowOf, EdgeRows, KnownIds;
    EdgeRowEnds(es, s.organizationId);
    var rows := EdgeRows(es, s.organizationId);
    forall i | 0 <= i < |rows|
      ensures rows[i].fromNodeId in nodes && rows[i].toNodeId in nodes && rows[i].id in EdgeIdsOf(s.edges)
    {
      EdgeRowsFit(h, s, kes, es, nodes, i);
      EdgeIdListed(s, kes, es, i);
    }
    if NewEdges(rows, before, nodes) {
      forall id | id in EdgeIdsOf(s.edges)
        ensures id !in before
      {
        var k :| k in s.edges && s.edges[k].edgeId == id;
        var i := ListedAt(kes, es, s.edges, k);
        assert rows[i].id == id;
      }
    }
  }

  lemma EdgeStoredAt(s: Snapshot, kes: seq<string>, es: seq<TwinEdge>, others: EdgeTable, after: EdgeTable, k: string)
    requires Lists(kes, es, s.edges) && EdgesInserted(EdgeRows(es, s.organizationId), others, after) && k in s.edges
    ensures s.edges[k].edgeId in after && after[s.edges[k].edgeId] == EdgeRowOf(s.edges[k], s.organizationId)
  {
    hide EdgeRowOf, EdgeRows;
    EdgeRowEnds(es, s.organizationId);
    var i := ListedAt(kes, es, s.edges, k);
    hide Lists;
    assert EdgeRows(es, s.organizationId)[i] == EdgeRowOf(es[i], s.organizationId);
  }

  lemma EdgeIdListed(s: Snapshot, kes: seq<string>, es: seq<TwinEdge>, i: nat)
    requires Lists(kes, es, s.edges) && i < |es|
    ensures EdgeRows(es, s.organizationId)[i].id in EdgeIdsOf(s.edges)
  {
    hide EdgeRowOf, EdgeRows;
    EdgeRowEnds(es, s.organizationId);
    assert s.edges[kes[i]] == es[i];
  }

  lemma EdgesListed(s: Snapshot, kes: seq<string>, es: seq<TwinEdge>, before: EdgeTable, after: EdgeTable)
    requires Lists(kes, es, s.edges)
    requires EdgesInserted(EdgeRows(es, s.organizationId), OtherEdges(before, s.organizationId), after)
    ensures EdgesStored(before, s, after)
  {
    hide EdgeRowOf, EdgeRows, OtherEdges, EdgeIdsOf, Lists;
    forall k | k in s.edges
      ensures s.edges[k].edgeId in after && after[s.edges[k].edgeId] == EdgeRowOf(s.edges[k], s.organizationId)
    {
      EdgeStoredAt(s, kes, es, OtherEdges(before, s.organizationId), after, k);
    }
    forall i | 0 <= i < |es|
      ensures EdgeRows(es, s.organizationId)[i].id in EdgeIdsOf(s.edges)
    {
      EdgeIdListed(s, kes, es, i);
    }
  }

  lemma StillReferential(
    nodes0: NodeTable, edges0: EdgeTable, nrows: seq<NodeRow>, erows: seq<EdgeRow>, nodes: NodeTable, edges: EdgeTable)
    requires Referential(nodes0, edges0) && NodesInserted(nrows, nodes0, nodes) && EdgesInserted(erows, edges0, edges)
    requires forall i :: 0 <= i < |erows| ==> erows[i].fromNodeId in nodes && erows[i].toNodeId in nodes
    ensures Referential(nodes, edges)
  {
  }

  lemma DeletedReferential(nodes: NodeTable, edges: EdgeTable, org: string)
    requires Referential(nodes, edges)
    ensures Referential(nodes, OtherEdges(edges, org))
  {
  }

  lemma KnownStored(before: NodeTable, s: Snapshot, after: NodeTable)
    requires NodesStored(before, s, after)
    ensures KnownIds(s.nodes) <= after.Keys
  {
    hide NodeRowOf, OtherNodes;
  }

  /** The statements of the transaction, up to the first that raises. */
  method Replace(db: Database, ghost h: Hashes, s: Snapshot, breaks: Breaks) returns (ok: bool)
    requires Referential(db.nodes, db.edges) && s.organizationId != "" && ValidSnapshot(h, s)
    modifies db
    ensures ok <==> Fits(old(db.nodes), old(db.edges), s) && breaks == Breaks(false, false, false, false)
    ensures ok ==> Referential(db.nodes, db.edges)
    ensures ok ==> NodesStored(old(db.nodes), s, db.nodes) && EdgesStored(old(db.edges), s, db.edges)
  {
    hide Referential, ValidSnapshot, NodesStored, EdgesStored, NodesInserted, EdgesInserted, NewNodes, NewEdges, Lists,
         NodeRows, EdgeRows, OtherNodes, OtherEdges, KnownIds, EdgeIdsOf;
    var org := s.organizationId;
    DeletedReferential(db.nodes, db.edges, org);
    ok := db.DeleteEdges(org, breaks.deleteEdges);
    if !ok {
      return;
    }
    ok := db.DeleteNodes(org, breaks.deleteNodes);
    if !ok {
      return;
    }
    var ks, ns := Values(s.nodes);
    NodeRowsListed(h, s, ks, ns, db.nodes);
    ok := db.InsertNodes(NodeRows(ns, org), breaks.insertNodes);
    if !ok {
      return;
    }
    NodesListed(s, ks, ns, old(db.nodes), db.nodes);
    KnownStored(old(db.nodes), s, db.nodes);
    var kes, es := Values(s.edges);
    EdgeRowsListed(h, s, kes, es, db.nodes, db.edges);
    ok := db.InsertEdges(EdgeRows(es, org), breaks.insertEdges);
    if ok {
      EdgesListed(s, kes, es, old(db.edges), db.edges);
      StillReferential(
        OtherNodes(old(db.nodes), org), OtherEdges(old(db.edges), org), NodeRows(ns, org), EdgeRows(es, org), db.nodes, db.edges);
    }
  }

  // ----- loading

  function LoadedNodes(nodes: NodeTable, org: string, typeName: NodeType -> string): map<string, TwinNode> {
    map id | id in nodes && nodes[id].org == Some(org) :: NodeFrom(nodes[id], org, typeName)
  }

  function LoadedEdges(edges: EdgeTable, org: string): map<string, TwinEdge> {
    map id | id in edges && edges[id].org == Some(org) :: EdgeFrom(edges[id], org)
  }

  function TwinIdOrDefault(twinId: Option<string>, org: string): string {
    OrElse(twinId, "twin-" + org)
  }

  /** The tenant's graph as version "1" of the twin; None if the tenant has no node. The
      source fingerprint is not stored, and reads as the twin's. */
  ghost function Loaded(
    h: Hashes, nodes: NodeTable, edges: EdgeTable, org: string, twinId: Option<string>, typeName: NodeType -> string): Option<Snapshot>
  {
    var ns, es := LoadedNodes(nodes, org, typeName), LoadedEdges(edges, org);
    var id := TwinIdOrDefault(twinId, org);
    var fp := GraphFingerprint(h, id, org, "1", ns, es);
    if ns == map[] then None else Some(Snapshot(id, org, "1", |ns|, |es|, ns, es, fp, fp))
  }

  /** What a loaded snapshot calls itself. */
  lemma LoadedAs(h: Hashes, nodes: NodeTable, edges: EdgeTable, org: string, twinId: Option<string>, typeName: NodeType -> string)
    requires Loaded(h, nodes, edges, org, twinId, typeName).Some?
    ensures var s := Loaded(h, nodes, edges, org, twinId, typeName).value;
            && (twinId.Some? && twinId.value != "" ==> s.twinId == twinId.value)
            && (twinId.None? || twinId.value == "" ==> s.twinId == "twin-" + org)
            && s.organizationId == org && s.version == "1" && s.nodeCount == |s.nodes| && s.edgeCount == |s.edges|
            && s.twinFingerprint == s.sourceFingerprint == GraphFingerprint(h, s.twinId, org, "1", s.nodes, s.edges)
            && (forall k :: k in s.nodes <==> k in nodes && nodes[k].org == Some(org))
            && (forall k :: k in s.edges <==> k in edges && edges[k].org == Some(org))
  {
    hide GraphFingerprint, NodeFrom, EdgeFrom;
  }

  datatype LoadError = MissingOrganization

  method LoadSnapshot(db: Database, h: Hashes, org: string, twinId: Option<string>, typeName: NodeType -> string)
    returns (r: Result<Option<Snapshot>, LoadError>)
    requires Referential(db.nodes, db.edges)
    ensures r == if org == "" then Err(MissingOrganization) else Ok(Loaded(h, db.nodes, db.edges, org, twinId, typeName))
  {
    hide GraphFingerprint, NodeFrom, EdgeFrom;
    if org == "" {
      return Err(MissingOrganization);
    }
    var nodes := ReadNodes(db.nodes, org, typeName);
    if nodes == map[] {
      return Ok(None);
    }
    var edges := ReadEdges(db.edges, org);
    var id := TwinIdOrDefault(twinId, org);
    var fp := FingerprintGraph(h, id, org, "1", nodes, edges);
    r := Ok(Some(Snapshot(id, org, "1", |nodes|, |edges|, nodes, edges, fp, fp)));
  }

  method ReadNodes(table: NodeTable, org: string, typeName: NodeType -> string) returns (nodes: map<string, TwinNode>)
    requires forall id :: id in table ==> table[id].id == id
    ensures nodes == LoadedNodes(table, org, typeName)
  {
    var ks, rows := Values(map id | id in table && table[id].org == Some(org) :: table[id]);
    nodes := map[];
    hide OrElse, ToOption, ToTime, ToText;
    for i := 0 to |rows|
      invariant forall k :: k in nodes ==> k in table && table[k].org == Some(org) && nodes[k] == NodeFrom(table[k], org, typeName)
      invariant forall j :: 0 <= j < i ==> ks[j] in nodes
    {
      var node := NodeFrom(rows[i], org, typeName);
      nodes := nodes[node.nodeId := node];
    }
  }

  method ReadEdges(table: EdgeTable, org: string) returns (edges: map<string, TwinEdge>)
    requires forall id :: id in table ==> table[id].id == id
    ensures edges == LoadedEdges(table, org)
  {
    var ks, rows := Values(map id | id in table && table[id].org == Some(org) :: table[id]);
    edges := map[];
    hide OrElse, ToOption;
    for i := 0 to |rows|
      invariant forall k :: k in edges ==> k in table && table[k].org == Some(org) && edges[k] == EdgeFrom(table[k], org)
      invariant forall j :: 0 <= j < i ==> ks[j] in edges
    {
      var edge := EdgeFrom(rows[i], org);
      edges := edges[edge.edgeId := edge];
    }
  }

  lemma NodeRowRead(n: TwinNode, org: string, typeName: NodeType -> string)
    ensures NodeRowOf(n, org).org == Some(org) && NodeFrom(NodeRowOf(n, org), org, typeName).nodeId == n.nodeId
  {
    hide NodeProperties, OrElse, ToOption, ToTime, ToText;
  }

  lemma EdgeRowRead(e: TwinEdge, org: string)
    ensures EdgeRowOf(e, org).org == Some(org) && EdgeFrom(EdgeRowOf(e, org), org).edgeId == e.edgeId
  {
    hide EdgeProperties, OrElse, ToOption;
  }

  ghost predicate AllRestorable(nodes: map<string, TwinNode>, org: string) {
    forall k :: k in nodes ==> k == nodes[k].nodeId && Restorable(nodes[k], org)
  }

  ghost predicate AllEdgesRestorable(edges: map<string, TwinEdge>, org: string) {
    forall k :: k in edges ==> k == edges[k].edgeId && RestorableEdge(edges[k], org)
  }

  lemma NodeReadBack(before: NodeTable, s: Snapshot, after: NodeTable, typeName: NodeType -> string, k: string)
    requires s.organizationId != "" && NodesStored(before, s, after) && k in s.nodes
    ensures var r := LoadedNodes(after, s.organizationId, typeName);
            var n := s.nodes[k];
            n.nodeId in r && r[n.nodeId].nodeId == n.nodeId && (r[n.nodeId] == n <==> Restorable(n, s.organizationId))
  {
    hide NodeRowOf, NodeFrom, OtherNodes, KnownIds, Restorable;
    NodeRowRead(s.nodes[k], s.organizationId, typeName);
    NodeRoundTrip(s.nodes[k], s.organizationId, typeName);
  }

  lemma EdgeReadBack(before: EdgeTable, s: Snapshot, after: EdgeTable, k: string)
    requires s.organizationId != "" && EdgesStored(before, s, after) && k in s.edges
    ensures var r := LoadedEdges(after, s.organizationId);
            var e := s.edges[k];
            e.edgeId in r && r[e.edgeId].edgeId == e.edgeId && (r[e.edgeId] == e <==> RestorableEdge(e, s.organizationId))
  {
    hide EdgeRowOf, EdgeFrom, OtherEdges, EdgeIdsOf, RestorableEdge;
    EdgeRowRead(s.edges[k], s.organizationId);
    EdgeRoundTrip(s.edges[k], s.organizationId);
  }

  lemma NodesRestored(before: NodeTable, s: Snapshot, after: NodeTable, typeName: NodeType -> string)
    requires s.organizationId != "" && NodesStored(before, s, after)
    ensures LoadedNodes(after, s.organizationId, typeName).Keys == KnownIds(s.nodes)
    ensures LoadedNodes(after, s.organizationId, typeName) == s.nodes <==> AllRestorable(s.nodes, s.organizationId)
  {
    hide NodeRowOf, NodeFrom, Restorable;
    var r := LoadedNodes(after, s.organizationId, typeName);
    forall k | k in s.nodes
      ensures s.nodes[k].nodeId in r && r[s.nodes[k].nodeId].nodeId == s.nodes[k].nodeId
      ensures r[s.nodes[k].nodeId] == s.nodes[k] <==> Restorable(s.nodes[k], s.organizationId)
    {
      NodeReadBack(before, s, after, typeName, k);
    }
    assert forall id :: id in r ==> id in KnownIds(s.nodes);
    hide LoadedNodes, NodesStored;
    if AllRestorable(s.nodes, s.organizationId) {
      assert KnownIds(s.nodes) == s.nodes.Keys;
    }
    if r == s.nodes {
      forall k | k in s.nodes
        ensures k == s.nodes[k].nodeId
      {
        assert k in KnownIds(s.nodes);
        var c :| c in s.nodes && s.nodes[c].nodeId == k;
        assert r[k].nodeId == k;
      }
    }
  }

  lemma EdgesRestored(before: EdgeTable, s: Snapshot, after: EdgeTable)
    requires s.organizationId != "" && EdgesStored(before, s, after)
    ensures LoadedEdges(after, s.organizationId) == s.edges <==> AllEdgesRestorable(s.edges, s.organizationId)
  {
    hide EdgeRowOf, EdgeFrom, RestorableEdge;
    var r := LoadedEdges(after, s.organizationId);
    forall k | k in s.edges
      ensures s.edges[k].edgeId in r && r[s.edges[k].edgeId].edgeId == s.edges[k].edgeId
      ensures r[s.edges[k].edgeId] == s.edges[k] <==> RestorableEdge(s.edges[k], s.organizationId)
    {
      EdgeReadBack(before, s, after, k);
    }
    assert forall id :: id in r ==> id in EdgeIdsOf(s.edges);
    hide LoadedEdges, EdgesStored;
    if AllEdgesRestorable(s.edges, s.organizationId) {
      assert EdgeIdsOf(s.edges) == s.edges.Keys;
    }
    if r == s.edges {
      forall k | k in s.edges
        ensures k == s.edges[k].edgeId
      {
        assert k in EdgeIdsOf(s.edges);
        var c :| c in s.edges && s.edges[c].edgeId == k;
        assert r[k].edgeId == k;
      }
    }
  }

  /** Persisting a valid snapshot and loading it back yields the same snapshot, but for the
      source fingerprint, if and only if it is nonempty, has version "1" and the twin id asked
      for, and every node and edge is stored under its own id and survives its row. */
  lemma RoundTrip(
    h: Hashes, nodes0: NodeTable, edges0: EdgeTable, s: Snapshot, nodes: NodeTable, edges: EdgeTable,
    twinId: Option<string>, typeName: NodeType -> string)
    requires ValidSnapshot(h, s) && s.organizationId != ""
    requires NodesStored(nodes0, s, nodes) && EdgesStored(edges0, s, edges)
    ensures Loaded(h, nodes, edges, s.organizationId, twinId, typeName) == Some(s.(sourceFingerprint := s.twinFingerprint))
            <==> && s.nodes != map[] && s.version == "1" && s.twinId == TwinIdOrDefault(twinId, s.organizationId)
                 && AllRestorable(s.nodes, s.organizationId) && AllEdgesRestorable(s.edges, s.organizationId)
  {
    hide ValidGraph, GraphFingerprint, NodesStored, EdgesStored, LoadedNodes, LoadedEdges, AllRestorable, AllEdgesRestorable, KnownIds;
    NodesRestored(nodes0, s, nodes, typeName);
    EdgesRestored(edges0, s, edges);
  }

  lemma OtherNodesKept(before: NodeTable, s: Snapshot, after: NodeTable, other: string, typeName: NodeType -> string)
    requires other != s.organizationId && NodesStored(before, s, after)
    ensures LoadedNodes(after, other, typeName) == LoadedNodes(before, other, typeName)
  {
    hide NodeFrom, NodeRowOf;
    forall id | id in after && after[id].org == Some(other)
      ensures id in OtherNodes(before, s.organizationId)
    {
      if id in KnownIds(s.nodes) {
        var k :| k in s.nodes && s.nodes[k].nodeId == id;
        NodeRowRead(s.nodes[k], s.organizationId, typeName);
      }
    }
  }

  lemma OtherEdgesKept(before: EdgeTable, s: Snapshot, after: EdgeTable, other: string)
    requires other != s.organizationId && EdgesStored(before, s, after)
    ensures LoadedEdges(after, other) == LoadedEdges(before, other)
  {
    hide EdgeFrom, EdgeRowOf;
    forall id | id in after && after[id].org == Some(other)
      ensures id in OtherEdges(before, s.organizationId)
    {
      if id in EdgeIdsOf(s.edges) {
        var k :| k in s.edges && s.edges[k].edgeId == id;
        EdgeRowRead(s.edges[k], s.organizationId);
      }
    }
  }

  /** Persisting for one tenant changes nothing that any other tenant loads. */
  lemma TenantsUntouched(
    h: Hashes, nodes0: NodeTable, edges0: EdgeTable, s: Snapshot, nodes: NodeTable, edges: EdgeTable,
    other: string, twinId: Option<string>, typeName: NodeType -> string)
    requires other != s.organizationId && NodesStored(nodes0, s, nodes) && EdgesStored(edges0, s, edges)
    ensures Loaded(h, nodes, edges, other, twinId, typeName) == Loaded(h, nodes0, edges0, other, twinId, typeName)
  {
    hide *;
    OtherNodesKept(nodes0, s, nodes, other, typeName);
    OtherEdgesKept(edges0, s, edges, other);
    LoadedDependsOn(h, nodes, edges, nodes0, edges0, other, twinId, typeName);
  }

  lemma LoadedDependsOn(
    h: Hashes, nodes1: NodeTable, edges1: EdgeTable, nodes2: NodeTable, edges2: EdgeTable,
    org: string, twinId: Option<string>, typeName: NodeType -> string)
    requires LoadedNodes(nodes1, org, typeName) == LoadedNodes(nodes2, org, typeName) && LoadedEdges(edges1, org) == LoadedEdges(edges2, org)
    ensures Loaded(h, nodes1, edges1, org, twinId, typeName) == Loaded(h, nodes2, edges2, org, twinId, typeName)
  {
    hide LoadedNodes, LoadedEdges, GraphFingerprint;
  }
}
