/** The builder: from entity collections to a validated snapshot of the twin. */
module TwinBuilder {
  import opened Results
  import opened Text
  import opened Collections
  import opened TwinModel
  import opened TwinFingerprints
  import opened TwinValidator

  /** A source record, as far as the builder reads it. `attributes` are the properties it
      collects for the record's kind, and `score` the reliability or risk it reads. */
  datatype Entity = Entity(
    id: string, org: Option<string>, name: string, latitude: Option<real>, longitude: Option<real>,
    score: Option<real>, status: Option<string>, attributes: map<string, Json>, createdAt: Option<int>)

  datatype Site = Site(entity: Entity, supplierId: string, capacity: Option<real>)

  datatype Route = Route(entity: Entity, originId: Option<string>, destinationId: Option<string>, corridor: map<string, Json>)

  datatype Shipment = Shipment(entity: Entity, carrierId: Option<string>, routeId: Option<string>, productId: Option<string>)

  datatype Stock = Stock(
    id: string, org: Option<string>, facilityId: Option<string>, productId: Option<string>,
    onHand: Option<real>, levels: map<string, Json>)

  datatype Incident = Incident(summary: Json, assets: seq<string>)

  datatype Inputs = Inputs(
    suppliers: seq<Entity>, sites: seq<Site>, factories: seq<Entity>, warehouses: seq<Entity>, ports: seq<Entity>,
    carriers: seq<Entity>, products: seq<Entity>, routes: seq<Route>, shipments: seq<Shipment>, stocks: seq<Stock>,
    incidents: seq<Incident>)

  datatype BuildError = BlankOrganization | OutOfRange | ValidationFailed

  datatype Builder = Builder(h: Hashes, org: string, twinId: string, version: string)

  function NewBuilder(h: Hashes, org: string, twinId: Option<string>, version: string): Result<Builder, BuildError> {
    if Strip(org) == "" then Err(BlankOrganization)
    else Ok(Builder(h, Strip(org), Strip(if twinId.Some? && twinId.value != "" then twinId.value else "twin-" + Strip(org)), version))
  }

  // ----- incidents by affected asset

  type IncidentMap = map<string, seq<Json>>

  function At(m: IncidentMap, asset: string): seq<Json> {
    if asset in m then m[asset] else []
  }

  function WithAssets(m: IncidentMap, summary: Json, assets: seq<string>): IncidentMap {
    if assets == [] then m
    else
      var before := WithAssets(m, summary, assets[..|assets| - 1]);
      before[assets[|assets| - 1] := At(before, assets[|assets| - 1]) + [summary]]
  }

  function IncidentsByAsset(incidents: seq<Incident>): IncidentMap {
    if incidents == [] then map[]
    else
      var last := incidents[|incidents| - 1];
      WithAssets(IncidentsByAsset(incidents[..|incidents| - 1]), last.summary, last.assets)
  }

  lemma {:induction false} AssetsAdded(m: IncidentMap, summary: Json, assets: seq<string>, asset: string, s: Json)
    ensures asset in WithAssets(m, summary, assets) <==> asset in m || asset in assets
    ensures s in At(WithAssets(m, summary, assets), asset) <==> s in At(m, asset) || (asset in assets && s == summary)
    decreases |assets|
  {
    if assets != [] {
      var front, last := assets[..|assets| - 1], assets[|assets| - 1];
      AssetsAdded(m, summary, front, asset, s);
      assert assets == front + [last];
    }
  }

  ghost predicate Affects(incidents: seq<Incident>, asset: string, s: Json) {
    exists inc :: inc in incidents && asset in inc.assets && inc.summary == s
  }

  ghost predicate Affected(incidents: seq<Incident>, asset: string) {
    exists inc :: inc in incidents && asset in inc.assets
  }

  lemma AffectsMore(front: seq<Incident>, last: Incident, asset: string, s: Json)
    ensures Affects(front + [last], asset, s) <==> Affects(front, asset, s) || (asset in last.assets && last.summary == s)
    ensures Affected(front + [last], asset) <==> Affected(front, asset) || asset in last.assets
  {
    assert last in front + [last];
    assert forall inc :: inc in front ==> inc in front + [last];
  }

  /** An asset is marked exactly if an incident affects it, and with exactly the summaries of
      the incidents that do. */
  lemma {:induction false} AssetsMarked(incidents: seq<Incident>, asset: string, s: Json)
    ensures asset in IncidentsByAsset(incidents) <==> Affected(incidents, asset)
    ensures s in At(IncidentsByAsset(incidents), asset) <==> Affects(incidents, asset, s)
    decreases |incidents|
  {
    hide Affects, Affected, At, WithAssets;
    if incidents == [] {
      NoneAffected(asset, s);
    } else {
      var front, last := incidents[..|incidents| - 1], incidents[|incidents| - 1];
      AssetsMarked(front, asset, s);
      AssetsAdded(IncidentsByAsset(front), last.summary, last.assets, asset, s);
      AffectsMore(front, last, asset, s);
      assert incidents == front + [last];
    }
  }

  lemma NoneAffected(asset: string, s: Json)
    ensures !Affects([], asset, s) && !Affected([], asset) && At(map[], asset) == []
  {
  }

  method MapIncidents(incidents: seq<Incident>) returns (m: IncidentMap)
    ensures m == IncidentsByAsset(incidents)
  {
    m := map[];
    for i := 0 to |incidents|
      invariant m == IncidentsByAsset(incidents[..i])
    {
      var inc := incidents[i];
      ghost var before := m;
      for j := 0 to |inc.assets|
        invariant m == WithAssets(before, inc.summary, inc.assets[..j])
      {
        assert inc.assets[..j + 1][..j] == inc.assets[..j];
        m := m[inc.assets[j] := At(m, inc.assets[j]) + [inc.summary]];
      }
      assert inc.assets[..|inc.assets|] == inc.assets;
      assert incidents[..i + 1][..i] == incidents[..i];
    }
    assert incidents[..|incidents|] == incidents;
  }

  // ----- nodes

  predicate Located(kind: NodeType) {
    kind.SUPPLIER_SITE? || kind.FACTORY? || kind.WAREHOUSE? || kind.PORT? || kind.SHIPMENT?
  }

  predicate Watched(kind: NodeType) {
    kind.SUPPLIER? || kind.SUPPLIER_SITE? || kind.FACTORY? || kind.WAREHOUSE?
  }

  function Health(kind: NodeType, e: Entity): Option<real> {
    match kind
    case SUPPLIER => e.score
    case CARRIER => e.score
    case ROUTE => if e.score.Some? then Some(100.0 - e.score.value) else None
    case _ => None
  }

  function StatusOf(kind: NodeType, e: Entity): Option<string> {
    match kind
    case CARRIER => Some("ACTIVE")
    case PRODUCT => Some("ACTIVE")
    case PORT => Some("OPERATIONAL")
    case ROUTE => Some("OPERATIONAL")
    case _ => e.status
  }

  function Properties(incidents: IncidentMap, kind: NodeType, e: Entity): map<string, Json> {
    if Watched(kind) && e.id in incidents then e.attributes["active_incidents" := JArray(incidents[e.id])] else e.attributes
  }

  /** Records of another organization are left out; ports are shared by all. */
  predicate Kept(b: Builder, kind: NodeType, e: Entity) {
    kind == PORT || e.org.None? || e.org.value == "" || e.org.value == b.org
  }

  function NodeIdOf(b: Builder, kind: NodeType, e: Entity): string {
    ComputeNodeId(b.h, b.org, NodeTypeName(kind), e.id)
  }

  function NodeOf(b: Builder, incidents: IncidentMap, kind: NodeType, e: Entity): TwinNode {
    var n := TwinNode(
               NodeIdOf(b, kind, e), b.org, kind, NodeTypeName(kind), e.id, e.name,
               if Located(kind) then e.latitude else None, if Located(kind) then e.longitude else None,
               Health(kind, e), StatusOf(kind, e), Properties(incidents, kind, e), e.createdAt, None, "");
    n.(fingerprint := NodeFingerprint(b.h, n))
  }

  predicate Sized(s: string, lo: nat, hi: nat) {
    lo <= |s| <= hi
  }

  predicate SizedOpt(s: Option<string>, hi: nat) {
    s.Some? ==> |s.value| <= hi
  }

  /** What the node contract itself demands. The lengths of ids and fingerprints are those of
      UUIDs and SHA-256 digests, which are always right. */
  predicate InRange(n: TwinNode) {
    && !Outside(n.latitude, -90.0, 90.0) && !Outside(n.longitude, -180.0, 180.0) && !Outside(n.healthScore, 0.0, 100.0)
    && Sized(n.organizationId, 1, 64) && Sized(n.sourceEntityType, 1, 64) && Sized(n.sourceEntityId, 1, 64)
    && Sized(n.displayLabel, 1, 255) && SizedOpt(n.status, 64)
  }

  function NodeEntry(b: Builder, incidents: IncidentMap, kind: NodeType): Entity -> seq<Entry<TwinNode>> {
    (e: Entity) => if Kept(b, kind, e) then [Entry(NodeIdOf(b, kind, e), NodeOf(b, incidents, kind, e))] else []
  }

  function IdEntry(b: Builder, kind: NodeType): Entity -> seq<Entry<string>> {
    (e: Entity) => if Kept(b, kind, e) then [Entry(e.id, NodeIdOf(b, kind, e))] else []
  }

  function DigestOf(b: Builder, incidents: IncidentMap, kind: NodeType): Entity -> seq<string> {
    (e: Entity) => if Kept(b, kind, e) then [NodeTypeName(kind) + ":" + e.id + ":" + NodeOf(b, incidents, kind, e).fingerprint] else []
  }

  /** The nine node loops of the builder differ only in what is tabulated by kind above; they
      run in this order. */
  datatype Batch = Batch(kind: NodeType, entities: seq<Entity>)

  function SiteEntity(): Site -> seq<Entity> {
    (s: Site) => [s.entity]
  }

  function RouteEntity(): Route -> seq<Entity> {
    (r: Route) => [r.entity]
  }

  function ShipmentEntity(): Shipment -> seq<Entity> {
    (s: Shipment) => [s.entity]
  }

  function Batches(x: Inputs): seq<Batch> {
    [Batch(SUPPLIER, x.suppliers), Batch(SUPPLIER_SITE, FlatMap(x.sites, SiteEntity())), Batch(FACTORY, x.factories),
     Batch(WAREHOUSE, x.warehouses), Batch(PORT, x.ports), Batch(CARRIER, x.carriers), Batch(PRODUCT, x.products),
     Batch(ROUTE, FlatMap(x.routes, RouteEntity())), Batch(SHIPMENT, FlatMap(x.shipments, ShipmentEntity()))]
  }

  function NodesFrom(b: Builder, incidents: IncidentMap, bs: seq<Batch>): map<string, TwinNode> {
    if bs == [] then map[]
    else
      var last := bs[|bs| - 1];
      InsertAll(NodesFrom(b, incidents, bs[..|bs| - 1]), FlatMap(last.entities, NodeEntry(b, incidents, last.kind)))
  }

  /** The node ids of the entities of these kinds, by entity id. */
  function IdsFrom(b: Builder, bs: seq<Batch>, kinds: set<NodeType>): map<string, string> {
    if bs == [] then map[]
    else
      var last := bs[|bs| - 1];
      var before := IdsFrom(b, bs[..|bs| - 1], kinds);
      if last.kind in kinds then InsertAll(before, FlatMap(last.entities, IdEntry(b, last.kind))) else before
  }

  function DigestsFrom(b: Builder, incidents: IncidentMap, bs: seq<Batch>): seq<string> {
    if bs == [] then []
    else
      var last := bs[|bs| - 1];
      DigestsFrom(b, incidents, bs[..|bs| - 1]) + FlatMap(last.entities, DigestOf(b, incidents, last.kind))
  }

  ghost predicate BatchInRange(b: Builder, incidents: IncidentMap, batch: Batch) {
    forall e :: e in FlatMap(batch.entities, NodeEntry(b, incidents, batch.kind)) ==> InRange(e.value)
  }

  ghost predicate NodesInRange(b: Builder, incidents: IncidentMap, bs: seq<Batch>) {
    forall i :: 0 <= i < |bs| ==> BatchInRange(b, incidents, bs[i])
  }

  const FACILITIES := {SUPPLIER_SITE, FACTORY, WAREHOUSE, PORT}

  /** The nodes, and the node ids by entity id of each sort the edges refer to. */
  datatype Index = Index(
    nodes: map<string, TwinNode>, facilities: map<string, string>, suppliers: map<string, string>,
    carriers: map<string, string>, routes: map<string, string>, products: map<string, string>)

  function IndexFrom(b: Builder, incidents: IncidentMap, bs: seq<Batch>): Index {
    Index(NodesFrom(b, incidents, bs), IdsFrom(b, bs, FACILITIES), IdsFrom(b, bs, {SUPPLIER}),
          IdsFrom(b, bs, {CARRIER}), IdsFrom(b, bs, {ROUTE}), IdsFrom(b, bs, {PRODUCT}))
  }

  // ----- edges

  function Find(m: map<string, string>, id: string): Option<string> {
    if id in m && m[id] != "" then Some(m[id]) else None
  }

  function FindOpt(m: map<string, string>, id: Option<string>): Option<string> {
    if id.Some? && id.value != "" then Find(m, id.value) else None
  }

  datatype Details = Details(
    status: string, capacity: Option<real>, flow: Option<real>, risk: Option<real>, properties: map<string, Json>, reference: string)

  function Plainly(status: string, reference: string): Details {
    Details(status, None, None, None, map[], reference)
  }

  /** The relationships a record can give rise to, each with the tag of its relationship id. */
  datatype Relation = SUP_SITE | ROUTE_CORRIDOR | ORIG_LINK | DEST_LINK | CARRIER_SH | SH_ROUTE | SH_PROD | INV

  function TagOf(r: Relation): string {
    match r
    case SUP_SITE => "sup_site:"
    case ROUTE_CORRIDOR => "route_corridor:"
    case ORIG_LINK => "orig_link:"
    case DEST_LINK => "dest_link:"
    case CARRIER_SH => "carrier_sh:"
    case SH_ROUTE => "sh_route:"
    case SH_PROD => "sh_prod:"
    case INV => "inv:"
  }

  function EdgeTypeOf(r: Relation): EdgeType {
    match r
    case SUP_SITE => SUPPLIES
    case ROUTE_CORRIDOR => TRANSPORT
    case ORIG_LINK => CONNECTS
    case DEST_LINK => CONNECTS
    case CARRIER_SH => CARRIES
    case SH_ROUTE => CONNECTS
    case SH_PROD => FLOW
    case INV => LOCATED_AT
  }

  /** A relationship a record asks for; it becomes an edge if both ends are there. */
  datatype Tie = Tie(from: Option<string>, to: Option<string>, relation: Relation, details: Details)

  datatype Ties = Ties(id: string, ties: seq<Tie>)

  function EdgeOf(b: Builder, id: string, t: Tie): TwinEdge
    requires t.from.Some? && t.to.Some?
  {
    var d := t.details;
    var e := TwinEdge(
               ComputeEdgeId(b.h, b.org, t.from.value, t.to.value, EdgeTypeOf(t.relation), TagOf(t.relation) + id),
               b.org, t.from.value, t.to.value, EdgeTypeOf(t.relation), Some(d.status),
               d.capacity, d.flow, d.risk, d.properties, Some(d.reference), None, "");
    e.(fingerprint := EdgeFingerprint(b.h, e))
  }

  /** What the edge contract itself demands, lengths of ids and fingerprints again aside. */
  predicate EdgeInRange(e: TwinEdge) {
    && !Outside(e.riskScore, 0.0, 100.0) && !Negative(e.flowCapacity) && !Negative(e.currentFlow)
    && Sized(e.organizationId, 1, 64) && SizedOpt(e.status, 64) && SizedOpt(e.sourceReference, 255)
  }

  function TieEntry(b: Builder, id: string): Tie -> seq<Entry<TwinEdge>> {
    (t: Tie) => if t.from.Some? && t.to.Some? then [Entry(EdgeOf(b, id, t).edgeId, EdgeOf(b, id, t))] else []
  }

  function TiesEntry(b: Builder): Ties -> seq<Entry<TwinEdge>> {
    (u: Ties) => FlatMap(u.ties, TieEntry(b, u.id))
  }

  function SiteTies(ix: Index): Site -> seq<Ties> {
    (s: Site) =>
      var id := s.entity.id;
      var d := Details("ACTIVE", s.capacity, None, None, map["relationship" := JString("SUPPLIER_OPERATES_SITE")], "supplier_sites:" + id);
      [Ties(id, [Tie(Find(ix.suppliers, s.supplierId), Find(ix.facilities, id), SUP_SITE, d)])]
  }

  /** The organization of the route is not looked at again here. */
  function RouteTies(ix: Index): Route -> seq<Ties> {
    (r: Route) =>
      var id := r.entity.id;
      var route, origin, destination := Find(ix.routes, id), FindOpt(ix.facilities, r.originId), FindOpt(ix.facilities, r.destinationId);
      var d := Details("OPERATIONAL", None, None, r.entity.score, r.corridor, "routes:" + id);
      [Ties(id, [Tie(origin, destination, ROUTE_CORRIDOR, d),
                 Tie(origin, route, ORIG_LINK, Plainly("OPERATIONAL", "routes:" + id + ":origin")),
                 Tie(route, destination, DEST_LINK, Plainly("OPERATIONAL", "routes:" + id + ":destination"))])]
  }

  function InNodes(ix: Index, id: Option<string>): Option<string> {
    if id.Some? && id.value in ix.nodes then id else None
  }

  function ShipmentTies(b: Builder, ix: Index): Shipment -> seq<Ties> {
    (s: Shipment) =>
      var id := s.entity.id;
      var node := InNodes(ix, Some(NodeIdOf(b, SHIPMENT, s.entity)));
      [Ties(id, [Tie(InNodes(ix, FindOpt(ix.carriers, s.carrierId)), node, CARRIER_SH, Plainly("ACTIVE", "shipments:" + id + ":carrier")),
                 Tie(node, InNodes(ix, FindOpt(ix.routes, s.routeId)), SH_ROUTE, Plainly("ACTIVE", "shipments:" + id + ":route")),
                 Tie(node, InNodes(ix, FindOpt(ix.products, s.productId)), SH_PROD, Plainly("IN_TRANSIT", "shipments:" + id + ":product"))])]
  }

  function StockTies(b: Builder, ix: Index): Stock -> seq<Ties> {
    (s: Stock) =>
      if s.org.Some? && s.org.value != "" && s.org.value != b.org then []
      else
        var d := Details("ACTIVE", None, s.onHand, None, s.levels, "inventory:" + s.id);
        [Ties(s.id, [Tie(FindOpt(ix.facilities, s.facilityId), FindOpt(ix.products, s.productId), INV, d)])]
  }

  /** The four edge loops, in the order they run. */
  function Relationships(b: Builder, ix: Index, x: Inputs): (r: seq<seq<Ties>>)
    ensures |r| == 4
  {
    [FlatMap(x.sites, SiteTies(ix)), FlatMap(x.routes, RouteTies(ix)),
     FlatMap(x.shipments, ShipmentTies(b, ix)), FlatMap(x.stocks, StockTies(b, ix))]
  }

  function EdgesFrom(b: Builder, uss: seq<seq<Ties>>): map<string, TwinEdge> {
    if uss == [] then map[] else InsertAll(EdgesFrom(b, uss[..|uss| - 1]), FlatMap(uss[|uss| - 1], TiesEntry(b)))
  }

  ghost predicate LoopInRange(b: Builder, us: seq<Ties>) {
    forall y :: y in FlatMap(us, TiesEntry(b)) ==> EdgeInRange(y.value)
  }

  ghost predicate EdgesInRange(b: Builder, uss: seq<seq<Ties>>) {
    forall i :: 0 <= i < |uss| ==> LoopInRange(b, uss[i])
  }

  // ----- what is built

  /** What the snapshot contract demands. */
  predicate Packaged(b: Builder) {
    Sized(b.org, 1, 64) && Sized(b.twinId, 1, 64) && Sized(b.version, 1, 32)
  }

  ghost function Built(b: Builder, x: Inputs): Result<Snapshot, BuildError> {
    var incidents := IncidentsByAsset(x.incidents);
    var bs := Batches(x);
    var ix := IndexFrom(b, incidents, bs);
    var uss := Relationships(b, ix, x);
    var edges := EdgesFrom(b, uss);
    if !NodesInRange(b, incidents, bs) || !EdgesInRange(b, uss) || !Packaged(b) then Err(OutOfRange)
    else
      Ok(Snapshot(b.twinId, b.org, b.version, |ix.nodes|, |edges|, ix.nodes, edges,
                  SourceFingerprint(b.h, DigestsFrom(b, incidents, bs)),
                  GraphFingerprint(b.h, b.twinId, b.org, b.version, ix.nodes, edges)))
  }

  // ----- whatever is built is valid

  /** A node stored under its own id, of this tenant, in range, carrying its fingerprint. */
  predicate ProperNode(b: Builder, key: string, n: TwinNode) {
    key == n.nodeId && n.organizationId == b.org && InRange(n) && NodeFingerprint(b.h, n) == n.fingerprint
  }

  function IsProperNode(b: Builder): (string, TwinNode) -> bool {
    (key: string, n: TwinNode) => ProperNode(b, key, n)
  }

  lemma NodeOfProper(b: Builder, incidents: IncidentMap, kind: NodeType, e: Entity)
    ensures var n := NodeOf(b, incidents, kind, e);
            InRange(n) ==> ProperNode(b, NodeIdOf(b, kind, e), n)
  {
    hide InRange, Health, StatusOf, Properties, NodeIdOf;
  }

  lemma BatchProper(b: Builder, incidents: IncidentMap, batch: Batch, y: Entry<TwinNode>)
    requires BatchInRange(b, incidents, batch) && y in FlatMap(batch.entities, NodeEntry(b, incidents, batch.kind))
    ensures ProperNode(b, y.key, y.value)
  {
    hide FlatMap, InRange, NodeOf, NodeIdOf, ProperNode, Kept;
    FlatMapMembers(batch.entities, NodeEntry(b, incidents, batch.kind));
    assert InRange(y.value);
    var e :| e in batch.entities && y in NodeEntry(b, incidents, batch.kind)(e);
    NodeOfProper(b, incidents, batch.kind, e);
  }

  lemma {:induction false} NodesProper(b: Builder, incidents: IncidentMap, bs: seq<Batch>)
    requires NodesInRange(b, incidents, bs)
    ensures forall k :: k in NodesFrom(b, incidents, bs) ==> ProperNode(b, k, NodesFrom(b, incidents, bs)[k])
    decreases |bs|
  {
    hide ProperNode, FlatMap, BatchInRange;
    if bs != [] {
      var front, last := bs[..|bs| - 1], bs[|bs| - 1];
      NodesProper(b, incidents, front);
      var es := FlatMap(last.entities, NodeEntry(b, incidents, last.kind));
      forall y: Entry<TwinNode> | y in es
        ensures IsProperNode(b)(y.key, y.value)
      {
        BatchProper(b, incidents, last, y);
      }
      InsertAllKeeps(NodesFrom(b, incidents, front), es, IsProperNode(b));
    }
  }

  ghost predicate KeptAt(b: Builder, bs: seq<Batch>, i: int, e: Entity) {
    0 <= i < |bs| && e in bs[i].entities && Kept(b, bs[i].kind, e)
  }

  /** This is the node of a kept record, under its id. */
  ghost predicate NodeFor(b: Builder, incidents: IncidentMap, bs: seq<Batch>, k: string, n: TwinNode) {
    exists i, e :: KeptAt(b, bs, i, e) && k == NodeIdOf(b, bs[i].kind, e) && n == NodeOf(b, incidents, bs[i].kind, e)
  }

  lemma NodeEntryFor(b: Builder, incidents: IncidentMap, bs: seq<Batch>, i: nat, y: Entry<TwinNode>)
    requires i < |bs| && y in FlatMap(bs[i].entities, NodeEntry(b, incidents, bs[i].kind))
    ensures NodeFor(b, incidents, bs, y.key, y.value)
  {
    hide FlatMap, Kept, NodeOf, NodeIdOf;
    FlatMapMembers(bs[i].entities, NodeEntry(b, incidents, bs[i].kind));
    var e :| e in bs[i].entities && y in NodeEntry(b, incidents, bs[i].kind)(e);
    assert KeptAt(b, bs, i, e);
  }

  lemma KeptEntry(b: Builder, incidents: IncidentMap, batch: Batch, e: Entity)
    requires e in batch.entities && Kept(b, batch.kind, e)
    ensures Entry(NodeIdOf(b, batch.kind, e), NodeOf(b, incidents, batch.kind, e)) in FlatMap(batch.entities, NodeEntry(b, incidents, batch.kind))
    ensures Entry(e.id, NodeIdOf(b, batch.kind, e)) in FlatMap(batch.entities, IdEntry(b, batch.kind))
  {
    hide FlatMap, Kept, NodeOf, NodeIdOf;
    FlatMapMembers(batch.entities, NodeEntry(b, incidents, batch.kind));
    FlatMapMembers(batch.entities, IdEntry(b, batch.kind));
    assert Entry(NodeIdOf(b, batch.kind, e), NodeOf(b, incidents, batch.kind, e)) in NodeEntry(b, incidents, batch.kind)(e);
    assert Entry(e.id, NodeIdOf(b, batch.kind, e)) in IdEntry(b, batch.kind)(e);
  }

  lemma NodeForMore(b: Builder, incidents: IncidentMap, bs: seq<Batch>, k: string, n: TwinNode)
    requires bs != [] && NodeFor(b, incidents, bs[..|bs| - 1], k, n)
    ensures NodeFor(b, incidents, bs, k, n)
  {
    hide Kept, NodeOf, NodeIdOf;
    var front := bs[..|bs| - 1];
    var i, e :| KeptAt(b, front, i, e) && k == NodeIdOf(b, front[i].kind, e) && n == NodeOf(b, incidents, front[i].kind, e);
    assert KeptAt(b, bs, i, e);
  }

  /** The nodes are those of the kept records, and no others. */
  lemma {:induction false} NodesExactly(b: Builder, incidents: IncidentMap, bs: seq<Batch>)
    ensures forall k :: k in NodesFrom(b, incidents, bs) ==> NodeFor(b, incidents, bs, k, NodesFrom(b, incidents, bs)[k])
    ensures forall i, e :: KeptAt(b, bs, i, e) ==> NodeIdOf(b, bs[i].kind, e) in NodesFrom(b, incidents, bs)
    decreases |bs|
  {
    hide FlatMap, InsertAll, NodeFor, Kept, NodeIdOf, NodeOf;
    if bs != [] {
      var n := |bs| - 1;
      var front, last := bs[..n], bs[n];
      NodesExactly(b, incidents, front);
      var nodes, es := NodesFrom(b, incidents, front), FlatMap(last.entities, NodeEntry(b, incidents, last.kind));
      InsertAllHas(nodes, es);
      forall k | k in NodesFrom(b, incidents, bs)
        ensures NodeFor(b, incidents, bs, k, NodesFrom(b, incidents, bs)[k])
      {
        if y :| y in es && y.key == k && y.value == NodesFrom(b, incidents, bs)[k] {
          NodeEntryFor(b, incidents, bs, n, y);
        } else {
          NodeForMore(b, incidents, bs, k, nodes[k]);
        }
      }
      forall i, e | KeptAt(b, bs, i, e)
        ensures NodeIdOf(b, bs[i].kind, e) in NodesFrom(b, incidents, bs)
      {
        if i < n {
          assert KeptAt(b, front, i, e);
        } else {
          KeptEntry(b, incidents, last, e);
        }
      }
    }
  }

  lemma NodeIdsPlain(b: Builder, incidents: IncidentMap, bs: seq<Batch>)
    requires b.h.PlainIds()
    ensures forall k :: k in NodesFrom(b, incidents, bs) ==> k != "" && ':' !in k
  {
    hide NodesFrom, KeptAt, NodeOf, NodeTypeName;
    NodesExactly(b, incidents, bs);
  }

  lemma BatchKnown(b: Builder, incidents: IncidentMap, batch: Batch, y: Entry<string>)
    requires y in FlatMap(batch.entities, IdEntry(b, batch.kind))
    ensures exists z :: z in FlatMap(batch.entities, NodeEntry(b, incidents, batch.kind)) && z.key == y.value
  {
    FlatMapMembers(batch.entities, IdEntry(b, batch.kind));
    FlatMapMembers(batch.entities, NodeEntry(b, incidents, batch.kind));
    hide FlatMap, NodeOf, Kept, NodeIdOf;
    var e :| e in batch.entities && y in IdEntry(b, batch.kind)(e);
    var z := Entry(NodeIdOf(b, batch.kind, e), NodeOf(b, incidents, batch.kind, e));
    assert z in NodeEntry(b, incidents, batch.kind)(e);
  }

  /** Every id handed to the edges is the id of a node. */
  lemma {:induction false} IdsKnown(b: Builder, incidents: IncidentMap, bs: seq<Batch>, kinds: set<NodeType>)
    ensures forall id :: id in IdsFrom(b, bs, kinds) ==> IdsFrom(b, bs, kinds)[id] in NodesFrom(b, incidents, bs)
    decreases |bs|
  {
    hide FlatMap, InsertAll;
    if bs != [] {
      var front, last := bs[..|bs| - 1], bs[|bs| - 1];
      IdsKnown(b, incidents, front, kinds);
      var nodes, ids := NodesFrom(b, incidents, front), IdsFrom(b, front, kinds);
      var es, ys := FlatMap(last.entities, NodeEntry(b, incidents, last.kind)), FlatMap(last.entities, IdEntry(b, last.kind));
      InsertAllHas(nodes, es);
      InsertAllHas(ids, ys);
      forall y | y in ys
        ensures y.value in InsertAll(nodes, es)
      {
        BatchKnown(b, incidents, last, y);
      }
    }
  }

  ghost predicate Sound(ix: Index) {
    && (forall id :: id in ix.facilities ==> ix.facilities[id] in ix.nodes)
    && (forall id :: id in ix.suppliers ==> ix.suppliers[id] in ix.nodes)
    && (forall id :: id in ix.carriers ==> ix.carriers[id] in ix.nodes)
    && (forall id :: id in ix.routes ==> ix.routes[id] in ix.nodes)
    && (forall id :: id in ix.products ==> ix.products[id] in ix.nodes)
  }

  lemma IndexSound(b: Builder, incidents: IncidentMap, bs: seq<Batch>)
    ensures Sound(IndexFrom(b, incidents, bs))
  {
    IdsKnown(b, incidents, bs, FACILITIES);
    IdsKnown(b, incidents, bs, {SUPPLIER});
    IdsKnown(b, incidents, bs, {CARRIER});
    IdsKnown(b, incidents, bs, {ROUTE});
    IdsKnown(b, incidents, bs, {PRODUCT});
    hide IdsFrom, NodesFrom;
  }

  /** An edge stored under its own id, of this tenant, between nodes, carrying its fingerprint. */
  predicate ProperEdge(b: Builder, known: set<string>, key: string, e: TwinEdge) {
    && key == e.edgeId && e.organizationId == b.org && EdgeFingerprint(b.h, e) == e.fingerprint
    && e.fromNodeId in known && e.toNodeId in known && EdgeInRange(e)
  }

  function IsProperEdge(b: Builder, known: set<string>): (string, TwinEdge) -> bool {
    (key: string, e: TwinEdge) => ProperEdge(b, known, key, e)
  }

  ghost predicate EndsKnown(known: set<string>, u: Ties) {
    forall t :: t in u.ties ==> (t.from.Some? ==> t.from.value in known) && (t.to.Some? ==> t.to.value in known)
  }

  lemma SiteEndsKnown(ix: Index, s: Site, u: Ties)
    requires Sound(ix) && u in SiteTies(ix)(s)
    ensures EndsKnown(ix.nodes.Keys, u)
  {
  }

  lemma RouteEndsKnown(ix: Index, r: Route, u: Ties)
    requires Sound(ix) && u in RouteTies(ix)(r)
    ensures EndsKnown(ix.nodes.Keys, u)
  {
  }

  lemma ShipmentEndsKnown(b: Builder, ix: Index, s: Shipment, u: Ties)
    requires Sound(ix) && u in ShipmentTies(b, ix)(s)
    ensures EndsKnown(ix.nodes.Keys, u)
  {
    hide Find, FindOpt, Sound, NodeIdOf, Plainly;
  }

  lemma StockEndsKnown(b: Builder, ix: Index, s: Stock, u: Ties)
    requires Sound(ix) && u in StockTies(b, ix)(s)
    ensures EndsKnown(ix.nodes.Keys, u)
  {
  }

  lemma AllEndsKnown(b: Builder, ix: Index, x: Inputs, i: nat, u: Ties)
    requires Sound(ix) && i < 4 && u in Relationships(b, ix, x)[i]
    ensures EndsKnown(ix.nodes.Keys, u)
  {
    FlatMapMembers(x.sites, SiteTies(ix));
    FlatMapMembers(x.routes, RouteTies(ix));
    FlatMapMembers(x.shipments, ShipmentTies(b, ix));
    FlatMapMembers(x.stocks, StockTies(b, ix));
    hide EndsKnown, Sound, FlatMap;
    if i == 0 {
      var s :| s in x.sites && u in SiteTies(ix)(s);
      SiteEndsKnown(ix, s, u);
    } else if i == 1 {
      var r :| r in x.routes && u in RouteTies(ix)(r);
      RouteEndsKnown(ix, r, u);
    } else if i == 2 {
      var s :| s in x.shipments && u in ShipmentTies(b, ix)(s);
      ShipmentEndsKnown(b, ix, s, u);
    } else {
      var s :| s in x.stocks && u in StockTies(b, ix)(s);
      StockEndsKnown(b, ix, s, u);
    }
  }

  lemma EdgeOfProper(b: Builder, known: set<string>, id: string, t: Tie)
    requires t.from.Some? && t.to.Some? && t.from.value in known && t.to.value in known && EdgeInRange(EdgeOf(b, id, t))
    ensures ProperEdge(b, known, EdgeOf(b, id, t).edgeId, EdgeOf(b, id, t))
  {
    hide ComputeEdgeId, EdgeTypeOf, TagOf, EdgeInRange;
  }

  lemma TiesProper(b: Builder, known: set<string>, u: Ties, y: Entry<TwinEdge>)
    requires EndsKnown(known, u) && y in TiesEntry(b)(u) && EdgeInRange(y.value)
    ensures ProperEdge(b, known, y.key, y.value)
  {
    FlatMapMembers(u.ties, TieEntry(b, u.id));
    hide FlatMap, EdgeOf, ProperEdge, EdgeInRange;
    var t :| t in u.ties && y in TieEntry(b, u.id)(t);
    EdgeOfProper(b, known, u.id, t);
  }

  lemma {:induction false} EdgesProper(b: Builder, known: set<string>, uss: seq<seq<Ties>>)
    requires EdgesInRange(b, uss) && forall i, u :: 0 <= i < |uss| && u in uss[i] ==> EndsKnown(known, u)
    ensures forall k :: k in EdgesFrom(b, uss) ==> ProperEdge(b, known, k, EdgesFrom(b, uss)[k])
    decreases |uss|
  {
    hide ProperEdge, EndsKnown, EdgeInRange;
    if uss != [] {
      var front, last := uss[..|uss| - 1], uss[|uss| - 1];
      EdgesProper(b, known, front);
      FlatMapMembers(last, TiesEntry(b));
      forall y: Entry<TwinEdge> | y in FlatMap(last, TiesEntry(b))
        ensures IsProperEdge(b, known)(y.key, y.value)
      {
        assert LoopInRange(b, last);
        var u :| u in last && y in TiesEntry(b)(u);
        TiesProper(b, known, u, y);
      }
      InsertAllKeeps(EdgesFrom(b, front), FlatMap(last, TiesEntry(b)), IsProperEdge(b, known));
    }
  }

  lemma ProperNodeValid(b: Builder, key: string, n: TwinNode)
    requires ProperNode(b, key, n)
    ensures ValidNode(b.h, n, b.org)
  {
    hide Outside, NodeFingerprint;
  }

  lemma ProperEdgeValid(b: Builder, known: set<string>, key: string, e: TwinEdge)
    requires ProperEdge(b, known, key, e)
    ensures ValidEdge(b.h, e, known, b.org)
  {
    hide Outside, Negative, EdgeFingerprint;
  }

  lemma ProperGraphValid(b: Builder, nodes: map<string, TwinNode>, edges: map<string, TwinEdge>)
    requires forall k :: k in nodes ==> ProperNode(b, k, nodes[k])
    requires forall k :: k in edges ==> ProperEdge(b, nodes.Keys, k, edges[k])
    ensures ValidGraph(b.h, nodes, edges, b.org)
  {
    hide ValidNode, ValidEdge, EdgeInRange, InRange, NodeFingerprint, EdgeFingerprint;
    assert KnownIds(nodes) == nodes.Keys;
    forall k | k in nodes
      ensures ValidNode(b.h, nodes[k], b.org)
    {
      ProperNodeValid(b, k, nodes[k]);
    }
    forall k | k in edges
      ensures ValidEdge(b.h, edges[k], nodes.Keys, b.org)
    {
      ProperEdgeValid(b, nodes.Keys, k, edges[k]);
    }
  }

  /** Once its nodes and edges are constructed, the graph passes every check of the validator. */
  lemma GraphValid(b: Builder, incidents: IncidentMap, x: Inputs)
    requires NodesInRange(b, incidents, Batches(x))
    requires EdgesInRange(b, Relationships(b, IndexFrom(b, incidents, Batches(x)), x))
    ensures var ix := IndexFrom(b, incidents, Batches(x));
            ValidGraph(b.h, ix.nodes, EdgesFrom(b, Relationships(b, ix, x)), b.org)
  {
    var bs := Batches(x);
    var ix := IndexFrom(b, incidents, bs);
    var uss := Relationships(b, ix, x);
    hide Batches, NodesInRange, EdgesInRange, Sound, EndsKnown, ProperNode, ProperEdge, NodesFrom, EdgesFrom, IdsFrom, ValidGraph;
    IndexSound(b, incidents, bs);
    NodesProper(b, incidents, bs);
    forall i, u | 0 <= i < |uss| && u in uss[i]
      ensures EndsKnown(ix.nodes.Keys, u)
    {
      AllEndsKnown(b, ix, x, i, u);
    }
    EdgesProper(b, ix.nodes.Keys, uss);
    ProperGraphValid(b, ix.nodes, EdgesFrom(b, uss));
  }

  /** Every snapshot that is built passes the validation of snapshots. */
  lemma BuiltValid(b: Builder, x: Inputs)
    requires Built(b, x).Ok?
    ensures ValidSnapshot(b.h, Built(b, x).value)
  {
    hide Batches, NodesInRange, EdgesInRange, NodesFrom, EdgesFrom, IdsFrom, ValidGraph, GraphFingerprint, Relationships, IncidentsByAsset;
    GraphValid(b, IncidentsByAsset(x.incidents), x);
  }

  // ----- what is refused

  predicate Within(x: Option<real>, lo: real, hi: real) {
    x.Some? ==> lo <= x.value <= hi
  }

  /** A record whose id, label and status have the lengths the contract allows, whose location,
      if its kind has one, is on the globe, and whose score, if its kind has one, is a percentage. */
  predicate Plausible(kind: NodeType, e: Entity) {
    && Sized(e.id, 1, 64) && Sized(e.name, 1, 255)
    && (kind !in {CARRIER, PRODUCT, PORT, ROUTE} ==> SizedOpt(e.status, 64))
    && (Located(kind) ==> Within(e.latitude, -90.0, 90.0) && Within(e.longitude, -180.0, 180.0))
    && (kind in {SUPPLIER, CARRIER, ROUTE} ==> Within(e.score, 0.0, 100.0))
  }

  /** The node loops refuse exactly the inputs that keep an implausible record, or keep any record
      for an organization whose name is too long; a route's risk is as good a percentage as the
      health derived from it. */
  lemma NodesRefusedExactly(b: Builder, incidents: IncidentMap, bs: seq<Batch>)
    ensures NodesInRange(b, incidents, bs)
            <==> forall i, e :: 0 <= i < |bs| && e in bs[i].entities && Kept(b, bs[i].kind, e) ==>
                                  Plausible(bs[i].kind, e) && Sized(b.org, 1, 64)
  {
    hide FlatMap, NodeOf, NodeIdOf, Kept, Plausible, InRange;
    forall i | 0 <= i < |bs|
      ensures BatchInRange(b, incidents, bs[i])
              <==> forall e :: e in bs[i].entities && Kept(b, bs[i].kind, e) ==> Plausible(bs[i].kind, e) && Sized(b.org, 1, 64)
    {
      BatchRefusedExactly(b, incidents, bs[i]);
    }
    hide BatchInRange;
  }

  lemma BatchRefusedExactly(b: Builder, incidents: IncidentMap, batch: Batch)
    ensures BatchInRange(b, incidents, batch)
            <==> forall e :: e in batch.entities && Kept(b, batch.kind, e) ==> Plausible(batch.kind, e) && Sized(b.org, 1, 64)
  {
    hide FlatMap, NodeOf, NodeIdOf, Kept, Plausible, InRange;
    var f := NodeEntry(b, incidents, batch.kind);
    FlatMapMembers(batch.entities, f);
    forall e | e in batch.entities && Kept(b, batch.kind, e)
      ensures Plausible(batch.kind, e) && Sized(b.org, 1, 64) <==> InRange(NodeOf(b, incidents, batch.kind, e))
    {
      PlausibleInRange(b, incidents, batch.kind, e);
    }
    if BatchInRange(b, incidents, batch) {
      forall e | e in batch.entities && Kept(b, batch.kind, e)
        ensures InRange(NodeOf(b, incidents, batch.kind, e))
      {
        assert Entry(NodeIdOf(b, batch.kind, e), NodeOf(b, incidents, batch.kind, e)) in f(e);
      }
    }
  }

  lemma PlausibleInRange(b: Builder, incidents: IncidentMap, kind: NodeType, e: Entity)
    ensures Plausible(kind, e) && Sized(b.org, 1, 64) <==> InRange(NodeOf(b, incidents, kind, e))
  {
    hide Properties, NodeIdOf, NodeTypeName, NodeFingerprint, Located;
    NameSized(kind);
  }

  lemma NameSized(kind: NodeType)
    ensures Sized(NodeTypeName(kind), 1, 64)
  {
  }

  // ----- the order of the inputs

  /** Two records of a collection with the same id, once stripped, are the same record. */
  ghost predicate Unique<R(!new)>(rs: seq<R>, id: R -> string) {
    forall x, y :: x in rs && y in rs && Strip(id(x)) == Strip(id(y)) ==> x == y
  }

  function EntityId(): Entity -> string {
    (e: Entity) => e.id
  }

  function SiteId(): Site -> string {
    (s: Site) => s.entity.id
  }

  function RouteId(): Route -> string {
    (r: Route) => r.entity.id
  }

  function ShipmentId(): Shipment -> string {
    (s: Shipment) => s.entity.id
  }

  function StockId(): Stock -> string {
    (s: Stock) => s.id
  }

  function TiesId(): Ties -> string {
    (u: Ties) => u.id
  }

  lemma NodeEntriesConsistent(b: Builder, incidents: IncidentMap, kind: NodeType, es: seq<Entity>)
    requires b.h.InjectiveIds() && Unique(es, EntityId())
    ensures Consistent(FlatMap(es, NodeEntry(b, incidents, kind)))
  {
    hide FlatMap, NodeOf, Strip, Lower, CleanOrg, NodeTypeName, Kept;
    var f := NodeEntry(b, incidents, kind);
    FlatMapMembers(es, f);
    forall p: Entry<TwinNode>, q: Entry<TwinNode> | p in FlatMap(es, f) && q in FlatMap(es, f) && p.key == q.key
      ensures p == q
    {
      var x :| x in es && p in f(x);
      var y :| y in es && q in f(y);
      TypeLowered(kind);
      NodeIdsApart(b.h, b.org, NodeTypeName(kind), x.id, b.org, NodeTypeName(kind), y.id);
      assert EntityId()(x) == x.id && EntityId()(y) == y.id;
    }
  }

  lemma IdEntriesConsistent(b: Builder, kind: NodeType, es: seq<Entity>)
    requires Unique(es, EntityId())
    ensures Consistent(FlatMap(es, IdEntry(b, kind)))
  {
    hide FlatMap, NodeIdOf, Strip, Kept;
    var f := IdEntry(b, kind);
    FlatMapMembers(es, f);
    forall p: Entry<string>, q: Entry<string> | p in FlatMap(es, f) && q in FlatMap(es, f) && p.key == q.key
      ensures p == q
    {
      var x :| x in es && p in f(x);
      var y :| y in es && q in f(y);
      assert EntityId()(x) == x.id && EntityId()(y) == y.id;
    }
  }

  lemma FlatMapSameMembers<A(!new), B(!new)>(a: seq<A>, c: seq<A>, f: A -> seq<B>)
    requires multiset(a) == multiset(c)
    ensures forall y :: y in FlatMap(a, f) <==> y in FlatMap(c, f)
  {
    PermutedMembers(a, c);
    FlatMapMembers(a, f);
    FlatMapMembers(c, f);
    hide FlatMap;
  }

  ghost predicate Rearranged(p: Batch, q: Batch) {
    p.kind == q.kind && multiset(p.entities) == multiset(q.entities) && Unique(p.entities, EntityId())
  }

  ghost predicate AllRearranged(bs: seq<Batch>, cs: seq<Batch>) {
    |bs| == |cs| && forall i :: 0 <= i < |bs| ==> Rearranged(bs[i], cs[i])
  }

  lemma BatchOrder(b: Builder, incidents: IncidentMap, p: Batch, q: Batch, nodes: map<string, TwinNode>, ids: map<string, string>)
    requires b.h.InjectiveIds() && Rearranged(p, q)
    ensures InsertAll(nodes, FlatMap(p.entities, NodeEntry(b, incidents, p.kind)))
            == InsertAll(nodes, FlatMap(q.entities, NodeEntry(b, incidents, q.kind)))
    ensures InsertAll(ids, FlatMap(p.entities, IdEntry(b, p.kind))) == InsertAll(ids, FlatMap(q.entities, IdEntry(b, q.kind)))
    ensures BatchInRange(b, incidents, p) <==> BatchInRange(b, incidents, q)
    ensures multiset(FlatMap(p.entities, DigestOf(b, incidents, p.kind))) == multiset(FlatMap(q.entities, DigestOf(b, incidents, q.kind)))
  {
    hide FlatMap, InsertAll, Unique, NodeEntry, IdEntry, DigestOf, InRange;
    NodeEntriesConsistent(b, incidents, p.kind, p.entities);
    IdEntriesConsistent(b, p.kind, p.entities);
    FlatMapSameMembers(p.entities, q.entities, NodeEntry(b, incidents, p.kind));
    FlatMapSameMembers(p.entities, q.entities, IdEntry(b, p.kind));
    InsertAllCommutes(nodes, FlatMap(p.entities, NodeEntry(b, incidents, p.kind)), FlatMap(q.entities, NodeEntry(b, incidents, p.kind)));
    InsertAllCommutes(ids, FlatMap(p.entities, IdEntry(b, p.kind)), FlatMap(q.entities, IdEntry(b, p.kind)));
    FlatMapPermutes(p.entities, q.entities, DigestOf(b, incidents, p.kind));
  }

  lemma {:induction false} BatchesOrder(b: Builder, incidents: IncidentMap, bs: seq<Batch>, cs: seq<Batch>, kinds: set<NodeType>)
    requires b.h.InjectiveIds() && AllRearranged(bs, cs)
    ensures NodesFrom(b, incidents, bs) == NodesFrom(b, incidents, cs)
    ensures IdsFrom(b, bs, kinds) == IdsFrom(b, cs, kinds)
    ensures multiset(DigestsFrom(b, incidents, bs)) == multiset(DigestsFrom(b, incidents, cs))
    decreases |bs|
  {
    hide FlatMap, InsertAll, BatchInRange;
    if bs != [] {
      var n := |bs| - 1;
      BatchesOrder(b, incidents, bs[..n], cs[..n], kinds);
      assert Rearranged(bs[n], cs[n]);
      BatchOrder(b, incidents, bs[n], cs[n], NodesFrom(b, incidents, bs[..n]), IdsFrom(b, bs[..n], kinds));
      hide Rearranged;
    }
  }

  /** No two ties of one record are the same relationship. */
  ghost predicate Simple(u: Ties) {
    forall s, t :: s in u.ties && t in u.ties && s.relation == t.relation ==> s == t
  }

  lemma SimpleTies(u: Ties, s: Tie, t: Tie)
    requires Simple(u) && s in u.ties && t in u.ties && s.relation == t.relation
    ensures s == t
  {
  }

  lemma RelationsApart(r: Relation, s: Relation, x: string, y: string)
    requires EdgeTypeOf(r) == EdgeTypeOf(s) && TagOf(r) + x == TagOf(s) + y
    ensures r == s && x == y
  {
    assert TagOf(r)[0] == (TagOf(r) + x)[0] && TagOf(s)[0] == (TagOf(s) + y)[0];
    assert r == s;
    Untag(TagOf(r), x, y);
  }

  lemma TagStripped(r: Relation, id: string)
    ensures Strip(TagOf(r) + id) == TagOf(r) + StripRight(id)
  {
    StripAfter(TagOf(r), id);
  }

  /** Both ends, as far as they are there, are free of colons. */
  ghost predicate PlainEnds(u: Ties) {
    forall t :: t in u.ties ==> (t.from.Some? ==> ':' !in t.from.value) && (t.to.Some? ==> ':' !in t.to.value)
  }

  lemma SameEdgeSameTie(b: Builder, u: Ties, s: Tie, v: Ties, t: Tie)
    requires b.h.InjectiveIds() && PlainEnds(u) && s in u.ties && PlainEnds(v) && t in v.ties
    requires s.from.Some? && s.to.Some? && t.from.Some? && t.to.Some?
    requires EdgeOf(b, u.id, s).edgeId == EdgeOf(b, v.id, t).edgeId
    ensures s.relation == t.relation && Strip(u.id) == Strip(v.id)
  {
    hide TagOf, EdgeTypeOf, ComputeEdgeId, StripRight, StripLeft, EdgeFingerprint;
    RelationIdsAgree(b, s.from.value, s.to.value, s.relation, u.id, t.from.value, t.to.value, t.relation, v.id);
  }

  /** Two edges of one tenant share an id exactly if they are the same relationship, between the
      same nodes, of records whose ids differ at most in trailing spaces. */
  lemma RelationIdsAgree(b: Builder, from1: string, to1: string, r: Relation, id1: string, from2: string, to2: string, s: Relation, id2: string)
    requires b.h.InjectiveIds() && ':' !in from1 && ':' !in to1 && ':' !in from2 && ':' !in to2
    ensures ComputeEdgeId(b.h, b.org, from1, to1, EdgeTypeOf(r), TagOf(r) + id1)
            == ComputeEdgeId(b.h, b.org, from2, to2, EdgeTypeOf(s), TagOf(s) + id2)
            <==> Strip(from1) == Strip(from2) && Strip(to1) == Strip(to2) && r == s && StripRight(id1) == StripRight(id2)
  {
    hide TagOf, EdgeTypeOf, Strip, ComputeEdgeId;
    TagStripped(r, id1);
    TagStripped(s, id2);
    EdgeIdsAgree(b.h, b.org, from1, to1, EdgeTypeOf(r), TagOf(r) + id1, from2, to2, EdgeTypeOf(s), TagOf(s) + id2);
    if EdgeTypeOf(r) == EdgeTypeOf(s) && TagOf(r) + StripRight(id1) == TagOf(s) + StripRight(id2) {
      RelationsApart(r, s, StripRight(id1), StripRight(id2));
    }
  }

  lemma TieEntriesConsistent(b: Builder, us: seq<Ties>)
    requires b.h.InjectiveIds() && Unique(us, TiesId()) && forall u :: u in us ==> Simple(u) && PlainEnds(u)
    ensures Consistent(FlatMap(us, TiesEntry(b)))
  {
    hide FlatMap, EdgeOf, Strip, Simple, PlainEnds;
    var f := TiesEntry(b);
    FlatMapMembers(us, f);
    forall p: Entry<TwinEdge>, q: Entry<TwinEdge> | p in FlatMap(us, f) && q in FlatMap(us, f) && p.key == q.key
      ensures p == q
    {
      var u :| u in us && p in f(u);
      var v :| v in us && q in f(v);
      FlatMapMembers(u.ties, TieEntry(b, u.id));
      FlatMapMembers(v.ties, TieEntry(b, v.id));
      var s :| s in u.ties && p in TieEntry(b, u.id)(s);
      var t :| t in v.ties && q in TieEntry(b, v.id)(t);
      SameEdgeSameTie(b, u, s, v, t);
      assert TiesId()(u) == u.id && TiesId()(v) == v.id;
      SimpleTies(u, s, t);
    }
  }

  ghost predicate Regrouped(us: seq<Ties>, vs: seq<Ties>) {
    multiset(us) == multiset(vs) && Unique(us, TiesId()) && forall u :: u in us ==> Simple(u)
  }

  lemma {:induction false} EdgesOrder(b: Builder, uss: seq<seq<Ties>>, vss: seq<seq<Ties>>)
    requires b.h.InjectiveIds() && |uss| == |vss| && forall i :: 0 <= i < |uss| ==> Regrouped(uss[i], vss[i])
    requires forall i, u :: 0 <= i < |uss| && u in uss[i] ==> PlainEnds(u)
    ensures EdgesFrom(b, uss) == EdgesFrom(b, vss)
    ensures EdgesInRange(b, uss) <==> EdgesInRange(b, vss)
    decreases |uss|
  {
    hide FlatMap, InsertAll, EdgeInRange, Unique, Simple, PlainEnds;
    forall i | 0 <= i < |uss|
      ensures LoopInRange(b, uss[i]) <==> LoopInRange(b, vss[i])
    {
      assert Regrouped(uss[i], vss[i]);
      FlatMapSameMembers(uss[i], vss[i], TiesEntry(b));
    }
    if uss != [] {
      var n := |uss| - 1;
      EdgesOrder(b, uss[..n], vss[..n]);
      assert Regrouped(uss[n], vss[n]);
      TieEntriesConsistent(b, uss[n]);
      FlatMapSameMembers(uss[n], vss[n], TiesEntry(b));
      InsertAllCommutes(EdgesFrom(b, uss[..n]), FlatMap(uss[n], TiesEntry(b)), FlatMap(vss[n], TiesEntry(b)));
    }
  }

  /** One record, one group of ties or none, under the record's own id. */
  ghost predicate Grouping<R(!new)>(id: R -> string, f: R -> seq<Ties>) {
    forall r, u :: u in f(r) ==> f(r) == [u] && u.id == id(r) && Simple(u)
  }

  lemma LoopUnique<R(!new)>(rs: seq<R>, id: R -> string, f: R -> seq<Ties>)
    requires Unique(rs, id) && Grouping(id, f)
    ensures Unique(FlatMap(rs, f), TiesId()) && forall u :: u in FlatMap(rs, f) ==> Simple(u)
  {
    FlatMapMembers(rs, f);
    hide FlatMap, Simple, Strip;
    var us := FlatMap(rs, f);
    forall u, v | u in us && v in us && Strip(TiesId()(u)) == Strip(TiesId()(v))
      ensures u == v
    {
      var r :| r in rs && u in f(r);
      var q :| q in rs && v in f(q);
      assert Strip(id(r)) == Strip(id(q));
      assert f(r) == [u] && f(q) == [v];
    }
  }

  lemma LoopRegrouped<R(!new)>(rs: seq<R>, qs: seq<R>, id: R -> string, f: R -> seq<Ties>)
    requires multiset(rs) == multiset(qs) && Unique(rs, id) && Grouping(id, f)
    ensures Regrouped(FlatMap(rs, f), FlatMap(qs, f))
  {
    hide FlatMap, Simple, Unique, Grouping;
    FlatMapPermutes(rs, qs, f);
    LoopUnique(rs, id, f);
  }

  lemma SitesGroup(ix: Index)
    ensures Grouping(SiteId(), SiteTies(ix))
  {
    hide Find;
  }

  lemma ThreeSimple(u: Ties)
    requires |u.ties| == 3
    requires u.ties[0].relation != u.ties[1].relation && u.ties[0].relation != u.ties[2].relation && u.ties[1].relation != u.ties[2].relation
    ensures Simple(u)
  {
    forall s, t | s in u.ties && t in u.ties && s.relation == t.relation
      ensures s == t
    {
      var i :| 0 <= i < 3 && u.ties[i] == s;
      var j :| 0 <= j < 3 && u.ties[j] == t;
    }
  }

  lemma RouteGroup(ix: Index, r: Route)
    ensures RouteTies(ix)(r) == [RouteTies(ix)(r)[0]]
    ensures RouteTies(ix)(r)[0].id == r.entity.id && Simple(RouteTies(ix)(r)[0])
  {
    hide Find, FindOpt, Plainly, Simple;
    ThreeSimple(RouteTies(ix)(r)[0]);
  }

  lemma RoutesGroup(ix: Index)
    ensures Grouping(RouteId(), RouteTies(ix))
  {
    hide RouteTies, Simple;
    forall r, u | u in RouteTies(ix)(r)
      ensures RouteTies(ix)(r) == [u] && u.id == RouteId()(r) && Simple(u)
    {
      RouteGroup(ix, r);
    }
  }

  lemma ShipmentGroup(b: Builder, ix: Index, s: Shipment)
    ensures ShipmentTies(b, ix)(s) == [ShipmentTies(b, ix)(s)[0]]
    ensures ShipmentTies(b, ix)(s)[0].id == s.entity.id && Simple(ShipmentTies(b, ix)(s)[0])
  {
    hide InNodes, FindOpt, Plainly, NodeIdOf, Simple;
    ThreeSimple(ShipmentTies(b, ix)(s)[0]);
  }

  lemma ShipmentsGroup(b: Builder, ix: Index)
    ensures Grouping(ShipmentId(), ShipmentTies(b, ix))
  {
    hide ShipmentTies, Simple;
    forall s, u | u in ShipmentTies(b, ix)(s)
      ensures ShipmentTies(b, ix)(s) == [u] && u.id == ShipmentId()(s) && Simple(u)
    {
      ShipmentGroup(b, ix, s);
    }
  }

  lemma StocksGroup(b: Builder, ix: Index)
    ensures Grouping(StockId(), StockTies(b, ix))
  {
    hide FindOpt;
  }

  /** The same collections, each in any order, and the same incidents in the same order; the
      ids within a collection are unique. */
  ghost predicate Shuffled(x: Inputs, y: Inputs) {
    && multiset(x.suppliers) == multiset(y.suppliers) && Unique(x.suppliers, EntityId())
    && multiset(x.sites) == multiset(y.sites) && Unique(x.sites, SiteId())
    && multiset(x.factories) == multiset(y.factories) && Unique(x.factories, EntityId())
    && multiset(x.warehouses) == multiset(y.warehouses) && Unique(x.warehouses, EntityId())
    && multiset(x.ports) == multiset(y.ports) && Unique(x.ports, EntityId())
    && multiset(x.carriers) == multiset(y.carriers) && Unique(x.carriers, EntityId())
    && multiset(x.products) == multiset(y.products) && Unique(x.products, EntityId())
    && multiset(x.routes) == multiset(y.routes) && Unique(x.routes, RouteId())
    && multiset(x.shipments) == multiset(y.shipments) && Unique(x.shipments, ShipmentId())
    && multiset(x.stocks) == multiset(y.stocks) && Unique(x.stocks, StockId())
    && x.incidents == y.incidents
  }

  lemma EntitiesUnique<R(!new)>(rs: seq<R>, id: R -> string, entity: R -> seq<Entity>)
    requires Unique(rs, id)
    requires forall r, e, d :: e in entity(r) && d in entity(r) ==> e == d
    requires forall r, e :: e in entity(r) ==> e.id == id(r)
    ensures Unique(FlatMap(rs, entity), EntityId())
  {
    FlatMapMembers(rs, entity);
    hide FlatMap, Strip;
    var es := FlatMap(rs, entity);
    forall d, e | d in es && e in es && Strip(EntityId()(d)) == Strip(EntityId()(e))
      ensures d == e
    {
      var r :| r in rs && d in entity(r);
      var q :| q in rs && e in entity(q);
      assert Strip(id(r)) == Strip(id(q));
    }
  }

  lemma BatchesRearranged(x: Inputs, y: Inputs)
    requires Shuffled(x, y)
    ensures AllRearranged(Batches(x), Batches(y))
  {
    hide FlatMap, Unique;
    FlatMapPermutes(x.sites, y.sites, SiteEntity());
    FlatMapPermutes(x.routes, y.routes, RouteEntity());
    FlatMapPermutes(x.shipments, y.shipments, ShipmentEntity());
    EntitiesUnique(x.sites, SiteId(), SiteEntity());
    EntitiesUnique(x.routes, RouteId(), RouteEntity());
    EntitiesUnique(x.shipments, ShipmentId(), ShipmentEntity());
  }

  lemma RelationshipsRegrouped(b: Builder, ix: Index, x: Inputs, y: Inputs, i: nat)
    requires Shuffled(x, y) && i < 4
    ensures Regrouped(Relationships(b, ix, x)[i], Relationships(b, ix, y)[i])
  {
    hide FlatMap, Unique, Grouping, SiteTies, RouteTies, ShipmentTies, StockTies, Regrouped;
    if i == 0 {
      SitesGroup(ix);
      LoopRegrouped(x.sites, y.sites, SiteId(), SiteTies(ix));
    } else if i == 1 {
      RoutesGroup(ix);
      LoopRegrouped(x.routes, y.routes, RouteId(), RouteTies(ix));
    } else if i == 2 {
      ShipmentsGroup(b, ix);
      LoopRegrouped(x.shipments, y.shipments, ShipmentId(), ShipmentTies(b, ix));
    } else {
      StocksGroup(b, ix);
      LoopRegrouped(x.stocks, y.stocks, StockId(), StockTies(b, ix));
    }
  }

  lemma NodesInRangeOrder(b: Builder, incidents: IncidentMap, bs: seq<Batch>, cs: seq<Batch>)
    requires b.h.InjectiveIds() && AllRearranged(bs, cs)
    ensures NodesInRange(b, incidents, bs) <==> NodesInRange(b, incidents, cs)
  {
    hide BatchInRange, Rearranged;
    forall i | 0 <= i < |bs|
      ensures BatchInRange(b, incidents, bs[i]) <==> BatchInRange(b, incidents, cs[i])
    {
      BatchOrder(b, incidents, bs[i], cs[i], map[], map[]);
    }
  }

  /** The ends of every tie are node ids, and so free of colons. */
  lemma TiesPlain(b: Builder, incidents: IncidentMap, x: Inputs)
    requires b.h.PlainIds()
    ensures var uss := Relationships(b, IndexFrom(b, incidents, Batches(x)), x);
            forall i, u :: 0 <= i < |uss| && u in uss[i] ==> PlainEnds(u)
  {
    var bs := Batches(x);
    var ix := IndexFrom(b, incidents, bs);
    var uss := Relationships(b, ix, x);
    hide Batches, Sound, EndsKnown, PlainEnds, NodesFrom, IdsFrom;
    IndexSound(b, incidents, bs);
    NodeIdsPlain(b, incidents, bs);
    forall i, u | 0 <= i < |uss| && u in uss[i]
      ensures PlainEnds(u)
    {
      AllEndsKnown(b, ix, x, i, u);
      KnownPlain(ix.nodes.Keys, u);
    }
  }

  lemma KnownPlain(known: set<string>, u: Ties)
    requires EndsKnown(known, u) && forall k :: k in known ==> ':' !in k
    ensures PlainEnds(u)
  {
  }

  /** Rearranging any collection but the incidents changes nothing in what is built: not the
      nodes, the edges, either fingerprint, nor whether it is refused. */
  lemma OrderIrrelevant(b: Builder, x: Inputs, y: Inputs)
    requires b.h.InjectiveIds() && b.h.PlainIds() && Shuffled(x, y)
    ensures Built(b, x) == Built(b, y)
  {
    var incidents := IncidentsByAsset(x.incidents);
    var bs, cs := Batches(x), Batches(y);
    BatchesRearranged(x, y);
    assert y.incidents == x.incidents;
    hide Batches, AllRearranged, NodesInRange, NodesFrom, IdsFrom, DigestsFrom, SourceFingerprint, GraphFingerprint, Regrouped,
         EdgesFrom, EdgesInRange, IncidentsByAsset, Relationships, Shuffled;
    NodesInRangeOrder(b, incidents, bs, cs);
    BatchesOrder(b, incidents, bs, cs, FACILITIES);
    BatchesOrder(b, incidents, bs, cs, {SUPPLIER});
    BatchesOrder(b, incidents, bs, cs, {CARRIER});
    BatchesOrder(b, incidents, bs, cs, {ROUTE});
    BatchesOrder(b, incidents, bs, cs, {PRODUCT});
    var ix := IndexFrom(b, incidents, bs);
    assert ix == IndexFrom(b, incidents, cs);
    SourceFingerprintExact(b.h, DigestsFrom(b, incidents, bs), DigestsFrom(b, incidents, cs));
    forall i | 0 <= i < 4
      ensures Regrouped(Relationships(b, ix, x)[i], Relationships(b, ix, y)[i])
    {
      RelationshipsRegrouped(b, ix, x, y, i);
    }
    TiesPlain(b, incidents, x);
    EdgesOrder(b, Relationships(b, ix, x), Relationships(b, ix, y));
  }

  // ----- the builder itself

  lemma EntryForms(b: Builder, incidents: IncidentMap, kind: NodeType, e: Entity)
    ensures NodeEntry(b, incidents, kind)(e)
            == if Kept(b, kind, e) then [Entry(NodeIdOf(b, kind, e), NodeOf(b, incidents, kind, e))] else []
    ensures IdEntry(b, kind)(e) == if Kept(b, kind, e) then [Entry(e.id, NodeIdOf(b, kind, e))] else []
    ensures DigestOf(b, incidents, kind)(e)
            == if Kept(b, kind, e) then [NodeTypeName(kind) + ":" + e.id + ":" + NodeOf(b, incidents, kind, e).fingerprint] else []
  {
    hide Kept, NodeIdOf, NodeOf, NodeTypeName;
  }

  ghost predicate AllInRange(es: seq<Entry<TwinNode>>) {
    forall y :: y in es ==> InRange(y.value)
  }

  lemma AllInRangeStep(es: seq<Entry<TwinNode>>, y: Entry<TwinNode>)
    ensures AllInRange(es + [y]) <==> AllInRange(es) && InRange(y.value)
  {
    hide InRange;
    assert y in es + [y];
    assert forall z :: z in es ==> z in es + [y];
  }

  lemma AllInRangePrefix(s: seq<Entity>, i: nat, f: Entity -> seq<Entry<TwinNode>>)
    requires i <= |s| && AllInRange(FlatMap(s, f))
    ensures AllInRange(FlatMap(s[..i], f))
  {
    FlatMapMembers(s, f);
    FlatMapMembers(s[..i], f);
    hide FlatMap, InRange;
  }

  lemma FoldStart<A, B, V>(s: seq<A>, f: A -> seq<B>, m: map<string, V>)
    ensures FlatMap(s[..0], f) == [] && s[..|s|] == s
    ensures InsertAll(m, []) == m
  {
  }

  lemma BatchRanges(b: Builder, incidents: IncidentMap, batch: Batch)
    ensures BatchInRange(b, incidents, batch) <==> AllInRange(FlatMap(batch.entities, NodeEntry(b, incidents, batch.kind)))
    ensures AllInRange([])
  {
  }

  /** One of the node loops. It stops at the first record the node contract refuses. */
  method AddNodes(
    b: Builder, incidents: IncidentMap, batch: Batch, nodes0: map<string, TwinNode>, ids0: map<string, string>, digests0: seq<string>)
    returns (ok: bool, nodes: map<string, TwinNode>, ids: map<string, string>, digests: seq<string>)
    ensures ok <==> BatchInRange(b, incidents, batch)
    ensures ok ==> nodes == InsertAll(nodes0, FlatMap(batch.entities, NodeEntry(b, incidents, batch.kind)))
    ensures ok ==> ids == InsertAll(ids0, FlatMap(batch.entities, IdEntry(b, batch.kind)))
    ensures ok ==> digests == digests0 + FlatMap(batch.entities, DigestOf(b, incidents, batch.kind))
  {
    hide NodeOf, NodeIdOf, NodeTypeName, Kept, InRange, AllInRange, BatchInRange, NodeEntry, IdEntry, DigestOf, FlatMap, InsertAll;
    nodes, ids, digests := nodes0, ids0, digests0;
    var es := batch.entities;
    ghost var f, g, h := NodeEntry(b, incidents, batch.kind), IdEntry(b, batch.kind), DigestOf(b, incidents, batch.kind);
    FoldStart(es, f, nodes0);
    FoldStart(es, g, ids0);
    FoldStart(es, h, ids0);
    BatchRanges(b, incidents, batch);
    for i := 0 to |es|
      invariant AllInRange(FlatMap(es[..i], f))
      invariant nodes == InsertAll(nodes0, FlatMap(es[..i], f))
      invariant ids == InsertAll(ids0, FlatMap(es[..i], g))
      invariant digests == digests0 + FlatMap(es[..i], h)
    {
      var e := es[i];
      FlatMapStep(es, i, f);
      FlatMapStep(es, i, g);
      FlatMapStep(es, i, h);
      EntryForms(b, incidents, batch.kind, e);
      var id, node := NodeIdOf(b, batch.kind, e), NodeOf(b, incidents, batch.kind, e);
      InsertAllStep(nodes0, FlatMap(es[..i], f), Entry(id, node));
      InsertAllStep(ids0, FlatMap(es[..i], g), Entry(e.id, id));
      AllInRangeStep(FlatMap(es[..i], f), Entry(id, node));
      if Kept(b, batch.kind, e) {
        if !InRange(node) {
          if AllInRange(FlatMap(es, f)) {
            AllInRangePrefix(es, i + 1, f);
          }
          return false, nodes, ids, digests;
        }
        nodes := nodes[id := node];
        ids := ids[e.id := id];
        digests := digests + [NodeTypeName(batch.kind) + ":" + e.id + ":" + node.fingerprint];
      }
    }
    ok := true;
  }

  /** The id map that a loop over this kind of record fills. */
  function Filled(ix: Index, kind: NodeType): map<string, string> {
    if kind in FACILITIES then ix.facilities
    else match kind
         case SUPPLIER => ix.suppliers
         case CARRIER => ix.carriers
         case ROUTE => ix.routes
         case PRODUCT => ix.products
         case _ => map[]
  }

  function Refilled(ix: Index, kind: NodeType, nodes: map<string, TwinNode>, ids: map<string, string>): Index {
    if kind in FACILITIES then ix.(nodes := nodes, facilities := ids)
    else match kind
         case SUPPLIER => ix.(nodes := nodes, suppliers := ids)
         case CARRIER => ix.(nodes := nodes, carriers := ids)
         case ROUTE => ix.(nodes := nodes, routes := ids)
         case PRODUCT => ix.(nodes := nodes, products := ids)
         case _ => ix.(nodes := nodes)
  }

  lemma IdsStep(b: Builder, bs: seq<Batch>, i: nat, kinds: set<NodeType>)
    requires i < |bs|
    ensures IdsFrom(b, bs[..i + 1], kinds)
            == if bs[i].kind in kinds then InsertAll(IdsFrom(b, bs[..i], kinds), FlatMap(bs[i].entities, IdEntry(b, bs[i].kind)))
               else IdsFrom(b, bs[..i], kinds)
  {
    hide FlatMap, InsertAll, IdEntry;
    assert bs[..i + 1][..i] == bs[..i];
  }

  lemma IndexStart(b: Builder, incidents: IncidentMap, bs: seq<Batch>)
    ensures IndexFrom(b, incidents, bs[..0]) == Index(map[], map[], map[], map[], map[], map[])
    ensures DigestsFrom(b, incidents, bs[..0]) == [] && bs[..|bs|] == bs
  {
  }

  lemma IndexStep(b: Builder, incidents: IncidentMap, bs: seq<Batch>, i: nat)
    requires i < |bs|
    ensures var ix, batch := IndexFrom(b, incidents, bs[..i]), bs[i];
            IndexFrom(b, incidents, bs[..i + 1])
            == Refilled(ix, batch.kind,
                        InsertAll(ix.nodes, FlatMap(batch.entities, NodeEntry(b, incidents, batch.kind))),
                        InsertAll(Filled(ix, batch.kind), FlatMap(batch.entities, IdEntry(b, batch.kind))))
    ensures DigestsFrom(b, incidents, bs[..i + 1])
            == DigestsFrom(b, incidents, bs[..i]) + FlatMap(bs[i].entities, DigestOf(b, incidents, bs[i].kind))
  {
    hide FlatMap, InsertAll, NodeEntry, IdEntry, DigestOf, IdsFrom;
    assert bs[..i + 1][..i] == bs[..i];
    IdsStep(b, bs, i, FACILITIES);
    IdsStep(b, bs, i, {SUPPLIER});
    IdsStep(b, bs, i, {CARRIER});
    IdsStep(b, bs, i, {ROUTE});
    IdsStep(b, bs, i, {PRODUCT});
  }

  /** All the node loops. */
  method BuildNodes(b: Builder, incidents: IncidentMap, bs: seq<Batch>) returns (ok: bool, ix: Index, digests: seq<string>)
    ensures ok <==> NodesInRange(b, incidents, bs)
    ensures ok ==> ix == IndexFrom(b, incidents, bs) && digests == DigestsFrom(b, incidents, bs)
  {
    hide FlatMap, InsertAll, BatchInRange, NodeEntry, IdEntry, DigestOf, IndexFrom, DigestsFrom, Refilled, Filled;
    ix, digests := Index(map[], map[], map[], map[], map[], map[]), [];
    IndexStart(b, incidents, bs);
    for i := 0 to |bs|
      invariant forall j :: 0 <= j < i ==> BatchInRange(b, incidents, bs[j])
      invariant ix == IndexFrom(b, incidents, bs[..i])
      invariant digests == DigestsFrom(b, incidents, bs[..i])
    {
      IndexStep(b, incidents, bs, i);
      var nodes, ids;
      ok, nodes, ids, digests := AddNodes(b, incidents, bs[i], ix.nodes, Filled(ix, bs[i].kind), digests);
      if !ok {
        return;
      }
      ix := Refilled(ix, bs[i].kind, nodes, ids);
    }
    ok := true;
  }

  ghost predicate AllEdgesInRange(es: seq<Entry<TwinEdge>>) {
    forall y :: y in es ==> EdgeInRange(y.value)
  }

  lemma AllEdgesInRangeTogether(es: seq<Entry<TwinEdge>>, fs: seq<Entry<TwinEdge>>)
    ensures AllEdgesInRange(es + fs) <==> AllEdgesInRange(es) && AllEdgesInRange(fs)
    ensures AllEdgesInRange([])
  {
    hide EdgeInRange;
    assert forall z :: z in es + fs <==> z in es || z in fs;
  }

  lemma AllEdgesInRangePrefix<R(!new)>(s: seq<R>, i: nat, f: R -> seq<Entry<TwinEdge>>)
    requires i <= |s| && AllEdgesInRange(FlatMap(s, f))
    ensures AllEdgesInRange(FlatMap(s[..i], f))
  {
    FlatMapMembers(s, f);
    FlatMapMembers(s[..i], f);
    hide FlatMap, EdgeInRange;
  }

  lemma TieForm(b: Builder, id: string, t: Tie)
    ensures TieEntry(b, id)(t) == if t.from.Some? && t.to.Some? then [Entry(EdgeOf(b, id, t).edgeId, EdgeOf(b, id, t))] else []
  {
    hide EdgeOf;
  }

  lemma TiesForm(b: Builder, u: Ties)
    ensures TiesEntry(b)(u) == FlatMap(u.ties, TieEntry(b, u.id))
  {
    hide FlatMap, TieEntry;
  }

  lemma EdgeAlone(key: string, e: TwinEdge)
    ensures AllEdgesInRange([Entry(key, e)]) <==> EdgeInRange(e)
  {
    hide EdgeInRange;
    assert Entry(key, e) in [Entry(key, e)];
  }

  /** The edges of one record. */
  method AddTies(b: Builder, u: Ties, edges0: map<string, TwinEdge>) returns (ok: bool, edges: map<string, TwinEdge>)
    ensures ok <==> AllEdgesInRange(TiesEntry(b)(u))
    ensures ok ==> edges == InsertAll(edges0, TiesEntry(b)(u))
  {
    hide EdgeOf, EdgeInRange, TieEntry, TiesEntry, FlatMap, InsertAll, AllEdgesInRange;
    edges := edges0;
    var ts := u.ties;
    ghost var f := TieEntry(b, u.id);
    TiesForm(b, u);
    FoldStart(ts, f, edges0);
    AllEdgesInRangeTogether([], []);
    for i := 0 to |ts|
      invariant AllEdgesInRange(FlatMap(ts[..i], f))
      invariant edges == InsertAll(edges0, FlatMap(ts[..i], f))
    {
      FlatMapStep(ts, i, f);
      TieForm(b, u.id, ts[i]);
      AllEdgesInRangeTogether(FlatMap(ts[..i], f), f(ts[i]));
      if ts[i].from.Some? && ts[i].to.Some? {
        var edge := EdgeOf(b, u.id, ts[i]);
        InsertAllStep(edges0, FlatMap(ts[..i], f), Entry(edge.edgeId, edge));
        EdgeAlone(edge.edgeId, edge);
        if !EdgeInRange(edge) {
          if AllEdgesInRange(FlatMap(ts, f)) {
            AllEdgesInRangePrefix(ts, i + 1, f);
          }
          return false, edges;
        }
        edges := edges[edge.edgeId := edge];
      } else {
        assert FlatMap(ts[..i], f) + [] == FlatMap(ts[..i], f);
      }
    }
    ok := true;
  }

  lemma {:induction false} InsertAllTwice(m: map<string, TwinEdge>, es: seq<Entry<TwinEdge>>, fs: seq<Entry<TwinEdge>>)
    ensures InsertAll(InsertAll(m, es), fs) == InsertAll(m, es + fs)
    decreases |fs|
  {
    if fs == [] {
      assert es + fs == es;
    } else {
      InsertAllTwice(m, es, fs[..|fs| - 1]);
      assert (es + fs)[..|es + fs| - 1] == es + fs[..|fs| - 1];
    }
  }

  lemma LoopRanges(b: Builder, us: seq<Ties>)
    ensures LoopInRange(b, us) <==> AllEdgesInRange(FlatMap(us, TiesEntry(b)))
  {
  }

  /** One of the edge loops. */
  method AddEdges(b: Builder, us: seq<Ties>, edges0: map<string, TwinEdge>) returns (ok: bool, edges: map<string, TwinEdge>)
    ensures ok <==> LoopInRange(b, us)
    ensures ok ==> edges == InsertAll(edges0, FlatMap(us, TiesEntry(b)))
  {
    hide EdgeOf, EdgeInRange, TiesEntry, AllEdgesInRange, LoopInRange, FlatMap, InsertAll;
    edges := edges0;
    ghost var f := TiesEntry(b);
    FoldStart(us, f, edges0);
    LoopRanges(b, us);
    AllEdgesInRangeTogether([], []);
    for i := 0 to |us|
      invariant AllEdgesInRange(FlatMap(us[..i], f))
      invariant edges == InsertAll(edges0, FlatMap(us[..i], f))
    {
      FlatMapStep(us, i, f);
      AllEdgesInRangeTogether(FlatMap(us[..i], f), f(us[i]));
      InsertAllTwice(edges0, FlatMap(us[..i], f), f(us[i]));
      ok, edges := AddTies(b, us[i], edges);
      if !ok {
        if AllEdgesInRange(FlatMap(us, f)) {
          AllEdgesInRangePrefix(us, i + 1, f);
        }
        return;
      }
    }
    ok := true;
  }

  lemma EdgesStart(b: Builder, uss: seq<seq<Ties>>)
    ensures EdgesFrom(b, uss[..0]) == map[] && uss[..|uss|] == uss
  {
  }

  lemma EdgesStep(b: Builder, uss: seq<seq<Ties>>, i: nat)
    requires i < |uss|
    ensures EdgesFrom(b, uss[..i + 1]) == InsertAll(EdgesFrom(b, uss[..i]), FlatMap(uss[i], TiesEntry(b)))
  {
    assert uss[..i + 1][..i] == uss[..i];
    hide FlatMap, InsertAll;
  }

  /** All the edge loops. */
  method BuildEdges(b: Builder, uss: seq<seq<Ties>>) returns (ok: bool, edges: map<string, TwinEdge>)
    ensures ok <==> EdgesInRange(b, uss)
    ensures ok ==> edges == EdgesFrom(b, uss)
  {
    hide LoopInRange, EdgesFrom, InsertAll, FlatMap, TiesEntry;
    edges := map[];
    EdgesStart(b, uss);
    for i := 0 to |uss|
      invariant forall j :: 0 <= j < i ==> LoopInRange(b, uss[j])
      invariant edges == EdgesFrom(b, uss[..i])
    {
      EdgesStep(b, uss, i);
      ok, edges := AddEdges(b, uss[i], edges);
      if !ok {
        return;
      }
    }
    ok := true;
  }

  /** Builds, validates and packages a snapshot. The validation never fails: what it looks for
      was refused when the nodes and edges were constructed, or cannot come about. */
  method BuildFromEntities(b: Builder, x: Inputs) returns (r: Result<Snapshot, BuildError>)
    ensures r == Built(b, x)
    ensures r.Ok? ==> ValidSnapshot(b.h, r.value)
  {
    var incidents := MapIncidents(x.incidents);
    var bs := Batches(x);
    hide NodesInRange, EdgesInRange, NodesFrom, EdgesFrom, IdsFrom, DigestsFrom, Batches, Relationships,
         IncidentsByAsset, ValidGraph, GraphFingerprint, SourceFingerprint, ValidSnapshot;
    if Built(b, x).Ok? {
      BuiltValid(b, x);
    }
    var ok, ix, digests := BuildNodes(b, incidents, bs);
    if !ok {
      return Err(OutOfRange);
    }
    var edges;
    ok, edges := BuildEdges(b, Relationships(b, ix, x));
    if !ok {
      return Err(OutOfRange);
    }
    GraphValid(b, incidents, x);
    var errors := ValidateGraphDicts(b.h, ix.nodes, edges, b.org);
    var source := ComputeSourceFingerprint(b.h, digests);
    var twin := FingerprintGraph(b.h, b.twinId, b.org, b.version, ix.nodes, edges);
    r := if errors != [] then Err(ValidationFailed)
         else if !Packaged(b) then Err(OutOfRange)
         else Ok(Snapshot(b.twinId, b.org, b.version, |ix.nodes|, |edges|, ix.nodes, edges, source, twin));
  }
}