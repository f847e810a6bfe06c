/** What a built snapshot says of the records it was built from, told from the records alone. */
module TwinMeaning {
  import opened Results
  import opened Text
  import opened Collections
  import opened TwinModel
  import opened TwinFingerprints
  import opened TwinValidator
  import opened TwinBuilder
  import opened TwinContributions

  /** The record names no organization, or this one. */
  predicate OurOwn(b: Builder, org: Option<string>) {
    org.Some? && org.value != "" ==> org.value == b.org
  }

  /** A record that makes a node of this kind. */
  ghost predicate Listed(b: Builder, x: Inputs, kind: NodeType, e: Entity) {
    match kind
    case SUPPLIER => e in x.suppliers && OurOwn(b, e.org)
    case SUPPLIER_SITE => OurOwn(b, e.org) && exists s :: s in x.sites && s.entity == e
    case FACTORY => e in x.factories && OurOwn(b, e.org)
    case WAREHOUSE => e in x.warehouses && OurOwn(b, e.org)
    case PORT => e in x.ports
    case CARRIER => e in x.carriers && OurOwn(b, e.org)
    case PRODUCT => e in x.products && OurOwn(b, e.org)
    case ROUTE => OurOwn(b, e.org) && exists r :: r in x.routes && r.entity == e
    case SHIPMENT => OurOwn(b, e.org) && exists s :: s in x.shipments && s.entity == e
    case CUSTOMER => false
    case CUSTOM => false
  }

  /** The place of a kind of record among the collections. */
  function PlaceOf(kind: NodeType): nat {
    match kind
    case SUPPLIER => 0
    case SUPPLIER_SITE => 1
    case FACTORY => 2
    case WAREHOUSE => 3
    case PORT => 4
    case CARRIER => 5
    case PRODUCT => 6
    case ROUTE => 7
    case SHIPMENT => 8
    case _ => 9
  }

  lemma Places(x: Inputs, i: nat)
    requires i < 9
    ensures |Batches(x)| == 9 && PlaceOf(Batches(x)[i].kind) == i
  {
    hide FlatMap;
  }

  lemma PlaceKind(x: Inputs, kind: NodeType)
    requires PlaceOf(kind) < 9
    ensures |Batches(x)| == 9 && Batches(x)[PlaceOf(kind)].kind == kind
  {
    hide FlatMap;
  }

  lemma InPlace(b: Builder, x: Inputs, kind: NodeType, e: Entity)
    requires PlaceOf(kind) < 9
    ensures |Batches(x)| == 9 && (Listed(b, x, kind, e) <==> e in Batches(x)[PlaceOf(kind)].entities && Kept(b, kind, e))
  {
    FlatMapMembers(x.sites, SiteEntity());
    FlatMapMembers(x.routes, RouteEntity());
    FlatMapMembers(x.shipments, ShipmentEntity());
    hide FlatMap;
    assert forall s: Site :: e in SiteEntity()(s) <==> s.entity == e;
    assert forall r: Route :: e in RouteEntity()(r) <==> r.entity == e;
    assert forall s: Shipment :: e in ShipmentEntity()(s) <==> s.entity == e;
  }

  /** The records listed are those the builder keeps. */
  lemma ListedKept(b: Builder, x: Inputs, kind: NodeType, e: Entity)
    ensures Listed(b, x, kind, e) <==> exists i :: KeptAt(b, Batches(x), i, e) && Batches(x)[i].kind == kind
  {
    hide Batches, Kept;
    Places(x, 0);
    if PlaceOf(kind) < 9 {
      InPlace(b, x, kind, e);
      PlaceKind(x, kind);
      assert Listed(b, x, kind, e) ==> KeptAt(b, Batches(x), PlaceOf(kind), e);
    }
    if i :| KeptAt(b, Batches(x), i, e) && Batches(x)[i].kind == kind {
      Places(x, i);
    }
  }

  // ----- the nodes

  function Repeated(x: Json, n: nat): seq<Json> {
    seq(n, _ => x)
  }

  function Mentions(asset: string): Incident -> seq<Json> {
    (inc: Incident) => Repeated(inc.summary, multiset(inc.assets)[asset])
  }

  /** The attributes of a record, with the incidents that affect it, as often as they name it. */
  ghost function Marked(x: Inputs, e: Entity): map<string, Json> {
    if exists inc :: inc in x.incidents && e.id in inc.assets
    then e.attributes["active_incidents" := JArray(FlatMap(x.incidents, Mentions(e.id)))]
    else e.attributes
  }

  /** The node has the record's id and label under this type, and these values. */
  ghost predicate Shows(
    b: Builder, n: TwinNode, kind: NodeType, name: string, e: Entity, latitude: Option<real>, longitude: Option<real>,
    health: Option<real>, status: Option<string>, properties: map<string, Json>)
  {
    n == TwinNode(ComputeNodeId(b.h, b.org, name, e.id), b.org, kind, name, e.id, e.name, latitude, longitude,
                  health, status, properties, e.createdAt, None, NodeFingerprint(b.h, n))
  }

  /** The node of a record, kind by kind. */
  ghost predicate NodeOfRecord(b: Builder, x: Inputs, kind: NodeType, e: Entity, n: TwinNode) {
    match kind
    case SUPPLIER => Shows(b, n, kind, "SUPPLIER", e, None, None, e.score, e.status, Marked(x, e))
    case SUPPLIER_SITE => Shows(b, n, kind, "SUPPLIER_SITE", e, e.latitude, e.longitude, None, e.status, Marked(x, e))
    case FACTORY => Shows(b, n, kind, "FACTORY", e, e.latitude, e.longitude, None, e.status, Marked(x, e))
    case WAREHOUSE => Shows(b, n, kind, "WAREHOUSE", e, e.latitude, e.longitude, None, e.status, Marked(x, e))
    case PORT => Shows(b, n, kind, "PORT", e, e.latitude, e.longitude, None, Some("OPERATIONAL"), e.attributes)
    case CARRIER => Shows(b, n, kind, "CARRIER", e, None, None, e.score, Some("ACTIVE"), e.attributes)
    case PRODUCT => Shows(b, n, kind, "PRODUCT", e, None, None, None, Some("ACTIVE"), e.attributes)
    case ROUTE =>
      Shows(b, n, kind, "ROUTE", e, None, None, if e.score.Some? then Some(100.0 - e.score.value) else None, Some("OPERATIONAL"), e.attributes)
    case SHIPMENT => Shows(b, n, kind, "SHIPMENT", e, e.latitude, e.longitude, None, e.status, e.attributes)
    case _ => false
  }

  lemma RepeatedOnce(x: Json, n: nat)
    ensures Repeated(x, 0) == [] && Repeated(x, n + 1) == Repeated(x, n) + [x]
  {
  }

  lemma OneMoreAsset(m: IncidentMap, summary: Json, assets: seq<string>, asset: string)
    requires assets != []
    ensures var front, last := assets[..|assets| - 1], assets[|assets| - 1];
            && At(WithAssets(m, summary, assets), asset)
               == At(WithAssets(m, summary, front), asset) + (if last == asset then [summary] else [])
            && multiset(assets)[asset] == multiset(front)[asset] + if last == asset then 1 else 0
  {
    assert assets == assets[..|assets| - 1] + [assets[|assets| - 1]];
  }

  lemma {:induction false} AssetsCounted(m: IncidentMap, summary: Json, assets: seq<string>, asset: string)
    ensures At(WithAssets(m, summary, assets), asset) == At(m, asset) + Repeated(summary, multiset(assets)[asset])
    decreases |assets|
  {
    hide Repeated;
    if assets == [] {
      RepeatedOnce(summary, 0);
    } else {
      hide At, WithAssets;
      var front := assets[..|assets| - 1];
      AssetsCounted(m, summary, front, asset);
      OneMoreAsset(m, summary, assets, asset);
      RepeatedOnce(summary, multiset(front)[asset]);
    }
  }

  lemma {:induction false} IncidentsListed(incidents: seq<Incident>, asset: string)
    ensures At(IncidentsByAsset(incidents), asset) == FlatMap(incidents, Mentions(asset))
    decreases |incidents|
  {
    hide At, WithAssets;
    if incidents == [] {
      NothingAt(asset);
    } else {
      var front, last := incidents[..|incidents| - 1], incidents[|incidents| - 1];
      IncidentsListed(front, asset);
      AssetsCounted(IncidentsByAsset(front), last.summary, last.assets, asset);
    }
  }

  lemma NothingAt(asset: string)
    ensures At(map[], asset) == []
  {
  }

  lemma PropertiesMarked(x: Inputs, kind: NodeType, e: Entity)
    ensures Properties(IncidentsByAsset(x.incidents), kind, e) == if Watched(kind) then Marked(x, e) else e.attributes
  {
    AssetsMarked(x.incidents, e.id, JNull);
    IncidentsListed(x.incidents, e.id);
    hide IncidentsByAsset, FlatMap, Watched, Mentions;
  }

  lemma NodeTold(b: Builder, x: Inputs, kind: NodeType, e: Entity)
    requires PlaceOf(kind) < 9
    ensures NodeOfRecord(b, x, kind, e, NodeOf(b, IncidentsByAsset(x.incidents), kind, e))
  {
    hide Properties, IncidentsByAsset, Marked, ComputeNodeId, NodeFingerprint;
    PropertiesMarked(x, kind, e);
    FingerprintApart(b, NodeOf(b, IncidentsByAsset(x.incidents), kind, e));
  }

  lemma FingerprintApart(b: Builder, n: TwinNode)
    ensures NodeFingerprint(b.h, n) == NodeFingerprint(b.h, n.(fingerprint := ""))
  {
  }

  lemma BuiltNodes(b: Builder, x: Inputs)
    requires Built(b, x).Ok?
    ensures var (snapshot, bs, incidents) := (Built(b, x).value, Batches(x), IncidentsByAsset(x.incidents));
            && snapshot.nodes == NodesFrom(b, incidents, bs)
            && snapshot.edges == EdgesFrom(b, Relationships(b, IndexFrom(b, incidents, bs), x))
            && snapshot.sourceFingerprint == SourceFingerprint(b.h, DigestsFrom(b, incidents, bs))
            && snapshot.twinId == b.twinId && snapshot.organizationId == b.org && snapshot.version == b.version
  {
    hide Batches, IncidentsByAsset, NodesFrom, EdgesFrom, IdsFrom, DigestsFrom, Relationships, NodesInRange, EdgesInRange, GraphFingerprint,
         SourceFingerprint;
  }

  /** Every node is that of a record listed, under the node's own id. */
  lemma NodesTold(b: Builder, x: Inputs, k: string)
    requires Built(b, x).Ok? && k in Built(b, x).value.nodes
    ensures var n := Built(b, x).value.nodes[k];
            n.nodeId == k && exists kind, e :: Listed(b, x, kind, e) && NodeOfRecord(b, x, kind, e, n)
  {
    hide Built, Batches, IncidentsByAsset, NodesFrom, Kept, NodeOf, NodeIdOf, Listed, NodeOfRecord, Relationships, IndexFrom, EdgesFrom, DigestsFrom,
         SourceFingerprint;
    var (bs, incidents) := (Batches(x), IncidentsByAsset(x.incidents));
    BuiltNodes(b, x);
    NodesExactly(b, incidents, bs);
    assert NodeFor(b, incidents, bs, k, Built(b, x).value.nodes[k]);
    var i, e :| KeptAt(b, bs, i, e) && k == NodeIdOf(b, bs[i].kind, e) && Built(b, x).value.nodes[k] == NodeOf(b, incidents, bs[i].kind, e);
    KeptListed(b, x, i, e);
    NodeTold(b, x, bs[i].kind, e);
    NodeKeyed(b, incidents, bs[i].kind, e);
  }

  lemma KeptListed(b: Builder, x: Inputs, i: int, e: Entity)
    requires KeptAt(b, Batches(x), i, e)
    ensures 0 <= i < |Batches(x)| && PlaceOf(Batches(x)[i].kind) < 9 && Listed(b, x, Batches(x)[i].kind, e)
  {
    hide Batches, Kept, Listed;
    Places(x, 0);
    Places(x, i);
    ListedKept(b, x, Batches(x)[i].kind, e);
  }

  lemma NodeKeyed(b: Builder, incidents: IncidentMap, kind: NodeType, e: Entity)
    ensures NodeOf(b, incidents, kind, e).nodeId == NodeIdOf(b, kind, e)
  {
    hide NodeIdOf, Health, StatusOf, Properties, NodeFingerprint;
  }

  /** And where the ids within a collection are unique, every record listed has its node. */
  lemma RecordsShown(b: Builder, x: Inputs, kind: NodeType, e: Entity)
    requires Built(b, x).Ok? && b.h.InjectiveIds() && Shuffled(x, x) && Listed(b, x, kind, e)
    ensures exists k :: k in Built(b, x).value.nodes && NodeOfRecord(b, x, kind, e, Built(b, x).value.nodes[k])
  {
    hide Built, Batches, IncidentsByAsset, NodesFrom, NodeOf, NodeIdOf, NodeOfRecord, Relationships, IndexFrom, EdgesFrom, DigestsFrom,
         SourceFingerprint, Shuffled, Kept, Unique, Listed, Strip;
    var (bs, incidents) := (Batches(x), IncidentsByAsset(x.incidents));
    BuiltNodes(b, x);
    ListedKept(b, x, kind, e);
    var i :| KeptAt(b, bs, i, e) && bs[i].kind == kind;
    var k := NodeIdOf(b, kind, e);
    Places(x, 0);
    NodesExactly(b, incidents, bs);
    assert NodeFor(b, incidents, bs, k, Built(b, x).value.nodes[k]);
    var j, d :| KeptAt(b, bs, j, d) && k == NodeIdOf(b, bs[j].kind, d) && Built(b, x).value.nodes[k] == NodeOf(b, incidents, bs[j].kind, d);
    SameNode(b, kind, e, bs[j].kind, d);
    Places(x, i);
    Places(x, j);
    BatchesRearranged(x, x);
    assert Rearranged(bs[i], bs[i]);
    SameRecord(bs[i].entities, d, e);
    NodeTold(b, x, kind, e);
  }

  lemma SameRecord(es: seq<Entity>, d: Entity, e: Entity)
    requires Unique(es, EntityId()) && d in es && e in es && Strip(d.id) == Strip(e.id)
    ensures d == e
  {
    hide Strip;
    assert EntityId()(d) == d.id && EntityId()(e) == e.id;
  }

  lemma DigestTold(b: Builder, incidents: IncidentMap, batch: Batch, d: string)
    ensures d in FlatMap(batch.entities, DigestOf(b, incidents, batch.kind))
            <==> exists e :: e in batch.entities && Kept(b, batch.kind, e)
                             && d == NodeTypeName(batch.kind) + ":" + e.id + ":" + NodeOf(b, incidents, batch.kind, e).fingerprint
  {
    FlatMapMembers(batch.entities, DigestOf(b, incidents, batch.kind));
    hide FlatMap, Kept, NodeTypeName, NodeOf;
    var f := DigestOf(b, incidents, batch.kind);
    forall e
      ensures d in f(e) <==> Kept(b, batch.kind, e) && d == NodeTypeName(batch.kind) + ":" + e.id + ":" + NodeOf(b, incidents, batch.kind, e).fingerprint
    {
      EntryForms(b, incidents, batch.kind, e);
    }
  }

  lemma {:induction false} DigestsTold(b: Builder, incidents: IncidentMap, bs: seq<Batch>, d: string)
    ensures d in DigestsFrom(b, incidents, bs)
            <==> exists i, e :: KeptAt(b, bs, i, e)
                                && d == NodeTypeName(bs[i].kind) + ":" + e.id + ":" + NodeOf(b, incidents, bs[i].kind, e).fingerprint
    decreases |bs|
  {
    hide Kept, NodeTypeName, NodeOf, FlatMap;
    if bs != [] {
      var n := |bs| - 1;
      var front, last := bs[..n], bs[n];
      DigestsTold(b, incidents, front, d);
      DigestTold(b, incidents, last, d);
      if i, e :| KeptAt(b, front, i, e) && d == NodeTypeName(front[i].kind) + ":" + e.id + ":" + NodeOf(b, incidents, front[i].kind, e).fingerprint {
        assert KeptAt(b, bs, i, e);
      }
      if e :| e in last.entities && Kept(b, last.kind, e) && d == NodeTypeName(last.kind) + ":" + e.id + ":" + NodeOf(b, incidents, last.kind, e).fingerprint {
        assert KeptAt(b, bs, n, e);
      }
      if i, e :| KeptAt(b, bs, i, e) && d == NodeTypeName(bs[i].kind) + ":" + e.id + ":" + NodeOf(b, incidents, bs[i].kind, e).fingerprint {
        assert i < n ==> KeptAt(b, front, i, e);
      }
    }
  }

  /** One line for each record listed: its type, its id and the fingerprint of its node. */
  ghost predicate SourceLines(b: Builder, x: Inputs, ds: seq<string>) {
    forall d :: d in ds <==>
                exists kind, e, n :: Listed(b, x, kind, e) && NodeOfRecord(b, x, kind, e, n)
                                     && d == n.sourceEntityType + ":" + e.id + ":" + n.fingerprint
  }

  lemma NodeUnique(b: Builder, x: Inputs, kind: NodeType, e: Entity, n: TwinNode)
    requires PlaceOf(kind) < 9 && NodeOfRecord(b, x, kind, e, n)
    ensures n == NodeOf(b, IncidentsByAsset(x.incidents), kind, e) && n.sourceEntityType == NodeTypeName(kind)
  {
    hide IncidentsByAsset, ComputeNodeId, Marked, Properties;
    PropertiesMarked(x, kind, e);
  }

  /** A builder is made exactly for an organization that is not blank, and works in its stripped name
      on the stripped id it is given or, without one, on `twin-` and the organization. */
  lemma BuilderTold(h: Hashes, org: string, twinId: Option<string>, version: string)
    ensures NewBuilder(h, org, twinId, version)
            == if Strip(org) == "" then Err(BlankOrganization)
               else if twinId == None || twinId == Some("") then Ok(Builder(h, Strip(org), Strip("twin-" + Strip(org)), version))
               else Ok(Builder(h, Strip(org), Strip(twinId.value), version))
  {
    hide Strip;
  }

  /** A snapshot bears the builder's names and its own counts and fingerprint. */
  lemma PackageTold(b: Builder, x: Inputs)
    requires Built(b, x).Ok?
    ensures var s := Built(b, x).value;
            && s.twinId == b.twinId && s.organizationId == b.org && s.version == b.version
            && s.nodeCount == |s.nodes| && s.edgeCount == |s.edges|
            && s.twinFingerprint == GraphFingerprint(b.h, s.twinId, s.organizationId, s.version, s.nodes, s.edges)
  {
    hide Batches, IndexFrom, Relationships, EdgesFrom, NodesInRange, EdgesInRange, Packaged, IncidentsByAsset, GraphFingerprint;
  }

  /** The source fingerprint is of those lines. */
  lemma SourcesTold(b: Builder, x: Inputs) returns (ds: seq<string>)
    requires Built(b, x).Ok?
    ensures SourceLines(b, x, ds) && Built(b, x).value.sourceFingerprint == SourceFingerprint(b.h, ds)
  {
    hide Built, Batches, IncidentsByAsset, NodesFrom, EdgesFrom, IdsFrom, DigestsFrom, Relationships, SourceFingerprint, NodeOf, NodeOfRecord,
         NodeTypeName, Kept, Listed, IndexFrom;
    var (bs, incidents) := (Batches(x), IncidentsByAsset(x.incidents));
    BuiltNodes(b, x);
    ds := DigestsFrom(b, incidents, bs);
    forall d
      ensures d in ds <==> exists kind, e, n :: Listed(b, x, kind, e) && NodeOfRecord(b, x, kind, e, n)
                                                && d == n.sourceEntityType + ":" + e.id + ":" + n.fingerprint
    {
      DigestsTold(b, incidents, bs, d);
      if i, e :| KeptAt(b, bs, i, e) && d == NodeTypeName(bs[i].kind) + ":" + e.id + ":" + NodeOf(b, incidents, bs[i].kind, e).fingerprint {
        KeptListed(b, x, i, e);
        NodeTold(b, x, bs[i].kind, e);
        NodeUnique(b, x, bs[i].kind, e, NodeOf(b, incidents, bs[i].kind, e));
      }
      if kind, e, n :| Listed(b, x, kind, e) && NodeOfRecord(b, x, kind, e, n) && d == n.sourceEntityType + ":" + e.id + ":" + n.fingerprint {
        ListedKept(b, x, kind, e);
        var i :| KeptAt(b, bs, i, e) && bs[i].kind == kind;
        Places(x, 0);
        Places(x, i);
        NodeUnique(b, x, kind, e, n);
      }
    }
  }

  // ----- the edges

  ghost predicate Has(b: Builder, x: Inputs, kind: NodeType, id: string) {
    exists e :: Listed(b, x, kind, e) && e.id == id
  }

  /** The node of a record of this kind and id. */
  ghost predicate NodeAt(b: Builder, x: Inputs, kind: NodeType, name: string, id: string, node: string) {
    Has(b, x, kind, id) && node == ComputeNodeId(b.h, b.org, name, id)
  }

  /** The node of the facility of this id: of the port, or else the warehouse, or else the factory, or
      else the supplier's site. */
  ghost predicate FacilityAt(b: Builder, x: Inputs, id: string, node: string) {
    if Has(b, x, PORT, id) then node == ComputeNodeId(b.h, b.org, "PORT", id)
    else if Has(b, x, WAREHOUSE, id) then node == ComputeNodeId(b.h, b.org, "WAREHOUSE", id)
    else if Has(b, x, FACTORY, id) then node == ComputeNodeId(b.h, b.org, "FACTORY", id)
    else NodeAt(b, x, SUPPLIER_SITE, "SUPPLIER_SITE", id, node)
  }

  predicate Given(id: Option<string>) {
    id.Some? && id.value != ""
  }

  /** An edge that some record calls for. */
  datatype Claim = Claim(
    from: string, to: string, kind: EdgeType, relationship: string, status: string,
    capacity: Option<real>, flow: Option<real>, risk: Option<real>, properties: map<string, Json>, reference: string)

  /** The supplier supplies its site. */
  ghost predicate SiteClaims(b: Builder, x: Inputs, s: Site, c: Claim) {
    && NodeAt(b, x, SUPPLIER, "SUPPLIER", s.supplierId, c.from) && FacilityAt(b, x, s.entity.id, c.to)
    && c == Claim(c.from, c.to, SUPPLIES, "sup_site:" + s.entity.id, "ACTIVE", s.capacity, None, None,
                  map["relationship" := JString("SUPPLIER_OPERATES_SITE")], "supplier_sites:" + s.entity.id)
  }

  /** Goods travel from the route's origin to its destination. */
  ghost predicate CorridorClaims(b: Builder, x: Inputs, r: Route, c: Claim) {
    && Given(r.originId) && FacilityAt(b, x, r.originId.value, c.from)
    && Given(r.destinationId) && FacilityAt(b, x, r.destinationId.value, c.to)
    && c == Claim(c.from, c.to, TRANSPORT, "route_corridor:" + r.entity.id, "OPERATIONAL", None, None, r.entity.score,
                  r.corridor, "routes:" + r.entity.id)
  }

  /** The origin connects to the route. */
  ghost predicate OriginClaims(b: Builder, x: Inputs, r: Route, c: Claim) {
    && Given(r.originId) && FacilityAt(b, x, r.originId.value, c.from) && NodeAt(b, x, ROUTE, "ROUTE", r.entity.id, c.to)
    && c == Claim(c.from, c.to, CONNECTS, "orig_link:" + r.entity.id, "OPERATIONAL", None, None, None, map[], "routes:" + r.entity.id + ":origin")
  }

  /** The route connects to the destination. */
  ghost predicate DestinationClaims(b: Builder, x: Inputs, r: Route, c: Claim) {
    && NodeAt(b, x, ROUTE, "ROUTE", r.entity.id, c.from) && Given(r.destinationId) && FacilityAt(b, x, r.destinationId.value, c.to)
    && c == Claim(c.from, c.to, CONNECTS, "dest_link:" + r.entity.id, "OPERATIONAL", None, None, None, map[],
                  "routes:" + r.entity.id + ":destination")
  }

  /** The carrier carries the shipment, if that has a node. */
  ghost predicate CarrierClaims(b: Builder, x: Inputs, nodes: set<string>, s: Shipment, c: Claim) {
    && Given(s.carrierId) && NodeAt(b, x, CARRIER, "CARRIER", s.carrierId.value, c.from)
    && c.to in nodes && c.to == ComputeNodeId(b.h, b.org, "SHIPMENT", s.entity.id)
    && c == Claim(c.from, c.to, CARRIES, "carrier_sh:" + s.entity.id, "ACTIVE", None, None, None, map[], "shipments:" + s.entity.id + ":carrier")
  }

  /** The shipment connects to its route. */
  ghost predicate OnRouteClaims(b: Builder, x: Inputs, nodes: set<string>, s: Shipment, c: Claim) {
    && c.from in nodes && c.from == ComputeNodeId(b.h, b.org, "SHIPMENT", s.entity.id)
    && Given(s.routeId) && NodeAt(b, x, ROUTE, "ROUTE", s.routeId.value, c.to)
    && c == Claim(c.from, c.to, CONNECTS, "sh_route:" + s.entity.id, "ACTIVE", None, None, None, map[], "shipments:" + s.entity.id + ":route")
  }

  /** The shipment is a flow of its product. */
  ghost predicate CargoClaims(b: Builder, x: Inputs, nodes: set<string>, s: Shipment, c: Claim) {
    && c.from in nodes && c.from == ComputeNodeId(b.h, b.org, "SHIPMENT", s.entity.id)
    && Given(s.productId) && NodeAt(b, x, PRODUCT, "PRODUCT", s.productId.value, c.to)
    && c == Claim(c.from, c.to, FLOW, "sh_prod:" + s.entity.id, "IN_TRANSIT", None, None, None, map[], "shipments:" + s.entity.id + ":product")
  }

  /** The facility holds the product in stock. */
  ghost predicate StockClaims(b: Builder, x: Inputs, s: Stock, c: Claim) {
    && OurOwn(b, s.org)
    && Given(s.facilityId) && FacilityAt(b, x, s.facilityId.value, c.from)
    && Given(s.productId) && NodeAt(b, x, PRODUCT, "PRODUCT", s.productId.value, c.to)
    && c == Claim(c.from, c.to, LOCATED_AT, "inv:" + s.id, "ACTIVE", None, s.onHand, None, s.levels, "inventory:" + s.id)
  }

  ghost predicate Claimed(b: Builder, x: Inputs, nodes: set<string>, c: Claim) {
    || (exists s :: s in x.sites && SiteClaims(b, x, s, c))
    || (exists r :: r in x.routes && (CorridorClaims(b, x, r, c) || OriginClaims(b, x, r, c) || DestinationClaims(b, x, r, c)))
    || (exists s :: s in x.shipments && (CarrierClaims(b, x, nodes, s, c) || OnRouteClaims(b, x, nodes, s, c) || CargoClaims(b, x, nodes, s, c)))
    || (exists s :: s in x.stocks && StockClaims(b, x, s, c))
  }

  /** The edge is as claimed. */
  ghost predicate Meets(b: Builder, c: Claim, e: TwinEdge) {
    e == TwinEdge(ComputeEdgeId(b.h, b.org, c.from, c.to, c.kind, c.relationship), b.org, c.from, c.to, c.kind, Some(c.status),
                  c.capacity, c.flow, c.risk, c.properties, Some(c.reference), None, EdgeFingerprint(b.h, e))
  }

  // ----- where the edge loops find their nodes

  lemma IdEntryValues(b: Builder, batch: Batch, y: Entry<string>)
    requires y in FlatMap(batch.entities, IdEntry(b, batch.kind))
    ensures y.value == ComputeNodeId(b.h, b.org, NodeTypeName(batch.kind), y.key)
  {
    FlatMapMembers(batch.entities, IdEntry(b, batch.kind));
    hide FlatMap, Kept, NodeTypeName, ComputeNodeId;
    var e :| e in batch.entities && y in IdEntry(b, batch.kind)(e);
  }

  /** The last collection that keeps a record of this id and one of these kinds. */
  ghost predicate LastWith(b: Builder, bs: seq<Batch>, kinds: set<NodeType>, id: string, i: int) {
    && 0 <= i < |bs| && bs[i].kind in kinds && KnownIn(b, bs[i], id)
    && forall j :: i < j < |bs| && bs[j].kind in kinds ==> !KnownIn(b, bs[j], id)
  }

  lemma {:induction false} IdsFind(b: Builder, bs: seq<Batch>, kinds: set<NodeType>, id: string)
    ensures id in IdsFrom(b, bs, kinds) ==>
              exists i :: LastWith(b, bs, kinds, id, i) && IdsFrom(b, bs, kinds)[id] == ComputeNodeId(b.h, b.org, NodeTypeName(bs[i].kind), id)
    ensures id !in IdsFrom(b, bs, kinds) ==> forall j :: 0 <= j < |bs| && bs[j].kind in kinds ==> !KnownIn(b, bs[j], id)
    decreases |bs|
  {
    hide FlatMap, InsertAll, KnownIn, IdEntry, NodeTypeName, ComputeNodeId;
    if bs != [] {
      var n := |bs| - 1;
      var front, last := bs[..n], bs[n];
      IdsFind(b, front, kinds, id);
      IdEntriesKnown(b, last, id);
      var ys := FlatMap(last.entities, IdEntry(b, last.kind));
      InsertAllHas(IdsFrom(b, front, kinds), ys);
      if last.kind in kinds && KnownIn(b, last, id) {
        assert LastWith(b, bs, kinds, id, n);
        var y :| y in ys && y.key == id && y.value == IdsFrom(b, bs, kinds)[id];
        IdEntryValues(b, last, y);
      } else if id in IdsFrom(b, front, kinds) {
        var i :| LastWith(b, front, kinds, id, i) && IdsFrom(b, front, kinds)[id] == ComputeNodeId(b.h, b.org, NodeTypeName(front[i].kind), id);
        assert LastWith(b, bs, kinds, id, i);
      }
    }
  }

  lemma HasInPlace(b: Builder, x: Inputs, kind: NodeType, id: string)
    requires PlaceOf(kind) < 9
    ensures |Batches(x)| == 9 && Batches(x)[PlaceOf(kind)].kind == kind
    ensures KnownIn(b, Batches(x)[PlaceOf(kind)], id) <==> Has(b, x, kind, id)
  {
    hide Batches, Kept, Listed;
    PlaceKind(x, kind);
    forall e
      ensures Listed(b, x, kind, e) <==> e in Batches(x)[PlaceOf(kind)].entities && Kept(b, kind, e)
    {
      InPlace(b, x, kind, e);
    }
  }

  lemma FindIs(m: map<string, string>, id: string, node: string)
    requires id in m ==> m[id] != ""
    ensures Find(m, id) == Some(node) <==> id in m && m[id] == node
  {
  }

  lemma IdsNonempty(b: Builder, incidents: IncidentMap, bs: seq<Batch>, kinds: set<NodeType>, id: string)
    requires b.h.PlainIds()
    ensures id in IdsFrom(b, bs, kinds) ==> IdsFrom(b, bs, kinds)[id] != ""
  {
    hide IdsFrom, NodesFrom;
    IdsKnown(b, incidents, bs, kinds);
    NodeIdsPlain(b, incidents, bs);
  }

  lemma FoundAt(b: Builder, x: Inputs, incidents: IncidentMap, kind: NodeType, id: string, node: string)
    requires b.h.PlainIds() && PlaceOf(kind) < 9
    ensures Find(IdsFrom(b, Batches(x), {kind}), id) == Some(node) <==> NodeAt(b, x, kind, NodeTypeName(kind), id, node)
  {
    hide Batches, IdsFrom, KnownIn, Has, NodeTypeName, ComputeNodeId, Find;
    var bs := Batches(x);
    HasInPlace(b, x, kind, id);
    IdsFind(b, bs, {kind}, id);
    IdsNonempty(b, incidents, bs, {kind}, id);
    FindIs(IdsFrom(b, bs, {kind}), id, node);
    forall i: nat | i < 9
      ensures PlaceOf(bs[i].kind) == i
    {
      Places(x, i);
    }
    assert id in IdsFrom(b, bs, {kind}) <==> KnownIn(b, bs[PlaceOf(kind)], id);
  }

  lemma IdsAt(b: Builder, bs: seq<Batch>, kinds: set<NodeType>, id: string, i: int)
    requires LastWith(b, bs, kinds, id, i)
    ensures id in IdsFrom(b, bs, kinds) && IdsFrom(b, bs, kinds)[id] == ComputeNodeId(b.h, b.org, NodeTypeName(bs[i].kind), id)
  {
    hide IdsFrom, KnownIn, NodeTypeName, ComputeNodeId;
    IdsFind(b, bs, kinds, id);
  }

  /** The facilities stand in the second to the fifth place. */
  ghost predicate FacilityPlaces(bs: seq<Batch>) {
    |bs| == 9 && forall i :: 0 <= i < 9 ==> (bs[i].kind in FACILITIES <==> 1 <= i <= 4)
  }

  lemma FacilityAmong(b: Builder, bs: seq<Batch>, id: string)
    requires FacilityPlaces(bs)
    ensures KnownIn(b, bs[4], id) ==> LastWith(b, bs, FACILITIES, id, 4)
    ensures !KnownIn(b, bs[4], id) && KnownIn(b, bs[3], id) ==> LastWith(b, bs, FACILITIES, id, 3)
    ensures !KnownIn(b, bs[4], id) && !KnownIn(b, bs[3], id) && KnownIn(b, bs[2], id) ==> LastWith(b, bs, FACILITIES, id, 2)
    ensures !KnownIn(b, bs[4], id) && !KnownIn(b, bs[3], id) && !KnownIn(b, bs[2], id) && KnownIn(b, bs[1], id) ==>
              LastWith(b, bs, FACILITIES, id, 1)
    ensures !KnownIn(b, bs[4], id) && !KnownIn(b, bs[3], id) && !KnownIn(b, bs[2], id) && !KnownIn(b, bs[1], id) ==>
              id !in IdsFrom(b, bs, FACILITIES)
  {
    hide KnownIn, IdsFrom, ComputeNodeId, NodeTypeName;
    IdsFind(b, bs, FACILITIES, id);
  }

  lemma FacilitiesPlaced(x: Inputs)
    ensures FacilityPlaces(Batches(x))
  {
    hide Batches;
    Places(x, 0);
    forall i | 0 <= i < 9
      ensures |Batches(x)| == 9 && (Batches(x)[i].kind in FACILITIES <==> 1 <= i <= 4)
    {
      Places(x, i);
    }
  }

  lemma FacilityFound(b: Builder, x: Inputs, incidents: IncidentMap, id: string, node: string)
    requires b.h.PlainIds()
    ensures Find(IdsFrom(b, Batches(x), FACILITIES), id) == Some(node) <==> FacilityAt(b, x, id, node)
  {
    hide Batches, IdsFrom, KnownIn, Has, ComputeNodeId, Find, LastWith, FacilityPlaces;
    var bs := Batches(x);
    HasInPlace(b, x, SUPPLIER_SITE, id);
    HasInPlace(b, x, FACTORY, id);
    HasInPlace(b, x, WAREHOUSE, id);
    HasInPlace(b, x, PORT, id);
    FacilitiesPlaced(x);
    FacilityAmong(b, bs, id);
    IdsNonempty(b, incidents, bs, FACILITIES, id);
    FindIs(IdsFrom(b, bs, FACILITIES), id, node);
    if id in IdsFrom(b, bs, FACILITIES) {
      IdsAt(b, bs, FACILITIES, id, if Has(b, x, PORT, id) then 4 else if Has(b, x, WAREHOUSE, id) then 3
                                   else if Has(b, x, FACTORY, id) then 2 else 1);
    } else if i :| 1 <= i <= 4 && LastWith(b, bs, FACILITIES, id, i) {
      IdsAt(b, bs, FACILITIES, id, i);
    }
  }

  // ----- the relationships, and what they claim

  function ClaimOf(id: string, t: Tie): Claim
    requires Drawn(t)
  {
    Claim(t.from.value, t.to.value, EdgeTypeOf(t.relation), TagOf(t.relation) + id, t.details.status,
          t.details.capacity, t.details.flow, t.details.risk, t.details.properties, t.details.reference)
  }

  predicate Backs(u: Ties, k: nat, c: Claim) {
    k < |u.ties| && Drawn(u.ties[k]) && c == ClaimOf(u.id, u.ties[k])
  }

  lemma OptFound(b: Builder, x: Inputs, incidents: IncidentMap, id: Option<string>, node: string)
    requires b.h.PlainIds()
    ensures FindOpt(IdsFrom(b, Batches(x), FACILITIES), id) == Some(node) <==> Given(id) && FacilityAt(b, x, id.value, node)
    ensures FindOpt(IdsFrom(b, Batches(x), {CARRIER}), id) == Some(node) <==> Given(id) && NodeAt(b, x, CARRIER, "CARRIER", id.value, node)
    ensures FindOpt(IdsFrom(b, Batches(x), {ROUTE}), id) == Some(node) <==> Given(id) && NodeAt(b, x, ROUTE, "ROUTE", id.value, node)
    ensures FindOpt(IdsFrom(b, Batches(x), {PRODUCT}), id) == Some(node) <==> Given(id) && NodeAt(b, x, PRODUCT, "PRODUCT", id.value, node)
  {
    hide Batches, IdsFrom, Find, FacilityAt, NodeAt;
    if id.Some? {
      FacilityFound(b, x, incidents, id.value, node);
      FoundAt(b, x, incidents, CARRIER, id.value, node);
      FoundAt(b, x, incidents, ROUTE, id.value, node);
      FoundAt(b, x, incidents, PRODUCT, id.value, node);
    }
  }

  lemma SiteBacked(b: Builder, x: Inputs, incidents: IncidentMap, s: Site, c: Claim)
    requires b.h.PlainIds()
    ensures Backs(SiteTies(IndexFrom(b, incidents, Batches(x)))(s)[0], 0, c) <==> SiteClaims(b, x, s, c)
  {
    hide Batches, IdsFrom, NodesFrom, Find, FacilityAt, NodeAt;
    FoundAt(b, x, incidents, SUPPLIER, s.supplierId, c.from);
    FacilityFound(b, x, incidents, s.entity.id, c.to);
  }

  lemma RouteBacked(b: Builder, x: Inputs, incidents: IncidentMap, r: Route, c: Claim)
    requires b.h.PlainIds()
    ensures var u := RouteTies(IndexFrom(b, incidents, Batches(x)))(r)[0];
            && (Backs(u, 0, c) <==> CorridorClaims(b, x, r, c))
            && (Backs(u, 1, c) <==> OriginClaims(b, x, r, c))
            && (Backs(u, 2, c) <==> DestinationClaims(b, x, r, c))
  {
    hide Batches, IdsFrom, NodesFrom, Find, FindOpt, FacilityAt, NodeAt, Given;
    FoundAt(b, x, incidents, ROUTE, r.entity.id, c.from);
    FoundAt(b, x, incidents, ROUTE, r.entity.id, c.to);
    OptFound(b, x, incidents, r.originId, c.from);
    OptFound(b, x, incidents, r.destinationId, c.to);
  }

  /** The ends of a shipment's relationships. */
  lemma ShipmentEnds(b: Builder, x: Inputs, incidents: IncidentMap, s: Shipment)
    ensures var (ix, bs) := (IndexFrom(b, incidents, Batches(x)), Batches(x));
            var (u, node, id) := (ShipmentTies(b, ix)(s)[0], ComputeNodeId(b.h, b.org, "SHIPMENT", s.entity.id), s.entity.id);
            var placed := if node in ix.nodes then Some(node) else None;
            && u.id == id && |u.ties| == 3
            && u.ties[0] == Tie(FindOpt(IdsFrom(b, bs, {CARRIER}), s.carrierId), placed, CARRIER_SH, Plainly("ACTIVE", "shipments:" + id + ":carrier"))
            && u.ties[1] == Tie(placed, FindOpt(IdsFrom(b, bs, {ROUTE}), s.routeId), SH_ROUTE, Plainly("ACTIVE", "shipments:" + id + ":route"))
            && u.ties[2] == Tie(placed, FindOpt(IdsFrom(b, bs, {PRODUCT}), s.productId), SH_PROD, Plainly("IN_TRANSIT", "shipments:" + id + ":product"))
  {
    hide Batches, IdsFrom, NodesFrom, FindOpt, Plainly, ComputeNodeId;
    var bs := Batches(x);
    FoundInNodes(b, incidents, bs, {CARRIER}, s.carrierId);
    FoundInNodes(b, incidents, bs, {ROUTE}, s.routeId);
    FoundInNodes(b, incidents, bs, {PRODUCT}, s.productId);
  }

  lemma ShipmentBacked(b: Builder, x: Inputs, incidents: IncidentMap, s: Shipment, c: Claim)
    requires b.h.PlainIds()
    ensures var ix := IndexFrom(b, incidents, Batches(x));
            var u := ShipmentTies(b, ix)(s)[0];
            && (Backs(u, 0, c) <==> CarrierClaims(b, x, ix.nodes.Keys, s, c))
            && (Backs(u, 1, c) <==> OnRouteClaims(b, x, ix.nodes.Keys, s, c))
            && (Backs(u, 2, c) <==> CargoClaims(b, x, ix.nodes.Keys, s, c))
  {
    hide Batches, IdsFrom, IndexFrom, ShipmentTies, FindOpt, NodeAt, Given, ComputeNodeId;
    ShipmentEnds(b, x, incidents, s);
    OptFound(b, x, incidents, s.carrierId, c.from);
    OptFound(b, x, incidents, s.routeId, c.to);
    OptFound(b, x, incidents, s.productId, c.to);
  }

  lemma StockBacked(b: Builder, x: Inputs, incidents: IncidentMap, s: Stock, c: Claim)
    requires b.h.PlainIds()
    ensures var us := StockTies(b, IndexFrom(b, incidents, Batches(x)))(s);
            StockClaims(b, x, s, c) <==> us != [] && Backs(us[0], 0, c)
  {
    hide Batches, IdsFrom, NodesFrom, Find, FindOpt, FacilityAt, NodeAt, Given;
    OptFound(b, x, incidents, s.facilityId, c.from);
    OptFound(b, x, incidents, s.productId, c.to);
  }

  function IndexOf(b: Builder, x: Inputs): Index {
    IndexFrom(b, IncidentsByAsset(x.incidents), Batches(x))
  }

  function Loops(b: Builder, x: Inputs): seq<seq<Ties>> {
    Relationships(b, IndexOf(b, x), x)
  }

  ghost predicate BackedSomewhere(u: Ties, c: Claim) {
    exists k: nat :: Backs(u, k, c)
  }

  lemma SiteLoop(b: Builder, x: Inputs, u: Ties, c: Claim)
    requires b.h.PlainIds() && u in Loops(b, x)[0] && BackedSomewhere(u, c)
    ensures exists s :: s in x.sites && SiteClaims(b, x, s, c)
  {
    var ix := IndexOf(b, x);
    FlatMapMembers(x.sites, SiteTies(ix));
    hide FlatMap, SiteTies, RouteTies, ShipmentTies, StockTies, IndexFrom, Batches, IncidentsByAsset, SiteClaims, Backs, SiteLinked, Known;
    var s :| s in x.sites && u in SiteTies(ix)(s);
    var k: nat :| Backs(u, k, c);
    SiteDrawn(b, IncidentsByAsset(x.incidents), Batches(x), s, u);
    SitesGroup(ix);
    BackedAt(u, k, c);
    SiteBacked(b, x, IncidentsByAsset(x.incidents), s, c);
  }

  lemma BackedAt(u: Ties, k: nat, c: Claim)
    requires Backs(u, k, c)
    ensures k < |u.ties|
  {
  }

  lemma RouteLoop(b: Builder, x: Inputs, u: Ties, c: Claim)
    requires b.h.PlainIds() && u in Loops(b, x)[1] && BackedSomewhere(u, c)
    ensures exists r :: r in x.routes && (CorridorClaims(b, x, r, c) || OriginClaims(b, x, r, c) || DestinationClaims(b, x, r, c))
  {
    var ix := IndexOf(b, x);
    FlatMapMembers(x.routes, RouteTies(ix));
    hide FlatMap, SiteTies, RouteTies, ShipmentTies, StockTies, IndexFrom, Batches, IncidentsByAsset, CorridorClaims, OriginClaims,
         DestinationClaims, Backs, KnownOpt, Known;
    var r :| r in x.routes && u in RouteTies(ix)(r);
    var k: nat :| Backs(u, k, c);
    RouteDrawn(b, IncidentsByAsset(x.incidents), Batches(x), r, u);
    RouteGroup(ix, r);
    BackedAt(u, k, c);
    RouteBacked(b, x, IncidentsByAsset(x.incidents), r, c);
    assert k == 0 || k == 1 || k == 2;
  }

  lemma ShipmentLoop(b: Builder, x: Inputs, u: Ties, c: Claim)
    requires b.h.PlainIds() && u in Loops(b, x)[2] && BackedSomewhere(u, c)
    ensures exists s :: s in x.shipments && (CarrierClaims(b, x, IndexOf(b, x).nodes.Keys, s, c)
                                             || OnRouteClaims(b, x, IndexOf(b, x).nodes.Keys, s, c)
                                             || CargoClaims(b, x, IndexOf(b, x).nodes.Keys, s, c))
  {
    var ix := IndexOf(b, x);
    FlatMapMembers(x.shipments, ShipmentTies(b, ix));
    hide FlatMap, SiteTies, RouteTies, ShipmentTies, StockTies, IndexFrom, Batches, IncidentsByAsset, CarrierClaims, OnRouteClaims, CargoClaims,
         Backs, KnownOpt, Known, Placed;
    var s :| s in x.shipments && u in ShipmentTies(b, ix)(s);
    var k: nat :| Backs(u, k, c);
    ShipmentDrawn(b, IncidentsByAsset(x.incidents), Batches(x), s, u);
    ShipmentGroup(b, ix, s);
    BackedAt(u, k, c);
    ShipmentBacked(b, x, IncidentsByAsset(x.incidents), s, c);
    assert k == 0 || k == 1 || k == 2;
  }

  lemma StockLoop(b: Builder, x: Inputs, u: Ties, c: Claim)
    requires b.h.PlainIds() && u in Loops(b, x)[3] && BackedSomewhere(u, c)
    ensures exists s :: s in x.stocks && StockClaims(b, x, s, c)
  {
    var ix := IndexOf(b, x);
    FlatMapMembers(x.stocks, StockTies(b, ix));
    hide FlatMap, SiteTies, RouteTies, ShipmentTies, StockTies, IndexFrom, Batches, IncidentsByAsset, StockClaims, Backs, StockLinked;
    var s :| s in x.stocks && u in StockTies(b, ix)(s);
    var k: nat :| Backs(u, k, c);
    StockDrawn(b, IncidentsByAsset(x.incidents), Batches(x), s, u);
    StocksGroup(b, ix);
    BackedAt(u, k, c);
    StockBacked(b, x, IncidentsByAsset(x.incidents), s, c);
  }

  lemma LoopClaims(b: Builder, x: Inputs, i: int, u: Ties, c: Claim)
    requires b.h.PlainIds() && 0 <= i < 4 && u in Loops(b, x)[i] && BackedSomewhere(u, c)
    ensures Claimed(b, x, IndexOf(b, x).nodes.Keys, c)
  {
    hide Loops, IndexOf, BackedSomewhere, SiteClaims, CorridorClaims, OriginClaims, DestinationClaims, CarrierClaims, OnRouteClaims, CargoClaims,
         StockClaims;
    if i == 0 {
      SiteLoop(b, x, u, c);
    } else if i == 1 {
      RouteLoop(b, x, u, c);
    } else if i == 2 {
      ShipmentLoop(b, x, u, c);
    } else {
      StockLoop(b, x, u, c);
    }
  }

  /** Every claim is that of a relationship of the edge loops. */
  lemma ClaimTied(b: Builder, x: Inputs, c: Claim) returns (i: nat, u: Ties, k: nat)
    requires b.h.PlainIds() && Claimed(b, x, IndexOf(b, x).nodes.Keys, c)
    ensures i < 4 && u in Loops(b, x)[i] && Backs(u, k, c)
  {
    var ix, incidents := IndexOf(b, x), IncidentsByAsset(x.incidents);
    FlatMapMembers(x.sites, SiteTies(ix));
    FlatMapMembers(x.routes, RouteTies(ix));
    FlatMapMembers(x.shipments, ShipmentTies(b, ix));
    FlatMapMembers(x.stocks, StockTies(b, ix));
    hide FlatMap, SiteTies, RouteTies, ShipmentTies, StockTies, IndexFrom, Batches, IncidentsByAsset, SiteClaims, CorridorClaims, OriginClaims,
         DestinationClaims, CarrierClaims, OnRouteClaims, CargoClaims, StockClaims, Backs;
    if s :| s in x.sites && SiteClaims(b, x, s, c) {
      SiteBacked(b, x, incidents, s, c);
      SiteGroup(ix, s);
      return 0, SiteTies(ix)(s)[0], 0;
    } else if r :| r in x.routes && (CorridorClaims(b, x, r, c) || OriginClaims(b, x, r, c) || DestinationClaims(b, x, r, c)) {
      RouteBacked(b, x, incidents, r, c);
      RouteGroup(ix, r);
      return 1, RouteTies(ix)(r)[0], if CorridorClaims(b, x, r, c) then 0 else if OriginClaims(b, x, r, c) then 1 else 2;
    } else if s :| s in x.shipments && (CarrierClaims(b, x, ix.nodes.Keys, s, c) || OnRouteClaims(b, x, ix.nodes.Keys, s, c)
                                        || CargoClaims(b, x, ix.nodes.Keys, s, c)) {
      ShipmentBacked(b, x, incidents, s, c);
      ShipmentGroup(b, ix, s);
      return 2, ShipmentTies(b, ix)(s)[0],
             if CarrierClaims(b, x, ix.nodes.Keys, s, c) then 0 else if OnRouteClaims(b, x, ix.nodes.Keys, s, c) then 1 else 2;
    } else {
      var s :| s in x.stocks && StockClaims(b, x, s, c);
      StockBacked(b, x, incidents, s, c);
      return 3, StockTies(b, ix)(s)[0], 0;
    }
  }

  lemma SiteGroup(ix: Index, s: Site)
    ensures SiteTies(ix)(s) == [SiteTies(ix)(s)[0]]
  {
    hide Find;
  }

  lemma EdgeMeets(b: Builder, u: Ties, k: nat, c: Claim)
    requires Backs(u, k, c)
    ensures Drawn(u.ties[k]) && Meets(b, c, EdgeOf(b, u.id, u.ties[k]))
    ensures EdgeOf(b, u.id, u.ties[k]).edgeId == ComputeEdgeId(b.h, b.org, c.from, c.to, c.kind, c.relationship)
  {
    hide EdgeTypeOf, TagOf, ComputeEdgeId;
  }

  /** Every edge is as some record claims, under the edge's own id. */
  lemma EdgesTold(b: Builder, x: Inputs, k: string)
    requires Built(b, x).Ok? && b.h.PlainIds() && k in Built(b, x).value.edges
    ensures var snapshot := Built(b, x).value;
            snapshot.edges[k].edgeId == k
            && exists c :: Claimed(b, x, snapshot.nodes.Keys, c) && Meets(b, c, snapshot.edges[k])
  {
    hide Built, Batches, IncidentsByAsset, NodesFrom, EdgesFrom, IdsFrom, DigestsFrom, Relationships, SourceFingerprint, EdgeOf, Claimed, Meets, ClaimOf;
    BuiltNodes(b, x);
    EdgesExactly(b, Loops(b, x));
    assert EdgeFor(b, Loops(b, x), k, Built(b, x).value.edges[k]);
    var i, u, t :| TieAt(Loops(b, x), i, u, t) && k == EdgeOf(b, u.id, t).edgeId && Built(b, x).value.edges[k] == EdgeOf(b, u.id, t);
    var j :| 0 <= j < |u.ties| && u.ties[j] == t;
    var c := ClaimOf(u.id, t);
    assert Backs(u, j, c);
    EdgeMeets(b, u, j, c);
    LoopClaims(b, x, i, u, c);
  }

  lemma RelationLoop(b: Builder, x: Inputs, i: nat, u: Ties, t: Tie)
    requires i < 4 && u in Loops(b, x)[i] && t in u.ties
    ensures i == match t.relation
                 case SUP_SITE => 0
                 case ROUTE_CORRIDOR | ORIG_LINK | DEST_LINK => 1
                 case CARRIER_SH | SH_ROUTE | SH_PROD => 2
                 case INV => 3
  {
    var ix := IndexOf(b, x);
    FlatMapMembers(x.sites, SiteTies(ix));
    FlatMapMembers(x.routes, RouteTies(ix));
    FlatMapMembers(x.shipments, ShipmentTies(b, ix));
    FlatMapMembers(x.stocks, StockTies(b, ix));
    hide FlatMap, IndexOf, Find, FindOpt, InNodes, Plainly, NodeIdOf;
  }

  /** And where the ids within a collection are unique, every claim of a record has its edge. */
  lemma ClaimsMet(b: Builder, x: Inputs, c: Claim)
    requires Built(b, x).Ok? && b.h.InjectiveIds() && b.h.PlainIds() && Shuffled(x, x)
    requires Claimed(b, x, Built(b, x).value.nodes.Keys, c)
    ensures exists k :: k in Built(b, x).value.edges && Meets(b, c, Built(b, x).value.edges[k])
  {
    hide Built, Batches, IncidentsByAsset, NodesFrom, EdgesFrom, IdsFrom, DigestsFrom, Relationships, SourceFingerprint, EdgeOf, Claimed, Meets, ClaimOf,
         Shuffled, PlainEnds, Regrouped, Simple, Unique;
    var uss, incidents := Loops(b, x), IncidentsByAsset(x.incidents);
    BuiltNodes(b, x);
    var i, u, k := ClaimTied(b, x, c);
    EdgeMeets(b, u, k, c);
    var t := u.ties[k];
    EdgesExactly(b, uss);
    assert TieAt(uss, i, u, t);
    var id := EdgeOf(b, u.id, t).edgeId;
    assert EdgeFor(b, uss, id, Built(b, x).value.edges[id]);
    var j, v, q :| TieAt(uss, j, v, q) && id == EdgeOf(b, v.id, q).edgeId && Built(b, x).value.edges[id] == EdgeOf(b, v.id, q);
    TiesPlain(b, incidents, x);
    SameEdgeSameTie(b, u, t, v, q);
    RelationLoop(b, x, i, u, t);
    RelationLoop(b, x, j, v, q);
    RelationshipsRegrouped(b, IndexOf(b, x), x, x, i);
    SameTie(uss[i], u, t, v, q);
  }

  lemma SameTie(us: seq<Ties>, u: Ties, t: Tie, v: Ties, q: Tie)
    requires Regrouped(us, us) && u in us && v in us && t in u.ties && q in v.ties && t.relation == q.relation && Strip(u.id) == Strip(v.id)
    ensures u == v && t == q
  {
    hide Strip;
    assert TiesId()(u) == u.id && TiesId()(v) == v.id;
    SimpleTies(u, t, q);
  }
}
