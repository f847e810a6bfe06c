/** The strongly typed contracts of the digital twin. */
module TwinModel {
  import opened Results

  datatype NodeType =
    SUPPLIER | SUPPLIER_SITE | FACTORY | WAREHOUSE | PORT | CARRIER | ROUTE | SHIPMENT | PRODUCT | CUSTOMER | CUSTOM

  datatype EdgeType =
    FLOW | TRANSPORT | DEPENDENCY | LOCATED_AT | OPERATES | CONNECTS | CARRIES | SUPPLIES

  /** The value of the enumeration's member, which is also its name. */
  function NodeTypeName(kind: NodeType): string {
    match kind
    case SUPPLIER => "SUPPLIER"
    case SUPPLIER_SITE => "SUPPLIER_SITE"
    case FACTORY => "FACTORY"
    case WAREHOUSE => "WAREHOUSE"
    case PORT => "PORT"
    case CARRIER => "CARRIER"
    case ROUTE => "ROUTE"
    case SHIPMENT => "SHIPMENT"
    case PRODUCT => "PRODUCT"
    case CUSTOMER => "CUSTOMER"
    case CUSTOM => "CUSTOM"
  }

  function EdgeTypeName(kind: EdgeType): string {
    match kind
    case FLOW => "FLOW"
    case TRANSPORT => "TRANSPORT"
    case DEPENDENCY => "DEPENDENCY"
    case LOCATED_AT => "LOCATED_AT"
    case OPERATES => "OPERATES"
    case CONNECTS => "CONNECTS"
    case CARRIES => "CARRIES"
    case SUPPLIES => "SUPPLIES"
  }

  datatype Json =
    | JNull
    | JBool(flag: bool)
    | JNumber(number: real)
    | JString(text: string)
    | JArray(items: seq<Json>)
    | JObject(fields: map<string, Json>)

  /** An authoritative source descriptor; its contents play no part in any operation here. */
  datatype Provenance = Provenance(sourceSystem: string, metadata: map<string, Json>)

  datatype TwinNode = TwinNode(
    nodeId: string,
    organizationId: string,
    nodeType: NodeType,
    sourceEntityType: string,
    sourceEntityId: string,
    displayLabel: string,
    latitude: Option<real>,
    longitude: Option<real>,
    healthScore: Option<real>,
    status: Option<string>,
    properties: map<string, Json>,
    sourceTimestamp: Option<int>,
    provenance: Option<Provenance>,
    fingerprint: string)

  datatype TwinEdge = TwinEdge(
    edgeId: string,
    organizationId: string,
    fromNodeId: string,
    toNodeId: string,
    edgeType: EdgeType,
    status: Option<string>,
    flowCapacity: Option<real>,
    currentFlow: Option<real>,
    riskScore: Option<real>,
    properties: map<string, Json>,
    sourceReference: Option<string>,
    provenance: Option<Provenance>,
    fingerprint: string)

  datatype Snapshot = Snapshot(
    twinId: string,
    organizationId: string,
    version: string,
    nodeCount: nat,
    edgeCount: nat,
    nodes: map<string, TwinNode>,
    edges: map<string, TwinEdge>,
    sourceFingerprint: string,
    twinFingerprint: string)
}
