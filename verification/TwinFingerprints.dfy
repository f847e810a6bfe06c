/** Identities and fingerprints of the digital twin, over uninterpreted hash functions. */
module TwinFingerprints {
  import opened Results
  import opened Text
  import opened TwinModel

  /** `uuid` is the text of the version-5 UUID of a key in the twin's namespace; `node` and `edge`
      are the SHA-256 of a canonical JSON rendering, rounding included; `sha` is SHA-256 of a text. */
  datatype Hashes = Hashes(uuid: string -> string, node: TwinNode -> string, edge: TwinEdge -> string, sha: string -> string)
  {
    ghost predicate InjectiveIds() {
      forall a, b :: uuid(a) == uuid(b) ==> a == b
    }

    /** True of every UUID: digits, letters and hyphens only. */
    ghost predicate PlainIds() {
      forall a :: uuid(a) != "" && ':' !in uuid(a)
    }

    ghost predicate InjectiveSha() {
      forall a, b :: sha(a) == sha(b) ==> a == b
    }
  }

  function CleanOrg(org: string): string {
    Lower(Strip(if org == "" then "global" else org))
  }

  function CleanType(entityType: string): string {
    Lower(Strip(entityType))
  }

  /** Three parts joined by colons. */
  function Join(org: string, entityType: string, entityId: string): string {
    org + ":" + entityType + ":" + entityId
  }

  function NodeKey(org: string, entityType: string, entityId: string): string {
    "riskwise:node:" + Join(CleanOrg(org), CleanType(entityType), Strip(entityId))
  }

  function ComputeNodeId(h: Hashes, org: string, entityType: string, entityId: string): string {
    h.uuid(NodeKey(org, entityType, entityId))
  }

  function EdgeKey(org: string, fromNode: string, toNode: string, edgeType: EdgeType, relationship: string): string {
    "riskwise:edge:" + CleanOrg(org) + ":" + Join(Strip(fromNode), Strip(toNode), EdgeTypeName(edgeType) + ":" + Strip(relationship))
  }

  function ComputeEdgeId(h: Hashes, org: string, fromNode: string, toNode: string, edgeType: EdgeType, relationship: string): string {
    h.uuid(EdgeKey(org, fromNode, toNode, edgeType, relationship))
  }

  // ----- which keys agree

  lemma JoinedParts(o1: string, t1: string, i1: string, o2: string, t2: string, i2: string)
    requires ':' !in t1 && ':' !in t2 && |o1| == |o2|
    ensures Join(o1, t1, i1) == Join(o2, t2, i2) <==> o1 == o2 && t1 == t2 && i1 == i2
  {
    if Join(o1, t1, i1) == Join(o2, t2, i2) {
      var s := Join(o1, t1, i1);
      assert s[..|o1|] == o1 && s[..|o2|] == o2;
      assert s[|o1| + 1..] == t1 + [':'] + i1 && s[|o2| + 1..] == t2 + [':'] + i2;
      FirstPart(':', t1, i1, t2, i2);
    }
  }

  /** The longer organization starts with the shorter one and its type, and the shorter one's
      entity id takes up the rest of the longer organization, its type and its entity id. */
  ghost predicate Nested(o1: string, t1: string, i1: string, o2: string, t2: string, i2: string) {
    exists m :: NestedBy(o1, t1, i1, o2, t2, i2, m)
  }

  predicate NestedBy(o1: string, t1: string, i1: string, o2: string, t2: string, i2: string, m: string) {
    o2 == o1 + ":" + t1 + m && ":" + i1 == m + ":" + t2 + ":" + i2
  }

  lemma NestedJoins(o1: string, t1: string, i1: string, o2: string, t2: string, i2: string, m: string)
    requires NestedBy(o1, t1, i1, o2, t2, i2, m)
    ensures Join(o1, t1, i1) == Join(o2, t2, i2)
  {
    var front := o1 + ":" + t1;
    assert Join(o1, t1, i1) == front + (":" + i1);
    assert Join(o2, t2, i2) == front + (m + ":" + t2 + ":" + i2);
  }

  /** A text without colons that starts a text starts what precedes its first colon. */
  lemma ColonBeyond(a: string, x: string, y: string, z: string)
    requires ':' !in a && a + ":" + x == y + ":" + z
    ensures a <= y
  {
    var s := a + ":" + x;
    assert s[|y|] == ':';
    assert forall k :: 0 <= k < |a| ==> s[k] == a[k];
    assert |a| <= |y|;
    assert a == s[..|a|] && y == s[..|y|];
  }

  lemma JoinsNest(o1: string, t1: string, i1: string, o2: string, t2: string, i2: string)
    requires ':' !in t1 && |o1| < |o2|
    requires Join(o1, t1, i1) == Join(o2, t2, i2)
    ensures Nested(o1, t1, i1, o2, t2, i2)
  {
    assert Join(o1, t1, i1) == o1 + ":" + (t1 + ":" + i1) && Join(o2, t2, i2) == o2 + ":" + (t2 + ":" + i2);
    var x := LongerOrg(o1, t1 + ":" + i1, o2, t2 + ":" + i2);
    ColonBeyond(t1, i1, x, t2 + ":" + i2);
    var m := x[|t1|..];
    AfterType(t1, i1, m, t2, i2);
    assert o2 == o1 + ":" + t1 + m;
    assert NestedBy(o1, t1, i1, o2, t2, i2, m);
  }

  lemma LongerOrg(o1: string, rest1: string, o2: string, rest2: string) returns (x: string)
    requires |o1| < |o2| && o1 + ":" + rest1 == o2 + ":" + rest2
    ensures o2 == o1 + ":" + x && rest1 == x + ":" + rest2
  {
    var s := o1 + ":" + rest1;
    x := o2[|o1| + 1..];
    assert s[..|o2|] == o2 && s[..|o1|] == o1 && s[|o1|] == ':';
    assert s[|o1| + 1..] == rest1 && s[|o1| + 1..] == x + ":" + rest2;
  }

  lemma AfterType(t1: string, i1: string, m: string, t2: string, i2: string)
    requires t1 + ":" + i1 == t1 + m + ":" + (t2 + ":" + i2)
    ensures ":" + i1 == m + ":" + t2 + ":" + i2
  {
    var s := t1 + ":" + i1;
    assert s[|t1|..] == ":" + i1 && s[|t1|..] == m + ":" + t2 + ":" + i2;
  }

  /** Joins agree if their parts do, and otherwise only because an organization swallows the
      other one's type. */
  lemma JoinsAgree(o1: string, t1: string, i1: string, o2: string, t2: string, i2: string)
    requires ':' !in t1 && ':' !in t2
    ensures Join(o1, t1, i1) == Join(o2, t2, i2)
            <==> (o1 == o2 && t1 == t2 && i1 == i2) || Nested(o1, t1, i1, o2, t2, i2) || Nested(o2, t2, i2, o1, t1, i1)
  {
    hide Join, NestedBy;
    if m :| NestedBy(o1, t1, i1, o2, t2, i2, m) {
      NestedJoins(o1, t1, i1, o2, t2, i2, m);
    } else if m :| NestedBy(o2, t2, i2, o1, t1, i1, m) {
      NestedJoins(o2, t2, i2, o1, t1, i1, m);
    } else if Join(o1, t1, i1) == Join(o2, t2, i2) {
      if |o1| < |o2| {
        JoinsNest(o1, t1, i1, o2, t2, i2);
      } else if |o2| < |o1| {
        JoinsNest(o2, t2, i2, o1, t1, i1);
      } else {
        JoinedParts(o1, t1, i1, o2, t2, i2);
      }
    }
  }

  lemma LowerWithout(c: char, s: string)
    requires c !in s && !('a' <= c <= 'z')
    ensures c !in Lower(s)
  {
    assert forall i :: 0 <= i < |s| && Lower(s)[i] == c ==> s[i] == c;
  }

  lemma TypeWithout(entityType: string)
    requires ':' !in entityType
    ensures ':' !in CleanType(entityType)
  {
    hide Lower, Strip;
    StripEnds(entityType);
    LowerWithout(':', Strip(entityType));
  }

  /** When two node ids agree, the entity types being free of colons as every type of the twin
      is: if the cleaned organization, type and id do, or if one organization swallows the
      other one's type. */
  lemma NodeIdsAgree(h: Hashes, org1: string, type1: string, id1: string, org2: string, type2: string, id2: string)
    requires h.InjectiveIds() && ':' !in type1 && ':' !in type2
    ensures var (o1, t1, i1) := (CleanOrg(org1), CleanType(type1), Strip(id1));
            var (o2, t2, i2) := (CleanOrg(org2), CleanType(type2), Strip(id2));
            ComputeNodeId(h, org1, type1, id1) == ComputeNodeId(h, org2, type2, id2)
            <==> (o1 == o2 && t1 == t2 && i1 == i2) || Nested(o1, t1, i1, o2, t2, i2) || Nested(o2, t2, i2, o1, t1, i1)
  {
    hide Join, CleanOrg, CleanType, Strip, Nested;
    var (o1, t1, i1) := (CleanOrg(org1), CleanType(type1), Strip(id1));
    var (o2, t2, i2) := (CleanOrg(org2), CleanType(type2), Strip(id2));
    TypeWithout(type1);
    TypeWithout(type2);
    JoinsAgree(o1, t1, i1, o2, t2, i2);
    if ComputeNodeId(h, org1, type1, id1) == ComputeNodeId(h, org2, type2, id2) {
      Untag("riskwise:node:", Join(o1, t1, i1), Join(o2, t2, i2));
    }
  }

  /** Within one organization, and between organizations free of colons, the parts decide. */
  lemma NodeIdsApart(h: Hashes, org1: string, type1: string, id1: string, org2: string, type2: string, id2: string)
    requires h.InjectiveIds() && ':' !in type1 && ':' !in type2
    requires CleanOrg(org1) == CleanOrg(org2) || (':' !in org1 && ':' !in org2)
    ensures ComputeNodeId(h, org1, type1, id1) == ComputeNodeId(h, org2, type2, id2)
            <==> CleanOrg(org1) == CleanOrg(org2) && CleanType(type1) == CleanType(type2) && Strip(id1) == Strip(id2)
  {
    hide Strip, Lower, CleanType;
    NodeIdsAgree(h, org1, type1, id1, org2, type2, id2);
    if CleanOrg(org1) != CleanOrg(org2) {
      OrgWithout(org1);
      OrgWithout(org2);
    }
  }

  lemma OrgWithout(org: string)
    requires ':' !in org
    ensures ':' !in CleanOrg(org)
  {
    hide Lower, Strip;
    var o := if org == "" then "global" else org;
    StripEnds(o);
    LowerWithout(':', Strip(o));
  }

  lemma Plain(t: string)
    requires t != "" && !IsSpace(t[0]) && !IsSpace(t[|t| - 1])
    requires forall i :: 0 <= i < |t| ==> !('A' <= t[i] <= 'Z')
    ensures CleanOrg(t) == CleanType(t) == Strip(t) == t
  {
    StripNone(t);
    assert Lower(t) == t;
  }

  lemma NameLetters(kind: NodeType)
    ensures var t := NodeTypeName(kind); t != "" && forall i :: 0 <= i < |t| ==> 'A' <= t[i] <= '_'
  {
  }

  lemma TypeLowered(kind: NodeType)
    ensures CleanType(NodeTypeName(kind)) == Lower(NodeTypeName(kind))
    ensures var t := Lower(NodeTypeName(kind)); t != "" && !IsSpace(t[0]) && ':' !in NodeTypeName(kind)
  {
    hide NodeTypeName, Strip;
    NameLetters(kind);
    StripNone(NodeTypeName(kind));
  }

  /** So tenants are not kept apart if their names differ only in case, nor if one name is the
      other followed by an entity type. */
  lemma TenantsCollide(h: Hashes, entityType: string, entityId: string)
    ensures ComputeNodeId(h, "Acme", entityType, entityId) == ComputeNodeId(h, "acme", entityType, entityId)
    ensures ComputeNodeId(h, "acme:supplier", "WAREHOUSE", "w1") == ComputeNodeId(h, "acme", "SUPPLIER", "warehouse:w1")
  {
    hide StripRight, StripLeft, Strip, CleanOrg, CleanType, Join;
    CapitalLost();
    Plain("acme");
    Plain("acme:supplier");
    Plain("w1");
    Plain("warehouse:w1");
    TypesLowered();
    JoinedTwice();
  }

  lemma CapitalLost()
    ensures CleanOrg("Acme") == CleanOrg("acme")
  {
    StripNone("Acme");
    StripNone("acme");
    hide Strip;
    assert Lower("Acme") == Lower("acme");
  }

  lemma TypesLowered()
    ensures CleanType("WAREHOUSE") == "warehouse" && CleanType("SUPPLIER") == "supplier"
  {
    TypeLowered(WAREHOUSE);
    TypeLowered(SUPPLIER);
    hide CleanType;
    assert Lower("WAREHOUSE") == "warehouse" && Lower("SUPPLIER") == "supplier";
  }

  lemma JoinedTwice()
    ensures Join("acme:supplier", "warehouse", "w1") == Join("acme", "supplier", "warehouse:w1")
  {
  }

  /** A name that is another one followed by an entity type, and then by nothing or by a colon
      with no space after it. */
  ghost predicate Swallows(longer: string, shorter: string) {
    exists kind, m :: SwallowsBy(longer, shorter, kind, m)
  }

  predicate SwallowsBy(longer: string, shorter: string, kind: NodeType, m: string) {
    longer == shorter + ":" + Lower(NodeTypeName(kind)) + m && (m == "" || (m[0] == ':' && (|m| > 1 ==> !IsSpace(m[1]))))
  }

  ghost predicate ShareNode(h: Hashes, org1: string, org2: string) {
    exists kind1, id1, kind2, id2 :: SharedNode(h, org1, kind1, id1, org2, kind2, id2)
  }

  predicate SharedNode(h: Hashes, org1: string, kind1: NodeType, id1: string, org2: string, kind2: NodeType, id2: string) {
    ComputeNodeId(h, org1, NodeTypeName(kind1), id1) == ComputeNodeId(h, org2, NodeTypeName(kind2), id2)
  }

  lemma NestedSwallows(o1: string, kind: NodeType, i1: string, o2: string, t2: string, i2: string)
    requires i1 == "" || !IsSpace(i1[0])
    requires Nested(o1, Lower(NodeTypeName(kind)), i1, o2, t2, i2)
    ensures Swallows(o2, o1)
  {
    hide IsSpace, Lower, NodeTypeName;
    var m :| NestedBy(o1, Lower(NodeTypeName(kind)), i1, o2, t2, i2, m);
    assert (":" + i1)[0] == ':';
    if |m| > 1 {
      assert m[1] == (":" + i1)[1];
    }
    assert SwallowsBy(o2, o1, kind, m);
  }

  lemma SwallowedShares(h: Hashes, org1: string, org2: string)
    requires Swallows(CleanOrg(org2), CleanOrg(org1))
    ensures ShareNode(h, org1, org2)
  {
    hide CleanOrg, CleanType, Strip, NodeTypeName, Lower;
    var kind, m :| SwallowsBy(CleanOrg(org2), CleanOrg(org1), kind, m);
    var t := Lower(NodeTypeName(SUPPLIER));
    var i1 := (if m == "" then m else m[1..] + ":") + t + ":1";
    TypeLowered(kind);
    TypeLowered(SUPPLIER);
    assert !IsSpace(i1[0]) && i1[|i1| - 1] == '1';
    StripNone(i1);
    StripNone("1");
    assert ":" + i1 == m + ":" + t + ":" + "1";
    NestedJoins(CleanOrg(org1), Lower(NodeTypeName(kind)), i1, CleanOrg(org2), t, "1", m);
    assert SharedNode(h, org1, kind, i1, org2, SUPPLIER, "1");
  }

  /** Exactly which tenants are kept apart: those whose cleaned names differ and of whose names
      neither swallows the other. */
  lemma TenantsApart(h: Hashes, org1: string, org2: string)
    requires h.InjectiveIds()
    ensures ShareNode(h, org1, org2)
            <==> CleanOrg(org1) == CleanOrg(org2) || Swallows(CleanOrg(org1), CleanOrg(org2)) || Swallows(CleanOrg(org2), CleanOrg(org1))
  {
    hide CleanOrg, CleanType, Swallows, Nested, Strip, Lower, NodeTypeName, SharedNode, ComputeNodeId;
    if kind1, id1, kind2, id2 :| SharedNode(h, org1, kind1, id1, org2, kind2, id2) {
      SharedOnlyIf(h, org1, kind1, id1, org2, kind2, id2);
    }
    if Swallows(CleanOrg(org2), CleanOrg(org1)) {
      SwallowedShares(h, org1, org2);
    } else if Swallows(CleanOrg(org1), CleanOrg(org2)) {
      SwallowedShares(h, org2, org1);
      var kind1, id1, kind2, id2 :| SharedNode(h, org2, kind1, id1, org1, kind2, id2);
      SharedTurned(h, org2, kind1, id1, org1, kind2, id2);
    } else if CleanOrg(org1) == CleanOrg(org2) {
      SharedWithin(h, org1, org2);
    }
  }

  lemma SharedTurned(h: Hashes, org1: string, kind1: NodeType, id1: string, org2: string, kind2: NodeType, id2: string)
    requires SharedNode(h, org1, kind1, id1, org2, kind2, id2)
    ensures SharedNode(h, org2, kind2, id2, org1, kind1, id1)
  {
  }

  lemma SharedWithin(h: Hashes, org1: string, org2: string)
    requires CleanOrg(org1) == CleanOrg(org2)
    ensures SharedNode(h, org1, SUPPLIER, "1", org2, SUPPLIER, "1")
  {
    hide CleanOrg, CleanType, Strip, NodeTypeName;
  }

  lemma SharedOnlyIf(h: Hashes, org1: string, kind1: NodeType, id1: string, org2: string, kind2: NodeType, id2: string)
    requires h.InjectiveIds() && SharedNode(h, org1, kind1, id1, org2, kind2, id2)
    ensures CleanOrg(org1) == CleanOrg(org2) || Swallows(CleanOrg(org1), CleanOrg(org2)) || Swallows(CleanOrg(org2), CleanOrg(org1))
  {
    hide CleanOrg, CleanType, Strip, NodeTypeName, Lower, Nested, Swallows, ComputeNodeId;
    TypeLowered(kind1);
    TypeLowered(kind2);
    StripEnds(id1);
    StripEnds(id2);
    NodeIdsAgree(h, org1, NodeTypeName(kind1), id1, org2, NodeTypeName(kind2), id2);
    var (o1, i1, o2, i2) := (CleanOrg(org1), Strip(id1), CleanOrg(org2), Strip(id2));
    if Nested(o1, CleanType(NodeTypeName(kind1)), i1, o2, CleanType(NodeTypeName(kind2)), i2) {
      NestedSwallows(o1, kind1, i1, o2, CleanType(NodeTypeName(kind2)), i2);
    } else if o1 != o2 {
      NestedSwallows(o2, kind2, i2, o1, CleanType(NodeTypeName(kind1)), i1);
    }
  }

  lemma EdgeTypesApart(a: EdgeType, b: EdgeType)
    ensures ':' !in EdgeTypeName(a)
    ensures EdgeTypeName(a) == EdgeTypeName(b) <==> a == b
  {
    assert |EdgeTypeName(a)| >= 4 && |EdgeTypeName(b)| >= 4;
    assert EdgeTypeName(a) == EdgeTypeName(b) ==> EdgeTypeName(a)[0] == EdgeTypeName(b)[0] && EdgeTypeName(a)[1] == EdgeTypeName(b)[1];
  }

  /** Within one organization, and with ends free of colons as node ids are, edge ids agree
      exactly if the cleaned ends, the type and the relationship do. */
  lemma EdgeIdsAgree(h: Hashes, org: string, from1: string, to1: string, type1: EdgeType, rel1: string,
                     from2: string, to2: string, type2: EdgeType, rel2: string)
    requires h.InjectiveIds() && ':' !in from1 && ':' !in to1 && ':' !in from2 && ':' !in to2
    ensures ComputeEdgeId(h, org, from1, to1, type1, rel1) == ComputeEdgeId(h, org, from2, to2, type2, rel2)
            <==> Strip(from1) == Strip(from2) && Strip(to1) == Strip(to2) && type1 == type2 && Strip(rel1) == Strip(rel2)
  {
    hide CleanOrg, Strip, EdgeTypeName;
    if ComputeEdgeId(h, org, from1, to1, type1, rel1) == ComputeEdgeId(h, org, from2, to2, type2, rel2) {
      EdgeKeysAgree(org, from1, to1, type1, rel1, from2, to2, type2, rel2);
    }
  }

  lemma EdgeKeysAgree(org: string, from1: string, to1: string, type1: EdgeType, rel1: string,
                      from2: string, to2: string, type2: EdgeType, rel2: string)
    requires ':' !in from1 && ':' !in to1 && ':' !in from2 && ':' !in to2
    requires EdgeKey(org, from1, to1, type1, rel1) == EdgeKey(org, from2, to2, type2, rel2)
    ensures Strip(from1) == Strip(from2) && Strip(to1) == Strip(to2) && type1 == type2 && Strip(rel1) == Strip(rel2)
  {
    hide CleanOrg, Strip, EdgeTypeName;
    var head := "riskwise:edge:" + CleanOrg(org) + ":";
    var n1, n2 := EdgeTypeName(type1), EdgeTypeName(type2);
    StripEnds(from1);
    StripEnds(to1);
    StripEnds(from2);
    StripEnds(to2);
    EdgeTypesApart(type1, type2);
    EdgeTypesApart(type2, type1);
    Untag(head, Join(Strip(from1), Strip(to1), n1 + ":" + Strip(rel1)), Join(Strip(from2), Strip(to2), n2 + ":" + Strip(rel2)));
    JoinedTexts(Strip(from1), Strip(to1), n1 + ":" + Strip(rel1), Strip(from2), Strip(to2), n2 + ":" + Strip(rel2));
    FirstPart(':', n1, Strip(rel1), n2, Strip(rel2));
  }

  lemma JoinedTexts(a1: string, b1: string, c1: string, a2: string, b2: string, c2: string)
    requires ':' !in a1 && ':' !in b1 && ':' !in a2 && ':' !in b2
    requires Join(a1, b1, c1) == Join(a2, b2, c2)
    ensures a1 == a2 && b1 == b2 && c1 == c2
  {
    assert Join(a1, b1, c1) == a1 + ":" + (b1 + ":" + c1) && Join(a2, b2, c2) == a2 + ":" + (b2 + ":" + c2);
    FirstPart(':', a1, b1 + ":" + c1, a2, b2 + ":" + c2);
    FirstPart(':', b1, c1, b2, c2);
  }

  // ----- the assumptions about hashes can be met

  function Escape(s: string): (r: string)
    ensures ':' !in r
  {
    if s == "" then ""
    else (if s[0] == ':' then "%c" else if s[0] == '%' then "%p" else [s[0]]) + Escape(s[1..])
  }

  lemma {:induction false} EscapeReads(a: string, b: string)
    requires Escape(a) == Escape(b)
    ensures a == b
    decreases |a|
  {
    if a != "" && b != "" {
      var r := Escape(a);
      assert r[0] == (if a[0] == ':' || a[0] == '%' then '%' else a[0]);
      assert r[0] == (if b[0] == ':' || b[0] == '%' then '%' else b[0]);
      if r[0] == '%' {
        assert r[1] == (if a[0] == ':' then 'c' else 'p') && r[1] == (if b[0] == ':' then 'c' else 'p');
        assert r[2..] == Escape(a[1..]) && r[2..] == Escape(b[1..]);
      } else {
        assert r[1..] == Escape(a[1..]) && r[1..] == Escape(b[1..]);
      }
      EscapeReads(a[1..], b[1..]);
      assert a == [a[0]] + a[1..] && b == [b[0]] + b[1..];
    }
  }

  /** Hashes without collisions whose ids look like UUIDs exist, so the lemmas that assume them
      say something. */
  lemma CollisionFreeHashesExist()
    ensures exists h: Hashes :: h.InjectiveIds() && h.PlainIds() && h.InjectiveSha()
  {
    var h := Hashes((s: string) => "u" + Escape(s), (n: TwinNode) => "", (e: TwinEdge) => "", (s: string) => s);
    forall a, b | h.uuid(a) == h.uuid(b)
      ensures a == b
    {
      Untag("u", Escape(a), Escape(b));
      EscapeReads(a, b);
    }
    assert h.InjectiveIds() && h.PlainIds() && h.InjectiveSha();
  }

  /** The fingerprint leaves out the timestamp and the provenance. */
  function NodeFingerprint(h: Hashes, n: TwinNode): string {
    h.node(n.(sourceTimestamp := None, provenance := None, fingerprint := ""))
  }

  function EdgeFingerprint(h: Hashes, e: TwinEdge): string {
    h.edge(e.(provenance := None, fingerprint := ""))
  }

  /** What the hash of a node is given: two nodes have one fingerprint under every hash exactly if they
      agree in all but the timestamp, the provenance and the fingerprint they carry. */
  lemma NodeFingerprintReads(m: TwinNode, n: TwinNode)
    ensures (forall h: Hashes :: NodeFingerprint(h, m) == NodeFingerprint(h, n)) <==>
            && m.nodeId == n.nodeId && m.organizationId == n.organizationId && m.nodeType == n.nodeType
            && m.sourceEntityType == n.sourceEntityType && m.sourceEntityId == n.sourceEntityId && m.displayLabel == n.displayLabel
            && m.latitude == n.latitude && m.longitude == n.longitude && m.healthScore == n.healthScore && m.status == n.status
            && m.properties == n.properties
  {
    var payload := m.(sourceTimestamp := None, provenance := None, fingerprint := "");
    var h := Hashes((s: string) => s, (x: TwinNode) => if x == payload then "m" else "n", (e: TwinEdge) => "", (s: string) => s);
    assert NodeFingerprint(h, m) == "m";
    if n.(sourceTimestamp := None, provenance := None, fingerprint := "") != payload {
      assert NodeFingerprint(h, n) == "n";
    }
  }

  /** And two edges, if they agree in all but the provenance and the fingerprint they carry. */
  lemma EdgeFingerprintReads(d: TwinEdge, e: TwinEdge)
    ensures (forall h: Hashes :: EdgeFingerprint(h, d) == EdgeFingerprint(h, e)) <==>
            && d.edgeId == e.edgeId && d.organizationId == e.organizationId && d.fromNodeId == e.fromNodeId && d.toNodeId == e.toNodeId
            && d.edgeType == e.edgeType && d.status == e.status && d.flowCapacity == e.flowCapacity && d.currentFlow == e.currentFlow
            && d.riskScore == e.riskScore && d.properties == e.properties && d.sourceReference == e.sourceReference
  {
    var payload := d.(provenance := None, fingerprint := "");
    var h := Hashes((s: string) => s, (n: TwinNode) => "", (x: TwinEdge) => if x == payload then "d" else "e", (s: string) => s);
    assert EdgeFingerprint(h, d) == "d";
    if e.(provenance := None, fingerprint := "") != payload {
      assert EdgeFingerprint(h, e) == "e";
    }
  }

  function SourceFingerprint(h: Hashes, digests: seq<string>): string {
    h.sha(Lines(Sort(digests)))
  }

  method ComputeSourceFingerprint(h: Hashes, digests: seq<string>) returns (fp: string)
    ensures fp == SourceFingerprint(h, digests)
  {
    var sorted := Sort(digests);
    var hashed := HashLines("", sorted);
    assert hashed == Lines(sorted);
    fp := h.sha(hashed);
  }

  /** Feeds the lines to the hasher, whose input so far is `before`. */
  method HashLines(before: string, lines: seq<string>) returns (text: string)
    ensures text == before + Lines(lines)
  {
    text := before;
    for i := 0 to |lines|
      invariant text + Lines(lines[i..]) == before + Lines(lines)
    {
      assert lines[i..][0] == lines[i] && lines[i..][1..] == lines[i + 1..];
      ghost var rest := Lines(lines[i + 1..]);
      assert text + (lines[i] + "\n" + rest) == text + lines[i] + "\n" + rest;
      text := text + lines[i] + "\n";
    }
  }

  /** The source fingerprint does not depend on the order of the digests, and with a
      collision-free hash it determines them. */
  lemma SourceFingerprintExact(h: Hashes, a: seq<string>, b: seq<string>)
    ensures multiset(a) == multiset(b) ==> SourceFingerprint(h, a) == SourceFingerprint(h, b)
    ensures h.InjectiveSha() && AllOneLine(a) && AllOneLine(b) && SourceFingerprint(h, a) == SourceFingerprint(h, b) ==>
              multiset(a) == multiset(b)
  {
    SortIgnoresOrder(a, b);
    hide Sort, Lines;
    if h.InjectiveSha() && AllOneLine(a) && AllOneLine(b) && SourceFingerprint(h, a) == SourceFingerprint(h, b) {
      SortedOneLine(a);
      SortedOneLine(b);
      LinesReadBack(Sort(a), Sort(b));
    }
  }

  ghost predicate AllOneLine(s: seq<string>) {
    forall i :: 0 <= i < |s| ==> OneLine(s[i])
  }

  lemma SortedOneLine(s: seq<string>)
    requires AllOneLine(s)
    ensures AllOneLine(Sort(s))
  {
    var r := Sort(s);
    hide Sort, OneLine;
    forall i | 0 <= i < |r|
      ensures OneLine(r[i])
    {
      assert r[i] in multiset(r);
    }
  }

  function Prefixed(tag: string, s: seq<string>): (r: seq<string>)
    ensures |r| == |s| && forall i :: 0 <= i < |s| ==> r[i] == tag + s[i]
  {
    if s == [] then [] else [tag + s[0]] + Prefixed(tag, s[1..])
  }

  function Header(twinId: string, org: string, version: string, nodeCount: nat, edgeCount: nat): string {
    twinId + ":" + org + ":" + version + ":" + Decimal(nodeCount) + ":" + Decimal(edgeCount) + ":"
  }

  function TwinLines(header: string, nodes: seq<string>, edges: seq<string>): seq<string> {
    [header] + Prefixed("N:", nodes) + Prefixed("E:", edges)
  }

  function TwinFingerprint(h: Hashes, twinId: string, org: string, version: string, nodes: seq<string>, edges: seq<string>): string {
    h.sha(Lines(TwinLines(Header(twinId, org, version, |nodes|, |edges|), Sort(nodes), Sort(edges))))
  }

  lemma {:induction false} LinesConcatenate(a: seq<string>, b: seq<string>)
    ensures Lines(a + b) == Lines(a) + Lines(b)
  {
    if a == [] {
      assert a + b == b;
    } else {
      assert (a + b)[0] == a[0] && (a + b)[1..] == a[1..] + b;
      LinesConcatenate(a[1..], b);
    }
  }

  method ComputeTwinFingerprint(h: Hashes, twinId: string, org: string, version: string, nodes: seq<string>, edges: seq<string>)
    returns (fp: string)
    ensures fp == TwinFingerprint(h, twinId, org, version, nodes, edges)
  {
    var header := Header(twinId, org, version, |nodes|, |edges|);
    var ns, es := Prefixed("N:", Sort(nodes)), Prefixed("E:", Sort(edges));
    var text := HashLines("", [header]);
    text := HashLines(text, ns);
    text := HashLines(text, es);
    LinesConcatenate([header], ns);
    LinesConcatenate([header] + ns, es);
    hide Lines, Header, Prefixed, Sort;
    assert "" + Lines([header]) == Lines([header]);
    assert text == Lines([header] + ns + es);
    fp := h.sha(text);
  }

  lemma TwinLinesReadBack(header1: string, n1: seq<string>, e1: seq<string>, header2: string, n2: seq<string>, e2: seq<string>)
    requires TwinLines(header1, n1, e1) == TwinLines(header2, n2, e2)
    ensures n1 == n2 && e1 == e2
  {
    var a, b := TwinLines(header1, n1, e1), TwinLines(header2, n2, e2);
    NodeLinesCounted(header1, n1, e1, header2, n2, e2);
    NodeLinesCounted(header2, n2, e2, header1, n1, e1);
    forall i | 0 <= i < |n1|
      ensures n1[i] == n2[i]
    {
      assert a[i + 1] == "N:" + n1[i] && b[i + 1] == "N:" + n2[i];
      Untag("N:", n1[i], n2[i]);
    }
    forall i | 0 <= i < |e1|
      ensures e1[i] == e2[i]
    {
      assert a[1 + |n1| + i] == "E:" + e1[i] && b[1 + |n1| + i] == "E:" + e2[i];
      Untag("E:", e1[i], e2[i]);
    }
  }

  lemma NodeLineAt(header: string, n: seq<string>, e: seq<string>, i: nat)
    requires 1 <= i < |TwinLines(header, n, e)|
    ensures TwinLines(header, n, e)[i] != "" && (TwinLines(header, n, e)[i][0] == 'N' <==> i <= |n|)
  {
    var line := TwinLines(header, n, e)[i];
    assert if i <= |n| then line == "N:" + n[i - 1] else line == "E:" + e[i - 1 - |n|];
  }

  lemma NodeLinesCounted(header1: string, n1: seq<string>, e1: seq<string>, header2: string, n2: seq<string>, e2: seq<string>)
    requires TwinLines(header1, n1, e1) == TwinLines(header2, n2, e2)
    ensures |n1| >= |n2|
  {
    if |n1| < |n2| {
      NodeLineAt(header1, n1, e1, |n1| + 1);
      NodeLineAt(header2, n2, e2, |n1| + 1);
    }
  }

  lemma {:induction false} DecimalOneLine(n: nat)
    ensures OneLine(Decimal(n))
  {
    if n >= 10 {
      DecimalOneLine(n / 10);
    }
  }

  lemma HeaderOneLine(twinId: string, org: string, version: string, nodeCount: nat, edgeCount: nat)
    requires OneLine(twinId) && OneLine(org) && OneLine(version)
    ensures OneLine(Header(twinId, org, version, nodeCount, edgeCount))
  {
    DecimalOneLine(nodeCount);
    DecimalOneLine(edgeCount);
    hide Decimal;
  }

  lemma TwinLinesOneLine(header: string, n: seq<string>, e: seq<string>)
    requires OneLine(header) && AllOneLine(n) && AllOneLine(e)
    ensures AllOneLine(TwinLines(header, n, e))
  {
    var r := TwinLines(header, n, e);
    forall i | 0 <= i < |r|
      ensures OneLine(r[i])
    {
      if 0 < i <= |n| {
        assert r[i] == "N:" + n[i - 1];
      } else if i > |n| {
        assert r[i] == "E:" + e[i - 1 - |n|];
      }
    }
  }

  /** The twin fingerprint of one twin depends on no order, and with a collision-free hash it
      determines the fingerprints of the nodes and of the edges. */
  lemma TwinFingerprintExact(
    h: Hashes, twinId: string, org: string, version: string, n1: seq<string>, e1: seq<string>, n2: seq<string>, e2: seq<string>)
    ensures multiset(n1) == multiset(n2) && multiset(e1) == multiset(e2) ==>
              TwinFingerprint(h, twinId, org, version, n1, e1) == TwinFingerprint(h, twinId, org, version, n2, e2)
    ensures h.InjectiveSha() && OneLine(twinId) && OneLine(org) && OneLine(version)
            && AllOneLine(n1) && AllOneLine(e1) && AllOneLine(n2) && AllOneLine(e2)
            && TwinFingerprint(h, twinId, org, version, n1, e1) == TwinFingerprint(h, twinId, org, version, n2, e2) ==>
              multiset(n1) == multiset(n2) && multiset(e1) == multiset(e2)
  {
    SortIgnoresOrder(n1, n2);
    SortIgnoresOrder(e1, e2);
    if multiset(n1) == multiset(n2) && multiset(e1) == multiset(e2) {
      SameSize(n1, n2);
      SameSize(e1, e2);
    }
    hide Sort, Lines, Header, TwinLines, OneLine, AllOneLine;
    if h.InjectiveSha() && OneLine(twinId) && OneLine(org) && OneLine(version)
       && AllOneLine(n1) && AllOneLine(e1) && AllOneLine(n2) && AllOneLine(e2)
       && TwinFingerprint(h, twinId, org, version, n1, e1) == TwinFingerprint(h, twinId, org, version, n2, e2) {
      var header1, header2 := Header(twinId, org, version, |n1|, |e1|), Header(twinId, org, version, |n2|, |e2|);
      HeaderOneLine(twinId, org, version, |n1|, |e1|);
      HeaderOneLine(twinId, org, version, |n2|, |e2|);
      SortedOneLine(n1);
      SortedOneLine(n2);
      SortedOneLine(e1);
      SortedOneLine(e2);
      TwinLinesOneLine(header1, Sort(n1), Sort(e1));
      TwinLinesOneLine(header2, Sort(n2), Sort(e2));
      ReadBack(TwinLines(header1, Sort(n1), Sort(e1)), TwinLines(header2, Sort(n2), Sort(e2)));
      TwinLinesReadBack(header1, Sort(n1), Sort(e1), header2, Sort(n2), Sort(e2));
    }
  }

  lemma ReadBack(a: seq<string>, b: seq<string>)
    requires AllOneLine(a) && AllOneLine(b) && Lines(a) == Lines(b)
    ensures a == b
  {
    LinesReadBack(a, b);
  }

  lemma HeaderTells(t1: string, o1: string, v1: string, n1: nat, e1: nat, t2: string, o2: string, v2: string, n2: nat, e2: nat)
    requires ':' !in t1 && ':' !in o1 && ':' !in v1 && ':' !in t2 && ':' !in o2 && ':' !in v2
    requires Header(t1, o1, v1, n1, e1) == Header(t2, o2, v2, n2, e2)
    ensures t1 == t2 && o1 == o2 && v1 == v2
  {
    var r1, r2 := Decimal(n1) + ":" + Decimal(e1) + ":", Decimal(n2) + ":" + Decimal(e2) + ":";
    hide Decimal;
    assert Header(t1, o1, v1, n1, e1) == t1 + [':'] + (o1 + [':'] + (v1 + [':'] + r1));
    assert Header(t2, o2, v2, n2, e2) == t2 + [':'] + (o2 + [':'] + (v2 + [':'] + r2));
    FirstPart(':', t1, o1 + [':'] + (v1 + [':'] + r1), t2, o2 + [':'] + (v2 + [':'] + r2));
    FirstPart(':', o1, v1 + [':'] + r1, o2, v2 + [':'] + r2);
    FirstPart(':', v1, r1, v2, r2);
  }

  /** With a collision-free hash, two twins whose id, organization and version have no colon share a
      fingerprint exactly if they agree in all three and in the fingerprints of nodes and edges. */
  lemma TwinFingerprintTells(
    h: Hashes, t1: string, o1: string, v1: string, n1: seq<string>, e1: seq<string>,
    t2: string, o2: string, v2: string, n2: seq<string>, e2: seq<string>)
    requires h.InjectiveSha() && AllOneLine([t1, o1, v1, t2, o2, v2]) && AllOneLine(n1) && AllOneLine(e1) && AllOneLine(n2) && AllOneLine(e2)
    requires forall i :: 0 <= i < 6 ==> ':' !in [t1, o1, v1, t2, o2, v2][i]
    ensures TwinFingerprint(h, t1, o1, v1, n1, e1) == TwinFingerprint(h, t2, o2, v2, n2, e2)
            <==> t1 == t2 && o1 == o2 && v1 == v2 && multiset(n1) == multiset(n2) && multiset(e1) == multiset(e2)
  {
    var all := [t1, o1, v1, t2, o2, v2];
    assert all[0] == t1 && all[1] == o1 && all[2] == v1 && all[3] == t2 && all[4] == o2 && all[5] == v2;
    TwinFingerprintExact(h, t1, o1, v1, n1, e1, n2, e2);
    if TwinFingerprint(h, t1, o1, v1, n1, e1) == TwinFingerprint(h, t2, o2, v2, n2, e2) {
      var header1, header2 := Header(t1, o1, v1, |n1|, |e1|), Header(t2, o2, v2, |n2|, |e2|);
      HeaderOneLine(t1, o1, v1, |n1|, |e1|);
      HeaderOneLine(t2, o2, v2, |n2|, |e2|);
      SortedOneLine(n1);
      SortedOneLine(n2);
      SortedOneLine(e1);
      SortedOneLine(e2);
      TwinLinesOneLine(header1, Sort(n1), Sort(e1));
      TwinLinesOneLine(header2, Sort(n2), Sort(e2));
      ReadBack(TwinLines(header1, Sort(n1), Sort(e1)), TwinLines(header2, Sort(n2), Sort(e2)));
      TwinLinesReadBack(header1, Sort(n1), Sort(e1), header2, Sort(n2), Sort(e2));
      HeaderFirst(header1, Sort(n1), Sort(e1));
      HeaderFirst(header2, Sort(n2), Sort(e2));
      HeaderTells(t1, o1, v1, |n1|, |e1|, t2, o2, v2, |n2|, |e2|);
    }
  }

  lemma HeaderFirst(header: string, n: seq<string>, e: seq<string>)
    ensures TwinLines(header, n, e) != [] && TwinLines(header, n, e)[0] == header
  {
  }
}
