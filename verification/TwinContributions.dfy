/** Which records the builder turns into edges, which it refuses, and what that means for tenants. */
module TwinContributions {
  import opened Results
  import opened Text
  import opened Collections
  import opened TwinModel
  import opened TwinFingerprints
  import opened TwinValidator
  import opened TwinBuilder

  // ----- which records give rise to edges

  /** A kept record of one of these kinds has this id. */
  ghost predicate Known(b: Builder, bs: seq<Batch>, kinds: set<NodeType>, id: string) {
    exists i, e :: KeptAt(b, bs, i, e) && bs[i].kind in kinds && e.id == id
  }

  ghost predicate KnownOpt(b: Builder, bs: seq<Batch>, kinds: set<NodeType>, id: Option<string>) {
    id.Some? && id.value != "" && Known(b, bs, kinds, id.value)
  }

  ghost predicate KnownIn(b: Builder, batch: Batch, id: string) {
    exists e :: e in batch.entities && Kept(b, batch.kind, e) && e.id == id
  }

  lemma KnownStep(b: Builder, bs: seq<Batch>, kinds: set<NodeType>, id: string)
    requires bs != []
    ensures var front, last := bs[..|bs| - 1], bs[|bs| - 1];
            Known(b, bs, kinds, id) <==> Known(b, front, kinds, id) || (last.kind in kinds && KnownIn(b, last, id))
  {
    hide Kept;
    var n := |bs| - 1;
    var front, last := bs[..n], bs[n];
    if i, e :| KeptAt(b, front, i, e) && front[i].kind in kinds && e.id == id {
      assert KeptAt(b, bs, i, e);
    }
    if last.kind in kinds && KnownIn(b, last, id) {
      var e :| e in last.entities && Kept(b, last.kind, e) && e.id == id;
      assert KeptAt(b, bs, n, e);
    }
    if i, e :| KeptAt(b, bs, i, e) && bs[i].kind in kinds && e.id == id {
      if i < n {
        assert KeptAt(b, front, i, e);
      }
    }
  }

  lemma IdEntriesKnown(b: Builder, batch: Batch, id: string)
    ensures (exists y :: y in FlatMap(batch.entities, IdEntry(b, batch.kind)) && y.key == id) <==> KnownIn(b, batch, id)
  {
    hide FlatMap, Kept, NodeIdOf;
    var f := IdEntry(b, batch.kind);
    FlatMapMembers(batch.entities, f);
    if KnownIn(b, batch, id) {
      var e :| e in batch.entities && Kept(b, batch.kind, e) && e.id == id;
      assert Entry(e.id, NodeIdOf(b, batch.kind, e)) in f(e);
    }
  }

  /** The ids the edge loops look up are exactly those of kept records. */
  lemma {:induction false} IdsExactly(b: Builder, bs: seq<Batch>, kinds: set<NodeType>, id: string)
    ensures id in IdsFrom(b, bs, kinds) <==> Known(b, bs, kinds, id)
    decreases |bs|
  {
    hide FlatMap, InsertAll, Known, KnownIn, IdEntry;
    if bs == [] {
      assert !Known(b, bs, kinds, id) by {
        NoneKnown(b, kinds, id);
      }
    } else {
      var front, last := bs[..|bs| - 1], bs[|bs| - 1];
      IdsExactly(b, front, kinds, id);
      KnownStep(b, bs, kinds, id);
      IdEntriesKnown(b, last, id);
      InsertAllHas(IdsFrom(b, front, kinds), FlatMap(last.entities, IdEntry(b, last.kind)));
    }
  }

  lemma NoneKnown(b: Builder, kinds: set<NodeType>, id: string)
    ensures !Known(b, [], kinds, id)
  {
  }

  lemma FindKnown(b: Builder, incidents: IncidentMap, bs: seq<Batch>, kinds: set<NodeType>, id: string)
    requires b.h.PlainIds()
    ensures Find(IdsFrom(b, bs, kinds), id).Some? <==> Known(b, bs, kinds, id)
  {
    hide IdsFrom, NodesFrom, Known;
    IdsExactly(b, bs, kinds, id);
    IdsKnown(b, incidents, bs, kinds);
    NodeIdsPlain(b, incidents, bs);
  }

  /** The relationship becomes an edge. */
  predicate Drawn(t: Tie) {
    t.from.Some? && t.to.Some?
  }

  ghost predicate Yields(us: seq<Ties>) {
    exists u, t :: u in us && t in u.ties && Drawn(t)
  }

  /** Both the site's supplier and a facility of its id are known. */
  ghost predicate SiteLinked(b: Builder, bs: seq<Batch>, s: Site) {
    Known(b, bs, {SUPPLIER}, s.supplierId) && Known(b, bs, FACILITIES, s.entity.id)
  }

  /** A kept record has the node id of this shipment. */
  ghost predicate Placed(b: Builder, bs: seq<Batch>, s: Shipment) {
    exists i, e :: KeptAt(b, bs, i, e) && NodeIdOf(b, bs[i].kind, e) == NodeIdOf(b, SHIPMENT, s.entity)
  }

  predicate StockKept(b: Builder, s: Stock) {
    s.org.None? || s.org.value == "" || s.org.value == b.org
  }

  ghost predicate StockLinked(b: Builder, bs: seq<Batch>, s: Stock) {
    StockKept(b, s) && KnownOpt(b, bs, FACILITIES, s.facilityId) && KnownOpt(b, bs, {PRODUCT}, s.productId)
  }

  lemma SiteDrawn(b: Builder, incidents: IncidentMap, bs: seq<Batch>, s: Site, u: Ties)
    requires b.h.PlainIds() && u in SiteTies(IndexFrom(b, incidents, bs))(s)
    ensures u.id == s.entity.id && |u.ties| == 1 && (Drawn(u.ties[0]) <==> SiteLinked(b, bs, s))
  {
    hide IdsFrom, NodesFrom, Known, Find;
    FindKnown(b, incidents, bs, {SUPPLIER}, s.supplierId);
    FindKnown(b, incidents, bs, FACILITIES, s.entity.id);
  }

  lemma FindOptKnown(b: Builder, incidents: IncidentMap, bs: seq<Batch>, kinds: set<NodeType>, id: Option<string>)
    requires b.h.PlainIds()
    ensures FindOpt(IdsFrom(b, bs, kinds), id).Some? <==> KnownOpt(b, bs, kinds, id)
  {
    hide IdsFrom, Known, Find;
    if id.Some? {
      FindKnown(b, incidents, bs, kinds, id.value);
    }
  }

  lemma RouteDrawn(b: Builder, incidents: IncidentMap, bs: seq<Batch>, r: Route, u: Ties)
    requires b.h.PlainIds() && u in RouteTies(IndexFrom(b, incidents, bs))(r)
    ensures u.id == r.entity.id && |u.ties| == 3
    ensures Drawn(u.ties[0]) <==> KnownOpt(b, bs, FACILITIES, r.originId) && KnownOpt(b, bs, FACILITIES, r.destinationId)
    ensures Drawn(u.ties[1]) <==> KnownOpt(b, bs, FACILITIES, r.originId) && Known(b, bs, {ROUTE}, r.entity.id)
    ensures Drawn(u.ties[2]) <==> Known(b, bs, {ROUTE}, r.entity.id) && KnownOpt(b, bs, FACILITIES, r.destinationId)
  {
    hide IdsFrom, NodesFrom, Known, KnownOpt, Find, FindOpt, Plainly;
    FindKnown(b, incidents, bs, {ROUTE}, r.entity.id);
    FindOptKnown(b, incidents, bs, FACILITIES, r.originId);
    FindOptKnown(b, incidents, bs, FACILITIES, r.destinationId);
  }

  lemma PlacedExactly(b: Builder, incidents: IncidentMap, bs: seq<Batch>, s: Shipment)
    ensures NodeIdOf(b, SHIPMENT, s.entity) in NodesFrom(b, incidents, bs) <==> Placed(b, bs, s)
  {
    hide NodesFrom, KeptAt, NodeIdOf, NodeOf;
    NodesExactly(b, incidents, bs);
  }

  lemma FoundInNodes(b: Builder, incidents: IncidentMap, bs: seq<Batch>, kinds: set<NodeType>, id: Option<string>)
    ensures InNodes(IndexFrom(b, incidents, bs), FindOpt(IdsFrom(b, bs, kinds), id)) == FindOpt(IdsFrom(b, bs, kinds), id)
  {
    hide NodesFrom, IdsFrom;
    IdsKnown(b, incidents, bs, kinds);
  }

  lemma ShipmentDrawn(b: Builder, incidents: IncidentMap, bs: seq<Batch>, s: Shipment, u: Ties)
    requires b.h.PlainIds() && u in ShipmentTies(b, IndexFrom(b, incidents, bs))(s)
    ensures u.id == s.entity.id && |u.ties| == 3
    ensures Drawn(u.ties[0]) <==> Placed(b, bs, s) && KnownOpt(b, bs, {CARRIER}, s.carrierId)
    ensures Drawn(u.ties[1]) <==> Placed(b, bs, s) && KnownOpt(b, bs, {ROUTE}, s.routeId)
    ensures Drawn(u.ties[2]) <==> Placed(b, bs, s) && KnownOpt(b, bs, {PRODUCT}, s.productId)
  {
    hide IdsFrom, NodesFrom, KnownOpt, FindOpt, Placed, NodeIdOf, Plainly;
    PlacedExactly(b, incidents, bs, s);
    FoundInNodes(b, incidents, bs, {CARRIER}, s.carrierId);
    FoundInNodes(b, incidents, bs, {ROUTE}, s.routeId);
    FoundInNodes(b, incidents, bs, {PRODUCT}, s.productId);
    FindOptKnown(b, incidents, bs, {CARRIER}, s.carrierId);
    FindOptKnown(b, incidents, bs, {ROUTE}, s.routeId);
    FindOptKnown(b, incidents, bs, {PRODUCT}, s.productId);
  }

  lemma StockDrawn(b: Builder, incidents: IncidentMap, bs: seq<Batch>, s: Stock, u: Ties)
    requires b.h.PlainIds() && u in StockTies(b, IndexFrom(b, incidents, bs))(s)
    ensures u.id == s.id && |u.ties| == 1 && (Drawn(u.ties[0]) <==> StockLinked(b, bs, s))
  {
    hide IdsFrom, NodesFrom, KnownOpt, FindOpt;
    FindOptKnown(b, incidents, bs, FACILITIES, s.facilityId);
    FindOptKnown(b, incidents, bs, {PRODUCT}, s.productId);
  }

  lemma YieldsOne(u: Ties)
    requires |u.ties| == 1
    ensures Yields([u]) <==> Drawn(u.ties[0])
  {
    hide Drawn;
    assert u in [u] && u.ties[0] in u.ties;
  }

  lemma YieldsThree(u: Ties)
    requires |u.ties| == 3
    ensures Yields([u]) <==> Drawn(u.ties[0]) || Drawn(u.ties[1]) || Drawn(u.ties[2])
  {
    hide Drawn;
    assert u in [u] && u.ties[0] in u.ties && u.ties[1] in u.ties && u.ties[2] in u.ties;
    if Yields([u]) {
      var t :| t in u.ties && Drawn(t);
      var i :| 0 <= i < 3 && u.ties[i] == t;
    }
  }

  /** Exactly which records give rise to edges, kept or not. Only the stock loop looks at the
      record's own organization again: a site needs no more than its supplier and any facility of
      its id, a route any two of its origin, its destination and a kept route of its id, and a
      shipment a kept record with its node id. */
  lemma WhoYields(b: Builder, incidents: IncidentMap, bs: seq<Batch>, s: Site, r: Route, sh: Shipment, st: Stock)
    requires b.h.PlainIds()
    ensures var ix := IndexFrom(b, incidents, bs);
            var (from, to, own) := (KnownOpt(b, bs, FACILITIES, r.originId), KnownOpt(b, bs, FACILITIES, r.destinationId),
                                    Known(b, bs, {ROUTE}, r.entity.id));
            && (Yields(SiteTies(ix)(s)) <==> SiteLinked(b, bs, s))
            && (Yields(RouteTies(ix)(r)) <==> (from && to) || (from && own) || (own && to))
            && (Yields(ShipmentTies(b, ix)(sh))
                <==> Placed(b, bs, sh)
                     && (KnownOpt(b, bs, {CARRIER}, sh.carrierId) || KnownOpt(b, bs, {ROUTE}, sh.routeId)
                         || KnownOpt(b, bs, {PRODUCT}, sh.productId)))
            && (Yields(StockTies(b, ix)(st)) <==> StockLinked(b, bs, st))
  {
    var ix := IndexFrom(b, incidents, bs);
    OneGroup(b, ix, s, r, sh, st);
    hide SiteTies, RouteTies, ShipmentTies, StockTies, IndexFrom, SiteLinked, KnownOpt, Known, Placed, Drawn, Yields;
    var u, v, w := SiteTies(ix)(s)[0], RouteTies(ix)(r)[0], ShipmentTies(b, ix)(sh)[0];
    SiteDrawn(b, incidents, bs, s, u);
    RouteDrawn(b, incidents, bs, r, v);
    ShipmentDrawn(b, incidents, bs, sh, w);
    YieldsOne(u);
    YieldsThree(v);
    YieldsThree(w);
    if StockKept(b, st) {
      var q := StockTies(b, ix)(st)[0];
      StockDrawn(b, incidents, bs, st, q);
      YieldsOne(q);
    } else {
      YieldsNone();
    }
  }

  lemma YieldsNone()
    ensures !Yields([])
  {
  }

  lemma OneGroup(b: Builder, ix: Index, s: Site, r: Route, sh: Shipment, st: Stock)
    ensures |SiteTies(ix)(s)| == 1 && SiteTies(ix)(s) == [SiteTies(ix)(s)[0]]
    ensures |RouteTies(ix)(r)| == 1 && RouteTies(ix)(r) == [RouteTies(ix)(r)[0]]
    ensures |ShipmentTies(b, ix)(sh)| == 1 && ShipmentTies(b, ix)(sh) == [ShipmentTies(b, ix)(sh)[0]]
    ensures if StockKept(b, st) then |StockTies(b, ix)(st)| == 1 && StockTies(b, ix)(st) == [StockTies(b, ix)(st)[0]]
            else StockTies(b, ix)(st) == []
  {
    hide Find, FindOpt, InNodes, NodeIdOf, Plainly;
  }

  // ----- which edges there are

  /** This is the edge of a drawn relationship, under its id. */
  ghost predicate EdgeFor(b: Builder, uss: seq<seq<Ties>>, k: string, e: TwinEdge) {
    exists i, u, t :: TieAt(uss, i, u, t) && k == EdgeOf(b, u.id, t).edgeId && e == EdgeOf(b, u.id, t)
  }

  ghost predicate TieAt(uss: seq<seq<Ties>>, i: int, u: Ties, t: Tie) {
    0 <= i < |uss| && u in uss[i] && t in u.ties && Drawn(t)
  }

  ghost predicate TieIn(us: seq<Ties>, u: Ties, t: Tie) {
    u in us && t in u.ties && Drawn(t)
  }

  lemma LoopEntries(b: Builder, us: seq<Ties>, y: Entry<TwinEdge>)
    ensures y in FlatMap(us, TiesEntry(b)) <==> exists u, t :: TieIn(us, u, t) && y == Entry(EdgeOf(b, u.id, t).edgeId, EdgeOf(b, u.id, t))
  {
    hide FlatMap, EdgeOf;
    FlatMapMembers(us, TiesEntry(b));
    forall u: Ties
      ensures y in TiesEntry(b)(u) <==> exists t :: t in u.ties && y in TieEntry(b, u.id)(t)
    {
      FlatMapMembers(u.ties, TieEntry(b, u.id));
    }
    forall u: Ties, t: Tie
      ensures y in TieEntry(b, u.id)(t) <==> Drawn(t) && y == Entry(EdgeOf(b, u.id, t).edgeId, EdgeOf(b, u.id, t))
    {
      TieForm(b, u.id, t);
    }
    if u :| u in us && y in TiesEntry(b)(u) {
      var t :| t in u.ties && y in TieEntry(b, u.id)(t);
      assert TieIn(us, u, t);
    }
  }

  lemma EdgeForMore(b: Builder, uss: seq<seq<Ties>>, k: string, e: TwinEdge)
    requires uss != [] && EdgeFor(b, uss[..|uss| - 1], k, e)
    ensures EdgeFor(b, uss, k, e)
  {
    hide EdgeOf;
    var front := uss[..|uss| - 1];
    var i, u, t :| TieAt(front, i, u, t) && k == EdgeOf(b, u.id, t).edgeId && e == EdgeOf(b, u.id, t);
    assert TieAt(uss, i, u, t);
  }

  lemma EdgeForLast(b: Builder, uss: seq<seq<Ties>>, y: Entry<TwinEdge>)
    requires uss != [] && y in FlatMap(uss[|uss| - 1], TiesEntry(b))
    ensures EdgeFor(b, uss, y.key, y.value)
  {
    hide EdgeOf, FlatMap;
    var n := |uss| - 1;
    LoopEntries(b, uss[n], y);
    var u, t :| TieIn(uss[n], u, t) && y == Entry(EdgeOf(b, u.id, t).edgeId, EdgeOf(b, u.id, t));
    assert TieAt(uss, n, u, t);
  }

  /** The edges are those of the drawn relationships, and no others. */
  lemma {:induction false} EdgesExactly(b: Builder, uss: seq<seq<Ties>>)
    ensures forall k :: k in EdgesFrom(b, uss) ==> EdgeFor(b, uss, k, EdgesFrom(b, uss)[k])
    ensures forall i, u, t :: TieAt(uss, i, u, t) ==> EdgeOf(b, u.id, t).edgeId in EdgesFrom(b, uss)
    decreases |uss|
  {
    hide FlatMap, InsertAll, EdgeFor, EdgeOf;
    if uss != [] {
      var n := |uss| - 1;
      var front, last := uss[..n], uss[n];
      EdgesExactly(b, front);
      var edges, es := EdgesFrom(b, front), FlatMap(last, TiesEntry(b));
      InsertAllHas(edges, es);
      forall k | k in EdgesFrom(b, uss)
        ensures EdgeFor(b, uss, k, EdgesFrom(b, uss)[k])
      {
        if y :| y in es && y.key == k && y.value == EdgesFrom(b, uss)[k] {
          EdgeForLast(b, uss, y);
        } else {
          EdgeForMore(b, uss, k, edges[k]);
        }
      }
      forall i, u, t | TieAt(uss, i, u, t)
        ensures EdgeOf(b, u.id, t).edgeId in EdgesFrom(b, uss)
      {
        if i < n {
          assert TieAt(front, i, u, t);
        } else {
          assert TieIn(last, u, t);
          LoopEntries(b, last, Entry(EdgeOf(b, u.id, t).edgeId, EdgeOf(b, u.id, t)));
        }
      }
    }
  }

  // ----- what is refused

  predicate DetailsInRange(d: Details) {
    !Outside(d.risk, 0.0, 100.0) && !Negative(d.capacity) && !Negative(d.flow) && |d.status| <= 64 && |d.reference| <= 255
  }

  lemma DetailsDecide(b: Builder, id: string, t: Tie)
    requires Drawn(t) && Sized(b.org, 1, 64)
    ensures EdgeInRange(EdgeOf(b, id, t)) <==> DetailsInRange(t.details)
  {
    hide ComputeEdgeId, EdgeTypeOf, TagOf, EdgeFingerprint, Outside, Negative;
  }

  ghost predicate TiesInRange(us: seq<Ties>) {
    forall u, t :: TieIn(us, u, t) ==> DetailsInRange(t.details)
  }

  lemma LoopDecided(b: Builder, us: seq<Ties>)
    requires Sized(b.org, 1, 64)
    ensures LoopInRange(b, us) <==> TiesInRange(us)
  {
    hide FlatMap, EdgeOf, EdgeInRange, DetailsInRange, Drawn;
    forall u, t | TieIn(us, u, t)
      ensures LoopInRange(b, us) ==> DetailsInRange(t.details)
    {
      LoopHas(b, us, u, t);
      DetailsDecide(b, u.id, t);
    }
    if TiesInRange(us) {
      forall y | y in FlatMap(us, TiesEntry(b))
        ensures EdgeInRange(y.value)
      {
        var u, t := LoopFrom(b, us, y);
        DetailsDecide(b, u.id, t);
      }
    }
  }

  lemma LoopHas(b: Builder, us: seq<Ties>, u: Ties, t: Tie)
    requires TieIn(us, u, t)
    ensures Drawn(t) && Entry(EdgeOf(b, u.id, t).edgeId, EdgeOf(b, u.id, t)) in FlatMap(us, TiesEntry(b))
  {
    hide FlatMap, EdgeOf;
    LoopEntries(b, us, Entry(EdgeOf(b, u.id, t).edgeId, EdgeOf(b, u.id, t)));
  }

  lemma LoopFrom(b: Builder, us: seq<Ties>, y: Entry<TwinEdge>) returns (u: Ties, t: Tie)
    requires y in FlatMap(us, TiesEntry(b))
    ensures TieIn(us, u, t) && y == Entry(EdgeOf(b, u.id, t).edgeId, EdgeOf(b, u.id, t))
  {
    hide FlatMap, EdgeOf;
    LoopEntries(b, us, y);
    u, t :| TieIn(us, u, t) && y == Entry(EdgeOf(b, u.id, t).edgeId, EdgeOf(b, u.id, t));
  }

  lemma RecordsDecide<R(!new)>(rs: seq<R>, f: R -> seq<Ties>)
    ensures TiesInRange(FlatMap(rs, f)) <==> forall r :: r in rs ==> TiesInRange(f(r))
  {
    hide FlatMap, DetailsInRange, Drawn;
    FlatMapMembers(rs, f);
    if TiesInRange(FlatMap(rs, f)) {
      forall r, u, t | r in rs && TieIn(f(r), u, t)
        ensures DetailsInRange(t.details)
      {
        assert TieIn(FlatMap(rs, f), u, t);
      }
    } else {
      var u, t :| TieIn(FlatMap(rs, f), u, t) && !DetailsInRange(t.details);
      var r :| r in rs && u in f(r);
      assert TieIn(f(r), u, t);
    }
  }

  ghost predicate AllPlausible(b: Builder, bs: seq<Batch>) {
    forall i, e :: KeptAt(b, bs, i, e) ==> Plausible(bs[i].kind, e)
  }

  lemma OneInRange(u: Ties)
    requires |u.ties| == 1
    ensures TiesInRange([u]) <==> (Drawn(u.ties[0]) ==> DetailsInRange(u.ties[0].details))
  {
    hide Drawn, DetailsInRange;
    assert Drawn(u.ties[0]) ==> TieIn([u], u, u.ties[0]);
  }

  lemma ThreeInRange(u: Ties)
    requires |u.ties| == 3
    ensures TiesInRange([u])
            <==> && (Drawn(u.ties[0]) ==> DetailsInRange(u.ties[0].details))
                 && (Drawn(u.ties[1]) ==> DetailsInRange(u.ties[1].details))
                 && (Drawn(u.ties[2]) ==> DetailsInRange(u.ties[2].details))
  {
    hide Drawn, DetailsInRange;
    assert forall j :: 0 <= j < 3 && Drawn(u.ties[j]) ==> TieIn([u], u, u.ties[j]);
  }

  ghost predicate SiteFits(b: Builder, bs: seq<Batch>, s: Site) {
    SiteLinked(b, bs, s) ==> !Negative(s.capacity)
  }

  ghost predicate RouteFits(b: Builder, bs: seq<Batch>, r: Route) {
    KnownOpt(b, bs, FACILITIES, r.originId) && KnownOpt(b, bs, FACILITIES, r.destinationId) ==>
      Within(r.entity.score, 0.0, 100.0) && Sized("routes:" + r.entity.id, 0, 255)
  }

  ghost predicate ShipmentFits(b: Builder, bs: seq<Batch>, s: Shipment) {
    && (Placed(b, bs, s) && KnownOpt(b, bs, {CARRIER}, s.carrierId) ==> Sized("shipments:" + s.entity.id + ":carrier", 0, 255))
    && (Placed(b, bs, s) && KnownOpt(b, bs, {ROUTE}, s.routeId) ==> Sized("shipments:" + s.entity.id + ":route", 0, 255))
    && (Placed(b, bs, s) && KnownOpt(b, bs, {PRODUCT}, s.productId) ==> Sized("shipments:" + s.entity.id + ":product", 0, 255))
  }

  ghost predicate StockFits(b: Builder, bs: seq<Batch>, s: Stock) {
    StockLinked(b, bs, s) ==> !Negative(s.onHand) && Sized("inventory:" + s.id, 0, 255)
  }

  lemma SiteDecided(b: Builder, incidents: IncidentMap, bs: seq<Batch>, s: Site)
    requires b.h.PlainIds() && AllPlausible(b, bs)
    ensures TiesInRange(SiteTies(IndexFrom(b, incidents, bs))(s)) <==> SiteFits(b, bs, s)
  {
    var ix := IndexFrom(b, incidents, bs);
    var u := SiteTies(ix)(s)[0];
    hide SiteTies, IndexFrom, Known, AllPlausible, TiesInRange;
    SiteDrawn(b, incidents, bs, s, u);
    OneInRange(u);
  }

  lemma RouteDecided(b: Builder, incidents: IncidentMap, bs: seq<Batch>, r: Route)
    requires b.h.PlainIds() && AllPlausible(b, bs)
    ensures TiesInRange(RouteTies(IndexFrom(b, incidents, bs))(r)) <==> RouteFits(b, bs, r)
  {
    var ix := IndexFrom(b, incidents, bs);
    var u := RouteTies(ix)(r)[0];
    hide RouteTies, IndexFrom, Known, KnownOpt, AllPlausible, TiesInRange, Within, Drawn, DetailsInRange;
    RouteDrawn(b, incidents, bs, r, u);
    ThreeInRange(u);
  }

  lemma ShipmentDecided(b: Builder, incidents: IncidentMap, bs: seq<Batch>, s: Shipment)
    requires b.h.PlainIds()
    ensures TiesInRange(ShipmentTies(b, IndexFrom(b, incidents, bs))(s)) <==> ShipmentFits(b, bs, s)
  {
    var ix := IndexFrom(b, incidents, bs);
    var u := ShipmentTies(b, ix)(s)[0];
    OneShipment(b, ix, s);
    hide ShipmentTies, IndexFrom, KnownOpt, Placed, TiesInRange, Drawn, DetailsInRange, Sized;
    ShipmentDrawn(b, incidents, bs, s, u);
    ThreeInRange(u);
  }

  lemma OneShipment(b: Builder, ix: Index, s: Shipment)
    ensures |ShipmentTies(b, ix)(s)| == 1
    ensures var u := ShipmentTies(b, ix)(s)[0];
            && ShipmentTies(b, ix)(s) == [u] && |u.ties| == 3
            && (DetailsInRange(u.ties[0].details) <==> Sized("shipments:" + s.entity.id + ":carrier", 0, 255))
            && (DetailsInRange(u.ties[1].details) <==> Sized("shipments:" + s.entity.id + ":route", 0, 255))
            && (DetailsInRange(u.ties[2].details) <==> Sized("shipments:" + s.entity.id + ":product", 0, 255))
  {
    hide FindOpt, InNodes, NodeIdOf;
  }

  lemma StockDecided(b: Builder, incidents: IncidentMap, bs: seq<Batch>, s: Stock)
    requires b.h.PlainIds()
    ensures TiesInRange(StockTies(b, IndexFrom(b, incidents, bs))(s)) <==> StockFits(b, bs, s)
  {
    var ix := IndexFrom(b, incidents, bs);
    OneStock(b, ix, s);
    hide StockTies, IndexFrom, KnownOpt, TiesInRange, Drawn, DetailsInRange, Sized, Negative;
    if StockKept(b, s) {
      var u := StockTies(b, ix)(s)[0];
      StockDrawn(b, incidents, bs, s, u);
      OneInRange(u);
    } else {
      NoneInRange();
    }
  }

  lemma NoneInRange()
    ensures TiesInRange([])
  {
  }

  lemma OneStock(b: Builder, ix: Index, s: Stock)
    ensures !StockKept(b, s) ==> StockTies(b, ix)(s) == []
    ensures StockKept(b, s) ==>
              && |StockTies(b, ix)(s)| == 1
              && var u := StockTies(b, ix)(s)[0];
              && StockTies(b, ix)(s) == [u] && |u.ties| == 1
              && (DetailsInRange(u.ties[0].details) <==> !Negative(s.onHand) && Sized("inventory:" + s.id, 0, 255))
  {
    hide FindOpt;
  }

  /** What a build needs: texts of the allowed lengths for the snapshot, plausible records among
      the kept, and values in range on whatever record gives rise to an edge, kept or not. */
  ghost predicate Acceptable(b: Builder, x: Inputs) {
    var bs := Batches(x);
    && 1 <= |b.org| <= 64 && 1 <= |b.twinId| <= 64 && 1 <= |b.version| <= 32 && AllPlausible(b, bs)
    && (forall s :: s in x.sites ==> SiteFits(b, bs, s))
    && (forall r :: r in x.routes ==> RouteFits(b, bs, r))
    && (forall s :: s in x.shipments ==> ShipmentFits(b, bs, s))
    && (forall s :: s in x.stocks ==> StockFits(b, bs, s))
  }

  lemma EdgesDecided(b: Builder, incidents: IncidentMap, x: Inputs)
    requires b.h.PlainIds() && Packaged(b) && AllPlausible(b, Batches(x))
    ensures EdgesInRange(b, Relationships(b, IndexFrom(b, incidents, Batches(x)), x)) <==> Acceptable(b, x)
  {
    var bs := Batches(x);
    var ix := IndexFrom(b, incidents, bs);
    hide LoopInRange, TiesInRange, Batches, IndexFrom, FlatMap, AllPlausible, SiteFits, RouteFits, ShipmentFits, StockFits,
         SiteTies, RouteTies, ShipmentTies, StockTies;
    var uss := Relationships(b, ix, x);
    LoopDecided(b, uss[0]);
    LoopDecided(b, uss[1]);
    LoopDecided(b, uss[2]);
    LoopDecided(b, uss[3]);
    RecordsDecide(x.sites, SiteTies(ix));
    RecordsDecide(x.routes, RouteTies(ix));
    RecordsDecide(x.shipments, ShipmentTies(b, ix));
    RecordsDecide(x.stocks, StockTies(b, ix));
    forall s { SiteDecided(b, incidents, bs, s); }
    forall r { RouteDecided(b, incidents, bs, r); }
    forall s { ShipmentDecided(b, incidents, bs, s); }
    forall s { StockDecided(b, incidents, bs, s); }
  }

  lemma NodesDecided(b: Builder, incidents: IncidentMap, bs: seq<Batch>)
    requires Sized(b.org, 1, 64)
    ensures NodesInRange(b, incidents, bs) <==> AllPlausible(b, bs)
  {
    hide Kept, Plausible, BatchInRange, NodesInRange;
    NodesRefusedExactly(b, incidents, bs);
    if NodesInRange(b, incidents, bs) {
      assert forall i, e :: KeptAt(b, bs, i, e) ==> Plausible(bs[i].kind, e);
    }
    if AllPlausible(b, bs) {
      forall i, e | 0 <= i < |bs| && e in bs[i].entities && Kept(b, bs[i].kind, e)
        ensures Plausible(bs[i].kind, e)
      {
        assert KeptAt(b, bs, i, e);
      }
    }
  }

  /** A snapshot is built exactly from acceptable inputs, and is then valid. */
  lemma BuiltExactly(b: Builder, x: Inputs)
    requires b.h.PlainIds()
    ensures Built(b, x).Ok? <==> Acceptable(b, x)
    ensures Built(b, x).Ok? ==> ValidSnapshot(b.h, Built(b, x).value)
  {
    var incidents := IncidentsByAsset(x.incidents);
    hide Batches, NodesInRange, EdgesInRange, NodesFrom, EdgesFrom, IdsFrom, DigestsFrom, Relationships, IncidentsByAsset, AllPlausible,
         ValidSnapshot, SiteFits, RouteFits, ShipmentFits, StockFits, SourceFingerprint, GraphFingerprint;
    if Built(b, x).Ok? {
      BuiltValid(b, x);
    }
    if Packaged(b) {
      NodesDecided(b, incidents, Batches(x));
      if AllPlausible(b, Batches(x)) {
        EdgesDecided(b, incidents, x);
      }
    }
  }

  /** In particular it is built whenever every record, kept or not, is as the contracts want it. */
  lemma InRangeInputsBuild(b: Builder, x: Inputs)
    requires b.h.PlainIds() && Packaged(b)
    requires forall i, e :: 0 <= i < 9 && e in Batches(x)[i].entities ==> Plausible(Batches(x)[i].kind, e)
    requires forall s :: s in x.sites ==> !Negative(s.capacity)
    requires forall s :: s in x.stocks ==> !Negative(s.onHand) && Sized(s.id, 1, 64)
    ensures Built(b, x).Ok? && ValidSnapshot(b.h, Built(b, x).value)
  {
    hide Built, Batches, Plausible, Kept, Negative, Known, KnownOpt, Placed, ValidSnapshot;
    var bs := Batches(x);
    BatchesOf(x);
    forall r | r in x.routes
      ensures RouteFits(b, bs, r)
    {
      PlausibleRoute(r.entity);
    }
    forall s | s in x.shipments
      ensures ShipmentFits(b, bs, s)
    {
      PlausibleSized(SHIPMENT, s.entity);
    }
    BuiltExactly(b, x);
  }

  lemma BatchesOf(x: Inputs)
    ensures |Batches(x)| == 9 && Batches(x)[7].kind == ROUTE && Batches(x)[8].kind == SHIPMENT
    ensures forall r :: r in x.routes ==> r.entity in Batches(x)[7].entities
    ensures forall s :: s in x.shipments ==> s.entity in Batches(x)[8].entities
    ensures forall e :: e in Batches(x)[8].entities ==> exists s :: s in x.shipments && s.entity == e
    ensures forall i :: 0 <= i < 9 && Batches(x)[i].kind == SHIPMENT ==> i == 8
  {
    FlatMapMembers(x.routes, RouteEntity());
    FlatMapMembers(x.shipments, ShipmentEntity());
    hide FlatMap;
    forall r | r in x.routes
      ensures r.entity in FlatMap(x.routes, RouteEntity())
    {
      assert r.entity in RouteEntity()(r);
    }
    forall s | s in x.shipments
      ensures s.entity in FlatMap(x.shipments, ShipmentEntity())
    {
      assert s.entity in ShipmentEntity()(s);
    }
  }

  lemma PlausibleRoute(e: Entity)
    requires Plausible(ROUTE, e)
    ensures Within(e.score, 0.0, 100.0) && Sized(e.id, 1, 64)
  {
  }

  lemma PlausibleSized(kind: NodeType, e: Entity)
    requires Plausible(kind, e)
    ensures Sized(e.id, 1, 64)
  {
  }

  // ----- other tenants' records

  /** With collision-free ids, the shipments placed are those that share their stripped id with
      a shipment that is kept. */
  lemma PlacedByShipment(b: Builder, x: Inputs, s: Shipment)
    requires b.h.InjectiveIds()
    ensures Placed(b, Batches(x), s)
            <==> exists q :: q in x.shipments && Kept(b, SHIPMENT, q.entity) && Strip(q.entity.id) == Strip(s.entity.id)
  {
    hide Batches, Kept, Strip, NodeTypeName, CleanType, ComputeNodeId;
    var bs := Batches(x);
    BatchesOf(x);
    forall i, e | KeptAt(b, bs, i, e)
      ensures NodeIdOf(b, bs[i].kind, e) == NodeIdOf(b, SHIPMENT, s.entity) <==> bs[i].kind == SHIPMENT && Strip(e.id) == Strip(s.entity.id)
    {
      SameNode(b, bs[i].kind, e, SHIPMENT, s.entity);
    }
    if q :| q in x.shipments && Kept(b, SHIPMENT, q.entity) && Strip(q.entity.id) == Strip(s.entity.id) {
      assert KeptAt(b, bs, 8, q.entity);
    }
  }

  lemma SameNode(b: Builder, kind1: NodeType, e1: Entity, kind2: NodeType, e2: Entity)
    requires b.h.InjectiveIds()
    ensures NodeIdOf(b, kind1, e1) == NodeIdOf(b, kind2, e2) <==> kind1 == kind2 && Strip(e1.id) == Strip(e2.id)
  {
    hide Strip, NodeTypeName, CleanType, ComputeNodeId;
    TypeLowered(kind1);
    TypeLowered(kind2);
    NodeIdsApart(b.h, b.org, NodeTypeName(kind1), e1.id, b.org, NodeTypeName(kind2), e2.id);
    TypesApart(kind1, kind2);
  }

  lemma TypesApart(a: NodeType, b: NodeType)
    ensures CleanType(NodeTypeName(a)) == CleanType(NodeTypeName(b)) <==> a == b
  {
    var s, t := NodeTypeName(a), NodeTypeName(b);
    TypeLowered(a);
    TypeLowered(b);
    hide CleanType;
    if Lower(s) == Lower(t) {
      assert |s| == |t| >= 4;
      assert Lower(s)[0] == Lower(t)[0] && Lower(s)[1] == Lower(t)[1];
      assert LowerChar(s[0]) == LowerChar(t[0]) && LowerChar(s[1]) == LowerChar(t[1]);
    }
  }

  /** A record without attributes. */
  function Bare(id: string, org: string): Entity {
    Entity(id, Some(org), id, None, None, None, None, map[], None)
  }

  /** Two warehouses of ours, and another tenant's route between them. */
  function ForeignRoute(): Inputs {
    Inputs([], [], [], [Bare("w1", "acme"), Bare("w2", "acme")], [], [], [],
           [Route(Bare("r1", "other"), Some("w1"), Some("w2"), map[])], [], [], [])
  }

  ghost predicate HasRoute(nodes: map<string, TwinNode>) {
    exists k :: k in nodes && nodes[k].nodeType == ROUTE
  }

  /** The edge of that route between its ends. */
  predicate IsCorridor(e: TwinEdge) {
    e.edgeType == TRANSPORT && e.sourceReference == Some("routes:r1")
  }

  ghost predicate HasCorridor(edges: map<string, TwinEdge>) {
    exists k :: k in edges && IsCorridor(edges[k])
  }

  lemma ForeignRecords(b: Builder)
    requires b.org == "acme"
    ensures var bs := Batches(ForeignRoute());
            && |bs| == 9 && bs[3].kind == WAREHOUSE && bs[7].kind == ROUTE
            && KeptAt(b, bs, 3, Bare("w1", "acme")) && KeptAt(b, bs, 3, Bare("w2", "acme"))
            && forall i, e :: KeptAt(b, bs, i, e) ==> i == 3 && (e == Bare("w1", "acme") || e == Bare("w2", "acme"))
  {
    var x := ForeignRoute();
    assert FlatMap(x.sites, SiteEntity()) == [] && FlatMap(x.shipments, ShipmentEntity()) == [];
    assert FlatMap(x.routes, RouteEntity()) == [Bare("r1", "other")];
    var bs := Batches(x);
    assert bs[3].entities == [Bare("w1", "acme"), Bare("w2", "acme")];
    assert bs[3].entities[0] == Bare("w1", "acme") && bs[3].entities[1] == Bare("w2", "acme");
  }

  lemma ForeignKnown(b: Builder)
    requires b.org == "acme"
    ensures var (bs, r) := (Batches(ForeignRoute()), ForeignRoute().routes[0]);
            && KnownOpt(b, bs, FACILITIES, r.originId) && KnownOpt(b, bs, FACILITIES, r.destinationId)
            && !Known(b, bs, {ROUTE}, "r1") && AllPlausible(b, bs) && !Kept(b, ROUTE, r.entity)
  {
    ForeignRecords(b);
    hide Batches, KeptAt;
  }

  lemma ForeignAcceptable(b: Builder)
    requires b.org == "acme" && Packaged(b)
    ensures Acceptable(b, ForeignRoute())
  {
    ForeignKnown(b);
    hide Batches, AllPlausible, KnownOpt, Known;
    assert Sized("routes:r1", 0, 255);
  }

  lemma ForeignTies(b: Builder, incidents: IncidentMap)
    requires b.org == "acme" && b.h.PlainIds()
    ensures var x := ForeignRoute();
            var uss := Relationships(b, IndexFrom(b, incidents, Batches(x)), x);
            && (exists u, t :: TieAt(uss, 1, u, t))
            && forall i, u, t :: TieAt(uss, i, u, t) ==> t.relation == ROUTE_CORRIDOR && t.details.reference == "routes:r1"
  {
    var x := ForeignRoute();
    var ix := IndexFrom(b, incidents, Batches(x));
    var uss := Relationships(b, ix, x);
    var r := x.routes[0];
    var u := RouteTies(ix)(r)[0];
    ForeignLoops(b, ix);
    ForeignKnown(b);
    hide Batches, IndexFrom, Relationships, AllPlausible, KnownOpt, Known, ForeignRoute, RouteTies, Drawn;
    RouteDrawn(b, incidents, Batches(x), r, u);
    assert TieAt(uss, 1, u, u.ties[0]);
  }

  lemma ForeignLoops(b: Builder, ix: Index)
    ensures var x := ForeignRoute();
            var uss := Relationships(b, ix, x);
            && |RouteTies(ix)(x.routes[0])| == 1 && uss[0] == [] && uss[2] == [] && uss[3] == []
            && var u := RouteTies(ix)(x.routes[0])[0];
            && uss[1] == [u] && |u.ties| == 3 && u.ties[0].relation == ROUTE_CORRIDOR && u.ties[0].details.reference == "routes:r1"
            && x.routes[0].entity.id == "r1"
  {
    hide Find, FindOpt, Plainly;
    var x := ForeignRoute();
    assert x.routes[..0] == [];
    assert FlatMap(x.routes, RouteTies(ix)) == RouteTies(ix)(x.routes[0]);
    assert "routes:" + "r1" == "routes:r1";
  }

  /** So a route of another tenant makes an edge of our snapshot, without a node of its own. */
  lemma ForeignCorridor(h: Hashes)
    requires h.PlainIds()
    ensures var nb, x := NewBuilder(h, "acme", None, "1"), ForeignRoute();
            && nb.Ok? && !Kept(nb.value, ROUTE, x.routes[0].entity) && Built(nb.value, x).Ok?
            && !HasRoute(Built(nb.value, x).value.nodes) && HasCorridor(Built(nb.value, x).value.edges)
  {
    AcmeBuilder(h);
    hide NewBuilder, Built, ForeignRoute, HasRoute, HasCorridor;
    var b := NewBuilder(h, "acme", None, "1").value;
    var x := ForeignRoute();
    ForeignAcceptable(b);
    ForeignKnown(b);
    BuiltExactly(b, x);
    ForeignGraph(b);
  }

  lemma AcmeBuilder(h: Hashes)
    ensures var nb := NewBuilder(h, "acme", None, "1");
            nb.Ok? && nb.value.h == h && nb.value.org == "acme" && Packaged(nb.value)
  {
    StripNone("acme");
    StripNone("twin-acme");
    hide Strip;
    assert "twin-" + "acme" == "twin-acme";
  }

  lemma ForeignGraph(b: Builder)
    requires b.org == "acme" && b.h.PlainIds() && Built(b, ForeignRoute()).Ok?
    ensures !HasRoute(Built(b, ForeignRoute()).value.nodes) && HasCorridor(Built(b, ForeignRoute()).value.edges)
  {
    var x := ForeignRoute();
    var incidents := IncidentsByAsset(x.incidents);
    hide ForeignRoute, Batches, NodesFrom, EdgesFrom, IdsFrom, Relationships, IncidentsByAsset, NodesInRange, EdgesInRange,
         SourceFingerprint, GraphFingerprint, DigestsFrom, HasRoute, HasCorridor;
    ForeignNodes(b, incidents);
    ForeignEdges(b, incidents);
  }

  lemma ForeignNodes(b: Builder, incidents: IncidentMap)
    requires b.org == "acme"
    ensures !HasRoute(NodesFrom(b, incidents, Batches(ForeignRoute())))
  {
    ForeignRecords(b);
    hide ForeignRoute, Batches, NodesFrom, KeptAt, NodeFingerprint;
    NodesExactly(b, incidents, Batches(ForeignRoute()));
  }

  lemma ForeignEdges(b: Builder, incidents: IncidentMap)
    requires b.org == "acme" && b.h.PlainIds()
    ensures var x := ForeignRoute();
            HasCorridor(EdgesFrom(b, Relationships(b, IndexFrom(b, incidents, Batches(x)), x)))
  {
    hide ForeignRoute, Batches, IndexFrom, EdgesFrom, Relationships, TieAt, HasCorridor;
    var x := ForeignRoute();
    ForeignTies(b, incidents);
    OnlyCorridors(b, Relationships(b, IndexFrom(b, incidents, Batches(x)), x));
  }

  lemma OnlyCorridors(b: Builder, uss: seq<seq<Ties>>)
    requires exists u, t :: TieAt(uss, 1, u, t)
    requires forall i, u, t :: TieAt(uss, i, u, t) ==> t.relation == ROUTE_CORRIDOR && t.details.reference == "routes:r1"
    ensures HasCorridor(EdgesFrom(b, uss))
  {
    hide EdgesFrom, TieAt, EdgeFor, EdgeOf, IsCorridor;
    EdgesExactly(b, uss);
    var u, t :| TieAt(uss, 1, u, t);
    TieAtDrawn(uss, 1, u, t);
    var k := EdgeOf(b, u.id, t).edgeId;
    CorridorEdge(b, uss, k, EdgesFrom(b, uss)[k]);
  }

  lemma TieAtDrawn(uss: seq<seq<Ties>>, i: int, u: Ties, t: Tie)
    requires TieAt(uss, i, u, t)
    ensures Drawn(t)
  {
  }

  lemma CorridorEdge(b: Builder, uss: seq<seq<Ties>>, k: string, e: TwinEdge)
    requires EdgeFor(b, uss, k, e)
    requires forall i, u, t :: TieAt(uss, i, u, t) ==> t.relation == ROUTE_CORRIDOR && t.details.reference == "routes:r1"
    ensures IsCorridor(e)
  {
    hide ComputeEdgeId, EdgeFingerprint, TagOf;
  }
}
