/** The bounded in-memory event store: an insertion-ordered dictionary that evicts its
    oldest entry to make room. */
module EventStorage {
  import opened Results

  datatype RawEvent = RawEvent(eventId: string, organizationId: Option<string>, providerEventId: Option<string>, payload: string)

  ghost function Ids(es: seq<RawEvent>): (r: set<string>)
    ensures forall id :: id in r <==> exists i :: 0 <= i < |es| && es[i].eventId == id
  {
    set i | 0 <= i < |es| :: es[i].eventId
  }

  /** Dictionary assignment: an id already present keeps its place. */
  function Assign(d: seq<RawEvent>, e: RawEvent): seq<RawEvent> {
    if d == [] then [e]
    else if d[0].eventId == e.eventId then [e] + d[1..]
    else [d[0]] + Assign(d[1..], e)
  }

  function Evict(d: seq<RawEvent>, cap: nat): seq<RawEvent>
    requires cap >= 1
  {
    if |d| >= cap then d[1..] else d
  }

  function StoreOne(d: seq<RawEvent>, e: RawEvent, cap: nat): seq<RawEvent>
    requires cap >= 1
  {
    Assign(Evict(d, cap), e)
  }

  function StoreAll(d: seq<RawEvent>, es: seq<RawEvent>, cap: nat): seq<RawEvent>
    requires cap >= 1
  {
    if es == [] then d else StoreOne(StoreAll(d, es[..|es| - 1], cap), es[|es| - 1], cap)
  }

  /** The last `cap` events, or all of them if there are fewer. */
  function Last(es: seq<RawEvent>, cap: nat): seq<RawEvent> {
    if |es| <= cap then es else es[|es| - cap..]
  }

  lemma {:induction false} AssignAppends(d: seq<RawEvent>, e: RawEvent)
    ensures e.eventId !in Ids(d) ==> Assign(d, e) == d + [e]
    ensures e.eventId in Ids(d) ==> |Assign(d, e)| == |d|
  {
    if d != [] {
      AssignAppends(d[1..], e);
      hide Ids;
      assert d == [d[0]] + d[1..];
    }
  }

  /** One event is stored as the newest exactly when the eviction leaves no event of its id. */
  lemma StoreOneIsLast(d: seq<RawEvent>, e: RawEvent, cap: nat)
    requires cap >= 1 && |d| <= cap
    ensures StoreOne(d, e, cap) == Last(d + [e], cap) <==> e.eventId !in Ids(Evict(d, cap))
    ensures |StoreOne(d, e, cap)| <= cap
  {
    AssignAppends(Evict(d, cap), e);
  }

  /** No id comes back while the event that last carried it could still be stored. */
  ghost predicate IdsApart(es: seq<RawEvent>, cap: nat) {
    forall i, j :: 0 <= i < j < |es| && j - i < cap ==> es[i].eventId != es[j].eventId
  }

  /** No event of this id among the last `cap - 1`. */
  ghost predicate IdAbsent(es: seq<RawEvent>, id: string, cap: nat) {
    forall i :: 0 <= i < |es| && |es| - i < cap ==> es[i].eventId != id
  }

  lemma IdsApartAppend(front: seq<RawEvent>, e: RawEvent, cap: nat)
    ensures IdsApart(front + [e], cap) <==> IdsApart(front, cap) && IdAbsent(front, e.eventId, cap)
  {
    var es := front + [e];
    if IdsApart(es, cap) {
      forall i, j | 0 <= i < j < |front| && j - i < cap
        ensures front[i].eventId != front[j].eventId
      {
        assert es[i] == front[i] && es[j] == front[j];
      }
      forall i | 0 <= i < |front| && |front| - i < cap
        ensures front[i].eventId != e.eventId
      {
        assert es[i] == front[i] && es[|front|] == e;
      }
    }
  }

  lemma EvictedIds(front: seq<RawEvent>, id: string, cap: nat)
    requires cap >= 1
    ensures id !in Ids(Evict(Last(front, cap), cap)) <==> IdAbsent(front, id, cap)
  {
    var kept := Evict(Last(front, cap), cap);
    var from := if |front| >= cap then |front| - cap + 1 else 0;
    assert kept == front[from..];
    if id in Ids(kept) {
      var i :| 0 <= i < |kept| && kept[i].eventId == id;
      assert front[from + i] == kept[i];
    }
    if !IdAbsent(front, id, cap) {
      var i :| 0 <= i < |front| && |front| - i < cap && front[i].eventId == id;
      assert kept[i - from] == front[i];
    }
  }

  lemma LastAppend(front: seq<RawEvent>, e: RawEvent, cap: nat)
    ensures Last(Last(front, cap) + [e], cap) == Last(front + [e], cap) && |Last(front, cap)| <= cap
  {
  }

  lemma StoreAllAppend(front: seq<RawEvent>, e: RawEvent, cap: nat)
    requires cap >= 1
    ensures StoreAll([], front + [e], cap) == StoreOne(StoreAll([], front, cap), e, cap)
  {
    assert (front + [e])[..|front|] == front;
  }

  lemma StepHoldsLast(front: seq<RawEvent>, e: RawEvent, cap: nat)
    requires cap >= 1 && StoreAll([], front, cap) == Last(front, cap)
    ensures StoreAll([], front + [e], cap) == Last(front + [e], cap) <==> IdAbsent(front, e.eventId, cap)
  {
    hide StoreAll, StoreOne, Ids, IdAbsent, Evict, Last;
    StoreAllAppend(front, e, cap);
    LastAppend(front, e, cap);
    StoreOneIsLast(Last(front, cap), e, cap);
    EvictedIds(front, e.eventId, cap);
  }

  ghost predicate AlwaysLast(es: seq<RawEvent>, cap: nat)
    requires cap >= 1
  {
    forall k :: 0 <= k <= |es| ==> StoreAll([], es[..k], cap) == Last(es[..k], cap)
  }

  lemma AlwaysLastAppend(front: seq<RawEvent>, e: RawEvent, cap: nat)
    requires cap >= 1
    ensures AlwaysLast(front + [e], cap) <==>
            AlwaysLast(front, cap) && StoreAll([], front + [e], cap) == Last(front + [e], cap)
    ensures AlwaysLast(front, cap) ==> StoreAll([], front, cap) == Last(front, cap)
  {
    hide StoreAll, Last;
    var es := front + [e];
    assert es[..|es|] == es && front[..|front|] == front;
    assert forall k :: 0 <= k <= |front| ==> front[..k] == es[..k];
  }

  /** The store holds exactly the last `min(n, cap)` events after every event of a run if
      and only if no id repeats among `cap` consecutive events. */
  lemma {:induction false} HoldsLastExactly(es: seq<RawEvent>, cap: nat)
    requires cap >= 1
    ensures AlwaysLast(es, cap) <==> IdsApart(es, cap)
    decreases |es|
  {
    if es != [] {
      var front, e := es[..|es| - 1], es[|es| - 1];
      assert es == front + [e];
      HoldsLastExactly(front, cap);
      IdsApartAppend(front, e, cap);
      AlwaysLastAppend(front, e, cap);
      hide IdsApart, IdAbsent, StoreAll, Last, AlwaysLast;
      if AlwaysLast(front, cap) {
        StepHoldsLast(front, e, cap);
      }
    }
  }

  lemma {:induction false} NeverOverCapacity(es: seq<RawEvent>, cap: nat)
    requires cap >= 1
    ensures |StoreAll([], es, cap)| <= cap
    decreases |es|
  {
    if es != [] {
      NeverOverCapacity(es[..|es| - 1], cap);
      StoreOneIsLast(StoreAll([], es[..|es| - 1], cap), es[|es| - 1], cap);
    }
  }

  function Lookup(d: seq<RawEvent>, id: string): (r: Option<RawEvent>)
    ensures r.Some? ==> r.value in d && r.value.eventId == id
    ensures r.None? ==> forall e :: e in d ==> e.eventId != id
  {
    if d == [] then None else if d[0].eventId == id then Some(d[0]) else Lookup(d[1..], id)
  }

  lemma {:induction false} LookupFirst(d: seq<RawEvent>, k: nat)
    requires k < |d| && forall i :: 0 <= i < k ==> d[i].eventId != d[k].eventId
    ensures Lookup(d, d[k].eventId) == Some(d[k])
  {
    if k > 0 {
      LookupFirst(d[1..], k - 1);
    }
  }

  /** Where ids stay apart, the events that can be looked up are exactly the last ones stored. */
  lemma RecentFound(es: seq<RawEvent>, cap: nat, e: RawEvent)
    requires cap >= 1 && IdsApart(es, cap)
    ensures Lookup(StoreAll([], es, cap), e.eventId) == Some(e) <==> e in Last(es, cap)
  {
    hide StoreAll, AlwaysLast, IdsApart, Last;
    HoldsLastExactly(es, cap);
    AlwaysLastNow(es, cap);
    var d := Last(es, cap);
    if e in d {
      var k :| 0 <= k < |d| && d[k] == e;
      LastApart(es, cap);
      LookupFirst(d, k);
    }
  }

  lemma LastApart(es: seq<RawEvent>, cap: nat)
    requires IdsApart(es, cap)
    ensures var d := Last(es, cap); forall i, k :: 0 <= i < k < |d| ==> d[i].eventId != d[k].eventId
  {
    var d := Last(es, cap);
    var from := |es| - |d|;
    forall i, k | 0 <= i < k < |d|
      ensures d[i].eventId != d[k].eventId
    {
      assert d[i] == es[from + i] && d[k] == es[from + k];
    }
  }

  lemma AlwaysLastNow(es: seq<RawEvent>, cap: nat)
    requires cap >= 1 && AlwaysLast(es, cap)
    ensures StoreAll([], es, cap) == Last(es, cap)
  {
    hide StoreAll, Last;
    assert es[..|es|] == es;
  }

  datatype StorageError = NothingToEvict

  class InMemoryRawEventStorage {
    const maxCapacity: int
    var events: seq<RawEvent>

    constructor (maxCapacity: int)
      ensures this.maxCapacity == maxCapacity && events == []
    {
      this.maxCapacity := maxCapacity;
      events := [];
    }

    /** Raises exactly when there is no room and nothing to evict: an empty store of a capacity
        below one. It then keeps nothing. */
    method StoreBatch(batch: seq<RawEvent>) returns (r: Result<nat, StorageError>)
      modifies this
      ensures maxCapacity >= 1 ==> r == Ok(|batch|) && events == StoreAll(old(events), batch, maxCapacity)
      ensures r.Err? <==> maxCapacity < 1 && old(events) == [] && batch != []
      ensures r.Err? ==> events == old(events)
    {
      var stored := 0;
      for i := 0 to |batch|
        invariant stored == i
        invariant if i == 0 then events == old(events) else events != [] && (maxCapacity < 1 ==> old(events) != [])
        invariant maxCapacity >= 1 ==> events == StoreAll(old(events), batch[..i], maxCapacity)
      {
        assert batch[..i + 1][..i] == batch[..i];
        if |events| >= maxCapacity {
          if events == [] {
            return Err(NothingToEvict);
          }
          events := events[1..];
        }
        events := Assign(events, batch[i]);
        stored := stored + 1;
      }
      assert batch[..|batch|] == batch;
      r := Ok(stored);
    }

    /** The stored event of this id, if there is one. */
    function GetEvent(id: string): (r: Option<RawEvent>)
      reads this
      ensures r.Some? ==> r.value in events && r.value.eventId == id
      ensures r.None? ==> forall e :: e in events ==> e.eventId != id
    {
      Lookup(events, id)
    }

    /** After storing events whose ids stay apart, exactly the last ones can be had again. */
    lemma RecentKept(es: seq<RawEvent>, e: RawEvent)
      requires maxCapacity >= 1 && events == StoreAll([], es, maxCapacity) && IdsApart(es, maxCapacity)
      ensures GetEvent(e.eventId) == Some(e) <==> e in Last(es, maxCapacity)
    {
      RecentFound(es, maxCapacity, e);
    }
  }
}
