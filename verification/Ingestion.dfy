/** One ingestion cycle: breaker, limiter, bounded retry, deduplication and storage. */
module Ingestion {
  import opened Results
  import opened EventStorage
  import opened Idempotency
  import CircuitBreaker
  import ProviderLimiter
  import Retry

  datatype Status = SUCCESS | PARTIAL | FAILED | SKIPPED_DUPLICATE

  datatype Cause = CircuitOpen | Unregistered | Disabled | Throttled | FetchFailed(failure: Retry.Failure)

  datatype ProviderConfig = ProviderConfig(
    enabled: bool, rateLimit: ProviderLimiter.RateLimitConfig, retry: Retry.RetryConfig)

  datatype IngestionResult = IngestionResult(
    status: Status, fetched: nat, ingested: nat, deduplicated: nat, retryCount: nat,
    events: seq<RawEvent>, duplicates: seq<string>)

  /** Fills in the organization, if one is given and the event has none, and sanitizes the payload. */
  function Prepare(e: RawEvent, org: Option<string>, sanitize: string -> string): RawEvent {
    e.(payload := sanitize(e.payload),
       organizationId := if org.Some? && org.value != "" && e.organizationId in {None, Some("")} then org else e.organizationId)
  }

  /** An event keeps all but its payload, which is sanitized, and its organization, which is filled in
      if it has none. */
  lemma PreparedExactly(e: RawEvent, org: Option<string>, sanitize: string -> string)
    ensures var p := Prepare(e, org, sanitize);
            && p == e.(payload := sanitize(e.payload), organizationId := p.organizationId)
            && (e.organizationId.Some? && e.organizationId.value != "" ==> p.organizationId == e.organizationId)
            && (e.organizationId.None? || e.organizationId.value == "" ==>
                  p.organizationId == if org.Some? && org.value != "" then org else e.organizationId)
  {
  }

  datatype Sorting = Sorting(seen: Ledger, accepted: seq<RawEvent>, duplicates: seq<string>)

  /** The first `n` events sorted into accepted and duplicate, event i being checked at `at(i)`. */
  function Sort(seen: Ledger, es: seq<RawEvent>, fp: RawEvent -> string, ttl: real, at: nat -> real, n: nat): (r: Sorting)
    requires n <= |es|
    ensures |r.accepted| + |r.duplicates| == n
  {
    if n == 0 then Sorting(seen, [], [])
    else
      var r := Sort(seen, es, fp, ttl, at, n - 1);
      var e := es[n - 1];
      if Active(r.seen, fp(e), at(n - 1)) then r.(duplicates := r.duplicates + [fp(e)])
      else Sorting(Check(r.seen, fp(e), ttl, Some(e.eventId), at(n - 1)), r.accepted + [e], r.duplicates)
  }

  lemma SortStep(seen: Ledger, es: seq<RawEvent>, fp: RawEvent -> string, ttl: real, at: nat -> real, n: nat)
    requires n <= |es|
    ensures n == 0 ==> Sort(seen, es, fp, ttl, at, n) == Sorting(seen, [], [])
    ensures n < |es| ==>
              var r := Sort(seen, es, fp, ttl, at, n);
              Sort(seen, es, fp, ttl, at, n + 1)
              == if Active(r.seen, fp(es[n]), at(n)) then r.(duplicates := r.duplicates + [fp(es[n])])
                 else Sorting(Check(r.seen, fp(es[n]), ttl, Some(es[n].eventId), at(n)), r.accepted + [es[n]], r.duplicates)
  {
    hide Active, Check;
  }

  /** Nothing is accepted exactly when every fingerprint is already active when its event is checked. */
  lemma {:induction false} AllDuplicates(seen: Ledger, es: seq<RawEvent>, fp: RawEvent -> string, ttl: real, at: nat -> real, n: nat)
    requires n <= |es|
    ensures Sort(seen, es, fp, ttl, at, n).accepted == [] <==> forall i: nat :: i < n ==> Active(seen, fp(es[i]), at(i))
    ensures Sort(seen, es, fp, ttl, at, n).accepted == [] ==> Sort(seen, es, fp, ttl, at, n).seen == seen
  {
    if n > 0 {
      AllDuplicates(seen, es, fp, ttl, at, n - 1);
    }
  }

  ghost predicate Rising(at: nat -> real) {
    forall i: nat, j: nat :: i <= j ==> at(i) <= at(j)
  }

  /** Sorting events none of whose fingerprints was active leaves every one of them
      remembered for a full time-to-live from the start. */
  lemma {:induction false} SortingRemembers(seen: Ledger, es: seq<RawEvent>, fp: RawEvent -> string, ttl: real, at: nat -> real, n: nat)
    requires n <= |es| && Rising(at)
    requires forall i: nat :: i < |es| ==> !Active(seen, fp(es[i]), at(0))
    ensures var r := Sort(seen, es, fp, ttl, at, n);
            && (forall i: nat :: i < n ==> fp(es[i]) in r.seen && r.seen[fp(es[i])].expiresAt >= at(0) + ttl)
            && (forall k :: k in r.seen ==> (k in seen && r.seen[k] == seen[k]) || r.seen[k].expiresAt >= at(0) + ttl)
            && (forall k :: k in seen ==> k in r.seen)
  {
    if n > 0 {
      SortingRemembers(seen, es, fp, ttl, at, n - 1);
      assert at(0) <= at(n - 1);
      assert !Active(seen, fp(es[n - 1]), at(0));
    }
  }

  /** After a batch of unremembered events has been sorted, a batch with no other fingerprints, all
      checked before a time-to-live has passed since the first sorting began, brings nothing new. */
  lemma ReingestWithinTtl(
    seen: Ledger, es: seq<RawEvent>, fp: RawEvent -> string, ttl: real, first: nat -> real,
    again: seq<RawEvent>, fpAgain: RawEvent -> string, second: nat -> real)
    requires Rising(first)
    requires forall i: nat :: i < |es| ==> !Active(seen, fp(es[i]), first(0))
    requires forall j: nat :: j < |again| ==> second(j) < first(0) + ttl && exists i: nat :: i < |es| && fp(es[i]) == fpAgain(again[j])
    ensures var seen1 := Sort(seen, es, fp, ttl, first, |es|).seen;
            var r := Sort(seen1, again, fpAgain, ttl, second, |again|); r.accepted == [] && r.seen == seen1
  {
    SortingRemembers(seen, es, fp, ttl, first, |es|);
    AllDuplicates(Sort(seen, es, fp, ttl, first, |es|).seen, again, fpAgain, ttl, second, |again|);
  }

  /** The premise that nothing was remembered matters: a duplicate does not renew its
      entry, so the batch can be accepted again well within a time-to-live of being skipped. */
  lemma SkippedThenAccepted(e: RawEvent, fp: RawEvent -> string)
    ensures var seen: Ledger := map[fp(e) := Entry(10.0, None)];
            var first := Sort(seen, [e], fp, 100.0, _ => 5.0, 1);
            first.accepted == [] && Sort(first.seen, [e], fp, 100.0, _ => 50.0, 1).accepted == [e]
  {
    var seen: Ledger := map[fp(e) := Entry(10.0, None)];
    assert Sort(seen, [e], fp, 100.0, _ => 5.0, 0) == Sorting(seen, [], []);
    assert Sort(seen, [e], fp, 100.0, _ => 5.0, 1) == Sorting(seen, [], [fp(e)]);
    assert Sort(seen, [e], fp, 100.0, _ => 50.0, 0) == Sorting(seen, [], []);
  }

  /** The i-th event is accepted. */
  predicate AcceptedAt(seen: Ledger, es: seq<RawEvent>, fp: RawEvent -> string, ttl: real, at: nat -> real, i: nat)
    requires i < |es|
  {
    !Active(Sort(seen, es, fp, ttl, at, i).seen, fp(es[i]), at(i))
  }

  lemma {:induction false} AcceptedListed(
    seen: Ledger, es: seq<RawEvent>, fp: RawEvent -> string, ttl: real, at: nat -> real, i: nat, n: nat)
    requires i < n <= |es| && AcceptedAt(seen, es, fp, ttl, at, i)
    ensures es[i] in Sort(seen, es, fp, ttl, at, n).accepted
    decreases n
  {
    hide Active;
    if i < n - 1 {
      AcceptedListed(seen, es, fp, ttl, at, i, n - 1);
    }
  }

  /** Sorting forgets nothing: what is remembered until an instant still is. */
  lemma {:induction false} SortKeeps(
    seen: Ledger, es: seq<RawEvent>, fp: RawEvent -> string, ttl: real, at: nat -> real, n: nat, k: string, until: real)
    requires n <= |es| && k in seen && seen[k].expiresAt >= until
    requires forall i: nat :: i < n ==> at(i) + ttl >= until || at(i) < until
    ensures var r := Sort(seen, es, fp, ttl, at, n); k in r.seen && r.seen[k].expiresAt >= until
  {
    if n > 0 {
      SortKeeps(seen, es, fp, ttl, at, n - 1, k, until);
    }
  }

  lemma {:induction false} SortGoesOn(
    seen: Ledger, es: seq<RawEvent>, fp: RawEvent -> string, ttl: real, at: nat -> real, m: nat, n: nat, k: string, until: real)
    requires m <= n <= |es| && forall i: nat :: m <= i < n ==> at(i) + ttl >= until
    requires var r := Sort(seen, es, fp, ttl, at, m); k in r.seen && r.seen[k].expiresAt >= until
    ensures var r := Sort(seen, es, fp, ttl, at, n); k in r.seen && r.seen[k].expiresAt >= until
    decreases n
  {
    if m < n {
      SortGoesOn(seen, es, fp, ttl, at, m, n - 1, k, until);
    }
  }

  /** An accepted event stays remembered for a time-to-live, whether or not the storage keeps
      it: until then every later sorting counts an event of its fingerprint as a duplicate. So
      what a raising storage loses cannot be ingested again before the entry expires. */
  lemma AcceptedRemembered(
    seen: Ledger, es: seq<RawEvent>, fp: RawEvent -> string, ttl: real, first: nat -> real, i: nat,
    later: seq<RawEvent>, second: nat -> real, j: nat)
    requires Rising(first) && Rising(second) && i < |es| && j < |later| && fp(later[j]) == fp(es[i])
    requires AcceptedAt(seen, es, fp, ttl, first, i) && second(j) < first(i) + ttl
    ensures es[i] in Sort(seen, es, fp, ttl, first, |es|).accepted
    ensures !AcceptedAt(Sort(seen, es, fp, ttl, first, |es|).seen, later, fp, ttl, second, j)
  {
    AcceptedListed(seen, es, fp, ttl, first, i, |es|);
    var until := first(i) + ttl;
    var k := fp(es[i]);
    assert Sort(seen, es, fp, ttl, first, i + 1).seen[k].expiresAt == until;
    forall m: nat | i + 1 <= m < |es|
      ensures first(m) + ttl >= until
    {
      assert first(i) <= first(m);
    }
    hide Sort;
    SortGoesOn(seen, es, fp, ttl, first, i + 1, |es|, k, until);
    forall m: nat | m < j
      ensures second(m) < until
    {
      assert second(m) <= second(j);
    }
    SortKeeps(Sort(seen, es, fp, ttl, first, |es|).seen, later, fp, ttl, second, j, k, until);
  }

  function Outcome(fetched: nat, accepted: nat, duplicates: nat): (s: Status)
    ensures s != FAILED
  {
    if fetched > 0 && accepted == 0 && duplicates > 0 then SKIPPED_DUPLICATE
    else if accepted > 0 && duplicates > 0 then PARTIAL
    else SUCCESS
  }

  function Reported(s: Sorting, retryCount: nat): (r: IngestionResult)
    ensures r.fetched == r.ingested + r.deduplicated && r.ingested == |r.events| && r.deduplicated == |r.duplicates|
  {
    var fetched := |s.accepted| + |s.duplicates|;
    IngestionResult(Outcome(fetched, |s.accepted|, |s.duplicates|), fetched, |s.accepted|, |s.duplicates|, retryCount, s.accepted, s.duplicates)
  }

  const FAILURE := IngestionResult(FAILED, 0, 0, 0, 0, [], [])

  /** What a cycle finds outside the service: the registry's entry, the provider's answer
      to each fetch, the clock, and the sanitizing and fingerprinting of events. */
  datatype Outside = Outside(
    registered: bool,
    config: Option<ProviderConfig>,
    fetch: nat -> Result<seq<RawEvent>, Retry.Failure>,
    draw: nat -> real,
    tick: nat -> real,
    sanitize: string -> string,
    fingerprint: (RawEvent, Option<string>) -> string)
  {
    function Prepared(batch: seq<RawEvent>, org: Option<string>): (r: seq<RawEvent>)
      ensures |r| == |batch|
    {
      seq(|batch|, i requires 0 <= i < |batch| => Prepare(batch[i], org, sanitize))
    }

    function Quota(): (q: Option<ProviderLimiter.RateLimitConfig>)
      ensures config.Some? ==> q == Some(config.value.rateLimit)
      ensures config.None? ==> q == None
    {
      if config.Some? then Some(config.value.rateLimit) else None
    }

    /** The instants at which the fetched events are checked, after everything else. */
    function Checked(retry: Retry.RetryConfig): nat -> real {
      (i: nat) => tick(retry.maxRetries + 5 + i)
    }

    function Fp(org: Option<string>): RawEvent -> string {
      e => fingerprint(e, org)
    }
  }

  /** The cooldown a refused fetch sets. */
  function Hold(retryAfter: Option<real>): (duration: real)
    ensures duration > 0.0
    ensures retryAfter.Some? && retryAfter.value > 0.0 ==> duration == retryAfter.value
    ensures retryAfter.None? || retryAfter.value <= 0.0 ==> duration == 60.0
  {
    if retryAfter.Some? && retryAfter.value > 0.0 then retryAfter.value else 60.0
  }

  /** A provider's grants and cooldown after these many fetches, each refusal for its rate having
      set the cooldown anew. */
  function Cooled(l: ProviderLimiter.Ledger, out: Outside, fetches: nat): ProviderLimiter.Ledger {
    if fetches == 0 then l else Noted(Cooled(l, out, fetches - 1), out.fetch(fetches - 1), out.tick(fetches + 2))
  }

  function Noted<T>(l: ProviderLimiter.Ledger, answer: Result<T, Retry.Failure>, now: real): ProviderLimiter.Ledger {
    if answer.Err? && answer.error.RateLimited? then l.(cooldownUntil := now + Hold(answer.error.retryAfter)) else l
  }

  /** One unit of each quota there is, taken now. */
  function OneGrant(l: ProviderLimiter.Ledger, quota: Option<ProviderLimiter.RateLimitConfig>, now: real): ProviderLimiter.Ledger {
    if quota.None? then l
    else l.(minute := ProviderLimiter.Granted(l.minute, quota.value.perMinute, now),
            hour := ProviderLimiter.Granted(l.hour, quota.value.perHour, now))
  }

  /** What the limiter keeps of a provider after a cycle: nothing changes unless it fetches, and
      then exactly one unit is taken, however often it fetches, and every refusal sets a cooldown. */
  function AfterCycle(l: ProviderLimiter.Ledger, out: Outside, fetches: nat): ProviderLimiter.Ledger {
    if fetches == 0 then l else Cooled(OneGrant(l, out.Quota(), out.tick(2)), out, fetches)
  }

  /** The i-th fetch was refused for its rate. */
  predicate RateRefused(out: Outside, i: nat) {
    out.fetch(i).Err? && out.fetch(i).error.RateLimited?
  }

  /** No fetch from the n-th on was refused for its rate. */
  ghost predicate NotRefusedFrom(out: Outside, n: nat, fetches: nat) {
    forall i: nat :: n <= i < fetches ==> !RateRefused(out, i)
  }

  lemma {:induction false} CooledFrom(l: ProviderLimiter.Ledger, out: Outside, n: nat, fetches: nat)
    requires n <= fetches && NotRefusedFrom(out, n, fetches)
    ensures Cooled(l, out, fetches) == Cooled(l, out, n)
    decreases fetches
  {
    hide Hold;
    if n < fetches {
      assert !RateRefused(out, fetches - 1);
      CooledFrom(l, out, n, fetches - 1);
    }
  }

  lemma {:induction false} CooledOnly(l: ProviderLimiter.Ledger, out: Outside, fetches: nat)
    ensures var after := Cooled(l, out, fetches); after == l.(cooldownUntil := after.cooldownUntil)
  {
    hide Hold;
    if fetches > 0 {
      CooledOnly(l, out, fetches - 1);
    }
  }

  /** A cycle that fetches takes one unit of each quota, when it begins to fetch; one that does not
      leaves the limiter alone. Without a refusal the cooldown stays. */
  lemma AfterCycleExactly(l: ProviderLimiter.Ledger, out: Outside, fetches: nat)
    ensures fetches == 0 ==> AfterCycle(l, out, fetches) == l
    ensures fetches > 0 ==>
              var after := AfterCycle(l, out, fetches);
              && after.minute == l.minute + (if out.config.Some? && out.config.value.rateLimit.perMinute.Some? then [out.tick(2)] else [])
              && after.hour == l.hour + (if out.config.Some? && out.config.value.rateLimit.perHour.Some? then [out.tick(2)] else [])
              && (NotRefusedFrom(out, 0, fetches) ==> after.cooldownUntil == l.cooldownUntil)
  {
    hide Hold, NotRefusedFrom;
    var granted := OneGrant(l, out.Quota(), out.tick(2));
    CooledOnly(granted, out, fetches);
    if NotRefusedFrom(out, 0, fetches) {
      CooledFrom(granted, out, 0, fetches);
    }
  }

  /** The last refusal decides the cooldown: its own hint from its own instant, or a minute. */
  lemma LastRefusalHolds(l: ProviderLimiter.Ledger, out: Outside, i: nat, fetches: nat)
    requires i < fetches && RateRefused(out, i) && NotRefusedFrom(out, i + 1, fetches)
    ensures var hint := out.fetch(i).error.retryAfter;
            AfterCycle(l, out, fetches).cooldownUntil
            == out.tick(i + 3) + if hint.Some? && hint.value > 0.0 then hint.value else 60.0
  {
    var granted := OneGrant(l, out.Quota(), out.tick(2));
    CooledFrom(granted, out, i + 1, fetches);
  }

  class IngestionService {
    const breaker: CircuitBreaker.ProviderCircuitBreaker
    const limiter: ProviderLimiter.ProviderRateLimiter
    const retryPolicy: Retry.RetryPolicy
    const engine: IdempotencyEngine
    const storage: InMemoryRawEventStorage

    ghost predicate Valid()
      reads this, breaker, breaker.trackers.Values, limiter
    {
      breaker.Valid() && limiter.Valid()
    }

    constructor (
      breaker: CircuitBreaker.ProviderCircuitBreaker, limiter: ProviderLimiter.ProviderRateLimiter,
      retryPolicy: Retry.RetryPolicy, engine: IdempotencyEngine, storage: InMemoryRawEventStorage)
      requires breaker.Valid() && limiter.Valid()
      ensures Valid() && this.breaker == breaker && this.limiter == limiter && this.retryPolicy == retryPolicy
      ensures this.engine == engine && this.storage == storage
    {
      this.breaker := breaker;
      this.limiter := limiter;
      this.retryPolicy := retryPolicy;
      this.engine := engine;
      this.storage := storage;
    }

    /** The grants and cooldowns of all other providers are as they were. */
    twostate predicate OthersKept(p: string)
      reads limiter
    {
      forall x :: x != p ==> limiter.LedgerOf(x) == old(limiter.LedgerOf(x))
    }

    function RetriesFor(out: Outside): Retry.RetryConfig {
      if out.config.Some? then out.config.value.retry else retryPolicy.config
    }

    /** The clock reading at which the outcome is reported, after every fetch. */
    function ReportTime(out: Outside): nat {
      RetriesFor(out).maxRetries + 4
    }

    /** Steps one to three: permission, registration and configuration, quota. */
    method Admit(p: string, out: Outside) returns (refused: Option<Cause>)
      requires Valid() && Rising(out.tick) && limiter.clock <= out.tick(0)
      modifies breaker, breaker.trackers.Values, limiter
      ensures Valid() && limiter.clock <= out.tick(2)
      ensures fresh(breaker.trackers.Values - old(breaker.trackers.Values)) && p in breaker.trackers
      ensures var polled := CircuitBreaker.Poll(old(breaker.View(p, out.tick(0))), breaker.defaultConfig, out.tick(0));
              && (refused == Some(CircuitOpen) <==> polled.state == CircuitBreaker.OPEN)
              && breaker.trackers[p].Value()
                 == if polled.state == CircuitBreaker.OPEN
                    then CircuitBreaker.StatusPoll(polled, breaker.defaultConfig, out.tick(1)) else polled
      ensures refused != Some(CircuitOpen) ==>
                && (refused == Some(Unregistered) <==> !out.registered)
                && (refused == Some(Disabled) <==> out.registered && out.config.Some? && !out.config.value.enabled)
                && (refused == Some(Throttled) <==>
                      && out.registered && (out.config.Some? ==> out.config.value.enabled)
                      && !old(limiter.Permits(p, out.Quota(), out.tick(1))))
      ensures refused.Some? ==> !refused.value.FetchFailed?
      ensures forall x :: limiter.LedgerOf(x) == old(limiter.LedgerOf(x))
    {
      hide ProviderLimiter.AllTrack, CircuitBreaker.Poll, CircuitBreaker.StatusPoll;
      var permitted := breaker.CanExecute(p, out.tick(0));
      if !permitted {
        var _, _ := breaker.GetStatus(p, out.tick(1));
        return Some(CircuitOpen);
      }
      if !out.registered {
        return Some(Unregistered);
      }
      if out.config.Some? && !out.config.value.enabled {
        return Some(Disabled);
      }
      var allowed, wait := limiter.CheckLimit(p, out.Quota(), out.tick(1));
      refused := if allowed then None else Some(Throttled);
    }

    /** Step four: one quota unit, whatever the number of fetches, and the fetch with retries. */
    method Fetch(p: string, out: Outside) returns (answer: Result<seq<RawEvent>, Retry.Failure>, fetches: nat)
      requires limiter.Valid() && Rising(out.tick) && limiter.clock <= out.tick(2)
      modifies limiter, retryPolicy
      ensures limiter.Valid() && limiter.clock <= out.tick(ReportTime(out))
      ensures 1 <= fetches <= RetriesFor(out).maxRetries + 1
      ensures fetches == Retry.LastAttempt(out.fetch, RetriesFor(out).maxRetries, 0) + 1
      ensures answer == out.fetch(fetches - 1)
      ensures limiter.LedgerOf(p)
              == Cooled(if old(limiter.Permits(p, out.Quota(), out.tick(2))) then OneGrant(old(limiter.LedgerOf(p)), out.Quota(), out.tick(2))
                        else old(limiter.LedgerOf(p)), out, fetches)
      ensures OthersKept(p)
    {
      hide ProviderLimiter.AllTrack, ProviderLimiter.WithinQuota, Retry.LastAttempt, Retry.ComputeDelay, Retry.Hint;
      var _ := limiter.Acquire(p, out.Quota(), out.tick(2));
      var policy := retryPolicy;
      if out.config.Some? {
        policy := new Retry.RetryPolicy(out.config.value.retry);
      }
      answer, fetches := policy.Execute(out.fetch, out.draw);
      ReportRateLimits(p, out, fetches);
    }

    /** Every fetch that the provider refused for its rate sets the provider's cooldown. */
    method ReportRateLimits(p: string, out: Outside, fetches: nat)
      requires limiter.Valid() && Rising(out.tick) && limiter.clock <= out.tick(2)
      modifies limiter
      ensures limiter.Valid() && limiter.clock <= out.tick(fetches + 2)
      ensures limiter.LedgerOf(p) == Cooled(old(limiter.LedgerOf(p)), out, fetches) && OthersKept(p)
    {
      hide ProviderLimiter.ProviderRateLimiter.Valid, ProviderLimiter.ProviderRateLimiter.LedgerOf, Rising, Noted;
      for i := 0 to fetches
        invariant limiter.Valid() && limiter.clock <= out.tick(i + 2)
        invariant limiter.LedgerOf(p) == Cooled(old(limiter.LedgerOf(p)), out, i) && OthersKept(p)
      {
        TickRises(out, i + 2);
        NoteRefusal(p, out.fetch(i), out.tick(i + 3));
      }
    }

    lemma TickRises(out: Outside, i: nat)
      requires Rising(out.tick)
      ensures out.tick(i) <= out.tick(i + 1)
    {
    }

    method NoteRefusal(p: string, answer: Result<seq<RawEvent>, Retry.Failure>, now: real)
      requires limiter.Valid() && limiter.clock <= now
      modifies limiter
      ensures limiter.Valid() && limiter.clock <= now
      ensures limiter.LedgerOf(p) == Noted(old(limiter.LedgerOf(p)), answer, now) && OthersKept(p)
    {
      hide ProviderLimiter.AllTrack;
      if answer.Err? && answer.error.RateLimited? {
        var _ := limiter.RecordRateLimit(p, answer.error.retryAfter, 60.0, now);
      }
    }

    /** Step five: every fetched event is prepared and checked against the engine, in order. */
    method Process(batch: seq<RawEvent>, org: Option<string>, out: Outside) returns (accepted: seq<RawEvent>, duplicates: seq<string>)
      modifies engine
      ensures Sorting(engine.seen, accepted, duplicates) == Sorted(old(engine.seen), batch, org, out)
    {
      accepted, duplicates := [], [];
      ghost var es := out.Prepared(batch, org);
      hide Active, Prepare, Sort;
      SortStep(old(engine.seen), es, out.Fp(org), engine.defaultTtl, out.Checked(RetriesFor(out)), 0);
      for i := 0 to |batch|
        invariant Sorting(engine.seen, accepted, duplicates)
                  == Sort(old(engine.seen), es, out.Fp(org), engine.defaultTtl, out.Checked(RetriesFor(out)), i)
      {
        var event := Prepare(batch[i], org, out.sanitize);
        var fp := out.fingerprint(event, org);
        assert es[i] == event && out.Fp(org)(es[i]) == fp;
        SortStep(old(engine.seen), es, out.Fp(org), engine.defaultTtl, out.Checked(RetriesFor(out)), i);
        var unique := engine.CheckAndRecord(fp, Some(event.eventId), None, out.Checked(RetriesFor(out))(i));
        if unique {
          accepted := accepted + [event];
        } else {
          duplicates := duplicates + [fp];
        }
      }
    }

    /** What becomes of a fetched batch. */
    function Sorted(seen: Ledger, batch: seq<RawEvent>, org: Option<string>, out: Outside): (r: Sorting)
      ensures |r.accepted| + |r.duplicates| == |batch|
    {
      Sort(seen, out.Prepared(batch, org), out.Fp(org), engine.defaultTtl, out.Checked(RetriesFor(out)), |batch|)
    }

    /** The batch the cycle fetched, if any. */
    function Fetched(out: Outside, fetches: nat): Option<seq<RawEvent>> {
      if fetches > 0 && out.fetch(fetches - 1).Ok? then Some(out.fetch(fetches - 1).value) else None
    }

    /** Steps five to seven on a fetched batch; None if the storage raises. */
    method Deliver(batch: seq<RawEvent>, retryCount: nat, org: Option<string>, out: Outside) returns (r: Option<IngestionResult>)
      modifies engine, storage
      ensures var sorted := Sorted(old(engine.seen), batch, org, out);
              && engine.seen == sorted.seen
              && (r.None? <==> storage.maxCapacity < 1 && old(storage.events) == [] && sorted.accepted != [])
              && (r.None? || sorted.accepted == [] ==> storage.events == old(storage.events))
              && (r.Some? ==> r.value == Reported(sorted, retryCount))
              && (r.Some? && storage.maxCapacity >= 1 ==>
                    storage.events == StoreAll(old(storage.events), sorted.accepted, storage.maxCapacity))
    {
      hide Sort, StoreOne;
      var accepted, duplicates := Process(batch, org, out);
      if accepted != [] {
        var stored := storage.StoreBatch(accepted);
        if stored.Err? {
          return None;
        }
      }
      r := Some(IngestionResult(
        Outcome(|batch|, |accepted|, |duplicates|), |batch|, |accepted|, |duplicates|, retryCount, accepted, duplicates));
    }

    /** The quota found at the check is still there at the acquisition. */
    lemma PermittedNow(p: string, out: Outside)
      requires Rising(out.tick) && limiter.Permits(p, out.Quota(), out.tick(1))
      ensures limiter.Permits(p, out.Quota(), out.tick(2))
    {
      ProviderLimiter.PermittedLater(limiter.LedgerOf(p), out.Quota(), out.tick(1), out.tick(2));
    }

    /** Tells the breaker how the cycle went. */
    method Report(p: string, success: bool, now: real)
      requires breaker.Valid() && p in breaker.trackers
      modifies breaker, breaker.trackers.Values
      ensures breaker.Valid() && breaker.trackers == old(breaker.trackers)
      ensures breaker.trackers[p].Value()
              == if success then CircuitBreaker.Succeed(old(breaker.trackers[p].Value()), breaker.defaultConfig, now)
                 else CircuitBreaker.Fail(old(breaker.trackers[p].Value()), breaker.defaultConfig, now)
    {
      hide CircuitBreaker.Succeed, CircuitBreaker.Fail;
      if success {
        breaker.RecordSuccess(p, now);
      } else {
        breaker.RecordFailure(p, now);
      }
    }

    /** What a cycle that fetched this often returns, and what it does to engine and storage. It
        touches neither if no batch was fetched; otherwise it sorts the batch, and stores what it
        accepts unless the storage raises. */
    predicate Settles(
      r: IngestionResult, fetches: nat, org: Option<string>, out: Outside,
      seen0: Ledger, seen: Ledger, events0: seq<RawEvent>, events: seq<RawEvent>)
    {
      if Fetched(out, fetches).None? then r == FAILURE && seen == seen0 && events == events0
      else
        var sorted := Sorted(seen0, Fetched(out, fetches).value, org, out);
        && seen == sorted.seen
        && if storage.maxCapacity < 1 && events0 == [] && sorted.accepted != [] then r == FAILURE && events == events0
           else
             && r == Reported(sorted, fetches - 1)
             && (storage.maxCapacity >= 1 ==> events == StoreAll(events0, sorted.accepted, storage.maxCapacity))
             && (sorted.accepted == [] ==> events == events0)
    }

    /** What the breaker is told of a cycle that fetched this often, if at all: a fetched batch is a
        success, and a failure as well if the storage then raises. */
    function Told(c: CircuitBreaker.Circuit, fetches: nat, failed: bool, out: Outside): CircuitBreaker.Circuit {
      var cfg, now := breaker.defaultConfig, out.tick(ReportTime(out));
      if Fetched(out, fetches).Some? then
        var succeeded := CircuitBreaker.Succeed(c, cfg, now);
        if failed then CircuitBreaker.Fail(succeeded, cfg, now) else succeeded
      else if fetches > 0 && out.fetch(fetches - 1) == Err(Retry.CircuitOpen) then c
      else CircuitBreaker.Fail(c, cfg, now)
    }

    /** A cycle reports one success, one failure or nothing: a delivered batch succeeds, a raising
        storage makes it a failure as well, and a fetch that met an open circuit goes unreported. */
    lemma ToldExactly(c: CircuitBreaker.Circuit, fetches: nat, failed: bool, out: Outside)
      ensures var (cfg, now, after) := (breaker.defaultConfig, out.tick(ReportTime(out)), Told(c, fetches, failed, out));
              && (fetches > 0 && out.fetch(fetches - 1).Ok? && !failed ==> after == CircuitBreaker.Succeed(c, cfg, now))
              && (fetches > 0 && out.fetch(fetches - 1).Ok? && failed ==>
                    after == CircuitBreaker.Fail(CircuitBreaker.Succeed(c, cfg, now), cfg, now))
              && (fetches > 0 && out.fetch(fetches - 1) == Err(Retry.CircuitOpen) ==> after == c)
              && (fetches > 0 && out.fetch(fetches - 1).Err? && out.fetch(fetches - 1).error != Retry.CircuitOpen ==>
                    after == CircuitBreaker.Fail(c, cfg, now))
              && (fetches == 0 ==> after == CircuitBreaker.Fail(c, cfg, now))
    {
      hide CircuitBreaker.Succeed, CircuitBreaker.Fail;
    }

    lemma SettledResult(
      r: IngestionResult, fetches: nat, org: Option<string>, out: Outside,
      seen0: Ledger, seen: Ledger, events0: seq<RawEvent>, events: seq<RawEvent>)
      requires Settles(r, fetches, org, out, seen0, seen, events0, events)
      ensures r.fetched == r.ingested + r.deduplicated && r.ingested == |r.events| && r.deduplicated == |r.duplicates|
      ensures r.status == FAILED <==> r == FAILURE
      ensures r.status != FAILED ==>
                && (r.status == PARTIAL <==> r.ingested > 0 && r.deduplicated > 0)
                && (r.status == SKIPPED_DUPLICATE <==> r.ingested == 0 && r.deduplicated > 0)
                && (r.status == SUCCESS <==> r.deduplicated == 0)
      ensures r.status != FAILED ==> r.retryCount == fetches - 1 && Fetched(out, fetches).Some? && r.fetched == |Fetched(out, fetches).value|
    {
      hide Sorted, StoreAll;
    }

    /** Steps four to seven of an admitted cycle. */
    method FetchAndDeliver(p: string, org: Option<string>, out: Outside) returns (r: IngestionResult, fetches: nat)
      requires Valid() && p in breaker.trackers && Rising(out.tick) && limiter.clock <= out.tick(2)
      requires limiter.Permits(p, out.Quota(), out.tick(1))
      modifies breaker, breaker.trackers.Values, limiter, retryPolicy, engine, storage
      ensures Valid() && breaker.trackers == old(breaker.trackers)
      ensures 1 <= fetches <= RetriesFor(out).maxRetries + 1
      ensures limiter.LedgerOf(p) == AfterCycle(old(limiter.LedgerOf(p)), out, fetches) && OthersKept(p)
      ensures breaker.trackers[p].Value() == Told(old(breaker.trackers[p].Value()), fetches, r.status == FAILED, out)
      ensures Settles(r, fetches, org, out, old(engine.seen), engine.seen, old(storage.events), storage.events)
    {
      hide ProviderLimiter.AllTrack, CircuitBreaker.Succeed, CircuitBreaker.Fail, CircuitBreaker.ProviderCircuitBreaker.Valid,
           ProviderLimiter.ProviderRateLimiter.Valid, ProviderLimiter.ProviderRateLimiter.LedgerOf, ProviderLimiter.PermittedBy,
           Sort, Rising, Retry.LastAttempt, StoreAll, Sorted, Cooled, OneGrant;
      PermittedNow(p, out);
      var answer;
      answer, fetches := Fetch(p, out);
      r := FAILURE;
      if answer.Err? {
        if answer.error != Retry.CircuitOpen {
          Report(p, false, out.tick(ReportTime(out)));
        }
        return;
      }
      Report(p, true, out.tick(ReportTime(out)));
      var delivered := Deliver(answer.value, fetches - 1, org, out);
      if delivered.None? {
        Report(p, false, out.tick(ReportTime(out)));
        return;
      }
      r := delivered.value;
    }

    /** The whole cycle. A refused one reports that to the breaker unless the circuit was open. */
    method Ingest(p: string, org: Option<string>, out: Outside) returns (r: IngestionResult, fetches: nat)
      requires Valid() && Rising(out.tick) && limiter.clock <= out.tick(0)
      modifies breaker, breaker.trackers.Values, limiter, retryPolicy, engine, storage
      ensures Valid() && p in breaker.trackers
      ensures r.fetched == r.ingested + r.deduplicated && r.ingested == |r.events| && r.deduplicated == |r.duplicates|
      ensures fetches <= RetriesFor(out).maxRetries + 1
      ensures fetches <= (if out.config.Some? then out.config.value.retry.maxRetries else retryPolicy.config.maxRetries) + 1
      ensures r.status == FAILED <==> r == FAILURE
      ensures r.status != FAILED ==>
                && (r.status == PARTIAL <==> r.ingested > 0 && r.deduplicated > 0)
                && (r.status == SKIPPED_DUPLICATE <==> r.ingested == 0 && r.deduplicated > 0)
                && (r.status == SUCCESS <==> r.deduplicated == 0)
      ensures r.status != FAILED ==> r.retryCount == fetches - 1 && Fetched(out, fetches).Some? && r.fetched == |Fetched(out, fetches).value|
      ensures fetches == 0 <==>
                || CircuitBreaker.Poll(old(breaker.View(p, out.tick(0))), breaker.defaultConfig, out.tick(0)).state == CircuitBreaker.OPEN
                || !out.registered || (out.config.Some? && !out.config.value.enabled)
                || !old(limiter.Permits(p, out.Quota(), out.tick(1)))
      ensures limiter.LedgerOf(p) == AfterCycle(old(limiter.LedgerOf(p)), out, fetches) && OthersKept(p)
      ensures var polled := CircuitBreaker.Poll(old(breaker.View(p, out.tick(0))), breaker.defaultConfig, out.tick(0));
              breaker.trackers[p].Value() ==
              if polled.state == CircuitBreaker.OPEN then CircuitBreaker.StatusPoll(polled, breaker.defaultConfig, out.tick(1))
              else Told(polled, fetches, r.status == FAILED, out)
      ensures Settles(r, fetches, org, out, old(engine.seen), engine.seen, old(storage.events), storage.events)
    {
      hide ProviderLimiter.AllTrack, CircuitBreaker.Poll, CircuitBreaker.StatusPoll, CircuitBreaker.Succeed, CircuitBreaker.Fail,
           CircuitBreaker.ProviderCircuitBreaker.View, CircuitBreaker.ProviderCircuitBreaker.Valid,
           ProviderLimiter.ProviderRateLimiter.Valid, ProviderLimiter.ProviderRateLimiter.LedgerOf, ProviderLimiter.PermittedBy,
           Sort, Rising, Retry.LastAttempt, StoreAll, Sorted, Cooled, OneGrant;
      r, fetches := FAILURE, 0;
      var refused := Admit(p, out);
      if refused.Some? {
        if refused.value != CircuitOpen {
          Report(p, false, out.tick(ReportTime(out)));
        }
      } else {
        r, fetches := FetchAndDeliver(p, org, out);
      }
      SettledResult(r, fetches, org, out, old(engine.seen), engine.seen, old(storage.events), storage.events);
    }

    /** The second cycle fetched events, each of a fingerprint that the first one fetched too, and
        checks them before a time-to-live has passed since the first one began to check. */
    predicate FetchedAgain(first: Outside, fetches: nat, second: Outside, fetchesAgain: nat, org: Option<string>) {
      && Fetched(first, fetches).Some? && Fetched(second, fetchesAgain).Some? && Fetched(second, fetchesAgain).value != []
      && var es, again := first.Prepared(Fetched(first, fetches).value, org), second.Prepared(Fetched(second, fetchesAgain).value, org);
         forall j: nat :: j < |again| ==>
                            && second.Checked(RetriesFor(second))(j) < first.Checked(RetriesFor(first))(0) + engine.defaultTtl
                            && exists i: nat :: i < |es| && first.Fp(org)(es[i]) == second.Fp(org)(again[j])
    }

    /** Nothing that the cycle fetched is remembered when it begins to check. */
    predicate Unremembered(seen: Ledger, out: Outside, fetches: nat, org: Option<string>)
      requires Fetched(out, fetches).Some?
    {
      var es := out.Prepared(Fetched(out, fetches).value, org);
      forall i: nat :: i < |es| ==> !Active(seen, out.Fp(org)(es[i]), out.Checked(RetriesFor(out))(0))
    }

    lemma CheckedRising(out: Outside)
      requires Rising(out.tick)
      ensures Rising(out.Checked(RetriesFor(out)))
    {
      var at, from := out.Checked(RetriesFor(out)), RetriesFor(out).maxRetries + 5;
      forall i: nat, j: nat | i <= j
        ensures at(i) <= at(j)
      {
        assert out.tick(from + i) <= out.tick(from + j);
      }
    }

    /** Of two cycles that ingest the same events, the second stores nothing, remembers nothing new
        and reports SKIPPED_DUPLICATE, whatever became of the first. */
    lemma SecondCycleSkips(
      org: Option<string>, first: Outside, r1: IngestionResult, fetches1: nat, second: Outside, r2: IngestionResult, fetches2: nat,
      seen0: Ledger, seen1: Ledger, seen2: Ledger, events0: seq<RawEvent>, events1: seq<RawEvent>, events2: seq<RawEvent>)
      requires Settles(r1, fetches1, org, first, seen0, seen1, events0, events1)
      requires Settles(r2, fetches2, org, second, seen1, seen2, events1, events2)
      requires Rising(first.tick) && FetchedAgain(first, fetches1, second, fetches2, org) && Unremembered(seen0, first, fetches1, org)
      ensures events2 == events1 && seen2 == seen1
      ensures r2.status == SKIPPED_DUPLICATE && r2.events == [] && r2.deduplicated == |Fetched(second, fetches2).value|
    {
      hide Sort, Active, Rising, StoreAll;
      var es, again := first.Prepared(Fetched(first, fetches1).value, org), second.Prepared(Fetched(second, fetches2).value, org);
      CheckedRising(first);
      ReingestWithinTtl(seen0, es, first.Fp(org), engine.defaultTtl, first.Checked(RetriesFor(first)),
                        again, second.Fp(org), second.Checked(RetriesFor(second)));
    }
  }
}
