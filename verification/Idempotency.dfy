/** The deduplication engine: fingerprints remembered until an expiry. Times are in seconds. */
module Idempotency {
  import opened Results

  datatype Entry = Entry(expiresAt: real, eventId: Option<string>)

  type Ledger = map<string, Entry>

  /** Whether the fingerprint is remembered at this instant. */
  predicate Active(seen: Ledger, fp: string, now: real) {
    fp in seen && now < seen[fp].expiresAt
  }

  function Check(seen: Ledger, fp: string, ttl: real, eventId: Option<string>, now: real): Ledger {
    if Active(seen, fp, now) then seen else seen[fp := Entry(now + ttl, eventId)]
  }

  function Purge(seen: Ledger, now: real): Ledger {
    map fp | fp in seen && now < seen[fp].expiresAt :: seen[fp]
  }

  datatype Op =
    | CheckAt(now: real, fp: string, ttl: real, eventId: Option<string>)
    | QueryAt(now: real, fp: string)
    | PurgeAt(now: real)

  function Step(seen: Ledger, op: Op): Ledger {
    match op
    case CheckAt(now, fp, ttl, id) => Check(seen, fp, ttl, id, now)
    case QueryAt(now, fp) => seen
    case PurgeAt(now) => Purge(seen, now)
  }

  /** True for a unique event, or a fingerprint found active. */
  function Answer(seen: Ledger, op: Op): seq<bool> {
    match op
    case CheckAt(now, fp, ttl, id) => [!Active(seen, fp, now)]
    case QueryAt(now, fp) => [Active(seen, fp, now)]
    case PurgeAt(now) => []
  }

  function Answers(seen: Ledger, ops: seq<Op>): seq<bool>
    decreases |ops|
  {
    if ops == [] then [] else Answer(seen, ops[0]) + Answers(Step(seen, ops[0]), ops[1..])
  }

  function Run(seen: Ledger, ops: seq<Op>): Ledger
    decreases |ops|
  {
    if ops == [] then seen else Run(Step(seen, ops[0]), ops[1..])
  }

  function WithoutPurges(ops: seq<Op>): seq<Op> {
    if ops == [] then [] else (if ops[0].PurgeAt? then [] else [ops[0]]) + WithoutPurges(ops[1..])
  }

  ghost predicate ClockRuns(ops: seq<Op>) {
    forall i, j :: 0 <= i < j < |ops| ==> ops[i].now <= ops[j].now
  }

  /** Two ledgers that remember the same fingerprints, with the same expiry, from now on. */
  ghost predicate SameFrom(a: Ledger, b: Ledger, now: real) {
    forall fp :: (Active(a, fp, now) <==> Active(b, fp, now)) && (Active(a, fp, now) ==> a[fp].expiresAt == b[fp].expiresAt)
  }

  /** Purging anywhere in a run with a nondecreasing clock changes no answer. */
  lemma {:induction false} PurgesInvisible(a: Ledger, b: Ledger, ops: seq<Op>, now: real)
    requires ClockRuns(ops) && (ops != [] ==> now <= ops[0].now) && SameFrom(a, b, now)
    ensures Answers(a, ops) == Answers(b, WithoutPurges(ops))
    decreases |ops|
  {
    if ops != [] {
      var op := ops[0];
      PurgesInvisible(Step(a, op), if op.PurgeAt? then b else Step(b, op), ops[1..], op.now);
      if !op.PurgeAt? {
        assert WithoutPurges(ops)[0] == op && WithoutPurges(ops)[1..] == WithoutPurges(ops[1..]);
      } else {
        assert WithoutPurges(ops) == WithoutPurges(ops[1..]);
      }
    }
  }

  /** The fingerprint stays remembered at least until this instant. */
  ghost predicate HeldUntil(seen: Ledger, fp: string, until: real, now: real) {
    now < until ==> fp in seen && seen[fp].expiresAt >= until
  }

  lemma {:induction false} RunHolds(seen: Ledger, ops: seq<Op>, fp: string, until: real, now: real)
    requires ClockRuns(ops) && (ops != [] ==> now <= ops[0].now) && HeldUntil(seen, fp, until, now)
    ensures HeldUntil(Run(seen, ops), fp, until, if ops == [] then now else ops[|ops| - 1].now)
    decreases |ops|
  {
    if ops != [] {
      RunHolds(Step(seen, ops[0]), ops[1..], fp, until, ops[0].now);
    }
  }

  /** Two unique acceptances of one fingerprint, with any run between them, lie at least
      the first one's time-to-live apart. */
  lemma AcceptancesApart(seen: Ledger, first: Op, between: seq<Op>, second: Op)
    requires first.CheckAt? && second.CheckAt? && first.fp == second.fp
    requires ClockRuns([first] + between + [second])
    requires Answer(seen, first) == [true]
    requires Answer(Run(Step(seen, first), between), second) == [true]
    ensures second.now - first.now >= first.ttl
  {
    var all := [first] + between + [second];
    assert all[0] == first && all[|all| - 1] == second;
    assert forall i :: 0 <= i < |between| ==> between[i] == all[i + 1];
    var after := Step(seen, first);
    RunHolds(after, between, first.fp, first.now + first.ttl, first.now);
    var last := if between == [] then first.now else between[|between| - 1].now;
  }

  lemma {:induction false} RunThen(seen: Ledger, ops: seq<Op>)
    requires ops != []
    ensures Run(seen, ops) == Step(Run(seen, ops[..|ops| - 1]), ops[|ops| - 1])
    decreases |ops|
  {
    if |ops| > 1 {
      RunThen(Step(seen, ops[0]), ops[1..]);
      assert ops[1..][..|ops| - 2] == ops[..|ops| - 1][1..];
    }
  }

  /** What a run of operations leaves to remember of a fingerprint: its last acceptance, a check
      being one if the one before it, if any, had expired. */
  function Accepted(ops: seq<Op>, fp: string): Option<Entry> {
    if ops == [] then None
    else
      var before, last := Accepted(ops[..|ops| - 1], fp), ops[|ops| - 1];
      if last.CheckAt? && last.fp == fp && (before.None? || before.value.expiresAt <= last.now)
      then Some(Entry(last.now + last.ttl, last.eventId)) else before
  }

  /** A fingerprint is remembered exactly until its last acceptance expires, and then accepted again. */
  lemma {:induction false} RememberedExactly(ops: seq<Op>, fp: string, now: real)
    requires ClockRuns(ops) && (ops != [] ==> ops[|ops| - 1].now <= now)
    ensures var (seen, last) := (Run(map[], ops), Accepted(ops, fp));
            && (Active(seen, fp, now) <==> last.Some? && now < last.value.expiresAt)
            && (Active(seen, fp, now) ==> seen[fp] == last.value)
    decreases |ops|
  {
    if ops != [] {
      var front, last := ops[..|ops| - 1], ops[|ops| - 1];
      RunThen(map[], ops);
      hide Run;
      RememberedExactly(front, fp, now);
      RememberedExactly(front, fp, last.now);
    }
  }

  /** The engine. A time-to-live of zero, or none, means the default. */
  class IdempotencyEngine {
    const defaultTtl: real
    var seen: Ledger

    constructor (ttlSeconds: real, defaultTtlSeconds: Option<real>)
      ensures seen == map[]
      ensures defaultTtl == if defaultTtlSeconds.Some? && defaultTtlSeconds.value != 0.0 then defaultTtlSeconds.value else ttlSeconds
    {
      defaultTtl := if defaultTtlSeconds.Some? && defaultTtlSeconds.value != 0.0 then defaultTtlSeconds.value else ttlSeconds;
      seen := map[];
    }

    function Ttl(ttlSeconds: Option<real>): real {
      if ttlSeconds.Some? && ttlSeconds.value != 0.0 then ttlSeconds.value else defaultTtl
    }

    method CheckAndRecord(fp: string, eventId: Option<string>, ttlSeconds: Option<real>, now: real) returns (unique: bool)
      modifies this
      ensures seen == Check(old(seen), fp, Ttl(ttlSeconds), eventId, now)
      ensures unique <==> !Active(old(seen), fp, now)
      ensures unique && ttlSeconds.Some? && ttlSeconds.value != 0.0 ==> fp in seen && seen[fp] == Entry(now + ttlSeconds.value, eventId)
      ensures unique && (ttlSeconds.None? || ttlSeconds.value == 0.0) ==> fp in seen && seen[fp] == Entry(now + defaultTtl, eventId)
    {
      if fp in seen {
        if now < seen[fp].expiresAt {
          return false;
        }
      }
      seen := seen[fp := Entry(now + Ttl(ttlSeconds), eventId)];
      return true;
    }

    /** Agrees with what `CheckAndRecord` would answer at the same instant. */
    method IsDuplicate(fp: string, now: real) returns (r: bool)
      ensures r <==> Active(seen, fp, now)
    {
      if fp in seen {
        return now < seen[fp].expiresAt;
      }
      return false;
    }

    method PurgeExpired(now: real) returns (n: nat)
      modifies this
      ensures seen == Purge(old(seen), now) && forall fp :: fp in seen <==> fp in old(seen) && old(seen)[fp].expiresAt > now
      ensures n == |old(seen)| - |seen|
    {
      var expired := set fp | fp in seen && now >= seen[fp].expiresAt;
      var kept := seen;
      var todo := expired;
      while todo != {}
        invariant todo <= expired && todo <= kept.Keys
        invariant Minus(seen, expired) == Minus(kept, todo)
        decreases todo
      {
        var fp :| fp in todo;
        kept, todo := kept - {fp}, todo - {fp};
      }
      SizeMinus(seen, expired);
      assert Minus(seen, expired) == Purge(seen, now);
      assert kept == Minus(kept, {});
      seen := kept;
      n := |expired|;
    }
  }

  ghost function Minus(m: Ledger, keys: set<string>): Ledger {
    map fp | fp in m && fp !in keys :: m[fp]
  }

  lemma SizeMinus(m: Ledger, keys: set<string>)
    requires keys <= m.Keys
    ensures |Minus(m, keys)| == |m| - |keys|
  {
    var r := Minus(m, keys);
    assert m.Keys == r.Keys + keys;
    assert |m.Keys| == |r.Keys| + |keys|;
  }
}
