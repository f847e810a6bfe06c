/** The sliding-window rate limiter: the script run on the server's sorted sets and the
    in-memory fallback, both refining one decision over the history of granted requests.
    All times are in milliseconds. */
module SlidingWindow {
  import opened Results
  import opened Histories

  datatype Verdict = Verdict(allowed: bool, count: int, remaining: int)

  /** The decision both limiters must reach: grant while fewer than `limit` earlier grants
      lie in the window that ends now. */
  function Decide(h: seq<real>, now: real, limit: int, window: real): Verdict {
    var n := |Later(h, now - window)|;
    if n < limit then Verdict(true, n + 1, limit - (n + 1)) else Verdict(false, n, 0)
  }

  function Record(h: seq<real>, now: real, limit: int, window: real): seq<real> {
    if Decide(h, now, limit, window).allowed then h + [now] else h
  }

  /** What a limiter that knows the grants in the window must answer and remember. */
  lemma DecideFrom(valid: seq<real>, h: seq<real>, now: real, limit: int, window: real)
    requires valid == Later(h, now - window) && window > 0.0
    ensures Decide(h, now, limit, window)
            == if |valid| < limit then Verdict(true, |valid| + 1, limit - (|valid| + 1)) else Verdict(false, |valid|, 0)
    ensures Record(h, now, limit, window) == if |valid| < limit then h + [now] else h
    ensures Later(h + [now], now - window) == valid + [now]
  {
    LaterAppends(h, now, now - window);
  }

  function Max(a: real, b: real): (m: real)
    ensures m >= a && m >= b && (m == a || m == b)
  {
    if a >= b then a else b
  }

  datatype Call = Call(now: real, limit: int)

  /** The grants made by a run of calls on one key. */
  function Grants(calls: seq<Call>, window: real): seq<real> {
    if calls == [] then []
    else
      var last := calls[|calls| - 1];
      Record(Grants(calls[..|calls| - 1], window), last.now, last.limit, window)
  }

  ghost predicate ClockRuns(calls: seq<Call>) {
    forall i, j :: 0 <= i < j < |calls| ==> calls[i].now <= calls[j].now
  }

  /** Each grant comes at least a window after the grant `limit` places before it. */
  ghost predicate Spaced(h: seq<real>, limit: nat, window: real) {
    forall j :: limit <= j < |h| ==> h[j] - h[j - limit] >= window
  }

  lemma RecordSpaces(h: seq<real>, now: real, asked: int, limit: nat, window: real)
    requires Ordered(h) && (forall i :: 0 <= i < |h| ==> h[i] <= now) && Spaced(h, limit, window)
    requires asked <= limit && limit >= 1
    ensures var h' := Record(h, now, asked, window);
            Ordered(h') && (forall i :: 0 <= i < |h'| ==> h'[i] <= now) && Spaced(h', limit, window)
  {
    hide Later;
    LaterIsSuffix(h, now - window);
  }

  lemma {:induction false} GrantsSpaced(calls: seq<Call>, limit: nat, window: real)
    requires ClockRuns(calls) && limit >= 1
    requires forall c :: c in calls ==> c.limit <= limit
    ensures var h := Grants(calls, window);
            && Ordered(h) && Spaced(h, limit, window)
            && (calls != [] ==> forall i :: 0 <= i < |h| ==> h[i] <= calls[|calls| - 1].now)
    decreases |calls|
  {
    if calls != [] {
      var front, last := calls[..|calls| - 1], calls[|calls| - 1];
      GrantsSpaced(front, limit, window);
      assert last in calls;
      hide Record, Spaced, Ordered;
      RecordSpaces(Grants(front, window), last.now, last.limit, limit, window);
    }
  }

  /** On any run with a nondecreasing clock whose limits never exceed `limit`, at most
      `limit` grants fall in any half-open window. */
  lemma WindowBound(calls: seq<Call>, limit: nat, window: real, end: real)
    requires ClockRuns(calls) && limit >= 1 && window >= 0.0
    requires forall c :: c in calls ==> c.limit <= limit
    ensures CountIf(Grants(calls, window), LeftOpen(end - window, end)) <= limit
    ensures CountIf(Grants(calls, window), RightOpen(end, end + window)) <= limit
  {
    GrantsSpaced(calls, limit, window);
    var h := Grants(calls, window);
    forall i, j | 0 <= i < j < |h| && j - i >= limit
      ensures h[j] - h[i] >= window
    {
      assert h[j] - h[j - limit] >= window && (i == j - limit || h[i] <= h[j - limit]);
    }
    CountFits(h, LeftOpen(end - window, end), limit);
    CountFits(h, RightOpen(end, end + window), limit);
  }

  /** A refused caller that waits out the advertised time, with no call in between, is
      granted: the oldest grant has then left the window. */
  lemma ResetSuffices(h: seq<real>, now: real, limit: nat, window: real, wait: real)
    requires Ordered(h) && limit >= 1 && window >= 0.0
    requires !Decide(h, now, limit, window).allowed && |Later(h, now - window)| == limit
    requires wait >= Later(h, now - window)[0] + window - now && wait >= 0.0
    ensures Decide(h, now + wait, limit, window).allowed
  {
    var recent := Later(h, now - window);
    LaterIsSuffix(h, now - window);
    LaterIsSuffix(h, now + wait - window);
    assert h[|h| - limit] == recent[0];
  }

  /** Spaced grants, none in the future, never exceed the limit in the window. */
  lemma WindowFull(h: seq<real>, now: real, limit: nat, window: real)
    requires Ordered(h) && Spaced(h, limit, window) && limit >= 1 && forall i :: 0 <= i < |h| ==> h[i] <= now
    ensures |Later(h, now - window)| <= limit
  {
    hide Later;
    LaterIsSuffix(h, now - window);
    assert |h| > limit ==> h[|h| - 1] - h[|h| - 1 - limit] >= window;
  }

  /** Where no call asked for more than `limit`, a refusal under that limit finds exactly `limit`
      grants in the window, so waiting out the advertised time is always enough. */
  lemma ResetSufficesOnRun(calls: seq<Call>, now: real, limit: nat, window: real, wait: real)
    requires ClockRuns(calls) && (calls != [] ==> calls[|calls| - 1].now <= now)
    requires limit >= 1 && window > 0.0 && forall c :: c in calls ==> c.limit <= limit
    requires !Decide(Grants(calls, window), now, limit, window).allowed
    requires var recent := Later(Grants(calls, window), now - window); wait >= 0.0 && (recent != [] ==> wait >= recent[0] + window - now)
    ensures |Later(Grants(calls, window), now - window)| == limit
    ensures Decide(Grants(calls, window), now + wait, limit, window).allowed
  {
    hide Later, Grants, ClockRuns, Spaced, Ordered;
    GrantsSpaced(calls, limit, window);
    var h := Grants(calls, window);
    assert calls == [] ==> h == [] by {
      NoCalls(window);
    }
    WindowFull(h, now, limit, window);
    ResetSuffices(h, now, limit, window, wait);
  }

  lemma NoCalls(window: real)
    ensures Grants([], window) == []
  {
  }

  /** For each key the grants after its own cut-off, which lies no later than `latest`. */
  ghost predicate Remembers(store: map<string, seq<real>>, history: map<string, seq<real>>, since: map<string, real>, latest: real) {
    && store.Keys == history.Keys == since.Keys
    && forall k :: k in store ==> since[k] <= latest && store[k] == Later(history[k], since[k])
  }

  lemma RemembersLater(
    store: map<string, seq<real>>, history: map<string, seq<real>>, since: map<string, real>, before: real, latest: real)
    requires Remembers(store, history, since, before) && before <= latest
    ensures Remembers(store, history, since, latest)
  {
  }

  lemma RemembersOne(
    store: map<string, seq<real>>, history: map<string, seq<real>>, since: map<string, real>, latest: real, k: string, h: seq<real>)
    requires Remembers(store, history, since, latest)
    ensures Remembers(store[k := Later(h, latest)], history[k := h], since[k := latest], latest)
  {
    hide Later;
  }

  /** The in-memory fallback. It forgets expired instants only when it grants. */
  class InMemorySlidingWindow {
    const window: real
    var store: map<string, seq<real>>
    ghost var history: map<string, seq<real>>  // every grant, per key
    ghost var since: map<string, real>  // the window start at the last grant, per key
    ghost var clock: real

    /** What is stored for a key are its grants after the window start of the last one. */
    ghost predicate Valid()
      reads this
    {
      window > 0.0 && Remembers(store, history, since, clock - window)
    }

    ghost function History(k: string): seq<real>
      reads this
    {
      if k in history then history[k] else []
    }

    constructor (window: real, clock: real)
      requires window > 0.0
      ensures Valid() && this.window == window && this.clock == clock
      ensures forall k :: History(k) == []
    {
      this.window := window;
      this.store := map[];
      this.history := map[];
      this.since := map[];
      this.clock := clock;
    }

    function Stored(k: string): seq<real>
      reads this
    {
      if k in store then store[k] else []
    }

    lemma StoredCounts(k: string, now: real)
      requires Valid() && now >= clock
      ensures Later(Stored(k), now - window) == Later(History(k), now - window)
    {
      if k in store {
        LaterAgain(history[k], since[k], now - window);
      }
    }

    method CheckAndRecord(now: real, key: string, limit: int) returns (v: Verdict, reset: real)
      requires Valid() && now >= clock
      modifies this
      ensures Valid() && clock == now
      ensures v == Decide(old(History(key)), now, limit, window)
      ensures forall k :: History(k) == if k == key then Record(old(History(key)), now, limit, window) else old(History(k))
      ensures var recent := Later(old(History(key)), now - window);
              reset == if v.allowed then window else Max(1000.0, (if recent != [] then recent[0] else now) + window - now)
    {
      hide Later, Decide, Record, Max, Stored, Remembers;
      var valid := Later(Stored(key), now - window);
      StoredCounts(key, now);
      RemembersLater(store, history, since, clock - window, now - window);
      ghost var h := History(key);
      DecideFrom(valid, h, now, limit, window);
      if |valid| < limit {
        valid := valid + [now];
        RemembersOne(store, history, since, now - window, key, h + [now]);
        v, reset := Verdict(true, |valid|, limit - |valid|), window;
        store := store[key := valid];
        history := history[key := h + [now]];
        since := since[key := now - window];
      } else {
        v, reset := Verdict(false, |valid|, 0), Max(1000.0, (if valid != [] then valid[0] else now) + window - now);
      }
      clock := now;
    }
  }

  /** A member of the server's sorted set. */
  datatype Member = Member(score: real, name: string)

  ghost function Times(z: seq<Member>): seq<real> {
    seq(|z|, i requires 0 <= i < |z| => z[i].score)
  }

  /** ZREMRANGEBYSCORE from minus infinity to the cut-off. */
  function RemoveUpTo(z: seq<Member>, cutoff: real): seq<Member> {
    if z == [] then [] else (if z[0].score > cutoff then [z[0]] else []) + RemoveUpTo(z[1..], cutoff)
  }

  function Without(z: seq<Member>, name: string): seq<Member> {
    if z == [] then [] else (if z[0].name == name then [] else [z[0]]) + Without(z[1..], name)
  }

  function Insert(z: seq<Member>, m: Member): seq<Member> {
    if z == [] || z[|z| - 1].score <= m.score then z + [m] else Insert(z[..|z| - 1], m) + [z[|z| - 1]]
  }

  /** ZADD: a member already present only moves to its new score. */
  function Add(z: seq<Member>, m: Member): seq<Member> {
    Insert(Without(z, m.name), m)
  }

  lemma {:induction false} RemovalKeepsLater(z: seq<Member>, cutoff: real)
    ensures Times(RemoveUpTo(z, cutoff)) == Later(Times(z), cutoff)
    ensures |Times(RemoveUpTo(z, cutoff))| == |RemoveUpTo(z, cutoff)|
    ensures RemoveUpTo(z, cutoff) != [] ==> Times(RemoveUpTo(z, cutoff))[0] == RemoveUpTo(z, cutoff)[0].score
    ensures forall m :: m in RemoveUpTo(z, cutoff) ==> m in z
  {
    if z != [] {
      RemovalKeepsLater(z[1..], cutoff);
      assert Times(z)[0] == z[0].score && Times(z)[1..] == Times(z[1..]);
      var rest := RemoveUpTo(z[1..], cutoff);
      if z[0].score > cutoff {
        assert RemoveUpTo(z, cutoff) == [z[0]] + rest;
        assert Times([z[0]] + rest) == [z[0].score] + Times(rest);
      } else {
        assert RemoveUpTo(z, cutoff) == rest;
      }
    }
  }

  lemma {:induction false} LaterWithin(h: seq<real>, cutoff: real)
    ensures forall t :: t in Later(h, cutoff) ==> t in h
  {
    if h != [] {
      LaterWithin(h[1..], cutoff);
    }
  }

  lemma {:induction false} NoneLater(h: seq<real>, cutoff: real)
    requires forall i :: 0 <= i < |h| ==> h[i] <= cutoff
    ensures Later(h, cutoff) == []
  {
    if h != [] {
      NoneLater(h[1..], cutoff);
    }
  }

  lemma {:induction false} WithoutAbsent(z: seq<Member>, name: string)
    requires forall m :: m in z ==> m.name != name
    ensures Without(z, name) == z
  {
    if z != [] {
      assert z[0] in z;
      WithoutAbsent(z[1..], name);
    }
  }

  /** Adding a new member with the latest score appends it. */
  lemma AddAppends(z: seq<Member>, m: Member)
    requires forall x :: x in z ==> x.name != m.name && x.score <= m.score
    ensures Times(Add(z, m)) == Times(z) + [m.score] && Add(z, m) == z + [m]
  {
    WithoutAbsent(z, m.name);
    if z != [] {
      assert z[|z| - 1] in z;
    }
  }

  /** A key of the server: its sorted set, and the instant after which the key is gone. */
  datatype Key = Key(members: seq<Member>, expiresAt: real)

  datatype ScriptRun = ScriptRun(verdict: Verdict, reset: real, members: seq<Member>)

  /** The script's effect on the sorted set it finds. */
  function Script(found: seq<Member>, now: real, window: real, limit: int, member: string): ScriptRun {
    var members := RemoveUpTo(found, now - window);
    var n := |members|;
    if n < limit then ScriptRun(Verdict(true, n + 1, limit - (n + 1)), window, Add(members, Member(now, member)))
    else ScriptRun(Verdict(false, n, 0), if n > 0 then Max(1.0, members[0].score + window - now) else window, members)
  }

  lemma ScriptRefines(found: seq<Member>, h: seq<real>, now: real, window: real, limit: int, member: string)
    requires Later(Times(found), now - window) == Later(h, now - window) && window > 0.0
    requires forall m :: m in found ==> m.name != member && m.score <= now
    ensures var run := Script(found, now, window, limit, member);
            var recent := Later(h, now - window);
            && run.verdict == Decide(h, now, limit, window)
            && Times(run.members) == Later(Record(h, now, limit, window), now - window)
            && run.reset == if run.verdict.allowed || recent == [] then window else Max(1.0, recent[0] + window - now)
  {
    hide RemoveUpTo, Later, Add, Times, Decide, Record, Max;
    var members := RemoveUpTo(found, now - window);
    RemovalKeepsLater(found, now - window);
    DecideFrom(Times(members), h, now, limit, window);
    AddAppends(members, Member(now, member));
  }

  lemma KeyRefreshed(
    keys: map<string, Key>, h: seq<real>, from: real, key: string, now: real, window: real,
    run: ScriptRun, limit: int, expiresAt: real)
    requires if key in keys then Holds(keys[key], h, from, window, now) else h == []
    requires Times(run.members) == Later(Record(h, now, limit, window), now - window)
    requires run.verdict == Decide(h, now, limit, window)
    requires expiresAt == if run.verdict.allowed then now + (window + 1000.0) else if key in keys then keys[key].expiresAt else now
    ensures Holds(Key(run.members, expiresAt), Record(h, now, limit, window), now - window, window, now)
  {
  }

  ghost predicate Holds(key: Key, h: seq<real>, from: real, window: real, clock: real) {
    && from <= clock - window
    && Times(key.members) == Later(h, from)
    && forall i :: 0 <= i < |h| ==> h[i] <= clock && h[i] + window + 1000.0 <= key.expiresAt
  }

  lemma HoldsOn(keys: map<string, Key>, history: map<string, seq<real>>, since: map<string, real>, window: real, clock: real, now: real)
    requires clock <= now && keys.Keys == history.Keys == since.Keys
    requires forall k :: k in keys ==> Holds(keys[k], history[k], since[k], window, clock)
    ensures forall k :: k in keys ==> Holds(keys[k], history[k], since[k], window, now)
  {
  }

  lemma NothingLater(cutoff: real)
    ensures Later([], cutoff) == [] && Times([]) == []
  {
  }

  lemma MembersCount(key: Key, h: seq<real>, from: real, window: real, clock: real, now: real)
    requires Holds(key, h, from, window, clock) && clock <= now
    ensures Later(Times(key.members), now - window) == Later(h, now - window)
    ensures forall m :: m in key.members ==> m.score <= now
  {
    hide Later;
    var z := key.members;
    LaterAgain(h, from, now - window);
    LaterWithin(h, from);
    forall m | m in z
      ensures m.score <= now
    {
      var i :| 0 <= i < |z| && z[i] == m;
      assert Times(z)[i] in Later(h, from);
    }
  }

  lemma ExpiredCounts(key: Key, h: seq<real>, from: real, window: real, clock: real, now: real)
    requires Holds(key, h, from, window, clock) && clock <= now && now > key.expiresAt
    ensures Later(h, now - window) == []
  {
    NoneLater(h, now - window);
  }

  /** The script, run atomically on the server's keys. */
  class ScriptedSlidingWindow {
    const window: real
    var keys: map<string, Key>
    ghost var history: map<string, seq<real>>  // every grant, per key
    ghost var since: map<string, real>  // the window start at the last call, per key
    ghost var clock: real

    /** A key's members are the grants after the window start of the last call, and the
        key outlives each of them by a second. */
    ghost predicate Valid()
      reads this
    {
      && window > 0.0
      && keys.Keys == history.Keys == since.Keys
      && forall k :: k in keys ==> Holds(keys[k], history[k], since[k], window, clock)
    }

    ghost function History(k: string): seq<real>
      reads this
    {
      if k in history then history[k] else []
    }

    /** The members the script finds under a key: none once the key has expired. */
    function Found(k: string, now: real): seq<Member>
      reads this
    {
      if k in keys && now <= keys[k].expiresAt then keys[k].members else []
    }

    constructor (window: real, clock: real)
      requires window > 0.0
      ensures Valid() && this.window == window && this.clock == clock
      ensures forall k :: History(k) == []
    {
      this.window := window;
      this.keys := map[];
      this.history := map[];
      this.since := map[];
      this.clock := clock;
    }

    /** Expiry never hides a grant that still counts. */
    lemma FoundCounts(k: string, now: real)
      requires Valid() && now >= clock
      ensures Later(Times(Found(k, now)), now - window) == Later(History(k), now - window)
      ensures forall m :: m in Found(k, now) ==> m.score <= now
    {
      hide Later, Times, Holds;
      NothingLater(now - window);
      if k in keys {
        if now <= keys[k].expiresAt {
          MembersCount(keys[k], history[k], since[k], window, clock, now);
        } else {
          ExpiredCounts(keys[k], history[k], since[k], window, clock, now);
        }
      }
    }

    method Eval(now: real, key: string, limit: int, member: string) returns (v: Verdict, reset: real)
      requires Valid() && now >= clock
      requires forall m :: m in Found(key, now) ==> m.name != member
      modifies this
      ensures Valid() && clock == now
      ensures v == Decide(old(History(key)), now, limit, window)
      ensures forall k :: History(k) == if k == key then Record(old(History(key)), now, limit, window) else old(History(k))
      ensures var recent := Later(old(History(key)), now - window);
              reset == if v.allowed || recent == [] then window else Max(1.0, recent[0] + window - now)
    {
      hide Later, Decide, Record, Max, Found, Script, Holds;
      ghost var h := History(key);
      var run := Script(Found(key, now), now, window, limit, member);
      FoundCounts(key, now);
      ScriptRefines(Found(key, now), h, now, window, limit, member);
      HoldsOn(keys, history, since, window, clock, now);
      var expiresAt := if run.verdict.allowed then now + (window + 1000.0) else if key in keys then keys[key].expiresAt else now;
      KeyRefreshed(keys, h, if key in keys then since[key] else now - window, key, now, window, run, limit, expiresAt);
      keys := keys[key := Key(run.members, expiresAt)];
      history := history[key := Record(h, now, limit, window)];
      since := since[key := now - window];
      clock := now;
      return run.verdict, run.reset;
    }
  }
}
