/** The per-provider limiter: a minute deque, an hour deque and a cooldown. Times are in seconds. */
module ProviderLimiter {
  import opened Results
  import opened Histories

  type Quota = n: int | n >= 1 witness 1

  datatype RateLimitConfig = RateLimitConfig(perMinute: Option<Quota>, perHour: Option<Quota>)

  const MINUTE := 60.0
  const HOUR := 3600.0

  function Max(a: real, b: real): (m: real)
    ensures m >= a && m >= b && (m == a || m == b)
  {
    if a >= b then a else b
  }

  /** Fewer than `n` of these grants lie within `span` of `now`. */
  predicate WithinQuota(h: seq<real>, n: Option<Quota>, span: real, now: real) {
    n.Some? ==> |h| < n.value || now - h[|h| - n.value] > span
  }

  lemma NoQuota(h: seq<real>, span: real, now: real)
    ensures WithinQuota(h, None, span, now)
  {
  }

  function Granted(h: seq<real>, n: Option<Quota>, now: real): seq<real> {
    if n.Some? then h + [now] else h
  }

  ghost predicate Past(h: seq<real>, now: real) {
    forall i :: 0 <= i < |h| ==> h[i] <= now
  }

  /** The deque is the history less some grants that have left the span. */
  ghost predicate Tracks(q: seq<real>, h: seq<real>, span: real, now: real) {
    && Ordered(h) && Past(h, now)
    && |q| <= |h| && q == h[|h| - |q|..]
    && forall i :: 0 <= i < |h| - |q| ==> now - h[i] > span
  }

  /** Pops expired grants from the left of the deque. */
  method Purge(q0: seq<real>, now: real, span: real, ghost h: seq<real>, ghost before: real) returns (q: seq<real>)
    requires Tracks(q0, h, span, before) && before <= now
    ensures Tracks(q, h, span, now)
    ensures q != [] ==> now - q[0] <= span
  {
    q := q0;
    while q != [] && now - q[0] > span
      invariant Tracks(q, h, span, now)
    {
      q := q[1..];
    }
  }

  /** The oldest grant that still counts. */
  ghost predicate FirstWithin(h: seq<real>, span: real, now: real, t: real) {
    exists i :: 0 <= i < |h| && h[i] == t && now - t <= span && forall j :: 0 <= j < i ==> now - h[j] > span
  }

  /** After a purge the deque's length decides the quota. */
  lemma PurgedDecides(q: seq<real>, h: seq<real>, n: Quota, span: real, now: real)
    requires Tracks(q, h, span, now) && (q != [] ==> now - q[0] <= span)
    ensures |q| < n <==> WithinQuota(h, Some(n), span, now)
    ensures q != [] ==> FirstWithin(h, span, now, q[0])
  {
    if q != [] {
      assert q[0] == h[|h| - |q|];
    }
    if |q| >= n {
      assert h[|h| - n] == q[|q| - n];
    }
  }

  lemma GrantTracked(q: seq<real>, h: seq<real>, span: real, now: real)
    requires Tracks(q, h, span, now)
    ensures Tracks(q + [now], h + [now], span, now)
  {
  }

  function At(m: map<string, seq<real>>, p: string): seq<real> {
    if p in m then m[p] else []
  }

  ghost predicate AllTrack(windows: map<string, seq<real>>, grants: map<string, seq<real>>, span: real, now: real) {
    forall p :: Tracks(At(windows, p), At(grants, p), span, now)
  }

  lemma AllTrackLater(windows: map<string, seq<real>>, grants: map<string, seq<real>>, span: real, before: real, now: real)
    requires AllTrack(windows, grants, span, before) && before <= now
    ensures AllTrack(windows, grants, span, now)
  {
    forall p
      ensures Tracks(At(windows, p), At(grants, p), span, now)
    {
      assert Tracks(At(windows, p), At(grants, p), span, before);
    }
  }

  lemma OneTracks(windows: map<string, seq<real>>, grants: map<string, seq<real>>, span: real, now: real, p: string)
    requires AllTrack(windows, grants, span, now)
    ensures Tracks(At(windows, p), At(grants, p), span, now)
  {
  }

  lemma TrackOne(windows: map<string, seq<real>>, grants: map<string, seq<real>>, span: real, now: real, p: string, q: seq<real>, h: seq<real>)
    requires AllTrack(windows, grants, span, now) && Tracks(q, h, span, now)
    ensures AllTrack(windows[p := q], grants[p := h], span, now)
    ensures h == At(grants, p) ==> AllTrack(windows[p := q], grants, span, now)
  {
    hide Tracks;
    var windows', grants' := windows[p := q], grants[p := h];
    forall x
      ensures Tracks(At(windows', x), At(grants', x), span, now)
      ensures h == At(grants, p) ==> Tracks(At(windows', x), At(grants, x), span, now)
    {
      assert Tracks(At(windows, x), At(grants, x), span, now);
      assert h == At(grants, p) ==> At(grants', x) == At(grants, x);
    }
  }

  class ProviderRateLimiter {
    var minuteWindows: map<string, seq<real>>
    var hourWindows: map<string, seq<real>>
    var cooldowns: map<string, real>
    var totalThrottled: map<string, int>
    var cooldownCounts: map<string, int>
    ghost var minuteGrants: map<string, seq<real>>  // every grant made under a per-minute quota
    ghost var hourGrants: map<string, seq<real>>  // every grant made under a per-hour quota
    ghost var clock: real

    static function Count(m: map<string, int>, p: string): int {
      if p in m then m[p] else 0
    }

    function CooldownUntil(p: string): real
      reads this
    {
      if p in cooldowns then cooldowns[p] else 0.0
    }

    ghost predicate Valid()
      reads this
    {
      && AllTrack(minuteWindows, minuteGrants, MINUTE, clock)
      && AllTrack(hourWindows, hourGrants, HOUR, clock)
    }

    /** One provider's grants and cooldown, as the runs below see them. */
    ghost function LedgerOf(p: string): Ledger
      reads this
    {
      Ledger(At(minuteGrants, p), At(hourGrants, p), [], CooldownUntil(p))
    }

    /** What both operations check. */
    ghost predicate Permits(p: string, config: Option<RateLimitConfig>, now: real)
      reads this
    {
      PermittedBy(LedgerOf(p), config, now)
    }

    constructor (clock: real)
      ensures Valid() && this.clock == clock
      ensures forall p :: At(minuteGrants, p) == [] && At(hourGrants, p) == [] && CooldownUntil(p) == 0.0
    {
      minuteWindows, hourWindows, cooldowns := map[], map[], map[];
      totalThrottled, cooldownCounts := map[], map[];
      minuteGrants, hourGrants := map[], map[];
      this.clock := clock;
    }
  
    /** One more refusal counted for `p`, or none. */
    twostate predicate Counted(p: string, refused: bool)
      reads this
    {
      forall x :: Count(totalThrottled, x) == Count(old(totalThrottled), x) + (if x == p && refused then 1 else 0)
    }

    ghost predicate RightWait(p: string, config: Option<RateLimitConfig>, now: real, wait: real)
      reads this
    {
      WaitFor(LedgerOf(p), config, now, wait)
    }

    method Throttle(p: string)
      modifies this`totalThrottled
      ensures Counted(p, true)
    {
      totalThrottled := totalThrottled[p := Count(totalThrottled, p) + 1];
    }

    method PurgeMinute(p: string, now: real) returns (q: seq<real>)
      requires AllTrack(minuteWindows, minuteGrants, MINUTE, now)
      modifies this`minuteWindows
      ensures minuteWindows == old(minuteWindows)[p := q] && AllTrack(minuteWindows, minuteGrants, MINUTE, now)
      ensures Tracks(q, At(minuteGrants, p), MINUTE, now) && (q != [] ==> now - q[0] <= MINUTE)
    {
      hide Tracks, AllTrack;
      OneTracks(minuteWindows, minuteGrants, MINUTE, now, p);
      q := Purge(At(minuteWindows, p), now, MINUTE, At(minuteGrants, p), now);
      TrackOne(minuteWindows, minuteGrants, MINUTE, now, p, q, At(minuteGrants, p));
      minuteWindows := minuteWindows[p := q];
    }

    method PurgeHour(p: string, now: real) returns (q: seq<real>)
      requires AllTrack(hourWindows, hourGrants, HOUR, now)
      modifies this`hourWindows
      ensures hourWindows == old(hourWindows)[p := q] && AllTrack(hourWindows, hourGrants, HOUR, now)
      ensures Tracks(q, At(hourGrants, p), HOUR, now) && (q != [] ==> now - q[0] <= HOUR)
    {
      hide Tracks, AllTrack;
      OneTracks(hourWindows, hourGrants, HOUR, now, p);
      q := Purge(At(hourWindows, p), now, HOUR, At(hourGrants, p), now);
      TrackOne(hourWindows, hourGrants, HOUR, now, p, q, At(hourGrants, p));
      hourWindows := hourWindows[p := q];
    }

    method CheckLimit(p: string, config: Option<RateLimitConfig>, now: real) returns (allowed: bool, wait: Option<real>)
      requires Valid() && now >= clock
      modifies this
      ensures Valid() && clock == now
      ensures allowed <==> old(Permits(p, config, now))
      ensures config.None? ==> (allowed <==> now >= old(CooldownUntil(p)))
      ensures wait.None? <==> allowed
      ensures !allowed ==> old(RightWait(p, config, now, wait.value))
      ensures minuteGrants == old(minuteGrants) && hourGrants == old(hourGrants) && cooldowns == old(cooldowns)
      ensures Counted(p, !allowed)
    {
      hide AllTrack, Tracks, WithinQuota, FirstWithin;
      NoQuota(At(minuteGrants, p), MINUTE, now);
      NoQuota(At(hourGrants, p), HOUR, now);
      AllTrackLater(minuteWindows, minuteGrants, MINUTE, clock, now);
      AllTrackLater(hourWindows, hourGrants, HOUR, clock, now);
      clock := now;
      if now < CooldownUntil(p) {
        Throttle(p);
        return false, Some(CooldownUntil(p) - now);
      }
      if config.None? {
        return true, None;
      }
      if config.value.perMinute.Some? {
        var q := PurgeMinute(p, now);
        PurgedDecides(q, At(minuteGrants, p), config.value.perMinute.value, MINUTE, now);
        if |q| >= config.value.perMinute.value {
          Throttle(p);
          return false, Some(Max(0.1, MINUTE - (now - q[0])));
        }
      }
      if config.value.perHour.Some? {
        var q := PurgeHour(p, now);
        PurgedDecides(q, At(hourGrants, p), config.value.perHour.value, HOUR, now);
        if |q| >= config.value.perHour.value {
          Throttle(p);
          return false, Some(Max(0.1, HOUR - (now - q[0])));
        }
      }
      return true, None;
    }
  
    method RecordMinute(p: string, now: real)
      requires AllTrack(minuteWindows, minuteGrants, MINUTE, now)
      modifies this`minuteWindows, this`minuteGrants
      ensures minuteWindows == old(minuteWindows)[p := At(old(minuteWindows), p) + [now]]
      ensures minuteGrants == old(minuteGrants)[p := At(old(minuteGrants), p) + [now]]
      ensures AllTrack(minuteWindows, minuteGrants, MINUTE, now)
    {
      hide Tracks, AllTrack;
      OneTracks(minuteWindows, minuteGrants, MINUTE, now, p);
      GrantTracked(At(minuteWindows, p), At(minuteGrants, p), MINUTE, now);
      TrackOne(minuteWindows, minuteGrants, MINUTE, now, p, At(minuteWindows, p) + [now], At(minuteGrants, p) + [now]);
      minuteWindows := minuteWindows[p := At(minuteWindows, p) + [now]];
      minuteGrants := minuteGrants[p := At(minuteGrants, p) + [now]];
    }

    method RecordHour(p: string, now: real)
      requires AllTrack(hourWindows, hourGrants, HOUR, now)
      modifies this`hourWindows, this`hourGrants
      ensures hourWindows == old(hourWindows)[p := At(old(hourWindows), p) + [now]]
      ensures hourGrants == old(hourGrants)[p := At(old(hourGrants), p) + [now]]
      ensures AllTrack(hourWindows, hourGrants, HOUR, now)
    {
      hide Tracks, AllTrack;
      OneTracks(hourWindows, hourGrants, HOUR, now, p);
      GrantTracked(At(hourWindows, p), At(hourGrants, p), HOUR, now);
      TrackOne(hourWindows, hourGrants, HOUR, now, p, At(hourWindows, p) + [now], At(hourGrants, p) + [now]);
      hourWindows := hourWindows[p := At(hourWindows, p) + [now]];
      hourGrants := hourGrants[p := At(hourGrants, p) + [now]];
    }

    /** The two quota checks of an acquisition. */
    method HasRoom(p: string, config: RateLimitConfig, now: real) returns (room: bool)
      requires AllTrack(minuteWindows, minuteGrants, MINUTE, now) && AllTrack(hourWindows, hourGrants, HOUR, now)
      modifies this`minuteWindows, this`hourWindows
      ensures AllTrack(minuteWindows, minuteGrants, MINUTE, now) && AllTrack(hourWindows, hourGrants, HOUR, now)
      ensures room <==> WithinQuota(At(minuteGrants, p), config.perMinute, MINUTE, now)
                        && WithinQuota(At(hourGrants, p), config.perHour, HOUR, now)
    {
      hide AllTrack, Tracks, WithinQuota, FirstWithin;
      NoQuota(At(minuteGrants, p), MINUTE, now);
      NoQuota(At(hourGrants, p), HOUR, now);
      if config.perMinute.Some? {
        var q := PurgeMinute(p, now);
        PurgedDecides(q, At(minuteGrants, p), config.perMinute.value, MINUTE, now);
        if |q| >= config.perMinute.value {
          return false;
        }
      }
      if config.perHour.Some? {
        var q := PurgeHour(p, now);
        PurgedDecides(q, At(hourGrants, p), config.perHour.value, HOUR, now);
        if |q| >= config.perHour.value {
          return false;
        }
      }
      return true;
    }

    method Acquire(p: string, config: Option<RateLimitConfig>, now: real) returns (ok: bool)
      requires Valid() && now >= clock
      modifies this
      ensures Valid() && clock == now
      ensures ok <==> old(Permits(p, config, now))
      ensures minuteGrants == if ok && config.Some? && config.value.perMinute.Some?
                              then old(minuteGrants)[p := At(old(minuteGrants), p) + [now]] else old(minuteGrants)
      ensures hourGrants == if ok && config.Some? && config.value.perHour.Some?
                            then old(hourGrants)[p := At(old(hourGrants), p) + [now]] else old(hourGrants)
      ensures cooldowns == old(cooldowns) && Counted(p, !ok)
      ensures config.Some? ==>
                var stepped := Step(old(LedgerOf(p)), config.value, AcquireAt(now));
                LedgerOf(p) == stepped.(granted := []) && (ok <==> stepped.granted == [now])
    {
      hide AllTrack, Tracks, WithinQuota, FirstWithin;
      AllTrackLater(minuteWindows, minuteGrants, MINUTE, clock, now);
      AllTrackLater(hourWindows, hourGrants, HOUR, clock, now);
      clock := now;
      if now < CooldownUntil(p) {
        Throttle(p);
        return false;
      }
      if config.None? {
        return true;
      }
      var room := HasRoom(p, config.value, now);
      if !room {
        Throttle(p);
        return false;
      }
      if config.value.perMinute.Some? {
        RecordMinute(p, now);
      }
      if config.value.perHour.Some? {
        RecordHour(p, now);
      }
      return true;
    }

    /** Sets the cooldown to end `duration` from now, whatever it was before. */
    method RecordRateLimit(p: string, retryAfter: Option<real>, defaultCooldown: real, now: real) returns (duration: real)
      requires Valid() && now >= clock
      modifies this
      ensures Valid() && clock == now
      ensures duration == if retryAfter.Some? && retryAfter.value > 0.0 then retryAfter.value else defaultCooldown
      ensures CooldownUntil(p) == now + duration && forall x :: x != p ==> CooldownUntil(x) == old(CooldownUntil(x))
      ensures minuteGrants == old(minuteGrants) && hourGrants == old(hourGrants)
      ensures forall x :: Count(cooldownCounts, x) == Count(old(cooldownCounts), x) + (if x == p then 1 else 0)
      ensures forall config :: LedgerOf(p) == Step(old(LedgerOf(p)), config, RateLimitedAt(now, duration))
    {
      hide AllTrack, WithinQuota;
      AllTrackLater(minuteWindows, minuteGrants, MINUTE, clock, now);
      AllTrackLater(hourWindows, hourGrants, HOUR, clock, now);
      duration := if retryAfter.Some? && retryAfter.value > 0.0 then retryAfter.value else defaultCooldown;
      cooldowns := cooldowns[p := now + duration];
      cooldownCounts := cooldownCounts[p := Count(cooldownCounts, p) + 1];
      clock := now;
    }
  }

  /** One operation of a run on a single provider under one configuration. */
  datatype Op = AcquireAt(now: real) | RateLimitedAt(now: real, duration: real)

  datatype Ledger = Ledger(minute: seq<real>, hour: seq<real>, granted: seq<real>, cooldownUntil: real)

  /** The wait a refusal advertises: the rest of the cooldown or, under the first quota that has
      no room, what is left of the oldest grant that counts, but at least a tenth of a second. */
  ghost predicate WaitFor(l: Ledger, config: Option<RateLimitConfig>, now: real, wait: real) {
    if now < l.cooldownUntil then wait == l.cooldownUntil - now
    else
      config.Some? &&
      if !WithinQuota(l.minute, config.value.perMinute, MINUTE, now) then
        exists t :: FirstWithin(l.minute, MINUTE, now, t) && wait == Max(0.1, MINUTE - (now - t))
      else
        exists t :: FirstWithin(l.hour, HOUR, now, t) && wait == Max(0.1, HOUR - (now - t))
  }

  predicate Allows(l: Ledger, config: RateLimitConfig, now: real) {
    && now >= l.cooldownUntil
    && WithinQuota(l.minute, config.perMinute, MINUTE, now)
    && WithinQuota(l.hour, config.perHour, HOUR, now)
  }

  /** Without a configuration only the cooldown counts. */
  predicate PermittedBy(l: Ledger, config: Option<RateLimitConfig>, now: real) {
    if config.Some? then Allows(l, config.value, now) else now >= l.cooldownUntil
  }

  /** What is permitted stays permitted until something is granted or refused. */
  lemma PermittedLater(l: Ledger, config: Option<RateLimitConfig>, now: real, later: real)
    requires PermittedBy(l, config, now) && now <= later
    ensures PermittedBy(l, config, later)
  {
  }

  /** What `Acquire` and `RecordRateLimit` do to one provider's grants and cooldown. */
  function Step(l: Ledger, config: RateLimitConfig, op: Op): Ledger {
    match op
    case AcquireAt(now) =>
      if Allows(l, config, now)
      then Ledger(Granted(l.minute, config.perMinute, now), Granted(l.hour, config.perHour, now), l.granted + [now], l.cooldownUntil)
      else l
    case RateLimitedAt(now, duration) => l.(cooldownUntil := now + duration)
  }

  function Run(config: RateLimitConfig, ops: seq<Op>): Ledger {
    if ops == [] then Ledger([], [], [], 0.0) else Step(Run(config, ops[..|ops| - 1]), config, ops[|ops| - 1])
  }

  ghost predicate Spaced(h: seq<real>, n: Option<Quota>, span: real) {
    n.Some? ==> forall j :: n.value <= j < |h| ==> h[j] - h[j - n.value] > span
  }

  lemma GrantSpaces(h: seq<real>, n: Option<Quota>, span: real, now: real)
    requires Ordered(h) && Past(h, now) && Spaced(h, n, span) && WithinQuota(h, n, span, now)
    ensures Ordered(h + [now]) && Past(h + [now], now) && Spaced(h + [now], n, span)
  {
  }

  /** Under one configuration each quota's grants are all the grants, ordered and spaced. */
  lemma {:induction false} RunSpaced(config: RateLimitConfig, ops: seq<Op>)
    requires forall i, j :: 0 <= i < j < |ops| ==> ops[i].now <= ops[j].now
    ensures var l := Run(config, ops);
            && Ordered(l.granted) && (ops != [] ==> Past(l.granted, ops[|ops| - 1].now))
            && (config.perMinute.Some? ==> l.minute == l.granted) && (config.perHour.Some? ==> l.hour == l.granted)
            && Spaced(l.granted, config.perMinute, MINUTE) && Spaced(l.granted, config.perHour, HOUR)
    decreases |ops|
  {
    if ops != [] {
      var front, now := ops[..|ops| - 1], ops[|ops| - 1].now;
      RunSpaced(config, front);
      var l := Run(config, front);
      assert Past(l.granted, now);
      if ops[|ops| - 1].AcquireAt? && Allows(l, config, now) {
        NoQuota(l.granted, MINUTE, now);
        NoQuota(l.granted, HOUR, now);
        GrantSpaces(l.granted, config.perMinute, MINUTE, now);
        GrantSpaces(l.granted, config.perHour, HOUR, now);
      }
      hide WithinQuota, Spaced, Past, Ordered;
    }
  }

  lemma SpacedBound(h: seq<real>, n: Quota, span: real, start: real)
    requires Ordered(h) && Spaced(h, Some(n), span)
    ensures CountIf(h, Closed(start, start + span)) <= n
  {
    forall i, j | 0 <= i < j < |h| && j - i >= n
      ensures h[j] - h[i] > span
    {
      assert h[j] - h[j - n] > span && (i == j - n || h[i] <= h[j - n]);
    }
    CountFits(h, Closed(start, start + span), n);
  }

  /** Over every run with a nondecreasing clock, no closed minute holds more grants than
      the per-minute quota, and no closed hour more than the per-hour quota. */
  lemma QuotasHold(config: RateLimitConfig, ops: seq<Op>, start: real)
    requires forall i, j :: 0 <= i < j < |ops| ==> ops[i].now <= ops[j].now
    ensures config.perMinute.Some? ==>
              CountIf(Run(config, ops).granted, Closed(start, start + MINUTE)) <= config.perMinute.value
    ensures config.perHour.Some? ==>
              CountIf(Run(config, ops).granted, Closed(start, start + HOUR)) <= config.perHour.value
  {
    hide Run, Spaced, Ordered, CountIf, Closed, Past;
    RunSpaced(config, ops);
    if config.perMinute.Some? {
      SpacedBound(Run(config, ops).granted, config.perMinute.value, MINUTE, start);
    }
    if config.perHour.Some? {
      SpacedBound(Run(config, ops).granted, config.perHour.value, HOUR, start);
    }
  }

  /** The end of the cooldown that a run's last refusal set. */
  function CooledUntil(ops: seq<Op>): real {
    if ops == [] then 0.0
    else
      var last := ops[|ops| - 1];
      if last.RateLimitedAt? then last.now + last.duration else CooledUntil(ops[..|ops| - 1])
  }

  lemma {:induction false} RunCools(config: RateLimitConfig, ops: seq<Op>)
    ensures Run(config, ops).cooldownUntil == CooledUntil(ops)
  {
    hide Allows, Granted;
    if ops != [] {
      RunCools(config, ops[..|ops| - 1]);
    }
  }

  lemma QuotaCounts(h: seq<real>, n: Option<Quota>, span: real, now: real)
    requires Ordered(h) && Past(h, now)
    ensures WithinQuota(h, n, span, now) <==> (n.Some? ==> CountIf(h, Closed(now - span, now)) < n.value)
  {
    if n.Some? {
      forall i, j | 0 <= i <= j < |h| && Closed(now - span, now)(h[i])
        ensures Closed(now - span, now)(h[j])
      {
        assert i == j || h[i] <= h[j];
      }
      CountReaches(h, Closed(now - span, now), n.value);
    }
  }

  /** Over every run with a nondecreasing clock, a request is granted exactly if the last cooldown has
      ended and the grants of the closed minute and hour up to it leave room in both quotas. */
  lemma GrantedExactly(config: RateLimitConfig, ops: seq<Op>, now: real)
    requires forall i, j :: 0 <= i < j < |ops| ==> ops[i].now <= ops[j].now
    requires ops == [] || ops[|ops| - 1].now <= now
    ensures var granted := Run(config, ops).granted;
            Run(config, ops + [AcquireAt(now)]).granted
            == if && now >= CooledUntil(ops)
                  && (config.perMinute.Some? ==> CountIf(granted, Closed(now - 60.0, now)) < config.perMinute.value)
                  && (config.perHour.Some? ==> CountIf(granted, Closed(now - 3600.0, now)) < config.perHour.value)
               then granted + [now] else granted
    ensures PermittedBy(Run(config, ops), Some(config), now) <==> Run(config, ops + [AcquireAt(now)]).granted != Run(config, ops).granted
    ensures PermittedBy(Run(config, ops), None, now) <==> now >= CooledUntil(ops)
  {
    hide WithinQuota, Past, Ordered, CountIf, Spaced, CooledUntil, Run;
    RunSpaced(config, ops);
    RunCools(config, ops);
    RunStep(config, ops, AcquireAt(now));
    var granted := Run(config, ops).granted;
    if ops != [] {
      PastLater(granted, ops[|ops| - 1].now, now);
    } else {
      NothingGranted(config, now);
    }
    QuotaCounts(granted, config.perMinute, 60.0, now);
    QuotaCounts(granted, config.perHour, 3600.0, now);
    NoQuota(Run(config, ops).minute, MINUTE, now);
    NoQuota(Run(config, ops).hour, HOUR, now);
    assert |granted + [now]| != |granted|;
  }

  lemma PastLater(h: seq<real>, now: real, later: real)
    requires Past(h, now) && now <= later
    ensures Past(h, later)
  {
  }

  lemma NothingGranted(config: RateLimitConfig, now: real)
    ensures Past(Run(config, []).granted, now)
  {
  }

  lemma RunStep(config: RateLimitConfig, ops: seq<Op>, op: Op)
    ensures Run(config, ops + [op]) == Step(Run(config, ops), config, op)
  {
    assert (ops + [op])[..|ops + [op]| - 1] == ops;
  }

  /** While the cooldown of the provider's last refusal runs, nothing is granted, whatever
      else is attempted in between. A later refusal replaces the cooldown, even by a shorter one. */
  lemma {:induction false} NoGrantInCooldown(config: RateLimitConfig, ops: seq<Op>, i: nat)
    requires i < |ops| && ops[i].RateLimitedAt?
    requires forall j :: i < j < |ops| ==> ops[j].AcquireAt? && ops[j].now < ops[i].now + ops[i].duration
    ensures Run(config, ops).granted == Run(config, ops[..i]).granted
    ensures Run(config, ops).cooldownUntil == ops[i].now + ops[i].duration
    decreases |ops|
  {
    hide WithinQuota;
    var front := ops[..|ops| - 1];
    if i < |ops| - 1 {
      NoGrantInCooldown(config, front, i);
      assert front[..i] == ops[..i];
    }
  }

  /** When the quota is spent, the oldest grant that counts is the one `n` places from the end. */
  lemma OldestCounting(h: seq<real>, n: Quota, span: real, now: real, t: real)
    requires Ordered(h) && Past(h, now) && Spaced(h, Some(n), span)
    requires !WithinQuota(h, Some(n), span, now) && FirstWithin(h, span, now, t)
    ensures |h| >= n && t == h[|h| - n]
  {
    forall i | 0 <= i < |h| - n
      ensures now - h[i] > span
    {
      assert h[i + n] - h[i + n - n] > span;
    }
  }

  /** Waiting until that grant is exactly a span old is not enough. */
  lemma WaitFallsShort(h: seq<real>, n: Quota, span: real, now: real, wait: real)
    requires |h| >= n && now - h[|h| - n] <= span && wait == Max(0.1, span - (now - h[|h| - n]))
    ensures WithinQuota(h, Some(n), span, now + wait) <==> span - (now - h[|h| - n]) < 0.1
  {
  }

  /** The quota that decides: the minute's if it has no room, else the hour's. */
  function Deciding(l: Ledger, config: RateLimitConfig, now: real): (Option<Quota>, real) {
    if !WithinQuota(l.minute, config.perMinute, MINUTE, now) then (config.perMinute, MINUTE) else (config.perHour, HOUR)
  }

  /** The wait advertised for a spent quota falls just short: on every run under one
      configuration, it is the remaining time of the grant `n` places from the end, and a caller
      who returns after it with no call in between passes that quota if and only if it was the
      floor of a tenth of a second instead. A cooldown, on the other hand, is over when its wait is. */
  lemma AdvertisedWait(config: RateLimitConfig, ops: seq<Op>, now: real, wait: real)
    requires forall i, j :: 0 <= i < j < |ops| ==> ops[i].now <= ops[j].now
    requires ops != [] ==> ops[|ops| - 1].now <= now
    requires !Allows(Run(config, ops), config, now) && WaitFor(Run(config, ops), Some(config), now, wait)
    ensures var l := Run(config, ops);
            if now < l.cooldownUntil then now + wait == l.cooldownUntil
            else
              var (n, span) := Deciding(l, config, now);
              && n.Some? && |l.granted| >= n.value
              && var left := span - (now - l.granted[|l.granted| - n.value]);
              && wait == Max(0.1, left)
              && (WithinQuota(l.granted, n, span, now + wait) <==> left < 0.1)
              && (left >= 0.1 ==> !Allows(l, config, now + wait))
  {
    hide Run, Spaced, Ordered, Past, FirstWithin, WithinQuota;
    var l := Run(config, ops);
    RunSpaced(config, ops);
    GrantsPast(config, ops, now);
    NoQuota(l.minute, MINUTE, now);
    NoQuota(l.hour, HOUR, now);
    if now >= l.cooldownUntil {
      if !WithinQuota(l.minute, config.perMinute, MINUTE, now) {
        QuotaWait(l.granted, config.perMinute.value, MINUTE, now, wait);
      } else {
        QuotaWait(l.granted, config.perHour.value, HOUR, now, wait);
      }
    }
  }

  lemma QuotaWait(h: seq<real>, n: Quota, span: real, now: real, wait: real)
    requires Ordered(h) && Past(h, now) && Spaced(h, Some(n), span) && !WithinQuota(h, Some(n), span, now)
    requires exists t :: FirstWithin(h, span, now, t) && wait == Max(0.1, span - (now - t))
    ensures |h| >= n
    ensures var left := span - (now - h[|h| - n]);
            wait == Max(0.1, left) && (WithinQuota(h, Some(n), span, now + wait) <==> left < 0.1)
  {
    hide Spaced, Ordered, Past, FirstWithin, WithinQuota, Max;
    var t :| FirstWithin(h, span, now, t) && wait == Max(0.1, span - (now - t));
    OldestCounting(h, n, span, now, t);
    SpentIsRecent(h, n, span, now);
    WaitFallsShort(h, n, span, now, wait);
  }

  lemma SpentIsRecent(h: seq<real>, n: Quota, span: real, now: real)
    requires !WithinQuota(h, Some(n), span, now)
    ensures |h| >= n && now - h[|h| - n] <= span
  {
  }

  lemma GrantsPast(config: RateLimitConfig, ops: seq<Op>, now: real)
    requires forall i, j :: 0 <= i < j < |ops| ==> ops[i].now <= ops[j].now
    requires ops != [] ==> ops[|ops| - 1].now <= now
    ensures Past(Run(config, ops).granted, now)
  {
    hide WithinQuota, Spaced, Ordered, Step;
    RunSpaced(config, ops);
  }
}
