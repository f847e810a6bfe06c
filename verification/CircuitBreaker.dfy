/** The per-provider circuit breaker. Times are in seconds. */
module CircuitBreaker {
  import opened Results

  datatype CircuitState = CLOSED | OPEN | HALF_OPEN

  datatype Config = Config(failureThreshold: nat, cooldown: real, successThreshold: nat)

  /** What the configuration's own validation guarantees. */
  predicate Proper(cfg: Config) {
    cfg.failureThreshold >= 1 && cfg.cooldown > 0.0 && cfg.successThreshold >= 1
  }

  datatype Circuit = Circuit(
    state: CircuitState,
    failures: nat,
    successes: nat,
    lastFailure: Option<real>,
    lastChange: real,
    totalTrips: nat)

  function Fresh(now: real): Circuit {
    Circuit(CLOSED, 0, 0, None, now, 0)
  }

  function Poll(c: Circuit, cfg: Config, now: real): Circuit {
    if c.state == OPEN && now - c.lastChange >= cfg.cooldown then c.(state := HALF_OPEN, lastChange := now, successes := 0)
    else c
  }

  /** The transition made by the diagnostic call, which leaves the success count alone. */
  function StatusPoll(c: Circuit, cfg: Config, now: real): Circuit {
    if c.state == OPEN && now - c.lastChange >= cfg.cooldown then c.(state := HALF_OPEN, lastChange := now) else c
  }

  function Succeed(c: Circuit, cfg: Config, now: real): Circuit {
    match c.state
    case HALF_OPEN =>
      if c.successes + 1 >= cfg.successThreshold
      then c.(state := CLOSED, failures := 0, successes := 0, lastChange := now)
      else c.(successes := c.successes + 1)
    case CLOSED => c.(failures := 0)
    case OPEN => c
  }

  function Fail(c: Circuit, cfg: Config, now: real): Circuit {
    var c := c.(lastFailure := Some(now), failures := c.failures + 1);
    match c.state
    case HALF_OPEN => c.(state := OPEN, lastChange := now, successes := 0, totalTrips := c.totalTrips + 1)
    case CLOSED =>
      if c.failures >= cfg.failureThreshold then c.(state := OPEN, lastChange := now, totalTrips := c.totalTrips + 1) else c
    case OPEN => c
  }

  datatype Op = PollAt(now: real) | StatusAt(now: real) | SuccessAt(now: real) | FailureAt(now: real)

  function Step(c: Circuit, cfg: Config, op: Op): Circuit {
    match op
    case PollAt(now) => Poll(c, cfg, now)
    case StatusAt(now) => StatusPoll(c, cfg, now)
    case SuccessAt(now) => Succeed(c, cfg, now)
    case FailureAt(now) => Fail(c, cfg, now)
  }

  function Run(cfg: Config, created: real, ops: seq<Op>): Circuit {
    if ops == [] then Fresh(created) else Step(Run(cfg, created, ops[..|ops| - 1]), cfg, ops[|ops| - 1])
  }

  /** The instants at which the circuit tripped, oldest first. */
  function Trips(cfg: Config, created: real, ops: seq<Op>): seq<real> {
    if ops == [] then []
    else
      var front := ops[..|ops| - 1];
      Trips(cfg, created, front)
      + if Run(cfg, created, ops).totalTrips > Run(cfg, created, front).totalTrips then [ops[|ops| - 1].now] else []
  }

  ghost predicate ClockRuns(created: real, ops: seq<Op>) {
    && (forall i :: 0 <= i < |ops| ==> created <= ops[i].now)
    && (forall i, j :: 0 <= i < j < |ops| ==> ops[i].now <= ops[j].now)
  }

  function Clock(created: real, ops: seq<Op>): real {
    if ops == [] then created else ops[|ops| - 1].now
  }

  /** The state of a circuit in terms of the trips behind it. */
  ghost predicate Consistent(c: Circuit, cfg: Config, trips: seq<real>, created: real, clock: real) {
    && (c.state == CLOSED <==> c.failures < cfg.failureThreshold)
    && (c.state != HALF_OPEN ==> c.successes == 0)
    && c.successes < cfg.successThreshold
    && c.totalTrips == |trips|
    && created <= c.lastChange <= clock
    && (forall i :: 0 <= i < |trips| ==> created <= trips[i] <= clock)
    && (forall i :: 0 <= i < |trips| - 1 ==> trips[i + 1] - trips[i] >= cfg.cooldown)
    && (c.state == OPEN ==> trips != [] && c.lastChange == trips[|trips| - 1])
    && (c.state != OPEN && trips != [] ==> c.lastChange - trips[|trips| - 1] >= cfg.cooldown)
  }

  lemma PollConsistent(c: Circuit, cfg: Config, trips: seq<real>, created: real, clock: real, now: real)
    requires Proper(cfg) && Consistent(c, cfg, trips, created, clock) && clock <= now
    ensures Consistent(Poll(c, cfg, now), cfg, trips, created, now) && Consistent(StatusPoll(c, cfg, now), cfg, trips, created, now)
    ensures Poll(c, cfg, now).totalTrips == StatusPoll(c, cfg, now).totalTrips == c.totalTrips
  {
  }

  lemma SuccessConsistent(c: Circuit, cfg: Config, trips: seq<real>, created: real, clock: real, now: real)
    requires Proper(cfg) && Consistent(c, cfg, trips, created, clock) && clock <= now
    ensures Consistent(Succeed(c, cfg, now), cfg, trips, created, now) && Succeed(c, cfg, now).totalTrips == c.totalTrips
  {
  }

  lemma FailureConsistent(c: Circuit, cfg: Config, trips: seq<real>, created: real, clock: real, now: real)
    requires Proper(cfg) && Consistent(c, cfg, trips, created, clock) && clock <= now
    ensures var c' := Fail(c, cfg, now);
            Consistent(c', cfg, trips + (if c'.totalTrips > c.totalTrips then [now] else []), created, now)
  {
  }

  lemma StepConsistent(c: Circuit, cfg: Config, trips: seq<real>, created: real, clock: real, op: Op)
    requires Proper(cfg) && Consistent(c, cfg, trips, created, clock) && clock <= op.now
    ensures var c' := Step(c, cfg, op);
            Consistent(c', cfg, trips + (if c'.totalTrips > c.totalTrips then [op.now] else []), created, op.now)
  {
    hide Consistent, Poll, StatusPoll, Succeed, Fail;
    assert trips + [] == trips;
    match op
    case PollAt(now) => PollConsistent(c, cfg, trips, created, clock, now);
    case StatusAt(now) => PollConsistent(c, cfg, trips, created, clock, now);
    case SuccessAt(now) => SuccessConsistent(c, cfg, trips, created, clock, now);
    case FailureAt(now) => FailureConsistent(c, cfg, trips, created, clock, now);
  }

  /** Over every run with a fixed configuration: CLOSED exactly while the consecutive
      failures are below the threshold, no success counted outside HALF_OPEN, and trips at
      least a cooldown apart. */
  lemma {:induction false} RunConsistent(cfg: Config, created: real, ops: seq<Op>)
    requires Proper(cfg) && ClockRuns(created, ops)
    ensures Consistent(Run(cfg, created, ops), cfg, Trips(cfg, created, ops), created, Clock(created, ops))
    decreases |ops|
  {
    if ops != [] {
      var front := ops[..|ops| - 1];
      RunConsistent(cfg, created, front);
      StepConsistent(Run(cfg, created, front), cfg, Trips(cfg, created, front), created, Clock(created, front), ops[|ops| - 1]);
    }
  }

  /** A call is permitted exactly when the cooldown of the last trip is over, whatever
      calls and reports came in between. */
  lemma CallsOutsideCooldowns(cfg: Config, created: real, ops: seq<Op>, now: real)
    requires Proper(cfg) && ClockRuns(created, ops) && Clock(created, ops) <= now
    ensures var trips := Trips(cfg, created, ops);
            Poll(Run(cfg, created, ops), cfg, now).state != OPEN
            <==> trips == [] || now - trips[|trips| - 1] >= cfg.cooldown
  {
    hide Run, Trips, Consistent, Poll;
    RunConsistent(cfg, created, ops);
    ConsistentPermits(Run(cfg, created, ops), cfg, Trips(cfg, created, ops), created, Clock(created, ops), now);
  }

  lemma ConsistentPermits(c: Circuit, cfg: Config, trips: seq<real>, created: real, clock: real, now: real)
    requires Consistent(c, cfg, trips, created, clock) && clock <= now
    ensures Poll(c, cfg, now).state != OPEN <==> trips == [] || now - trips[|trips| - 1] >= cfg.cooldown
  {
  }

  /** The diagnostic call and the state check make the same transition. */
  lemma StatusAgrees(cfg: Config, created: real, ops: seq<Op>, now: real)
    requires Proper(cfg) && ClockRuns(created, ops)
    ensures StatusPoll(Run(cfg, created, ops), cfg, now) == Poll(Run(cfg, created, ops), cfg, now)
  {
    RunConsistent(cfg, created, ops);
  }

  function Continue(c: Circuit, cfg: Config, ops: seq<Op>): Circuit {
    if ops == [] then c else Step(Continue(c, cfg, ops[..|ops| - 1]), cfg, ops[|ops| - 1])
  }

  /** From a circuit just closed, a row of failures trips it at the threshold, not before. */
  lemma {:induction false} FailuresTrip(c: Circuit, cfg: Config, ops: seq<Op>)
    requires Proper(cfg) && c.state == CLOSED && c.failures == 0
    requires forall i :: 0 <= i < |ops| ==> ops[i].FailureAt?
    ensures var c' := Continue(c, cfg, ops);
            && c'.failures == |ops|
            && c'.state == (if |ops| < cfg.failureThreshold then CLOSED else OPEN)
            && c'.totalTrips == c.totalTrips + (if |ops| < cfg.failureThreshold then 0 else 1)
            && (|ops| >= cfg.failureThreshold ==> c'.lastChange == ops[cfg.failureThreshold - 1].now)
    decreases |ops|
  {
    if ops != [] {
      FailuresTrip(c, cfg, ops[..|ops| - 1]);
    }
  }

  /** From a circuit just half open, a row of successes closes it at the threshold, not
      before; one failure before that opens it again for a whole cooldown. */
  lemma {:induction false} ProbesClose(c: Circuit, cfg: Config, ops: seq<Op>, now: real)
    requires Proper(cfg) && c.state == HALF_OPEN && c.successes == 0
    requires forall i :: 0 <= i < |ops| ==> ops[i].SuccessAt?
    ensures var c' := Continue(c, cfg, ops);
            if |ops| < cfg.successThreshold then
              && c'.state == HALF_OPEN && c'.successes == |ops|
              && Fail(c', cfg, now).state == OPEN && Fail(c', cfg, now).lastChange == now
            else c'.state == CLOSED && c'.failures == 0 && c'.successes == 0 && c'.lastChange == ops[cfg.successThreshold - 1].now
    decreases |ops|
  {
    if ops != [] {
      ProbesClose(c, cfg, ops[..|ops| - 1], now);
    }
  }

  /** A half-open circuit permits any number of calls: until one reports, nothing changes. */
  lemma {:induction false} HalfOpenPermitsAll(c: Circuit, cfg: Config, ops: seq<Op>)
    requires c.state == HALF_OPEN && forall i :: 0 <= i < |ops| ==> ops[i].PollAt? || ops[i].StatusAt?
    ensures Continue(c, cfg, ops) == c
    decreases |ops|
  {
    if ops != [] {
      HalfOpenPermitsAll(c, cfg, ops[..|ops| - 1]);
    }
  }

  lemma {:induction false} RunContinued(cfg: Config, created: real, front: seq<Op>, ops: seq<Op>)
    ensures Run(cfg, created, front + ops) == Continue(Run(cfg, created, front), cfg, ops)
    decreases |ops|
  {
    if ops == [] {
      assert front + ops == front;
    } else {
      var n := |ops| - 1;
      assert (front + ops)[..|front + ops| - 1] == front + ops[..n];
      RunContinued(cfg, created, front, ops[..n]);
    }
  }

  lemma FirstProbe(cfg: Config, created: real, failures: seq<Op>, poll: Op)
    requires Proper(cfg) && |failures| == cfg.failureThreshold && forall i :: 0 <= i < |failures| ==> failures[i].FailureAt?
    requires poll.PollAt? && poll.now - failures[|failures| - 1].now >= cfg.cooldown
    ensures Run(cfg, created, failures + [poll]).state == HALF_OPEN
  {
    hide Continue;
    RunContinued(cfg, created, [], failures);
    assert Run(cfg, created, []) == Fresh(created);
    assert [] + failures == failures;
    FailuresTrip(Fresh(created), cfg, failures);
    assert (failures + [poll])[..|failures|] == failures;
  }

  /** So, whatever the configuration, a run that trips and waits out the cooldown is permitted
      every call it then makes without reporting, not a single probe. */
  lemma ManyProbes(cfg: Config, created: real, failures: seq<Op>, polls: seq<Op>)
    requires Proper(cfg) && |failures| == cfg.failureThreshold && forall i :: 0 <= i < |failures| ==> failures[i].FailureAt?
    requires polls != [] && forall i :: 0 <= i < |polls| ==> polls[i].PollAt?
    requires polls[0].now - failures[|failures| - 1].now >= cfg.cooldown
    ensures forall k :: 1 <= k <= |polls| ==> Run(cfg, created, failures + polls[..k]).state == HALF_OPEN
  {
    var half := failures + [polls[0]];
    FirstProbe(cfg, created, failures, polls[0]);
    hide Run, Continue;
    forall k | 1 <= k <= |polls|
      ensures Run(cfg, created, failures + polls[..k]).state == HALF_OPEN
    {
      RunContinued(cfg, created, half, polls[1..k]);
      HalfOpenPermitsAll(Run(cfg, created, half), cfg, polls[1..k]);
      assert half + polls[1..k] == failures + polls[..k];
    }
  }

  // ----- what the counters count

  /** The successes and failures reported, polls aside. */
  function Reports(ops: seq<Op>): seq<Op> {
    if ops == [] then []
    else Reports(ops[..|ops| - 1]) + (if ops[|ops| - 1].SuccessAt? || ops[|ops| - 1].FailureAt? then [ops[|ops| - 1]] else [])
  }

  /** How many failures were reported since the last success, or since creation. */
  function FailuresInARow(ops: seq<Op>): nat {
    if ops == [] then 0
    else
      match ops[|ops| - 1]
      case FailureAt(_) => FailuresInARow(ops[..|ops| - 1]) + 1
      case SuccessAt(_) => 0
      case _ => FailuresInARow(ops[..|ops| - 1])
  }

  /** How many failures were reported since a success last found or left the circuit closed. */
  function FailuresCounted(cfg: Config, created: real, ops: seq<Op>): nat {
    if ops == [] then 0
    else
      match ops[|ops| - 1]
      case FailureAt(_) => FailuresCounted(cfg, created, ops[..|ops| - 1]) + 1
      case SuccessAt(_) => if Run(cfg, created, ops).state == CLOSED then 0 else FailuresCounted(cfg, created, ops[..|ops| - 1])
      case _ => FailuresCounted(cfg, created, ops[..|ops| - 1])
  }

  /** How many successes were reported since the circuit became half open, while it still is. */
  function ProbesPassed(cfg: Config, created: real, ops: seq<Op>): nat {
    if ops == [] || Run(cfg, created, ops).state != HALF_OPEN || Run(cfg, created, ops[..|ops| - 1]).state != HALF_OPEN then 0
    else ProbesPassed(cfg, created, ops[..|ops| - 1]) + (if ops[|ops| - 1].SuccessAt? then 1 else 0)
  }

  /** When the circuit last changed its state. */
  function ChangedAt(cfg: Config, created: real, ops: seq<Op>): real {
    if ops == [] then created
    else if Run(cfg, created, ops).state != Run(cfg, created, ops[..|ops| - 1]).state then ops[|ops| - 1].now
    else ChangedAt(cfg, created, ops[..|ops| - 1])
  }

  function FailedAt(ops: seq<Op>): Option<real> {
    if ops == [] then None
    else if ops[|ops| - 1].FailureAt? then Some(ops[|ops| - 1].now)
    else FailedAt(ops[..|ops| - 1])
  }

  /** Over every run, what each counter and instant stands for. In particular the failures a
      closed circuit counts are consecutive. */
  lemma {:induction false} CountersCount(cfg: Config, created: real, ops: seq<Op>)
    requires Proper(cfg)
    ensures var c := Run(cfg, created, ops);
            && (c.state == CLOSED ==> c.failures == FailuresInARow(ops))
            && c.failures == FailuresCounted(cfg, created, ops) && c.successes == ProbesPassed(cfg, created, ops)
            && c.lastChange == ChangedAt(cfg, created, ops) && c.lastFailure == FailedAt(ops)
            && (c.state == CLOSED <==> c.failures < cfg.failureThreshold) && c.successes < cfg.successThreshold
    decreases |ops|
  {
    if ops != [] {
      CountersCount(cfg, created, ops[..|ops| - 1]);
    }
  }

  /** The last `n` reports are all failures. */
  predicate LastFailed(rs: seq<Op>, n: nat) {
    |rs| >= n && forall i :: |rs| - n <= i < |rs| ==> rs[i].FailureAt?
  }

  lemma LastFailedMore(rs: seq<Op>, op: Op, n: nat)
    requires n > 0
    ensures LastFailed(rs + [op], n) <==> op.FailureAt? && LastFailed(rs, n - 1)
  {
    var more := rs + [op];
    assert more[|rs|] == op && forall i :: 0 <= i < |rs| ==> more[i] == rs[i];
    if LastFailed(more, n) {
      forall i | |rs| - (n - 1) <= i < |rs|
        ensures rs[i].FailureAt?
      {
        assert more[i].FailureAt?;
      }
    }
  }

  lemma {:induction false} RowOfFailures(ops: seq<Op>, n: nat)
    ensures FailuresInARow(ops) >= n <==> LastFailed(Reports(ops), n)
    decreases |ops|
  {
    hide LastFailed;
    if n == 0 {
      NoneFailed(Reports(ops));
    } else if ops == [] {
      NoneReported(n);
    } else {
      var front, op := ops[..|ops| - 1], ops[|ops| - 1];
      LastFailedMore(Reports(front), op, n);
      RowOfFailures(front, if op.FailureAt? then n - 1 else n);
      assert Reports(front) + [] == Reports(front);
    }
  }

  lemma NoneFailed(rs: seq<Op>)
    ensures LastFailed(rs, 0)
  {
  }

  lemma NoneReported(n: nat)
    requires n > 0
    ensures !LastFailed([], n)
  {
  }

  /** The state after each operation of a run. A closed circuit trips exactly when its last
      `failureThreshold` reports are all failures; an open one half opens exactly when it is asked
      after the cooldown; a half-open one opens again at a failure and closes at its last probe. */
  lemma StateAfter(cfg: Config, created: real, ops: seq<Op>)
    requires Proper(cfg) && ops != []
    ensures var (before, op) := (Run(cfg, created, ops[..|ops| - 1]), ops[|ops| - 1]);
            Run(cfg, created, ops).state
            == match before.state
               case CLOSED =>
                 if op.FailureAt? && LastFailed(Reports(ops), cfg.failureThreshold) then OPEN else CLOSED
               case OPEN =>
                 if (op.PollAt? || op.StatusAt?) && op.now - ChangedAt(cfg, created, ops[..|ops| - 1]) >= cfg.cooldown then HALF_OPEN else OPEN
               case HALF_OPEN =>
                 if op.FailureAt? then OPEN
                 else if op.SuccessAt? && ProbesPassed(cfg, created, ops[..|ops| - 1]) + 1 == cfg.successThreshold then CLOSED
                 else HALF_OPEN
    ensures var (before, c) := (Run(cfg, created, ops[..|ops| - 1]), Run(cfg, created, ops));
            c.totalTrips == before.totalTrips + (if before.state != OPEN && c.state == OPEN then 1 else 0)
  {
    hide Reports;
    CountersCount(cfg, created, ops[..|ops| - 1]);
    RowOfFailures(ops, cfg.failureThreshold);
  }

  lemma {:induction false} SpacingAddsUp(trips: seq<real>, gap: real)
    requires trips != [] && forall i :: 0 <= i < |trips| - 1 ==> trips[i + 1] - trips[i] >= gap
    ensures trips[|trips| - 1] - trips[0] >= gap * (|trips| - 1) as real
  {
    if |trips| > 1 {
      SpacingAddsUp(trips[..|trips| - 1], gap);
      assert gap * (|trips| - 1) as real == gap * (|trips| - 2) as real + gap;
    }
  }

  lemma SpacedTripsBounded(trips: seq<real>, gap: real, elapsed: real)
    requires gap > 0.0 && elapsed >= 0.0
    requires forall i :: 0 <= i < |trips| - 1 ==> trips[i + 1] - trips[i] >= gap
    requires trips != [] ==> trips[|trips| - 1] - trips[0] <= elapsed
    ensures |trips| as real <= 1.0 + elapsed / gap
  {
    if trips != [] {
      SpacingAddsUp(trips, gap);
      QuotientBound(gap, (|trips| - 1) as real, elapsed);
    } else {
      QuotientBound(gap, 0.0, elapsed);
    }
  }

  /** A circuit trips at most once, and once more for each cooldown that has elapsed. */
  lemma TripsBounded(cfg: Config, created: real, ops: seq<Op>)
    requires Proper(cfg) && ClockRuns(created, ops)
    ensures Run(cfg, created, ops).totalTrips as real <= 1.0 + (Clock(created, ops) - created) / cfg.cooldown
  {
    RunConsistent(cfg, created, ops);
    SpacedTripsBounded(Trips(cfg, created, ops), cfg.cooldown, Clock(created, ops) - created);
  }

  lemma QuotientBound(gap: real, n: real, elapsed: real)
    requires gap > 0.0 && gap * n <= elapsed
    ensures n <= elapsed / gap
  {
    var q := elapsed / gap;
    assert q * gap == elapsed;
    if q < n {
      assert q * gap < n * gap;
    }
  }

  /** The tracker of one provider, updated in place. */
  class ProviderCircuitState {
    const config: Config
    var state: CircuitState
    var consecutiveFailures: nat
    var consecutiveSuccesses: nat
    var lastFailureTime: Option<real>
    var lastStateChange: real
    var totalTrips: nat

    function Value(): Circuit
      reads this
    {
      Circuit(state, consecutiveFailures, consecutiveSuccesses, lastFailureTime, lastStateChange, totalTrips)
    }

    constructor (config: Config, now: real)
      ensures this.config == config && Value() == Fresh(now)
    {
      this.config := config;
      state := CLOSED;
      consecutiveFailures := 0;
      consecutiveSuccesses := 0;
      lastFailureTime := None;
      lastStateChange := now;
      totalTrips := 0;
    }

    method GetState(now: real) returns (s: CircuitState)
      modifies this
      ensures Value() == Poll(old(Value()), config, now) && s == state
    {
      if state == OPEN && now - lastStateChange >= config.cooldown {
        state := HALF_OPEN;
        lastStateChange := now;
        consecutiveSuccesses := 0;
      }
      return state;
    }

    method RecordSuccess(now: real)
      modifies this
      ensures Value() == Succeed(old(Value()), config, now)
    {
      if state == HALF_OPEN {
        consecutiveSuccesses := consecutiveSuccesses + 1;
        if consecutiveSuccesses >= config.successThreshold {
          state := CLOSED;
          consecutiveFailures := 0;
          consecutiveSuccesses := 0;
          lastStateChange := now;
        }
      } else if state == CLOSED {
        consecutiveFailures := 0;
      }
    }

    method RecordFailure(now: real)
      modifies this
      ensures Value() == Fail(old(Value()), config, now)
    {
      lastFailureTime := Some(now);
      consecutiveFailures := consecutiveFailures + 1;
      if state == HALF_OPEN {
        state := OPEN;
        lastStateChange := now;
        consecutiveSuccesses := 0;
        totalTrips := totalTrips + 1;
      } else if state == CLOSED {
        if consecutiveFailures >= config.failureThreshold {
          state := OPEN;
          lastStateChange := now;
          totalTrips := totalTrips + 1;
        }
      }
    }

    method GetStatus(now: real) returns (s: CircuitState, cooldownRemaining: real)
      modifies this
      ensures Value() == StatusPoll(old(Value()), config, now) && s == state
      ensures s == OPEN ==> cooldownRemaining > 0.0 && now + cooldownRemaining == lastStateChange + config.cooldown
      ensures s != OPEN ==> cooldownRemaining == 0.0
    {
      cooldownRemaining := 0.0;
      if state == OPEN {
        var elapsed := now - lastStateChange;
        if elapsed >= config.cooldown {
          state := HALF_OPEN;
          lastStateChange := now;
        } else {
          cooldownRemaining := if config.cooldown - elapsed > 0.0 then config.cooldown - elapsed else 0.0;
        }
      }
      s := state;
    }
  }

  /** One tracker per provider, created on first use with the default configuration. */
  class ProviderCircuitBreaker {
    const defaultConfig: Config
    var trackers: map<string, ProviderCircuitState>

    ghost predicate Valid()
      reads this, trackers.Values
    {
      && (forall p :: p in trackers ==> trackers[p].config == defaultConfig)
      && (forall p, q :: p in trackers && q in trackers && p != q ==> trackers[p] != trackers[q])
    }

    /** The circuit of a provider, fresh if it was never used. */
    ghost function View(p: string, now: real): Circuit
      reads this, trackers.Values
    {
      if p in trackers then trackers[p].Value() else Fresh(now)
    }

    constructor (defaultConfig: Config)
      ensures Valid() && this.defaultConfig == defaultConfig && trackers == map[]
    {
      this.defaultConfig := defaultConfig;
      trackers := map[];
    }

    method Tracker(p: string, now: real) returns (t: ProviderCircuitState)
      requires Valid()
      modifies this
      ensures Valid() && p in trackers && trackers[p] == t && t.Value() == old(View(p, now))
      ensures p in old(trackers) ==> trackers == old(trackers)
      ensures p !in old(trackers) ==> trackers == old(trackers)[p := t] && fresh(t)
    {
      if p !in trackers {
        var created := new ProviderCircuitState(defaultConfig, now);
        trackers := trackers[p := created];
      }
      t := trackers[p];
    }

    method CanExecute(p: string, now: real) returns (ok: bool)
      requires Valid()
      modifies this, trackers.Values
      ensures Valid() && p in trackers && fresh(trackers.Values - old(trackers.Values))
      ensures View(p, now) == Poll(old(View(p, now)), defaultConfig, now)
      ensures ok <==> View(p, now).state != OPEN
      ensures forall q :: q in old(trackers) && q != p ==> q in trackers && View(q, now) == old(View(q, now))
    {
      var t := Tracker(p, now);
      var s := t.GetState(now);
      ok := s == CLOSED || s == HALF_OPEN;
    }

    method GetStatus(p: string, now: real) returns (s: CircuitState, cooldownRemaining: real)
      requires Valid()
      modifies this, trackers.Values
      ensures Valid() && p in trackers && fresh(trackers.Values - old(trackers.Values))
      ensures View(p, now) == StatusPoll(old(View(p, now)), defaultConfig, now) && s == View(p, now).state
      ensures s == OPEN ==> cooldownRemaining > 0.0 && now + cooldownRemaining == View(p, now).lastChange + defaultConfig.cooldown
      ensures s != OPEN ==> cooldownRemaining == 0.0
      ensures forall q :: q in old(trackers) && q != p ==> q in trackers && View(q, now) == old(View(q, now))
    {
      var t := Tracker(p, now);
      s, cooldownRemaining := t.GetStatus(now);
    }

    method RecordSuccess(p: string, now: real)
      requires Valid()
      modifies this, trackers.Values
      ensures Valid() && p in trackers && fresh(trackers.Values - old(trackers.Values))
      ensures p in old(trackers) ==> trackers == old(trackers)
      ensures View(p, now) == Succeed(old(View(p, now)), defaultConfig, now)
      ensures forall q :: q in old(trackers) && q != p ==> q in trackers && View(q, now) == old(View(q, now))
    {
      var t := Tracker(p, now);
      t.RecordSuccess(now);
    }

    method RecordFailure(p: string, now: real)
      requires Valid()
      modifies this, trackers.Values
      ensures Valid() && p in trackers && fresh(trackers.Values - old(trackers.Values))
      ensures p in old(trackers) ==> trackers == old(trackers)
      ensures View(p, now) == Fail(old(View(p, now)), defaultConfig, now)
      ensures forall q :: q in old(trackers) && q != p ==> q in trackers && View(q, now) == old(View(q, now))
    {
      var t := Tracker(p, now);
      t.RecordFailure(now);
    }
  }
}
