/**
 * The circuit breaker as values: its configuration, its state and the
 * transitions of braker.go as functions from one state to the next. The
 * class in module Braker is proved to follow these functions step by step.
 */
module BreakerModel {
  import opened Wrappers
  import opened Counters
  import opened States

  /** The breaker's own two errors, and any error a guarded request returns. */
  datatype Error = ErrCircuitBreaker | ErrToManyRequests | RequestError(message: string)

  /** One second and one minute, in nanoseconds (Go's `time.Duration`). */
  const DEFAULT_INTERVAL: int := 1_000_000_000
  const DEFAULT_TIMEOUT: int := 60_000_000_000

  /** Trip once ten failures in a row have been recorded. */
  function DefaultReadyToTrip(c: Tally): bool {
    c.consecutiveFailures >= 10
  }

  /** A request succeeded when it returned no error. */
  function DefaultIsSuccessful(err: Option<Error>): bool {
    err.None?
  }

  /** Go's `Options` as the caller passes them; `None` is a nil function. */
  datatype Options = Options(
    name: string,
    interval: int,
    timeout: int,
    readyToTrip: Option<Tally -> bool>,
    isSuccessful: Option<Option<Error> -> bool>,
    threshold: nat)

  /** The options after `NewCircuitBreaker` filled in its defaults. */
  datatype Config = Config(
    name: string,
    interval: int,
    timeout: int,
    readyToTrip: Tally -> bool,
    isSuccessful: Option<Error> -> bool,
    threshold: nat)

  predicate ValidConfig(cfg: Config) {
    cfg.interval > 0 && cfg.timeout > 0 && cfg.threshold >= 1
  }

  /** The defaulting at the head of `NewCircuitBreaker`. */
  function WithDefaults(opt: Options): (cfg: Config)
    ensures ValidConfig(cfg)
    ensures cfg.name == opt.name
    ensures opt.interval > 0 ==> cfg.interval == opt.interval
    ensures opt.interval <= 0 ==> cfg.interval == DEFAULT_INTERVAL
    ensures opt.timeout > 0 ==> cfg.timeout == opt.timeout
    ensures opt.timeout <= 0 ==> cfg.timeout == DEFAULT_TIMEOUT
    ensures opt.threshold != 0 ==> cfg.threshold == opt.threshold
    ensures opt.threshold == 0 ==> cfg.threshold == 1
    ensures opt.readyToTrip.Some? ==> cfg.readyToTrip == opt.readyToTrip.value
    ensures opt.readyToTrip.None? ==> cfg.readyToTrip == DefaultReadyToTrip
    ensures opt.isSuccessful.Some? ==> cfg.isSuccessful == opt.isSuccessful.value
    ensures opt.isSuccessful.None? ==> cfg.isSuccessful == DefaultIsSuccessful
  {
    Config(
      opt.name,
      if opt.interval <= 0 then DEFAULT_INTERVAL else opt.interval,
      if opt.timeout <= 0 then DEFAULT_TIMEOUT else opt.timeout,
      if opt.readyToTrip.None? then DefaultReadyToTrip else opt.readyToTrip.value,
      if opt.isSuccessful.None? then DefaultIsSuccessful else opt.isSuccessful.value,
      if opt.threshold == 0 then 1 else opt.threshold)
  }

  /** One call of `OnStateChange(name, before, after)`. */
  datatype Event = Event(before: State, after: State)

  /** Everything the breaker owns, plus the log of observer calls. */
  datatype Breaker = Breaker(
    state: State,
    generation: nat,
    expiry: Expiry,
    counts: Tally,
    events: seq<Event>)

  /** The expiry `newGeneration` sets for a breaker in state `s`. */
  function ExpiryFor(cfg: Config, s: State, oldExpiry: Expiry, now: int): Expiry {
    if s == CLOSE then (if cfg.interval <= 0 then ZeroTime else At(now + cfg.interval))
    else if s == OPEN then At(now + cfg.timeout)
    else if s == HALF_OPEN then ZeroTime
    else oldExpiry
  }

  /** `newGeneration`: a new epoch with cleared counters and a fresh expiry. */
  function NewGeneration(cfg: Config, b: Breaker, now: int): Breaker {
    b.(generation := b.generation + 1,
       counts := EMPTY,
       expiry := ExpiryFor(cfg, b.state, b.expiry, now))
  }

  /** `setState`: nothing at all when `s` is the current state. */
  function SetState(cfg: Config, b: Breaker, s: State, now: int): Breaker {
    if b.state == s then b
    else
      var moved := NewGeneration(cfg, b.(state := s), now);
      moved.(events := moved.events + [Event(b.state, s)])
  }

  /** `updateState`: the lazy, time-driven advancement. */
  function UpdateState(cfg: Config, b: Breaker, now: int): Breaker {
    if b.state == CLOSE then
      if !b.expiry.IsZero() && b.expiry.Before(now) then NewGeneration(cfg, b, now) else b
    else if b.state == OPEN then
      if b.expiry.Before(now) then SetState(cfg, NewGeneration(cfg, b, now), HALF_OPEN, now) else b
    else b
  }

  /** The breaker's `onSuccess`: count it, then roll or close. */
  function OnSuccess(cfg: Config, b: Breaker, now: int): Breaker {
    var counted := b.(counts := Success(b.counts));
    if b.state == CLOSE then
      if counted.expiry.Before(now) then NewGeneration(cfg, counted, now) else counted
    else if b.state == HALF_OPEN then
      if counted.counts.consecutiveSuccess >= cfg.threshold then SetState(cfg, counted, CLOSE, now) else counted
    else counted
  }

  /** The breaker's `onFailure`: count it in Close and maybe trip; reopen from HalfOpen. */
  function OnFailure(cfg: Config, b: Breaker, now: int): Breaker {
    if b.state == CLOSE then
      var counted := b.(counts := Failure(b.counts));
      if cfg.readyToTrip(counted.counts) then SetState(cfg, counted, OPEN, now) else counted
    else if b.state == HALF_OPEN then SetState(cfg, b, OPEN, now)
    else b
  }

  /** What `beforeExecute` leaves behind and returns. */
  datatype Admission = Admission(next: Breaker, generation: nat, err: Option<Error>)

  /** `beforeExecute`: advance, then reject or count the request. */
  function BeforeExecute(cfg: Config, b: Breaker, now: int): Admission {
    var u := UpdateState(cfg, b, now);
    if u.state == OPEN then Admission(u, u.generation, Some(ErrCircuitBreaker))
    else if u.state == HALF_OPEN && u.counts.totalRequests >= cfg.threshold then
      Admission(u, u.generation, Some(ErrToManyRequests))
    else Admission(u.(counts := Request(u.counts)), u.generation, None)
  }

  /** `afterExecute`: advance, drop a stale report, else record the outcome. */
  function AfterExecute(cfg: Config, b: Breaker, token: nat, success: bool, now: int): Breaker {
    var u := UpdateState(cfg, b, now);
    if token != u.generation then u
    else if success then OnSuccess(cfg, u, now)
    else OnFailure(cfg, u, now)
  }

  /** The fields `NewCircuitBreaker` writes before its call of `newGeneration`. */
  const BLANK: Breaker := Breaker(CLOSE, 0, ZeroTime, EMPTY, [])

  /** A breaker fresh from `NewCircuitBreaker` at time `now`. */
  function Init(cfg: Config, now: int): Breaker {
    NewGeneration(cfg, BLANK, now)
  }

  /**
   * The observer log is a history of state changes: starting from `from`,
   * each event leaves the state the previous one entered, changes it, and
   * the last one enters `to`.
   */
  ghost predicate Chain(from: State, events: seq<Event>, to: State)
    decreases |events|
  {
    if events == [] then from == to
    else
      events[0].before == from && events[0].before != events[0].after &&
      Chain(events[0].after, events[1..], to)
  }

  /**
   * What holds of every breaker reachable from `Init`: the state is one of
   * the three, Close and Open carry an instant and HalfOpen none, an Open
   * breaker has admitted nothing, a HalfOpen breaker has admitted at most
   * `threshold` probes and not yet seen `threshold` successes in a row, the
   * counters are consistent, and the log records every state change since
   * construction, each of which started a generation.
   */
  ghost predicate WellFormed(cfg: Config, b: Breaker) {
    IsKnown(b.state) &&
    (b.state == CLOSE ==> b.expiry.At?) &&
    (b.state == OPEN ==> b.expiry.At? && b.counts.totalRequests == 0) &&
    (b.state == HALF_OPEN ==>
      b.expiry == ZeroTime &&
      b.counts.totalRequests <= cfg.threshold &&
      b.counts.consecutiveSuccess < cfg.threshold) &&
    Consistent(b.counts) &&
    Chain(CLOSE, b.events, b.state) &&
    |b.events| < b.generation
  }
}
