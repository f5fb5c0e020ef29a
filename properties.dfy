/**
 * What the transitions of BreakerModel promise: the effect of each private
 * step, the admission gate's decisions, stale-report safety, and the
 * invariant WellFormed that every public step preserves.
 */
module BreakerProperties {
  import opened Wrappers
  import opened Counters
  import opened States
  import opened BreakerModel

  // ---------------------------------------------------------------------
  // The observer log

  /** Appending a real state change to a history keeps it a history. */
  lemma {:induction false} ChainAppend(from: State, events: seq<Event>, to: State, e: Event)
    requires Chain(from, events, to)
    requires e.before == to && e.before != e.after
    ensures Chain(from, events + [e], e.after)
    decreases |events|
  {
    if events == [] {
      assert [e][1..] == [];
    } else {
      assert (events + [e])[1..] == events[1..] + [e];
      ChainAppend(events[0].after, events[1..], to, e);
    }
  }

  // ---------------------------------------------------------------------
  // Private transitions

  /** `newGeneration` starts a strictly later epoch with zero counters and the state's own expiry. */
  lemma NewGenerationEffect(cfg: Config, b: Breaker, now: int)
    requires ValidConfig(cfg)
    ensures var r := NewGeneration(cfg, b, now);
      r.generation > b.generation && r.counts == EMPTY &&
      r.state == b.state && r.events == b.events &&
      (b.state == CLOSE ==> r.expiry == At(now + cfg.interval)) &&
      (b.state == OPEN ==> r.expiry == At(now + cfg.timeout)) &&
      (b.state == HALF_OPEN ==> r.expiry == ZeroTime)
  {
  }

  /**
   * `setState` with the current state changes nothing (no new generation, no
   * observer call); with another state it moves there, starts exactly one
   * generation, clears the counters and logs exactly one event.
   */
  lemma SetStateEffect(cfg: Config, b: Breaker, s: State, now: int)
    ensures var r := SetState(cfg, b, s, now);
      (b.state == s ==> r == b) &&
      (b.state != s ==>
        r.state == s && r.generation == b.generation + 1 && r.counts == EMPTY &&
        r.expiry == ExpiryFor(cfg, s, b.expiry, now) &&
        r.events == b.events + [Event(b.state, s)])
  {
  }

  /**
   * `updateState`: an elapsed window in Close rolls the generation silently;
   * an elapsed cooldown in Open moves to HalfOpen, two generations on; any
   * other case, HalfOpen included, changes nothing.
   */
  lemma UpdateStateEffect(cfg: Config, b: Breaker, now: int)
    requires ValidConfig(cfg)
    ensures var r := UpdateState(cfg, b, now);
      (b.state == CLOSE && b.expiry.At? && b.expiry.instant < now ==>
        r.state == CLOSE && r.generation == b.generation + 1 && r.counts == EMPTY &&
        r.expiry == At(now + cfg.interval) && r.events == b.events) &&
      (b.state == OPEN && b.expiry.Before(now) ==>
        r.state == HALF_OPEN && r.generation == b.generation + 2 && r.counts == EMPTY &&
        r.expiry == ZeroTime && r.events == b.events + [Event(OPEN, HALF_OPEN)]) &&
      (b.state == HALF_OPEN ==> r == b) &&
      (b.state == CLOSE && !(b.expiry.At? && b.expiry.instant < now) ==> r == b) &&
      (b.state == OPEN && !b.expiry.Before(now) ==> r == b)
  {
  }

  /** Advancing twice at the same instant is advancing once. */
  lemma UpdateStateIdempotent(cfg: Config, b: Breaker, now: int)
    requires ValidConfig(cfg)
    ensures UpdateState(cfg, UpdateState(cfg, b, now), now) == UpdateState(cfg, b, now)
  {
  }

  /**
   * A failure in Close is counted and trips exactly when the trip predicate
   * holds of the updated counters; a failure in HalfOpen reopens whatever
   * the counters say; a failure in Open changes nothing.
   */
  lemma OnFailureEffect(cfg: Config, b: Breaker, now: int)
    requires ValidConfig(cfg)
    ensures var r := OnFailure(cfg, b, now);
      (b.state == CLOSE && cfg.readyToTrip(Failure(b.counts)) ==>
        r.state == OPEN && r.generation == b.generation + 1 && r.counts == EMPTY &&
        r.expiry == At(now + cfg.timeout) && r.events == b.events + [Event(CLOSE, OPEN)]) &&
      (b.state == CLOSE && !cfg.readyToTrip(Failure(b.counts)) ==>
        r == b.(counts := Failure(b.counts))) &&
      (b.state == HALF_OPEN ==>
        r.state == OPEN && r.generation == b.generation + 1 && r.counts == EMPTY &&
        r.expiry == At(now + cfg.timeout) && r.events == b.events + [Event(HALF_OPEN, OPEN)]) &&
      (b.state == OPEN ==> r == b)
  {
  }

  /**
   * A success in HalfOpen closes the breaker once the consecutive successes
   * reach the threshold and is only counted before that; in Close it is
   * counted and, if the window has elapsed, the window rolls; in Open it is
   * only counted.
   */
  lemma OnSuccessEffect(cfg: Config, b: Breaker, now: int)
    requires ValidConfig(cfg)
    ensures var r := OnSuccess(cfg, b, now);
      (b.state == HALF_OPEN && b.counts.consecutiveSuccess + 1 >= cfg.threshold ==>
        r.state == CLOSE && r.generation == b.generation + 1 && r.counts == EMPTY &&
        r.expiry == At(now + cfg.interval) && r.events == b.events + [Event(HALF_OPEN, CLOSE)]) &&
      (b.state == HALF_OPEN && b.counts.consecutiveSuccess + 1 < cfg.threshold ==>
        r == b.(counts := Success(b.counts))) &&
      (b.state == CLOSE && b.expiry.Before(now) ==>
        r.state == CLOSE && r.generation == b.generation + 1 && r.counts == EMPTY &&
        r.expiry == At(now + cfg.interval) && r.events == b.events) &&
      (b.state == CLOSE && !b.expiry.Before(now) ==>
        r == b.(counts := Success(b.counts))) &&
      (b.state == OPEN ==> r == b.(counts := Success(b.counts)))
  {
  }

  // ---------------------------------------------------------------------
  // The admission gate

  /**
   * After lazy advancement, `beforeExecute` rejects an Open breaker with
   * ErrCircuitBreaker and a HalfOpen one whose probe quota is used with
   * ErrToManyRequests, leaving the counters alone; otherwise it counts one
   * request and nothing else. The generation returned is the current one.
   */
  lemma BeforeExecuteEffect(cfg: Config, b: Breaker, now: int)
    ensures var u := UpdateState(cfg, b, now);
      var a := BeforeExecute(cfg, b, now);
      a.generation == u.generation &&
      (u.state == OPEN ==> a.err == Some(ErrCircuitBreaker) && a.next == u) &&
      (u.state == HALF_OPEN && u.counts.totalRequests >= cfg.threshold ==>
        a.err == Some(ErrToManyRequests) && a.next == u) &&
      (a.err.None? <==>
        u.state != OPEN && !(u.state == HALF_OPEN && u.counts.totalRequests >= cfg.threshold)) &&
      (a.err.None? ==> a.next == u.(counts := Request(u.counts)))
  {
  }

  /** A HalfOpen breaker admits a probe exactly while fewer than `threshold` have been admitted. */
  lemma ProbeQuota(cfg: Config, b: Breaker, now: int)
    requires WellFormed(cfg, b) && b.state == HALF_OPEN
    ensures var a := BeforeExecute(cfg, b, now);
      (a.err.None? <==> b.counts.totalRequests < cfg.threshold) &&
      (a.err.Some? ==> a.err == Some(ErrToManyRequests) && a.next == b) &&
      a.next.counts.totalRequests <= cfg.threshold
  {
  }

  /**
   * A report carrying a token other than the generation current after
   * advancement changes nothing beyond what `updateState` did.
   */
  lemma StaleReportIgnored(cfg: Config, b: Breaker, token: nat, success: bool, now: int)
    requires token != UpdateState(cfg, b, now).generation
    ensures AfterExecute(cfg, b, token, success, now) == UpdateState(cfg, b, now)
  {
  }

  /**
   * In a well-formed Close breaker a current success is only counted: the
   * window check inside `onSuccess` can never fire, since `updateState`
   * has just rolled any elapsed window.
   */
  lemma CloseSuccessOnlyCounts(cfg: Config, b: Breaker, now: int)
    requires ValidConfig(cfg) && WellFormed(cfg, b)
    requires UpdateState(cfg, b, now).state == CLOSE
    ensures var u := UpdateState(cfg, b, now);
      AfterExecute(cfg, b, u.generation, true, now) == u.(counts := Success(u.counts))
  {
  }

  // ---------------------------------------------------------------------
  // The invariant

  lemma InitWellFormed(cfg: Config, now: int)
    requires ValidConfig(cfg)
    ensures var b := Init(cfg, now);
      WellFormed(cfg, b) && b.state == CLOSE && b.generation == 1 &&
      b.counts == EMPTY && b.expiry == At(now + cfg.interval) && b.events == []
  {
  }

  lemma NewGenerationWellFormed(cfg: Config, b: Breaker, now: int)
    requires ValidConfig(cfg) && WellFormed(cfg, b)
    ensures WellFormed(cfg, NewGeneration(cfg, b, now))
  {
  }

  /**
   * A real state change yields a well-formed breaker whatever the counters
   * were, since it clears them.
   */
  lemma {:induction false} MoveWellFormed(cfg: Config, b: Breaker, s: State, now: int)
    requires ValidConfig(cfg) && IsKnown(s) && b.state != s
    requires Chain(CLOSE, b.events, b.state) && |b.events| < b.generation
    ensures WellFormed(cfg, SetState(cfg, b, s, now))
  {
    ChainAppend(CLOSE, b.events, b.state, Event(b.state, s));
  }

  lemma SetStateWellFormed(cfg: Config, b: Breaker, s: State, now: int)
    requires ValidConfig(cfg) && WellFormed(cfg, b) && IsKnown(s)
    ensures WellFormed(cfg, SetState(cfg, b, s, now))
  {
    if b.state != s {
      MoveWellFormed(cfg, b, s, now);
    }
  }

  lemma UpdateStateWellFormed(cfg: Config, b: Breaker, now: int)
    requires ValidConfig(cfg) && WellFormed(cfg, b)
    ensures WellFormed(cfg, UpdateState(cfg, b, now))
  {
    if b.state == OPEN && b.expiry.Before(now) {
      NewGenerationWellFormed(cfg, b, now);
      SetStateWellFormed(cfg, NewGeneration(cfg, b, now), HALF_OPEN, now);
    }
  }

  lemma BeforeExecuteWellFormed(cfg: Config, b: Breaker, now: int)
    requires ValidConfig(cfg) && WellFormed(cfg, b)
    ensures WellFormed(cfg, BeforeExecute(cfg, b, now).next)
  {
    UpdateStateWellFormed(cfg, b, now);
  }

  lemma OnSuccessWellFormed(cfg: Config, b: Breaker, now: int)
    requires ValidConfig(cfg) && WellFormed(cfg, b)
    ensures WellFormed(cfg, OnSuccess(cfg, b, now))
  {
    var counted := b.(counts := Success(b.counts));
    if b.state == HALF_OPEN && counted.counts.consecutiveSuccess >= cfg.threshold {
      MoveWellFormed(cfg, counted, CLOSE, now);
    }
  }

  lemma OnFailureWellFormed(cfg: Config, b: Breaker, now: int)
    requires ValidConfig(cfg) && WellFormed(cfg, b)
    ensures WellFormed(cfg, OnFailure(cfg, b, now))
  {
    if b.state == CLOSE {
      var counted := b.(counts := Failure(b.counts));
      if cfg.readyToTrip(counted.counts) {
        MoveWellFormed(cfg, counted, OPEN, now);
      }
    } else if b.state == HALF_OPEN {
      MoveWellFormed(cfg, b, OPEN, now);
    }
  }

  lemma AfterExecuteWellFormed(cfg: Config, b: Breaker, token: nat, success: bool, now: int)
    requires ValidConfig(cfg) && WellFormed(cfg, b)
    ensures WellFormed(cfg, AfterExecute(cfg, b, token, success, now))
  {
    UpdateStateWellFormed(cfg, b, now);
    var u := UpdateState(cfg, b, now);
    if token == u.generation {
      if success {
        OnSuccessWellFormed(cfg, u, now);
      } else {
        OnFailureWellFormed(cfg, u, now);
      }
    }
  }

  /**
   * No step loses history or goes back in time: the generation never
   * decreases, the log only grows, and a step that changes the state has
   * started a generation and logged the change.
   */
  lemma BeforeExecuteHistory(cfg: Config, b: Breaker, now: int)
    requires ValidConfig(cfg)
    ensures var r := BeforeExecute(cfg, b, now).next;
      r.generation >= b.generation && b.events <= r.events &&
      (r.state != b.state ==> r.generation > b.generation && |r.events| > |b.events|)
  {
  }

  lemma AfterExecuteHistory(cfg: Config, b: Breaker, token: nat, success: bool, now: int)
    requires ValidConfig(cfg)
    ensures var r := AfterExecute(cfg, b, token, success, now);
      r.generation >= b.generation && b.events <= r.events &&
      (r.state != b.state ==> r.generation > b.generation && |r.events| > |b.events|)
  {
  }
}
