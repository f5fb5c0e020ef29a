/**
 * The breaker object of braker.go. Every method updates the fields step by
 * step as the Go code does and is proved to leave the object in the state
 * that the matching function of BreakerModel computes; the lemmas of
 * BreakerProperties then say what those states are.
 */
module Braker {
  import opened Wrappers
  import opened Counters
  import opened States
  import M = BreakerModel
  import P = BreakerProperties

  /** What the guarded request did: returned a value and an error, or panicked. */
  datatype Run<V> = Returned(value: V, err: Option<M.Error>) | Panicked

  /** What `Execute` hands back: a rejection, the request's own result, or the re-raised panic. */
  datatype Outcome<V> = Rejected(rejection: M.Error) | Completed(value: V, err: Option<M.Error>) | Repanicked

  class CircuitBreaker {
    const cfg: M.Config
    const counts: Counts
    var generation: nat
    var expiry: Expiry
    var state: State
    /** Every call the source makes of `OnStateChange`, oldest first. */
    ghost var events: seq<M.Event>

    /** The breaker as a value. */
    ghost function Model(): M.Breaker
      reads this, counts
    {
      M.Breaker(state, generation, expiry, counts.Value(), events)
    }

    ghost predicate Valid()
      reads this, counts
    {
      M.ValidConfig(cfg) && M.WellFormed(cfg, Model())
    }

    /** `NewCircuitBreaker` at clock reading `now`. */
    constructor (opt: M.Options, now: int)
      ensures Valid() && fresh(counts)
      ensures cfg == M.WithDefaults(opt)
      ensures Model() == M.Init(cfg, now)
      ensures state == CLOSE && generation == 1 && counts.Value() == EMPTY
      ensures expiry == At(now + cfg.interval) && events == []
    {
      cfg := M.WithDefaults(opt);
      counts := new Counts();
      generation := 0;
      expiry := ZeroTime;
      state := CLOSE;
      events := [];
      new;
      var _ := NewGeneration(now);
      P.InitWellFormed(cfg, now);
    }

    /** `Counts()`: a copy of the current generation's counters. */
    method Counts() returns (c: Tally)
      ensures c == counts.Value()
    {
      c := Tally(counts.totalRequests, counts.totalSuccess, counts.totalFailures,
                 counts.consecutiveSuccess, counts.consecutiveFailures);
    }

    method NewGeneration(now: int) returns (g: nat)
      modifies this, counts
      ensures Model() == M.NewGeneration(cfg, old(Model()), now)
      ensures g == generation
      ensures old(Valid()) ==> Valid()
    {
      if Valid() {
        P.NewGenerationWellFormed(cfg, Model(), now);
      }
      generation := generation + 1;
      counts.Clear();
      if state == CLOSE {
        if cfg.interval <= 0 {
          expiry := ZeroTime;
        } else {
          expiry := At(now + cfg.interval);
        }
      } else if state == OPEN {
        expiry := At(now + cfg.timeout);
      } else if state == HALF_OPEN {
        expiry := ZeroTime;
      }
      g := generation;
    }

    method SetState(newState: State, now: int)
      modifies this, counts
      ensures Model() == M.SetState(cfg, old(Model()), newState, now)
      ensures old(Valid()) && IsKnown(newState) ==> Valid()
    {
      if Valid() && IsKnown(newState) {
        P.SetStateWellFormed(cfg, Model(), newState, now);
      }
      if state == newState {
        return;
      }
      var oldState := state;
      state := newState;
      var _ := NewGeneration(now);
      events := events + [M.Event(oldState, newState)];
    }

    method UpdateState(now: int)
      modifies this, counts
      ensures Model() == M.UpdateState(cfg, old(Model()), now)
      ensures old(Valid()) ==> Valid()
    {
      if Valid() {
        P.UpdateStateWellFormed(cfg, Model(), now);
      }
      if state == CLOSE {
        if !expiry.IsZero() && expiry.Before(now) {
          var _ := NewGeneration(now);
        }
      } else if state == OPEN {
        if expiry.Before(now) {
          var _ := NewGeneration(now);
          SetState(HALF_OPEN, now);
        }
      }
    }

    method OnSuccess(now: int)
      modifies this, counts
      ensures Model() == M.OnSuccess(cfg, old(Model()), now)
      ensures old(Valid()) ==> Valid()
    {
      if Valid() {
        P.OnSuccessWellFormed(cfg, Model(), now);
      }
      counts.OnSuccess();
      if state == CLOSE {
        if expiry.Before(now) {
          var _ := NewGeneration(now);
        }
      } else if state == HALF_OPEN {
        if counts.consecutiveSuccess >= cfg.threshold {
          SetState(CLOSE, now);
        }
      }
    }

    method OnFailure(now: int)
      modifies this, counts
      ensures Model() == M.OnFailure(cfg, old(Model()), now)
      ensures old(Valid()) ==> Valid()
    {
      if Valid() {
        P.OnFailureWellFormed(cfg, Model(), now);
      }
      if state == CLOSE {
        counts.OnFailure();
        if cfg.readyToTrip(counts.Value()) {
          SetState(OPEN, now);
        }
      } else if state == HALF_OPEN {
        SetState(OPEN, now);
      }
    }

    /**
     * `beforeExecute`: after advancement, an Open breaker answers
     * ErrCircuitBreaker and a HalfOpen one at its quota ErrToManyRequests,
     * both with the counters as advancement left them; otherwise one more
     * request is counted. The current generation is returned either way.
     */
    method BeforeExecute(now: int) returns (g: nat, err: Option<M.Error>)
      requires Valid()
      modifies this, counts
      ensures Valid()
      ensures M.Admission(Model(), g, err) == M.BeforeExecute(cfg, old(Model()), now)
      ensures g == generation
      ensures err == Some(M.ErrCircuitBreaker) <==> state == OPEN
      ensures err.Some? ==> counts.Value() == M.UpdateState(cfg, old(Model()), now).counts
      ensures err.None? ==> counts.Value() == Request(M.UpdateState(cfg, old(Model()), now).counts)
    {
      P.BeforeExecuteWellFormed(cfg, Model(), now);
      UpdateState(now);
      if state == OPEN {
        return generation, Some(M.ErrCircuitBreaker);
      } else if state == HALF_OPEN {
        if counts.totalRequests >= cfg.threshold {
          return generation, Some(M.ErrToManyRequests);
        }
      }
      counts.OnRequest();
      return generation, None;
    }

    /**
     * `afterExecute`: after advancement, a report whose token is not the
     * current generation is dropped; otherwise the outcome is recorded.
     */
    method AfterExecute(token: nat, success: bool, now: int)
      requires Valid()
      modifies this, counts
      ensures Valid()
      ensures Model() == M.AfterExecute(cfg, old(Model()), token, success, now)
      ensures token != M.UpdateState(cfg, old(Model()), now).generation ==>
        Model() == M.UpdateState(cfg, old(Model()), now)
    {
      P.AfterExecuteWellFormed(cfg, Model(), token, success, now);
      UpdateState(now);
      if token != generation {
        return;
      }
      if success {
        OnSuccess(now);
      } else {
        OnFailure(now);
      }
    }

    /**
     * `Execute`: a rejected request never runs and the rejection is
     * returned; an admitted one runs between `now` and `later`, with
     * outcome `run`, and is reported under its admission generation. A
     * panic is reported with the error still nil from admission and then
     * re-raised.
     */
    method Execute<V>(run: Run<V>, now: int, later: int) returns (r: Outcome<V>)
      requires Valid()
      modifies this, counts
      ensures Valid()
      ensures var a := M.BeforeExecute(cfg, old(Model()), now);
        if a.err.Some? then
          r == Rejected(a.err.value) && Model() == a.next
        else
          var verdict := cfg.isSuccessful(if run.Panicked? then None else run.err);
          Model() == M.AfterExecute(cfg, a.next, a.generation, verdict, later) &&
          r == (if run.Panicked? then Repanicked else Completed(run.value, run.err))
    {
      var g, err := BeforeExecute(now);
      if err.Some? {
        return Rejected(err.value);
      }
      match run
      case Panicked =>
        AfterExecute(g, cfg.isSuccessful(err), later);
        r := Repanicked;
      case Returned(value, reqErr) =>
        AfterExecute(g, cfg.isSuccessful(reqErr), later);
        r := Completed(value, reqErr);
    }
  }

  /** The completion callback `IsAllow` returns: it reports under its admission generation. */
  datatype Done = Done(generation: nat)

  /** Go's `TwoStepCircuitBreaker`: admission and report are the caller's two calls. */
  class TwoStepCircuitBreaker {
    const cb: CircuitBreaker

    ghost predicate Valid()
      reads this, cb, cb.counts
    {
      cb.Valid()
    }

    /** `NewTwoStepCircuitBreaker`. */
    constructor (opt: M.Options, now: int)
      ensures Valid() && fresh(cb) && fresh(cb.counts)
      ensures cb.cfg == M.WithDefaults(opt)
      ensures cb.Model() == M.Init(cb.cfg, now)
    {
      cb := new CircuitBreaker(opt, now);
    }

    /**
     * `IsAllow`: a rejection returns only the error and no callback; an
     * admission returns the callback bound to the admission generation.
     */
    method IsAllow(now: int) returns (r: Result<Done, M.Error>)
      requires Valid()
      modifies cb, cb.counts
      ensures Valid()
      ensures var a := M.BeforeExecute(cb.cfg, old(cb.Model()), now);
        cb.Model() == a.next &&
        r == (if a.err.Some? then Err(a.err.value) else Ok(Done(a.generation)))
    {
      var g, err := cb.BeforeExecute(now);
      if err.Some? {
        return Err(err.value);
      }
      return Ok(Done(g));
    }

    /** Calling the callback `done(success)` at clock reading `now`. */
    method Complete(done: Done, success: bool, now: int)
      requires Valid()
      modifies cb, cb.counts
      ensures Valid()
      ensures cb.Model() == M.AfterExecute(cb.cfg, old(cb.Model()), done.generation, success, now)
    {
      cb.AfterExecute(done.generation, success, now);
    }
  }
}
