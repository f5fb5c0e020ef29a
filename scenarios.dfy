/**
 * The scenarios of breaker_test.go, replayed through the contracts of the
 * classes alone: each assertion below follows from the methods' ensures.
 * Times are nanoseconds; sleeping is a later clock reading.
 */
module Scenarios {
  import opened Wrappers
  import opened Counters
  import opened States
  import M = BreakerModel
  import opened Braker

  const SECOND: int := 1_000_000_000

  /** Options of TestCb, TestCB1 and TestTwoStep: trip on two failures in a row, two probes. */
  function TestOptions(): M.Options {
    M.Options("test", SECOND, 2 * SECOND, Some((c: Tally) => c.consecutiveFailures >= 2), None, 2)
  }

  /** TestCounts: the counters after a mix of outcomes and two requests. */
  method CountsScenario() {
    var c := new Counts();
    c.OnSuccess();
    c.OnSuccess();
    assert c.Value() == Tally(0, 2, 0, 2, 0);
    c.OnFailure();
    c.OnFailure();
    assert c.Value() == Tally(0, 2, 2, 0, 2);
    c.OnSuccess();
    c.OnSuccess();
    assert c.Value() == Tally(0, 4, 2, 2, 0);
    c.OnRequest();
    c.OnRequest();
    assert c.totalRequests == 2;
  }

  /**
   * TestCBGeneration: moving to the state the breaker is already in is a
   * no-op, and each of the four real changes starts one generation and
   * makes one observer call.
   */
  method GenerationScenario() {
    var t := 0;
    var cb := new CircuitBreaker(M.Options("test", SECOND, 2 * SECOND, None, None, 10), t);
    cb.SetState(CLOSE, t);
    assert cb.generation == 1 && cb.events == [];
    cb.SetState(OPEN, t);
    assert cb.generation == 2;
    cb.SetState(HALF_OPEN, t);
    assert cb.generation == 3;
    cb.SetState(OPEN, t);
    assert cb.generation == 4;
    cb.SetState(CLOSE, t);
    assert cb.generation == 5;
    assert cb.events == [M.Event(CLOSE, OPEN), M.Event(OPEN, HALF_OPEN),
                         M.Event(HALF_OPEN, OPEN), M.Event(OPEN, CLOSE)];
  }

  /**
   * TestCb, first part, on the private transitions: two failures open the
   * breaker at generation 2, admission is refused until the cooldown, and
   * after it admission finds the breaker HalfOpen at generation 4.
   */
  method TransitionTripScenario() {
    var t := 0;
    var cb := new CircuitBreaker(TestOptions(), t);
    cb.OnFailure(t);
    cb.OnFailure(t);
    assert cb.state == OPEN && cb.generation == 2 && cb.expiry == At(2 * SECOND);
    var g, err := cb.BeforeExecute(t);
    assert err == Some(M.ErrCircuitBreaker);
    t := t + 2 * SECOND + 1;
    g, err := cb.BeforeExecute(t);
    assert cb.state == HALF_OPEN && cb.generation == 4;
    assert err == None && cb.counts.Value() == Request(EMPTY);
  }

  /**
   * TestCb, second part, from the state the first part ends in (HalfOpen,
   * one admitted probe): one success and then one failure reopen the
   * breaker; after the cooldown advancement moves it back to HalfOpen, and
   * two successes close it.
   */
  method TransitionRecoverScenario(cb: CircuitBreaker, t: int)
    requires cb.Valid() && cb.cfg == M.WithDefaults(TestOptions())
    requires cb.state == HALF_OPEN && cb.counts.Value() == Request(EMPTY)
    modifies cb, cb.counts
  {
    cb.OnSuccess(t);
    assert cb.state == HALF_OPEN;
    cb.OnFailure(t);
    assert cb.state == OPEN && cb.expiry == At(t + 2 * SECOND);
    var later := t + 2 * SECOND + 1;
    cb.UpdateState(later);
    assert cb.state == HALF_OPEN;
    cb.OnSuccess(later);
    cb.OnSuccess(later);
    assert cb.state == CLOSE;
  }

  /** TestCB1, first part: two failures in a row open the breaker and the next call is refused. */
  method TripScenario() {
    var t := 0;
    var cb := new CircuitBreaker(TestOptions(), t);
    var r := cb.Execute(Returned(0, Some(M.RequestError("test"))), t, t);
    assert cb.state == CLOSE && cb.counts.consecutiveFailures == 1;
    r := cb.Execute(Returned(0, Some(M.RequestError("test"))), t, t);
    assert cb.state == OPEN && cb.expiry == At(2 * SECOND);
    r := cb.Execute(Returned(0, None), t, t);
    assert r == Rejected(M.ErrCircuitBreaker);
  }

  /** TestCB1, second part: after the cooldown a call probes, and a failed probe reopens. */
  method ProbeFailureScenario(cb: CircuitBreaker, t: int)
    requires cb.Valid() && cb.cfg == M.WithDefaults(TestOptions())
    requires cb.state == OPEN && cb.expiry.instant < t
    modifies cb, cb.counts
  {
    var r := cb.Execute(Returned(0, None), t, t);
    assert r == Completed(0, None);
    assert cb.state == HALF_OPEN;
    r := cb.Execute(Returned(0, Some(M.RequestError("test"))), t, t);
    assert cb.state == OPEN;
    r := cb.Execute(Returned(0, None), t, t);
    assert r == Rejected(M.ErrCircuitBreaker);
  }

  /** TestCB1, third part: after the cooldown two successful probes close the breaker. */
  method ProbeSuccessScenario(cb: CircuitBreaker, t: int)
    requires cb.Valid() && cb.cfg == M.WithDefaults(TestOptions())
    requires cb.state == OPEN && cb.expiry.instant < t
    modifies cb, cb.counts
  {
    var r := cb.Execute(Returned(0, None), t, t);
    assert cb.state == HALF_OPEN;
    r := cb.Execute(Returned(0, None), t, t);
    assert cb.state == CLOSE;
  }

  /**
   * The end of TestCB1 and TestTwoStep: in HalfOpen with two probes
   * allowed, two admissions succeed and the third is refused as too many;
   * reporting both probes as successes closes the breaker.
   */
  method ProbeQuotaScenario() {
    var t := 0;
    var two := new TwoStepCircuitBreaker(TestOptions(), t);
    var d1 := two.IsAllow(t);
    two.Complete(d1.value, false, t);
    var d2 := two.IsAllow(t);
    two.Complete(d2.value, false, t);
    assert two.cb.state == OPEN;

    t := t + 2 * SECOND + 1;
    var p1 := two.IsAllow(t);
    var p2 := two.IsAllow(t);
    var p3 := two.IsAllow(t);
    assert p1.Ok? && p2.Ok?;
    assert p3 == Err(M.ErrToManyRequests);
    two.Complete(p1.value, true, t);
    two.Complete(p2.value, true, t);
    assert two.cb.state == CLOSE;
  }

  /**
   * Stale-generation safety: a request admitted in Close, still in flight
   * when two other failures open the breaker, reports into a later
   * generation and is dropped.
   */
  method StaleReportScenario() {
    var t := 0;
    var two := new TwoStepCircuitBreaker(TestOptions(), t);
    var late := two.IsAllow(t);
    var d1 := two.IsAllow(t);
    two.Complete(d1.value, false, t);
    var d2 := two.IsAllow(t);
    two.Complete(d2.value, false, t);
    assert two.cb.state == OPEN;
    ghost var tripped := two.cb.Model();
    two.Complete(late.value, false, t);
    assert two.cb.Model() == tripped;
  }
}
