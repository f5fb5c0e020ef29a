/**
 * The admission/report protocol over whole runs. Callers hold the tokens
 * that admissions handed out and report each at most once; under that
 * discipline, the outcomes counted in a generation never exceed its
 * admitted requests.
 */
module Protocol {
  import opened Wrappers
  import opened Counters
  import opened States
  import opened BreakerModel
  import opened BreakerProperties

  /** One critical section: an admission attempt, or a report under a token. */
  datatype Op = Admit(now: int) | Report(token: nat, success: bool, now: int)

  /** The breaker together with the tokens admitted and not yet reported. */
  datatype System = System(breaker: Breaker, pending: multiset<nat>)

  function Step(cfg: Config, s: System, op: Op): System {
    match op
    case Admit(now) =>
      var a := BeforeExecute(cfg, s.breaker, now);
      System(a.next, if a.err.None? then s.pending + multiset{a.generation} else s.pending)
    case Report(token, success, now) =>
      System(AfterExecute(cfg, s.breaker, token, success, now), s.pending - multiset{token})
  }

  function Run(cfg: Config, s: System, ops: seq<Op>): System
    decreases |ops|
  {
    if ops == [] then s else Run(cfg, Step(cfg, s, ops[0]), ops[1..])
  }

  /** An op is allowed when it is an admission or reports a token still pending. */
  predicate Allowed(s: System, op: Op) {
    op.Report? ==> op.token in s.pending
  }

  /** Every report in `ops` uses a token that is pending when it is made. */
  ghost predicate Disciplined(cfg: Config, s: System, ops: seq<Op>)
    decreases |ops|
  {
    ops == [] || (Allowed(s, ops[0]) && Disciplined(cfg, Step(cfg, s, ops[0]), ops[1..]))
  }

  /**
   * No pending token is newer than the breaker's generation, and in the
   * current generation every admitted request is either pending or counted
   * as exactly one success or failure.
   */
  ghost predicate Inv(cfg: Config, s: System) {
    WellFormed(cfg, s.breaker) &&
    (forall t :: t in s.pending ==> t <= s.breaker.generation) &&
    s.breaker.counts.totalSuccess + s.breaker.counts.totalFailures + s.pending[s.breaker.generation]
      == s.breaker.counts.totalRequests
  }

  /** A system after a step that started a new generation with no tokens of its own. */
  lemma FreshGeneration(cfg: Config, pending: multiset<nat>, before: nat, b: Breaker)
    requires ValidConfig(cfg) && WellFormed(cfg, b)
    requires forall t :: t in pending ==> t <= before
    requires b.generation > before && b.counts == EMPTY
    ensures Inv(cfg, System(b, pending))
  {
    assert b.generation !in pending;
  }

  /** Advancement keeps the invariant: it either changes nothing or rolls to a fresh generation. */
  lemma UpdateStateKeepsInv(cfg: Config, s: System, now: int)
    requires ValidConfig(cfg) && Inv(cfg, s)
    ensures Inv(cfg, System(UpdateState(cfg, s.breaker, now), s.pending))
  {
    var b := s.breaker;
    var u := UpdateState(cfg, b, now);
    UpdateStateWellFormed(cfg, b, now);
    UpdateStateEffect(cfg, b, now);
    if u != b {
      FreshGeneration(cfg, s.pending, b.generation, u);
    }
  }

  lemma AdmitKeepsInv(cfg: Config, s: System, now: int)
    requires ValidConfig(cfg) && Inv(cfg, s)
    ensures Inv(cfg, Step(cfg, s, Admit(now)))
  {
    UpdateStateKeepsInv(cfg, s, now);
    BeforeExecuteWellFormed(cfg, s.breaker, now);
    var a := BeforeExecute(cfg, s.breaker, now);
    var added := if a.err.None? then s.pending + multiset{a.generation} else s.pending;
    assert forall t :: t in added ==> t <= a.next.generation;
  }

  lemma ReportKeepsInv(cfg: Config, s: System, token: nat, success: bool, now: int)
    requires ValidConfig(cfg) && Inv(cfg, s) && token in s.pending
    ensures Inv(cfg, Step(cfg, s, Report(token, success, now)))
  {
    UpdateStateKeepsInv(cfg, s, now);
    var u := UpdateState(cfg, s.breaker, now);
    var rest := s.pending - multiset{token};
    var r := AfterExecute(cfg, s.breaker, token, success, now);
    AfterExecuteWellFormed(cfg, s.breaker, token, success, now);
    assert forall t :: t in rest ==> t in s.pending;
    if token != u.generation {
      assert rest[u.generation] == s.pending[u.generation];
    } else {
      assert rest[u.generation] == s.pending[u.generation] - 1;
      // an Open breaker has admitted nothing in this generation, so no token matches it
      assert u.state != OPEN;
      if success {
        OnSuccessEffect(cfg, u, now);
        if r.generation != u.generation {
          FreshGeneration(cfg, rest, u.generation, r);
        }
      } else {
        OnFailureEffect(cfg, u, now);
        if r.generation != u.generation {
          FreshGeneration(cfg, rest, u.generation, r);
        }
      }
    }
  }

  lemma StepKeepsInv(cfg: Config, s: System, op: Op)
    requires ValidConfig(cfg) && Inv(cfg, s) && Allowed(s, op)
    ensures Inv(cfg, Step(cfg, s, op))
  {
    match op
    case Admit(now) => AdmitKeepsInv(cfg, s, now);
    case Report(token, success, now) => ReportKeepsInv(cfg, s, token, success, now);
  }

  /** A breaker just constructed, with nothing pending, satisfies the invariant. */
  lemma InitInv(cfg: Config, now: int)
    requires ValidConfig(cfg)
    ensures Inv(cfg, System(Init(cfg, now), multiset{}))
  {
    InitWellFormed(cfg, now);
  }

  lemma {:induction false} RunKeepsInv(cfg: Config, s: System, ops: seq<Op>)
    requires ValidConfig(cfg) && Inv(cfg, s) && Disciplined(cfg, s, ops)
    ensures Inv(cfg, Run(cfg, s, ops))
    decreases |ops|
  {
    if ops != [] {
      StepKeepsInv(cfg, s, ops[0]);
      RunKeepsInv(cfg, Step(cfg, s, ops[0]), ops[1..]);
    }
  }

  /**
   * In every run from construction in which each token is reported at most
   * once, the current generation's successes and failures together never
   * exceed its admitted requests, and a HalfOpen breaker never holds more
   * than `threshold` admitted probes.
   */
  lemma OutcomesNeverExceedRequests(cfg: Config, now: int, ops: seq<Op>)
    requires ValidConfig(cfg)
    requires Disciplined(cfg, System(Init(cfg, now), multiset{}), ops)
    ensures var b := Run(cfg, System(Init(cfg, now), multiset{}), ops).breaker;
      b.counts.totalSuccess + b.counts.totalFailures <= b.counts.totalRequests &&
      (b.state == HALF_OPEN ==> b.counts.totalRequests <= cfg.threshold)
  {
    InitInv(cfg, now);
    RunKeepsInv(cfg, System(Init(cfg, now), multiset{}), ops);
  }
}
