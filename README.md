# Circuit breaker: a verified model

This project models the circuit breaker of `braker.go` in Dafny. The
breaker guards calls to an unreliable dependency and has three states:

- **Close**: calls flow and failures are counted.
- **Open**: every call is refused until a cooldown (`Timeout`) elapses.
- **HalfOpen**: at most `Threshold` probe calls are admitted. One failure
  reopens the breaker, and `Threshold` successes in a row close it.

The breaker counts outcomes per *generation*. A generation starts on every
state change and whenever Close's counting window (`Interval`) elapses. An
admitted call carries its generation as a token. A report under an older
token is dropped.

Layout, leaves first:

- `wrappers.dfy`: `Option` and `Result`.
- `counters.dfy`: the five counters. `Tally` is the value that snapshots and
  the trip predicate see. `Counts` is the object the breaker updates in place.
  Also lemmas about replaying a sequence of outcomes.
- `states.dfy`: `State` (Go's `type State int`, so the "Unknown" name of
  `String` is modelled), `ToString`, and the expiry timestamp `Expiry`
  (Go's zero `time.Time` or an instant).
- `model.dfy`: the breaker as a value. `Config` holds the defaulted options and
  `Breaker` the state, generation, expiry, counts and observer log. Each Go
  method is one function (`NewGeneration`, `SetState`, `UpdateState`,
  `OnSuccess`, `OnFailure`, `BeforeExecute`, `AfterExecute`). `WellFormed` is
  the invariant of reachable breakers.
- `properties.dfy`: what each transition does, and that `WellFormed` is
  preserved.
- `breaker.dfy`: the `CircuitBreaker` and `TwoStepCircuitBreaker` classes. Each
  method updates the fields step by step as the Go code does, and is proved to
  reach the state the matching function of `model.dfy` computes.
- `protocol.dfy`: runs of admissions and reports. If every token is reported
  at most once, a generation never counts more outcomes than admitted requests.
- `scenarios.dfy`: `TestCBGeneration`, `TestCounts`, `TestCb`, `TestCB1` and
  the admission part of `TestTwoStep` from `breaker_test.go`, replayed through
  the class contracts.

Time is an integer number of nanoseconds passed in as `now`. `Before(now)`
means strictly earlier than `now`. Go's zero time lies before every clock
reading, so it counts as `Before` any `now`. The `OnStateChange` observer is
a ghost log of `(before, after)` events that `SetState` appends to.

Four behaviours of the code that a reader might not expect, all followed by the model:

- `NewCircuitBreaker` replaces a non-positive `Interval` by one second
  (braker.go:92-94). So the "window disabled" branch of `newGeneration`
  (braker.go:225-226) is modelled but unreachable, and Close always carries an
  expiry instant.
- When Open's cooldown elapses, `updateState` calls `newGeneration` and then
  `setState` (braker.go:210-212). So Open→HalfOpen advances the generation by
  two (`BreakerProperties.UpdateStateEffect`).
- `onSuccess` rolls an elapsed Close window (braker.go:242-245). But
  `afterExecute` has always just run `updateState`, so that roll never happens
  on a current report. `BreakerProperties.CloseSuccessOnlyCounts` proves this.
- When the guarded request panics, `Execute` reports `IsSuccessful(err)`. Here
  `err` is still the nil left by admission, because `resp, err := req()` never
  assigned it (braker.go:149, 153-158). With the default predicate, a panic
  is therefore reported as a success, not a failure. `Braker.CircuitBreaker.Execute`
  states that verdict as `cfg.isSuccessful(None)`.

## Model

| member | source | states |
|---|---|---|
| `States.ToString` | braker.go:23-33 | Close, Open and HalfOpen are named "Close", "Open" and "HalfOpen", each name only for its state; every other value is "Unknown" |
| `States.Expiry.IsZero` | braker.go:206 | no contract of its own: Go's `expiry.IsZero()`, true exactly of the zero time; its use is stated by `BreakerProperties.UpdateStateEffect` |
| `States.Expiry.Before` | braker.go:206-210 | no contract of its own: Go's `expiry.Before(now)`, strictly earlier than `now`, with the zero time before every reading; its uses are stated by `BreakerProperties.UpdateStateEffect` and `BreakerProperties.OnSuccessEffect` |
| `States.ToStringInjective` | braker.go:23-33 | distinct known states print differently |
| `Counters.Counts.constructor` | braker.go:110 | a new counter object has all five counters at zero |
| `Counters.Counts.Clear` | braker.go:164-170 | all five counters become zero |
| `Counters.Counts.OnRequest` | braker.go:172-174 | total requests goes up by one and nothing else changes |
| `Counters.Counts.OnSuccess` | braker.go:175-179 | total and consecutive successes go up by one, consecutive failures become zero, the rest is unchanged |
| `Counters.Counts.OnFailure` | braker.go:181-185 | total and consecutive failures go up by one, consecutive successes become zero, the rest is unchanged |
| `Counters.StepsKeepConsistent` | braker.go:164-185 | each counter step keeps the counters consistent: at most one run open, no run longer than its total |
| `Counters.ReplayFromEmpty` | breaker_test.go:59-72 | from zero, the totals count the successes and failures recorded, the consecutive counters equal the length of the trailing run of successes or failures, and requests stay untouched |
| `Counters.ReplayConsistent` | braker.go:175-185 | replaying outcomes keeps the counters consistent, adds exactly one outcome per entry and leaves requests alone |
| `BreakerModel.WithDefaults` | braker.go:92-106 | after defaulting, Interval > 0, Timeout > 0 and Threshold >= 1; a positive (non-zero) option is kept, otherwise 1s, 60s, 1, ten-failures trip and "no error" success are used |
| `BreakerModel.DefaultReadyToTrip` | braker.go:49-51 | no contract of its own: the default trip predicate, ten or more consecutive failures; `BreakerModel.WithDefaults` states when it is used |
| `BreakerModel.DefaultIsSuccessful` | braker.go:52-54 | no contract of its own: the default success predicate, "no error"; `BreakerModel.WithDefaults` states when it is used |
| `BreakerModel.Init` | braker.go:108-116 | no contract of its own; its meaning is `BreakerProperties.InitWellFormed` |
| `BreakerModel.NewGeneration` | braker.go:219-236 | no contract of its own; its meaning is `BreakerProperties.NewGenerationEffect` and `BreakerProperties.NewGenerationWellFormed` |
| `BreakerModel.SetState` | braker.go:188-200 | no contract of its own; its meaning is `BreakerProperties.SetStateEffect` and `BreakerProperties.SetStateWellFormed` |
| `BreakerModel.UpdateState` | braker.go:203-216 | no contract of its own; its meaning is `BreakerProperties.UpdateStateEffect`, `BreakerProperties.UpdateStateIdempotent` and `BreakerProperties.UpdateStateWellFormed` |
| `BreakerModel.OnSuccess` | braker.go:239-251 | no contract of its own; its meaning is `BreakerProperties.OnSuccessEffect` and `BreakerProperties.OnSuccessWellFormed` |
| `BreakerModel.OnFailure` | braker.go:254-264 | no contract of its own; its meaning is `BreakerProperties.OnFailureEffect` and `BreakerProperties.OnFailureWellFormed` |
| `BreakerModel.BeforeExecute` | braker.go:267-283 | no contract of its own; its meaning is `BreakerProperties.BeforeExecuteEffect`, `BreakerProperties.ProbeQuota`, `BreakerProperties.BeforeExecuteWellFormed` and `BreakerProperties.BeforeExecuteHistory` |
| `BreakerModel.AfterExecute` | braker.go:286-300 | no contract of its own; its meaning is `BreakerProperties.StaleReportIgnored`, `BreakerProperties.CloseSuccessOnlyCounts`, `BreakerProperties.AfterExecuteWellFormed` and `BreakerProperties.AfterExecuteHistory` |
| `BreakerProperties.ChainAppend` | braker.go:192-199 | logging a genuine change from the current state keeps the observer log a connected history of changes |
| `BreakerProperties.NewGenerationEffect` | braker.go:219-236 | the generation strictly grows, counters clear, the state and log stay, expiry becomes now+Interval in Close, now+Timeout in Open, zero in HalfOpen |
| `BreakerProperties.SetStateEffect` | braker.go:188-200 | the current state is a no-op (same generation, counts, expiry, log); another state is entered with one new generation, cleared counters and exactly one (old, new) event |
| `BreakerProperties.UpdateStateEffect` | braker.go:203-216 | an elapsed Close window rolls the generation without an event; an elapsed Open cooldown moves to HalfOpen two generations on with one event; HalfOpen and unexpired states are unchanged |
| `BreakerProperties.UpdateStateIdempotent` | braker.go:203-216 | advancing twice at the same instant equals advancing once |
| `BreakerProperties.OnFailureEffect` | braker.go:254-264 | a Close failure is counted and trips to Open exactly when the trip predicate holds of the updated counters; a HalfOpen failure reopens regardless; an Open failure changes nothing |
| `BreakerProperties.OnSuccessEffect` | braker.go:239-251 | a HalfOpen success closes the breaker once consecutive successes reach Threshold and is only counted before that; a Close success inside the window is only counted, and one after the window rolls to a new generation with cleared counters and expiry now+Interval and no event; an Open success is only counted |
| `BreakerProperties.BeforeExecuteEffect` | braker.go:267-283 | after advancement Open yields ErrCircuitBreaker and a full HalfOpen ErrToManyRequests with counters untouched; admission happens exactly otherwise and counts one request; the current generation is returned |
| `BreakerProperties.ProbeQuota` | braker.go:276-281 | a HalfOpen breaker admits exactly while fewer than Threshold probes were admitted, and never holds more than Threshold |
| `BreakerProperties.StaleReportIgnored` | braker.go:286-293 | a report whose token is not the generation after advancement changes nothing beyond the advancement |
| `BreakerProperties.CloseSuccessOnlyCounts` | braker.go:239-245 | in a well-formed Close breaker, a current success is only counted: the window roll in onSuccess cannot fire after updateState |
| `BreakerProperties.InitWellFormed` | braker.go:90-117 | a new breaker is in Close, generation 1, zero counts, expiry now+Interval, empty log, and well-formed |
| `BreakerProperties.NewGenerationWellFormed` | braker.go:219-236 | starting a generation keeps the breaker well-formed |
| `BreakerProperties.MoveWellFormed` | braker.go:188-200 | a genuine state change yields a well-formed breaker whatever the counters were |
| `BreakerProperties.SetStateWellFormed` | braker.go:188-200 | setState keeps the breaker well-formed |
| `BreakerProperties.UpdateStateWellFormed` | braker.go:203-216 | advancement keeps the breaker well-formed |
| `BreakerProperties.OnSuccessWellFormed` | braker.go:239-251 | recording a success keeps the breaker well-formed |
| `BreakerProperties.OnFailureWellFormed` | braker.go:254-264 | recording a failure keeps the breaker well-formed |
| `BreakerProperties.BeforeExecuteWellFormed` | braker.go:267-283 | admission keeps the breaker well-formed, so HalfOpen never exceeds Threshold admitted probes |
| `BreakerProperties.AfterExecuteWellFormed` | braker.go:286-300 | a report, stale or current, keeps the breaker well-formed |
| `BreakerProperties.BeforeExecuteHistory` | braker.go:267-283 | admission never lowers the generation or shortens the log, and a state change comes with a new generation and a logged event |
| `BreakerProperties.AfterExecuteHistory` | braker.go:286-300 | the same for a report |
| `Braker.CircuitBreaker.constructor` | braker.go:90-117 | the options are defaulted and the breaker starts in Close, generation 1, zero counts and expiry now+Interval |
| `Braker.CircuitBreaker.Counts` | braker.go:125-129 | returns a copy of the current counters |
| `Braker.CircuitBreaker.NewGeneration` | braker.go:219-236 | the fields reach `BreakerModel.NewGeneration` of the old state, the new generation is returned, and the object invariant is kept |
| `Braker.CircuitBreaker.SetState` | braker.go:188-200 | the fields and observer log reach `BreakerModel.SetState` of the old state; moving to one of the three states keeps the object invariant |
| `Braker.CircuitBreaker.UpdateState` | braker.go:203-216 | the fields reach `BreakerModel.UpdateState` of the old state, and the object invariant is kept |
| `Braker.CircuitBreaker.OnSuccess` | braker.go:239-251 | the fields reach `BreakerModel.OnSuccess` of the old state, and the object invariant is kept |
| `Braker.CircuitBreaker.OnFailure` | braker.go:254-264 | the fields reach `BreakerModel.OnFailure` of the old state, and the object invariant is kept |
| `Braker.CircuitBreaker.BeforeExecute` | braker.go:267-283 | keeps the object invariant and reaches `BreakerModel.BeforeExecute`. ErrCircuitBreaker is returned exactly in Open. A rejection leaves the counters as advancement left them; an admission adds one request. The generation returned is the current one |
| `Braker.CircuitBreaker.AfterExecute` | braker.go:286-300 | keeps the object invariant and reaches `BreakerModel.AfterExecute`; a stale token leaves only the advancement's effect |
| `Braker.CircuitBreaker.Execute` | braker.go:148-162 | a rejection is returned with the request not run and no report; otherwise the request's outcome is reported under the admission generation, classified by IsSuccessful (IsSuccessful of nil on a panic), and its result or panic is passed on |
| `Braker.TwoStepCircuitBreaker.constructor` | braker.go:119-123 | wraps a new, defaulted breaker |
| `Braker.TwoStepCircuitBreaker.IsAllow` | braker.go:136-145 | a rejection returns only the error; an admission returns a callback bound to the admission generation |
| `Braker.TwoStepCircuitBreaker.Complete` | braker.go:141-143 | calling the callback reports the outcome under its admission generation |
| `Protocol.FreshGeneration` | braker.go:219-221 | a new generation with cleared counters has no pending token of its own |
| `Protocol.UpdateStateKeepsInv` | braker.go:203-216 | advancement keeps pending tokens no newer than the generation and "successes + failures + pending = requests" |
| `Protocol.AdmitKeepsInv` | braker.go:267-283 | an admission keeps that invariant: it counts one request and adds one pending token |
| `Protocol.ReportKeepsInv` | braker.go:286-300 | reporting a pending token keeps that invariant, whether it is stale or current |
| `Protocol.StepKeepsInv` | braker.go:267-300 | every allowed step keeps the invariant |
| `Protocol.InitInv` | braker.go:90-117 | a new breaker with nothing pending satisfies the invariant |
| `Protocol.RunKeepsInv` | braker.go:267-300 | any run that reports only pending tokens keeps the invariant |
| `Protocol.OutcomesNeverExceedRequests` | braker.go:281-298 | from construction, if each token is reported at most once: TotalSuccess + TotalFailures <= TotalRequests, and HalfOpen holds at most Threshold requests |

## Left out

- The `sync.Mutex` and all concurrency. `BeforeExecute` and `AfterExecute` are treated as atomic steps. Interleavings of callers are the `Protocol` runs.
- `Braker.CircuitBreaker.Counts`: the Go code unlocks before it reads (braker.go:126-128), which is a race. The model reads the counters directly.
- Real time. `time.Now`, `time.Time` and `time.Duration` become integer nanoseconds passed in by the caller. `now + Interval` is not bounded to 64 bits.
- Counters.Counts.OnRequest, Counters.Counts.OnSuccess, Counters.Counts.OnFailure and Braker.CircuitBreaker.NewGeneration: counters and generation are unbounded `nat`s, so the uint64 wrap-around after 2^64 increments is not modelled.
- `OnStateChange` side effects and logging. The ghost log records every observer call the code makes when an observer is set. The breaker's `Name` is carried in `Config` but not put into the log.
- The generality of `IsSuccessful` and of the request's result. The request's error is an `Option<Error>`, and its value has a type parameter.
- Go's `panic`/`recover` mechanics. A panic is the outcome `Panicked` of the request, and `Execute` answers `Repanicked`; the panic value itself is not modelled.
- `TwoStepCircuitBreaker.Counts` (braker.go:131-133) only forwards to the wrapped breaker. Through the model it is `cb.Counts()`.
- The goroutines, sleeps and mock clock of `breaker_test.go`. The sequential steps of `TestCBGeneration`, `TestCounts`, `TestCb` and `TestCB1`, and the admissions and reports of `TestTwoStep`, appear in `scenarios.dfy`, with sleeping modelled as a later clock value.
