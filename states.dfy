/** Breaker states and the expiry timestamp, with time as integer nanoseconds. */
module States {

  /** Go's `type State int`: only the three constants below are ever stored. */
  newtype State = int

  const CLOSE: State := 0
  const OPEN: State := 1
  const HALF_OPEN: State := 2

  predicate IsKnown(s: State) {
    s == CLOSE || s == OPEN || s == HALF_OPEN
  }

  /** `State.String`: the names observers and logs rely on. */
  function ToString(s: State): (r: string)
    ensures r == "Close" <==> s == CLOSE
    ensures r == "Open" <==> s == OPEN
    ensures r == "HalfOpen" <==> s == HALF_OPEN
    ensures r == "Unknown" <==> !IsKnown(s)
  {
    if s == CLOSE then "Close"
    else if s == OPEN then "Open"
    else if s == HALF_OPEN then "HalfOpen"
    else "Unknown"
  }

  /** Distinct known states have distinct names, so a log line identifies its state. */
  lemma ToStringInjective(s: State, t: State)
    requires IsKnown(s) && IsKnown(t) && s != t
    ensures ToString(s) != ToString(t)
  {
  }

  /**
   * The breaker's `expiry`: Go's zero `time.Time{}` or an instant. The zero
   * time lies before every clock reading, so it is `Before` any `now`.
   */
  datatype Expiry = ZeroTime | At(instant: int) {

    predicate IsZero() {
      ZeroTime?
    }

    /** `expiry.Before(now)`: strictly earlier than `now`. */
    predicate Before(now: int) {
      ZeroTime? || instant < now
    }
  }
}
