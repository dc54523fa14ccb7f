/** Validation of the broker's time limits (src/config.rs:54-82). */
module Config {
  import opened Ids
  import opened StateMachine
  import opened Timing

  datatype ConfigError = IntervalAboveExpiration | TimeoutTooLow

  const MIN_TIMEOUT: nat := 500 // milliseconds

  ghost predicate Accepted(limits: Limits) {
    limits.interval <= limits.expiration && MIN_TIMEOUT <= limits.timeout
  }

  method Validate(limits: Limits) returns (errors: seq<ConfigError>)
    ensures IntervalAboveExpiration in errors <==> limits.interval > limits.expiration
    ensures TimeoutTooLow in errors <==> limits.timeout < MIN_TIMEOUT
    ensures errors == [] <==> Accepted(limits)
  {
    errors := [];
    if limits.interval > limits.expiration {
      errors := errors + [IntervalAboveExpiration];
    }
    if limits.timeout < MIN_TIMEOUT {
      errors := errors + [TimeoutTooLow];
    }
  }

  /** Under accepted limits no connected client has been silent for longer than twice the expiration. */
  lemma {:induction false} ValidatedStaleness(limits: Limits, t: int, steps: seq<Step>, c: ClientId)
    requires Accepted(limits)
    requires IsRun(limits, Start(t), steps) && c in Exec(Start(t), steps).next.broker.connected
    ensures Exec(Start(t), steps).next.now - Exec(Start(t), steps).next.broker.connected[c].lastSeen
            <= 2 * limits.expiration
  {
    StalenessBounded(limits, t, steps, c);
  }
}
