/**
 * The executions the template's tests make, with the objects they build: each
 * method sets up a template, a work and a back-off policy as a test does, runs
 * `RetryTemplate.Execute` and states what the test observes.
 */
module Scenarios {
  import opened Wrappers
  import opened Exceptions
  import opened Policies
  import opened TemplateSpec
  import opened TemplateLemmas
  import opened Template

  /** Java's `Integer.MAX_VALUE`: a success point no policy of the tests reaches. */
  const INT_MAX: int := 0x7fff_ffff

  const PlannedFailure := Failure(IllegalArgumentException, "Planned", None)

  /**
   * `template.Execute` when the execution is already known to go as `expected` says:
   * the outcome, the calls of the work and the pauses are those of `expected`.
   */
  method ExecuteExpecting(template: RetryTemplate, work: RetryCallback, recovery: Option<Value>,
                          state: Option<RetryState>, ghost expected: RunResult)
    returns (r: Outcome)
    requires Run(template.Config(recovery, state), Snapshot(work), FreshState) == expected
    requires !work.kind.Inner?
    modifies template.backOffPolicy, work
    ensures r == expected.outcome && work.attempts == old(work.attempts) + Counted(work.kind, expected.attempts)
    ensures work.attemptsBeforeSuccess == old(work.attemptsBeforeSuccess)
    ensures template.backOffPolicy.startCalls == old(template.backOffPolicy.startCalls) + 1
    ensures template.backOffPolicy.backOffCalls == old(template.backOffPolicy.backOffCalls) + expected.backOffs
    ensures work.checks == old(work.checks)
  {
    var stack := new ContextStack();
    ghost var run;
    r, run := template.Execute(work, recovery, state, stack);
  }

  /** `template.Execute` on a work that throws `f` until its x-th call, with x attempts or more allowed. */
  method ExecuteSucceedingOnCall(template: RetryTemplate, work: RetryCallback, state: Option<RetryState>,
                                 x: nat, ghost f: Failure, ghost v: Value)
    returns (r: Outcome)
    requires 1 <= x && Snapshot(work) == FailUntil(0, x, f, v)
    requires var cfg := template.Config(None, state);
      cfg.policy.SimpleSpec? && x <= cfg.policy.maxAttempts && Classify(cfg.policy.retryable, f) && Plain(cfg, f, v)
    modifies template.backOffPolicy, work
    ensures r == Returned(v) && work.attempts == old(work.attempts) + x
    ensures template.backOffPolicy.startCalls == old(template.backOffPolicy.startCalls) + 1
    ensures template.backOffPolicy.backOffCalls == old(template.backOffPolicy.backOffCalls) + x - 1
  {
    SucceedsOnCallX(template.Config(None, state), x, f, v);
    r := ExecuteExpecting(template, work, None, state, RunResult(Returned(v), x, x - 1));
  }

  /**
   * `template.Execute`, without retry state, on a work that throws `f` until a call
   * later than the policy allows: every attempt is used, then the execution is exhausted.
   */
  method ExecuteSucceedingTooLate(template: RetryTemplate, work: RetryCallback, recovery: Option<Value>,
                                  threshold: int, ghost f: Failure, ghost v: Value)
    returns (r: Outcome)
    requires Snapshot(work) == FailUntil(0, threshold, f, v)
    requires var cfg := template.Config(recovery, None);
      cfg.policy.SimpleSpec? && 1 <= cfg.policy.maxAttempts < threshold
      && Classify(cfg.policy.retryable, f) && Plain(cfg, f, v)
    modifies template.backOffPolicy, work
    ensures r == if recovery.Some? then Returned(recovery.value) else Threw(WrapIfNecessary(Some(f)))
    ensures work.attempts == old(work.attempts) + template.Config(recovery, None).policy.maxAttempts
  {
    ghost var cfg := template.Config(recovery, None);
    SuccessTooLate(cfg, threshold, f, v);
    r := ExecuteExpecting(template, work, recovery, None,
      RunResult(Exhausted(cfg, Some(f)), cfg.policy.maxAttempts, cfg.policy.maxAttempts - 1));
  }

  /** `template.Execute` on a work whose first call throws `f`, which the simple policy does not retry. */
  method ExecuteNonRetryable(template: RetryTemplate, work: RetryCallback, ghost f: Failure)
    returns (r: Outcome)
    requires var cfg := template.Config(None, None);
      cfg.policy.SimpleSpec? && 1 <= cfg.policy.maxAttempts && !Classify(cfg.policy.retryable, f)
    requires NextAttempt(Snapshot(work)).Raise? && NextAttempt(Snapshot(work)).failure == f
    requires !work.kind.Inner? && !work.kind.Outer?
    modifies template.backOffPolicy, work
    ensures r == Threw(WrapIfNecessary(Some(f))) && work.attempts == old(work.attempts) + 1
    ensures work.attemptsBeforeSuccess == old(work.attemptsBeforeSuccess)
  {
    NonRetryableStopsAtOnce(template.Config(None, None), Snapshot(work), f);
    r := ExecuteExpecting(template, work, None, None, RunResult(Threw(WrapIfNecessary(Some(f))), 1, 0));
  }

  /**
   * `template.Execute` on a counting work that has been called `calls` times and throws
   * `f` until its count reaches `threshold`, which it does within the attempts allowed.
   */
  method ExecuteFailingUntil(template: RetryTemplate, work: RetryCallback, calls: nat, threshold: int,
                             ghost f: Failure, ghost v: Value)
    returns (r: Outcome)
    requires Snapshot(work) == FailUntil(calls, threshold, f, v)
    requires var cfg := template.Config(None, None);
      cfg.policy.SimpleSpec? && Classify(cfg.policy.retryable, f) && Plain(cfg, f, v)
      && FailuresBefore(calls, threshold) < cfg.policy.maxAttempts
    modifies template.backOffPolicy, work
    ensures r == Returned(v) && work.attempts == old(work.attempts) + FailuresBefore(calls, threshold) + 1
  {
    ghost var cfg := template.Config(None, None);
    ghost var n := FailuresBefore(calls, threshold);
    FailUntilUnderSimplePolicy(cfg, calls, threshold, f, v, FreshState);
    r := ExecuteExpecting(template, work, None, None, RunResult(Returned(v), n + 1, n));
  }

  /** `template.Execute` on a work returning `bad` first and `good` afterwards, `bad` vetoed by the one listener. */
  method ExecuteVetoingFirst(template: RetryTemplate, work: RetryCallback, bad: Value, good: Value, ghost veto: Failure)
    returns (r: Outcome)
    requires Snapshot(work) == FirstThen(true, bad, good) && !work.kind.Inner?
    requires var cfg := template.Config(None, None);
      bad != good && cfg.listeners == [ResultVeto(bad, veto)]
      && cfg.policy.SimpleSpec? && 2 <= cfg.policy.maxAttempts && Classify(cfg.policy.retryable, veto)
      && cfg.interruption.None? && !RollsBack(cfg, veto)
    modifies template.backOffPolicy, work
    ensures r == Returned(good) && work.attempts == old(work.attempts) + 2
  {
    VetoedResultIsRetried(template.Config(None, None), bad, good, veto);
    r := ExecuteExpecting(template, work, None, None, RunResult(Returned(good), 2, 1));
  }

  /**
   * A counting work that throws a plain Exception until its x-th call, under a simple
   * policy allowing x attempts: it is called x times and its null is returned.
   */
  method SuccessfulRetry(x: nat) returns (r: Outcome, calls: nat)
    requires 1 <= x
    ensures r == Returned(Null) && calls == x
  {
    var work := new RetryCallback(FailingUntil(Null));
    work.SetAttemptsBeforeSuccess(x);
    var template := new RetryTemplate();
    var policy := new SimpleRetryPolicy.WithMaxAttempts(x);
    template.SetRetryPolicy(Simple(policy));
    DefaultRetriesExceptions(work.exceptionToThrow);
    r := ExecuteSucceedingOnCall(template, work, None, x, work.exceptionToThrow, Null);
    calls := work.attempts;
  }

  /**
   * A work that throws the planned IllegalArgumentException until its x-th call, under
   * a simple policy allowing x attempts: it is called x times and returns "foo".
   */
  method SpecificExceptionRetry(x: nat) returns (r: Outcome, calls: nat)
    requires 1 <= x
    ensures r == Returned(Str("foo")) && calls == x
  {
    var work := new RetryCallback(FailingUntil(Str("foo")));
    work.SetAttemptsBeforeSuccess(x);
    work.SetExceptionToThrow(PlannedFailure);
    var template := new RetryTemplate();
    var policy := new SimpleRetryPolicy.WithMaxAttempts(x);
    template.SetRetryPolicy(Simple(policy));
    DefaultRetriesExceptions(PlannedFailure);
    r := ExecuteSucceedingOnCall(template, work, None, x, PlannedFailure, Str("foo"));
    calls := work.attempts;
  }

  /**
   * A work that would succeed on its third call, under a simple policy allowing two
   * attempts and with a recovery callback: called twice, the recovered value returned.
   */
  method SuccessfulRecovery(value: Value) returns (r: Outcome, calls: nat)
    ensures r == Returned(value) && calls == 2
  {
    var work := new RetryCallback(FailingUntil(Null));
    work.SetAttemptsBeforeSuccess(3);
    var template := new RetryTemplate();
    var policy := new SimpleRetryPolicy.WithMaxAttempts(2);
    template.SetRetryPolicy(Simple(policy));
    DefaultRetriesExceptions(work.exceptionToThrow);
    r := ExecuteSucceedingTooLate(template, work, Some(value), 3, work.exceptionToThrow, Null);
    calls := work.attempts;
  }

  /** Under a never-retry policy a work that returns at once is called once. */
  method AlwaysTryAtLeastOnce() returns (r: Outcome, calls: nat)
    ensures r == Returned(Null) && calls == 1
  {
    var work := new RetryCallback(FailingUntil(Null));
    var template := new RetryTemplate();
    var policy := new NeverRetryPolicy();
    template.SetRetryPolicy(Never(policy));
    ReturnedValueEnds(template.Config(None, None), Snapshot(work));
    r := ExecuteExpecting(template, work, None, None, RunResult(Returned(Null), 1, 0));
    calls := work.attempts;
  }

  /**
   * A work that keeps throwing an IllegalArgumentException, under a simple policy
   * allowing two attempts: called twice, and that same throwable escapes.
   */
  method NoSuccessRetry(failure: Failure) returns (r: Outcome, calls: nat)
    requires failure.kind == IllegalArgumentException
    ensures r == Threw(failure) && calls == 2
  {
    var work := new RetryCallback(FailingUntil(Null));
    work.SetExceptionToThrow(failure);
    work.SetAttemptsBeforeSuccess(INT_MAX);
    var template := new RetryTemplate();
    var policy := new SimpleRetryPolicy.WithMaxAttempts(2);
    template.SetRetryPolicy(Simple(policy));
    DefaultRetriesExceptions(failure);
    r := ExecuteSucceedingTooLate(template, work, None, INT_MAX, failure, Null);
    calls := work.attempts;
  }

  /**
   * A subclass of Exception is retried by the default classifier: a work failing with
   * IllegalArgumentException until its third call, three attempts allowed, is called three times.
   */
  method DefaultConfigWithExceptionSubclass(failure: Failure) returns (r: Outcome, calls: nat)
    requires failure.kind == IllegalArgumentException
    ensures r == Returned(Null) && calls == 3
  {
    var work := new RetryCallback(FailingUntil(Null));
    work.SetAttemptsBeforeSuccess(3);
    work.SetExceptionToThrow(failure);
    var template := new RetryTemplate();
    var policy := new SimpleRetryPolicy.WithMaxAttempts(3);
    template.SetRetryPolicy(Simple(policy));
    DefaultRetriesExceptions(failure);
    r := ExecuteSucceedingOnCall(template, work, None, 3, failure, Null);
    calls := work.attempts;
  }

  /**
   * A stateful execution whose rollback classifier answers false for the thrown
   * IllegalArgumentException retries as the policy says: three calls, then success.
   */
  method RollbackClassifierOverridesRetryPolicy(failure: Failure) returns (r: Outcome, calls: nat)
    requires failure.kind == IllegalArgumentException
    ensures r == Returned(Null) && calls == 3
  {
    var work := new RetryCallback(FailingUntil(Null));
    work.SetAttemptsBeforeSuccess(3);
    work.SetExceptionToThrow(failure);
    var template := new RetryTemplate();
    var policy := new SimpleRetryPolicy(3, map[Exception := true], false, false);
    template.SetRetryPolicy(Simple(policy));
    var state := DefaultRetryState("foo", Classifier(map[IllegalArgumentException := false], false, true));
    assert Nearest(map[Exception := true], IllegalArgumentException) == Some(Exception);
    r := ExecuteSucceedingOnCall(template, work, Some(state), 3, failure, Null);
    calls := work.attempts;
  }

  /**
   * A policy retrying only RuntimeExceptions: a plain Exception escapes after one call;
   * the same work, now throwing a RuntimeException, goes on to succeed on its third call
   * overall, two calls later.
   */
  method SetExceptions(failure: Failure) returns (r1: Outcome, calls1: nat, r2: Outcome, calls2: nat)
    requires failure.kind == RuntimeException
    ensures r1 == Threw(Failure(Exception, "", None)) && calls1 == 1
    ensures r2 == Returned(Null) && calls2 == 3
  {
    var template := new RetryTemplate();
    var policy := new SimpleRetryPolicy(3, map[RuntimeException := true], false, false);
    template.SetRetryPolicy(Simple(policy));
    var work := new RetryCallback(FailingUntil(Null));
    work.SetAttemptsBeforeSuccess(3);
    r1 := ExecuteNonRetryable(template, work, work.exceptionToThrow);
    calls1 := work.attempts;
    work.SetExceptionToThrow(failure);
    r2 := ExecuteFailingUntil(template, work, 1, 3, failure, Null);
    calls2 := work.attempts;
  }

  /**
   * A work succeeding on its x-th call, with ten attempts allowed and a counting
   * back-off policy: called x times, the back-off started once and paused x - 1 times.
   */
  method BackOffInvoked(x: nat) returns (r: Outcome, calls: nat, starts: nat, pauses: nat)
    requires 1 <= x <= 10
    ensures r == Returned(Null) && calls == x && starts == 1 && pauses == x - 1
  {
    var work := new RetryCallback(FailingUntil(Null));
    var backOff := new BackOffPolicy(None);
    work.SetAttemptsBeforeSuccess(x);
    var template := new RetryTemplate();
    var policy := new SimpleRetryPolicy.WithMaxAttempts(10);
    template.SetRetryPolicy(Simple(policy));
    template.SetBackOffPolicy(backOff);
    DefaultRetriesExceptions(work.exceptionToThrow);
    r := ExecuteSucceedingOnCall(template, work, None, x, work.exceptionToThrow, Null);
    calls := work.attempts;
    starts := backOff.startCalls;
    pauses := backOff.backOffCalls;
  }

  /**
   * A work that marks its context exhausted-only and throws an IllegalStateException:
   * that throwable escapes, whether or not the template rethrows the last exception on
   * exhaustion.
   */
  method EarlyTermination(throwLast: bool, message: string) returns (r: Outcome)
    ensures r == Threw(Failure(IllegalStateException, message, None))
  {
    var failure := Failure(IllegalStateException, message, None);
    var template := new RetryTemplate();
    template.SetThrowLastExceptionOnExhausted(throwLast);
    var work := new RetryCallback(Throwing(failure, true));
    ExhaustedOnlyStopsAtOnce(template.Config(None, None), failure);
    r := ExecuteExpecting(template, work, None, None, RunResult(Threw(failure), 1, 0));
  }

  /**
   * An outer execution whose work runs an inner execution: the two works are called
   * once each, every check the works make of the current and parent contexts holds,
   * and the inner null is returned.
   */
  method NestedContexts() returns (r: Outcome, count: nat, checks: bool)
    ensures r == Returned(Null) && count == 2 && checks
  {
    var template := new RetryTemplate();
    var work := new RetryCallback(Outer);
    ReturnedValueEnds(template.Config(None, None), Snapshot(work));
    r := ExecuteExpecting(template, work, None, None, RunResult(Returned(Null), 1, 0));
    count := work.attempts;
    checks := work.checks;
  }

  /** Under a never-retry policy an Error thrown by the work escapes unchanged after one call. */
  method RethrowError(message: string) returns (r: Outcome, calls: nat)
    ensures r == Threw(Failure(Error, message, None)) && calls == 1
  {
    var failure := Failure(Error, message, None);
    var template := new RetryTemplate();
    var policy := new NeverRetryPolicy();
    template.SetRetryPolicy(Never(policy));
    var work := new RetryCallback(Throwing(failure, false));
    NeverRethrowsFailure(template.Config(None, None), Snapshot(work), failure);
    r := ExecuteExpecting(template, work, None, None, RunResult(Threw(failure), 1, 0));
    calls := work.attempts;
  }

  /**
   * A policy whose registration throws "Planned": the execution ends with a
   * terminated-retry exception caused by it.
   */
  method FailedPolicy() returns (r: Outcome)
    ensures r.Threw? && r.failure.kind == TerminatedRetryException
    ensures r.failure.cause.Some? && r.failure.cause.value.message == "Planned"
  {
    var template := new RetryTemplate();
    var policy := new RejectingRetryPolicy(Failure(RuntimeException, "Planned", None));
    template.SetRetryPolicy(Rejecting(policy));
    var work := new RetryCallback(Throwing(Failure(RuntimeException, "Realllly bad!", None), false));
    PolicyFailureTerminates(template.Config(None, None), Snapshot(work), policy.error);
    r := ExecuteExpecting(template, work, None, None, RunResult(Threw(Terminated(policy.error)), 1, 0));
  }

  /** A back-off policy whose pause is interrupted: its interruption ends the execution. */
  method BackOffInterrupted() returns (r: Outcome)
    ensures r == Threw(Failure(BackOffInterruptedException, "foo", None))
  {
    var interruption := Failure(BackOffInterruptedException, "foo", None);
    var failure := Failure(RuntimeException, "Bad!", None);
    var template := new RetryTemplate();
    var backOff := new BackOffPolicy(Some(interruption));
    template.SetBackOffPolicy(backOff);
    var work := new RetryCallback(Throwing(failure, false));
    DefaultRetriesExceptions(failure);
    InterruptionPropagates(template.Config(None, None), Snapshot(work), failure);
    r := ExecuteExpecting(template, work, None, None, RunResult(Threw(interruption), 1, 1));
  }

  /**
   * A stateful execution whose retry state rolls back for every throwable, under a
   * simple policy allowing one attempt: the work's throwable escapes after one call,
   * the back-off policy was started and never paused.
   */
  method NoBackOffForRethrownException(message: string) returns (r: Outcome, calls: nat, starts: nat, pauses: nat)
    ensures r == Threw(Failure(Exception, message, None)) && calls == 1
    ensures starts == 1 && pauses == 0
  {
    var failure := Failure(Exception, message, None);
    var template := new RetryTemplate();
    var policy := new SimpleRetryPolicy.WithMaxAttempts(1);
    template.SetRetryPolicy(Simple(policy));
    var backOff := new BackOffPolicy(None);
    template.SetBackOffPolicy(backOff);
    var state := DefaultRetryState("tested", Classifier(map[], false, true));
    var work := new RetryCallback(Throwing(failure, false));
    RollbackRethrowsAtOnce(template.Config(None, Some(state)), Snapshot(work), failure);
    r := ExecuteExpecting(template, work, None, Some(state), RunResult(Threw(failure), 1, 0));
    calls := work.attempts;
    starts := backOff.startCalls;
    pauses := backOff.backOffCalls;
  }

  /**
   * A listener that throws on the result "bad": the work returning "bad" first and
   * "good" afterwards is called twice and "good" is returned.
   */
  method RetryOnBadResult(message: string) returns (r: Outcome, calls: nat)
    ensures r == Returned(Str("good")) && calls == 2
  {
    var veto := Failure(IllegalStateException, message, None);
    var template := new RetryTemplate();
    template.RegisterListener(ResultVeto(Str("bad"), veto));
    var work := new RetryCallback(BadThenGood);
    DefaultRetriesExceptions(veto);
    r := ExecuteVetoingFirst(template, work, Str("bad"), Str("good"), veto);
    calls := work.attempts;
  }
}
