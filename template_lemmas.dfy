/**
 * What one execution of the retry template does, proved about the execute loop
 * as a function (`TemplateSpec.Run`): how many attempts and pauses it makes and
 * which outcome ends it.
 */
module TemplateLemmas {
  import opened Wrappers
  import opened Exceptions
  import opened Policies
  import opened TemplateSpec

  /** The number of calls a counting work fails before it first returns. */
  function FailuresBefore(calls: nat, attemptsBeforeSuccess: int): nat {
    if attemptsBeforeSuccess - calls - 1 > 0 then attemptsBeforeSuccess - calls - 1 else 0
  }

  /** A configuration that neither pauses with an interruption, nor vetoes `v`, nor rolls back for `f`. */
  predicate Plain(cfg: RunConfig, f: Failure, v: Value) {
    cfg.interruption.None? && Veto(cfg.listeners, v).None? && !RollsBack(cfg, f)
  }

  /** The attempts a simple policy still allows from context state `s`. */
  function Budget(cfg: RunConfig, s: ContextState): nat
    requires cfg.policy.SimpleSpec?
  {
    if s.count < cfg.policy.maxAttempts then cfg.policy.maxAttempts - s.count else 0
  }

  /**
   * A work that fails with a retryable throwable until its call count reaches a
   * threshold, under a simple policy: it succeeds if it gets to succeed within the
   * attempts left, with one pause between consecutive attempts; otherwise the
   * attempts run out after all of them were used.
   */
  lemma {:induction false} FailUntilUnderSimplePolicy(
    cfg: RunConfig, calls: nat, threshold: int, f: Failure, v: Value, s: ContextState)
    requires cfg.policy.SimpleSpec? && Classify(cfg.policy.retryable, f)
    requires Plain(cfg, f, v)
    requires !s.exhaustedOnly && (s.lastThrowable.None? || s.lastThrowable == Some(f))
    ensures Budget(cfg, s) == 0 ==>
      Run(cfg, FailUntil(calls, threshold, f, v), s) == RunResult(Exhausted(cfg, s.lastThrowable), 0, 0)
    ensures 0 < Budget(cfg, s) && FailuresBefore(calls, threshold) < Budget(cfg, s) ==>
      var n := FailuresBefore(calls, threshold);
      Run(cfg, FailUntil(calls, threshold, f, v), s) == RunResult(Returned(v), n + 1, n)
    ensures 0 < Budget(cfg, s) <= FailuresBefore(calls, threshold) ==>
      var r := Run(cfg, FailUntil(calls, threshold, f, v), s);
      r.outcome == Exhausted(cfg, Some(f)) && r.attempts == Budget(cfg, s) && r.backOffs + 1 == Budget(cfg, s)
    decreases Budget(cfg, s)
  {
    if s.count < cfg.policy.maxAttempts && calls + 1 < threshold {
      var s2 := s.(count := s.count + 1, lastThrowable := Some(f));
      FailingCallIsRetried(cfg, calls, threshold, f, v, s);
      FailUntilUnderSimplePolicy(cfg, calls + 1, threshold, f, v, s2);
    } else if s.count < cfg.policy.maxAttempts {
      assert Continues(cfg.policy, s);
    }
  }

  /** One failing call of a counting work under a simple policy: counted, then the loop goes on. */
  lemma FailingCallIsRetried(cfg: RunConfig, calls: nat, threshold: int, f: Failure, v: Value, s: ContextState)
    requires cfg.policy.SimpleSpec? && Classify(cfg.policy.retryable, f)
    requires Plain(cfg, f, v) && calls + 1 < threshold
    requires !s.exhaustedOnly && (s.lastThrowable.None? || s.lastThrowable == Some(f))
    requires s.count < cfg.policy.maxAttempts
    ensures var s2 := s.(count := s.count + 1, lastThrowable := Some(f));
      Budget(cfg, s2) == Budget(cfg, s) - 1 && (Continues(cfg.policy, s2) <==> Budget(cfg, s2) > 0) &&
      Run(cfg, FailUntil(calls, threshold, f, v), s) ==
        Shift(Run(cfg, FailUntil(calls + 1, threshold, f, v), s2), 1, Pauses(Budget(cfg, s2) > 0))
  {
    assert Continues(cfg.policy, s);
  }

  /**
   * A work that succeeds on its x-th call, under a simple policy allowing at least x
   * attempts: it is called exactly x times, the back-off policy pauses x - 1 times,
   * and its value is returned.
   */
  lemma SucceedsOnCallX(cfg: RunConfig, x: nat, f: Failure, v: Value)
    requires 1 <= x && cfg.policy.SimpleSpec? && x <= cfg.policy.maxAttempts
    requires Classify(cfg.policy.retryable, f) && Plain(cfg, f, v)
    ensures Run(cfg, FailUntil(0, x, f, v), FreshState) == RunResult(Returned(v), x, x - 1)
  {
    FailUntilUnderSimplePolicy(cfg, 0, x, f, v, FreshState);
  }

  /**
   * A work that would succeed only after more calls than the policy allows: the
   * attempts are all used, and the recovery callback's value is returned when there is
   * one; without one the last throwable is rethrown, wrapped if necessary (stateless retry).
   */
  lemma SuccessTooLate(cfg: RunConfig, threshold: int, f: Failure, v: Value)
    requires cfg.policy.SimpleSpec? && 1 <= cfg.policy.maxAttempts < threshold
    requires Classify(cfg.policy.retryable, f) && Plain(cfg, f, v)
    ensures var max := cfg.policy.maxAttempts;
      Run(cfg, FailUntil(0, threshold, f, v), FreshState) == RunResult(Exhausted(cfg, Some(f)), max, max - 1)
    ensures cfg.recovery.Some? ==>
      Run(cfg, FailUntil(0, threshold, f, v), FreshState).outcome == Returned(cfg.recovery.value)
    ensures cfg.recovery.None? && cfg.state.None? ==>
      Run(cfg, FailUntil(0, threshold, f, v), FreshState).outcome == Threw(WrapIfNecessary(Some(f)))
  {
    FailUntilUnderSimplePolicy(cfg, 0, threshold, f, v, FreshState);
  }

  /**
   * Without interruptions and without rollbacks, the back-off policy pauses between
   * consecutive attempts and nowhere else: once fewer than the attempts.
   */
  lemma {:induction false} OnePauseBetweenAttempts(cfg: RunConfig, b: Behaviour, s: ContextState)
    requires cfg.interruption.None? && forall f :: !RollsBack(cfg, f)
    ensures var r := Run(cfg, b, s); r.attempts == 0 || r.backOffs == r.attempts - 1
    decreases Remaining(cfg.policy, s)
  {
    if Continues(cfg.policy, s) {
      var a := NextAttempt(b);
      var failure := match a
        case Return(v) => Veto(cfg.listeners, v)
        case Raise(f, _) => Some(f);
      if failure.Some? {
        var s1 := if a.Raise? && a.exhaust then s.(exhaustedOnly := true) else s;
        if Register(cfg.policy, s1, failure).Ok? {
          var s2 := Register(cfg.policy, s1, failure).value;
          assert Remaining(cfg.policy, s2) < Remaining(cfg.policy, s);
          OnePauseBetweenAttempts(cfg, Next(b), s2);
        }
      }
    }
  }

  /**
   * A first call that returns a value no listener vetoes ends the execution: the
   * value is returned after one attempt and no pause, whatever the policy.
   */
  lemma ReturnedValueEnds(cfg: RunConfig, b: Behaviour)
    requires Continues(cfg.policy, FreshState)
    requires NextAttempt(b).Return? && Veto(cfg.listeners, NextAttempt(b).value).None?
    ensures Run(cfg, b, FreshState) == RunResult(Returned(NextAttempt(b).value), 1, 0)
  {
  }

  /** A never-retry policy calls the work exactly once and never pauses, whatever the work does. */
  lemma NeverCallsOnce(cfg: RunConfig, b: Behaviour)
    requires cfg.policy == NeverSpec
    ensures Run(cfg, b, FreshState).attempts == 1 && Run(cfg, b, FreshState).backOffs == 0
  {
  }

  /**
   * A work that marks the context exhausted and throws ends the execution on that
   * attempt; without a recovery callback or retry state its throwable escapes,
   * wrapped if necessary, whether or not the template rethrows the last exception on exhaustion.
   */
  lemma ExhaustedOnlyStopsAtOnce(cfg: RunConfig, f: Failure)
    requires !cfg.policy.RejectingSpec? && Continues(cfg.policy, FreshState)
    requires cfg.recovery.None? && cfg.state.None?
    ensures Run(cfg, AlwaysFail(f, true), FreshState) == RunResult(Threw(WrapIfNecessary(Some(f))), 1, 0)
  {
    var s2 := Register(cfg.policy, FreshState.(exhaustedOnly := true), Some(f)).value;
    assert !Continues(cfg.policy, s2);
  }

  /**
   * A throwable a simple policy does not classify as retryable ends the execution
   * after the one attempt; without recovery or retry state it escapes, wrapped if necessary.
   */
  lemma NonRetryableStopsAtOnce(cfg: RunConfig, b: Behaviour, f: Failure)
    requires cfg.policy.SimpleSpec? && 1 <= cfg.policy.maxAttempts
    requires NextAttempt(b).Raise? && NextAttempt(b).failure == f && !Classify(cfg.policy.retryable, f)
    requires cfg.recovery.None? && cfg.state.None?
    ensures Run(cfg, b, FreshState) == RunResult(Threw(WrapIfNecessary(Some(f))), 1, 0)
  {
    var s1 := if NextAttempt(b).exhaust then FreshState.(exhaustedOnly := true) else FreshState;
    var s2 := Register(cfg.policy, s1, Some(f)).value;
    assert !Continues(cfg.policy, s2);
  }

  /** Under a never-retry policy a failing work's throwable escapes, wrapped if necessary, after one attempt. */
  lemma NeverRethrowsFailure(cfg: RunConfig, b: Behaviour, f: Failure)
    requires cfg.policy == NeverSpec && NextAttempt(b).Raise? && NextAttempt(b).failure == f
    requires cfg.recovery.None? && cfg.state.None?
    ensures Run(cfg, b, FreshState) == RunResult(Threw(WrapIfNecessary(Some(f))), 1, 0)
  {
  }

  /**
   * A policy that throws while registering a failure ends the execution at once with a
   * terminated-retry exception whose cause is the policy's throwable.
   */
  lemma PolicyFailureTerminates(cfg: RunConfig, b: Behaviour, e: Failure)
    requires cfg.policy == RejectingSpec(e) && NextAttempt(b).Raise?
    ensures var r := Run(cfg, b, FreshState);
      r == RunResult(Threw(Terminated(e)), 1, 0) && r.outcome.failure.kind == TerminatedRetryException
      && r.outcome.failure.cause == Some(e)
  {
  }

  /**
   * An interrupted pause ends the execution with the interruption, after the first
   * failure of a work that would otherwise be retried.
   */
  lemma InterruptionPropagates(cfg: RunConfig, b: Behaviour, f: Failure)
    requires cfg.policy.SimpleSpec? && 2 <= cfg.policy.maxAttempts && Classify(cfg.policy.retryable, f)
    requires NextAttempt(b) == Raise(f, false) && cfg.interruption.Some?
    ensures Run(cfg, b, FreshState) == RunResult(Threw(WrapIfNecessary(cfg.interruption)), 1, 1)
  {
  }

  /**
   * A failure the retry state rolls back for is rethrown on the attempt that threw it,
   * whatever budget is left.
   */
  lemma RollbackRethrowsAtOnce(cfg: RunConfig, b: Behaviour, f: Failure)
    requires !cfg.policy.RejectingSpec? && Continues(cfg.policy, FreshState)
    requires NextAttempt(b).Raise? && NextAttempt(b).failure == f && RollsBack(cfg, f)
    requires cfg.interruption.None?
    ensures Run(cfg, b, FreshState).outcome == Threw(WrapIfNecessary(Some(f))) && Run(cfg, b, FreshState).attempts == 1
  {
  }

  /**
   * A listener that vetoes the first returned value makes the template retry: the work
   * is called twice, with one pause, and its second value is returned.
   */
  lemma VetoedResultIsRetried(cfg: RunConfig, bad: Value, good: Value, veto: Failure)
    requires bad != good && cfg.listeners == [ResultVeto(bad, veto)]
    requires cfg.policy.SimpleSpec? && 2 <= cfg.policy.maxAttempts && Classify(cfg.policy.retryable, veto)
    requires cfg.interruption.None? && !RollsBack(cfg, veto)
    ensures Run(cfg, FirstThen(true, bad, good), FreshState) == RunResult(Returned(good), 2, 1)
  {
    var s2 := Register(cfg.policy, FreshState, Some(veto)).value;
    assert Continues(cfg.policy, s2);
    assert Run(cfg, FirstThen(false, bad, good), s2) == RunResult(Returned(good), 1, 0);
  }

  /**
   * A simple policy allowing no attempt at all makes no call: the loop guard is checked
   * before the first attempt, and the execution ends as exhausted with no throwable.
   */
  lemma NoAttemptWithoutBudget(cfg: RunConfig, b: Behaviour)
    requires cfg.policy.SimpleSpec? && cfg.policy.maxAttempts <= 0
    ensures Run(cfg, b, FreshState) == RunResult(Exhausted(cfg, None), 0, 0)
  {
  }

  /**
   * Whatever propagates out of the template leaves it as an Exception or an Error: an
   * Exception or an Error exactly as it was thrown, and nothing else unchanged.
   */
  lemma WrapIfNecessaryEscapes(t: Option<Failure>)
    ensures PassesUnwrapped(WrapIfNecessary(t).kind)
    ensures t.Some? ==> (WrapIfNecessary(t) == t.value <==> PassesUnwrapped(t.value.kind))
    ensures !(t.Some? && PassesUnwrapped(t.value.kind)) ==>
      WrapIfNecessary(t).kind == RetryException && WrapIfNecessary(t).cause == t
  {
    assert IsA(RetryException, Exception);
  }

  /** Wrapping twice is wrapping once: what escapes a nested execution escapes the outer one unchanged. */
  lemma WrapIfNecessaryIdempotent(t: Option<Failure>)
    ensures WrapIfNecessary(Some(WrapIfNecessary(t))) == WrapIfNecessary(t)
  {
    WrapIfNecessaryEscapes(t);
  }
}
