/**
 * What the policy tests do with a policy object and the contexts it opens: each
 * method makes the same calls and returns what the test observes.
 */
module PolicyScenarios {
  import opened Wrappers
  import opened Exceptions
  import opened Policies

  /** A default simple policy may try a freshly opened context. */
  method CanRetryIfNoException() returns (canRetry: bool)
    ensures canRetry
  {
    var policy := new SimpleRetryPolicy.Default();
    var context := policy.Open(null);
    canRetry := policy.CanRetry(context);
  }

  /** With no retryable types at all, any registered throwable stops the retries. */
  method EmptyExceptionsNeverRetry(f: Failure) returns (canRetry: bool)
    ensures !canRetry
  {
    var policy := new SimpleRetryPolicy(3, map[], false, false);
    var context := policy.Open(null);
    policy.RegisterThrowable(context, Some(f));
    canRetry := policy.CanRetry(context);
  }

  /**
   * Everything retryable by default except IllegalStateException: the decision after an
   * IllegalStateException is no, and after a following IllegalArgumentException yes again.
   */
  method WithExceptionDefaultAlwaysRetry(ise: Failure, iae: Failure) returns (afterIse: bool, afterIae: bool)
    requires ise.kind == IllegalStateException && iae.kind == IllegalArgumentException && iae.cause == None
    ensures !afterIse && afterIae
  {
    var policy := new SimpleRetryPolicy(3, map[IllegalStateException := false], true, true);
    var context := policy.Open(null);
    policy.RegisterThrowable(context, Some(ise));
    afterIse := policy.CanRetry(context);
    policy.RegisterThrowable(context, Some(iae));
    assert Nearest(policy.retryableClassifier.typeMap, iae.kind) == None;
    afterIae := policy.CanRetry(context);
  }

  /** A fresh context may be tried; once the maximum is set to zero a new context may not. */
  method RetryLimitInitialState() returns (before: bool, after: bool)
    ensures before && !after
  {
    var policy := new SimpleRetryPolicy.Default();
    var context := policy.Open(null);
    before := policy.CanRetry(context);
    policy.SetMaxAttempts(0);
    context := policy.Open(null);
    after := policy.CanRetry(context);
  }

  /** With two attempts allowed: yes with no failure and after one, no after two. */
  method RetryLimitSubsequentState(f: Failure) returns (at0: bool, at1: bool, at2: bool)
    requires IsA(f.kind, Exception)
    ensures at0 && at1 && !at2
  {
    var policy := new SimpleRetryPolicy.Default();
    var context := policy.Open(null);
    policy.SetMaxAttempts(2);
    DefaultRetriesExceptions(f);
    at0 := policy.CanRetry(context);
    policy.RegisterThrowable(context, Some(f));
    at1 := policy.CanRetry(context);
    policy.RegisterThrowable(context, Some(f));
    at2 := policy.CanRetry(context);
  }

  /** A null registration does not count; a throwable counts and is remembered. */
  method SimpleRetryCount(f: Failure) returns (countAfterNull: nat, countAfterFailure: nat, last: Option<Failure>)
    ensures countAfterNull == 0 && countAfterFailure == 1 && last == Some(f)
  {
    var policy := new SimpleRetryPolicy.Default();
    var context := policy.Open(null);
    policy.RegisterThrowable(context, None);
    countAfterNull := context.count;
    policy.RegisterThrowable(context, Some(f));
    countAfterFailure := context.count;
    last := context.lastThrowable;
  }

  /** The most specific entry wins: RuntimeException is retried though Exception is not. */
  method FatalOverridesRetryable(f: Failure) returns (canRetry: bool)
    requires f.kind == RuntimeException
    ensures canRetry
  {
    var policy := new SimpleRetryPolicy(3, map[Exception := false, RuntimeException := true], false, false);
    var context := policy.Open(null);
    policy.RegisterThrowable(context, Some(f));
    canRetry := policy.CanRetry(context);
  }

  /** With cause traversal, an Exception caused by a RuntimeException is retried. */
  method RetryableWithCause(message: string, cause: Failure) returns (canRetry: bool)
    requires cause.kind == RuntimeException
    ensures canRetry
  {
    var policy := new SimpleRetryPolicy(3, map[RuntimeException := true], true, false);
    var context := policy.Open(null);
    policy.RegisterThrowable(context, Some(Failure(Exception, message, Some(cause))));
    canRetry := policy.CanRetry(context);
  }

  /** A context opened with a parent is a new context linked to it. */
  method SimpleParent() returns (context: RetryContext, child: RetryContext)
    ensures child != context && child.parent == context
  {
    var policy := new SimpleRetryPolicy.Default();
    context := policy.Open(null);
    child := policy.Open(context);
  }

  /**
   * A never-retry policy may try a fresh context, as often as it is asked; after a
   * registration, even of null, it may not, and closing the context does not change that.
   */
  method NeverSimpleOperations() returns (first: bool, second: bool, afterRegister: bool, afterClose: bool)
    ensures first && second && !afterRegister && !afterClose
  {
    var policy := new NeverRetryPolicy();
    var context := policy.Open(null);
    first := policy.CanRetry(context);
    second := policy.CanRetry(context);
    policy.RegisterThrowable(context, None);
    afterRegister := policy.CanRetry(context);
    policy.Close(context);
    afterClose := policy.CanRetry(context);
  }

  /** Under a never-retry policy too, a null registration does not count and a throwable does. */
  method NeverRetryCount(f: Failure) returns (countAfterNull: nat, countAfterFailure: nat, last: Option<Failure>)
    ensures countAfterNull == 0 && countAfterFailure == 1 && last == Some(f)
  {
    var policy := new NeverRetryPolicy();
    var context := policy.Open(null);
    policy.RegisterThrowable(context, None);
    countAfterNull := context.count;
    policy.RegisterThrowable(context, Some(f));
    countAfterFailure := context.count;
    last := context.lastThrowable;
  }

  /** A never-retry policy also opens a new context linked to the given parent. */
  method NeverParent() returns (context: RetryContext, child: RetryContext)
    ensures child != context && child.parent == context
  {
    var policy := new NeverRetryPolicy();
    context := policy.Open(null);
    child := policy.Open(context);
  }
}
