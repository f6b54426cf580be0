# Spring Retry: policies and the retry template's execute loop

This project models the core of Spring Retry, a library that runs a piece of work
again when it fails:

- A **retry policy** opens a per-execution **retry context**. The context records
  - how many throwables have been registered (the retry count);
  - the last throwable;
  - whether the work has marked the context *exhausted-only*.
- `canRetry` decides whether another attempt may run.
- `SimpleRetryPolicy` allows a bounded number of attempts. A throwable counts as
  retryable when a **binary exception classifier** says so. The classifier:
  - looks up the most specific configured superclass in a type→boolean map;
  - can walk the cause chain;
  - falls back to a configurable default.
- `NeverRetryPolicy` allows the first attempt only.
- **`RetryTemplate.execute`** calls the work while the policy allows it and the
  context is not exhausted-only. Its loop body:
  - registers each failure with the policy;
  - starts the **back-off policy** once per execution, then asks it to pause before
    every further attempt;
  - lets an `onSuccess` listener veto a result by throwing; the hooks run from the
    last registered listener to the first;
  - rethrows at once a failure that a stateful retry's rollback classifier selects;
  - turns a failure of the policy itself into a `TerminatedRetryException`;
  - propagates a back-off interruption.
- When the attempts run out, `execute` returns the recovery callback's value, or
  rethrows the last throwable. In a stateful execution with
  `throwLastExceptionOnExhausted` off, the last throwable is wrapped in an
  `ExhaustedRetryException` instead.
- A throwable that escapes the template is *wrapped if necessary*: an `Exception`
  or an `Error` leaves as it is; any other throwable, or none at all, leaves inside
  a `RetryException` with the message "Exception in retry".
- The template keeps a stack of "current" contexts. A nested execution sees its
  parent, and the outer context is restored afterwards.

The behaviour is pinned by the library's tests: `RetryTemplateTests`,
`SimpleRetryPolicyTests` and `NeverRetryPolicyTests`. The classes under test are
rebuilt from what those tests observe, completed where the tests observe nothing
by the library's documented design and its known implementation (listed below).
The test collaborators `MockRetryCallback` and `MockBackOffStrategy` are modelled
as classes with the same counters.

Modules:

- `Wrappers`: `Option` and `Result`.
- `Exceptions`: a finite table of exception types with their superclass links, a
  `Failure` value (kind, message, cause), and the binary classifier, with a
  reference definition of cause traversal.
- `Policies`: the retry context, both policies and a policy that fails on
  registration. Each is a class whose methods update the context in place, tied to
  pure functions (`Register`, `Permits`) that decide on context values.
- `TemplateSpec`: the execute loop as a function of values. `Step` is one pass of
  the loop body. `Run` gives the outcome, the number of calls of the work and the
  number of back-off pauses.
- `TemplateLemmas`: what `Run` does for the kinds of work the tests use.
- `Template`:
  - the imperative `RetryTemplate`, whose `Execute` runs a `while` loop over a
    context object and is proved equal to `Run`;
  - the context stack;
  - the counting back-off policy;
  - the counting callback.
- `Scenarios` and `PolicyScenarios`: one method per test. Each builds the same
  objects and proves the outcome and the counts the test asserts.

Points where the tests settle a question the library's documentation leaves open
or reads otherwise:

- A simple policy with at most zero attempts makes **no** attempt. A fresh context
  then cannot retry (`SimpleRetryPolicyTests.java:74-82`), and the loop checks the
  policy first. It is not "at least once".
- In the loop body, the failure is registered first, then the back-off pauses if
  another attempt is allowed, and only then does the rollback check run. The
  documentation comment of `testNoBackOffForRethrownException` (back-off applies to
  rethrown exceptions too) fixes this order.
- An `Error` thrown by the work is registered, counted and classified like any
  other throwable: under a policy that retries it, it is retried, and a stateful
  execution that runs out of attempts wraps it like any other last throwable. The
  tests pin only the never-retry case (`RetryTemplateTests.java:259-272`), where
  the `Error` escapes as it is.
- A successful attempt does not register a null throwable with the policy before
  returning; no test observes such a step.
- A stateless execution that runs out of attempts without a recovery callback
  rethrows the last throwable, wrapped if necessary; an `Exception` is therefore
  rethrown unchanged (`RetryTemplateTests.java:112-131`, `203-236`).

These behaviours come from the library's implementation, not from the tests, which
never observe them:

- the `ExhaustedRetryException` wrapping the last throwable when a stateful
  execution runs out of attempts with `throwLastExceptionOnExhausted` off
  (`TemplateSpec.Exhausted`);
- the wrap-if-necessary rule (`TemplateSpec.WrapIfNecessary`): a throwable that is
  neither an `Exception` nor an `Error`, and the absent throwable of an execution
  that makes no attempt, leave inside a `RetryException`;
- the order of the `onSuccess` hooks, last registered first, so that of several
  vetoing listeners the last registered one throws (`TemplateSpec.VetoAmong`);
- a null registration makes the context's last throwable null without counting
  (`Policies.Record`);
- the text of the template's own messages;
- in the cause walk, a throwable counts as "configured" when its own type or an
  ancestor has an entry (`Exceptions.Configured`): the library's classifier caches
  the nearest match for each class, so its lookup of the type behaves this way.

## Model

| member | source | states |
|---|---|---|
| Exceptions.Nearest | src/test/java/org/springframework/retry/policy/SimpleRetryPolicyTests.java:108-118 | the entry found is configured and is a superclass of the type; it is at least as specific as every other configured superclass; when none is found, no superclass of the type is configured |
| Exceptions.SubclassClassify | src/test/java/org/springframework/retry/policy/SimpleRetryPolicyTests.java:108-118 | a type's classification by its most specific configured superclass: an answer other than the default always comes from a configured superclass of the type |
| Exceptions.Classify | src/test/java/org/springframework/retry/policy/SimpleRetryPolicyTests.java:108-129 | a throwable's classification, walking its causes when traversal is on: an answer other than the default is always the value of the first configured throwable in its cause chain |
| Exceptions.CauseWalk | src/test/java/org/springframework/retry/policy/SimpleRetryPolicyTests.java:120-129 | the walk down the causes: an answer other than the default comes from a cause, never from a configured starting throwable, and is the value of the first configured throwable in the chain |
| Exceptions.ExactEntryWins | src/test/java/org/springframework/retry/policy/SimpleRetryPolicyTests.java:56-72 | an entry for the exact type decides its classification |
| Exceptions.MostSpecificEntryWins | src/test/java/org/springframework/retry/policy/SimpleRetryPolicyTests.java:108-118 | the most specific configured superclass decides, whatever more general entries say (RuntimeException→true beats Exception→false) |
| Exceptions.NoEntryMeansDefault | src/test/java/org/springframework/retry/policy/SimpleRetryPolicyTests.java:43-54 | a type with no configured superclass classifies to the default value |
| Exceptions.TraversalFindsFirstConfigured | src/test/java/org/springframework/retry/policy/SimpleRetryPolicyTests.java:120-129 | with cause traversal, classification equals the value of the first throwable in the cause chain that has a configured entry, or the default if there is none |
| Exceptions.CauseWalkFindsFirstConfigured | src/test/java/org/springframework/retry/policy/SimpleRetryPolicyTests.java:120-129 | the cause walk, entered on a default classification, agrees with the first-configured reference definition |
| Exceptions.CauseIgnoredWithoutTraversal | src/test/java/org/springframework/retry/policy/SimpleRetryPolicyTests.java:108-118 | without traversal, only the throwable's own type matters, never its cause |
| Policies.DefaultRetryable | src/test/java/org/springframework/retry/policy/SimpleRetryPolicyTests.java:36-41 | the default classifier does not walk causes and classifies a type as retryable exactly when it is an Exception |
| Policies.PermitsDecides | src/test/java/org/springframework/retry/policy/SimpleRetryPolicyTests.java:36-94 | what `Permits` decides: a simple policy never allows an attempt at or beyond its maximum or after a non-retryable last throwable, and with no last throwable allows exactly below the maximum; the never-retry policies allow exactly until their first registration |
| Policies.DefaultRetriesExceptions | src/test/java/org/springframework/retry/policy/SimpleRetryPolicyTests.java:84-94 | a default simple policy retries exactly the throwables that are Exceptions |
| Policies.Record | src/test/java/org/springframework/retry/policy/SimpleRetryPolicyTests.java:96-106 | the registered throwable, null included, becomes the last throwable; only a non-null one adds one to the count; the other flags are kept |
| Policies.Register | src/test/java/org/springframework/retry/policy/NeverRetryPolicyTests.java:31-55 | registration fails exactly for a policy that throws on registration; otherwise the count and last throwable follow `Record`, a never-retry policy marks the context finished, and the exhausted-only flag survives |
| Policies.RegisterFailureShrinks | src/test/java/org/springframework/retry/policy/SimpleRetryPolicyTests.java:84-94 | every failure registered while the loop may continue uses up budget, so the retry loop terminates |
| Policies.SimpleCountsAttempts | src/test/java/org/springframework/retry/policy/SimpleRetryPolicyTests.java:84-94 | after n retryable failures in a fresh context the count is n, and another attempt is allowed exactly when n is below the maximum |
| Policies.SimpleFollowsLastThrowable | src/test/java/org/springframework/retry/policy/SimpleRetryPolicyTests.java:56-72 | the decision after a registration depends only on the count and the newly registered throwable: it allows another attempt iff the throwable is retryable and count+1 is below the maximum |
| Policies.NonRetryableStops | src/test/java/org/springframework/retry/policy/SimpleRetryPolicyTests.java:43-54 | a throwable the classifier rejects forbids another attempt, whatever the count |
| Policies.NullRegistrationClearsLast | src/test/java/org/springframework/retry/policy/SimpleRetryPolicyTests.java:96-102 | registering null with a simple policy keeps the count and forgets the last throwable, and another attempt is then allowed exactly when the count is below the maximum |
| Policies.NeverPermitsOneAttempt | src/test/java/org/springframework/retry/policy/NeverRetryPolicyTests.java:31-43 | a never-retry policy allows a fresh context; after any registration, null included, it does not, and a further registration does not reopen it |
| Policies.RetryContext.constructor | src/test/java/org/springframework/retry/policy/SimpleRetryPolicyTests.java:131-138 | a new context has no count, no last throwable, no flags, and the given parent |
| Policies.RetryContext.SetExhaustedOnly | src/test/java/org/springframework/retry/support/RetryTemplateTests.java:203-210 | only the exhausted-only flag changes, to true |
| Policies.RetryContext.RegisterThrowable | src/test/java/org/springframework/retry/policy/SimpleRetryPolicyTests.java:96-106 | the context's new state is `Record` of its old state |
| Policies.RetryContext.SetFinished | src/test/java/org/springframework/retry/policy/NeverRetryPolicyTests.java:39-40 | only the finished flag changes, to true |
| Policies.SimpleRetryPolicy.Default | src/test/java/org/springframework/retry/policy/SimpleRetryPolicyTests.java:36-41 | three attempts, every Exception retryable |
| Policies.SimpleRetryPolicy.WithMaxAttempts | src/test/java/org/springframework/retry/support/RetryTemplateTests.java:58-68 | the given maximum, every Exception retryable |
| Policies.SimpleRetryPolicy.constructor | src/test/java/org/springframework/retry/policy/SimpleRetryPolicyTests.java:56-63 | the given maximum, type map, traversal flag and default value |
| Policies.SimpleRetryPolicy.SetMaxAttempts | src/test/java/org/springframework/retry/policy/SimpleRetryPolicyTests.java:74-82 | only the maximum changes |
| Policies.SimpleRetryPolicy.CanRetry | src/test/java/org/springframework/retry/policy/SimpleRetryPolicyTests.java:36-94 | `canRetry` of the simple policy: never at or beyond the maximum, never after a non-retryable throwable, and with no throwable registered exactly below the maximum |
| Policies.SimpleRetryPolicy.Open | src/test/java/org/springframework/retry/policy/SimpleRetryPolicyTests.java:131-138 | a new, fresh context linked to the given parent |
| Policies.SimpleRetryPolicy.RegisterThrowable | src/test/java/org/springframework/retry/policy/SimpleRetryPolicyTests.java:96-106 | the context's new state is the one `Register` gives for the simple policy |
| Policies.SimpleRetryPolicy.Close | src/test/java/org/springframework/retry/policy/NeverRetryPolicyTests.java:41-42 | closing leaves the context state unchanged |
| Policies.NeverRetryPolicy.CanRetry | src/test/java/org/springframework/retry/policy/NeverRetryPolicyTests.java:31-43 | `canRetry` of the never-retry policy: exactly while no throwable, null included, has been registered |
| Policies.NeverRetryPolicy.Open | src/test/java/org/springframework/retry/policy/NeverRetryPolicyTests.java:57-64 | a new, fresh context linked to the given parent |
| Policies.NeverRetryPolicy.RegisterThrowable | src/test/java/org/springframework/retry/policy/NeverRetryPolicyTests.java:45-55 | the context's new state is the one `Register` gives for the never-retry policy: finished, count and last throwable recorded |
| Policies.NeverRetryPolicy.Close | src/test/java/org/springframework/retry/policy/NeverRetryPolicyTests.java:41-42 | closing leaves the context state unchanged, so the decision stays no |
| Policies.RejectingRetryPolicy.constructor | src/test/java/org/springframework/retry/support/RetryTemplateTests.java:278-283 | the policy keeps the throwable its registration throws |
| Policies.RejectingRetryPolicy.Open | src/test/java/org/springframework/retry/support/RetryTemplateTests.java:278-283 | a new, fresh context linked to the given parent |
| Policies.RejectingRetryPolicy.RegisterThrowable | src/test/java/org/springframework/retry/support/RetryTemplateTests.java:278-283 | registration fails with the configured throwable, as `Register` says |
| Policies.RejectingRetryPolicy.Close | src/test/java/org/springframework/retry/support/RetryTemplateTests.java:278-283 | closing leaves the context state unchanged |
| TemplateSpec.Veto | src/test/java/org/springframework/retry/support/RetryTemplateTests.java:354-365 | the `onSuccess` veto over all listeners: some hook throws exactly when some listener rejects the returned value |
| TemplateSpec.VetoAmong | src/test/java/org/springframework/retry/support/RetryTemplateTests.java:354-365 | no hook among the first n listeners throws exactly when none of them rejects the returned value |
| TemplateSpec.LastVetoThrows | src/test/java/org/springframework/retry/support/RetryTemplateTests.java:354-365 | when several listeners veto, the throwable is that of the last registered one, since the hooks run from the last listener to the first |
| TemplateSpec.WrapIfNecessary | src/test/java/org/springframework/retry/support/RetryTemplateTests.java:259-272 | what escapes the template is always an Exception or an Error: the throwable itself, or a RetryException whose cause it is |
| TemplateSpec.Exhausted | src/test/java/org/springframework/retry/support/RetryTemplateTests.java:91-131 | the outcome when the attempts run out: the recovery value exactly when there is a recovery callback; without retry state, the last throwable wrapped if necessary; otherwise, only for a stateful execution, an ExhaustedRetryException caused by the last throwable |
| TemplateSpec.Terminated | src/test/java/org/springframework/retry/support/RetryTemplateTests.java:275-293 | a policy failure is reported as a TerminatedRetryException caused by that failure |
| TemplateSpec.Step | src/test/java/org/springframework/retry/support/RetryTemplateTests.java:275-349 | a pass that ends with a returned value returned the work's value without pausing; a pass that goes on has counted one more failure and paused exactly when another attempt is allowed |
| TemplateSpec.StepShrinks | src/test/java/org/springframework/retry/support/RetryTemplateTests.java:112-131 | every pass that goes on uses up budget |
| TemplateSpec.Run | src/test/java/org/springframework/retry/support/RetryTemplateTests.java:58-372 | an execution makes no attempt exactly when the policy forbids the first; the attempts stay within the budget; there are never more pauses than attempts |
| TemplateLemmas.FailUntilUnderSimplePolicy | src/test/java/org/springframework/retry/support/RetryTemplateTests.java:383-390 | a work failing until a threshold, under a simple policy: with no budget left, exhaustion with no call; if it gets to succeed within the budget, its value after FailuresBefore+1 calls and one fewer pauses; otherwise exhaustion after the whole budget, with one fewer pauses |
| TemplateLemmas.FailingCallIsRetried | src/test/java/org/springframework/retry/support/RetryTemplateTests.java:384-388 | one failing call costs one unit of budget; the loop goes on from the next call, after a pause exactly when budget is left |
| TemplateLemmas.SucceedsOnCallX | src/test/java/org/springframework/retry/support/RetryTemplateTests.java:58-68 | a work that succeeds on call x under a maximum of at least x returns its value after x calls and x-1 pauses |
| TemplateLemmas.SuccessTooLate | src/test/java/org/springframework/retry/support/RetryTemplateTests.java:91-101 | if success would come after the maximum, all maximum attempts run, then exhaustion; with a recovery callback its value is returned, without one (stateless) the last throwable is rethrown, wrapped if necessary |
| TemplateLemmas.OnePauseBetweenAttempts | src/test/java/org/springframework/retry/support/RetryTemplateTests.java:187-201 | with no interruption and no failure the rollback classifier selects, every execution that calls the work pauses exactly once between consecutive calls, for any policy and any of the modelled kinds of work (`Behaviour`) |
| TemplateLemmas.ReturnedValueEnds | src/test/java/org/springframework/retry/support/RetryTemplateTests.java:103-110 | a work that returns an unvetoed value on its first call ends the execution after one call and no pause |
| TemplateLemmas.NeverCallsOnce | src/test/java/org/springframework/retry/support/RetryTemplateTests.java:103-110 | under a never-retry policy the work is called exactly once and there is no pause, whatever it does |
| TemplateLemmas.ExhaustedOnlyStopsAtOnce | src/test/java/org/springframework/retry/support/RetryTemplateTests.java:203-236 | a work that marks the context exhausted-only and throws ends the execution after one call, with its own throwable wrapped if necessary |
| TemplateLemmas.NonRetryableStopsAtOnce | src/test/java/org/springframework/retry/support/RetryTemplateTests.java:162-180 | a non-retryable throwable on the first call escapes, wrapped if necessary, after one call |
| TemplateLemmas.NeverRethrowsFailure | src/test/java/org/springframework/retry/support/RetryTemplateTests.java:259-272 | under a never-retry policy a failing work's throwable escapes, wrapped if necessary, after one call |
| TemplateLemmas.PolicyFailureTerminates | src/test/java/org/springframework/retry/support/RetryTemplateTests.java:275-293 | a policy that throws on registration ends the execution after one call with a TerminatedRetryException whose cause is the policy's throwable |
| TemplateLemmas.InterruptionPropagates | src/test/java/org/springframework/retry/support/RetryTemplateTests.java:295-313 | an interrupted pause ends the execution with the interruption, wrapped if necessary, after one call and one pause |
| TemplateLemmas.RollbackRethrowsAtOnce | src/test/java/org/springframework/retry/support/RetryTemplateTests.java:315-349 | a failure the rollback classifier selects is rethrown, wrapped if necessary, after one call |
| TemplateLemmas.VetoedResultIsRetried | src/test/java/org/springframework/retry/support/RetryTemplateTests.java:351-373 | a vetoed first result is treated as a failure and retried; the second, unvetoed result is returned after two calls and one pause |
| TemplateLemmas.WrapIfNecessaryEscapes | src/test/java/org/springframework/retry/support/RetryTemplateTests.java:259-272 | what escapes is always an Exception or an Error; a throwable is passed on unchanged exactly when it is one of those; otherwise it becomes the cause of the RetryException that escapes |
| TemplateLemmas.WrapIfNecessaryIdempotent | src/test/java/org/springframework/retry/support/RetryTemplateTests.java:259-272 | wrapping what already escaped changes nothing |
| TemplateLemmas.NoAttemptWithoutBudget | src/test/java/org/springframework/retry/policy/SimpleRetryPolicyTests.java:74-82 | with a maximum of at most zero the work is never called and the execution ends as exhausted with no last throwable |
| Template.ContextStack.constructor | src/test/java/org/springframework/retry/support/RetryTemplateTests.java:238-257 | the stack starts with no current context |
| Template.ContextStack.Current | src/test/java/org/springframework/retry/support/RetryTemplateTests.java:238-257 | the current context is the innermost one still registered, and there is none exactly when the stack is empty |
| Template.ContextStack.Register | src/test/java/org/springframework/retry/support/RetryTemplateTests.java:250 | the context is pushed and becomes current |
| Template.ContextStack.Clear | src/test/java/org/springframework/retry/support/RetryTemplateTests.java:253 | the top context is popped, so the previous one is current again |
| Template.BackOffPolicy.constructor | src/test/java/org/springframework/retry/support/RetryTemplateTests.java:402-419 | both counters start at zero |
| Template.BackOffPolicy.Start | src/test/java/org/springframework/retry/support/RetryTemplateTests.java:409-412 | the start counter goes up by one, the pause counter is kept |
| Template.BackOffPolicy.BackOff | src/test/java/org/springframework/retry/support/RetryTemplateTests.java:415-417 | the pause counter goes up by one and the configured interruption, if any, is thrown |
| Template.RetryCallback.constructor | src/test/java/org/springframework/retry/support/RetryTemplateTests.java:375-381 | no calls yet, a threshold of zero and a plain Exception to throw |
| Template.RetryCallback.SetAttemptsBeforeSuccess | src/test/java/org/springframework/retry/support/RetryTemplateTests.java:392-394 | only the threshold changes |
| Template.RetryCallback.SetExceptionToThrow | src/test/java/org/springframework/retry/support/RetryTemplateTests.java:396-398 | only the throwable changes |
| Template.RunNested | src/test/java/org/springframework/retry/support/RetryTemplateTests.java:242-255 | the outer work's inner execution returns null after one inner call, every check on the inner context holds, and the stack is as before |
| Template.RunInner | src/test/java/org/springframework/retry/support/RetryTemplateTests.java:245-252 | an inner execution under a default template returns null after one call with its checks holding, and leaves the stack as it found it |
| Template.Call | src/test/java/org/springframework/retry/support/RetryTemplateTests.java:383-390 | one call of the work answers what its behaviour says next and moves it on; the call counter goes up; the context stack is unchanged |
| Template.RetryTemplate.constructor | src/test/java/org/springframework/retry/support/RetryTemplateTests.java:203-218 | a new template has a default simple policy, a non-interrupting back-off, no listeners, and throwLastExceptionOnExhausted off |
| Template.RetryTemplate.SetRetryPolicy | src/test/java/org/springframework/retry/support/RetryTemplateTests.java:64 | only the policy changes |
| Template.RetryTemplate.SetBackOffPolicy | src/test/java/org/springframework/retry/support/RetryTemplateTests.java:195 | only the back-off policy changes |
| Template.RetryTemplate.RegisterListener | src/test/java/org/springframework/retry/support/RetryTemplateTests.java:354-365 | the listener is appended; nothing else changes |
| Template.RetryTemplate.SetThrowLastExceptionOnExhausted | src/test/java/org/springframework/retry/support/RetryTemplateTests.java:224 | only the flag changes |
| Template.RetryTemplate.CanRetry | src/test/java/org/springframework/retry/support/RetryTemplateTests.java:103-131 | the template's `canRetry` asks its policy: it agrees with the simple or never-retry policy object it holds, and a policy that fails on registration allows exactly until its first registration |
| Template.RetryTemplate.Open | src/test/java/org/springframework/retry/support/RetryTemplateTests.java:248-249 | a new, fresh context whose parent is the current one |
| Template.RetryTemplate.RegisterThrowable | src/test/java/org/springframework/retry/support/RetryTemplateTests.java:275-293 | the context's new state, or the policy's throwable, is what `Register` gives |
| Template.RetryTemplate.Close | src/test/java/org/springframework/retry/policy/NeverRetryPolicyTests.java:41-42 | closing leaves the context state unchanged |
| Template.RetryTemplate.OnSuccess | src/test/java/org/springframework/retry/support/RetryTemplateTests.java:354-365 | the hooks are called from the last registered listener to the first; the throwable raised is that of the first one called that vetoes the value, as `Veto` says |
| Template.RetryTemplate.HandleRetryExhausted | src/test/java/org/springframework/retry/support/RetryTemplateTests.java:91-131 | the outcome at exhaustion: the recovery value, else the last throwable wrapped in an ExhaustedRetryException for a stateful execution without throwLastExceptionOnExhausted, else the last throwable wrapped if necessary |
| Template.RetryTemplate.HandleAttempt | src/test/java/org/springframework/retry/support/RetryTemplateTests.java:275-349 | the loop body after one call decides what `Step` decides, and pauses the back-off policy once exactly when `Step` pauses |
| Template.RetryTemplate.Iterate | src/test/java/org/springframework/retry/support/RetryTemplateTests.java:58-89 | one loop pass: the run still ahead is that from the new context state and the next behaviour, shifted by this call and its pause; a pass that goes on uses up budget |
| Template.RetryTemplate.RetryLoop | src/test/java/org/springframework/retry/support/RetryTemplateTests.java:187-201 | the while loop makes exactly the calls and pauses `Run` counts, and ends with `Run`'s outcome or with the policy refusing |
| Template.RetryTemplate.Execute | src/test/java/org/springframework/retry/support/RetryTemplateTests.java:58-372 | an execution ends as `Run` says: the same outcome, one call of the work per attempt, one back-off start, one pause per `Run` pause, and the context stack restored |
| Scenarios.SuccessfulRetry | src/test/java/org/springframework/retry/support/RetryTemplateTests.java:58-68 | for any x ≥ 1, a callback succeeding on call x under SimpleRetryPolicy(x) returns and was called x times |
| Scenarios.SpecificExceptionRetry | src/test/java/org/springframework/retry/support/RetryTemplateTests.java:70-89 | a lambda throwing IllegalArgumentException until call x returns "foo" after x calls |
| Scenarios.SuccessfulRecovery | src/test/java/org/springframework/retry/support/RetryTemplateTests.java:91-101 | success on call 3 under a maximum of 2: two calls, then the recovery value |
| Scenarios.AlwaysTryAtLeastOnce | src/test/java/org/springframework/retry/support/RetryTemplateTests.java:103-110 | under NeverRetryPolicy the callback is called once |
| Scenarios.NoSuccessRetry | src/test/java/org/springframework/retry/support/RetryTemplateTests.java:112-131 | a callback that never succeeds under a maximum of 2 is called twice and its IllegalArgumentException escapes unchanged |
| Scenarios.DefaultConfigWithExceptionSubclass | src/test/java/org/springframework/retry/support/RetryTemplateTests.java:133-144 | an IllegalArgumentException is retried by the default classifier; three calls |
| Scenarios.RollbackClassifierOverridesRetryPolicy | src/test/java/org/springframework/retry/support/RetryTemplateTests.java:146-160 | a rollback classifier that excludes IllegalArgumentException does not stop the retries; three calls |
| Scenarios.SetExceptions | src/test/java/org/springframework/retry/support/RetryTemplateTests.java:162-185 | with only RuntimeException retryable, a plain Exception escapes after one call; after switching to a RuntimeException, the same callback reaches three calls and returns |
| Scenarios.BackOffInvoked | src/test/java/org/springframework/retry/support/RetryTemplateTests.java:187-201 | for x in 1..10: x calls, one back-off start, x-1 pauses |
| Scenarios.EarlyTermination | src/test/java/org/springframework/retry/support/RetryTemplateTests.java:203-236 | with or without throwLastExceptionOnExhausted, the work's own IllegalStateException, with its message, escapes |
| Scenarios.NestedContexts | src/test/java/org/springframework/retry/support/RetryTemplateTests.java:238-257 | the outer execution returns; both works ran once (count 2); the inner context is new, its parent is the outer context, it was current during the inner call, and the outer one was current again afterwards |
| Scenarios.RethrowError | src/test/java/org/springframework/retry/support/RetryTemplateTests.java:259-272 | an Error escapes unchanged, with its message, after one call |
| Scenarios.FailedPolicy | src/test/java/org/springframework/retry/support/RetryTemplateTests.java:274-293 | a policy that throws on registration gives a TerminatedRetryException whose cause has the message "Planned" |
| Scenarios.BackOffInterrupted | src/test/java/org/springframework/retry/support/RetryTemplateTests.java:295-313 | the back-off's BackOffInterruptedException "foo" escapes |
| Scenarios.NoBackOffForRethrownException | src/test/java/org/springframework/retry/support/RetryTemplateTests.java:315-349 | a rollback-for-everything state rethrows the work's Exception, with its message, after one call; the back-off was started once and never paused |
| Scenarios.RetryOnBadResult | src/test/java/org/springframework/retry/support/RetryTemplateTests.java:351-373 | a listener that vetoes "bad" makes the template call again; "good" is returned after two calls |
| PolicyScenarios.CanRetryIfNoException | src/test/java/org/springframework/retry/policy/SimpleRetryPolicyTests.java:36-41 | a fresh context of a default policy can retry |
| PolicyScenarios.EmptyExceptionsNeverRetry | src/test/java/org/springframework/retry/policy/SimpleRetryPolicyTests.java:43-54 | with an empty type map, no throwable is retryable |
| PolicyScenarios.WithExceptionDefaultAlwaysRetry | src/test/java/org/springframework/retry/policy/SimpleRetryPolicyTests.java:56-72 | with default true and IllegalStateException→false: no after an IllegalStateException, yes again after an IllegalArgumentException |
| PolicyScenarios.RetryLimitInitialState | src/test/java/org/springframework/retry/policy/SimpleRetryPolicyTests.java:74-82 | a fresh context can retry; once the maximum is set to 0, a new context cannot |
| PolicyScenarios.RetryLimitSubsequentState | src/test/java/org/springframework/retry/policy/SimpleRetryPolicyTests.java:84-94 | with a maximum of 2: yes, yes after one Exception, no after two |
| PolicyScenarios.SimpleRetryCount | src/test/java/org/springframework/retry/policy/SimpleRetryPolicyTests.java:96-106 | a null registration leaves the count at 0; a throwable makes it 1 and is the last throwable |
| PolicyScenarios.FatalOverridesRetryable | src/test/java/org/springframework/retry/policy/SimpleRetryPolicyTests.java:108-118 | Exception→false and RuntimeException→true: a RuntimeException is retryable |
| PolicyScenarios.RetryableWithCause | src/test/java/org/springframework/retry/policy/SimpleRetryPolicyTests.java:120-129 | with cause traversal, an Exception caused by a RuntimeException is retryable |
| PolicyScenarios.SimpleParent | src/test/java/org/springframework/retry/policy/SimpleRetryPolicyTests.java:131-138 | a child context is a different object whose parent is the given context |
| PolicyScenarios.NeverSimpleOperations | src/test/java/org/springframework/retry/policy/NeverRetryPolicyTests.java:31-43 | yes, yes again, no after a null registration, still no after close |
| PolicyScenarios.NeverRetryCount | src/test/java/org/springframework/retry/policy/NeverRetryPolicyTests.java:45-55 | a null registration leaves the count at 0; a throwable makes it 1 and is the last throwable |
| PolicyScenarios.NeverParent | src/test/java/org/springframework/retry/policy/NeverRetryPolicyTests.java:57-64 | a child context is a different object whose parent is the given context |

## Left out

- The thread-local holder of the current context is an explicit `ContextStack`
  object passed to every execution. Concurrency is out of scope.
- Back-off pauses do not sleep. The back-off policy is two counters plus an
  optional interruption that every pause throws, as the interrupting back-off in
  `RetryTemplateTests.java:298-303` does.
- Listener hooks other than the `onSuccess` veto are not modelled (open, close,
  onError), and neither is logging. A listener is a value that rejects one result.
- Stateful retries are not cached by key. A `RetryState` contributes only its
  rollback classifier, and each execution opens a fresh context.
- The retry context's attribute bag is not modelled; the context has only the
  fields the loop uses, and `isExhaustedOnly` is read directly from the
  `exhaustedOnly` field that `SetExhaustedOnly` sets.
- Classification knows only the exception classes the tests use, linked by their
  superclasses. Interfaces and reflection are left out. The rollback classifier of
  `DefaultRetryState` is a `Classifier` value.
- Java `int` overflow is not modelled. Integers are unbounded, which matters only
  for `Integer.MAX_VALUE` as a threshold, and that threshold is never reached.
- The text of the template's own throwables ("Could not register throwable",
  "Retry exhausted after last attempt with no recovery path", "Exception in
  retry") is modelled, but the tests never assert these texts; they check only
  the kinds and causes.
- `new Exception()`, whose message is null in Java, is modelled with an empty
  message.
- Template.RunNested: the inner template is created afresh on each call of the
  outer work rather than once before it; the test calls the outer work once, so
  nothing observable differs.
- Scenarios.SpecificExceptionRetry, Scenarios.SuccessfulRetry,
  Scenarios.BackOffInvoked: the tests loop x over 1..10; the scenarios take x as a
  parameter (any x ≥ 1, respectively 1..10).
- Scenarios.NoSuccessRetry, Scenarios.EarlyTermination, Scenarios.RethrowError,
  Scenarios.NoBackOffForRethrownException, Scenarios.RetryOnBadResult and the
  policy scenarios take the thrown failure or its message as a parameter instead
  of the tests' literals; the literals are instances.
- TemplateLemmas.RollbackRethrowsAtOnce: states the outcome and the number of
  calls but not the number of pauses, which depends on the policy;
  Scenarios.NoBackOffForRethrownException states it for the test's policy.
- `TemplateSpec.ShiftTwice` is an arithmetic step about `Shift` used inside the
  proof of `Iterate`; it models nothing by itself.
- The methods `Scenarios.ExecuteExpecting`, `ExecuteSucceedingOnCall`,
  `ExecuteSucceedingTooLate`, `ExecuteNonRetryable`, `ExecuteFailingUntil` and
  `ExecuteVetoingFirst` are proof helpers that run `Execute` with a known run;
  they model nothing beyond it.
