/**
 * Retry policies and the per-execution retry context they keep their state in.
 * A policy object is reentrant: all that an execution accumulates (how many
 * throwables were registered, the last one, whether the policy has finished,
 * whether the work asked to stop) lives in the context.
 */
module Policies {
  import opened Wrappers
  import opened Exceptions

  /** The abstract value of a retry context. */
  datatype ContextState = ContextState(
    count: nat,                      // number of non-null throwables registered
    lastThrowable: Option<Failure>,  // the most recently registered throwable, null included
    finished: bool,                  // set by a never-retry policy on its first registration
    exhaustedOnly: bool)             // set by the work itself to stop further attempts

  const FreshState := ContextState(0, None, false, false)

  /** The maximum number of attempts of a default simple policy. */
  const DEFAULT_MAX_ATTEMPTS: int := 3

  /** The classifier of a default simple policy: every Exception is retryable. */
  function DefaultRetryable(): (r: Classifier)
    ensures !r.traverseCauses && forall t :: SubclassClassify(r, t) <==> IsA(t, Exception)
  {
    Classifier(map[Exception := true], false, false)
  }

  /** The default classifier retries exactly the throwables that are Exceptions. */
  lemma DefaultRetriesExceptions(f: Failure)
    ensures Classify(DefaultRetryable(), f) <==> IsA(f.kind, Exception)
  {
    if IsA(f.kind, Exception) {
      assert Nearest(DefaultRetryable().typeMap, f.kind) == Some(Exception);
    }
  }

  /** What a policy decides with, as a value. */
  datatype PolicySpec =
    | SimpleSpec(maxAttempts: int, retryable: Classifier)
    | NeverSpec
    | RejectingSpec(error: Failure)   // a never-retry policy whose registration throws `error`

  /**
   * The context's own bookkeeping: the registered throwable, null included, becomes the
   * last one, and only a non-null one is counted.
   */
  function Record(s: ContextState, t: Option<Failure>): (r: ContextState)
    ensures r.count == s.count + (if t.Some? then 1 else 0)
    ensures r.lastThrowable == t
    ensures r.finished == s.finished && r.exhaustedOnly == s.exhaustedOnly
  {
    if t.Some? then s.(count := s.count + 1, lastThrowable := t) else s.(lastThrowable := None)
  }

  /**
   * Registering a throwable (possibly null) with a policy: the new context state,
   * or the throwable the policy itself throws.
   */
  function Register(p: PolicySpec, s: ContextState, t: Option<Failure>): (r: Result<ContextState, Failure>)
    ensures r.Err? <==> p.RejectingSpec?
    ensures r.Ok? ==> r.value.count == s.count + (if t.Some? then 1 else 0)
    ensures r.Ok? ==> r.value.lastThrowable == t
    ensures r.Ok? ==> r.value.finished == (s.finished || p.NeverSpec?)
    ensures r.Ok? ==> r.value.exhaustedOnly == s.exhaustedOnly
  {
    match p
    case SimpleSpec(_, _) => Ok(Record(s, t))
    case NeverSpec => Ok(Record(s.(finished := true), t))
    case RejectingSpec(e) => Err(e)
  }

  /**
   * Whether the policy permits another attempt in a context in state `s`: a simple
   * policy while attempts remain and the last throwable, if any, is retryable; the
   * never-retry policies until their first registration.
   */
  predicate Permits(p: PolicySpec, s: ContextState) {
    match p
    case SimpleSpec(maxAttempts, retryable) =>
      (s.lastThrowable.None? || Classify(retryable, s.lastThrowable.value)) && s.count < maxAttempts
    case NeverSpec => !s.finished
    case RejectingSpec(_) => !s.finished
  }

  /**
   * What `Permits` decides: a simple policy never beyond its maximum and never after a
   * non-retryable throwable, and with no last throwable exactly below its maximum; the
   * never-retry policies exactly until their first registration.
   */
  lemma PermitsDecides(p: PolicySpec, s: ContextState)
    ensures p.SimpleSpec? && Permits(p, s) ==> s.count < p.maxAttempts
    ensures p.SimpleSpec? && s.lastThrowable.Some? && !Classify(p.retryable, s.lastThrowable.value) ==> !Permits(p, s)
    ensures p.SimpleSpec? && s.lastThrowable.None? ==> (Permits(p, s) <==> s.count < p.maxAttempts)
    ensures !p.SimpleSpec? ==> (Permits(p, s) <==> !s.finished)
  {
  }

  /** The loop guard of the retry template. */
  predicate Continues(p: PolicySpec, s: ContextState) {
    Permits(p, s) && !s.exhaustedOnly
  }

  /** An upper bound on the attempts still possible from state `s`. */
  function Remaining(p: PolicySpec, s: ContextState): nat {
    if !Continues(p, s) then 0
    else match p
      case SimpleSpec(maxAttempts, _) => maxAttempts - s.count
      case _ => 1
  }

  /** Every registered failure uses up budget, so the retry loop terminates. */
  lemma RegisterFailureShrinks(p: PolicySpec, s: ContextState, f: Failure)
    requires Continues(p, s) && Register(p, s, Some(f)).Ok?
    ensures Remaining(p, Register(p, s, Some(f)).value) < Remaining(p, s)
  {
  }

  /**
   * A simple policy counts attempts: after `n` retryable failures registered in a fresh
   * context it permits another attempt exactly when `n` is below the maximum.
   */
  lemma {:induction false} SimpleCountsAttempts(max: int, c: Classifier, f: Failure, n: nat)
    requires Classify(c, f)
    ensures var s := RegisterTimes(SimpleSpec(max, c), FreshState, f, n);
      s.count == n && (Permits(SimpleSpec(max, c), s) <==> n < max)
  {
    if n > 0 {
      SimpleCountsAttempts(max, c, f, n - 1);
    }
  }

  /** `n` registrations of `f`, one after the other (a rejecting policy leaves `s` alone). */
  function RegisterTimes(p: PolicySpec, s: ContextState, f: Failure, n: nat): ContextState {
    if n == 0 then s
    else match Register(p, RegisterTimes(p, s, f, n - 1), Some(f))
      case Ok(s') => s'
      case Err(_) => s
  }

  /**
   * The decision of a simple policy follows the last throwable only: two contexts with
   * the same count decide alike after the same throwable, whatever came before it.
   */
  lemma SimpleFollowsLastThrowable(max: int, c: Classifier, s1: ContextState, s2: ContextState, f: Failure)
    requires s1.count == s2.count
    ensures Permits(SimpleSpec(max, c), Register(SimpleSpec(max, c), s1, Some(f)).value)
        == Permits(SimpleSpec(max, c), Register(SimpleSpec(max, c), s2, Some(f)).value)
    ensures Permits(SimpleSpec(max, c), Register(SimpleSpec(max, c), s1, Some(f)).value)
        <==> Classify(c, f) && s1.count + 1 < max
  {
  }

  /** A throwable a simple policy classifies as not retryable stops the retries at once. */
  lemma NonRetryableStops(max: int, c: Classifier, s: ContextState, f: Failure)
    requires !Classify(c, f)
    ensures !Permits(SimpleSpec(max, c), Register(SimpleSpec(max, c), s, Some(f)).value)
  {
  }

  /**
   * A null registration with a simple policy, as on a clean completion, leaves the count
   * alone and forgets the last throwable, so afterwards only the count decides.
   */
  lemma NullRegistrationClearsLast(max: int, c: Classifier, s: ContextState)
    ensures Register(SimpleSpec(max, c), s, None) == Ok(s.(lastThrowable := None))
    ensures Permits(SimpleSpec(max, c), Register(SimpleSpec(max, c), s, None).value) <==> s.count < max
  {
  }

  /**
   * A never-retry policy permits exactly one attempt: a fresh context may go on, and
   * any registration, null included, ends it for good.
   */
  lemma NeverPermitsOneAttempt(s: ContextState, t: Option<Failure>, u: Option<Failure>)
    ensures Permits(NeverSpec, FreshState)
    ensures !Permits(NeverSpec, Register(NeverSpec, s, t).value)
    ensures !Permits(NeverSpec, Register(NeverSpec, Register(NeverSpec, s, t).value, u).value)
  {
  }

  /** A per-execution retry context; `parent` is the context of the enclosing execution. */
  class RetryContext {
    var count: nat
    var lastThrowable: Option<Failure>
    var finished: bool
    var exhaustedOnly: bool
    const parent: RetryContext?

    function State(): ContextState
      reads this
    {
      ContextState(count, lastThrowable, finished, exhaustedOnly)
    }

    constructor (parent: RetryContext?)
      ensures State() == FreshState && this.parent == parent
    {
      this.parent := parent;
      count := 0;
      lastThrowable := None;
      finished := false;
      exhaustedOnly := false;
    }

    /** Called by the work to stop further attempts without another failure. */
    method SetExhaustedOnly()
      modifies this
      ensures State() == old(State()).(exhaustedOnly := true)
    {
      exhaustedOnly := true;
    }

    /** The context's own part of registering a throwable. */
    method RegisterThrowable(t: Option<Failure>)
      modifies this
      ensures State() == Record(old(State()), t)
    {
      lastThrowable := t;
      if t.Some? {
        count := count + 1;
      }
    }

    method SetFinished()
      modifies this
      ensures State() == old(State()).(finished := true)
    {
      finished := true;
    }
  }

  /** Retries up to a maximum number of attempts, as long as the last throwable is retryable. */
  class SimpleRetryPolicy {
    var maxAttempts: int
    const retryableClassifier: Classifier

    function Spec(): PolicySpec
      reads this
    {
      SimpleSpec(maxAttempts, retryableClassifier)
    }

    /** `new SimpleRetryPolicy()`: three attempts, every Exception retryable. */
    constructor Default()
      ensures Spec() == SimpleSpec(DEFAULT_MAX_ATTEMPTS, DefaultRetryable())
    {
      maxAttempts := DEFAULT_MAX_ATTEMPTS;
      retryableClassifier := DefaultRetryable();
    }

    /** `new SimpleRetryPolicy(maxAttempts)`: every Exception retryable. */
    constructor WithMaxAttempts(maxAttempts: int)
      ensures Spec() == SimpleSpec(maxAttempts, DefaultRetryable())
    {
      this.maxAttempts := maxAttempts;
      retryableClassifier := DefaultRetryable();
    }

    /** `new SimpleRetryPolicy(maxAttempts, retryableExceptions, traverseCauses, defaultValue)`. */
    constructor (maxAttempts: int, retryableExceptions: map<ExcType, bool>, traverseCauses: bool, defaultValue: bool)
      ensures Spec() == SimpleSpec(maxAttempts, Classifier(retryableExceptions, traverseCauses, defaultValue))
    {
      this.maxAttempts := maxAttempts;
      retryableClassifier := Classifier(retryableExceptions, traverseCauses, defaultValue);
    }

    method SetMaxAttempts(maxAttempts: int)
      modifies this
      ensures Spec() == SimpleSpec(maxAttempts, retryableClassifier)
    {
      this.maxAttempts := maxAttempts;
    }

    method Open(parent: RetryContext?) returns (context: RetryContext)
      ensures fresh(context) && context.State() == FreshState && context.parent == parent
    {
      context := new RetryContext(parent);
    }

    /** Another attempt only below the maximum, and never after a non-retryable throwable. */
    predicate CanRetry(context: RetryContext)
      reads this, context
      ensures CanRetry(context) ==> context.count < maxAttempts
      ensures context.lastThrowable.Some? && !Classify(retryableClassifier, context.lastThrowable.value)
        ==> !CanRetry(context)
      ensures context.lastThrowable.None? ==> (CanRetry(context) <==> context.count < maxAttempts)
    {
      Permits(Spec(), context.State())
    }

    method RegisterThrowable(context: RetryContext, t: Option<Failure>)
      modifies context
      ensures Register(Spec(), old(context.State()), t) == Ok(context.State())
    {
      context.RegisterThrowable(t);
    }

    method Close(context: RetryContext)
      ensures context.State() == old(context.State())
    {
    }
  }

  /** Allows the first attempt only. */
  class NeverRetryPolicy {
    constructor ()
    {
    }

    function Spec(): PolicySpec {
      NeverSpec
    }

    method Open(parent: RetryContext?) returns (context: RetryContext)
      ensures fresh(context) && context.State() == FreshState && context.parent == parent
    {
      context := new RetryContext(parent);
    }

    /** Only a context no throwable has been registered with, null included. */
    predicate CanRetry(context: RetryContext)
      reads context
      ensures CanRetry(context) <==> !context.finished
    {
      Permits(Spec(), context.State())
    }

    method RegisterThrowable(context: RetryContext, t: Option<Failure>)
      modifies context
      ensures Register(Spec(), old(context.State()), t) == Ok(context.State())
    {
      context.SetFinished();
      context.RegisterThrowable(t);
    }

    method Close(context: RetryContext)
      ensures context.State() == old(context.State())
    {
    }
  }

  /** A never-retry policy whose registration always throws `error`. */
  class RejectingRetryPolicy {
    const error: Failure

    constructor (error: Failure)
      ensures this.error == error
    {
      this.error := error;
    }

    function Spec(): PolicySpec {
      RejectingSpec(error)
    }

    method Open(parent: RetryContext?) returns (context: RetryContext)
      ensures fresh(context) && context.State() == FreshState && context.parent == parent
    {
      context := new RetryContext(parent);
    }

    method RegisterThrowable(context: RetryContext, t: Option<Failure>) returns (thrown: Failure)
      ensures Register(Spec(), context.State(), t) == Err(thrown)
    {
      thrown := error;
    }

    method Close(context: RetryContext)
      ensures context.State() == old(context.State())
    {
    }
  }
}
