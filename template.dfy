/**
 * The retry template: the collaborators it drives (the stack of current contexts,
 * the back-off policy, the work under retry) and `RetryTemplate.Execute`, the retry
 * loop, proved to do what `TemplateSpec.Run` says.
 */
module Template {
  import opened Wrappers
  import opened Exceptions
  import opened Policies
  import opened TemplateSpec
  import opened TemplateLemmas

  /**
   * The contexts of the executions in progress on one thread, innermost last; the
   * last one is the "current" context.
   */
  class ContextStack {
    var contexts: seq<RetryContext>

    constructor ()
      ensures contexts == []
    {
      contexts := [];
    }

    /** The innermost context still registered, or none when the stack is empty. */
    function Current(): (r: RetryContext?)
      reads this
      ensures r == null <==> contexts == []
      ensures r != null ==> r == contexts[|contexts| - 1]
    {
      if contexts == [] then null else contexts[|contexts| - 1]
    }

    method Register(context: RetryContext)
      modifies this
      ensures contexts == old(contexts) + [context] && Current() == context
    {
      contexts := contexts + [context];
    }

    /** Restores the context that was current before the last `Register`. */
    method Clear()
      modifies this
      ensures contexts == if old(contexts) == [] then [] else old(contexts)[..|old(contexts)| - 1]
    {
      if contexts != [] {
        contexts := contexts[..|contexts| - 1];
      }
    }
  }

  /** A back-off policy that counts its calls and may be interrupted on every pause. */
  class BackOffPolicy {
    var startCalls: nat
    var backOffCalls: nat
    const interruption: Option<Failure>

    constructor (interruption: Option<Failure>)
      ensures startCalls == 0 && backOffCalls == 0 && this.interruption == interruption
    {
      startCalls := 0;
      backOffCalls := 0;
      this.interruption := interruption;
    }

    method Start()
      modifies this
      ensures startCalls == old(startCalls) + 1 && backOffCalls == old(backOffCalls)
    {
      startCalls := startCalls + 1;
    }

    /** Pauses; returns the interruption it throws, if any. */
    method BackOff() returns (thrown: Option<Failure>)
      modifies this
      ensures backOffCalls == old(backOffCalls) + 1 && startCalls == old(startCalls)
      ensures thrown == interruption
    {
      backOffCalls := backOffCalls + 1;
      thrown := interruption;
    }
  }

  /** How a work behaves; the works of the tests differ only in this. */
  datatype Kind =
    | FailingUntil(success: Value)
      // counts its calls; throws `exceptionToThrow` while the count is below
      // `attemptsBeforeSuccess`, then returns `success`
    | Throwing(failure: Failure, exhaust: bool)
      // throws `failure`, first marking the context exhausted-only when `exhaust`
    | BadThenGood
      // returns "bad" on its first call and "good" afterwards
    | Outer
      // runs a new `Inner` work, handed its own context, with a new default template,
      // counts the inner calls with its own and returns what the inner run returns
    | Inner(outer: RetryContext)
      // checks its context against the outer one it was handed, returns null

  /**
   * A work under retry with the state it keeps: its call count, the failure plan of a
   * failing work, whether a first-then work is still at its first call, and whether
   * every check a nesting work made held.
   */
  class RetryCallback {
    const kind: Kind
    var attempts: nat
    var attemptsBeforeSuccess: int
    var exceptionToThrow: Failure
    var first: bool
    var checks: bool

    constructor (kind: Kind)
      ensures this.kind == kind && attempts == 0 && attemptsBeforeSuccess == 0
      ensures exceptionToThrow == Failure(Exception, "", None) && first && checks
    {
      this.kind := kind;
      attempts := 0;
      attemptsBeforeSuccess := 0;
      exceptionToThrow := Failure(Exception, "", None);
      first := true;
      checks := true;
    }

    method SetAttemptsBeforeSuccess(n: int)
      modifies this
      ensures attemptsBeforeSuccess == n && attempts == old(attempts) && exceptionToThrow == old(exceptionToThrow)
      ensures first == old(first) && checks == old(checks)
    {
      attemptsBeforeSuccess := n;
    }

    method SetExceptionToThrow(f: Failure)
      modifies this
      ensures exceptionToThrow == f && attempts == old(attempts) && attemptsBeforeSuccess == old(attemptsBeforeSuccess)
      ensures first == old(first) && checks == old(checks)
    {
      exceptionToThrow := f;
    }
  }

  function Rank(work: RetryCallback): nat {
    if work.kind.Outer? then 1 else 0
  }

  /** How many calls one call of a work counts, `n` times over: an outer call counts the inner call too. */
  function Counted(kind: Kind, n: nat): nat {
    if kind.Outer? then 2 * n else n
  }

  /** How a work behaves from now on. */
  function Snapshot(work: RetryCallback): Behaviour
    reads work
  {
    match work.kind
    case FailingUntil(v) => FailUntil(work.attempts, work.attemptsBeforeSuccess, work.exceptionToThrow, v)
    case Throwing(f, exhaust) => AlwaysFail(f, exhaust)
    case BadThenGood => FirstThen(work.first, Str("bad"), Str("good"))
    case Outer => Constant(Returned(Null))
    case Inner(_) => Constant(Returned(Null))
  }

  /** What an inner work checks of its context: another one than the outer one, and a child of it. */
  predicate Nested(context: RetryContext, outer: RetryContext) {
    context != outer && context.parent == outer
  }

  /**
   * The checks of a work after calls in `context` (if `called`): an inner work's checks
   * hold as before exactly when `context` is nested in its outer one; every other
   * work's checks hold as before.
   */
  predicate ChecksAfter(work: RetryCallback, checks0: bool, context: RetryContext, called: bool)
    reads work
  {
    work.checks == (checks0 && (called && work.kind.Inner? ==> Nested(context, work.kind.outer)))
  }

  /** The retry policy a template is configured with. */
  datatype PolicyRef =
    | Simple(simple: SimpleRetryPolicy)
    | Never(never: NeverRetryPolicy)
    | Rejecting(rejecting: RejectingRetryPolicy)

  /** The policy objects with state that may change: only a simple policy's maximum. */
  function PolicyReads(p: PolicyRef): set<object> {
    if p.Simple? then {p.simple} else {}
  }

  function SpecOf(p: PolicyRef): PolicySpec
    reads PolicyReads(p)
  {
    match p
    case Simple(s) => s.Spec()
    case Never(n) => n.Spec()
    case Rejecting(r) => r.Spec()
  }

  /**
   * What the outer work does besides counting: runs a new inner work, handed the
   * current context `context` as its outer one, with a new default template. The inner
   * work is called once, returns null, and its checks hold.
   */
  method RunNested(context: RetryContext, stack: ContextStack) returns (r: Outcome, calls: nat, checks: bool)
    requires stack.Current() == context
    modifies stack
    decreases 1, 0
    ensures r == Returned(Null) && calls == 1 && checks
    ensures stack.contexts == old(stack.contexts)
  {
    var inner := new RetryCallback(Inner(context));
    var template := new RetryTemplate();
    r, calls, checks := RunInner(template, inner, stack);
  }

  /** `template` running a fresh inner work whose outer context is the current one. */
  method RunInner(template: RetryTemplate, inner: RetryCallback, stack: ContextStack)
    returns (r: Outcome, calls: nat, checks: bool)
    requires inner.kind.Inner? && inner.kind.outer == stack.Current() && inner.attempts == 0 && inner.checks
    requires Continues(template.Config(None, None).policy, FreshState) && Veto(template.listeners, Null).None?
    modifies stack, template.backOffPolicy, inner
    decreases 0, 5
    ensures r == Returned(Null) && calls == 1 && checks
    ensures stack.contexts == old(stack.contexts)
  {
    ReturnedValueEnds(template.Config(None, None), Snapshot(inner));
    ghost var run;
    r, run := template.Execute(inner, None, None, stack);
    calls := inner.attempts;
    checks := inner.checks;
  }

  /** Calls the work once with `context`, the current context. */
  method Call(work: RetryCallback, context: RetryContext, stack: ContextStack) returns (a: Attempt)
    requires stack.Current() == context
    modifies context, stack, work
    decreases Rank(work), 1
    ensures a == NextAttempt(old(Snapshot(work))) && Snapshot(work) == Next(old(Snapshot(work)))
    ensures context.State() ==
      if a.Raise? && a.exhaust then old(context.State()).(exhaustedOnly := true) else old(context.State())
    ensures stack.contexts == old(stack.contexts)
    ensures work.attempts == old(work.attempts) + Counted(work.kind, 1)
    ensures work.attemptsBeforeSuccess == old(work.attemptsBeforeSuccess)
    ensures ChecksAfter(work, old(work.checks), context, true)
  {
    match work.kind
    case FailingUntil(v) =>
      work.attempts := work.attempts + 1;
      if work.attempts < work.attemptsBeforeSuccess {
        a := Raise(work.exceptionToThrow, false);
      } else {
        a := Return(v);
      }
    case Throwing(f, exhaust) =>
      work.attempts := work.attempts + 1;
      if exhaust {
        context.SetExhaustedOnly();
      }
      a := Raise(f, exhaust);
    case BadThenGood =>
      work.attempts := work.attempts + 1;
      a := Return(if work.first then Str("bad") else Str("good"));
      work.first := false;
    case Outer =>
      work.attempts := work.attempts + 1;
      var r, innerCalls, innerChecks := RunNested(context, stack);
      work.attempts := work.attempts + innerCalls;
      work.checks := work.checks && innerChecks && stack.Current() == context;
      a := match r
        case Returned(v) => Return(v)
        case Threw(f) => Raise(f, false);
    case Inner(outer) =>
      work.attempts := work.attempts + 1;
      work.checks := work.checks && Nested(context, outer) && stack.Current() == context;
      a := Return(Null);
  }

  class RetryTemplate {
    var retryPolicy: PolicyRef
    var backOffPolicy: BackOffPolicy
    var listeners: seq<Listener>
    var throwLastExceptionOnExhausted: bool

    /** A template with a default simple policy and a back-off policy that never pauses. */
    constructor ()
      ensures retryPolicy.Simple? && fresh(retryPolicy.simple) && fresh(backOffPolicy)
      ensures SpecOf(retryPolicy) == SimpleSpec(DEFAULT_MAX_ATTEMPTS, DefaultRetryable())
      ensures backOffPolicy.interruption.None? && listeners == [] && !throwLastExceptionOnExhausted
    {
      var policy := new SimpleRetryPolicy.Default();
      retryPolicy := Simple(policy);
      backOffPolicy := new BackOffPolicy(None);
      listeners := [];
      throwLastExceptionOnExhausted := false;
    }

    method SetRetryPolicy(policy: PolicyRef)
      modifies this
      ensures retryPolicy == policy && backOffPolicy == old(backOffPolicy)
      ensures listeners == old(listeners) && throwLastExceptionOnExhausted == old(throwLastExceptionOnExhausted)
    {
      retryPolicy := policy;
    }

    method SetBackOffPolicy(backOff: BackOffPolicy)
      modifies this
      ensures backOffPolicy == backOff && retryPolicy == old(retryPolicy)
      ensures listeners == old(listeners) && throwLastExceptionOnExhausted == old(throwLastExceptionOnExhausted)
    {
      backOffPolicy := backOff;
    }

    method RegisterListener(listener: Listener)
      modifies this
      ensures listeners == old(listeners) + [listener]
      ensures retryPolicy == old(retryPolicy) && backOffPolicy == old(backOffPolicy)
      ensures throwLastExceptionOnExhausted == old(throwLastExceptionOnExhausted)
    {
      listeners := listeners + [listener];
    }

    method SetThrowLastExceptionOnExhausted(value: bool)
      modifies this
      ensures throwLastExceptionOnExhausted == value && retryPolicy == old(retryPolicy)
      ensures backOffPolicy == old(backOffPolicy) && listeners == old(listeners)
    {
      throwLastExceptionOnExhausted := value;
    }

    /** What an execution with this template depends on besides the work. */
    function Config(recovery: Option<Value>, state: Option<RetryState>): RunConfig
      reads this, PolicyReads(retryPolicy)
    {
      RunConfig(SpecOf(retryPolicy), backOffPolicy.interruption, listeners, recovery, state,
        throwLastExceptionOnExhausted)
    }

    /** The template asks its policy. */
    predicate CanRetry(context: RetryContext)
      reads this, PolicyReads(retryPolicy), context
      ensures retryPolicy.Simple? ==> (CanRetry(context) <==> retryPolicy.simple.CanRetry(context))
      ensures retryPolicy.Never? ==> (CanRetry(context) <==> retryPolicy.never.CanRetry(context))
      ensures retryPolicy.Rejecting? ==> (CanRetry(context) <==> !context.finished)
    {
      Permits(SpecOf(retryPolicy), context.State())
    }

    method Open(parent: RetryContext?) returns (context: RetryContext)
      ensures fresh(context) && context.State() == FreshState && context.parent == parent
    {
      match retryPolicy
      case Simple(p) => context := p.Open(parent);
      case Never(p) => context := p.Open(parent);
      case Rejecting(p) => context := p.Open(parent);
    }

    /** Registers `f` with the policy; returns what the policy throws, if anything. */
    method RegisterThrowable(context: RetryContext, f: Failure) returns (thrown: Option<Failure>)
      modifies context
      ensures match Register(SpecOf(retryPolicy), old(context.State()), Some(f))
        case Ok(s) => thrown.None? && context.State() == s
        case Err(e) => thrown == Some(e) && context.State() == old(context.State())
    {
      match retryPolicy
      case Simple(p) =>
        p.RegisterThrowable(context, Some(f));
        thrown := None;
      case Never(p) =>
        p.RegisterThrowable(context, Some(f));
        thrown := None;
      case Rejecting(p) =>
        var e := p.RegisterThrowable(context, Some(f));
        thrown := Some(e);
    }

    method Close(context: RetryContext)
      ensures context.State() == old(context.State())
    {
      match retryPolicy
      case Simple(p) => p.Close(context);
      case Never(p) => p.Close(context);
      case Rejecting(p) => p.Close(context);
    }

    /**
     * The success hooks of the listeners, called from the last registered to the first:
     * the throwable of the first one called that vetoes.
     */
    method OnSuccess(v: Value) returns (thrown: Option<Failure>)
      ensures thrown == Veto(listeners, v)
    {
      var hooks := listeners;
      var i := |hooks|;
      thrown := None;
      while 0 < i && thrown.None?
        invariant 0 <= i <= |hooks|
        invariant thrown == None ==> Veto(hooks, v) == VetoAmong(hooks, v, i)
        invariant thrown != None ==> thrown == Veto(hooks, v)
      {
        if hooks[i - 1].rejected == v {
          thrown := Some(hooks[i - 1].failure);
        }
        i := i - 1;
      }
    }

    /** The end of an execution whose attempts ran out. */
    method HandleRetryExhausted(recovery: Option<Value>, state: Option<RetryState>, context: RetryContext)
      returns (r: Outcome)
      ensures r == Exhausted(Config(recovery, state), context.lastThrowable)
    {
      if recovery.Some? {
        r := Returned(recovery.value);
      } else if state.Some? && !throwLastExceptionOnExhausted {
        r := Threw(Failure(ExhaustedRetryException, ExhaustedMessage, context.lastThrowable));
      } else {
        r := Threw(WrapIfNecessary(context.lastThrowable));
      }
    }

    /**
     * The loop body after the work answered `a`: the success hook of the listeners, the
     * registration of a failure, the pause before the next attempt and the rollback
     * decision of the retry state, as `Step` says.
     */
    method HandleAttempt(a: Attempt, context: RetryContext, recovery: Option<Value>, state: Option<RetryState>,
                         ghost cfg: RunConfig, ghost s: ContextState)
      returns (result: Option<Outcome>, ghost paused: bool)
      requires cfg == Config(recovery, state)
      requires context.State() == if a.Raise? && a.exhaust then s.(exhaustedOnly := true) else s
      modifies context, backOffPolicy
      ensures Step(cfg, a, s) ==
        if result.Some? then Finish(result.value, paused) else Again(context.State(), paused)
      ensures backOffPolicy.backOffCalls == old(backOffPolicy.backOffCalls) + Pauses(paused)
      ensures backOffPolicy.startCalls == old(backOffPolicy.startCalls)
    {
      var failure: Option<Failure>;
      match a {
        case Return(v) =>
          failure := OnSuccess(v);
        case Raise(f, _) =>
          failure := Some(f);
      }
      result := None;
      paused := false;
      if failure.None? {
        result := Some(Returned(a.value));
      } else {
        var thrown := RegisterThrowable(context, failure.value);
        if thrown.Some? {
          result := Some(Threw(Terminated(thrown.value)));
        } else {
          var pause := CanRetry(context) && !context.exhaustedOnly;
          paused := pause;
          if pause {
            var interrupted := backOffPolicy.BackOff();
            if interrupted.Some? {
              result := Some(Threw(WrapIfNecessary(interrupted)));
            }
          }
          if result.None? && state.Some? && Classify(state.value.rollbackClassifier, failure.value) {
            result := Some(Threw(WrapIfNecessary(failure)));
          }
        }
      }
    }

    /**
     * One pass of the loop: calls the work in `context`, then takes the `Step`; the
     * execution from here is this pass followed by the execution from the new state.
     */
    method Iterate(work: RetryCallback, context: RetryContext, stack: ContextStack,
                   recovery: Option<Value>, state: Option<RetryState>, ghost cfg: RunConfig,
                   ghost run: RunResult, ghost attempts: nat, ghost pauses: nat)
      returns (result: Option<Outcome>, ghost paused: bool)
      requires cfg == Config(recovery, state) && stack.Current() == context
      requires Continues(cfg.policy, context.State())
      modifies context, stack, backOffPolicy, work
      decreases Rank(work), 2
      ensures run == Shift(Run(cfg, old(Snapshot(work)), old(context.State())), attempts, pauses) ==>
        run == if result.Some? then RunResult(result.value, attempts + 1, pauses + Pauses(paused))
        else Shift(Run(cfg, Snapshot(work), context.State()), attempts + 1, pauses + Pauses(paused))
      ensures result.None? ==> Remaining(cfg.policy, context.State()) < old(Remaining(cfg.policy, context.State()))
      ensures Config(recovery, state) == cfg && stack.contexts == old(stack.contexts)
      ensures work.attempts == old(work.attempts) + Counted(work.kind, 1)
      ensures work.attemptsBeforeSuccess == old(work.attemptsBeforeSuccess)
      ensures ChecksAfter(work, old(work.checks), context, true)
      ensures backOffPolicy.startCalls == old(backOffPolicy.startCalls)
      ensures backOffPolicy.backOffCalls == old(backOffPolicy.backOffCalls) + Pauses(paused)
    {
      ghost var s := context.State();
      ghost var b := Snapshot(work);
      var a := Call(work, context, stack);
      result, paused := HandleAttempt(a, context, recovery, state, cfg, s);
      if result.None? {
        StepShrinks(cfg, a, s);
        ShiftTwice(Run(cfg, Snapshot(work), context.State()), 1, Pauses(paused), attempts, pauses);
      }
    }

    /**
     * The retry loop in the current context `context`: while no outcome is decided and
     * the policy permits another attempt, takes one more pass. Without an outcome the
     * loop ends with the attempts exhausted.
     */
    method RetryLoop(work: RetryCallback, context: RetryContext, stack: ContextStack,
                     recovery: Option<Value>, state: Option<RetryState>, ghost cfg: RunConfig)
      returns (result: Option<Outcome>, ghost attempts: nat, ghost pauses: nat)
      requires cfg == Config(recovery, state) && stack.Current() == context
      modifies context, stack, backOffPolicy, work
      decreases Rank(work), 3
      ensures Run(cfg, old(Snapshot(work)), old(context.State())) ==
        RunResult(if result.Some? then result.value else Exhausted(cfg, context.lastThrowable), attempts, pauses)
      ensures stack.contexts == old(stack.contexts)
      ensures work.attempts == old(work.attempts) + Counted(work.kind, attempts)
      ensures work.attemptsBeforeSuccess == old(work.attemptsBeforeSuccess)
      ensures ChecksAfter(work, old(work.checks), context, attempts > 0)
      ensures backOffPolicy.startCalls == old(backOffPolicy.startCalls)
      ensures backOffPolicy.backOffCalls == old(backOffPolicy.backOffCalls) + pauses
    {
      result := None;
      attempts := 0;
      pauses := 0;
      ghost var run := Run(cfg, Snapshot(work), context.State());
      while result.None? && CanRetry(context) && !context.exhaustedOnly
        invariant stack.contexts == old(stack.contexts)
        invariant Config(recovery, state) == cfg
        invariant run == if result.Some? then RunResult(result.value, attempts, pauses)
          else Shift(Run(cfg, Snapshot(work), context.State()), attempts, pauses)
        invariant work.attempts == old(work.attempts) + Counted(work.kind, attempts)
        invariant work.attemptsBeforeSuccess == old(work.attemptsBeforeSuccess)
        invariant ChecksAfter(work, old(work.checks), context, attempts > 0)
        invariant backOffPolicy.startCalls == old(backOffPolicy.startCalls)
        invariant backOffPolicy.backOffCalls == old(backOffPolicy.backOffCalls) + pauses
        decreases if result.None? then 1 + Remaining(cfg.policy, context.State()) else 0
      {
        ghost var paused: bool;
        result, paused := Iterate(work, context, stack, recovery, state, cfg, run, attempts, pauses);
        attempts := attempts + 1;
        pauses := pauses + Pauses(paused);
      }
      if result.None? {
        assert !Continues(cfg.policy, context.State());
      }
    }

    /**
     * Runs `work` under the retry policy: opens a context whose parent is the current
     * one and makes it current, starts the back-off policy, loops as `Run` says, and on
     * every way out closes the context and restores the previous current context.
     */
    method Execute(work: RetryCallback, recovery: Option<Value>, state: Option<RetryState>, stack: ContextStack)
      returns (r: Outcome, ghost run: RunResult)
      modifies stack, backOffPolicy, work
      decreases Rank(work), 4
      ensures run == old(Run(Config(recovery, state), Snapshot(work), FreshState))
      ensures stack.contexts == old(stack.contexts)
      ensures r == run.outcome
      ensures work.attempts == old(work.attempts) + Counted(work.kind, run.attempts)
      ensures work.attemptsBeforeSuccess == old(work.attemptsBeforeSuccess)
      ensures backOffPolicy.startCalls == old(backOffPolicy.startCalls) + 1
      ensures backOffPolicy.backOffCalls == old(backOffPolicy.backOffCalls) + run.backOffs
      ensures (work.kind.Inner? ==> work.kind.outer == old(stack.Current())) ==> work.checks == old(work.checks)
    {
      ghost var cfg := Config(recovery, state);
      run := Run(cfg, Snapshot(work), FreshState);
      var context := Open(stack.Current());
      stack.Register(context);
      backOffPolicy.Start();
      ghost var attempts, pauses;
      var result;
      result, attempts, pauses := RetryLoop(work, context, stack, recovery, state, cfg);
      if result.None? {
        var exhausted := HandleRetryExhausted(recovery, state, context);
        result := Some(exhausted);
      }
      Close(context);
      stack.Clear();
      r := result.value;
    }
  }
}
