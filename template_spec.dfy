/**
 * The retry template's execute loop as a function of values: given what the
 * template is configured with and how the work behaves on successive calls, the
 * outcome of one execution, how many times the work was called and how many
 * times the back-off policy paused.
 */
module TemplateSpec {
  import opened Wrappers
  import opened Exceptions
  import opened Policies

  /** Results the work and the recovery callback return. */
  datatype Value = Null | Str(s: string)

  /** How an execution ends: a returned value or a thrown throwable. */
  datatype Outcome = Returned(value: Value) | Threw(failure: Failure)

  /** One call of the work: it returns, or throws after possibly marking the context exhausted. */
  datatype Attempt = Return(value: Value) | Raise(failure: Failure, exhaust: bool)

  /**
   * How the work behaves, as far as the template can tell: the outcome of its next
   * call and how it behaves afterwards.
   */
  datatype Behaviour =
    | FailUntil(calls: nat, attemptsBeforeSuccess: int, failure: Failure, success: Value)
      // counts its calls; throws while the count is below the threshold
    | AlwaysFail(failure: Failure, exhaust: bool)
    | FirstThen(first: bool, firstValue: Value, laterValue: Value)
    | Constant(outcome: Outcome)

  function NextAttempt(b: Behaviour): Attempt {
    match b
    case FailUntil(calls, threshold, f, v) => if calls + 1 < threshold then Raise(f, false) else Return(v)
    case AlwaysFail(f, exhaust) => Raise(f, exhaust)
    case FirstThen(first, v, w) => Return(if first then v else w)
    case Constant(o) => match o
      case Returned(v) => Return(v)
      case Threw(f) => Raise(f, false)
  }

  function Next(b: Behaviour): Behaviour {
    match b
    case FailUntil(calls, threshold, f, v) => FailUntil(calls + 1, threshold, f, v)
    case FirstThen(_, v, w) => FirstThen(false, v, w)
    case _ => b
  }

  /** A listener whose success hook throws `failure` when the work returned `rejected`. */
  datatype Listener = ResultVeto(rejected: Value, failure: Failure)

  /**
   * The throwable the success hooks of the first `n` listeners throw for a returned
   * value, if any: the hooks run from the last registered listener to the first, so the
   * last vetoing listener among them throws.
   */
  function VetoAmong(listeners: seq<Listener>, v: Value, n: nat): (r: Option<Failure>)
    requires n <= |listeners|
    ensures r.None? <==> forall i :: 0 <= i < n ==> listeners[i].rejected != v
  {
    if n == 0 then None
    else if listeners[n - 1].rejected == v then Some(listeners[n - 1].failure)
    else VetoAmong(listeners, v, n - 1)
  }

  /**
   * The hook that throws is that of the last vetoing listener among the first `n`:
   * if listener `i` vetoes and no later one does, its throwable is the result.
   */
  lemma {:induction false} LastVetoThrows(listeners: seq<Listener>, v: Value, n: nat, i: nat)
    requires i < n <= |listeners| && listeners[i].rejected == v
    requires forall j :: i < j < n ==> listeners[j].rejected != v
    ensures VetoAmong(listeners, v, n) == Some(listeners[i].failure)
  {
    if i < n - 1 {
      LastVetoThrows(listeners, v, n - 1, i);
    }
  }

  /** The throwable the success hooks of all listeners throw for a returned value, if any. */
  function Veto(listeners: seq<Listener>, v: Value): (r: Option<Failure>)
    ensures r.None? <==> forall i :: 0 <= i < |listeners| ==> listeners[i].rejected != v
  {
    VetoAmong(listeners, v, |listeners|)
  }

  /** Identifies a stateful retry and says which failures force an immediate rethrow. */
  datatype RetryState = DefaultRetryState(key: string, rollbackClassifier: Classifier)

  /** Everything one execution depends on besides the work. */
  datatype RunConfig = RunConfig(
    policy: PolicySpec,
    interruption: Option<Failure>,   // thrown by every back-off pause, if any
    listeners: seq<Listener>,
    recovery: Option<Value>,         // the recovery callback's value, if one is given
    state: Option<RetryState>,
    throwLastExceptionOnExhausted: bool)

  const TerminatedMessage := "Could not register throwable"
  const ExhaustedMessage := "Retry exhausted after last attempt with no recovery path"
  const WrapMessage := "Exception in retry"

  /** A throwable that leaves the template as it is: an Exception or an Error. */
  predicate PassesUnwrapped(k: ExcType) {
    IsA(k, Exception) || IsA(k, Error)
  }

  /**
   * What escapes the template when `t` propagates out of it: an Exception or an Error
   * as it is; any other throwable, or none, inside a RetryException.
   */
  function WrapIfNecessary(t: Option<Failure>): (r: Failure)
    ensures PassesUnwrapped(r.kind)
    ensures Some(r) == t || (r.kind == RetryException && r.cause == t)
  {
    assert IsA(RetryException, Exception);
    if t.Some? && PassesUnwrapped(t.value.kind) then t.value
    else Failure(RetryException, WrapMessage, t)
  }

  /** The throwable that ends an execution whose policy failed while registering `e`. */
  function Terminated(e: Failure): (r: Failure)
    ensures r.kind == TerminatedRetryException && r.cause == Some(e)
  {
    Failure(TerminatedRetryException, TerminatedMessage, Some(e))
  }

  predicate RollsBack(cfg: RunConfig, f: Failure) {
    cfg.state.Some? && Classify(cfg.state.value.rollbackClassifier, f)
  }

  /** The end of an execution whose attempts ran out, with `last` the last registered throwable. */
  function Exhausted(cfg: RunConfig, last: Option<Failure>): (r: Outcome)
    ensures r.Returned? <==> cfg.recovery.Some?
    ensures r.Returned? ==> r.value == cfg.recovery.value
    ensures r.Threw? && cfg.state.None? ==> r.failure == WrapIfNecessary(last)
    ensures r.Threw? && r.failure != WrapIfNecessary(last) ==>
      cfg.state.Some? && r.failure.kind == ExhaustedRetryException && r.failure.cause == last
  {
    if cfg.recovery.Some? then Returned(cfg.recovery.value)
    else if cfg.state.Some? && !cfg.throwLastExceptionOnExhausted then
      Threw(Failure(ExhaustedRetryException, ExhaustedMessage, last))
    else Threw(WrapIfNecessary(last))
  }

  datatype RunResult = RunResult(outcome: Outcome, attempts: nat, backOffs: nat)

  /** Adds the attempts and pauses made before `r` began. */
  function Shift(r: RunResult, attempts: nat, backOffs: nat): RunResult {
    r.(attempts := r.attempts + attempts, backOffs := r.backOffs + backOffs)
  }

  /** Shifting twice shifts by the sums. */
  lemma ShiftTwice(r: RunResult, a: nat, b: nat, c: nat, d: nat)
    ensures Shift(Shift(r, a, b), c, d) == Shift(r, a + c, b + d)
  {
  }

  /** What the loop body decides after one call of the work. */
  datatype StepResult =
    | Finish(outcome: Outcome, paused: bool)   // the execution ends with `outcome`
    | Again(next: ContextState, paused: bool)  // the loop goes on from context state `next`

  /**
   * The loop body after the work answered `a` in context state `s`: a returned value
   * no listener vetoes ends the execution. A failure (a thrown throwable or a veto) is
   * registered, and a policy that throws ends the execution with a terminated-retry
   * exception. If another attempt is permitted the back-off policy pauses, and an
   * interruption ends the execution. A failure the retry state rolls back for is
   * rethrown; otherwise the loop goes on. What is thrown is wrapped if necessary.
   */
  function Step(cfg: RunConfig, a: Attempt, s: ContextState): (r: StepResult)
    ensures r.Finish? && r.outcome.Returned? ==> a.Return? && r.outcome.value == a.value && !r.paused
    ensures r.Again? ==> r.next.count == s.count + 1 && r.paused == Continues(cfg.policy, r.next)
  {
    var failure := match a
      case Return(v) => Veto(cfg.listeners, v)
      case Raise(f, _) => Some(f);
    if failure.None? then Finish(Returned(a.value), false)
    else
      var s1 := if a.Raise? && a.exhaust then s.(exhaustedOnly := true) else s;
      match Register(cfg.policy, s1, failure)
      case Err(e) => Finish(Threw(Terminated(e)), false)
      case Ok(s2) =>
        var pause := Continues(cfg.policy, s2);
        if pause && cfg.interruption.Some? then Finish(Threw(WrapIfNecessary(cfg.interruption)), true)
        else if RollsBack(cfg, failure.value) then Finish(Threw(WrapIfNecessary(failure)), pause)
        else Again(s2, pause)
  }

  /** Each pass of the loop that goes on uses up budget. */
  lemma StepShrinks(cfg: RunConfig, a: Attempt, s: ContextState)
    requires Continues(cfg.policy, s) && Step(cfg, a, s).Again?
    ensures Remaining(cfg.policy, Step(cfg, a, s).next) < Remaining(cfg.policy, s)
  {
  }

  function Pauses(paused: bool): nat {
    if paused then 1 else 0
  }

  /**
   * The execute loop from context state `s`, with the work behaving as `b`: while the
   * policy permits and the context is not exhausted-only, call the work and take a
   * `Step`; when the loop ends without an outcome, the attempts are exhausted.
   */
  function Run(cfg: RunConfig, b: Behaviour, s: ContextState): (r: RunResult)
    decreases Remaining(cfg.policy, s)
    ensures r.attempts == 0 <==> !Continues(cfg.policy, s)
    ensures r.attempts <= Remaining(cfg.policy, s)
    ensures r.backOffs <= r.attempts
  {
    if !Continues(cfg.policy, s) then RunResult(Exhausted(cfg, s.lastThrowable), 0, 0)
    else match Step(cfg, NextAttempt(b), s)
      case Finish(outcome, paused) => RunResult(outcome, 1, Pauses(paused))
      case Again(s2, paused) =>
        StepShrinks(cfg, NextAttempt(b), s);
        Shift(Run(cfg, Next(b), s2), 1, Pauses(paused))
  }
}
