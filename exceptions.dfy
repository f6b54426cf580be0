/**
 * Java throwables as values: a fixed table of the exception types the retry engine
 * and its tests use, the superclass relation between them, and the binary classifier
 * that maps a throwable to a boolean by the most specific configured type, optionally
 * walking the chain of causes.
 */
module Exceptions {
  import opened Wrappers

  /** The exception classes the model distinguishes. */
  datatype ExcType =
    | Throwable
    | Error
    | Exception
    | RuntimeException
    | IllegalStateException
    | IllegalArgumentException
    | RetryException
    | TerminatedRetryException
    | BackOffInterruptedException
    | ExhaustedRetryException

  /** The type-hierarchy table: the direct superclass of each type (none for Throwable). */
  function Super(t: ExcType): Option<ExcType> {
    match t
    case Throwable => None
    case Error => Some(Throwable)
    case Exception => Some(Throwable)
    case RuntimeException => Some(Exception)
    case IllegalStateException => Some(RuntimeException)
    case IllegalArgumentException => Some(RuntimeException)
    case RetryException => Some(RuntimeException)
    case TerminatedRetryException => Some(RetryException)
    case BackOffInterruptedException => Some(RetryException)
    case ExhaustedRetryException => Some(RetryException)
  }

  /** Distance from Throwable in the table; it shrinks along Super. */
  function Depth(t: ExcType): nat {
    match t
    case Throwable => 0
    case Error => 1
    case Exception => 1
    case RuntimeException => 2
    case IllegalStateException => 3
    case IllegalArgumentException => 3
    case RetryException => 3
    case TerminatedRetryException => 4
    case BackOffInterruptedException => 4
    case ExhaustedRetryException => 4
  }

  /** `t` is `a` or a subclass of `a` (Java's `a.isAssignableFrom(t)`). */
  predicate IsA(t: ExcType, a: ExcType)
    decreases Depth(t)
  {
    t == a || (Super(t).Some? && IsA(Super(t).value, a))
  }

  /** A thrown object: its class, its message and its optional cause. */
  datatype Failure = Failure(kind: ExcType, message: string, cause: Option<Failure>)

  /**
   * The nearest superclass of `t` (itself included) that has an entry in `typeMap`:
   * the entry a subclass classifier uses for `t`.
   */
  function Nearest(typeMap: map<ExcType, bool>, t: ExcType): (r: Option<ExcType>)
    decreases Depth(t)
    ensures r.Some? ==> r.value in typeMap && IsA(t, r.value)
    ensures r.Some? ==> forall a :: IsA(t, a) && a in typeMap ==> IsA(r.value, a)
    ensures r.None? ==> forall a :: IsA(t, a) ==> a !in typeMap
  {
    if t in typeMap then Some(t)
    else match Super(t)
      case None => None
      case Some(p) => Nearest(typeMap, p)
  }

  /**
   * A binary exception classifier: a map from exception type to a boolean, whether
   * causes are consulted, and the value used when nothing in the map applies.
   */
  datatype Classifier = Classifier(typeMap: map<ExcType, bool>, traverseCauses: bool, defaultValue: bool)

  /** Classification of a type by its most specific configured superclass, or the default. */
  function SubclassClassify(c: Classifier, t: ExcType): (r: bool)
    ensures r != c.defaultValue ==> exists a :: IsA(t, a) && a in c.typeMap && c.typeMap[a] == r
  {
    match Nearest(c.typeMap, t)
    case Some(a) => c.typeMap[a]
    case None => c.defaultValue
  }

  /** A throwable is "configured" when its own type or a superclass has an entry. */
  predicate Configured(c: Classifier, f: Failure) {
    Nearest(c.typeMap, f.kind).Some?
  }

  /**
   * Classification of a throwable. Without cause traversal this is the subclass lookup.
   * With it, a default answer that did not come from a configured entry sends the
   * classifier down the cause chain until some cause classifies to a non-default value
   * or has a configured entry.
   */
  function Classify(c: Classifier, f: Failure): (r: bool)
    ensures r != c.defaultValue ==> FirstConfigured(c, f) == Some(r)
  {
    var classified := SubclassClassify(c, f.kind);
    if !c.traverseCauses || classified != c.defaultValue then classified
    else CauseWalk(c, f)
  }

  /** The do-while loop over causes; entered with `f` classified to the default. */
  function CauseWalk(c: Classifier, f: Failure): (r: bool)
    decreases f
    ensures r != c.defaultValue ==> !Configured(c, f) && FirstConfigured(c, f) == Some(r)
  {
    if Configured(c, f) then c.defaultValue
    else match f.cause
      case None => c.defaultValue
      case Some(g) =>
        if SubclassClassify(c, g.kind) != c.defaultValue then SubclassClassify(c, g.kind)
        else CauseWalk(c, g)
  }

  /** Reference definition: the value of the first configured throwable in the cause chain. */
  function FirstConfigured(c: Classifier, f: Failure): Option<bool>
    decreases f
  {
    match Nearest(c.typeMap, f.kind)
    case Some(a) => Some(c.typeMap[a])
    case None =>
      match f.cause
      case None => None
      case Some(g) => FirstConfigured(c, g)
  }

  /** An entry for the exact type always decides, whatever its superclasses map to. */
  lemma ExactEntryWins(c: Classifier, t: ExcType)
    requires t in c.typeMap
    ensures SubclassClassify(c, t) == c.typeMap[t]
  {
  }

  /**
   * The most specific configured superclass decides: when `a` is a superclass of `t`
   * with an entry and no type strictly between them has one, `t` is classified as `a` is.
   */
  lemma {:induction false} MostSpecificEntryWins(c: Classifier, t: ExcType, a: ExcType)
    requires IsA(t, a) && a in c.typeMap
    requires forall b :: IsA(t, b) && IsA(b, a) && b != a ==> b !in c.typeMap
    ensures SubclassClassify(c, t) == c.typeMap[a]
  {
    var n := Nearest(c.typeMap, t).value;
    assert IsA(n, a);
  }

  /** Without a matching entry anywhere up the table, the default applies. */
  lemma NoEntryMeansDefault(c: Classifier, t: ExcType)
    requires forall a :: IsA(t, a) ==> a !in c.typeMap
    ensures SubclassClassify(c, t) == c.defaultValue
  {
  }

  /**
   * With cause traversal on, a throwable is classified as the first throwable in its
   * cause chain that has a configured entry, and by the default when none has.
   */
  lemma {:induction false} TraversalFindsFirstConfigured(c: Classifier, f: Failure)
    requires c.traverseCauses
    ensures Classify(c, f) == FirstConfigured(c, f).GetOr(c.defaultValue)
  {
    if SubclassClassify(c, f.kind) == c.defaultValue {
      CauseWalkFindsFirstConfigured(c, f);
    }
  }

  lemma {:induction false} CauseWalkFindsFirstConfigured(c: Classifier, f: Failure)
    requires SubclassClassify(c, f.kind) == c.defaultValue
    ensures CauseWalk(c, f) == FirstConfigured(c, f).GetOr(c.defaultValue)
    decreases f
  {
    if !Configured(c, f) {
      match f.cause
      case None =>
      case Some(g) =>
        if SubclassClassify(c, g.kind) == c.defaultValue {
          CauseWalkFindsFirstConfigured(c, g);
        }
    }
  }

  /** Without cause traversal, only the throwable's own type matters. */
  lemma CauseIgnoredWithoutTraversal(c: Classifier, f: Failure, g: Failure)
    requires !c.traverseCauses && f.kind == g.kind
    ensures Classify(c, f) == Classify(c, g)
  {
  }
}
