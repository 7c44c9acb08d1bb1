/**
 * The `@observe` wrapper of the older revision: classification only, with no
 * metrics, logs or notifications. `accept_on` and `decline_on` default to
 * `None`, and a membership test against `None` raises a `TypeError`.
 */
module LegacyDecorator {
  import opened Wrappers
  import opened PyValues
  import Decorator

  /** The `TypeError` that `x in None` raises. */
  const NoneNotIterable: Exc :=
    Exc(TypeErrorClass, "argument of type 'NoneType' is not iterable")

  /** The value of a membership test, or the exception evaluating it raised. */
  datatype Membership = Answer(b: bool) | Fails(exc: Exc)

  /** `t in xs` as Python evaluates it when `xs` may be `None`: an answer, or the `TypeError`. */
  function MemberOf(t: ExcType, xs: Option<seq<ExcType>>): Membership {
    match xs
    case None => Fails(NoneNotIterable)
    case Some(items) => Answer(t in items)
  }

  /**
   * One call of the wrapper `g`, as written: the callable's value, `True` when
   * accepted, `False` when declined, else the exception re-raised; a `None`
   * list reached by the handler raises the `TypeError` instead.
   */
  function ObserveLegacy(acceptOn: Option<seq<ExcType>>, declineOn: Option<seq<ExcType>>, outcome: Outcome): (r: CallResult)
    ensures r.Raised? ==> outcome.Raises? && (r.exc == outcome.exc || r.exc == NoneNotIterable)
    ensures outcome.Raises? && r.Returned? ==> r.value == Bool(true) || r.value == Bool(false)
    ensures r == Returned(Bool(true)) && outcome.Raises? ==> acceptOn.Some? && outcome.exc.kind in acceptOn.value
  {
    match outcome
    case Returns(v) => Returned(v)
    case Raises(ex) =>
      match MemberOf(ex.kind, acceptOn)
      case Fails(e) => Raised(e)
      case Answer(true) => Returned(Bool(true))
      case Answer(false) =>
        match MemberOf(ex.kind, declineOn)
        case Fails(e) => Raised(e)
        case Answer(true) => Returned(Bool(false))
        case Answer(false) => Raised(ex)
  }

  /** With both lists given, the older revision settles every call as the newer one's contract says. */
  lemma LegacyAgreesWhenListsGiven(acceptOn: seq<ExcType>, declineOn: seq<ExcType>, outcome: Outcome)
    ensures ObserveLegacy(Some(acceptOn), Some(declineOn), outcome) == Decorator.Settle(outcome, acceptOn, declineOn)
  {
  }

  /** A normal return passes the callable's value through, whatever the lists. */
  lemma LegacyReturnsUnchanged(acceptOn: Option<seq<ExcType>>, declineOn: Option<seq<ExcType>>, v: Value)
    ensures ObserveLegacy(acceptOn, declineOn, Returns(v)) == Returned(v)
  {
  }

  /** The accept test comes first: a class in `accept_on` yields `True` even if `decline_on` is missing or also lists it. */
  lemma LegacyAcceptFirst(acceptOn: seq<ExcType>, declineOn: Option<seq<ExcType>>, ex: Exc)
    requires ex.kind in acceptOn
    ensures ObserveLegacy(Some(acceptOn), declineOn, Raises(ex)) == Returned(Bool(true))
  {
  }

  /**
   * With the default `accept_on`, no exception is ever re-raised as itself:
   * every one becomes the `TypeError`, even one the caller asked to decline.
   */
  lemma DefaultAcceptMasksException(declineOn: Option<seq<ExcType>>, ex: Exc)
    ensures ObserveLegacy(None, declineOn, Raises(ex)) == Raised(NoneNotIterable)
    ensures ex != NoneNotIterable ==> ObserveLegacy(None, declineOn, Raises(ex)) != Raised(ex)
  {
  }

  /** With `decline_on` at its default, an exception `accept_on` does not list becomes the `TypeError`. */
  lemma DefaultDeclineMasksException(acceptOn: seq<ExcType>, ex: Exc)
    requires ex.kind !in acceptOn
    ensures ObserveLegacy(Some(acceptOn), None, Raises(ex)) == Raised(NoneNotIterable)
  {
  }

  /**
   * The decorator applied with only a metric name, around a callable raising
   * a `ValueError`: the caller sees a `TypeError` instead of the `ValueError`
   * the contract promises to re-raise.
   */
  lemma DefaultsMaskException()
    ensures var ex := Exc(ExcType("ValueError", 7), "bad input");
            && ObserveLegacy(None, None, Raises(ex)) == Raised(NoneNotIterable)
            && Decorator.Settle(Raises(ex), [], []) == Raised(ex)
            && NoneNotIterable != ex
  {
  }

  /**
   * The older wrapper with its defaults read as empty lists, as the newer
   * revision declares them.
   */
  function CorrectedObserve(acceptOn: Option<seq<ExcType>>, declineOn: Option<seq<ExcType>>, outcome: Outcome): CallResult {
    var accept := if acceptOn.Some? then acceptOn.value else [];
    var decline := if declineOn.Some? then declineOn.value else [];
    ObserveLegacy(Some(accept), Some(decline), outcome)
  }

  /**
   * The corrected wrapper re-raises every exception neither list names, as
   * the same object, and otherwise settles as the contract says.
   */
  lemma CorrectedReraisesUnlisted(acceptOn: Option<seq<ExcType>>, declineOn: Option<seq<ExcType>>, ex: Exc)
    requires acceptOn.None? || ex.kind !in acceptOn.value
    requires declineOn.None? || ex.kind !in declineOn.value
    ensures CorrectedObserve(acceptOn, declineOn, Raises(ex)) == Raised(ex)
  {
  }

  /** Where both lists are given, the corrected wrapper is the one as written. */
  lemma CorrectedAgreesWhenListsGiven(acceptOn: seq<ExcType>, declineOn: seq<ExcType>, outcome: Outcome)
    ensures CorrectedObserve(Some(acceptOn), Some(declineOn), outcome) == ObserveLegacy(Some(acceptOn), Some(declineOn), outcome)
    ensures CorrectedObserve(Some(acceptOn), Some(declineOn), outcome) == Decorator.Settle(outcome, acceptOn, declineOn)
  {
  }
}
