/** Errors as chains of wrappers, the routing metadata core.ClassifyError finds in them, and what
    it permits. */
module ProviderErrors {
  import opened Options

  datatype Classification = Classification(
    retryable: bool, failoverEligible: bool, circuitFailure: bool, statusCode: int, retryAfter: int)

  datatype Disposition = Retryable | Failover | Terminal

  /** An error and what it wraps. A classifier is any ProviderErrorClassifier but AfterOutputError,
      whose own classification is empty. */
  datatype Error =
    | Cause(id: nat, contextError: bool)                        // wraps nothing, classifies nothing
    | Wrapped(err: Error)                                       // a wrapper without a classification
    | Classified(classification: Classification, err: Error)
    | AfterOutputError(err: Error)
    | Joined(first: Error, second: Error)                       // a wrapper of several errors

  const UNCLASSIFIED := Classification(false, false, false, 0, 0)

  /** What errors.As finds of a ProviderErrorClassifier: the first, outermost first. */
  function FirstClassification(err: Error): Option<Classification> {
    match err
    case Cause(_, _) => None
    case Wrapped(e) => FirstClassification(e)
    case Classified(c, _) => Some(c)
    case AfterOutputError(_) => Some(UNCLASSIFIED)
    case Joined(first, second) =>
      var found := FirstClassification(first);
      if found.Some? then found else FirstClassification(second)
  }

  /** An error that does not classify itself is terminal. */
  function ClassifyError(err: Error): Classification {
    match FirstClassification(err)
    case Some(c) => c
    case None => UNCLASSIFIED
  }

  /** errors.Is finds a context error anywhere in it. */
  predicate Canceled(err: Error) {
    match err
    case Cause(_, contextError) => contextError
    case Joined(first, second) => Canceled(first) || Canceled(second)
    case _ => Canceled(err.err)
  }

  /** errors.As finds an AfterOutputError anywhere in it. */
  predicate HasAfterOutput(err: Error) {
    match err
    case Cause(_, _) => false
    case AfterOutputError(_) => true
    case Joined(first, second) => HasAfterOutput(first) || HasAfterOutput(second)
    case _ => HasAfterOutput(err.err)
  }

  /** The one disposition each classification permits: retrying outranks failing over. */
  function DispositionOf(c: Classification): Disposition {
    if c.retryable then Retryable else if c.failoverEligible then Failover else Terminal
  }
}
