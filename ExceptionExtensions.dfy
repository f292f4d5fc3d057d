/** `ExceptionExtensions.ThrowIfAny`: the null-safe form of the 0/1/many raise. */
module ExceptionExtensions {

  import opened Wrappers
  import opened Exceptions
  import Assert

  /** A null or empty sequence raises nothing; one exception is raised itself; more, as one aggregate. */
  function ThrowIfAny(exceptions: Option<seq<Exception>>): Option<Exception> {
    match exceptions
    case None => None
    case Some(es) =>
      if |es| > 0 then
        if |es| == 1 then Some(es[0]) else Some(AggregateException(es))
      else
        None
  }

  /**
   * Nothing is raised exactly for a null or empty sequence; otherwise the caller
   * recovers every exception, in order (a lone aggregate aside).
   */
  lemma ThrowIfAnyRoundTrip(exceptions: Option<seq<Exception>>)
    ensures ThrowIfAny(exceptions).None? <==> exceptions.None? || exceptions.value == []
    ensures (exceptions.Some? && (|exceptions.value| == 1 ==> !exceptions.value[0].AggregateException?))
            ==> Caught(ThrowIfAny(exceptions)) == exceptions.value
  {
  }

  /** A single exception is raised as itself, never wrapped. */
  lemma ThrowIfAnyUnwrapsSingle(e: Exception)
    ensures ThrowIfAny(Some([e])) == Some(e)
  {
  }

  /** On a non-null sequence the extension and the private twin in `Assert` agree. */
  lemma ThrowIfAnyAgrees(exceptions: seq<Exception>)
    ensures ThrowIfAny(Some(exceptions)) == Assert.ThrowIfAny(exceptions)
  {
  }
}
