/** The exceptions the assertions raise, collect or let escape. */
module Exceptions {

  import opened Wrappers
  import opened Reflection

  datatype Exception =
    | ArgumentNullException(paramName: string)
    | NullReferenceException
      /** `SingleOrDefault` found more than one match */
    | InvalidOperationException
      /** `GetValue` on a null target */
    | TargetException
      /** `Assert.Single` found `count` matches instead of one */
    | SingleException(count: nat)
    | EqualException(expected: Value, actual: Value)
    | NotNullException
    | NotEqualException(expected: Value, actual: Value)
    | TestingException(message: string, inner: Exception)
    | AggregateException(innerExceptions: seq<Exception>)

  /**
   * What a caller that catches the outcome of a throw-if-any sees: nothing, the
   * one exception thrown, or the inner exceptions of an aggregate.
   */
  function Caught(thrown: Option<Exception>): seq<Exception> {
    match thrown
    case None => []
    case Some(AggregateException(inner)) => inner
    case Some(e) => [e]
  }
}
