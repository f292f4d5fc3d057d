/**
 * The shape every assertion loop here shares: walk the properties in order, let
 * each one add at most one error to a list, never stop at the first error, but
 * stop at once when an exception escapes the loop body.
 */
module Gathering {

  /** What examining one property does to the loop. */
  datatype Check<E, X> =
    | Clean            // adds nothing
    | Flag(error: E)   // appends one error
    | Abort(cause: X)  // an exception escapes the loop

  /** Where the loop ends: with the errors collected in order, or aborted. */
  datatype Summary<E, X> = Collected(errors: seq<E>) | Aborted(cause: X)

  /** One iteration of the loop. */
  function Step<E, X>(s: Summary<E, X>, c: Check<E, X>): Summary<E, X> {
    match s
    case Aborted(_) => s
    case Collected(errors) =>
      match c
      case Clean => s
      case Flag(e) => Collected(errors + [e])
      case Abort(x) => Aborted(x)
  }

  /** The loop run over `checks`, first to last. */
  function Tally<E, X>(checks: seq<Check<E, X>>): (s: Summary<E, X>)
    ensures s.Collected? ==> |s.errors| <= |checks|
    decreases |checks|
  {
    if checks == [] then Collected([])
    else Step(Tally(checks[..|checks| - 1]), checks[|checks| - 1])
  }

  lemma TallyStep<E, X>(checks: seq<Check<E, X>>, i: nat)
    requires i < |checks|
    ensures Tally(checks[..i + 1]) == Step(Tally(checks[..i]), checks[i])
  {
    assert checks[..i + 1][..i] == checks[..i];
  }

  /** The loop ends with no error at all exactly when every check is clean. */
  lemma {:induction false} TallyAllClean<E, X>(checks: seq<Check<E, X>>)
    ensures Tally(checks) == Collected([]) <==> forall i :: 0 <= i < |checks| ==> checks[i].Clean?
    decreases |checks|
  {
    if checks != [] {
      var n := |checks| - 1;
      var prefix := checks[..n];
      TallyAllClean(prefix);
      assert forall i :: 0 <= i < n ==> prefix[i] == checks[i];
      var s := Tally(prefix);
      if s.Collected? && checks[n].Flag? {
        assert |Tally(checks).errors| == |s.errors| + 1;
      }
    }
  }

  /** The loop completes exactly when no check aborts. */
  lemma {:induction false} TallyCompletes<E, X>(checks: seq<Check<E, X>>)
    ensures Tally(checks).Collected? <==> forall i :: 0 <= i < |checks| ==> !checks[i].Abort?
    decreases |checks|
  {
    if checks != [] {
      var n := |checks| - 1;
      var prefix := checks[..n];
      TallyCompletes(prefix);
      assert forall i :: 0 <= i < n ==> prefix[i] == checks[i];
    }
  }

  /** Once aborted, the loop stays aborted with the same cause. */
  lemma {:induction false} TallyAbortSticks<E, X>(checks: seq<Check<E, X>>, k: nat)
    requires k <= |checks| && Tally(checks[..k]).Aborted?
    ensures Tally(checks) == Tally(checks[..k])
    decreases |checks| - k
  {
    if k < |checks| {
      TallyStep(checks, k);
      TallyAbortSticks(checks, k + 1);
    } else {
      assert checks[..k] == checks;
    }
  }

  /** The first check that aborts decides the cause the loop ends with. */
  lemma TallyFirstAbort<E, X>(checks: seq<Check<E, X>>, k: nat)
    requires k < |checks| && checks[k].Abort?
    requires forall j :: 0 <= j < k ==> !checks[j].Abort?
    ensures Tally(checks) == Aborted(checks[k].cause)
  {
    TallyCompletes(checks[..k]);
    TallyStep(checks, k);
    TallyAbortSticks(checks, k + 1);
  }

  /** The errors collected from a prefix are a prefix of the errors collected from the whole. */
  lemma {:induction false} TallyPrefix<E, X>(checks: seq<Check<E, X>>, k: nat)
    requires k <= |checks| && Tally(checks).Collected?
    ensures Tally(checks[..k]).Collected?
    ensures Tally(checks[..k]).errors <= Tally(checks).errors
    decreases |checks| - k
  {
    if k == |checks| {
      assert checks[..k] == checks;
    } else {
      TallyPrefix(checks, k + 1);
      TallyStep(checks, k);
    }
  }

  /**
   * Discovery order: the error a flagged check adds sits right after the errors
   * of all the checks before it.
   */
  lemma TallyFlagOrder<E, X>(checks: seq<Check<E, X>>, k: nat)
    requires k < |checks| && checks[k].Flag? && Tally(checks).Collected?
    ensures Tally(checks[..k]).Collected?
    ensures |Tally(checks[..k]).errors| < |Tally(checks).errors|
    ensures Tally(checks).errors[|Tally(checks[..k]).errors|] == checks[k].error
  {
    TallyPrefix(checks, k + 1);
    TallyStep(checks, k);
  }

  /** Every collected error comes from a flagged check. */
  lemma {:induction false} TallyErrorFlagged<E, X>(checks: seq<Check<E, X>>, m: nat)
    requires Tally(checks).Collected? && m < |Tally(checks).errors|
    ensures exists i :: 0 <= i < |checks| && checks[i] == Flag(Tally(checks).errors[m])
    decreases |checks|
  {
    var n := |checks| - 1;
    var prefix := checks[..n];
    var s := Tally(prefix);
    assert s.Collected?;
    if m < |s.errors| {
      TallyErrorFlagged(prefix, m);
      var i :| 0 <= i < |prefix| && prefix[i] == Flag(s.errors[m]);
      assert checks[i] == prefix[i];
    } else {
      assert checks[n] == Flag(Tally(checks).errors[m]);
    }
  }

  /** A single flagged check among clean ones gives exactly its error. */
  lemma {:induction false} TallyOnlyFlag<E, X>(checks: seq<Check<E, X>>, k: nat)
    requires k < |checks| && checks[k].Flag?
    requires forall j :: 0 <= j < |checks| && j != k ==> checks[j].Clean?
    ensures Tally(checks) == Collected([checks[k].error])
    decreases |checks|
  {
    var n := |checks| - 1;
    var prefix := checks[..n];
    assert forall i :: 0 <= i < n ==> prefix[i] == checks[i];
    if k < n {
      TallyOnlyFlag(prefix, k);
    } else {
      TallyAllClean(prefix);
    }
  }
}
