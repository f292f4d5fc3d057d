/**
 * `Assert.AllPropertiesMapped` and `Assert.NoPropertiesNullOrDefault`: property
 * by property checks that collect every failure and then raise none, the single
 * one, or an aggregate of all of them.
 */
module Assert {

  import opened Wrappers
  import opened Reflection
  import opened Exceptions
  import opened Gathering

  /** How a call ends: it returns `true`, or it throws `exception`. */
  datatype Outcome = Passed | Thrown(exception: Exception)

  /** Raise nothing, the one exception itself, or an aggregate of all of them in order. */
  function ThrowIfAny(exceptions: seq<Exception>): Option<Exception> {
    if |exceptions| > 0 then
      if |exceptions| == 1 then Some(exceptions[0]) else Some(AggregateException(exceptions))
    else
      None
  }

  /**
   * Nothing is raised exactly when there was nothing, one exception is raised
   * itself, and a caller that catches what is raised recovers every exception in
   * order (unless the list is one aggregate on its own, which is
   * indistinguishable from its contents).
   */
  lemma ThrowIfAnyRoundTrip(exceptions: seq<Exception>)
    ensures (|exceptions| == 1 ==> !exceptions[0].AggregateException?) ==> Caught(ThrowIfAny(exceptions)) == exceptions
    ensures ThrowIfAny(exceptions).None? <==> exceptions == []
    ensures |exceptions| == 1 ==> ThrowIfAny(exceptions) == Some(exceptions[0])
  {
  }

  function Conclude(thrown: Option<Exception>): Outcome {
    match thrown
    case None => Passed
    case Some(e) => Thrown(e)
  }

  function FormatMappingErrorMessage(message: string, originName: string, mapName: string): string {
    message + "\nFailed to map from " + originName + " to " + mapName + "."
  }

  function CouldNotFindMessage(propertyName: string): string {
    "Could not find matching property for " + propertyName + "."
  }

  function DidNotMatchMessage(propertyName: string): string {
    "Value did not match for " + propertyName + "."
  }

  /** The error for a source property with no single target property of its looked-up name. */
  function MissingPropertyError(propertyName: string, originName: string, mapName: string, count: nat): Exception {
    TestingException(FormatMappingErrorMessage(CouldNotFindMessage(propertyName), originName, mapName), SingleException(count))
  }

  /** The error for a source property whose value differs from its target property's. */
  function ValueMismatchError(propertyName: string, originName: string, mapName: string, expected: Value, actual: Value): Exception {
    TestingException(FormatMappingErrorMessage(DidNotMatchMessage(propertyName), originName, mapName), EqualException(expected, actual))
  }

  /** Two mapping errors between the same types with equal messages wrap the same message. */
  lemma FormatMappingErrorMessageInjective(a: string, b: string, originName: string, mapName: string)
    requires FormatMappingErrorMessage(a, originName, mapName) == FormatMappingErrorMessage(b, originName, mapName)
    ensures a == b
  {
    var q := "\nFailed to map from " + originName + " to " + mapName + ".";
    assert FormatMappingErrorMessage(a, originName, mapName) == "" + a + q;
    assert FormatMappingErrorMessage(b, originName, mapName) == "" + b + q;
    ConcatInjective("", a, b, q);
  }

  lemma ConcatInjective(p: string, a: string, b: string, q: string)
    requires p + a + q == p + b + q
    ensures a == b
  {
    assert |a| == |b|;
    assert a == (p + a + q)[|p|..|p| + |a|];
    assert b == (p + b + q)[|p|..|p| + |b|];
  }

  /**
   * The message of a mapping error tells its kind apart and names the looked-up
   * property: equal messages mean the same kind and the same name.
   */
  lemma MappingMessagesIdentify(a: string, b: string, originName: string, mapName: string)
    ensures FormatMappingErrorMessage(CouldNotFindMessage(a), originName, mapName)
         != FormatMappingErrorMessage(DidNotMatchMessage(b), originName, mapName)
    ensures (FormatMappingErrorMessage(CouldNotFindMessage(a), originName, mapName)
             == FormatMappingErrorMessage(CouldNotFindMessage(b), originName, mapName)) ==> a == b
    ensures (FormatMappingErrorMessage(DidNotMatchMessage(a), originName, mapName)
             == FormatMappingErrorMessage(DidNotMatchMessage(b), originName, mapName)) ==> a == b
  {
    var q := "." + "\nFailed to map from " + originName + " to " + mapName + ".";
    var fa := FormatMappingErrorMessage(CouldNotFindMessage(a), originName, mapName);
    var ga := FormatMappingErrorMessage(DidNotMatchMessage(b), originName, mapName);
    assert fa[0] == CouldNotFindMessage(a)[0] == 'C';
    assert ga[0] == DidNotMatchMessage(b)[0] == 'V';
    var p1 := "Could not find matching property for ";
    var p2 := "Value did not match for ";
    assert forall n :: FormatMappingErrorMessage(CouldNotFindMessage(n), originName, mapName) == p1 + n + q;
    assert forall n :: FormatMappingErrorMessage(DidNotMatchMessage(n), originName, mapName) == p2 + n + q;
    if fa == FormatMappingErrorMessage(CouldNotFindMessage(b), originName, mapName) {
      ConcatInjective(p1, a, b, q);
    }
    if FormatMappingErrorMessage(DidNotMatchMessage(a), originName, mapName)
       == FormatMappingErrorMessage(DidNotMatchMessage(b), originName, mapName) {
      ConcatInjective(p2, a, b, q);
    }
  }

  // ---------------------------------------------------------------------------
  // AllPropertiesMapped

  /** What the loop body does with source property `i`. */
  function MappingCheck(source: Instance, target: Instance, excluded: seq<string>,
                        translated: map<string, string>, i: nat): Check<Exception, Exception>
    requires source.Valid() && target.Valid() && i < |source.info.properties|
  {
    var name := source.info.properties[i].name;
    if name in excluded then Clean
    else
      var propertyName := TargetName(translated, name);
      var found := Matches(target.info.properties, propertyName);
      if |found| != 1 then
        Flag(MissingPropertyError(propertyName, source.info.name, target.info.name, |found|))
      else if source.values[i] != target.values[found[0]] then
        Flag(ValueMismatchError(propertyName, source.info.name, target.info.name,
                                source.values[i], target.values[found[0]]))
      else
        Clean
  }

  function MappingChecks(source: Instance, target: Instance, excluded: seq<string>,
                         translated: map<string, string>): (checks: seq<Check<Exception, Exception>>)
    requires source.Valid() && target.Valid()
    ensures |checks| == |source.info.properties|
  {
    seq(|source.info.properties|, i requires 0 <= i < |source.info.properties| =>
      MappingCheck(source, target, excluded, translated, i))
  }

  /**
   * The three things one source property can give: nothing when it is excluded or
   * its single namesake holds an equal value, "could not find" when the target
   * does not have exactly one property of the looked-up name, "did not match"
   * otherwise; the errors name the looked-up name, never the source name.
   */
  lemma MappingCheckCases(source: Instance, target: Instance, excluded: seq<string>,
                          translated: map<string, string>, i: nat)
    requires source.Valid() && target.Valid() && i < |source.info.properties|
    ensures var c := MappingCheck(source, target, excluded, translated, i);
            var name := source.info.properties[i].name;
            var propertyName := TargetName(translated, name);
            var found := Matches(target.info.properties, propertyName);
            && !c.Abort?
            && (c.Clean? <==> name in excluded || (|found| == 1 && source.values[i] == target.values[found[0]]))
            && (c == Flag(MissingPropertyError(propertyName, source.info.name, target.info.name, |found|))
                <==> name !in excluded && |found| != 1)
            && (c.Flag? && c.error.inner.EqualException? <==>
                  name !in excluded && |found| == 1 && source.values[i] != target.values[found[0]])
            && (c.Flag? && c.error.inner.EqualException? ==>
                  c == Flag(ValueMismatchError(propertyName, source.info.name, target.info.name,
                                               source.values[i], target.values[found[0]])))
  {
  }

  /** Both references and both argument collections are there, and the values fit their types. */
  predicate Conforms(info: TypeInfo, obj: Option<seq<Value>>) {
    obj.Some? ==> |obj.value| == |info.properties|
  }

  /** The specification of the four-argument `AllPropertiesMapped`. */
  function MappingOutcome(expectedType: TypeInfo, expected: Option<seq<Value>>,
                          mappedType: TypeInfo, actual: Option<seq<Value>>,
                          excluded: Option<seq<string>>, translated: Option<map<string, string>>): Outcome
    requires Conforms(expectedType, expected) && Conforms(mappedType, actual)
  {
    if expected.None? then Thrown(ArgumentNullException("expected"))
    else if actual.None? then Thrown(ArgumentNullException("actual"))
    else if excluded.None? then Thrown(ArgumentNullException("excludedProperties"))
    else if translated.None? then Thrown(ArgumentNullException("translatedProperties"))
    else
      var checks := MappingChecks(Instance(expectedType, expected.value), Instance(mappedType, actual.value),
                                  excluded.value, translated.value);
      match Tally(checks)
      case Aborted(x) => Thrown(x)
      case Collected(errors) => Conclude(ThrowIfAny(errors))
  }

  /** With every argument present, the loop always completes and `ThrowIfAny` decides. */
  lemma MappingOutcomeOfTally(source: Instance, target: Instance, excluded: seq<string>,
                              translated: map<string, string>)
    requires source.Valid() && target.Valid()
    ensures Tally(MappingChecks(source, target, excluded, translated)).Collected?
    ensures MappingOutcome(source.info, Some(source.values), target.info, Some(target.values),
                           Some(excluded), Some(translated))
         == Conclude(ThrowIfAny(Tally(MappingChecks(source, target, excluded, translated)).errors))
  {
    var checks := MappingChecks(source, target, excluded, translated);
    assert forall i :: 0 <= i < |checks| ==> checks[i] == MappingCheck(source, target, excluded, translated, i);
    TallyCompletes(checks);
  }

  /**
   * An argument error is raised exactly when an argument is null, before any
   * property is examined; property failures never take that form.
   */
  lemma MappingArgumentErrors(expectedType: TypeInfo, expected: Option<seq<Value>>,
                              mappedType: TypeInfo, actual: Option<seq<Value>>,
                              excluded: Option<seq<string>>, translated: Option<map<string, string>>)
    requires Conforms(expectedType, expected) && Conforms(mappedType, actual)
    ensures var r := MappingOutcome(expectedType, expected, mappedType, actual, excluded, translated);
            (r.Thrown? && r.exception.ArgumentNullException?)
            <==> (expected.None? || actual.None? || excluded.None? || translated.None?)
  {
    if expected.Some? && actual.Some? && excluded.Some? && translated.Some? {
      var source, target := Instance(expectedType, expected.value), Instance(mappedType, actual.value);
      MappingOutcomeOfTally(source, target, excluded.value, translated.value);
      var checks := MappingChecks(source, target, excluded.value, translated.value);
      var errors := Tally(checks).errors;
      if |errors| == 1 {
        TallyErrorFlagged(checks, 0);
        var i :| 0 <= i < |checks| && checks[i] == Flag(errors[0]);
        assert checks[i] == MappingCheck(source, target, excluded.value, translated.value, i);
      }
    }
  }

  /** The call returns `true` exactly when every argument is present and every property check is clean. */
  lemma MappingPassedIff(expectedType: TypeInfo, expected: Option<seq<Value>>,
                         mappedType: TypeInfo, actual: Option<seq<Value>>,
                         excluded: Option<seq<string>>, translated: Option<map<string, string>>)
    requires Conforms(expectedType, expected) && Conforms(mappedType, actual)
    ensures MappingOutcome(expectedType, expected, mappedType, actual, excluded, translated) == Passed
            <==> (&& expected.Some? && actual.Some? && excluded.Some? && translated.Some?
                  && forall i :: 0 <= i < |expectedType.properties| ==>
                       MappingCheck(Instance(expectedType, expected.value), Instance(mappedType, actual.value),
                                    excluded.value, translated.value, i).Clean?)
  {
    if expected.Some? && actual.Some? && excluded.Some? && translated.Some? {
      var source, target := Instance(expectedType, expected.value), Instance(mappedType, actual.value);
      MappingOutcomeOfTally(source, target, excluded.value, translated.value);
      var checks := MappingChecks(source, target, excluded.value, translated.value);
      assert forall i :: 0 <= i < |checks| ==> checks[i] == MappingCheck(source, target, excluded.value, translated.value, i);
      TallyAllClean(checks);
    }
  }

  /**
   * The four-argument `AllPropertiesMapped`: null arguments are refused first,
   * then every source property that is not excluded is looked up and compared,
   * all errors are collected, and `ThrowIfAny` decides the outcome.
   */
  method AllPropertiesMapped(expectedType: TypeInfo, expected: Option<seq<Value>>,
                             mappedType: TypeInfo, actual: Option<seq<Value>>,
                             excludedProperties: Option<seq<string>>,
                             translatedProperties: Option<map<string, string>>) returns (outcome: Outcome)
    requires Conforms(expectedType, expected) && Conforms(mappedType, actual)
    ensures outcome == MappingOutcome(expectedType, expected, mappedType, actual, excludedProperties, translatedProperties)
  {
    if expected.None? {
      return Thrown(ArgumentNullException("expected"));
    }
    if actual.None? {
      return Thrown(ArgumentNullException("actual"));
    }
    if excludedProperties.None? {
      return Thrown(ArgumentNullException("excludedProperties"));
    }
    if translatedProperties.None? {
      return Thrown(ArgumentNullException("translatedProperties"));
    }
    var excluded, translated := excludedProperties.value, translatedProperties.value;
    var expectedProperties, mappedProperties := expectedType.properties, mappedType.properties;
    ghost var checks := MappingChecks(Instance(expectedType, expected.value), Instance(mappedType, actual.value),
                                      excluded, translated);
    MappingOutcomeOfTally(Instance(expectedType, expected.value), Instance(mappedType, actual.value),
                          excluded, translated);
    var exceptions: seq<Exception> := [];
    for i := 0 to |expectedProperties|
      invariant Tally(checks[..i]) == Collected(exceptions)
    {
      TallyStep(checks, i);
      assert checks[i] == MappingCheck(Instance(expectedType, expected.value), Instance(mappedType, actual.value),
                                       excluded, translated, i);
      var expectedProp := expectedProperties[i];
      if expectedProp.name in excluded {
        continue;
      }
      var propertyName := if expectedProp.name in translated then translated[expectedProp.name] else expectedProp.name;
      var found := Matches(mappedProperties, propertyName);
      if |found| != 1 {
        exceptions := exceptions + [MissingPropertyError(propertyName, expectedType.name, mappedType.name, |found|)];
        continue;
      }
      var expectedValue, mappedValue := expected.value[i], actual.value[found[0]];
      if expectedValue != mappedValue {
        exceptions := exceptions + [ValueMismatchError(propertyName, expectedType.name, mappedType.name,
                                                       expectedValue, mappedValue)];
      }
    }
    assert checks[..|expectedProperties|] == checks;
    var thrown := ThrowIfAny(exceptions);
    outcome := Conclude(thrown);
  }

  /** `AllPropertiesMapped(expected, actual)`: nothing excluded, nothing renamed. */
  method AllPropertiesMappedDefault(expectedType: TypeInfo, expected: Option<seq<Value>>,
                                    mappedType: TypeInfo, actual: Option<seq<Value>>) returns (outcome: Outcome)
    requires Conforms(expectedType, expected) && Conforms(mappedType, actual)
    ensures outcome == MappingOutcome(expectedType, expected, mappedType, actual, Some([]), Some(map[]))
  {
    outcome := AllPropertiesMapped(expectedType, expected, mappedType, actual, Some([]), Some(map[]));
  }

  /** `AllPropertiesMapped(expected, actual, excludedProperties)`, array or enumerable: nothing renamed. */
  method AllPropertiesMappedExcluding(expectedType: TypeInfo, expected: Option<seq<Value>>,
                                      mappedType: TypeInfo, actual: Option<seq<Value>>,
                                      excludedProperties: Option<seq<string>>) returns (outcome: Outcome)
    requires Conforms(expectedType, expected) && Conforms(mappedType, actual)
    ensures outcome == MappingOutcome(expectedType, expected, mappedType, actual, excludedProperties, Some(map[]))
  {
    outcome := AllPropertiesMapped(expectedType, expected, mappedType, actual, excludedProperties, Some(map[]));
  }

  /** `AllPropertiesMapped(expected, actual, translatedProperties)`: nothing excluded. */
  method AllPropertiesMappedTranslating(expectedType: TypeInfo, expected: Option<seq<Value>>,
                                        mappedType: TypeInfo, actual: Option<seq<Value>>,
                                        translatedProperties: Option<map<string, string>>) returns (outcome: Outcome)
    requires Conforms(expectedType, expected) && Conforms(mappedType, actual)
    ensures outcome == MappingOutcome(expectedType, expected, mappedType, actual, Some([]), translatedProperties)
  {
    outcome := AllPropertiesMapped(expectedType, expected, mappedType, actual, Some([]), translatedProperties);
  }

  /** An object compared with itself passes, whatever is excluded. */
  lemma MappingIdentical(info: TypeInfo, values: seq<Value>, excluded: seq<string>, translated: map<string, string>)
    requires |values| == |info.properties| && UniqueNames(info.properties) && KeepsNames(translated, excluded, info.properties)
    ensures MappingOutcome(info, Some(values), info, Some(values), Some(excluded), Some(translated)) == Passed
  {
    var s := Instance(info, values);
    forall i | 0 <= i < |info.properties| ensures MappingCheck(s, s, excluded, translated, i).Clean? {
      if info.properties[i].name !in excluded {
        UniqueMatches(info.properties, i);
        CheckAgrees(s, s, excluded, translated, i, i);
      }
    }
    MappingPassedIff(info, Some(values), info, Some(values), Some(excluded), Some(translated));
  }

  /**
   * Two objects, of possibly different types, pass when every origin property
   * that is not excluded has exactly one namesake (after renaming) in the mapped
   * type holding an equal value.
   */
  lemma MappingEquivalent(expectedType: TypeInfo, expected: seq<Value>, mappedType: TypeInfo, actual: seq<Value>,
                          excluded: seq<string>, translated: map<string, string>)
    requires |expected| == |expectedType.properties| && |actual| == |mappedType.properties|
    requires forall i :: 0 <= i < |expected| && expectedType.properties[i].name !in excluded ==>
               exists m :: 0 <= m < |actual|
                 && Matches(mappedType.properties, TargetName(translated, expectedType.properties[i].name)) == [m]
                 && expected[i] == actual[m]
    ensures MappingOutcome(expectedType, Some(expected), mappedType, Some(actual), Some(excluded), Some(translated))
         == Passed
  {
    var source, target := Instance(expectedType, expected), Instance(mappedType, actual);
    forall i | 0 <= i < |expectedType.properties|
      ensures MappingCheck(source, target, excluded, translated, i).Clean?
    {
      if expectedType.properties[i].name !in excluded {
        var m :| 0 <= m < |actual|
          && Matches(mappedType.properties, TargetName(translated, expectedType.properties[i].name)) == [m]
          && expected[i] == actual[m];
        CheckAgrees(source, target, excluded, translated, i, m);
      }
    }
    MappingPassedIff(expectedType, Some(expected), mappedType, Some(actual), Some(excluded), Some(translated));
  }

  lemma CheckAgrees(source: Instance, target: Instance, excluded: seq<string>,
                    translated: map<string, string>, i: nat, m: nat)
    requires source.Valid() && target.Valid() && i < |source.info.properties| && m < |target.values|
    requires Matches(target.info.properties, TargetName(translated, source.info.properties[i].name)) == [m]
    requires source.values[i] == target.values[m]
    ensures MappingCheck(source, target, excluded, translated, i) == Clean
  {
  }

  lemma CheckDiffers(source: Instance, target: Instance, excluded: seq<string>,
                     translated: map<string, string>, i: nat, m: nat)
    requires source.Valid() && target.Valid() && i < |source.info.properties| && m < |target.values|
    requires source.info.properties[i].name !in excluded
    requires Matches(target.info.properties, TargetName(translated, source.info.properties[i].name)) == [m]
    requires source.values[i] != target.values[m]
    ensures MappingCheck(source, target, excluded, translated, i)
         == Flag(ValueMismatchError(TargetName(translated, source.info.properties[i].name),
                                    source.info.name, target.info.name, source.values[i], target.values[m]))
  {
  }

  lemma CheckMissing(source: Instance, target: Instance, excluded: seq<string>,
                     translated: map<string, string>, i: nat)
    requires source.Valid() && target.Valid() && i < |source.info.properties|
    requires source.info.properties[i].name !in excluded
    requires Matches(target.info.properties, TargetName(translated, source.info.properties[i].name)) == []
    ensures MappingCheck(source, target, excluded, translated, i)
         == Flag(MissingPropertyError(TargetName(translated, source.info.properties[i].name),
                                      source.info.name, target.info.name, 0))
  {
  }

  /** When the loop collects one error, that error is raised unwrapped. */
  lemma MappingSingleError(expectedType: TypeInfo, expected: seq<Value>, mappedType: TypeInfo, actual: seq<Value>,
                           excluded: seq<string>, translated: map<string, string>, e: Exception)
    requires |expected| == |expectedType.properties| && |actual| == |mappedType.properties|
    requires Tally(MappingChecks(Instance(expectedType, expected), Instance(mappedType, actual), excluded, translated))
          == Collected([e])
    ensures MappingOutcome(expectedType, Some(expected), mappedType, Some(actual), Some(excluded), Some(translated))
         == Thrown(e)
  {
    MappingOutcomeOfTally(Instance(expectedType, expected), Instance(mappedType, actual), excluded, translated);
  }

  /**
   * Two objects of one type that differ in the value of one property only give
   * exactly one error, raised unwrapped: "did not match" for that property.
   */
  lemma MappingOneValueDiffers(info: TypeInfo, expected: seq<Value>, actual: seq<Value>, k: nat,
                               excluded: seq<string>, translated: map<string, string>)
    requires |expected| == |info.properties| && |actual| == |info.properties|
    requires UniqueNames(info.properties) && KeepsNames(translated, excluded, info.properties)
    requires k < |info.properties| && info.properties[k].name !in excluded
    requires expected[k] != actual[k]
    requires forall j :: 0 <= j < |expected| && j != k ==> expected[j] == actual[j]
    ensures MappingOutcome(info, Some(expected), info, Some(actual), Some(excluded), Some(translated))
         == Thrown(ValueMismatchError(info.properties[k].name, info.name, info.name, expected[k], actual[k]))
  {
    var source, target := Instance(info, expected), Instance(info, actual);
    var checks := MappingChecks(source, target, excluded, translated);
    forall j | 0 <= j < |checks| && j != k ensures checks[j].Clean? {
      if info.properties[j].name !in excluded {
        UniqueMatches(info.properties, j);
        CheckAgrees(source, target, excluded, translated, j, j);
      }
    }
    UniqueMatches(info.properties, k);
    CheckDiffers(source, target, excluded, translated, k, k);
    TallyOnlyFlag(checks, k);
    MappingSingleError(info, expected, info, actual, excluded, translated, checks[k].error);
  }

  /**
   * A target that is the source with one property removed gives exactly one
   * error, raised unwrapped: "could not find" for that property, no match found.
   */
  lemma MappingOneMissing(expectedType: TypeInfo, expected: seq<Value>, mapName: string, k: nat,
                          excluded: seq<string>, translated: map<string, string>)
    requires |expected| == |expectedType.properties|
    requires UniqueNames(expectedType.properties) && KeepsNames(translated, excluded, expectedType.properties)
    requires k < |expected| && expectedType.properties[k].name !in excluded
    ensures var ps := expectedType.properties;
            MappingOutcome(expectedType, Some(expected), TypeInfo(mapName, Without(ps, k)),
                           Some(Without(expected, k)), Some(excluded), Some(translated))
            == Thrown(MissingPropertyError(ps[k].name, expectedType.name, mapName, 0))
  {
    var ps := expectedType.properties;
    var tps := Without(ps, k);
    var tvs := Without(expected, k);
    var mappedType := TypeInfo(mapName, tps);
    var source, target := Instance(expectedType, expected), Instance(mappedType, tvs);
    var checks := MappingChecks(source, target, excluded, translated);
    forall j | 0 <= j < |checks| && j != k ensures checks[j].Clean? {
      if ps[j].name !in excluded {
        var m := if j < k then j else j - 1;
        WithoutMatches(ps, k, j);
        CheckAgrees(source, target, excluded, translated, j, m);
      }
    }
    WithoutMatches(ps, k, k);
    CheckMissing(source, target, excluded, translated, k);
    TallyOnlyFlag(checks, k);
    MappingSingleError(expectedType, expected, mappedType, tvs, excluded, translated, checks[k].error);
  }

  // ---------------------------------------------------------------------------
  // NoPropertiesNullOrDefault

  /**
   * What the loop body does with property `i`: an unreadable exclusion list
   * escapes the loop; otherwise, inside the try, reading a property of a null
   * object, a null value and a value equal to its type's default each give one
   * caught error, and the default check runs only on a non-null value.
   */
  function NullOrDefaultCheck(objType: TypeInfo, obj: Option<seq<Value>>, excluded: Option<seq<string>>,
                              i: nat): Check<Exception, Exception>
    requires Conforms(objType, obj) && i < |objType.properties|
  {
    var prop := objType.properties[i];
    if excluded.None? then Abort(ArgumentNullException("source"))
    else if prop.name in excluded.value then Clean
    else if obj.None? then Flag(TargetException)
    else
      var value := obj.value[i];
      if value == Null then Flag(NotNullException)
      else if DefaultOf(prop.kind) == value then Flag(NotEqualException(DefaultOf(prop.kind), value))
      else Clean
  }

  function NullOrDefaultChecks(objType: TypeInfo, obj: Option<seq<Value>>,
                               excluded: Option<seq<string>>): (checks: seq<Check<Exception, Exception>>)
    requires Conforms(objType, obj)
    ensures |checks| == |objType.properties|
  {
    seq(|objType.properties|, i requires 0 <= i < |objType.properties| =>
      NullOrDefaultCheck(objType, obj, excluded, i))
  }

  /**
   * The cases of one property once the exclusion list is readable: a null value
   * gives NotNull and skips the default check; NotEqual comes only from a
   * non-null value equal to the default of a value type.
   */
  lemma NullOrDefaultCheckCases(objType: TypeInfo, obj: Option<seq<Value>>, excluded: seq<string>, i: nat)
    requires Conforms(objType, obj) && i < |objType.properties|
    ensures var c := NullOrDefaultCheck(objType, obj, Some(excluded), i);
            var prop := objType.properties[i];
            && !c.Abort?
            && (prop.name in excluded ==> c.Clean?)
            && (c == Flag(TargetException) <==> prop.name !in excluded && obj.None?)
            && (c == Flag(NotNullException) <==> prop.name !in excluded && obj.Some? && obj.value[i] == Null)
            && (c.Flag? && c.error.NotEqualException? <==>
                  prop.name !in excluded && obj.Some? && obj.value[i] != Null && obj.value[i] == DefaultOf(prop.kind))
            && (c.Flag? && c.error.NotEqualException? ==> prop.kind.ValueType?)
  {
  }

  /** A property passes when it is excluded, or has a value that is neither null nor its type's default. */
  predicate Acceptable(objType: TypeInfo, obj: Option<seq<Value>>, excluded: seq<string>, i: nat)
    requires Conforms(objType, obj) && i < |objType.properties|
  {
    || objType.properties[i].name in excluded
    || (&& obj.Some?
        && obj.value[i] != Null
        && obj.value[i] != DefaultOf(objType.properties[i].kind))
  }

  /** The specification of `NoPropertiesNullOrDefault`. */
  function NullOrDefaultOutcome(objType: TypeInfo, obj: Option<seq<Value>>, excluded: Option<seq<string>>): (r: Outcome)
    requires Conforms(objType, obj)
    ensures r == Passed <==>
            (|objType.properties| == 0 ||
             (excluded.Some? && forall i :: 0 <= i < |objType.properties| ==> Acceptable(objType, obj, excluded.value, i)))
    ensures excluded.None? && |objType.properties| > 0 ==> r == Thrown(ArgumentNullException("source"))
  {
    var checks := NullOrDefaultChecks(objType, obj, excluded);
    assert forall i :: 0 <= i < |checks| ==> checks[i] == NullOrDefaultCheck(objType, obj, excluded, i);
    assert excluded.Some? ==>
      forall i :: 0 <= i < |checks| ==> (checks[i].Clean? <==> Acceptable(objType, obj, excluded.value, i));
    TallyAllClean(checks);
    if excluded.None? && |checks| > 0 then
      TallyFirstAbort(checks, 0);
      Thrown(ArgumentNullException("source"))
    else
      TallyCompletes(checks);
      match Tally(checks)
      case Aborted(x) => Thrown(x)
      case Collected(errors) => Conclude(ThrowIfAny(errors))
  }

  /**
   * `NoPropertiesNullOrDefault`: every property that is not excluded is read and
   * must be neither null nor its type's default; all failures are collected and
   * `ThrowIfAny` decides the outcome.
   */
  method NoPropertiesNullOrDefault(objType: TypeInfo, obj: Option<seq<Value>>,
                                   excludedProperties: Option<seq<string>>) returns (outcome: Outcome)
    requires Conforms(objType, obj)
    ensures outcome == NullOrDefaultOutcome(objType, obj, excludedProperties)
  {
    var objProperties := objType.properties;
    ghost var checks := NullOrDefaultChecks(objType, obj, excludedProperties);
    var exceptions: seq<Exception> := [];
    for i := 0 to |objProperties|
      invariant Tally(checks[..i]) == Collected(exceptions)
    {
      TallyStep(checks, i);
      var prop := objProperties[i];
      if excludedProperties.None? {
        TallyAbortSticks(checks, i + 1);
        return Thrown(ArgumentNullException("source"));
      }
      if prop.name in excludedProperties.value {
        continue;
      }
      if obj.None? {
        exceptions := exceptions + [TargetException];
        continue;
      }
      var value := obj.value[i];
      if value == Null {
        exceptions := exceptions + [NotNullException];
        continue;
      }
      var defaultValue := DefaultOf(prop.kind);
      if defaultValue == value {
        exceptions := exceptions + [NotEqualException(defaultValue, value)];
      }
    }
    assert checks[..|objProperties|] == checks;
    var thrown := ThrowIfAny(exceptions);
    outcome := Conclude(thrown);
  }
}
