/**
 * The `MatchAllProperties` assertion: it compares the subject's properties with
 * those of another object, collects one summary entry per failing property and
 * fails once with a count of them.
 */
module PropertyMatchAssertions {

  import opened Wrappers
  import opened Reflection
  import opened Exceptions
  import opened Gathering

  /**
   * One entry of the failure summary: it names the looked-up property and, for a
   * value mismatch, carries the subject's value and the other object's value.
   */
  datatype Mismatch =
    | CouldNotFind(propertyName: string)
    | ValueDidNotMatch(propertyName: string, expected: Value, received: Value)

  /** How the assertion ends. */
  datatype MatchOutcome =
    | Matched
      /** the up-front failure for a null other object */
    | OtherIsNull(message: string)
      /** "Expected all properties to match, but received {count} unmatched {noun}." with the summary */
    | Unmatched(count: nat, noun: string, summary: seq<Mismatch>)
      /** an exception escaped the comparison */
    | Crashed(cause: Exception)

  const OtherIsNullMessage := "You can't assert that all properties match if the other object is null"

  function PropertyPluralization(count: int): (noun: string)
    ensures noun == "property" <==> count == 1
    ensures noun == "properties" <==> count != 1
  {
    if count == 1 then "property" else "properties"
  }

  /**
   * What the loop body does with subject property `i`. A null exclusion list, a
   * null rename map, more than one namesake in the other object and a null subject
   * value all raise an exception the loop does not catch.
   */
  function MatchCheck(subject: Instance, other: Instance, excluded: Option<seq<string>>,
                      translated: Option<map<string, string>>, i: nat): Check<Mismatch, Exception>
    requires subject.Valid() && other.Valid() && i < |subject.info.properties|
  {
    var name := subject.info.properties[i].name;
    if excluded.None? then Abort(ArgumentNullException("source"))
    else if name in excluded.value then Clean
    else if translated.None? then Abort(NullReferenceException)
    else
      var propertyName := TargetName(translated.value, name);
      var found := Matches(other.info.properties, propertyName);
      if |found| > 1 then Abort(InvalidOperationException)
      else if |found| == 0 then Flag(CouldNotFind(propertyName))
      else
        var subjectValue, otherValue := subject.values[i], other.values[found[0]];
        if subjectValue == Null then Abort(NullReferenceException)
        else if subjectValue != otherValue then Flag(ValueDidNotMatch(propertyName, subjectValue, otherValue))
        else Clean
  }

  function MatchChecks(subject: Instance, other: Instance, excluded: Option<seq<string>>,
                       translated: Option<map<string, string>>): (checks: seq<Check<Mismatch, Exception>>)
    requires subject.Valid() && other.Valid()
    ensures |checks| == |subject.info.properties|
  {
    seq(|subject.info.properties|, i requires 0 <= i < |subject.info.properties| =>
      MatchCheck(subject, other, excluded, translated, i))
  }

  predicate ValidRef(obj: Option<Instance>) {
    obj.Some? ==> obj.value.Valid()
  }

  /** The failure reported for a non-empty summary. */
  function Summarize(summary: seq<Mismatch>): MatchOutcome {
    if |summary| == 0 then Matched
    else Unmatched(|summary|, PropertyPluralization(|summary|), summary)
  }

  /** The specification of the full `MatchAllProperties`. */
  function MatchOutcomeOf(subject: Option<Instance>, other: Option<Instance>, excluded: Option<seq<string>>,
                          translated: Option<map<string, string>>): MatchOutcome
    requires ValidRef(subject) && ValidRef(other)
  {
    if subject.None? then Crashed(NullReferenceException)
    else if other.None? then OtherIsNull(OtherIsNullMessage)
    else
      match Tally(MatchChecks(subject.value, other.value, excluded, translated))
      case Aborted(x) => Crashed(x)
      case Collected(summary) => Summarize(summary)
  }

  /**
   * The assertion fails up front exactly when the subject is there and the other
   * object is null; a failure counts its summary entries, at least one, and
   * says "property" exactly when there is one.
   */
  lemma MatchOutcomeShape(subject: Option<Instance>, other: Option<Instance>, excluded: Option<seq<string>>,
                          translated: Option<map<string, string>>)
    requires ValidRef(subject) && ValidRef(other)
    ensures var r := MatchOutcomeOf(subject, other, excluded, translated);
            && (r.OtherIsNull? <==> subject.Some? && other.None?)
            && (r.Unmatched? ==> r.count == |r.summary| > 0 && (r.noun == "property" <==> r.count == 1))
  {
  }

  /** The assertion succeeds exactly when both objects are there and every property check is clean. */
  lemma MatchedIff(subject: Option<Instance>, other: Option<Instance>, excluded: Option<seq<string>>,
                   translated: Option<map<string, string>>)
    requires ValidRef(subject) && ValidRef(other)
    ensures MatchOutcomeOf(subject, other, excluded, translated) == Matched <==>
            (&& subject.Some? && other.Some?
             && forall i :: 0 <= i < |subject.value.info.properties| ==>
                  MatchCheck(subject.value, other.value, excluded, translated, i).Clean?)
  {
    if subject.Some? && other.Some? {
      var checks := MatchChecks(subject.value, other.value, excluded, translated);
      assert forall i :: 0 <= i < |checks| ==>
        checks[i] == MatchCheck(subject.value, other.value, excluded, translated, i);
      TallyAllClean(checks);
    }
  }

  /** A check that aborts after a clean-so-far prefix decides the whole fold. */
  lemma MatchStopped(checks: seq<Check<Mismatch, Exception>>, i: nat, cause: Exception)
    requires i < |checks| && checks[i] == Abort(cause) && Tally(checks[..i]).Collected?
    ensures Tally(checks) == Aborted(cause)
  {
    TallyStep(checks, i);
    TallyAbortSticks(checks, i + 1);
  }

  /**
   * The full `MatchAllProperties`: the subject's runtime type is read first (a
   * null subject crashes), a null other object fails up front, then every
   * property that is not excluded is looked up and compared and the failures are
   * collected; the assertion succeeds exactly when none was collected.
   */
  method MatchAllProperties(subject: Option<Instance>, other: Option<Instance>,
                            excludedProperties: Option<seq<string>>,
                            translatedProperties: Option<map<string, string>>) returns (outcome: MatchOutcome)
    requires ValidRef(subject) && ValidRef(other)
    ensures outcome == MatchOutcomeOf(subject, other, excludedProperties, translatedProperties)
  {
    if subject.None? {
      return Crashed(NullReferenceException);
    }
    var subjectType := subject.value.info;
    if other.None? {
      return OtherIsNull(OtherIsNullMessage);
    }
    var otherProperties := other.value.info.properties;
    ghost var checks := MatchChecks(subject.value, other.value, excludedProperties, translatedProperties);
    var failureMessages: seq<Mismatch> := [];
    for i := 0 to |subjectType.properties|
      invariant Tally(checks[..i]) == Collected(failureMessages)
    {
      TallyStep(checks, i);
      assert checks[i] == MatchCheck(subject.value, other.value, excludedProperties, translatedProperties, i);
      var subjectProp := subjectType.properties[i];
      if excludedProperties.None? {
        MatchStopped(checks, i, ArgumentNullException("source"));
        return Crashed(ArgumentNullException("source"));
      }
      if subjectProp.name in excludedProperties.value {
        continue;
      }
      if translatedProperties.None? {
        MatchStopped(checks, i, NullReferenceException);
        return Crashed(NullReferenceException);
      }
      var translated := translatedProperties.value;
      var propertyName := if subjectProp.name in translated then translated[subjectProp.name] else subjectProp.name;
      var found := Matches(otherProperties, propertyName);
      if |found| > 1 {
        MatchStopped(checks, i, InvalidOperationException);
        return Crashed(InvalidOperationException);
      }
      if |found| == 0 {
        failureMessages := failureMessages + [CouldNotFind(propertyName)];
        continue;
      }
      var subjectValue, otherValue := subject.value.values[i], other.value.values[found[0]];
      if subjectValue == Null {
        MatchStopped(checks, i, NullReferenceException);
        return Crashed(NullReferenceException);
      }
      if subjectValue != otherValue {
        failureMessages := failureMessages + [ValueDidNotMatch(propertyName, subjectValue, otherValue)];
      }
    }
    assert checks[..|subjectType.properties|] == checks;
    outcome := if |failureMessages| == 0 then Matched
               else Unmatched(|failureMessages|, PropertyPluralization(|failureMessages|), failureMessages);
    assert outcome == Summarize(failureMessages);
  }

  /** `MatchAllProperties(other)`: nothing excluded, nothing renamed. */
  method MatchAllPropertiesDefault(subject: Option<Instance>, other: Option<Instance>) returns (outcome: MatchOutcome)
    requires ValidRef(subject) && ValidRef(other)
    ensures outcome == MatchOutcomeOf(subject, other, Some([]), Some(map[]))
  {
    outcome := MatchAllProperties(subject, other, Some([]), Some(map[]));
  }

  /** `MatchAllProperties(other, excludedProperties)`: nothing renamed. */
  method MatchAllPropertiesExcluding(subject: Option<Instance>, other: Option<Instance>,
                                     excludedProperties: Option<seq<string>>) returns (outcome: MatchOutcome)
    requires ValidRef(subject) && ValidRef(other)
    ensures outcome == MatchOutcomeOf(subject, other, excludedProperties, Some(map[]))
  {
    outcome := MatchAllProperties(subject, other, excludedProperties, Some(map[]));
  }

  /** `MatchAllProperties(other, translatedProperties)`: nothing excluded. */
  method MatchAllPropertiesTranslating(subject: Option<Instance>, other: Option<Instance>,
                                       translatedProperties: Option<map<string, string>>) returns (outcome: MatchOutcome)
    requires ValidRef(subject) && ValidRef(other)
    ensures outcome == MatchOutcomeOf(subject, other, Some([]), translatedProperties)
  {
    outcome := MatchAllProperties(subject, other, Some([]), translatedProperties);
  }

  /**
   * The cases of one subject property: excluded properties are never looked at;
   * otherwise it is looked up under its renamed name, a missing namesake gives
   * "could not find", a differing value gives one entry with both values; several
   * namesakes and a null subject value raise an exception that escapes the loop.
   */
  lemma MatchCheckCases(subject: Instance, other: Instance, excluded: seq<string>,
                        translated: map<string, string>, i: nat)
    requires subject.Valid() && other.Valid() && i < |subject.info.properties|
    ensures var c := MatchCheck(subject, other, Some(excluded), Some(translated), i);
            var name := subject.info.properties[i].name;
            var propertyName := TargetName(translated, name);
            var found := Matches(other.info.properties, propertyName);
            && (name in excluded ==> c.Clean?)
            && (c == Flag(CouldNotFind(propertyName)) <==> name !in excluded && |found| == 0)
            && (c.Flag? && c.error.ValueDidNotMatch? <==>
                  && name !in excluded && |found| == 1 && subject.values[i] != Null
                  && subject.values[i] != other.values[found[0]])
            && (c.Flag? && c.error.ValueDidNotMatch? ==>
                  c.error == ValueDidNotMatch(propertyName, subject.values[i], other.values[found[0]]))
            && (name !in excluded && |found| > 1 ==> c == Abort(InvalidOperationException))
            && (name !in excluded && |found| == 1 && subject.values[i] == Null ==> c == Abort(NullReferenceException))
            && (c.Clean? <==>
                  || name in excluded
                  || (|found| == 1 && subject.values[i] != Null && subject.values[i] == other.values[found[0]]))
  {
  }

  lemma MatchCheckAgrees(subject: Instance, other: Instance, excluded: seq<string>,
                         translated: map<string, string>, i: nat, m: nat)
    requires subject.Valid() && other.Valid() && i < |subject.info.properties| && m < |other.values|
    requires Matches(other.info.properties, TargetName(translated, subject.info.properties[i].name)) == [m]
    requires subject.values[i] != Null && subject.values[i] == other.values[m]
    ensures MatchCheck(subject, other, Some(excluded), Some(translated), i) == Clean
  {
  }

  lemma MatchCheckDiffers(subject: Instance, other: Instance, excluded: seq<string>,
                          translated: map<string, string>, i: nat, m: nat)
    requires subject.Valid() && other.Valid() && i < |subject.info.properties| && m < |other.values|
    requires subject.info.properties[i].name !in excluded
    requires Matches(other.info.properties, TargetName(translated, subject.info.properties[i].name)) == [m]
    requires subject.values[i] != Null && subject.values[i] != other.values[m]
    ensures MatchCheck(subject, other, Some(excluded), Some(translated), i)
         == Flag(ValueDidNotMatch(TargetName(translated, subject.info.properties[i].name),
                                  subject.values[i], other.values[m]))
  {
  }

  lemma MatchCheckMissing(subject: Instance, other: Instance, excluded: seq<string>,
                          translated: map<string, string>, i: nat)
    requires subject.Valid() && other.Valid() && i < |subject.info.properties|
    requires subject.info.properties[i].name !in excluded
    requires Matches(other.info.properties, TargetName(translated, subject.info.properties[i].name)) == []
    ensures MatchCheck(subject, other, Some(excluded), Some(translated), i)
         == Flag(CouldNotFind(TargetName(translated, subject.info.properties[i].name)))
  {
  }

  /**
   * A subject matched against itself succeeds, whatever is excluded, when the
   * values that are compared are not null.
   */
  lemma MatchIdentical(subject: Instance, excluded: seq<string>, translated: map<string, string>)
    requires subject.Valid() && UniqueNames(subject.info.properties)
    requires KeepsNames(translated, excluded, subject.info.properties)
    requires forall i :: 0 <= i < |subject.values| && subject.info.properties[i].name !in excluded ==>
               subject.values[i] != Null
    ensures MatchOutcomeOf(Some(subject), Some(subject), Some(excluded), Some(translated)) == Matched
  {
    forall i | 0 <= i < |subject.info.properties|
      ensures MatchCheck(subject, subject, Some(excluded), Some(translated), i).Clean?
    {
      if subject.info.properties[i].name !in excluded {
        UniqueMatches(subject.info.properties, i);
        MatchCheckAgrees(subject, subject, excluded, translated, i, i);
      }
    }
    MatchedIff(Some(subject), Some(subject), Some(excluded), Some(translated));
  }

  /** One failing property gives a failure that counts one "property" and describes it. */
  lemma MatchSingleEntry(subject: Instance, other: Instance, excluded: seq<string>,
                         translated: map<string, string>, k: nat)
    requires subject.Valid() && other.Valid() && k < |subject.info.properties|
    requires MatchCheck(subject, other, Some(excluded), Some(translated), k).Flag?
    requires forall j :: 0 <= j < |subject.info.properties| && j != k ==>
               MatchCheck(subject, other, Some(excluded), Some(translated), j).Clean?
    ensures MatchOutcomeOf(Some(subject), Some(other), Some(excluded), Some(translated))
         == Unmatched(1, "property", [MatchCheck(subject, other, Some(excluded), Some(translated), k).error])
  {
    var checks := MatchChecks(subject, other, Some(excluded), Some(translated));
    TallyOnlyFlag(checks, k);
  }

  /**
   * Subject and other of one type differing in one non-null value give exactly one
   * entry, for that property, carrying the expected and the received value.
   */
  lemma MatchOneValueDiffers(info: TypeInfo, expected: seq<Value>, received: seq<Value>, k: nat,
                             excluded: seq<string>, translated: map<string, string>)
    requires |expected| == |info.properties| && |received| == |info.properties|
    requires UniqueNames(info.properties) && KeepsNames(translated, excluded, info.properties)
    requires forall i :: 0 <= i < |expected| && info.properties[i].name !in excluded ==> expected[i] != Null
    requires k < |info.properties| && info.properties[k].name !in excluded
    requires expected[k] != received[k]
    requires forall j :: 0 <= j < |expected| && j != k ==> expected[j] == received[j]
    ensures MatchOutcomeOf(Some(Instance(info, expected)), Some(Instance(info, received)), Some(excluded), Some(translated))
         == Unmatched(1, "property", [ValueDidNotMatch(info.properties[k].name, expected[k], received[k])])
  {
    var subject, other := Instance(info, expected), Instance(info, received);
    forall j | 0 <= j < |info.properties| && j != k
      ensures MatchCheck(subject, other, Some(excluded), Some(translated), j).Clean?
    {
      if info.properties[j].name !in excluded {
        UniqueMatches(info.properties, j);
        MatchCheckAgrees(subject, other, excluded, translated, j, j);
      }
    }
    UniqueMatches(info.properties, k);
    MatchCheckDiffers(subject, other, excluded, translated, k, k);
    MatchSingleEntry(subject, other, excluded, translated, k);
  }

  /**
   * An other object that is the subject with one property removed gives exactly
   * one entry: "could not find" for that property.
   */
  lemma MatchOneMissing(info: TypeInfo, values: seq<Value>, otherName: string, k: nat,
                        excluded: seq<string>, translated: map<string, string>)
    requires |values| == |info.properties|
    requires UniqueNames(info.properties) && KeepsNames(translated, excluded, info.properties)
    requires forall i :: 0 <= i < |values| && info.properties[i].name !in excluded ==> values[i] != Null
    requires k < |values| && info.properties[k].name !in excluded
    ensures var ps := info.properties;
            MatchOutcomeOf(Some(Instance(info, values)),
                           Some(Instance(TypeInfo(otherName, Without(ps, k)), Without(values, k))),
                           Some(excluded), Some(translated))
            == Unmatched(1, "property", [CouldNotFind(ps[k].name)])
  {
    var ps := info.properties;
    var tps, tvs := Without(ps, k), Without(values, k);
    var subject, other := Instance(info, values), Instance(TypeInfo(otherName, tps), tvs);
    forall j | 0 <= j < |ps| && j != k
      ensures MatchCheck(subject, other, Some(excluded), Some(translated), j).Clean?
    {
      if ps[j].name !in excluded {
        var m := if j < k then j else j - 1;
        WithoutMatches(ps, k, j);
        assert tvs[m] == values[j];
        MatchCheckAgrees(subject, other, excluded, translated, j, m);
      }
    }
    WithoutMatches(ps, k, k);
    MatchCheckMissing(subject, other, excluded, translated, k);
    MatchSingleEntry(subject, other, excluded, translated, k);
  }

  /** A null other object fails before any property is compared, with a message that says so. */
  lemma MatchOtherNull(subject: Instance, excluded: Option<seq<string>>, translated: Option<map<string, string>>)
    requires subject.Valid()
    ensures var r := MatchOutcomeOf(Some(subject), None, excluded, translated);
            r.OtherIsNull? && |r.message| >= 4 && r.message[|r.message| - 4..] == "null"
  {
  }
}
