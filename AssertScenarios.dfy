/**
 * The scenarios of the repository's tests for `AllPropertiesMapped` and
 * `NoPropertiesNullOrDefault`, stated over the specifications the methods meet.
 * Type names are left as parameters: anonymous types have compiler-chosen names.
 */
module AssertScenarios {

  import opened Wrappers
  import opened Reflection
  import opened Exceptions
  import opened Gathering
  import opened Assert

  function StringProperty(name: string): PropertyInfo {
    PropertyInfo(name, ReferenceType)
  }

  function IntProperty(name: string): PropertyInfo {
    PropertyInfo(name, ValueType(Int(0)))
  }

  /** `{ Foo = "Bar" }` against `{ Foo = "Bar" }` passes. */
  lemma MappedSuccess(e: string, a: string)
    ensures MappingOutcome(TypeInfo(e, [StringProperty("Foo")]), Some([Str("Bar")]),
                           TypeInfo(a, [StringProperty("Foo")]), Some([Str("Bar")]), Some([]), Some(map[]))
         == Passed
  {
    var s, t := Instance(TypeInfo(e, [StringProperty("Foo")]), [Str("Bar")]),
                Instance(TypeInfo(a, [StringProperty("Foo")]), [Str("Bar")]);
    assert Matches(t.info.properties, "Foo") == [0];
    assert MappingCheck(s, t, [], map[], 0).Clean?;
    MappingPassedIff(s.info, Some(s.values), t.info, Some(t.values), Some([]), Some(map[]));
  }

  /** `{ Foo = "Bar" }` against `{ Foo = "Wumbo" }` raises one "did not match" error, unwrapped. */
  lemma MappedDifferentValue(e: string, a: string)
    ensures MappingOutcome(TypeInfo(e, [StringProperty("Foo")]), Some([Str("Bar")]),
                           TypeInfo(a, [StringProperty("Foo")]), Some([Str("Wumbo")]), Some([]), Some(map[]))
         == Thrown(ValueMismatchError("Foo", e, a, Str("Bar"), Str("Wumbo")))
  {
    var s, t := Instance(TypeInfo(e, [StringProperty("Foo")]), [Str("Bar")]),
                Instance(TypeInfo(a, [StringProperty("Foo")]), [Str("Wumbo")]);
    assert Matches(t.info.properties, "Foo") == [0];
    var checks := MappingChecks(s, t, [], map[]);
    assert checks[0] == Flag(ValueMismatchError("Foo", e, a, Str("Bar"), Str("Wumbo")));
    TallyOnlyFlag(checks, 0);
    MappingSingleError(s.info, s.values, t.info, t.values, [], map[], checks[0].error);
  }

  /** `{ Foo = "Bar", Bar = "Foo" }` against `{ Foo = "Bar" }` raises one "could not find" error for Bar. */
  lemma MappedMissingProperty(e: string, a: string)
    ensures MappingOutcome(TypeInfo(e, [StringProperty("Foo"), StringProperty("Bar")]), Some([Str("Bar"), Str("Foo")]),
                           TypeInfo(a, [StringProperty("Foo")]), Some([Str("Bar")]), Some([]), Some(map[]))
         == Thrown(MissingPropertyError("Bar", e, a, 0))
  {
    var s, t := Instance(TypeInfo(e, [StringProperty("Foo"), StringProperty("Bar")]), [Str("Bar"), Str("Foo")]),
                Instance(TypeInfo(a, [StringProperty("Foo")]), [Str("Bar")]);
    assert Matches(t.info.properties, "Foo") == [0];
    assert Matches(t.info.properties, "Bar") == [];
    var checks := MappingChecks(s, t, [], map[]);
    assert checks[0].Clean?;
    assert checks[1] == Flag(MissingPropertyError("Bar", e, a, 0));
    TallyOnlyFlag(checks, 1);
    MappingSingleError(s.info, s.values, t.info, t.values, [], map[], checks[1].error);
  }

  /**
   * `{ Foo = "Bar", Bar = "Foo" }` against `{ Foo = "Wumbo" }` raises one aggregate of
   * exactly two errors, in declaration order: Foo did not match, Bar not found.
   */
  lemma MappedMultipleErrors(e: string, a: string)
    ensures MappingOutcome(TypeInfo(e, [StringProperty("Foo"), StringProperty("Bar")]), Some([Str("Bar"), Str("Foo")]),
                           TypeInfo(a, [StringProperty("Foo")]), Some([Str("Wumbo")]), Some([]), Some(map[]))
         == Thrown(AggregateException([ValueMismatchError("Foo", e, a, Str("Bar"), Str("Wumbo")),
                                       MissingPropertyError("Bar", e, a, 0)]))
  {
    var s, t := Instance(TypeInfo(e, [StringProperty("Foo"), StringProperty("Bar")]), [Str("Bar"), Str("Foo")]),
                Instance(TypeInfo(a, [StringProperty("Foo")]), [Str("Wumbo")]);
    assert Matches(t.info.properties, "Foo") == [0];
    assert Matches(t.info.properties, "Bar") == [];
    var checks := MappingChecks(s, t, [], map[]);
    assert checks[0] == Flag(ValueMismatchError("Foo", e, a, Str("Bar"), Str("Wumbo")));
    assert checks[1] == Flag(MissingPropertyError("Bar", e, a, 0));
    TallyStep(checks, 0);
    TallyStep(checks, 1);
    assert checks[..2] == checks;
    assert Tally(checks) == Collected([checks[0].error, checks[1].error]);
    MappingOutcomeOfTally(s, t, [], map[]);
  }

  /** Excluding Bar makes the missing-property scenario pass. */
  lemma MappedIgnoredProperty(e: string, a: string)
    ensures MappingOutcome(TypeInfo(e, [StringProperty("Foo"), StringProperty("Bar")]), Some([Str("Bar"), Str("Foo")]),
                           TypeInfo(a, [StringProperty("Foo")]), Some([Str("Bar")]), Some(["Bar"]), Some(map[]))
         == Passed
  {
    var s, t := Instance(TypeInfo(e, [StringProperty("Foo"), StringProperty("Bar")]), [Str("Bar"), Str("Foo")]),
                Instance(TypeInfo(a, [StringProperty("Foo")]), [Str("Bar")]);
    assert Matches(t.info.properties, "Foo") == [0];
    assert MappingCheck(s, t, ["Bar"], map[], 0).Clean?;
    assert MappingCheck(s, t, ["Bar"], map[], 1).Clean?;
    MappingPassedIff(s.info, Some(s.values), t.info, Some(t.values), Some(["Bar"]), Some(map[]));
  }

  /** Renaming Foo to Wumbo maps `{ Foo = "Bar" }` onto `{ Wumbo = "Bar" }`. */
  lemma MappedTranslatedProperty(e: string, a: string)
    ensures MappingOutcome(TypeInfo(e, [StringProperty("Foo")]), Some([Str("Bar")]),
                           TypeInfo(a, [StringProperty("Wumbo")]), Some([Str("Bar")]), Some([]),
                           Some(map["Foo" := "Wumbo"]))
         == Passed
  {
    var s, t := Instance(TypeInfo(e, [StringProperty("Foo")]), [Str("Bar")]),
                Instance(TypeInfo(a, [StringProperty("Wumbo")]), [Str("Bar")]);
    assert TargetName(map["Foo" := "Wumbo"], "Foo") == "Wumbo";
    assert Matches(t.info.properties, "Wumbo") == [0];
    assert MappingCheck(s, t, [], map["Foo" := "Wumbo"], 0).Clean?;
    MappingPassedIff(s.info, Some(s.values), t.info, Some(t.values), Some([]), Some(map["Foo" := "Wumbo"]));
  }

  /** `{ Foo = "Bar" }` has no null or default property. */
  lemma NullOrDefaultSuccess(n: string)
    ensures NullOrDefaultOutcome(TypeInfo(n, [StringProperty("Foo")]), Some([Str("Bar")]), Some([])) == Passed
  {
    assert Acceptable(TypeInfo(n, [StringProperty("Foo")]), Some([Str("Bar")]), [], 0);
  }

  /** `{ Foo = (string)null }` raises NotNull, unwrapped. */
  lemma NullOrDefaultNull(n: string)
    ensures NullOrDefaultOutcome(TypeInfo(n, [StringProperty("Foo")]), Some([Null]), Some([]))
         == Thrown(NotNullException)
  {
    var checks := NullOrDefaultChecks(TypeInfo(n, [StringProperty("Foo")]), Some([Null]), Some([]));
    assert checks[0] == Flag(NotNullException);
    TallyOnlyFlag(checks, 0);
  }

  /** `{ Foo = 0 }` raises NotEqual against the default 0, unwrapped. */
  lemma NullOrDefaultDefault(n: string)
    ensures NullOrDefaultOutcome(TypeInfo(n, [IntProperty("Foo")]), Some([Int(0)]), Some([]))
         == Thrown(NotEqualException(Int(0), Int(0)))
  {
    var checks := NullOrDefaultChecks(TypeInfo(n, [IntProperty("Foo")]), Some([Int(0)]), Some([]));
    assert checks[0] == Flag(NotEqualException(Int(0), Int(0)));
    TallyOnlyFlag(checks, 0);
  }

  /** `{ Foo = (string)null, Bar = 0 }` raises an aggregate of NotNull then NotEqual. */
  lemma NullOrDefaultMultipleErrors(n: string)
    ensures NullOrDefaultOutcome(TypeInfo(n, [StringProperty("Foo"), IntProperty("Bar")]), Some([Null, Int(0)]), Some([]))
         == Thrown(AggregateException([NotNullException, NotEqualException(Int(0), Int(0))]))
  {
    var checks := NullOrDefaultChecks(TypeInfo(n, [StringProperty("Foo"), IntProperty("Bar")]), Some([Null, Int(0)]), Some([]));
    assert checks[0] == Flag(NotNullException);
    assert checks[1] == Flag(NotEqualException(Int(0), Int(0)));
    TallyStep(checks, 0);
    TallyStep(checks, 1);
    assert checks[..2] == checks;
    assert Tally(checks) == Collected([NotNullException, NotEqualException(Int(0), Int(0))]);
  }
}
