# Upstream.Testing assertions, modelled in Dafny

Upstream.Testing adds property-by-property assertions to xUnit and FluentAssertions.

- `Assert.AllPropertiesMapped` checks that every public property of an origin object has been mapped onto a second object. The mapping is by name, optionally renamed, minus excluded names. Every failure is collected and then raised: nothing, the single error, or one `AggregateException` holding all of them.
- `Assert.NoPropertiesNullOrDefault` checks that no property is null or equal to its type's default.
- The FluentAssertions extension `MatchAllProperties` compares a subject with another object the same way. It fails once, with a count of unmatched properties, "property" or "properties", and a summary.
- `ExceptionExtensions.ThrowIfAny` is the null-safe form of the 0/1/many raise.

The model has these modules:

- `Reflection`: types as a name plus an ordered list of properties, objects as one value per property, and name lookup.
- `Exceptions`: the exceptions raised, collected or escaping.
- `Gathering`: the loop shared by every assertion. It walks the properties in order. Each property adds nothing, one error, or lets an exception escape. `Tally` is that loop as a function, and its lemmas give the order and completeness of what is collected.
- `Assert`, `PropertyMatchAssertions` and `ExceptionExtensions`: the three source files. Each assertion is a `method` with the source's loop, proved equal to a specification function. The properties are proved as lemmas about that function.
- `AssertScenarios` and `PropertyMatchScenarios`: the repository's own test scenarios, stated against the specifications.

Two read paths differ in the source, and the model keeps them apart:

- `Assert` reads the properties of the *static* type arguments (`typeof(TExpected)`). There an object is a `TypeInfo` together with an optional value list, and `None` is a null reference.
- `MatchAllProperties` reads the *runtime* type (`GetType()`). There an object is an `Option<Instance>`.

The model assumes every property can be read (see "## Left out"). Under that assumption, these exceptions are modelled as outcomes rather than excluded by preconditions:

- a null subject;
- a null exclusion list (`Enumerable.Contains` raises `ArgumentNullException("source")`);
- a null rename map in `MatchAllProperties`;
- two target properties of one name (`SingleOrDefault`);
- a null subject value (`subjectValue.Equals`);
- reading a property of a null object in `NoPropertiesNullOrDefault`. That raises `TargetException` inside the `try`, so it is collected.

## Model

| member | source | states |
|---|---|---|
| Reflection.Matches | src/Upstream.Testing/Assert.cs:103 | indexes of the properties with a given name: exactly those indexes, strictly increasing |
| Reflection.UniqueMatches | src/Upstream.Testing/Assert.cs:103 | with distinct names, property j is the only one with its name, so `Assert.Single` finds it |
| Reflection.NoMatches | src/Upstream.Testing/Assertions/PropertyMatchAssertions.cs:75-81 | a name no property carries has no match, which is the "could not find" path |
| Reflection.Without | src/Upstream.Testing.Tests/AssertTests.cs:32-38 | removing one element shortens the list by one and shifts later elements down; used for "target lacks a property" |
| Reflection.WithoutUnique | src/Upstream.Testing.Tests/AssertTests.cs:32-38 | removing a property keeps names distinct |
| Reflection.WithoutMatches | src/Upstream.Testing.Tests/AssertTests.cs:32-38 | after removing property k, every other property is found at its shifted index and k's name is not found |
| Gathering.Tally | src/Upstream.Testing/Assert.cs:88-121 | a completed loop collects at most one error per property |
| Gathering.TallyStep | src/Upstream.Testing/Assert.cs:90-121 | one more property is one more loop iteration |
| Gathering.TallyAllClean | src/Upstream.Testing/Assert.cs:88-123 | nothing is collected if and only if every property check is clean |
| Gathering.TallyCompletes | src/Upstream.Testing/Assertions/PropertyMatchAssertions.cs:65-91 | the loop runs to the end if and only if no property check lets an exception escape |
| Gathering.TallyAbortSticks | src/Upstream.Testing/Assertions/PropertyMatchAssertions.cs:65-91 | once an exception escapes, later properties change nothing |
| Gathering.TallyFirstAbort | src/Upstream.Testing/Assert.cs:142-145 | the first escaping exception is the one the caller sees |
| Gathering.TallyPrefix | src/Upstream.Testing/Assert.cs:88-121 | errors collected so far are a prefix of the final list: errors are only appended |
| Gathering.TallyFlagOrder | src/Upstream.Testing/Assert.cs:88-121 | a failing property's error sits in the final list right after the errors of earlier properties (declaration order) |
| Gathering.TallyErrorFlagged | src/Upstream.Testing/Assert.cs:88-121 | every collected error comes from some property's check |
| Gathering.TallyOnlyFlag | src/Upstream.Testing/Assert.cs:88-121 | one failing property among clean ones gives exactly its one error |
| Assert.ThrowIfAnyRoundTrip | src/Upstream.Testing/Assert.cs:167-180 | catching what is raised recovers every exception in order; nothing is raised if and only if the list is empty; a single exception is raised as itself, not wrapped |
| Assert.MappingMessagesIdentify | src/Upstream.Testing/Assert.cs:107-118 | "could not find" and "did not match" messages never coincide, and equal messages of one kind name the same property |
| Assert.FormatMappingErrorMessageInjective | src/Upstream.Testing/Assert.cs:182-185 | two mapping messages between the same types are equal only if they wrap the same message |
| Assert.MappingChecks | src/Upstream.Testing/Assert.cs:90-121 | one check per origin property |
| Assert.MappingCheckCases | src/Upstream.Testing/Assert.cs:92-120 | an excluded property is clean; zero or several targets give "could not find" with that count inside; one target with a different value gives "did not match" naming the looked-up property and both types and carrying the source and the target value; nothing escapes |
| Assert.MappingOutcomeOfTally | src/Upstream.Testing/Assert.cs:71-126 | with all arguments present the loop always completes and ThrowIfAny decides the result |
| Assert.MappingArgumentErrors | src/Upstream.Testing/Assert.cs:73-80 | an ArgumentNullException is raised if and only if one of the four arguments is null |
| Assert.MappingPassedIff | src/Upstream.Testing/Assert.cs:71-126 | returns true if and only if all arguments are present and every origin property's check is clean |
| Assert.AllPropertiesMapped | src/Upstream.Testing/Assert.cs:71-126 | the loop over origin properties, proved equal to its specification |
| Assert.AllPropertiesMappedDefault | src/Upstream.Testing/Assert.cs:20-23 | nothing excluded, nothing renamed |
| Assert.AllPropertiesMappedExcluding | src/Upstream.Testing/Assert.cs:35-53 | the given exclusions, nothing renamed (params array or enumerable) |
| Assert.AllPropertiesMappedTranslating | src/Upstream.Testing/Assert.cs:55-58 | nothing excluded, the given renames |
| Assert.MappingIdentical | src/Upstream.Testing/Assert.cs:71-126 | an object mapped onto itself passes, whatever is excluded, when names are distinct and renames keep every name that is looked up |
| Assert.MappingEquivalent | src/Upstream.Testing/Assert.cs:90-125 | two objects of possibly different types pass when every origin property that is not excluded has exactly one namesake (after renaming) holding an equal value |
| Assert.CheckAgrees | src/Upstream.Testing/Assert.cs:100-120 | one target of the looked-up name with an equal value is clean |
| Assert.CheckDiffers | src/Upstream.Testing/Assert.cs:112-120 | one target with a different value gives "did not match" carrying both values |
| Assert.CheckMissing | src/Upstream.Testing/Assert.cs:100-110 | no target of the looked-up name gives "could not find" with count 0 |
| Assert.MappingSingleError | src/Upstream.Testing/Assert.cs:123 | a single collected error is raised itself, not wrapped |
| Assert.MappingOneValueDiffers | src/Upstream.Testing/Assert.cs:112-123 | objects of one type differing in one value raise exactly that property's "did not match", unwrapped |
| Assert.MappingOneMissing | src/Upstream.Testing/Assert.cs:100-123 | a target lacking one origin property raises exactly that property's "could not find", unwrapped |
| Assert.NullOrDefaultChecks | src/Upstream.Testing/Assert.cs:142-160 | one check per property |
| Assert.NullOrDefaultCheckCases | src/Upstream.Testing/Assert.cs:144-159 | excluded is clean; null object gives TargetException; null value gives NotNull and skips the default check; NotEqual if and only if a non-null value equals the default, only for value types |
| Assert.NullOrDefaultOutcome | src/Upstream.Testing/Assert.cs:135-165 | returns true if and only if there are no properties or every property is excluded or neither null nor default; a null exclusion list with properties raises ArgumentNullException("source") |
| Assert.NoPropertiesNullOrDefault | src/Upstream.Testing/Assert.cs:135-165 | the loop over properties, proved equal to its specification |
| ExceptionExtensions.ThrowIfAnyRoundTrip | src/Upstream.Testing/Extensions/ExceptionExtensions.cs:10-25 | nothing is raised if and only if the list is null or empty; otherwise catching recovers every exception in order |
| ExceptionExtensions.ThrowIfAnyUnwrapsSingle | src/Upstream.Testing/Extensions/ExceptionExtensions.cs:16-19 | one exception is raised as itself |
| ExceptionExtensions.ThrowIfAnyAgrees | src/Upstream.Testing/Extensions/ExceptionExtensions.cs:10-25 | on a non-null list it raises what the private Assert.ThrowIfAny raises |
| PropertyMatchAssertions.PropertyPluralization | src/Upstream.Testing/Assertions/PropertyMatchAssertions.cs:104 | "property" if and only if the count is 1, otherwise "properties" |
| PropertyMatchAssertions.MatchChecks | src/Upstream.Testing/Assertions/PropertyMatchAssertions.cs:65-91 | one check per subject property |
| PropertyMatchAssertions.MatchCheckCases | src/Upstream.Testing/Assertions/PropertyMatchAssertions.cs:65-91 | the per-property cases: excluded is clean; no namesake gives "could not find"; several namesakes raise InvalidOperationException; a null subject value raises NullReferenceException; a different value gives one entry with both values; clean exactly when excluded or the single namesake holds an equal non-null value |
| PropertyMatchAssertions.MatchOutcomeShape | src/Upstream.Testing/Assertions/PropertyMatchAssertions.cs:54-99 | fails up front if and only if the subject is present and the other object is null; a failure's count equals its summary length, is positive, and its noun is "property" exactly when the count is 1 |
| PropertyMatchAssertions.MatchedIff | src/Upstream.Testing/Assertions/PropertyMatchAssertions.cs:52-101 | succeeds if and only if both objects are present and every subject property's check is clean |
| PropertyMatchAssertions.MatchStopped | src/Upstream.Testing/Assertions/PropertyMatchAssertions.cs:65-91 | an escaping exception after clean-or-flagged properties ends the loop with that exception |
| PropertyMatchAssertions.MatchAllProperties | src/Upstream.Testing/Assertions/PropertyMatchAssertions.cs:42-102 | the full assertion with its loop, proved equal to its specification |
| PropertyMatchAssertions.MatchAllPropertiesDefault | src/Upstream.Testing/Assertions/PropertyMatchAssertions.cs:13-20 | nothing excluded, nothing renamed |
| PropertyMatchAssertions.MatchAllPropertiesExcluding | src/Upstream.Testing/Assertions/PropertyMatchAssertions.cs:22-30 | the given exclusions, nothing renamed |
| PropertyMatchAssertions.MatchAllPropertiesTranslating | src/Upstream.Testing/Assertions/PropertyMatchAssertions.cs:32-40 | nothing excluded, the given renames |
| PropertyMatchAssertions.MatchCheckAgrees | src/Upstream.Testing/Assertions/PropertyMatchAssertions.cs:83-90 | one namesake with an equal non-null value is clean |
| PropertyMatchAssertions.MatchCheckDiffers | src/Upstream.Testing/Assertions/PropertyMatchAssertions.cs:83-90 | one namesake with a different value gives "did not match" carrying the subject's and the received value |
| PropertyMatchAssertions.MatchCheckMissing | src/Upstream.Testing/Assertions/PropertyMatchAssertions.cs:75-81 | no namesake gives "could not find" for the looked-up name |
| PropertyMatchAssertions.MatchIdentical | src/Upstream.Testing/Assertions/PropertyMatchAssertions.cs:52-101 | a subject matches itself, whatever is excluded, when the values that are compared are not null and renames keep every name that is looked up |
| PropertyMatchAssertions.MatchSingleEntry | src/Upstream.Testing/Assertions/PropertyMatchAssertions.cs:93-99 | one failing property gives count 1, "property", and that one summary entry |
| PropertyMatchAssertions.MatchOneValueDiffers | src/Upstream.Testing/Assertions/PropertyMatchAssertions.cs:83-99 | one differing value gives exactly that property's entry with both values |
| PropertyMatchAssertions.MatchOneMissing | src/Upstream.Testing/Assertions/PropertyMatchAssertions.cs:75-99 | an other object lacking one property gives exactly that property's "could not find" entry |
| PropertyMatchAssertions.MatchOtherNull | src/Upstream.Testing/Assertions/PropertyMatchAssertions.cs:54-57 | a null other object fails with the message ending in "null" |
| AssertScenarios.MappedSuccess | src/Upstream.Testing.Tests/AssertTests.cs:11-20 | equal single-property objects pass |
| AssertScenarios.MappedDifferentValue | src/Upstream.Testing.Tests/AssertTests.cs:22-29 | a different value raises one TestingException ("did not match") |
| AssertScenarios.MappedMissingProperty | src/Upstream.Testing.Tests/AssertTests.cs:31-38 | a missing target property raises one TestingException ("could not find") |
| AssertScenarios.MappedMultipleErrors | src/Upstream.Testing.Tests/AssertTests.cs:40-51 | two failures raise an aggregate of exactly two TestingExceptions in declaration order |
| AssertScenarios.MappedIgnoredProperty | src/Upstream.Testing.Tests/AssertTests.cs:53-62 | excluding the missing property passes |
| AssertScenarios.MappedTranslatedProperty | src/Upstream.Testing.Tests/AssertTests.cs:64-73 | renaming Foo to Wumbo passes |
| AssertScenarios.NullOrDefaultSuccess | src/Upstream.Testing.Tests/AssertTests.cs:75-83 | a non-null string property passes |
| AssertScenarios.NullOrDefaultNull | src/Upstream.Testing.Tests/AssertTests.cs:85-91 | a null property raises NotNullException |
| AssertScenarios.NullOrDefaultDefault | src/Upstream.Testing.Tests/AssertTests.cs:93-99 | an int property of 0 raises NotEqualException |
| AssertScenarios.NullOrDefaultMultipleErrors | src/Upstream.Testing.Tests/AssertTests.cs:101-111 | null then 0 raise an aggregate of NotNull then NotEqual |
| PropertyMatchScenarios.MatchesSuccess | src/Upstream.Testing.Tests/Assertions/PropertyMatchAssertionsTests.cs:13-23 | equal objects match |
| PropertyMatchScenarios.MatchesPropertyDiffers | src/Upstream.Testing.Tests/Assertions/PropertyMatchAssertionsTests.cs:25-36 | one differing value fails with 1 unmatched "property" |
| PropertyMatchScenarios.MatchesOtherNull | src/Upstream.Testing.Tests/Assertions/PropertyMatchAssertionsTests.cs:38-49 | a null other object fails with a message ending in "null" |

## Left out

- Reading a property never fails in the model. Every property is assumed readable without index arguments, and its getter is assumed to return. In the source, `GetProperties` also lists indexers (`Item`) and set-only properties, and any getter can throw. Then `GetValue` throws, with three outcomes:
  - src/Upstream.Testing/Assert.cs:114 is inside the `try` at 112-120, so the failure is collected as "Value did not match for" that property.
  - src/Upstream.Testing/Assert.cs:149 is inside the `try` at 147-158, so the exception itself is collected.
  - src/Upstream.Testing/Assertions/PropertyMatchAssertions.cs:83-84 has no `try`, so the exception escapes.

  So `Assert.MappingIdentical`, `Assert.MappingEquivalent`, `PropertyMatchAssertions.MatchIdentical` and `Assert.NullOrDefaultOutcome` hold only for types whose properties can all be read this way.
- Reflection itself is left out. `GetProperties` is the ordered property list of a `TypeInfo`. `GetValue` is indexing into the value list. `Activator.CreateInstance` for a value type is the `default` carried by its `Kind`.
- Property values are a small `Value` datatype: null, booleans, integers and strings. Framework equality (`Assert.Equal`, `Assert.NotEqual`, `object.Equals`) is structural equality on it. Floating point values, user `Equals` overrides and nested objects are not modelled.
- A boxed value's runtime type is not kept: `Int` stands for every integral and enum type. In the source, `Int32.Equals(object)` is false for a boxed `long`, and the same holds for an enum against its underlying integer. So `Assert.Equal` at src/Upstream.Testing/Assert.cs:114 and `subjectValue.Equals` at src/Upstream.Testing/Assertions/PropertyMatchAssertions.cs:86 report "did not match" for `Id = 1` (int) against `Id = 1L` (long). The model counts such numerically equal values of different types as equal and passes.
- String comparison differs between the two assertions, and the model uses ordinal equality for both. xUnit's `Assert.Equal` at src/Upstream.Testing/Assert.cs:114 compares through its default equality comparer, which tries `IComparable.CompareTo` before `Equals`; for strings that is a culture-sensitive comparison. So a precomposed "é" (U+00E9) and "e" followed by U+0301 count as equal there. `string.Equals` at src/Upstream.Testing/Assertions/PropertyMatchAssertions.cs:86 calls them unequal, and the model reports a mismatch in both places.
- Exclusions and renames are plain data: a sequence of names and a map, compared by ordinal string equality. In the source, `Enumerable.Contains` at src/Upstream.Testing/Assert.cs:92 and src/Upstream.Testing/Assertions/PropertyMatchAssertions.cs:67 defers to the caller's collection, and `TryGetValue` at src/Upstream.Testing/Assert.cs:95 and src/Upstream.Testing/Assertions/PropertyMatchAssertions.cs:70 is the caller's dictionary. So a collection or dictionary with its own comparer (for example case-insensitive) is not modelled: a `HashSet` with `StringComparer.OrdinalIgnoreCase` holding "baz" skips a property `Baz` in the source, but not in the model. A null rename value is not modelled either; the source then looks up a null name and reports "Could not find matching property for .".
- FluentAssertions plumbing is left out: `because`/`becauseArgs`, `AssertionScope`, the `AndConstraint` return value and the lazy `Given`/`ForCondition` chain. Outside a scope a failure throws at once, and that is the behaviour modelled.
- PropertyMatchAssertions.MatchAllProperties: the rendered text of the failure message is not built. The outcome keeps its parts instead: the count, the noun and the structured summary entries.
- The private `ThrowIfAny` and `FormatMappingErrorMessage` in src/Upstream.Testing/Assertions/PropertyMatchAssertions.cs:106-124 are never called, so they are not modelled. They copy the ones in Assert.cs, which are modelled.
- Assert.ThrowIfAny and ExceptionExtensions.ThrowIfAny: lists are finite, so the difference between `Any()` and `Count()`, and re-enumerating a lazy sequence, is not modelled.
- Exception objects are values. Identity, stack traces and the xUnit message text of `SingleException`, `EqualException`, `NotNullException` and `NotEqualException` are left out; they keep the count or the values they report.
- Type names are strings. The `?.Name` null guard in `FormatMappingErrorMessage` cannot fire, because `typeof` is never null.
- src/Upstream.Testing/TestBase.cs (mocking with Moq) and the `TestingException` constructors beyond message plus inner exception are not part of this model.
