/** The scenarios of the repository's tests for `MatchAllProperties`, with nothing excluded or renamed. */
module PropertyMatchScenarios {

  import opened Wrappers
  import opened Reflection
  import opened Gathering
  import opened PropertyMatchAssertions

  function Anonymous(name: string, value: string): Instance {
    Instance(TypeInfo("", [PropertyInfo(name, ReferenceType)]), [Str(value)])
  }

  /** `{ Foo = "Bar" }` matches `{ Foo = "Bar" }`. */
  lemma MatchesSuccess()
    ensures MatchOutcomeOf(Some(Anonymous("Foo", "Bar")), Some(Anonymous("Foo", "Bar")), Some([]), Some(map[]))
         == Matched
  {
    assert Matches(Anonymous("Foo", "Bar").info.properties, "Foo") == [0];
    assert MatchCheck(Anonymous("Foo", "Bar"), Anonymous("Foo", "Bar"), Some([]), Some(map[]), 0).Clean?;
  }

  /** `{ Foo = "Bar" }` against `{ Foo = "Foo?" }` fails with 1 unmatched "property". */
  lemma MatchesPropertyDiffers()
    ensures MatchOutcomeOf(Some(Anonymous("Foo", "Bar")), Some(Anonymous("Foo", "Foo?")), Some([]), Some(map[]))
         == Unmatched(1, "property", [ValueDidNotMatch("Foo", Str("Bar"), Str("Foo?"))])
  {
    var subject, other := Anonymous("Foo", "Bar"), Anonymous("Foo", "Foo?");
    assert Matches(other.info.properties, "Foo") == [0];
    var checks := MatchChecks(subject, other, Some([]), Some(map[]));
    assert checks[0] == Flag(ValueDidNotMatch("Foo", Str("Bar"), Str("Foo?")));
    TallyOnlyFlag(checks, 0);
  }

  /** `{ Foo = "Bar" }` against null fails with a message about null. */
  lemma MatchesOtherNull()
    ensures var r := MatchOutcomeOf(Some(Anonymous("Foo", "Bar")), None, Some([]), Some(map[]));
            r.OtherIsNull? && r.message[|r.message| - 4..] == "null"
  {
    MatchOtherNull(Anonymous("Foo", "Bar"), Some([]), Some(map[]));
  }
}
