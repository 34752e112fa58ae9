/** The scenarios exercised by the module's tests, as methods over a console. */
module EnumsTests {
  import opened JsValues
  import opened Enums

  /** `printSkills(Skills.Typescript)` logs `"Typescript"`, exactly once. */
  method ShouldAcceptOnlyEnumValues(console: Console)
    modifies console
    ensures console.log == old(console.log) + [Str("Typescript")]
    ensures Str("Typescript") in console.log
  {
    PrintSkills(console, Get(Skills, "Typescript"));
  }

  /** `printStatus("loading"); printStatus(STATUS.LOADED)`: both are values
      of `STATUS`, not keys, so nothing is logged and nothing fails. */
  method ShouldBeCallableByString(console: Console)
    modifies console
    ensures console.log == old(console.log)
  {
    PrintStatus(console, Str("loading"));
    StatusValuesRejected("LOADED");
    PrintStatus(console, Get(STATUS, "LOADED"));
  }
}
