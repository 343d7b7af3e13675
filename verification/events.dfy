/** The records the result stream publishes, one per `dispatchEvent` call. */
module Events {
  import opened Wrappers
  import opened Outcome

  /** Nesting depth of a suite (one test document). */
  const SuiteLevel: nat := 0
  /** Nesting depth of a sub-test inside a document. */
  const TestLevel: nat := 1

  /** One `{ type, data }` record. The `column` and `line` fields are always 0
      and are left implicit; a verdict's `details` is `{ type: "suite" }` at
      the suite level and `{}` at the test level, so it follows from
      `nesting`. */
  datatype Event =
    | Start(nesting: nat, name: string, file: string)
    | Plan(file: string, count: nat)
    | Pass(nesting: nat, name: string, file: string, skip: Option<string>, testNumber: nat)
    | Fail(nesting: nat, name: string, file: string, skip: Option<string>, testNumber: nat)
  {
    /** The event's `type` string. */
    function Type(): string {
      match this
      case Start(_, _, _) => "test:start"
      case Plan(_, _) => "test:plan"
      case Pass(_, _, _, _, _) => "test:pass"
      case Fail(_, _, _, _, _) => "test:fail"
    }
  }

  /** The `test:pass` or `test:fail` record that reports `code` for a suite
      or a sub-test, stamped with `testNumber`. */
  function Verdict(nesting: nat, name: string, file: string, code: int, testNumber: nat): (e: Event)
    ensures e.Pass? || e.Fail?
    ensures e.Pass? <==> FromCode(code) in {Some(PASS), Some(PRECONDITION_FAILED)}
    ensures e.Type() == "test:pass" <==> FromCode(code) in {Some(PASS), Some(PRECONDITION_FAILED)}
    ensures e.Type() == "test:fail" <==> FromCode(code) !in {Some(PASS), Some(PRECONDITION_FAILED)}
    ensures e.nesting == nesting && e.name == name && e.file == file
    ensures e.testNumber == testNumber
    ensures e.skip == Some(OptionalFeatureUnsupported) <==> FromCode(code) == Some(PRECONDITION_FAILED)
    ensures e.skip == Some(NotRunReason) <==> FromCode(code) == Some(NOTRUN)
    ensures e.skip.None? <==> FromCode(code) !in {Some(NOTRUN), Some(PRECONDITION_FAILED)}
  {
    PassingOutcomes(code);
    if IsPassing(code) then Pass(nesting, name, file, SkipReason(code), testNumber)
    else Fail(nesting, name, file, SkipReason(code), testNumber)
  }
}
