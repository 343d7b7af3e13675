/** The five outcome codes a testharness page reports for itself and for each
    of its sub-tests, and how the event stream classifies a code. */
module Outcome {
  import opened Wrappers

  /** The frozen `Status` table of the result stream. */
  datatype Status = PASS | FAIL | TIMEOUT | NOTRUN | PRECONDITION_FAILED {

    /** The numeric code a page uses for this outcome: one code per
        outcome, 0 to 4 in table order. */
    function Code(): (c: int)
      ensures 0 <= c <= 4
      ensures c == 0 <==> this == PASS
      ensures c == 1 <==> this == FAIL
      ensures c == 2 <==> this == TIMEOUT
      ensures c == 3 <==> this == NOTRUN
      ensures c == 4 <==> this == PRECONDITION_FAILED
    {
      match this
      case PASS => 0
      case FAIL => 1
      case TIMEOUT => 2
      case NOTRUN => 3
      case PRECONDITION_FAILED => 4
    }
  }

  /** The outcome a numeric code stands for; codes outside the table stand
      for none (the stream still classifies them, as a failure). */
  function FromCode(code: int): (s: Option<Status>)
    ensures s.Some? <==> 0 <= code <= 4
    ensures s.Some? ==> s.value.Code() == code
  {
    if code == 0 then Some(PASS)
    else if code == 1 then Some(FAIL)
    else if code == 2 then Some(TIMEOUT)
    else if code == 3 then Some(NOTRUN)
    else if code == 4 then Some(PRECONDITION_FAILED)
    else None
  }

  /** The encoding is a bijection between the five outcomes and 0..4. */
  lemma CodeRoundTrip(s: Status, t: Status)
    ensures FromCode(s.Code()) == Some(s)
    ensures s.Code() == t.Code() ==> s == t
  {
  }

  const OptionalFeatureUnsupported := "Optional Feature Unsupported"
  const NotRunReason := "Not Run"

  /** Codes the stream reports as `test:pass`: exactly PASS and
      PRECONDITION_FAILED (an unsupported optional feature is a skip, not a
      failure). Every other value, in or out of the table, is a failure. */
  predicate IsPassing(code: int) {
    code == PASS.Code() || code == PRECONDITION_FAILED.Code()
  }

  /** The `skip` reason attached to a verdict for `code`. */
  function SkipReason(code: int): (r: Option<string>)
    ensures r == Some(OptionalFeatureUnsupported) <==> FromCode(code) == Some(PRECONDITION_FAILED)
    ensures r == Some(NotRunReason) <==> FromCode(code) == Some(NOTRUN)
    ensures r.None? <==> FromCode(code) !in {Some(NOTRUN), Some(PRECONDITION_FAILED)}
  {
    if code == PRECONDITION_FAILED.Code() then Some(OptionalFeatureUnsupported)
    else if code == NOTRUN.Code() then Some(NotRunReason)
    else None
  }

  /** Passing is decided by the outcome a code stands for, and a skip reason
      on a passing code always means an unsupported optional feature. */
  lemma PassingOutcomes(code: int)
    ensures IsPassing(code) <==> FromCode(code) in {Some(PASS), Some(PRECONDITION_FAILED)}
    ensures IsPassing(code) && SkipReason(code).Some? ==> SkipReason(code) == Some(OptionalFeatureUnsupported)
    ensures !IsPassing(code) && SkipReason(code).Some? ==> SkipReason(code) == Some(NotRunReason)
  {
  }
}
