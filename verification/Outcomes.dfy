/** How a contract check ends. */
module Outcomes {

  /** Why a contract was refused; the explanatory texts are not kept. */
  datatype Error =
    | CapabilityMismatch(what: string)
    | InvariantViolation
    | SecurityUnenforceable
    | SourceConfigInvalid
    | EvidencePolicyMismatch
    | EvidenceSubjectMismatch
    | InvalidRefinement
    | GenerationPolicyConflict
    | InvalidRef
    | InvalidNumber

  datatype Result<+T> = Ok(value: T) | Err(error: Error) {
    predicate IsFailure() { Err? }

    function PropagateFailure<U>(): Result<U>
      requires Err?
    {
      Err(error)
    }

    function Extract(): T
      requires Ok?
    {
      value
    }
  }

  datatype Check = Pass | Fail(error: Error) {
    /** Go on to the next check only when this one passed. */
    function Then(next: Check): Check {
      if Pass? then next else this
    }
  }

  /** A check that refuses with `error` when `broken`. */
  function Unless(broken: bool, error: Error): Check {
    if broken then Fail(error) else Pass
  }

  /** A loop of checks that stops at the first failure. */
  function CheckEach<T>(list: seq<T>, check: T -> Check): (c: Check)
    ensures c.Pass? <==> forall i | 0 <= i < |list| :: check(list[i]).Pass?
  {
    if list == [] then Pass
    else if check(list[0]).Fail? then check(list[0])
    else CheckEach(list[1..], check)
  }
}
