/**
 * The compile-check collaborator: a result record with a three-way human
 * summary, and a stub runner that accepts every design.
 */
module CompileCheck {
  import opened Common

  /** The success text; its dash is U+2013 (EN DASH). */
  const SuccessSummary: string := "Compilation succeeded (stub " + "\U{2013}" + " no real checks performed yet)."
  const FailurePrefix: string := "Compilation failed (stub). Errors:\n"
  const BareFailureSummary: string := "Compilation failed (stub)."

  datatype CompileCheckResult = CompileCheckResult(ok: bool, errors: Option<string>)

  /** `CompileCheckResult(ok)`: `errors` defaults to `None`. */
  function NewResult(ok: bool): (r: CompileCheckResult)
    ensures r.ok == ok && r.errors.None?
  {
    CompileCheckResult(ok, None)
  }

  /** `errors` is truthy: present and non-empty. */
  predicate HasErrors(r: CompileCheckResult) {
    r.errors.Some? && r.errors.value != ""
  }

  /** `CompileCheckResult.to_human_summary`. */
  function ToHumanSummary(r: CompileCheckResult): (s: string)
    ensures r.ok ==> s == SuccessSummary
    ensures !r.ok && HasErrors(r) ==> s == FailurePrefix + r.errors.value
    ensures !r.ok && !HasErrors(r) ==> s == BareFailureSummary
  {
    if r.ok then SuccessSummary
    else if HasErrors(r) then FailurePrefix + r.errors.value
    else BareFailureSummary
  }

  /** The summary tells success from failure, and a failure with errors gives the error text back. */
  lemma SummaryDistinguishes(r: CompileCheckResult, r': CompileCheckResult)
    ensures ToHumanSummary(r) == SuccessSummary <==> r.ok
    ensures !r.ok && HasErrors(r) ==> FailurePrefix <= ToHumanSummary(r)
    ensures !r.ok && !r'.ok && HasErrors(r) && HasErrors(r') && ToHumanSummary(r) == ToHumanSummary(r')
            ==> r.errors == r'.errors
  {
    var s := ToHumanSummary(r);
    assert SuccessSummary[12] == 's';
    if !r.ok && HasErrors(r) {
      assert s[12] == FailurePrefix[12] == 'f';
    } else if !r.ok {
      assert s[12] == BareFailureSummary[12] == 'f';
    }
    if !r.ok && !r'.ok && HasErrors(r) && HasErrors(r') && s == ToHumanSummary(r') {
      assert r.errors.value == s[|FailurePrefix|..] == r'.errors.value;
    }
  }

  /** `CompileCheckRunner.run`: the stub ignores its inputs and reports success. */
  function Run(filePaths: seq<string>, topName: string): (r: CompileCheckResult)
    ensures r.ok && r.errors.None?
    ensures ToHumanSummary(r) == SuccessSummary
  {
    CompileCheckResult(true, None)
  }
}
