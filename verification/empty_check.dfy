/** The placeholder check shown before a real one is selected. */
module EmptyCheck {
  import opened Checks

  /** The base constructor given only a name: no parameters, and a result
      object that starts cleared. */
  function New(): (c: Check)
    ensures c.name == "Select a check"
    ensures c.params == []
  {
    Check("Select a check", [], Cleared)
  }

  /** The check after the call, and the result it returned. */
  datatype Performed = Performed(check: Check, result: CheckResult)

  /** Clears the check's own result object and returns that object. */
  function PerformCheck(c: Check, input: CheckInput): (p: Performed)
    ensures p.result == p.check.result
    ensures p.result.errors == [] && p.result.warnings == [] && p.result.all == []
    ensures p.check.name == c.name && p.check.params == c.params
  {
    var cleared := c.(result := Cleared);
    Performed(cleared, cleared.result)
  }

  /** The outcome does not depend on the object lists or the parameters. */
  lemma Independent(c: Check, a: CheckInput, b: CheckInput)
    ensures PerformCheck(c, a) == PerformCheck(c, b)
  {
  }

  /** Running it again changes nothing. */
  lemma Idempotent(c: Check, a: CheckInput, b: CheckInput)
    ensures PerformCheck(PerformCheck(c, a).check, b) == PerformCheck(c, a)
  {
  }
}
