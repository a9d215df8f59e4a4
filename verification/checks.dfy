/** What a check consumes and produces. */
module Checks {
  import opened Outcomes
  import opened TimedObjects

  /** One reported problem: the object and the reason shown for it (C# allows
      a null reason). */
  datatype Problem = Problem(obj: TimedObject, reason: Option<string>)

  /** A committed check result: errors, warnings, and the navigable list of
      all problems. */
  datatype CheckResult = CheckResult(errors: seq<Problem>, warnings: seq<Problem>, all: seq<Problem>)

  /** What `CheckResult.Clear` leaves: no problems at all. */
  const Cleared: CheckResult := CheckResult([], [], [])

  /** A parameter value as handed to the check: the raw text its parser was
      given, or the null string value an unrecognised widget yields. */
  datatype ParamValue = ParsedFrom(text: string) | NullValue

  datatype CheckParam = CheckParam(name: string)

  /** The arguments of `PerformCheck`, in its parameter order. */
  datatype CheckInput = CheckInput(
    notes: seq<TimedObject>,
    bombs: seq<TimedObject>,
    arcs: seq<TimedObject>,
    chains: seq<TimedObject>,
    events: seq<TimedObject>,
    walls: seq<TimedObject>,
    customEvents: seq<TimedObject>,
    bpmEvents: seq<TimedObject>,
    vals: seq<(string, ParamValue)>)

  /** A check: its name, its declared parameters and the result object it
      reuses between runs. */
  datatype Check = Check(name: string, params: seq<CheckParam>, result: CheckResult)
}
