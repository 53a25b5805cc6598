/** The values shared by the controllers: clock, conditions, check results and the status of a
    CheckNodeHealth resource. */
module Api {

  /** Instants and durations, in nanoseconds. */
  type Time = int

  const SECOND: Time := 1_000_000_000
  const MINUTE: Time := 60 * SECOND
  const HOUR: Time := 60 * MINUTE

  datatype Option<+T> = None | Some(value: T)

  datatype CheckStatus = Healthy | Unhealthy | Unknown

  datatype CheckResult = CheckResult(name: string, status: CheckStatus, message: string, errorCode: string)

  datatype ConditionStatus = ConditionTrue | ConditionFalse | ConditionUnknown

  datatype Condition = Condition(
    kind: string,
    status: ConditionStatus,
    reason: string,
    message: string,
    lastTransitionTime: Time)

  /** The status subresource of a CheckNodeHealth resource. */
  datatype Status = Status(
    startedAt: Option<Time>,
    finishedAt: Option<Time>,
    conditions: seq<Condition>,
    results: seq<CheckResult>)

  const EMPTY_STATUS := Status(None, None, [], [])

  function Names(results: seq<CheckResult>): seq<string> {
    seq(|results|, i requires 0 <= i < |results| => results[i].name)
  }

  predicate HasResult(results: seq<CheckResult>, name: string) {
    exists r :: r in results && r.name == name
  }
}
