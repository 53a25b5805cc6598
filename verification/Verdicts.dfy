/** How a list of check results becomes the overall Healthy condition
    (determineHealthyCondition and formatResultsMessage). */
module Verdicts {
  import opened Api

  const POD_STARTUP := "PodStartup"
  const POD_NETWORK := "PodNetwork"
  const REQUIRED_RESULTS: seq<string> := [POD_STARTUP, POD_NETWORK]

  const HEALTHY := "Healthy"
  const REASON_STARTED := "CheckStarted"
  const REASON_PASSED := "CheckPassed"
  const REASON_FAILED := "CheckFailed"
  const REASON_UNKNOWN := "CheckUnknown"

  // ----- The meaning of a result list -----

  predicate AnyWith(results: seq<CheckResult>, status: CheckStatus) {
    exists r :: r in results && r.status == status
  }

  predicate AllHealthy(results: seq<CheckResult>) {
    forall r :: r in results ==> r.status == Healthy
  }

  predicate AllRequiredPresent(results: seq<CheckResult>) {
    forall name :: name in REQUIRED_RESULTS ==> HasResult(results, name)
  }

  /** The documented rule: one bad result condemns; only a complete all-good list acquits. */
  function Verdict(results: seq<CheckResult>): ConditionStatus {
    if AnyWith(results, Unhealthy) then ConditionFalse
    else if AllHealthy(results) && AllRequiredPresent(results) then ConditionTrue
    else ConditionUnknown
  }

  function ReasonOf(verdict: ConditionStatus): string {
    match verdict
    case ConditionTrue => REASON_PASSED
    case ConditionFalse => REASON_FAILED
    case ConditionUnknown => REASON_UNKNOWN
  }

  /** What status and reason say of the list itself: one Unhealthy result makes it False, and it is True
      exactly for a list of Healthy results in which pod startup and pod network both occur. */
  ghost predicate Judged(results: seq<CheckResult>, status: ConditionStatus, reason: string) {
    && (status == ConditionFalse <==> exists i :: 0 <= i < |results| && results[i].status == Unhealthy)
    && (status == ConditionTrue <==>
          && (forall i :: 0 <= i < |results| ==> results[i].status == Healthy)
          && (exists i :: 0 <= i < |results| && results[i].name == "PodStartup")
          && (exists i :: 0 <= i < |results| && results[i].name == "PodNetwork"))
    && (status == ConditionFalse ==> reason == "CheckFailed")
    && (status == ConditionTrue ==> reason == "CheckPassed")
    && (status == ConditionUnknown ==> reason == "CheckUnknown")
  }

  lemma VerdictMeans(results: seq<CheckResult>)
    ensures Judged(results, Verdict(results), ReasonOf(Verdict(results)))
  {
    assert REQUIRED_RESULTS[0] == "PodStartup" && REQUIRED_RESULTS[1] == "PodNetwork";
    assert forall name :: name in REQUIRED_RESULTS <==> name == "PodStartup" || name == "PodNetwork";
    AnIndexHas(results, "PodStartup");
    AnIndexHas(results, "PodNetwork");
    assert AllRequiredPresent(results) <==> HasResult(results, "PodStartup") && HasResult(results, "PodNetwork");
    assert AllHealthy(results) <==> forall i :: 0 <= i < |results| ==> results[i].status == Healthy;
  }

  lemma AnIndexHas(results: seq<CheckResult>, name: string)
    ensures HasResult(results, name) <==> exists i :: 0 <= i < |results| && results[i].name == name
  {
    if i :| 0 <= i < |results| && results[i].name == name {
      assert results[i] in results;
    }
  }

  /** The order in which a runner lists its results (Go map iteration order) cannot matter. */
  lemma VerdictIgnoresOrder(a: seq<CheckResult>, b: seq<CheckResult>)
    requires multiset(a) == multiset(b)
    ensures Verdict(a) == Verdict(b)
  {
    assert forall r :: r in a <==> r in multiset(a);
    assert forall r :: r in b <==> r in multiset(b);
    assert forall name :: HasResult(a, name) <==> HasResult(b, name);
  }

  /** A late report can never acquit a node that was already condemned, and can only turn True
      into something else by reporting a result that is not Healthy. */
  lemma VerdictUnderAppend(results: seq<CheckResult>, more: seq<CheckResult>)
    ensures Verdict(results) == ConditionFalse ==> Verdict(results + more) == ConditionFalse
    ensures Verdict(results) == ConditionTrue ==>
              (Verdict(results + more) == ConditionTrue <==> AllHealthy(more))
  {
    var all := results + more;
    assert forall r :: r in all <==> r in results || r in more;
    assert forall name :: HasResult(results, name) ==> HasResult(all, name);
  }

  // ----- The code that computes it -----

  method HasResultWithStatus(results: seq<CheckResult>, status: CheckStatus) returns (found: bool)
    ensures found <==> AnyWith(results, status)
  {
    for i := 0 to |results|
      invariant forall j :: 0 <= j < i ==> results[j].status != status
    {
      if results[i].status == status {
        return true;
      }
    }
    return false;
  }

  method AllResultsHealthy(results: seq<CheckResult>) returns (all: bool)
    ensures all <==> AllHealthy(results)
  {
    for i := 0 to |results|
      invariant forall j :: 0 <= j < i ==> results[j].status == Healthy
    {
      if results[i].status != Healthy {
        return false;
      }
    }
    return true;
  }

  method FindResult(results: seq<CheckResult>, name: string) returns (found: bool, result: Option<CheckResult>)
    ensures found <==> HasResult(results, name)
    ensures found <==> result.Some?
    ensures found ==> result.value in results && result.value.name == name
  {
    for i := 0 to |results|
      invariant forall j :: 0 <= j < i ==> results[j].name != name
    {
      if results[i].name == name {
        return true, Some(results[i]);
      }
    }
    return false, None;
  }

  /** The required names that no result carries, in the order they are required. */
  function MissingFrom(required: seq<string>, results: seq<CheckResult>): seq<string> {
    if required == [] then []
    else (if HasResult(results, required[0]) then [] else [required[0]]) + MissingFrom(required[1..], results)
  }

  function Missing(results: seq<CheckResult>): seq<string> {
    MissingFrom(REQUIRED_RESULTS, results)
  }

  lemma {:induction false} MissingFromSnoc(required: seq<string>, name: string, results: seq<CheckResult>)
    ensures MissingFrom(required + [name], results) ==
            MissingFrom(required, results) + (if HasResult(results, name) then [] else [name])
  {
    if required == [] {
      assert [name][1..] == [];
    } else {
      MissingFromSnoc(required[1..], name, results);
      assert (required + [name])[1..] == required[1..] + [name];
    }
  }

  lemma {:induction false} MissingFromMembers(required: seq<string>, results: seq<CheckResult>, name: string)
    ensures name in MissingFrom(required, results) <==> name in required && !HasResult(results, name)
  {
    if required != [] {
      MissingFromMembers(required[1..], results, name);
    }
  }

  method FindMissingResult(results: seq<CheckResult>) returns (missed: seq<string>)
    ensures missed == Missing(results)
    ensures missed == [] <==> AllRequiredPresent(results)
  {
    missed := [];
    for i := 0 to |REQUIRED_RESULTS|
      invariant missed == MissingFrom(REQUIRED_RESULTS[..i], results)
    {
      var found, _ := FindResult(results, REQUIRED_RESULTS[i]);
      MissingFromSnoc(REQUIRED_RESULTS[..i], REQUIRED_RESULTS[i], results);
      assert REQUIRED_RESULTS[..i + 1] == REQUIRED_RESULTS[..i] + [REQUIRED_RESULTS[i]];
      if !found {
        missed := missed + [REQUIRED_RESULTS[i]];
      }
    }
    assert REQUIRED_RESULTS[..|REQUIRED_RESULTS|] == REQUIRED_RESULTS;
    forall name ensures name in missed <==> name in REQUIRED_RESULTS && !HasResult(results, name) {
      MissingFromMembers(REQUIRED_RESULTS, results, name);
    }
    if missed != [] {
      assert missed[0] in missed;
    }
  }

  function StatusText(status: CheckStatus): string {
    match status
    case Healthy => "Healthy"
    case Unhealthy => "Unhealthy"
    case Unknown => "Unknown"
  }

  function ResultLine(r: CheckResult): string {
    r.name + ": " + StatusText(r.status)
  }

  function MissingLine(name: string): string {
    name + ": Missing"
  }

  function ResultLines(results: seq<CheckResult>): seq<string> {
    seq(|results|, i requires 0 <= i < |results| => ResultLine(results[i]))
  }

  function MissingLines(names: seq<string>): seq<string> {
    seq(|names|, i requires 0 <= i < |names| => MissingLine(names[i]))
  }

  function Join(lines: seq<string>): string {
    if |lines| == 0 then ""
    else if |lines| == 1 then lines[0]
    else lines[0] + "\n" + Join(lines[1..])
  }

  function Message(results: seq<CheckResult>): string {
    Join(ResultLines(results) + MissingLines(Missing(results)))
  }

  /** A line for each result in order, then one for each of the two required results that is missing. */
  ghost predicate Spelt(results: seq<CheckResult>, lines: seq<string>) {
    && |lines| >= |results|
    && (forall i :: 0 <= i < |results| ==>
          lines[i] == results[i].name + (match results[i].status case Healthy => ": Healthy" case Unhealthy => ": Unhealthy" case Unknown => ": Unknown"))
    && lines[|results|..] == (if HasResult(results, "PodStartup") then [] else ["PodStartup: Missing"])
                             + (if HasResult(results, "PodNetwork") then [] else ["PodNetwork: Missing"])
  }

  lemma MessageSpelt(results: seq<CheckResult>)
    ensures Spelt(results, ResultLines(results) + MissingLines(Missing(results)))
  {
    var missing := (if HasResult(results, "PodStartup") then [] else ["PodStartup"]) + (if HasResult(results, "PodNetwork") then [] else ["PodNetwork"]);
    assert REQUIRED_RESULTS[1..][1..] == [];
    assert MissingFrom(REQUIRED_RESULTS[1..], results) == if HasResult(results, "PodNetwork") then [] else ["PodNetwork"];
    assert Missing(results) == missing;
    assert MissingLine("PodStartup") == "PodStartup: Missing" && MissingLine("PodNetwork") == "PodNetwork: Missing";
    assert MissingLines(missing) == (if HasResult(results, "PodStartup") then [] else ["PodStartup: Missing"])
                                    + (if HasResult(results, "PodNetwork") then [] else ["PodNetwork: Missing"]);
    var lines := ResultLines(results) + MissingLines(missing);
    assert lines[|results|..] == MissingLines(missing);
    forall i | 0 <= i < |results|
      ensures lines[i] == results[i].name + (match results[i].status case Healthy => ": Healthy" case Unhealthy => ": Unhealthy" case Unknown => ": Unknown")
    {
      assert lines[i] == ResultLine(results[i]);
    }
  }

  method FormatResultsMessage(results: seq<CheckResult>) returns (message: string)
    ensures message == Message(results)
    ensures exists lines :: Spelt(results, lines) && message == Join(lines)
  {
    MessageSpelt(results);
    var lines: seq<string> := [];
    for i := 0 to |results|
      invariant lines == ResultLines(results[..i])
    {
      lines := lines + [ResultLine(results[i])];
    }
    assert results[..|results|] == results;
    var missing := FindMissingResult(results);
    for i := 0 to |missing|
      invariant lines == ResultLines(results) + MissingLines(missing[..i])
    {
      lines := lines + [MissingLine(missing[i])];
    }
    assert missing[..|missing|] == missing;
    message := Join(lines);
  }

  /** The rules run in the order Unhealthy, Unknown, missing, all healthy; the fall-through that
      follows them is dead for the three statuses of the CRD. */
  method DetermineHealthyCondition(results: seq<CheckResult>)
    returns (status: ConditionStatus, reason: string, message: string)
    ensures status == Verdict(results) && reason == ReasonOf(status) && message == Message(results)
    ensures Judged(results, status, reason)
  {
    VerdictMeans(results);
    message := FormatResultsMessage(results);
    var unhealthy := HasResultWithStatus(results, Unhealthy);
    if unhealthy {
      return ConditionFalse, REASON_FAILED, message;
    }
    var unknown := HasResultWithStatus(results, Unknown);
    if unknown {
      return ConditionUnknown, REASON_UNKNOWN, message;
    }
    var missing := FindMissingResult(results);
    if |missing| > 0 {
      return ConditionUnknown, REASON_UNKNOWN, message;
    }
    var all := AllResultsHealthy(results);
    if all {
      return ConditionTrue, REASON_PASSED, message;
    }
    assert false;
    return ConditionUnknown, REASON_UNKNOWN, message;
  }
}
