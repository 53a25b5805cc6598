/** The process inside a checker pod: it runs its checkers, then appends their results to the
    resource in one status update. Its steps are the runner's steps of the protocol. */
module NodeCheckerRunner {
  import opened Api
  import opened Verdicts
  import opened CheckProtocol
  import opened CheckSafety
  import opened CheckTheorems
  import opened ApiServer
  import opened Reconciler

  const MAX_RETRY_ATTEMPTS := 3

  datatype CheckerStatus = StatusHealthy | StatusUnhealthy | StatusUnknown | StatusSkipped

  datatype CheckerResult = CheckerResult(status: CheckerStatus, code: string, message: string)

  /** What a checker returns when it is run once: a result, or an error. */
  datatype Attempt = Returned(result: CheckerResult) | Raised(error: string)

  function ConvertStatus(status: CheckerStatus): CheckStatus {
    match status
    case StatusHealthy => Healthy
    case StatusUnhealthy => Unhealthy
    case _ => Unknown
  }

  function Converted(name: string, r: CheckerResult): CheckResult {
    CheckResult(name, ConvertStatus(r.status), r.message, r.code)
  }

  function FailedAfterRetries(error: string): CheckerResult {
    CheckerResult(StatusUnknown, "", "Checker failed after 3 attempts: " + error)
  }

  /** The first attempt that returns decides; if none does, the outcome is unknown. */
  ghost predicate Settles(attempts: seq<Attempt>, result: CheckerResult) {
    if exists i :: 0 <= i < |attempts| && attempts[i].Returned?
    then exists i :: 0 <= i < |attempts| && attempts[i] == Returned(result) && forall j :: 0 <= j < i ==> attempts[j].Raised?
    else result.status == StatusUnknown
  }

  /** The result stored for a checker: named PodNetwork, and taken from the first attempt that returned, with
      its message and code, Healthy and Unhealthy as it said and Unknown for anything else. */
  ghost predicate Reflects(attempts: seq<Attempt>, r: CheckResult) {
    && r.name == "PodNetwork"
    && if forall i :: 0 <= i < |attempts| ==> attempts[i].Raised? then r.status == Unknown
       else exists i :: 0 <= i < |attempts| && attempts[i].Returned? && TakenFrom(attempts[i].result, r)
                        && forall j :: 0 <= j < i ==> attempts[j].Raised?
  }

  predicate TakenFrom(result: CheckerResult, r: CheckResult) {
    && r.message == result.message && r.errorCode == result.code
    && (r.status == Healthy <==> result.status.StatusHealthy?)
    && (r.status == Unhealthy <==> result.status.StatusUnhealthy?)
  }

  lemma SettledReflects(attempts: seq<Attempt>, result: CheckerResult)
    requires Settles(attempts, result)
    ensures Reflects(attempts, Converted("PodNetwork", result))
  {
    if exists i :: 0 <= i < |attempts| && attempts[i].Returned? {
      var i :| 0 <= i < |attempts| && attempts[i] == Returned(result) && forall j :: 0 <= j < i ==> attempts[j].Raised?;
      assert TakenFrom(attempts[i].result, Converted("PodNetwork", result));
    }
  }

  /** The update of the resource has appended one result, which reflects the attempts. */
  ghost predicate Stores(was: Cnh, now: Cnh, attempts: seq<Attempt>) {
    && now == was.(rv := now.rv, status := was.status.(results := now.status.results))
    && |now.status.results| == |was.status.results| + 1
    && was.status.results <= now.status.results
    && Reflects(attempts, now.status.results[|was.status.results|])
  }

  /** attempts says what each run of the checker would return. */
  method RunChecker(attempts: seq<Attempt>) returns (result: CheckerResult)
    requires |attempts| == MAX_RETRY_ATTEMPTS
    ensures Settles(attempts, result)
  {
    var error := "";
    for i := 0 to MAX_RETRY_ATTEMPTS
      invariant forall j :: 0 <= j < i ==> attempts[j].Raised?
    {
      if attempts[i].Returned? {
        return attempts[i].result;
      }
      error := attempts[i].error;
    }
    return FailedAfterRetries(error);
  }

  /** Appends one result per entry, in whatever order the map is iterated. */
  method AppendResults(cnh: CheckNodeHealth, results: map<string, CheckerResult>) returns (ghost added: seq<CheckResult>)
    modifies cnh`results
    ensures cnh.results == old(cnh.results) + added
    ensures multiset(Names(added)) == multiset(results.Keys)
    ensures forall r :: r in added ==> r.name in results && r == Converted(r.name, results[r.name])
  {
    added := [];
    var todo := results.Keys;
    while todo != {}
      invariant todo <= results.Keys
      invariant cnh.results == old(cnh.results) + added
      invariant multiset(Names(added)) == multiset(results.Keys - todo)
      invariant forall r :: r in added ==> r.name in results && r == Converted(r.name, results[r.name])
    {
      var checkerName :| checkerName in todo;
      var r := Converted(checkerName, results[checkerName]);
      cnh.results := cnh.results + [r];
      assert Names(added + [r]) == Names(added) + [checkerName];
      assert results.Keys - (todo - {checkerName}) == (results.Keys - todo) + {checkerName};
      added := added + [r];
      todo := todo - {checkerName};
    }
    assert results.Keys - {} == results.Keys;
  }

  // ----- Running beside the rest of the world -----

  /** An action of runner uid itself. */
  predicate Mine(a: Action, uid: nat) {
    match a
    case RunnerFetches(u) => u == uid
    case RunnerReports(u, _, _) => u == uid
    case RunnerDies(u) => u == uid
    case _ => false
  }

  lemma OthersLeaveRunner(s: State, a: Action, uid: nat)
    requires Inv(s) && uid in s.runners && !Mine(a, uid)
    ensures uid in Step(s, a).runners && Step(s, a).runners[uid] == s.runners[uid]
  {
    assert uid <= s.last;
    hide Inv;
    if Actor(a).None? {
      EnvironmentLeavesRunner(s, a, uid);
    } else {
      WorkerLeavesRunner(s, a, uid);
    }
  }

  lemma EnvironmentLeavesRunner(s: State, a: Action, uid: nat)
    requires uid in s.runners && !Mine(a, uid) && Actor(a).None?
    ensures uid in Environment(s, a).runners && Environment(s, a).runners[uid] == s.runners[uid]
  {
    hide Stored, ReportOf, PodCompleted, Deleted, PodDeleted, DoRunnerReports;
    match a
    case UserDeletes(name) => DeletesLeaveRunners(s, name);
    case PodEvicted(name) => DeletesLeaveRunners(s, name);
    case RunnerReports(u, results, reply) => ReportLeavesOthers(s, u, results, reply, uid);
    case _ =>
  }

  lemma ReportLeavesOthers(s: State, u: nat, results: seq<CheckResult>, reply: Reply, uid: nat)
    requires uid in s.runners && u != uid
    ensures uid in DoRunnerReports(s, u, results, reply).runners && DoRunnerReports(s, u, results, reply).runners[uid] == s.runners[uid]
  {
    hide Stored, ReportOf;
  }

  lemma DeletesLeaveRunners(s: State, name: string)
    ensures Deleted(s, name).runners == s.runners && PodDeleted(s, name).runners == s.runners
  {
    hide Stored;
  }

  lemma UpdateLeavesRunners(s: State, pc: Pc, t: Time, reply: Reply)
    ensures UpdateEffect(s, pc, t, reply).runners == s.runners
  {
    hide Request, Stored;
  }

  lemma WorkerLeavesRunner(s: State, a: Action, uid: nat)
    requires uid in s.runners && uid <= s.last && Actor(a).Some?
    ensures uid in Step(s, a).runners && Step(s, a).runners[uid] == s.runners[uid]
  {
    hide NextPc, UpdateEffect, Deleted, PodDeleted;
    var pc := PcOf(s, Actor(a).value);
    match a
    case Update(_, t, reply) => UpdateLeavesRunners(s, pc, t, reply);
    case Delete(_, _) => if pc.Deleting? { DeletesLeaveRunners(s, pc.cnh.name); }
    case DeletePod(_, _) => if pc.DeletingPods? && pc.todo != [] { DeletesLeaveRunners(s, pc.todo[0].name); }
    case _ =>
  }

  lemma FetchGoes(s: State, uid: nat)
    requires uid in s.runners && s.runners[uid].pc.Checking?
    ensures var (name, fetched, died) := (s.runners[uid].name, Step(s, RunnerFetches(uid)), Step(s, RunnerDies(uid)));
            && fetched.runners == s.runners[uid := CheckProtocol.Runner(name, s.runners[uid].ownerUid, if name in s.crs then Fetched(s.crs[name]) else ExitedWithError)]
            && died.runners == s.runners[uid := CheckProtocol.Runner(name, s.runners[uid].ownerUid, ExitedWithError)]
  {}

  lemma ReportGoes(s: State, uid: nat, fetched: Cnh, sent: Cnh, results: seq<CheckResult>, reply: Reply)
    requires uid in s.runners && s.runners[uid].pc == Fetched(fetched) && ReportOf(results)
    requires sent.name == fetched.name && sent.rv == fetched.rv
    ensures var s' := Step(s, RunnerReports(uid, results, reply));
            && uid in s'.runners
            && s'.runners[uid].pc == if reply.Done? && Current(s, sent) then ExitedOk(fetched.uid) else ExitedWithError
  {
    hide Stored, ReportOf;
  }

  lemma IsReport(names: set<string>, results: seq<CheckResult>)
    requires names == {"PodNetwork"}
    requires multiset(Names(results)) == multiset(names)
    ensures ReportOf(results)
  {
    assert multiset(RUNNER_CHECKERS) == multiset{"PodNetwork"};
    assert multiset(names) == multiset{"PodNetwork"};
  }

  /** What the report of a runner that has fetched the resource does to it. */
  lemma ReportStores(seen: State, s: State, uid: nat, crName: string, fetched: Cnh, added: seq<CheckResult>, result: CheckerResult,
                     attempts: seq<Attempt>, reply: Reply)
    requires Inv(seen) && Inv(s) && crName in seen.crs && fetched == seen.crs[crName] && fetched in s.versions
    requires uid in s.runners && s.runners[uid].pc == Fetched(fetched) && ReportOf(added)
    requires Settles(attempts, result) && forall r :: r in added ==> r.name == "PodNetwork" && r == Converted("PodNetwork", result)
    ensures Current(s, fetched) <==> crName in s.crs && s.crs[crName] == fetched
    ensures Current(s, fetched) && !reply.Refused? ==>
              var s' := Step(s, RunnerReports(uid, added, reply));
              crName in s'.crs && Stores(s.crs[crName], s'.crs[crName], attempts)
  {
    hide Inv, ReportOf, Settles, Converted, Step, Reflects;
    NameOfStored(seen, crName);
    if Current(s, fetched) {
      CurrentIsStored(s, fetched);
      if !reply.Refused? {
        ReportEffect(s, uid, fetched, added, reply);
      }
      OneReport(added);
      SettledReflects(attempts, result);
      assert added[0] in added;
    }
  }

  lemma SameVersion(s: State, a: Cnh, b: Cnh)
    requires a.name == b.name && a.rv == b.rv
    ensures Current(s, a) == Current(s, b)
  {}

  lemma ReportEffect(s: State, uid: nat, fetched: Cnh, added: seq<CheckResult>, reply: Reply)
    requires uid in s.runners && s.runners[uid].pc == Fetched(fetched) && ReportOf(added)
    requires !reply.Refused? && fetched.name in s.crs && s.crs[fetched.name] == fetched
    ensures var s' := Step(s, RunnerReports(uid, added, reply));
            && fetched.name in s'.crs
            && var now := s'.crs[fetched.name];
               && now == fetched.(rv := now.rv, status := now.status)
               && now.status == fetched.status.(results := fetched.status.results + added)
  {
    hide ReportOf;
  }

  lemma NameOfStored(s: State, n: string)
    requires Inv(s) && n in s.crs
    ensures s.crs[n].name == n
  {}

  lemma OneReport(results: seq<CheckResult>)
    requires ReportOf(results)
    ensures |results| == 1
  {
    assert |multiset(Names(results))| == |Names(results)| == |results|;
    assert |multiset(RUNNER_CHECKERS)| == 1;
  }

  class Runner {
    const server: Server
    const uid: nat
    const crName: string

    ghost predicate Valid(pc: RunnerPc)
      reads this, server
    {
      server.Valid() && uid in server.s.runners && server.s.runners[uid] == server.s.runners[uid].(name := crName, pc := pc)
    }

    constructor (server: Server, uid: nat, crName: string)
      requires server.Valid() && uid in server.s.runners
      requires server.s.runners[uid].name == crName && server.s.runners[uid].pc.Checking?
      ensures this.server == server && this.uid == uid && this.crName == crName && Valid(Checking)
    {
      this.server, this.uid, this.crName := server, uid, crName;
    }

    method Interfere(ghost pc: RunnerPc)
      requires Valid(pc)
      modifies server
      ensures Valid(pc) && old(server.trace) <= server.trace && server.start == old(server.start)
    {
      hide Step, CheckProtocol.Run, Init, Inv;
      var others: seq<Action> := *;
      for i := 0 to |others|
        invariant Valid(pc) && old(server.trace) <= server.trace && server.start == old(server.start)
      {
        if !Mine(others[i], uid) {
          RunsKeepInv(server.start, server.trace);
          OthersLeaveRunner(server.s, others[i], uid);
          server.Take(others[i]);
        }
      }
    }

    /** What has happened since the trace was before: the resource was read at place i of the run, unless the
        read failed; then the last step has stored the result of the attempts after the others, if the resource
        was still as it was read and the update was not refused. The runner exits 0 exactly if all went well
        and the update was acknowledged. */
    ghost predicate Reported(before: nat, i: nat, attempts: seq<Attempt>, fails: bool, reply: Reply, exitedOk: bool)
      reads server
    {
      && server.Valid() && before <= i < |server.trace|
      && var (seen, sent) := (CheckProtocol.Run(server.start, server.trace[..i]), CheckProtocol.Run(server.start, server.trace[..|server.trace| - 1]));
         var stores := !fails && crName in seen.crs && !reply.Refused? && crName in sent.crs && sent.crs[crName] == seen.crs[crName];
         && (exitedOk <==> stores && reply.Done?)
         && (stores ==> crName in server.s.crs && Stores(sent.crs[crName], server.s.crs[crName], attempts))
    }

    /** attempts says what each run of a checker would return, fails whether reading the resource fails, and
        reply how the server answers the update. */
    method Run(attempts: map<string, seq<Attempt>>, fails: bool, reply: Reply) returns (exitedOk: bool, ghost i: nat)
      requires Valid(Checking)
      requires attempts.Keys == {"PodNetwork"} && |attempts["PodNetwork"]| == 3
      modifies server
      ensures server.Valid() && old(server.trace) <= server.trace
      ensures uid in server.s.runners
      ensures exitedOk <==> server.s.runners[uid].pc.ExitedOk?
      ensures !exitedOk <==> server.s.runners[uid].pc.ExitedWithError?
      ensures Reported(|old(server.trace)|, i, attempts["PodNetwork"], fails, reply, exitedOk)
    {
      hide CheckProtocol.Run, Init, Step, Stores;
      var results: map<string, CheckerResult> := map[];
      for k := 0 to |RUNNER_CHECKERS|
        invariant Valid(Checking) && server.trace == old(server.trace)
        invariant results.Keys == set j | 0 <= j < k :: RUNNER_CHECKERS[j]
        invariant forall name :: name in results ==> name in attempts && Settles(attempts[name], results[name])
      {
        var name := RUNNER_CHECKERS[k];
        assert name == "PodNetwork";
        var result := RunChecker(attempts[name]);
        results := results[name := result];
      }
      assert RUNNER_CHECKERS[0] == "PodNetwork" && |RUNNER_CHECKERS| == 1;
      exitedOk, i := UpdateCheckNodeHealthStatus(results, attempts["PodNetwork"], fails, reply);
    }

    method UpdateCheckNodeHealthStatus(results: map<string, CheckerResult>, ghost attempts: seq<Attempt>, fails: bool, reply: Reply)
      returns (ok: bool, ghost i: nat)
      requires Valid(Checking)
      requires results.Keys == {"PodNetwork"} && Settles(attempts, results["PodNetwork"])
      modifies server
      ensures server.Valid() && old(server.trace) <= server.trace
      ensures uid in server.s.runners
      ensures ok <==> server.s.runners[uid].pc.ExitedOk?
      ensures !ok <==> server.s.runners[uid].pc.ExitedWithError?
      ensures Reported(|old(server.trace)|, i, attempts, fails, reply, ok)
    {
      hide CheckProtocol.Run, Init, Step, Stores, Reported, Settles;
      Interfere(Checking);
      i := |server.trace|;
      ghost var seen, early := server.s, server.trace;
      FetchGoes(server.s, uid);
      if fails || crName !in server.s.crs {
        server.Take(if fails then RunnerDies(uid) else RunnerFetches(uid));
        ReadFailed(|old(server.trace)|, early, seen, attempts, fails, reply);
        return false, i;
      }
      var cnh := new CheckNodeHealth(server.s.crs[crName]);
      server.Take(RunnerFetches(uid));
      ok := Report(cnh, results, attempts, reply, |old(server.trace)|, early, seen);
    }

    lemma ReadFailed(before: nat, early: seq<Action>, seen: State, attempts: seq<Attempt>, fails: bool, reply: Reply)
      requires server.Valid() && before <= |early| && early < server.trace && seen == CheckProtocol.Run(server.start, early)
      requires fails || crName !in seen.crs
      ensures Reported(before, |early|, attempts, fails, reply, false)
    {
      hide CheckProtocol.Run, Stores;
      assert server.trace[..|early|] == early;
    }

    /** Appends the results to the copy that was read in state seen, and sends it. */
    method Report(cnh: CheckNodeHealth, results: map<string, CheckerResult>, ghost attempts: seq<Attempt>, reply: Reply,
                  ghost before: nat, ghost early: seq<Action>, ghost seen: State) returns (ok: bool)
      requires Valid(Fetched(cnh.View())) && crName in seen.crs && cnh.View() == seen.crs[crName]
      requires before <= |early| && early < server.trace && seen == CheckProtocol.Run(server.start, early)
      requires results.Keys == {"PodNetwork"} && Settles(attempts, results["PodNetwork"])
      modifies server, cnh`results
      ensures server.Valid() && old(server.trace) <= server.trace
      ensures uid in server.s.runners
      ensures ok <==> server.s.runners[uid].pc.ExitedOk?
      ensures !ok <==> server.s.runners[uid].pc.ExitedWithError?
      ensures Reported(before, |early|, attempts, false, reply, ok)
    {
      hide CheckProtocol.Run, Init, Step, ReportOf, Current, Stores, Reported, Settles;
      ghost var fetched := cnh.View();
      var k := |cnh.results|;
      var added := AppendResults(cnh, results);
      assert cnh.results[k..] == added;
      IsReport(results.Keys, added);
      Interfere(Fetched(fetched));
      ghost var sent, late := server.s, server.trace;
      SameVersion(server.s, fetched, cnh.View());
      ok := reply.Done? && Current(server.s, cnh.View());
      ReportGoes(server.s, uid, fetched, cnh.View(), added, reply);
      server.Take(RunnerReports(uid, cnh.results[k..], reply));
      SentReport(before, early, late, seen, sent, fetched, added, results["PodNetwork"], attempts, reply, ok);
    }

    lemma SentReport(before: nat, early: seq<Action>, late: seq<Action>, seen: State, sent: State, fetched: Cnh, added: seq<CheckResult>,
                     result: CheckerResult, attempts: seq<Attempt>, reply: Reply, ok: bool)
      requires server.Valid() && before <= |early| && early <= late && server.trace == late + [RunnerReports(uid, added, reply)]
      requires seen == CheckProtocol.Run(server.start, early) && sent == CheckProtocol.Run(server.start, late)
      requires crName in seen.crs && fetched == seen.crs[crName] && server.s == Step(sent, RunnerReports(uid, added, reply))
      requires uid in sent.runners && sent.runners[uid].pc == Fetched(fetched) && ReportOf(added)
      requires Settles(attempts, result) && forall r :: r in added ==> r.name == "PodNetwork" && r == Converted("PodNetwork", result)
      requires ok <==> reply.Done? && Current(sent, fetched)
      ensures Reported(before, |early|, attempts, false, reply, ok)
    {
      hide CheckProtocol.Run, Init, Step, ReportOf, Current, Stores, Settles, Inv, Converted;
      RunsKeepInv(server.start, early);
      RunsKeepInv(server.start, late);
      StillThere(sent, uid);
      ReportStores(seen, sent, uid, crName, fetched, added, result, attempts, reply);
      assert server.trace[..|early|] == early && server.trace[..|server.trace| - 1] == late;
    }

    lemma StillThere(s: State, u: nat)
      requires Inv(s) && u in s.runners && s.runners[u].pc.Fetched?
      ensures s.runners[u].pc.cnh in s.versions
    {
      assert RunnerOk(s.runners[u], s.crs, s.versions, s.last);
    }
  }
}
