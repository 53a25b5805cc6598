/** What one reconcile of a check comes to when it reads what is stored and no call fails: stated over what
    is stored before and after it. */
module CheckOutcomes {
  import opened Api
  import opened Verdicts
  import opened CheckProtocol
  import opened CheckSafety
  import opened CheckTheorems
  import opened CheckDecisions
  import CheckOrder

  /** Worker w is at pc and holds the stored version of its check. */
  ghost predicate Holds(s: State, w: nat, pc: Pc) {
    && w in s.workers && s.workers[w] == Worker(pc, s.now) && !pc.Idle?
    && pc.cnh.name in s.crs && s.crs[pc.cnh.name] == pc.cnh
  }

  /** Only the check of that name and worker w have changed. */
  ghost predicate SameBut(s: State, s': State, w: nat, n: string) {
    && s'.now == s.now && s'.enableNodeCondition == s.enableNodeCondition
    && s'.pods == s.pods && s'.podVersions == s.podVersions && s'.feeds == s.feeds
    && s'.crs.Keys == s.crs.Keys && (forall m :: m in s.crs && m != n ==> s'.crs[m] == s.crs[m])
    && (forall v :: v != w ==> (v in s'.workers <==> v in s.workers) && (v in s.workers ==> s'.workers[v] == s.workers[v]))
  }

  lemma SameButThen(a: State, b: State, c: State, w: nat, n: string)
    requires SameBut(a, b, w, n) && SameBut(b, c, w, n)
    ensures SameBut(a, c, w, n)
  {}

  // ----- The calls -----

  lemma Sends(s: State, w: nat, pc: Pc)
    requires Holds(s, w, pc) && Updating(pc) && !pc.RemovingFinalizer?
    ensures var s1 := Step(s, Update(w, s.now, Done));
            var sent := Request(pc, s.now);
            var held := if sent.None? then pc.cnh else Stored(s, sent.value);
            && s1.workers == s.workers[w := Worker(AfterUpdate(s, pc, held), s.now)]
            && s1.crs == s.crs[pc.cnh.name := held]
            && SameBut(s, s1, w, pc.cnh.name)
  {
    hide StartupResult, WithResult, AfterUpdate, CompletedStatus, StartedStatus, PodFinished;
    var sent := Request(pc, s.now);
    SentName(s, pc, s.now);
    if sent.Some? {
      assert Accepted(s, sent.value, Done) by { Rv(pc, s.now); }
    }
  }

  lemma Rv(pc: Pc, t: Time)
    requires Request(pc, t).Some?
    ensures !pc.Idle? && Request(pc, t).value.rv == pc.cnh.rv
  {}

  /** The first PodStartup entry, or a new one at the end, is r; all else is as it was. */
  ghost predicate Wrote(was: seq<CheckResult>, now: seq<CheckResult>, r: CheckResult) {
    exists j :: WroteAt(was, now, r, j)
  }

  ghost predicate WroteAt(was: seq<CheckResult>, now: seq<CheckResult>, r: CheckResult, j: int) {
    && 0 <= j <= |was| && |now| == (if j == |was| then |was| + 1 else |was|)
    && now[j] == r && (j < |was| ==> was[j].name == r.name)
    && forall i :: 0 <= i < |was| && i != j ==> now[i] == was[i] && (i < j ==> was[i].name != r.name)
  }

  lemma {:induction false} WithResultWrote(was: seq<CheckResult>, r: CheckResult)
    ensures Wrote(was, WithResult(was, r), r)
  {
    if was == [] || was[0].name == r.name {
      assert WroteAt(was, WithResult(was, r), r, 0);
    } else {
      WithResultWrote(was[1..], r);
      var j :| WroteAt(was[1..], WithResult(was[1..], r), r, j);
      assert WroteAt(was, WithResult(was, r), r, j + 1);
    }
  }

  /** What the startup of a pod makes of the results: Healthy once every container has started, Unhealthy if
      not and the pod is Pending for more than two minutes, and else nothing. */
  ghost predicate StartupReported(pod: Pod, t: Time, was: seq<CheckResult>, now: seq<CheckResult>) {
    var started := |pod.containers| > 0
                   && forall i :: 0 <= i < |pod.containers| ==>
                        pod.containers[i].Started? || (pod.containers[i].Terminated? && pod.containers[i].startedAt.Some?);
    if started then Wrote(was, now, CheckResult("PodStartup", Healthy, "All containers started successfully", ""))
    else if pod.phase.Pending? && t - pod.created > 120_000_000_000 then
      Wrote(was, now, CheckResult("PodStartup", Unhealthy, "Pod stuck in Pending state - timeout exceeded", ""))
    else now == was
  }

  /** The update of a worker that reports on its pod stores exactly that. */
  lemma ReportsStartup(s: State, w: nat, cnh: Cnh, pod: Pod)
    requires Holds(s, w, ReportingStartup(cnh, pod))
    ensures var s1 := Step(s, Update(w, s.now, Done));
            && SameBut(s, s1, w, cnh.name) && cnh.name in s1.crs
            && var stored := s1.crs[cnh.name];
               && Holds(s1, w, Deciding(stored, pod))
               && stored == cnh.(rv := stored.rv, status := cnh.status.(results := stored.status.results))
               && StartupReported(pod, s.now, cnh.status.results, stored.status.results)
  {
    hide Step, WithResult, Wrote;
    Sends(s, w, ReportingStartup(cnh, pod));
    RanMeans(pod);
    WithResultWrote(cnh.status.results, STARTUP_HEALTHY);
    WithResultWrote(cnh.status.results, STARTUP_UNHEALTHY);
  }

  lemma Starts(s: State, w: nat, cnh: Cnh, pod: Pod)
    requires Holds(s, w, Starting(cnh, pod))
    ensures var s1 := Step(s, Update(w, s.now, Done));
            && SameBut(s, s1, w, cnh.name) && cnh.name in s1.crs
            && var stored := s1.crs[cnh.name];
               && Holds(s1, w, ReportingStartup(stored, pod))
               && stored == if cnh.status.startedAt.Some? then cnh
                            else cnh.(rv := stored.rv, status := cnh.status.(startedAt := Some(s.now),
                                      conditions := [Condition("Healthy", ConditionUnknown, "CheckStarted", "", s.now)]))
  {
    hide Step;
    Sends(s, w, Starting(cnh, pod));
  }

  /** The check is finished at t, with the judgement on its results as its one condition. */
  ghost predicate FinishedNow(was: Status, now: Status, t: Time) {
    && now.finishedAt == Some(t) && now.startedAt == was.startedAt && now.results == was.results
    && |now.conditions| == 1 && now.conditions[0].kind == "Healthy" && now.conditions[0].lastTransitionTime == t
    && Judged(now.results, now.conditions[0].status, now.conditions[0].reason)
  }

  /** The decision: the check is finished exactly if its pod is through or more than two minutes old. */
  lemma DecidesCheck(s: State, w: nat, cnh: Cnh, pod: Pod)
    requires Holds(s, w, Deciding(cnh, pod)) && cnh.status.finishedAt.None?
    ensures var s1 := Step(s, Update(w, s.now, Done));
            && SameBut(s, s1, w, cnh.name) && cnh.name in s1.crs
            && var stored := s1.crs[cnh.name];
               if pod.phase.Succeeded? || pod.phase.Failed? || s.now - pod.created > 120_000_000_000 then
                 && FinishedNow(cnh.status, stored.status, s.now)
                 && stored == cnh.(rv := stored.rv, status := stored.status)
                 && Holds(s1, w, if s.enableNodeCondition then UpdatingNode(stored) else ListingForCleanup(stored, AfterVerdict))
               else
                 stored == cnh && PcOf(s1, w) == Idle(Requeued)
  {
    hide Step, Verdict, Message, ReasonOf, Judged;
    Sends(s, w, Deciding(cnh, pod));
    VerdictMeans(cnh.status.results);
  }

  // ----- A reconcile with a pod -----

  function Reconciling(s: State, w: nat, cnh: Cnh, pod: Pod): seq<Action> {
    var send := Update(w, s.now, Done);
    [Get(w, cnh, s.now), ListPods(w, Some(pod)), send, send, send]
  }

  /** A check that is not expired, not being deleted, not finished, and protected. */
  ghost predicate Open(s: State, n: string) {
    && n in s.crs && !s.crs[n].deleting && s.now - s.crs[n].created <= 21_600_000_000_000
    && s.crs[n].finalizer && s.crs[n].status.finishedAt.None?
  }

  lemma Begins(s: State, w: nat, n: string, pod: Pod)
    requires Inv(s) && Open(s, n) && PcOf(s, w).Idle? && WorkerOf(s, w).since <= s.now
    requires pod in s.podVersions && pod.cnhLabel == n
    ensures var s1 := Step(s, Get(w, s.crs[n], s.now));
            var s2 := Step(s1, ListPods(w, Some(pod)));
            && s2.crs == s.crs && SameBut(s, s2, w, n)
            && Holds(s2, w, Starting(s.crs[n], pod))
  {
    hide Inv;
    Named(s, n);
    var s1 := Step(s, Get(w, s.crs[n], s.now));
    assert s1 == Go(s, w, ListingPods(s.crs[n]));
  }

  lemma RunOfFive(s: State, a: seq<Action>)
    requires |a| == 5
    ensures Run(s, a) == Step(Step(Step(Step(Step(s, a[0]), a[1]), a[2]), a[3]), a[4])
  {
    hide Step;
    assert a[1..][1..] == a[2..] && a[2..][1..] == a[3..] && a[3..][1..] == a[4..] && a[4..][1..] == [];
    assert Run(s, a) == Run(Step(s, a[0]), a[1..]);
    assert Run(Step(s, a[0]), a[1..]) == Run(Step(Step(s, a[0]), a[1]), a[2..]);
    var s2 := Step(Step(s, a[0]), a[1]);
    assert Run(s2, a[2..]) == Run(Step(s2, a[2]), a[3..]);
    assert Run(Step(s2, a[2]), a[3..]) == Run(Step(Step(s2, a[2]), a[3]), a[4..]);
    var s4 := Step(Step(s2, a[2]), a[3]);
    assert Run(s4, a[4..]) == Run(Step(s4, a[4]), []);
  }

  /** One reconcile of an open check that sees a pod of it: it is started, the startup of the pod is reported,
      and it is finished and judged exactly if the pod is through or more than two minutes old; else the
      reconcile asks to be run again. */
  lemma OpenCheckReconciled(s: State, w: nat, n: string, pod: Pod)
    requires Inv(s) && Open(s, n) && PcOf(s, w).Idle? && WorkerOf(s, w).since <= s.now
    requires pod in s.podVersions && pod.cnhLabel == n
    ensures var s' := Run(s, Reconciling(s, w, s.crs[n], pod));
            && SameBut(s, s', w, n) && n in s'.crs
            && var (was, now) := (s.crs[n], s'.crs[n]);
               && now == was.(rv := now.rv, status := now.status)
               && now.status.startedAt == (if was.status.startedAt.Some? then was.status.startedAt else Some(s.now))
               && StartupReported(pod, s.now, was.status.results, now.status.results)
               && if pod.phase.Succeeded? || pod.phase.Failed? || s.now - pod.created > 120_000_000_000 then
                    && FinishedNow(now.status, now.status, s.now)
                    && Holds(s', w, if s.enableNodeCondition then UpdatingNode(now) else ListingForCleanup(now, AfterVerdict))
                  else
                    now.status.finishedAt.None? && PcOf(s', w) == Idle(Requeued)
  {
    hide Step, Run, Inv, StartupReported, SameBut, Judged;
    var cnh := s.crs[n];
    Named(s, n);
    var steps := Reconciling(s, w, cnh, pod);
    RunOfFive(s, steps);
    Begins(s, w, n, pod);
    var s2 := Step(Step(s, steps[0]), steps[1]);
    Times(s, s2, w, n);
    Starts(s2, w, cnh, pod);
    var s3 := Step(s2, steps[2]);
    Times(s2, s3, w, n);
    SameButThen(s, s2, s3, w, n);
    ReportsStartup(s3, w, s3.crs[n], pod);
    var s4 := Step(s3, steps[3]);
    Times(s3, s4, w, n);
    SameButThen(s, s3, s4, w, n);
    DecidesCheck(s4, w, s4.crs[n], pod);
    SameButThen(s, s4, Step(s4, steps[4]), w, n);
  }

  lemma Times(s: State, s': State, w: nat, n: string)
    requires SameBut(s, s', w, n)
    ensures s'.now == s.now && s'.enableNodeCondition == s.enableNodeCondition
  {}

  // ----- Cleaning up -----

  /** No pod of that name is left that is not being stopped. */
  ghost predicate Stopped(s: State, name: string) {
    name !in s.pods || s.pods[name].terminating
  }

  /** Deletes a listed pod, whose deletion is acknowledged. */
  lemma CleansUp(s: State, w: nat, cnh: Cnh, pod: Pod, next: Next)
    requires PcOf(s, w) == ListingForCleanup(cnh, next) && !next.ThenRemoveFinalizer?
    requires pod in s.podVersions && pod.cnhLabel == cnh.name && (pod.name in s.pods ==> s.pods[pod.name].name == pod.name)
    ensures var s' := Step(Step(s, ListForCleanup(w, [pod])), DeletePod(w, Done));
            && Stopped(s', pod.name) && PcOf(s', w) == Idle(Finished)
            && s'.crs == s.crs && s'.feeds == s.feeds && s'.now == s.now
  {
    hide Step, Go;
    ListsPod(s, w, cnh, pod, next);
    Going(s, w, DeletingPods(cnh, [pod], next));
    StopsPod(Go(s, w, DeletingPods(cnh, [pod], next)), w, cnh, pod, next);
  }

  lemma ListsPod(s: State, w: nat, cnh: Cnh, pod: Pod, next: Next)
    requires PcOf(s, w) == ListingForCleanup(cnh, next) && pod in s.podVersions && pod.cnhLabel == cnh.name
    ensures Step(s, ListForCleanup(w, [pod])) == Go(s, w, DeletingPods(cnh, [pod], next))
  {
    hide Go;
  }

  lemma Going(s: State, w: nat, pc: Pc)
    ensures var s' := Go(s, w, pc);
            && PcOf(s', w) == pc && s'.pods == s.pods && s'.podVersions == s.podVersions && s'.crs == s.crs
            && s'.feeds == s.feeds && s'.now == s.now && w in s'.workers && s'.workers[w] == Worker(pc, s.now)
  {}

  lemma StopsPod(s: State, w: nat, cnh: Cnh, pod: Pod, next: Next)
    requires PcOf(s, w) == DeletingPods(cnh, [pod], next) && !next.ThenRemoveFinalizer?
    requires pod.name in s.pods ==> s.pods[pod.name].name == pod.name
    ensures var s' := Step(s, DeletePod(w, Done));
            && Stopped(s', pod.name) && PcOf(s', w) == Idle(Finished)
            && s'.crs == s.crs && s'.feeds == s.feeds && s'.now == s.now
  {
    hide Go;
    assert [pod][1..] == [];
    assert Step(s, DeletePod(w, Done)) == Go(PodDeleted(s, pod.name), w, Idle(Finished));
    Going(PodDeleted(s, pod.name), w, Idle(Finished));
    PodStops(s, pod.name);
  }

  lemma PodStops(s: State, name: string)
    requires name in s.pods ==> s.pods[name].name == name
    ensures var s' := PodDeleted(s, name);
            Stopped(s', name) && s'.crs == s.crs && s'.feeds == s.feeds && s'.now == s.now
  {}

  lemma StoredUnderName(s: State, name: string)
    requires Inv(s) && name in s.pods
    ensures s.pods[name].name == name
  {}

  /** A reconcile that reads a finished check deletes its pod. */
  lemma FinishedCheckReconciled(s: State, w: nat, n: string, pod: Pod)
    requires Inv(s) && PcOf(s, w).Idle? && WorkerOf(s, w).since <= s.now && n in s.crs
    requires var cnh := s.crs[n];
             !cnh.deleting && s.now - cnh.created <= 21_600_000_000_000 && cnh.finalizer && cnh.status.finishedAt.Some?
    requires pod in s.podVersions && pod.cnhLabel == n
    ensures var s' := Step(Step(Step(s, Get(w, s.crs[n], s.now)), ListForCleanup(w, [pod])), DeletePod(w, Done));
            && Stopped(s', pod.name) && PcOf(s', w) == Idle(Finished) && s'.crs == s.crs
  {
    hide Inv;
    Named(s, n);
    var s1 := Step(s, Get(w, s.crs[n], s.now));
    assert s1 == Go(s, w, ListingForCleanup(s.crs[n], ThenNothing));
    if pod.name in s.pods {
      StoredUnderName(s, pod.name);
    }
    hide Step;
    CleansUp(s1, w, s.crs[n], pod, ThenNothing);
  }

  /** After a completion: the breaker is told of it, as a failure exactly if the condition is False, and the
      pod is deleted. */
  lemma CompletionSettled(s: State, w: nat, cnh: Cnh, pod: Pod)
    requires Inv(s) && Holds(s, w, UpdatingNode(cnh)) && |cnh.status.conditions| == 1
    requires pod in s.podVersions && pod.cnhLabel == cnh.name
    ensures var s2 := Step(Step(s, UpdateNode(w)), Record(w));
            var s' := Step(Step(s2, ListForCleanup(w, [pod])), DeletePod(w, Done));
            && s'.feeds == s.feeds + [Feed(cnh.uid, cnh.status.conditions[0].status == ConditionFalse)]
            && Stopped(s', pod.name) && PcOf(s', w) == Idle(Finished) && s'.crs == s.crs
  {
    hide Inv;
    var s2 := Step(Step(s, UpdateNode(w)), Record(w));
    TellsBreaker(s, w, cnh);
    if pod.name in s.pods {
      StoredUnderName(s, pod.name);
    }
    hide Step;
    CleansUp(s2, w, cnh, pod, AfterVerdict);
  }

  lemma TellsBreaker(s: State, w: nat, cnh: Cnh)
    requires PcOf(s, w) == UpdatingNode(cnh) && |cnh.status.conditions| == 1
    ensures var s2 := Step(Step(s, UpdateNode(w)), Record(w));
            && s2.feeds == s.feeds + [Feed(cnh.uid, cnh.status.conditions[0].status == ConditionFalse)]
            && PcOf(s2, w) == ListingForCleanup(cnh, AfterVerdict)
            && s2.pods == s.pods && s2.podVersions == s.podVersions && s2.crs == s.crs
  {
    assert Step(s, UpdateNode(w)) == Go(s, w, Recording(cnh));
  }

  // ----- A reconcile without a pod, and without the finalizer -----

  /** A reconcile of an open check that finds no pod creates one: named and labelled after the check, owned by
      it, and not yet started; it goes on with that pod. */
  lemma PodlessCheckReconciled(s: State, w: nat, n: string)
    requires Inv(s) && Open(s, n) && PcOf(s, w).Idle? && WorkerOf(s, w).since <= s.now
    requires PodName(n) !in s.pods
    ensures var s3 := Step(Step(Step(s, Get(w, s.crs[n], s.now)), ListPods(w, None)), CreatePod(w, Done));
            && PodName(n) in s3.pods && s3.crs == s.crs
            && var pod := s3.pods[PodName(n)];
               && pod.name == PodName(n) && pod.cnhLabel == n && pod.ownerUid == s.crs[n].uid
               && pod.created == s.now && pod.phase.Pending? && pod.containers == [] && !pod.terminating
               && pod.uid in s3.runners && s3.runners[pod.uid] == Runner(n, s.crs[n].uid, Checking)
               && Step(s3, Refetch(w, pod)) == Go(s3, w, Starting(s.crs[n], pod))
  {
    hide Inv, PodName;
    Named(s, n);
    var s1 := Step(s, Get(w, s.crs[n], s.now));
    assert s1 == Go(s, w, ListingPods(s.crs[n]));
    assert Step(s1, ListPods(w, None)) == Go(s, w, CreatingPod(s.crs[n]));
    hide Step;
    MakesPod(Go(s, w, CreatingPod(s.crs[n])), w, s.crs[n]);
  }

  lemma MakesPod(s: State, w: nat, cnh: Cnh)
    requires PcOf(s, w) == CreatingPod(cnh) && PodName(cnh.name) !in s.pods
    ensures var s1 := Step(s, CreatePod(w, Done));
            && PodName(cnh.name) in s1.pods && s1.crs == s.crs
            && var pod := s1.pods[PodName(cnh.name)];
               && pod == Pod(PodName(cnh.name), pod.uid, cnh.name, cnh.uid, s.now, CheckProtocol.Pending, [], false)
               && pod.uid in s1.runners && s1.runners[pod.uid] == Runner(cnh.name, cnh.uid, Checking)
               && pod in s1.podVersions && PcOf(s1, w) == Refetching(cnh)
               && Step(s1, Refetch(w, pod)) == Go(s1, w, Starting(cnh, pod))
  {
    hide PodName;
    var pod := NewPod(s, cnh);
    var s1 := Step(s, CreatePod(w, Done));
    assert s1 == Go(PodCreated(s, pod), w, Refetching(cnh));
    assert s1.pods[pod.name] == pod;
    FetchesPod(s1, w, cnh, pod);
  }

  lemma FetchesPod(s: State, w: nat, cnh: Cnh, pod: Pod)
    requires PcOf(s, w) == Refetching(cnh) && pod in s.podVersions && pod.name == PodName(cnh.name)
    ensures Step(s, Refetch(w, pod)) == Go(s, w, Starting(cnh, pod))
  {
    hide PodName;
  }

  /** A reconcile of a check without the finalizer first adds it, and changes nothing else of the check. */
  lemma UnprotectedCheckReconciled(s: State, w: nat, n: string)
    requires Inv(s) && PcOf(s, w).Idle? && WorkerOf(s, w).since <= s.now && n in s.crs
    requires !s.crs[n].deleting && s.now - s.crs[n].created <= 21_600_000_000_000 && !s.crs[n].finalizer
    ensures var s' := Step(Step(s, Get(w, s.crs[n], s.now)), Update(w, s.now, Done));
            && SameBut(s, s', w, n) && n in s'.crs
            && s'.crs[n] == s.crs[n].(rv := s'.crs[n].rv, finalizer := true)
            && Holds(s', w, if s'.crs[n].status.finishedAt.Some? then ListingForCleanup(s'.crs[n], ThenNothing) else ListingPods(s'.crs[n]))
  {
    hide Inv;
    Named(s, n);
    var s1 := Step(s, Get(w, s.crs[n], s.now));
    assert s1 == Go(s, w, AddingFinalizer(s.crs[n]));
    hide Step;
    Sends(s1, w, AddingFinalizer(s.crs[n]));
  }
}
