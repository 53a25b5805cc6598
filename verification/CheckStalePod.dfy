/** The family of runs in which a completion that saw a Succeeded pod has not judged its result: the
    pod belongs to an earlier resource of the same name, and a cache that lags behind (or a pod that
    is still terminating) shows it to the check of the new one. */
module CheckStalePod {
  import opened Api
  import opened Verdicts
  import opened CheckProtocol

  // ----- A fresh worker on a new resource -----

  /** The worker holds the current version of an unfinished resource without a PodNetwork result. */
  ghost predicate Scene(s: State, w: nat, uid: nat, name: string, now: Time) {
    && s.now == now
    && w in s.workers && s.workers[w].since == now && !s.workers[w].pc.Idle?
    && var cnh := s.workers[w].pc.cnh;
    && cnh.name in s.crs && s.crs[cnh.name] == cnh
    && cnh.rv == s.last && cnh.uid == uid && cnh.name == name && !cnh.deleting
    && cnh.status.finishedAt.None?
    && !HasResult(cnh.status.results, POD_NETWORK)
  }

  ghost predicate SamePods(s: State, s': State) {
    s'.pods == s.pods && s'.podVersions == s.podVersions && s'.runners == s.runners
  }

  function FreshCnh(s: State, name: string, node: string): Cnh {
    Cnh(name, s.last + 1, s.last + 1, node, s.now, false, false, EMPTY_STATUS)
  }

  lemma Opens(s: State, w: nat, name: string, node: string)
    requires name !in s.crs && PcOf(s, w).Idle? && WorkerOf(s, w).since <= s.now
    ensures var s1 := Step(s, UserCreates(name, node));
            var s2 := Step(s1, Get(w, FreshCnh(s, name, node), s.now));
            && Scene(s2, w, s.last + 1, name, s.now)
            && s2.workers[w].pc == AddingFinalizer(FreshCnh(s, name, node))
            && SamePods(s, s2)
  {
    hide Step;
    Creates(s, name, node);
    ReadsFresh(Step(s, UserCreates(name, node)), w, FreshCnh(s, name, node));
  }

  lemma Creates(s: State, name: string, node: string)
    requires name !in s.crs
    ensures Step(s, UserCreates(name, node)) == Put(s, FreshCnh(s, name, node))
  {}

  lemma ReadsFresh(s: State, w: nat, cnh: Cnh)
    requires PcOf(s, w).Idle? && WorkerOf(s, w).since <= s.now
    requires cnh in s.versions && cnh.created == s.now && !cnh.deleting && !cnh.finalizer
    ensures Step(s, Get(w, cnh, s.now)) == Go(s, w, AddingFinalizer(cnh))
  {}

  /** What an acknowledged update does at Scene: the new version is stored and held. */
  lemma Sends(s: State, w: nat, uid: nat, name: string, now: Time)
    requires Scene(s, w, uid, name, now)
    requires var pc := s.workers[w].pc; pc.AddingFinalizer? || pc.Starting? || pc.ReportingStartup?
    ensures var s1 := Step(s, Update(w, now, Done));
            var pc := s.workers[w].pc;
            var sent := Request(pc, now);
            var held := if sent.None? then pc.cnh else Stored(s, sent.value);
            && SamePods(s, s1) && s1.now == now
            && s1.workers == s.workers[w := Worker(AfterUpdate(s, pc, held), now)]
            && s1.crs == s.crs[name := held] && s1.last == held.rv
  {
    hide StartupResult, WithResult, AfterUpdate;
    var pc := s.workers[w].pc;
    var sent := Request(pc, now);
    assert UpdateEffect(s, pc, now, Done) == if sent.None? then s else Put(s, Stored(s, sent.value));
  }

  lemma Updates(s: State, w: nat, uid: nat, name: string, now: Time)
    requires Scene(s, w, uid, name, now)
    requires var pc := s.workers[w].pc; pc.AddingFinalizer? || pc.Starting? || pc.ReportingStartup?
    ensures var s1 := Step(s, Update(w, now, Done));
            && Scene(s1, w, uid, name, now)
            && SamePods(s, s1)
            && var (pc, next) := (s.workers[w].pc, s1.workers[w].pc);
               && (pc.AddingFinalizer? ==> next.ListingPods? && next.cnh.finalizer)
               && (pc.Starting? ==> next.ReportingStartup? && next.pod == pc.pod)
               && (pc.ReportingStartup? ==> next.Deciding? && next.pod == pc.pod)
  {
    hide Step;
    var pc := s.workers[w].pc;
    Sends(s, w, uid, name, now);
    WithResultAddsNo(pc.cnh.status.results, STARTUP_HEALTHY, POD_NETWORK);
    WithResultAddsNo(pc.cnh.status.results, STARTUP_UNHEALTHY, POD_NETWORK);
  }

  lemma {:induction false} WithResultAddsNo(results: seq<CheckResult>, r: CheckResult, name: string)
    requires r.name != name && !HasResult(results, name)
    ensures !HasResult(WithResult(results, r), name)
  {
    if results != [] && results[0].name != r.name {
      assert forall x :: x in results[1..] ==> x in results;
      WithResultAddsNo(results[1..], r, name);
    }
  }

  lemma Lists(s: State, w: nat, uid: nat, name: string, now: Time, pod: Pod)
    requires Scene(s, w, uid, name, now) && s.workers[w].pc.ListingPods?
    requires pod in s.podVersions && pod.cnhLabel == name
    ensures var s1 := Step(s, ListPods(w, Some(pod)));
            Scene(s1, w, uid, name, now) && s1.workers[w].pc == Starting(s.workers[w].pc.cnh, pod)
  {}

  lemma Decides(s: State, w: nat, uid: nat, name: string, now: Time)
    requires Scene(s, w, uid, name, now) && s.workers[w].pc.Deciding? && PodCompleted(s.workers[w].pc.pod)
    ensures var s1 := Step(s, Update(w, now, Done));
            uid in s1.commits && !HasResult(s1.commits[uid].judged, POD_NETWORK)
  {}

  // ----- A pod that outlives its resource -----

  const REPORT := [CheckResult(POD_NETWORK, Healthy, "", "")]

  lemma CreatesPod(s: State, w: nat, uid: nat, name: string, now: Time)
    requires Scene(s, w, uid, name, now) && s.workers[w].pc.ListingPods? && s.workers[w].pc.cnh.finalizer
    requires PodName(name) !in s.pods
    ensures var s1 := Step(s, ListPods(w, None));
            var s2 := Step(s1, CreatePod(w, Done));
            var u := s.last + 1;
            && s2.now == now && s2.crs == s.crs && s2.last == u
            && PcOf(s2, w) == Refetching(s.workers[w].pc.cnh)
            && PodName(name) in s2.pods && s2.pods[PodName(name)].uid == u && s2.pods[PodName(name)].cnhLabel == name
            && s2.pods[PodName(name)].phase == CheckProtocol.Pending
            && u in s2.runners && s2.runners[u].name == name && s2.runners[u].pc == Checking
  {}

  lemma RunnerFinishes(s: State, u: nat, name: string)
    requires name in s.crs && s.crs[name].name == name && s.crs[name].finalizer
    requires u in s.runners && s.runners[u].name == name && s.runners[u].pc == Checking
    ensures var s1 := Step(s, RunnerFetches(u));
            var s2 := Step(s1, RunnerReports(u, REPORT, Done));
            && s2.now == s.now && s2.workers == s.workers && s2.pods == s.pods
            && u in s2.runners && s2.runners[u].pc.ExitedOk?
            && name in s2.crs && s2.crs[name].name == name && s2.crs[name].finalizer
  {
    assert ReportOf(REPORT) by {
      assert Names(REPORT) == RUNNER_CHECKERS;
    }
    assert REPORT[0] in REPORT;
  }

  lemma PodSucceeds(s: State, name: string)
    requires name in s.pods && s.pods[name].phase == CheckProtocol.Pending
    requires s.pods[name].uid in s.runners && s.runners[s.pods[name].uid].pc.ExitedOk?
    ensures var s1 := Step(s, KubeletReports(name, Succeeded, []));
            var pod := s.pods[name].(phase := Succeeded, containers := []);
            && s1.now == s.now && s1.workers == s.workers && s1.crs == s.crs
            && pod in s1.podVersions
  {}

  /** The object as it is stored once it is marked for deletion. */
  function Marked(s: State, name: string): Cnh
    requires name in s.crs
  {
    Stored(s, s.crs[name].(deleting := true))
  }

  lemma IsMarked(s: State, w: nat, name: string)
    requires name in s.crs && s.crs[name].name == name && s.crs[name].finalizer && w in s.workers
    ensures var s1 := Step(s, UserDeletes(name));
            && s1 == Put(s, Marked(s, name))
            && Step(s1, Abort(w)) == Go(s1, w, GivenUp(PcOf(s1, w)))
  {}

  lemma FindsNoPods(s: State, w: nat, cnh: Cnh)
    requires PcOf(s, w).Idle? && WorkerOf(s, w).since <= s.now && cnh in s.versions && cnh.deleting
    ensures var s1 := Step(s, Get(w, cnh, s.now));
            && s1 == Go(s, w, ListingForCleanup(cnh, ThenRemoveFinalizer))
            && Step(s1, ListForCleanup(w, [])) == Go(s1, w, RemovingFinalizer(cnh))
  {}

  lemma LetsGo(s: State, w: nat, cnh: Cnh)
    requires w in s.workers && s.workers[w] == Worker(RemovingFinalizer(cnh), s.now)
    requires cnh.deleting && Current(s, cnh)
    ensures Step(s, Update(w, s.now, Done)) == Go(Removed(s, cnh.name), w, Idle(Finished))
  {}

  lemma Vanishes(s: State, w: nat, name: string)
    requires name in s.crs && s.crs[name].name == name && s.crs[name].finalizer
    requires w in s.workers
    ensures var s2 := Step(Step(s, UserDeletes(name)), Abort(w));
            var s4 := Step(Step(s2, Get(w, Marked(s, name), s.now)), ListForCleanup(w, []));
            var s5 := Step(s4, Update(w, s.now, Done));
            && s5.podVersions == s.podVersions && s5.now == s.now
            && name !in s5.crs
            && PcOf(s5, w).Idle? && WorkerOf(s5, w).since <= s5.now
  {
    hide Step;
    var cnh := Marked(s, name);
    IsMarked(s, w, name);
    var s2 := Step(Step(s, UserDeletes(name)), Abort(w));
    FindsNoPods(s2, w, cnh);
    LetsGo(Step(Step(s2, Get(w, cnh, s.now)), ListForCleanup(w, [])), w, cnh);
  }

  // ----- The runs -----

  /** The seven steps after which a worker has judged a new resource on the sight of pod. */
  function Misled(s: State, w: nat, pod: Pod, node: string): seq<Action> {
    var send := Update(w, s.now, Done);
    [UserCreates(pod.cnhLabel, node), Get(w, FreshCnh(s, pod.cnhLabel, node), s.now), send, ListPods(w, Some(pod)), send, send, send]
  }

  lemma RunOfSeven(s: State, a: seq<Action>)
    requires |a| == 7
    ensures Run(s, a[..6]) == Step(Step(Step(Step(Step(Step(s, a[0]), a[1]), a[2]), a[3]), a[4]), a[5])
    ensures Run(s, a) == Step(Run(s, a[..6]), a[6])
  {
    hide Step, Run;
    assert Run(s, a[..0]) == s by { EmptyRun(s, a[..0]); }
    forall k: nat | k < 7 ensures Run(s, a[..k + 1]) == Step(Run(s, a[..k]), a[k]) {
      RunSnoc(s, a[..k], a[k]);
      assert a[..k + 1] == a[..k] + [a[k]];
    }
    assert a[..7] == a;
    assert Run(s, a[..0 + 1]) == Step(s, a[0]);
    assert Run(s, a[..1 + 1]) == Step(Run(s, a[..1]), a[1]);
    assert Run(s, a[..2 + 1]) == Step(Run(s, a[..2]), a[2]);
    assert Run(s, a[..3 + 1]) == Step(Run(s, a[..3]), a[3]);
    assert Run(s, a[..4 + 1]) == Step(Run(s, a[..4]), a[4]);
    assert Run(s, a[..5 + 1]) == Step(Run(s, a[..5]), a[5]);
    assert Run(s, a[..6 + 1]) == Step(Run(s, a[..6]), a[6]);
  }

  lemma EmptyRun(s: State, a: seq<Action>)
    requires a == []
    ensures Run(s, a) == s
  {}

  /** Whenever a Succeeded pod was ever seen for a name that no resource has now, a new resource of
      that name can be completed on the sight of that pod, without a PodNetwork result. */
  lemma ForeignPodMisleads(s: State, w: nat, pod: Pod, node: string)
    requires pod in s.podVersions && pod.phase.Succeeded? && pod.cnhLabel !in s.crs
    requires PcOf(s, w).Idle? && WorkerOf(s, w).since <= s.now
    ensures var steps := Misled(s, w, pod, node);
            var (before, after) := (Run(s, steps[..6]), Run(s, steps));
            && PcOf(before, w).Deciding? && PcOf(before, w).pod == pod
            && PcOf(before, w).cnh.uid == s.last + 1 && PcOf(before, w).cnh.name == pod.cnhLabel
            && s.last + 1 in after.commits && !HasResult(after.commits[s.last + 1].judged, POD_NETWORK)
  {
    hide Step, HasResult, Run;
    var acts := Misled(s, w, pod, node);
    var send := Update(w, s.now, Done);
    var uid := s.last + 1;
    var name := pod.cnhLabel;
    Opens(s, w, name, node);
    var s2 := Step(Step(s, acts[0]), acts[1]);
    Updates(s2, w, uid, name, s.now);
    var s3 := Step(s2, send);
    Lists(s3, w, uid, name, s.now, pod);
    var s4 := Step(s3, acts[3]);
    Updates(s4, w, uid, name, s.now);
    var s5 := Step(s4, send);
    Updates(s5, w, uid, name, s.now);
    var s6 := Step(s5, send);
    Decides(s6, w, uid, name, s.now);
    RunOfSeven(s, acts);
  }

  ghost predicate Reaches(s: State, s': State) {
    exists actions :: Run(s, actions) == s'
  }

  lemma ReachesSelf(s: State)
    ensures Reaches(s, s)
  {
    assert Run(s, []) == s;
  }

  lemma ReachesStep(s: State, s': State, a: Action)
    requires Reaches(s, s')
    ensures Reaches(s, Step(s', a))
  {
    hide Step, Run;
    var actions :| Run(s, actions) == s';
    RunSnoc(s, actions, a);
  }

  /** Such a pod can be left behind in a run from the start. */
  lemma PodOutlives(s0: State, name: string, node: string) returns (s: State, pod: Pod)
    requires Init(s0)
    ensures Reaches(s0, s)
    ensures pod in s.podVersions && pod.phase.Succeeded? && pod.cnhLabel == name && name !in s.crs
    ensures PcOf(s, 0).Idle? && WorkerOf(s, 0).since <= s.now
  {
    ReachesSelf(s0);
    hide Step, Run, Reaches;
    var now := s0.now;
    Opens(s0, 0, name, node);
    var s2 := Then2(s0, s0, UserCreates(name, node), Get(0, FreshCnh(s0, name, node), now));
    Updates(s2, 0, s0.last + 1, name, now);
    var s3 := Then(s0, s2, Update(0, now, Done));
    CreatesPod(s3, 0, s0.last + 1, name, now);
    var u := s3.last + 1;
    var s5 := Then2(s0, s3, ListPods(0, None), CreatePod(0, Done));
    RunnerFinishes(s5, u, name);
    var s7 := Then2(s0, s5, RunnerFetches(u), RunnerReports(u, REPORT, Done));
    PodSucceeds(s7, PodName(name));
    var s8 := Then(s0, s7, KubeletReports(PodName(name), Succeeded, []));
    pod := s7.pods[PodName(name)].(phase := Succeeded, containers := []);
    Vanishes(s8, 0, name);
    var s10 := Then2(s0, s8, UserDeletes(name), Abort(0));
    var s12 := Then2(s0, s10, Get(0, Marked(s8, name), s8.now), ListForCleanup(0, []));
    s := Then(s0, s12, Update(0, s8.now, Done));
  }

  lemma Then(s0: State, s: State, a: Action) returns (s': State)
    requires Reaches(s0, s)
    ensures s' == Step(s, a) && Reaches(s0, s')
  {
    s' := Step(s, a);
    ReachesStep(s0, s, a);
  }

  lemma Then2(s0: State, s: State, a: Action, b: Action) returns (s': State)
    requires Reaches(s0, s)
    ensures s' == Step(Step(s, a), b) && Reaches(s0, s')
  {
    ReachesStep(s0, s, a);
    ReachesStep(s0, Step(s, a), b);
    s' := Step(Step(s, a), b);
  }

  /** Worker w completes a check on the sight of a Succeeded pod, judging no PodNetwork result. */
  ghost predicate LosesResult(before: State, after: State, w: nat) {
    var pc := PcOf(before, w);
    && pc.Deciding? && pc.pod.phase.Succeeded? && pc.pod.cnhLabel == pc.cnh.name
    && pc.cnh.uid in after.commits
    && !HasResult(after.commits[pc.cnh.uid].judged, POD_NETWORK)
  }

  /** So without the condition that the pod is the check's own, a result can be lost: for every name
      there is a run from the start whose last step does it. */
  lemma ForeignPodLosesResult(s0: State, name: string, node: string)
    requires Init(s0)
    ensures exists before, a, w :: Reaches(s0, before) && LosesResult(before, Step(before, a), w)
  {
    hide Step, Run;
    var s, pod := PodOutlives(s0, name, node);
    ForeignPodMisleads(s, 0, pod, node);
    var acts := Misled(s, 0, pod, node);
    var before := Run(s, acts[..6]);
    var way :| Run(s0, way) == s;
    RunConcat(s0, way, acts[..6]);
    RunOfSeven(s, acts);
    assert LosesResult(before, Step(before, acts[6]), 0);
  }
}
