/** What the workers of the CheckNodeHealth controller decide, read off whole runs: when a check is
    deleted for its age, what a pod must have looked like for a PodStartup result, when a check is
    finished, and what its verdict says. */
module CheckDecisions {
  import opened Api
  import opened Verdicts
  import opened CheckProtocol
  import opened CheckSafety
  import opened CheckTheorems
  import opened CheckOrder

  const SIX_HOURS: Time := 21_600_000_000_000
  const TWO_MINUTES: Time := 120_000_000_000

  // ----- Expiry -----

  predicate Beside(actions: seq<Action>, w: nat) {
    forall a :: a in actions ==> Actor(a) != Some(w)
  }

  lemma {:induction false} BesideKeepsPc(s: State, actions: seq<Action>, w: nat)
    requires Beside(actions, w)
    ensures PcOf(Run(s, actions), w) == PcOf(s, w)
    decreases |actions|
  {
    hide Step, Actor;
    if actions != [] {
      assert actions[0] in actions;
      if PcOf(Step(s, actions[0]), w) != PcOf(s, w) {
        Moves(s, w, actions[0]);
      }
      BesideKeepsPc(Step(s, actions[0]), actions[1..], w);
    }
  }

  /** The read of cnh at t, at place k of the run, has led to the deletion that worker w is about to ask
      for: the copy is not being deleted and was more than six hours old. */
  ghost predicate ReadExpired(s0: State, actions: seq<Action>, w: nat, cnh: Cnh, k: nat) {
    && k < |actions| && actions[k].Get? && actions[k].w == w && actions[k].read == cnh
    && !cnh.deleting && actions[k].t - cnh.created > SIX_HOURS
    && actions[k].t <= Run(s0, actions[..k]).now
    && forall j :: k < j <= |actions| ==> PcOf(Run(s0, actions[..j]), w) == Deleting(cnh)
  }

  /** In every run a worker only ever asks to delete a check because the copy it has just read is expired. */
  lemma {:induction false} DeletesOnlyExpired(s0: State, actions: seq<Action>, w: nat) returns (k: nat)
    requires Init(s0) && PcOf(Run(s0, actions), w).Deleting?
    ensures ReadExpired(s0, actions, w, PcOf(Run(s0, actions), w).cnh, k)
    decreases |actions|
  {
    hide Step, Run, Effect;
    NoRun(s0);
    var init, a := actions[..|actions| - 1], actions[|actions| - 1];
    assert actions == init + [a];
    RunSnoc(s0, init, a);
    var s := Run(s0, init);
    assert actions[..|actions|] == actions;
    if PcOf(Step(s, a), w) == PcOf(s, w) {
      k := DeletesOnlyExpired(s0, init, w);
      assert forall j :: 0 <= j <= |init| ==> actions[..j] == init[..j];
    } else {
      Moves(s, w, a);
      StartsDeleting(s, w, a);
      k := |init|;
    }
  }

  lemma NoRun(s: State)
    ensures Run(s, []) == s
  {}

  lemma StartsDeleting(s: State, w: nat, a: Action)
    requires Actor(a) == Some(w) && Enabled(s, w, PcOf(s, w), a) && NextPc(s, w, PcOf(s, w), a).Deleting?
    ensures a.Get? && a.read == NextPc(s, w, PcOf(s, w), a).cnh && a.t <= s.now
    ensures !a.read.deleting && a.t - a.read.created > SIX_HOURS
  {
    hide Stored, Request, Current;
  }

  /** And it does so for every such copy: the call that follows a read is a deletion exactly if the copy is
      not being deleted and more than six hours old; then it is the only call the worker can make. */
  lemma ExpiredIff(s: State, w: nat, cnh: Cnh, t: Time, others: seq<Action>, next: Action)
    requires PcOf(s, w).Idle? && cnh in s.versions && ClockReading(s, w, t) && Beside(others, w)
    requires Actor(next) == Some(w) && !next.Abort?
    ensures var s' := Run(s, [Get(w, cnh, t)] + others);
            var expired := !cnh.deleting && t - cnh.created > SIX_HOURS;
            && (Enabled(s', w, PcOf(s', w), next) ==> (next.Delete? <==> expired))
            && (next.Delete? ==> (Enabled(s', w, PcOf(s', w), next) <==> expired))
  {
    hide Step, Run;
    var get := Get(w, cnh, t);
    CheckOrder.OneStep(s, get);
    RunConcat(s, [get], others);
    BesideKeepsPc(Step(s, get), others, w);
    Reads(s, w, cnh, t);
  }

  lemma Reads(s: State, w: nat, cnh: Cnh, t: Time)
    requires PcOf(s, w).Idle? && cnh in s.versions && ClockReading(s, w, t)
    ensures PcOf(Step(s, Get(w, cnh, t)), w) == AfterGet(cnh, t)
    ensures AfterGet(cnh, t).Deleting? <==> !cnh.deleting && t - cnh.created > SIX_HOURS
    ensures !AfterGet(cnh, t).Idle?
    ensures AfterGet(cnh, t).Deleting? ==> AfterGet(cnh, t).cnh == cnh
  {}

  /** From any state, a reconcile that reads an expired check as it is and whose deletion is acknowledged
      leaves no check of that name, or one that is being deleted, whatever else happens in between. */
  lemma ExpiredIsDeleted(s: State, w: nat, n: string, others: seq<Action>)
    requires Inv(s) && PcOf(s, w).Idle? && WorkerOf(s, w).since <= s.now && Beside(others, w)
    requires n in s.crs && !s.crs[n].deleting && s.now - s.crs[n].created > SIX_HOURS
    ensures var s' := Run(s, [Get(w, s.crs[n], s.now)] + others + [Delete(w, Done)]);
            && PcOf(s', w) == Idle(Finished)
            && (n !in s'.crs || s'.crs[n].deleting)
  {
    hide Step, Run, Inv;
    Named(s, n);
    var cnh := s.crs[n];
    var get := Get(w, cnh, s.now);
    CheckOrder.OneStep(s, get);
    RunConcat(s, [get], others);
    BesideKeepsPc(Step(s, get), others, w);
    Reads(s, w, cnh, s.now);
    RunSnoc(s, [get] + others, Delete(w, Done));
    var s1 := Run(s, [get] + others);
    RunKeeps(s, [get] + others);
    forall m | m in s1.crs ensures s1.crs[m].name == m { Named(s1, m); }
    Removes(s1, w, cnh);
  }

  lemma Named(s: State, n: string)
    requires Inv(s) && n in s.crs
    ensures s.crs[n].name == n && s.crs[n] in s.versions
  {}

  lemma Removes(s: State, w: nat, cnh: Cnh)
    requires PcOf(s, w) == Deleting(cnh) && forall n :: n in s.crs ==> s.crs[n].name == n
    ensures var s' := Step(s, Delete(w, Done));
            PcOf(s', w) == Idle(Finished) && (cnh.name !in s'.crs || s'.crs[cnh.name].deleting)
  {}

  // ----- Where a PodStartup result and a finish come from -----

  /** The pod has containers, and each runs or has ended after it had started. */
  predicate Ran(pod: Pod) {
    && |pod.containers| > 0
    && forall i :: 0 <= i < |pod.containers| ==>
         pod.containers[i].Started? || (pod.containers[i].Terminated? && pod.containers[i].startedAt.Some?)
  }

  predicate Stuck(pod: Pod, t: Time) {
    !Ran(pod) && pod.phase.Pending? && t - pod.created > TWO_MINUTES
  }

  /** What the pod shows at t if its startup is reported with that status. */
  predicate Shows(pod: Pod, t: Time, status: CheckStatus) {
    match status
    case Healthy => Ran(pod)
    case Unhealthy => Stuck(pod, t)
    case Unknown => false
  }

  /** The pod is through, or has had its time. */
  predicate Over(pod: Pod, t: Time) {
    pod.phase.Succeeded? || pod.phase.Failed? || t - pod.created > TWO_MINUTES
  }

  /** Everything in the PodStartup results and the finish of v is in u already. */
  ghost predicate Inherits(u: Cnh, v: Cnh) {
    && u.uid == v.uid && u.name == v.name && v.status.finishedAt == u.status.finishedAt
    && forall r :: r in v.status.results && r.name == "PodStartup" ==> r in u.status.results
  }

  /** The update of a worker that holds an earlier version of v and a pod of its name. */
  ghost predicate Holding(s: State, a: Action, v: Cnh) {
    && a.Update? && a.t <= s.now
    && var pc := PcOf(s, a.w);
       && (pc.ReportingStartup? || pc.Deciding?)
       && pc.cnh in s.versions && pc.cnh.uid == v.uid && pc.cnh.name == v.name
       && pc.pod in s.podVersions && pc.pod.name == PodName(v.name)
  }

  ghost predicate Reports(s: State, a: Action, v: Cnh, status: CheckStatus) {
    Holding(s, a, v) && PcOf(s, a.w).ReportingStartup? && Shows(PcOf(s, a.w).pod, a.t, status)
  }

  ghost predicate Finishes(s: State, a: Action, v: Cnh) {
    && Holding(s, a, v) && PcOf(s, a.w).Deciding?
    && Over(PcOf(s, a.w).pod, a.t) && v.status.finishedAt == Some(a.t)
  }

  /** A version that a step adds: it is empty, takes over what a version had, or is written by a worker that
      reports on the startup of its pod or finishes the check. */
  ghost predicate Origin(s: State, a: Action, v: Cnh) {
    || v.status == EMPTY_STATUS
    || (exists u :: u in s.versions && Inherits(u, v))
    || Written(s, a, v)
  }

  ghost predicate Written(s: State, a: Action, v: Cnh) {
    && Holding(s, a, v)
    && var cnh := PcOf(s, a.w).cnh;
       && (v.status.finishedAt == cnh.status.finishedAt || Finishes(s, a, v))
       && forall r :: r in v.status.results && r.name == "PodStartup" ==> r in cnh.status.results || Reports(s, a, v, r.status)
  }

  /** A worker holds only pods of the name of its check. */
  ghost predicate PodsNamed(s: State) {
    forall w :: w in s.workers ==> PodNamed(s.workers[w].pc)
  }

  ghost predicate PodNamed(pc: Pc) {
    pc.Starting? || pc.ReportingStartup? || pc.Deciding? ==> pc.pod.name == PodName(pc.cnh.name)
  }

  lemma StepKeepsPodsNamed(s: State, a: Action)
    requires Inv(s) && PodsNamed(s)
    ensures PodsNamed(Step(s, a))
  {
    hide Step, Inv, PodName, PodNamed, Effect, NextPc;
    var s' := Step(s, a);
    forall w | w in s'.workers ensures PodNamed(s'.workers[w].pc) {
      assert PcOf(s', w) == s'.workers[w].pc;
      IdleNamed(s, w);
      if PcOf(s', w) != PcOf(s, w) {
        Moves(s, w, a);
        NextNamed(s, w, PcOf(s, w), a);
      }
    }
  }

  lemma IdleNamed(s: State, w: nat)
    requires PodsNamed(s)
    ensures PodNamed(PcOf(s, w))
  {
    hide PodName;
  }

  lemma NextNamed(s: State, w: nat, pc: Pc, a: Action)
    requires Inv(s) && PodNamed(pc) && Enabled(s, w, pc, a) && (!pc.Idle? ==> At(s, w, pc))
    ensures PodNamed(NextPc(s, w, pc, a))
  {
    hide Inv, PodName, Request, Current;
    match a
    case ListPods(_, found) => if found.Some? { SeenPodNamed(s, found.value); }
    case Update(_, t, _) => SentName(s, pc, t);
    case _ =>
  }

  lemma SeenPodNamed(s: State, pod: Pod)
    requires Inv(s) && pod in s.podVersions
    ensures pod.name == PodName(pod.cnhLabel)
  {}

  lemma SentName(s: State, pc: Pc, t: Time)
    ensures Request(pc, t).Some? ==> !pc.Idle? && Request(pc, t).value.name == pc.cnh.name && Request(pc, t).value.uid == pc.cnh.uid
    ensures forall c :: Stored(s, c).name == c.name && Stored(s, c).uid == c.uid && Stored(s, c).status == c.status
  {}

  // ----- The versions a step adds -----

  lemma StepOrigins(s: State, a: Action, v: Cnh)
    requires Inv(s) && PodsNamed(s) && v in Step(s, a).versions && v !in s.versions
    ensures Origin(s, a, v)
  {
    hide Inv, Origin, Environment, Effect, NextPc, Enabled, PodsNamed;
    match Actor(a)
    case None => EnvironmentOrigins(s, a, v);
    case Some(w) =>
      var pc := PcOf(s, w);
      assert Enabled(s, w, pc, a);
      CallOrigins(s, w, pc, a, v);
  }

  lemma EnvironmentOrigins(s: State, a: Action, v: Cnh)
    requires Inv(s) && v in Environment(s, a).versions && v !in s.versions
    ensures Origin(s, a, v)
  {
    hide Inv, ReportOf, Written, PodDeleted, Origin, Deleted, DoUserTouches, DoRunnerReports;
    match a
    case UserCreates(n, node) => CreatedOrigins(s, a, n, node, v);
    case PodEvicted(n) => PodsLeaveVersions(s, n);
    case UserDeletes(n) => DeletedOrigins(s, a, n, v);
    case UserTouches(n) => TouchedOrigins(s, a, n, v);
    case RunnerReports(u, results, reply) => ReportOrigins(s, a, u, results, reply, v);
    case _ =>
  }

  lemma CreatedOrigins(s: State, a: Action, n: string, node: string, v: Cnh)
    requires v in DoUserCreates(s, n, node).versions && v !in s.versions
    ensures Origin(s, a, v)
  {}

  lemma PodsLeaveVersions(s: State, n: string)
    ensures PodDeleted(s, n).versions == s.versions
  {}

  lemma DeletedOrigins(s: State, a: Action, n: string, v: Cnh)
    requires Inv(s) && v in Deleted(s, n).versions && v !in s.versions
    ensures Origin(s, a, v)
  {
    hide Inv, Written;
    Named(s, n);
    assert Inherits(s.crs[n], v);
  }

  lemma TouchedOrigins(s: State, a: Action, n: string, v: Cnh)
    requires Inv(s) && v in DoUserTouches(s, n).versions && v !in s.versions
    ensures Origin(s, a, v)
  {
    hide Inv, Written;
    Named(s, n);
    assert Inherits(s.crs[n], v);
  }

  /** A runner appends a result of another name. */
  lemma ReportOrigins(s: State, a: Action, u: nat, results: seq<CheckResult>, reply: Reply, v: Cnh)
    requires Inv(s) && v in DoRunnerReports(s, u, results, reply).versions && v !in s.versions
    ensures Origin(s, a, v)
  {
    hide Inv, Written, ReportOf;
    var cnh := s.runners[u].pc.cnh;
    Fetch(s, u);
    CurrentIsStored(s, cnh);
    Named(s, cnh.name);
    NoStartup(results);
    assert v.status.results == cnh.status.results + results;
    assert Inherits(s.crs[cnh.name], v);
  }

  lemma Fetch(s: State, u: nat)
    requires Inv(s) && u in s.runners && s.runners[u].pc.Fetched?
    ensures s.runners[u].pc.cnh in s.versions
  {
    assert RunnerOk(s.runners[u], s.crs, s.versions, s.last);
  }

  lemma NoStartup(results: seq<CheckResult>)
    requires ReportOf(results)
    ensures forall r :: r in results ==> r.name != "PodStartup"
  {
    forall r | r in results ensures r.name == POD_NETWORK {
      var i :| 0 <= i < |results| && results[i] == r;
      assert Names(results)[i] in multiset(Names(results));
      assert Names(results)[i] in multiset(RUNNER_CHECKERS);
    }
  }

  lemma CallOrigins(s: State, w: nat, pc: Pc, a: Action, v: Cnh)
    requires Inv(s) && PodsNamed(s) && pc == PcOf(s, w) && Actor(a) == Some(w) && Enabled(s, w, pc, a)
    requires v in Effect(s, w, pc, a).versions && v !in s.versions
    ensures Origin(s, a, v)
  {
    hide Inv, Origin, UpdateEffect, PodsNamed, Deleted;
    match a
    case Update(_, t, reply) => UpdateOrigins(s, w, pc, t, reply, v);
    case Delete(_, _) => DeletedOrigins(s, a, pc.cnh.name, v);
    case _ =>
  }

  lemma UpdateOrigins(s: State, w: nat, pc: Pc, t: Time, reply: Reply, v: Cnh)
    requires Inv(s) && PodsNamed(s) && pc == PcOf(s, w) && Updating(pc) && ClockReading(s, w, t)
    requires v in UpdateEffect(s, pc, t, reply).versions && v !in s.versions
    ensures Origin(s, Update(w, t, reply), v)
  {
    hide Inv, PodsNamed, StartupResult, WithResult, CompletedCondition, PodName, Inherits, Written, PodFinished;
    var sent := Request(pc, t).value;
    SentName(s, pc, t);
    assert v == Stored(s, sent);
    UpdateOrigin(s, w, pc, t, reply, v);
  }

  lemma UpdateOrigin(s: State, w: nat, pc: Pc, t: Time, reply: Reply, v: Cnh)
    requires Inv(s) && PodsNamed(s) && pc == PcOf(s, w) && Updating(pc) && ClockReading(s, w, t)
    requires Request(pc, t).Some? && v.uid == pc.cnh.uid && v.name == pc.cnh.name && v.status == Request(pc, t).value.status
    ensures Origin(s, Update(w, t, reply), v)
  {
    hide Inv, PodsNamed, WithResult, CompletedCondition, PodName, Ran, AllContainersStarted;
    HeldFacts(s, w, pc);
    IdleNamed(s, w);
    if pc.ReportingStartup? {
      RanMeans(pc.pod);
      var r := StartupResult(pc.pod, t).value;
      WithResultSources(pc.cnh.status.results, r);
      assert Written(s, Update(w, t, reply), v);
    } else if pc.Deciding? {
      assert Written(s, Update(w, t, reply), v);
    } else {
      assert Inherits(pc.cnh, v);
    }
  }

  lemma RanMeans(pod: Pod)
    ensures AllContainersStarted(pod.containers) <==> Ran(pod)
  {
    if AllContainersStarted(pod.containers) {
      forall i | 0 <= i < |pod.containers| ensures HasStarted(pod.containers[i]) {
        assert pod.containers[i] in pod.containers;
      }
    }
    if Ran(pod) {
      forall c | c in pod.containers ensures HasStarted(c) {
        var i :| 0 <= i < |pod.containers| && pod.containers[i] == c;
      }
    }
  }

  lemma {:induction false} WithResultSources(results: seq<CheckResult>, r: CheckResult)
    ensures forall x :: x in WithResult(results, r) ==> x in results || x == r
  {
    if results != [] && results[0].name != r.name {
      WithResultSources(results[1..], r);
    }
  }

  // ----- Whole runs -----

  /** At place k of the run a worker reported on the startup of a pod of v's check. */
  ghost predicate ReportedAt(s0: State, actions: seq<Action>, k: nat, v: Cnh, status: CheckStatus) {
    k < |actions| && Reports(Run(s0, actions[..k]), actions[k], v, status)
  }

  ghost predicate FinishedAt(s0: State, actions: seq<Action>, k: nat, v: Cnh) {
    k < |actions| && Finishes(Run(s0, actions[..k]), actions[k], v)
  }

  ghost predicate Sourced(s0: State, actions: seq<Action>, v: Cnh) {
    && (forall r :: r in v.status.results && r.name == "PodStartup" ==> exists k: nat :: ReportedAt(s0, actions, k, v, r.status))
    && (v.status.finishedAt.Some? ==> exists k: nat :: FinishedAt(s0, actions, k, v))
  }

  /** What was sourced for u is for v, which has taken it over, and for a longer run. */
  lemma SourcedStill(s0: State, actions: seq<Action>, a: Action, u: Cnh, v: Cnh)
    requires Sourced(s0, actions, u) && Inherits(u, v)
    ensures Sourced(s0, actions + [a], v)
  {
    hide Run, Shows, PodName;
    var more := actions + [a];
    forall r | r in v.status.results && r.name == "PodStartup" ensures exists k: nat :: ReportedAt(s0, more, k, v, r.status) {
      var k: nat :| ReportedAt(s0, actions, k, u, r.status);
      assert more[..k] == actions[..k];
      assert ReportedAt(s0, more, k, v, r.status);
    }
    if v.status.finishedAt.Some? {
      var k: nat :| FinishedAt(s0, actions, k, u);
      assert more[..k] == actions[..k];
      assert FinishedAt(s0, more, k, v);
    }
  }

  lemma WrittenSourced(s0: State, actions: seq<Action>, a: Action, v: Cnh)
    requires var s := Run(s0, actions); Written(s, a, v) && Sourced(s0, actions, PcOf(s, a.w).cnh)
    ensures Sourced(s0, actions + [a], v)
  {
    hide Run, Shows, PodName;
    var more := actions + [a];
    var s := Run(s0, actions);
    var cnh := PcOf(s, a.w).cnh;
    assert more[..|actions|] == actions;
    forall r | r in v.status.results && r.name == "PodStartup" ensures exists k: nat :: ReportedAt(s0, more, k, v, r.status) {
      if r in cnh.status.results {
        var k: nat :| ReportedAt(s0, actions, k, cnh, r.status);
        assert more[..k] == actions[..k];
        assert ReportedAt(s0, more, k, v, r.status);
      } else {
        assert ReportedAt(s0, more, |actions|, v, r.status);
      }
    }
    if v.status.finishedAt.Some? {
      if Finishes(s, a, v) {
        assert FinishedAt(s0, more, |actions|, v);
      } else {
        var k: nat :| FinishedAt(s0, actions, k, cnh);
        assert more[..k] == actions[..k];
        assert FinishedAt(s0, more, k, v);
      }
    }
  }

  lemma {:induction false} RunSources(s0: State, actions: seq<Action>)
    requires Init(s0)
    ensures PodsNamed(Run(s0, actions)) && forall v :: v in Run(s0, actions).versions ==> Sourced(s0, actions, v)
    decreases |actions|
  {
    hide Inv, Step, Run, Sourced, PodsNamed, Origin;
    NoRun(s0);
    if actions == [] {
      Empty(s0);
    } else {
      var init, a := actions[..|actions| - 1], actions[|actions| - 1];
      assert actions == init + [a];
      var s := Run(s0, init);
      RunSources(s0, init);
      RunsKeepInv(s0, init);
      RunSnoc(s0, init, a);
      StepKeepsPodsNamed(s, a);
      forall v | v in Step(s, a).versions ensures Sourced(s0, actions, v) {
        OriginSourced(s0, init, a, v);
      }
    }
  }

  lemma Empty(s: State)
    requires Init(s)
    ensures PodsNamed(s) && s.versions == {}
  {}

  lemma OriginSourced(s0: State, actions: seq<Action>, a: Action, v: Cnh)
    requires Inv(Run(s0, actions)) && PodsNamed(Run(s0, actions))
    requires forall u :: u in Run(s0, actions).versions ==> Sourced(s0, actions, u)
    requires v in Step(Run(s0, actions), a).versions
    ensures Sourced(s0, actions + [a], v)
  {
    hide Inv, Step, Run, Sourced, PodsNamed, Written, Inherits;
    var s := Run(s0, actions);
    if v in s.versions {
      Itself(v);
      SourcedStill(s0, actions, a, v, v);
    } else {
      StepOrigins(s, a, v);
      if v.status == EMPTY_STATUS {
        EmptySourced(s0, actions + [a], v);
      } else if u :| u in s.versions && Inherits(u, v) {
        SourcedStill(s0, actions, a, u, v);
      } else {
        Holds(s, a, v);
        WrittenSourced(s0, actions, a, v);
      }
    }
  }

  lemma Itself(v: Cnh)
    ensures Inherits(v, v)
  {}

  lemma EmptySourced(s0: State, actions: seq<Action>, v: Cnh)
    requires v.status == EMPTY_STATUS
    ensures Sourced(s0, actions, v)
  {}

  lemma Holds(s: State, a: Action, v: Cnh)
    requires Written(s, a, v)
    ensures a.Update? && !PcOf(s, a.w).Idle? && PcOf(s, a.w).cnh in s.versions
  {}

  /** A name short enough not to be cut gives its pods away. */
  lemma OwnPod(s0: State, actions: seq<Action>, pod: Pod, name: string)
    requires Init(s0) && pod in Run(s0, actions).podVersions && pod.name == PodName(name) && |name| < 235
    ensures pod.cnhLabel == name
  {
    hide Run, Inv;
    RunsKeepInv(s0, actions);
    SeenPodNamed(Run(s0, actions), pod);
    var other := pod.cnhLabel;
    assert |POD_NAME_PREFIX| == 18;
    assert PodName(name)[18..] == name;
    assert |other| <= 235;
    assert PodName(other)[18..] == other;
  }

  /** Every stored PodStartup result was reported, in every run, by a worker that saw a pod of that check:
      Healthy means that all its containers had started, Unhealthy that it was Pending for more than two
      minutes. */
  lemma StartupResultSeen(s0: State, actions: seq<Action>, n: string, i: nat) returns (k: nat, pod: Pod, t: Time)
    requires Init(s0) && n in Run(s0, actions).crs && i < |Run(s0, actions).crs[n].status.results|
    requires Run(s0, actions).crs[n].status.results[i].name == "PodStartup"
    ensures k < |actions|
    ensures var s := Run(s0, actions[..k]);
            && actions[k].Update? && actions[k].t == t <= s.now
            && pod in s.podVersions && pod.name == PodName(n) && (|n| < 235 ==> pod.cnhLabel == n)
            && PcOf(s, actions[k].w).ReportingStartup? && PcOf(s, actions[k].w).pod == pod
            && PcOf(s, actions[k].w).cnh.uid == Run(s0, actions).crs[n].uid
    ensures match Run(s0, actions).crs[n].status.results[i].status
            case Healthy =>
              && |pod.containers| > 0
              && forall j :: 0 <= j < |pod.containers| ==>
                   pod.containers[j].Started? || (pod.containers[j].Terminated? && pod.containers[j].startedAt.Some?)
            case Unhealthy => pod.phase.Pending? && t - pod.created > 120_000_000_000
            case Unknown => false
  {
    hide Run, Inv, PodName, PodsNamed;
    RunSources(s0, actions);
    RunsKeepInv(s0, actions);
    var cnh := Run(s0, actions).crs[n];
    Named(Run(s0, actions), n);
    var r := cnh.status.results[i];
    assert Sourced(s0, actions, cnh) && r in cnh.status.results;
    k :| ReportedAt(s0, actions, k, cnh, r.status);
    var s := Run(s0, actions[..k]);
    pod, t := PcOf(s, actions[k].w).pod, actions[k].t;
    if |n| < 235 {
      OwnPod(s0, actions[..k], pod, n);
    }
  }

  /** A stored check was finished, in every run, by a worker that saw a pod of it either through or more than
      two minutes old, and at the time that is stored. */
  lemma FinishSeen(s0: State, actions: seq<Action>, n: string) returns (k: nat, pod: Pod)
    requires Init(s0) && n in Run(s0, actions).crs && Run(s0, actions).crs[n].status.finishedAt.Some?
    ensures k < |actions|
    ensures var (s, t) := (Run(s0, actions[..k]), Run(s0, actions).crs[n].status.finishedAt.value);
            && actions[k].Update? && actions[k].t == t <= s.now
            && pod in s.podVersions && pod.name == PodName(n) && (|n| < 235 ==> pod.cnhLabel == n)
            && PcOf(s, actions[k].w).Deciding? && PcOf(s, actions[k].w).pod == pod
            && PcOf(s, actions[k].w).cnh.uid == Run(s0, actions).crs[n].uid
            && (pod.phase.Succeeded? || pod.phase.Failed? || t - pod.created > 120_000_000_000)
  {
    hide Run, Inv, PodName, PodsNamed;
    RunSources(s0, actions);
    RunsKeepInv(s0, actions);
    var cnh := Run(s0, actions).crs[n];
    Named(Run(s0, actions), n);
    assert Sourced(s0, actions, cnh);
    k :| FinishedAt(s0, actions, k, cnh);
    pod := PcOf(Run(s0, actions[..k]), actions[k].w).pod;
    if |n| < 235 {
      OwnPod(s0, actions[..k], pod, n);
    }
  }

  /** The one condition of a finished check is the judgement on the first results it has: False for one
      Unhealthy among them, True exactly if all are Healthy and both pod startup and pod network are there. */
  lemma FinishedMeans(s0: State, actions: seq<Action>, n: string) returns (k: nat)
    requires Init(s0) && n in Run(s0, actions).crs && Run(s0, actions).crs[n].status.finishedAt.Some?
    ensures var st := Run(s0, actions).crs[n].status;
            && k <= |st.results| && |st.conditions| == 1 && st.conditions[0].kind == "Healthy"
            && st.conditions[0].lastTransitionTime == st.finishedAt.value
            && Judged(st.results[..k], st.conditions[0].status, st.conditions[0].reason)
    ensures var st := Run(s0, actions).crs[n].status;
            st.conditions[0].status == ConditionTrue ==>
              && (exists i :: 0 <= i < k && st.results[i].name == "PodStartup")
              && (exists i :: 0 <= i < k && st.results[i].name == "PodNetwork")
              && forall i :: 0 <= i < k ==> st.results[i].status == Healthy
  {
    hide Run, Verdict, Message, ReasonOf;
    StoredStatusMeaning(s0, actions, n);
    var st := Run(s0, actions).crs[n].status;
    k :| 0 <= k <= |st.results| && st.conditions == [CompletedCondition(st.results[..k], st.finishedAt.value)];
    VerdictMeans(st.results[..k]);
  }
}
