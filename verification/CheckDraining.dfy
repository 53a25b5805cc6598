/** A checker pod can outlive its resource while the kubelet stops its containers, even with current reads
    and one reconcile per resource: when exactly, and that it happens. */
module CheckDraining {
  import opened Api
  import opened CheckProtocol
  import opened CheckSafety
  import opened CheckTheorems
  import opened CheckStalePod
  import opened CheckCleanup
  import ApiServer

  /** The reconcile of a resource that is being deleted, with current reads. */
  function Deletion(s: State, w: nat, p: Pod): seq<Action>
    requires p.cnhLabel in s.crs
  {
    [Get(w, s.crs[p.cnhLabel], s.now), ListForCleanup(w, [p]), DeletePod(w, Done), Update(w, s.now, Done)]
  }

  lemma DeletionReads(s: State, w: nat, p: Pod)
    requires p.cnhLabel in s.crs && s.crs[p.cnhLabel].deleting && s.crs[p.cnhLabel] in s.versions
    requires PcOf(s, w).Idle? && WorkerOf(s, w).since <= s.now
    requires s.crs[p.cnhLabel].name == p.cnhLabel && p in s.podVersions
    ensures var cnh := s.crs[p.cnhLabel];
            && Step(s, Get(w, cnh, s.now)) == Go(s, w, ListingForCleanup(cnh, ThenRemoveFinalizer))
            && Step(Go(s, w, ListingForCleanup(cnh, ThenRemoveFinalizer)), ListForCleanup(w, [p])) ==
               Go(s, w, DeletingPods(cnh, [p], ThenRemoveFinalizer))
  {
    hide Step, Go;
    var cnh := s.crs[p.cnhLabel];
    DeletionGets(s, w, cnh);
    DeletionLists(s, w, cnh, p);
  }

  lemma DeletionGets(s: State, w: nat, cnh: Cnh)
    requires cnh in s.versions && cnh.deleting && PcOf(s, w).Idle? && WorkerOf(s, w).since <= s.now
    ensures Step(s, Get(w, cnh, s.now)) == Go(s, w, ListingForCleanup(cnh, ThenRemoveFinalizer))
  {
    hide Environment, Go;
  }

  lemma DeletionLists(s: State, w: nat, cnh: Cnh, p: Pod)
    requires p in s.podVersions && p.cnhLabel == cnh.name
    ensures Step(Go(s, w, ListingForCleanup(cnh, ThenRemoveFinalizer)), ListForCleanup(w, [p])) ==
            Go(s, w, DeletingPods(cnh, [p], ThenRemoveFinalizer))
  {
    hide Environment;
    var s1 := Go(s, w, ListingForCleanup(cnh, ThenRemoveFinalizer));
    assert Go(s1, w, DeletingPods(cnh, [p], ThenRemoveFinalizer)) == Go(s, w, DeletingPods(cnh, [p], ThenRemoveFinalizer));
  }

  lemma DeletionStops(s: State, w: nat, cnh: Cnh, p: Pod)
    requires w in s.workers && s.workers[w] == Worker(DeletingPods(cnh, [p], ThenRemoveFinalizer), s.now)
    ensures Step(s, DeletePod(w, Done)) == Go(PodDeleted(s, p.name), w, RemovingFinalizer(cnh))
  {
    hide PodDeleted;
    assert [p][1..] == [];
  }

  lemma DeletionEnds(s: State, w: nat, cnh: Cnh)
    requires w in s.workers && s.workers[w] == Worker(RemovingFinalizer(cnh), s.now) && cnh.deleting && Current(s, cnh)
    ensures Step(s, Update(w, s.now, Done)) == Go(Removed(s, cnh.name), w, Idle(Finished))
  {}

  lemma StoredVersions(s: State, p: Pod)
    requires Inv(s) && p.cnhLabel in s.crs && p.name in s.pods && s.pods[p.name] == p
    ensures s.crs[p.cnhLabel] in s.versions && p in s.podVersions
  {}

  /** Whenever a resource is being deleted that has a pod, a reconcile with current reads and no failing call
      removes the resource; the pod is still there, until the kubelet has stopped its containers, exactly
      if it had not completed. */
  lemma DrainingPodOutlives(s: State, w: nat, p: Pod)
    requires Draining(s, w, p)
    ensures var s' := Run(s, Deletion(s, w, p));
            && StrictRun(s, Deletion(s, w, p))
            && p.cnhLabel !in s'.crs
            && (p.name in s'.pods <==> !PodCompleted(p))
            && (p.name in s'.pods ==> s'.pods[p.name] == p.(terminating := true))
  {
    hide Inv, Step, Run, StrictRun, Busy, PodCompleted;
    Keys(s);
    StoredVersions(s, p);
    forall n | n in s.pods && s.pods[n].cnhLabel == p.cnhLabel ensures s.pods[n] == p {
      StoredPodOk(s, n);
      StoredPodOk(s, p.name);
    }
    DeletionRun(s, w, p, s.crs[p.cnhLabel]);
  }

  /** A resource that is being deleted still has its pod p, and nobody but w, which is idle, is at work
      on it. */
  ghost predicate Draining(s: State, w: nat, p: Pod) {
    && Inv(s) && PcOf(s, w).Idle? && WorkerOf(s, w).since <= s.now
    && p.cnhLabel in s.crs && s.crs[p.cnhLabel].deleting && s.crs[p.cnhLabel].finalizer
    && (forall w' :: w' != w ==> !Busy(s, w', p.cnhLabel))
    && p.name in s.pods && s.pods[p.name] == p
  }

  lemma DeletionRun(s: State, w: nat, p: Pod, cnh: Cnh)
    requires p.cnhLabel in s.crs && cnh == s.crs[p.cnhLabel] && cnh.name == p.cnhLabel && cnh.deleting
    requires cnh in s.versions && p in s.podVersions && PcOf(s, w).Idle? && WorkerOf(s, w).since <= s.now
    requires forall w' :: w' != w ==> !Busy(s, w', p.cnhLabel)
    requires p.name in s.pods && s.pods[p.name] == p
    requires forall n :: n in s.pods && s.pods[n].cnhLabel == p.cnhLabel ==> s.pods[n] == p
    ensures StrictRun(s, Deletion(s, w, p))
    ensures var s2 := Go(s, w, DeletingPods(cnh, [p], ThenRemoveFinalizer));
            var s3 := Go(PodDeleted(s2, p.name), w, RemovingFinalizer(cnh));
            Run(s, Deletion(s, w, p)) == Go(Removed(s3, cnh.name), w, Idle(Finished))
  {
    hide Step, Strict, StrictRun, Run, Go, PodDeleted, Removed, Busy;
    DeletionReads(s, w, p);
    var s1 := Go(s, w, ListingForCleanup(cnh, ThenRemoveFinalizer));
    var s2 := Go(s, w, DeletingPods(cnh, [p], ThenRemoveFinalizer));
    var s3 := Go(PodDeleted(s2, p.name), w, RemovingFinalizer(cnh));
    DeletionWrites(s, w, cnh, p);
    FourSteps(s, Deletion(s, w, p));
    DeletionIsStrict(s, s1, s2, s3, w, p, cnh);
  }

  lemma DeletionWrites(s: State, w: nat, cnh: Cnh, p: Pod)
    requires p.name in s.pods && s.pods[p.name] == p
    requires cnh.name in s.crs && s.crs[cnh.name] == cnh && cnh.deleting
    ensures var s2 := Go(s, w, DeletingPods(cnh, [p], ThenRemoveFinalizer));
            var s3 := Go(PodDeleted(s2, p.name), w, RemovingFinalizer(cnh));
            Step(s2, DeletePod(w, Done)) == s3 && Step(s3, Update(w, s.now, Done)) == Go(Removed(s3, cnh.name), w, Idle(Finished))
  {
    hide Step;
    var s2 := Go(s, w, DeletingPods(cnh, [p], ThenRemoveFinalizer));
    DeletionStops(s2, w, cnh, p);
    DeletionEnds(Go(PodDeleted(s2, p.name), w, RemovingFinalizer(cnh)), w, cnh);
  }

  lemma DeletionIsStrict(s: State, s1: State, s2: State, s3: State, w: nat, p: Pod, cnh: Cnh)
    requires p.cnhLabel in s.crs && cnh == s.crs[p.cnhLabel] && cnh.name == p.cnhLabel
    requires forall w' :: w' != w ==> !Busy(s, w', p.cnhLabel)
    requires forall n :: n in s.pods && s.pods[n].cnhLabel == p.cnhLabel ==> s.pods[n] == p
    requires s1 == Go(s, w, ListingForCleanup(cnh, ThenRemoveFinalizer))
    ensures Strict(s, Get(w, cnh, s.now)) && Strict(s1, ListForCleanup(w, [p]))
    ensures Strict(s2, DeletePod(w, Done)) && Strict(s3, Update(w, s.now, Done))
  {}

  lemma FourSteps(s: State, a: seq<Action>)
    requires |a| == 4
    ensures Run(s, a) == Step(Step(Step(Step(s, a[0]), a[1]), a[2]), a[3])
    ensures (Strict(s, a[0]) && Strict(Step(s, a[0]), a[1]) && Strict(Step(Step(s, a[0]), a[1]), a[2])
             && Strict(Step(Step(Step(s, a[0]), a[1]), a[2]), a[3])) ==> StrictRun(s, a)
  {
    hide Step, Strict;
    TwoSteps(s, a[..2]);
    TwoSteps(Run(s, a[..2]), a[2..]);
    assert a == a[..2] + a[2..];
    RunConcat(s, a[..2], a[2..]);
    assert a[1..][1..] == a[2..];
    StrictTwo(Step(Step(s, a[0]), a[1]), a[2..]);
  }

  lemma TwoSteps(s: State, a: seq<Action>)
    requires |a| == 2
    ensures Run(s, a) == Step(Step(s, a[0]), a[1])
  {
    hide Step;
    assert a[1..][1..] == [];
    assert Run(Step(s, a[0]), a[1..]) == Step(Step(s, a[0]), a[1]);
  }

  lemma StrictTwo(s: State, a: seq<Action>)
    requires |a| == 2
    ensures StrictRun(s, a) <==> Strict(s, a[0]) && Strict(Step(s, a[0]), a[1])
  {
    hide Step, Strict;
    var rest := a[1..];
    assert rest[0] == a[1] && rest[1..] == [];
    assert StrictRun(Step(Step(s, a[0]), a[1]), rest[1..]);
    assert StrictRun(Step(s, a[0]), rest) <==> Strict(Step(s, a[0]), a[1]);
  }

  // ----- Such a pod in a run from the start -----

  /** A run with current reads and one reconcile per resource. */
  ghost predicate StrictlyReaches(s: State, s': State) {
    exists actions :: StrictRun(s, actions) && Run(s, actions) == s'
  }

  lemma {:induction false} StrictConcat(s: State, a: seq<Action>, b: seq<Action>)
    requires StrictRun(s, a) && StrictRun(Run(s, a), b)
    ensures StrictRun(s, a + b)
    decreases |a|
  {
    hide Step, Strict;
    if a == [] {
      assert a + b == b;
    } else {
      assert (a + b)[1..] == a[1..] + b;
      StrictConcat(Step(s, a[0]), a[1..], b);
    }
  }

  lemma StrictlyThen(s0: State, s: State, actions: seq<Action>)
    requires StrictlyReaches(s0, s) && StrictRun(s, actions)
    ensures StrictlyReaches(s0, Run(s, actions))
  {
    hide Run, StrictRun;
    var before :| StrictRun(s0, before) && Run(s0, before) == s;
    StrictConcat(s0, before, actions);
    RunConcat(s0, before, actions);
  }

  /** One strict step, of worker 0 or of the world. */
  lemma Next(s0: State, s: State, a: Action) returns (s': State)
    requires StrictlyReaches(s0, s) && Strict(s, a) && Alone(s) && (Actor(a).None? || Actor(a).value == 0)
    ensures s' == Step(s, a) && StrictlyReaches(s0, s') && Alone(s')
  {
    hide Step, StrictRun, Run;
    s' := Step(s, a);
    OneStep(s, a);
    StrictlyThen(s0, s, [a]);
    StaysAlone(s, a);
  }

  lemma OneStep(s: State, a: Action)
    ensures Run(s, [a]) == Step(s, a) && (StrictRun(s, [a]) <==> Strict(s, a))
  {
    hide Step, Strict;
    assert [a][1..] == [];
    assert StrictRun(Step(s, a), [a][1..]);
  }

  /** No worker but 0 has ever done anything. */
  ghost predicate Alone(s: State) {
    s.workers.Keys <= {0}
  }

  lemma StaysAlone(s: State, a: Action)
    requires Alone(s) && (Actor(a).None? || Actor(a).value == 0)
    ensures Alone(Step(s, a))
  {
    hide Enabled, Effect, NextPc, Environment;
    if Actor(a).None? {
      ApiServer.EnvironmentDoesNotDisturb(s, a);
    } else if Enabled(s, 0, PcOf(s, 0), a) {
      EffectFrame(s, 0, PcOf(s, 0), a);
    }
  }

  lemma NobodyBusy(s: State, name: string)
    requires Alone(s)
    ensures forall w :: w != 0 ==> !Busy(s, w, name)
  {}

  lemma ReachesKeepsInv(s0: State, s: State)
    requires Init(s0) && StrictlyReaches(s0, s)
    ensures Inv(s)
  {
    hide Inv, Run;
    var actions :| StrictRun(s0, actions) && Run(s0, actions) == s;
    RunsKeepInv(s0, actions);
  }

  lemma StartsStrictly(s0: State)
    requires Init(s0)
    ensures StrictlyReaches(s0, s0) && Alone(s0)
  {
    assert Run(s0, []) == s0 && StrictRun(s0, []);
  }

  /** A resource gets the finalizer. */
  lemma ResourceMade(s0: State, name: string, node: string) returns (s: State)
    requires Init(s0)
    ensures StrictlyReaches(s0, s) && Alone(s) && s.pods == map[]
    ensures Scene(s, 0, s0.last + 1, name, s0.now) && s.workers[0].pc.ListingPods? && s.workers[0].pc.cnh.finalizer
  {
    hide Step, StrictlyReaches;
    StartsStrictly(s0);
    Opens(s0, 0, name, node);
    Creates(s0, name, node);
    var s1 := Next(s0, s0, UserCreates(name, node));
    NobodyBusy(s1, name);
    var s2 := Next(s0, s1, Get(0, FreshCnh(s0, name, node), s0.now));
    Updates(s2, 0, s0.last + 1, name, s0.now);
    s := Next(s0, s2, Update(0, s0.now, Done));
  }

  /** It gets a pod. */
  lemma PodMade(s0: State, name: string, node: string) returns (s: State)
    requires Init(s0)
    ensures StrictlyReaches(s0, s) && Alone(s) && 0 in s.workers
    ensures name in s.crs && s.crs[name].name == name && s.crs[name].finalizer
    ensures PodName(name) in s.pods && s.pods[PodName(name)].cnhLabel == name && !PodCompleted(s.pods[PodName(name)])
  {
    hide Step, StrictlyReaches;
    var s3 := ResourceMade(s0, name, node);
    CreatesPod(s3, 0, s0.last + 1, name, s0.now);
    var s4 := Next(s0, s3, ListPods(0, None));
    s := Next(s0, s4, CreatePod(0, Done));
  }

  /** Then it is deleted, and its reconcile gives up. */
  lemma DrainingReached(s0: State, name: string, node: string) returns (s: State, p: Pod)
    requires Init(s0)
    ensures StrictlyReaches(s0, s) && Draining(s, 0, p) && !PodCompleted(p) && p.cnhLabel == name
  {
    hide Step, StrictlyReaches, Inv, PodCompleted, Busy;
    var s1 := PodMade(s0, name, node);
    p := s1.pods[PodName(name)];
    ReachesKeepsInv(s0, s1);
    Keys(s1);
    IsMarked(s1, 0, name);
    var s2 := Next(s0, s1, UserDeletes(name));
    s := Next(s0, s2, Abort(0));
    ReachesKeepsInv(s0, s);
    NobodyBusy(s, name);
  }

  /** So in a run from the start with current reads and one reconcile per resource, a pod is left without
      its resource, for every name. */
  lemma DrainingPodLeftBehind(s0: State, name: string, node: string)
    requires Init(s0)
    ensures exists s, n :: StrictlyReaches(s0, s) && n in s.pods && s.pods[n].cnhLabel == name && name !in s.crs
  {
    hide Step, Run, StrictRun, StrictlyReaches, Draining, PodCompleted;
    var s, p := DrainingReached(s0, name, node);
    assert name in s.crs by { IsDraining(s, 0, p); }
    DrainingPodOutlives(s, 0, p);
    StrictlyThen(s0, s, Deletion(s, 0, p));
    assert p.name in Run(s, Deletion(s, 0, p)).pods;
  }

  lemma IsDraining(s: State, w: nat, p: Pod)
    requires Draining(s, w, p)
    ensures p.cnhLabel in s.crs
  {}
}
