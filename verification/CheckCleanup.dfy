/** No orphan checker pods. The finalizer protects a resource for as long as it can have a pod, if
    reads are current and each resource is reconciled by one worker at a time (the work queue of
    the controller); deletions, crashes and failing calls may come between any two steps. */
module CheckCleanup {
  import opened Api
  import opened CheckProtocol
  import opened CheckSafety
  import opened CheckTheorems

  ghost predicate Busy(s: State, w: nat, name: string) {
    w in s.workers && !s.workers[w].pc.Idle? && s.workers[w].pc.cnh.name == name
  }

  /** A step that the work queue and an up-to-date cache allow. */
  ghost predicate Strict(s: State, a: Action) {
    match a
    case Get(w, cnh, _) =>
      && cnh.name in s.crs && s.crs[cnh.name] == cnh
      && forall w' :: w' != w ==> !Busy(s, w', cnh.name)
    case ListPods(w, found) =>
      PcOf(s, w).ListingPods? ==>
        if found.Some? then found.value in s.pods.Values
        else forall n :: n in s.pods ==> s.pods[n].cnhLabel != PcOf(s, w).cnh.name
    case ListForCleanup(w, listed) =>
      PcOf(s, w).ListingForCleanup? ==>
        forall n :: n in s.pods && s.pods[n].cnhLabel == PcOf(s, w).cnh.name ==> s.pods[n] in listed
    case _ => true
  }

  ghost predicate StrictRun(s: State, actions: seq<Action>)
    decreases |actions|
  {
    actions == [] || (Strict(s, actions[0]) && StrictRun(Step(s, actions[0]), actions[1..]))
  }

  // ----- Invariant -----

  ghost predicate Live(pods: map<string, Pod>, n: string) {
    n in pods && !pods[n].terminating
  }

  ghost predicate Protected(crs: map<string, Cnh>, name: string, uid: nat) {
    name in crs && crs[name].uid == uid && crs[name].finalizer
  }

  ghost predicate LivePodsProtected(pods: map<string, Pod>, crs: map<string, Cnh>) {
    forall n :: Live(pods, n) ==> Protected(crs, pods[n].cnhLabel, pods[n].ownerUid)
  }

  ghost predicate Covers(todo: seq<Pod>, name: string) {
    exists p :: p in todo && p.name == name
  }

  /** What a worker may rely on at its place in the program. */
  ghost predicate PcClean(pc: Pc, pods: map<string, Pod>, crs: map<string, Cnh>) {
    match pc
    case ListingPods(cnh) => Protected(crs, cnh.name, cnh.uid)
    case CreatingPod(cnh) => Protected(crs, cnh.name, cnh.uid)
    case DeletingPods(cnh, todo, next) =>
      next.ThenRemoveFinalizer? ==> forall n :: Live(pods, n) && pods[n].cnhLabel == cnh.name ==> Covers(todo, n)
    case RemovingFinalizer(cnh) => forall n :: Live(pods, n) ==> pods[n].cnhLabel != cnh.name
    case _ => true
  }

  ghost predicate WorkersClean(workers: map<nat, Worker>, pods: map<string, Pod>, crs: map<string, Cnh>) {
    && (forall w :: w in workers ==> PcClean(workers[w].pc, pods, crs))
    && (forall w, w' :: w in workers && w' in workers && w != w' && !workers[w].pc.Idle? && !workers[w'].pc.Idle? ==>
          workers[w].pc.cnh.name != workers[w'].pc.cnh.name)
  }

  ghost predicate Clean(s: State) {
    LivePodsProtected(s.pods, s.crs) && WorkersClean(s.workers, s.pods, s.crs)
  }

  // ----- How the store moves -----

  /** Finalizers stay where they are. */
  ghost predicate FinalizersStay(crs: map<string, Cnh>, crs': map<string, Cnh>) {
    forall n, uid :: Protected(crs, n, uid) ==> Protected(crs', n, uid)
  }

  /** No pod comes to life. */
  ghost predicate NoNewLife(pods: map<string, Pod>, pods': map<string, Pod>) {
    forall n :: Live(pods', n) ==>
      Live(pods, n) && pods'[n].cnhLabel == pods[n].cnhLabel && pods'[n].ownerUid == pods[n].ownerUid
  }

  lemma CleanFollows(workers: map<nat, Worker>, pods: map<string, Pod>, crs: map<string, Cnh>, pods': map<string, Pod>, crs': map<string, Cnh>)
    requires LivePodsProtected(pods, crs) && WorkersClean(workers, pods, crs)
    requires FinalizersStay(crs, crs') && NoNewLife(pods, pods')
    ensures LivePodsProtected(pods', crs') && WorkersClean(workers, pods', crs')
  {
    forall w | w in workers ensures PcClean(workers[w].pc, pods', crs') {
      assert PcClean(workers[w].pc, pods, crs);
    }
  }

  /** Objects are stored under their own names. */
  lemma Keys(s: State)
    requires Inv(s)
    ensures forall n :: n in s.crs ==> s.crs[n].name == n
    ensures forall n :: n in s.pods ==> s.pods[n].name == n
  {}

  ghost predicate Moves(s: State, s': State) {
    FinalizersStay(s.crs, s'.crs) && NoNewLife(s.pods, s'.pods) && s'.workers == s.workers
  }

  lemma DeletedMoves(s: State, name: string)
    requires Inv(s)
    ensures Moves(s, Deleted(s, name))
  {
    hide Inv;
    Keys(s);
  }

  lemma PodDeletedMoves(s: State, name: string)
    requires Inv(s)
    ensures Moves(s, PodDeleted(s, name))
  {
    hide Inv;
    Keys(s);
  }

  lemma UserMoves(s: State, name: string, node: string)
    requires Inv(s)
    ensures Moves(s, DoUserCreates(s, name, node)) && Moves(s, DoUserTouches(s, name))
  {
    hide Inv;
    Keys(s);
  }

  lemma KubeletMoves(s: State, name: string, phase: Phase, containers: seq<ContainerState>)
    requires Inv(s)
    ensures Moves(s, DoKubeletReports(s, name, phase, containers)) && Moves(s, DoKubeletRemoves(s, name))
  {
    hide Inv, Moves;
    Keys(s);
    StandsStill(s);
    RemovedMoves(s, name);
    if name in s.pods {
      KeepsLife(s, s.pods[name].(phase := phase, containers := containers));
    }
  }

  /** Storing a pod under its name, with the same owner and no new life. */
  lemma KeepsLife(s: State, p: Pod)
    requires Inv(s)
    requires p.name in s.pods && p.cnhLabel == s.pods[p.name].cnhLabel && p.ownerUid == s.pods[p.name].ownerUid
    requires s.pods[p.name].terminating ==> p.terminating
    ensures Moves(s, PutPod(s, p))
  {
    hide Inv;
  }

  lemma RemovedMoves(s: State, name: string)
    ensures Moves(s, s.(pods := s.pods - {name}))
  {}

  lemma EnvironmentMoves(s: State, a: Action)
    requires Inv(s)
    ensures Moves(s, Environment(s, a))
  {
    hide Inv;
    match a
    case UserCreates(name, node) => UserMoves(s, name, node);
    case UserDeletes(name) => DeletedMoves(s, name);
    case UserTouches(name) => UserMoves(s, name, "");
    case KubeletReports(name, phase, containers) => KubeletMoves(s, name, phase, containers);
    case PodEvicted(name) => PodDeletedMoves(s, name);
    case KubeletRemoves(name) => KubeletMoves(s, name, Pending, []);
    case RunnerReports(uid, results, reply) => ReportMoves(s, uid, results, reply);
    case _ =>
  }

  lemma ReportMoves(s: State, uid: nat, results: seq<CheckResult>, reply: Reply)
    requires Inv(s)
    ensures Moves(s, DoRunnerReports(s, uid, results, reply))
  {
    hide Inv;
    if uid in s.runners && s.runners[uid].pc.Fetched? {
      FetchedFacts(s, uid);
      var cnh := s.runners[uid].pc.cnh;
      if Current(s, cnh) {
        CurrentIsStored(s, cnh);
      }
    }
  }

  lemma UpdateMoves(s: State, w: nat, pc: Pc, t: Time, reply: Reply)
    requires Inv(s) && At(s, w, pc) && ClockReading(s, w, t) && Updating(pc) && !pc.RemovingFinalizer?
    ensures Moves(s, UpdateEffect(s, pc, t, reply))
  {
    hide Inv, Stored, Put, Moves;
    StandsStill(s);
    if Request(pc, t).Some? && Accepted(s, Request(pc, t).value, reply) {
      RequestOk(s, w, pc, t);
      CurrentIsStored(s, pc.cnh);
      var sent := Request(pc, t).value;
      PutMovesFinalizer(s, sent);
      MovesKeepsCommits(s, Put(s, Stored(s, sent)), s.commits[pc.cnh.uid := CommitOf(pc.cnh, if pc.Deciding? then pc.pod else NewPod(s, pc.cnh))]);
    }
  }

  lemma StandsStill(s: State)
    ensures Moves(s, s)
  {}

  lemma PutMovesFinalizer(s: State, sent: Cnh)
    requires Inv(s) && sent.name in s.crs && sent.uid == s.crs[sent.name].uid
    requires s.crs[sent.name].finalizer ==> sent.finalizer
    ensures Moves(s, Put(s, Stored(s, sent)))
  {
    hide Inv;
    Keys(s);
  }

  lemma MovesKeepsCommits(s: State, s': State, commits: map<nat, Commit>)
    requires Moves(s, s')
    ensures Moves(s, s'.(commits := commits))
  {}

  /** All worker calls except the two that end and begin a pod's protection. */
  lemma EffectMoves(s: State, w: nat, pc: Pc, a: Action)
    requires Inv(s) && At(s, w, pc) && Enabled(s, w, pc, a)
    requires !a.CreatePod? && !(a.Update? && pc.RemovingFinalizer?)
    ensures Moves(s, Effect(s, w, pc, a))
  {
    hide Inv;
    match a
    case Update(_, t, reply) => UpdateMoves(s, w, pc, t, reply);
    case Delete(_, reply) => DeletedMoves(s, pc.cnh.name);
    case DeletePod(_, reply) => PodDeletedMoves(s, pc.todo[0].name);
    case _ =>
  }

  lemma NextClean(s: State, w: nat, pc: Pc, a: Action)
    requires Inv(s) && Clean(s) && Actor(a) == Some(w) && At(s, w, pc) && Enabled(s, w, pc, a) && Strict(s, a)
    requires !a.CreatePod? && !(a.Update? && pc.RemovingFinalizer?)
    ensures var s' := Effect(s, w, pc, a); PcClean(NextPc(s, w, pc, a), s'.pods, s'.crs)
    ensures var next := NextPc(s, w, pc, a); next.Idle? || (if a.Get? then next.cnh == a.read else !pc.Idle? && next.cnh.name == pc.cnh.name)
  {
    hide Inv;
    assert PcClean(s.workers[w].pc, s.pods, s.crs);
    match a
    case Update(_, t, reply) =>
      UpdateNextClean(s, w, pc, t, reply);
    case DeletePod(_, reply) =>
      DeleteNextClean(s, w, pc, reply);
    case ListForCleanup(_, listed) =>
      ListNextClean(s, pc, listed);
    case _ =>
  }

  lemma UpdateNextClean(s: State, w: nat, pc: Pc, t: Time, reply: Reply)
    requires Inv(s) && At(s, w, pc) && ClockReading(s, w, t) && Updating(pc) && !pc.RemovingFinalizer?
    ensures var s' := UpdateEffect(s, pc, t, reply); PcClean(UpdatePc(s, pc, t, reply), s'.pods, s'.crs)
    ensures var next := UpdatePc(s, pc, t, reply); next.Idle? || next.cnh.name == pc.cnh.name
  {
    hide Inv;
    if Request(pc, t).Some? && Accepted(s, Request(pc, t).value, reply) {
      RequestOk(s, w, pc, t);
      CurrentIsStored(s, pc.cnh);
    }
  }

  lemma ListNextClean(s: State, pc: Pc, listed: seq<Pod>)
    requires Inv(s) && pc.ListingForCleanup?
    requires forall n :: n in s.pods && s.pods[n].cnhLabel == pc.cnh.name ==> s.pods[n] in listed
    ensures PcClean(AfterCleanup(pc.cnh, listed, pc.next), s.pods, s.crs)
  {
    hide Inv;
    Keys(s);
    forall n | Live(s.pods, n) && s.pods[n].cnhLabel == pc.cnh.name ensures Covers(listed, n) {
      assert s.pods[n] in listed;
    }
  }

  lemma DeleteNextClean(s: State, w: nat, pc: Pc, reply: Reply)
    requires Inv(s) && PcClean(pc, s.pods, s.crs) && pc.DeletingPods? && pc.todo != []
    ensures var s' := if reply.Refused? then s else PodDeleted(s, pc.todo[0].name);
            reply.Done? ==> PcClean(AfterCleanup(pc.cnh, pc.todo[1..], pc.next), s'.pods, s'.crs)
  {
    hide Inv, PodCompleted, Covers, PcClean;
    Keys(s);
    var s' := PodDeleted(s, pc.todo[0].name);
    CleanMeans(pc, s.pods, s.crs);
    CleanMeans(AfterCleanup(pc.cnh, pc.todo[1..], pc.next), s'.pods, s'.crs);
    if reply.Done? && pc.next.ThenRemoveFinalizer? {
      forall n | Live(s'.pods, n) && s'.pods[n].cnhLabel == pc.cnh.name ensures Covers(pc.todo[1..], n) {
        assert Live(s.pods, n) && s.pods[n] == s'.pods[n] && n != pc.todo[0].name;
        CoversRest(pc.todo, n);
      }
    }
  }

  lemma CoversRest(todo: seq<Pod>, n: string)
    requires todo != [] && Covers(todo, n) && todo[0].name != n
    ensures Covers(todo[1..], n)
  {
    var p :| p in todo && p.name == n;
    assert p in todo[1..];
  }

  lemma CleanMeans(pc: Pc, pods: map<string, Pod>, crs: map<string, Cnh>)
    ensures pc.DeletingPods? && pc.next.ThenRemoveFinalizer? ==>
              (PcClean(pc, pods, crs) <==> forall n :: Live(pods, n) && pods[n].cnhLabel == pc.cnh.name ==> Covers(pc.todo, n))
    ensures pc.DeletingPods? && !pc.next.ThenRemoveFinalizer? ==> PcClean(pc, pods, crs)
    ensures pc.RemovingFinalizer? ==>
              (PcClean(pc, pods, crs) <==> forall n :: Live(pods, n) ==> pods[n].cnhLabel != pc.cnh.name)
    ensures pc.Idle? ==> PcClean(pc, pods, crs)
    ensures forall n :: !Covers([], n)
  {}

  /** A new pod is born protected. */
  lemma CreatePodEffect(s: State, w: nat, pc: Pc, a: Action)
    requires Actor(a) == Some(w) && At(s, w, pc) && Enabled(s, w, pc, a) && a.CreatePod?
    ensures var s' := Step(s, a);
            && s'.crs == s.crs
            && s'.workers == s.workers[w := Worker(s'.workers[w].pc, s.now)]
            && (s'.workers[w].pc.Idle? || s'.workers[w].pc == Refetching(pc.cnh))
            && forall n :: n in s'.pods ==>
                 || (n in s.pods && s'.pods[n] == s.pods[n])
                 || (n !in s.pods && s'.pods[n].cnhLabel == pc.cnh.name && s'.pods[n].ownerUid == pc.cnh.uid)
  {}

  lemma CreatePodClean(s: State, w: nat, pc: Pc, a: Action)
    requires Inv(s) && Clean(s) && Actor(a) == Some(w) && At(s, w, pc) && Enabled(s, w, pc, a) && a.CreatePod?
    ensures Clean(Step(s, a))
  {
    hide Inv, Step, Protected;
    assert PcClean(s.workers[w].pc, s.pods, s.crs);
    var s' := Step(s, a);
    CreatePodEffect(s, w, pc, a);
    forall n | Live(s'.pods, n) ensures Protected(s'.crs, s'.pods[n].cnhLabel, s'.pods[n].ownerUid) {
      if n in s.pods {
        assert Live(s.pods, n);
      }
    }
    forall w' | w' in s'.workers ensures PcClean(s'.workers[w'].pc, s'.pods, s'.crs) {
      if w' != w {
        assert PcClean(s.workers[w'].pc, s.pods, s.crs);
      }
    }
  }

  /** Protection ends only when no live pod is left. */
  lemma RemoveFinalizerClean(s: State, w: nat, pc: Pc, a: Action)
    requires Inv(s) && Clean(s) && Actor(a) == Some(w) && At(s, w, pc) && Enabled(s, w, pc, a) && a.Update? && pc.RemovingFinalizer?
    ensures Clean(Step(s, a))
  {
    hide Inv;
    var s1 := UpdateEffect(s, pc, a.t, a.reply);
    assert PcClean(pc, s.pods, s.crs);
    RemovalKeepsOthers(s, w, pc, a.t, a.reply);
    UnprotectedClean(s.workers, w, s.pods, s.crs, s1.crs, pc.cnh.name);
    EffectFrame(s, w, pc, a);
  }

  lemma RemovalKeepsOthers(s: State, w: nat, pc: Pc, t: Time, reply: Reply)
    requires Inv(s) && At(s, w, pc) && pc.RemovingFinalizer? && ClockReading(s, w, t)
    ensures var s' := UpdateEffect(s, pc, t, reply);
            && s'.pods == s.pods
            && forall n :: n in s.crs && n != pc.cnh.name ==> n in s'.crs && s'.crs[n] == s.crs[n]
  {
    hide Inv, Evolves, StartupResult, WithResult, CompletedStatus, StartedStatus, Put;
    if Accepted(s, Request(pc, t).value, reply) {
      RequestOk(s, w, pc, t);
      PutKeepsOthers(s, Stored(s, Request(pc, t).value));
    }
  }

  lemma PutKeepsOthers(s: State, cnh: Cnh)
    ensures Put(s, cnh).pods == s.pods && Put(s, cnh).crs == s.crs[cnh.name := cnh]
  {}

  lemma UnprotectedClean(workers: map<nat, Worker>, w: nat, pods: map<string, Pod>, crs: map<string, Cnh>, crs': map<string, Cnh>, name: string)
    requires LivePodsProtected(pods, crs) && WorkersClean(workers, pods, crs)
    requires w in workers && !workers[w].pc.Idle? && workers[w].pc.cnh.name == name
    requires forall n :: Live(pods, n) ==> pods[n].cnhLabel != name
    requires forall n :: n in crs && n != name ==> n in crs' && crs'[n] == crs[n]
    ensures LivePodsProtected(pods, crs')
    ensures forall now, o :: WorkersClean(workers[w := Worker(Idle(o), now)], pods, crs')
  {
    forall w' | w' in workers && w' != w ensures PcClean(workers[w'].pc, pods, crs') {
      assert PcClean(workers[w'].pc, pods, crs);
    }
  }

  lemma WorkerStepClean(s: State, w: nat, pc: Pc, a: Action)
    requires Inv(s) && Clean(s) && At(s, w, pc) && Enabled(s, w, pc, a) && Strict(s, a) && Actor(a) == Some(w)
    requires !a.CreatePod? && !(a.Update? && pc.RemovingFinalizer?)
    ensures Clean(Step(s, a))
  {
    hide Inv;
    var s1 := Effect(s, w, pc, a);
    EffectFrame(s, w, pc, a);
    EffectMoves(s, w, pc, a);
    CleanFollows(s.workers, s.pods, s.crs, s1.pods, s1.crs);
    NextClean(s, w, pc, a);
    GoClean(s1, w, NextPc(s, w, pc, a));
  }

  lemma GoClean(s: State, w: nat, pc: Pc)
    requires Clean(s) && PcClean(pc, s.pods, s.crs)
    requires !pc.Idle? ==> forall w' :: w' != w ==> !Busy(s, w', pc.cnh.name)
    ensures Clean(Go(s, w, pc))
  {
    forall w' | w' in s.workers && w' != w ensures pc.Idle? || s.workers[w'].pc.Idle? || s.workers[w'].pc.cnh.name != pc.cnh.name {
      assert pc.Idle? || !Busy(s, w', pc.cnh.name);
    }
  }

  lemma StepClean(s: State, a: Action)
    requires Inv(s) && Clean(s) && Strict(s, a)
    ensures Clean(Step(s, a))
  {
    hide Inv;
    match Actor(a)
    case None =>
      EnvironmentMoves(s, a);
      var s' := Environment(s, a);
      CleanFollows(s.workers, s.pods, s.crs, s'.pods, s'.crs);
    case Some(w) =>
      var pc := PcOf(s, w);
      if Enabled(s, w, pc, a) {
        if w !in s.workers {
          GoClean(s, w, NextPc(s, w, pc, a));
        } else if a.CreatePod? {
          CreatePodClean(s, w, pc, a);
        } else if a.Update? && pc.RemovingFinalizer? {
          RemoveFinalizerClean(s, w, pc, a);
        } else {
          WorkerStepClean(s, w, pc, a);
        }
      }
  }

  lemma {:induction false} StrictRunClean(s: State, actions: seq<Action>)
    requires Inv(s) && Clean(s) && StrictRun(s, actions)
    ensures Inv(Run(s, actions)) && Clean(Run(s, actions))
    decreases |actions|
  {
    hide Inv, Clean, Step, Strict;
    if actions != [] {
      StepKeeps(s, actions[0]);
      StepClean(s, actions[0]);
      StrictRunClean(Step(s, actions[0]), actions[1..]);
    }
  }

  /** In every run of that kind, a checker pod that is not already being deleted belongs to a resource
      that exists and still carries the finalizer. */
  lemma NoOrphanPods(s0: State, actions: seq<Action>, n: string)
    requires Init(s0) && StrictRun(s0, actions)
    requires n in Run(s0, actions).pods && !Run(s0, actions).pods[n].terminating
    ensures var s := Run(s0, actions);
            var owner := s.pods[n].cnhLabel;
            owner in s.crs && s.crs[owner].finalizer && s.crs[owner].uid == s.pods[n].ownerUid
  {
    InitKeepsInv(s0);
    StrictRunClean(s0, actions);
    var s := Run(s0, actions);
    assert Live(s.pods, n) && Protected(s.crs, s.pods[n].cnhLabel, s.pods[n].ownerUid);
  }

  /** In every run at all, a resource has at most one pod. */
  lemma AtMostOnePod(s0: State, actions: seq<Action>, n: string, n': string)
    requires Init(s0)
    requires var s := Run(s0, actions); n in s.pods && n' in s.pods && s.pods[n].cnhLabel == s.pods[n'].cnhLabel
    ensures n == n'
  {
    RunsKeepInv(s0, actions);
    StoredPodOk(Run(s0, actions), n);
    StoredPodOk(Run(s0, actions), n');
    Keys(Run(s0, actions));
  }
}
