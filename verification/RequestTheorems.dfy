/** What the request controller guarantees in every run, with stale caches, failing calls and
    deletions anywhere in the chain. It relies on the checks' own write-once verdict. */
module RequestTheorems {
  import opened Api
  import opened Verdicts
  import opened HealthRequest
  import opened CheckSafety
  import P = CheckProtocol
  import T = CheckTheorems

  // ----- About checks: every version that was ever read has only evolved since -----

  /** No version is forgotten, and every new version is the one that is stored. */
  ghost predicate FromStore(s: P.State, s': P.State) {
    s.versions <= s'.versions && s.last <= s'.last && forall v :: v in s'.versions ==> v in s.versions || (v.name in s'.crs && s'.crs[v.name] == v)
  }

  lemma PutFromStore(s: P.State, c: P.Cnh)
    ensures FromStore(s, P.Put(s, c))
  {}

  lemma DeletedFromStore(s: P.State, name: string)
    requires Inv(s)
    ensures FromStore(s, P.Deleted(s, name))
  {
    hide Inv, P.Put, P.Stored;
    if name in s.crs && s.crs[name].finalizer {
      PutFromStore(s, P.Stored(s, s.crs[name].(deleting := true)));
    }
  }

  lemma ReportFromStore(s: P.State, uid: nat, results: seq<CheckResult>, reply: P.Reply)
    ensures FromStore(s, P.DoRunnerReports(s, uid, results, reply))
  {
    hide P.Stored, P.ReportOf;
  }

  lemma UpdateFromStore(s: P.State, pc: P.Pc, t: Time, reply: P.Reply)
    ensures FromStore(s, P.UpdateEffect(s, pc, t, reply))
  {
    hide P.Stored, P.Request;
  }

  lemma UserFromStore(s: P.State, name: string, node: string)
    requires Inv(s)
    ensures FromStore(s, P.DoUserCreates(s, name, node)) && FromStore(s, P.DoUserTouches(s, name))
  {
    hide Inv;
    if name in s.crs {
      StoredName(s, name);
    }
  }

  lemma StoredName(s: P.State, name: string)
    requires Inv(s) && name in s.crs
    ensures s.crs[name].name == name
  {}

  lemma SameFromStore(s: P.State, s': P.State)
    requires s'.versions == s.versions && s'.last == s.last
    ensures FromStore(s, s')
  {}

  lemma EnvironmentFromStore(s: P.State, a: P.Action)
    requires Inv(s)
    ensures FromStore(s, P.Environment(s, a))
  {
    hide Inv, FromStore, P.DoRunnerReports, P.Deleted, P.PodDeleted, P.DoUserCreates, P.DoUserTouches;
    match a
    case UserDeletes(name) => DeletedFromStore(s, name);
    case UserCreates(name, node) => UserFromStore(s, name, node);
    case UserTouches(name) => UserFromStore(s, name, "");
    case RunnerReports(uid, results, reply) => ReportFromStore(s, uid, results, reply);
    case PodEvicted(name) => PodDeletedVersions(s, name);
    case _ => SameFromStore(s, P.Environment(s, a));
  }

  lemma PodDeletedVersions(s: P.State, name: string)
    ensures FromStore(s, P.PodDeleted(s, name))
  {}

  lemma EffectFromStore(s: P.State, w: nat, pc: P.Pc, a: P.Action)
    requires Inv(s) && P.Enabled(s, w, pc, a)
    ensures FromStore(s, P.Effect(s, w, pc, a))
  {
    hide Inv, P.UpdateEffect, P.Deleted, P.PodDeleted;
    match a
    case Update(_, t, reply) => UpdateFromStore(s, pc, t, reply);
    case Delete(_, _) => DeletedFromStore(s, pc.cnh.name);
    case DeletePod(_, _) => PodDeletedVersions(s, pc.todo[0].name);
    case _ =>
  }

  lemma StepFromStore(s: P.State, a: P.Action)
    requires Inv(s)
    ensures FromStore(s, P.Step(s, a))
  {
    hide Inv, P.Environment, P.Effect, P.NextPc, P.Enabled;
    match P.Actor(a)
    case None => EnvironmentFromStore(s, a);
    case Some(w) =>
      if P.Enabled(s, w, P.PcOf(s, w), a) {
        EffectFromStore(s, w, P.PcOf(s, w), a);
      }
  }

  ghost predicate Evolving(s: P.State) {
    forall v :: v in s.versions && v.name in s.crs && s.crs[v.name].uid == v.uid ==> Evolves(v.status, s.crs[v.name].status)
  }

  lemma StepKeepsEvolving(s: P.State, a: P.Action)
    requires Inv(s) && Evolving(s)
    ensures Evolving(P.Step(s, a))
  {
    hide P.Step, Evolves;
    var s' := P.Step(s, a);
    StepKeeps(s, a);
    StepFromStore(s, a);
    forall v | v in s'.versions && v.name in s'.crs && s'.crs[v.name].uid == v.uid
      ensures Evolves(v.status, s'.crs[v.name].status)
    {
      if v in s.versions {
        VersionUid(s, v);
        var n := v.name;
        EvolvesTransitive(v.status, s.crs[n].status, s'.crs[n].status);
      } else {
        EvolvesReflexive(v.status);
      }
    }
  }

  lemma VersionUid(s: P.State, v: P.Cnh)
    requires Inv(s) && v in s.versions
    ensures v.uid <= s.last && VersionOk(v, s.commits, s.now)
  {
    assert VersionOk(v, s.commits, s.now) && v.rv <= s.last;
  }

  lemma EvolvesReflexive(a: Status)
    ensures Evolves(a, a)
  {}

  lemma {:induction false} RunKeepsEvolving(s: P.State, actions: seq<P.Action>)
    requires Inv(s) && Evolving(s)
    ensures Evolving(P.Run(s, actions))
    decreases |actions|
  {
    hide P.Step, Inv;
    if actions != [] {
      StepKeeps(s, actions[0]);
      StepKeepsEvolving(s, actions[0]);
      RunKeepsEvolving(P.Step(s, actions[0]), actions[1..]);
    }
  }

  lemma ChecksOk(s0: State, actions: seq<Action>)
    requires Init(s0)
    ensures Inv(Run(s0, actions).checks) && Evolving(Run(s0, actions).checks)
  {
    hide Run, P.Run, Inv;
    RunProjects(s0, actions);
    T.RunsKeepInv(s0.checks, ChecksOfRun(s0, actions));
    T.InitKeepsInv(s0.checks);
    RunKeepsEvolving(s0.checks, ChecksOfRun(s0, actions));
  }

  // ----- The invariant of the chain -----

  /** The conditions of g, if any, are those of a finished check that g owns. */
  ghost predicate Carries(versions: set<P.Cnh>, owners: map<nat, Owner>, g: Signal) {
    g.conditions != [] ==> exists v :: v in versions && Verdictful(owners, g.uid, v) && g.conditions == v.status.conditions
  }

  ghost predicate Verdictful(owners: map<nat, Owner>, signalUid: nat, v: P.Cnh) {
    v.status.finishedAt.Some? && v.uid in owners && owners[v.uid].signalUid == signalUid
  }

  ghost predicate SignalOk(s: State, g: Signal) {
    g.name == SignalName(g.request) && IsLower(g.request) && Carries(s.checks.versions, s.owners, g)
  }

  ghost predicate PcOk(s: State, pc: Pc) {
    match pc
    case Idle(_) => true
    case EnsuringSignal(r) => IsLower(r.name)
    case CreatingSignal(r) => IsLower(r.name)
    case EnsuringCheck(g, _) => g in s.signalVersions
    case CreatingCheck(g, _) => g in s.signalVersions
    case Syncing(g, check) => g in s.signalVersions && check in s.checks.versions && Verdictful(s.owners, g.uid, check)
  }

  ghost predicate OwnerOk(s: State, u: nat)
    requires u in s.owners
  {
    u <= s.checks.last && u in s.madeFor && s.owners[u].signal == SignalName(s.madeFor[u]) && IsLower(s.madeFor[u])
  }

  ghost predicate StoresOk(s: State) {
    && (forall n :: n in s.requests ==> s.requests[n].name == n && s.requests[n] in s.requestVersions)
    && (forall r :: r in s.requestVersions ==> IsLower(r.name))
    && (forall n :: n in s.signals ==> s.signals[n].name == n && s.signals[n] in s.signalVersions)
  }

  ghost predicate ChainInv(s: State) {
    && StoresOk(s)
    && (forall g :: g in s.signalVersions ==> SignalOk(s, g))
    && (forall u :: u in s.owners ==> OwnerOk(s, u))
    && (forall w :: w in s.workers ==> PcOk(s, s.workers[w]))
  }

  /** Nothing that the chain relies on is lost. */
  ghost predicate Grows(s: State, s': State) {
    && s.checks.versions <= s'.checks.versions && s.checks.last <= s'.checks.last
    && s.signalVersions <= s'.signalVersions
    && (forall u :: u in s.owners ==> u in s'.owners && s'.owners[u] == s.owners[u])
    && (forall u :: u in s.owners && u in s.madeFor ==> u in s'.madeFor && s'.madeFor[u] == s.madeFor[u])
  }

  lemma CarriesStill(s: State, s': State, g: Signal)
    requires Carries(s.checks.versions, s.owners, g) && Grows(s, s')
    ensures Carries(s'.checks.versions, s'.owners, g)
  {
    if g.conditions != [] {
      var v :| v in s.checks.versions && Verdictful(s.owners, g.uid, v) && g.conditions == v.status.conditions;
      assert v in s'.checks.versions && Verdictful(s'.owners, g.uid, v);
    }
  }

  lemma PcStill(s: State, s': State, pc: Pc)
    requires PcOk(s, pc) && Grows(s, s')
    ensures PcOk(s', pc)
  {
    hide IsLower;
  }

  /** What a step adds, and that the rest is kept. */
  lemma ChainFollows(s: State, s': State)
    requires ChainInv(s) && Grows(s, s') && StoresOk(s')
    requires forall g :: g in s'.signalVersions && g !in s.signalVersions ==> SignalOk(s', g)
    requires forall u :: u in s'.owners && u !in s.owners ==> OwnerOk(s', u)
    requires forall w :: w in s'.workers ==> PcOk(s', s'.workers[w]) || (w in s.workers && s'.workers[w] == s.workers[w])
    ensures ChainInv(s')
  {
    hide StoresOk, PcOk, Carries, SignalName, IsLower;
    assert Grows(s, s');
    forall g | g in s'.signalVersions ensures SignalOk(s', g) {
      if g in s.signalVersions {
        assert SignalOk(s, g);
        CarriesStill(s, s', g);
      }
    }
    forall u | u in s'.owners ensures OwnerOk(s', u) {
      if u in s.owners {
        assert OwnerOk(s, u);
      }
    }
    forall w | w in s'.workers ensures PcOk(s', s'.workers[w]) {
      if !PcOk(s', s'.workers[w]) {
        assert PcOk(s, s.workers[w]);
        PcStill(s, s', s.workers[w]);
      }
    }
  }

  lemma ChecksKeepChain(s: State, a: P.Action)
    requires ChainInv(s) && Inv(s.checks)
    ensures ChainInv(Step(s, CheckStep(a)))
  {
    hide P.Step, Inv, SignalOk, OwnerOk, PcOk;
    StepFromStore(s.checks, a);
    ChainFollows(s, Step(s, CheckStep(a)));
  }

  lemma PutSignalKeepsChain(s: State, g: Signal)
    requires ChainInv(s) && SignalOk(s, g)
    ensures ChainInv(PutSignal(s, g))
  {
    hide OwnerOk, PcOk, SignalOk, IsLower;
    SignalOkFixed(s, PutSignal(s, g), g);
    ChainFollows(s, PutSignal(s, g));
  }

  lemma SignalOkFixed(s: State, s': State, g: Signal)
    requires SignalOk(s, g) && s'.checks == s.checks && s'.owners == s.owners
    ensures SignalOk(s', g)
  {}

  lemma StoredSignalOk(s: State, g: Signal)
    requires ChainInv(s) && g in s.signalVersions
    ensures SignalOk(s, g)
  {}

  lemma TouchKeepsChain(s: State, n: string)
    requires ChainInv(s)
    ensures ChainInv(Environment(s, SignalTouched(n)))
  {
    hide ChainInv, PutSignal, SignalName, IsLower;
    if n in s.signals {
      InStore(s, n);
      var g := s.signals[n].(rv := s.last + 1);
      StoredSignalOk(s, s.signals[n]);
      PutSignalKeepsChain(s, g);
    }
  }

  lemma InStore(s: State, n: string)
    requires ChainInv(s) && n in s.signals
    ensures s.signals[n] in s.signalVersions && s.signals[n].name == n
  {}

  lemma RequestsFrame(s: State, a: Action)
    requires StoresOk(s) && (a.UserRequests? || a.UserWithdraws? || a.RequestRemoved?)
    ensures var s' := Environment(s, a);
            && StoresOk(s') && Grows(s, s')
            && s'.signalVersions == s.signalVersions && s'.owners == s.owners && s'.workers == s.workers
  {
    hide IsLower, StoresOk, Grows;
    NothingFrame(s);
    match a
    case UserRequests(name, target) =>
      if name !in s.requests && IsLower(name) {
        PutRequestFrame(s, HealthRequest.Request(name, s.last + 1, target, false), s.last + 1);
      }
    case UserWithdraws(name) =>
      if name in s.requests {
        StoredRequestLower(s, name);
        PutRequestFrame(s, s.requests[name].(deleting := true), s.last);
      }
    case RequestRemoved(name) => RequestRemovedFrame(s, name);
  }

  lemma NothingFrame(s: State)
    ensures Grows(s, s)
  {}

  lemma StoredRequestLower(s: State, n: string)
    requires StoresOk(s) && n in s.requests
    ensures IsLower(s.requests[n].name)
  {
    hide IsLower;
  }

  lemma PutRequestFrame(s: State, r: Request, last: nat)
    requires StoresOk(s) && IsLower(r.name)
    ensures var s' := PutRequest(s, r).(last := last);
            && StoresOk(s') && Grows(s, s')
            && s'.signalVersions == s.signalVersions && s'.owners == s.owners && s'.workers == s.workers
  {
    hide IsLower;
  }

  lemma RequestRemovedFrame(s: State, n: string)
    requires StoresOk(s)
    ensures StoresOk(s.(requests := s.requests - {n})) && Grows(s, s.(requests := s.requests - {n}))
  {
    hide IsLower;
  }

  lemma RequestsKeepChain(s: State, a: Action)
    requires ChainInv(s) && (a.UserRequests? || a.UserWithdraws? || a.RequestRemoved?)
    ensures ChainInv(Environment(s, a))
  {
    hide OwnerOk, PcOk, SignalOk, Environment, StoresOk, Grows;
    assert StoresOk(s);
    RequestsFrame(s, a);
    ChainFollows(s, Environment(s, a));
  }

  lemma SignalRemovedKeepsChain(s: State, n: string)
    requires ChainInv(s)
    ensures ChainInv(Environment(s, SignalRemoved(n)))
  {
    hide OwnerOk, PcOk, SignalOk, IsLower;
    ChainFollows(s, Environment(s, SignalRemoved(n)));
  }

  lemma EnvironmentKeepsChain(s: State, a: Action)
    requires ChainInv(s) && !a.CheckStep?
    ensures ChainInv(Environment(s, a))
  {
    hide ChainInv, PutSignal, PutRequest;
    match a
    case SignalTouched(n) => TouchKeepsChain(s, n);
    case SignalRemoved(n) => SignalRemovedKeepsChain(s, n);
    case UserRequests(_, _) => RequestsKeepChain(s, a);
    case UserWithdraws(_) => RequestsKeepChain(s, a);
    case RequestRemoved(_) => RequestsKeepChain(s, a);
    case _ =>
  }

  lemma GoKeepsChain(s: State, w: nat, pc: Pc)
    requires ChainInv(s) && PcOk(s, pc)
    ensures ChainInv(Go(s, w, pc))
  {
    hide OwnerOk, SignalOk, IsLower;
    ChainFollows(s, Go(s, w, pc));
  }

  lemma CreateSignalKeepsChain(s: State, w: nat, r: Request, reply: P.Reply)
    requires ChainInv(s) && IsLower(r.name)
    ensures ChainInv(DoCreateSignal(s, w, r, reply))
  {
    hide ChainInv, SignalName, IsLower, Go, PutSignal;
    var g := NewSignal(s, r);
    assert SignalOk(s, g);
    PutSignalKeepsChain(s, g);
    PutSignalHas(s, g);
    GoKeepsChain(s, w, Idle(Errored));
    GoKeepsChain(PutSignal(s, g), w, if reply.Done? then EnsuringCheck(g, r.target) else Idle(Errored));
  }

  lemma PutSignalHas(s: State, g: Signal)
    ensures g in PutSignal(s, g).signalVersions
  {}

  lemma CreatedUid(s: P.State, name: string, node: string)
    requires name !in s.crs
    ensures P.Step(s, P.UserCreates(name, node)).last == s.last + 1
  {}

  lemma CreateCheckKeepsChain(s: State, w: nat, g: Signal, target: string, reply: P.Reply)
    requires ChainInv(s) && Inv(s.checks) && g in s.signalVersions
    ensures ChainInv(DoCreateCheck(s, w, g, target, reply))
  {
    hide SignalName, IsLower, P.Step, Inv, SignalOk, OwnerOk, StoresOk;
    var s' := DoCreateCheck(s, w, g, target, reply);
    if reply.Refused? || g.name in s.checks.crs {
      GoKeepsChain(s, w, Idle(Errored));
    } else {
      CreatedUid(s.checks, g.name, target);
      StepFromStore(s.checks, P.UserCreates(g.name, target));
      assert OwnerOk(s', s.checks.last + 1) by { NewOwner(s, s', g); }
      OldOwners(s);
      SameStores(s, s');
      ChainFollows(s, s');
    }
  }

  lemma NewOwner(s: State, s': State, g: Signal)
    requires ChainInv(s) && g in s.signalVersions
    requires var u := s.checks.last + 1;
             s'.checks.last == u && u in s'.owners && s'.owners[u] == Owner(g.name, g.uid) && u in s'.madeFor && s'.madeFor[u] == g.request
    ensures OwnerOk(s', s.checks.last + 1)
  {
    assert SignalOk(s, g);
  }

  lemma OldOwners(s: State)
    requires ChainInv(s)
    ensures forall u :: u in s.owners ==> u <= s.checks.last && u in s.madeFor
  {
    forall u | u in s.owners ensures u <= s.checks.last && u in s.madeFor {
      assert OwnerOk(s, u);
    }
  }

  lemma SameStores(s: State, s': State)
    requires StoresOk(s) && s'.requests == s.requests && s'.requestVersions == s.requestVersions
    requires s'.signals == s.signals && s'.signalVersions == s.signalVersions
    ensures StoresOk(s')
  {}

  lemma SyncKeepsChain(s: State, w: nat, g: Signal, check: P.Cnh, reply: P.Reply)
    requires ChainInv(s) && g in s.signalVersions && check in s.checks.versions && Verdictful(s.owners, g.uid, check)
    ensures ChainInv(DoSync(s, w, g, check, reply))
  {
    hide ChainInv, SignalName, IsLower, Go, PutSignal;
    StoredSignalOk(s, g);
    var g' := Synced(g, check, s.last + 1);
    assert SignalOk(s, g');
    PutSignalKeepsChain(s, g');
    GoKeepsChain(s, w, Idle(Errored));
    GoKeepsChain(PutSignal(s, g'), w, Idle(if reply.Done? then Finished else Errored));
  }

  lemma WorkerKeepsChain(s: State, w: nat, pc: Pc, a: Action)
    requires ChainInv(s) && Inv(s.checks) && PcOf(s, w) == pc && Enabled(s, pc, a)
    ensures ChainInv(WorkerStep(s, w, pc, a))
  {
    hide Inv, Go, DoCreateSignal, DoCreateCheck, DoSync, IsLower, SignalOk, OwnerOk;
    assert PcOk(s, pc);
    match a
    case Get(_, r) => GoKeepsChain(s, w, if r.deleting then Idle(Finished) else EnsuringSignal(r));
    case Miss(_, failed) => GoKeepsChain(s, w, Idle(if failed then Errored else Finished));
    case ListSignals(_, found) =>
      GoKeepsChain(s, w, if found.None? then CreatingSignal(pc.request) else EnsuringCheck(found.value, pc.request.target));
    case CreateSignal(_, reply) => CreateSignalKeepsChain(s, w, pc.request, reply);
    case ListChecks(_, found) =>
      GoKeepsChain(s, w, if found.None? then CreatingCheck(pc.signal, pc.target) else AfterCheck(pc.signal, found.value));
    case CreateCheck(_, reply) => CreateCheckKeepsChain(s, w, pc.signal, pc.target, reply);
    case Sync(_, reply) => SyncKeepsChain(s, w, pc.signal, pc.check, reply);
    case _ => GoKeepsChain(s, w, Idle(Errored));
  }

  lemma StepKeepsChain(s: State, a: Action)
    requires ChainInv(s) && Inv(s.checks)
    ensures ChainInv(Step(s, a))
  {
    hide Inv, ChainInv, Environment, WorkerStep, Enabled;
    match Actor(a)
    case None =>
      if a.CheckStep? {
        ChecksKeepChain(s, a.a);
      } else {
        EnvironmentKeepsChain(s, a);
      }
    case Some(w) =>
      if Enabled(s, PcOf(s, w), a) {
        WorkerKeepsChain(s, w, PcOf(s, w), a);
      }
  }

  lemma {:induction false} RunKeepsChain(s: State, actions: seq<Action>)
    requires Init(s)
    ensures ChainInv(Run(s, actions))
  {
    hide Step, Inv;
    if actions != [] {
      var init := actions[..|actions| - 1];
      RunKeepsChain(s, init);
      ChecksOk(s, init);
      StepKeepsChain(Run(s, init), actions[|actions| - 1]);
    }
  }

  // ----- The theorems -----

  /** End-to-end verdict: in every run a signal is empty, or its conditions are exactly the verdict
      that was committed for one of the checks it owns - never the interim one - and as long as that
      check is stored they equal its conditions. */
  lemma EndToEndVerdict(s0: State, actions: seq<Action>, n: string)
    requires Init(s0) && n in Run(s0, actions).signals && Run(s0, actions).signals[n].conditions != []
    ensures var s := Run(s0, actions);
            var g := s.signals[n];
            exists u, t ::
              && u in s.owners && s.owners[u].signalUid == g.uid
              && IsVerdict(s.checks, u, t, g.conditions)
              && forall c :: c in s.checks.crs && s.checks.crs[c].uid == u ==> s.checks.crs[c].status.conditions == g.conditions
  {
    hide Inv, Run, P.Run;
    RunKeepsChain(s0, actions);
    ChecksOk(s0, actions);
    var s := Run(s0, actions);
    var g := s.signals[n];
    assert SignalOk(s, g);
    var v :| v in s.checks.versions && Verdictful(s.owners, g.uid, v) && g.conditions == v.status.conditions;
    VersionUid(s.checks, v);
    assert IsVerdict(s.checks, v.uid, v.status.finishedAt.value, g.conditions);
    forall c | c in s.checks.crs && s.checks.crs[c].uid == v.uid ensures s.checks.crs[c].status.conditions == g.conditions {
      SameName(s.checks, v, c);
    }
  }

  /** The one condition of a check whose completion was committed at t. */
  ghost predicate IsVerdict(checks: P.State, u: nat, t: Time, conditions: seq<Condition>) {
    u in checks.commits && conditions == [P.CompletedCondition(checks.commits[u].judged, t)] && conditions[0].reason != REASON_STARTED
  }

  lemma SameName(s: P.State, v: P.Cnh, c: string)
    requires Inv(s) && Evolving(s) && v in s.versions && c in s.crs && s.crs[c].uid == v.uid && v.status.finishedAt.Some?
    ensures s.crs[c].status.conditions == v.status.conditions
  {
    assert s.crs[c] in s.versions && s.crs[c].name == c;
  }

  /** At most one signal per request name. */
  lemma OneSignalPerRequest(s0: State, actions: seq<Action>, n: string, n': string)
    requires Init(s0)
    requires var s := Run(s0, actions); n in s.signals && n' in s.signals && s.signals[n].request == s.signals[n'].request
    ensures n == n'
  {
    hide SignalName, IsLower;
    RunKeepsChain(s0, actions);
    var s := Run(s0, actions);
    assert SignalOk(s, s.signals[n]) && SignalOk(s, s.signals[n']);
  }

  /** The event of a check made by reconciling a request goes back to exactly that request, whatever
      version of the signal the cache serves, or to none if it serves none. */
  lemma MapsBackToRequest(s0: State, actions: seq<Action>, u: nat, served: Option<Signal>)
    requires Init(s0) && u in Run(s0, actions).owners
    requires ServesSignal(Run(s0, actions), Run(s0, actions).owners[u].signal, served)
    ensures var s := Run(s0, actions);
            && u in s.madeFor
            && MapToRequests(s, u, served) == if served.Some? then [s.madeFor[u]] else []
  {
    hide SignalName, IsLower;
    RunKeepsChain(s0, actions);
    var s := Run(s0, actions);
    assert OwnerOk(s, u);
    if served.Some? {
      assert SignalOk(s, served.value);
      SignalNameInjective(served.value.request, s.madeFor[u]);
    }
  }
}
