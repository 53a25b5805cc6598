/** The CheckNodeHealth protocol as a transition system. Controller workers, checker pods, users and
    the kubelet share one API server; every API call is one step, so any interleaving is a run.

    A worker reads through a cache, which may serve any version that was ever stored. A write
    carries the resource version that was read and is refused when the stored one has moved on.
    A reply may be lost: the write took effect but the caller sees an error. */
module CheckProtocol {
  import opened Api
  import opened Verdicts

  const CR_TTL: Time := 6 * HOUR
  const POD_TIMEOUT: Time := 2 * MINUTE
  const MAX_POD_NAME_LENGTH := 253
  const POD_NAME_PREFIX := "check-node-health-"

  // ----- Objects -----

  datatype Cnh = Cnh(
    name: string,
    uid: nat,
    rv: nat,
    node: string,
    created: Time,
    deleting: bool,
    finalizer: bool,
    status: Status)

  datatype Phase = Pending | Running | Succeeded | Failed | PhaseUnknown

  datatype ContainerState = Waiting | Started | Terminated(startedAt: Option<Time>)

  datatype Pod = Pod(
    name: string,
    uid: nat,
    cnhLabel: string,
    ownerUid: nat,
    created: Time,
    phase: Phase,
    containers: seq<ContainerState>,
    terminating: bool)

  function PodName(cnhName: string): string {
    var desired := POD_NAME_PREFIX + cnhName;
    if |desired| > MAX_POD_NAME_LENGTH then desired[..MAX_POD_NAME_LENGTH] else desired
  }

  // ----- What the writers make of a status -----

  function StartedCondition(t: Time): Condition {
    Condition(HEALTHY, ConditionUnknown, REASON_STARTED, "", t)
  }

  function StartedStatus(status: Status, t: Time): Status {
    status.(startedAt := Some(t), conditions := [StartedCondition(t)])
  }

  function CompletedCondition(judged: seq<CheckResult>, t: Time): Condition {
    Condition(HEALTHY, Verdict(judged), ReasonOf(Verdict(judged)), Message(judged), t)
  }

  function CompletedStatus(status: Status, t: Time): Status {
    status.(finishedAt := Some(t), conditions := [CompletedCondition(status.results, t)])
  }

  /** Overwrites the first result of that name, or appends. */
  function WithResult(results: seq<CheckResult>, r: CheckResult): seq<CheckResult> {
    if results == [] then [r]
    else if results[0].name == r.name then [r] + results[1..]
    else [results[0]] + WithResult(results[1..], r)
  }

  predicate HasStarted(c: ContainerState) {
    c.Started? || (c.Terminated? && c.startedAt.Some?)
  }

  predicate AllContainersStarted(containers: seq<ContainerState>) {
    |containers| > 0 && forall c :: c in containers ==> HasStarted(c)
  }

  predicate PodTimedOut(pod: Pod, t: Time) {
    t - pod.created > POD_TIMEOUT
  }

  predicate PodCompleted(pod: Pod) {
    pod.phase == Succeeded || pod.phase == Failed
  }

  const STARTUP_HEALTHY := CheckResult(POD_STARTUP, Healthy, "All containers started successfully", "")
  const STARTUP_UNHEALTHY := CheckResult(POD_STARTUP, Unhealthy, "Pod stuck in Pending state - timeout exceeded", "")

  function StartupResult(pod: Pod, t: Time): Option<CheckResult> {
    if AllContainersStarted(pod.containers) then Some(STARTUP_HEALTHY)
    else if pod.phase == Pending && PodTimedOut(pod, t) then Some(STARTUP_UNHEALTHY)
    else None
  }

  /** The checkers a checker pod runs. */
  const RUNNER_CHECKERS: seq<string> := [POD_NETWORK]

  /** A runner reports one result per checker, in the iteration order of a Go map. */
  predicate ReportOf(results: seq<CheckResult>) {
    multiset(Names(results)) == multiset(RUNNER_CHECKERS)
  }

  // ----- Processes -----

  /** Why a worker cleans up pods: the check is being deleted, was found completed, or has just been
      completed, in which case a failing cleanup is not reported. */
  datatype Next = ThenRemoveFinalizer | ThenNothing | AfterVerdict

  /** What the last reconcile of an idle worker came to. */
  datatype Outcome = NeverRan | Finished | Requeued | Errored

  /** Where a worker stands between two API calls of one Reconcile, with its private copies. */
  datatype Pc =
    | Idle(outcome: Outcome)
    | AddingFinalizer(cnh: Cnh)
    | Deleting(cnh: Cnh)
    | ListingPods(cnh: Cnh)
    | CreatingPod(cnh: Cnh)
    | Refetching(cnh: Cnh)
    | Starting(cnh: Cnh, pod: Pod)
    | ReportingStartup(cnh: Cnh, pod: Pod)
    | Deciding(cnh: Cnh, pod: Pod)
    | UpdatingNode(cnh: Cnh)
    | Recording(cnh: Cnh)
    | ListingForCleanup(cnh: Cnh, next: Next)
    | DeletingPods(cnh: Cnh, todo: seq<Pod>, next: Next)
    | RemovingFinalizer(cnh: Cnh)

  /** since is the time of the worker's last step; the clock readings of its next step are later. */
  datatype Worker = Worker(pc: Pc, since: Time)

  datatype RunnerPc =
    | Checking
    | Fetched(cnh: Cnh)
    | ExitedOk(wrote: nat)
    | ExitedWithError

  datatype Runner = Runner(name: string, ownerUid: nat, pc: RunnerPc)

  /** History variables: every completion that took effect, and every call of the breaker. */
  datatype Commit = Commit(judged: seq<CheckResult>, sawOwnPodSucceed: bool)

  datatype Feed = Feed(uid: nat, failing: bool)

  datatype State = State(
    now: Time,
    last: nat,
    enableNodeCondition: bool,
    crs: map<string, Cnh>,
    versions: set<Cnh>,
    pods: map<string, Pod>,
    podVersions: set<Pod>,
    runners: map<nat, Runner>,
    workers: map<nat, Worker>,
    commits: map<nat, Commit>,
    feeds: seq<Feed>)

  datatype Reply = Done | Refused | Lost

  datatype Action =
    | Tick(elapsed: nat)
    | UserCreates(name: string, node: string)
    | UserDeletes(name: string)
    | UserTouches(name: string)
    | KubeletReports(podName: string, phase: Phase, containers: seq<ContainerState>)
    | PodEvicted(podName: string)
    | KubeletRemoves(podName: string)
    | RunnerFetches(uid: nat)
    | RunnerReports(uid: nat, results: seq<CheckResult>, reply: Reply)
    | RunnerDies(uid: nat)
    | Get(w: nat, read: Cnh, t: Time)
    | Miss(w: nat, failed: bool)
    | Update(w: nat, t: Time, reply: Reply)
    | Delete(w: nat, reply: Reply)
    | ListPods(w: nat, found: Option<Pod>)
    | CreatePod(w: nat, reply: Reply)
    | Refetch(w: nat, pod: Pod)
    | UpdateNode(w: nat)
    | Record(w: nat)
    | ListForCleanup(w: nat, listed: seq<Pod>)
    | DeletePod(w: nat, reply: Reply)
    | Abort(w: nat)

  // ----- The API server -----

  predicate Current(s: State, cnh: Cnh) {
    cnh.name in s.crs && s.crs[cnh.name].rv == cnh.rv
  }

  /** The object as stored: a write that changes nothing keeps its resource version. */
  function Stored(s: State, cnh: Cnh): Cnh {
    if cnh.name in s.crs && cnh == s.crs[cnh.name] then cnh else cnh.(rv := s.last + 1)
  }

  function Put(s: State, cnh: Cnh): State {
    s.(crs := s.crs[cnh.name := cnh],
       versions := s.versions + {cnh},
       last := if cnh.rv > s.last then cnh.rv else s.last)
  }

  function Removed(s: State, name: string): State {
    s.(crs := s.crs - {name}, last := s.last + 1)
  }

  /** A delete call: immediate without finalizers, otherwise only a mark. */
  function Deleted(s: State, name: string): State {
    if name !in s.crs then s
    else if !s.crs[name].finalizer then Removed(s, name)
    else Put(s, Stored(s, s.crs[name].(deleting := true)))
  }

  function PutPod(s: State, pod: Pod): State {
    s.(pods := s.pods[pod.name := pod], podVersions := s.podVersions + {pod})
  }

  /** A delete call for a pod: immediate once it has completed, otherwise the kubelet must first
      stop its containers. */
  function PodDeleted(s: State, name: string): State {
    if name !in s.pods then s
    else if PodCompleted(s.pods[name]) then s.(pods := s.pods - {name})
    else PutPod(s, s.pods[name].(terminating := true))
  }

  // ----- Worker steps -----

  function WorkerOf(s: State, w: nat): Worker {
    if w in s.workers then s.workers[w] else Worker(Idle(NeverRan), s.now)
  }

  function PcOf(s: State, w: nat): Pc {
    WorkerOf(s, w).pc
  }

  function Go(s: State, w: nat, pc: Pc): State {
    s.(workers := s.workers[w := Worker(pc, s.now)])
  }

  /** A clock reading taken after the worker's last step and not later than now. */
  predicate ClockReading(s: State, w: nat, t: Time) {
    WorkerOf(s, w).since <= t <= s.now
  }

  function AfterFinalizer(cnh: Cnh): Pc {
    if cnh.status.finishedAt.Some? then ListingForCleanup(cnh, ThenNothing) else ListingPods(cnh)
  }

  function AfterGet(cnh: Cnh, t: Time): Pc {
    if cnh.deleting then ListingForCleanup(cnh, ThenRemoveFinalizer)
    else if t - cnh.created > CR_TTL then Deleting(cnh)
    else if !cnh.finalizer then AddingFinalizer(cnh)
    else AfterFinalizer(cnh)
  }

  function AfterCleanup(cnh: Cnh, todo: seq<Pod>, next: Next): Pc {
    if todo != [] then DeletingPods(cnh, todo, next)
    else if next.ThenRemoveFinalizer? then RemovingFinalizer(cnh)
    else Idle(Finished)
  }

  function NewPod(s: State, cnh: Cnh): Pod {
    Pod(PodName(cnh.name), s.last + 1, cnh.name, cnh.uid, s.now, Pending, [], false)
  }

  function PodCreated(s: State, pod: Pod): State {
    PutPod(s, pod).(last := s.last + 1,
                    runners := s.runners[pod.uid := Runner(pod.cnhLabel, pod.ownerUid, Checking)])
  }

  /** Whether the check is over as far as its pod is concerned. */
  predicate PodFinished(pod: Pod, t: Time) {
    PodCompleted(pod) || PodTimedOut(pod, t)
  }

  predicate Condemns(status: Status) {
    |status.conditions| > 0 && status.conditions[0].status == ConditionFalse
  }

  /** The places where a worker has an update to send, or finds that it has none. */
  predicate Updating(pc: Pc) {
    pc.AddingFinalizer? || pc.Starting? || pc.ReportingStartup? || pc.Deciding? || pc.RemovingFinalizer?
  }

  /** The object a worker sends in an update: what it read, with its own change. None when there
      is nothing to write. */
  function Request(pc: Pc, t: Time): Option<Cnh> {
    match pc
    case AddingFinalizer(cnh) => Some(cnh.(finalizer := true))
    case RemovingFinalizer(cnh) => Some(cnh.(finalizer := false))
    case Starting(cnh, _) =>
      if cnh.status.startedAt.Some? then None else Some(cnh.(status := StartedStatus(cnh.status, t)))
    case ReportingStartup(cnh, pod) =>
      (match StartupResult(pod, t)
       case None => None
       case Some(r) => Some(cnh.(status := cnh.status.(results := WithResult(cnh.status.results, r)))))
    case Deciding(cnh, pod) =>
      if PodFinished(pod, t) then Some(cnh.(status := CompletedStatus(cnh.status, t))) else None
    case _ => None
  }

  /** The API server's side of an update: it is accepted only at the resource version that was
      read. */
  predicate Accepted(s: State, sent: Cnh, reply: Reply) {
    !reply.Refused? && Current(s, sent)
  }

  function CommitOf(cnh: Cnh, pod: Pod): Commit {
    Commit(cnh.status.results, pod.phase.Succeeded? && pod.ownerUid == cnh.uid)
  }

  /** Removing the last finalizer of a deleted object removes the object. */
  function UpdateEffect(s: State, pc: Pc, t: Time, reply: Reply): State {
    var sent := Request(pc, t);
    if sent.None? || !Accepted(s, sent.value, reply) then s
    else if pc.RemovingFinalizer? && pc.cnh.deleting then Removed(s, pc.cnh.name)
    else
      var s1 := Put(s, Stored(s, sent.value));
      if pc.Deciding? then s1.(commits := s.commits[pc.cnh.uid := CommitOf(pc.cnh, pc.pod)]) else s1
  }

  /** Where an update leads once the worker holds cnh, the object as the server returned it. */
  function AfterUpdate(s: State, pc: Pc, cnh: Cnh): Pc {
    match pc
    case AddingFinalizer(_) => AfterFinalizer(cnh)
    case Starting(_, pod) => ReportingStartup(cnh, pod)
    case ReportingStartup(_, pod) => Deciding(cnh, pod)
    case Deciding(_, _) =>
      if cnh.status.finishedAt.None? then Idle(Requeued)
      else if s.enableNodeCondition then UpdatingNode(cnh)
      else ListingForCleanup(cnh, AfterVerdict)
    case _ => Idle(Finished)
  }

  function UpdatePc(s: State, pc: Pc, t: Time, reply: Reply): Pc
    requires !pc.Idle?
  {
    match Request(pc, t)
    case None => AfterUpdate(s, pc, pc.cnh)
    case Some(sent) =>
      if reply.Done? && Current(s, sent) then AfterUpdate(s, pc, Stored(s, sent)) else Idle(Errored)
  }

  function Actor(a: Action): Option<nat> {
    match a
    case Get(w, _, _) => Some(w)
    case Miss(w, _) => Some(w)
    case Update(w, _, _) => Some(w)
    case Delete(w, _) => Some(w)
    case ListPods(w, _) => Some(w)
    case CreatePod(w, _) => Some(w)
    case Refetch(w, _) => Some(w)
    case UpdateNode(w) => Some(w)
    case Record(w) => Some(w)
    case ListForCleanup(w, _) => Some(w)
    case DeletePod(w, _) => Some(w)
    case Abort(w) => Some(w)
    case _ => None
  }

  /** A worker can only make the call its program has reached, on what the API server can serve. */
  predicate Enabled(s: State, w: nat, pc: Pc, a: Action) {
    match a
    case Get(_, cnh, t) => pc.Idle? && cnh in s.versions && ClockReading(s, w, t)
    case Miss(_, _) => pc.Idle?
    case Update(_, t, _) => Updating(pc) && ClockReading(s, w, t)
    case Delete(_, _) => pc.Deleting?
    case ListPods(_, found) =>
      pc.ListingPods? && (found.Some? ==> found.value in s.podVersions && found.value.cnhLabel == pc.cnh.name)
    case CreatePod(_, _) => pc.CreatingPod?
    case Refetch(_, pod) => pc.Refetching? && pod in s.podVersions && pod.name == PodName(pc.cnh.name)
    case UpdateNode(_) => pc.UpdatingNode?
    case Record(_) => pc.Recording?
    case ListForCleanup(_, listed) =>
      pc.ListingForCleanup? && forall p :: p in listed ==> p in s.podVersions && p.cnhLabel == pc.cnh.name
    case DeletePod(_, _) => pc.DeletingPods? && pc.todo != []
    case Abort(_) => true
    case _ => false
  }

  /** What a worker's call does to the rest of the world. */
  function Effect(s: State, w: nat, pc: Pc, a: Action): State
    requires Enabled(s, w, pc, a)
  {
    match a
    case Update(_, t, reply) => UpdateEffect(s, pc, t, reply)
    case Delete(_, reply) => if reply.Refused? then s else Deleted(s, pc.cnh.name)
    case CreatePod(_, reply) =>
      var pod := NewPod(s, pc.cnh);
      if reply.Refused? || pod.name in s.pods then s else PodCreated(s, pod)
    case DeletePod(_, reply) => if reply.Refused? then s else PodDeleted(s, pc.todo[0].name)
    case Record(_) => s.(feeds := s.feeds + [Feed(pc.cnh.uid, Condemns(pc.cnh.status))])
    case _ => s
  }

  /** A call has failed, or the worker crashed. */
  function GivenUp(pc: Pc): Pc {
    Idle(if (pc.ListingForCleanup? || pc.DeletingPods?) && pc.next.AfterVerdict? then Finished else Errored)
  }

  /** Where the worker stands after the call. */
  function NextPc(s: State, w: nat, pc: Pc, a: Action): Pc
    requires Enabled(s, w, pc, a)
  {
    match a
    case Get(_, cnh, t) => AfterGet(cnh, t)
    case Update(_, t, reply) => UpdatePc(s, pc, t, reply)
    case ListPods(_, found) => if found.None? then CreatingPod(pc.cnh) else Starting(pc.cnh, found.value)
    case CreatePod(_, reply) =>
      if reply.Done? && NewPod(s, pc.cnh).name !in s.pods then Refetching(pc.cnh) else Idle(Errored)
    case Refetch(_, pod) => Starting(pc.cnh, pod)
    case UpdateNode(_) => Recording(pc.cnh)
    case Record(_) => ListingForCleanup(pc.cnh, AfterVerdict)
    case ListForCleanup(_, listed) => AfterCleanup(pc.cnh, listed, pc.next)
    case DeletePod(_, reply) => if reply.Done? then AfterCleanup(pc.cnh, pc.todo[1..], pc.next) else GivenUp(pc)
    case Miss(_, failed) => Idle(if failed then Errored else Finished)
    case Delete(_, reply) => Idle(if reply.Done? then Finished else Errored)
    case Abort(_) => GivenUp(pc)
    case _ => Idle(Errored)
  }

  // ----- Checker pods, users and the kubelet -----

  function DoUserCreates(s: State, name: string, node: string): State {
    if name in s.crs then s
    else Put(s, Cnh(name, s.last + 1, s.last + 1, node, s.now, false, false, EMPTY_STATUS))
  }

  function DoUserTouches(s: State, name: string): State {
    if name in s.crs then Put(s, s.crs[name].(rv := s.last + 1)) else s
  }

  function DoKubeletReports(s: State, name: string, phase: Phase, containers: seq<ContainerState>): State {
    if name !in s.pods then s
    else
      var pod := s.pods[name];
      if PodCompleted(pod) && phase != pod.phase then s
      else if phase.Succeeded? && !(pod.uid in s.runners && s.runners[pod.uid].pc.ExitedOk?) then s
      else PutPod(s, pod.(phase := phase, containers := containers))
  }

  function DoKubeletRemoves(s: State, name: string): State {
    if name in s.pods && s.pods[name].terminating then s.(pods := s.pods - {name}) else s
  }

  function GoRunner(s: State, uid: nat, pc: RunnerPc): State
    requires uid in s.runners
  {
    s.(runners := s.runners[uid := s.runners[uid].(pc := pc)])
  }

  function DoRunnerFetches(s: State, uid: nat): State {
    if uid !in s.runners || !s.runners[uid].pc.Checking? then s
    else
      var name := s.runners[uid].name;
      GoRunner(s, uid, if name in s.crs then Fetched(s.crs[name]) else ExitedWithError)
  }

  /** The exit code is 0 only after the update was acknowledged. */
  function DoRunnerReports(s: State, uid: nat, results: seq<CheckResult>, reply: Reply): State {
    if uid !in s.runners || !ReportOf(results) then s
    else match s.runners[uid].pc
      case Fetched(cnh) =>
        if reply.Refused? || !Current(s, cnh) then GoRunner(s, uid, ExitedWithError)
        else
          var status := cnh.status.(results := cnh.status.results + results);
          var s1 := Put(s, Stored(s, s.crs[cnh.name].(status := status)));
          GoRunner(s1, uid, if reply.Lost? then ExitedWithError else ExitedOk(cnh.uid))
      case _ => s
  }

  function DoRunnerDies(s: State, uid: nat): State {
    if uid in s.runners && !s.runners[uid].pc.ExitedOk? then GoRunner(s, uid, ExitedWithError) else s
  }

  // ----- Runs -----

  function Environment(s: State, a: Action): State {
    match a
    case Tick(elapsed) => s.(now := s.now + elapsed)
    case UserCreates(name, node) => DoUserCreates(s, name, node)
    case UserDeletes(name) => Deleted(s, name)
    case UserTouches(name) => DoUserTouches(s, name)
    case KubeletReports(name, phase, containers) => DoKubeletReports(s, name, phase, containers)
    case PodEvicted(name) => PodDeleted(s, name)
    case KubeletRemoves(name) => DoKubeletRemoves(s, name)
    case RunnerFetches(uid) => DoRunnerFetches(s, uid)
    case RunnerReports(uid, results, reply) => DoRunnerReports(s, uid, results, reply)
    case RunnerDies(uid) => DoRunnerDies(s, uid)
    case _ => s
  }

  /** A call that is not the worker's next one changes nothing. */
  function Step(s: State, a: Action): State {
    match Actor(a)
    case None => Environment(s, a)
    case Some(w) =>
      var pc := PcOf(s, w);
      if Enabled(s, w, pc, a) then Go(Effect(s, w, pc, a), w, NextPc(s, w, pc, a)) else s
  }

  ghost predicate Init(s: State) {
    && s.last == 0
    && s.crs == map[] && s.versions == {}
    && s.pods == map[] && s.podVersions == {}
    && s.runners == map[] && s.workers == map[]
    && s.commits == map[] && s.feeds == []
  }

  function Run(s: State, actions: seq<Action>): State
    decreases |actions|
  {
    if actions == [] then s else Run(Step(s, actions[0]), actions[1..])
  }

  lemma {:induction false} RunConcat(s: State, a: seq<Action>, b: seq<Action>)
    ensures Run(s, a + b) == Run(Run(s, a), b)
    decreases |a|
  {
    if a == [] {
      assert a + b == b;
    } else {
      assert (a + b)[1..] == a[1..] + b;
      RunConcat(Step(s, a[0]), a[1..], b);
    }
  }

  lemma {:induction false} RunSnoc(s: State, actions: seq<Action>, a: Action)
    ensures Run(s, actions + [a]) == Step(Run(s, actions), a)
  {
    hide Step;
    RunConcat(s, actions, [a]);
    assert [a][1..] == [];
  }
}
