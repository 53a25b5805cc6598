/** Reboot detection as a transition system. The node controller compares a node's boot ID with the
    one it annotated last, creates a CheckNodeHealth for a new boot, and only then moves the
    annotation: create, then persist. The work queue runs one reconcile per node at a time; the copy
    it reads may be anything a lagging cache serves; users, nodes and failures may come between any
    two steps. */
module NodeReboot {
  import opened Api
  import opened NodeConditions

  const NEW_NODE_THRESHOLD: Time := 5 * MINUTE
  const NODE_READY_MAX_WAIT: Time := 10 * MINUTE
  const NODE_READY_REQUEUE_INTERVAL: Time := 30 * SECOND

  const NODE_READY := "Ready"
  const KARPENTER_CAPACITY_TYPE := "karpenter.sh/capacity-type"
  const KARPENTER_INITIALIZED := "karpenter.sh/initialized"

  // ----- The name of a check -----

  /** The first eight hex digits of a SHA-256 digest. */
  type Hash = h: string -> string | forall b :: |h(b)| == 8 witness b => "00000000"

  const CNH_REBOOT_PREFIX := "boot"
  const MAX_CNH_NAME_LENGTH := 253

  function GenerateCNHName(hash: Hash, nodeName: string, bootId: string): string {
    var name := CNH_REBOOT_PREFIX + "-" + hash(bootId) + "-" + nodeName;
    if |name| > MAX_CNH_NAME_LENGTH then name[..MAX_CNH_NAME_LENGTH] else name
  }

  /** What is left of a node name: its first 239 characters. */
  function Kept(nodeName: string): string {
    if |nodeName| > 239 then nodeName[..239] else nodeName
  }

  lemma NameParts(hash: Hash, n: string, b: string)
    ensures GenerateCNHName(hash, n, b) == "boot-" + hash(b) + "-" + Kept(n)
    ensures GenerateCNHName(hash, n, b)[5..13] == hash(b)
    ensures GenerateCNHName(hash, n, b)[14..] == Kept(n)
  {
    var head := "boot-" + hash(b) + "-";
    assert CNH_REBOOT_PREFIX + "-" + hash(b) + "-" + n == head + n;
    assert |n| > 239 ==> (head + n)[..253] == head + n[..239];
  }

  /** Two checks share a name exactly when the hashes agree and the node names agree in their first
      239 characters. */
  lemma NamesCoincide(hash: Hash, n: string, b: string, n': string, b': string)
    ensures GenerateCNHName(hash, n, b) == GenerateCNHName(hash, n', b') <==> hash(b) == hash(b') && Kept(n) == Kept(n')
  {
    NameParts(hash, n, b);
    NameParts(hash, n', b');
  }

  /** Injective on node names of up to 239 characters, given distinct hashes. */
  lemma NamesInjective(hash: Hash, n: string, b: string, n': string, b': string)
    requires |n| <= 239 && |n'| <= 239 && (b != b' ==> hash(b) != hash(b'))
    requires GenerateCNHName(hash, n, b) == GenerateCNHName(hash, n', b')
    ensures n == n' && b == b'
  {
    NamesCoincide(hash, n, b, n', b');
  }

  /** Beyond that, not: every longer name has another of its length with the same check names. */
  lemma LongNamesCollide(hash: Hash, n: string, b: string) returns (n': string)
    requires |n| >= 240
    ensures n' != n && |n'| == |n| && GenerateCNHName(hash, n', b) == GenerateCNHName(hash, n, b)
  {
    n' := n[239 := if n[239] == 'a' then 'b' else 'a'];
    NamesCoincide(hash, n, b, n', b);
  }

  // ----- Objects -----

  /** lastBootId is the annotation; it is empty when there is none. */
  datatype NodeObject = NodeObject(
    name: string,
    uid: nat,
    created: Time,
    bootId: string,
    lastBootId: string,
    labels: map<string, string>,
    conditions: seq<NodeCondition>)

  /** The CoreDNS Deployment as a reconcile finds it. */
  datatype Dns = DnsError | DnsMissing | DnsDeployment(replicas: Option<int>, ready: int)

  datatype Answer = Yes | No | Failure

  function CoreDnsReady(dns: Dns): Answer {
    match dns
    case DnsError => Failure
    case DnsMissing => No
    case DnsDeployment(replicas, ready) =>
      var desired := if replicas.Some? then replicas.value else 1;
      if desired == 0 then Failure else if ready == desired then Yes else No
  }

  predicate IsKarpenterManaged(node: NodeObject) {
    KARPENTER_CAPACITY_TYPE in node.labels && node.labels[KARPENTER_CAPACITY_TYPE] != ""
  }

  predicate IsKarpenterInitialized(node: NodeObject) {
    KARPENTER_INITIALIZED in node.labels && node.labels[KARPENTER_INITIALIZED] == "true"
  }

  function ReadyCondition(conditions: seq<NodeCondition>): Option<NodeCondition> {
    if conditions == [] then None
    else if conditions[0].kind == NODE_READY then Some(conditions[0])
    else ReadyCondition(conditions[1..])
  }

  predicate IsNodeReady(node: NodeObject) {
    var c := ReadyCondition(node.conditions);
    c.Some? && c.value.status == ConditionTrue
  }

  function IsNodeReadyForHealthCheck(node: NodeObject, dns: Dns): Answer {
    match CoreDnsReady(dns)
    case Failure => Failure
    case No => No
    case Yes =>
      if IsKarpenterManaged(node) then (if IsKarpenterInitialized(node) then Yes else No)
      else if IsNodeReady(node) then Yes else No
  }

  predicate NotReadyExceeds(node: NodeObject, d: Time, t: Time) {
    if IsKarpenterManaged(node) && !IsKarpenterInitialized(node) then t - node.created > d
    else match ReadyCondition(node.conditions)
      case None => t - node.created > d
      case Some(c) => c.status != ConditionTrue && t - c.lastTransitionTime > d
  }

  // ----- State -----

  datatype Outcome = NeverRan | NoRequeue | Requeue | RequeueLater | Errored

  /** Where the reconcile of one node stands, with its private copy of the node. */
  datatype Pc =
    | Idle(outcome: Outcome)
    | Deciding(node: NodeObject)
    | CheckingDns(node: NodeObject)
    | Creating(node: NodeObject)
    | Annotating(node: NodeObject, checked: bool)

  datatype Worker = Worker(pc: Pc, since: Time)

  /** History: successful creates, removals of checks, and annotations, in order. */
  datatype Entry =
    | Created(node: string, boot: string)
    | Removed(cnh: string)
    | Annotated(node: string, boot: string)
    | Initialised(node: string, boot: string)

  datatype State = State(
    now: Time,
    lastUid: nat,
    nodes: map<string, NodeObject>,
    boots: set<string>,
    cnhs: set<string>,
    existed: set<string>,
    workers: map<string, Worker>,
    log: seq<Entry>)

  datatype Reply = Done | Refused | Lost

  datatype Action =
    | Tick(elapsed: nat)
    | NodeJoins(name: string, labels: map<string, string>)
    | NodeLeaves(name: string)
    | NodeReports(name: string, labels: map<string, string>, conditions: seq<NodeCondition>)
    | NodeBoots(name: string, boot: string)
    | UserCreatesCheck(cnh: string)
    | CheckRemoved(cnh: string)
    | Get(node: string, read: NodeObject, t: Time, reply: Reply)
    | Miss(node: string)
    | Decide(node: string, t: Time)
    | CheckDns(node: string, dns: Dns, t: Time)
    | Create(node: string, reply: Reply)
    | Annotate(node: string, reply: Reply)
    | Abort(node: string)

  function WorkerOf(s: State, n: string): Worker {
    if n in s.workers then s.workers[n] else Worker(Idle(NeverRan), s.now)
  }

  predicate ClockReading(s: State, n: string, t: Time) {
    WorkerOf(s, n).since <= t <= s.now
  }

  function Go(s: State, n: string, pc: Pc): State {
    s.(workers := s.workers[n := Worker(pc, s.now)])
  }

  // ----- The steps of a reconcile -----

  /** The read, and the atomic read-modify-patch that collects a stale condition; the patch
      refreshes the private copy. */
  function DoGet(s: State, n: string, read: NodeObject, t: Time, reply: Reply): State {
    if Collected(read.conditions, t) == read.conditions then Go(s, n, Deciding(read))
    else if reply.Refused? || n !in s.nodes then Go(s, n, Idle(Errored))
    else
      var node := s.nodes[n].(conditions := Collected(s.nodes[n].conditions, t));
      Go(s.(nodes := s.nodes[n := node]), n, if reply.Done? then Deciding(node) else Idle(Errored))
  }

  /** What the boot IDs and the age of a node call for. */
  function Decision(node: NodeObject, t: Time): Pc {
    if node.bootId == "" then Idle(NoRequeue)
    else if node.lastBootId == "" then
      if t - node.created < NEW_NODE_THRESHOLD then CheckingDns(node) else Annotating(node, false)
    else if node.lastBootId == node.bootId then Idle(NoRequeue)
    else CheckingDns(node)
  }

  function Readiness(node: NodeObject, dns: Dns, t: Time): Pc {
    match IsNodeReadyForHealthCheck(node, dns)
    case Failure => Idle(Errored)
    case Yes => Creating(node)
    case No => Idle(if NotReadyExceeds(node, NODE_READY_MAX_WAIT, t) then NoRequeue else Requeue)
  }

  function DoCreate(hash: Hash, s: State, n: string, node: NodeObject, reply: Reply): State {
    var name := GenerateCNHName(hash, node.name, node.bootId);
    var next := if reply.Done? then Annotating(node, true) else Idle(Errored);
    if reply.Refused? || name in s.cnhs then Go(s, n, next)
    else Go(s.(cnhs := s.cnhs + {name}, existed := s.existed + {name},
               log := s.log + [Created(node.name, node.bootId)]), n, next)
  }

  /** A merge patch: it sets the annotation of whatever node now has that name. */
  function DoAnnotate(s: State, n: string, node: NodeObject, checked: bool, reply: Reply): State {
    if reply.Refused? || n !in s.nodes then Go(s, n, Idle(Errored))
    else
      var entry := if checked then Annotated(n, node.bootId) else Initialised(n, node.bootId);
      Go(s.(nodes := s.nodes[n := s.nodes[n].(lastBootId := node.bootId)], log := s.log + [entry]),
         n, Idle(if reply.Done? then RequeueLater else Errored))
  }

  /** Users, nodes, the kubelet and the clock. */
  predicate Outside(a: Action) {
    a.Tick? || a.NodeJoins? || a.NodeLeaves? || a.NodeReports? || a.NodeBoots? || a.UserCreatesCheck? || a.CheckRemoved?
  }

  function Environment(s: State, a: Action): State {
    match a
    case Tick(elapsed) => s.(now := s.now + elapsed)
    case NodeJoins(n, labels) =>
      if n in s.nodes then s
      else s.(nodes := s.nodes[n := NodeObject(n, s.lastUid + 1, s.now, "", "", labels, [])], lastUid := s.lastUid + 1)
    case NodeLeaves(n) => s.(nodes := s.nodes - {n})
    case NodeReports(n, labels, conditions) =>
      if n in s.nodes then s.(nodes := s.nodes[n := s.nodes[n].(labels := labels, conditions := conditions)]) else s
    case NodeBoots(n, boot) =>
      if n in s.nodes && boot != "" then s.(nodes := s.nodes[n := s.nodes[n].(bootId := boot)], boots := s.boots + {boot}) else s
    case UserCreatesCheck(c) => s.(cnhs := s.cnhs + {c}, existed := s.existed + {c})
    case CheckRemoved(c) => if c in s.cnhs then s.(cnhs := s.cnhs - {c}, log := s.log + [Removed(c)]) else s
    case _ => s
  }

  /** A call that is not the next one of the node's reconcile changes nothing. */
  function WorkerStep(hash: Hash, s: State, a: Action): State {
    match a
    case Get(n, read, t, reply) =>
      if WorkerOf(s, n).pc.Idle? && read.name == n && ClockReading(s, n, t) then DoGet(s, n, read, t, reply) else s
    case Miss(n) =>
      if WorkerOf(s, n).pc.Idle? then Go(s, n, Idle(NoRequeue)) else s
    case Decide(n, t) =>
      var pc := WorkerOf(s, n).pc;
      if pc.Deciding? && ClockReading(s, n, t) then Go(s, n, Decision(pc.node, t)) else s
    case CheckDns(n, dns, t) =>
      var pc := WorkerOf(s, n).pc;
      if pc.CheckingDns? && ClockReading(s, n, t) then Go(s, n, Readiness(pc.node, dns, t)) else s
    case Create(n, reply) =>
      var pc := WorkerOf(s, n).pc;
      if pc.Creating? then DoCreate(hash, s, n, pc.node, reply) else s
    case Annotate(n, reply) =>
      var pc := WorkerOf(s, n).pc;
      if pc.Annotating? then DoAnnotate(s, n, pc.node, pc.checked, reply) else s
    case Abort(n) => Go(s, n, Idle(Errored))
    case _ => s
  }

  function Step(hash: Hash, s: State, a: Action): State {
    if Outside(a) then Environment(s, a) else WorkerStep(hash, s, a)
  }

  ghost predicate Init(s: State) {
    && s.lastUid == 0 && s.nodes == map[] && s.boots == {}
    && s.cnhs == {} && s.existed == {} && s.workers == map[] && s.log == []
  }

  function Run(hash: Hash, s: State, actions: seq<Action>): State {
    if actions == [] then s
    else Step(hash, Run(hash, s, actions[..|actions| - 1]), actions[|actions| - 1])
  }

  // ----- Reboots stay detectable -----

  /** What justifies moving the annotation: a check of that name has existed, or the node had no
      annotation and was no longer new. */
  ghost predicate Justified(hash: Hash, s: State, node: NodeObject, checked: bool) {
    if checked then GenerateCNHName(hash, node.name, node.bootId) in s.existed
    else node.lastBootId == "" && s.now - node.created >= NEW_NODE_THRESHOLD
  }

  ghost predicate WorkerOk(hash: Hash, s: State, n: string, wk: Worker) {
    !wk.pc.Idle? ==>
      var node := wk.pc.node;
      && node.name == n
      && (!wk.pc.Deciding? ==> node.bootId != "" && node.bootId != node.lastBootId)
      && (wk.pc.Annotating? ==> Justified(hash, s, node, wk.pc.checked))
  }

  ghost predicate NodesOk(nodes: map<string, NodeObject>, lastUid: nat) {
    forall n :: n in nodes ==> nodes[n].name == n && nodes[n].uid <= lastUid
  }

  ghost predicate Inv(hash: Hash, s: State) {
    && NodesOk(s.nodes, s.lastUid)
    && (forall n :: n in s.workers ==> WorkerOk(hash, s, n, s.workers[n]))
    && s.cnhs <= s.existed
  }

  ghost predicate Onward(s: State, s': State) {
    s.now <= s'.now && s.existed <= s'.existed && NodesOk(s'.nodes, s'.lastUid) && s'.cnhs <= s'.existed
  }

  lemma WorkerKept(hash: Hash, s: State, s': State, n: string, wk: Worker)
    requires WorkerOk(hash, s, n, wk) && Onward(s, s')
    ensures WorkerOk(hash, s', n, wk)
  {
    hide GenerateCNHName, NodesOk;
  }

  /** A step that leaves all reconciles but that of node own as they are. */
  lemma StepFollows(hash: Hash, s: State, s': State, own: string)
    requires Inv(hash, s) && Onward(s, s')
    requires forall m :: m in s'.workers && m != own ==> m in s.workers && s'.workers[m] == s.workers[m]
    requires own in s'.workers ==> WorkerOk(hash, s', own, s'.workers[own])
    ensures Inv(hash, s')
  {
    hide Onward, WorkerOk, NodesOk;
    forall m | m in s'.workers ensures WorkerOk(hash, s', m, s'.workers[m]) {
      if m != own {
        WorkerKept(hash, s, s', m, s.workers[m]);
      }
    }
    OnwardParts(s, s');
  }

  lemma OnwardParts(s: State, s': State)
    requires Onward(s, s')
    ensures NodesOk(s'.nodes, s'.lastUid) && s'.cnhs <= s'.existed
  {}

  lemma GoKeepsInv(hash: Hash, s: State, n: string, pc: Pc)
    requires Inv(hash, s) && WorkerOk(hash, s, n, Worker(pc, s.now))
    ensures Inv(hash, Go(s, n, pc))
  {
    hide WorkerOk, NodesOk;
    var s' := Go(s, n, pc);
    WorkerMoved(hash, s, s', n, Worker(pc, s.now));
    StepFollows(hash, s, s', n);
  }

  lemma WorkerMoved(hash: Hash, s: State, s': State, n: string, wk: Worker)
    requires WorkerOk(hash, s, n, wk) && s'.now == s.now && s'.existed == s.existed
    ensures WorkerOk(hash, s', n, wk)
  {
    hide GenerateCNHName;
  }

  lemma GetKeepsInv(hash: Hash, s: State, n: string, read: NodeObject, t: Time, reply: Reply)
    requires Inv(hash, s) && read.name == n
    ensures Inv(hash, DoGet(s, n, read, t, reply))
  {
    hide GenerateCNHName, Collected, Inv, NodesOk;
    InvParts(hash, s);
    var s' := DoGet(s, n, read, t, reply);
    if n in s.nodes {
      CollectedNodesOk(s, n, t);
    }
    StepFollows(hash, s, s', n);
  }

  lemma CollectedNodesOk(s: State, n: string, t: Time)
    requires NodesOk(s.nodes, s.lastUid) && n in s.nodes
    ensures var node := s.nodes[n].(conditions := Collected(s.nodes[n].conditions, t));
            node.name == n && NodesOk(s.nodes[n := node], s.lastUid)
  {
    hide Collected;
  }

  lemma InvParts(hash: Hash, s: State)
    requires Inv(hash, s)
    ensures NodesOk(s.nodes, s.lastUid) && s.cnhs <= s.existed
  {}

  lemma CreateKeepsInv(hash: Hash, s: State, n: string, node: NodeObject, reply: Reply)
    requires Inv(hash, s) && WorkerOf(s, n).pc == Creating(node)
    ensures Inv(hash, DoCreate(hash, s, n, node, reply))
  {
    hide GenerateCNHName, Inv, NodesOk;
    HeldOk(hash, s, n);
    InvParts(hash, s);
    var s' := DoCreate(hash, s, n, node, reply);
    StepFollows(hash, s, s', n);
  }

  lemma AnnotateKeepsInv(hash: Hash, s: State, n: string, node: NodeObject, checked: bool, reply: Reply)
    requires Inv(hash, s)
    ensures Inv(hash, DoAnnotate(s, n, node, checked, reply))
  {
    hide GenerateCNHName, Inv;
    InvParts(hash, s);
    StepFollows(hash, s, DoAnnotate(s, n, node, checked, reply), n);
  }

  lemma HeldOk(hash: Hash, s: State, n: string)
    requires Inv(hash, s) && !WorkerOf(s, n).pc.Idle?
    ensures n in s.workers && WorkerOk(hash, s, n, s.workers[n])
  {}

  lemma DecideKeepsInv(hash: Hash, s: State, n: string, node: NodeObject, t: Time)
    requires Inv(hash, s) && WorkerOf(s, n).pc == Deciding(node) && ClockReading(s, n, t)
    ensures Inv(hash, Go(s, n, Decision(node, t)))
  {
    hide GenerateCNHName, Go;
    HeldOk(hash, s, n);
    GoKeepsInv(hash, s, n, Decision(node, t));
  }

  lemma CheckDnsKeepsInv(hash: Hash, s: State, n: string, node: NodeObject, dns: Dns, t: Time)
    requires Inv(hash, s) && WorkerOf(s, n).pc == CheckingDns(node)
    ensures Inv(hash, Go(s, n, Readiness(node, dns, t)))
  {
    hide GenerateCNHName, Go, IsNodeReadyForHealthCheck, NotReadyExceeds;
    HeldOk(hash, s, n);
    GoKeepsInv(hash, s, n, Readiness(node, dns, t));
  }

  lemma WorkerStepKeepsInv(hash: Hash, s: State, a: Action)
    requires Inv(hash, s)
    ensures Inv(hash, WorkerStep(hash, s, a))
  {
    hide GenerateCNHName, DoGet, DoCreate, DoAnnotate, Go, Inv, Decision, Readiness, Justified;
    match a
    case Get(n, read, t, reply) => if read.name == n { GetKeepsInv(hash, s, n, read, t, reply); }
    case Miss(n) => GoKeepsInv(hash, s, n, Idle(NoRequeue));
    case Abort(n) => GoKeepsInv(hash, s, n, Idle(Errored));
    case Decide(n, t) =>
      var pc := WorkerOf(s, n).pc;
      if pc.Deciding? && ClockReading(s, n, t) { DecideKeepsInv(hash, s, n, pc.node, t); }
    case CheckDns(n, dns, t) =>
      var pc := WorkerOf(s, n).pc;
      if pc.CheckingDns? { CheckDnsKeepsInv(hash, s, n, pc.node, dns, t); }
    case Create(n, reply) =>
      var pc := WorkerOf(s, n).pc;
      if pc.Creating? {
        HeldOk(hash, s, n);
        CreateKeepsInv(hash, s, n, pc.node, reply);
      }
    case Annotate(n, reply) =>
      var pc := WorkerOf(s, n).pc;
      if pc.Annotating? { AnnotateKeepsInv(hash, s, n, pc.node, pc.checked, reply); }
    case _ =>
  }

  lemma EnvironmentOnward(s: State, a: Action)
    requires NodesOk(s.nodes, s.lastUid) && s.cnhs <= s.existed
    ensures Onward(s, Environment(s, a)) && Environment(s, a).workers == s.workers
  {}

  lemma EnvironmentInv(hash: Hash, s: State, a: Action)
    requires Inv(hash, s)
    ensures Inv(hash, Environment(s, a))
  {
    hide Environment, Onward, WorkerOk, NodesOk, Inv;
    InvParts(hash, s);
    EnvironmentOnward(s, a);
    var s' := Environment(s, a);
    forall n | n in s'.workers ensures WorkerOk(hash, s', n, s'.workers[n]) {
      assert WorkerOk(hash, s, n, s.workers[n]) by { WorkerWasOk(hash, s, n); }
      WorkerKept(hash, s, s', n, s.workers[n]);
    }
    OnwardParts(s, s');
    assert Inv(hash, s') by { AllOk(hash, s'); }
  }

  lemma WorkerWasOk(hash: Hash, s: State, n: string)
    requires Inv(hash, s) && n in s.workers
    ensures WorkerOk(hash, s, n, s.workers[n])
  {}

  lemma AllOk(hash: Hash, s: State)
    requires NodesOk(s.nodes, s.lastUid) && s.cnhs <= s.existed && forall n :: n in s.workers ==> WorkerOk(hash, s, n, s.workers[n])
    ensures Inv(hash, s)
  {}

  lemma StepKeepsInv(hash: Hash, s: State, a: Action)
    requires Inv(hash, s)
    ensures Inv(hash, Step(hash, s, a))
  {
    hide WorkerStep, Inv, Environment;
    if Outside(a) {
      EnvironmentInv(hash, s, a);
    } else {
      WorkerStepKeepsInv(hash, s, a);
    }
  }

  lemma {:induction false} RunKeepsInv(hash: Hash, s: State, actions: seq<Action>)
    requires Init(s)
    ensures Inv(hash, Run(hash, s, actions))
  {
    hide Step;
    if actions != [] {
      RunKeepsInv(hash, s, actions[..|actions| - 1]);
      StepKeepsInv(hash, Run(hash, s, actions[..|actions| - 1]), actions[|actions| - 1]);
    }
  }

  /** Nothing outside moves an annotation; a node that comes back is another node. */
  lemma EnvironmentStays(s: State, a: Action, n: string)
    requires NodesOk(s.nodes, s.lastUid) && n in s.nodes
    ensures var s' := Environment(s, a);
            n in s'.nodes && s'.nodes[n].uid == s.nodes[n].uid ==>
              s'.nodes[n].lastBootId == s.nodes[n].lastBootId && s'.nodes[n].created == s.nodes[n].created
  {}

  /** Only the reconcile's own patch moves an annotation. */
  lemma OnlyAnnotateMoves(hash: Hash, s: State, a: Action, n: string)
    requires !Outside(a) && n in s.nodes && !(a.Annotate? && a.node == n)
    ensures n in WorkerStep(hash, s, a).nodes
    ensures SameButConditions(WorkerStep(hash, s, a).nodes[n], s.nodes[n])
  {
    hide Go, DoGet, DoCreate, DoAnnotate, Decision, Readiness, ClockReading;
    match a
    case Get(m, read, t, reply) => GetMovesNothing(s, m, read, t, reply, n);
    case Create(m, reply) =>
      var pc := WorkerOf(s, m).pc;
      if pc.Creating? { CreateMovesNothing(hash, s, m, pc.node, reply); }
    case Annotate(m, reply) =>
      var pc := WorkerOf(s, m).pc;
      if pc.Annotating? { AnnotateMovesOne(s, m, pc.node, pc.checked, reply, n); }
    case _ => GoMovesNothing(s);
  }

  predicate SameButConditions(a: NodeObject, b: NodeObject) {
    a == b.(conditions := a.conditions)
  }

  lemma GoMovesNothing(s: State)
    ensures forall n, pc :: Go(s, n, pc).nodes == s.nodes
  {}

  lemma GetMovesNothing(s: State, m: string, read: NodeObject, t: Time, reply: Reply, n: string)
    requires n in s.nodes
    ensures n in DoGet(s, m, read, t, reply).nodes && SameButConditions(DoGet(s, m, read, t, reply).nodes[n], s.nodes[n])
  {
    hide Collected;
  }

  lemma CreateMovesNothing(hash: Hash, s: State, m: string, node: NodeObject, reply: Reply)
    ensures DoCreate(hash, s, m, node, reply).nodes == s.nodes
  {
    hide GenerateCNHName;
  }

  lemma AnnotateMovesOne(s: State, m: string, node: NodeObject, checked: bool, reply: Reply, n: string)
    requires n in s.nodes && n != m
    ensures n in DoAnnotate(s, m, node, checked, reply).nodes
    ensures DoAnnotate(s, m, node, checked, reply).nodes[n] == s.nodes[n]
  {}

  /** The annotation moves to b because the copy that was read calls for it: a check named for
      (n, b) has existed, or the copy had no annotation and was no longer new. */
  ghost predicate MovesFor(hash: Hash, s: State, n: string, copy: NodeObject, b: string) {
    && copy.name == n && b == copy.bootId != ""
    && (|| GenerateCNHName(hash, n, b) in s.existed
        || (copy.lastBootId == "" && s.now - copy.created >= NEW_NODE_THRESHOLD))
  }

  lemma AnnotateMoves(hash: Hash, s: State, n: string, reply: Reply)
    requires Inv(hash, s) && n in s.nodes
    ensures var s' := WorkerStep(hash, s, Annotate(n, reply));
            && n in s'.nodes
            && (|| s'.nodes[n].lastBootId == s.nodes[n].lastBootId
                || (WorkerOf(s, n).pc.Annotating? && MovesFor(hash, s, n, WorkerOf(s, n).pc.node, s'.nodes[n].lastBootId)))
  {
    hide GenerateCNHName, Inv;
    if WorkerOf(s, n).pc.Annotating? {
      HeldOk(hash, s, n);
    }
  }

  /** In every run, whatever the cache serves and whatever fails between the create and the patch:
      the annotation of a node becomes b only if the check named for (node, b) has existed, or the
      copy that was read had no annotation and was no longer new; otherwise it stays. */
  lemma RebootsStayDetectable(hash: Hash, s0: State, actions: seq<Action>, a: Action, n: string)
    requires Init(s0)
    requires var s := Run(hash, s0, actions);
             n in s.nodes && n in Step(hash, s, a).nodes && Step(hash, s, a).nodes[n].uid == s.nodes[n].uid
    ensures var s := Run(hash, s0, actions);
            var (was, now) := (s.nodes[n], Step(hash, s, a).nodes[n]);
            || now.lastBootId == was.lastBootId
            || (a.Annotate? && a.node == n && WorkerOf(s, n).pc.Annotating?
                && MovesFor(hash, s, n, WorkerOf(s, n).pc.node, now.lastBootId))
  {
    hide GenerateCNHName, Inv, WorkerStep, Environment, MovesFor;
    RunKeepsInv(hash, s0, actions);
    var s := Run(hash, s0, actions);
    InvParts(hash, s);
    if Outside(a) {
      EnvironmentStays(s, a, n);
    } else if a.Annotate? && a.node == n {
      AnnotateMoves(hash, s, n, a.reply);
    } else {
      OnlyAnnotateMoves(hash, s, a, n);
    }
  }

  // ----- A reconcile of another node -----

  ghost predicate Beside(s: State, s': State, n: string) {
    && s'.now == s.now && s'.lastUid == s.lastUid
    && (n in s'.nodes <==> n in s.nodes)
    && (n in s'.workers <==> n in s.workers) && (n in s.workers ==> s'.workers[n] == s.workers[n])
  }

  lemma StaysBeside(s: State, n: string)
    ensures Beside(s, s, n) && forall m, pc :: m != n ==> Beside(s, Go(s, m, pc), n)
  {}

  lemma GetBeside(s: State, m: string, read: NodeObject, t: Time, reply: Reply, n: string)
    requires m != n
    ensures Beside(s, DoGet(s, m, read, t, reply), n)
  {
    hide Collected;
  }

  lemma CreateBeside(hash: Hash, s: State, m: string, node: NodeObject, reply: Reply, n: string)
    requires m != n
    ensures Beside(s, DoCreate(hash, s, m, node, reply), n)
  {
    hide GenerateCNHName;
  }

  lemma AnnotateBeside(s: State, m: string, node: NodeObject, checked: bool, reply: Reply, n: string)
    requires m != n
    ensures Beside(s, DoAnnotate(s, m, node, checked, reply), n)
  {}

  lemma WorkersBeside(hash: Hash, s: State, a: Action, n: string)
    requires !Outside(a) && a.node != n
    ensures Beside(s, WorkerStep(hash, s, a), n)
  {
    hide Go, DoGet, DoCreate, DoAnnotate, Decision, Readiness, ClockReading, Beside, WorkerOf;
    StaysBeside(s, n);
    match a
    case Get(m, read, t, reply) => GetBeside(s, m, read, t, reply, n);
    case Create(m, reply) => if WorkerOf(s, m).pc.Creating? { CreateBeside(hash, s, m, WorkerOf(s, m).pc.node, reply, n); }
    case Annotate(m, reply) =>
      var pc := WorkerOf(s, m).pc;
      if pc.Annotating? { AnnotateBeside(s, m, pc.node, pc.checked, reply, n); }
    case _ =>
  }
}
