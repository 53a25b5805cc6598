/** What the node controller decides about a node, written out over its labels, its conditions and the
    replicas of CoreDNS: for every step, for whole runs, and for a reconcile in which no call fails. */
module RebootOutcomes {
  import opened Api
  import opened NodeConditions
  import opened NodeReboot
  import opened RebootLog
  import opened RebootAnnotation

  const FIVE_MINUTES: Time := 300_000_000_000
  const TEN_MINUTES: Time := 600_000_000_000

  // ----- Readiness -----

  /** CoreDNS has as many ready replicas as it wants, and wants some; one if it does not say. */
  predicate Serving(dns: Dns) {
    && dns.DnsDeployment?
    && (dns.replicas.Some? ==> dns.replicas.value != 0 && dns.ready == dns.replicas.value)
    && (dns.replicas.None? ==> dns.ready == 1)
  }

  /** It cannot be read, or wants no replicas. */
  predicate Broken(dns: Dns) {
    dns.DnsError? || (dns.DnsDeployment? && dns.replicas == Some(0))
  }

  predicate ByKarpenter(node: NodeObject) {
    "karpenter.sh/capacity-type" in node.labels && node.labels["karpenter.sh/capacity-type"] != ""
  }

  predicate MarkedInitialised(node: NodeObject) {
    "karpenter.sh/initialized" in node.labels && node.labels["karpenter.sh/initialized"] == "true"
  }

  /** The i-th condition is the first Ready condition. */
  predicate FirstReady(node: NodeObject, i: int) {
    && 0 <= i < |node.conditions| && node.conditions[i].kind == "Ready"
    && forall j :: 0 <= j < i ==> node.conditions[j].kind != "Ready"
  }

  ghost predicate Ready(node: NodeObject) {
    if ByKarpenter(node) then MarkedInitialised(node)
    else exists i :: FirstReady(node, i) && node.conditions[i].status == ConditionTrue
  }

  /** The node has been waited for longer than ten minutes: since it was created if Karpenter has yet to
      initialise it or it has no Ready condition, and else since that condition changed, unless it is True. */
  ghost predicate WaitedTooLong(node: NodeObject, t: Time) {
    if (ByKarpenter(node) && !MarkedInitialised(node)) || (forall i :: !FirstReady(node, i)) then
      t - node.created > TEN_MINUTES
    else
      exists i :: FirstReady(node, i) && node.conditions[i].status != ConditionTrue
                  && t - node.conditions[i].lastTransitionTime > TEN_MINUTES
  }

  lemma {:induction false} ReadyConditionIs(cs: seq<NodeCondition>, node: NodeObject)
    requires node.conditions == cs
    ensures ReadyCondition(cs).None? <==> forall i :: !FirstReady(node, i)
    ensures ReadyCondition(cs).Some? ==> exists i :: FirstReady(node, i) && ReadyCondition(cs).value == cs[i]
  {
    if cs != [] {
      var rest := node.(conditions := cs[1..]);
      ReadyConditionIs(cs[1..], rest);
      if cs[0].kind == "Ready" {
        assert FirstReady(node, 0);
      } else {
        forall i ensures FirstReady(node, i) <==> i > 0 && FirstReady(rest, i - 1) {
          if i > 0 && FirstReady(rest, i - 1) {
            assert forall j :: 1 <= j < i ==> node.conditions[j] == rest.conditions[j - 1];
          }
          if FirstReady(node, i) {
            assert forall j :: 0 <= j < i - 1 ==> rest.conditions[j] == node.conditions[j + 1];
          }
        }
        if ReadyCondition(cs).Some? {
          var i :| FirstReady(rest, i) && ReadyCondition(cs[1..]).value == cs[1..][i];
          assert FirstReady(node, i + 1);
        }
      }
    }
  }

  lemma OneFirstReady(node: NodeObject, i: int, j: int)
    requires FirstReady(node, i) && FirstReady(node, j)
    ensures i == j
  {}

  lemma ReadyMeans(node: NodeObject, t: Time)
    ensures IsKarpenterManaged(node) == ByKarpenter(node) && IsKarpenterInitialized(node) == MarkedInitialised(node)
    ensures Ready(node) <==> if IsKarpenterManaged(node) then IsKarpenterInitialized(node) else IsNodeReady(node)
    ensures WaitedTooLong(node, t) <==> NotReadyExceeds(node, NODE_READY_MAX_WAIT, t)
  {
    ReadyConditionIs(node.conditions, node);
    if i :| FirstReady(node, i) {
      forall j | FirstReady(node, j) ensures i == j { OneFirstReady(node, i, j); }
    }
  }

  /** The step that leaves the readiness check, in all its outcomes. */
  lemma ReadinessIff(hash: Hash, s: State, n: string, node: NodeObject, dns: Dns, t: Time)
    requires WorkerOf(s, n).pc == CheckingDns(node) && ClockReading(s, n, t)
    ensures var s' := Step(hash, s, CheckDns(n, dns, t));
            var pc := WorkerOf(s', n).pc;
            && (pc == Creating(node) <==> Serving(dns) && Ready(node))
            && (pc == Idle(Errored) <==> Broken(dns))
            && (pc == Idle(NoRequeue) <==> !Broken(dns) && !(Serving(dns) && Ready(node)) && WaitedTooLong(node, t))
            && (pc == Idle(Requeue) <==> !Broken(dns) && !(Serving(dns) && Ready(node)) && !WaitedTooLong(node, t))
            && s' == s.(workers := s'.workers)
  {
    hide Environment, Readiness, Serving, Broken, WaitedTooLong, Ready;
    ReadinessMeans(node, dns, t);
  }

  lemma ReadinessMeans(node: NodeObject, dns: Dns, t: Time)
    ensures var pc := Readiness(node, dns, t);
            && (pc == Creating(node) <==> Serving(dns) && Ready(node))
            && (pc == Idle(Errored) <==> Broken(dns))
            && (pc == Idle(NoRequeue) <==> !Broken(dns) && !(Serving(dns) && Ready(node)) && WaitedTooLong(node, t))
            && (pc == Idle(Requeue) <==> !Broken(dns) && !(Serving(dns) && Ready(node)) && !WaitedTooLong(node, t))
  {
    hide NotReadyExceeds, WaitedTooLong, Ready, IsKarpenterManaged, IsKarpenterInitialized, IsNodeReady;
    ReadyMeans(node, t);
  }

  /** The step that compares the boot IDs, in all its outcomes. */
  lemma DecisionIff(hash: Hash, s: State, n: string, node: NodeObject, t: Time)
    requires WorkerOf(s, n).pc == Deciding(node) && ClockReading(s, n, t)
    ensures var s' := Step(hash, s, Decide(n, t));
            var pc := WorkerOf(s', n).pc;
            && (pc == Idle(NoRequeue) <==> node.bootId == "" || node.lastBootId == node.bootId)
            && (pc == Annotating(node, false) <==> node.bootId != "" && node.lastBootId == "" && t - node.created >= FIVE_MINUTES)
            && (pc == CheckingDns(node) <==>
                  && node.bootId != "" && node.lastBootId != node.bootId
                  && (node.lastBootId == "" ==> t - node.created < FIVE_MINUTES))
            && s' == s.(workers := s'.workers)
  {}

  // ----- In every run a check is created only for a node that was found ready -----

  /** At place k of the run the reconcile that held copy found it ready and CoreDNS serving. */
  ghost predicate FoundReady(hash: Hash, s0: State, actions: seq<Action>, k: nat, copy: NodeObject) {
    && k < |actions| && actions[k].CheckDns?
    && WorkerOf(Run(hash, s0, actions[..k]), actions[k].node).pc == CheckingDns(copy)
    && Serving(actions[k].dns) && Ready(copy)
  }

  lemma StillFound(hash: Hash, s0: State, actions: seq<Action>, a: Action, k: nat, copy: NodeObject)
    requires FoundReady(hash, s0, actions, k, copy)
    ensures FoundReady(hash, s0, actions + [a], k, copy)
  {
    hide Run, Ready;
    assert (actions + [a])[..k] == actions[..k];
  }

  lemma {:induction false} CreatingWasReady(hash: Hash, s0: State, actions: seq<Action>, n: string) returns (k: nat)
    requires Init(s0) && WorkerOf(Run(hash, s0, actions), n).pc.Creating?
    ensures FoundReady(hash, s0, actions, k, WorkerOf(Run(hash, s0, actions), n).pc.node)
  {
    hide Step, Ready, Serving;
    var init, a := actions[..|actions| - 1], actions[|actions| - 1];
    assert actions == init + [a];
    var s := Run(hash, s0, init);
    var copy := WorkerOf(Step(hash, s, a), n).pc.node;
    if WorkerOf(Step(hash, s, a), n).pc == WorkerOf(s, n).pc {
      k := CreatingWasReady(hash, s0, init, n);
      StillFound(hash, s0, init, a, k, copy);
    } else {
      k := |init|;
      BecomesCreating(hash, s, a, n);
      ReadinessIff(hash, s, n, copy, a.dns, a.t);
      assert actions[..k] == init;
    }
  }

  lemma BecomesCreating(hash: Hash, s: State, a: Action, n: string)
    requires WorkerOf(Step(hash, s, a), n).pc != WorkerOf(s, n).pc && WorkerOf(Step(hash, s, a), n).pc.Creating?
    ensures a.CheckDns? && a.node == n && ClockReading(s, n, a.t)
    ensures WorkerOf(s, n).pc == CheckingDns(WorkerOf(Step(hash, s, a), n).pc.node)
  {
    hide IsNodeReadyForHealthCheck, NotReadyExceeds, GenerateCNHName, Collected;
    if Outside(a) {
      OutsideMovesNoWorker(s, a);
    } else if a.node != n {
      WorkersBeside(hash, s, a, n);
    }
  }

  /** In every run, and for every check that was ever created: the reconcile that created it had found its
      copy of the node ready, and CoreDNS serving. */
  lemma {:induction false} CreatedWasReady(hash: Hash, s0: State, actions: seq<Action>, i: nat) returns (k: nat, copy: NodeObject)
    requires Init(s0) && i < |Run(hash, s0, actions).log| && Run(hash, s0, actions).log[i].Created?
    ensures FoundReady(hash, s0, actions, k, copy)
    ensures Run(hash, s0, actions).log[i] == Created(copy.name, copy.bootId)
  {
    hide Step, Ready, Serving, GenerateCNHName;
    var init, a := actions[..|actions| - 1], actions[|actions| - 1];
    assert actions == init + [a];
    var s := Run(hash, s0, init);
    if i < |s.log| {
      var e := StepLogs(hash, s, a);
      assert s.log <= Step(hash, s, a).log;
      k, copy := CreatedWasReady(hash, s0, init, i);
    } else {
      var e := StepLogs(hash, s, a);
      assert Step(hash, s, a).log[i] == e.value;
      copy := WorkerOf(s, a.node).pc.node;
      assert Creates(hash, s, a, e.value.node, e.value.boot);
      k := CreatingWasReady(hash, s0, init, a.node);
    }
    StillFound(hash, s0, init, a, k, copy);
  }

  // ----- One reconcile in which no call fails -----

  lemma {:induction false} CollectedKeepsReady(cs: seq<NodeCondition>, t: Time)
    ensures ReadyCondition(Collected(cs, t)) == ReadyCondition(cs)
  {
    if cs != [] {
      CollectedKeepsReady(cs[1..], t);
    }
  }

  /** The node as the reconcile holds it after its read: a stale NodeHealthy condition is gone. */
  function Read(s: State, n: string): NodeObject
    requires n in s.nodes
  {
    s.nodes[n].(conditions := Collected(s.nodes[n].conditions, s.now))
  }

  /** An idle reconcile, and a node that it can read. */
  ghost predicate Waiting(hash: Hash, s: State, n: string) {
    Inv(hash, s) && WorkerOf(s, n).pc.Idle? && WorkerOf(s, n).since <= s.now && n in s.nodes
  }

  lemma ReadsNode(hash: Hash, s: State, n: string)
    requires Waiting(hash, s, n)
    ensures Step(hash, s, Get(n, s.nodes[n], s.now, Done)) == Go(s.(nodes := s.nodes[n := Read(s, n)]), n, Deciding(Read(s, n)))
    ensures Read(s, n).name == n && (Ready(Read(s, n)) <==> Ready(s.nodes[n]))
  {
    hide Environment, Collected, Inv, Ready, DoGet, IsNodeReady, ReadyCondition;
    StoredName(hash, s, n);
    CollectedKeepsReady(s.nodes[n].conditions, s.now);
    ReadyMeans(s.nodes[n], s.now);
    ReadyMeans(Read(s, n), s.now);
    SameReady(s.nodes[n], Read(s, n));
    GetsNode(s, n);
  }

  lemma StoredName(hash: Hash, s: State, n: string)
    requires Inv(hash, s) && n in s.nodes
    ensures s.nodes[n].name == n
  {}

  lemma SameReady(a: NodeObject, b: NodeObject)
    requires a.labels == b.labels && ReadyCondition(a.conditions) == ReadyCondition(b.conditions)
    ensures IsNodeReady(a) == IsNodeReady(b)
    ensures IsKarpenterManaged(a) == IsKarpenterManaged(b) && IsKarpenterInitialized(a) == IsKarpenterInitialized(b)
  {}

  lemma GetsNode(s: State, n: string)
    requires n in s.nodes
    ensures DoGet(s, n, s.nodes[n], s.now, Done) == Go(s.(nodes := s.nodes[n := Read(s, n)]), n, Deciding(Read(s, n)))
  {
    hide Collected;
    assert s.nodes[n := s.nodes[n]] == s.nodes;
  }

  /** The five calls that check a boot. */
  function Checking(s: State, n: string, dns: Dns): seq<Action>
    requires n in s.nodes
  {
    [Get(n, s.nodes[n], s.now, Done), Decide(n, s.now), CheckDns(n, dns, s.now), Create(n, Done), Annotate(n, Done)]
  }

  /** The boot of the node calls for a check: its boot ID is not the one that was annotated, and there is one,
      or the node is younger than five minutes. */
  predicate Unchecked(node: NodeObject, now: Time) {
    && node.bootId != "" && node.lastBootId != node.bootId
    && (node.lastBootId != "" || now - node.created < FIVE_MINUTES)
  }

  /** A reboot is detected: a reconcile that reads a ready node with a boot that calls for a check, while CoreDNS
      serves, leaves the check named after node and boot, logged as created if it was not there, and the
      annotation at that boot. */
  lemma RebootChecked(hash: Hash, s: State, n: string, dns: Dns)
    requires Waiting(hash, s, n) && Unchecked(s.nodes[n], s.now) && Ready(s.nodes[n]) && Serving(dns)
    ensures var s' := Run(hash, s, Checking(s, n, dns));
            var (b, name) := (s.nodes[n].bootId, GenerateCNHName(hash, n, s.nodes[n].bootId));
            && s'.cnhs == s.cnhs + {name}
            && s'.log == s.log + (if name in s.cnhs then [] else [Created(n, b)]) + [Annotated(n, b)]
            && s'.nodes == s.nodes[n := Read(s, n).(lastBootId := b)]
            && WorkerOf(s', n).pc == Idle(RequeueLater)
  {
    hide Step, Run, Ready, Serving, Inv, GenerateCNHName, Read, Unchecked;
    var (node, steps) := (Read(s, n), Checking(s, n, dns));
    RunOfFive(hash, s, steps);
    var s3 := Step(hash, Step(hash, Step(hash, s, steps[0]), steps[1]), steps[2]);
    ComesToCreate(hash, s, n, dns);
    CreatesCheck(hash, s3, n, node);
    AnnotatesNode(hash, Step(hash, s3, steps[3]), n, node);
    assert s.nodes[n := node][n := node.(lastBootId := node.bootId)] == s.nodes[n := node.(lastBootId := node.bootId)];
  }

  lemma RunOfFive(hash: Hash, s: State, a: seq<Action>)
    requires |a| == 5
    ensures Run(hash, s, a) == Step(hash, Step(hash, Step(hash, Step(hash, Step(hash, s, a[0]), a[1]), a[2]), a[3]), a[4])
  {
    hide Step, Run;
    RunOfFour(hash, s, a[..4]);
    RunConcat(hash, s, a[..4], [a[4]]);
    assert a == a[..4] + [a[4]];
    RunOfTwo(hash, Run(hash, s, a[..4]), a[4], a[4]);
  }

  lemma ComesToCreate(hash: Hash, s: State, n: string, dns: Dns)
    requires Waiting(hash, s, n) && Unchecked(s.nodes[n], s.now) && Ready(s.nodes[n]) && Serving(dns)
    ensures var s' := Step(hash, Step(hash, Step(hash, s, Get(n, s.nodes[n], s.now, Done)), Decide(n, s.now)), CheckDns(n, dns, s.now));
            && Read(s, n).name == n && Read(s, n).bootId == s.nodes[n].bootId && WorkerOf(s', n).pc == Creating(Read(s, n))
            && s'.cnhs == s.cnhs && s'.log == s.log && s'.nodes == s.nodes[n := Read(s, n)]
  {
    hide Step, Ready, Serving, Inv, Collected;
    var node := Read(s, n);
    ReadsNode(hash, s, n);
    var s1 := Step(hash, s, Get(n, s.nodes[n], s.now, Done));
    DecisionIff(hash, s1, n, node, s.now);
    Worked(hash, s1, Decide(n, s.now), n);
    ReadinessIff(hash, Step(hash, s1, Decide(n, s.now)), n, node, dns, s.now);
  }

  /** A decided worker may take its next clock reading at once. */
  lemma Worked(hash: Hash, s: State, a: Action, n: string)
    requires a.Decide? && a.node == n && WorkerOf(s, n).pc.Deciding? && ClockReading(s, n, a.t)
    ensures var s' := Step(hash, s, a); n in s'.workers && s'.workers[n].since == s.now == s'.now
  {
    hide Decision, Environment;
  }

  lemma CreatesCheck(hash: Hash, s: State, n: string, node: NodeObject)
    requires WorkerOf(s, n).pc == Creating(node) && node.name == n
    ensures var s' := Step(hash, s, Create(n, Done));
            var name := GenerateCNHName(hash, n, node.bootId);
            && s'.cnhs == s.cnhs + {name} && s'.nodes == s.nodes
            && s'.log == s.log + (if name in s.cnhs then [] else [Created(n, node.bootId)])
            && WorkerOf(s', n).pc == Annotating(node, true)
  {
    hide Environment, GenerateCNHName;
  }

  lemma AnnotatesNode(hash: Hash, s: State, n: string, node: NodeObject)
    requires WorkerOf(s, n).pc == Annotating(node, true) && n in s.nodes
    ensures var s' := Step(hash, s, Annotate(n, Done));
            && s'.nodes == s.nodes[n := s.nodes[n].(lastBootId := node.bootId)] && s'.cnhs == s.cnhs
            && s'.log == s.log + [Annotated(n, node.bootId)] && WorkerOf(s', n).pc == Idle(RequeueLater)
  {
    hide Environment;
  }

  /** A node that is ready for nothing yet is deferred: no check is created and the annotation stays. */
  lemma UnreadyNodeDeferred(hash: Hash, s: State, n: string, dns: Dns)
    requires Waiting(hash, s, n) && Unchecked(s.nodes[n], s.now) && !(Ready(s.nodes[n]) && Serving(dns))
    ensures var s' := Step(hash, Step(hash, Step(hash, s, Get(n, s.nodes[n], s.now, Done)), Decide(n, s.now)), CheckDns(n, dns, s.now));
            && s'.cnhs == s.cnhs && s'.log == s.log && s'.nodes == s.nodes[n := Read(s, n)]
            && (if Broken(dns) then WorkerOf(s', n).pc == Idle(Errored)
                else if WaitedTooLong(Read(s, n), s.now) then WorkerOf(s', n).pc == Idle(NoRequeue)
                else WorkerOf(s', n).pc == Idle(Requeue))
  {
    hide Step, Ready, Serving, Broken, WaitedTooLong, Inv, Collected;
    var node := Read(s, n);
    ReadsNode(hash, s, n);
    var s1 := Step(hash, s, Get(n, s.nodes[n], s.now, Done));
    DecisionIff(hash, s1, n, node, s.now);
    Worked(hash, s1, Decide(n, s.now), n);
    ReadinessIff(hash, Step(hash, s1, Decide(n, s.now)), n, node, dns, s.now);
  }

  /** An old node without annotation gets its boot ID without a check. */
  lemma OldNodeInitialised(hash: Hash, s: State, n: string)
    requires Waiting(hash, s, n) && s.nodes[n].bootId != "" && s.nodes[n].lastBootId == "" && s.now - s.nodes[n].created >= FIVE_MINUTES
    ensures var s' := Step(hash, Step(hash, Step(hash, s, Get(n, s.nodes[n], s.now, Done)), Decide(n, s.now)), Annotate(n, Done));
            && s'.cnhs == s.cnhs && s'.nodes == s.nodes[n := Read(s, n).(lastBootId := s.nodes[n].bootId)]
            && s'.log == s.log + [Entry.Initialised(n, s.nodes[n].bootId)]
            && WorkerOf(s', n).pc == Idle(RequeueLater)
  {
    hide Step, Ready, Inv, Collected;
    var node := Read(s, n);
    ReadsNode(hash, s, n);
    var s1 := Step(hash, s, Get(n, s.nodes[n], s.now, Done));
    DecisionIff(hash, s1, n, node, s.now);
    var s2 := Step(hash, s1, Decide(n, s.now));
    Worked(hash, s1, Decide(n, s.now), n);
    Patches(hash, s2, n, node);
  }

  /** A node without boot ID, or with that of its annotation, is left alone but for a stale condition. */
  lemma SettledNodeLeft(hash: Hash, s: State, n: string)
    requires Waiting(hash, s, n) && (s.nodes[n].bootId == "" || s.nodes[n].lastBootId == s.nodes[n].bootId)
    ensures var s' := Step(hash, Step(hash, s, Get(n, s.nodes[n], s.now, Done)), Decide(n, s.now));
            && s' == s.(nodes := s.nodes[n := Read(s, n)], workers := s'.workers)
            && WorkerOf(s', n).pc == Idle(NoRequeue)
  {
    hide Step, Ready, Inv, Collected;
    ReadsNode(hash, s, n);
    DecisionIff(hash, Step(hash, s, Get(n, s.nodes[n], s.now, Done)), n, Read(s, n), s.now);
  }
}
