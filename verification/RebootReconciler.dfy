/** The node controller's reconcile in its own form. Every reconcile of a node is a run of the
    reboot protocol, whatever happens between its calls. */
module RebootReconciler {
  import opened Api
  import opened NodeConditions
  import opened NodeReboot

  datatype Result = NoResult | RequeueAfter(delay: Time) | Error

  function ResultOf(o: Outcome): Result {
    match o
    case NoRequeue => NoResult
    case Requeue => RequeueAfter(NODE_READY_REQUEUE_INTERVAL)
    case RequeueLater => RequeueAfter(NODE_CONDITION_TTL)
    case _ => Error
  }

  // ----- What is read off a node and off CoreDNS -----

  method IsReady(node: NodeObject) returns (ready: bool)
    ensures ready <==> IsNodeReady(node)
  {
    for i := 0 to |node.conditions|
      invariant ReadyCondition(node.conditions) == ReadyCondition(node.conditions[i..])
    {
      ReadyStep(node.conditions, i);
      if node.conditions[i].kind == NODE_READY {
        return node.conditions[i].status == ConditionTrue;
      }
    }
    return false;
  }

  lemma ReadyStep(cs: seq<NodeCondition>, i: nat)
    requires i < |cs|
    ensures ReadyCondition(cs[i..]) == if cs[i].kind == NODE_READY then Some(cs[i]) else ReadyCondition(cs[i + 1..])
  {
    assert cs[i..][0] == cs[i] && cs[i..][1..] == cs[i + 1..];
  }

  method HasBeenNotReadyFor(node: NodeObject, d: Time, now: Time) returns (exceeds: bool)
    ensures exceeds <==> NotReadyExceeds(node, d, now)
  {
    if IsKarpenterManaged(node) && !IsKarpenterInitialized(node) {
      return now - node.created > d;
    }
    for i := 0 to |node.conditions|
      invariant ReadyCondition(node.conditions) == ReadyCondition(node.conditions[i..])
    {
      ReadyStep(node.conditions, i);
      var c := node.conditions[i];
      if c.kind == NODE_READY {
        if c.status == ConditionTrue {
          return false;
        }
        return now - c.lastTransitionTime > d;
      }
    }
    return now - node.created > d;
  }

  method IsReadyForHealthCheck(node: NodeObject, dns: Dns) returns (answer: Answer)
    ensures answer == IsNodeReadyForHealthCheck(node, dns)
    ensures answer == Failure <==> dns.DnsError? || (dns.DnsDeployment? && dns.replicas == Some(0))
  {
    var dnsReady := CoreDnsReady(dns);
    if dnsReady != Yes {
      return dnsReady;
    }
    if IsKarpenterManaged(node) {
      return if IsKarpenterInitialized(node) then Yes else No;
    }
    var ready := IsReady(node);
    return if ready then Yes else No;
  }

  // ----- Running beside the rest of the world -----

  predicate Mine(a: Action, n: string) {
    !Outside(a) && a.node == n
  }

  lemma OthersLeaveWorker(hash: Hash, s: State, a: Action, n: string)
    requires !Mine(a, n)
    ensures var s' := Step(hash, s, a);
            && WorkerOf(s', n).pc == WorkerOf(s, n).pc && s.now <= s'.now
            && (WorkerOf(s, n).since <= s.now ==> WorkerOf(s', n).since <= s'.now)
            && (n in s.workers ==> n in s'.workers && s'.workers[n] == s.workers[n])
  {
    hide WorkerStep, Environment;
    if Outside(a) {
      EnvironmentClock(s, a);
    } else {
      WorkersBeside(hash, s, a, n);
    }
  }

  lemma EnvironmentClock(s: State, a: Action)
    ensures s.now <= Environment(s, a).now && Environment(s, a).workers == s.workers
  {}

  lemma RunSnoc(hash: Hash, s: State, actions: seq<Action>, a: Action)
    ensures Run(hash, s, actions + [a]) == Step(hash, Run(hash, s, actions), a)
  {
    hide Step;
    assert (actions + [a])[..|actions|] == actions;
  }

  lemma CreateGoes(hash: Hash, s: State, n: string, node: NodeObject, reply: Reply)
    requires WorkerOf(s, n).pc == Creating(node)
    ensures var s' := Step(hash, s, Create(n, reply));
            n in s'.workers && s'.workers[n] == Worker(if reply.Done? then Annotating(node, true) else Idle(Errored), s'.now)
  {
    hide GenerateCNHName;
  }

  lemma AnnotateGoes(hash: Hash, s: State, n: string, node: NodeObject, checked: bool, reply: Reply)
    requires WorkerOf(s, n).pc == Annotating(node, checked)
    ensures var s' := Step(hash, s, Annotate(n, reply));
            n in s'.workers && s'.workers[n] == Worker(Idle(if reply.Done? && n in s.nodes then RequeueLater else Errored), s'.now)
  {}

  /** A call for node n that does not do what it asks, or that is made instead of the next one. */
  predicate Fails(a: Action, n: string) {
    && Mine(a, n)
    && match a
       case Miss(_) => true
       case Abort(_) => true
       case Get(_, _, _, reply) => !reply.Done?
       case Create(_, reply) => !reply.Done?
       case Annotate(_, reply) => !reply.Done?
       case _ => false
  }

  function FailedCalls(trace: seq<Action>, n: string): nat {
    if trace == [] then 0
    else FailedCalls(trace[..|trace| - 1], n) + (if Fails(trace[|trace| - 1], n) then 1 else 0)
  }

  lemma FailedSnoc(trace: seq<Action>, a: Action, n: string)
    ensures FailedCalls(trace + [a], n) == FailedCalls(trace, n) + (if Fails(a, n) then 1 else 0)
  {
    hide Fails;
    assert (trace + [a])[..|trace|] == trace;
  }

  class Server {
    const hash: Hash
    var s: State
    ghost var start: State
    ghost var trace: seq<Action>
    /** How many answers a reconcile could not go on with: an error, nothing found, or a CoreDNS that wants
        no replicas. */
    ghost var failures: nat

    ghost predicate Valid()
      reads this
    {
      Init(start) && s == Run(hash, start, trace)
    }

    /** The reconcile of node n has come to pc; the run has only grown, and no call for n has failed but for
        an answer of the server. */
    twostate predicate Came(n: string, pc: Pc)
      reads this
    {
      && Valid()
      && WorkerOf(s, n).pc == pc && WorkerOf(s, n).since <= s.now
      && (!pc.Idle? ==> n in s.workers)
      && start == old(start) && old(trace) <= trace
      && old(failures) <= failures
      && FailedCalls(trace, n) - FailedCalls(old(trace), n) <= failures - old(failures)
    }

    constructor (hash: Hash, now: Time)
      ensures Valid() && this.hash == hash && s.now == now
    {
      this.hash := hash;
      s := State(now, 0, map[], {}, {}, {}, map[], []);
      start := State(now, 0, map[], {}, {}, {}, map[], []);
      trace, failures := [], 0;
    }

    method Take(a: Action)
      requires Valid()
      modifies this`s, this`trace
      ensures Valid() && s == Step(hash, old(s), a) && trace == old(trace) + [a]
    {
      hide Step, Run, Init;
      RunSnoc(hash, start, trace, a);
      s := Step(hash, s, a);
      trace := trace + [a];
    }

    /** A call for node n. */
    method Act(n: string, a: Action, ghost failed: bool)
      requires Valid() && (Fails(a, n) ==> failed)
      modifies this`s, this`trace, this`failures
      ensures Valid() && s == Step(hash, old(s), a) && trace == old(trace) + [a]
      ensures failures == old(failures) + (if failed then 1 else 0)
      ensures FailedCalls(trace, n) - FailedCalls(old(trace), n) <= failures - old(failures)
    {
      hide Step, Run, Init, FailedCalls, Fails;
      FailedSnoc(trace, a, n);
      Take(a);
      failures := failures + (if failed then 1 else 0);
    }

    method Interfere(n: string)
      requires Valid() && WorkerOf(s, n).since <= s.now
      modifies this`s, this`trace
      ensures Came(n, old(WorkerOf(s, n).pc)) && old(s.now) <= s.now
      ensures FailedCalls(trace, n) == FailedCalls(old(trace), n)
      ensures n in old(s.workers) ==> n in s.workers && s.workers[n] == old(s.workers[n])
    {
      hide Step, Run, Init;
      var others: seq<Action> := *;
      for i := 0 to |others|
        invariant Came(n, old(WorkerOf(s, n).pc)) && old(s.now) <= s.now
        invariant FailedCalls(trace, n) == FailedCalls(old(trace), n)
        invariant n in old(s.workers) ==> n in s.workers && s.workers[n] == old(s.workers[n])
      {
        if !Mine(others[i], n) {
          OthersLeaveWorker(hash, s, others[i], n);
          FailedSnoc(trace, others[i], n);
          Take(others[i]);
        }
      }
    }

    method Now(n: string) returns (t: Time)
      requires Valid() && n in s.workers && s.workers[n].since <= s.now
      modifies this`s, this`trace
      ensures Came(n, old(s.workers[n].pc)) && ClockReading(s, n, t) && n in s.workers
    {
      hide Step, Run, Init;
      Interfere(n);
      t := s.now;
    }

    /** A copy of the node, as the cache serves it. */
    method Get(n: string) returns (found: Option<NodeObject>, now: Time)
      requires Valid() && WorkerOf(s, n).pc.Idle? && WorkerOf(s, n).since <= s.now
      modifies this`s, this`trace, this`failures
      ensures found.Some? ==> Came(n, old(WorkerOf(s, n).pc)) && ClockReading(s, n, now) && found.value.name == n
      ensures found.None? ==> Came(n, Idle(NoRequeue)) && Moved(old(trace), trace, n) && failures > old(failures)
    {
      hide FailedCalls, Run, Init, GenerateCNHName, Collected;
      Interfere(n);
      now := s.now;
      found := *;
      match found {
        case Some(read) =>
          if read.name == n {
            return;
          }
        case None =>
      }
      found := None;
      Act(n, Miss(n), true);
      assert Mine(trace[|trace| - 1], n);
    }

    /** Patches the conditions, if they have changed; the server's reply refreshes the copy. */
    method PatchConditions(n: string, read: NodeObject, conditions: seq<NodeCondition>, now: Time) returns (ok: bool, node: NodeObject)
      requires Valid() && WorkerOf(s, n).pc.Idle? && ClockReading(s, n, now)
      requires read.name == n && conditions == Collected(read.conditions, now)
      modifies this`s, this`trace, this`failures
      ensures Came(n, if ok then Deciding(node) else Idle(Errored))
      ensures (conditions == read.conditions ==> ok && node == read) && (!ok ==> failures > old(failures))
      ensures Moved(old(trace), trace, n)
    {
      hide FailedCalls, Run, Init, GenerateCNHName, Collected;
      var reply: Reply := *;
      ok := conditions == read.conditions || (reply.Done? && n in s.nodes);
      node := if conditions == read.conditions || n !in s.nodes then read
              else s.nodes[n].(conditions := Collected(s.nodes[n].conditions, now));
      if conditions == read.conditions {
        reply := Done;
      }
      Act(n, NodeReboot.Get(n, read, now, reply), !ok);
      assert Mine(trace[|trace| - 1], n);
    }

    method Decided(n: string, now: Time)
      requires Valid() && WorkerOf(s, n).pc.Deciding? && ClockReading(s, n, now)
      modifies this`s, this`trace, this`failures
      ensures Came(n, old(Decision(WorkerOf(s, n).pc.node, now)))
    {
      hide FailedCalls, Run, Init, Decision;
      Act(n, Decide(n, now), false);
    }

    /** The CoreDNS Deployment. */
    method GetDns() returns (dns: Dns)
      requires Valid()
      modifies this`failures
      ensures Valid()
      ensures failures == old(failures) + (if dns.DnsError? || (dns.DnsDeployment? && dns.replicas == Some(0)) then 1 else 0)
    {
      dns := *;
      failures := failures + (if dns.DnsError? || (dns.DnsDeployment? && dns.replicas == Some(0)) then 1 else 0);
    }

    method Readied(n: string, dns: Dns, now: Time)
      requires Valid() && WorkerOf(s, n).pc.CheckingDns? && ClockReading(s, n, now)
      modifies this`s, this`trace, this`failures
      ensures Came(n, old(Readiness(WorkerOf(s, n).pc.node, dns, now)))
    {
      hide FailedCalls, Run, Init, Readiness;
      Act(n, CheckDns(n, dns, now), false);
    }

    /** Done if the check was created or is there already. */
    method CreateCheck(n: string, name: string) returns (ok: bool)
      requires Valid() && WorkerOf(s, n).pc.Creating? && WorkerOf(s, n).since <= s.now
      requires name == GenerateCNHName(hash, WorkerOf(s, n).pc.node.name, WorkerOf(s, n).pc.node.bootId)
      modifies this`s, this`trace, this`failures
      ensures Came(n, if ok then Annotating(old(WorkerOf(s, n)).pc.node, true) else Idle(Errored)) && (!ok ==> failures > old(failures))
    {
      hide FailedCalls, Run, Init, GenerateCNHName, Step;
      Interfere(n);
      var reply: Reply := *;
      ok := reply.Done?;
      CreateGoes(hash, s, n, WorkerOf(s, n).pc.node, reply);
      Act(n, Create(n, reply), !ok);
    }

    method PatchAnnotation(n: string, bootId: string) returns (ok: bool)
      requires Valid() && WorkerOf(s, n).pc.Annotating? && WorkerOf(s, n).since <= s.now
      requires bootId == WorkerOf(s, n).pc.node.bootId
      modifies this`s, this`trace, this`failures
      ensures Came(n, Idle(if ok then RequeueLater else Errored)) && (!ok ==> failures > old(failures))
    {
      hide FailedCalls, Run, Init, Step;
      Interfere(n);
      var reply: Reply := *;
      ok := reply.Done? && n in s.nodes;
      AnnotateGoes(hash, s, n, WorkerOf(s, n).pc.node, WorkerOf(s, n).pc.checked, reply);
      Act(n, Annotate(n, reply), !ok);
    }
  }

  /** The reconcile of node n has read it, or failed to, since trace was before. */
  ghost predicate Moved(before: seq<Action>, trace: seq<Action>, n: string) {
    exists i :: |before| <= i < |trace| && Mine(trace[i], n) && (trace[i].Get? || trace[i].Miss?)
  }

  class NodeRebootReconciler {
    const server: Server

    constructor (server: Server)
      ensures this.server == server
    {
      this.server := server;
    }

    /** The reconcile has come to the end of its program with that result: an error only after a failed call,
        a wait of thirty seconds for a node that is not ready, and one of thirty minutes once its boot is
        annotated. */
    twostate predicate Ended(n: string, result: Result)
      reads this, server
    {
      var pc := WorkerOf(server.s, n).pc;
      && pc.Idle? && server.Came(n, pc) && result == ResultOf(pc.outcome)
      && (result.Error? ==> server.failures > old(server.failures))
      && (pc.outcome.Requeue? ==> result == RequeueAfter(30_000_000_000))
      && (pc.outcome.RequeueLater? ==> result == RequeueAfter(1_800_000_000_000))
      && (result.RequeueAfter? ==> pc.outcome.Requeue? || pc.outcome.RequeueLater?)
    }

    /** One reconcile of node n makes calls, in the order and with the contents that the protocol
        prescribes, up to the end of its program, and returns what it came to. */
    method Reconcile(n: string) returns (result: Result)
      requires server.Valid() && WorkerOf(server.s, n).pc.Idle? && WorkerOf(server.s, n).since <= server.s.now
      modifies server
      ensures Ended(n, result) && Moved(old(server.trace), server.trace, n)
    {
      hide FailedCalls, server.Valid, GenerateCNHName, Collected;
      var found, now := server.Get(n);
      if found.None? {
        return NoResult;
      }
      var node := found.value;
      var copy := new Node(node.conditions);
      var _ := copy.RemoveStaleNodeCondition(now);
      var ok;
      ok, node := server.PatchConditions(n, node, copy.conditions, now);
      if !ok {
        return Error;
      }
      result := Compare(n, node);
    }

    method Compare(n: string, node: NodeObject) returns (result: Result)
      requires server.Valid() && n in server.s.workers && server.s.workers[n].since <= server.s.now
      requires server.s.workers[n].pc == Deciding(node)
      modifies server
      ensures Ended(n, result)
    {
      hide FailedCalls, server.Valid, GenerateCNHName, Readiness;
      var now := server.Now(n);
      server.Decided(n, now);
      if node.bootId == "" {
        return NoResult;
      }
      if node.lastBootId == "" {
        if now - node.created < NEW_NODE_THRESHOLD {
          result := CheckThenAnnotate(n, node);
          return;
        }
        var ok := server.PatchAnnotation(n, node.bootId);
        return if ok then RequeueAfter(NODE_CONDITION_TTL) else Error;
      }
      if node.lastBootId == node.bootId {
        return NoResult;
      }
      result := CheckThenAnnotate(n, node);
    }

    method CheckThenAnnotate(n: string, node: NodeObject) returns (result: Result)
      requires server.Valid() && n in server.s.workers && server.s.workers[n].since <= server.s.now
      requires server.s.workers[n].pc == CheckingDns(node)
      modifies server
      ensures Ended(n, result)
    {
      hide FailedCalls, server.Valid, GenerateCNHName, IsNodeReadyForHealthCheck, NotReadyExceeds, CoreDnsReady, Collected, Step, Run;
      var dns := server.GetDns();
      var answer := IsReadyForHealthCheck(node, dns);
      var now := server.Now(n);
      server.Readied(n, dns, now);
      if answer == Failure {
        return Error;
      }
      if answer == No {
        var exceeds := HasBeenNotReadyFor(node, NODE_READY_MAX_WAIT, now);
        return if exceeds then NoResult else RequeueAfter(NODE_READY_REQUEUE_INTERVAL);
      }
      result := CreateThenAnnotate(n, node);
    }

    method CreateThenAnnotate(n: string, node: NodeObject) returns (result: Result)
      requires server.Valid() && n in server.s.workers && server.s.workers[n].since <= server.s.now
      requires server.s.workers[n].pc == Creating(node)
      modifies server
      ensures Ended(n, result)
    {
      hide FailedCalls, server.Valid, GenerateCNHName;
      var ok := server.CreateCheck(n, GenerateCNHName(server.hash, node.name, node.bootId));
      if !ok {
        return Error;
      }
      ok := server.PatchAnnotation(n, node.bootId);
      return if ok then RequeueAfter(NODE_CONDITION_TTL) else Error;
    }
  }
}
