/** The CheckNodeHealth reconciler in its own form: it works on a private copy of the resource,
    changes that copy in place, and sends it to the API server. Every reconcile is a run of the
    protocol, whatever happens between its calls. */
module Reconciler {
  import opened Api
  import opened Verdicts
  import opened CheckProtocol
  import opened CheckSafety
  import opened CircuitBreaker
  import opened ApiServer
  import opened BlastRadius
  import NodeConditions

  // ----- The client's copy of a resource -----

  class CheckNodeHealth {
    const name: string
    const uid: nat
    const node: string
    const created: Time
    var rv: nat
    var deleting: bool
    var finalizer: bool
    var startedAt: Option<Time>
    var finishedAt: Option<Time>
    var conditions: seq<Condition>
    var results: seq<CheckResult>

    function View(): Cnh
      reads this
    {
      Cnh(name, uid, rv, node, created, deleting, finalizer, Status(startedAt, finishedAt, conditions, results))
    }

    constructor (cnh: Cnh)
      ensures View() == cnh
    {
      name, uid, node, created := cnh.name, cnh.uid, cnh.node, cnh.created;
      rv, deleting, finalizer := cnh.rv, cnh.deleting, cnh.finalizer;
      startedAt, finishedAt := cnh.status.startedAt, cnh.status.finishedAt;
      conditions, results := cnh.status.conditions, cnh.status.results;
    }

    /** The client fills in the version under which the object was stored. */
    method Receive(stored: Cnh)
      requires stored == View().(rv := stored.rv)
      modifies this`rv
      ensures View() == stored
    {
      rv := stored.rv;
    }

    method SetStarted(now: Time)
      modifies this`startedAt, this`conditions
      ensures View() == old(View()).(status := StartedStatus(old(View()).status, now))
    {
      startedAt := Some(now);
      conditions := [Condition(HEALTHY, ConditionUnknown, REASON_STARTED, "", now)];
    }

    method SetCompleted(now: Time) returns (healthyStatus: ConditionStatus)
      modifies this`finishedAt, this`conditions
      ensures View() == old(View()).(status := CompletedStatus(old(View()).status, now))
      ensures healthyStatus == Verdict(results)
    {
      finishedAt := Some(now);
      var reason, message;
      healthyStatus, reason, message := DetermineHealthyCondition(results);
      conditions := [Condition(HEALTHY, healthyStatus, reason, message, now)];
    }

    /** Overwrites the result of that name in place, or appends. */
    method UpdateCheckResult(newResult: CheckResult)
      modifies this`results
      ensures results == WithResult(old(results), newResult)
    {
      for i := 0 to |results|
        invariant results == old(results)
        invariant WithResult(results, newResult) == results[..i] + WithResult(results[i..], newResult)
      {
        WithResultStep(results, i, newResult);
        if results[i].name == newResult.name {
          results := results[i := newResult];
          return;
        }
      }
      results := results + [newResult];
    }
  }

  lemma WithResultStep(rs: seq<CheckResult>, i: nat, r: CheckResult)
    requires i < |rs|
    requires WithResult(rs, r) == rs[..i] + WithResult(rs[i..], r)
    ensures WithResult(rs, r) == if rs[i].name == r.name then rs[i := r] else rs[..i + 1] + WithResult(rs[i + 1..], r)
  {
    Splice(rs, i, r, WithResult(rs[i + 1..], r));
  }

  lemma Splice(rs: seq<CheckResult>, i: nat, r: CheckResult, tail: seq<CheckResult>)
    requires i < |rs|
    ensures rs[i := r] == rs[..i] + ([r] + rs[i + 1..])
    ensures rs[..i] + ([rs[i]] + tail) == rs[..i + 1] + tail
    ensures rs[i..][0] == rs[i] && rs[i..][1..] == rs[i + 1..]
  {}

  // ----- What is read off a pod -----

  method AreAllContainersStarted(containers: seq<ContainerState>) returns (all: bool)
    ensures all <==> AllContainersStarted(containers)
  {
    if |containers| == 0 {
      return false;
    }
    for i := 0 to |containers|
      invariant forall j :: 0 <= j < i ==> HasStarted(containers[j])
    {
      if !HasStarted(containers[i]) {
        assert containers[i] in containers;
        return false;
      }
    }
    return true;
  }

  // ----- The reconciler -----

  const REQUEUE_INTERVAL: Time := 30 * SECOND

  datatype Result = NoRequeue | RequeueAfter(delay: Time) | Error

  function ResultOf(o: Outcome): Result {
    match o
    case Finished => NoRequeue
    case Requeued => RequeueAfter(REQUEUE_INTERVAL)
    case _ => Error
  }

  /** What a reconcile can do besides its run of the protocol: the calls the breaker has seen, the
      conditions of the nodes, how often one was given NodeHealthy=False, and how many calls on nodes
      failed. */
  datatype Account = Account(history: History, nodes: map<string, seq<NodeConditions.NodeCondition>>, falses: nat, nodeErrors: nat)

  /** What a completed check does: the breaker is asked and then told the verdict, and the node is
      written, as the verdict says, if the breaker grants it and no call fails, and only if the breaker
      grants it. */
  ghost predicate SettledBy(x: Completion, config: Config, a: Account, a': Account, node: string, condition: Condition) {
    && a'.history == a.history + EventsOf(x)
    && x.failing == (condition.status == ConditionFalse)
    && x.asked <= x.recorded
    && (|| (a'.nodes == a.nodes && a'.falses == a.falses)
        || (&& Grants(config, a.history, x.asked)
            && node in a.nodes
            && a'.nodes == a.nodes[node := NodeConditions.Reported(a.nodes[node], condition, x.asked)]
            && a'.falses == a.falses + (if x.failing then 1 else 0)))
    && (Grants(config, a.history, x.asked) && a'.nodeErrors == a.nodeErrors ==>
          node in a.nodes && a'.nodes == a.nodes[node := NodeConditions.Reported(a.nodes[node], condition, x.asked)])
  }

  /** The same, at some time between from and to. */
  ghost predicate Settled(config: Config, a: Account, a': Account, node: string, condition: Condition, from: Time, to: Time) {
    exists x :: SettledBy(x, config, a, a', node, condition) && from <= x.asked && x.recorded <= to
  }

  /** A reconcile settles one completed check, or leaves breaker and nodes alone. */
  ghost predicate SettledAtMostOne(config: Config, a: Account, a': Account, from: Time, to: Time) {
    a' == a || exists node, condition :: Settled(config, a, a', node, condition, from, to)
  }

  lemma IsSettled(x: Completion, config: Config, a: Account, a': Account, node: string, condition: Condition, from: Time, to: Time)
    requires SettledBy(x, config, a, a', node, condition) && from <= x.asked && x.recorded <= to
    ensures Settled(config, a, a', node, condition, from, to)
  {}

  lemma SettledWider(config: Config, a: Account, a': Account, node: string, condition: Condition, from: Time, to: Time, from': Time, to': Time)
    requires Settled(config, a, a', node, condition, from, to) && from' <= from && to <= to'
    ensures Settled(config, a, a', node, condition, from', to') && SettledAtMostOne(config, a, a', from', to')
  {
    hide SettledBy;
  }

  lemma SettledAtMostOneWider(config: Config, a: Account, a': Account, from: Time, to: Time, from': Time, to': Time)
    requires SettledAtMostOne(config, a, a', from, to) && from' <= from && to <= to'
    ensures SettledAtMostOne(config, a, a', from', to')
  {
    hide Settled;
    if a' != a {
      var node, condition :| Settled(config, a, a', node, condition, from, to);
      SettledWider(config, a, a', node, condition, from, to, from', to');
    }
  }

  /** The completion that was settled. */
  lemma TheSettled(config: Config, a: Account, a': Account, from: Time, to: Time) returns (x: Completion)
    requires SettledAtMostOne(config, a, a', from, to) && a' != a
    ensures a'.history == a.history + EventsOf(x) && from <= x.asked <= x.recorded <= to
    ensures a'.falses == a.falses || (a'.falses == a.falses + 1 && x.failing && Grants(config, a.history, x.asked))
  {
    hide Grants, EventsOf, NodeConditions.Reported;
    var node, condition :| Settled(config, a, a', node, condition, from, to);
    x :| SettledBy(x, config, a, a', node, condition) && from <= x.asked && x.recorded <= to;
  }

  lemma AfterAllSnoc(h: History, xs: seq<Completion>, x: Completion)
    ensures AfterAll(h, xs + [x]) == AfterAll(h, xs) + EventsOf(x)
  {
    AfterAllConcat(h, xs, [x]);
    assert [x][1..] == [];
  }

  class CheckNodeHealthReconciler {
    const server: Server
    const breaker: NodeConditionCircuitBreaker
    const w: nat

    ghost predicate Valid()
      reads this, server, breaker
    {
      && server.Valid()
      && breaker.Valid() && breaker.Clock(server.s.now)
      && WorkerOf(server.s, w).since <= server.s.now
    }

    /** The worker has come to pc, and nothing was done to the breaker or to a node. */
    twostate predicate At(pc: Pc)
      reads this, server, breaker
    {
      && Valid()
      && server.Came(w, pc)
      && Books() == old(Books())
    }

    ghost function Books(): Account
      reads this, server, breaker
    {
      Account(breaker.history, server.nodes, server.falses, server.nodeErrors)
    }

    /** Breaker and nodes are as they were, or one completed check has been settled since. */
    twostate predicate SettledOnce()
      reads this, server, breaker
    {
      SettledAtMostOne(breaker.config, old(Books()), Books(), old(server.s.now), server.s.now)
    }

    /** What did not succeed had a call that failed. */
    twostate predicate Excused(ok: bool)
      reads this, server
    {
      !ok ==> server.failures > old(server.failures)
    }

    constructor (server: Server, breaker: NodeConditionCircuitBreaker, w: nat)
      requires server.Valid() && breaker.Valid() && breaker.Clock(server.s.now) && w !in server.s.workers
      ensures this.server == server && this.breaker == breaker && this.w == w
      ensures Valid() && PcOf(server.s, w).Idle?
    {
      this.server, this.breaker, this.w := server, breaker, w;
    }

    /** The worker has come to the end of a reconcile with that result: an error only after a failed call, and
        a wait of thirty seconds. */
    twostate predicate Ended(result: Result)
      reads this, server, breaker
    {
      && Valid() && PcOf(server.s, w).Idle? && result == ResultOf(PcOf(server.s, w).outcome) && server.Came(w, PcOf(server.s, w))
      && (result.Error? ==> server.failures > old(server.failures))
      && (result.RequeueAfter? ==> result.delay == 30_000_000_000)
    }

    /** One reconcile is a run of the protocol: it makes calls, in the order and with the contents
        that the protocol prescribes, up to the end of the worker's program, and returns what the
        worker came to. */
    method Reconcile() returns (result: Result)
      requires Valid() && PcOf(server.s, w).Idle?
      modifies server, breaker
      ensures Ended(result) && Acted(old(server.trace), server.trace, w) && SettledOnce()
    {
      hide FailedCalls, Run, Init, breaker.Valid, SettledAtMostOne;
      NothingSettled();
      var reply, failed, now := server.Get(w);
      if reply.None? {
        return if failed then Error else NoRequeue;
      }
      var cnh := new CheckNodeHealth(reply.value);
      ghost var from := server.s.now;
      result := Continue(cnh, now);
      SettledAtMostOneWider(breaker.config, old(Books()), Books(), from, server.s.now, old(server.s.now), server.s.now);
    }

    lemma NothingSettled()
      ensures forall a, from, to :: SettledAtMostOne(breaker.config, a, a, from, to)
    {}

    /** Any number of reconciles, one after another as the work queue runs them, while everything else
        happens in between: xs are the checks they settled, and writes says which of them gave a node
        NodeHealthy=False. Every stretch of failing ones shorter than window and cooldown did so at
        most threshold times. */
    method ReconcileRepeatedly(times: nat) returns (ghost xs: seq<Completion>, ghost writes: seq<bool>)
      requires Valid() && PcOf(server.s, w).Idle? && breaker.config.threshold >= 1
      modifies server, breaker
      ensures Valid() && old(server.trace) <= server.trace
      ensures Serial(old(server.s.now), xs) && breaker.history == AfterAll(old(breaker.history), xs)
      ensures |writes| == |xs| && server.falses == old(server.falses) + Trues(writes)
      ensures forall i, j :: 0 <= i <= j <= |xs| && FailingStretch(breaker.config, xs[i..j]) ==> Trues(writes[i..j]) <= breaker.config.threshold
    {
      hide FailedCalls, Run, Init, Granted, Serial, AfterAll, FailingStretch, Settled, SettledAtMostOne;
      ghost var start, h := server.s.now, breaker.history;
      xs, writes := [], [];
      NothingRun(start, h);
      for i := 0 to times
        invariant Valid() && PcOf(server.s, w).Idle? && old(server.trace) <= server.trace
        invariant Serial(start, xs) && start <= End(start, xs) <= server.s.now
        invariant breaker.history == AfterAll(h, xs) && Granted(breaker.config, h, xs, writes)
        invariant |writes| == |xs| && server.falses == old(server.falses) + Trues(writes)
      {
        ghost var from, before := server.s.now, Books();
        var result := Reconcile();
        if Books() != before {
          ghost var x := TheSettled(breaker.config, before, Books(), from, server.s.now);
          ghost var write := Books().falses > before.falses;
          SerialSnoc(start, xs, x);
          AfterAllSnoc(h, xs, x);
          GrantedSnoc(breaker.config, h, xs, writes, x, write);
          TruesSnoc(writes, write);
          xs, writes := xs + [x], writes + [write];
        }
      }
      forall i, j | 0 <= i <= j <= |xs| && FailingStretch(breaker.config, xs[i..j])
        ensures Trues(writes[i..j]) <= breaker.config.threshold
      {
        assert UpTo(h, start);
        WritesInAnyStretch(breaker.config, h, start, xs, writes, i, j);
      }
    }

    lemma NothingRun(start: Time, h: History)
      ensures Serial(start, []) && AfterAll(h, []) == h && Granted(breaker.config, h, [], [])
    {}

    /** The reconcile from its private copy on; now is the clock reading that the expiry is judged by. */
    method Continue(cnh: CheckNodeHealth, now: Time) returns (result: Result)
      requires Valid() && PcOf(server.s, w) == AfterGet(cnh.View(), now)
      modifies server, breaker, cnh
      ensures Ended(result) && SettledOnce()
    {
      hide FailedCalls, Run, Init, breaker.Valid, SettledAtMostOne;
      NothingSettled();
      if cnh.deleting {
        result := HandleDeletion(cnh);
        return;
      }
      if now - cnh.created > CR_TTL {
        var ok := server.Delete(w);
        return if ok then NoRequeue else Error;
      }
      if !cnh.finalizer {
        var ok := AddFinalizer(cnh);
        if !ok {
          return Error;
        }
      }
      if cnh.finishedAt.Some? {
        result := HandleCompletion(cnh);
        return;
      }
      ghost var from := server.s.now;
      result := Check(cnh);
      SettledAtMostOneWider(breaker.config, old(Books()), Books(), from, server.s.now, old(server.s.now), server.s.now);
    }

    method AddFinalizer(cnh: CheckNodeHealth) returns (ok: bool)
      requires Valid() && PcOf(server.s, w) == AddingFinalizer(cnh.View())
      modifies server, cnh`finalizer, cnh`rv
      ensures At(if ok then AfterFinalizer(cnh.View()) else Idle(Errored)) && Excused(ok)
    {
      hide FailedCalls, Run, Init, AfterFinalizer;
      cnh.finalizer := true;
      var now := server.Now(w);
      var stored;
      ok, stored := server.Update(w, now, cnh.View());
      if ok {
        cnh.Receive(stored);
      }
    }

    /** The rest of a reconcile, once the resource is known to be unfinished. */
    method Check(cnh: CheckNodeHealth) returns (result: Result)
      requires Valid() && PcOf(server.s, w) == ListingPods(cnh.View()) && cnh.finishedAt.None?
      modifies server, breaker, cnh
      ensures Ended(result) && SettledOnce()
    {
      hide FailedCalls, Run, Init, breaker.Valid, Settled, SettledAtMostOne;
      NothingSettled();
      var pod := EnsureHealthCheckPod(cnh);
      if pod.None? {
        return Error;
      }
      var ok := MarkStarted(cnh, pod.value);
      if !ok {
        return Error;
      }
      ok := UpdatePodstartCheckerResult(cnh, pod.value);
      if !ok {
        return Error;
      }
      ghost var from := server.s.now;
      result := DetermineCheckResult(cnh, pod.value);
      if result.NoRequeue? && server.s.enableNodeCondition {
        SettledWider(breaker.config, old(Books()), Books(), cnh.node, cnh.conditions[0], from, server.s.now, old(server.s.now), server.s.now);
      }
    }

    method HandleDeletion(cnh: CheckNodeHealth) returns (result: Result)
      requires Valid() && PcOf(server.s, w) == ListingForCleanup(cnh.View(), ThenRemoveFinalizer)
      modifies server, cnh
      ensures Ended(result) && At(PcOf(server.s, w))
    {
      hide FailedCalls, Run, Init, Step, breaker.Valid;
      var ok := CleanupPod(cnh, ThenRemoveFinalizer);
      if !ok {
        return Error;
      }
      var now := server.Now(w);
      cnh.finalizer := false;
      var stored;
      ok, stored := server.Update(w, now, cnh.View());
      return if ok then NoRequeue else Error;
    }

    method HandleCompletion(cnh: CheckNodeHealth) returns (result: Result)
      requires Valid() && PcOf(server.s, w) == ListingForCleanup(cnh.View(), ThenNothing)
      modifies server
      ensures Ended(result) && At(PcOf(server.s, w))
    {
      hide FailedCalls;
      var ok := CleanupPod(cnh, ThenNothing);
      return if ok then NoRequeue else Error;
    }

    method CleanupPod(cnh: CheckNodeHealth, ghost next: Next) returns (ok: bool)
      requires Valid() && PcOf(server.s, w) == ListingForCleanup(cnh.View(), next)
      modifies server
      ensures At(if ok then AfterCleanup(cnh.View(), [], next) else GivenUp(ListingForCleanup(cnh.View(), next))) && Excused(ok)
    {
      hide FailedCalls, Run, Init;
      var items;
      ok, items := server.ListForCleanup(w, cnh.name);
      if !ok {
        return false;
      }
      for i := 0 to |items|
        invariant At(AfterCleanup(cnh.View(), items[i..], next))
      {
        ok := server.DeletePod(w, items[i]);
        if !ok {
          return false;
        }
        assert items[i..][1..] == items[i + 1..];
      }
      return true;
    }

    method EnsureHealthCheckPod(cnh: CheckNodeHealth) returns (pod: Option<Pod>)
      requires Valid() && PcOf(server.s, w) == ListingPods(cnh.View())
      modifies server
      ensures At(if pod.Some? then Starting(cnh.View(), pod.value) else Idle(Errored)) && Excused(pod.Some?)
    {
      hide FailedCalls, Run, Init, PodName;
      var ok, items := server.ListPods(w, cnh.name);
      if !ok {
        return None;
      }
      if |items| > 0 {
        return Some(items[0]);
      }
      var podName := PodName(cnh.name);
      ok := server.CreatePod(w, podName, cnh.name, cnh.uid);
      if !ok {
        return None;
      }
      pod := server.GetPod(w, podName);
    }

    method MarkStarted(cnh: CheckNodeHealth, pod: Pod) returns (ok: bool)
      requires Valid() && PcOf(server.s, w) == Starting(cnh.View(), pod)
      modifies server, cnh`rv, cnh`startedAt, cnh`conditions
      ensures At(if ok then ReportingStartup(cnh.View(), pod) else Idle(Errored)) && Excused(ok)
    {
      hide FailedCalls, Run, Init;
      var now := server.Now(w);
      if cnh.startedAt.Some? {
        server.Pass(w, now);
        return true;
      }
      cnh.SetStarted(now);
      var stored;
      ok, stored := server.Update(w, now, cnh.View());
      if ok {
        cnh.Receive(stored);
      }
    }

    method UpdatePodstartCheckerResult(cnh: CheckNodeHealth, pod: Pod) returns (ok: bool)
      requires Valid() && PcOf(server.s, w) == ReportingStartup(cnh.View(), pod)
      modifies server, cnh`rv, cnh`results
      ensures At(if ok then Deciding(cnh.View(), pod) else Idle(Errored)) && Excused(ok)
    {
      hide FailedCalls, Run, Init, WithResult, Step, breaker.Valid;
      var now := server.Now(w);
      var allStarted := AreAllContainersStarted(pod.containers);
      if allStarted {
        ok := MarkPodStartupResult(cnh, pod, now, Healthy, "All containers started successfully");
        return;
      }
      if pod.phase == CheckProtocol.Pending && now - pod.created > POD_TIMEOUT {
        ok := MarkPodStartupResult(cnh, pod, now, Unhealthy, "Pod stuck in Pending state - timeout exceeded");
        return;
      }
      server.Pass(w, now);
      return true;
    }

    method MarkPodStartupResult(cnh: CheckNodeHealth, pod: Pod, now: Time, status: CheckStatus, message: string) returns (ok: bool)
      requires Valid() && PcOf(server.s, w) == ReportingStartup(cnh.View(), pod) && ClockReading(server.s, w, now)
      requires StartupResult(pod, now) == Some(CheckResult(POD_STARTUP, status, message, ""))
      modifies server, cnh`rv, cnh`results
      ensures At(if ok then Deciding(cnh.View(), pod) else Idle(Errored)) && Excused(ok)
    {
      hide FailedCalls, Run, Init, WithResult, StartupResult;
      cnh.UpdateCheckResult(CheckResult(POD_STARTUP, status, message, ""));
      var stored;
      ok, stored := server.Update(w, now, cnh.View());
      if ok {
        cnh.Receive(stored);
      }
    }

    method DetermineCheckResult(cnh: CheckNodeHealth, pod: Pod) returns (result: Result)
      requires Valid() && PcOf(server.s, w) == Deciding(cnh.View(), pod) && cnh.finishedAt.None?
      modifies server, breaker, cnh
      ensures Ended(result)
      ensures result.RequeueAfter? ==> !PodCompleted(pod)
      ensures if result.NoRequeue? && old(server.s.enableNodeCondition) then
                |cnh.conditions| == 1
                && Settled(breaker.config, old(Books()), Books(), cnh.node, cnh.conditions[0], old(server.s.now), server.s.now)
              else Books() == old(Books())
    {
      hide FailedCalls, Run, Init, Verdict, Message, Settled, breaker.Valid;
      var podCompleted := pod.phase == Succeeded || pod.phase == Failed;
      var now := server.Now(w);
      if podCompleted || now - pod.created > POD_TIMEOUT {
        ghost var from := server.s.now;
        result := CompleteCheck(cnh, pod, now);
        if result.NoRequeue? && server.s.enableNodeCondition {
          SettledWider(breaker.config, old(Books()), Books(), cnh.node, cnh.conditions[0], from, server.s.now, old(server.s.now), server.s.now);
        }
      } else {
        server.Pass(w, now);
        result := RequeueAfter(REQUEUE_INTERVAL);
      }
    }

    method CompleteCheck(cnh: CheckNodeHealth, pod: Pod, now: Time) returns (result: Result)
      requires Valid() && PcOf(server.s, w) == Deciding(cnh.View(), pod)
      requires ClockReading(server.s, w, now) && PodFinished(pod, now)
      modifies server, breaker, cnh
      ensures Ended(result) && !result.RequeueAfter?
      ensures |cnh.conditions| == 1
      ensures if result.NoRequeue? && old(server.s.enableNodeCondition) then
                Settled(breaker.config, old(Books()), Books(), cnh.node, cnh.conditions[0], old(server.s.now), server.s.now)
              else Books() == old(Books())
    {
      hide FailedCalls, Run, Init, Verdict, Message, Settled, breaker.Valid;
      var healthyStatus, ok := MarkCompleted(cnh, pod, now);
      if !ok {
        return Error;
      }
      ghost var from := server.s.now;
      if server.s.enableNodeCondition {
        TellBreakerAndNode(cnh, healthyStatus);
      }
      ghost var to, books := server.s.now, Books();
      ok := CleanupPod(cnh, AfterVerdict);
      if server.s.enableNodeCondition {
        SettledWider(breaker.config, old(Books()), books, cnh.node, cnh.conditions[0], from, to, old(server.s.now), server.s.now);
      }
      return NoRequeue;
    }

    method MarkCompleted(cnh: CheckNodeHealth, pod: Pod, earlier: Time) returns (healthyStatus: ConditionStatus, ok: bool)
      requires Valid() && PcOf(server.s, w) == Deciding(cnh.View(), pod)
      requires ClockReading(server.s, w, earlier) && PodFinished(pod, earlier)
      modifies server, cnh`rv, cnh`finishedAt, cnh`conditions
      ensures At(if !ok then Idle(Errored)
                 else if server.s.enableNodeCondition then UpdatingNode(cnh.View())
                 else ListingForCleanup(cnh.View(), AfterVerdict))
      ensures Excused(ok)
      ensures |cnh.conditions| == 1 && cnh.conditions[0].status == healthyStatus && cnh.conditions[0].kind == HEALTHY
    {
      hide FailedCalls, Run, Init, Verdict, Message, Judged, Step, breaker.Valid;
      var now := server.Now(w);
      healthyStatus := cnh.SetCompleted(now);
      var stored;
      ok, stored := server.Update(w, now, cnh.View());
      if ok {
        cnh.Receive(stored);
      }
    }

    method TellBreakerAndNode(cnh: CheckNodeHealth, healthyStatus: ConditionStatus)
      requires Valid() && PcOf(server.s, w) == UpdatingNode(cnh.View())
      requires |cnh.conditions| == 1 && cnh.conditions[0].status == healthyStatus && cnh.conditions[0].kind == HEALTHY
      modifies server, breaker
      ensures Valid() && server.Came(w, ListingForCleanup(cnh.View(), AfterVerdict))
      ensures Settled(breaker.config, old(Books()), Books(), cnh.node, cnh.conditions[0], old(server.s.now), server.s.now)
    {
      hide FailedCalls, Run, Init, NodeConditions.Reported, Grants, Step, AfterUpdate, Settled, breaker.Valid, Ordered, Streak, Recent, OpenedAt, Message;
      var asked := server.s.now;
      var _ := UpdateNodeCondition(cnh, asked);
      server.NodeUpdated(w);
      var recorded := RecordVerdict(cnh, healthyStatus);
      ghost var x := Completion(asked, recorded, healthyStatus == ConditionFalse);
      assert breaker.history == old(breaker.history) + EventsOf(x);
      assert SettledBy(x, breaker.config, old(Books()), Books(), cnh.node, cnh.conditions[0]);
      IsSettled(x, breaker.config, old(Books()), Books(), cnh.node, cnh.conditions[0], old(server.s.now), server.s.now);
    }

    method RecordVerdict(cnh: CheckNodeHealth, healthyStatus: ConditionStatus) returns (recorded: Time)
      requires Valid() && PcOf(server.s, w) == Recording(cnh.View())
      requires |cnh.conditions| == 1 && cnh.conditions[0].status == healthyStatus
      modifies server`s, server`trace, server`failures, breaker
      ensures Valid() && server.Came(w, ListingForCleanup(cnh.View(), AfterVerdict))
      ensures old(server.s.now) <= recorded <= server.s.now
      ensures breaker.history == old(breaker.history) + [if healthyStatus == ConditionFalse then Failing(recorded) else Passing(recorded)]
    {
      hide FailedCalls, Run, Init, Ordered, Streak, Recent, OpenedAt, Step;
      recorded := server.Now(w);
      server.Recorded(w, healthyStatus == ConditionFalse);
      if healthyStatus == ConditionFalse {
        breaker.RecordUnhealthyNode(recorded);
      } else {
        breaker.RecordHealthyNode(recorded);
      }
    }

    method UpdateNodeCondition(cnh: CheckNodeHealth, now: Time) returns (ok: bool)
      requires Valid() && now == server.s.now
      requires |cnh.conditions| == 1 && cnh.conditions[0].kind == HEALTHY
      modifies server`nodes, server`falses, server`nodeErrors, breaker
      ensures old(server.nodeErrors) <= server.nodeErrors && (!ok ==> server.nodeErrors > old(server.nodeErrors))
      ensures Valid() && breaker.history == old(breaker.history) + [Asked(now)]
      ensures if Grants(breaker.config, old(breaker.history), now) then
                || (!ok && server.nodes == old(server.nodes) && server.falses == old(server.falses))
                || (&& cnh.node in old(server.nodes)
                    && server.nodes == old(server.nodes)[cnh.node := NodeConditions.Reported(old(server.nodes)[cnh.node], cnh.conditions[0], now)]
                    && server.falses == old(server.falses) + (if cnh.conditions[0].status == ConditionFalse then 1 else 0))
              else ok && server.nodes == old(server.nodes) && server.falses == old(server.falses)
    {
      hide FailedCalls, Run, Init, NodeConditions.Reported, NodeConditions.SaysUnhealthy, Grants, Ordered, Streak, Recent, OpenedAt;
      var allowed := breaker.Allow(now);
      if !allowed {
        return true;
      }
      var node := server.GetNode(cnh.node);
      if node.None? {
        return false;
      }
      node.value.SetNodeHealthy(cnh.conditions[0], now);
      NodeConditions.ReportedSays(server.nodes[cnh.node], cnh.conditions[0], now);
      ok := server.PatchNodeStatus(cnh.node, node.value);
    }
  }
}
