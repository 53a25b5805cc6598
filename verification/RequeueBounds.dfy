/** How long the two controllers keep retrying on their own. In a chain of reconciles that only their
    own requeues drive, two of them are at least 30 seconds apart. */
module RequeueBounds {
  import opened Api
  import R = NodeReboot
  import P = CheckProtocol

  const INTERVAL: Time := 30 * SECOND

  ghost predicate Spaced(times: seq<Time>) {
    forall i :: 0 <= i < |times| - 1 ==> times[i] + INTERVAL <= times[i + 1]
  }

  lemma {:induction false} LastIsLate(times: seq<Time>, start: Time)
    requires Spaced(times) && times != [] && start <= times[0]
    ensures start + (|times| - 1) * INTERVAL <= times[|times| - 1]
  {
    if |times| > 1 {
      LastIsLate(times[..|times| - 1], start);
    }
  }

  /** n instants, one every 30 seconds. */
  function Every(start: Time, n: nat): seq<Time> {
    seq(n, i => start + i * INTERVAL)
  }

  lemma EverySpaced(start: Time, n: nat)
    ensures Spaced(Every(start, n))
  {}

  // ----- The checker pod -----

  /** A reconcile that gets to the decision waits exactly as long as the pod is not finished. */
  lemma WaitsIff(s: P.State, cnh: P.Cnh, pod: P.Pod, t: Time, reply: P.Reply)
    requires cnh.status.finishedAt.None?
    ensures P.UpdatePc(s, P.Deciding(cnh, pod), t, reply) == P.Idle(P.Requeued) <==> !P.PodFinished(pod, t)
  {
    var sent := P.Request(P.Deciding(cnh, pod), t);
    if P.PodFinished(pod, t) {
      assert P.Stored(s, sent.value).status.finishedAt == Some(t);
    }
  }

  /** Reconciles that all waited for one pod, seen at different moments of its life. */
  ghost predicate PodWaits(times: seq<Time>, pods: seq<P.Pod>, created: Time) {
    && |pods| == |times| && Spaced(times)
    && forall i :: 0 <= i < |times| ==> created <= times[i] && pods[i].created == created && !P.PodFinished(pods[i], times[i])
  }

  lemma PodWaitsAtMostFive(times: seq<Time>, pods: seq<P.Pod>, created: Time)
    requires PodWaits(times, pods, created)
    ensures |times| <= 5
  {
    if times != [] {
      LastIsLate(times, created);
      assert !P.PodFinished(pods[|times| - 1], times[|times| - 1]);
    }
  }

  lemma PodCanWaitFiveTimes(pod: P.Pod)
    requires !P.PodCompleted(pod)
    ensures PodWaits(Every(pod.created, 5), seq(5, i => pod), pod.created)
  {
    EverySpaced(pod.created, 5);
  }

  // ----- Nodes -----

  /** A reconcile at t finds the node not ready and asks to be run again. */
  predicate NodeWaits(node: R.NodeObject, dns: R.Dns, t: Time) {
    R.Decision(node, t) == R.CheckingDns(node) && R.Readiness(node, dns, t) == R.Idle(R.Requeue)
  }

  /** The moment from which the wait for a node is counted; none for a node that is Ready. */
  function WaitReference(node: R.NodeObject): Option<Time> {
    if R.IsKarpenterManaged(node) && !R.IsKarpenterInitialized(node) then Some(node.created)
    else match R.ReadyCondition(node.conditions)
      case None => Some(node.created)
      case Some(c) => if c.status == ConditionTrue then None else Some(c.lastTransitionTime)
  }

  ghost predicate Waits(times: seq<Time>, nodes: seq<R.NodeObject>, dns: seq<R.Dns>) {
    && |nodes| == |dns| == |times| && Spaced(times)
    && forall i :: 0 <= i < |times| ==> NodeWaits(nodes[i], dns[i], times[i])
  }

  /** A rebooted node whose reference stays the same is retried at most 21 times. */
  lemma RebootedWaitsAtMost21(times: seq<Time>, nodes: seq<R.NodeObject>, dns: seq<R.Dns>, since: Time)
    requires Waits(times, nodes, dns)
    requires forall i :: 0 <= i < |times| ==> nodes[i].lastBootId != "" && since <= times[i] && WaitReference(nodes[i]) == Some(since)
    ensures |times| <= 21
  {
    if times != [] {
      LastIsLate(times, since);
      var last := |times| - 1;
      assert NodeWaits(nodes[last], dns[last], times[last]);
      WaitsWithin(nodes[last], dns[last], times[last]);
    }
  }

  lemma WaitsWithin(node: R.NodeObject, dns: R.Dns, t: Time)
    requires NodeWaits(node, dns, t)
    ensures WaitReference(node).Some? ==> t - WaitReference(node).value <= R.NODE_READY_MAX_WAIT
    ensures node.lastBootId == "" ==> t - node.created < R.NEW_NODE_THRESHOLD
  {
    hide R.IsNodeReadyForHealthCheck;
  }

  /** The bound is attained by every node that is found not ready and has a reference. */
  lemma RebootedCanWait21Times(node: R.NodeObject, dns: R.Dns)
    requires node.bootId != "" && node.lastBootId != "" && node.lastBootId != node.bootId
    requires WaitReference(node).Some? && R.IsNodeReadyForHealthCheck(node, dns) == R.No
    ensures Waits(Every(WaitReference(node).value, 21), seq(21, i => node), seq(21, i => dns))
  {
    var since := WaitReference(node).value;
    EverySpaced(since, 21);
    forall i | 0 <= i < 21 ensures NodeWaits(node, dns, since + i * INTERVAL) {
      assert i * INTERVAL <= R.NODE_READY_MAX_WAIT;
    }
  }

  /** The condition is needed: a Ready node that waits for CoreDNS alone is retried without bound. */
  lemma ReadyNodeWaitsForever(node: R.NodeObject, start: Time, n: nat)
    requires node.bootId != "" && node.lastBootId != "" && node.lastBootId != node.bootId
    requires WaitReference(node).None?
    ensures Waits(Every(start, n), seq(n, i => node), seq(n, i => R.DnsMissing))
  {
    EverySpaced(start, n);
    forall i | 0 <= i < n ensures NodeWaits(node, R.DnsMissing, start + i * INTERVAL) {
      assert R.IsNodeReadyForHealthCheck(node, R.DnsMissing) == R.No;
    }
  }

  /** A node seen for the first time is retried at most 10 times, whatever CoreDNS does. */
  lemma FirstSeenWaitsAtMost10(times: seq<Time>, nodes: seq<R.NodeObject>, dns: seq<R.Dns>, created: Time)
    requires Waits(times, nodes, dns)
    requires forall i :: 0 <= i < |times| ==> nodes[i].lastBootId == "" && nodes[i].created == created <= times[i]
    ensures |times| <= 10
  {
    if times != [] {
      LastIsLate(times, created);
      var last := |times| - 1;
      WaitsWithin(nodes[last], dns[last], times[last]);
    }
  }

  lemma FirstSeenCanWait10Times(node: R.NodeObject)
    requires node.bootId != "" && node.lastBootId == ""
    requires WaitReference(node).Some? ==> WaitReference(node).value >= node.created
    ensures Waits(Every(node.created, 10), seq(10, i => node), seq(10, i => R.DnsMissing))
  {
    EverySpaced(node.created, 10);
    forall i | 0 <= i < 10 ensures NodeWaits(node, R.DnsMissing, node.created + i * INTERVAL) {
      FirstSeenNeverGivesUp(node, R.DnsMissing, node.created + i * INTERVAL);
    }
  }

  /** The branch that gives up on a node seen for the first time is dead code as long as the Ready
      condition has not changed before the node was created. */
  lemma FirstSeenNeverGivesUp(node: R.NodeObject, dns: R.Dns, t: Time)
    requires node.lastBootId == "" && R.Decision(node, t) == R.CheckingDns(node)
    requires WaitReference(node).Some? ==> WaitReference(node).value >= node.created
    ensures R.Readiness(node, dns, t) != R.Idle(R.NoRequeue)
  {
    hide R.IsNodeReadyForHealthCheck;
  }
}
