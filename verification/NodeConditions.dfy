/** The NodeHealthy condition on a Node, written by the CheckNodeHealth controller and collected by
    the node controller. Each read-modify-patch of a node is one step. */
module NodeConditions {
  import opened Api

  const NODE_HEALTHY := "kubernetes.azure.com/NodeHealthy"
  const NODE_CONDITION_TTL: Time := 30 * MINUTE

  datatype NodeCondition = NodeCondition(
    kind: string,
    status: ConditionStatus,
    lastTransitionTime: Time,
    lastHeartbeatTime: Time,
    reason: string,
    message: string)

  // ----- What the two controllers do to a condition list -----

  function Refreshed(entry: NodeCondition, verdict: Condition, now: Time): NodeCondition {
    NodeCondition(entry.kind, verdict.status,
                  if entry.status == verdict.status then entry.lastTransitionTime else now,
                  now, verdict.reason, verdict.message)
  }

  function Added(verdict: Condition, now: Time): NodeCondition {
    NodeCondition(NODE_HEALTHY, verdict.status, now, now, verdict.reason, verdict.message)
  }

  function Reported(conditions: seq<NodeCondition>, verdict: Condition, now: Time): seq<NodeCondition> {
    if conditions == [] then [Added(verdict, now)]
    else if conditions[0].kind == NODE_HEALTHY then [Refreshed(conditions[0], verdict, now)] + conditions[1..]
    else [conditions[0]] + Reported(conditions[1..], verdict, now)
  }

  predicate Stale(c: NodeCondition, now: Time) {
    now - c.lastTransitionTime > NODE_CONDITION_TTL
  }

  function Collected(conditions: seq<NodeCondition>, now: Time): seq<NodeCondition> {
    if conditions == [] then []
    else if conditions[0].kind == NODE_HEALTHY then
      if Stale(conditions[0], now) then conditions[1..] else conditions
    else [conditions[0]] + Collected(conditions[1..], now)
  }

  /** The client's copy of a Node, whose condition list both controllers edit in place. */
  class Node {
    var conditions: seq<NodeCondition>

    constructor (conditions: seq<NodeCondition>)
      ensures this.conditions == conditions
    {
      this.conditions := conditions;
    }

    method SetNodeHealthy(verdict: Condition, now: Time)
      modifies this
      ensures conditions == Reported(old(conditions), verdict, now)
      ensures Shows(old(conditions), conditions, verdict, now)
    {
      hide Shows;
      ReportedShows(conditions, verdict, now);
      var found := false;
      var i := 0;
      while i < |conditions| && !found
        invariant 0 <= i <= |conditions|
        invariant !found ==> conditions == old(conditions)
        invariant !found ==> Reported(conditions, verdict, now) == conditions[..i] + Reported(conditions[i..], verdict, now)
        invariant found ==> conditions == Reported(old(conditions), verdict, now)
        decreases |conditions| - i, !found
      {
        var c := conditions[i];
        ReportedStep(conditions, i, verdict, now);
        if c.kind == NODE_HEALTHY {
          var transition := c.lastTransitionTime;
          if c.status != verdict.status {
            transition := now;
          }
          conditions := conditions[i := NodeCondition(c.kind, verdict.status, transition, now, verdict.reason, verdict.message)];
          found := true;
        } else {
          i := i + 1;
        }
      }
      if !found {
        conditions := conditions + [Added(verdict, now)];
      }
    }

    /** Reports whether a patch is needed. */
    method RemoveStaleNodeCondition(now: Time) returns (removed: bool)
      modifies this
      ensures conditions == Collected(old(conditions), now)
      ensures removed <==> conditions != old(conditions)
      ensures Dropped(old(conditions), conditions, now)
    {
      hide Dropped;
      CollectedDrops(conditions, now);
      for i := 0 to |conditions|
        invariant conditions == old(conditions)
        invariant Collected(conditions, now) == conditions[..i] + Collected(conditions[i..], now)
      {
        var c := conditions[i];
        CollectedStep(conditions, i, now);
        if c.kind == NODE_HEALTHY {
          if now - c.lastTransitionTime <= NODE_CONDITION_TTL {
            return false;
          }
          conditions := conditions[..i] + conditions[i + 1..];
          assert |conditions| == |old(conditions)| - 1;
          return true;
        }
      }
      return false;
    }
  }

  // ----- What that means for the list -----

  /** Entry j is the first NodeHealthy condition, or none is there and j is the end. */
  predicate FirstAt(conditions: seq<NodeCondition>, j: int) {
    && 0 <= j <= |conditions|
    && (j < |conditions| ==> conditions[j].kind == "kubernetes.azure.com/NodeHealthy")
    && forall i :: 0 <= i < j ==> conditions[i].kind != "kubernetes.azure.com/NodeHealthy"
  }

  /** The first NodeHealthy condition, or a new one at the end, says what the verdict says, as of now; its
      transition time is kept if the status was the same. All else is as it was. */
  predicate ShowsAt(was: seq<NodeCondition>, conditions: seq<NodeCondition>, verdict: Condition, now: Time, j: int) {
    && FirstAt(was, j) && |conditions| == (if j == |was| then |was| + 1 else |was|)
    && (forall i :: 0 <= i < |was| && i != j ==> conditions[i] == was[i])
    && var c := conditions[j];
       && c.kind == "kubernetes.azure.com/NodeHealthy"
       && c.status == verdict.status && c.reason == verdict.reason && c.message == verdict.message
       && c.lastHeartbeatTime == now
       && c.lastTransitionTime == (if j < |was| && was[j].status == verdict.status then was[j].lastTransitionTime else now)
  }

  ghost predicate Shows(was: seq<NodeCondition>, conditions: seq<NodeCondition>, verdict: Condition, now: Time) {
    exists j :: ShowsAt(was, conditions, verdict, now, j)
  }

  lemma {:induction false} ReportedShows(was: seq<NodeCondition>, verdict: Condition, now: Time)
    ensures Shows(was, Reported(was, verdict, now), verdict, now)
  {
    if was == [] || was[0].kind == NODE_HEALTHY {
      assert ShowsAt(was, Reported(was, verdict, now), verdict, now, 0);
    } else {
      ReportedShows(was[1..], verdict, now);
      var j :| ShowsAt(was[1..], Reported(was[1..], verdict, now), verdict, now, j);
      assert ShowsAt(was, Reported(was, verdict, now), verdict, now, j + 1);
    }
  }

  /** The first NodeHealthy condition has not changed its status for more than thirty minutes. */
  predicate OutdatedAt(conditions: seq<NodeCondition>, now: Time, j: int) {
    FirstAt(conditions, j) && j < |conditions| && now - conditions[j].lastTransitionTime > 1_800_000_000_000
  }

  /** What is left has lost exactly an outdated condition. */
  ghost predicate Dropped(was: seq<NodeCondition>, conditions: seq<NodeCondition>, now: Time) {
    && (conditions != was <==> exists j :: OutdatedAt(was, now, j))
    && forall j :: OutdatedAt(was, now, j) ==> conditions == was[..j] + was[j + 1..]
  }

  lemma {:induction false} CollectedDrops(conditions: seq<NodeCondition>, now: Time)
    ensures Dropped(conditions, Collected(conditions, now), now)
  {
    hide Dropped;
    if conditions == [] {
      NothingDropped(now);
    } else if conditions[0].kind == NODE_HEALTHY {
      FirstDropped(conditions, now);
    } else {
      CollectedDrops(conditions[1..], now);
      DroppedNext(conditions, Collected(conditions[1..], now), now);
    }
  }

  lemma NothingDropped(now: Time)
    ensures Dropped([], [], now)
  {}

  lemma FirstDropped(conditions: seq<NodeCondition>, now: Time)
    requires conditions != [] && conditions[0].kind == NODE_HEALTHY
    ensures Dropped(conditions, if Stale(conditions[0], now) then conditions[1..] else conditions, now)
  {
    assert forall j :: FirstAt(conditions, j) <==> j == 0;
    assert |conditions[1..]| < |conditions| && (OutdatedAt(conditions, now, 0) <==> Stale(conditions[0], now));
  }

  lemma DroppedNext(conditions: seq<NodeCondition>, left: seq<NodeCondition>, now: Time)
    requires conditions != [] && conditions[0].kind != NODE_HEALTHY && Dropped(conditions[1..], left, now)
    ensures Dropped(conditions, [conditions[0]] + left, now)
  {
    hide FirstAt;
    var rest := conditions[1..];
    forall j ensures OutdatedAt(conditions, now, j) <==> j > 0 && OutdatedAt(rest, now, j - 1) {
      FirstNext(conditions, j);
    }
    if j :| OutdatedAt(rest, now, j) {
      Within(rest, now, j);
      assert OutdatedAt(conditions, now, j + 1);
    }
    forall j | OutdatedAt(conditions, now, j) ensures [conditions[0]] + left == conditions[..j] + conditions[j + 1..] {
      DroppedAfter(conditions, left, now, j - 1);
    }
    assert ([conditions[0]] + left)[1..] == left && [conditions[0]] + rest == conditions;
  }

  lemma DroppedAfter(conditions: seq<NodeCondition>, left: seq<NodeCondition>, now: Time, j: int)
    requires conditions != [] && Dropped(conditions[1..], left, now) && OutdatedAt(conditions[1..], now, j)
    ensures [conditions[0]] + left == conditions[..j + 1] + conditions[j + 2..]
  {
    var rest := conditions[1..];
    Within(rest, now, j);
    Tail(conditions, j + 1);
    assert left == rest[..j] + rest[j + 1..];
  }

  lemma Tail(conditions: seq<NodeCondition>, j: int)
    requires 0 < j < |conditions|
    ensures conditions[..j] == [conditions[0]] + conditions[1..][..j - 1]
    ensures conditions[j + 1..] == conditions[1..][j..]
  {}

  lemma Within(conditions: seq<NodeCondition>, now: Time, j: int)
    requires OutdatedAt(conditions, now, j)
    ensures 0 <= j < |conditions|
  {}

  lemma FirstNext(conditions: seq<NodeCondition>, j: int)
    requires conditions != [] && conditions[0].kind != NODE_HEALTHY
    ensures FirstAt(conditions, j) <==> j > 0 && FirstAt(conditions[1..], j - 1)
  {
    if j > 0 && FirstAt(conditions[1..], j - 1) {
      assert forall i :: 1 <= i < j ==> conditions[i] == conditions[1..][i - 1];
    }
    if FirstAt(conditions, j) {
      assert forall i :: 0 <= i < j - 1 ==> conditions[1..][i] == conditions[i + 1];
    }
  }

  lemma Splice(cs: seq<NodeCondition>, i: nat, c: NodeCondition, r: seq<NodeCondition>)
    requires i < |cs|
    ensures cs[i := c] == cs[..i] + ([c] + cs[i + 1..])
    ensures cs[..i] + ([cs[i]] + r) == cs[..i + 1] + r
    ensures cs[i..][0] == cs[i] && cs[i..][1..] == cs[i + 1..]
    ensures cs == cs[..i] + cs[i..]
  {}

  lemma ReportedStep(cs: seq<NodeCondition>, i: nat, verdict: Condition, now: Time)
    requires i < |cs|
    requires Reported(cs, verdict, now) == cs[..i] + Reported(cs[i..], verdict, now)
    ensures Reported(cs, verdict, now) ==
            if cs[i].kind == NODE_HEALTHY then cs[i := Refreshed(cs[i], verdict, now)]
            else cs[..i + 1] + Reported(cs[i + 1..], verdict, now)
  {
    Splice(cs, i, Refreshed(cs[i], verdict, now), Reported(cs[i + 1..], verdict, now));
  }

  lemma CollectedStep(cs: seq<NodeCondition>, i: nat, now: Time)
    requires i < |cs|
    requires Collected(cs, now) == cs[..i] + Collected(cs[i..], now)
    ensures Collected(cs, now) ==
            if cs[i].kind != NODE_HEALTHY then cs[..i + 1] + Collected(cs[i + 1..], now)
            else if Stale(cs[i], now) then cs[..i] + cs[i + 1..]
            else cs
  {
    Splice(cs, i, cs[i], Collected(cs[i + 1..], now));
  }

  // ----- The discipline -----

  function Others(conditions: seq<NodeCondition>): seq<NodeCondition> {
    if conditions == [] then []
    else (if conditions[0].kind == NODE_HEALTHY then [] else [conditions[0]]) + Others(conditions[1..])
  }

  function Healthies(conditions: seq<NodeCondition>): seq<NodeCondition> {
    if conditions == [] then []
    else (if conditions[0].kind == NODE_HEALTHY then [conditions[0]] else []) + Healthies(conditions[1..])
  }

  /** The NodeHealthy condition is there and False. */
  predicate SaysUnhealthy(conditions: seq<NodeCondition>) {
    Healthies(conditions) != [] && Healthies(conditions)[0].status == ConditionFalse
  }

  /** What a reader of the condition sees is the verdict that was reported last. */
  lemma ReportedSays(conditions: seq<NodeCondition>, verdict: Condition, now: Time)
    ensures SaysUnhealthy(Reported(conditions, verdict, now)) <==> verdict.status == ConditionFalse
  {
    ReportedMeaning(conditions, verdict, now);
  }

  lemma Split(c: NodeCondition, rest: seq<NodeCondition>)
    ensures Others([c] + rest) == if c.kind == NODE_HEALTHY then Others(rest) else [c] + Others(rest)
    ensures Healthies([c] + rest) == if c.kind == NODE_HEALTHY then [c] + Healthies(rest) else Healthies(rest)
  {
    assert ([c] + rest)[1..] == rest;
  }

  /** A report touches only the first NodeHealthy entry, or adds one. */
  lemma {:induction false} ReportedMeaning(conditions: seq<NodeCondition>, verdict: Condition, now: Time)
    ensures Others(Reported(conditions, verdict, now)) == Others(conditions)
    ensures Healthies(Reported(conditions, verdict, now)) ==
            if Healthies(conditions) == [] then [Added(verdict, now)]
            else [Refreshed(Healthies(conditions)[0], verdict, now)] + Healthies(conditions)[1..]
  {
    hide Others, Healthies;
    NoneSplit();
    if conditions == [] {
      Split(Added(verdict, now), []);
      assert [Added(verdict, now)] + [] == [Added(verdict, now)];
    } else {
      var c, rest := conditions[0], conditions[1..];
      assert conditions == [c] + rest;
      Split(c, rest);
      if c.kind == NODE_HEALTHY {
        Split(Refreshed(c, verdict, now), rest);
      } else {
        Split(c, Reported(rest, verdict, now));
        ReportedMeaning(rest, verdict, now);
      }
    }
  }

  lemma NoneSplit()
    ensures Others([]) == [] && Healthies([]) == []
  {}

  lemma {:induction false} CollectedMeaning(conditions: seq<NodeCondition>, now: Time)
    ensures Others(Collected(conditions, now)) == Others(conditions)
    ensures Healthies(Collected(conditions, now)) ==
            var hs := Healthies(conditions);
            if hs != [] && Stale(hs[0], now) then hs[1..] else hs
  {
    if conditions != [] {
      var after := Collected(conditions, now);
      if conditions[0].kind == NODE_HEALTHY {
        assert Healthies(conditions)[1..] == Healthies(conditions[1..]);
      } else {
        assert after[1..] == Collected(conditions[1..], now);
        CollectedMeaning(conditions[1..], now);
      }
    }
  }

  /** The steps of the two controllers on one node. */
  datatype Event = Report(verdict: Condition, at: Time) | Collect(at: Time)

  function Apply(conditions: seq<NodeCondition>, e: Event): seq<NodeCondition> {
    match e
    case Report(verdict, at) => Reported(conditions, verdict, at)
    case Collect(at) => Collected(conditions, at)
  }

  function ApplyAll(conditions: seq<NodeCondition>, events: seq<Event>): seq<NodeCondition> {
    if events == [] then conditions
    else Apply(ApplyAll(conditions, events[..|events| - 1]), events[|events| - 1])
  }

  /** The condition a reader should see: one optional record, kept without any list. */
  function Seen(before: Option<NodeCondition>, e: Event): Option<NodeCondition> {
    match (before, e)
    case (None, Report(verdict, at)) => Some(Added(verdict, at))
    case (Some(c), Report(verdict, at)) => Some(Refreshed(c, verdict, at))
    case (None, Collect(_)) => None
    case (Some(c), Collect(at)) => if Stale(c, at) then None else Some(c)
  }

  function SeenAll(before: Option<NodeCondition>, events: seq<Event>): Option<NodeCondition> {
    if events == [] then before
    else Seen(SeenAll(before, events[..|events| - 1]), events[|events| - 1])
  }

  function AsList(c: Option<NodeCondition>): seq<NodeCondition> {
    if c.None? then [] else [c.value]
  }

  /** In any interleaving of the two controllers the condition list is the single optional record
      beside the other conditions, which keep their values and order. */
  lemma {:induction false} ListRefinesRecord(conditions: seq<NodeCondition>, before: Option<NodeCondition>, events: seq<Event>)
    requires Healthies(conditions) == AsList(before)
    ensures Healthies(ApplyAll(conditions, events)) == AsList(SeenAll(before, events))
    ensures Others(ApplyAll(conditions, events)) == Others(conditions)
  {
    if events != [] {
      var init, e := events[..|events| - 1], events[|events| - 1];
      ListRefinesRecord(conditions, before, init);
      var middle := ApplyAll(conditions, init);
      match e
      case Report(verdict, at) => ReportedMeaning(middle, verdict, at);
      case Collect(at) => CollectedMeaning(middle, at);
    }
  }

  ghost predicate Chronological(start: Time, events: seq<Event>) {
    && (forall i :: 0 <= i < |events| ==> start <= events[i].at)
    && (forall i, j :: 0 <= i < j < |events| ==> events[i].at <= events[j].at)
  }

  /** c has held its status from index k on; at k it was there from the start or was just set. */
  ghost predicate SinceIndex(before: Option<NodeCondition>, events: seq<Event>, k: nat, c: NodeCondition) {
    && k <= |events|
    && (forall i :: k <= i <= |events| ==> HasStatus(SeenAll(before, events[..i]), c.status))
    && (if k == 0 then before.Some? && c.lastTransitionTime == before.value.lastTransitionTime
        else
          && events[k - 1].Report?
          && c.lastTransitionTime == events[k - 1].at
          && !HasStatus(SeenAll(before, events[..k - 1]), c.status))
  }

  predicate HasStatus(c: Option<NodeCondition>, status: ConditionStatus) {
    c.Some? && c.value.status == status
  }

  /** The transition time never lies after the heartbeat, nor the heartbeat after the last event. */
  lemma {:induction false} HeartbeatAfterTransition(before: Option<NodeCondition>, events: seq<Event>, start: Time)
    requires Chronological(start, events)
    requires before.Some? ==> before.value.lastTransitionTime <= before.value.lastHeartbeatTime <= start
    ensures var c := SeenAll(before, events);
            c.Some? ==>
              c.value.lastTransitionTime <= c.value.lastHeartbeatTime <=
                if events == [] then start else events[|events| - 1].at
  {
    if events != [] {
      HeartbeatAfterTransition(before, events[..|events| - 1], start);
    }
  }

  /** The transition time is the moment of the last report that changed the status or re-added the
      entry: since then every event has left the entry in place with the same status. */
  lemma {:induction false} TransitionTime(before: Option<NodeCondition>, events: seq<Event>)
    requires SeenAll(before, events).Some?
    ensures exists k :: 0 <= k <= |events| && SinceIndex(before, events, k, SeenAll(before, events).value)
  {
    var c := SeenAll(before, events).value;
    assert events[..|events|] == events;
    if events == [] {
      assert SinceIndex(before, events, 0, c);
    } else {
      var n := |events| - 1;
      var init := events[..n];
      var was := SeenAll(before, init);
      if HasStatus(was, c.status) {
        TransitionTime(before, init);
        var k :| 0 <= k <= n && SinceIndex(before, init, k, was.value);
        assert c.lastTransitionTime == was.value.lastTransitionTime;
        SinceExtends(before, events, k, was.value, c);
      } else {
        assert SinceIndex(before, events, n + 1, c);
      }
    }
  }

  lemma SinceExtends(before: Option<NodeCondition>, events: seq<Event>, k: nat, was: NodeCondition, c: NodeCondition)
    requires events != [] && SinceIndex(before, events[..|events| - 1], k, was)
    requires HasStatus(SeenAll(before, events), c.status)
    requires c.status == was.status && c.lastTransitionTime == was.lastTransitionTime
    ensures SinceIndex(before, events, k, c)
  {
    hide SeenAll;
    var n := |events| - 1;
    var init := events[..n];
    forall i | k <= i <= n + 1 ensures HasStatus(SeenAll(before, events[..i]), c.status) {
      assert events[..i] == if i <= n then init[..i] else events;
    }
    if k > 0 {
      assert events[..k - 1] == init[..k - 1];
    }
  }

  /** A node reconcile removes the condition exactly when it is past its time to live. */
  lemma RemovedIffStale(conditions: seq<NodeCondition>, c: NodeCondition, now: Time)
    requires Healthies(conditions) == [c]
    ensures Healthies(Collected(conditions, now)) == [] <==> now - c.lastTransitionTime > NODE_CONDITION_TTL
    ensures Healthies(Collected(conditions, now)) != [] ==> Collected(conditions, now) == conditions
  {
    CollectedMeaning(conditions, now);
    if !Stale(c, now) {
      CollectedUnchanged(conditions, now);
    }
  }

  lemma {:induction false} CollectedUnchanged(conditions: seq<NodeCondition>, now: Time)
    requires Healthies(conditions) == [] || !Stale(Healthies(conditions)[0], now)
    ensures Collected(conditions, now) == conditions
  {
    if conditions != [] && conditions[0].kind != NODE_HEALTHY {
      CollectedUnchanged(conditions[1..], now);
    }
  }
}
