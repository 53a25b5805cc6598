/** The API server as one controller worker sees it: each call is one step of the protocol, and
    between two calls of a worker every other process may take any number of steps. */
module ApiServer {
  import opened Api
  import opened CheckProtocol
  import opened CheckSafety
  import NodeConditions

  // ----- Single steps -----

  /** The worker's own place and clock, as others' steps leave them. */
  predicate Undisturbed(s: State, s': State, w: nat) {
    && PcOf(s', w) == PcOf(s, w)
    && s.now <= s'.now
    && s'.enableNodeCondition == s.enableNodeCondition
    && (WorkerOf(s, w).since <= s.now ==> WorkerOf(s', w).since <= s'.now)
    && (w in s.workers ==> w in s'.workers && s'.workers[w] == s.workers[w])
  }

  lemma EffectKeepsSettings(s: State, w: nat, pc: Pc, a: Action)
    requires Enabled(s, w, pc, a)
    ensures Effect(s, w, pc, a).enableNodeCondition == s.enableNodeCondition
  {
    hide UpdateEffect;
    if a.Update? {
      UpdateKeepsSettings(s, pc, a.t, a.reply);
    }
  }

  lemma UpdateKeepsSettings(s: State, pc: Pc, t: Time, reply: Reply)
    ensures UpdateEffect(s, pc, t, reply).enableNodeCondition == s.enableNodeCondition
  {
    hide Request;
  }

  lemma OthersDoNotDisturb(s: State, a: Action, w: nat)
    requires Actor(a) != Some(w)
    ensures Undisturbed(s, Step(s, a), w)
  {
    match Actor(a)
    case None =>
      EnvironmentDoesNotDisturb(s, a);
    case Some(v) =>
      if Enabled(s, v, PcOf(s, v), a) {
        hide Enabled, Effect, NextPc;
        EffectFrame(s, v, PcOf(s, v), a);
        EffectKeepsSettings(s, v, PcOf(s, v), a);
      }
  }

  lemma EnvironmentDoesNotDisturb(s: State, a: Action)
    ensures var s' := Environment(s, a);
            s'.workers == s.workers && s.now <= s'.now && s'.enableNodeCondition == s.enableNodeCondition
  {
    hide DoRunnerReports, Deleted, PodDeleted, DoKubeletReports;
    match a
    case RunnerReports(uid, results, reply) => ReportDoesNotDisturb(s, uid, results, reply);
    case UserDeletes(name) => DeletesDoNotDisturb(s, name);
    case PodEvicted(name) => DeletesDoNotDisturb(s, name);
    case KubeletReports(name, phase, containers) => KubeletDoesNotDisturb(s, name, phase, containers);
    case _ =>
  }

  lemma ReportDoesNotDisturb(s: State, uid: nat, results: seq<CheckResult>, reply: Reply)
    ensures var s' := DoRunnerReports(s, uid, results, reply);
            s'.workers == s.workers && s'.now == s.now && s'.enableNodeCondition == s.enableNodeCondition
  {
    hide Stored, ReportOf;
  }

  lemma DeletesDoNotDisturb(s: State, name: string)
    ensures var s' := Deleted(s, name);
            s'.workers == s.workers && s'.now == s.now && s'.enableNodeCondition == s.enableNodeCondition
    ensures var s' := PodDeleted(s, name);
            s'.workers == s.workers && s'.now == s.now && s'.enableNodeCondition == s.enableNodeCondition
  {
    hide Stored;
  }

  lemma KubeletDoesNotDisturb(s: State, name: string, phase: Phase, containers: seq<ContainerState>)
    ensures var s' := DoKubeletReports(s, name, phase, containers);
            s'.workers == s.workers && s'.now == s.now && s'.enableNodeCondition == s.enableNodeCondition
  {}

  lemma OwnStep(s: State, w: nat, a: Action)
    requires Actor(a) == Some(w) && Enabled(s, w, PcOf(s, w), a)
    ensures var s' := Step(s, a);
            && PcOf(s', w) == NextPc(s, w, PcOf(s, w), a)
            && s'.now == s.now && s'.enableNodeCondition == s.enableNodeCondition
            && w in s'.workers && s'.workers[w].since == s'.now
  {
    hide Enabled, Effect, NextPc;
    EffectFrame(s, w, PcOf(s, w), a);
    EffectKeepsSettings(s, w, PcOf(s, w), a);
  }

  /** Worker w has read a resource, or failed to, since trace was before. */
  ghost predicate Acted(before: seq<Action>, trace: seq<Action>, w: nat) {
    exists i :: |before| <= i < |trace| && Actor(trace[i]) == Some(w) && (trace[i].Get? || trace[i].Miss?)
  }

  /** A call of worker w that does not do what it asks, or that it makes instead of its next one. */
  predicate Fails(a: Action, w: nat) {
    && Actor(a) == Some(w)
    && match a
       case Miss(_, _) => true
       case Abort(_) => true
       case Update(_, _, reply) => !reply.Done?
       case Delete(_, reply) => !reply.Done?
       case CreatePod(_, reply) => !reply.Done?
       case DeletePod(_, reply) => !reply.Done?
       case _ => false
  }

  function FailedCalls(trace: seq<Action>, w: nat): nat {
    if trace == [] then 0
    else FailedCalls(trace[..|trace| - 1], w) + (if Fails(trace[|trace| - 1], w) then 1 else 0)
  }

  lemma FailedSnoc(trace: seq<Action>, a: Action, w: nat)
    ensures FailedCalls(trace + [a], w) == FailedCalls(trace, w) + (if Fails(a, w) then 1 else 0)
  {
    hide Fails;
    assert (trace + [a])[..|trace|] == trace;
  }

  // ----- The server -----

  class Server {
    var s: State
    var nodes: map<string, seq<NodeConditions.NodeCondition>>
    ghost var start: State
    ghost var trace: seq<Action>
    /** How often a node has been given NodeHealthy=False. */
    ghost var falses: nat
    /** How many answers were not what a worker asked for: an error, a conflict, or nothing found. */
    ghost var failures: nat
    /** The same for calls on nodes. */
    ghost var nodeErrors: nat

    ghost predicate Valid()
      reads this
    {
      Init(start) && s == Run(start, trace)
    }

    /** Worker w has come to pc; the run has only grown, and so has the clock; and no call of w has failed
        but for an answer of the server. */
    twostate predicate Came(w: nat, pc: Pc)
      reads this
    {
      && Valid()
      && PcOf(s, w) == pc
      && WorkerOf(s, w).since <= s.now
      && (!pc.Idle? ==> w in s.workers)
      && start == old(start) && old(trace) <= trace
      && old(s.now) <= s.now && s.enableNodeCondition == old(s.enableNodeCondition)
      && old(failures) <= failures
      && FailedCalls(trace, w) - FailedCalls(old(trace), w) <= failures - old(failures)
    }

    constructor (enableNodeCondition: bool, nodes: map<string, seq<NodeConditions.NodeCondition>>, now: Time)
      ensures Valid() && trace == [] && s.enableNodeCondition == enableNodeCondition && this.nodes == nodes && s.now == now
    {
      s := State(now, 0, enableNodeCondition, map[], {}, map[], {}, map[], map[], map[], []);
      start := State(now, 0, enableNodeCondition, map[], {}, map[], {}, map[], map[], map[], []);
      trace := [];
      this.nodes := nodes;
      falses, failures, nodeErrors := 0, 0, 0;
    }

    method Take(a: Action)
      requires Valid()
      modifies this`s, this`trace
      ensures Valid() && s == Step(old(s), a) && trace == old(trace) + [a]
    {
      hide Step, Run, Init;
      RunSnoc(start, trace, a);
      s := Step(s, a);
      trace := trace + [a];
    }

    /** Other workers, checker pods, users, the kubelet and the clock. */
    method Interfere(w: nat)
      requires Valid()
      modifies this`s, this`trace
      ensures Valid() && Undisturbed(old(s), s, w) && old(trace) <= trace
      ensures FailedCalls(trace, w) == FailedCalls(old(trace), w)
    {
      hide Step, Run, Init, FailedCalls;
      var others: seq<Action> := *;
      for i := 0 to |others|
        invariant Valid() && Undisturbed(old(s), s, w) && old(trace) <= trace
        invariant FailedCalls(trace, w) == FailedCalls(old(trace), w)
      {
        if Actor(others[i]) != Some(w) {
          OthersDoNotDisturb(s, others[i], w);
          FailedSnoc(trace, others[i], w);
          Take(others[i]);
        }
      }
    }

    method Act(w: nat, a: Action, ghost failed: bool)
      requires Valid() && Actor(a) == Some(w) && Enabled(s, w, PcOf(s, w), a) && (Fails(a, w) ==> failed)
      modifies this`s, this`trace, this`failures
      ensures Came(w, old(NextPc(s, w, PcOf(s, w), a)))
      ensures s == Step(old(s), a) && trace == old(trace) + [a]
      ensures failures == old(failures) + (if failed then 1 else 0)
    {
      hide Step, Run, Init, Enabled, NextPc, FailedCalls, Fails;
      OwnStep(s, w, a);
      FailedSnoc(trace, a, w);
      Take(a);
      failures := failures + (if failed then 1 else 0);
    }

    // ----- Calls on the CheckNodeHealth resource -----

    method Now(w: nat) returns (t: Time)
      requires Valid() && WorkerOf(s, w).since <= s.now
      modifies this`s, this`trace
      ensures Came(w, old(PcOf(s, w))) && ClockReading(s, w, t) && t == s.now
      ensures WorkerOf(s, w) == old(WorkerOf(s, w)) || old(PcOf(s, w)).Idle?
    {
      hide Run, Init, Step, FailedCalls;
      Interfere(w);
      t := s.now;
    }

    /** A read through the cache, and the clock reading that follows it. */
    method Get(w: nat) returns (reply: Option<Cnh>, failed: bool, t: Time)
      requires Valid() && PcOf(s, w).Idle? && WorkerOf(s, w).since <= s.now
      modifies this`s, this`trace, this`failures
      ensures Came(w, if reply.Some? then AfterGet(reply.value, t) else Idle(if failed then Errored else Finished))
      ensures Acted(old(trace), trace, w)
      ensures reply.None? ==> failures > old(failures)
    {
      hide Run, Init, Step, FailedCalls, AfterGet;
      Interfere(w);
      t := s.now;
      reply := *;
      failed := *;
      if reply.Some? && reply.value in s.versions {
        Act(w, CheckProtocol.Get(w, reply.value, t), false);
      } else {
        reply := None;
        Act(w, Miss(w, failed), true);
      }
      assert Actor(trace[|trace| - 1]) == Some(w);
    }

    /** An update or a status update of the object that is sent. */
    method Update(w: nat, t: Time, sent: Cnh) returns (ok: bool, returned: Cnh)
      requires Valid() && w in s.workers && ClockReading(s, w, t)
      requires Updating(PcOf(s, w)) && Request(PcOf(s, w), t) == Some(sent)
      modifies this`s, this`trace, this`failures
      ensures Came(w, if ok then old(AfterUpdate(s, PcOf(s, w), returned)) else Idle(Errored))
      ensures returned == sent.(rv := returned.rv) && (!ok ==> failures > old(failures))
    {
      hide Run, Init, Step, FailedCalls, Request, AfterUpdate;
      ghost var pc := PcOf(s, w);
      ghost var s0 := s;
      Interfere(w);
      var reply: Reply := *;
      ok := reply.Done? && Current(s, sent);
      returned := Stored(s, sent);
      AfterUpdateFixed(s0, s, pc, returned);
      Act(w, CheckProtocol.Update(w, t, reply), !ok);
    }

    /** The worker finds that it has nothing to write. */
    method Pass(w: nat, t: Time)
      requires Valid() && w in s.workers && ClockReading(s, w, t)
      requires Updating(PcOf(s, w)) && Request(PcOf(s, w), t).None?
      modifies this`s, this`trace, this`failures
      ensures Came(w, old(AfterUpdate(s, PcOf(s, w), PcOf(s, w).cnh)))
    {
      hide Run, Init, Step, FailedCalls, Request, AfterUpdate;
      Act(w, CheckProtocol.Update(w, t, Done), false);
    }

    method Delete(w: nat) returns (ok: bool)
      requires Valid() && PcOf(s, w).Deleting?
      modifies this`s, this`trace, this`failures
      ensures Came(w, Idle(if ok then Finished else Errored)) && (!ok ==> failures > old(failures))
    {
      hide Run, Init, Step, FailedCalls;
      Interfere(w);
      var reply: Reply := *;
      ok := reply.Done?;
      Act(w, CheckProtocol.Delete(w, reply), !ok);
    }

    // ----- Calls on pods -----

    /** Pods by label, through the cache. */
    method ListPods(w: nat, cnhLabel: string) returns (ok: bool, items: seq<Pod>)
      requires Valid() && PcOf(s, w).ListingPods? && PcOf(s, w).cnh.name == cnhLabel
      modifies this`s, this`trace, this`failures
      ensures Came(w, if !ok then Idle(Errored)
                      else if items == [] then CreatingPod(old(PcOf(s, w)).cnh)
                      else Starting(old(PcOf(s, w)).cnh, items[0]))
      ensures !ok ==> failures > old(failures)
    {
      hide Run, Init, Step, FailedCalls;
      Interfere(w);
      items := *;
      ok := forall p :: p in items ==> p in s.podVersions && p.cnhLabel == cnhLabel;
      if ok {
        if items == [] {
          Act(w, CheckProtocol.ListPods(w, None), false);
        } else {
          FirstListed(items, s.podVersions, cnhLabel);
          Act(w, CheckProtocol.ListPods(w, Some(items[0])), false);
        }
      } else {
        Act(w, Abort(w), true);
      }
    }

    method CreatePod(w: nat, name: string, cnhLabel: string, ownerUid: nat) returns (ok: bool)
      requires Valid() && PcOf(s, w).CreatingPod?
      requires var cnh := PcOf(s, w).cnh; name == PodName(cnh.name) && cnhLabel == cnh.name && ownerUid == cnh.uid
      modifies this`s, this`trace, this`failures
      ensures Came(w, if ok then Refetching(old(PcOf(s, w)).cnh) else Idle(Errored)) && (!ok ==> failures > old(failures))
    {
      hide Run, Init, Step, FailedCalls;
      Interfere(w);
      var reply: Reply := *;
      ok := reply.Done? && name !in s.pods;
      Act(w, CheckProtocol.CreatePod(w, reply), !ok);
    }

    method GetPod(w: nat, name: string) returns (reply: Option<Pod>)
      requires Valid() && PcOf(s, w).Refetching? && name == PodName(PcOf(s, w).cnh.name)
      modifies this`s, this`trace, this`failures
      ensures Came(w, if reply.Some? then Starting(old(PcOf(s, w)).cnh, reply.value) else Idle(Errored))
      ensures reply.None? ==> failures > old(failures)
    {
      hide Run, Init, Step, FailedCalls;
      Interfere(w);
      reply := *;
      if reply.Some? && reply.value in s.podVersions && reply.value.name == name {
        Act(w, Refetch(w, reply.value), false);
      } else {
        reply := None;
        Act(w, Abort(w), true);
      }
    }

    method ListForCleanup(w: nat, cnhLabel: string) returns (ok: bool, items: seq<Pod>)
      requires Valid() && PcOf(s, w).ListingForCleanup? && PcOf(s, w).cnh.name == cnhLabel
      modifies this`s, this`trace, this`failures
      ensures Came(w, if ok then AfterCleanup(old(PcOf(s, w)).cnh, items, old(PcOf(s, w)).next) else GivenUp(old(PcOf(s, w))))
      ensures !ok ==> failures > old(failures)
    {
      hide Run, Init, Step, FailedCalls, AfterCleanup;
      Interfere(w);
      items := *;
      ok := forall p :: p in items ==> p in s.podVersions && p.cnhLabel == cnhLabel;
      if ok {
        Act(w, CheckProtocol.ListForCleanup(w, items), false);
      } else {
        Act(w, Abort(w), true);
      }
    }

    method DeletePod(w: nat, pod: Pod) returns (ok: bool)
      requires Valid() && PcOf(s, w).DeletingPods? && PcOf(s, w).todo != [] && PcOf(s, w).todo[0] == pod
      modifies this`s, this`trace, this`failures
      ensures Came(w, if ok then AfterCleanup(old(PcOf(s, w)).cnh, old(PcOf(s, w)).todo[1..], old(PcOf(s, w)).next) else GivenUp(old(PcOf(s, w))))
      ensures !ok ==> failures > old(failures)
    {
      hide Run, Init, Step, FailedCalls, AfterCleanup;
      Interfere(w);
      var reply: Reply := *;
      ok := reply.Done?;
      Act(w, CheckProtocol.DeletePod(w, reply), !ok);
    }

    // ----- Calls on nodes, and the ledger of the breaker -----

    method GetNode(name: string) returns (reply: Option<NodeConditions.Node>)
      modifies this`nodeErrors
      ensures nodeErrors == old(nodeErrors) + (if reply.None? then 1 else 0)
      ensures reply.Some? ==> fresh(reply.value) && name in nodes && reply.value.conditions == nodes[name]
    {
      var fails: bool := *;
      if fails || name !in nodes {
        nodeErrors := nodeErrors + 1;
        return None;
      }
      var node := new NodeConditions.Node(nodes[name]);
      return Some(node);
    }

    method PatchNodeStatus(name: string, node: NodeConditions.Node) returns (ok: bool)
      modifies this`nodes, this`falses, this`nodeErrors
      ensures nodeErrors == old(nodeErrors) + (if ok then 0 else 1)
      ensures || (!ok && nodes == old(nodes) && falses == old(falses))
              || (nodes == old(nodes)[name := node.conditions]
                  && falses == old(falses) + (if NodeConditions.SaysUnhealthy(node.conditions) then 1 else 0))
    {
      var reply: Reply := *;
      if !reply.Refused? {
        nodes := nodes[name := node.conditions];
        falses := falses + (if NodeConditions.SaysUnhealthy(node.conditions) then 1 else 0);
      }
      ok := reply.Done?;
      nodeErrors := nodeErrors + (if ok then 0 else 1);
    }

    method NodeUpdated(w: nat)
      requires Valid() && PcOf(s, w).UpdatingNode?
      modifies this`s, this`trace, this`failures
      ensures Came(w, Recording(old(PcOf(s, w)).cnh))
    {
      hide Run, Init, Step, FailedCalls;
      Act(w, UpdateNode(w), false);
    }

    method Recorded(w: nat, failing: bool)
      requires Valid() && PcOf(s, w).Recording? && failing == Condemns(PcOf(s, w).cnh.status)
      modifies this`s, this`trace, this`failures
      ensures Came(w, ListingForCleanup(old(PcOf(s, w)).cnh, AfterVerdict))
      ensures s.feeds == old(s.feeds) + [Feed(old(PcOf(s, w)).cnh.uid, failing)]
    {
      hide Run, Init, FailedCalls;
      Act(w, Record(w), false);
    }
  }

  lemma FirstListed(items: seq<Pod>, stored: set<Pod>, cnhLabel: string)
    requires items != [] && forall p :: p in items ==> p in stored && p.cnhLabel == cnhLabel
    ensures items[0] in stored && items[0].cnhLabel == cnhLabel
  {
    assert items[0] in items;
  }

  lemma AfterUpdateFixed(s: State, s': State, pc: Pc, cnh: Cnh)
    requires s'.enableNodeCondition == s.enableNodeCondition
    ensures AfterUpdate(s, pc, cnh) == AfterUpdate(s', pc, cnh)
  {}
}
