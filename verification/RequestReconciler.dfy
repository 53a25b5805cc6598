/** The request controller's reconcile in its own form. Every reconcile is a run of the chain,
    whatever happens between its calls. */
module RequestReconciler {
  import opened Api
  import opened HealthRequest
  import P = CheckProtocol

  datatype Result = NoRequeue | RequeueAfter(delay: Time) | Error

  function ResultOf(o: Outcome): Result {
    match o
    case Finished => NoRequeue
    case InProgress => RequeueAfter(IN_PROGRESS_INTERVAL)
    case _ => Error
  }

  lemma OthersLeaveWorker(s: State, a: Action, w: nat)
    requires Actor(a) != Some(w)
    ensures PcOf(Step(s, a), w) == PcOf(s, w)
  {
    hide P.Step, NewSignal, AfterCheck, Synced;
  }

  /** Where a worker's own call leads. */
  lemma OwnStep(s: State, w: nat, a: Action)
    requires Actor(a) == Some(w) && Enabled(s, PcOf(s, w), a)
    ensures Step(s, a) == WorkerStep(s, w, PcOf(s, w), a)
  {
    hide WorkerStep;
  }

  lemma RunSnoc(s: State, actions: seq<Action>, a: Action)
    ensures Run(s, actions + [a]) == Step(Run(s, actions), a)
  {
    hide Step;
    assert (actions + [a])[..|actions|] == actions;
  }

  /** Worker w has read a request, or failed to, since trace was before. */
  ghost predicate Acted(before: seq<Action>, trace: seq<Action>, w: nat) {
    exists i :: |before| <= i < |trace| && Actor(trace[i]) == Some(w) && (trace[i].Get? || trace[i].Miss?)
  }

  /** A call of worker w that does not do what it asks, or that it makes instead of its next one. */
  predicate Fails(a: Action, w: nat) {
    && Actor(a) == Some(w)
    && match a
       case Miss(_, _) => true
       case Abort(_) => true
       case CreateSignal(_, reply) => !reply.Done?
       case CreateCheck(_, reply) => !reply.Done?
       case Sync(_, reply) => !reply.Done?
       case _ => false
  }

  function FailedCalls(trace: seq<Action>, w: nat): nat {
    if trace == [] then 0
    else FailedCalls(trace[..|trace| - 1], w) + (if Fails(trace[|trace| - 1], w) then 1 else 0)
  }

  lemma FailedSnoc(trace: seq<Action>, a: Action, w: nat)
    ensures FailedCalls(trace + [a], w) == FailedCalls(trace, w) + (if Fails(a, w) then 1 else 0)
  {
    hide Fails;
    assert (trace + [a])[..|trace|] == trace;
  }

  class Server {
    var s: State
    ghost var start: State
    ghost var trace: seq<Action>
    /** How many answers were not what a worker asked for: an error, a conflict, or nothing found. */
    ghost var failures: nat

    ghost predicate Valid()
      reads this
    {
      Init(start) && s == Run(start, trace)
    }

    /** Worker w has come to pc, and the run has only grown; no call of w has failed but for an answer of
        the server. */
    twostate predicate Came(w: nat, pc: Pc)
      reads this
    {
      && Valid() && PcOf(s, w) == pc && start == old(start) && old(trace) <= trace
      && old(failures) <= failures
      && FailedCalls(trace, w) - FailedCalls(old(trace), w) <= failures - old(failures)
    }

    constructor (checks: P.State)
      requires P.Init(checks)
      ensures Valid() && trace == [] && s.checks == checks
    {
      s := State(checks, 0, map[], {}, map[], {}, map[], map[], map[]);
      start := State(checks, 0, map[], {}, map[], {}, map[], map[], map[]);
      trace, failures := [], 0;
    }

    method Act(w: nat, a: Action, ghost failed: bool)
      requires Valid() && Actor(a) == Some(w) && Enabled(s, PcOf(s, w), a) && (Fails(a, w) ==> failed)
      modifies this
      ensures Came(w, old(PcOf(WorkerStep(s, w, PcOf(s, w), a), w)))
      ensures trace == old(trace) + [a] && failures == old(failures) + (if failed then 1 else 0)
    {
      hide Step, WorkerStep, Run, Init, FailedCalls, Fails;
      FailedSnoc(trace, a, w);
      failures := failures + (if failed then 1 else 0);
      OwnStep(s, w, a);
      RunSnoc(start, trace, a);
      s := Step(s, a);
      trace := trace + [a];
    }

    /** Other workers, users, garbage collection, and all that happens to checks. */
    method Interfere(w: nat)
      requires Valid()
      modifies this
      ensures Came(w, old(PcOf(s, w))) && failures == old(failures)
    {
      hide Step, Run, Init, FailedCalls;
      var others: seq<Action> := *;
      for i := 0 to |others|
        invariant Came(w, old(PcOf(s, w))) && failures == old(failures)
      {
        if Actor(others[i]) != Some(w) {
          OthersLeaveWorker(s, others[i], w);
          RunSnoc(start, trace, others[i]);
          FailedSnoc(trace, others[i], w);
          s := Step(s, others[i]);
          trace := trace + [others[i]];
        }
      }
    }

    method Get(w: nat) returns (reply: Option<Request>, failed: bool)
      requires Valid() && PcOf(s, w).Idle?
      modifies this
      ensures reply.Some? ==> Came(w, if reply.value.deleting then Idle(Finished) else EnsuringSignal(reply.value))
      ensures reply.None? ==> Came(w, Idle(if failed then Errored else Finished))
      ensures Acted(old(trace), trace, w) && (reply.None? ==> failures > old(failures))
    {
      hide FailedCalls, Valid;
      Interfere(w);
      reply := *;
      failed := *;
      if reply.Some? && reply.value in s.requestVersions {
        Act(w, HealthRequest.Get(w, reply.value), false);
      } else {
        reply := None;
        Act(w, Miss(w, failed), true);
      }
      assert Actor(trace[|trace| - 1]) == Some(w);
    }

    method ListSignals(w: nat, ownerUid: nat) returns (ok: bool, first: Option<Signal>)
      requires Valid() && PcOf(s, w).EnsuringSignal? && PcOf(s, w).request.uid == ownerUid
      modifies this
      ensures Came(w, if !ok then Idle(Errored)
                      else if first.None? then CreatingSignal(old(PcOf(s, w)).request)
                      else EnsuringCheck(first.value, old(PcOf(s, w)).request.target))
      ensures !ok ==> failures > old(failures)
    {
      hide FailedCalls, Valid;
      Interfere(w);
      first := *;
      ok := match first case None => true case Some(g) => g in s.signalVersions && g.requestUid == ownerUid;
      if ok {
        Act(w, HealthRequest.ListSignals(w, first), false);
      } else {
        Act(w, Abort(w), true);
      }
    }

    /** The server fills in the identity of the new object. */
    method CreateSignal(w: nat, sent: Signal) returns (ok: bool, created: Signal)
      requires Valid() && PcOf(s, w).CreatingSignal?
      requires var r := PcOf(s, w).request;
               sent == Signal(SignalName(r.name), sent.uid, sent.rv, r.name, r.uid, r.target, [])
      modifies this
      ensures Came(w, if ok then EnsuringCheck(created, old(PcOf(s, w)).request.target) else Idle(Errored))
      ensures created == sent.(uid := created.uid, rv := created.rv) && (!ok ==> failures > old(failures))
    {
      hide FailedCalls, Valid, SignalName;
      Interfere(w);
      var reply: P.Reply := *;
      ok := reply.Done? && sent.name !in s.signals;
      created := sent.(uid := s.last + 1, rv := s.last + 1);
      Act(w, HealthRequest.CreateSignal(w, reply), !ok);
    }

    method ListChecks(w: nat, ownerUid: nat) returns (ok: bool, first: Option<P.Cnh>)
      requires Valid() && PcOf(s, w).EnsuringCheck? && PcOf(s, w).signal.uid == ownerUid
      modifies this
      ensures Came(w, if !ok then Idle(Errored)
                      else if first.None? then CreatingCheck(old(PcOf(s, w)).signal, old(PcOf(s, w)).target)
                      else AfterCheck(old(PcOf(s, w)).signal, first.value))
      ensures !ok ==> failures > old(failures)
    {
      hide FailedCalls, Valid;
      Interfere(w);
      first := *;
      ok := match first
        case None => true
        case Some(c) => c in s.checks.versions && c.uid in s.owners && s.owners[c.uid].signalUid == ownerUid;
      if ok {
        Act(w, HealthRequest.ListChecks(w, first), false);
      } else {
        Act(w, Abort(w), true);
      }
    }

    method CreateCheck(w: nat, name: string, node: string) returns (ok: bool)
      requires Valid() && PcOf(s, w).CreatingCheck? && PcOf(s, w).signal.name == name && PcOf(s, w).target == node
      modifies this
      ensures Came(w, Idle(if ok then InProgress else Errored)) && (!ok ==> failures > old(failures))
    {
      hide FailedCalls, Valid, P.Step;
      Interfere(w);
      var reply: P.Reply := *;
      ok := reply.Done? && name !in s.checks.crs;
      Act(w, HealthRequest.CreateCheck(w, reply), !ok);
    }

    method UpdateStatus(w: nat, sent: Signal) returns (ok: bool)
      requires Valid() && PcOf(s, w).Syncing?
      requires sent == PcOf(s, w).signal.(conditions := PcOf(s, w).check.status.conditions)
      modifies this
      ensures Came(w, Idle(if ok then Finished else Errored)) && (!ok ==> failures > old(failures))
    {
      hide FailedCalls, Valid, Synced;
      Interfere(w);
      var reply: P.Reply := *;
      ok := reply.Done? && sent.name in s.signals && s.signals[sent.name].rv == sent.rv;
      Act(w, Sync(w, reply), !ok);
    }
  }

  class HealthCheckRequestReconciler {
    const server: Server
    const w: nat

    constructor (server: Server, w: nat)
      ensures this.server == server && this.w == w
    {
      this.server, this.w := server, w;
    }

    /** The worker has come to the end of its program with that result: an error only after a failed call, and
        a wait, of five seconds, exactly if its check is in progress. */
    twostate predicate Ended(result: Result)
      reads this, server
    {
      var pc := PcOf(server.s, w);
      && pc.Idle? && server.Came(w, pc) && result == ResultOf(pc.outcome)
      && (result.Error? ==> server.failures > old(server.failures))
      && (result.RequeueAfter? <==> pc.outcome.InProgress?)
      && (result.RequeueAfter? ==> result.delay == 5_000_000_000)
    }

    /** One reconcile makes calls, in the order and with the contents that the chain prescribes, up to
        the end of its program, and returns what it came to. */
    method Reconcile() returns (result: Result)
      requires server.Valid() && PcOf(server.s, w).Idle?
      modifies server
      ensures Ended(result) && Acted(old(server.trace), server.trace, w)
    {
      hide FailedCalls, server.Valid, SignalName;
      var reply, failed := server.Get(w);
      if reply.None? {
        return if failed then Error else NoRequeue;
      }
      var request := reply.value;
      if request.deleting {
        return NoRequeue;
      }
      var signal := EnsureHealthSignal(request);
      if signal.None? {
        return Error;
      }
      result := CheckAndSync(signal.value, request.target);
    }

    method CheckAndSync(signal: Signal, target: string) returns (result: Result)
      requires server.Valid() && PcOf(server.s, w) == EnsuringCheck(signal, target)
      modifies server
      ensures Ended(result)
    {
      hide FailedCalls, server.Valid;
      var check, created := EnsureCheckNodeHealth(signal, target);
      if created {
        return RequeueAfter(IN_PROGRESS_INTERVAL);
      }
      if check.None? {
        return Error;
      }
      if check.value.status.finishedAt.None? {
        return RequeueAfter(IN_PROGRESS_INTERVAL);
      }
      var ok := SyncHealthSignalStatus(signal, check.value);
      return if ok then NoRequeue else Error;
    }

    method EnsureHealthSignal(request: Request) returns (signal: Option<Signal>)
      requires server.Valid() && PcOf(server.s, w) == EnsuringSignal(request)
      modifies server
      ensures server.Came(w, if signal.Some? then EnsuringCheck(signal.value, request.target) else Idle(Errored))
      ensures signal.None? ==> server.failures > old(server.failures)
    {
      hide FailedCalls, server.Valid, SignalName;
      var ok, first := server.ListSignals(w, request.uid);
      if !ok {
        return None;
      }
      if first.Some? {
        return first;
      }
      var created;
      ok, created := server.CreateSignal(w, Signal(SignalName(request.name), 0, 0, request.name, request.uid, request.target, []));
      return if ok then Some(created) else None;
    }

    /** A check that has just been created has not finished. */
    method EnsureCheckNodeHealth(signal: Signal, target: string) returns (check: Option<P.Cnh>, created: bool)
      requires server.Valid() && PcOf(server.s, w) == EnsuringCheck(signal, target)
      modifies server
      ensures server.Came(w, if created then Idle(InProgress)
                             else if check.Some? then AfterCheck(signal, check.value)
                             else Idle(Errored))
      ensures !created && check.None? ==> server.failures > old(server.failures)
    {
      hide FailedCalls, server.Valid;
      var ok, first := server.ListChecks(w, signal.uid);
      if !ok {
        return None, false;
      }
      if first.Some? {
        return first, false;
      }
      ok := server.CreateCheck(w, signal.name, target);
      return None, ok;
    }

    method SyncHealthSignalStatus(signal: Signal, check: P.Cnh) returns (ok: bool)
      requires server.Valid() && PcOf(server.s, w) == Syncing(signal, check)
      modifies server
      ensures server.Came(w, Idle(if ok then Finished else Errored)) && (!ok ==> server.failures > old(server.failures))
    {
      hide FailedCalls, server.Valid;
      ok := server.UpdateStatus(w, signal.(conditions := check.status.conditions));
    }
  }
}
