/** What one reconcile of a HealthCheckRequest comes to when it reads what is stored and no call fails. */
module RequestOutcomes {
  import opened Api
  import opened HealthRequest
  import opened RequestTheorems
  import P = CheckProtocol

  lemma RunOfTwo(s: State, a: Action, b: Action)
    ensures Run(s, [a]) == Step(s, a) && Run(s, [a, b]) == Step(Step(s, a), b)
  {
    hide Step;
    var one, two := [a], [a, b];
    assert one[..|one| - 1] == [] && Run(s, []) == s;
    assert two[..|two| - 1] == one;
  }

  lemma RunThen(s: State, actions: seq<Action>, a: Action)
    ensures Run(s, actions + [a]) == Step(Run(s, actions), a)
  {
    hide Step;
    assert (actions + [a])[..|actions|] == actions;
  }

  /** Request n asks for a check, and g is its stored signal. */
  ghost predicate Asked(s: State, w: nat, n: string, g: Signal) {
    && ChainInv(s) && PcOf(s, w).Idle? && n in s.requests && !s.requests[n].deleting
    && g.name in s.signals && s.signals[g.name] == g && g.requestUid == s.requests[n].uid
  }

  /** The read of the request and the search for its signal. */
  function Looking(s: State, w: nat, n: string, found: Option<Signal>): seq<Action>
    requires n in s.requests
  {
    [Get(w, s.requests[n]), ListSignals(w, found)]
  }

  lemma Looks(s: State, w: nat, n: string, found: Option<Signal>)
    requires ChainInv(s) && PcOf(s, w).Idle? && n in s.requests && !s.requests[n].deleting
    requires found.Some? ==> found.value in s.signalVersions && found.value.requestUid == s.requests[n].uid
    ensures Run(s, Looking(s, w, n, found)) ==
            Go(s, w, if found.None? then CreatingSignal(s.requests[n]) else EnsuringCheck(found.value, s.requests[n].target))
  {
    hide SignalOk, OwnerOk, PcOk, IsLower;
    var r := s.requests[n];
    RunOfTwo(s, Get(w, r), ListSignals(w, found));
    assert Step(s, Get(w, r)) == Go(s, w, EnsuringSignal(r));
    var s1 := Go(s, w, EnsuringSignal(r));
    var pc := if found.None? then CreatingSignal(r) else EnsuringCheck(found.value, r.target);
    assert Go(s1, w, pc) == Go(s, w, pc);
  }

  lemma AskedSignal(s: State, w: nat, n: string, g: Signal)
    requires Asked(s, w, n, g)
    ensures g in s.signalVersions
  {
    hide SignalOk, OwnerOk, PcOk, IsLower;
  }

  /** The verdict is delivered: whenever a request owns a signal that owns a finished check, a reconcile ends
      without a requeue and the stored signal has exactly the conditions of that check. */
  lemma FinishedCheckDelivered(s: State, w: nat, n: string, g: Signal, check: P.Cnh)
    requires Asked(s, w, n, g)
    requires check in s.checks.versions && check.uid in s.owners && s.owners[check.uid].signalUid == g.uid
    requires check.status.finishedAt.Some?
    ensures var s' := Run(s, Looking(s, w, n, Some(g)) + [ListChecks(w, Some(check)), Sync(w, P.Done)]);
            && PcOf(s', w) == Idle(Finished)
            && g.name in s'.signals
            && s'.signals[g.name] == g.(rv := s'.signals[g.name].rv, conditions := check.status.conditions)
            && s'.checks == s.checks
  {
    hide ChainInv, Run;
    AskedSignal(s, w, n, g);
    var look := Looking(s, w, n, Some(g));
    Looks(s, w, n, Some(g));
    RunThen(s, look, ListChecks(w, Some(check)));
    RunThen(s, look + [ListChecks(w, Some(check))], Sync(w, P.Done));
    assert look + [ListChecks(w, Some(check)), Sync(w, P.Done)] == look + [ListChecks(w, Some(check))] + [Sync(w, P.Done)];
    FoundFinished(Run(s, look), w, g, s.requests[n].target, check);
  }

  lemma FoundFinished(s: State, w: nat, g: Signal, target: string, check: P.Cnh)
    requires PcOf(s, w) == EnsuringCheck(g, target) && g.name in s.signals && s.signals[g.name] == g
    requires check in s.checks.versions && check.uid in s.owners && s.owners[check.uid].signalUid == g.uid
    requires check.status.finishedAt.Some?
    ensures var s' := Step(Step(s, ListChecks(w, Some(check))), Sync(w, P.Done));
            && PcOf(s', w) == Idle(Finished)
            && g.name in s'.signals
            && s'.signals[g.name] == g.(rv := s'.signals[g.name].rv, conditions := check.status.conditions)
            && s'.checks == s.checks
  {
    assert Step(s, ListChecks(w, Some(check))) == Go(s, w, Syncing(g, check));
  }

  /** An owned check that has not finished makes the reconcile wait; nothing else changes. */
  lemma UnfinishedCheckAwaited(s: State, w: nat, n: string, g: Signal, check: P.Cnh)
    requires Asked(s, w, n, g)
    requires check in s.checks.versions && check.uid in s.owners && s.owners[check.uid].signalUid == g.uid
    requires check.status.finishedAt.None?
    ensures Run(s, Looking(s, w, n, Some(g)) + [ListChecks(w, Some(check))]) == Go(s, w, Idle(InProgress))
  {
    hide ChainInv, Run;
    AskedSignal(s, w, n, g);
    Looks(s, w, n, Some(g));
    RunThen(s, Looking(s, w, n, Some(g)), ListChecks(w, Some(check)));
    assert Go(Run(s, Looking(s, w, n, Some(g))), w, Idle(InProgress)) == Go(s, w, Idle(InProgress));
  }

  /** Without a check, one is made: under the signal's name, for the node the request names, owned by the
      signal; and the reconcile waits. */
  lemma MissingCheckCreated(s: State, w: nat, n: string, g: Signal)
    requires Asked(s, w, n, g) && g.name !in s.checks.crs
    ensures var s' := Run(s, Looking(s, w, n, Some(g)) + [ListChecks(w, None), CreateCheck(w, P.Done)]);
            && PcOf(s', w) == Idle(InProgress) && s'.signals == s.signals
            && g.name in s'.checks.crs
            && var check := s'.checks.crs[g.name];
               && check.name == g.name && check.node == s.requests[n].target && check.status == EMPTY_STATUS
               && check.created == s.checks.now && !check.deleting
               && check.uid in s'.owners && s'.owners[check.uid] == Owner(g.name, g.uid)
               && check.uid in s'.madeFor && s'.madeFor[check.uid] == g.request
  {
    hide ChainInv, Run;
    AskedSignal(s, w, n, g);
    var look := Looking(s, w, n, Some(g));
    Looks(s, w, n, Some(g));
    RunThen(s, look, ListChecks(w, None));
    RunThen(s, look + [ListChecks(w, None)], CreateCheck(w, P.Done));
    assert look + [ListChecks(w, None), CreateCheck(w, P.Done)] == look + [ListChecks(w, None)] + [CreateCheck(w, P.Done)];
    FoundNone(Run(s, look), w, g, s.requests[n].target);
  }

  lemma FoundNone(s: State, w: nat, g: Signal, target: string)
    requires PcOf(s, w) == EnsuringCheck(g, target) && g.name !in s.checks.crs
    ensures var s' := Step(Step(s, ListChecks(w, None)), CreateCheck(w, P.Done));
            && PcOf(s', w) == Idle(InProgress) && s'.signals == s.signals
            && g.name in s'.checks.crs
            && var check := s'.checks.crs[g.name];
               && check.name == g.name && check.node == target && check.status == EMPTY_STATUS
               && check.created == s.checks.now && !check.deleting
               && check.uid in s'.owners && s'.owners[check.uid] == Owner(g.name, g.uid)
               && check.uid in s'.madeFor && s'.madeFor[check.uid] == g.request
  {
    assert Step(s, ListChecks(w, None)) == Go(s, w, CreatingCheck(g, target));
    CheckMade(s.checks, g.name, target);
  }

  lemma CheckMade(c: P.State, name: string, node: string)
    requires name !in c.crs
    ensures var c' := P.Step(c, P.UserCreates(name, node));
            name in c'.crs && c'.crs[name] == P.Cnh(name, c.last + 1, c.last + 1, node, c.now, false, false, EMPTY_STATUS)
  {}

  /** Without a signal, one is made: for this request, with its target and without conditions; the reconcile
      goes on with it. */
  lemma MissingSignalCreated(s: State, w: nat, n: string)
    requires ChainInv(s) && PcOf(s, w).Idle? && n in s.requests && !s.requests[n].deleting
    requires SignalName(s.requests[n].name) !in s.signals
    ensures var s' := Run(s, Looking(s, w, n, None) + [CreateSignal(w, P.Done)]);
            var (r, name) := (s.requests[n], SignalName(s.requests[n].name));
            && name in s'.signals
            && s'.signals[name] == Signal(name, s'.signals[name].uid, s'.signals[name].rv, r.name, r.uid, r.target, [])
            && PcOf(s', w) == EnsuringCheck(s'.signals[name], r.target)
  {
    hide ChainInv, Run, SignalName;
    Looks(s, w, n, None);
    RunThen(s, Looking(s, w, n, None), CreateSignal(w, P.Done));
  }

  /** A request that is being deleted is left alone. */
  lemma WithdrawnRequestLeft(s: State, w: nat, n: string)
    requires ChainInv(s) && PcOf(s, w).Idle? && n in s.requests && s.requests[n].deleting
    ensures Run(s, [Get(w, s.requests[n])]) == Go(s, w, Idle(Finished))
  {
    hide SignalOk, OwnerOk, PcOk, IsLower;
    RunOfTwo(s, Get(w, s.requests[n]), Abort(w));
  }

  /** A worker comes to wait by exactly two calls: it finds an owned check that has not finished, or its
      creation of a check is acknowledged. */
  lemma WaitsIff(s: State, w: nat, a: Action)
    requires Actor(a) == Some(w) && Enabled(s, PcOf(s, w), a)
    ensures PcOf(Step(s, a), w) == Idle(InProgress) <==>
              || (a.ListChecks? && a.owned.Some? && a.owned.value.status.finishedAt.None?)
              || (a.CreateCheck? && a.reply.Done? && PcOf(s, w).signal.name !in s.checks.crs)
  {
    hide P.Step, NewSignal, Synced;
  }
}
