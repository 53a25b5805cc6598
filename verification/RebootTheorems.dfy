/** What holds for reboots when the cache is up to date. Boot IDs are random: where it matters, a run
    is taken to never reuse one. */
module RebootTheorems {
  import opened Api
  import opened NodeConditions
  import opened NodeReboot
  import opened RebootLog
  import opened RebootAnnotation

  // ----- With current reads, a copy stays true to its node -----

  ghost predicate WorkerFresh(s: State, n: string) {
    var pc := WorkerOf(s, n).pc;
    !pc.Idle? ==>
      && pc.node.uid <= s.lastUid
      && (n in s.nodes && s.nodes[n].uid == pc.node.uid ==>
            s.nodes[n].lastBootId == pc.node.lastBootId && s.nodes[n].created == pc.node.created)
  }

  ghost predicate Fresh(s: State) {
    forall n :: WorkerFresh(s, n)
  }

  /** A node keeps its annotation, or is a new one. */
  ghost predicate NodeStays(s: State, s': State, n: string) {
    s.lastUid <= s'.lastUid &&
    (n in s'.nodes ==>
      || s'.nodes[n].uid > s.lastUid
      || (n in s.nodes && s'.nodes[n].uid == s.nodes[n].uid
          && s'.nodes[n].lastBootId == s.nodes[n].lastBootId && s'.nodes[n].created == s.nodes[n].created))
  }

  lemma FreshKept(s: State, s': State, n: string)
    requires WorkerFresh(s, n) && NodeStays(s, s', n)
    requires WorkerOf(s', n).pc.Idle? || (!WorkerOf(s, n).pc.Idle? && WorkerOf(s', n).pc.node == WorkerOf(s, n).pc.node)
    ensures WorkerFresh(s', n)
  {}

  lemma EnvironmentKeepsFresh(s: State, a: Action, n: string)
    requires WorkerFresh(s, n)
    ensures WorkerFresh(Environment(s, a), n)
  {
    hide WorkerFresh;
    EnvironmentNodeStays(s, a, n);
    FreshKept(s, Environment(s, a), n);
  }

  lemma EnvironmentNodeStays(s: State, a: Action, n: string)
    ensures NodeStays(s, Environment(s, a), n) && Environment(s, a).workers == s.workers
  {}

  /** A step of another node's reconcile. */
  lemma BesideKeepsFresh(hash: Hash, s: State, a: Action, n: string)
    requires WorkerFresh(s, n) && !Outside(a) && a.node != n
    ensures WorkerFresh(WorkerStep(hash, s, a), n)
  {
    hide WorkerStep, WorkerFresh;
    WorkersBeside(hash, s, a, n);
    if n in s.nodes {
      OnlyAnnotateMoves(hash, s, a, n);
    }
    FreshKept(s, WorkerStep(hash, s, a), n);
  }

  lemma GetKeepsFresh(hash: Hash, s: State, n: string, t: Time, reply: Reply)
    requires Inv(hash, s) && n in s.nodes
    ensures WorkerFresh(DoGet(s, n, s.nodes[n], t, reply), n)
  {
    hide Inv, Collected;
    NodeBounded(hash, s, n);
  }

  /** The worker stays with its copy. */
  lemma GoKeepsFresh(s: State, n: string, pc: Pc)
    requires WorkerFresh(s, n)
    requires pc.Idle? || (!WorkerOf(s, n).pc.Idle? && pc.node == WorkerOf(s, n).pc.node)
    ensures WorkerFresh(Go(s, n, pc), n)
  {}

  lemma CreateKeepsFresh(hash: Hash, s: State, n: string, node: NodeObject, reply: Reply)
    requires WorkerFresh(s, n) && WorkerOf(s, n).pc == Creating(node)
    ensures WorkerFresh(DoCreate(hash, s, n, node, reply), n)
  {
    hide GenerateCNHName;
  }

  lemma AnnotateKeepsFresh(s: State, n: string, node: NodeObject, checked: bool, reply: Reply)
    ensures WorkerFresh(DoAnnotate(s, n, node, checked, reply), n)
  {}

  lemma OwnKeepsFresh(hash: Hash, s: State, a: Action)
    requires Inv(hash, s) && !Outside(a) && WorkerFresh(s, a.node) && Serves(s, a)
    ensures WorkerFresh(WorkerStep(hash, s, a), a.node)
  {
    hide Inv, Go, DoGet, DoCreate, DoAnnotate, Decision, Readiness, ClockReading, WorkerFresh;
    var n := a.node;
    var pc := WorkerOf(s, n).pc;
    match a
    case Get(_, _, t, reply) => GetKeepsFresh(hash, s, n, t, reply);
    case Miss(_) => GoKeepsFresh(s, n, Idle(NoRequeue));
    case Abort(_) => GoKeepsFresh(s, n, Idle(Errored));
    case Decide(_, t) =>
      if pc.Deciding? {
        DecisionPc(pc.node, t);
        GoKeepsFresh(s, n, Decision(pc.node, t));
      }
    case CheckDns(_, dns, t) =>
      if pc.CheckingDns? {
        ReadinessPc(pc.node, dns, t);
        GoKeepsFresh(s, n, Readiness(pc.node, dns, t));
      }
    case Create(_, reply) => if pc.Creating? { CreateKeepsFresh(hash, s, n, pc.node, reply); }
    case Annotate(_, reply) => if pc.Annotating? { AnnotateKeepsFresh(s, n, pc.node, pc.checked, reply); }
  }

  lemma DecisionPc(node: NodeObject, t: Time)
    ensures Decision(node, t).Idle? || Decision(node, t).node == node
  {}

  lemma NodeBounded(hash: Hash, s: State, n: string)
    requires Inv(hash, s) && n in s.nodes
    ensures s.nodes[n].uid <= s.lastUid
  {}

  lemma StepKeepsFresh(hash: Hash, s: State, a: Action)
    requires Inv(hash, s) && Fresh(s) && Serves(s, a)
    ensures Fresh(Step(hash, s, a))
  {
    hide Inv, WorkerFresh, WorkerStep, Environment;
    forall n ensures WorkerFresh(Step(hash, s, a), n) {
      if Outside(a) {
        EnvironmentKeepsFresh(s, a, n);
      } else if a.node == n {
        OwnKeepsFresh(hash, s, a);
      } else {
        BesideKeepsFresh(hash, s, a, n);
      }
    }
  }

  lemma {:induction false} RunKeepsFresh(hash: Hash, s: State, actions: seq<Action>)
    requires Init(s) && CurrentReads(hash, s, actions)
    ensures Fresh(Run(hash, s, actions))
  {
    hide Step, Inv, CurrentReads;
    if actions != [] {
      var init := actions[..|actions| - 1];
      Prefixes(hash, s, actions);
      RunKeepsFresh(hash, s, init);
      RunKeepsInv(hash, s, init);
      StepKeepsFresh(hash, Run(hash, s, init), actions[|actions| - 1]);
    }
  }

  /** With current reads that is so whenever the node that is patched is the one that was read. */
  lemma CurrentReadsAnnotateOnlyWhenChecked(hash: Hash, s0: State, actions: seq<Action>, a: Action, n: string)
    requires Init(s0) && CurrentReads(hash, s0, actions)
    requires var s := Run(hash, s0, actions);
             && Stays(s, Step(hash, s, a), n)
             && (WorkerOf(s, n).pc.Annotating? ==> WorkerOf(s, n).pc.node.uid == s.nodes[n].uid)
    ensures var s := Run(hash, s0, actions); !Unjustified(hash, s, Step(hash, s, a), n)
  {
    hide Run, Step, Unjustified;
    RunKeepsFresh(hash, s0, actions);
    assert WorkerFresh(Run(hash, s0, actions), n);
    AnnotatedOnlyWhenChecked(hash, s0, actions, a, n);
  }

  // ----- Settled boots -----

  predicate Settles(e: Entry, n: string, b: string) {
    e == Annotated(n, b) || e == Initialised(n, b)
  }

  ghost predicate Settled(log: seq<Entry>, n: string, b: string) {
    exists e :: e in log && Settles(e, n, b)
  }

  // ----- A boot that is settled is not checked again -----

  ghost predicate BootsOk(s: State) {
    && (forall n :: n in s.nodes ==> s.nodes[n].bootId == "" || s.nodes[n].bootId in s.boots)
    && (forall n, b :: Settled(s.log, n, b) ==> b in s.boots && b != "")
    && "" !in s.boots
  }

  ghost predicate NodeOnce(s: State, n: string) {
    n in s.nodes && Settled(s.log, n, s.nodes[n].bootId) ==> s.nodes[n].lastBootId == s.nodes[n].bootId
  }

  ghost predicate WorkerOnce(s: State, n: string, pc: Pc) {
    !pc.Idle? ==>
      && (pc.node.bootId == "" || pc.node.bootId in s.boots)
      && (n in s.nodes && s.nodes[n].bootId != pc.node.bootId ==> !Settled(s.log, n, s.nodes[n].bootId))
      && (Settled(s.log, n, pc.node.bootId) ==> pc.Deciding? && pc.node.lastBootId == pc.node.bootId)
  }

  ghost predicate Once(s: State) {
    && BootsOk(s)
    && (forall n :: NodeOnce(s, n))
    && (forall n :: n in s.workers ==> WorkerOnce(s, n, s.workers[n].pc))
  }

  /** What a step may do to the log, the nodes and the boots, seen from another node. */
  lemma EnvironmentKeepsOnce(s: State, a: Action)
    requires Once(s) && (a.NodeBoots? ==> a.boot !in s.boots)
    ensures Once(Environment(s, a))
  {
    var s' := Environment(s, a);
    assert forall e :: e in s'.log && !e.Removed? ==> e in s.log;
    assert s.log <= s'.log;
    forall n, b ensures Settled(s'.log, n, b) == Settled(s.log, n, b) {
      if Settled(s'.log, n, b) {
        var e :| e in s'.log && Settles(e, n, b);
        assert e in s.log;
      }
      if Settled(s.log, n, b) {
        var e :| e in s.log && Settles(e, n, b);
        assert e in s'.log;
      }
    }
    forall n ensures NodeOnce(s', n) {
      assert NodeOnce(s, n);
    }
    forall n | n in s'.workers ensures WorkerOnce(s', n, s'.workers[n].pc) {
      assert WorkerOnce(s, n, s.workers[n].pc);
      assert NodeOnce(s, n);
    }
  }

  lemma GoKeepsOnce(s: State, n: string, pc: Pc)
    requires Once(s) && WorkerOnce(s, n, pc)
    ensures Once(Go(s, n, pc))
  {
    var s' := Go(s, n, pc);
    forall m ensures NodeOnce(s', m) {
      assert NodeOnce(s, m);
    }
    forall m | m in s'.workers ensures WorkerOnce(s', m, s'.workers[m].pc) {
      assert m != n ==> WorkerOnce(s, m, s.workers[m].pc);
    }
  }

  lemma HeldOnce(s: State, n: string)
    requires Once(s)
    ensures WorkerOnce(s, n, WorkerOf(s, n).pc) && NodeOnce(s, n)
  {}

  /** The garbage collection of a condition leaves boot IDs alone. */
  lemma CollectKeepsOnce(s: State, n: string, conditions: seq<NodeCondition>)
    requires Once(s) && n in s.nodes
    ensures Once(s.(nodes := s.nodes[n := s.nodes[n].(conditions := conditions)]))
  {
    var s' := s.(nodes := s.nodes[n := s.nodes[n].(conditions := conditions)]);
    forall m ensures NodeOnce(s', m) {
      assert NodeOnce(s, m);
    }
    forall m | m in s'.workers ensures WorkerOnce(s', m, s'.workers[m].pc) {
      assert WorkerOnce(s, m, s.workers[m].pc);
    }
  }

  lemma GetKeepsOnce(s: State, n: string, t: Time, reply: Reply)
    requires Once(s) && n in s.nodes
    ensures Once(DoGet(s, n, s.nodes[n], t, reply))
  {
    hide Once, Collected, WorkerOnce, Go;
    var node := s.nodes[n];
    var conditions := Collected(node.conditions, t);
    var s1 := s.(nodes := s.nodes[n := node.(conditions := conditions)]);
    CollectKeepsOnce(s, n, conditions);
    ReadOnce(s, n);
    ReadOnce(s1, n);
    IdleOnce(s, n);
    IdleOnce(s1, n);
    GoKeepsOnce(s, n, if conditions == node.conditions then Deciding(node) else Idle(Errored));
    GoKeepsOnce(s1, n, if reply.Done? then Deciding(s1.nodes[n]) else Idle(Errored));
  }

  lemma ReadOnce(s: State, n: string)
    requires Once(s) && n in s.nodes
    ensures WorkerOnce(s, n, Deciding(s.nodes[n]))
  {
    HeldOnce(s, n);
  }

  lemma IdleOnce(s: State, n: string)
    ensures forall o :: WorkerOnce(s, n, Idle(o))
  {}

  /** An entry that settles nothing. */
  lemma LogKeepsOnce(s: State, s': State, e: Entry)
    requires Once(s) && s'.nodes == s.nodes && s'.boots == s.boots && s'.workers == s.workers
    requires s'.log == s.log + [e] && (e.Created? || e.Removed?)
    ensures Once(s')
  {
    forall n, b ensures Settled(s'.log, n, b) == Settled(s.log, n, b) {
      SettledSnoc(s.log, e, n, b);
    }
    forall m ensures NodeOnce(s', m) {
      assert NodeOnce(s, m);
    }
    forall m | m in s'.workers ensures WorkerOnce(s', m, s'.workers[m].pc) {
      assert WorkerOnce(s, m, s.workers[m].pc);
    }
  }

  lemma SettledSnoc(log: seq<Entry>, e: Entry, n: string, b: string)
    ensures Settled(log + [e], n, b) <==> Settled(log, n, b) || Settles(e, n, b)
  {
    if Settled(log, n, b) {
      var x :| x in log && Settles(x, n, b);
      assert x in log + [e];
    }
    if Settles(e, n, b) {
      assert (log + [e])[|log|] == e;
    }
  }

  lemma CreateKeepsOnce(hash: Hash, s: State, n: string, node: NodeObject, reply: Reply)
    requires Once(s) && WorkerOf(s, n).pc == Creating(node)
    ensures Once(DoCreate(hash, s, n, node, reply))
  {
    hide Once, GenerateCNHName, Go;
    HeldOnce(s, n);
    var name := GenerateCNHName(hash, node.name, node.bootId);
    var next := if reply.Done? then Annotating(node, true) else Idle(Errored);
    var e := Created(node.name, node.bootId);
    var s1 := s.(cnhs := s.cnhs + {name}, existed := s.existed + {name}, log := s.log + [e]);
    LogKeepsOnce(s, s1, e);
    SettledSnoc(s.log, e, n, node.bootId);
    if n in s.nodes {
      SettledSnoc(s.log, e, n, s.nodes[n].bootId);
    }
    GoKeepsOnce(s, n, next);
    GoKeepsOnce(s1, n, next);
  }

  lemma AnnotateKeepsOnce(s: State, n: string, node: NodeObject, checked: bool, reply: Reply)
    requires Once(s) && WorkerOf(s, n).pc == Annotating(node, checked) && node.bootId != ""
    ensures Once(DoAnnotate(s, n, node, checked, reply))
  {
    HeldOnce(s, n);
    if !reply.Refused? && n in s.nodes {
      var s' := DoAnnotate(s, n, node, checked, reply);
      var e := if checked then Annotated(n, node.bootId) else Initialised(n, node.bootId);
      forall m, b ensures Settled(s'.log, m, b) <==> Settled(s.log, m, b) || (m == n && b == node.bootId) {
        SettledSnoc(s.log, e, m, b);
      }
      forall m ensures NodeOnce(s', m) {
        assert NodeOnce(s, m);
      }
      forall m | m in s'.workers ensures WorkerOnce(s', m, s'.workers[m].pc) {
        assert m != n ==> WorkerOnce(s, m, s.workers[m].pc);
      }
    } else {
      GoKeepsOnce(s, n, Idle(Errored));
    }
  }

  lemma WorkerKeepsOnce(hash: Hash, s: State, a: Action)
    requires Inv(hash, s) && Once(s) && Serves(s, a)
    ensures Once(WorkerStep(hash, s, a))
  {
    hide Inv, Once, Go, DoGet, DoCreate, DoAnnotate, Readiness, Justified;
    match a
    case Get(n, _, t, reply) => GetKeepsOnce(s, n, t, reply);
    case Miss(n) => GoKeepsOnce(s, n, Idle(NoRequeue));
    case Abort(n) => GoKeepsOnce(s, n, Idle(Errored));
    case Decide(n, t) =>
      HeldOnce(s, n);
      if WorkerOf(s, n).pc.Deciding? { GoKeepsOnce(s, n, Decision(WorkerOf(s, n).pc.node, t)); }
    case CheckDns(n, dns, t) =>
      HeldOnce(s, n);
      if WorkerOf(s, n).pc.CheckingDns? {
        ReadinessPc(WorkerOf(s, n).pc.node, dns, t);
        GoKeepsOnce(s, n, Readiness(WorkerOf(s, n).pc.node, dns, t));
      }
    case Create(n, reply) =>
      if WorkerOf(s, n).pc.Creating? { CreateKeepsOnce(hash, s, n, WorkerOf(s, n).pc.node, reply); }
    case Annotate(n, reply) =>
      var pc := WorkerOf(s, n).pc;
      if pc.Annotating? {
        HeldOk(hash, s, n);
        AnnotateKeepsOnce(s, n, pc.node, pc.checked, reply);
      }
    case _ =>
  }

  lemma ReadinessPc(node: NodeObject, dns: Dns, t: Time)
    ensures Readiness(node, dns, t).Idle? || Readiness(node, dns, t) == Creating(node)
  {}

  lemma {:induction false} RunKeepsOnce(hash: Hash, s: State, actions: seq<Action>)
    requires Init(s) && CurrentReads(hash, s, actions) && FreshBoots(hash, s, actions)
    ensures Once(Run(hash, s, actions))
  {
    hide Step, WorkerStep, Environment, CurrentReads, FreshBoots;
    if actions != [] {
      var init, a := actions[..|actions| - 1], actions[|actions| - 1];
      Prefixes(hash, s, actions);
      RunKeepsOnce(hash, s, init);
      RunKeepsInv(hash, s, init);
      StepKeepsOnce(hash, Run(hash, s, init), a);
    }
  }

  lemma StepKeepsOnce(hash: Hash, s: State, a: Action)
    requires Inv(hash, s) && Once(s) && Serves(s, a) && (a.NodeBoots? ==> a.boot !in s.boots)
    ensures Once(Step(hash, s, a))
  {
    hide Inv, Once, WorkerStep, Environment;
    if Outside(a) {
      EnvironmentKeepsOnce(s, a);
    } else {
      WorkerKeepsOnce(hash, s, a);
    }
  }

  // ----- At most one check per boot -----

  /** A check is created only for a boot that is not settled yet. */
  ghost predicate NeverSettled(log: seq<Entry>) {
    forall i, j :: 0 <= i < j < |log| && log[j].Created? ==> !Settles(log[i], log[j].node, log[j].boot)
  }

  lemma NeverSettledSnoc(log: seq<Entry>, e: Entry)
    requires NeverSettled(log) && (e.Created? ==> !Settled(log, e.node, e.boot))
    ensures NeverSettled(log + [e])
  {
    var log' := log + [e];
    forall i, j | 0 <= i < j < |log'| && log'[j].Created? ensures !Settles(log'[i], log'[j].node, log'[j].boot) {
      assert log'[i] == log[i] && log[i] in log;
    }
  }

  lemma {:induction false} RunNeverSettled(hash: Hash, s: State, actions: seq<Action>)
    requires Init(s) && CurrentReads(hash, s, actions) && FreshBoots(hash, s, actions)
    ensures NeverSettled(Run(hash, s, actions).log)
  {
    hide Step, CurrentReads, FreshBoots, NeverSettled, Once, GenerateCNHName;
    if actions == [] {
      NothingSettled();
    } else {
      var init, a := actions[..|actions| - 1], actions[|actions| - 1];
      Prefixes(hash, s, actions);
      RunNeverSettled(hash, s, init);
      RunKeepsOnce(hash, s, init);
      var before := Run(hash, s, init);
      var e := StepLogs(hash, before, a);
      if e.Some? {
        if e.value.Created? {
          CreatesUnsettled(hash, s, init, a, e.value.node, e.value.boot);
        }
        NeverSettledSnoc(before.log, e.value);
      }
    }
  }

  lemma NothingSettled()
    ensures NeverSettled([])
  {}

  lemma CreatesUnsettled(hash: Hash, s: State, actions: seq<Action>, a: Action, n: string, b: string)
    requires Init(s) && Once(Run(hash, s, actions)) && Creates(hash, Run(hash, s, actions), a, n, b)
    ensures !Settled(Run(hash, s, actions).log, n, b)
  {
    hide Inv, Once, Run, GenerateCNHName;
    RunKeepsInv(hash, s, actions);
    HeldOk(hash, Run(hash, s, actions), a.node);
    HeldOnce(Run(hash, s, actions), a.node);
  }

  /** At most one check per boot: with current reads and boot IDs that do not recur, a check for
      (node, boot) is created again only if the earlier one was removed and the annotation has never
      been moved to that boot. */
  lemma AtMostOneCheckPerBoot(hash: Hash, s0: State, actions: seq<Action>, n: string, b: string, j: nat)
    requires Init(s0) && CurrentReads(hash, s0, actions) && FreshBoots(hash, s0, actions)
    requires j < |Run(hash, s0, actions).log| && Run(hash, s0, actions).log[j] == Created(n, b)
    ensures var log := Run(hash, s0, actions).log;
            && Annotated(n, b) !in log[..j] && Initialised(n, b) !in log[..j]
            && forall i :: 0 <= i < j && log[i] == Created(n, b) ==>
                 exists k :: i < k < j && log[k] == Removed(GenerateCNHName(hash, n, b))
  {
    hide GenerateCNHName, CurrentReads, FreshBoots, Run;
    RunNeverSettled(hash, s0, actions);
    var log := Run(hash, s0, actions).log;
    forall i | 0 <= i < j ensures !Settles(log[i], n, b) {}
    forall i | 0 <= i < j && log[i] == Created(n, b)
      ensures exists k :: i < k < j && log[k] == Removed(GenerateCNHName(hash, n, b))
    {
      CreatedAgainOnlyAfterRemoval(hash, s0, actions, n, b, i, j);
    }
  }
}
