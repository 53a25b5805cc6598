/** No boot is missed, in every run whose cache serves past versions of the nodes: lagging reads,
    failures and recurring boot IDs included. */
module RebootLedger {
  import opened Api
  import opened NodeConditions
  import opened NodeReboot
  import opened RebootLog
  import opened RebootTheorems

  predicate IsRebootName(c: string) {
    |c| >= 5 && c[..5] == "boot-"
  }

  /** Nobody else creates checks under the controller's names, and node names are not too long. */
  ghost predicate Dedicated(actions: seq<Action>) {
    forall a :: a in actions ==>
      && (a.UserCreatesCheck? ==> !IsRebootName(a.cnh))
      && (a.NodeJoins? ==> |a.name| <= 239)
  }

  /** Entry e created a check of that name. */
  ghost predicate Owns(hash: Hash, boots: set<string>, e: Entry, c: string) {
    e.Created? && |e.node| <= 239 && e.boot in boots && GenerateCNHName(hash, e.node, e.boot) == c
  }

  ghost predicate Owned(hash: Hash, s: State, c: string) {
    exists e :: e in s.log && Owns(hash, s.boots, e, c)
  }

  /** The node, or a copy of it, has a boot ID that some node has had. */
  predicate Known(boots: set<string>, node: NodeObject) {
    |node.name| <= 239 && (node.bootId == "" || node.bootId in boots)
  }

  ghost predicate NodeLedger(s: State, n: string) {
    n in s.nodes ==>
      && s.nodes[n].name == n && Known(s.boots, s.nodes[n])
      && (s.nodes[n].lastBootId != "" ==> Settled(s.log, n, s.nodes[n].lastBootId))
  }

  ghost predicate WorkerLedger(s: State, n: string) {
    WorkerOf(s, n).pc.Idle? || Known(s.boots, WorkerOf(s, n).pc.node)
  }

  ghost predicate EntryLedger(hash: Hash, s: State, e: Entry) {
    e.Annotated? ==> |e.node| <= 239 && e.boot in s.boots && GenerateCNHName(hash, e.node, e.boot) in s.existed
  }

  ghost predicate NameLedger(hash: Hash, s: State, c: string) {
    c in s.existed && IsRebootName(c) ==> Owned(hash, s, c)
  }

  ghost predicate Ledger(hash: Hash, s: State) {
    && (forall n :: NodeLedger(s, n))
    && (forall n :: WorkerLedger(s, n))
    && (forall e :: e in s.log ==> EntryLedger(hash, s, e))
    && (forall c :: NameLedger(hash, s, c))
  }

  // Every part of the ledger survives a step that only adds to it.

  ghost predicate Grows(s: State, s': State) {
    s.boots <= s'.boots && s.existed <= s'.existed && s.log <= s'.log
  }

  /** The node was there, keeps its annotation, and has at most got a boot ID that is on record. */
  ghost predicate NodeKept(s: State, s': State, n: string) {
    n in s'.nodes ==>
      && n in s.nodes && s'.nodes[n].name == s.nodes[n].name && s'.nodes[n].lastBootId == s.nodes[n].lastBootId
      && (s'.nodes[n].bootId == s.nodes[n].bootId || s'.nodes[n].bootId in s'.boots)
  }

  lemma NodeFollows(s: State, s': State, n: string)
    requires NodeLedger(s, n) && Grows(s, s') && NodeKept(s, s', n)
    ensures NodeLedger(s', n)
  {
    if n in s'.nodes && s'.nodes[n].lastBootId != "" {
      var e :| e in s.log && Settles(e, n, s.nodes[n].lastBootId);
      assert e in s'.log;
    }
  }

  lemma EntryFollows(hash: Hash, s: State, s': State, e: Entry)
    requires EntryLedger(hash, s, e) && Grows(s, s')
    ensures EntryLedger(hash, s', e)
  {
    hide GenerateCNHName;
  }

  lemma NameFollows(hash: Hash, s: State, s': State, c: string)
    requires NameLedger(hash, s, c) && Grows(s, s') && (c in s'.existed && IsRebootName(c) ==> c in s.existed)
    ensures NameLedger(hash, s', c)
  {
    hide GenerateCNHName, IsRebootName;
    if c in s'.existed && IsRebootName(c) {
      var e :| e in s.log && Owns(hash, s.boots, e, c);
      assert e in s'.log && Owns(hash, s'.boots, e, c);
    }
  }

  lemma EntriesFollow(hash: Hash, s: State, s': State, more: seq<Entry>)
    requires Ledger(hash, s) && Grows(s, s') && s'.log == s.log + more && forall e :: e in more ==> EntryLedger(hash, s', e)
    ensures forall e :: e in s'.log ==> EntryLedger(hash, s', e)
  {
    hide EntryLedger, Grows, NodeLedger, WorkerLedger, NameLedger;
    forall e | e in s'.log ensures EntryLedger(hash, s', e) {
      if e in s.log {
        EntryFollows(hash, s, s', e);
      } else {
        assert e in more;
      }
    }
  }

  /** A step that leaves annotations, the log and the names of the controller as they are. */
  lemma QuietKeepsLedger(hash: Hash, s: State, s': State)
    requires Ledger(hash, s) && Grows(s, s') && s'.log == s.log
    requires forall n :: NodeKept(s, s', n) && WorkerLedger(s', n)
    requires forall c :: c in s'.existed && IsRebootName(c) ==> c in s.existed
    ensures Ledger(hash, s')
  {
    hide EntryLedger, NodeLedger, WorkerLedger, NameLedger, IsRebootName, Grows, NodeKept;
    forall n ensures NodeLedger(s', n) {
      NodeFollows(s, s', n);
    }
    forall c ensures NameLedger(hash, s', c) {
      NameFollows(hash, s, s', c);
    }
    assert s'.log == s.log + [];
    EntriesFollow(hash, s, s', []);
  }

  lemma WorkersStay(hash: Hash, s: State, s': State)
    requires Ledger(hash, s) && s'.workers == s.workers && s.boots <= s'.boots
    ensures forall n :: WorkerLedger(s', n)
  {
    hide NodeLedger, EntryLedger, NameLedger;
    assert forall n :: WorkerLedger(s, n);
    assert forall n :: WorkerOf(s', n).pc == WorkerOf(s, n).pc;
    forall n ensures WorkerLedger(s', n) {
      assert WorkerLedger(s, n);
    }
  }

  lemma JoinKeepsLedger(hash: Hash, s: State, n: string, labels: map<string, string>)
    requires Ledger(hash, s) && |n| <= 239
    ensures Ledger(hash, Environment(s, NodeJoins(n, labels)))
  {
    hide GenerateCNHName, IsRebootName, EntryLedger, NameLedger, WorkerLedger;
    var s' := Environment(s, NodeJoins(n, labels));
    WorkersStay(hash, s, s');
    forall m ensures NodeLedger(s', m) {
      assert NodeLedger(s, m);
    }
    forall c ensures NameLedger(hash, s', c) {
      NameFollows(hash, s, s', c);
    }
    assert s'.log == s.log + [];
    EntriesFollow(hash, s, s', []);
  }

  lemma RemovalKeepsLedger(hash: Hash, s: State, c: string)
    requires Ledger(hash, s)
    ensures Ledger(hash, Environment(s, CheckRemoved(c)))
  {
    hide GenerateCNHName, IsRebootName, EntryLedger, NameLedger, WorkerLedger, NodeLedger;
    if c in s.cnhs {
      var s' := Environment(s, CheckRemoved(c));
      WorkersStay(hash, s, s');
      forall m ensures NodeLedger(s', m) {
        NodeFollows(s, s', m);
      }
      forall d ensures NameLedger(hash, s', d) {
        NameFollows(hash, s, s', d);
      }
      assert EntryLedger(hash, s', Removed(c)) by { PlainEntry(hash, s'); }
      EntriesFollow(hash, s, s', [Removed(c)]);
    }
  }

  lemma PlainEntry(hash: Hash, s: State)
    ensures forall e: Entry :: !e.Annotated? ==> EntryLedger(hash, s, e)
  {}

  lemma EnvironmentKeepsLedger(hash: Hash, s: State, a: Action)
    requires Ledger(hash, s) && Dedicated([a])
    ensures Ledger(hash, Environment(s, a))
  {
    hide Ledger, IsRebootName, Environment;
    assert a in [a];
    if a.NodeJoins? {
      JoinKeepsLedger(hash, s, a.name, a.labels);
    } else if a.CheckRemoved? {
      RemovalKeepsLedger(hash, s, a.cnh);
    } else {
      OtherKeepsLedger(hash, s, a);
    }
  }

  lemma OtherFrame(s: State, a: Action)
    requires !a.NodeJoins? && !a.CheckRemoved?
    ensures var s' := Environment(s, a);
            && Grows(s, s') && s'.log == s.log && s'.workers == s.workers
            && (forall m :: NodeKept(s, s', m))
            && (forall c :: c in s'.existed ==> c in s.existed || (a.UserCreatesCheck? && c == a.cnh))
  {}

  lemma OtherKeepsLedger(hash: Hash, s: State, a: Action)
    requires Ledger(hash, s) && !a.NodeJoins? && !a.CheckRemoved? && (a.UserCreatesCheck? ==> !IsRebootName(a.cnh))
    ensures Ledger(hash, Environment(s, a))
  {
    hide Ledger, WorkerLedger, IsRebootName, Environment, Grows;
    OtherFrame(s, a);
    WorkersStay(hash, s, Environment(s, a));
    QuietKeepsLedger(hash, s, Environment(s, a));
  }

  lemma GoWorkers(hash: Hash, s: State, s': State, n: string, pc: Pc)
    requires Ledger(hash, s) && (pc.Idle? || Known(s.boots, pc.node)) && s.boots <= s'.boots
    requires s'.workers == s.workers[n := Worker(pc, s.now)]
    ensures forall m :: WorkerLedger(s', m)
  {
    hide NodeLedger, EntryLedger, NameLedger;
    forall m ensures WorkerLedger(s', m) {
      assert WorkerLedger(s, m);
    }
  }

  /** The worker stays with its copy. */
  lemma GoKeepsLedger(hash: Hash, s: State, n: string, pc: Pc)
    requires Ledger(hash, s)
    requires pc.Idle? || (!WorkerOf(s, n).pc.Idle? && pc.node == WorkerOf(s, n).pc.node)
    ensures Ledger(hash, Go(s, n, pc))
  {
    hide WorkerLedger, IsRebootName, Ledger;
    if !pc.Idle? {
      CopyKnown(hash, s, n);
    }
    GoWorkers(hash, s, Go(s, n, pc), n, pc);
    QuietKeepsLedger(hash, s, Go(s, n, pc));
  }

  lemma CopyKnown(hash: Hash, s: State, n: string)
    requires Ledger(hash, s) && !WorkerOf(s, n).pc.Idle?
    ensures Known(s.boots, WorkerOf(s, n).pc.node)
  {
    assert WorkerLedger(s, n);
  }

  lemma NodeKnown(hash: Hash, s: State, n: string)
    requires Ledger(hash, s) && n in s.nodes
    ensures s.nodes[n].name == n && Known(s.boots, s.nodes[n])
  {
    assert NodeLedger(s, n);
  }

  lemma GetFrame(s: State, n: string, read: NodeObject, t: Time, reply: Reply)
    ensures var s' := DoGet(s, n, read, t, reply);
            && Grows(s, s') && s'.log == s.log && s'.existed == s.existed && s'.boots == s.boots
            && n in s'.workers && s'.workers == s.workers[n := Worker(s'.workers[n].pc, s.now)]
            && (forall m :: NodeKept(s, s', m))
            && var pc := s'.workers[n].pc;
               pc.Idle? || pc.node == read || (n in s.nodes && pc.node == s.nodes[n].(conditions := pc.node.conditions))
  {
    hide Collected;
  }

  lemma GetKeepsLedger(hash: Hash, s: State, n: string, read: NodeObject, t: Time, reply: Reply)
    requires Ledger(hash, s) && Known(s.boots, read)
    ensures Ledger(hash, DoGet(s, n, read, t, reply))
  {
    hide WorkerLedger, NodeLedger, IsRebootName, Ledger, Collected, DoGet, Grows, NodeKept;
    var s' := DoGet(s, n, read, t, reply);
    GetFrame(s, n, read, t, reply);
    if n in s.nodes {
      NodeKnown(hash, s, n);
    }
    GoWorkers(hash, s, s', n, s'.workers[n].pc);
    QuietKeepsLedger(hash, s, s');
  }

  lemma CreateKeepsLedger(hash: Hash, s: State, n: string, node: NodeObject, reply: Reply)
    requires Inv(hash, s) && Ledger(hash, s) && WorkerOf(s, n).pc == Creating(node)
    ensures Ledger(hash, DoCreate(hash, s, n, node, reply))
  {
    hide GenerateCNHName, IsRebootName, EntryLedger, NameLedger, WorkerLedger, NodeLedger, Inv, Ledger;
    HeldOk(hash, s, n);
    var s' := DoCreate(hash, s, n, node, reply);
    CopyKnown(hash, s, n);
    GoWorkers(hash, s, s', n, s'.workers[n].pc);
    if s'.log == s.log {
      QuietKeepsLedger(hash, s, s');
    } else {
      MadeKeepsLedger(hash, s, s', n, node.bootId);
    }
  }

  /** The check itself and its entry in the log. */
  lemma MadeKeepsLedger(hash: Hash, s: State, s': State, n: string, b: string)
    requires Ledger(hash, s) && b in s.boots && |n| <= 239 && forall m :: WorkerLedger(s', m)
    requires s'.nodes == s.nodes && s'.log == s.log + [Created(n, b)] && s'.boots == s.boots
    requires s'.existed == s.existed + {GenerateCNHName(hash, n, b)}
    ensures Ledger(hash, s')
  {
    hide GenerateCNHName, IsRebootName, EntryLedger, NameLedger, WorkerLedger, NodeLedger, Ledger;
    LedgerParts(hash, s);
    var e := Created(n, b);
    forall m ensures NodeLedger(s', m) {
      NodeFollows(s, s', m);
    }
    var name := GenerateCNHName(hash, n, b);
    assert e in s'.log && Owns(hash, s'.boots, e, name);
    forall c ensures NameLedger(hash, s', c) {
      if c == name {
        OwnedName(hash, s', c);
      } else {
        NameFollows(hash, s, s', c);
      }
    }
    PlainEntry(hash, s');
    EntriesFollow(hash, s, s', [e]);
    LedgerWhole(hash, s');
  }

  lemma OwnedName(hash: Hash, s: State, c: string)
    requires Owned(hash, s, c)
    ensures NameLedger(hash, s, c)
  {}

  lemma AnnotateKeepsLedger(hash: Hash, s: State, n: string, node: NodeObject, checked: bool, reply: Reply)
    requires Inv(hash, s) && Ledger(hash, s) && WorkerOf(s, n).pc == Annotating(node, checked)
    ensures Ledger(hash, DoAnnotate(s, n, node, checked, reply))
  {
    hide GenerateCNHName, IsRebootName, NameLedger, WorkerLedger, NodeLedger, EntryLedger, Inv, Ledger;
    HeldOk(hash, s, n);
    var s' := DoAnnotate(s, n, node, checked, reply);
    CopyKnown(hash, s, n);
    GoWorkers(hash, s, s', n, s'.workers[n].pc);
    if reply.Refused? || n !in s.nodes {
      QuietKeepsLedger(hash, s, s');
    } else {
      PatchKeepsLedger(hash, s, s', n, if checked then Annotated(n, node.bootId) else Initialised(n, node.bootId));
    }
  }

  /** The patch itself: the node and its entry in the log. */
  lemma PatchKeepsLedger(hash: Hash, s: State, s': State, n: string, e: Entry)
    requires (e.Annotated? || e.Initialised?) && e.node == n && n in s.nodes
    requires Ledger(hash, s) && forall m :: WorkerLedger(s', m)
    requires s'.nodes == s.nodes[n := s.nodes[n].(lastBootId := e.boot)] && s'.log == s.log + [e]
    requires s'.boots == s.boots && s'.existed == s.existed && (e.boot == "" || e.boot in s.boots)
    requires e.Annotated? ==> |n| <= 239 && e.boot in s.boots && GenerateCNHName(hash, n, e.boot) in s.existed
    ensures Ledger(hash, s')
  {
    hide GenerateCNHName, IsRebootName, NameLedger, WorkerLedger, NodeLedger, EntryLedger, Ledger;
    LedgerParts(hash, s);
    forall m ensures NodeLedger(s', m) {
      if m == n {
        SettledSnoc(s.log, e, n, e.boot);
        NodeKnown(hash, s, n);
        NodeSettled(s', n);
      } else {
        NodeFollows(s, s', m);
      }
    }
    forall c ensures NameLedger(hash, s', c) {
      NameFollows(hash, s, s', c);
    }
    assert EntryLedger(hash, s', e) by { NewEntry(hash, s', e); }
    EntriesFollow(hash, s, s', [e]);
    LedgerWhole(hash, s');
  }

  lemma LedgerParts(hash: Hash, s: State)
    requires Ledger(hash, s)
    ensures (forall n :: NodeLedger(s, n)) && (forall c :: NameLedger(hash, s, c))
  {}

  lemma LedgerWhole(hash: Hash, s: State)
    requires (forall n :: NodeLedger(s, n)) && (forall n :: WorkerLedger(s, n))
    requires (forall e :: e in s.log ==> EntryLedger(hash, s, e)) && (forall c :: NameLedger(hash, s, c))
    ensures Ledger(hash, s)
  {}

  lemma NodeSettled(s: State, n: string)
    requires n in s.nodes && s.nodes[n].name == n && Known(s.boots, s.nodes[n]) && Settled(s.log, n, s.nodes[n].lastBootId)
    ensures NodeLedger(s, n)
  {}

  lemma NewEntry(hash: Hash, s: State, e: Entry)
    requires e.Annotated? ==> |e.node| <= 239 && e.boot in s.boots && GenerateCNHName(hash, e.node, e.boot) in s.existed
    ensures EntryLedger(hash, s, e)
  {}

  /** The read serves a copy whose boot ID is on record. */
  predicate ServesKnown(s: State, a: Action) {
    a.Get? ==> Known(s.boots, a.read)
  }

  lemma WorkerKeepsLedger(hash: Hash, s: State, a: Action)
    requires Inv(hash, s) && Ledger(hash, s) && ServesKnown(s, a)
    ensures Ledger(hash, WorkerStep(hash, s, a))
  {
    hide Inv, Ledger, Go, DoGet, DoCreate, DoAnnotate, Decision, Readiness, Justified;
    match a
    case Get(n, read, t, reply) => GetKeepsLedger(hash, s, n, read, t, reply);
    case Miss(n) => GoKeepsLedger(hash, s, n, Idle(NoRequeue));
    case Abort(n) => GoKeepsLedger(hash, s, n, Idle(Errored));
    case Decide(n, t) =>
      var pc := WorkerOf(s, n).pc;
      if pc.Deciding? {
        DecisionPc(pc.node, t);
        GoKeepsLedger(hash, s, n, Decision(pc.node, t));
      }
    case CheckDns(n, dns, t) =>
      var pc := WorkerOf(s, n).pc;
      if pc.CheckingDns? {
        ReadinessPc(pc.node, dns, t);
        GoKeepsLedger(hash, s, n, Readiness(pc.node, dns, t));
      }
    case Create(n, reply) =>
      var pc := WorkerOf(s, n).pc;
      if pc.Creating? { CreateKeepsLedger(hash, s, n, pc.node, reply); }
    case Annotate(n, reply) =>
      var pc := WorkerOf(s, n).pc;
      if pc.Annotating? { AnnotateKeepsLedger(hash, s, n, pc.node, pc.checked, reply); }
    case _ =>
  }

  lemma StepKeepsLedger(hash: Hash, s: State, a: Action)
    requires Inv(hash, s) && Ledger(hash, s) && ServesKnown(s, a) && Dedicated([a])
    ensures Ledger(hash, Step(hash, s, a))
  {
    hide Inv, Ledger, WorkerStep, Environment, Dedicated;
    if Outside(a) {
      EnvironmentKeepsLedger(hash, s, a);
    } else {
      WorkerKeepsLedger(hash, s, a);
    }
  }

  // ----- Runs -----

  lemma EnvironmentBoots(s: State, a: Action)
    ensures s.boots <= Environment(s, a).boots
  {}

  lemma WorkerBoots(hash: Hash, s: State, a: Action)
    ensures WorkerStep(hash, s, a).boots == s.boots
  {
    hide Collected, GenerateCNHName, Decision, Readiness, ClockReading;
  }

  lemma {:induction false} BootsGrow(hash: Hash, s: State, actions: seq<Action>, k: nat)
    requires k <= |actions|
    ensures Run(hash, s, actions[..k]).boots <= Run(hash, s, actions).boots
  {
    hide WorkerStep, Environment;
    if k == |actions| {
      assert actions[..k] == actions;
    } else {
      var init := actions[..|actions| - 1];
      BootsGrow(hash, s, init, k);
      assert init[..k] == actions[..k];
      EnvironmentBoots(Run(hash, s, init), actions[|actions| - 1]);
      WorkerBoots(hash, Run(hash, s, init), actions[|actions| - 1]);
    }
  }

  lemma PrefixServed(hash: Hash, s: State, actions: seq<Action>, k: nat)
    requires k <= |actions| && PastReads(hash, s, actions) && Dedicated(actions)
    ensures PastReads(hash, s, actions[..k]) && Dedicated(actions[..k])
  {
    hide ServesPast;
    forall i | 0 <= i < k ensures ServesPast(hash, s, actions[..k][..i], actions[..k][i]) {
      assert actions[..k][..i] == actions[..i];
    }
    assert forall a :: a in actions[..k] ==> a in actions;
  }

  lemma {:induction false} RunKeepsLedger(hash: Hash, s: State, actions: seq<Action>)
    requires Init(s) && PastReads(hash, s, actions) && Dedicated(actions)
    ensures Ledger(hash, Run(hash, s, actions))
    decreases |actions|
  {
    hide Inv, WorkerStep, Environment, PastReads, Dedicated, Step, Ledger;
    if actions == [] {
      EmptyLedger(hash, s);
    } else {
      var init, a := actions[..|actions| - 1], actions[|actions| - 1];
      PrefixServed(hash, s, actions, |init|);
      RunKeepsLedger(hash, s, init);
      RunKeepsInv(hash, s, init);
      Prefixes(hash, s, actions);
      var k :| 0 <= k <= |init| && Serves(Run(hash, s, init[..k]), a);
      PrefixServed(hash, s, init, k);
      RunKeepsLedger(hash, s, init[..k]);
      BootsGrow(hash, s, init, k);
      PastIsKnown(hash, Run(hash, s, init[..k]), Run(hash, s, init), a);
      LastDedicated(actions);
      StepKeepsLedger(hash, Run(hash, s, init), a);
    }
  }

  lemma EmptyLedger(hash: Hash, s: State)
    requires Init(s)
    ensures Ledger(hash, s)
  {}

  lemma PastIsKnown(hash: Hash, past: State, s: State, a: Action)
    requires Ledger(hash, past) && past.boots <= s.boots && Serves(past, a)
    ensures ServesKnown(s, a)
  {
    if a.Get? {
      NodeKnown(hash, past, a.node);
    }
  }

  lemma LastDedicated(actions: seq<Action>)
    requires actions != [] && Dedicated(actions)
    ensures Dedicated([actions[|actions| - 1]])
  {
    assert actions[|actions| - 1] in actions;
  }

  ghost predicate DistinctHashes(hash: Hash, boots: set<string>) {
    forall b, b' :: b in boots && b' in boots && b != b' ==> hash(b) != hash(b')
  }

  /** No boot is missed: once the annotation of a node is its boot ID, so that no reconcile looks at
      that boot again, a check was created for exactly that node and boot, or the node was
      initialised as one that was already old. Lagging caches, failures and recurring boot IDs do not
      matter. */
  lemma NoBootMissed(hash: Hash, s0: State, actions: seq<Action>, n: string)
    requires Init(s0) && PastReads(hash, s0, actions) && Dedicated(actions)
    requires var s := Run(hash, s0, actions);
             && DistinctHashes(hash, s.boots)
             && n in s.nodes && s.nodes[n].lastBootId == s.nodes[n].bootId != ""
    ensures var (log, boot) := (Run(hash, s0, actions).log, Run(hash, s0, actions).nodes[n].bootId);
            Created(n, boot) in log || Initialised(n, boot) in log
  {
    hide Ledger, DistinctHashes, Run, Init, PastReads, Dedicated;
    RunKeepsLedger(hash, s0, actions);
    SettledMeansChecked(hash, Run(hash, s0, actions), n);
  }

  lemma SettledMeansChecked(hash: Hash, s: State, n: string)
    requires Ledger(hash, s)
    requires DistinctHashes(hash, s.boots)
    requires n in s.nodes && s.nodes[n].lastBootId == s.nodes[n].bootId != ""
    ensures Created(n, s.nodes[n].bootId) in s.log || Initialised(n, s.nodes[n].bootId) in s.log
  {
    hide GenerateCNHName, IsRebootName, WorkerLedger, NameLedger, DistinctHashes;
    var boot := s.nodes[n].bootId;
    assert NodeLedger(s, n);
    var e :| e in s.log && Settles(e, n, boot);
    if e == Annotated(n, boot) {
      AnnotatedMeansCreated(hash, s, n, boot, e);
    }
  }

  lemma AnnotatedMeansCreated(hash: Hash, s: State, n: string, boot: string, e: Entry)
    requires Ledger(hash, s) && DistinctHashes(hash, s.boots) && e == Annotated(n, boot) && e in s.log
    ensures Created(n, boot) in s.log
  {
    hide GenerateCNHName, DistinctHashes, NodeLedger, WorkerLedger, NameLedger;
    assert EntryLedger(hash, s, e);
    var c := Owner(hash, s, n, boot);
    if boot != c.boot {
      HashesDiffer(hash, s.boots, boot, c.boot);
    }
    NamesInjective(hash, n, boot, c.node, c.boot);
  }

  lemma HashesDiffer(hash: Hash, boots: set<string>, b: string, b': string)
    requires DistinctHashes(hash, boots) && b in boots && b' in boots && b != b'
    ensures hash(b) != hash(b')
  {}

  lemma Owner(hash: Hash, s: State, n: string, b: string) returns (e: Entry)
    requires Ledger(hash, s) && GenerateCNHName(hash, n, b) in s.existed
    ensures e in s.log && Owns(hash, s.boots, e, GenerateCNHName(hash, n, b))
  {
    NameParts(hash, n, b);
    hide GenerateCNHName;
    var name := GenerateCNHName(hash, n, b);
    assert NameLedger(hash, s, name);
    e :| e in s.log && Owns(hash, s.boots, e, name);
  }
}
