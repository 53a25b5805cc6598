/** How often a boot is checked, in every run: whatever the cache serves, whatever fails, and whether
    or not boot IDs recur. */
module RebootLog {
  import opened Api
  import opened NodeConditions
  import opened NodeReboot

  // ----- What a step adds to the log -----

  ghost predicate Adds(hash: Hash, s: State, s': State, e: Entry) {
    && s'.log == s.log + [e]
    && match e
       case Created(n, b) =>
         var name := GenerateCNHName(hash, n, b);
         name !in s.cnhs && s'.cnhs == s.cnhs + {name}
       case Removed(c) => s'.cnhs == s.cnhs - {c}
       case _ => s'.cnhs == s.cnhs
  }

  ghost predicate Logs(hash: Hash, s: State, s': State, e: Option<Entry>) {
    match e
    case None => s'.log == s.log && s.cnhs <= s'.cnhs
    case Some(e) => Adds(hash, s, s', e)
  }

  lemma CreateLogs(hash: Hash, s: State, n: string, node: NodeObject, reply: Reply) returns (e: Option<Entry>)
    ensures Logs(hash, s, DoCreate(hash, s, n, node, reply), e)
    ensures var name := GenerateCNHName(hash, node.name, node.bootId);
            e == if reply.Refused? || name in s.cnhs then None else Some(Created(node.name, node.bootId))
  {
    hide GenerateCNHName;
    var name := GenerateCNHName(hash, node.name, node.bootId);
    e := if reply.Refused? || name in s.cnhs then None else Some(Created(node.name, node.bootId));
  }

  lemma AnnotateLogs(hash: Hash, s: State, n: string, node: NodeObject, checked: bool, reply: Reply) returns (e: Option<Entry>)
    ensures Logs(hash, s, DoAnnotate(s, n, node, checked, reply), e)
    ensures e.Some? ==> !e.value.Created?
  {
    hide GenerateCNHName;
    e := if reply.Refused? || n !in s.nodes then None
         else Some(if checked then Annotated(n, node.bootId) else Initialised(n, node.bootId));
  }

  lemma QuietSteps(hash: Hash, s: State)
    ensures forall n, pc :: Logs(hash, s, Go(s, n, pc), None)
    ensures forall n, read, t, reply :: Logs(hash, s, DoGet(s, n, read, t, reply), None)
    ensures Logs(hash, s, s, None)
  {
    hide Collected;
  }

  /** The one action that creates a check: the create call of a reconcile that has come to it, unless
      it is refused or a check of that name is there. */
  ghost predicate Creates(hash: Hash, s: State, a: Action, n: string, b: string) {
    && a.Create? && !a.reply.Refused?
    && WorkerOf(s, a.node).pc.Creating?
    && WorkerOf(s, a.node).pc.node.name == n && WorkerOf(s, a.node).pc.node.bootId == b
    && GenerateCNHName(hash, n, b) !in s.cnhs
  }

  lemma WorkerLogs(hash: Hash, s: State, a: Action) returns (e: Option<Entry>)
    ensures Logs(hash, s, WorkerStep(hash, s, a), e)
    ensures forall n, b :: e == Some(Created(n, b)) <==> Creates(hash, s, a, n, b)
  {
    hide Logs, Go, DoGet, DoCreate, DoAnnotate, Decision, Readiness, GenerateCNHName;
    QuietSteps(hash, s);
    e := None;
    match a
    case Create(n, reply) =>
      var pc := WorkerOf(s, n).pc;
      if pc.Creating? { e := CreateLogs(hash, s, n, pc.node, reply); }
    case Annotate(n, reply) =>
      var pc := WorkerOf(s, n).pc;
      if pc.Annotating? { e := AnnotateLogs(hash, s, n, pc.node, pc.checked, reply); }
    case _ =>
  }

  lemma StepLogs(hash: Hash, s: State, a: Action) returns (e: Option<Entry>)
    ensures Logs(hash, s, Step(hash, s, a), e)
    ensures forall n, b :: e == Some(Created(n, b)) <==> Creates(hash, s, a, n, b)
  {
    hide WorkerStep, GenerateCNHName;
    if Outside(a) {
      e := if a.CheckRemoved? && a.cnh in s.cnhs then Some(Removed(a.cnh)) else None;
    } else {
      e := WorkerLogs(hash, s, a);
    }
  }

  // ----- Between two creates lies a removal -----

  ghost predicate RemovedBetween(log: seq<Entry>, i: int, j: int, cnh: string) {
    exists k :: i < k < j && 0 <= k < |log| && log[k] == Removed(cnh)
  }

  ghost predicate RemovalsBetween(hash: Hash, log: seq<Entry>) {
    forall i, j :: 0 <= i < j < |log| && log[i] == log[j] && log[j].Created? ==>
      RemovedBetween(log, i, j, GenerateCNHName(hash, log[j].node, log[j].boot))
  }

  /** A check that was created is there, or has been removed since. */
  ghost predicate Present(hash: Hash, s: State) {
    forall i :: 0 <= i < |s.log| && s.log[i].Created? ==>
      var name := GenerateCNHName(hash, s.log[i].node, s.log[i].boot);
      name in s.cnhs || RemovedBetween(s.log, i, |s.log|, name)
  }

  lemma RemovedStays(log: seq<Entry>, log': seq<Entry>, i: int, j: int, j': int, cnh: string)
    requires RemovedBetween(log, i, j, cnh) && log <= log' && j <= j'
    ensures RemovedBetween(log', i, j', cnh)
  {
    var k :| i < k < j && 0 <= k < |log| && log[k] == Removed(cnh);
    assert log'[k] == Removed(cnh);
  }

  lemma RemovalsSnoc(hash: Hash, s: State, s': State, e: Entry)
    requires RemovalsBetween(hash, s.log) && Present(hash, s) && Adds(hash, s, s', e)
    ensures RemovalsBetween(hash, s'.log)
  {
    hide GenerateCNHName;
    var log, log' := s.log, s'.log;
    forall i, j | 0 <= i < j < |log'| && log'[i] == log'[j] && log'[j].Created?
      ensures RemovedBetween(log', i, j, GenerateCNHName(hash, log'[j].node, log'[j].boot))
    {
      var name := GenerateCNHName(hash, log'[j].node, log'[j].boot);
      assert log'[i] == log[i];
      assert RemovedBetween(log, i, j, name);
      RemovedStays(log, log', i, j, j, name);
    }
  }

  lemma PresentSnoc(hash: Hash, s: State, s': State, e: Entry)
    requires Present(hash, s) && Adds(hash, s, s', e)
    ensures Present(hash, s')
  {
    hide GenerateCNHName;
    var log, log' := s.log, s'.log;
    forall i | 0 <= i < |log'| && log'[i].Created?
      ensures var name := GenerateCNHName(hash, log'[i].node, log'[i].boot);
              name in s'.cnhs || RemovedBetween(log', i, |log'|, name)
    {
      var name := GenerateCNHName(hash, log'[i].node, log'[i].boot);
      if i < |log| {
        if RemovedBetween(log, i, |log|, name) {
          RemovedStays(log, log', i, |log|, |log'|, name);
        } else if e == Removed(name) {
          assert log'[|log|] == Removed(name);
        }
      }
    }
  }

  lemma {:induction false} RunLogs(hash: Hash, s: State, actions: seq<Action>)
    requires Init(s)
    ensures RemovalsBetween(hash, Run(hash, s, actions).log) && Present(hash, Run(hash, s, actions))
  {
    hide Step, RemovalsBetween, Adds, Present;
    if actions == [] {
      NoLog(hash, s);
    } else {
      var before := Run(hash, s, actions[..|actions| - 1]);
      RunLogs(hash, s, actions[..|actions| - 1]);
      var after := Step(hash, before, actions[|actions| - 1]);
      var e := StepLogs(hash, before, actions[|actions| - 1]);
      if e.Some? {
        RemovalsSnoc(hash, before, after, e.value);
        PresentSnoc(hash, before, after, e.value);
      } else {
        StillPresent(hash, before, after);
      }
    }
  }

  lemma StillPresent(hash: Hash, s: State, s': State)
    requires Present(hash, s) && s'.log == s.log && s.cnhs <= s'.cnhs
    ensures Present(hash, s')
  {
    hide GenerateCNHName;
  }

  lemma NoLog(hash: Hash, s: State)
    requires s.log == []
    ensures RemovalsBetween(hash, s.log) && Present(hash, s)
  {}

  /** In every run a check for (node, boot) is created again only after it has been removed. */
  lemma CreatedAgainOnlyAfterRemoval(hash: Hash, s0: State, actions: seq<Action>, n: string, b: string, i: nat, j: nat)
    requires Init(s0)
    requires var log := Run(hash, s0, actions).log; i < j < |log| && log[i] == log[j] == Created(n, b)
    ensures exists k :: i < k < j && Run(hash, s0, actions).log[k] == Removed(GenerateCNHName(hash, n, b))
  {
    hide GenerateCNHName;
    RunLogs(hash, s0, actions);
    assert RemovedBetween(Run(hash, s0, actions).log, i, j, GenerateCNHName(hash, n, b));
  }

  // ----- What a create depends on -----

  /** In every run a check for (n, b) is created by exactly the create calls above, each for a copy of
      the node whose boot ID was b and whose annotation was not. */
  lemma CreatedForTheCopy(hash: Hash, s0: State, actions: seq<Action>, a: Action, n: string, b: string)
    requires Init(s0)
    ensures var s := Run(hash, s0, actions);
            && (Step(hash, s, a).log == s.log + [Created(n, b)] <==> Creates(hash, s, a, n, b))
            && (Creates(hash, s, a, n, b) ==>
                  a.node == n && b != "" && WorkerOf(s, n).pc.node.lastBootId != b)
  {
    hide Inv, Run, Step, GenerateCNHName;
    RunKeepsInv(hash, s0, actions);
    var s := Run(hash, s0, actions);
    var e := StepLogs(hash, s, a);
    if Creates(hash, s, a, n, b) {
      HeldOk(hash, s, a.node);
    }
    if e.Some? {
      assert (s.log + [e.value])[|s.log|] == e.value;
      assert (s.log + [Created(n, b)])[|s.log|] == Created(n, b);
    }
  }

  /** The four steps of a reconcile that reads copy and finds it ready. */
  function CheckOf(copy: NodeObject, dns: Dns, t: Time): seq<Action> {
    [Get(copy.name, copy, t, Done), Decide(copy.name, t), CheckDns(copy.name, dns, t), Create(copy.name, Done)]
  }

  /** A copy that calls for a check. */
  predicate CallsForCheck(copy: NodeObject, dns: Dns, t: Time) {
    && Collected(copy.conditions, t) == copy.conditions
    && Decision(copy, t) == CheckingDns(copy)
    && IsNodeReadyForHealthCheck(copy, dns) == Yes
  }

  /** The copy alone decides: from any state with an idle worker and without a check of that name, a
      copy that calls for a check gets one, whatever the node's annotation is by now. */
  lemma LaggingCopyChecksAgain(hash: Hash, s: State, copy: NodeObject, dns: Dns)
    requires WorkerOf(s, copy.name).pc.Idle? && WorkerOf(s, copy.name).since <= s.now
    requires GenerateCNHName(hash, copy.name, copy.bootId) !in s.cnhs && CallsForCheck(copy, dns, s.now)
    ensures var s' := Run(hash, s, CheckOf(copy, dns, s.now));
            && s'.log == s.log + [Created(copy.name, copy.bootId)]
            && s'.cnhs == s.cnhs + {GenerateCNHName(hash, copy.name, copy.bootId)}
            && s'.nodes == s.nodes && s'.boots == s.boots && s'.now == s.now
            && copy.name in s'.workers && s'.workers[copy.name] == Worker(Annotating(copy, true), s.now)
  {
    hide Step, Run;
    var n := copy.name;
    var steps := CheckOf(copy, dns, s.now);
    RunOfFour(hash, s, steps);
    ReadStep(hash, s, copy, dns);
    var s1 := Go(s, n, Deciding(copy));
    DecideStep(hash, s1, copy, dns);
    var s2 := Go(s1, n, CheckingDns(copy));
    DnsStep(hash, s2, copy, dns);
    CreateStep(hash, Go(s2, n, Creating(copy)), copy);
  }

  lemma ReadStep(hash: Hash, s: State, copy: NodeObject, dns: Dns)
    requires WorkerOf(s, copy.name).pc.Idle? && WorkerOf(s, copy.name).since <= s.now && CallsForCheck(copy, dns, s.now)
    ensures Step(hash, s, Get(copy.name, copy, s.now, Done)) == Go(s, copy.name, Deciding(copy))
  {
    hide Environment, Collected;
  }

  lemma DecideStep(hash: Hash, s: State, copy: NodeObject, dns: Dns)
    requires copy.name in s.workers && s.workers[copy.name] == Worker(Deciding(copy), s.now) && CallsForCheck(copy, dns, s.now)
    ensures Step(hash, s, Decide(copy.name, s.now)) == Go(s, copy.name, CheckingDns(copy))
  {
    hide Environment, Collected, Decision;
  }

  lemma DnsStep(hash: Hash, s: State, copy: NodeObject, dns: Dns)
    requires copy.name in s.workers && s.workers[copy.name] == Worker(CheckingDns(copy), s.now) && CallsForCheck(copy, dns, s.now)
    ensures Step(hash, s, CheckDns(copy.name, dns, s.now)) == Go(s, copy.name, Creating(copy))
  {
    hide Environment, Collected, IsNodeReadyForHealthCheck;
  }

  lemma CreateStep(hash: Hash, s: State, copy: NodeObject)
    requires copy.name in s.workers && s.workers[copy.name].pc == Creating(copy)
    requires GenerateCNHName(hash, copy.name, copy.bootId) !in s.cnhs
    ensures Step(hash, s, Create(copy.name, Done)) == DoCreate(hash, s, copy.name, copy, Done)
  {
    hide Environment, GenerateCNHName;
  }

  lemma RunConcat(hash: Hash, s: State, a: seq<Action>, b: seq<Action>)
    ensures Run(hash, s, a + b) == Run(hash, Run(hash, s, a), b)
    decreases |b|
  {
    hide Step;
    if b == [] {
      assert a + b == a;
    } else {
      var init := b[..|b| - 1];
      assert (a + b)[..|a + b| - 1] == a + init;
      RunConcat(hash, s, a, init);
    }
  }

  lemma RunOfTwo(hash: Hash, s: State, a: Action, b: Action)
    ensures Run(hash, s, [a, b]) == Step(hash, Step(hash, s, a), b)
    ensures Run(hash, s, [a]) == Step(hash, s, a)
  {
    hide Step;
    var one, two := [a], [a, b];
    assert one[..|one| - 1] == [] && Run(hash, s, []) == s;
    assert Run(hash, s, one) == Step(hash, s, a);
    assert two[..|two| - 1] == one;
  }

  lemma RunOfFour(hash: Hash, s: State, a: seq<Action>)
    requires |a| == 4
    ensures Run(hash, s, a) == Step(hash, Step(hash, Step(hash, Step(hash, s, a[0]), a[1]), a[2]), a[3])
  {
    hide Step, Run;
    RunOfTwo(hash, s, a[0], a[1]);
    RunOfTwo(hash, Run(hash, s, [a[0], a[1]]), a[2], a[3]);
    RunConcat(hash, s, [a[0], a[1]], [a[2], a[3]]);
    assert a == [a[0], a[1]] + [a[2], a[3]];
  }

  // ----- Runs and their reads -----

  /** The read of a serves the node as it was in s. */
  predicate Serves(s: State, a: Action) {
    a.Get? ==> a.node in s.nodes && a.read == s.nodes[a.node]
  }

  /** The cache may lag: every read serves some version that the node has had. */
  ghost predicate PastReads(hash: Hash, s: State, actions: seq<Action>) {
    forall i :: 0 <= i < |actions| ==> ServesPast(hash, s, actions[..i], actions[i])
  }

  ghost predicate ServesPast(hash: Hash, s: State, before: seq<Action>, a: Action) {
    exists k :: 0 <= k <= |before| && Serves(Run(hash, s, before[..k]), a)
  }

  /** The cache does not lag: every read serves the node as it is. */
  ghost predicate CurrentReads(hash: Hash, s: State, actions: seq<Action>) {
    forall i :: 0 <= i < |actions| ==> Serves(Run(hash, s, actions[..i]), actions[i])
  }

  /** No step gives a node a boot ID that was ever used before. */
  ghost predicate FreshBoots(hash: Hash, s: State, actions: seq<Action>) {
    forall i :: 0 <= i < |actions| && actions[i].NodeBoots? ==> actions[i].boot !in Run(hash, s, actions[..i]).boots
  }

  lemma Prefixes(hash: Hash, s: State, actions: seq<Action>)
    requires actions != []
    ensures var (init, a) := (actions[..|actions| - 1], actions[|actions| - 1]);
            && (PastReads(hash, s, actions) ==> PastReads(hash, s, init) && ServesPast(hash, s, init, a))
            && (CurrentReads(hash, s, actions) ==> CurrentReads(hash, s, init) && Serves(Run(hash, s, init), a))
            && (FreshBoots(hash, s, actions) ==>
                  FreshBoots(hash, s, init) && (a.NodeBoots? ==> a.boot !in Run(hash, s, init).boots))
  {
    hide Run, Serves, ServesPast;
    var init := actions[..|actions| - 1];
    assert forall k :: 0 <= k <= |init| ==> init[..k] == actions[..k];
  }

  // ----- A lagging cache can have a boot checked twice -----

  const READY_LABELS := map[KARPENTER_CAPACITY_TYPE := "spot", KARPENTER_INITIALIZED := "true"]
  const READY_DNS := DnsDeployment(None, 1)

  function FreshNode(n: string, b: string, now: Time): NodeObject {
    NodeObject(n, 1, now, b, "", READY_LABELS, [])
  }

  lemma FreshCallsForCheck(n: string, b: string, now: Time)
    requires b != ""
    ensures CallsForCheck(FreshNode(n, b, now), READY_DNS, now)
  {}

  /** A node joins and boots; its check is created, its annotation moves, the check is removed; then
      the cache serves the node as it was before. */
  function CheckedTwice(hash: Hash, n: string, b: string, now: Time): seq<Action> {
    var check := CheckOf(FreshNode(n, b, now), READY_DNS, now);
    [NodeJoins(n, READY_LABELS), NodeBoots(n, b)] + check
    + [Annotate(n, Done), CheckRemoved(GenerateCNHName(hash, n, b))] + check
  }

  lemma JoinsAndBoots(hash: Hash, s: State, n: string, b: string)
    requires Init(s) && b != ""
    ensures var s' := Run(hash, s, [NodeJoins(n, READY_LABELS), NodeBoots(n, b)]);
            && s'.nodes == map[n := FreshNode(n, b, s.now)] && s'.boots == {b}
            && s'.now == s.now && s'.cnhs == {} && s'.workers == map[] && s'.log == []
  {
    hide Run, WorkerStep;
    RunOfTwo(hash, s, NodeJoins(n, READY_LABELS), NodeBoots(n, b));
  }

  lemma AnnotatesThenRemoved(hash: Hash, s: State, n: string, node: NodeObject, cnh: string)
    requires n in s.workers && s.workers[n] == Worker(Annotating(node, true), s.now) && n in s.nodes && cnh in s.cnhs
    ensures var s' := Run(hash, s, [Annotate(n, Done), CheckRemoved(cnh)]);
            && s'.log == s.log + [Annotated(n, node.bootId), Removed(cnh)]
            && s'.cnhs == s.cnhs - {cnh} && s'.now == s.now && s'.boots == s.boots
            && n in s'.workers && s'.workers[n] == Worker(Idle(RequeueLater), s.now)
            && n in s'.nodes && s'.nodes[n].lastBootId == node.bootId
  {
    hide Run, Step;
    RunOfTwo(hash, s, Annotate(n, Done), CheckRemoved(cnh));
    AnnotateStep(hash, s, n, node);
    var s1 := DoAnnotate(s, n, node, true, Done);
    assert Step(hash, s1, CheckRemoved(cnh)) == s1.(cnhs := s1.cnhs - {cnh}, log := s1.log + [Removed(cnh)]) by { RemovedStep(hash, s1, cnh); }
  }

  lemma RemovedStep(hash: Hash, s: State, cnh: string)
    requires cnh in s.cnhs
    ensures Step(hash, s, CheckRemoved(cnh)) == s.(cnhs := s.cnhs - {cnh}, log := s.log + [Removed(cnh)])
  {}

  lemma AnnotateStep(hash: Hash, s: State, n: string, node: NodeObject)
    requires n in s.workers && s.workers[n].pc == Annotating(node, true)
    ensures Step(hash, s, Annotate(n, Done)) == DoAnnotate(s, n, node, true, Done)
  {
    hide Environment;
  }

  /** So with a lagging cache a boot that is settled can be checked again, although boot IDs never
      recur and every read serves a version that the node has had. */
  lemma LaggingCacheChecksTwice(hash: Hash, s0: State, n: string, b: string)
    requires Init(s0) && b != ""
    ensures var steps := CheckedTwice(hash, n, b, s0.now);
            && PastReads(hash, s0, steps) && FreshBoots(hash, s0, steps)
            && Run(hash, s0, steps).log == [Created(n, b), Annotated(n, b), Removed(GenerateCNHName(hash, n, b)), Created(n, b)]
  {
    hide Run, Step, GenerateCNHName, CallsForCheck, PastReads, FreshBoots;
    var copy := FreshNode(n, b, s0.now);
    var name := GenerateCNHName(hash, n, b);
    var check := CheckOf(copy, READY_DNS, s0.now);
    var p1 := [NodeJoins(n, READY_LABELS), NodeBoots(n, b)];
    var p3 := [Annotate(n, Done), CheckRemoved(name)];
    FreshCallsForCheck(n, b, s0.now);
    JoinsAndBoots(hash, s0, n, b);
    RunConcat(hash, s0, p1, check);
    LaggingCopyChecksAgain(hash, Run(hash, s0, p1), copy, READY_DNS);
    RunConcat(hash, s0, p1 + check, p3);
    AnnotatesThenRemoved(hash, Run(hash, s0, p1 + check), n, copy, name);
    RunConcat(hash, s0, p1 + check + p3, check);
    LaggingCopyChecksAgain(hash, Run(hash, s0, p1 + check + p3), copy, READY_DNS);
    CheckedTwiceServed(hash, s0, n, b);
  }

  lemma CheckedTwiceShape(hash: Hash, n: string, b: string, now: Time)
    ensures var steps := CheckedTwice(hash, n, b, now);
            && |steps| == 12
            && steps[0] == NodeJoins(n, READY_LABELS) && steps[1] == NodeBoots(n, b)
            && (forall i :: 0 <= i < 12 && steps[i].NodeBoots? ==> i == 1)
            && (forall i :: 0 <= i < 12 && steps[i].Get? ==> i >= 2 && steps[i] == Get(n, FreshNode(n, b, now), now, Done))
  {
    hide GenerateCNHName;
  }

  lemma CheckedTwiceServed(hash: Hash, s0: State, n: string, b: string)
    requires Init(s0) && b != ""
    ensures var steps := CheckedTwice(hash, n, b, s0.now); PastReads(hash, s0, steps) && FreshBoots(hash, s0, steps)
  {
    hide Run, Step, CheckedTwice;
    var steps := CheckedTwice(hash, n, b, s0.now);
    CheckedTwiceShape(hash, n, b, s0.now);
    JoinsAndBoots(hash, s0, n, b);
    RunOfTwo(hash, s0, steps[0], steps[1]);
    forall i | 0 <= i < |steps| ensures ServesPast(hash, s0, steps[..i], steps[i]) {
      if steps[i].Get? {
        assert steps[..i][..2] == [steps[0], steps[1]];
        assert Serves(Run(hash, s0, steps[..i][..2]), steps[i]);
      } else {
        assert Serves(Run(hash, s0, steps[..i][..0]), steps[i]);
      }
    }
    JoinStep(hash, s0, n);
    assert steps[..1] == [steps[0]];
  }

  lemma JoinStep(hash: Hash, s: State, n: string)
    requires Init(s)
    ensures Step(hash, s, NodeJoins(n, READY_LABELS)).boots == {}
  {
    hide WorkerStep;
  }
}
