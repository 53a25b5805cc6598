/** When the annotation of a node moves without a reason, in every run: the patch acts on the node as it is
    by then, while the reconcile decided on a copy that a lagging cache served, or on another node of the
    same name. */
module RebootAnnotation {
  import opened Api
  import opened NodeConditions
  import opened NodeReboot
  import opened RebootLog

  /** A step that leaves n the node it is. */
  ghost predicate Stays(s: State, s': State, n: string) {
    n in s.nodes && n in s'.nodes && s'.nodes[n].uid == s.nodes[n].uid
  }

  predicate FirstAnnotation(node: NodeObject, now: Time) {
    node.lastBootId == "" && now - node.created >= NEW_NODE_THRESHOLD
  }

  /** The annotation of n moves to a boot for which no check has ever existed, and it is not the first
      annotation of a node that is no longer new. */
  ghost predicate Unjustified(hash: Hash, s: State, s': State, n: string)
    requires Stays(s, s', n)
  {
    && s'.nodes[n].lastBootId != s.nodes[n].lastBootId
    && GenerateCNHName(hash, n, s'.nodes[n].lastBootId) !in s.existed
    && !FirstAnnotation(s.nodes[n], s.now)
  }

  /** Exactly this moves an annotation without a reason, in every run and whatever the cache serves: the
      unrefused patch of a reconcile that found its copy unannotated and old, while the node has another
      annotation or is new, and no check for the copy's boot has existed. */
  lemma UnjustifiedIff(hash: Hash, s0: State, actions: seq<Action>, a: Action, n: string)
    requires Init(s0) && Stays(Run(hash, s0, actions), Step(hash, Run(hash, s0, actions), a), n)
    ensures var s := Run(hash, s0, actions);
            var (node, pc) := (s.nodes[n], WorkerOf(s, n).pc);
            Unjustified(hash, s, Step(hash, s, a), n) <==>
              && a.Annotate? && a.node == n && !a.reply.Refused?
              && pc.Annotating? && !pc.checked && pc.node.bootId != node.lastBootId
              && GenerateCNHName(hash, n, pc.node.bootId) !in s.existed
              && !FirstAnnotation(node, s.now)
  {
    hide GenerateCNHName, Inv, Run, Step, FirstAnnotation;
    RunKeepsInv(hash, s0, actions);
    RebootsStayDetectable(hash, s0, actions, a, n);
    var s := Run(hash, s0, actions);
    if a.Annotate? && a.node == n {
      PatchMoves(hash, s, n, a.reply);
    }
  }

  lemma PatchMoves(hash: Hash, s: State, n: string, reply: Reply)
    requires Inv(hash, s) && n in s.nodes
    ensures var (s', pc) := (Step(hash, s, Annotate(n, reply)), WorkerOf(s, n).pc);
            && n in s'.nodes
            && s'.nodes[n].lastBootId == (if pc.Annotating? && !reply.Refused? then pc.node.bootId else s.nodes[n].lastBootId)
            && (pc.Annotating? && pc.checked ==> GenerateCNHName(hash, n, pc.node.bootId) in s.existed)
            && (pc.Annotating? && !pc.checked ==> FirstAnnotation(pc.node, s.now))
  {
    hide Environment, GenerateCNHName, Inv;
    if WorkerOf(s, n).pc.Annotating? {
      HeldOk(hash, s, n);
    }
  }

  /** Reboots stay detectable: in every run the annotation of a node becomes b only if the check named for
      (node, b) has existed or it is the first annotation of a node that is no longer new - provided the
      copy that was read has the creation time and the annotation that the node has now. */
  lemma AnnotatedOnlyWhenChecked(hash: Hash, s0: State, actions: seq<Action>, a: Action, n: string)
    requires Init(s0)
    requires var s := Run(hash, s0, actions);
             && Stays(s, Step(hash, s, a), n)
             && var pc := WorkerOf(s, n).pc;
                pc.Annotating? ==> pc.node.created == s.nodes[n].created && pc.node.lastBootId == s.nodes[n].lastBootId
    ensures var s := Run(hash, s0, actions); !Unjustified(hash, s, Step(hash, s, a), n)
  {
    hide GenerateCNHName, Inv, Run, Step;
    UnjustifiedIff(hash, s0, actions, a, n);
    RunKeepsInv(hash, s0, actions);
    if a.Annotate? && a.node == n {
      PatchMoves(hash, Run(hash, s0, actions), n, a.reply);
    }
  }

  // ----- A copy that lags behind its own node -----

  /** The reconcile that reads copy as an old node without annotation. */
  function Initialisation(copy: NodeObject, t: Time): seq<Action> {
    [Get(copy.name, copy, t, Done), Decide(copy.name, t), Annotate(copy.name, Done)]
  }

  /** The copy alone decides here too: from any state with an idle worker, a copy without annotation that
      is old enough gives the node its boot ID, whatever the annotation is by now. */
  lemma LaggingCopyInitialises(hash: Hash, s: State, copy: NodeObject)
    requires WorkerOf(s, copy.name).pc.Idle? && WorkerOf(s, copy.name).since <= s.now && copy.name in s.nodes
    requires copy.conditions == [] && copy.bootId != "" && FirstAnnotation(copy, s.now)
    ensures var n := copy.name;
            var (before, s') := (Run(hash, s, Initialisation(copy, s.now)[..2]), Run(hash, s, Initialisation(copy, s.now)));
            && before.nodes == s.nodes && before.existed == s.existed && before.now == s.now
            && s' == Step(hash, before, Annotate(n, Done))
            && s'.nodes == s.nodes[n := s.nodes[n].(lastBootId := copy.bootId)]
            && s'.existed == s.existed && s'.boots == s.boots && s'.now == s.now
            && WorkerOf(s', n) == Worker(Idle(RequeueLater), s.now)
  {
    hide Step, Run;
    var n, steps := copy.name, Initialisation(copy, s.now);
    assert steps[..2] == [steps[0], steps[1]] && steps == steps[..2] + [steps[2]];
    RunOfTwo(hash, s, steps[0], steps[1]);
    RunConcat(hash, s, steps[..2], [steps[2]]);
    RunOfTwo(hash, Run(hash, s, steps[..2]), steps[2], steps[2]);
    Initialises(hash, s, copy);
  }

  lemma Initialises(hash: Hash, s: State, copy: NodeObject)
    requires WorkerOf(s, copy.name).pc.Idle? && WorkerOf(s, copy.name).since <= s.now
    requires copy.conditions == [] && copy.bootId != "" && FirstAnnotation(copy, s.now)
    ensures var n := copy.name;
            var s2 := Step(hash, Step(hash, s, Get(n, copy, s.now, Done)), Decide(n, s.now));
            && s2 == Go(s, n, Annotating(copy, false))
            && Step(hash, s2, Annotate(n, Done)) == DoAnnotate(s2, n, copy, false, Done)
  {
    hide Step, DoAnnotate;
    var n := copy.name;
    var s1, s2 := Go(s, n, Deciding(copy)), Go(s, n, Annotating(copy, false));
    ReadsCopy(hash, s, copy);
    DecidesOld(hash, s1, copy);
    assert Go(s1, n, Annotating(copy, false)) == s2;
    Patches(hash, s2, n, copy);
  }

  lemma ReadsCopy(hash: Hash, s: State, copy: NodeObject)
    requires WorkerOf(s, copy.name).pc.Idle? && WorkerOf(s, copy.name).since <= s.now && copy.conditions == []
    ensures Step(hash, s, Get(copy.name, copy, s.now, Done)) == Go(s, copy.name, Deciding(copy))
  {
    hide Environment, Go;
  }

  lemma DecidesOld(hash: Hash, s: State, copy: NodeObject)
    requires copy.name in s.workers && s.workers[copy.name] == Worker(Deciding(copy), s.now)
    requires copy.bootId != "" && FirstAnnotation(copy, s.now)
    ensures Step(hash, s, Decide(copy.name, s.now)) == Go(s, copy.name, Annotating(copy, false))
  {
    hide Environment, Go;
  }

  lemma Patches(hash: Hash, s: State, n: string, copy: NodeObject)
    requires n in s.workers && s.workers[n].pc == Annotating(copy, false)
    ensures Step(hash, s, Annotate(n, Done)) == DoAnnotate(s, n, copy, false, Done)
  {
    hide Environment, DoAnnotate;
  }

  function OldNode(n: string, b: string, now: Time): NodeObject {
    NodeObject(n, 1, now, b, "", map[], [])
  }

  /** A node joins, boots, grows old and boots again. */
  function Reboots(n: string, b1: string, b2: string): seq<Action> {
    [NodeJoins(n, map[]), NodeBoots(n, b1), Tick(NEW_NODE_THRESHOLD), NodeBoots(n, b2)]
  }

  /** Then a reconcile reads it as it is, and the next one as it was before the second boot. */
  function LaggingRun(n: string, b1: string, b2: string, now: Time): seq<Action> {
    Reboots(n, b1, b2)
    + Initialisation(OldNode(n, b2, now), now + NEW_NODE_THRESHOLD)
    + Initialisation(OldNode(n, b1, now), now + NEW_NODE_THRESHOLD)
  }

  /** So the condition on the copy is needed even if no node is ever replaced: with a cache that serves past
      versions of one and the same node, and boot IDs that never recur, the annotation goes back to an
      earlier boot for which no check has ever existed. */
  lemma LaggingCacheMovesBack(hash: Hash, s0: State, n: string, b1: string, b2: string)
    requires Init(s0) && b1 != "" && b2 != "" && b1 != b2
    ensures var steps := LaggingRun(n, b1, b2, s0.now);
            var (before, after) := (Run(hash, s0, steps[..9]), Run(hash, s0, steps));
            && |steps| == 10 && PastReads(hash, s0, steps) && FreshBoots(hash, s0, steps)
            && Stays(before, after, n) && Unjustified(hash, before, after, n)
            && before.nodes[n].lastBootId == before.nodes[n].bootId == b2
            && after.nodes[n].lastBootId == b1 && after.existed == {}
  {
    hide Run, Step, GenerateCNHName, PastReads, FreshBoots;
    var later := s0.now + NEW_NODE_THRESHOLD;
    var (copy1, copy2) := (OldNode(n, b1, s0.now), OldNode(n, b2, s0.now));
    var (p, i1, i2) := (Reboots(n, b1, b2), Initialisation(copy1, later), Initialisation(copy2, later));
    var steps := LaggingRun(n, b1, b2, s0.now);
    RunReboots(hash, s0, n, b1, b2);
    var s1 := Run(hash, s0, p);
    LaggingCopyInitialises(hash, s1, copy2);
    RunConcat(hash, s0, p, i2);
    var s2 := Run(hash, s1, i2);
    LaggingCopyInitialises(hash, s2, copy1);
    RunConcat(hash, s0, p + i2, i1);
    RunConcat(hash, s0, p + i2, i1[..2]);
    assert steps == p + i2 + i1 && steps[..9] == p + i2 + i1[..2];
    LaggingRunServed(hash, s0, n, b1, b2);
  }

  lemma RunReboots(hash: Hash, s: State, n: string, b1: string, b2: string)
    requires Init(s) && b1 != "" && b2 != ""
    ensures var p := Reboots(n, b1, b2);
            var s' := Run(hash, s, p);
            && Run(hash, s, p[..1]).boots == {}
            && n in Run(hash, s, p[..2]).nodes && Run(hash, s, p[..2]).nodes[n] == OldNode(n, b1, s.now)
            && Run(hash, s, p[..3]).boots == {b1}
            && n in s'.nodes && s'.nodes[n] == OldNode(n, b2, s.now) && s'.boots == {b1, b2}
            && s'.workers == map[] && s'.existed == {} && s'.now == s.now + NEW_NODE_THRESHOLD
  {
    hide Run, Step;
    var p := Reboots(n, b1, b2);
    RunOfFour(hash, s, p);
    RunOfTwo(hash, s, p[0], p[1]);
    assert p[..1] == [p[0]] && p[..2] == [p[0], p[1]] && p[..3] == p[..2] + [p[2]];
    RunConcat(hash, s, p[..2], [p[2]]);
    var s2 := Run(hash, s, p[..2]);
    RunOfTwo(hash, s2, p[2], p[3]);
    JoinsAgain(hash, s, n);
    Boots(hash, Step(hash, s, p[0]), n, b1);
    Ticks(hash, s2, NEW_NODE_THRESHOLD);
    Boots(hash, Step(hash, s2, p[2]), n, b2);
  }

  lemma LaggingRunServed(hash: Hash, s0: State, n: string, b1: string, b2: string)
    requires Init(s0) && b1 != "" && b2 != "" && b1 != b2
    ensures var steps := LaggingRun(n, b1, b2, s0.now); PastReads(hash, s0, steps) && FreshBoots(hash, s0, steps)
  {
    hide Run, Step, OldNode;
    var (steps, p) := (LaggingRun(n, b1, b2, s0.now), Reboots(n, b1, b2));
    RunReboots(hash, s0, n, b1, b2);
    forall k | 0 <= k <= 4 ensures steps[..k] == p[..k] {}
    assert p[..4] == p;
    OldNodesName(n, b1, b2, s0.now);
    forall i | 0 <= i < |steps| ensures ServesPast(hash, s0, steps[..i], steps[i]) {
      var k := if i == 4 then 4 else if i == 7 then 2 else 0;
      assert steps[..i][..k] == p[..k];
      assert Serves(Run(hash, s0, steps[..i][..k]), steps[i]);
    }
  }

  lemma OldNodesName(n: string, b1: string, b2: string, now: Time)
    ensures OldNode(n, b1, now).name == n && OldNode(n, b2, now).name == n
  {}

  // ----- A node that is replaced under its name -----

  /** The condition that the reconcile has read the very node it patches is needed: the patch goes by
      name, and a node re-created in between gets the boot ID of its predecessor although it is new
      and no check has ever existed. */
  function Replaced(n: string, b: string, now: Time): seq<Action> {
    var later := now + NEW_NODE_THRESHOLD;
    [NodeJoins(n, map[]), NodeBoots(n, b)] + [Tick(NEW_NODE_THRESHOLD), Get(n, NodeObject(n, 1, now, b, "", map[], []), later, Done)]
    + [Decide(n, later), NodeLeaves(n)] + [NodeJoins(n, map[]), Annotate(n, Done)]
  }

  lemma Joins(hash: Hash, s: State, n: string, b: string)
    requires n !in s.nodes && b != ""
    ensures var s' := Step(hash, Step(hash, s, NodeJoins(n, map[])), NodeBoots(n, b));
            && n in s'.nodes && s'.nodes[n] == NodeObject(n, s.lastUid + 1, s.now, b, "", map[], [])
            && s'.workers == s.workers && s'.now == s.now && s'.existed == s.existed
  {
    hide Step;
    JoinsAgain(hash, s, n);
    Boots(hash, Step(hash, s, NodeJoins(n, map[])), n, b);
  }

  lemma Boots(hash: Hash, s: State, n: string, b: string)
    requires n in s.nodes && b != ""
    ensures var s' := Step(hash, s, NodeBoots(n, b));
            && s'.nodes == s.nodes[n := s.nodes[n].(bootId := b)] && s'.boots == s.boots + {b}
            && s'.workers == s.workers && s'.now == s.now && s'.existed == s.existed
  {
    hide WorkerStep;
  }

  lemma Reads(hash: Hash, s: State, n: string, age: nat)
    requires n in s.nodes && n !in s.workers && s.nodes[n].conditions == [] && s.nodes[n].name == n
    ensures var s' := Step(hash, Step(hash, s, Tick(age)), Get(n, s.nodes[n], s.now + age, Done));
            && s'.nodes == s.nodes && s'.now == s.now + age && s'.existed == s.existed
            && n in s'.workers && s'.workers[n] == Worker(Deciding(s.nodes[n]), s'.now)
  {
    hide Step;
    Ticks(hash, s, age);
    ReadsQuietly(hash, Step(hash, s, Tick(age)), n);
  }

  lemma Ticks(hash: Hash, s: State, age: nat)
    ensures Step(hash, s, Tick(age)) == s.(now := s.now + age)
  {
    hide WorkerStep;
  }

  lemma ReadsQuietly(hash: Hash, s: State, n: string)
    requires n in s.nodes && n !in s.workers && s.nodes[n].conditions == [] && s.nodes[n].name == n
    ensures Step(hash, s, Get(n, s.nodes[n], s.now, Done)) == Go(s, n, Deciding(s.nodes[n]))
  {
    hide Environment;
  }

  lemma Leaves(hash: Hash, s: State, n: string, node: NodeObject)
    requires n in s.workers && s.workers[n] == Worker(Deciding(node), s.now)
    requires node.bootId != "" && node.lastBootId == "" && s.now - node.created >= NEW_NODE_THRESHOLD
    ensures var s' := Step(hash, Step(hash, s, Decide(n, s.now)), NodeLeaves(n));
            && n !in s'.nodes && s'.now == s.now && s'.existed == s.existed
            && n in s'.workers && s'.workers[n].pc == Annotating(node, false)
  {}

  lemma Returns(hash: Hash, s: State, n: string, node: NodeObject)
    requires n !in s.nodes && n in s.workers && s.workers[n].pc == Annotating(node, false)
    ensures var s' := Step(hash, Step(hash, s, NodeJoins(n, map[])), Annotate(n, Done));
            && n in s'.nodes && s'.nodes[n].lastBootId == node.bootId && s'.nodes[n].bootId == ""
            && s'.nodes[n].created == s'.now && s'.existed == s.existed
  {
    hide Step;
    JoinsAgain(hash, s, n);
    AnnotatesAgain(hash, Step(hash, s, NodeJoins(n, map[])), n, node);
  }

  lemma JoinsAgain(hash: Hash, s: State, n: string)
    requires n !in s.nodes
    ensures var s' := Step(hash, s, NodeJoins(n, map[]));
            && s'.nodes == s.nodes[n := NodeObject(n, s.lastUid + 1, s.now, "", "", map[], [])] && s'.boots == s.boots
            && s'.workers == s.workers && s'.now == s.now && s'.existed == s.existed
  {
    hide WorkerStep;
  }

  lemma AnnotatesAgain(hash: Hash, s: State, n: string, node: NodeObject)
    requires n in s.nodes && n in s.workers && s.workers[n].pc == Annotating(node, false)
    ensures var s' := Step(hash, s, Annotate(n, Done));
            && s'.nodes == s.nodes[n := s.nodes[n].(lastBootId := node.bootId)]
            && s'.now == s.now && s'.existed == s.existed
  {
    hide Environment;
  }

  /** Node n carries the boot ID b as its annotation, although it is new and no check named for them
      has ever existed. */
  ghost predicate Misannotated(hash: Hash, s: State, n: string, b: string) {
    && n in s.nodes && s.nodes[n].lastBootId == b
    && s.now - s.nodes[n].created < NEW_NODE_THRESHOLD
    && GenerateCNHName(hash, n, b) !in s.existed
  }

  /** Whenever a reconcile is about to initialise the annotation of a node it has read, and the node that
      now has the name is another one, new, not yet annotated with that boot ID, and no such check has
      existed, the patch mis-annotates it exactly if it is not refused. */
  lemma ReplacedNodeMisannotatedIff(hash: Hash, s: State, n: string, copy: NodeObject, reply: Reply)
    requires WorkerOf(s, n).pc == Annotating(copy, false)
    requires n in s.nodes && s.nodes[n].uid != copy.uid && s.now - s.nodes[n].created < NEW_NODE_THRESHOLD
    requires s.nodes[n].lastBootId != copy.bootId && GenerateCNHName(hash, n, copy.bootId) !in s.existed
    ensures Misannotated(hash, Step(hash, s, Annotate(n, reply)), n, copy.bootId) <==> !reply.Refused?
  {
    hide GenerateCNHName, Environment;
  }

  lemma ReplacedNodeMisannotated(hash: Hash, s0: State, n: string, b: string)
    requires Init(s0) && b != ""
    ensures var s := Run(hash, s0, Replaced(n, b, s0.now));
            && n in s.nodes && s.nodes[n].lastBootId == b && s.nodes[n].bootId == ""
            && s.now - s.nodes[n].created < NEW_NODE_THRESHOLD
            && s.existed == {}
  {
    hide Run, Step, GenerateCNHName, WorkerOf;
    var later := s0.now + NEW_NODE_THRESHOLD;
    var node := NodeObject(n, 1, s0.now, b, "", map[], []);
    var p1 := [NodeJoins(n, map[]), NodeBoots(n, b)];
    var p2 := p1 + [Tick(NEW_NODE_THRESHOLD), Get(n, node, later, Done)];
    var p3 := p2 + [Decide(n, later), NodeLeaves(n)];
    RunPair(hash, s0, [], NodeJoins(n, map[]), NodeBoots(n, b));
    assert [] + p1 == p1;
    Joins(hash, s0, n, b);
    var s1 := Run(hash, s0, p1);
    RunPair(hash, s0, p1, Tick(NEW_NODE_THRESHOLD), Get(n, node, later, Done));
    Reads(hash, s1, n, NEW_NODE_THRESHOLD);
    RunPair(hash, s0, p2, Decide(n, later), NodeLeaves(n));
    Leaves(hash, Run(hash, s0, p2), n, s1.nodes[n]);
    RunPair(hash, s0, p3, NodeJoins(n, map[]), Annotate(n, Done));
    Returns(hash, Run(hash, s0, p3), n, s1.nodes[n]);
  }

  lemma RunPair(hash: Hash, s: State, init: seq<Action>, a: Action, b: Action)
    ensures Run(hash, s, init + [a, b]) == Step(hash, Step(hash, Run(hash, s, init), a), b)
    ensures Run(hash, s, []) == s
  {
    hide Step;
    var all := init + [a, b];
    assert all[..|all| - 1] == init + [a];
    assert (init + [a])[..|init|] == init;
  }

  // ----- Create first, then annotate -----

  ghost predicate CreatesAt(hash: Hash, s: State, actions: seq<Action>, n: string, node: NodeObject, k: nat)
    requires k < |actions|
  {
    actions[k] == Create(n, Done) && WorkerOf(Run(hash, s, actions[..k]), n).pc == Creating(node)
  }

  /** Where a reconcile that wanted a check can have come to without reading again. */
  ghost predicate OnItsWay(hash: Hash, s: State, actions: seq<Action>, n: string, node: NodeObject) {
    var pc := WorkerOf(Run(hash, s, actions), n).pc;
    || pc == CheckingDns(node) || pc == Creating(node) || pc.Idle?
    || (pc == Annotating(node, true) && exists k :: 0 <= k < |actions| && CreatesAt(hash, s, actions, n, node, k))
  }

  lemma {:induction false} CheckProgress(hash: Hash, s: State, actions: seq<Action>, n: string, node: NodeObject)
    requires WorkerOf(s, n).pc == CheckingDns(node)
    requires forall a :: a in actions && a.Get? ==> a.node != n
    ensures OnItsWay(hash, s, actions, n, node)
  {
    hide Step;
    if actions != [] {
      var init, a := actions[..|actions| - 1], actions[|actions| - 1];
      CheckProgress(hash, s, init, n, node);
      var before := Run(hash, s, init);
      if WorkerOf(before, n).pc == Annotating(node, true) {
        var k :| 0 <= k < |init| && CreatesAt(hash, s, init, n, node, k);
        assert actions[..k] == init[..k];
        assert CreatesAt(hash, s, actions, n, node, k);
      }
      if WorkerOf(Step(hash, before, a), n).pc != WorkerOf(before, n).pc {
        ProgramMoves(hash, before, a, n);
        assert a in actions;
        if a == Create(n, Done) && WorkerOf(before, n).pc == Creating(node) {
          assert CreatesAt(hash, s, actions, n, node, |init|);
        }
      }
    }
  }

  /** How the program of a reconcile goes on, but for its read. */
  lemma ProgramMoves(hash: Hash, s: State, a: Action, n: string)
    requires WorkerOf(Step(hash, s, a), n).pc != WorkerOf(s, n).pc && !(a.Get? && a.node == n)
    ensures var (pc, next) := (WorkerOf(s, n).pc, WorkerOf(Step(hash, s, a), n).pc);
            || next.Idle? || pc.Deciding?
            || (pc.CheckingDns? && next == Creating(pc.node))
            || (pc.Creating? && a == Create(n, Done) && next == Annotating(pc.node, true))
  {
    hide Decision, GenerateCNHName, IsNodeReadyForHealthCheck, NotReadyExceeds;
    if Outside(a) {
      OutsideMovesNoWorker(s, a);
    } else if a.node != n {
      WorkersBeside(hash, s, a, n);
    }
  }

  lemma OutsideMovesNoWorker(s: State, a: Action)
    ensures Environment(s, a).workers == s.workers
  {}

  /** Create, then persist: whenever a reconcile that found the boot ID changed has come to the patch
      without reading again, its create call was acknowledged before, whatever happened in between. */
  lemma PatchFollowsCreate(hash: Hash, s: State, actions: seq<Action>, n: string, node: NodeObject) returns (k: nat)
    requires WorkerOf(s, n).pc == CheckingDns(node) && WorkerOf(Run(hash, s, actions), n).pc.Annotating?
    requires forall a :: a in actions && a.Get? ==> a.node != n
    ensures k < |actions| && CreatesAt(hash, s, actions, n, node, k)
    ensures WorkerOf(Run(hash, s, actions), n).pc == Annotating(node, true)
  {
    hide Run;
    CheckProgress(hash, s, actions, n, node);
    k :| 0 <= k < |actions| && CreatesAt(hash, s, actions, n, node, k);
  }
}
