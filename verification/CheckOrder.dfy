/** The order of the calls of one reconcile, in every run: what a worker has done when it comes to remove
    the finalizer. */
module CheckOrder {
  import opened Api
  import opened CheckProtocol
  import opened ApiServer

  ghost predicate NoGet(actions: seq<Action>, w: nat) {
    forall a :: a in actions && a.Get? ==> a.w != w
  }

  /** Worker w deleted the pods of todo, in that order, and every call was acknowledged. */
  ghost predicate DeletedInOrder(s: State, actions: seq<Action>, w: nat, cnh: Cnh, todo: seq<Pod>)
    decreases |todo|
  {
    todo == [] || exists k :: 0 <= k < |actions| && DeletesAt(s, actions, w, cnh, todo, k)
                              && DeletedInOrder(Run(s, actions[..k + 1]), actions[k + 1..], w, cnh, todo[1..])
  }

  /** The k-th action deletes the first pod of todo. */
  ghost predicate DeletesAt(s: State, actions: seq<Action>, w: nat, cnh: Cnh, todo: seq<Pod>, k: nat)
    requires k < |actions|
  {
    actions[k] == DeletePod(w, Done) && PcOf(Run(s, actions[..k]), w) == DeletingPods(cnh, todo, ThenRemoveFinalizer)
  }

  /** The k-th action lists the pods of the resource. */
  ghost predicate ListsAt(s: State, actions: seq<Action>, w: nat, cnh: Cnh, listed: seq<Pod>, k: nat)
    requires k < |actions|
  {
    actions[k] == ListForCleanup(w, listed) && PcOf(Run(s, actions[..k]), w) == ListingForCleanup(cnh, ThenRemoveFinalizer)
  }

  /** The finalizer goes last: whenever a worker that set out to list the pods of a deleted resource has come
      to removing the finalizer in the same reconcile, it has listed them and then deleted every listed
      pod, in order and acknowledged; whatever happened in between. */
  lemma {:induction false} FinalizerGoesLast(s: State, actions: seq<Action>, w: nat, cnh: Cnh) returns (k: nat, listed: seq<Pod>)
    requires PcOf(s, w) == ListingForCleanup(cnh, ThenRemoveFinalizer) && NoGet(actions, w)
    requires PcOf(Run(s, actions), w).RemovingFinalizer?
    ensures k < |actions| && ListsAt(s, actions, w, cnh, listed, k)
    ensures DeletedInOrder(Run(s, actions[..k + 1]), actions[k + 1..], w, cnh, listed)
    ensures PcOf(Run(s, actions), w) == RemovingFinalizer(cnh)
    decreases |actions|
  {
    hide Step, DeletedInOrder;
    assert actions != [];
    var a, rest := actions[0], actions[1..];
    var s1 := Step(s, a);
    assert actions[..1] == [a] && actions[..0] == [] && Run(s, [a]) == s1 by { OneStep(s, a); }
    if PcOf(s1, w) == PcOf(s, w) {
      k, listed := FinalizerGoesLast(s1, rest, w, cnh);
      Shift(s, actions, k);
      k := k + 1;
    } else {
      ListingMoves(s, w, a);
      if PcOf(s1, w).Idle? {
        StaysIdle(s1, rest, w);
        assert false;
      }
      k, listed := 0, a.listed;
      Deletes(s1, rest, w, cnh, listed);
    }
  }

  lemma OneStep(s: State, a: Action)
    ensures Run(s, [a]) == Step(s, a) && Run(s, []) == s
  {
    hide Step;
    assert [a][1..] == [];
  }

  /** The k-th action after the first. */
  lemma Shift(s: State, actions: seq<Action>, k: nat)
    requires k < |actions| - 1
    ensures var (s1, rest) := (Step(s, actions[0]), actions[1..]);
            && rest[k] == actions[k + 1] && rest[k + 1..] == actions[k + 2..]
            && Run(s1, rest[..k]) == Run(s, actions[..k + 1])
            && Run(s1, rest[..k + 1]) == Run(s, actions[..k + 2])
  {
    hide Step;
    assert actions[..k + 1][1..] == actions[1..][..k];
    assert actions[..k + 2][1..] == actions[1..][..k + 1];
  }

  lemma {:induction false} Deletes(s: State, actions: seq<Action>, w: nat, cnh: Cnh, todo: seq<Pod>)
    requires PcOf(s, w) == AfterCleanup(cnh, todo, ThenRemoveFinalizer) && NoGet(actions, w)
    requires PcOf(Run(s, actions), w).RemovingFinalizer?
    ensures DeletedInOrder(s, actions, w, cnh, todo)
    ensures PcOf(Run(s, actions), w) == RemovingFinalizer(cnh)
    decreases |actions|
  {
    hide Step, DeletedInOrder;
    if actions == [] {
      NothingToDelete(s, actions, w, cnh);
      return;
    }
    var a, rest := actions[0], actions[1..];
    var s1 := Step(s, a);
    if PcOf(s1, w) == PcOf(s, w) {
      Deletes(s1, rest, w, cnh, todo);
      DeletedLater(s, actions, w, cnh, todo);
    } else {
      DeletingMoves(s, w, a, cnh, todo);
      if PcOf(s1, w).Idle? {
        StaysIdle(s1, rest, w);
        assert false;
      }
      Deletes(s1, rest, w, cnh, todo[1..]);
      DeletedFirst(s, actions, w, cnh, todo);
    }
  }

  lemma NothingToDelete(s: State, actions: seq<Action>, w: nat, cnh: Cnh)
    ensures DeletedInOrder(s, actions, w, cnh, [])
  {}

  lemma DeletedLater(s: State, actions: seq<Action>, w: nat, cnh: Cnh, todo: seq<Pod>)
    requires actions != [] && DeletedInOrder(Step(s, actions[0]), actions[1..], w, cnh, todo)
    ensures DeletedInOrder(s, actions, w, cnh, todo)
  {
    hide Step, Run;
    if todo != [] {
      var s1, rest := Step(s, actions[0]), actions[1..];
      var k :| 0 <= k < |rest| && DeletesAt(s1, rest, w, cnh, todo, k)
               && DeletedInOrder(Run(s1, rest[..k + 1]), rest[k + 1..], w, cnh, todo[1..]);
      Shift(s, actions, k);
      assert DeletesAt(s, actions, w, cnh, todo, k + 1);
    }
  }

  lemma DeletedFirst(s: State, actions: seq<Action>, w: nat, cnh: Cnh, todo: seq<Pod>)
    requires todo != [] && actions != [] && actions[0] == DeletePod(w, Done)
    requires PcOf(s, w) == DeletingPods(cnh, todo, ThenRemoveFinalizer)
    requires DeletedInOrder(Step(s, actions[0]), actions[1..], w, cnh, todo[1..])
    ensures DeletedInOrder(s, actions, w, cnh, todo)
  {
    hide Step, Run;
    OneStep(s, actions[0]);
    assert actions[..0] == [] && actions[..0 + 1] == [actions[0]];
    assert DeletesAt(s, actions, w, cnh, todo, 0);
  }

  lemma ListingMoves(s: State, w: nat, a: Action)
    requires PcOf(s, w).ListingForCleanup? && PcOf(s, w).next.ThenRemoveFinalizer? && PcOf(Step(s, a), w) != PcOf(s, w)
    ensures var pc := PcOf(Step(s, a), w);
            pc.Idle? || (a.ListForCleanup? && a.w == w && pc == AfterCleanup(PcOf(s, w).cnh, a.listed, ThenRemoveFinalizer))
  {
    hide Step, Effect;
    Moves(s, w, a);
  }

  lemma DeletingMoves(s: State, w: nat, a: Action, cnh: Cnh, todo: seq<Pod>)
    requires PcOf(s, w) == AfterCleanup(cnh, todo, ThenRemoveFinalizer) && PcOf(Step(s, a), w) != PcOf(s, w)
    ensures var pc := PcOf(Step(s, a), w);
            pc.Idle? || (todo != [] && a == DeletePod(w, Done) && pc == AfterCleanup(cnh, todo[1..], ThenRemoveFinalizer))
  {
    hide Step, Effect;
    Moves(s, w, a);
  }

  /** Only its own next call moves a worker. */
  lemma Moves(s: State, w: nat, a: Action)
    requires PcOf(Step(s, a), w) != PcOf(s, w)
    ensures Actor(a) == Some(w) && Enabled(s, w, PcOf(s, w), a) && PcOf(Step(s, a), w) == NextPc(s, w, PcOf(s, w), a)
  {
    hide Enabled, Effect, NextPc, Environment;
    if Actor(a) != Some(w) {
      OthersDoNotDisturb(s, a, w);
    } else if Enabled(s, w, PcOf(s, w), a) {
      OwnStep(s, w, a);
    }
  }

  lemma {:induction false} StaysIdle(s: State, actions: seq<Action>, w: nat)
    requires PcOf(s, w).Idle? && NoGet(actions, w)
    ensures PcOf(Run(s, actions), w).Idle?
    decreases |actions|
  {
    hide Step, Effect;
    if actions != [] {
      if PcOf(Step(s, actions[0]), w) != PcOf(s, w) {
        Moves(s, w, actions[0]);
        assert actions[0] in actions;
      }
      StaysIdle(Step(s, actions[0]), actions[1..], w);
    }
  }
}
