/** What the CheckNodeHealth protocol guarantees in every run. */
module CheckTheorems {
  import opened Api
  import opened Verdicts
  import opened CheckProtocol
  import opened CheckSafety

  lemma InitKeepsInv(s: State)
    requires Init(s)
    ensures Inv(s)
  {}

  lemma StoreMovesTransitive(a: map<string, Cnh>, b: map<string, Cnh>, c: map<string, Cnh>, last: nat, later: nat)
    requires last <= later && StoreMoves(a, b, last) && StoreMoves(b, c, later)
    ensures StoreMoves(a, c, last)
  {
    forall n | n in c && c[n].uid <= last ensures n in a && c[n].uid == a[n].uid && Evolves(a[n].status, c[n].status) {
      EvolvesTransitive(a[n].status, b[n].status, c[n].status);
    }
  }

  /** Any further run keeps the invariant and moves every stored status forward only. */
  lemma {:induction false} RunKeeps(s: State, actions: seq<Action>)
    requires Inv(s)
    ensures Keeps(s, Run(s, actions))
    decreases |actions|
  {
    hide Inv, Step;
    if actions == [] {
      StoreStays(s);
    } else {
      var s1 := Step(s, actions[0]);
      StepKeeps(s, actions[0]);
      RunKeeps(s1, actions[1..]);
      StoreMovesTransitive(s.crs, s1.crs, Run(s, actions).crs, s.last, s1.last);
    }
  }

  lemma StoreStays(s: State)
    ensures StoreMoves(s.crs, s.crs, s.last)
  {}

  lemma RunsKeepInv(s: State, actions: seq<Action>)
    requires Init(s)
    ensures Inv(Run(s, actions))
  {
    InitKeepsInv(s);
    RunKeeps(s, actions);
  }

  /** The same object, seen at two moments of a run: its status has only moved forward. */
  lemma StatusEvolves(s0: State, before: seq<Action>, after: seq<Action>, n: string)
    requires Init(s0)
    requires n in Run(s0, before).crs && n in Run(s0, before + after).crs
    requires Run(s0, before).crs[n].uid == Run(s0, before + after).crs[n].uid
    ensures Evolves(Run(s0, before).crs[n].status, Run(s0, before + after).crs[n].status)
  {
    var s := Run(s0, before);
    RunsKeepInv(s0, before);
    RunKeeps(s, after);
    RunConcat(s0, before, after);
    StoredUid(s, n);
  }

  lemma StoredUid(s: State, n: string)
    requires Inv(s) && n in s.crs
    ensures s.crs[n].uid <= s.last
    ensures VersionOk(s.crs[n], s.commits, s.now)
  {
    assert s.crs[n] in s.versions;
    assert VersionOk(s.crs[n], s.commits, s.now);
  }

  /** Write-once verdict: whatever workers with stale snapshots and late runners do, a finished
      check keeps its start, its finish and its condition; results can still be appended. */
  lemma VerdictWrittenOnce(s0: State, before: seq<Action>, after: seq<Action>, n: string)
    requires Init(s0)
    requires n in Run(s0, before).crs && n in Run(s0, before + after).crs
    requires Run(s0, before).crs[n].uid == Run(s0, before + after).crs[n].uid
    requires Run(s0, before).crs[n].status.finishedAt.Some?
    ensures var was, now := Run(s0, before).crs[n].status, Run(s0, before + after).crs[n].status;
            && now.startedAt == was.startedAt
            && now.finishedAt == was.finishedAt
            && now.conditions == was.conditions
            && was.results <= now.results
  {
    RunsKeepInv(s0, before);
    StoredUid(Run(s0, before), n);
    StatusEvolves(s0, before, after, n);
  }

  /** Results are conserved: names only grow at the end, and a stored result other than PodStartup
      is never changed or removed. */
  lemma ResultsConserved(s0: State, before: seq<Action>, after: seq<Action>, n: string, i: nat)
    requires Init(s0)
    requires n in Run(s0, before).crs && n in Run(s0, before + after).crs
    requires Run(s0, before).crs[n].uid == Run(s0, before + after).crs[n].uid
    requires i < |Run(s0, before).crs[n].status.results|
    ensures var was, now := Run(s0, before).crs[n].status.results, Run(s0, before + after).crs[n].status.results;
            && i < |now|
            && now[i].name == was[i].name
            && (was[i].name != POD_STARTUP ==> now[i] == was[i])
  {
    StatusEvolves(s0, before, after, n);
  }

  /** What a stored status says at any moment of any run. A finished check started before it
      finished, and its one condition is the verdict on the results it had at that moment, which
      are still the first of its results. */
  lemma StoredStatusMeaning(s0: State, actions: seq<Action>, n: string)
    requires Init(s0) && n in Run(s0, actions).crs
    ensures var st := Run(s0, actions).crs[n].status;
            && AtMostOne(st.results, POD_STARTUP)
            && (st.startedAt.None? ==> st.finishedAt.None? && st.conditions == [])
            && (st.startedAt.Some? && st.finishedAt.None? ==>
                  st.conditions == [Condition(HEALTHY, ConditionUnknown, REASON_STARTED, "", st.startedAt.value)])
            && (st.finishedAt.Some? ==>
                  && st.startedAt.Some? && st.startedAt.value <= st.finishedAt.value <= Run(s0, actions).now
                  && exists k :: 0 <= k <= |st.results| && st.conditions == [CompletedCondition(st.results[..k], st.finishedAt.value)])
  {
    RunsKeepInv(s0, actions);
    var s := Run(s0, actions);
    StoredUid(s, n);
    var st := s.crs[n].status;
    if st.finishedAt.Some? {
      var judged := s.commits[s.crs[n].uid].judged;
      assert st.results[..|judged|] == judged;
    }
  }

  /** No lost result: a completion that took effect after seeing the check's own pod Succeeded has
      judged the PodNetwork result, although the resource was read before the pod. */
  lemma NoLostResult(s0: State, actions: seq<Action>, uid: nat)
    requires Init(s0) && uid in Run(s0, actions).commits && Run(s0, actions).commits[uid].sawOwnPodSucceed
    ensures HasResult(Run(s0, actions).commits[uid].judged, POD_NETWORK)
  {
    RunsKeepInv(s0, actions);
  }

  /** The breaker is told of each check at most once, only after its completion took effect, and as
      a failure exactly when the committed verdict is False. */
  lemma BreakerFedOnce(s0: State, actions: seq<Action>)
    requires Init(s0)
    ensures var s := Run(s0, actions);
            && (forall i, j :: 0 <= i < j < |s.feeds| ==> s.feeds[i].uid != s.feeds[j].uid)
            && (forall i :: 0 <= i < |s.feeds| ==>
                  && s.feeds[i].uid in s.commits
                  && (s.feeds[i].failing <==> Verdict(s.commits[s.feeds[i].uid].judged) == ConditionFalse))
  {
    RunsKeepInv(s0, actions);
  }

  /** The committed verdict is the one that is stored, as long as the object exists. */
  lemma CommitIsStored(s0: State, actions: seq<Action>, n: string)
    requires Init(s0) && n in Run(s0, actions).crs
    ensures var s := Run(s0, actions);
            var cnh := s.crs[n];
            && (cnh.uid in s.commits <==> cnh.status.finishedAt.Some?)
            && (cnh.uid in s.commits ==>
                  && |cnh.status.conditions| == 1
                  && cnh.status.conditions[0].status == Verdict(s.commits[cnh.uid].judged))
  {
    RunsKeepInv(s0, actions);
    StoredUid(Run(s0, actions), n);
  }
}
