/** Whole-run safety of the CheckNodeHealth protocol, with any number of workers and runners,
    stale caches, lost replies, crashes, deletions and re-created resources. */
module CheckSafety {
  import opened Api
  import opened Verdicts
  import opened CheckProtocol

  // ----- How a status may change -----

  ghost predicate AtMostOne(results: seq<CheckResult>, name: string) {
    forall i, j :: 0 <= i < j < |results| ==> !(results[i].name == name && results[j].name == name)
  }

  /** Names only grow at the end; stored results other than PodStartup are immutable; the start is
      written once; the finish time and the verdict are written once, and after that results can
      only be appended. */
  ghost predicate Evolves(a: Status, b: Status) {
    && |a.results| <= |b.results|
    && (forall i :: 0 <= i < |a.results| ==> b.results[i].name == a.results[i].name)
    && (forall i :: 0 <= i < |a.results| && a.results[i].name != POD_STARTUP ==> b.results[i] == a.results[i])
    && (a.startedAt.Some? ==> b.startedAt == a.startedAt)
    && (a.finishedAt.Some? ==> b.finishedAt == a.finishedAt && b.conditions == a.conditions && a.results <= b.results)
  }

  lemma EvolvesTransitive(a: Status, b: Status, c: Status)
    requires Evolves(a, b) && Evolves(b, c)
    ensures Evolves(a, c)
  {}

  lemma EvolvesKeepsNames(a: Status, b: Status, name: string)
    requires Evolves(a, b) && HasResult(a.results, name)
    ensures HasResult(b.results, name)
  {
    var i :| 0 <= i < |a.results| && a.results[i].name == name;
    assert b.results[i] in b.results;
  }

  /** From one store to a later one: an object that is still there has evolved, and any other
      object is new. */
  ghost predicate StoreMoves(before: map<string, Cnh>, after: map<string, Cnh>, last: nat) {
    forall n :: n in after ==>
      || after[n].uid > last
      || (n in before && after[n].uid == before[n].uid && Evolves(before[n].status, after[n].status))
  }

  // ----- The invariant -----

  ghost predicate VersionOk(v: Cnh, commits: map<nat, Commit>, now: Time) {
    && v.uid <= v.rv
    && AtMostOne(v.status.results, POD_STARTUP)
    && (v.status.startedAt.None? ==> v.status.finishedAt.None? && v.status.conditions == [])
    && (v.status.startedAt.Some? ==> v.status.startedAt.value <= now)
    && (v.status.startedAt.Some? && v.status.finishedAt.None? ==>
          v.status.conditions == [StartedCondition(v.status.startedAt.value)])
    && (v.status.finishedAt.Some? ==>
          && v.status.startedAt.Some?
          && v.status.startedAt.value <= v.status.finishedAt.value <= now
          && v.uid in commits
          && commits[v.uid].judged <= v.status.results
          && v.status.conditions == [CompletedCondition(commits[v.uid].judged, v.status.finishedAt.value)])
  }

  ghost predicate VersionsOk(versions: set<Cnh>, commits: map<nat, Commit>, last: nat, now: Time) {
    && (forall v :: v in versions ==> VersionOk(v, commits, now) && v.rv <= last)
    && (forall v, v' :: v in versions && v' in versions && v.rv == v'.rv ==> v == v')
    && (forall v, v' :: v in versions && v' in versions && v.uid == v'.uid ==> v.name == v'.name)
  }

  ghost predicate StoreOk(crs: map<string, Cnh>, versions: set<Cnh>, commits: map<nat, Commit>, last: nat) {
    && (forall n :: n in crs ==> crs[n].name == n && crs[n] in versions)
    && (forall n :: n in crs && crs[n].status.finishedAt.None? ==> crs[n].uid !in commits)
    && (forall v :: v in versions && v.name in crs ==> v.uid <= crs[v.name].uid)
    && (forall u :: u in commits ==> u <= last)
  }

  ghost predicate Pending(pc: Pc) {
    pc.UpdatingNode? || pc.Recording?
  }

  ghost predicate Fed(feeds: seq<Feed>, uid: nat) {
    exists f :: f in feeds && f.uid == uid
  }

  ghost predicate WorkerOk(wk: Worker, versions: set<Cnh>, podVersions: set<Pod>, commits: map<nat, Commit>, feeds: seq<Feed>, now: Time) {
    var pc := wk.pc;
    && wk.since <= now
    && (!pc.Idle? ==>
          && pc.cnh in versions
          && (pc.cnh.status.startedAt.Some? ==> pc.cnh.status.startedAt.value <= wk.since))
    && (pc.Starting? || pc.ReportingStartup? || pc.Deciding? ==> pc.pod in podVersions)
    && (pc.ReportingStartup? || pc.Deciding? ==> pc.cnh.status.startedAt.Some?)
    && (pc.ListingPods? || pc.CreatingPod? || pc.Refetching? || pc.Starting? || pc.ReportingStartup? || pc.Deciding? ==>
          pc.cnh.status.finishedAt.None?)
    && (Pending(pc) ==>
          && pc.cnh.status.finishedAt.Some?
          && pc.cnh.uid in commits
          && !Fed(feeds, pc.cnh.uid))
  }

  ghost predicate WorkersOk(workers: map<nat, Worker>, versions: set<Cnh>, podVersions: set<Pod>, commits: map<nat, Commit>, feeds: seq<Feed>, now: Time) {
    && (forall w :: w in workers ==> WorkerOk(workers[w], versions, podVersions, commits, feeds, now))
    && (forall w, w' :: w in workers && w' in workers && w != w' && Pending(workers[w].pc) && Pending(workers[w'].pc) ==>
          workers[w].pc.cnh.uid != workers[w'].pc.cnh.uid)
  }

  ghost predicate RunnerOk(r: Runner, crs: map<string, Cnh>, versions: set<Cnh>, last: nat) {
    && r.ownerUid <= last
    && (r.name in crs ==> r.ownerUid <= crs[r.name].uid)
    && (r.pc.Fetched? ==>
          r.pc.cnh in versions && r.pc.cnh.name == r.name && r.ownerUid <= r.pc.cnh.uid)
    && (r.pc.ExitedOk? ==>
          && r.ownerUid <= r.pc.wrote <= last
          && (r.name in crs ==>
                && r.pc.wrote <= crs[r.name].uid
                && (r.pc.wrote == crs[r.name].uid ==> HasResult(crs[r.name].status.results, POD_NETWORK))))
  }

  ghost predicate RunnersOk(runners: map<nat, Runner>, crs: map<string, Cnh>, versions: set<Cnh>, last: nat) {
    forall u :: u in runners ==> u <= last && RunnerOk(runners[u], crs, versions, last)
  }

  ghost predicate PodOk(p: Pod, runners: map<nat, Runner>, versions: set<Cnh>) {
    && p.name == PodName(p.cnhLabel)
    && p.uid in runners
    && runners[p.uid].name == p.cnhLabel
    && runners[p.uid].ownerUid == p.ownerUid
    && (p.phase.Succeeded? ==> runners[p.uid].pc.ExitedOk?)
    && (forall v :: v in versions && v.uid == p.ownerUid ==> v.name == p.cnhLabel)
  }

  ghost predicate PodsOk(pods: map<string, Pod>, podVersions: set<Pod>, runners: map<nat, Runner>, versions: set<Cnh>) {
    && (forall n :: n in pods ==> pods[n].name == n && pods[n] in podVersions)
    && (forall p :: p in podVersions ==> PodOk(p, runners, versions))
  }

  ghost predicate LedgerOk(commits: map<nat, Commit>, feeds: seq<Feed>) {
    && (forall u :: u in commits && commits[u].sawOwnPodSucceed ==> HasResult(commits[u].judged, POD_NETWORK))
    && (forall i :: 0 <= i < |feeds| ==>
          feeds[i].uid in commits && (feeds[i].failing <==> Verdict(commits[feeds[i].uid].judged) == ConditionFalse))
    && (forall i, j :: 0 <= i < j < |feeds| ==> feeds[i].uid != feeds[j].uid)
  }

  ghost predicate Inv(s: State) {
    && VersionsOk(s.versions, s.commits, s.last, s.now)
    && StoreOk(s.crs, s.versions, s.commits, s.last)
    && WorkersOk(s.workers, s.versions, s.podVersions, s.commits, s.feeds, s.now)
    && RunnersOk(s.runners, s.crs, s.versions, s.last)
    && PodsOk(s.pods, s.podVersions, s.runners, s.versions)
    && LedgerOk(s.commits, s.feeds)
  }

  // ----- Compare-and-swap -----

  /** A version that is still current is the stored object itself: a write that is accepted acts
      on what was read. */
  lemma CurrentIsStored(s: State, cnh: Cnh)
    requires Inv(s) && cnh in s.versions && Current(s, cnh)
    ensures s.crs[cnh.name] == cnh
  {}

  // ----- Store changes -----

  /** c is a later version of an object that was stored before, or of a brand new one. */
  ghost predicate Succeeds(versions: set<Cnh>, last: nat, c: Cnh) {
    || c in versions
    || (c.rv == last + 1 && (c.uid == last + 1 || exists v :: v in versions && v.uid == c.uid && v.name == c.name))
  }

  lemma VersionsAdd(versions: set<Cnh>, commits: map<nat, Commit>, last: nat, now: Time, c: Cnh, last': nat)
    requires VersionsOk(versions, commits, last, now)
    requires Succeeds(versions, last, c) && VersionOk(c, commits, now)
    requires last' >= last && last' >= c.rv
    ensures VersionsOk(versions + {c}, commits, last', now)
  {
    if c !in versions {
      forall v | v in versions ensures v.rv != c.rv && (v.uid == c.uid ==> v.name == c.name) {
        assert VersionOk(v, commits, now);
      }
    }
  }

  lemma PodsFollow(s: State, c: Cnh)
    requires Inv(s) && Succeeds(s.versions, s.last, c)
    ensures PodsOk(s.pods, s.podVersions, s.runners, s.versions + {c})
  {
    forall p | p in s.podVersions ensures PodOk(p, s.runners, s.versions + {c}) {
      assert PodOk(p, s.runners, s.versions);
      assert RunnerOk(s.runners[p.uid], s.crs, s.versions, s.last);
    }
  }

  lemma StorePut(s: State, c: Cnh)
    requires Inv(s)
    requires c.name in s.crs && c.uid == s.crs[c.name].uid
    requires c.status.finishedAt.None? ==> s.crs[c.name].status.finishedAt.None?
    ensures StoreOk(Put(s, c).crs, Put(s, c).versions, s.commits, Put(s, c).last)
  {
    assert s.crs[c.name] in s.versions;
  }

  lemma PutMoves(crs: map<string, Cnh>, c: Cnh, last: nat)
    requires c.name in crs && crs[c.name].uid == c.uid && Evolves(crs[c.name].status, c.status)
    ensures StoreMoves(crs, crs[c.name := c], last)
  {}

  lemma PutSucceeds(s: State, c: Cnh)
    requires Inv(s)
    requires c.name in s.crs && c.uid == s.crs[c.name].uid && (c == s.crs[c.name] || c.rv == s.last + 1)
    ensures Succeeds(s.versions, s.last, c)
  {
    assert s.crs[c.name] in s.versions;
  }

  /** Storing a new version of an existing object. */
  lemma PutKeepsInv(s: State, c: Cnh)
    requires Inv(s)
    requires c.name in s.crs && c.uid == s.crs[c.name].uid && (c == s.crs[c.name] || c.rv == s.last + 1)
    requires VersionOk(c, s.commits, s.now)
    requires Evolves(s.crs[c.name].status, c.status)
    requires c.status.finishedAt.None? ==> s.crs[c.name].status.finishedAt.None?
    ensures Inv(Put(s, c)) && StoreMoves(s.crs, Put(s, c).crs, s.last)
  {
    hide VersionOk, VersionsOk, StoreOk, WorkersOk, RunnersOk, PodsOk, LedgerOk, Evolves, StoreMoves, Succeeds;
    var s' := Put(s, c);
    PutMoves(s.crs, c, s.last);
    PutSucceeds(s, c);
    VersionsAdd(s.versions, s.commits, s.last, s.now, c, s'.last);
    StorePut(s, c);
    WorkersMonotone(s.workers, s.versions, s'.versions, s.podVersions, s.podVersions, s.commits, s.commits, s.feeds, s.now);
    PodsFollow(s, c);
    RunnersFollow(s, s');
  }

  lemma RunnersFollow(s: State, s': State)
    requires Inv(s)
    requires s'.runners == s.runners && s'.last >= s.last && s.versions <= s'.versions
    requires StoreMoves(s.crs, s'.crs, s.last)
    ensures RunnersOk(s'.runners, s'.crs, s'.versions, s'.last)
  {
    forall u | u in s.runners ensures RunnerOk(s.runners[u], s'.crs, s'.versions, s'.last) {
      var r := s.runners[u];
      if r.pc.ExitedOk? && r.name in s'.crs && s'.crs[r.name].uid == r.pc.wrote {
        EvolvesKeepsNames(s.crs[r.name].status, s'.crs[r.name].status, POD_NETWORK);
      }
    }
  }

  lemma RemoveKeepsInv(s: State, name: string)
    requires Inv(s)
    ensures Inv(Removed(s, name)) && StoreMoves(s.crs, Removed(s, name).crs, s.last)
  {
    RunnersFollow(s, Removed(s, name));
  }

  lemma DeleteKeepsInv(s: State, name: string)
    requires Inv(s)
    ensures Inv(Deleted(s, name)) && StoreMoves(s.crs, Deleted(s, name).crs, s.last)
  {
    if name in s.crs {
      if s.crs[name].finalizer {
        PutKeepsInv(s, Stored(s, s.crs[name].(deleting := true)));
      } else {
        RemoveKeepsInv(s, name);
      }
    }
  }

  lemma CreateKeepsInv(s: State, name: string, node: string)
    requires Inv(s)
    ensures Inv(DoUserCreates(s, name, node)) && StoreMoves(s.crs, DoUserCreates(s, name, node).crs, s.last)
  {
    hide VersionsOk, StoreOk, WorkersOk, RunnersOk, PodsOk, LedgerOk;
    if name !in s.crs {
      var s' := DoUserCreates(s, name, node);
      var c := s'.crs[name];
      VersionsAdd(s.versions, s.commits, s.last, s.now, c, s'.last);
      StoreCreate(s, c);
      WorkersMonotone(s.workers, s.versions, s'.versions, s.podVersions, s.podVersions, s.commits, s.commits, s.feeds, s.now);
      PodsFollow(s, c);
      RunnersFollow(s, s');
    }
  }

  lemma StoreCreate(s: State, c: Cnh)
    requires Inv(s) && c.name !in s.crs && c.uid == s.last + 1 == c.rv
    ensures StoreOk(Put(s, c).crs, Put(s, c).versions, s.commits, Put(s, c).last)
  {
    forall v | v in s.versions ensures v.uid <= s.last {
      assert VersionOk(v, s.commits, s.now);
    }
  }

  // ----- Worker moves -----

  lemma GoKeepsInv(s: State, w: nat, pc: Pc)
    requires Inv(s)
    requires WorkerOk(Worker(pc, s.now), s.versions, s.podVersions, s.commits, s.feeds, s.now)
    requires Pending(pc) ==> forall w' :: w' in s.workers && w' != w && Pending(s.workers[w'].pc) ==> s.workers[w'].pc.cnh.uid != pc.cnh.uid
    ensures Inv(Go(s, w, pc))
  {}

  lemma PutPodKeepsInv(s: State, p: Pod)
    requires Inv(s) && PodOk(p, s.runners, s.versions)
    ensures Inv(PutPod(s, p))
  {}

  // ----- Results -----

  lemma {:induction false} WithResultFacts(results: seq<CheckResult>, r: CheckResult)
    ensures var after := WithResult(results, r);
            && |results| <= |after| <= |results| + 1
            && (forall i :: 0 <= i < |results| ==> after[i].name == results[i].name)
            && (forall i :: 0 <= i < |results| && results[i].name != r.name ==> after[i] == results[i])
            && (!HasResult(results, r.name) ==> after == results + [r])
            && (HasResult(results, r.name) ==> |after| == |results|)
            && r in after
  {
    if results != [] && results[0].name != r.name {
      WithResultFacts(results[1..], r);
      assert HasResult(results, r.name) <==> HasResult(results[1..], r.name);
    }
  }

  lemma WithResultAtMostOne(results: seq<CheckResult>, r: CheckResult)
    requires AtMostOne(results, r.name)
    ensures AtMostOne(WithResult(results, r), r.name)
  {
    WithResultFacts(results, r);
  }

  lemma ReportNames(results: seq<CheckResult>)
    requires ReportOf(results)
    ensures forall r :: r in results ==> r.name == POD_NETWORK
    ensures HasResult(results, POD_NETWORK)
  {
    forall r | r in results ensures r.name == POD_NETWORK {
      var i :| 0 <= i < |results| && results[i] == r;
      assert Names(results)[i] in multiset(Names(results));
    }
    assert POD_NETWORK in multiset(Names(results));
    assert POD_NETWORK in Names(results);
    var i :| 0 <= i < |results| && Names(results)[i] == POD_NETWORK;
    assert results[i] in results;
  }

  // ----- Every step keeps the invariant -----

  ghost predicate Keeps(s: State, s': State) {
    Inv(s') && StoreMoves(s.crs, s'.crs, s.last) && s.last <= s'.last
  }

  lemma NewPodKeepsInv(s: State, cnh: Cnh)
    requires Inv(s) && cnh in s.versions
    ensures Inv(PodCreated(s, NewPod(s, cnh)))
  {
    var pod := NewPod(s, cnh);
    var s' := PodCreated(s, pod);
    assert VersionOk(cnh, s.commits, s.now);
    WorkersMonotone(s.workers, s.versions, s.versions, s.podVersions, s'.podVersions, s.commits, s.commits, s.feeds, s.now);
    forall u | u in s'.runners ensures u <= s'.last && RunnerOk(s'.runners[u], s.crs, s.versions, s'.last) {
      if u != pod.uid {
        assert RunnerOk(s.runners[u], s.crs, s.versions, s.last);
      }
    }
    forall p | p in s'.podVersions ensures PodOk(p, s'.runners, s.versions) {
      if p != pod {
        assert PodOk(p, s.runners, s.versions);
      }
    }
  }

  /** Exit code 0 follows the runner's acknowledged update of the object its pod was made for, so
      a completion that saw that pod succeed judges the runner's result. */
  lemma SucceededPodReported(s: State, cnh: Cnh, pod: Pod)
    requires Inv(s) && cnh in s.versions && Current(s, cnh) && pod in s.podVersions
    requires pod.phase.Succeeded? && pod.ownerUid == cnh.uid
    ensures HasResult(cnh.status.results, POD_NETWORK)
  {
    CurrentIsStored(s, cnh);
    assert PodOk(pod, s.runners, s.versions);
    assert RunnerOk(s.runners[pod.uid], s.crs, s.versions, s.last);
  }

  lemma CommitKeepsInv(s: State, cnh: Cnh, pod: Pod, t: Time)
    requires Inv(s) && cnh in s.versions && Current(s, cnh) && pod in s.podVersions
    requires cnh.status.finishedAt.None? && cnh.status.startedAt.Some? && cnh.status.startedAt.value <= t <= s.now
    ensures Keeps(s, Committed(s, cnh, pod, t))
    ensures cnh.uid !in s.commits
  {
    hide VersionOk, VersionsOk, StoreOk, WorkerOk, WorkersOk, RunnerOk, RunnersOk, PodOk, PodsOk, LedgerOk, StoreMoves, Evolves, Succeeds;
    CurrentIsStored(s, cnh);
    var c := Stored(s, cnh.(status := CompletedStatus(cnh.status, t)));
    var commits := s.commits[cnh.uid := CommitOf(cnh, pod)];
    var s' := Committed(s, cnh, pod, t);
    NotYetCommitted(s, cnh);
    CommittedVersion(s, cnh, pod, t);
    CommitMonotone(s, commits, cnh.uid);
    PutSucceeds(s, c);
    PutMoves(s.crs, c, s.last);
    VersionsAdd(s.versions, commits, s.last, s.now, c, s'.last);
    PodsFollow(s, c);
    RunnersFollow(s, s');
    WorkersMonotone(s.workers, s.versions, s'.versions, s.podVersions, s.podVersions, s.commits, commits, s.feeds, s.now);
    LedgerCommit(s, cnh, pod);
    StoreCommit(s, c, commits);
  }

  ghost function Committed(s: State, cnh: Cnh, pod: Pod, t: Time): State {
    Put(s, Stored(s, cnh.(status := CompletedStatus(cnh.status, t)))).(commits := s.commits[cnh.uid := CommitOf(cnh, pod)])
  }

  lemma NotYetCommitted(s: State, cnh: Cnh)
    requires Inv(s) && cnh in s.versions && Current(s, cnh) && cnh.status.finishedAt.None?
    ensures cnh.uid !in s.commits && s.crs[cnh.name] == cnh
  {
    CurrentIsStored(s, cnh);
  }

  lemma CommittedVersion(s: State, cnh: Cnh, pod: Pod, t: Time)
    requires Inv(s) && cnh in s.versions && cnh.status.finishedAt.None?
    requires cnh.status.startedAt.Some? && cnh.status.startedAt.value <= t <= s.now
    ensures var c := Stored(s, cnh.(status := CompletedStatus(cnh.status, t)));
            && VersionOk(c, s.commits[cnh.uid := CommitOf(cnh, pod)], s.now)
            && Evolves(cnh.status, c.status)
            && c.name == cnh.name && c.uid == cnh.uid && c.status.finishedAt.Some?
            && (c == cnh || c.rv == s.last + 1)
  {
    assert VersionOk(cnh, s.commits, s.now);
  }

  lemma LedgerCommit(s: State, cnh: Cnh, pod: Pod)
    requires Inv(s) && cnh in s.versions && Current(s, cnh) && pod in s.podVersions && cnh.uid !in s.commits
    ensures LedgerOk(s.commits[cnh.uid := CommitOf(cnh, pod)], s.feeds)
  {
    if CommitOf(cnh, pod).sawOwnPodSucceed {
      SucceededPodReported(s, cnh, pod);
    }
  }

  lemma CommitMonotone(s: State, commits: map<nat, Commit>, uid: nat)
    requires Inv(s) && uid !in s.commits && uid in commits && commits - {uid} == s.commits
    ensures VersionsOk(s.versions, commits, s.last, s.now)
    ensures forall u :: u in s.commits ==> u in commits && commits[u] == s.commits[u]
  {
    assert forall u :: u in s.commits ==> u in commits - {uid};
    assert forall u :: u in s.commits ==> (commits - {uid})[u] == commits[u];
    forall v | v in s.versions ensures VersionOk(v, commits, s.now) {
      assert VersionOk(v, s.commits, s.now);
    }
  }

  lemma WorkersMonotone(workers: map<nat, Worker>, versions: set<Cnh>, versions': set<Cnh>, podVersions: set<Pod>, podVersions': set<Pod>,
                        commits: map<nat, Commit>, commits': map<nat, Commit>, feeds: seq<Feed>, now: Time)
    requires WorkersOk(workers, versions, podVersions, commits, feeds, now)
    requires versions <= versions' && podVersions <= podVersions' && commits.Keys <= commits'.Keys
    ensures WorkersOk(workers, versions', podVersions', commits', feeds, now)
  {
    forall w | w in workers ensures WorkerOk(workers[w], versions', podVersions', commits', feeds, now) {
      assert WorkerOk(workers[w], versions, podVersions, commits, feeds, now);
    }
  }

  lemma StoreCommit(s: State, c: Cnh, commits: map<nat, Commit>)
    requires Inv(s) && c.name in s.crs && c.uid == s.crs[c.name].uid && c.status.finishedAt.Some?
    requires commits.Keys == s.commits.Keys + {c.uid}
    ensures StoreOk(Put(s, c).crs, Put(s, c).versions, commits, Put(s, c).last)
  {
    hide VersionOk, WorkersOk, RunnersOk, PodsOk, LedgerOk;
    assert s.crs[c.name] in s.versions && s.crs[c.name].uid <= s.last by { StoredUidBound(s, c.name); }
    forall n | n in s.crs && n != c.name ensures s.crs[n].uid != c.uid {
      assert s.crs[n] in s.versions;
    }
  }

  lemma StoredUidBound(s: State, n: string)
    requires Inv(s) && n in s.crs
    ensures s.crs[n] in s.versions && s.crs[n].uid <= s.last
  {
    assert VersionOk(s.crs[n], s.commits, s.now) && s.crs[n].rv <= s.last;
  }

  lemma EvictKeeps(s: State, name: string)
    requires Inv(s)
    ensures Keeps(s, PodDeleted(s, name))
  {
    if name in s.pods && !PodCompleted(s.pods[name]) {
      assert PodOk(s.pods[name], s.runners, s.versions);
      PutPodKeepsInv(s, s.pods[name].(terminating := true));
    }
  }

  lemma TouchKeeps(s: State, name: string)
    requires Inv(s)
    ensures Keeps(s, DoUserTouches(s, name))
  {
    if name in s.crs {
      assert VersionOk(s.crs[name], s.commits, s.now);
      PutKeepsInv(s, s.crs[name].(rv := s.last + 1));
    }
  }

  lemma KubeletReportsKeeps(s: State, name: string, phase: Phase, containers: seq<ContainerState>)
    requires Inv(s)
    ensures Keeps(s, DoKubeletReports(s, name, phase, containers))
  {
    hide Inv, StoreMoves;
    StoreKept(s);
    if name in s.pods {
      StoredPodOk(s, name);
      var p := s.pods[name].(phase := phase, containers := containers);
      if PodOk(p, s.runners, s.versions) {
        PutPodKeepsInv(s, p);
      }
    }
  }

  lemma StoredPodOk(s: State, name: string)
    requires Inv(s) && name in s.pods
    ensures PodOk(s.pods[name], s.runners, s.versions)
  {}

  lemma GoRunnerKeepsInv(s: State, uid: nat, pc: RunnerPc)
    requires Inv(s) && uid in s.runners
    requires RunnerOk(s.runners[uid].(pc := pc), s.crs, s.versions, s.last)
    requires s.runners[uid].pc.ExitedOk? ==> pc.ExitedOk?
    ensures Inv(GoRunner(s, uid, pc))
  {
    var s' := GoRunner(s, uid, pc);
    forall p | p in s.podVersions ensures PodOk(p, s'.runners, s.versions) {
      assert PodOk(p, s.runners, s.versions);
    }
    forall u | u in s'.runners ensures u <= s.last && RunnerOk(s'.runners[u], s.crs, s.versions, s.last) {
      assert RunnerOk(s.runners[u], s.crs, s.versions, s.last);
    }
  }

  lemma RunnerFetchesKeeps(s: State, uid: nat)
    requires Inv(s)
    ensures Keeps(s, DoRunnerFetches(s, uid))
  {
    if uid in s.runners && s.runners[uid].pc.Checking? {
      assert RunnerOk(s.runners[uid], s.crs, s.versions, s.last);
      var name := s.runners[uid].name;
      GoRunnerKeepsInv(s, uid, if name in s.crs then Fetched(s.crs[name]) else ExitedWithError);
    }
  }

  lemma ReportVersion(s: State, cnh: Cnh, results: seq<CheckResult>)
    requires Inv(s) && cnh in s.versions && ReportOf(results)
    ensures var c := Stored(s, cnh.(status := cnh.status.(results := cnh.status.results + results)));
            && VersionOk(c, s.commits, s.now)
            && Evolves(cnh.status, c.status)
            && c.name == cnh.name && c.uid == cnh.uid && c.status.finishedAt == cnh.status.finishedAt
            && (c == cnh || c.rv == s.last + 1)
            && HasResult(c.status.results, POD_NETWORK)
  {
    assert VersionOk(cnh, s.commits, s.now);
    ReportNames(results);
    var all := cnh.status.results + results;
    assert forall i :: |cnh.status.results| <= i < |all| ==> all[i] in results;
    var q :| q in results && q.name == POD_NETWORK;
    assert q in all;
  }

  lemma RunnerReportsKeeps(s: State, uid: nat, results: seq<CheckResult>, reply: Reply)
    requires Inv(s)
    ensures Keeps(s, DoRunnerReports(s, uid, results, reply))
  {
    hide Inv, GoRunner, Put, Stored, StoreMoves, ReportOf, Current;
    StoreKept(s);
    if uid in s.runners && s.runners[uid].pc.Fetched? && ReportOf(results) {
      var cnh := s.runners[uid].pc.cnh;
      if reply.Refused? || !Current(s, cnh) {
        RunnerFailsOk(s, uid);
        GoRunnerKeepsInv(s, uid, ExitedWithError);
        GoRunnerFrame(s, uid, ExitedWithError);
      } else {
        ReportStored(s, uid, results);
        var c := Stored(s, s.crs[cnh.name].(status := cnh.status.(results := cnh.status.results + results)));
        var next := if reply.Lost? then ExitedWithError else ExitedOk(cnh.uid);
        PutFrame(s, c);
        GoRunnerKeepsInv(Put(s, c), uid, next);
        GoRunnerFrame(Put(s, c), uid, next);
      }
    }
  }

  lemma StoreKept(s: State)
    ensures StoreMoves(s.crs, s.crs, s.last)
  {}

  lemma GoRunnerFrame(s: State, uid: nat, pc: RunnerPc)
    requires uid in s.runners
    ensures GoRunner(s, uid, pc).crs == s.crs && GoRunner(s, uid, pc).last == s.last
  {}

  lemma PutFrame(s: State, c: Cnh)
    ensures Put(s, c).runners == s.runners && Put(s, c).last >= s.last
  {}

  lemma ReportStored(s: State, uid: nat, results: seq<CheckResult>)
    requires Inv(s) && uid in s.runners && s.runners[uid].pc.Fetched? && Current(s, s.runners[uid].pc.cnh) && ReportOf(results)
    ensures var cnh := s.runners[uid].pc.cnh;
            var c := Stored(s, s.crs[cnh.name].(status := cnh.status.(results := cnh.status.results + results)));
            var s' := Put(s, c);
            && cnh.name in s.crs
            && Inv(s') && StoreMoves(s.crs, s'.crs, s.last)
            && RunnerOk(s.runners[uid].(pc := ExitedWithError), s'.crs, s'.versions, s'.last)
            && RunnerOk(s.runners[uid].(pc := ExitedOk(cnh.uid)), s'.crs, s'.versions, s'.last)
  {
    hide VersionOk, VersionsOk, StoreOk, WorkerOk, WorkersOk, RunnerOk, RunnersOk, PodOk, PodsOk, LedgerOk;
    var cnh := s.runners[uid].pc.cnh;
    FetchedFacts(s, uid);
    CurrentIsStored(s, cnh);
    ReportVersion(s, cnh, results);
    var c := Stored(s, cnh.(status := cnh.status.(results := cnh.status.results + results)));
    PutKeepsInv(s, c);
    RunnerWroteOk(s, uid, c);
  }

  lemma FetchedFacts(s: State, uid: nat)
    requires Inv(s) && uid in s.runners && s.runners[uid].pc.Fetched?
    ensures s.runners[uid].pc.cnh in s.versions
  {
    assert RunnerOk(s.runners[uid], s.crs, s.versions, s.last);
  }

  lemma RunnerFailsOk(s: State, uid: nat)
    requires Inv(s) && uid in s.runners
    ensures RunnerOk(s.runners[uid].(pc := ExitedWithError), s.crs, s.versions, s.last)
  {
    assert RunnerOk(s.runners[uid], s.crs, s.versions, s.last);
  }

  lemma RunnerWroteOk(s: State, uid: nat, c: Cnh)
    requires Inv(s) && uid in s.runners && s.runners[uid].pc.Fetched? && Inv(Put(s, c))
    requires c.name == s.runners[uid].pc.cnh.name && c.uid == s.runners[uid].pc.cnh.uid
    requires HasResult(c.status.results, POD_NETWORK)
    ensures var s' := Put(s, c);
            && RunnerOk(s.runners[uid].(pc := ExitedWithError), s'.crs, s'.versions, s'.last)
            && RunnerOk(s.runners[uid].(pc := ExitedOk(c.uid)), s'.crs, s'.versions, s'.last)
  {
    var s' := Put(s, c);
    assert RunnerOk(s.runners[uid], s.crs, s.versions, s.last);
    assert s'.runners[uid] == s.runners[uid];
    assert RunnerOk(s'.runners[uid], s'.crs, s'.versions, s'.last);
    assert VersionOk(c, s'.commits, s'.now);
  }

  // ----- Worker calls -----

  ghost predicate At(s: State, w: nat, pc: Pc) {
    w in s.workers && s.workers[w].pc == pc
  }

  /** What a worker's update asks for is a legal successor of what the worker read. */
  lemma RequestOk(s: State, w: nat, pc: Pc, t: Time)
    requires Inv(s) && At(s, w, pc) && ClockReading(s, w, t) && Request(pc, t).Some?
    ensures var sent := Request(pc, t).value;
            && !pc.Idle?
            && pc.cnh in s.versions
            && sent.name == pc.cnh.name && sent.uid == pc.cnh.uid && sent.rv == pc.cnh.rv <= s.last
            && Evolves(pc.cnh.status, sent.status)
            && (!pc.Deciding? ==> VersionOk(sent, s.commits, s.now) && sent.status.finishedAt == pc.cnh.status.finishedAt)
  {
    assert WorkerOk(s.workers[w], s.versions, s.podVersions, s.commits, s.feeds, s.now);
    assert VersionOk(pc.cnh, s.commits, s.now);
    if pc.ReportingStartup? {
      var r := StartupResult(pc.pod, t).value;
      WithResultFacts(pc.cnh.status.results, r);
      WithResultAtMostOne(pc.cnh.status.results, r);
    }
  }

  lemma DecidingFacts(s: State, w: nat, pc: Pc)
    requires Inv(s) && At(s, w, pc) && pc.Deciding?
    ensures pc.cnh in s.versions && pc.pod in s.podVersions && pc.cnh.status.finishedAt.None?
    ensures pc.cnh.status.startedAt.Some? && pc.cnh.status.startedAt.value <= s.workers[w].since <= s.now
  {
    assert WorkerOk(s.workers[w], s.versions, s.podVersions, s.commits, s.feeds, s.now);
  }

  lemma UpdateKeeps(s: State, w: nat, pc: Pc, t: Time, reply: Reply)
    requires Inv(s) && At(s, w, pc) && ClockReading(s, w, t) && Updating(pc)
    ensures Keeps(s, UpdateEffect(s, pc, t, reply))
  {
    hide Inv, VersionOk, StoreMoves, StartupResult, WithResult, CompletedCondition, CompletedStatus, StartedStatus;
    NothingMoves(s);
    var request := Request(pc, t);
    if request.Some? && Accepted(s, request.value, reply) {
      var sent := request.value;
      RequestOk(s, w, pc, t);
      CurrentIsStored(s, pc.cnh);
      if pc.Deciding? {
        DecidingFacts(s, w, pc);
        CommitKeepsInv(s, pc.cnh, pc.pod, t);
      } else if pc.RemovingFinalizer? && pc.cnh.deleting {
        RemoveKeepsInv(s, sent.name);
      } else {
        RestampOk(sent, s.last + 1, s.commits, s.now);
        PutKeepsInv(s, Stored(s, sent));
      }
    }
  }

  lemma NothingMoves(s: State)
    requires Inv(s)
    ensures Keeps(s, s)
  {}

  lemma RestampOk(v: Cnh, rv: nat, commits: map<nat, Commit>, now: Time)
    requires VersionOk(v, commits, now) && v.rv <= rv
    ensures VersionOk(v.(rv := rv), commits, now)
  {}

  lemma EffectKeeps(s: State, w: nat, pc: Pc, a: Action)
    requires Inv(s) && At(s, w, pc) && Enabled(s, w, pc, a) && !a.Record?
    ensures Keeps(s, Effect(s, w, pc, a))
  {
    hide VersionOk, VersionsOk, StoreOk, WorkerOk, WorkersOk, RunnerOk, RunnersOk, PodOk, PodsOk, LedgerOk;
    match a
    case Update(_, t, reply) => UpdateKeeps(s, w, pc, t, reply);
    case Delete(_, reply) => DeleteKeepsInv(s, pc.cnh.name);
    case CreatePod(_, reply) =>
      HeldVersion(s, w, pc);
      NewPodKeepsInv(s, pc.cnh);
    case DeletePod(_, reply) => EvictKeeps(s, pc.todo[0].name);
    case _ =>
  }

  lemma HeldVersion(s: State, w: nat, pc: Pc)
    requires Inv(s) && At(s, w, pc) && !pc.Idle?
    ensures pc.cnh in s.versions
  {
    assert WorkerOk(s.workers[w], s.versions, s.podVersions, s.commits, s.feeds, s.now);
  }

  /** After its call the worker again holds a stored version that fits its place in the program. */
  lemma NextOk(s: State, w: nat, pc: Pc, a: Action)
    requires Inv(s) && At(s, w, pc) && Enabled(s, w, pc, a) && !a.Record?
    ensures var s' := Effect(s, w, pc, a);
            WorkerOk(Worker(NextPc(s, w, pc, a), s.now), s'.versions, s'.podVersions, s'.commits, s'.feeds, s.now)
  {
    hide VersionOk, VersionsOk, StoreOk, WorkersOk, RunnerOk, RunnersOk, PodOk, PodsOk, LedgerOk;
    if !pc.Idle? {
      HeldFacts(s, w, pc);
    }
    match a
    case Get(_, cnh, t) => ReadFacts(s, cnh);
    case Update(_, t, reply) => UpdateNextOk(s, w, pc, t, reply);
    case _ =>
  }

  lemma ReadFacts(s: State, cnh: Cnh)
    requires Inv(s) && cnh in s.versions
    ensures cnh.status.startedAt.Some? ==> cnh.status.startedAt.value <= s.now
  {
    assert VersionOk(cnh, s.commits, s.now);
  }

  lemma UpdateNextOk(s: State, w: nat, pc: Pc, t: Time, reply: Reply)
    requires Inv(s) && At(s, w, pc) && ClockReading(s, w, t) && Updating(pc)
    ensures var s' := UpdateEffect(s, pc, t, reply);
            WorkerOk(Worker(UpdatePc(s, pc, t, reply), s.now), s'.versions, s'.podVersions, s'.commits, s'.feeds, s.now)
  {
    hide Inv, StartupResult, WithResult, CompletedCondition;
    var request := Request(pc, t);
    HeldFacts(s, w, pc);
    if request.Some? && Accepted(s, request.value, reply) {
      RequestStarted(s, w, pc, t);
      if pc.Deciding? {
        NotYetCommitted(s, pc.cnh);
        NotFed(s, pc.cnh.uid);
      }
    }
  }

  lemma HeldFacts(s: State, w: nat, pc: Pc)
    requires Inv(s) && At(s, w, pc) && !pc.Idle?
    ensures WorkerOk(s.workers[w], s.versions, s.podVersions, s.commits, s.feeds, s.now)
    ensures s.workers[w].since <= s.now
  {}

  lemma RequestStarted(s: State, w: nat, pc: Pc, t: Time)
    requires Inv(s) && At(s, w, pc) && ClockReading(s, w, t) && Request(pc, t).Some?
    ensures !pc.Idle?
    ensures var sent := Request(pc, t).value;
            && sent.name == pc.cnh.name && sent.uid == pc.cnh.uid && sent.rv == pc.cnh.rv
            && (sent.status.startedAt.Some? ==> sent.status.startedAt.value <= s.now)
            && (pc.Starting? || pc.ReportingStartup? || pc.Deciding? ==> sent.status.startedAt.Some?)
  {
    RequestOk(s, w, pc, t);
    assert WorkerOk(s.workers[w], s.versions, s.podVersions, s.commits, s.feeds, s.now);
  }

  lemma NotFed(s: State, uid: nat)
    requires Inv(s) && uid !in s.commits
    ensures !Fed(s.feeds, uid)
  {
    forall f | f in s.feeds ensures f.uid != uid {
      var i :| 0 <= i < |s.feeds| && s.feeds[i] == f;
    }
  }

  /** No other worker is about to report the same completion. */
  lemma NextPending(s: State, w: nat, pc: Pc, a: Action)
    requires Inv(s) && At(s, w, pc) && Enabled(s, w, pc, a) && !a.Record?
    requires Pending(NextPc(s, w, pc, a))
    ensures forall w' :: w' in s.workers && w' != w && Pending(s.workers[w'].pc) ==>
              s.workers[w'].pc.cnh.uid != NextPc(s, w, pc, a).cnh.uid
  {
    hide VersionOk, VersionsOk, StoreOk, WorkersOk, RunnerOk, RunnersOk, PodOk, PodsOk, LedgerOk;
    if a.Update? {
      assert pc.Deciding?;
      DecidingFacts(s, w, pc);
      RequestOk(s, w, pc, a.t);
      NotYetCommitted(s, pc.cnh);
      PendingCommitted(s);
    } else {
      PendingDistinct(s, w);
    }
  }

  lemma PendingCommitted(s: State)
    requires Inv(s)
    ensures forall w :: w in s.workers && Pending(s.workers[w].pc) ==> s.workers[w].pc.cnh.uid in s.commits
  {
    forall w | w in s.workers && Pending(s.workers[w].pc) ensures s.workers[w].pc.cnh.uid in s.commits {
      assert WorkerOk(s.workers[w], s.versions, s.podVersions, s.commits, s.feeds, s.now);
    }
  }

  lemma PendingDistinct(s: State, w: nat)
    requires Inv(s) && w in s.workers && Pending(s.workers[w].pc)
    ensures forall w' :: w' in s.workers && w' != w && Pending(s.workers[w'].pc) ==>
              s.workers[w'].pc.cnh.uid != s.workers[w].pc.cnh.uid
  {}

  lemma FeedKeepsWorkers(s: State, w: nat, pc: Pc)
    requires Inv(s) && At(s, w, pc) && pc.Recording?
    ensures WorkersOk(s.workers[w := Worker(ListingForCleanup(pc.cnh, AfterVerdict), s.now)], s.versions, s.podVersions, s.commits,
                      s.feeds + [Feed(pc.cnh.uid, Condemns(pc.cnh.status))], s.now)
  {
    var feeds := s.feeds + [Feed(pc.cnh.uid, Condemns(pc.cnh.status))];
    var workers := s.workers[w := Worker(ListingForCleanup(pc.cnh, AfterVerdict), s.now)];
    assert WorkerOk(s.workers[w], s.versions, s.podVersions, s.commits, s.feeds, s.now);
    assert forall uid :: uid != pc.cnh.uid && !Fed(s.feeds, uid) ==> !Fed(feeds, uid);
    forall w' | w' in workers ensures WorkerOk(workers[w'], s.versions, s.podVersions, s.commits, feeds, s.now) {
      if w' != w {
        assert WorkerOk(s.workers[w'], s.versions, s.podVersions, s.commits, s.feeds, s.now);
      }
    }
  }

  lemma FeedKeepsLedger(s: State, w: nat, pc: Pc)
    requires Inv(s) && At(s, w, pc) && pc.Recording?
    ensures LedgerOk(s.commits, s.feeds + [Feed(pc.cnh.uid, Condemns(pc.cnh.status))])
  {
    assert WorkerOk(s.workers[w], s.versions, s.podVersions, s.commits, s.feeds, s.now);
    assert VersionOk(pc.cnh, s.commits, s.now);
    forall i | 0 <= i < |s.feeds| ensures s.feeds[i].uid != pc.cnh.uid {
      assert s.feeds[i] in s.feeds;
    }
  }

  lemma RecordKeeps(s: State, w: nat, pc: Pc)
    requires Inv(s) && At(s, w, pc) && pc.Recording?
    ensures Keeps(s, Step(s, Record(w)))
  {
    hide VersionOk, VersionsOk, StoreOk, WorkerOk, WorkersOk, RunnerOk, RunnersOk, PodOk, PodsOk, LedgerOk;
    FeedKeepsWorkers(s, w, pc);
    FeedKeepsLedger(s, w, pc);
  }

  lemma UpdateFrame(s: State, pc: Pc, t: Time, reply: Reply)
    ensures var s' := UpdateEffect(s, pc, t, reply); s'.workers == s.workers && s'.now == s.now
  {
    hide Request, Accepted, Stored;
  }

  lemma EffectFrame(s: State, w: nat, pc: Pc, a: Action)
    requires Enabled(s, w, pc, a)
    ensures var s' := Effect(s, w, pc, a); s'.workers == s.workers && s'.now == s.now
  {
    hide UpdateEffect;
    if a.Update? {
      UpdateFrame(s, pc, a.t, a.reply);
    }
  }

  lemma WorkerStepKeeps(s: State, w: nat, pc: Pc, a: Action)
    requires Inv(s) && At(s, w, pc) && Enabled(s, w, pc, a) && !a.Record?
    ensures Keeps(s, Go(Effect(s, w, pc, a), w, NextPc(s, w, pc, a)))
  {
    hide VersionOk, VersionsOk, StoreOk, WorkerOk, WorkersOk, RunnerOk, RunnersOk, PodOk, PodsOk, LedgerOk;
    EffectKeeps(s, w, pc, a);
    EffectFrame(s, w, pc, a);
    NextOk(s, w, pc, a);
    if Pending(NextPc(s, w, pc, a)) {
      NextPending(s, w, pc, a);
    }
    GoKeepsInv(Effect(s, w, pc, a), w, NextPc(s, w, pc, a));
  }

  /** The first step of a worker can only be a Get. */
  lemma FirstStepKeeps(s: State, w: nat, a: Action)
    requires Inv(s) && w !in s.workers && Enabled(s, w, Idle(NeverRan), a)
    ensures Keeps(s, Go(Effect(s, w, Idle(NeverRan), a), w, NextPc(s, w, Idle(NeverRan), a)))
  {
    hide VersionOk, VersionsOk, StoreOk, WorkersOk, RunnerOk, RunnersOk, PodOk, PodsOk, LedgerOk;
    if a.Get? {
      ReadFacts(s, a.read);
    }
    GoKeepsInv(s, w, NextPc(s, w, Idle(NeverRan), a));
  }

  lemma EnvironmentKeeps(s: State, a: Action)
    requires Inv(s)
    ensures Keeps(s, Environment(s, a))
  {
    hide Inv, StoreMoves, DoUserTouches, DoKubeletReports, PodDeleted, DoRunnerFetches, DoRunnerReports, DoRunnerDies, DoKubeletRemoves;
    StoreKept(s);
    match a
    case Tick(elapsed) => TickKeeps(s, elapsed);
    case UserCreates(name, node) => CreateKeepsInv(s, name, node);
    case UserDeletes(name) => DeleteKeepsInv(s, name);
    case UserTouches(name) => TouchKeeps(s, name);
    case KubeletReports(name, phase, containers) => KubeletReportsKeeps(s, name, phase, containers);
    case PodEvicted(name) => EvictKeeps(s, name);
    case RunnerFetches(uid) => RunnerFetchesKeeps(s, uid);
    case RunnerReports(uid, results, reply) => RunnerReportsKeeps(s, uid, results, reply);
    case RunnerDies(uid) => RunnerDiesKeeps(s, uid);
    case KubeletRemoves(name) => KubeletRemovesKeeps(s, name);
    case _ =>
  }

  lemma KubeletRemovesKeeps(s: State, name: string)
    requires Inv(s)
    ensures Keeps(s, DoKubeletRemoves(s, name))
  {}

  lemma RunnerDiesKeeps(s: State, uid: nat)
    requires Inv(s)
    ensures Keeps(s, DoRunnerDies(s, uid))
  {
    if uid in s.runners && !s.runners[uid].pc.ExitedOk? {
      assert RunnerOk(s.runners[uid], s.crs, s.versions, s.last);
      GoRunnerKeepsInv(s, uid, ExitedWithError);
    }
  }

  /** Every step of every process keeps the invariant and moves stored statuses forward only. */
  lemma StepKeeps(s: State, a: Action)
    requires Inv(s)
    ensures Keeps(s, Step(s, a))
  {
    hide Effect, NextPc, VersionOk, VersionsOk, StoreOk, WorkerOk, WorkersOk, RunnerOk, RunnersOk, PodOk, PodsOk, LedgerOk;
    match Actor(a)
    case None => EnvironmentKeeps(s, a);
    case Some(w) =>
      var pc := PcOf(s, w);
      if Enabled(s, w, pc, a) {
        if w !in s.workers {
          FirstStepKeeps(s, w, a);
        } else if a.Record? {
          RecordKeeps(s, w, pc);
        } else {
          WorkerStepKeeps(s, w, pc, a);
        }
      }
  }

  lemma TickKeeps(s: State, elapsed: nat)
    requires Inv(s)
    ensures Keeps(s, s.(now := s.now + elapsed))
  {
    var s' := s.(now := s.now + elapsed);
    forall v | v in s.versions ensures VersionOk(v, s.commits, s'.now) {
      assert VersionOk(v, s.commits, s.now);
    }
    forall w | w in s.workers ensures WorkerOk(s.workers[w], s.versions, s.podVersions, s.commits, s.feeds, s'.now) {
      assert WorkerOk(s.workers[w], s.versions, s.podVersions, s.commits, s.feeds, s.now);
    }
  }
}
