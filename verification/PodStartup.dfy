/** One run of the pod-startup checker: garbage collection, storage classes, claims, a node pool if node
    provisioning is tested, a pod, the measurement, and the deferred deletions. */
module PodStartup {
  import opened Api
  import Int64
  import opened SyntheticObjects
  import opened Volumes
  import opened Validation
  import opened TcpRetry

  // ----- What the cluster does in a run -----

  datatype Answer = Found | NotFound | Failing

  datatype Poll = Running(after: Time) | PollDeadline | PollFailed

  datatype Pull = Pulled(took: Time) | PullUnknown

  /** How the start of the pod goes: until its container runs, of which pulling the image, and then over TCP. */
  datatype Startup = Startup(poll: Poll, pull: Pull, hasIp: bool, dials: seq<Dial>, waits: seq<Wait>)

  datatype Others = Others(pods: Disturbance, pvcs: Disturbance, pools: Disturbance)

  /** Everything the cluster decides. Others act between the phases of the run: others(k) between the
      k-th and the next. podDeadline: a failed creation of the pod was the deadline of the run. */
  datatype Script = Script(
    collectPods: Collection,
    collectPools: Collection,
    collectPvcs: Collection,
    lookups: seq<Answer>,
    listPvcs: Reply,
    createPvcs: seq<Reply>,
    listPods: Reply,
    crd: Answer,
    createPool: Reply,
    createPod: Reply,
    podDeadline: bool,
    startup: Startup,
    deletePod: Reply,
    deletePool: Reply,
    deletePvcs: seq<Reply>,
    others: nat -> Others)

  ghost predicate Fits(script: Script, c: PodStartupConfig) {
    && |script.lookups| == |script.createPvcs| == |script.deletePvcs| == |Csis(c)|
    && Plausible(c, script.startup.dials, script.startup.waits)
  }

  predicate AllDone(replies: seq<Reply>) {
    forall r :: r in replies ==> r.Done?
  }

  /** Every create and delete of the run itself is answered with success. */
  predicate Working(script: Script) {
    && AllDone(script.createPvcs) && AllDone(script.deletePvcs)
    && script.createPool.Done? && script.createPod.Done? && script.deletePod.Done? && script.deletePool.Done?
  }

  // ----- The result -----

  datatype Code =
    | StorageClassNotFound
    | PodCreationTimeout
    | PodCreationError
    | PodStartupDurationExceeded
    | RequestTimeoutCode
    | RequestFailedCode

  datatype Outcome = CheckHealthy | CheckUnhealthy(code: Code) | CheckSkipped | CheckError

  /** Rounds to whole seconds, and halves away from zero. */
  function RoundToSeconds(d: Time): (r: Time)
    ensures r % SECOND == 0 && -SECOND <= 2 * (r - d) <= SECOND
    ensures 2 * (r - d) == SECOND ==> d > 0
    ensures 2 * (r - d) == -SECOND ==> d < 0
  {
    var magnitude := if d < 0 then -d else d;
    var rest := magnitude % SECOND;
    var rounded := if rest + rest < SECOND then magnitude - rest else magnitude + SECOND - rest;
    assert rounded % SECOND == 0;
    if d < 0 then -rounded else rounded
  }

  /** Against a timeout of whole seconds, rounding condemns half a second early. */
  lemma CondemnedHalfASecondEarly(d: Time, timeout: Time)
    requires timeout > 0 && timeout % SECOND == 0
    ensures RoundToSeconds(d) >= timeout <==> d >= timeout - SECOND / 2
  {
    var r := RoundToSeconds(d);
    var k, t := r / SECOND, timeout / SECOND;
    assert r == k * SECOND && timeout == t * SECOND;
    if r < timeout {
      assert k <= t - 1;
    }
  }

  /** How long the pod took to start without pulling its image. */
  function StartupDuration(s: Startup): Time
    requires s.poll.Running? && s.pull.Pulled?
  {
    RoundToSeconds(Int64.Wrap(s.poll.after - s.pull.took))
  }

  /** The container ran in time and has an address. */
  predicate StartedInTime(c: PodStartupConfig, s: Startup) {
    s.poll.Running? && s.pull.Pulled? && StartupDuration(s) < c.syntheticPodStartupTimeout && s.hasIp
  }

  predicate StartedLate(c: PodStartupConfig, s: Startup) {
    s.poll.PollDeadline? || (s.poll.Running? && s.pull.Pulled? && StartupDuration(s) >= c.syntheticPodStartupTimeout)
  }

  ghost predicate Connects(s: Startup) {
    exists last: nat :: EndsFirstAt(s.dials, s.waits, last) && s.dials[last].outcome.Connected?
  }

  ghost predicate OnlyTimeouts(s: Startup) {
    exists last: nat :: EndsFirstAt(s.dials, s.waits, last) && TimedOutUntil(s, last)
  }

  ghost predicate TimedOutUntil(s: Startup, last: nat)
    requires last < |s.dials| == |s.waits|
  {
    && (forall i :: 0 <= i <= last ==> s.dials[i].outcome.DialTimedOut?)
    && (last < |s.dials| - 1 ==> s.waits[last].deadline)
  }

  /** The result once there is a pod. */
  ghost predicate Measured(c: PodStartupConfig, s: Startup, result: Outcome) {
    && (result == CheckHealthy <==> StartedInTime(c, s) && Connects(s))
    && (result == CheckUnhealthy(RequestTimeoutCode) <==> StartedInTime(c, s) && OnlyTimeouts(s))
    && (result == CheckUnhealthy(RequestFailedCode) <==> StartedInTime(c, s) && !Connects(s) && !OnlyTimeouts(s))
    && (result == CheckUnhealthy(PodStartupDurationExceeded) <==> StartedLate(c, s))
    && (result == CheckError <==> !StartedInTime(c, s) && !StartedLate(c, s))
  }

  /** r is d in whole seconds, halves rounded away from zero. */
  predicate RoundsTo(d: Time, r: Time) {
    && r % 1_000_000_000 == 0
    && -1_000_000_000 <= 2 * (r - d) <= 1_000_000_000
    && (2 * (r - d) == 1_000_000_000 ==> d > 0) && (2 * (r - d) == -1_000_000_000 ==> d < 0)
  }

  /** The verdict over the times as they were measured: from the creation of the pod to its running container,
      without the time its image took to pull. */
  ghost predicate JudgedByTimes(c: PodStartupConfig, s: Startup, result: Outcome)
    requires s.poll.Running? && s.pull.Pulled?
  {
    exists r :: JudgedBy(c, s, result, r)
  }

  ghost predicate JudgedBy(c: PodStartupConfig, s: Startup, result: Outcome, r: Time)
    requires s.poll.Running? && s.pull.Pulled?
  {
    && RoundsTo(s.poll.after - s.pull.took, r)
    && (result == CheckUnhealthy(PodStartupDurationExceeded) <==> r >= c.syntheticPodStartupTimeout)
    && (result == CheckHealthy <==> r < c.syntheticPodStartupTimeout && s.hasIp && Connects(s))
    && (result == CheckUnhealthy(RequestTimeoutCode) <==> r < c.syntheticPodStartupTimeout && s.hasIp && OnlyTimeouts(s))
    && (result == CheckUnhealthy(RequestFailedCode) <==> r < c.syntheticPodStartupTimeout && s.hasIp && !Connects(s) && !OnlyTimeouts(s))
  }

  lemma MeasuredByTimes(c: PodStartupConfig, s: Startup, result: Outcome)
    requires Measured(c, s, result)
    ensures s.poll.Running? && s.pull.Pulled? && Int64.InRange(s.poll.after - s.pull.took) ==> JudgedByTimes(c, s, result)
    ensures s.poll.PollDeadline? ==> result == CheckUnhealthy(PodStartupDurationExceeded)
    ensures s.poll.PollFailed? || (s.poll.Running? && s.pull.PullUnknown?) ==> result == CheckError
  {
    hide Connects, OnlyTimeouts;
    if s.poll.Running? && s.pull.Pulled? && Int64.InRange(s.poll.after - s.pull.took) {
      assert JudgedBy(c, s, result, StartupDuration(s));
    }
  }

  lemma EndsOnce(s: Startup, a: nat, b: nat)
    requires EndsFirstAt(s.dials, s.waits, a) && EndsFirstAt(s.dials, s.waits, b)
    ensures a == b
  {}

  method Measure(c: PodStartupConfig, s: Startup) returns (result: Outcome)
    requires c.tcpMaxRetries >= 0 && Plausible(c, s.dials, s.waits)
    ensures Measured(c, s, result)
  {
    if s.poll.PollDeadline? {
      return CheckUnhealthy(PodStartupDurationExceeded);
    }
    if s.poll.PollFailed? || s.pull.PullUnknown? {
      return CheckError;
    }
    var podStartupDuration := StartupDuration(s);
    if podStartupDuration >= c.syntheticPodStartupTimeout {
      return CheckUnhealthy(PodStartupDurationExceeded);
    }
    if !s.hasIp {
      return CheckError;
    }
    var verdict, last := CheckTcp(c, s.dials, s.waits);
    forall other: nat | EndsFirstAt(s.dials, s.waits, other) ensures other == last {
      EndsOnce(s, other, last);
    }
    assert Connects(s) <==> verdict.TcpHealthy?;
    assert OnlyTimeouts(s) <==> TimedOutUntil(s, last);
    match verdict
    case TcpHealthy => return CheckHealthy;
    case RequestTimeout => return CheckUnhealthy(RequestTimeoutCode);
    case RequestFailed => return CheckUnhealthy(RequestFailedCode);
  }

  lemma MeasuredKinds(c: PodStartupConfig, s: Startup, result: Outcome)
    requires Measured(c, s, result)
    ensures !result.CheckSkipped?
    ensures result.CheckUnhealthy? ==> result.code !in {StorageClassNotFound, PodCreationTimeout, PodCreationError}
  {}

  predicate FirstMissing(lookups: seq<Answer>, answer: Answer) {
    exists i :: 0 <= i < |lookups| && lookups[i] == answer && forall j :: 0 <= j < i ==> lookups[j] == Found
  }

  predicate AllFound(lookups: seq<Answer>) {
    forall i :: 0 <= i < |lookups| ==> lookups[i] == Found
  }

  /** The first lookup that is not found, or fails, decides. */
  method ValidateStorageClasses(lookups: seq<Answer>) returns (answer: Answer)
    ensures answer == Found <==> AllFound(lookups)
    ensures answer == NotFound <==> FirstMissing(lookups, NotFound)
    ensures answer == Failing <==> FirstMissing(lookups, Failing)
  {
    for i := 0 to |lookups|
      invariant forall j :: 0 <= j < i ==> lookups[j] == Found
    {
      if lookups[i] != Found {
        return lookups[i];
      }
    }
    return Found;
  }

  /** Nothing the server says before the pod phase stands in the way. */
  predicate Passes(script: Script, c: PodStartupConfig) {
    && AllFound(script.lookups) && (Csis(c) != [] ==> script.listPvcs.Done?)
    && AllDone(script.createPvcs) && script.listPods.Done?
  }

  /** poolFree, podFree: the name of the node pool, or of the pod, is not taken. */
  predicate Provisioned(script: Script, c: PodStartupConfig, poolFree: bool) {
    c.enableNodeProvisioningTest ==> script.crd == Found && script.createPool.Done? && poolFree
  }

  /** The result of the pod phase when the limit on pods leaves room. */
  ghost predicate PodPhase(script: Script, c: PodStartupConfig, result: Outcome, podFree: bool, poolFree: bool) {
    && (result == CheckSkipped <==> c.enableNodeProvisioningTest && script.crd == NotFound)
    && (Provisioned(script, c, poolFree) ==> PodResult(script, c, result, podFree))
    && (!Provisioned(script, c, poolFree) && result != CheckSkipped ==> result == CheckError)
  }

  /** The result from the creation of the pod on. */
  ghost predicate PodResult(script: Script, c: PodStartupConfig, result: Outcome, podFree: bool) {
    var (created, timedOut) := (script.createPod.Done? && podFree, !script.createPod.Done? && script.podDeadline);
    && (result == CheckUnhealthy(PodCreationTimeout) <==> !created && timedOut)
    && (result == CheckUnhealthy(PodCreationError) <==> !created && !timedOut)
    && (created ==> Measured(c, script.startup, result))
    && result != CheckSkipped
  }

  /** What the result says when it is not that of a measurement. */
  lemma PodPhaseMeans(script: Script, c: PodStartupConfig, result: Outcome, podFree: bool, poolFree: bool)
    requires PodPhase(script, c, result, podFree, poolFree)
    ensures result == CheckSkipped ==> c.enableNodeProvisioningTest && script.crd == NotFound
    ensures result == CheckUnhealthy(PodCreationTimeout) ==> !script.createPod.Done? && script.podDeadline
    ensures result == CheckUnhealthy(PodCreationError) ==> (!script.createPod.Done? && !script.podDeadline) || (script.createPod.Done? && !podFree)
    ensures (c.enableNodeProvisioningTest ==> script.crd == Found && script.createPool.Done? && poolFree) ==>
              (result.CheckUnhealthy? && result.code in {PodCreationTimeout, PodCreationError} <==> !(script.createPod.Done? && podFree))
    ensures c.enableNodeProvisioningTest && (script.crd == Failing || (script.crd == Found && !(script.createPool.Done? && poolFree))) ==> result == CheckError
  {
    hide Plausible, Connects, OnlyTimeouts, StartedInTime, StartedLate;
  }

  // ----- The checker -----

  class Checker {
    /** In lower case. */
    const name: string
    const timeout: Time
    const config: PodStartupConfig
    const pods: Store
    const pvcs: Store
    const pools: Store
    const clock: Clock

    ghost predicate Valid()
      reads this, pods, pvcs, pools
    {
      && pods != pvcs && pvcs != pools && pools != pods
      && pods.Valid() && pvcs.Valid() && pools.Valid()
      && config.maxSyntheticPods > 0 && config.tcpMaxRetries >= 0
    }

    constructor (name: string, timeout: Time, config: PodStartupConfig, pods: Store, pvcs: Store, pools: Store, clock: Clock)
      requires pods != pvcs && pvcs != pools && pools != pods
      requires pods.Valid() && pvcs.Valid() && pools.Valid()
      requires config.maxSyntheticPods > 0 && config.tcpMaxRetries >= 0
      ensures Valid() && this.name == name && this.timeout == timeout && this.config == config
      ensures this.pods == pods && this.pvcs == pvcs && this.pools == pools && this.clock == clock
    {
      this.name, this.timeout, this.config := name, timeout, config;
      this.pods, this.pvcs, this.pools, this.clock := pods, pvcs, pools, clock;
    }

    function PodName(stamp: string): string {
      name + "-synthetic-" + stamp
    }

    function NodePoolName(stamp: string): string {
      name + "-nodepool-" + stamp
    }

    /** The limit on claims, as it is computed. */
    function ClaimLimit(): int {
      Int64.Wrap(config.maxSyntheticPods * |Csis(config)|)
    }

    /** A run starts below the limit and adds n claims. */
    function MaxPvcs(): nat {
      if ClaimLimit() > 0 then ClaimLimit() + |Csis(config)| - 1 else 0
    }

    /** At no time more pods than M, nor more claims than MaxPvcs. */
    ghost predicate WithinBounds()
      reads this, pods, pvcs
    {
      pods.peak <= config.maxSyntheticPods && pvcs.peak <= MaxPvcs()
    }

    /** The bound is (M+1)n - 1 unless the product overflows, and then it is less. */
    lemma MaxPvcsIs()
      requires config.maxSyntheticPods > 0 && Csis(config) != []
      ensures MaxPvcs() <= (config.maxSyntheticPods + 1) * |Csis(config)| - 1
      ensures Int64.InRange(config.maxSyntheticPods * |Csis(config)|) <==> MaxPvcs() == (config.maxSyntheticPods + 1) * |Csis(config)| - 1
    {
      var m, n := config.maxSyntheticPods, |Csis(config)|;
      assert (m + 1) * n == m * n + n && m * n >= n;
      Int64.WrapAtMost(m * n);
    }

    method Interfere(o: Others)
      requires Valid()
      modifies pods`objects, pvcs`objects, pools`objects, clock
      ensures Valid() && pods.objects == Disturbed(old(pods.objects), o.pods) && LessOf(old(pods.objects), pods.objects)
      ensures pvcs.objects == Disturbed(old(pvcs.objects), o.pvcs) && LessOf(old(pvcs.objects), pvcs.objects)
      ensures pools.objects == Disturbed(old(pools.objects), o.pools) && LessOf(old(pools.objects), pools.objects)
    {
      pods.Disturb(o.pods);
      pvcs.Disturb(o.pvcs);
      pools.Disturb(o.pools);
      var _ := clock.Read();
    }

    /** Pods, node pools if they are used, and claims are collected one after another, each whether or not
        another collection fails; node pools however old they are. */
    method GarbageCollect(script: Script) returns (ok: bool, ghost podsDue: set<string>, ghost pvcsDue: set<string>)
      requires Valid()
      modifies pods`objects, pools`objects, pvcs`objects, clock
      ensures Valid() && old(clock.now) <= clock.now
      ensures script.collectPods.list.Done? ==>
                Outdated(old(pods.objects), timeout, old(clock.now)) <= podsDue <= Outdated(old(pods.objects), timeout, clock.now)
      ensures script.collectPvcs.list.Done? ==>
                Outdated(old(pvcs.objects), timeout, old(clock.now)) <= pvcsDue <= Outdated(old(pvcs.objects), timeout, clock.now)
      ensures (!script.collectPods.list.Done? ==> podsDue == {}) && (!script.collectPvcs.list.Done? ==> pvcsDue == {})
      ensures pods.objects == Deleted(old(pods.objects), podsDue, script.collectPods)
      ensures pvcs.objects == Deleted(old(pvcs.objects), pvcsDue, script.collectPvcs)
      ensures pools.objects == if config.enableNodeProvisioningTest && script.collectPools.list.Done?
                               then Deleted(old(pools.objects), Mine(old(pools.objects)), script.collectPools) else old(pools.objects)
      ensures ok <==> && Succeeds(podsDue, script.collectPods) && Succeeds(pvcsDue, script.collectPvcs)
                      && (config.enableNodeProvisioningTest ==> Succeeds(Mine(old(pools.objects)), script.collectPools))
    {
      hide Deleted, Succeeds, Mine, Outdated;
      ok, podsDue := CollectGarbage(pods, clock, timeout, script.collectPods);
      ghost var between := clock.now;
      if config.enableNodeProvisioningTest {
        var poolsOk := DeleteAll(pools, script.collectPools);
        ok := ok && poolsOk;
      }
      var pvcsOk;
      pvcsOk, pvcsDue := CollectGarbage(pvcs, clock, timeout, script.collectPvcs);
      ok := ok && pvcsOk;
      OutdatedGrows(old(pods.objects), timeout, between, clock.now);
      OutdatedGrows(old(pvcs.objects), timeout, old(clock.now), between);
    }

    lemma OutdatedGrows(objects: Objects, timeout: Time, a: Time, b: Time)
      requires a <= b
      ensures Outdated(objects, timeout, a) <= Outdated(objects, timeout, b)
    {}

    /** Passes exactly if no claims are used or there are fewer than the limit. */
    method CheckCsiResourceLimit(reply: Reply) returns (ok: bool)
      requires Valid()
      ensures ok <==> Csis(config) == [] || (reply.Done? && |Mine(pvcs.objects)| < ClaimLimit())
    {
      if |Csis(config)| == 0 {
        return true;
      }
      var items;
      ok, items := pvcs.List(reply);
      assert ok ==> |items.Keys| == |items|;
      if ok && |items| >= Int64.Wrap(config.maxSyntheticPods * |Csis(config)|) {
        ok := false;
      }
    }

    ghost predicate Fresh(podObjects: Objects, pvcObjects: Objects, poolObjects: Objects, stamp: string) {
      PodName(stamp) !in podObjects && PvcNames(Csis(config), stamp) !! pvcObjects.Keys && NodePoolName(stamp) !in poolObjects
    }

    /** Whether the name of the pod is free when it comes to it. */
    predicate PodFree(podObjects: Objects, stamp: string, script: Script) {
      PodName(stamp) !in Disturbed(podObjects, script.others(3).pods)
    }

    /** Creates the pod, on its node pool if there is one, and measures it. The deferred deletions of both
        are registered only once the pod has been created. */
    method CheckOnNodes(stamp: string, script: Script) returns (result: Outcome)
      requires Valid() && Fits(script, config) && |Mine(pods.objects)| < config.maxSyntheticPods
      modifies pods, pools`objects, clock
      ensures result != CheckUnhealthy(StorageClassNotFound)
      ensures Valid() && (pods.peak == old(pods.peak) || pods.peak <= config.maxSyntheticPods)
      ensures PodResult(script, config, result, PodFree(old(pods.objects), stamp, script))
      ensures script.createPod.Done? && script.deletePod.Done? && PodName(stamp) !in old(pods.objects) ==>
                Remains(old(pods.objects), pods.objects, {PodName(stamp)})
      ensures LessOf(old(pools.objects), pools.objects)
      ensures script.createPod.Done? && script.deletePool.Done? && PodName(stamp) !in old(pods.objects) && config.enableNodeProvisioningTest ==>
                (NodePoolName(stamp) in pools.objects ==> pools.objects[NodePoolName(stamp)].terminating)
      ensures !script.createPod.Done? ==> pools.objects == Disturbed(old(pools.objects), script.others(3).pools)
    {
      hide Mine, Measured, Plausible, Remains, LessOf, Disturbed, PodResult;
      ghost var before := pods.objects;
      pods.Disturb(script.others(3).pods);
      pools.Disturb(script.others(3).pools);
      ghost var free, poolsThen := pods.objects, pools.objects;
      FewerMine(before, free);
      StillFree(before, free, PodName(stamp));
      var now := clock.Read();
      var ok := pods.Create(PodName(stamp), now, script.createPod);
      if PodName(stamp) !in free {
        MineOfPut(free, PodName(stamp), Object(now, true, false));
      }
      NotCreated(script, config, PodName(stamp) !in free);
      if !ok {
        return CheckUnhealthy(if !script.createPod.Done? && script.podDeadline then PodCreationTimeout else PodCreationError);
      }
      result := MeasureAndDelete(stamp, script);
      Created(script, config, result);
      CreatedRemains(before, free, PodName(stamp), now, script.others(4).pods);
      LessTransitive(old(pools.objects), poolsThen, pools.objects);
    }

    /** The measurement, and the deferred deletions. */
    method MeasureAndDelete(stamp: string, script: Script) returns (result: Outcome)
      requires Valid() && Fits(script, config)
      modifies pods`objects, pools`objects, clock
      ensures result != CheckUnhealthy(StorageClassNotFound)
      ensures Valid() && Measured(config, script.startup, result)
      ensures script.deletePod.Done? ==> pods.objects == Marked(Disturbed(old(pods.objects), script.others(4).pods), {PodName(stamp)})
      ensures LessOf(old(pools.objects), pools.objects)
      ensures config.enableNodeProvisioningTest && script.deletePool.Done? ==>
                (NodePoolName(stamp) in pools.objects ==> pools.objects[NodePoolName(stamp)].terminating)
    {
      hide Mine, Measured, Plausible;
      result := Measure(config, script.startup);
      MeasuredKinds(config, script.startup, result);
      pods.Disturb(script.others(4).pods);
      pools.Disturb(script.others(4).pools);
      var ok := pods.Delete(PodName(stamp), script.deletePod);
      if config.enableNodeProvisioningTest {
        DeletedIsMarked(pools.objects, NodePoolName(stamp));
        ok := pools.Delete(NodePoolName(stamp), script.deletePool);
      }
    }

    lemma NotCreated(script: Script, c: PodStartupConfig, podFree: bool)
      ensures !(script.createPod.Done? && podFree) ==>
                PodResult(script, c, CheckUnhealthy(if !script.createPod.Done? && script.podDeadline then PodCreationTimeout else PodCreationError), podFree)
    {}

    lemma Created(script: Script, c: PodStartupConfig, result: Outcome)
      requires Measured(c, script.startup, result)
      ensures script.createPod.Done? ==> PodResult(script, c, result, true)
    {}

    lemma StillFree(before: Objects, after: Objects, name: string)
      ensures LessOf(before, after) && name !in before ==> name !in after
    {}

    /** The pod phase: below the limit on pods, creates the node pool if one is needed, then the pod. A
        node pool whose pod could not be created stays. */
    method CheckPod(stamp: string, script: Script) returns (result: Outcome)
      requires Valid() && Fits(script, config)
      modifies pods, pools, clock
      ensures result != CheckUnhealthy(StorageClassNotFound)
      ensures Valid() && (pods.peak == old(pods.peak) || pods.peak <= config.maxSyntheticPods)
      ensures !(script.listPods.Done? && |Mine(old(pods.objects))| < config.maxSyntheticPods) ==>
                result == CheckError && pods.objects == old(pods.objects) && pools.objects == old(pools.objects)
      ensures script.listPods.Done? && |Mine(old(pods.objects))| < config.maxSyntheticPods ==>
                var poolFree := NodePoolName(stamp) !in old(pools.objects);
                && PodPhase(script, config, result, PodFree(old(pods.objects), stamp, script), poolFree)
                && (poolFree && PoolStranded(script) ==> NodePoolName(stamp) in pools.objects && !pools.objects[NodePoolName(stamp)].terminating)
      ensures Working(script) && PodName(stamp) !in old(pods.objects) ==> Remains(old(pods.objects), pods.objects, {PodName(stamp)})
      ensures Working(script) && PodName(stamp) !in old(pods.objects) && NodePoolName(stamp) !in old(pools.objects) ==>
                Remains(old(pools.objects), pools.objects, {NodePoolName(stamp)})
    {
      hide Mine, Measured, Remains, LessOf, Disturbed, Plausible, PodResult;
      var ok, items := pods.List(script.listPods);
      assert ok ==> |items.Keys| == |items|;
      NothingRemains(pods.objects, {PodName(stamp)});
      NothingRemains(pools.objects, {NodePoolName(stamp)});
      if !ok || |items| >= config.maxSyntheticPods {
        return CheckError;
      }
      if config.enableNodeProvisioningTest {
        if script.crd != Found {
          return if script.crd == NotFound then CheckSkipped else CheckError;
        }
        var now := clock.Read();
        ok := pools.Create(NodePoolName(stamp), now, script.createPool);
        if !ok {
          return CheckError;
        }
        ghost var before, created := old(pools.objects), pools.objects;
        result := CheckOnNodes(stamp, script);
        PoolRemains(before, created, pools.objects, NodePoolName(stamp), now);
        PoolStays(before, NodePoolName(stamp), now);
      } else {
        result := CheckOnNodes(stamp, script);
        LessRemains(old(pools.objects), pools.objects, {NodePoolName(stamp)});
      }
      PhaseOfResult(script, config, result, PodFree(old(pods.objects), stamp, script), NodePoolName(stamp) !in old(pools.objects));
    }

    /** The node pool is made, the pod is not, and nobody else removes the pool. */
    predicate PoolStranded(script: Script) {
      && config.enableNodeProvisioningTest && script.crd == Found && script.createPool.Done?
      && !script.createPod.Done? && script.others(3).pools == UNDISTURBED
    }

    lemma PhaseOfResult(script: Script, c: PodStartupConfig, result: Outcome, podFree: bool, poolFree: bool)
      ensures PodResult(script, c, result, podFree) && Provisioned(script, c, poolFree) ==> PodPhase(script, c, result, podFree, poolFree)
    {}

    /** The rest of the run, with the claims created at now in place and their deletion registered. */
    method CheckWithVolumes(stamp: string, script: Script, ghost start: Objects, ghost now: Time) returns (result: Outcome)
      requires Valid() && Fits(script, config) && Extended(start, pvcs.objects, PvcNames(Csis(config), stamp), now)
      modifies pods, pvcs`objects, pools, clock
      ensures result != CheckUnhealthy(StorageClassNotFound)
      ensures Valid() && (pods.peak == old(pods.peak) || pods.peak <= config.maxSyntheticPods)
      ensures Inert(script) ==> pvcs.objects == old(pvcs.objects)
      ensures Working(script) && Creatable(Csis(config)) ==> Remains(start, pvcs.objects, PvcNames(Csis(config), stamp))
      ensures Working(script) && PodName(stamp) !in old(pods.objects) ==> Remains(old(pods.objects), pods.objects, {PodName(stamp)})
      ensures Working(script) && PodName(stamp) !in old(pods.objects) && NodePoolName(stamp) !in old(pools.objects) ==>
                Remains(old(pools.objects), pools.objects, {NodePoolName(stamp)})
      ensures !(script.listPods.Done? && |Mine(old(pods.objects))| < config.maxSyntheticPods) ==> result == CheckError
      ensures script.listPods.Done? && |Mine(old(pods.objects))| < config.maxSyntheticPods ==>
                PodPhase(script, config, result, PodFree(old(pods.objects), stamp, script), NodePoolName(stamp) !in old(pools.objects))
    {
      hide PvcNames, Mine, Extended, Remains, LessOf, Disturbed, Plausible, PodPhase, Marked, Creatable;
      result := CheckPod(stamp, script);
      ghost var podsLeft, pvcsLeft, poolsLeft := pods.objects, pvcs.objects, pools.objects;
      Interfere(script.others(5));
      RemainsLess(old(pods.objects), podsLeft, pods.objects, {PodName(stamp)});
      RemainsLess(old(pools.objects), poolsLeft, pools.objects, {NodePoolName(stamp)});
      ghost var before := pvcs.objects;
      DisturbedLess(pvcsLeft, script.others(5).pvcs);
      var _, stopped := DeleteCsiResources(pvcs, Csis(config), stamp, script.deletePvcs);
      DeletionsFollow(stamp, script, before, stopped);
      CreatedAndDeleted(start, pvcsLeft, before, PvcNames(Csis(config), stamp), now);
    }

    /** Claims are not disturbed, not collected, and none of them is deleted. */
    ghost predicate Inert(script: Script) {
      && !script.collectPvcs.list.Done?
      && (forall k :: script.others(k).pvcs == UNDISTURBED)
      && (forall r :: r in script.deletePvcs ==> r.Refused?)
    }

    lemma DeletionsFollow(stamp: string, script: Script, before: Objects, stopped: nat)
      requires Fits(script, config) && stopped <= |Csis(config)|
      requires forall i :: 0 <= i < stopped ==> !Csis(config)[i].kind.UnsupportedCsi? && script.deletePvcs[i].Done?
      requires stopped < |Csis(config)| ==> Csis(config)[stopped].kind.UnsupportedCsi? || !script.deletePvcs[stopped].Done?
      ensures var after := Marked(before, PvcNames(Csis(config)[..Reached(Csis(config), script.deletePvcs, stopped)], stamp));
              && (Inert(script) ==> after == before)
              && (Working(script) && Creatable(Csis(config)) ==> after == Marked(before, PvcNames(Csis(config), stamp)))
    {
      hide PvcNames, Plausible;
      var csis, replies := Csis(config), script.deletePvcs;
      NoneMarked(before, stamp);
      assert csis[..0] == [] && csis[..|csis|] == csis;
      if stopped > 0 {
        assert replies[0] in replies;
      }
      if stopped < |csis| {
        assert replies[stopped] in replies;
      }
    }

    /** From the creation of the claims on, below their limit. */
    method CreateAndCheck(stamp: string, script: Script) returns (result: Outcome)
      requires Valid() && Fits(script, config) && (Csis(config) == [] || |Mine(pvcs.objects)| < ClaimLimit())
      modifies pods, pvcs, pools, clock
      ensures result != CheckUnhealthy(StorageClassNotFound)
      ensures Valid() && (old(WithinBounds()) ==> WithinBounds())
      ensures Working(script) && Creatable(Csis(config)) && Fresh(old(pods.objects), old(pvcs.objects), old(pools.objects), stamp) ==>
                LeavesNothing(old(pods.objects), old(pvcs.objects), old(pools.objects), stamp)
      ensures Inert(script) ==> exists created, now :: ClaimsLeft(old(pvcs.objects), pvcs.objects, Csis(config), stamp, script.createPvcs, created, now)
      ensures !CanCreate(old(pvcs.objects), Csis(config), stamp, script.createPvcs) || !script.listPods.Done? ==> result == CheckError
      ensures |Mine(old(pods.objects))| >= config.maxSyntheticPods ==> result == CheckError
      ensures CanCreate(old(pvcs.objects), Csis(config), stamp, script.createPvcs) && script.listPods.Done?
              && |Mine(old(pods.objects))| < config.maxSyntheticPods ==>
                PodPhase(script, config, result, PodFree(old(pods.objects), stamp, script), NodePoolName(stamp) !in old(pools.objects))
    {
      hide PvcNames, Creatable, Mine, Extended, MaxPvcs, Plausible, Remains, PodPhase, CanCreate, StopsAt, Working, Inert, Csis;
      var now := clock.Read();
      var ok, created := CreateCsiResources(pvcs, Csis(config), stamp, now, script.createPvcs);
      ClaimsBounded(|Mine(old(pvcs.objects))|, old(pvcs.peak), pvcs.peak);
      NothingLeft(stamp, script, old(pvcs.objects));
      if !ok {
        return CheckError;
      }
      assert Csis(config)[..created] == Csis(config);
      result := CheckWithVolumes(stamp, script, old(pvcs.objects), now);
    }

    /** Everything that is left from this run is being deleted. */
    ghost predicate LeavesNothing(podObjects: Objects, pvcObjects: Objects, poolObjects: Objects, stamp: string)
      reads pods, pvcs, pools
    {
      && Remains(podObjects, pods.objects, {PodName(stamp)})
      && Remains(pvcObjects, pvcs.objects, PvcNames(Csis(config), stamp))
      && Remains(poolObjects, pools.objects, {NodePoolName(stamp)})
    }

    lemma NothingLeft(stamp: string, script: Script, start: Objects)
      ensures Working(script) && Creatable(Csis(config)) && PvcNames(Csis(config), stamp) !! start.Keys ==>
                CanCreate(start, Csis(config), stamp, script.createPvcs)
    {}

    lemma ClaimsBounded(mine: nat, peak: nat, peak': nat)
      requires Csis(config) == [] || mine < ClaimLimit()
      requires mine <= peak && (peak' == peak || peak' <= mine + |Csis(config)|)
      ensures peak <= MaxPvcs() ==> peak' <= MaxPvcs()
    {}

    /** One run. It keeps the bounds at every moment. If its creates and deletes succeed, the claims can be
        created and the names are free, everything it leaves is being deleted. */
    method Check(stamp: string, script: Script) returns (result: Outcome)
      requires Valid() && Fits(script, config)
      modifies pods, pvcs, pools, clock
      ensures Valid() && (old(WithinBounds()) ==> WithinBounds())
      ensures Working(script) && Creatable(Csis(config)) && Fresh(old(pods.objects), old(pvcs.objects), old(pools.objects), stamp) ==>
                LeavesNothing(old(pods.objects), old(pvcs.objects), old(pools.objects), stamp)
      ensures Inert(script) && AllFound(script.lookups) && script.listPvcs.Done? && |Mine(old(pvcs.objects))| < ClaimLimit() ==>
                exists created, now :: ClaimsLeft(old(pvcs.objects), pvcs.objects, Csis(config), stamp, script.createPvcs, created, now)
      ensures result == CheckUnhealthy(StorageClassNotFound) <==> FirstMissing(script.lookups, NotFound)
      ensures !Passes(script, config) || !Creatable(Csis(config)) ==> result == CheckError || result == CheckUnhealthy(StorageClassNotFound)
      ensures Unobstructed(old(pods.objects), old(pvcs.objects), old(pools.objects), stamp, script) ==> PodPhase(script, config, result, true, true)
      ensures Kept(script) ==> Decided(old(pods.objects), old(pvcs.objects), old(pools.objects), stamp, script, result)
    {
      hide PvcNames, Creatable, Mine, Plausible, Remains, PodPhase, CanCreate, Working, Csis, LessOf, Fresh, LeavesNothing, ClaimsLeft, MaxPvcs, Decided, SameNames, Kept;
      var proceed;
      proceed, result := Prepare(script);
      Earlier(stamp, script, old(pods.objects), old(pvcs.objects), old(pools.objects), pods.objects, pvcs.objects, pools.objects);
      if !proceed {
        NothingCame(stamp, old(pods.objects), old(pvcs.objects), old(pools.objects));
        DecidedEarly(stamp, script, old(pods.objects), old(pvcs.objects), old(pools.objects));
        return;
      }
      NamesOfRun(stamp, script, pods.objects, pvcs.objects, pools.objects);
      ghost var podsThen, pvcsThen, poolsThen := pods.objects, pvcs.objects, pools.objects;
      result := CreateAndCheck(stamp, script);
      FoundIsNotMissing(script);
      if Kept(script) {
        DecidedThen(stamp, script, old(pods.objects), old(pvcs.objects), old(pools.objects), podsThen, pvcsThen, poolsThen, result);
      }
      LeavesNothingSince(stamp, old(pods.objects), old(pvcs.objects), old(pools.objects), podsThen, pvcsThen, poolsThen);
    }

    /** Others take no object away. */
    ghost predicate Kept(script: Script) {
      forall k :: script.others(k).pods.gone == {} && script.others(k).pvcs.gone == {} && script.others(k).pools.gone == {}
    }

    /** The result as the objects at the start decide it: by the storage classes, the two limits, the claims,
        and the pod phase, in this order. */
    ghost predicate Decided(podObjects: Objects, pvcObjects: Objects, poolObjects: Objects, stamp: string, script: Script, result: Outcome) {
      if !AllFound(script.lookups) then
        result == if FirstMissing(script.lookups, NotFound) then CheckUnhealthy(StorageClassNotFound) else CheckError
      else if Obstructed(podObjects, pvcObjects, stamp, script) then
        result == CheckError
      else
        PodPhase(script, config, result, PodName(stamp) !in podObjects, NodePoolName(stamp) !in poolObjects)
    }

    /** A limit is reached, a list fails, or the claims cannot all be created. */
    ghost predicate Obstructed(podObjects: Objects, pvcObjects: Objects, stamp: string, script: Script) {
      || (Csis(config) != [] && (!script.listPvcs.Done? || |Mine(pvcObjects)| >= ClaimLimit()))
      || !CanCreate(pvcObjects, Csis(config), stamp, script.createPvcs)
      || !script.listPods.Done? || |Mine(podObjects)| >= config.maxSyntheticPods
    }

    /** Collection, storage classes and the limit on claims. */
    method Prepare(script: Script) returns (proceed: bool, result: Outcome)
      requires Valid() && Fits(script, config)
      modifies pods`objects, pvcs`objects, pools`objects, clock
      ensures Valid()
      ensures LessOf(old(pods.objects), pods.objects) && LessOf(old(pvcs.objects), pvcs.objects) && LessOf(old(pools.objects), pools.objects)
      ensures Inert(script) ==> pvcs.objects == old(pvcs.objects)
      ensures proceed ==> AllFound(script.lookups) && (Csis(config) == [] || (script.listPvcs.Done? && |Mine(pvcs.objects)| < ClaimLimit()))
      ensures AllFound(script.lookups) && (Csis(config) == [] || (script.listPvcs.Done? && |Mine(old(pvcs.objects))| < ClaimLimit())) ==> proceed
      ensures Kept(script) ==>
                SameNames(old(pods.objects), pods.objects) && SameNames(old(pvcs.objects), pvcs.objects) && SameNames(old(pools.objects), pools.objects)
      ensures !proceed ==> result == if FirstMissing(script.lookups, NotFound) then CheckUnhealthy(StorageClassNotFound) else CheckError
    {
      hide Mine, LessOf, SameNames, Deleted, Disturbed, Csis, Plausible;
      Collect(script);
      result := CheckError;
      var answer := ValidateStorageClasses(script.lookups);
      if answer != Found {
        return false, if answer == NotFound then CheckUnhealthy(StorageClassNotFound) else CheckError;
      }
      FewerMine(old(pvcs.objects), pvcs.objects);
      proceed := CheckCsiResourceLimit(script.listPvcs);
      ghost var a, b, c := pods.objects, pvcs.objects, pools.objects;
      DisturbedLess(b, script.others(2).pvcs);
      OthersKeep(a, b, c, script.others(2));
      Interfere(script.others(2));
      SameTransitive(old(pods.objects), a, pods.objects);
      SameTransitive(old(pvcs.objects), b, pvcs.objects);
      SameTransitive(old(pools.objects), c, pools.objects);
      LessTransitive(old(pods.objects), a, pods.objects);
      LessTransitive(old(pvcs.objects), b, pvcs.objects);
      LessTransitive(old(pools.objects), c, pools.objects);
    }

    lemma OthersKeep(podObjects: Objects, pvcObjects: Objects, poolObjects: Objects, o: Others)
      ensures o.pods.gone == {} ==> SameNames(podObjects, Disturbed(podObjects, o.pods))
      ensures o.pvcs.gone == {} ==> SameNames(pvcObjects, Disturbed(pvcObjects, o.pvcs))
      ensures o.pools.gone == {} ==> SameNames(poolObjects, Disturbed(poolObjects, o.pools))
    {
      hide Disturbed, SameNames;
      DisturbedSame(podObjects, o.pods);
      DisturbedSame(pvcObjects, o.pvcs);
      DisturbedSame(poolObjects, o.pools);
    }

    /** The garbage collection, between what others do. */
    method Collect(script: Script)
      requires Valid()
      modifies pods`objects, pvcs`objects, pools`objects, clock
      ensures Valid()
      ensures LessOf(old(pods.objects), pods.objects) && LessOf(old(pvcs.objects), pvcs.objects) && LessOf(old(pools.objects), pools.objects)
      ensures Inert(script) ==> pvcs.objects == old(pvcs.objects)
      ensures Kept(script) ==>
                SameNames(old(pods.objects), pods.objects) && SameNames(old(pvcs.objects), pvcs.objects) && SameNames(old(pools.objects), pools.objects)
    {
      hide Mine, LessOf, SameNames, Deleted, Disturbed, Outdated, Succeeds;
      DisturbedLess(pvcs.objects, script.others(0).pvcs);
      OthersKeep(pods.objects, pvcs.objects, pools.objects, script.others(0));
      Interfere(script.others(0));
      ghost var a, b, c := pods.objects, pvcs.objects, pools.objects;
      var _, podsDue, pvcsDue := GarbageCollect(script);
      ghost var a', b', c' := pods.objects, pvcs.objects, pools.objects;
      DeletedLess(a, podsDue, script.collectPods);
      DeletedLess(b, pvcsDue, script.collectPvcs);
      DeletedLess(c, Mine(c), script.collectPools);
      LessOfSame(c);
      OthersKeep(a', b', c', script.others(1));
      DisturbedLess(b', script.others(1).pvcs);
      Interfere(script.others(1));
      SameThrice(old(pods.objects), a, a', pods.objects);
      SameThrice(old(pvcs.objects), b, b', pvcs.objects);
      SameThrice(old(pools.objects), c, c', pools.objects);
      LessThrice(old(pods.objects), a, a', pods.objects);
      LessThrice(old(pvcs.objects), b, b', pvcs.objects);
      LessThrice(old(pools.objects), c, c', pools.objects);
    }

    lemma LessOfSame(objects: Objects)
      ensures LessOf(objects, objects) && SameNames(objects, objects)
    {}

    lemma SameThrice(a: Objects, b: Objects, c: Objects, d: Objects)
      ensures SameNames(a, b) && SameNames(b, c) && SameNames(c, d) ==> SameNames(a, d)
    {}

    lemma LessThrice(a: Objects, b: Objects, c: Objects, d: Objects)
      requires LessOf(a, b) && LessOf(b, c) && LessOf(c, d)
      ensures LessOf(a, d)
    {
      hide LessOf;
      LessTransitive(a, b, c);
      LessTransitive(a, c, d);
    }

    /** Nothing stands in the way of the pod phase: the server, the limits, the claims and the names. */
    ghost predicate Unobstructed(podObjects: Objects, pvcObjects: Objects, poolObjects: Objects, stamp: string, script: Script) {
      && Passes(script, config) && Creatable(Csis(config)) && Fresh(podObjects, pvcObjects, poolObjects, stamp)
      && |Mine(podObjects)| < config.maxSyntheticPods && (Csis(config) == [] || |Mine(pvcObjects)| < ClaimLimit())
    }

    /** What was unobstructed stays so while objects only become fewer. */
    lemma Earlier(stamp: string, script: Script, podObjects: Objects, pvcObjects: Objects, poolObjects: Objects, podsThen: Objects, pvcsThen: Objects, poolsThen: Objects)
      requires LessOf(podObjects, podsThen) && LessOf(pvcObjects, pvcsThen) && LessOf(poolObjects, poolsThen)
      ensures Fresh(podObjects, pvcObjects, poolObjects, stamp) ==> Fresh(podsThen, pvcsThen, poolsThen, stamp)
      ensures Unobstructed(podObjects, pvcObjects, poolObjects, stamp, script) ==> Unobstructed(podsThen, pvcsThen, poolsThen, stamp, script)
    {
      hide Passes, Creatable, Mine, PvcNames;
      FewerMine(podObjects, podsThen);
      FewerMine(pvcObjects, pvcsThen);
    }

    lemma NamesOfRun(stamp: string, script: Script, podObjects: Objects, pvcObjects: Objects, poolObjects: Objects)
      requires Fits(script, config)
      ensures CanCreate(pvcObjects, Csis(config), stamp, script.createPvcs) ==> AllDone(script.createPvcs) && Creatable(Csis(config))
      ensures Unobstructed(podObjects, pvcObjects, poolObjects, stamp, script) ==>
                && CanCreate(pvcObjects, Csis(config), stamp, script.createPvcs)
                && script.listPods.Done? && |Mine(podObjects)| < config.maxSyntheticPods
                && PodFree(podObjects, stamp, script) && NodePoolName(stamp) !in poolObjects
    {
      hide Creatable, PvcNames, Mine;
      DisturbedSame(podObjects, script.others(3).pods);
    }

    /** A run that stops at the storage classes or at the limit on claims. */
    lemma DecidedEarly(stamp: string, script: Script, podObjects: Objects, pvcObjects: Objects, poolObjects: Objects)
      requires !(AllFound(script.lookups) && (Csis(config) == [] || (script.listPvcs.Done? && |Mine(pvcObjects)| < ClaimLimit())))
      ensures Decided(podObjects, pvcObjects, poolObjects, stamp, script,
                      if FirstMissing(script.lookups, NotFound) then CheckUnhealthy(StorageClassNotFound) else CheckError)
    {
      FoundIsNotMissing(script);
    }

    /** The other runs: what is decided by the objects that are there after the collection is decided by those
        at the start, as long as nobody takes any away. */
    lemma DecidedThen(stamp: string, script: Script, podObjects: Objects, pvcObjects: Objects, poolObjects: Objects,
                      podsThen: Objects, pvcsThen: Objects, poolsThen: Objects, result: Outcome)
      requires Kept(script) && AllFound(script.lookups)
      requires SameNames(podObjects, podsThen) && SameNames(pvcObjects, pvcsThen) && SameNames(poolObjects, poolsThen)
      requires Csis(config) == [] || (script.listPvcs.Done? && |Mine(pvcsThen)| < ClaimLimit())
      requires var canCreate := CanCreate(pvcsThen, Csis(config), stamp, script.createPvcs);
               if canCreate && script.listPods.Done? && |Mine(podsThen)| < config.maxSyntheticPods
               then PodPhase(script, config, result, PodFree(podsThen, stamp, script), NodePoolName(stamp) !in poolsThen)
               else result == CheckError
      ensures Decided(podObjects, pvcObjects, poolObjects, stamp, script, result)
    {
      hide PodPhase, Creatable, PvcNames, Mine, Disturbed, AllFound;
      DisturbedSame(podsThen, script.others(3).pods);
    }

    lemma FoundIsNotMissing(script: Script)
      ensures AllFound(script.lookups) ==> !FirstMissing(script.lookups, NotFound)
    {}

    lemma NothingCame(stamp: string, podObjects: Objects, pvcObjects: Objects, poolObjects: Objects)
      requires LessOf(podObjects, pods.objects) && LessOf(pvcObjects, pvcs.objects) && LessOf(poolObjects, pools.objects)
      ensures LeavesNothing(podObjects, pvcObjects, poolObjects, stamp)
    {
      hide PvcNames;
    }

    lemma LeavesNothingSince(stamp: string, podObjects: Objects, pvcObjects: Objects, poolObjects: Objects, podsThen: Objects, pvcsThen: Objects, poolsThen: Objects)
      requires LessOf(podObjects, podsThen) && LessOf(pvcObjects, pvcsThen) && LessOf(poolObjects, poolsThen)
      ensures LeavesNothing(podsThen, pvcsThen, poolsThen, stamp) ==> LeavesNothing(podObjects, pvcObjects, poolObjects, stamp)
    {
      hide LessOf, Remains, PvcNames;
      RemainsLess(podObjects, podsThen, pods.objects, {PodName(stamp)});
      RemainsLess(pvcObjects, pvcsThen, pvcs.objects, PvcNames(Csis(config), stamp));
      RemainsLess(poolObjects, poolsThen, pools.objects, {NodePoolName(stamp)});
    }

    // ----- Many runs -----

    /** Any number of runs, one after another as the scheduler makes them, whatever fails and whatever others
        do: the bounds hold at every moment. */
    method RunRepeatedly(stamps: seq<string>, scripts: seq<Script>)
      requires Valid() && WithinBounds()
      requires |stamps| == |scripts| && forall i :: 0 <= i < |scripts| ==> Fits(scripts[i], config)
      modifies pods, pvcs, pools, clock
      ensures Valid() && WithinBounds()
      ensures |Mine(pods.objects)| <= config.maxSyntheticPods && |Mine(pvcs.objects)| <= MaxPvcs()
    {
      hide Mine, MaxPvcs, Fits, Unobstructed, Inert, Working, Fresh;
      for i := 0 to |stamps|
        invariant Valid() && WithinBounds()
      {
        var _ := Check(stamps[i], scripts[i]);
      }
    }

    /** Claims of the first n stamps only. */
    ghost predicate Tagged(objects: Objects, stamp: nat -> string, n: nat) {
      forall name :: name in objects ==> |name| >= 35 && exists j: nat :: j < n && name[35..] == stamp(j)
    }

    /** A run in which nothing is collected, the k-th create fails, pods cannot be listed, and no deletion
        succeeds. */
    function Leaking(k: nat): (script: Script)
      requires config.tcpMaxRetries >= 0
    {
      var n, never, untouched := |Csis(config)|, Collection(Refused, (name: string) => Refused), Others(UNDISTURBED, UNDISTURBED, UNDISTURBED);
      var (dials, waits) := Slowest(config);
      Script(never, never, never, seq(n, i => Found), Done, seq(n, i => if i == k then Refused else Done), Refused,
             Found, Refused, Refused, false, Startup(PollFailed, PullUnknown, false, dials, waits), Refused, Refused,
             seq(n, i => Refused), (k: nat) => untouched)
    }

    lemma LeakingFacts(k: nat)
      requires config.tcpMaxRetries >= 0 && config.tcpTimeout >= 0 && config.tcpRetryInterval >= 0
      ensures Fits(Leaking(k), config) && Inert(Leaking(k)) && AllFound(Leaking(k).lookups) && Leaking(k).listPvcs.Done?
    {
      hide Creatable;
      BudgetIsAttained(config);
    }

    lemma LeaksUpTo(before: Objects, after: Objects, stamp: string, k: nat, created: nat, now: Time)
      requires config.tcpMaxRetries >= 0 && Creatable(Csis(config)) && k <= |Csis(config)|
      requires forall name :: name in before ==> |name| >= 35 && name[35..] != stamp
      requires ClaimsLeft(before, after, Csis(config), stamp, Leaking(k).createPvcs, created, now)
      ensures created == k && Extended(before, after, PvcNames(Csis(config)[..k], stamp), now)
    {
      hide PvcName, Extended, Prefix;
      var csis, replies := Csis(config), Leaking(k).createPvcs;
      if created < |csis| {
        assert csis[..created + 1][created] == csis[created];
        NamesEndInStamp([csis[created]], stamp);
        NameAmong([csis[created]], csis[created].kind, stamp);
        assert csis[created].kind == [csis[created]][0].kind;
        assert replies[created] == if created == k then Refused else Done;
      }
      assert k < |csis| ==> replies[k] == Refused;
    }

    lemma LeakedClaims(before: Objects, after: Objects, stamp: nat -> string, i: nat, k: nat, created: nat, now: Time)
      requires config.tcpMaxRetries >= 0 && Creatable(Csis(config)) && k <= |Csis(config)|
      requires Tagged(before, stamp, i) && forall a: nat, b: nat :: a != b ==> stamp(a) != stamp(b)
      requires ClaimsLeft(before, after, Csis(config), stamp(i), Leaking(k).createPvcs, created, now)
      ensures created == k && Tagged(after, stamp, i + 1) && |Mine(after)| == |Mine(before)| + k
    {
      hide PvcNames, PvcName, Mine, ClaimsLeft, Leaking;
      var csis := Csis(config);
      LeaksUpTo(before, after, stamp(i), k, created, now);
      NamesEndInStamp(csis[..k], stamp(i));
      NamesCount(csis[..k], stamp(i));
      ExtendedCount(before, after, PvcNames(csis[..k], stamp(i)), now);
      forall name | name in after ensures |name| >= 35 && exists j: nat :: j < i + 1 && name[35..] == stamp(j) {
        if name in before {
          var j: nat :| j < i && name[35..] == stamp(j);
          assert j < i + 1;
        } else {
          assert name[35..] == stamp(i);
        }
      }
    }

    method LeakClaims(stamp: nat -> string, i: nat, k: nat)
      requires Valid() && config.tcpTimeout >= 0 && config.tcpRetryInterval >= 0
      requires Creatable(Csis(config)) && k <= |Csis(config)| && |Mine(pvcs.objects)| < ClaimLimit()
      requires Tagged(pvcs.objects, stamp, i) && forall a: nat, b: nat :: a != b ==> stamp(a) != stamp(b)
      modifies pods, pvcs, pools, clock
      ensures Valid() && Tagged(pvcs.objects, stamp, i + 1) && |Mine(pvcs.objects)| == |Mine(old(pvcs.objects))| + k
    {
      hide Mine, Fits, Inert, Working, Fresh, Tagged, Creatable, ClaimsLeft, Leaking, Unobstructed, AllFound;
      LeakingFacts(k);
      var _ := Check(stamp(i), Leaking(k));
      ghost var created, now :| ClaimsLeft(old(pvcs.objects), pvcs.objects, Csis(config), stamp(i), Leaking(k).createPvcs, created, now);
      LeakedClaims(old(pvcs.objects), pvcs.objects, stamp, i, k, created, now);
    }

    /** The bound on claims is attained: runs whose deletions all fail lead from no claims at all to one below
        the limit, and the next run adds n. */
    method AttainClaimBound(stamp: nat -> string)
      requires Valid() && config.tcpTimeout >= 0 && config.tcpRetryInterval >= 0 && Creatable(Csis(config))
      requires pvcs.objects == map[] && forall a: nat, b: nat :: a != b ==> stamp(a) != stamp(b)
      modifies pods, pvcs, pools, clock
      ensures Valid() && |Mine(pvcs.objects)| == MaxPvcs()
    {
      hide Creatable, Tagged, ClaimLimit;
      NoneTagged(stamp);
      if ClaimLimit() <= 0 {
        return;
      }
      ClaimsAreUsed();
      var n, i, claims := |Csis(config)|, 0, 0;
      while claims + n < ClaimLimit()
        invariant Valid() && Tagged(pvcs.objects, stamp, i) && claims == |Mine(pvcs.objects)| < ClaimLimit()
      {
        LeakClaims(stamp, i, n);
        i, claims := i + 1, claims + n;
      }
      LeakClaims(stamp, i, ClaimLimit() - 1 - claims);
      LeakClaims(stamp, i + 1, n);
    }

    lemma NoneTagged(stamp: nat -> string)
      ensures Tagged(map[], stamp, 0)
    {}

    lemma ClaimsAreUsed()
      ensures ClaimLimit() > 0 ==> Csis(config) != []
    {}
  }

  lemma NothingRemains(objects: Objects, names: set<string>)
    ensures Remains(objects, objects, names)
  {}

  lemma LessRemains(before: Objects, after: Objects, names: set<string>)
    ensures LessOf(before, after) ==> Remains(before, after, names)
  {}

  lemma CreatedRemains(start: Objects, free: Objects, name: string, now: Time, d: Disturbance)
    requires LessOf(start, free)
    ensures Remains(start, Marked(Disturbed(free[name := Object(now, true, false)], d), {name}), {name})
  {}

  lemma DeletedIsMarked(objects: Objects, name: string)
    ensures name in objects ==> Marked(objects, {name})[name].terminating
  {}

  lemma PoolRemains(before: Objects, created: Objects, after: Objects, name: string, now: Time)
    requires created == before[name := Object(now, true, false)] && LessOf(created, after)
    ensures name !in before && (name in after ==> after[name].terminating) ==> Remains(before, after, {name})
  {}

  lemma PoolStays(before: Objects, name: string, now: Time)
    ensures var after := Disturbed(before[name := Object(now, true, false)], UNDISTURBED); name in after && !after[name].terminating
  {}
}
