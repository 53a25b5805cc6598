/** Validation of the checker configuration. Durations are 64-bit nanoseconds, so the time budget of
    the pod-startup checker is computed with wrap-around. */
module Validation {
  import opened Api
  import opened Int64
  import opened Volumes

  datatype PodStartupConfig = PodStartupConfig(
    syntheticPodNamespace: string,
    syntheticPodLabelKey: string,
    syntheticPodStartupTimeout: int,
    maxSyntheticPods: int,
    tcpTimeout: int,
    tcpMaxRetries: int,
    tcpRetryInterval: int,
    enableNodeProvisioningTest: bool,
    enabledCsis: Option<seq<Csi>>)

  /** What the Kubernetes validation library accepts. */
  datatype Library = Library(isNamespace: string -> bool, isQualifiedName: string -> bool, isSubdomain: string -> bool)

  /** All numbers are 64-bit integers. */
  predicate Machine(c: PodStartupConfig) {
    && InRange(c.syntheticPodStartupTimeout) && InRange(c.maxSyntheticPods)
    && InRange(c.tcpTimeout) && InRange(c.tcpMaxRetries) && InRange(c.tcpRetryInterval)
  }

  // ----- The budget -----

  /** The time that all attempts and the waits between them can take. */
  function Budget(c: PodStartupConfig): int {
    (c.tcpMaxRetries + 1) * c.tcpTimeout + c.tcpMaxRetries * c.tcpRetryInterval
  }

  /** What is computed for it. */
  function ComputedBudget(c: PodStartupConfig): int {
    Wrap(Wrap(Wrap(c.tcpMaxRetries + 1) * c.tcpTimeout) + Wrap(c.tcpMaxRetries * c.tcpRetryInterval))
  }

  predicate NoOverflow(c: PodStartupConfig) {
    && InRange(c.tcpMaxRetries + 1)
    && InRange((c.tcpMaxRetries + 1) * c.tcpTimeout)
    && InRange(c.tcpMaxRetries * c.tcpRetryInterval)
    && InRange(Budget(c))
    && InRange(c.syntheticPodStartupTimeout + Budget(c))
  }

  // ----- Problems -----

  datatype Problem =
    | NoConfig
    | BadNamespace
    | BadLabelKey
    | StartupTimeoutNotPositive
    | TcpTimeoutNotPositive
    | RetriesNegative
    | IntervalNegative
    | IntervalWithoutRetries
    | RetriesWithoutInterval
    | BudgetTooLarge
    | MaxPodsNotPositive
    | CsisEmpty
    | BadCsiType(index: nat)
    | BadStorageClass(index: nat)
    | DuplicateStorageClass(index: nat)

  function Csis(c: PodStartupConfig): seq<Csi> {
    if c.enabledCsis.Some? then c.enabledCsis.value else []
  }

  /** What is wrong with a configuration. */
  predicate Wrong(c: PodStartupConfig, checkerTimeout: int, lib: Library, p: Problem) {
    match p
    case NoConfig => false
    case BadNamespace => !lib.isNamespace(c.syntheticPodNamespace)
    case BadLabelKey => !lib.isQualifiedName(c.syntheticPodLabelKey)
    case StartupTimeoutNotPositive => c.syntheticPodStartupTimeout <= 0
    case TcpTimeoutNotPositive => c.tcpTimeout <= 0
    case RetriesNegative => c.tcpMaxRetries < 0
    case IntervalNegative => c.tcpRetryInterval < 0
    case IntervalWithoutRetries => c.tcpMaxRetries == 0 && c.tcpRetryInterval != 0
    case RetriesWithoutInterval => c.tcpMaxRetries > 0 && c.tcpRetryInterval <= 0
    case BudgetTooLarge => checkerTimeout <= Wrap(c.syntheticPodStartupTimeout + ComputedBudget(c))
    case MaxPodsNotPositive => c.maxSyntheticPods <= 0
    case CsisEmpty => c.enabledCsis == Some([])
    case BadCsiType(i) => i < |Csis(c)| && Csis(c)[i].kind.UnsupportedCsi?
    case BadStorageClass(i) => i < |Csis(c)| && !lib.isSubdomain(Csis(c)[i].storageClass)
    case DuplicateStorageClass(i) =>
      i < |Csis(c)| && exists j :: 0 <= j < i && Csis(c)[j].storageClass == Csis(c)[i].storageClass
  }

  predicate AboutCsi(p: Problem) {
    p.BadCsiType? || p.BadStorageClass? || p.DuplicateStorageClass?
  }

  predicate AboutTcp(p: Problem) {
    p.TcpTimeoutNotPositive? || p.RetriesNegative? || p.IntervalNegative?
    || p.IntervalWithoutRetries? || p.RetriesWithoutInterval? || p.BudgetTooLarge?
  }

  method ValidateTcp(c: PodStartupConfig, checkerTimeout: int, lib: Library) returns (errs: seq<Problem>)
    ensures forall p :: p in errs <==> AboutTcp(p) && Wrong(c, checkerTimeout, lib, p)
  {
    hide ComputedBudget;
    errs := [];
    if c.tcpTimeout <= 0 {
      errs := errs + [TcpTimeoutNotPositive];
    }
    if c.tcpMaxRetries < 0 {
      errs := errs + [RetriesNegative];
    }
    if c.tcpRetryInterval < 0 {
      errs := errs + [IntervalNegative];
    }
    if c.tcpMaxRetries == 0 && c.tcpRetryInterval != 0 {
      errs := errs + [IntervalWithoutRetries];
    }
    if c.tcpMaxRetries > 0 && c.tcpRetryInterval <= 0 {
      errs := errs + [RetriesWithoutInterval];
    }
    var tcpConnectivityBudget := ComputedBudget(c);
    if checkerTimeout <= Wrap(c.syntheticPodStartupTimeout + tcpConnectivityBudget) {
      errs := errs + [BudgetTooLarge];
    }
  }

  /** Reports every problem, and nothing else. */
  method ValidatePodStartup(config: Option<PodStartupConfig>, checkerTimeout: int, lib: Library) returns (errs: seq<Problem>)
    ensures config.None? ==> errs == [NoConfig]
    ensures config.Some? ==> forall p :: p in errs <==> Wrong(config.value, checkerTimeout, lib, p)
  {
    hide ComputedBudget;
    if config.None? {
      return [NoConfig];
    }
    var c := config.value;
    errs := [];
    if !lib.isNamespace(c.syntheticPodNamespace) {
      errs := errs + [BadNamespace];
    }
    if !lib.isQualifiedName(c.syntheticPodLabelKey) {
      errs := errs + [BadLabelKey];
    }
    if c.syntheticPodStartupTimeout <= 0 {
      errs := errs + [StartupTimeoutNotPositive];
    }
    var tcpErrs := ValidateTcp(c, checkerTimeout, lib);
    errs := errs + tcpErrs;
    if c.maxSyntheticPods <= 0 {
      errs := errs + [MaxPodsNotPositive];
    }
    if c.enabledCsis.Some? && |c.enabledCsis.value| == 0 {
      errs := errs + [CsisEmpty];
    }
    var csiErrs := ValidateCsis(Csis(c), lib);
    CsiProblems(c, checkerTimeout, lib, csiErrs);
    errs := errs + csiErrs;
  }

  /** The problems of the CSI entries. */
  predicate WrongCsi(csis: seq<Csi>, lib: Library, p: Problem) {
    match p
    case BadCsiType(i) => i < |csis| && csis[i].kind.UnsupportedCsi?
    case BadStorageClass(i) => i < |csis| && !lib.isSubdomain(csis[i].storageClass)
    case DuplicateStorageClass(i) => i < |csis| && exists j :: 0 <= j < i && csis[j].storageClass == csis[i].storageClass
    case _ => false
  }

  lemma CsiProblems(c: PodStartupConfig, checkerTimeout: int, lib: Library, errs: seq<Problem>)
    requires forall p :: p in errs <==> WrongCsi(Csis(c), lib, p)
    ensures forall p :: p in errs <==> AboutCsi(p) && Wrong(c, checkerTimeout, lib, p)
  {}

  method ValidateCsis(csis: seq<Csi>, lib: Library) returns (errs: seq<Problem>)
    ensures forall p :: p in errs <==> WrongCsi(csis, lib, p)
  {
    errs := [];
    var seen: set<string> := {};
    for i := 0 to |csis|
      invariant seen == set j | 0 <= j < i :: csis[j].storageClass
      invariant forall p :: p in errs <==> WrongCsi(csis, lib, p) && p.index < i
    {
      if csis[i].kind.UnsupportedCsi? {
        errs := errs + [BadCsiType(i)];
      }
      if !lib.isSubdomain(csis[i].storageClass) {
        errs := errs + [BadStorageClass(i)];
      }
      if csis[i].storageClass in seen {
        errs := errs + [DuplicateStorageClass(i)];
      } else {
        seen := seen + {csis[i].storageClass};
      }
    }
  }

  ghost predicate Accepted(c: PodStartupConfig, checkerTimeout: int, lib: Library) {
    forall p :: !Wrong(c, checkerTimeout, lib, p)
  }

  lemma AcceptedMeans(c: PodStartupConfig, checkerTimeout: int, lib: Library)
    requires Accepted(c, checkerTimeout, lib)
    ensures c.syntheticPodStartupTimeout > 0 && c.tcpTimeout > 0 && c.tcpMaxRetries >= 0 && c.tcpRetryInterval >= 0 && c.maxSyntheticPods > 0
    ensures Wrap(c.syntheticPodStartupTimeout + ComputedBudget(c)) < checkerTimeout
  {
    assert !Wrong(c, checkerTimeout, lib, StartupTimeoutNotPositive);
    assert !Wrong(c, checkerTimeout, lib, TcpTimeoutNotPositive);
    assert !Wrong(c, checkerTimeout, lib, RetriesNegative);
    assert !Wrong(c, checkerTimeout, lib, IntervalNegative);
    assert !Wrong(c, checkerTimeout, lib, MaxPodsNotPositive);
    assert !Wrong(c, checkerTimeout, lib, BudgetTooLarge);
  }

  /** Sound settings, over the fields of a configuration; the time for all attempts and the waits between them
      is computed in 64 bits. */
  ghost predicate SoundSettings(c: PodStartupConfig, checkerTimeout: int, lib: Library) {
    && lib.isNamespace(c.syntheticPodNamespace) && lib.isQualifiedName(c.syntheticPodLabelKey)
    && c.syntheticPodStartupTimeout > 0 && c.maxSyntheticPods > 0 && c.tcpTimeout > 0
    && (if c.tcpMaxRetries == 0 then c.tcpRetryInterval == 0 else c.tcpMaxRetries > 0 && c.tcpRetryInterval > 0)
    && var attempts, waits := Wrap(Wrap(c.tcpMaxRetries + 1) * c.tcpTimeout), Wrap(c.tcpMaxRetries * c.tcpRetryInterval);
       Wrap(c.syntheticPodStartupTimeout + Wrap(attempts + waits)) < checkerTimeout
  }

  /** Either none, or at least one, each of a known type and with a storage class of its own. */
  ghost predicate SoundCsis(csis: Option<seq<Csi>>, lib: Library) {
    csis.Some? ==>
      && csis.value != []
      && (forall i :: 0 <= i < |csis.value| ==> !csis.value[i].kind.UnsupportedCsi? && lib.isSubdomain(csis.value[i].storageClass))
      && (forall i, j :: 0 <= j < i < |csis.value| ==> csis.value[j].storageClass != csis.value[i].storageClass)
  }

  /** What an accepted configuration is, over its own fields. */
  lemma AcceptedIff(c: PodStartupConfig, checkerTimeout: int, lib: Library)
    ensures Accepted(c, checkerTimeout, lib) <==> SoundSettings(c, checkerTimeout, lib) && SoundCsis(c.enabledCsis, lib)
  {
    if Accepted(c, checkerTimeout, lib) {
      AcceptedIsSound(c, checkerTimeout, lib);
    }
    if SoundSettings(c, checkerTimeout, lib) && SoundCsis(c.enabledCsis, lib) {
      forall p ensures !Wrong(c, checkerTimeout, lib, p) {
        SoundIsRight(c, checkerTimeout, lib, p);
      }
    }
  }

  lemma SoundIsRight(c: PodStartupConfig, checkerTimeout: int, lib: Library, p: Problem)
    requires SoundSettings(c, checkerTimeout, lib) && SoundCsis(c.enabledCsis, lib)
    ensures !Wrong(c, checkerTimeout, lib, p)
  {
    hide Wrap;
  }

  lemma AcceptedIsSound(c: PodStartupConfig, checkerTimeout: int, lib: Library)
    requires Accepted(c, checkerTimeout, lib)
    ensures SoundSettings(c, checkerTimeout, lib) && SoundCsis(c.enabledCsis, lib)
  {
    hide SoundSettings, SoundCsis, Accepted;
    AcceptedSettings(c, checkerTimeout, lib);
    AcceptedCsis(c, checkerTimeout, lib);
  }

  lemma AcceptedSettings(c: PodStartupConfig, checkerTimeout: int, lib: Library)
    requires Accepted(c, checkerTimeout, lib)
    ensures SoundSettings(c, checkerTimeout, lib)
  {
    hide Wrap;
    AcceptedMeans(c, checkerTimeout, lib);
    assert !Wrong(c, checkerTimeout, lib, BadNamespace);
    assert !Wrong(c, checkerTimeout, lib, BadLabelKey);
    assert !Wrong(c, checkerTimeout, lib, IntervalWithoutRetries);
    assert !Wrong(c, checkerTimeout, lib, RetriesWithoutInterval);
  }

  lemma AcceptedCsis(c: PodStartupConfig, checkerTimeout: int, lib: Library)
    requires Accepted(c, checkerTimeout, lib)
    ensures SoundCsis(c.enabledCsis, lib)
  {
    hide ComputedBudget;
    if c.enabledCsis.Some? {
      var csis := c.enabledCsis.value;
      assert c.enabledCsis == Some(csis) && Csis(c) == csis;
      assert !Wrong(c, checkerTimeout, lib, CsisEmpty);
      forall i | 0 <= i < |csis|
        ensures !csis[i].kind.UnsupportedCsi? && lib.isSubdomain(csis[i].storageClass)
        ensures forall j :: 0 <= j < i ==> csis[j].storageClass != csis[i].storageClass
      {
        assert !Wrong(c, checkerTimeout, lib, BadCsiType(i));
        assert !Wrong(c, checkerTimeout, lib, BadStorageClass(i));
        assert !Wrong(c, checkerTimeout, lib, DuplicateStorageClass(i));
      }
    }
  }

  /** For an accepted configuration, the checker timeout really exceeds the startup timeout and the
      budget together exactly when none of the products and sums overflows. */
  lemma BudgetFitsIff(c: PodStartupConfig, checkerTimeout: int, lib: Library)
    requires Machine(c) && InRange(checkerTimeout) && Accepted(c, checkerTimeout, lib)
    ensures c.syntheticPodStartupTimeout + Budget(c) < checkerTimeout <==> NoOverflow(c)
  {
    hide Wrap;
    AcceptedMeans(c, checkerTimeout, lib);
    var products, waits := (c.tcpMaxRetries + 1) * c.tcpTimeout, c.tcpMaxRetries * c.tcpRetryInterval;
    NaturalProduct(c.tcpMaxRetries + 1, c.tcpTimeout);
    NaturalProduct(c.tcpMaxRetries, c.tcpRetryInterval);
    if c.syntheticPodStartupTimeout + Budget(c) < checkerTimeout {
      AtLeastFactor(c.tcpMaxRetries + 1, c.tcpTimeout);
    }
  }

  lemma NaturalProduct(a: int, b: int)
    requires a >= 0 && b >= 0
    ensures a * b >= 0
  {}

  lemma AtLeastFactor(a: int, b: int)
    requires a >= 0 && b > 0
    ensures a * b >= a
  {}

  /** With an overflow, a configuration can be accepted whose budget no timeout could cover. */
  lemma OverflowAccepted(namespace: string, key: string, lib: Library)
    requires lib.isNamespace(namespace) && lib.isQualifiedName(key)
    ensures var c := PodStartupConfig(namespace, key, 1, 1, 0x4000_0000_0000_0000, 3, 1, false, None);
            && Machine(c) && Accepted(c, 10, lib) && Budget(c) > MAX
  {
    var c := PodStartupConfig(namespace, key, 1, 1, 0x4000_0000_0000_0000, 3, 1, false, None);
    assert Wrap(4 * 0x4000_0000_0000_0000) == 0;
    assert ComputedBudget(c) == 3;
  }

  /** Validation asks for distinct storage classes, not for distinct types: a configuration can be
      accepted although its claims collide in every run. */
  lemma CollidingCsisAccepted(c: PodStartupConfig, checkerTimeout: int, lib: Library, a: string, b: string)
    requires Accepted(c, checkerTimeout, lib) && a != b && lib.isSubdomain(a) && lib.isSubdomain(b)
    ensures var c' := c.(enabledCsis := Some([Csi(AzureDisk, a), Csi(AzureDisk, b)]));
            Accepted(c', checkerTimeout, lib) && !Creatable(Csis(c'))
  {
    hide Wrap;
    var c' := c.(enabledCsis := Some([Csi(AzureDisk, a), Csi(AzureDisk, b)]));
    forall p ensures !Wrong(c', checkerTimeout, lib, p) {
      assert !Wrong(c, checkerTimeout, lib, p);
    }
    assert Csis(c')[0].kind == Csis(c')[1].kind;
  }

  // ----- The other checkers -----

  datatype DnsConfig = DnsConfig(domain: string, queryTimeout: int, target: string)

  const DNS_TARGETS := {"CoreDNS", "LocalDNS", "CoreDNSPerPod"}

  predicate GoodDns(c: DnsConfig, checkerTimeout: int) {
    c.domain != "" && 0 < c.queryTimeout < checkerTimeout && c.target in DNS_TARGETS
  }

  datatype DnsProblem = NoDnsConfig | NoDomain | BadQueryTimeout | NoTarget | BadTarget | QueryTimeoutTooLarge

  method ValidateDns(config: Option<DnsConfig>, checkerTimeout: int) returns (errs: seq<DnsProblem>)
    ensures errs == [] <==> config.Some? && GoodDns(config.value, checkerTimeout)
  {
    if config.None? {
      return [NoDnsConfig];
    }
    var c := config.value;
    errs := [];
    if c.domain == "" {
      errs := errs + [NoDomain];
    }
    if c.queryTimeout <= 0 {
      errs := errs + [BadQueryTimeout];
    }
    if c.target == "" {
      errs := errs + [NoTarget];
    } else if c.target !in DNS_TARGETS {
      errs := errs + [BadTarget];
    }
    if checkerTimeout <= c.queryTimeout {
      errs := errs + [QueryTimeoutTooLarge];
    }
  }

  datatype ApiServerConfig = ApiServerConfig(namespace: string, labelKey: string, mutateTimeout: int, readTimeout: int, maxObjects: int)

  /** The two timeouts have no lower bound. */
  predicate GoodApiServer(c: ApiServerConfig, checkerTimeout: int, lib: Library) {
    && lib.isNamespace(c.namespace) && lib.isQualifiedName(c.labelKey)
    && c.mutateTimeout < checkerTimeout && c.readTimeout < checkerTimeout
    && c.maxObjects > 0
  }

  datatype ApiServerProblem = NoApiServerConfig | BadApiNamespace | BadApiLabelKey | MutateTimeoutTooLarge | ReadTimeoutTooLarge | MaxObjectsNotPositive

  method ValidateApiServer(config: Option<ApiServerConfig>, checkerTimeout: int, lib: Library) returns (errs: seq<ApiServerProblem>)
    ensures errs == [] <==> config.Some? && GoodApiServer(config.value, checkerTimeout, lib)
  {
    if config.None? {
      return [NoApiServerConfig];
    }
    var c := config.value;
    errs := [];
    if !lib.isNamespace(c.namespace) {
      errs := errs + [BadApiNamespace];
    }
    if !lib.isQualifiedName(c.labelKey) {
      errs := errs + [BadApiLabelKey];
    }
    if checkerTimeout <= c.mutateTimeout {
      errs := errs + [MutateTimeoutTooLarge];
    }
    if checkerTimeout <= c.readTimeout {
      errs := errs + [ReadTimeoutTooLarge];
    }
    if c.maxObjects <= 0 {
      errs := errs + [MaxObjectsNotPositive];
    }
  }

  // ----- The whole configuration -----

  datatype CheckerConfig = CheckerConfig(
    name: string,
    kind: string,
    interval: int,
    timeout: int,
    dns: Option<DnsConfig>,
    podStartup: Option<PodStartupConfig>,
    apiServer: Option<ApiServerConfig>)

  const KINDS := {"DNS", "PodStartup", "APIServer", "AzurePolicy", "MetricsServer"}

  /** A checker of a supported type with a name, positive times and whatever its type needs. */
  ghost predicate GoodChecker(chk: CheckerConfig, lib: Library) {
    && chk.name != "" && chk.interval > 0 && chk.timeout > 0 && chk.kind in KINDS
    && (chk.kind == "DNS" ==> chk.dns.Some? && GoodDns(chk.dns.value, chk.timeout))
    && (chk.kind == "PodStartup" ==> chk.podStartup.Some? && Accepted(chk.podStartup.value, chk.timeout, lib))
    && (chk.kind == "APIServer" ==> chk.apiServer.Some? && GoodApiServer(chk.apiServer.value, chk.timeout, lib))
  }

  datatype CheckerProblem =
    | MissingName
    | MissingType
    | BadInterval
    | BadTimeout
    | DnsInvalid(dns: seq<DnsProblem>)
    | PodStartupInvalid(podStartup: seq<Problem>)
    | ApiServerInvalid(apiServer: seq<ApiServerProblem>)
    | UnsupportedType

  method ValidateChecker(chk: CheckerConfig, lib: Library) returns (errs: seq<CheckerProblem>)
    ensures errs == [] <==> GoodChecker(chk, lib)
  {
    hide Wrong;
    errs := [];
    if chk.name == "" {
      errs := errs + [MissingName];
    }
    if chk.kind == "" {
      errs := errs + [MissingType];
    }
    if chk.interval <= 0 {
      errs := errs + [BadInterval];
    }
    if chk.timeout <= 0 {
      errs := errs + [BadTimeout];
    }
    match chk.kind
    case "DNS" =>
      var inner := ValidateDns(chk.dns, chk.timeout);
      if inner != [] {
        errs := errs + [DnsInvalid(inner)];
      }
    case "PodStartup" =>
      var inner := ValidatePodStartup(chk.podStartup, chk.timeout, lib);
      NoneMeansAccepted(chk.podStartup, chk.timeout, lib, inner);
      if inner != [] {
        errs := errs + [PodStartupInvalid(inner)];
      }
    case "APIServer" =>
      var inner := ValidateApiServer(chk.apiServer, chk.timeout, lib);
      if inner != [] {
        errs := errs + [ApiServerInvalid(inner)];
      }
    case "AzurePolicy" =>
    case "MetricsServer" =>
    case _ =>
      errs := errs + [UnsupportedType];
  }

  lemma NoneMeansAccepted(config: Option<PodStartupConfig>, checkerTimeout: int, lib: Library, errs: seq<Problem>)
    requires config.None? ==> errs == [NoConfig]
    requires config.Some? ==> forall p :: p in errs <==> Wrong(config.value, checkerTimeout, lib, p)
    ensures errs == [] <==> config.Some? && Accepted(config.value, checkerTimeout, lib)
  {
    if errs != [] {
      assert errs[0] in errs;
    }
  }

  datatype ConfigProblem = ConfigMissing | NoCheckers | InvalidChecker(index: nat, problems: seq<CheckerProblem>) | DuplicateName(index: nat)

  ghost predicate AcceptedConfig(checkers: seq<CheckerConfig>, lib: Library) {
    && checkers != []
    && (forall i :: 0 <= i < |checkers| ==> GoodChecker(checkers[i], lib))
    && (forall i, j :: 0 <= i < j < |checkers| ==> checkers[i].name != checkers[j].name)
  }

  /** Each invalid checker is reported with its problems, and each checker whose name an earlier one has;
      nothing else is. */
  method ValidateConfig(config: Option<seq<CheckerConfig>>, lib: Library) returns (errs: seq<ConfigProblem>)
    ensures errs == [] <==> config.Some? && AcceptedConfig(config.value, lib)
    ensures config.Some? && config.value != [] ==> Reported(config.value, lib, |config.value|, errs)
  {
    hide GoodChecker;
    if config.None? {
      return [ConfigMissing];
    }
    var checkers := config.value;
    if |checkers| == 0 {
      return [NoCheckers];
    }
    errs := [];
    var nameSet: set<string> := {};
    for i := 0 to |checkers|
      invariant nameSet == set j | 0 <= j < i :: checkers[j].name
      invariant Reported(checkers, lib, i, errs)
    {
      var problems := ValidateChecker(checkers[i], lib);
      ghost var before := errs;
      if problems != [] {
        errs := errs + [InvalidChecker(i, problems)];
      }
      if checkers[i].name in nameSet {
        errs := errs + [DuplicateName(i)];
      }
      nameSet := nameSet + {checkers[i].name};
      ReportedNext(checkers, lib, i, before, errs);
    }
    NothingReported(checkers, lib, errs);
  }

  /** errs are the problems of the first n checkers. */
  ghost predicate Reported(checkers: seq<CheckerConfig>, lib: Library, n: nat, errs: seq<ConfigProblem>)
    requires n <= |checkers|
  {
    && (forall e :: e in errs ==> e.InvalidChecker? || e.DuplicateName?)
    && (forall e :: e in errs && e.InvalidChecker? ==> e.index < n && e.problems != [])
    && (forall i: nat :: i < n ==> (ReportsInvalid(errs, i) <==> !GoodChecker(checkers[i], lib)))
    && (forall i: nat :: DuplicateName(i) in errs <==> i < n && Repeats(checkers, i))
  }

  ghost predicate ReportsInvalid(errs: seq<ConfigProblem>, i: nat) {
    exists e :: e in errs && e.InvalidChecker? && e.index == i
  }

  ghost predicate Repeats(checkers: seq<CheckerConfig>, i: nat)
    requires i < |checkers|
  {
    exists j :: 0 <= j < i && checkers[j].name == checkers[i].name
  }

  lemma ReportedNext(checkers: seq<CheckerConfig>, lib: Library, i: nat, before: seq<ConfigProblem>, after: seq<ConfigProblem>)
    requires i < |checkers| && Reported(checkers, lib, i, before)
    requires exists problems ::
               && (problems == [] <==> GoodChecker(checkers[i], lib))
               && after == before + (if problems == [] then [] else [InvalidChecker(i, problems)]) + (if Repeats(checkers, i) then [DuplicateName(i)] else [])
    ensures Reported(checkers, lib, i + 1, after)
  {
    hide GoodChecker;
    var problems :| && (problems == [] <==> GoodChecker(checkers[i], lib))
                    && after == before + (if problems == [] then [] else [InvalidChecker(i, problems)]) + (if Repeats(checkers, i) then [DuplicateName(i)] else []);
    if problems != [] {
      assert InvalidChecker(i, problems) in after;
    }
  }

  lemma NothingReported(checkers: seq<CheckerConfig>, lib: Library, errs: seq<ConfigProblem>)
    requires checkers != [] && Reported(checkers, lib, |checkers|, errs)
    ensures errs == [] <==> AcceptedConfig(checkers, lib)
  {
    hide GoodChecker;
    if errs != [] {
      var e := errs[0];
      assert e in errs;
      if e.InvalidChecker? {
        assert ReportsInvalid(errs, e.index);
      } else {
        assert e == DuplicateName(e.index);
      }
    } else {
      forall i | 0 <= i < |checkers| ensures GoodChecker(checkers[i], lib) && forall j :: 0 <= j < i ==> checkers[j].name != checkers[i].name {
        assert !ReportsInvalid(errs, i) && DuplicateName(i) !in errs;
      }
    }
  }

  /** An accepted configuration as a whole, over its fields. */
  lemma AcceptedConfigMeans(checkers: seq<CheckerConfig>, lib: Library, i: nat)
    requires AcceptedConfig(checkers, lib) && i < |checkers|
    ensures var chk := checkers[i];
            && chk.name != "" && chk.interval > 0 && chk.timeout > 0
            && chk.kind in {"DNS", "PodStartup", "APIServer", "AzurePolicy", "MetricsServer"}
            && (forall j :: 0 <= j < |checkers| && j != i ==> checkers[j].name != chk.name)
            && (chk.kind == "DNS" ==>
                  && chk.dns.Some? && chk.dns.value.domain != "" && 0 < chk.dns.value.queryTimeout < chk.timeout
                  && chk.dns.value.target in {"CoreDNS", "LocalDNS", "CoreDNSPerPod"})
            && (chk.kind == "PodStartup" ==>
                  && chk.podStartup.Some? && SoundSettings(chk.podStartup.value, chk.timeout, lib)
                  && SoundCsis(chk.podStartup.value.enabledCsis, lib))
            && (chk.kind == "APIServer" ==>
                  && chk.apiServer.Some? && chk.apiServer.value.mutateTimeout < chk.timeout && chk.apiServer.value.readTimeout < chk.timeout
                  && chk.apiServer.value.maxObjects > 0
                  && lib.isNamespace(chk.apiServer.value.namespace) && lib.isQualifiedName(chk.apiServer.value.labelKey))
  {
    hide Accepted, SoundSettings, SoundCsis;
    assert GoodChecker(checkers[i], lib);
    if checkers[i].kind == "PodStartup" {
      AcceptedIff(checkers[i].podStartup.value, checkers[i].timeout, lib);
    }
  }
}
