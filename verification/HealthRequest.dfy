/** HealthCheckRequest -> HealthSignal -> CheckNodeHealth. The request controller creates a signal for
    each request and a check for each signal, and copies the verdict of the finished check to the
    signal. The checks live in the CheckNodeHealth protocol, which runs underneath: a run of the
    whole is, for the checks, a run of that protocol. */
module HealthRequest {
  import opened Api
  import P = CheckProtocol

  const SIGNAL_SOURCE := "ClusterHealthMonitor"
  const IN_PROGRESS_INTERVAL: Time := 5 * SECOND

  // ----- Names -----

  function LowerChar(c: char): (r: char)
    ensures 'A' <= c <= 'Z' ==> 'a' <= r <= 'z'
  {
    if 'A' <= c <= 'Z' then (c as int + 32) as char else c
  }

  function ToLower(s: string): string {
    seq(|s|, i requires 0 <= i < |s| => LowerChar(s[i]))
  }

  /** What RFC 1123 asks of a resource name, as far as it matters here. */
  predicate IsLower(s: string) {
    forall i :: 0 <= i < |s| ==> !('A' <= s[i] <= 'Z')
  }

  function SignalName(request: string): string {
    ToLower(request + "-" + SIGNAL_SOURCE)
  }

  lemma SignalNameParts(request: string)
    ensures |SignalName(request)| == |request| + 21
    ensures SignalName(request)[..|request|] == ToLower(request)
  {}

  /** Different requests have different signals. */
  lemma SignalNameInjective(a: string, b: string)
    requires IsLower(a) && IsLower(b) && SignalName(a) == SignalName(b)
    ensures a == b
  {
    SignalNameParts(a);
    SignalNameParts(b);
    assert ToLower(a) == a && ToLower(b) == b;
  }

  // ----- Objects -----

  datatype Request = Request(name: string, uid: nat, target: string, deleting: bool)

  /** request and requestUid are the owner reference to the request. */
  datatype Signal = Signal(name: string, uid: nat, rv: nat, request: string, requestUid: nat, target: string, conditions: seq<Condition>)

  /** The owner reference of a check to its signal. */
  datatype Owner = Owner(signal: string, signalUid: nat)

  datatype Outcome = NeverRan | Finished | InProgress | Errored

  datatype Pc =
    | Idle(outcome: Outcome)
    | EnsuringSignal(request: Request)
    | CreatingSignal(request: Request)
    | EnsuringCheck(signal: Signal, target: string)
    | CreatingCheck(signal: Signal, target: string)
    | Syncing(signal: Signal, check: P.Cnh)

  /** madeFor is a history variable: the request whose reconcile created a check. */
  datatype State = State(
    checks: P.State,
    last: nat,
    requests: map<string, Request>,
    requestVersions: set<Request>,
    signals: map<string, Signal>,
    signalVersions: set<Signal>,
    owners: map<nat, Owner>,
    madeFor: map<nat, string>,
    workers: map<nat, Pc>)

  datatype Action =
    | CheckStep(a: P.Action)
    | UserRequests(name: string, target: string)
    | UserWithdraws(name: string)
    | RequestRemoved(name: string)
    | SignalTouched(name: string)
    | SignalRemoved(name: string)
    | Get(w: nat, read: Request)
    | Miss(w: nat, failed: bool)
    | ListSignals(w: nat, found: Option<Signal>)
    | CreateSignal(w: nat, reply: P.Reply)
    | ListChecks(w: nat, owned: Option<P.Cnh>)
    | CreateCheck(w: nat, reply: P.Reply)
    | Sync(w: nat, reply: P.Reply)
    | Abort(w: nat)

  function PcOf(s: State, w: nat): Pc {
    if w in s.workers then s.workers[w] else Idle(NeverRan)
  }

  function Go(s: State, w: nat, pc: Pc): State {
    s.(workers := s.workers[w := pc])
  }

  function PutRequest(s: State, r: Request): State {
    s.(requests := s.requests[r.name := r], requestVersions := s.requestVersions + {r})
  }

  function PutSignal(s: State, g: Signal): State {
    s.(signals := s.signals[g.name := g], signalVersions := s.signalVersions + {g}, last := s.last + 1)
  }

  /** Users, garbage collection, and everything that happens to checks. */
  function Environment(s: State, a: Action): State {
    match a
    case CheckStep(b) => s.(checks := P.Step(s.checks, b))
    case UserRequests(name, target) =>
      if name in s.requests || !IsLower(name) then s
      else PutRequest(s, Request(name, s.last + 1, target, false)).(last := s.last + 1)
    case UserWithdraws(name) => if name in s.requests then PutRequest(s, s.requests[name].(deleting := true)) else s
    case RequestRemoved(name) => s.(requests := s.requests - {name})
    case SignalTouched(name) => if name in s.signals then PutSignal(s, s.signals[name].(rv := s.last + 1)) else s
    case SignalRemoved(name) => s.(signals := s.signals - {name})
    case _ => s
  }

  // ----- The steps of a reconcile -----

  function NewSignal(s: State, r: Request): Signal {
    Signal(SignalName(r.name), s.last + 1, s.last + 1, r.name, r.uid, r.target, [])
  }

  function DoCreateSignal(s: State, w: nat, r: Request, reply: P.Reply): State {
    var g := NewSignal(s, r);
    if reply.Refused? || g.name in s.signals then Go(s, w, Idle(Errored))
    else Go(PutSignal(s, g), w, if reply.Done? then EnsuringCheck(g, r.target) else Idle(Errored))
  }

  /** What a check calls for once it has been found. */
  function AfterCheck(g: Signal, check: P.Cnh): Pc {
    if check.status.finishedAt.None? then Idle(InProgress) else Syncing(g, check)
  }

  function DoCreateCheck(s: State, w: nat, g: Signal, target: string, reply: P.Reply): State {
    if reply.Refused? || g.name in s.checks.crs then Go(s, w, Idle(Errored))
    else
      var uid := s.checks.last + 1;
      Go(s.(checks := P.Step(s.checks, P.UserCreates(g.name, target)),
            owners := s.owners[uid := Owner(g.name, g.uid)],
            madeFor := s.madeFor[uid := g.request]),
         w, Idle(if reply.Done? then InProgress else Errored))
  }

  function Synced(g: Signal, check: P.Cnh, rv: nat): Signal {
    g.(rv := rv, conditions := check.status.conditions)
  }

  /** A status update under compare-and-swap. */
  function DoSync(s: State, w: nat, g: Signal, check: P.Cnh, reply: P.Reply): State {
    if reply.Refused? || g.name !in s.signals || s.signals[g.name].rv != g.rv then Go(s, w, Idle(Errored))
    else Go(PutSignal(s, Synced(g, check, s.last + 1)), w, Idle(if reply.Done? then Finished else Errored))
  }

  function Actor(a: Action): Option<nat> {
    match a
    case Get(w, _) => Some(w)
    case Miss(w, _) => Some(w)
    case ListSignals(w, _) => Some(w)
    case CreateSignal(w, _) => Some(w)
    case ListChecks(w, _) => Some(w)
    case CreateCheck(w, _) => Some(w)
    case Sync(w, _) => Some(w)
    case Abort(w) => Some(w)
    case _ => None
  }

  /** Reads go through a cache, which may serve any version that was ever stored; objects are found
      by the UID in their owner reference. */
  predicate Enabled(s: State, pc: Pc, a: Action) {
    match a
    case Get(_, r) => pc.Idle? && r in s.requestVersions
    case Miss(_, _) => pc.Idle?
    case ListSignals(_, found) =>
      pc.EnsuringSignal? && (found.Some? ==> found.value in s.signalVersions && found.value.requestUid == pc.request.uid)
    case CreateSignal(_, _) => pc.CreatingSignal?
    case ListChecks(_, found) =>
      pc.EnsuringCheck? && (found.Some? ==>
        && found.value in s.checks.versions && found.value.uid in s.owners
        && s.owners[found.value.uid].signalUid == pc.signal.uid)
    case CreateCheck(_, _) => pc.CreatingCheck?
    case Sync(_, _) => pc.Syncing?
    case Abort(_) => true
    case _ => false
  }

  function WorkerStep(s: State, w: nat, pc: Pc, a: Action): State
    requires Enabled(s, pc, a)
  {
    match a
    case Get(_, r) => Go(s, w, if r.deleting then Idle(Finished) else EnsuringSignal(r))
    case Miss(_, failed) => Go(s, w, Idle(if failed then Errored else Finished))
    case ListSignals(_, found) =>
      Go(s, w, if found.None? then CreatingSignal(pc.request) else EnsuringCheck(found.value, pc.request.target))
    case CreateSignal(_, reply) => DoCreateSignal(s, w, pc.request, reply)
    case ListChecks(_, found) =>
      Go(s, w, if found.None? then CreatingCheck(pc.signal, pc.target) else AfterCheck(pc.signal, found.value))
    case CreateCheck(_, reply) => DoCreateCheck(s, w, pc.signal, pc.target, reply)
    case Sync(_, reply) => DoSync(s, w, pc.signal, pc.check, reply)
    case _ => Go(s, w, Idle(Errored))
  }

  function Step(s: State, a: Action): State {
    match Actor(a)
    case None => Environment(s, a)
    case Some(w) => if Enabled(s, PcOf(s, w), a) then WorkerStep(s, w, PcOf(s, w), a) else s
  }

  ghost predicate Init(s: State) {
    && P.Init(s.checks) && s.last == 0
    && s.requests == map[] && s.requestVersions == {}
    && s.signals == map[] && s.signalVersions == {}
    && s.owners == map[] && s.madeFor == map[] && s.workers == map[]
  }

  function Run(s: State, actions: seq<Action>): State {
    if actions == [] then s
    else Step(Run(s, actions[..|actions| - 1]), actions[|actions| - 1])
  }

  /** What the cache can serve for a signal's name: any version that was ever stored under it, or
      nothing. */
  predicate ServesSignal(s: State, name: string, served: Option<Signal>) {
    served.Some? ==> served.value in s.signalVersions && served.value.name == name
  }

  /** Whom a check event is for: the owner of the signal that the cache serves for the name in the
      check's owner reference. */
  function MapToRequests(s: State, uid: nat, served: Option<Signal>): seq<string> {
    if uid in s.owners && served.Some? then [served.value.request] else []
  }

  // ----- For the checks, a run of their own protocol -----

  /** What a step does to the checks. */
  function ChecksOf(s: State, a: Action): seq<P.Action> {
    match a
    case CheckStep(b) => [b]
    case CreateCheck(w, reply) =>
      var pc := PcOf(s, w);
      if pc.CreatingCheck? && !reply.Refused? && pc.signal.name !in s.checks.crs
      then [P.UserCreates(pc.signal.name, pc.target)] else []
    case _ => []
  }

  function ChecksOfRun(s: State, actions: seq<Action>): seq<P.Action> {
    if actions == [] then []
    else
      var init := actions[..|actions| - 1];
      ChecksOfRun(s, init) + ChecksOf(Run(s, init), actions[|actions| - 1])
  }

  lemma RunOne(c: P.State, a: P.Action)
    ensures P.Run(c, [a]) == P.Step(c, a) && P.Run(c, []) == c
  {
    assert [a][1..] == [];
    hide P.Step;
  }

  lemma QuietSteps(s: State, a: Action)
    requires !a.CheckStep? && !a.CreateCheck?
    ensures Step(s, a).checks == s.checks
  {}

  lemma CreateCheckProjects(s: State, w: nat, reply: P.Reply)
    ensures var pc := PcOf(s, w);
            Step(s, CreateCheck(w, reply)).checks ==
            if pc.CreatingCheck? && !reply.Refused? && pc.signal.name !in s.checks.crs
            then P.Step(s.checks, P.UserCreates(pc.signal.name, pc.target)) else s.checks
  {
    hide P.Step;
  }

  lemma StepProjects(s: State, a: Action)
    ensures Step(s, a).checks == P.Run(s.checks, ChecksOf(s, a))
  {
    hide P.Step, P.Run;
    RunOne(s.checks, P.Tick(0));
    if a.CheckStep? {
      RunOne(s.checks, a.a);
    } else if a.CreateCheck? {
      hide Step;
      CreateCheckProjects(s, a.w, a.reply);
      var pc := PcOf(s, a.w);
      if pc.CreatingCheck? {
        RunOne(s.checks, P.UserCreates(pc.signal.name, pc.target));
      }
    } else {
      hide Step;
      QuietSteps(s, a);
    }
  }

  lemma {:induction false} RunProjects(s: State, actions: seq<Action>)
    ensures Run(s, actions).checks == P.Run(s.checks, ChecksOfRun(s, actions))
  {
    hide P.Run, Step, ChecksOf;
    if actions == [] {
      RunOne(s.checks, P.Tick(0));
    } else {
      var init, a := actions[..|actions| - 1], actions[|actions| - 1];
      RunProjects(s, init);
      StepProjects(Run(s, init), a);
      P.RunConcat(s.checks, ChecksOfRun(s, init), ChecksOf(Run(s, init), a));
    }
  }
}
