/** The pod-startup checker's TCP phase: dial, and on failure wait a fixed delay and dial again, up to
    the configured number of retries or until the run's context is done. */
module TcpRetry {
  import opened Api
  import opened Int64
  import opened Validation

  datatype DialOutcome = Connected | DialTimedOut | DialFailed

  /** How one dial went, and how long it took. */
  datatype Dial = Dial(outcome: DialOutcome, took: Time)

  /** How the wait after a failed dial went; cancelled if the context was done first, and then whether
      it was its deadline. */
  datatype Wait = Wait(cancelled: bool, deadline: bool, took: Time)

  /** What the network and the context will do: at most the dial timeout per attempt, and the fixed
      delay between two attempts unless it is cut short. */
  ghost predicate Plausible(c: PodStartupConfig, dials: seq<Dial>, waits: seq<Wait>) {
    && |dials| == |waits| == c.tcpMaxRetries + 1
    && (forall i :: 0 <= i < |dials| ==> 0 <= dials[i].took <= c.tcpTimeout)
    && (forall i :: 0 <= i < |waits| ==>
          if waits[i].cancelled then 0 <= waits[i].took <= c.tcpRetryInterval else waits[i].took == c.tcpRetryInterval)
  }

  // ----- What the retries come to -----

  datatype AttemptError = AttemptError(attempt: nat, deadline: bool) | ContextError(deadline: bool)

  /** Attempt k ends the loop: it connects, it is the last, or the wait after it is cut short. */
  predicate Ends(dials: seq<Dial>, waits: seq<Wait>, k: nat)
    requires k < |dials| == |waits|
  {
    dials[k].outcome.Connected? || k == |dials| - 1 || waits[k].cancelled
  }

  ghost predicate EndsFirstAt(dials: seq<Dial>, waits: seq<Wait>, k: nat) {
    k < |dials| == |waits| && Ends(dials, waits, k) && forall j :: 0 <= j < k ==> !Ends(dials, waits, j)
  }

  function Took(dials: seq<Dial>, waits: seq<Wait>, n: nat): Time
    requires n <= |dials| == |waits|
  {
    if n == 0 then 0 else Took(dials, waits, n - 1) + dials[n - 1].took + waits[n - 1].took
  }

  function ErrorsOf(dials: seq<Dial>, n: nat): seq<AttemptError>
    requires n <= |dials|
  {
    if n == 0 then [] else ErrorsOf(dials, n - 1) + [AttemptError(n, dials[n - 1].outcome.DialTimedOut?)]
  }

  /** Stops with the first attempt that ends the loop; all failed attempts are reported, numbered from
      one, and a cancellation after them. */
  method ConnectWithRetry(c: PodStartupConfig, dials: seq<Dial>, waits: seq<Wait>)
    returns (ok: bool, errs: seq<AttemptError>, elapsed: Time, ghost last: nat)
    requires c.tcpMaxRetries >= 0 && Plausible(c, dials, waits)
    ensures EndsFirstAt(dials, waits, last)
    ensures ok <==> dials[last].outcome.Connected?
    ensures ok ==> errs == []
    ensures !ok ==> errs == ErrorsOf(dials, last + 1) + (if last < |dials| - 1 then [ContextError(waits[last].deadline)] else [])
    ensures elapsed == Took(dials, waits, last) + dials[last].took + (if ok || last == |dials| - 1 then 0 else waits[last].took)
  {
    var maxAttempts := c.tcpMaxRetries + 1;
    var attempt := 1;
    errs := [];
    elapsed := 0;
    last := 0;
    while true
      invariant 1 <= attempt <= maxAttempts && last == attempt - 1
      invariant forall j :: 0 <= j < last ==> !Ends(dials, waits, j)
      invariant errs == ErrorsOf(dials, last)
      invariant elapsed == Took(dials, waits, last)
      decreases maxAttempts - attempt
    {
      var dial := dials[attempt - 1];
      elapsed := elapsed + dial.took;
      if dial.outcome.Connected? {
        return true, [], elapsed, last;
      }
      errs := errs + [AttemptError(attempt, dial.outcome.DialTimedOut?)];
      if attempt == maxAttempts {
        return false, errs, elapsed, last;
      }
      var wait := waits[attempt - 1];
      elapsed := elapsed + wait.took;
      if wait.cancelled {
        return false, errs + [ContextError(wait.deadline)], elapsed, last;
      }
      attempt := attempt + 1;
      last := last + 1;
    }
  }

  // ----- The budget bounds it -----

  lemma {:induction false} TookAtMost(c: PodStartupConfig, dials: seq<Dial>, waits: seq<Wait>, n: nat)
    requires c.tcpMaxRetries >= 0 && c.tcpRetryInterval >= 0 && Plausible(c, dials, waits) && n <= |dials|
    ensures 0 <= Took(dials, waits, n) <= n * (c.tcpTimeout + c.tcpRetryInterval)
  {
    if n > 0 {
      TookAtMost(c, dials, waits, n - 1);
      assert n * (c.tcpTimeout + c.tcpRetryInterval) == (n - 1) * (c.tcpTimeout + c.tcpRetryInterval) + c.tcpTimeout + c.tcpRetryInterval;
    }
  }

  /** The time a run of the loop takes when it ends at attempt last. */
  function Elapsed(dials: seq<Dial>, waits: seq<Wait>, last: nat): Time
    requires last < |dials| == |waits|
  {
    Took(dials, waits, last) + dials[last].took
    + (if dials[last].outcome.Connected? || last == |dials| - 1 then 0 else waits[last].took)
  }

  /** The budget is a bound: whatever the network does, the loop takes no longer. */
  lemma BudgetIsBound(c: PodStartupConfig, dials: seq<Dial>, waits: seq<Wait>, last: nat)
    requires c.tcpMaxRetries >= 0 && c.tcpRetryInterval >= 0
    requires Plausible(c, dials, waits) && EndsFirstAt(dials, waits, last)
    ensures Elapsed(dials, waits, last) <= Budget(c)
  {
    TookAtMost(c, dials, waits, last);
    var r, t, i := c.tcpMaxRetries, c.tcpTimeout, c.tcpRetryInterval;
    assert dials[last].took >= 0;
    if last < r {
      Grouped(last + 1, r, t, i);
    } else {
      Grouped(r, r, t, i);
    }
  }

  lemma Grouped(n: int, r: int, t: int, i: int)
    requires 0 <= n <= r && t >= 0 && i >= 0
    ensures n * (t + i) + t <= (r + 1) * t + r * i
    ensures n > 0 ==> (n - 1) * (t + i) + t + i == n * (t + i)
  {
    assert n * t <= r * t && n * i <= r * i;
    assert n * (t + i) == n * t + n * i;
    assert (r + 1) * t == r * t + t;
    assert n > 0 ==> (n - 1) * (t + i) == n * (t + i) - (t + i);
  }

  /** The slowest network: every dial times out after the whole timeout. */
  function Slowest(c: PodStartupConfig): (seq<Dial>, seq<Wait>)
    requires c.tcpMaxRetries >= 0
  {
    (seq(c.tcpMaxRetries + 1, k => Dial(DialTimedOut, c.tcpTimeout)), seq(c.tcpMaxRetries + 1, k => Wait(false, false, c.tcpRetryInterval)))
  }

  lemma {:induction false} SlowestTook(c: PodStartupConfig, n: nat)
    requires c.tcpMaxRetries >= 0 && n <= c.tcpMaxRetries + 1
    ensures Took(Slowest(c).0, Slowest(c).1, n) == n * (c.tcpTimeout + c.tcpRetryInterval)
  {
    if n > 0 {
      SlowestTook(c, n - 1);
      assert n * (c.tcpTimeout + c.tcpRetryInterval) == (n - 1) * (c.tcpTimeout + c.tcpRetryInterval) + c.tcpTimeout + c.tcpRetryInterval;
    }
  }

  /** And the bound is tight. */
  lemma BudgetIsAttained(c: PodStartupConfig)
    requires c.tcpTimeout >= 0 && c.tcpMaxRetries >= 0 && c.tcpRetryInterval >= 0
    ensures var (dials, waits) := Slowest(c);
            && Plausible(c, dials, waits)
            && EndsFirstAt(dials, waits, c.tcpMaxRetries)
            && Elapsed(dials, waits, c.tcpMaxRetries) == Budget(c)
  {
    SlowestTook(c, c.tcpMaxRetries);
    var r, t, i := c.tcpMaxRetries, c.tcpTimeout, c.tcpRetryInterval;
    assert r * (t + i) == r * t + r * i;
    assert (r + 1) * t == r * t + t;
  }

  /** End to end, for an accepted configuration without overflow: if the phase before took no longer
      than the startup timeout, the whole check ends before the checker's timeout. */
  lemma CheckEndsInTime(c: PodStartupConfig, checkerTimeout: int, lib: Library, dials: seq<Dial>, waits: seq<Wait>, last: nat, before: Time)
    requires Machine(c) && InRange(checkerTimeout) && Accepted(c, checkerTimeout, lib) && NoOverflow(c)
    requires Plausible(c, dials, waits) && EndsFirstAt(dials, waits, last)
    requires before <= c.syntheticPodStartupTimeout
    ensures before + Elapsed(dials, waits, last) < checkerTimeout
  {
    AcceptedMeans(c, checkerTimeout, lib);
    BudgetFitsIff(c, checkerTimeout, lib);
    BudgetIsBound(c, dials, waits, last);
  }

  /** With an overflow, the slowest network runs past every timeout there is. */
  lemma OverflowRunsLate(c: PodStartupConfig, checkerTimeout: int, lib: Library)
    requires Machine(c) && InRange(checkerTimeout) && Accepted(c, checkerTimeout, lib) && !NoOverflow(c)
    ensures c.tcpMaxRetries >= 0
    ensures c.syntheticPodStartupTimeout + Elapsed(Slowest(c).0, Slowest(c).1, c.tcpMaxRetries) >= checkerTimeout
  {
    AcceptedMeans(c, checkerTimeout, lib);
    BudgetFitsIff(c, checkerTimeout, lib);
    BudgetIsAttained(c);
  }

  // ----- What is reported -----

  /** An error as it comes back: none, a single one, or the list of all attempts' errors. */
  datatype GoError = NoError | Plain(deadline: bool) | RetryError(errors: seq<AttemptError>)

  method AllErrorsAreDeadlineExceeded(err: GoError) returns (all: bool)
    ensures all <==> match err
                     case NoError => false
                     case Plain(deadline) => deadline
                     case RetryError(errors) => errors != [] && forall i :: 0 <= i < |errors| ==> errors[i].deadline
  {
    match err
    case NoError => return false;
    case Plain(deadline) => return deadline;
    case RetryError(errors) =>
      if |errors| == 0 {
        return false;
      }
      for i := 0 to |errors|
        invariant forall j :: 0 <= j < i ==> errors[j].deadline
      {
        if !errors[i].deadline {
          return false;
        }
      }
      return true;
  }

  lemma {:induction false} ErrorAt(dials: seq<Dial>, n: nat, i: nat)
    requires i < n <= |dials|
    ensures |ErrorsOf(dials, n)| == n && ErrorsOf(dials, n)[i] == AttemptError(i + 1, dials[i].outcome.DialTimedOut?)
  {
    if n > 1 {
      ErrorAt(dials, n - 1, if i < n - 1 then i else 0);
    }
  }

  datatype TcpVerdict = TcpHealthy | RequestTimeout | RequestFailed

  /** A timeout is reported exactly if every single attempt timed out, and the context too if it ended
      the loop. */
  method CheckTcp(c: PodStartupConfig, dials: seq<Dial>, waits: seq<Wait>) returns (verdict: TcpVerdict, ghost last: nat)
    requires c.tcpMaxRetries >= 0 && Plausible(c, dials, waits)
    ensures EndsFirstAt(dials, waits, last)
    ensures verdict.TcpHealthy? <==> dials[last].outcome.Connected?
    ensures verdict.RequestTimeout? <==>
              && (forall i :: 0 <= i <= last ==> dials[i].outcome.DialTimedOut?)
              && (last < |dials| - 1 ==> waits[last].deadline)
  {
    var ok, errs, elapsed;
    ok, errs, elapsed, last := ConnectWithRetry(c, dials, waits);
    if ok {
      return TcpHealthy, last;
    }
    var timeout := AllErrorsAreDeadlineExceeded(RetryError(errs));
    ErrorAt(dials, last + 1, last);
    forall i | 0 <= i <= last ensures i < |errs| && errs[i] == AttemptError(i + 1, dials[i].outcome.DialTimedOut?) {
      ErrorAt(dials, last + 1, i);
    }
    if last < |dials| - 1 {
      assert |errs| == last + 2 && errs[last + 1] == ContextError(waits[last].deadline);
    } else {
      assert |errs| == last + 1;
    }
    assert timeout <==> forall i :: 0 <= i < |errs| ==> errs[i].deadline;
    return if timeout then RequestTimeout else RequestFailed, last;
  }
}
