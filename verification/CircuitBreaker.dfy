/** The circuit breaker that limits how many nodes can be condemned in a short time
    (pkg/controller/checknodehealth/circuit_breaker.go), specified by its history of calls. */
module CircuitBreaker {
  import opened Api

  datatype Config = Config(threshold: int, window: Time, cooldown: Time)

  /** A call of Allow, RecordUnhealthyNode or RecordHealthyNode, with the clock reading it used. */
  datatype Event = Asked(at: Time) | Failing(at: Time) | Passing(at: Time)

  type History = seq<Event>

  ghost predicate Ordered(h: History) {
    forall i, j :: 0 <= i < j < |h| ==> h[i].at <= h[j].at
  }

  ghost predicate Sorted(times: seq<Time>) {
    forall i, j :: 0 <= i < j < |times| ==> times[i] <= times[j]
  }

  function Since(times: seq<Time>, cutoff: Time): seq<Time> {
    if times == [] then []
    else (if times[0] < cutoff then [] else [times[0]]) + Since(times[1..], cutoff)
  }

  // ----- Specification: what a history of calls amounts to -----

  /** An Allow that finds the cooldown over closes the breaker and forgets the streak. */
  ghost predicate Resets(c: Config, h: History, now: Time)
    decreases |h|, 3
  {
    var start := OpenedAt(c, h);
    start.Some? && now - start.value >= c.cooldown
  }

  /** Every unhealthy record since the last healthy record or cooldown reset, however old. */
  ghost function Streak(c: Config, h: History): seq<Time>
    decreases |h|, 0
  {
    if h == [] then []
    else
      var before, e := h[..|h| - 1], h[|h| - 1];
      match e
      case Failing(t) => Streak(c, before) + [t]
      case Passing(_) => []
      case Asked(t) => if Resets(c, before, t) then [] else Streak(c, before)
  }

  /** The part of the streak that lay in the window when its last member was recorded. */
  ghost function Recent(c: Config, h: History): seq<Time>
    decreases |h|, 1
  {
    var streak := Streak(c, h);
    if streak == [] then [] else Since(streak, streak[|streak| - 1] - c.window)
  }

  ghost function OpenedAt(c: Config, h: History): Option<Time>
    decreases |h|, 2
  {
    if h == [] then None
    else
      var before, e := h[..|h| - 1], h[|h| - 1];
      match e
      case Failing(t) => if |Recent(c, h)| >= c.threshold then Some(t) else OpenedAt(c, before)
      case Passing(_) => OpenedAt(c, before)
      case Asked(t) => if Resets(c, before, t) then None else OpenedAt(c, before)
  }

  /** Whether a call of Allow at time now, after h, answers yes. */
  ghost predicate Grants(c: Config, h: History, now: Time) {
    OpenedAt(c, h).None? || Resets(c, h, now)
  }

  lemma AfterFailing(c: Config, h: History, t: Time)
    ensures Streak(c, h + [Failing(t)]) == Streak(c, h) + [t]
    ensures Recent(c, h + [Failing(t)]) == Since(Streak(c, h) + [t], t - c.window)
    ensures OpenedAt(c, h + [Failing(t)]) ==
            if |Recent(c, h + [Failing(t)])| >= c.threshold then Some(t) else OpenedAt(c, h)
  {
    assert (h + [Failing(t)])[..|h|] == h;
  }

  lemma AfterPassing(c: Config, h: History, t: Time)
    ensures Streak(c, h + [Passing(t)]) == Recent(c, h + [Passing(t)]) == []
    ensures OpenedAt(c, h + [Passing(t)]) == OpenedAt(c, h)
  {
    assert (h + [Passing(t)])[..|h|] == h;
  }

  lemma AfterAsking(c: Config, h: History, t: Time)
    ensures Resets(c, h, t) ==> Recent(c, h + [Asked(t)]) == [] && OpenedAt(c, h + [Asked(t)]).None?
    ensures !Resets(c, h, t) ==> Recent(c, h + [Asked(t)]) == Recent(c, h) && OpenedAt(c, h + [Asked(t)]) == OpenedAt(c, h)
  {
    assert (h + [Asked(t)])[..|h|] == h;
  }

  // ----- The streak and the opening time, in terms of positions in the history -----

  ghost predicate CutAt(c: Config, h: History, i: nat)
    requires i < |h|
  {
    h[i].Passing? || (h[i].Asked? && Resets(c, h[..i], h[i].at))
  }

  ghost predicate TripsAt(c: Config, h: History, i: nat)
    requires i < |h|
  {
    h[i].Failing? && |Recent(c, h[..i + 1])| >= c.threshold
  }

  ghost predicate ResetAt(c: Config, h: History, i: nat)
    requires i < |h|
  {
    h[i].Asked? && Resets(c, h[..i], h[i].at)
  }

  ghost predicate LastTrip(c: Config, h: History, i: nat) {
    && i < |h|
    && TripsAt(c, h, i)
    && forall j :: i < j < |h| ==> !TripsAt(c, h, j) && !ResetAt(c, h, j)
  }

  ghost function FailingTimes(h: History): seq<Time> {
    if h == [] then []
    else FailingTimes(h[..|h| - 1]) + (if h[|h| - 1].Failing? then [h[|h| - 1].at] else [])
  }

  /** The streak is every unhealthy time after the last cut, and nothing else. */
  lemma {:induction false} StreakMeaning(c: Config, h: History, k: nat)
    requires k <= |h|
    requires k > 0 ==> CutAt(c, h, k - 1)
    requires forall i :: k <= i < |h| ==> !CutAt(c, h, i)
    ensures Streak(c, h) == FailingTimes(h[k..])
  {
    if |h| > k {
      var n := |h| - 1;
      var before := h[..n];
      forall i: nat | k <= i < n ensures !CutAt(c, before, i) {
        assert before[..i] == h[..i];
        assert !CutAt(c, h, i);
      }
      if k > 0 {
        assert before[..k - 1] == h[..k - 1];
      }
      StreakMeaning(c, before, k);
      assert h[k..][..n - k] == before[k..];
      assert !CutAt(c, h, n);
    } else if h != [] {
      assert h[k..] == [];
      assert CutAt(c, h, k - 1);
    }
  }

  /** openedAt is the time of the last trip after which no cooldown reset has happened. */
  lemma {:induction false} OpenedAtMeaning(c: Config, h: History, o: Time)
    ensures OpenedAt(c, h) == Some(o) <==>
            exists i: nat :: LastTrip(c, h, i) && h[i].at == o
  {
    if h != [] {
      var n := |h| - 1;
      var before := h[..n];
      forall i: nat | i < n
        ensures TripsAt(c, before, i) <==> TripsAt(c, h, i)
        ensures ResetAt(c, before, i) <==> ResetAt(c, h, i)
      {
        assert before[..i] == h[..i] && before[..i + 1] == h[..i + 1];
      }
      assert h[..n + 1] == h;
      OpenedAtMeaning(c, before, o);
      if TripsAt(c, h, n) {
        assert OpenedAt(c, h) == Some(h[n].at);
      } else if !ResetAt(c, h, n) {
        assert OpenedAt(c, h) == OpenedAt(c, before);
        if i: nat :| LastTrip(c, before, i) && before[i].at == o {
          assert LastTrip(c, h, i);
        }
        if i: nat :| LastTrip(c, h, i) && h[i].at == o {
          assert LastTrip(c, before, i);
        }
      }
    }
  }

  // ----- The class -----

  class NodeConditionCircuitBreaker {
    const config: Config
    var consecutiveUnhealthy: seq<Time>
    var openedAt: Option<Time>
    ghost var history: History

    ghost predicate Valid()
      reads this
    {
      && Ordered(history)
      && consecutiveUnhealthy == Recent(config, history)
      && openedAt == OpenedAt(config, history)
    }

    /** The clock has not gone back since the last call. */
    ghost predicate Clock(now: Time)
      reads this
    {
      forall i :: 0 <= i < |history| ==> history[i].at <= now
    }

    constructor (threshold: int, window: Time, cooldown: Time)
      ensures Valid() && history == [] && config == Config(threshold, window, cooldown)
    {
      config := Config(threshold, window, cooldown);
      consecutiveUnhealthy := [];
      openedAt := None;
      history := [];
    }

    method Allow(now: Time) returns (allowed: bool)
      requires Valid() && Clock(now)
      modifies this
      ensures Valid() && history == old(history) + [Asked(now)]
      ensures allowed <==> Grants(config, old(history), now)
      ensures !allowed <==> old(openedAt).Some? && now - old(openedAt).value < config.cooldown
    {
      hide Since, Sorted, Streak, Recent, OpenedAt;
      AfterAsking(config, history, now);
      history := history + [Asked(now)];
      if openedAt.Some? {
        if now - openedAt.value >= config.cooldown {
          openedAt := None;
          consecutiveUnhealthy := [];
          return true;
        }
        return false;
      }
      return true;
    }

    method RecordUnhealthyNode(now: Time)
      requires Valid() && Clock(now)
      modifies this
      ensures Valid() && history == old(history) + [Failing(now)]
    {
      hide Since, Sorted, Streak, Recent, OpenedAt;
      RecentAfterFailing(config, history, now);
      history := history + [Failing(now)];

      consecutiveUnhealthy := consecutiveUnhealthy + [now];
      consecutiveUnhealthy := PruneExpiredEvents(consecutiveUnhealthy, config.window, now);
      if |consecutiveUnhealthy| >= config.threshold {
        openedAt := Some(now);
      }
    }

    method RecordHealthyNode(now: Time)
      requires Valid() && Clock(now)
      modifies this
      ensures Valid() && history == old(history) + [Passing(now)]
      ensures openedAt == old(openedAt) && consecutiveUnhealthy == []
    {
      hide Since, Sorted, Streak, Recent, OpenedAt;
      AfterPassing(config, history, now);
      history := history + [Passing(now)];
      if |consecutiveUnhealthy| > 0 {
        consecutiveUnhealthy := [];
      }
    }
  }

  method PruneExpiredEvents(events: seq<Time>, window: Time, now: Time) returns (kept: seq<Time>)
    requires Sorted(events)
    ensures kept == Since(events, now - window)
  {
    hide Since, Sorted;
    var cutoff := now - window;
    var i := 0;
    assert events[0..] == events;
    while i < |events| && events[i] < cutoff
      invariant 0 <= i <= |events|
      invariant Since(events[i..], cutoff) == Since(events, cutoff)
    {
      DropExpired(events, i, cutoff);
      i := i + 1;
    }
    NoneExpired(events, i, cutoff);
    return events[i..];
  }

  lemma DropExpired(events: seq<Time>, i: nat, cutoff: Time)
    requires i < |events| && events[i] < cutoff
    ensures Since(events[i..], cutoff) == Since(events[i + 1..], cutoff)
  {
    assert events[i..][1..] == events[i + 1..];
  }

  /** In a chronological list, once one event is in the window the rest are. */
  lemma NoneExpired(events: seq<Time>, i: nat, cutoff: Time)
    requires Sorted(events) && i <= |events|
    requires i < |events| ==> events[i] >= cutoff
    ensures Since(events[i..], cutoff) == events[i..]
  {
    forall j | 0 <= j < |events[i..]| ensures events[i..][j] >= cutoff {
      assert events[i..][j] == events[i + j];
    }
    SinceAll(events[i..], cutoff);
  }

  // ----- Lemmas about windows -----

  lemma {:induction false} SinceAll(times: seq<Time>, cutoff: Time)
    requires forall i :: 0 <= i < |times| ==> times[i] >= cutoff
    ensures Since(times, cutoff) == times
  {
    if times != [] {
      SinceAll(times[1..], cutoff);
    }
  }

  lemma {:induction false} SinceConcat(a: seq<Time>, b: seq<Time>, cutoff: Time)
    ensures Since(a + b, cutoff) == Since(a, cutoff) + Since(b, cutoff)
  {
    if a == [] {
      assert a + b == b;
    } else {
      var first := if a[0] < cutoff then [] else [a[0]];
      assert (a + b)[0] == a[0] && (a + b)[1..] == a[1..] + b;
      SinceConcat(a[1..], b, cutoff);
      assert Since(a + b, cutoff) == first + Since(a[1..] + b, cutoff);
      assert first + (Since(a[1..], cutoff) + Since(b, cutoff)) == (first + Since(a[1..], cutoff)) + Since(b, cutoff);
    }
  }

  lemma {:induction false} SinceTwice(times: seq<Time>, earlier: Time, later: Time)
    requires earlier <= later
    ensures Since(Since(times, earlier), later) == Since(times, later)
  {
    if times != [] {
      var head := if times[0] < earlier then [] else [times[0]];
      SinceConcat(head, Since(times[1..], earlier), later);
      SinceTwice(times[1..], earlier, later);
      assert Since(head, later) == if times[0] < later then [] else [times[0]];
    }
  }

  lemma {:induction false} SinceMembers(times: seq<Time>, cutoff: Time, bound: Time)
    requires Sorted(times)
    requires forall i :: 0 <= i < |times| ==> times[i] <= bound
    ensures Sorted(Since(times, cutoff))
    ensures forall i :: 0 <= i < |Since(times, cutoff)| ==> cutoff <= Since(times, cutoff)[i] <= bound
    ensures times != [] ==> forall i :: 0 <= i < |Since(times, cutoff)| ==> times[0] <= Since(times, cutoff)[i]
  {
    if times != [] {
      SinceMembers(times[1..], cutoff, bound);
    }
  }

  lemma {:induction false} StreakSorted(c: Config, h: History, now: Time)
    requires Ordered(h)
    requires forall i :: 0 <= i < |h| ==> h[i].at <= now
    ensures Sorted(Streak(c, h))
    ensures forall i :: 0 <= i < |Streak(c, h)| ==> Streak(c, h)[i] <= now
  {
    if h != [] {
      StreakSorted(c, h[..|h| - 1], h[|h| - 1].at);
    }
  }

  /** Pruning lazily, at the last record, loses nothing: what the pruned list plus the new time
      leaves in the new window is what the whole streak leaves there. */
  lemma RecentAfterFailing(c: Config, h: History, now: Time)
    requires Ordered(h)
    requires forall i :: 0 <= i < |h| ==> h[i].at <= now
    ensures Sorted(Recent(c, h) + [now])
    ensures Recent(c, h + [Failing(now)]) == Since(Recent(c, h) + [now], now - c.window)
    ensures OpenedAt(c, h + [Failing(now)]) ==
            if |Recent(c, h + [Failing(now)])| >= c.threshold then Some(now) else OpenedAt(c, h)
  {
    AfterFailing(c, h, now);
    StreakSorted(c, h, now);
    LazyPruning(Streak(c, h), now, c.window);
  }

  lemma LazyPruning(streak: seq<Time>, now: Time, window: Time)
    requires Sorted(streak)
    requires forall i :: 0 <= i < |streak| ==> streak[i] <= now
    ensures streak != [] ==> Sorted(Since(streak, streak[|streak| - 1] - window) + [now])
    ensures streak != [] ==>
              Since(streak + [now], now - window) ==
              Since(Since(streak, streak[|streak| - 1] - window) + [now], now - window)
  {
    hide Since, Sorted;
    if streak != [] {
      var cutoff := streak[|streak| - 1] - window;
      SinceMembers(streak, cutoff, now);
      SortedSnoc(Since(streak, cutoff), now);
      PruneTwice(streak, now, cutoff, now - window);
    }
  }

  lemma SortedSnoc(times: seq<Time>, now: Time)
    requires Sorted(times)
    requires forall i :: 0 <= i < |times| ==> times[i] <= now
    ensures Sorted(times + [now])
  {
    var all := times + [now];
    forall i, j | 0 <= i < j < |all| ensures all[i] <= all[j] {
      assert all[i] == times[i];
    }
  }

  lemma PruneTwice(streak: seq<Time>, now: Time, earlier: Time, later: Time)
    requires earlier <= later
    ensures Since(streak + [now], later) == Since(Since(streak, earlier) + [now], later)
  {
    SinceTwice(streak, earlier, later);
    SinceConcat(streak, [now], later);
    SinceConcat(Since(streak, earlier), [now], later);
  }
}
