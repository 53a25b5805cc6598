/** The bound the circuit breaker exists for: how many nodes one failing stretch can condemn. */
module BlastRadius {
  import opened Api
  import opened CircuitBreaker

  /** One completed check as determineCheckResult handles it: the breaker is asked before the node
      is written, and told the outcome afterwards. */
  datatype Completion = Completion(asked: Time, recorded: Time, failing: bool)

  ghost function EventsOf(x: Completion): History {
    [Asked(x.asked), if x.failing then Failing(x.recorded) else Passing(x.recorded)]
  }

  ghost function AfterAll(h: History, xs: seq<Completion>): History
    decreases |xs|
  {
    if xs == [] then h else AfterAll(h + EventsOf(xs[0]), xs[1..])
  }

  /** The completions that write NodeHealthy=False on their node. */
  ghost function Condemned(c: Config, h: History, xs: seq<Completion>): nat
    decreases |xs|
  {
    if xs == [] then 0
    else (if xs[0].failing && Grants(c, h, xs[0].asked) then 1 else 0)
         + Condemned(c, h + EventsOf(xs[0]), xs[1..])
  }

  /** Completions handled one after another on a clock that never goes back. */
  ghost predicate Serial(now: Time, xs: seq<Completion>)
    decreases |xs|
  {
    xs == [] || (now <= xs[0].asked <= xs[0].recorded && Serial(xs[0].recorded, xs[1..]))
  }

  ghost predicate AllFailing(xs: seq<Completion>) {
    forall i :: 0 <= i < |xs| ==> xs[i].failing
  }

  function End(start: Time, xs: seq<Completion>): Time {
    if xs == [] then start else xs[|xs| - 1].recorded
  }

  ghost predicate UpTo(h: History, now: Time) {
    Ordered(h) && forall i :: 0 <= i < |h| ==> h[i].at <= now
  }

  function Min(a: int, b: int): int { if a < b then a else b }

  lemma {:induction false} EndAfter(now: Time, xs: seq<Completion>)
    requires Serial(now, xs)
    ensures now <= End(now, xs)
    decreases |xs|
  {
    if xs != [] {
      EndAfter(xs[0].recorded, xs[1..]);
      assert xs[1..] != [] ==> xs[1..][|xs[1..]| - 1] == xs[|xs| - 1];
    }
  }

  /** What one failing completion does to the breaker. */
  lemma FailingCompletion(c: Config, h: History, x: Completion)
    requires UpTo(h, x.asked) && x.asked <= x.recorded && x.failing
    ensures UpTo(h + EventsOf(x), x.recorded)
    ensures Grants(c, h, x.asked) ==> OpenedAt(c, h + [Asked(x.asked)]).None?
    ensures var kept := Recent(c, h + [Asked(x.asked)]);
            && Recent(c, h + EventsOf(x)) == Since(kept + [x.recorded], x.recorded - c.window)
            && OpenedAt(c, h + EventsOf(x)) ==
               if |Since(kept + [x.recorded], x.recorded - c.window)| >= c.threshold then Some(x.recorded)
               else OpenedAt(c, h + [Asked(x.asked)])
    ensures !Grants(c, h, x.asked) ==> OpenedAt(c, h + [Asked(x.asked)]) == OpenedAt(c, h)
  {
    var h1 := h + [Asked(x.asked)];
    AfterAsking(c, h, x.asked);
    RecentAfterFailing(c, h1, x.recorded);
    assert h1 + [Failing(x.recorded)] == h + EventsOf(x);
  }

  /** While the breaker stays open nothing is written: failures only push openedAt forward. */
  lemma {:induction false} NoneWhileOpen(c: Config, h: History, now: Time, xs: seq<Completion>)
    requires UpTo(h, now) && Serial(now, xs) && AllFailing(xs)
    requires OpenedAt(c, h).Some? && End(now, xs) - OpenedAt(c, h).value < c.cooldown
    requires OpenedAt(c, h).value <= now
    ensures Condemned(c, h, xs) == 0
    decreases |xs|
  {
    if xs != [] {
      var x := xs[0];
      EndAfter(now, xs);
      EndAfter(x.recorded, xs[1..]);
      assert End(x.recorded, xs[1..]) == End(now, xs);
      FailingCompletion(c, h, x);
      NoneWhileOpen(c, h + EventsOf(x), x.recorded, xs[1..]);
    }
  }

  /** The last k kept times are no older than since. */
  ghost predicate FreshTail(times: seq<Time>, k: nat, since: Time) {
    k <= |times| && forall i :: |times| - k <= i < |times| ==> since <= times[i]
  }

  lemma FreshTailGrows(times: seq<Time>, k: nat, since: Time, now: Time, cutoff: Time)
    requires FreshTail(times, k, since) && cutoff <= since <= now
    ensures FreshTail(Since(times + [now], cutoff), k + 1, since)
  {
    var head := times[..|times| - k];
    var tail := times[|times| - k..] + [now];
    assert times + [now] == head + tail;
    SinceConcat(head, tail, cutoff);
    SinceAll(tail, cutoff);
  }

  /** A stretch whose first completion is granted: each grant puts one more fresh time in the
      window, so the breaker trips by the time the threshold is reached. */
  lemma {:induction false} GrantedStretch(c: Config, h: History, since: Time, now: Time, xs: seq<Completion>, k: nat)
    requires UpTo(h, now) && Serial(now, xs) && AllFailing(xs)
    requires xs != [] && Grants(c, h, xs[0].asked)
    requires since <= xs[0].asked
    requires End(now, xs) - since < Min(c.window, c.cooldown)
    requires k < c.threshold && FreshTail(Recent(c, h + [Asked(xs[0].asked)]), k, since)
    ensures Condemned(c, h, xs) <= c.threshold - k
    decreases |xs|
  {
    var x, rest := xs[0], xs[1..];
    var h' := h + EventsOf(x);
    FailingCompletion(c, h, x);
    EndAfter(x.recorded, rest);
    assert End(x.recorded, rest) == End(now, xs);
    FreshTailGrows(Recent(c, h + [Asked(x.asked)]), k, since, x.recorded, x.recorded - c.window);
    if rest == [] {
    } else if OpenedAt(c, h').Some? {
      NoneWhileOpen(c, h', x.recorded, rest);
    } else {
      AfterAsking(c, h', rest[0].asked);
      GrantedStretch(c, h', since, x.recorded, rest, k + 1);
    }
  }

  /** From any state of the breaker, a stretch of failing completions shorter than both the window
      and the cooldown condemns at most threshold nodes. */
  lemma {:induction false} BlastRadiusBound(c: Config, h: History, now: Time, xs: seq<Completion>)
    requires c.threshold >= 1
    requires UpTo(h, now) && Serial(now, xs) && AllFailing(xs)
    requires xs != [] ==> End(now, xs) - xs[0].asked < Min(c.window, c.cooldown)
    ensures Condemned(c, h, xs) <= c.threshold
    decreases |xs|
  {
    if xs != [] {
      var x, rest := xs[0], xs[1..];
      FailingCompletion(c, h, x);
      EndAfter(x.recorded, rest);
      assert End(x.recorded, rest) == End(now, xs);
      if Grants(c, h, x.asked) {
        GrantedStretch(c, h, x.asked, now, xs, 0);
      } else {
        BlastRadiusBound(c, h + EventsOf(x), x.recorded, rest);
      }
    }
  }

  /** The bound over a whole run: any window of consecutive failing completions in any serial run. */
  lemma {:induction false} BlastRadiusInAnyRun(c: Config, h: History, now: Time, before: seq<Completion>, xs: seq<Completion>, after: seq<Completion>)
    requires c.threshold >= 1
    requires UpTo(h, now) && Serial(now, before + xs + after) && AllFailing(xs)
    requires xs != [] ==> xs[|xs| - 1].recorded - xs[0].asked < Min(c.window, c.cooldown)
    ensures Condemned(c, AfterAll(h, before), xs) <= c.threshold
    decreases |before|
  {
    if before == [] {
      assert before + xs + after == xs + after;
      SerialPrefix(now, xs, after);
      BlastRadiusBound(c, h, now, xs);
    } else {
      var x := before[0];
      assert (before + xs + after)[1..] == before[1..] + xs + after;
      assert UpTo(h + EventsOf(x), x.recorded);
      BlastRadiusInAnyRun(c, h + EventsOf(x), x.recorded, before[1..], xs, after);
    }
  }

  lemma {:induction false} SerialPrefix(now: Time, xs: seq<Completion>, after: seq<Completion>)
    requires Serial(now, xs + after)
    ensures Serial(now, xs)
    decreases |xs|
  {
    if xs != [] {
      assert (xs + after)[1..] == xs[1..] + after;
      SerialPrefix(xs[0].recorded, xs[1..], after);
    }
  }

  /** The bound is attained: threshold simultaneous failures on a fresh breaker all get through. */
  function Burst(n: nat): seq<Completion> {
    seq(n, i => Completion(0, 0, true))
  }

  lemma {:induction false} BurstAttains(c: Config, h: History, n: nat)
    requires c.window >= 0
    requires UpTo(h, 0) && OpenedAt(c, h).None?
    requires FreshTail(Recent(c, h), |Recent(c, h)|, 0) && |Recent(c, h)| + n <= c.threshold
    ensures Serial(0, Burst(n)) && Condemned(c, h, Burst(n)) == n
    decreases n
  {
    if n > 0 {
      var xs := Burst(n);
      assert xs[1..] == Burst(n - 1);
      FailingCompletion(c, h, xs[0]);
      AfterAsking(c, h, 0);
      var kept := Recent(c, h);
      SinceAll(kept + [0], -c.window);
      if n > 1 {
        BurstAttains(c, h + EventsOf(xs[0]), n - 1);
      }
    }
  }

  lemma BlastRadiusTight(c: Config)
    requires c.threshold >= 1 && c.window > 0 && c.cooldown > 0
    ensures var xs := Burst(c.threshold);
            && Serial(0, xs) && AllFailing(xs)
            && End(0, xs) - xs[0].asked < Min(c.window, c.cooldown)
            && Condemned(c, [], xs) == c.threshold
  {
    BurstAttains(c, [], c.threshold);
  }

  // ----- The writes of a serial run -----

  function Trues(bs: seq<bool>): nat {
    if bs == [] then 0 else (if bs[0] then 1 else 0) + Trues(bs[1..])
  }

  /** writes[i] says that completion i wrote NodeHealthy=False, which the breaker must have granted. */
  ghost predicate Granted(c: Config, h: History, xs: seq<Completion>, writes: seq<bool>) {
    && |writes| == |xs|
    && forall i :: 0 <= i < |xs| && writes[i] ==> xs[i].failing && Grants(c, AfterAll(h, xs[..i]), xs[i].asked)
  }

  lemma {:induction false} AfterAllConcat(h: History, a: seq<Completion>, b: seq<Completion>)
    ensures AfterAll(h, a + b) == AfterAll(AfterAll(h, a), b)
    decreases |a|
  {
    if a == [] {
      assert a + b == b;
    } else {
      assert (a + b)[1..] == a[1..] + b;
      AfterAllConcat(h + EventsOf(a[0]), a[1..], b);
    }
  }

  lemma {:induction false} SerialSnoc(now: Time, xs: seq<Completion>, x: Completion)
    requires Serial(now, xs) && End(now, xs) <= x.asked <= x.recorded
    ensures Serial(now, xs + [x]) && End(now, xs + [x]) == x.recorded
    decreases |xs|
  {
    if xs == [] {
      assert [x][1..] == [];
    } else {
      assert (xs + [x])[1..] == xs[1..] + [x];
      assert xs[1..] != [] ==> xs[1..][|xs[1..]| - 1] == xs[|xs| - 1];
      SerialSnoc(xs[0].recorded, xs[1..], x);
    }
  }

  lemma {:induction false} TruesSnoc(bs: seq<bool>, b: bool)
    ensures Trues(bs + [b]) == Trues(bs) + (if b then 1 else 0)
  {
    if bs == [] {
      assert [b][1..] == [];
    } else {
      assert (bs + [b])[1..] == bs[1..] + [b];
      TruesSnoc(bs[1..], b);
    }
  }

  lemma GrantedSnoc(c: Config, h: History, xs: seq<Completion>, writes: seq<bool>, x: Completion, write: bool)
    requires Granted(c, h, xs, writes)
    requires write ==> x.failing && Grants(c, AfterAll(h, xs), x.asked)
    ensures Granted(c, h, xs + [x], writes + [write])
  {
    hide Grants, AfterAll;
    assert forall i :: 0 <= i <= |xs| ==> (xs + [x])[..i] == xs[..i];
    assert xs[..|xs|] == xs;
  }

  lemma {:induction false} WritesAtMostCondemned(c: Config, h: History, xs: seq<Completion>, writes: seq<bool>)
    requires Granted(c, h, xs, writes)
    ensures Trues(writes) <= Condemned(c, h, xs)
    decreases |xs|
  {
    hide Grants, EventsOf;
    if xs != [] {
      var h1 := h + EventsOf(xs[0]);
      assert AfterAll(h, xs[..0]) == h;
      forall i | 0 <= i < |xs[1..]| && writes[1..][i]
        ensures xs[1..][i].failing && Grants(c, AfterAll(h1, xs[1..][..i]), xs[1..][i].asked)
      {
        assert writes[i + 1];
        assert xs[..i + 1][1..] == xs[1..][..i];
      }
      WritesAtMostCondemned(c, h1, xs[1..], writes[1..]);
    }
  }

  /** A stretch of failing completions shorter than both the window and the cooldown. */
  ghost predicate FailingStretch(c: Config, xs: seq<Completion>) {
    AllFailing(xs) && (xs != [] ==> xs[|xs| - 1].recorded - xs[0].asked < Min(c.window, c.cooldown))
  }

  /** Every such stretch of a serial run writes NodeHealthy=False at most threshold times. */
  lemma WritesInAnyStretch(c: Config, h: History, now: Time, xs: seq<Completion>, writes: seq<bool>, i: nat, j: nat)
    requires c.threshold >= 1 && UpTo(h, now) && Serial(now, xs) && Granted(c, h, xs, writes)
    requires i <= j <= |xs| && FailingStretch(c, xs[i..j])
    ensures Trues(writes[i..j]) <= c.threshold
  {
    hide Grants, AfterAll, Condemned, Serial;
    var before, stretch, after := xs[..i], xs[i..j], xs[j..];
    assert xs == before + stretch + after;
    forall k | 0 <= k < |stretch| && writes[i..j][k]
      ensures stretch[k].failing && Grants(c, AfterAll(AfterAll(h, before), stretch[..k]), stretch[k].asked)
    {
      assert writes[i + k] && before + stretch[..k] == xs[..i + k];
      AfterAllConcat(h, before, stretch[..k]);
    }
    WritesAtMostCondemned(c, AfterAll(h, before), stretch, writes[i..j]);
    BlastRadiusInAnyRun(c, h, now, before, stretch, after);
  }
}
