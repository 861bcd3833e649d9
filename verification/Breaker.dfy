/**
 The auto-reply circuit breaker: a sliding window that, when full, refuses the peer for a cool-down
 and forgets what it had counted.
 */
module Breaker {
  import opened Throttle

  datatype Limits = Limits(maxReplies: int, windowS: real, cooldownS: real)

  /** One peer's history: the times admitted before and since the last trip, and its deadline. */
  datatype Ledger = Ledger(before: seq<real>, since: seq<real>, until: real)

  const Fresh := Ledger([], [], 0.0)

  function Log(l: Ledger): seq<real> {
    l.before + l.since
  }

  predicate Admits(c: Limits, l: Ledger, now: real) {
    l.until <= now && InWindow(l.since, now, c.windowS) < c.maxReplies
  }

  /** The specification of one call: admit and log, refuse, or trip. */
  function After(c: Limits, l: Ledger, now: real): Ledger {
    if Admits(c, l, now) then l.(since := l.since + [now])
    else if l.until <= now then Ledger(Log(l), [], now + c.cooldownS)
    else l
  }

  // ---------- The code refines the specification ----------

  function LedgerAt(m: map<string, Ledger>, key: string): Ledger {
    if key in m then m[key] else Fresh
  }

  function Until(m: map<string, real>, key: string): real {
    if key in m then m[key] else 0.0
  }

  ghost predicate KeyOk(dq: seq<real>, until: real, l: Ledger, w: real, clock: real) {
    l.until == until && Faithful(dq, l.since, w, clock)
  }

  ghost predicate AllOk(events: map<string, seq<real>>, tripped: map<string, real>, ledgers: map<string, Ledger>,
                        w: real, clock: real) {
    forall key :: KeyOk(At(events, key), Until(tripped, key), LedgerAt(ledgers, key), w, clock)
  }

  /** Peers are independent: a call about `key` keeps all others in order. */
  lemma OneKeyChanges(events: map<string, seq<real>>, tripped: map<string, real>, ledgers: map<string, Ledger>,
                      w: real, clock: real, key: string, dq: seq<real>, tripped': map<string, real>, l: Ledger,
                      now: real)
    requires AllOk(events, tripped, ledgers, w, clock) && clock <= now
    requires tripped' == tripped || tripped' == tripped[key := Until(tripped', key)]
    requires KeyOk(dq, Until(tripped', key), l, w, now)
    ensures AllOk(events[key := dq], tripped', ledgers[key := l], w, now)
  {
  }

  class AutoReplyGuard {
    const limits: Limits
    var events: map<string, seq<real>>
    var trippedUntil: map<string, real>
    ghost var ledgers: map<string, Ledger>
    ghost var clock: real

    ghost predicate Valid()
      reads this
    {
      AllOk(events, trippedUntil, ledgers, limits.windowS, clock)
    }

    constructor (limits: Limits, ghost clock: real)
      ensures Valid() && this.limits == limits && this.clock == clock && ledgers == map[]
    {
      this.limits, this.clock := limits, clock;
      events, trippedUntil, ledgers := map[], map[], map[];
    }

    /** The decision for one peer: refuse, trip, or count and admit. */
    method Decide(dq0: seq<real>, until: real, now: real, ghost l: Ledger)
      returns (allowed: bool, trips: bool, dq: seq<real>)
      requires KeyOk(dq0, until, l, limits.windowS, clock) && now >= clock
      ensures allowed == Admits(limits, l, now) && (trips <==> !allowed && l.until <= now)
      ensures KeyOk(dq, if trips then now + limits.cooldownS else until, After(limits, l, now), limits.windowS, now)
    {
      if now < until {
        return false, false, dq0;
      }
      DrainIsFaithful(dq0, l.since, limits.windowS, clock, now);
      dq := PopOld(dq0, now - limits.windowS);
      hide Faithful, Drain, InWindow;
      if |dq| >= limits.maxReplies {
        NothingIsFaithful(limits.windowS, now);
        return false, true, [];
      }
      AppendIsFaithful(dq, l.since, limits.windowS, now);
      return true, false, dq + [now];
    }

    /** Record an intended reply; the answer and the new history are those of the specification. */
    method Allow(peer: string, now: real) returns (allowed: bool)
      requires Valid() && now >= clock
      modifies this
      ensures Valid() && clock == now
      ensures var key := NormIdentity(peer);
              && allowed == Admits(limits, LedgerAt(old(ledgers), key), now)
              && ledgers == old(ledgers)[key := After(limits, LedgerAt(old(ledgers), key), now)]
    {
      hide KeyOk, Admits, After, NormIdentity;
      var key := NormIdentity(peer);
      ghost var l := LedgerAt(ledgers, key);
      assert KeyOk(At(events, key), Until(trippedUntil, key), l, limits.windowS, clock);
      var trips, dq;
      allowed, trips, dq := Decide(At(events, key), Until(trippedUntil, key), now, l);
      var tripped := if trips then trippedUntil[key := now + limits.cooldownS] else trippedUntil;
      ghost var l' := After(limits, l, now);
      OneKeyChanges(events, trippedUntil, ledgers, limits.windowS, clock, key, dq, tripped, l', now);
      events, trippedUntil, ledgers := events[key := dq], tripped, ledgers[key := l'];
      clock := now;
    }

    method IsTripped(peer: string, now: real) returns (tripped: bool)
      requires Valid()
      ensures tripped <==> now < LedgerAt(ledgers, NormIdentity(peer)).until
    {
      var key := NormIdentity(peer);
      assert KeyOk(At(events, key), Until(trippedUntil, key), LedgerAt(ledgers, key), limits.windowS, clock);
      tripped := now < Until(trippedUntil, key);
    }
  }

  // ---------- Over whole runs ----------

  function Replay(c: Limits, l: Ledger, calls: seq<real>): Ledger
    decreases |calls|
  {
    if calls == [] then l else Replay(c, After(c, l, calls[0]), calls[1..])
  }

  function Positive(n: int): nat {
    if n < 0 then 0 else n
  }

  /** What holds of a ledger whose last call was at `clock`. */
  ghost predicate LedgerOk(c: Limits, l: Ledger, clock: real) {
    && Nondecreasing(Log(l)) && Spaced(Log(l), Positive(c.maxReplies), c.windowS)
    && (forall i :: 0 <= i < |Log(l)| ==> Log(l)[i] <= clock)
    && (forall i :: 0 <= i < |l.before| ==> l.before[i] <= l.until - c.windowS)
    && (c.maxReplies <= 0 ==> Log(l) == [])
  }

  lemma {:induction false} OldEntriesDoNotCount(before: seq<real>, since: seq<real>, lo: real, hi: real)
    requires forall i :: 0 <= i < |before| ==> before[i] <= lo
    ensures Count(before + since, lo, hi) == Count(since, lo, hi)
    decreases |since|
  {
    var all := before + since;
    if since == [] {
      CountSplit(all, |all|, lo, hi);
    } else {
      assert all[..|all| - 1] == before + since[..|since| - 1];
      OldEntriesDoNotCount(before, since[..|since| - 1], lo, hi);
    }
  }

  lemma AdmitKeepsOk(c: Limits, l: Ledger, clock: real, now: real)
    requires LedgerOk(c, l, clock) && clock <= now && c.cooldownS >= c.windowS && Admits(c, l, now)
    ensures LedgerOk(c, l.(since := l.since + [now]), now)
  {
    hide Spaced, Count;
    OldEntriesDoNotCount(l.before, l.since, now - c.windowS, now);
    hide InWindow;
    AppendKeepsSpacing(Log(l), c.maxReplies, c.windowS, now);
    assert Log(l.(since := l.since + [now])) == Log(l) + [now];
  }

  /** A trip clears the count, but the cool-down outlasts the window of everything it cleared. */
  lemma AfterKeepsOk(c: Limits, l: Ledger, clock: real, now: real)
    requires LedgerOk(c, l, clock) && clock <= now && c.cooldownS >= c.windowS
    ensures LedgerOk(c, After(c, l, now), now)
  {
    hide Spaced, InWindow;
    if Admits(c, l, now) {
      AdmitKeepsOk(c, l, clock, now);
    } else if l.until <= now {
      assert Log(After(c, l, now)) == Log(l);
    }
  }

  /** Calls at nondecreasing times from `clock` on. */
  ghost predicate InOrder(clock: real, calls: seq<real>)
    decreases |calls|
  {
    calls == [] || (clock <= calls[0] && InOrder(calls[0], calls[1..]))
  }

  lemma {:induction false} ReplayKeepsOk(c: Limits, l: Ledger, clock: real, calls: seq<real>) returns (end: real)
    requires LedgerOk(c, l, clock) && InOrder(clock, calls) && c.cooldownS >= c.windowS
    ensures LedgerOk(c, Replay(c, l, calls), end)
    decreases |calls|
  {
    if calls == [] {
      end := clock;
    } else {
      AfterKeepsOk(c, l, clock, calls[0]);
      end := ReplayKeepsOk(c, After(c, l, calls[0]), calls[0], calls[1..]);
    }
  }

  /** Over any run from any start time, every window holds at most the maximum. */
  ghost predicate Throttles(c: Limits) {
    forall clock, calls :: InOrder(clock, calls) ==>
      Bounded(Log(Replay(c, Fresh, calls)), Positive(c.maxReplies), c.windowS)
  }

  // ---------- When the promise is kept ----------

  lemma LongCooldownThrottles(c: Limits)
    requires c.cooldownS >= c.windowS
    ensures Throttles(c)
  {
    forall clock, calls | InOrder(clock, calls)
      ensures Bounded(Log(Replay(c, Fresh, calls)), Positive(c.maxReplies), c.windowS)
    {
      var end := ReplayKeepsOk(c, Fresh, clock, calls);
      SpacedIsBounded(Log(Replay(c, Fresh, calls)), Positive(c.maxReplies), c.windowS);
    }
  }

  lemma {:induction false} NothingEverAdmitted(c: Limits, l: Ledger, calls: seq<real>)
    requires c.maxReplies <= 0 && Log(l) == []
    ensures Log(Replay(c, l, calls)) == []
    decreases |calls|
  {
    if calls != [] {
      assert Log(After(c, l, calls[0])) == [];
      NothingEverAdmitted(c, After(c, l, calls[0]), calls[1..]);
    }
  }

  lemma {:induction false} EmptyWindow(log: seq<real>, lo: real, hi: real)
    requires lo >= hi
    ensures Count(log, lo, hi) == 0
  {
    if log != [] { EmptyWindow(log[..|log| - 1], lo, hi); }
  }

  /** `n` calls at time 0. */
  function Burst(n: nat): (calls: seq<real>)
    ensures |calls| == n && forall i :: 0 <= i < n ==> calls[i] == 0.0
  {
    seq(n, _ => 0.0)
  }

  lemma {:induction false} BurstInOrder(n: nat, last: real)
    requires last >= 0.0
    ensures InOrder(0.0, Burst(n) + [last])
  {
    var calls := Burst(n) + [last];
    if n > 0 {
      assert calls[1..] == Burst(n - 1) + [last];
      BurstInOrder(n - 1, last);
    }
  }

  /** From an untripped ledger with `k` admissions at time 0, a burst fills the window and trips. */
  lemma {:induction false} BurstTrips(c: Limits, k: nat, last: real)
    requires c.windowS > 0.0 && 0 < c.maxReplies && k <= c.maxReplies
    requires last >= 0.0 && last >= c.cooldownS
    ensures Log(Replay(c, Ledger([], Burst(k), 0.0), Burst(c.maxReplies - k + 1) + [last]))
              == Burst(c.maxReplies) + [last]
    decreases c.maxReplies - k
  {
    var l, n := Ledger([], Burst(k), 0.0), c.maxReplies - k;
    var calls := Burst(n + 1) + [last];
    BurstCounts(c, k);
    BurstStep(n, last);
    hide Burst, Log;
    if k < c.maxReplies {
      BurstAdmits(c, k);
      BurstTrips(c, k + 1, last);
      assert Replay(c, l, calls) == Replay(c, After(c, l, 0.0), calls[1..]);
    } else {
      BurstEnds(c, last);
      assert Burst(0) + [last] == [last];
      assert Replay(c, l, calls) == Replay(c, After(c, l, 0.0), [last]);
    }
  }

  lemma BurstStep(n: nat, last: real)
    ensures (Burst(n + 1) + [last])[0] == 0.0 && (Burst(n + 1) + [last])[1..] == Burst(n) + [last]
  {
  }

  lemma BurstCounts(c: Limits, k: nat)
    requires c.windowS > 0.0
    ensures InWindow(Burst(k), 0.0, c.windowS) == k
  {
    CountSplit(Burst(k), 0, 0.0 - c.windowS, 0.0);
  }

  lemma BurstAdmits(c: Limits, k: nat)
    requires InWindow(Burst(k), 0.0, c.windowS) == k < c.maxReplies
    ensures After(c, Ledger([], Burst(k), 0.0), 0.0) == Ledger([], Burst(k + 1), 0.0)
  {
    hide InWindow;
    assert Burst(k) + [0.0] == Burst(k + 1);
  }

  /** The full window trips, and the late reply is admitted after the cool-down. */
  lemma BurstEnds(c: Limits, last: real)
    requires 0 < c.maxReplies && InWindow(Burst(c.maxReplies), 0.0, c.windowS) == c.maxReplies
    requires last >= c.cooldownS
    ensures var full := Ledger([], Burst(c.maxReplies), 0.0);
            Log(Replay(c, After(c, full, 0.0), [last])) == Burst(c.maxReplies) + [last]
  {
    hide Burst;
    var l' := Ledger(Burst(c.maxReplies), [], c.cooldownS);
    assert After(c, Ledger([], Burst(c.maxReplies), 0.0), 0.0) == l' by { hide InWindow; }
    assert After(c, l', last) == l'.(since := [last]);
    hide After;
    assert [last][1..] == [];
    assert Replay(c, l', [last]) == After(c, l', last);
  }

  /** With a cool-down shorter than the window, one burst and one late reply overfill a window. */
  lemma ShortCooldownLeaks(c: Limits)
    requires 0 < c.maxReplies && 0.0 < c.windowS && c.cooldownS < c.windowS
    ensures !Throttles(c)
  {
    var n := c.maxReplies;
    var last := if c.cooldownS < 0.0 then 0.0 else c.cooldownS;
    var calls := Burst(n + 1) + [last];
    BurstInOrder(n + 1, last);
    assert Fresh == Ledger([], Burst(0), 0.0);
    BurstTrips(c, 0, last);
    BurstOverfills(c, last);
    hide InOrder, Replay, InWindow, Log;
    var log := Log(Replay(c, Fresh, calls));
    assert InWindow(log, last, c.windowS) == n + 1;
    assert !Bounded(log, n, c.windowS);
  }

  lemma BurstOverfills(c: Limits, last: real)
    requires 0 < c.maxReplies && 0.0 <= last < c.windowS
    ensures InWindow(Burst(c.maxReplies) + [last], last, c.windowS) == c.maxReplies + 1
  {
    CountSplit(Burst(c.maxReplies) + [last], 0, last - c.windowS, last);
  }

  /**
   The breaker keeps every window within its maximum, over all runs, if and only if it never admits
   anything, the window is empty, or the cool-down is at least as long as the window.
   */
  lemma ThrottlesIff(c: Limits)
    ensures Throttles(c) <==> c.maxReplies <= 0 || c.windowS <= 0.0 || c.cooldownS >= c.windowS
  {
    if c.cooldownS >= c.windowS {
      LongCooldownThrottles(c);
    } else if c.maxReplies <= 0 || c.windowS <= 0.0 {
      forall clock, calls | InOrder(clock, calls)
        ensures Bounded(Log(Replay(c, Fresh, calls)), Positive(c.maxReplies), c.windowS)
      {
        var log := Log(Replay(c, Fresh, calls));
        if c.maxReplies <= 0 { NothingEverAdmitted(c, Fresh, calls); }
        forall t: real ensures InWindow(log, t, c.windowS) <= Positive(c.maxReplies) {
          if c.windowS <= 0.0 { EmptyWindow(log, t - c.windowS, t); }
        }
      }
    } else {
      ShortCooldownLeaks(c);
    }
  }

  /** A tripped peer is refused until its deadline, and its first call from then on is admitted. */
  lemma {:induction false} TripHolds(c: Limits, l: Ledger, calls: seq<real>, next: real)
    requires l.since == [] && forall i :: 0 <= i < |calls| ==> calls[i] < l.until
    requires c.maxReplies > 0 && next >= l.until
    ensures Replay(c, l, calls) == l && Admits(c, Replay(c, l, calls), next)
    decreases |calls|
  {
    if calls != [] {
      TripHolds(c, l, calls[1..], next);
    }
  }
}
