/**
 Sliding windows: the auto-reply circuit breaker and the inbound rate limiter.

 Both keep, per normalized peer, a deque of recent times that is drained lazily.  Here each is proved
 against the full log of admitted times, and the promise about every window is proved of the log.
 */
module Throttle {
  import opened Text

  // ---------- Peers ----------

  /** `capauth:Lumina@skworld.io` and `lumina` name the same peer. */
  function NormIdentity(value: string): string {
    BeforeFirst(AfterFirst(Lower(Strip(value)), ':'), '@')
  }

  /** Trimmed and in lower case, what stands after the first colon, if any, and before the next at sign, if any. */
  lemma BareName(value: string, scheme: string, name: string, host: string)
    requires ':' !in scheme && '@' !in name
    ensures var t := Lower(Strip(value));
            && (t == scheme + ":" + (name + "@" + host) || t == scheme + ":" + name ==>
                  NormIdentity(value) == name)
            && (':' !in t && (t == name + "@" + host || t == name) ==> NormIdentity(value) == name)
  {
    AfterFirstIs(scheme, ':', name + "@" + host);
    AfterFirstIs(scheme, ':', name);
    AfterFirstIs(name, '@', host);
    if ':' !in name + "@" + host { AfterFirstIs(name + "@" + host, ':', ""); }
    if ':' !in name { AfterFirstIs(name, ':', ""); }
  }

  // ---------- Times and windows ----------

  ghost predicate Nondecreasing(s: seq<real>) {
    forall i, j :: 0 <= i <= j < |s| ==> s[i] <= s[j]
  }

  /** How many entries of `log` lie in the interval (lo, hi]. */
  function Count(log: seq<real>, lo: real, hi: real): nat {
    if log == [] then 0
    else Count(log[..|log| - 1], lo, hi) + if lo < log[|log| - 1] <= hi then 1 else 0
  }

  function InWindow(log: seq<real>, t: real, w: real): nat {
    Count(log, t - w, t)
  }

  /** No window (t - w, t] holds more than `n` entries. */
  ghost predicate Bounded(log: seq<real>, n: int, w: real) {
    forall t: real :: InWindow(log, t, w) <= n
  }

  /** Entries `n` apart in the log are at least `w` apart in time. */
  ghost predicate Spaced(log: seq<real>, n: int, w: real) {
    forall i, j :: 0 <= i < |log| && 0 <= j < |log| && j - i == n ==> log[j] - log[i] >= w
  }

  lemma {:induction false} CountIsRange(log: seq<real>, lo: real, hi: real) returns (i: nat, j: nat)
    requires Nondecreasing(log)
    ensures i <= j <= |log| && Count(log, lo, hi) == j - i
    ensures forall k :: i <= k < j ==> lo < log[k] <= hi
    ensures forall k :: 0 <= k < i ==> log[k] <= lo || log[k] > hi
    ensures forall k :: j <= k < |log| ==> log[k] > hi || (log[k] <= lo && i == j)
  {
    if log == [] {
      i, j := 0, 0;
    } else {
      var front, last := log[..|log| - 1], log[|log| - 1];
      i, j := CountIsRange(front, lo, hi);
      if lo < last <= hi {
        if i == j { i, j := |log| - 1, |log|; } else { j := |log|; }
      } else if i == j {
        i, j := |log|, |log|;
      }
    }
  }

  lemma SpacedIsBounded(log: seq<real>, n: nat, w: real)
    requires Nondecreasing(log) && Spaced(log, n, w)
    ensures Bounded(log, n, w)
  {
    forall t: real ensures InWindow(log, t, w) <= n {
      var i, j := CountIsRange(log, t - w, t);
      assert i + n < |log| ==> log[i + n] - log[i] >= w;
    }
  }

  /** With fewer than `n` entries in the window ending now, the entry `n` places back is old. */
  lemma NthBackIsOld(log: seq<real>, n: nat, w: real, now: real)
    requires Nondecreasing(log) && n <= |log| && n > 0
    requires forall i :: 0 <= i < |log| ==> log[i] <= now
    requires InWindow(log, now, w) < n
    ensures log[|log| - n] <= now - w
  {
    var i, j := CountIsRange(log, now - w, now);
    assert log[|log| - n] > now - w ==> i <= |log| - n || i == j;
  }

  /** `r` is the last |r| entries of `s`. */
  ghost predicate IsSuffix(r: seq<real>, s: seq<real>) {
    |r| <= |s| && forall i :: |s| - |r| <= i < |s| ==> s[i] == r[i - (|s| - |r|)]
  }

  lemma SuffixAt(r: seq<real>, s: seq<real>, i: nat)
    requires IsSuffix(r, s) && |s| - |r| <= i < |s|
    ensures s[i] == r[i - (|s| - |r|)]
  {
  }

  lemma SuffixOfSuffix(r: seq<real>, s: seq<real>, t: seq<real>)
    requires IsSuffix(r, s) && IsSuffix(s, t)
    ensures IsSuffix(r, t)
  {
  }

  /** The times still in the deque once everything at or before `cutoff` has been popped. */
  function Drain(dq: seq<real>, cutoff: real): (r: seq<real>)
    ensures IsSuffix(r, dq)
    ensures forall i :: 0 <= i < |dq| - |r| ==> dq[i] <= cutoff
    ensures r != [] ==> r[0] > cutoff
  {
    if dq != [] && dq[0] <= cutoff then Drain(dq[1..], cutoff) else dq
  }

  lemma {:induction false} CountSplit(log: seq<real>, m: nat, lo: real, hi: real)
    requires m <= |log|
    requires forall i :: 0 <= i < m ==> log[i] <= lo
    requires forall i :: m <= i < |log| ==> lo < log[i] <= hi
    ensures Count(log, lo, hi) == |log| - m
  {
    if log != [] {
      var front := log[..|log| - 1];
      if m == |log| { CountSplit(front, m - 1, lo, hi); } else { CountSplit(front, m, lo, hi); }
    }
  }

  /** The deque is the recent part of the log: what it lacks has left every later window. */
  ghost predicate Faithful(dq: seq<real>, log: seq<real>, w: real, clock: real) {
    && Nondecreasing(log)
    && (forall i :: 0 <= i < |log| ==> log[i] <= clock)
    && IsSuffix(dq, log)
    && (forall i :: 0 <= i < |log| - |dq| ==> log[i] <= clock - w)
  }

  lemma DrainIsFaithful(dq: seq<real>, log: seq<real>, w: real, clock: real, now: real)
    requires Faithful(dq, log, w, clock) && clock <= now
    ensures Faithful(Drain(dq, now - w), log, w, now)
    ensures |Drain(dq, now - w)| == InWindow(log, now, w)
  {
    var r := Drain(dq, now - w);
    SuffixOfSuffix(r, dq, log);
    var m := |log| - |r|;
    forall i | 0 <= i < m ensures log[i] <= now - w {
      if i >= |log| - |dq| { SuffixAt(dq, log, i); }
    }
    forall i | m <= i < |log| ensures now - w < log[i] <= now {
      if i > m { assert log[m] <= log[i]; }
    }
    CountSplit(log, m, now - w, now);
  }

  lemma AppendIsFaithful(dq: seq<real>, log: seq<real>, w: real, now: real)
    requires Faithful(dq, log, w, now)
    ensures Faithful(dq + [now], log + [now], w, now)
  {
  }

  lemma NothingIsFaithful(w: real, now: real)
    ensures Faithful([], [], w, now)
  {
  }

  function At(m: map<string, seq<real>>, key: string): seq<real> {
    if key in m then m[key] else []
  }

  ghost predicate AllFaithful(events: map<string, seq<real>>, log: map<string, seq<real>>, w: real, clock: real) {
    forall key :: Faithful(At(events, key), At(log, key), w, clock)
  }

  lemma DrainKeepsAll(events: map<string, seq<real>>, log: map<string, seq<real>>, w: real, clock: real,
                      key: string, now: real)
    requires AllFaithful(events, log, w, clock) && clock <= now
    ensures AllFaithful(events[key := Drain(At(events, key), now - w)], log, w, now)
    ensures |Drain(At(events, key), now - w)| == InWindow(At(log, key), now, w)
  {
    assert Faithful(At(events, key), At(log, key), w, clock);
    DrainIsFaithful(At(events, key), At(log, key), w, clock, now);
    var events' := events[key := Drain(At(events, key), now - w)];
    forall k ensures Faithful(At(events', k), At(log, k), w, now) {
      assert Faithful(At(events, k), At(log, k), w, clock);
      assert k != key ==> At(events', k) == At(events, k);
    }
  }

  lemma AppendKeepsAll(events: map<string, seq<real>>, log: map<string, seq<real>>, w: real, key: string, now: real)
    requires AllFaithful(events, log, w, now)
    ensures AllFaithful(events[key := At(events, key) + [now]], log[key := At(log, key) + [now]], w, now)
  {
    var events', log' := events[key := At(events, key) + [now]], log[key := At(log, key) + [now]];
    forall k ensures Faithful(At(events', k), At(log', k), w, now) {
      assert Faithful(At(events, k), At(log, k), w, now);
      if k == key { AppendIsFaithful(At(events, k), At(log, k), w, now); }
    }
  }

  /** Admitting with fewer than `n` in the window keeps the spacing. */
  lemma AppendKeepsSpacing(log: seq<real>, n: int, w: real, now: real)
    requires Nondecreasing(log) && (forall i :: 0 <= i < |log| ==> log[i] <= now)
    requires n > 0 && Spaced(log, n, w) && InWindow(log, now, w) < n
    ensures Spaced(log + [now], n, w)
  {
    if |log| >= n { NthBackIsOld(log, n, w, now); }
  }

  ghost predicate AllSpaced(log: map<string, seq<real>>, n: int, w: real) {
    n > 0 ==> forall key :: Spaced(At(log, key), n, w)
  }

  lemma AppendKeepsAllSpaced(events: map<string, seq<real>>, log: map<string, seq<real>>, n: int, w: real, key: string,
                             now: real)
    requires AllSpaced(log, n, w) && n > 0 && InWindow(At(log, key), now, w) < n
    requires AllFaithful(events, log, w, now)
    ensures AllSpaced(log[key := At(log, key) + [now]], n, w)
  {
    assert Faithful(At(events, key), At(log, key), w, now);
    hide Spaced, InWindow;
    AppendKeepsSpacing(At(log, key), n, w, now);
    var log' := log[key := At(log, key) + [now]];
    assert forall k :: k != key ==> At(log', k) == At(log, k);
  }

  /** Pop entries at or before `cutoff` off the front of the deque. */
  method PopOld(dq: seq<real>, cutoff: real) returns (r: seq<real>)
    ensures r == Drain(dq, cutoff)
  {
    r := dq;
    while r != [] && r[0] <= cutoff
      invariant Drain(r, cutoff) == Drain(dq, cutoff)
    {
      r := r[1..];
    }
  }

  // ---------- The rate limiter ----------

  class RateLimiter {
    const maxMessages: int
    const windowS: real
    var events: map<string, seq<real>>
    ghost var log: map<string, seq<real>>  // every admitted time, per sender
    ghost var clock: real                  // the latest time seen

    ghost predicate Valid()
      reads this
    {
      && AllFaithful(events, log, windowS, clock)
      && AllSpaced(log, maxMessages, windowS)
    }

    constructor (maxMessages: int, windowS: real, ghost clock: real)
      ensures Valid() && this.maxMessages == maxMessages && this.windowS == windowS
      ensures this.clock == clock && log == map[]
    {
      this.maxMessages, this.windowS := maxMessages, windowS;
      events, log, this.clock := map[], map[], clock;
    }

    /** Pop what left the window ending `now`. */
    method DrainKey(key: string, now: real)
      requires Valid() && now >= clock
      modifies this`events, this`clock
      ensures Valid() && clock == now
      ensures |At(events, key)| == InWindow(At(log, key), now, windowS)
    {
      hide AllFaithful, AllSpaced, Drain, InWindow;
      var dq := PopOld(At(events, key), now - windowS);
      DrainKeepsAll(events, log, windowS, clock, key, now);
      events := events[key := dq];
      clock := now;
    }

    /**
     Admit exactly when fewer than the maximum were admitted in the window ending now; `Valid` keeps
     the whole history within the limit (NoWindowOverfull).
     */
    method Allow(sender: string, now: real) returns (allowed: bool)
      requires Valid() && now >= clock
      modifies this
      ensures Valid()
      ensures maxMessages <= 0 ==> allowed && log == old(log)
      ensures maxMessages > 0 ==>
                var key := NormIdentity(sender);
                && clock == now
                && (allowed <==> InWindow(At(old(log), key), now, windowS) < maxMessages)
                && log == if allowed then old(log)[key := At(old(log), key) + [now]] else old(log)
    {
      hide NormIdentity, InWindow, AllFaithful, AllSpaced, At;
      if maxMessages <= 0 {
        return true;
      }
      var key := NormIdentity(sender);
      DrainKey(key, now);
      var dq := At(events, key);
      if |dq| >= maxMessages {
        return false;
      }
      AppendKeepsAll(events, log, windowS, key, now);
      AppendKeepsAllSpaced(events, log, maxMessages, windowS, key, now);
      events := events[key := dq + [now]];
      log := log[key := At(log, key) + [now]];
      return true;
    }

    /** The number of admitted messages in the window ending now. */
    method CurrentCount(sender: string, now: real) returns (n: nat)
      requires Valid() && now >= clock
      modifies this`events, this`clock
      ensures Valid() && n == InWindow(At(log, NormIdentity(sender)), now, windowS)
    {
      var key := NormIdentity(sender);
      DrainKey(key, now);
      n := |At(events, key)|;
    }

    /** Over any history of calls, no window of any sender held more than the maximum. */
    lemma NoWindowOverfull(key: string)
      requires Valid() && maxMessages > 0
      ensures Bounded(At(log, key), maxMessages, windowS)
    {
      assert Faithful(At(events, key), At(log, key), windowS, clock);
      SpacedIsBounded(At(log, key), maxMessages, windowS);
    }
  }
}
