/**
 The per-change deploy lease: processes read the clock first and take the file lock later, so the
 time a process claims with may be stale by any amount.
 */
module DeployLease {

  /** deploy-lease.json; anything empty or unreadable counts as no lease. */
  datatype LeaseFile = Unreadable | Lease(claimedAt: int, expires: int)

  /** The locked region's test. */
  predicate Free(f: LeaseFile, now: int) {
    f.Unreadable? || f.expires <= now
  }

  /** Claims at least `lease` apart, in the order they were made. */
  ghost predicate Spaced(claims: seq<int>, lease: int) {
    forall i, j :: 0 <= i < |claims| && j == i + 1 && j < |claims| ==> claims[j] - claims[i] >= lease
  }

  class ChangeLease {
    const leaseSeconds: int
    var file: LeaseFile
    var clocks: map<nat, int>       // per process, the time it read before asking for the lock
    ghost var claims: seq<int>      // claimed_at of every claim since the file was last damaged

    ghost predicate Valid()
      reads this
    {
      && Spaced(claims, leaseSeconds)
      && (file.Unreadable? ==> claims == [])
      && (file.Lease? ==> claims != [] && file == Lease(claims[|claims| - 1], claims[|claims| - 1] + leaseSeconds))
    }

    constructor (leaseSeconds: int)
      ensures Valid() && this.leaseSeconds == leaseSeconds && claims == []
    {
      this.leaseSeconds, file, clocks, claims := leaseSeconds, Unreadable, map[], [];
    }

    /** A process reads some clock; nothing relates it to what others read. */
    method ReadClock(process: nat, now: int)
      requires Valid()
      modifies this`clocks
      ensures Valid() && clocks == old(clocks)[process := now]
    {
      clocks := clocks[process := now];
    }

    /** The region under the exclusive lock: refuse while the lease is active, else take it. */
    method Claim(process: nat) returns (claimed: bool)
      requires Valid() && process in clocks
      modifies this`file, this`claims
      ensures Valid() && claimed == Free(old(file), clocks[process])
      ensures claims == if claimed then old(claims) + [clocks[process]] else old(claims)
      ensures !claimed ==> file == old(file)
    {
      var now := clocks[process];
      if file.Lease? && file.expires > now {
        return false;
      }
      file := Lease(now, now + leaseSeconds);
      claims := claims + [now];
      return true;
    }

    /** A crash between truncating and writing, or any other damage to the file. */
    method Damage()
      requires Valid()
      modifies this`file, this`claims
      ensures Valid() && claims == []
    {
      file, claims := Unreadable, [];
    }

    /** Over any interleaving, claims stamped inside a window are few. */
    lemma ClaimsInWindow(start: int, end: int)
      requires Valid() && leaseSeconds > 0 && start <= end
      ensures Stamped(claims, start, end) <= (end - start) / leaseSeconds + 1
    {
      FewInWindow(claims, leaseSeconds, start, end);
    }
  }

  /** How many claims are stamped in [start, end]. */
  function Stamped(claims: seq<int>, start: int, end: int): nat {
    if claims == [] then 0
    else Stamped(claims[..|claims| - 1], start, end) + if start <= claims[|claims| - 1] <= end then 1 else 0
  }

  lemma SpacedFront(claims: seq<int>, lease: int)
    requires Spaced(claims, lease) && claims != []
    ensures Spaced(claims[..|claims| - 1], lease)
  {
  }

  lemma {:induction false} Rising(claims: seq<int>, lease: int, i: nat)
    requires Spaced(claims, lease) && lease > 0 && i < |claims|
    ensures claims[i] <= claims[|claims| - 1]
    decreases |claims| - i
  {
    if i + 1 < |claims| {
      assert claims[i + 1] - claims[i] >= lease;
      Rising(claims, lease, i + 1);
    }
  }

  /** The most claims a window has room for. */
  function Room(start: int, end: int, lease: int): (r: nat)
    requires lease > 0
    ensures start > end ==> r == 0
  {
    if start <= end then (end - start) / lease + 1 else 0
  }

  /** Claims after `end` do not count, and the last one in the window leaves less room for the others. */
  lemma {:induction false} FewInWindow(claims: seq<int>, lease: int, start: int, end: int)
    requires Spaced(claims, lease) && lease > 0
    ensures Stamped(claims, start, end) <= Room(start, end, lease)
  {
    if claims != [] {
      var front, last := claims[..|claims| - 1], claims[|claims| - 1];
      SpacedFront(claims, lease);
      assert front + [last] == claims;
      hide Spaced, Room;
      if start <= last <= end {
        FewInWindow(front, lease, start, last - lease);
        NoneLate(front, lease, start, last - lease, end, last);
        RoomFor(start, last, end, lease);
      } else {
        FewInWindow(front, lease, start, end);
      }
    }
  }

  /** Before a claim at `last`, none is stamped later than `last - lease`. */
  lemma {:induction false} NoneLate(front: seq<int>, lease: int, start: int, cut: int, end: int, last: int)
    requires Spaced(front + [last], lease) && lease > 0 && cut == last - lease && last <= end
    ensures Stamped(front, start, end) == Stamped(front, start, cut)
    decreases |front|
  {
    if front != [] {
      var all := front + [last];
      assert all[|front|] - all[|front| - 1] >= lease;
      SpacedFront(all, lease);
      assert all[..|all| - 1] == front;
      EarlierAll(front, lease, cut);
      StampedUpTo(front, start, cut, end);
    }
  }

  lemma EarlierAll(front: seq<int>, lease: int, cut: int)
    requires front != [] && Spaced(front, lease) && lease > 0 && front[|front| - 1] <= cut
    ensures forall i :: 0 <= i < |front| ==> front[i] <= cut
  {
    forall i | 0 <= i < |front| ensures front[i] <= cut { Rising(front, lease, i); }
  }

  lemma {:induction false} StampedUpTo(front: seq<int>, start: int, cut: int, end: int)
    requires cut <= end && forall i :: 0 <= i < |front| ==> front[i] <= cut
    ensures Stamped(front, start, end) == Stamped(front, start, cut)
  {
    if front != [] { StampedUpTo(front[..|front| - 1], start, cut, end); }
  }

  lemma QuotientGrows(a: int, b: int, d: int)
    requires d > 0 && a + d <= b
    ensures a / d + 1 <= b / d
  {
    var x, y := a / d, b / d;
    assert d * x + a % d == a && d * y + b % d == b;
    assert d * (x + 1) == d * x + d && d * (y + 1) == d * y + d;
    CancelFactor(d, x + 1, y + 1);
  }

  lemma CancelFactor(d: int, p: int, q: int)
    requires d > 0 && d * p < d * q
    ensures p < q
  {
    assert d * (q - p) == d * q - d * p;
  }

  lemma RoomFor(start: int, last: int, end: int, lease: int)
    requires lease > 0 && start <= last <= end
    ensures Room(start, last - lease, lease) + 1 <= Room(start, end, lease)
  {
    if start <= last - lease { QuotientGrows(last - lease - start, end - start, lease); }
  }
}
