/** Breadth-first search for the statuses that lead from one to another (`_bridge_path`). */
module Bridge {

  /** Allowed next statuses, in the order the search visits them (sorted by name). */
  type Transitions<T> = map<T, seq<T>>

  function Next<T>(ts: Transitions<T>, s: T): seq<T> {
    if s in ts then ts[s] else []
  }

  /** The status before the i-th of a chain that starts from `cur`. */
  function Before<T>(cur: T, path: seq<T>, i: nat): T
    requires i <= |path|
  {
    if i == 0 then cur else path[i - 1]
  }

  /** `path` steps through allowed transitions, starting from `cur` (which is not in it). */
  ghost predicate Chain<T>(ts: Transitions<T>, cur: T, path: seq<T>) {
    forall i {:trigger Before(cur, path, i)} :: 0 <= i < |path| ==> path[i] in Next(ts, Before(cur, path, i))
  }

  /** `path` is a nonempty chain from `cur` to `target`. */
  ghost predicate Leads<T>(ts: Transitions<T>, cur: T, target: T, path: seq<T>) {
    path != [] && path[|path| - 1] == target && Chain(ts, cur, path)
  }

  ghost predicate Reachable<T(!new)>(ts: Transitions<T>, cur: T, target: T) {
    exists path :: Leads(ts, cur, target, path)
  }

  function Last<T>(path: seq<T>): T
    requires path != []
  {
    path[|path| - 1]
  }

  // ---------- Search state ----------

  /** Every status seen so far, with the length of the path it was found by. */
  type Found<T> = map<T, nat>

  /** A queued path starts at `cur`, follows transitions, and has the length recorded for its end. */
  ghost predicate PathOk<T>(ts: Transitions<T>, cur: T, dist: Found<T>, p: seq<T>) {
    && p != [] && p[0] == cur && Chain(ts, cur, p[1..])
    && Last(p) in dist && dist[Last(p)] == |p| - 1
  }

  /** All transitions out of `s` lead to statuses seen, at most one step further away. */
  ghost predicate Expanded<T>(ts: Transitions<T>, dist: Found<T>, s: T) {
    s in dist && forall n :: n in Next(ts, s) ==> n in dist && dist[n] <= dist[s] + 1
  }

  ghost predicate Waiting<T>(queue: seq<seq<T>>, s: T) {
    exists i :: 0 <= i < |queue| && queue[i] != [] && Last(queue[i]) == s
  }

  /** Queue lengths rise along the queue, by no more than one in all, and none is below `low`. */
  ghost predicate Layered<T>(queue: seq<seq<T>>, low: nat) {
    && (forall i :: 0 <= i < |queue| ==> low <= |queue[i]| <= low + 1)
    && (forall i, j :: 0 <= i <= j < |queue| ==> |queue[i]| <= |queue[j]|)
  }

  /**
   The search invariant: `cur` was seen at distance 0, the target was not seen, nothing is further away
   than `low`, queued paths are good, and every status seen is waiting, expanded, or the one at hand.
   */
  ghost predicate Searching<T(!new)>(ts: Transitions<T>, cur: T, target: T, dist: Found<T>, queue: seq<seq<T>>,
                               low: nat, atHand: set<T>) {
    && cur in dist && dist[cur] == 0 && target !in dist
    && (forall s :: s in dist ==> dist[s] <= low)
    && (forall i :: 0 <= i < |queue| ==> PathOk(ts, cur, dist, queue[i]))
    && Layered(queue, low)
    && (forall s :: s in dist ==> Waiting(queue, s) || Expanded(ts, dist, s) || s in atHand)
  }

  /** Along a chain, the k-th status has been seen within k steps, as long as those before it were expanded. */
  lemma {:induction false} WithinDistance<T(!new)>(ts: Transitions<T>, cur: T, dist: Found<T>, path: seq<T>, k: nat,
                                                      limit: nat)
    requires Chain(ts, cur, path) && 0 < k <= |path| && cur in dist && dist[cur] == 0
    requires forall s :: s in dist && dist[s] < limit ==> Expanded(ts, dist, s)
    requires k <= limit
    ensures path[k - 1] in dist && dist[path[k - 1]] <= k
  {
    if k == 1 {
      assert Expanded(ts, dist, cur);
      assert path[0] in Next(ts, Before(cur, path, 0));
    } else {
      WithinDistance(ts, cur, dist, path, k - 1, limit);
      assert Expanded(ts, dist, path[k - 2]);
      assert path[k - 1] in Next(ts, Before(cur, path, k - 1));
    }
  }

  /** With everything closer than `limit` expanded, a chain to an unseen status is longer than `limit`. */
  lemma UnseenIsFar<T(!new)>(ts: Transitions<T>, cur: T, target: T, dist: Found<T>, limit: nat, path: seq<T>)
    requires cur in dist && dist[cur] == 0 && target !in dist
    requires forall s :: s in dist && dist[s] < limit ==> Expanded(ts, dist, s)
    requires Leads(ts, cur, target, path)
    ensures |path| > limit
  {
    if |path| <= limit {
      WithinDistance(ts, cur, dist, path, |path|, limit);
    }
  }

  // ---------- One expansion ----------

  /** The statuses a search can ever see. */
  ghost function Universe<T>(ts: Transitions<T>, cur: T): set<T> {
    {cur} + set k, i | k in ts && 0 <= i < |ts[k]| :: ts[k][i]
  }

  ghost predicate AllIn<T>(dist: Found<T>, u: set<T>) {
    forall s :: s in dist ==> s in u
  }

  /** A queued path extended by one transition. */
  lemma ExtendPath<T(!new)>(ts: Transitions<T>, cur: T, dist: Found<T>, p: seq<T>, n: T)
    requires PathOk(ts, cur, dist, p) && n in Next(ts, Last(p)) && n !in dist
    ensures PathOk(ts, cur, dist[n := |p|], p + [n])
    ensures Leads(ts, cur, n, (p + [n])[1..])
  {
    var q := p + [n];
    var steps, sofar := q[1..], p[1..];
    assert steps == sofar + [n];
    forall i | 0 <= i < |steps| ensures steps[i] in Next(ts, Before(cur, steps, i)) {
      if i < |sofar| {
        assert sofar[i] in Next(ts, Before(cur, sofar, i));
        assert Before(cur, steps, i) == Before(cur, sofar, i);
      } else {
        assert Before(cur, steps, i) == Last(p);
      }
    }
  }

  lemma SeeNewPaths<T(!new)>(ts: Transitions<T>, cur: T, dist: Found<T>, queue: seq<seq<T>>, p: seq<T>, n: T)
    requires PathOk(ts, cur, dist, p) && n in Next(ts, Last(p)) && n !in dist
    requires forall i :: 0 <= i < |queue| ==> PathOk(ts, cur, dist, queue[i])
    ensures var queue' := queue + [p + [n]];
            forall i :: 0 <= i < |queue'| ==> PathOk(ts, cur, dist[n := |p|], queue'[i])
  {
    ExtendPath(ts, cur, dist, p, n);
    forall i | 0 <= i < |queue| ensures PathOk(ts, cur, dist[n := |p|], queue[i]) {
      assert PathOk(ts, cur, dist, queue[i]);
    }
  }

  lemma SeeNewStatuses<T(!new)>(ts: Transitions<T>, dist: Found<T>, queue: seq<seq<T>>, p: seq<T>, n: T, atHand: set<T>)
    requires p != [] && n !in dist && forall s :: s in dist ==>
               Waiting(queue, s) || Expanded(ts, dist, s) || s in atHand
    ensures var dist', queue' := dist[n := |p|], queue + [p + [n]];
            forall s :: s in dist' ==> Waiting(queue', s) || Expanded(ts, dist', s) || s in atHand
  {
    var dist', queue' := dist[n := |p|], queue + [p + [n]];
    forall s | s in dist' ensures Waiting(queue', s) || Expanded(ts, dist', s) || s in atHand {
      if s == n {
        assert Last(queue'[|queue|]) == n;
      } else if Waiting(queue, s) {
        var i :| 0 <= i < |queue| && queue[i] != [] && Last(queue[i]) == s;
        assert queue'[i] == queue[i];
      } else if Expanded(ts, dist, s) {
        assert Expanded(ts, dist', s);
      }
    }
  }

  lemma LayeredSnoc<T>(queue: seq<seq<T>>, low: nat, q: seq<T>)
    requires Layered(queue, low) && |q| == low + 1
    ensures Layered(queue + [q], low)
  {
  }

  /** Seeing a new status one step beyond the front keeps the invariant. */
  lemma SeeNew<T(!new)>(ts: Transitions<T>, cur: T, target: T, dist: Found<T>, queue: seq<seq<T>>, p: seq<T>, n: T)
    requires PathOk(ts, cur, dist, p) && Searching(ts, cur, target, dist, queue, |p|, {Last(p)})
    requires n in Next(ts, Last(p)) && n !in dist && n != target
    ensures Searching(ts, cur, target, dist[n := |p|], queue + [p + [n]], |p|, {Last(p)})
    ensures PathOk(ts, cur, dist[n := |p|], p)
  {
    SeeNewPaths(ts, cur, dist, queue, p, n);
    SeeNewStatuses(ts, dist, queue, p, n, {Last(p)});
    LayeredSnoc(queue, |p|, p + [n]);
  }

  /** Taking the front off the queue puts its end at hand. */
  lemma TakeFront<T(!new)>(ts: Transitions<T>, cur: T, target: T, dist: Found<T>, queue: seq<seq<T>>, low: nat)
    requires queue != [] && low <= |queue[0]| && Searching(ts, cur, target, dist, queue, low, {})
    ensures PathOk(ts, cur, dist, queue[0])
    ensures Searching(ts, cur, target, dist, queue[1..], |queue[0]|, {Last(queue[0])})
  {
  }

  /** Every status closer than the front of the queue has been expanded. */
  lemma CloserExpanded<T(!new)>(ts: Transitions<T>, cur: T, target: T, dist: Found<T>, queue: seq<seq<T>>, p: seq<T>,
                                   s: T)
    requires PathOk(ts, cur, dist, p) && Searching(ts, cur, target, dist, queue, |p|, {Last(p)})
    requires s in dist && dist[s] < |p| - 1
    ensures Expanded(ts, dist, s)
  {
  }

  /** A path one step beyond the front is a shortest one when it reaches the target first. */
  lemma FirstIsShortest<T(!new)>(ts: Transitions<T>, cur: T, target: T, dist: Found<T>, queue: seq<seq<T>>, p: seq<T>,
                                    q: seq<T>)
    requires PathOk(ts, cur, dist, p) && Searching(ts, cur, target, dist, queue, |p|, {Last(p)})
    requires Leads(ts, cur, target, q)
    ensures |p| <= |q|
  {
    forall s | s in dist && dist[s] < |p| - 1 ensures Expanded(ts, dist, s) {
      CloserExpanded(ts, cur, target, dist, queue, p, s);
    }
    UnseenIsFar(ts, cur, target, dist, |p| - 1, q);
  }

  lemma NextInUniverse<T>(ts: Transitions<T>, cur: T, dist: Found<T>, s: T, n: T, d: nat)
    requires AllIn(dist, Universe(ts, cur)) && n in Next(ts, s)
    ensures AllIn(dist[n := d], Universe(ts, cur))
  {
  }

  /** Once all next statuses are seen, the one at hand is expanded. */
  lemma DoneExpanding<T(!new)>(ts: Transitions<T>, cur: T, target: T, dist: Found<T>, queue: seq<seq<T>>, p: seq<T>)
    requires PathOk(ts, cur, dist, p) && Searching(ts, cur, target, dist, queue, |p|, {Last(p)})
    requires forall n :: n in Next(ts, Last(p)) ==> n in dist && dist[n] <= |p|
    ensures Searching(ts, cur, target, dist, queue, |p|, {})
  {
    hide Layered, Waiting, Chain;
    assert Expanded(ts, dist, Last(p));
  }

  /** A new status that is the target ends the search with a shortest chain. */
  lemma Arrives<T(!new)>(ts: Transitions<T>, cur: T, target: T, dist: Found<T>, queue: seq<seq<T>>, p: seq<T>)
    requires PathOk(ts, cur, dist, p) && Searching(ts, cur, target, dist, queue, |p|, {Last(p)})
    requires target in Next(ts, Last(p)) && target !in dist
    ensures var path := (p + [target])[1..];
            && path != [] && Leads(ts, cur, target, path)
            && forall q :: Leads(ts, cur, target, q) ==> |path| <= |q|
  {
    ExtendPath(ts, cur, dist, p, target);
    hide Searching, Leads;
    forall q | Leads(ts, cur, target, q) ensures |p| <= |q| {
      FirstIsShortest(ts, cur, target, dist, queue, p, q);
    }
  }

  /** Every status in the queue's invariant is at most `low` away. */
  lemma SeenIsNear<T(!new)>(ts: Transitions<T>, cur: T, target: T, dist: Found<T>, queue: seq<seq<T>>, low: nat,
                            atHand: set<T>)
    requires Searching(ts, cur, target, dist, queue, low, atHand)
    ensures forall s :: s in dist ==> dist[s] <= low
  {
  }

  // ---------- The search ----------

  /** Visit the successors of the last status of `p`, the path taken from the front of the queue. */
  method ExpandFront<T(==,!new)>(ts: Transitions<T>, cur: T, target: T, p: seq<T>, queue0: seq<seq<T>>,
                                 seen0: set<T>, ghost dist0: Found<T>)
    returns (path: seq<T>, queue: seq<seq<T>>, seen: set<T>, ghost dist: Found<T>)
    requires PathOk(ts, cur, dist0, p) && Searching(ts, cur, target, dist0, queue0, |p|, {Last(p)})
    requires seen0 == dist0.Keys && AllIn(dist0, Universe(ts, cur))
    ensures path != [] ==> Leads(ts, cur, target, path) && forall q :: Leads(ts, cur, target, q) ==> |path| <= |q|
    ensures path == [] ==>
              && Searching(ts, cur, target, dist, queue, |p|, {})
              && seen == dist.Keys && AllIn(dist, Universe(ts, cur))
              && dist0.Keys <= dist.Keys && (queue == queue0 || dist0.Keys < dist.Keys)
  {
    hide Searching, Leads, AllIn, Universe, Next, Chain;
    var nexts := Next(ts, Last(p));
    queue, seen, dist, path := queue0, seen0, dist0, [];
    var j := 0;
    while j < |nexts|
      invariant 0 <= j <= |nexts| && path == []
      invariant PathOk(ts, cur, dist, p) && Searching(ts, cur, target, dist, queue, |p|, {Last(p)})
      invariant forall k :: 0 <= k < j ==> nexts[k] in dist && dist[nexts[k]] <= |p|
      invariant seen == dist.Keys && AllIn(dist, Universe(ts, cur))
      invariant dist0.Keys <= dist.Keys && (queue == queue0 || dist0.Keys < dist.Keys)
    {
      var n := nexts[j];
      SeenIsNear(ts, cur, target, dist, queue, |p|, {Last(p)});
      if n !in seen {
        if n == target {
          Arrives(ts, cur, target, dist, queue, p);
          path := (p + [n])[1..];
          return;
        }
        SeeNew(ts, cur, target, dist, queue, p, n);
        NextInUniverse(ts, cur, dist, Last(p), n, |p|);
        queue, seen, dist := queue + [p + [n]], seen + {n}, dist[n := |p|];
      }
      j := j + 1;
    }
    DoneExpanding(ts, cur, target, dist, queue, p);
  }

  /**
   The statuses to step through from `cur` to `target`, excluding `cur`: a shortest chain, and the empty
   list exactly when there is nothing to do or no way.
   */
  method BridgePath<T(==,!new)>(ts: Transitions<T>, cur: T, target: T) returns (path: seq<T>)
    ensures path == [] <==> cur == target || !Reachable(ts, cur, target)
    ensures path != [] ==> Leads(ts, cur, target, path)
    ensures path != [] ==> forall q :: Leads(ts, cur, target, q) ==> |path| <= |q|
  {
    if cur == target {
      return [];
    }
    var queue, seen := [[cur]], {cur};
    ghost var dist: Found<T> := map[cur := 0];
    ghost var low: nat := 1;
    assert Waiting(queue, cur) by { assert Last(queue[0]) == cur; }
    while queue != []
      invariant seen == dist.Keys && AllIn(dist, Universe(ts, cur))
      invariant Searching(ts, cur, target, dist, queue, low, {})
      decreases Universe(ts, cur) - dist.Keys, |queue|
    {
      var p := queue[0];
      TakeFront(ts, cur, target, dist, queue, low);
      low := |p|;
      path, queue, seen, dist := ExpandFront(ts, cur, target, p, queue[1..], seen, dist);
      if path != [] {
        return;
      }
    }
    forall q ensures !Leads(ts, cur, target, q) {
      if Leads(ts, cur, target, q) { UnseenIsFar(ts, cur, target, dist, |q|, q); }
    }
    return [];
  }
}
