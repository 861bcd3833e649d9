/** Whole runs of the AI runner: who gets called, and how fast queued runs drain. */
module RunnerRuns {
  import opened Wrappers
  import opened ExecuteMux
  import opened AgentRun

  // ---------- Safety of every recorded call ----------

  /** What the law of a call means once the job has wired the mux over a comms executor. */
  lemma MuxedCallIsSafe(c: Call, code: Option<Dispatcher>, comms: string)
    requires Lawful(c) && c.via == Mux(code, Some(Executor(comms)))
    ensures !CardRouting(c.id, c.routed).hasRepoLabel && IsCommsSurface(CardRouting(c.id, c.routed).surface) ==>
              c.executor == comms
    ensures c.executor != comms && (code.Some? ==> code.value.Executor?) ==>
              code == Some(Executor(c.executor))
              && (CardRouting(c.id, c.routed).hasRepoLabel || !IsCommsSurface(CardRouting(c.id, c.routed).surface))
  {
    assert Reaches(Executor(comms), c.id, c.routed) == Some(comms);
    assert code.Some? && code.value.Executor? ==> Reaches(code.value, c.id, c.routed) == Some(code.value.name);
  }

  /**
   The gate lets an execute run of a change from alert or gtd through at any change status, because it goes to
   the comms executor.  It goes to the code executor exactly when that is wired and the mux sees a repo label,
   or does not see the comms surface (a card it cannot fold, or one whose surface differs by then).
   */
  lemma CommsChangeReachesCodeIff(id: CardId, passed: Option<Dispatcher>, w: World, code: Option<string>, comms: string)
    requires w.live && FromComms(w.origin(id)) && id != "" && code != Some(comms)
    ensures var leg := if code.Some? then Some(Executor(code.value)) else None;
            var route := RouteOf(id, "change", "execute", Some(Mux(leg, Some(Executor(comms)))), passed, w);
            var reached, fold := CallsOf(route, id, "change", "execute", w), w.routed(id);
            var seenAsComms := SeenAsComms(id, fold);
            && ((exists c :: c in reached && Some(c.executor) == code) <==> code.Some? && !seenAsComms)
            && ((exists c :: c in reached && c.executor == comms) <==> seenAsComms)
            && |reached| <= 1
  {
    var leg := if code.Some? then Some(Executor(code.value)) else None;
    var mux := Mux(leg, Some(Executor(comms)));
    var route := RouteOf(id, "change", "execute", Some(mux), passed, w);
    assert route == Dispatch(mux, false);
    MuxRoutes(mux, id, w.routed(id));
    assert AlongLegs(Executor(comms), true) == Some(comms);
    assert code.Some? ==> AlongLegs(Executor(code.value), false) == code;
    var reached := CallsOf(route, id, "change", "execute", w);
    assert reached != [] ==> reached[0] in reached;
  }

  // ---------- Who a tick calls ----------

  function CallsMadeBy(store: Store, ids: seq<CardId>, s: Setup, w: World): seq<Call>
    requires forall id :: id in ids ==> id in store
  {
    if ids == [] then []
    else
      var id, mode := ids[0], RunMode(store[ids[0]]);
      CallsMade(id, s.kind(id), mode, HandedTo(id, s.kind(id), mode, s.wired, s.passed, w), w)
      + CallsMadeBy(store, ids[1..], s, w)
  }

  lemma {:induction false} SameModesSameCalls(store: Store, other: Store, ids: seq<CardId>, s: Setup, w: World)
    requires forall id :: id in ids ==> id in store && id in other && store[id] == other[id]
    ensures CallsMadeBy(store, ids, s, w) == CallsMadeBy(other, ids, s, w)
  {
    if ids != [] { SameModesSameCalls(store, other, ids[1..], s, w); }
  }

  /** A tick calls for every run it picked, in order, up to and including the first whose exception escapes. */
  lemma {:induction false} WhoATickCalls(store: Store, picked: seq<CardId>, s: Setup, w: World) returns (n: nat)
    requires Distinct(picked) && forall id :: id in picked ==> id in store
    ensures n <= |picked| && CallsDuring(store, picked, s, w) == CallsMadeBy(store, picked[..n], s, w)
    ensures forall i :: 0 <= i < |picked| ==>
              (i + 1 < n ==> !Escapes(RouteIn(store, picked[i], s, w), picked[i], w))
              && (i + 1 == n < |picked| ==> Escapes(RouteIn(store, picked[i], s, w), picked[i], w))
    ensures picked != [] ==> n > 0
    decreases |picked|
  {
    if picked == [] {
      return 0;
    }
    var id, rest := picked[0], picked[1..];
    var route, mode := RouteIn(store, id, s, w), RunMode(store[id]);
    WhoIsCalled(id, s.kind(id), mode, s.wired, s.passed, w);
    hide CallsOf, CallsMade, HandedTo, RouteOf, Escapes, ProcessedTail, Extended, RunMode;
    assert id !in rest;
    var next := Extended(store, id, ProcessedTail(route, id, mode, w));
    if Escapes(route, id, w) {
      n := 1;
      assert picked[..1] == [id] && [id][1..] == [];
      assert CallsOf(route, id, s.kind(id), mode, w) + [] == CallsOf(route, id, s.kind(id), mode, w);
    } else {
      n := WhoATickCalls(next, rest, s, w);
      assert picked[..n + 1][0] == id && picked[..n + 1][1..] == rest[..n];
      SameModesSameCalls(store, next, rest[..n], s, w);
      forall i | 0 < i < |picked| ensures RouteIn(store, picked[i], s, w) == RouteIn(next, rest[i - 1], s, w) {}
      n := n + 1;
    }
  }

  /** What one job finds: the bridge's flag and what it builds. */
  datatype Job = Job(enabled: bool, built: Option<Dispatcher>)

  function WiredAfter(wired: Option<Dispatcher>, jobs: seq<Job>, comms: Dispatcher): Option<Dispatcher>
    decreases |jobs|
  {
    if jobs == [] then wired
    else WiredAfter(Some(WiredByJob(wired, jobs[0].enabled, jobs[0].built, comms)), jobs[1..], comms)
  }

  /** The first job of a process settles the wiring: a bridge that turns up later is never wired. */
  lemma {:induction false} FirstJobSettles(wired: Option<Dispatcher>, jobs: seq<Job>, comms: Dispatcher)
    requires jobs != []
    ensures WiredAfter(wired, jobs, comms) == Some(WiredByJob(wired, jobs[0].enabled, jobs[0].built, comms))
    decreases |jobs|
  {
    var first := Some(WiredByJob(wired, jobs[0].enabled, jobs[0].built, comms));
    if |jobs| > 1 {
      var rest := jobs[1..];
      FirstJobSettles(first, rest, comms);
      assert first.value.Mux?;
      assert WiredByJob(first, rest[0].enabled, rest[0].built, comms) == first.value;
    } else {
      assert jobs[1..] == [];
    }
  }

  // ---------- Draining ----------

  function QueuedIds(store: Store): set<CardId> {
    set id | id in store && IsQueued(store, id)
  }

  function Elements(ids: seq<CardId>): set<CardId> {
    set id | id in ids
  }

  /** Every executor answers with something the runner can read to the end, or raises. */
  ghost predicate Readable(w: World) {
    forall id :: Usable(w.answer(id), w.storeNames)
  }

  lemma ProcessedLeavesQueue(store: Store, id: CardId, s: Setup, w: World)
    requires id in store
    ensures var route := RouteIn(store, id, s, w);
            var next := Extended(store, id, ProcessedTail(route, id, RunMode(store[id]), w));
            QueuedIds(next) == QueuedIds(store) - {id} && next.Keys == store.Keys
    ensures Readable(w) ==> !Escapes(RouteIn(store, id, s, w), id, w)
  {
    var route := RouteIn(store, id, s, w);
    EndsReviewedOrFailed(store[id], route, id, w);
    assert Usable(NOT_WIRED, w.storeNames);
    hide Extended, RouteIn, ProcessedTail, RunState;
    var next := Extended(store, id, ProcessedTail(route, id, RunMode(store[id]), w));
    assert next[id] == ProcessedLog(store[id], route, id, w);
    assert !IsQueued(next, id);
    forall other | other in store && other != id ensures IsQueued(next, other) <==> IsQueued(store, other) {
      assert next[other] == store[other];
    }
  }

  /** A processed run has left the queue, even one whose exception ended the tick. */
  lemma {:induction false} ProcessedDrains(store: Store, picked: seq<CardId>, s: Setup, w: World)
    requires forall id :: id in picked ==> id in store
    ensures Processed(store, picked, s, w).Keys == store.Keys
    ensures QueuedIds(store) - Elements(picked) <= QueuedIds(Processed(store, picked, s, w)) <= QueuedIds(store)
    ensures Readable(w) ==> QueuedIds(Processed(store, picked, s, w)) == QueuedIds(store) - Elements(picked)
    ensures picked != [] ==> picked[0] !in QueuedIds(Processed(store, picked, s, w))
    decreases |picked|
  {
    if picked != [] {
      hide RouteIn, ProcessedTail, IsQueued, Extended, Escapes;
      var id, rest := picked[0], picked[1..];
      var route := RouteIn(store, id, s, w);
      var next := Extended(store, id, ProcessedTail(route, id, RunMode(store[id]), w));
      ProcessedLeavesQueue(store, id, s, w);
      assert Elements(picked) == {id} + Elements(rest);
      if !Escapes(route, id, w) {
        ProcessedDrains(next, rest, s, w);
      }
    }
  }

  lemma {:induction false} DistinctSize(ids: seq<CardId>)
    requires Distinct(ids)
    ensures |Elements(ids)| == |ids|
  {
    if ids != [] {
      var rest := ids[1..];
      DistinctSize(rest);
      assert ids[0] !in rest;
      assert Elements(ids) == {ids[0]} + Elements(rest);
    }
  }

  lemma PickedSize(listing: seq<CardId>, store: Store, limit: nat)
    requires Lists(listing, store.Keys)
    ensures var picked := Picked(listing, store, limit);
            && Elements(picked) <= QueuedIds(store)
            && |Elements(picked)| == |picked| == (if limit < |QueuedIds(store)| then limit else |QueuedIds(store)|)
  {
    var queued := ListQueued(listing, store);
    ListQueuedOnce(listing, store);
    DistinctSize(queued);
    assert Elements(queued) == QueuedIds(store);
    DistinctSize(Picked(listing, store, limit));
  }

  datatype TickInput = TickInput(listing: seq<CardId>, setup: Setup, world: World)

  function AfterTick(store: Store, t: TickInput, limit: nat): Store {
    Processed(store, Picked(t.listing, store, limit), t.setup, t.world)
  }

  function AfterTicks(store: Store, ticks: seq<TickInput>, limit: nat): Store
    decreases |ticks|
  {
    if ticks == [] then store else AfterTicks(AfterTick(store, ticks[0], limit), ticks[1..], limit)
  }

  function Minus(n: nat, k: nat): nat {
    if n < k then 0 else n - k
  }

  /** One tick takes exactly `limit` runs off the queue, or all of them; with unreadable answers at least one. */
  lemma TickDrains(store: Store, t: TickInput, limit: nat)
    requires Lists(t.listing, store.Keys)
    ensures var after := AfterTick(store, t, limit);
            && after.Keys == store.Keys && QueuedIds(after) <= QueuedIds(store)
            && (Readable(t.world) ==> |QueuedIds(after)| == Minus(|QueuedIds(store)|, limit))
            && (limit > 0 ==> |QueuedIds(after)| <= Minus(|QueuedIds(store)|, 1))
  {
    hide Picked, Processed, IsQueued;
    var picked := Picked(t.listing, store, limit);
    var after := AfterTick(store, t, limit);
    PickedSize(t.listing, store, limit);
    ProcessedDrains(store, picked, t.setup, t.world);
    if limit > 0 && QueuedIds(store) != {} {
      assert picked[0] in Elements(picked);
      Smaller(QueuedIds(after), QueuedIds(store), picked[0]);
    } else {
      Fewer(QueuedIds(after), QueuedIds(store));
    }
  }

  lemma Fewer(a: set<CardId>, b: set<CardId>)
    requires a <= b
    ensures |a| <= |b|
  {
    assert a + (b - a) == b;
  }

  lemma Smaller(a: set<CardId>, b: set<CardId>, x: CardId)
    requires a <= b && x in b && x !in a
    ensures |a| <= |b| - 1
  {
    Fewer(a, b - {x});
  }

  /** With no new requests, every tick takes its full share off the queue. */
  lemma {:induction false} DrainsInTicks(store: Store, ticks: seq<TickInput>, limit: nat)
    requires forall t :: t in ticks ==> Lists(t.listing, store.Keys) && Readable(t.world)
    ensures |ticks| * limit >= 0
    ensures |QueuedIds(AfterTicks(store, ticks, limit))| == Minus(|QueuedIds(store)|, |ticks| * limit)
    decreases |ticks|
  {
    hide AfterTick, QueuedIds, Readable, Lists;
    if ticks != [] {
      assert ticks[0] in ticks;
      TickDrains(store, ticks[0], limit);
      DrainsInTicks(AfterTick(store, ticks[0], limit), ticks[1..], limit);
      OneMorePlace(|QueuedIds(store)|, |ticks[1..]|, limit);
    }
  }

  lemma OneMorePlace(n: nat, k: nat, limit: nat)
    ensures k * limit >= 0 && (k + 1) * limit >= 0
    ensures Minus(Minus(n, limit), k * limit) == Minus(n, (k + 1) * limit)
  {
  }

  /** So n queued runs are gone after k ticks exactly when k ticks have n places: after ceil(n / limit) of them. */
  lemma DrainedExactlyWhen(store: Store, ticks: seq<TickInput>, limit: nat)
    requires forall t :: t in ticks ==> Lists(t.listing, store.Keys) && Readable(t.world)
    ensures QueuedIds(AfterTicks(store, ticks, limit)) == {} <==> |QueuedIds(store)| <= |ticks| * limit
  {
    hide AfterTicks, QueuedIds, Readable, Lists;
    DrainsInTicks(store, ticks, limit);
  }

  // ---------- Safety over whole runs ----------

  function CallsOver(store: Store, ticks: seq<TickInput>, limit: nat): seq<Call>
    requires forall t :: t in ticks ==> forall id :: id in t.listing ==> id in store
    decreases |ticks|
  {
    if ticks == [] then []
    else
      var t := ticks[0];
      var picked := Picked(t.listing, store, limit);
      assert forall id :: id in picked ==> id in t.listing;
      ProcessedDrains(store, picked, t.setup, t.world);
      CallsDuring(store, picked, t.setup, t.world) + CallsOver(AfterTick(store, t, limit), ticks[1..], limit)
  }

  lemma {:induction false} TickCallsLawful(store: Store, picked: seq<CardId>, s: Setup, w: World)
    requires forall id :: id in picked ==> id in store
    ensures forall c :: c in CallsDuring(store, picked, s, w) ==> Lawful(c)
    decreases |picked|
  {
    if picked != [] {
      hide Lawful, CallsOf, Escapes, Extended, ProcessedTail;
      var id := picked[0];
      var route := RouteIn(store, id, s, w);
      CallIsLawful(id, s.kind(id), RunMode(store[id]), s.wired, s.passed, w);
      if !Escapes(route, id, w) {
        TickCallsLawful(Extended(store, id, ProcessedTail(route, id, RunMode(store[id]), w)), picked[1..], s, w);
      }
    }
  }

  /**
   However dispatchers are wired and answer, and whatever the cards say: no execute run of a change that is
   not from alert or gtd reaches an executor unless the change is proposed or reviewing, and the dispatcher
   passed in for proposals never sees execute mode.
   */
  lemma {:induction false} PlainChangesOnlyWhileDrafted(store: Store, ticks: seq<TickInput>, limit: nat)
    requires forall t :: t in ticks ==> forall id :: id in t.listing ==> id in store
    ensures forall c :: c in CallsOver(store, ticks, limit) && c.mode == "execute" ==>
              && !c.passedIn
              && (c.kind == "change" && c.origin != Some("alert") && c.origin != Some("gtd") ==>
                    c.changeStatus == Some("proposed") || c.changeStatus == Some("reviewing"))
    decreases |ticks|
  {
    if ticks != [] {
      var t := ticks[0];
      var picked := Picked(t.listing, store, limit);
      assert forall id :: id in picked ==> id in t.listing;
      TickCallsLawful(store, picked, t.setup, t.world);
      ProcessedDrains(store, picked, t.setup, t.world);
      PlainChangesOnlyWhileDrafted(AfterTick(store, t, limit), ticks[1..], limit);
    }
  }

  /** Even when executors answer nonsense, every tick makes progress. */
  lemma {:induction false} AlwaysDrains(store: Store, ticks: seq<TickInput>, limit: nat)
    requires limit > 0 && forall t :: t in ticks ==> Lists(t.listing, store.Keys)
    ensures |QueuedIds(AfterTicks(store, ticks, limit))| <= Minus(|QueuedIds(store)|, |ticks|)
    decreases |ticks|
  {
    if ticks != [] {
      assert ticks[0] in ticks;
      TickDrains(store, ticks[0], limit);
      AlwaysDrains(AfterTick(store, ticks[0], limit), ticks[1..], limit);
    }
  }
}
