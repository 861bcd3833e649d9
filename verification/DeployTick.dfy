/**
 The change-deploy runner: one tick handles missed windows, then due changes, each under its lease.
 A change's status is the fold of its event log; only the part of the fold the runner relies on is modelled.
 */
module DeployTick {
  import opened Wrappers
  import opened DeployLease

  type Id = string

  /** A parsed window; a missing or unparseable bound is None. */
  datatype Window = Window(start: Option<int>, end: Option<int>)

  datatype Status = Scheduled | Approved | Other(name: string)

  datatype Event =
    | Schedule(window: Window)
    | WindowMissed
    | StatusTo(status: Status)
    | PlanNote            // "would-deploy", nothing executed
    | DispatchNote        // the dispatcher's summary

  type Log = seq<Event>

  function StatusOf(log: Log): Status {
    if log == [] then Other("proposed")
    else
      var before := StatusOf(log[..|log| - 1]);
      match log[|log| - 1]
      case Schedule(_) => Scheduled
      case WindowMissed => if before == Scheduled then Approved else before
      case StatusTo(s) => s
      case _ => before
  }

  function WindowOf(log: Log): Window {
    if log == [] then Window(None, None)
    else match log[|log| - 1]
      case Schedule(w) => w
      case _ => WindowOf(log[..|log| - 1])
  }

  predicate Due(log: Log, now: int) {
    var w := WindowOf(log);
    StatusOf(log) == Scheduled && w.start.Some? && w.end.Some? && w.start.value <= now <= w.end.value
  }

  predicate Missed(log: Log, now: int) {
    var w := WindowOf(log);
    StatusOf(log) == Scheduled && w.end.Some? && now > w.end.value
  }

  // ---------- One tick, per change ----------

  datatype Outcome = Completed | Refused | Raised

  /** How the world answers during one tick. */
  datatype World = World(
    bridge: bool,              // the deploy bridge is enabled and can be built
    fails: set<Id>,            // items whose processing raises before it has any effect
    failsLate: set<Id>,        // due items whose note cannot be appended
    clock: Id -> int,          // what the lease code reads
    outcome: Id -> Outcome)    // what the dispatcher does

  function LeaseOf(leases: map<Id, LeaseFile>, id: Id): LeaseFile {
    if id in leases then leases[id] else Unreadable
  }

  /** A due change that gets its lease this tick. */
  predicate Proceeds(log: Log, lease: LeaseFile, now: int, w: World, id: Id) {
    Due(log, now) && id !in w.fails && Free(lease, w.clock(id))
  }

  function NoteFor(wired: bool, w: World, id: Id): Event {
    if wired && w.outcome(id) == Completed then DispatchNote else PlanNote
  }

  /** The missed-window pass on one change, then the due pass; no other change has a say in either. */
  function AfterMissed(log: Log, now: int, w: World, id: Id): Log {
    if Missed(log, now) && id !in w.fails then log + [WindowMissed] else log
  }

  function AfterDue(log: Log, lease: LeaseFile, wired: bool, now: int, w: World, id: Id): Log {
    if Proceeds(log, lease, now, w, id) && id !in w.failsLate then log + [NoteFor(wired, w, id)] else log
  }

  /** The log of one change after a tick: one missed-window event, or one note, or nothing. */
  function LogAfter(log: Log, lease: LeaseFile, wired: bool, now: int, w: World, id: Id): Log {
    if Missed(log, now) then AfterMissed(log, now, w, id) else AfterDue(log, lease, wired, now, w, id)
  }

  function LeaseAfter(log: Log, lease: LeaseFile, seconds: int, now: int, w: World, id: Id): LeaseFile {
    if Proceeds(log, lease, now, w, id) then Lease(w.clock(id), w.clock(id) + seconds) else lease
  }

  lemma MissedIsNotDue(log: Log, now: int, w: World, id: Id)
    ensures !(Missed(log, now) && Due(log, now))
    ensures Missed(log, now) ==> !Due(log + [WindowMissed], now)
  {
  }

  lemma NotDueNoEffect(log: Log, lease: LeaseFile, seconds: int, wired: bool, now: int, w: World, id: Id)
    requires !Due(log, now)
    ensures AfterDue(log, lease, wired, now, w, id) == log && LeaseAfter(log, lease, seconds, now, w, id) == lease
    ensures !Proceeds(log, lease, now, w, id)
  {
  }

  /** The two passes compose: what the first one does never makes a change due. */
  lemma PassesCompose(log: Log, lease: LeaseFile, seconds: int, wired: bool, now: int, w: World, id: Id)
    ensures var mid := AfterMissed(log, now, w, id);
            && AfterDue(mid, lease, wired, now, w, id) == LogAfter(log, lease, wired, now, w, id)
            && LeaseAfter(mid, lease, seconds, now, w, id) == LeaseAfter(log, lease, seconds, now, w, id)
            && (Proceeds(mid, lease, now, w, id) <==> Proceeds(log, lease, now, w, id))
  {
  }

  // ---------- The code ----------

  class DeployRunner {
    const leaseSeconds: int
    var logs: map<Id, Log>
    var leases: map<Id, LeaseFile>
    var wired: bool
    ghost var dispatches: set<(Id, int)>   // (change, tick time) of every dispatcher call

    constructor (leaseSeconds: int, logs: map<Id, Log>)
      ensures this.leaseSeconds == leaseSeconds && this.logs == logs && leases == map[] && !wired && dispatches == {}
    {
      this.leaseSeconds, this.logs := leaseSeconds, logs;
      leases, wired, dispatches := map[], false, {};
    }

    method ProcessMissed(id: Id, w: World)
      requires id in logs
      modifies this`logs
      ensures logs == if id in w.fails then old(logs) else old(logs)[id := old(logs)[id] + [WindowMissed]]
    {
      if id in w.fails {
        return;
      }
      logs := logs[id := logs[id] + [WindowMissed]];
    }

    /** `claim_deploy_lease` for one change, with the time it read. */
    method ClaimLease(id: Id, clock: int) returns (claimed: bool)
      modifies this`leases
      ensures claimed == Free(LeaseOf(old(leases), id), clock)
      ensures leases == if claimed then old(leases)[id := Lease(clock, clock + leaseSeconds)] else old(leases)
    {
      var file := LeaseOf(leases, id);
      if file.Lease? && file.expires > clock {
        return false;
      }
      leases := leases[id := Lease(clock, clock + leaseSeconds)];
      return true;
    }

    method ProcessDue(id: Id, now: int, w: World)
      requires id in logs && Due(logs[id], now)
      modifies this`logs, this`leases, this`dispatches
      ensures logs == old(logs)[id := AfterDue(old(logs)[id], LeaseOf(old(leases), id), wired, now, w, id)]
      ensures forall x :: LeaseOf(leases, x) == if x == id
                then LeaseAfter(old(logs)[id], LeaseOf(old(leases), id), leaseSeconds, now, w, id)
                else LeaseOf(old(leases), x)
      ensures dispatches == old(dispatches) + (if wired && Proceeds(old(logs)[id], LeaseOf(old(leases), id), now, w, id)
                                               then {(id, now)} else {})
    {
      assert logs == logs[id := logs[id]];
      if id in w.fails {
        return;
      }
      var claimed := ClaimLease(id, w.clock(id));
      if !claimed {
        return;
      }
      var refused := true;
      if wired {
        dispatches := dispatches + {(id, now)};
        refused := w.outcome(id) != Completed;
      }
      if id in w.failsLate {
        return;
      }
      logs := logs[id := logs[id] + [if refused then PlanNote else DispatchNote]];
    }

    /** Append window_missed to every listed change; one that raises does not stop the others. */
    method HandleMissed(now: int, w: World)
      modifies this`logs
      ensures logs.Keys == old(logs).Keys
      ensures forall id :: id in logs ==> logs[id] == AfterMissed(old(logs)[id], now, w, id)
    {
      var missed := set id | id in logs && Missed(logs[id], now);
      while missed != {}
        invariant logs.Keys == old(logs).Keys && missed <= logs.Keys
        invariant forall id :: id in missed ==> Missed(old(logs)[id], now) && logs[id] == old(logs)[id]
        invariant forall id :: id in logs && id !in missed ==> logs[id] == AfterMissed(old(logs)[id], now, w, id)
      {
        var id :| id in missed;
        missed := missed - {id};
        ProcessMissed(id, w);
      }
    }

    /** Process every due change under its lease; one that raises does not stop the others. */
    method HandleDue(now: int, w: World)
      modifies this`logs, this`leases, this`dispatches
      ensures logs.Keys == old(logs).Keys
      ensures forall id :: id in logs ==>
                logs[id] == AfterDue(old(logs)[id], LeaseOf(old(leases), id), wired, now, w, id)
      ensures forall id :: LeaseOf(leases, id) ==
                if id in logs then LeaseAfter(old(logs)[id], LeaseOf(old(leases), id), leaseSeconds, now, w, id)
                else LeaseOf(old(leases), id)
      ensures dispatches == old(dispatches) + DispatchedBy(old(logs), old(leases), wired, now, w)
    {
      hide Due, Proceeds, AfterDue, LeaseAfter, LeaseOf, StatusOf, WindowOf, DueDone, DispatchedIn;
      ghost var logs0, leases0, sent0 := logs, leases, dispatches;
      var due := set id | id in logs && Due(logs[id], now);
      NoneDueDone(logs0.Keys - due, logs0, leases0, leaseSeconds, wired, now, w);
      while due != {}
        invariant due <= logs0.Keys && forall id :: id in due ==> Due(logs0[id], now)
        invariant DueDone(logs0.Keys - due, logs0, leases0, logs, leases, leaseSeconds, wired, now, w)
        invariant dispatches == sent0 + DispatchedIn(logs0.Keys - due, logs0, leases0, wired, now, w)
      {
        var id :| id in due;
        ghost var logs1, leases1 := logs, leases;
        DueDoneAt(logs0.Keys - due, logs0, leases0, logs, leases, leaseSeconds, wired, now, w, id);
        DispatchOneMore(logs0.Keys - due, id, logs0, leases0, wired, now, w);
        ProcessDue(id, now, w);
        DueOneMore(logs0.Keys - due, logs0, leases0, logs1, leases1, logs, leases, leaseSeconds, wired, now, w, id);
        assert logs0.Keys - (due - {id}) == logs0.Keys - due + {id};
        due := due - {id};
      }
      assert logs0.Keys - due == logs0.Keys;
      AllDueDone(logs0, leases0, logs, leases, leaseSeconds, wired, now, w);
    }

    /** One scheduler tick. */
    method RunTick(now: int, w: World)
      modifies this
      ensures wired == (old(wired) || w.bridge) && logs.Keys == old(logs).Keys
      ensures forall id :: id in logs ==>
                logs[id] == LogAfter(old(logs)[id], LeaseOf(old(leases), id), wired, now, w, id)
      ensures forall id :: LeaseOf(leases, id) ==
                if id in logs then LeaseAfter(old(logs)[id], LeaseOf(old(leases), id), leaseSeconds, now, w, id)
                else LeaseOf(old(leases), id)
      ensures dispatches == old(dispatches) + DispatchedBy(old(logs), old(leases), wired, now, w)
    {
      hide Due, Missed, Proceeds, AfterDue, AfterMissed, LogAfter, LeaseAfter, LeaseOf, StatusOf, WindowOf;
      if w.bridge && !wired {
        wired := true;
      }
      ghost var logs0, leases0 := logs, leases;
      HandleMissed(now, w);
      ghost var logs1 := logs;
      HandleDue(now, w);
      forall id | id in logs
        ensures AfterDue(logs1[id], LeaseOf(leases0, id), wired, now, w, id)
                == LogAfter(logs0[id], LeaseOf(leases0, id), wired, now, w, id)
        ensures LeaseAfter(logs1[id], LeaseOf(leases0, id), leaseSeconds, now, w, id)
                == LeaseAfter(logs0[id], LeaseOf(leases0, id), leaseSeconds, now, w, id)
        ensures Proceeds(logs1[id], LeaseOf(leases0, id), now, w, id)
                <==> Proceeds(logs0[id], LeaseOf(leases0, id), now, w, id)
      {
        PassesCompose(logs0[id], LeaseOf(leases0, id), leaseSeconds, wired, now, w, id);
      }
      assert DispatchedBy(logs1, leases0, wired, now, w) == DispatchedBy(logs0, leases0, wired, now, w);
    }
  }

  /** The changes `ids` are dealt with, all others and their leases as they were. */
  ghost predicate DueDone(ids: set<Id>, logs0: map<Id, Log>, leases0: map<Id, LeaseFile>, logs: map<Id, Log>,
                          leases: map<Id, LeaseFile>, seconds: int, wired: bool, now: int, w: World) {
    && logs.Keys == logs0.Keys
    && (forall id :: id in logs && id !in ids ==> logs[id] == logs0[id])
    && (forall id :: id in logs && id in ids ==>
          logs[id] == AfterDue(logs0[id], LeaseOf(leases0, id), wired, now, w, id))
    && (forall id :: LeaseOf(leases, id) ==
          if id in ids && id in logs0 then LeaseAfter(logs0[id], LeaseOf(leases0, id), seconds, now, w, id)
          else LeaseOf(leases0, id))
  }

  /** Changes that are not due need nothing. */
  lemma NoneDueDone(ids: set<Id>, logs: map<Id, Log>, leases: map<Id, LeaseFile>, seconds: int, wired: bool, now: int,
                    w: World)
    requires forall id :: id in ids ==> id in logs && !Due(logs[id], now)
    ensures DueDone(ids, logs, leases, logs, leases, seconds, wired, now, w)
    ensures DispatchedIn(ids, logs, leases, wired, now, w) == {}
  {
    hide Due, Proceeds, AfterDue, LeaseAfter, LeaseOf;
    forall id | id in ids
      ensures AfterDue(logs[id], LeaseOf(leases, id), wired, now, w, id) == logs[id]
      ensures LeaseAfter(logs[id], LeaseOf(leases, id), seconds, now, w, id) == LeaseOf(leases, id)
      ensures !Proceeds(logs[id], LeaseOf(leases, id), now, w, id)
    {
      NotDueNoEffect(logs[id], LeaseOf(leases, id), seconds, wired, now, w, id);
    }
  }

  lemma DueDoneAt(ids: set<Id>, logs0: map<Id, Log>, leases0: map<Id, LeaseFile>, logs: map<Id, Log>,
                  leases: map<Id, LeaseFile>, seconds: int, wired: bool, now: int, w: World, id: Id)
    requires DueDone(ids, logs0, leases0, logs, leases, seconds, wired, now, w) && id !in ids && id in logs0
    ensures id in logs && logs[id] == logs0[id] && LeaseOf(leases, id) == LeaseOf(leases0, id)
  {
    hide AfterDue, LeaseAfter, LeaseOf;
  }

  lemma DueOneMore(ids: set<Id>, logs0: map<Id, Log>, leases0: map<Id, LeaseFile>, logs: map<Id, Log>,
                   leases: map<Id, LeaseFile>, logs': map<Id, Log>, leases': map<Id, LeaseFile>, seconds: int,
                   wired: bool, now: int, w: World, id: Id)
    requires DueDone(ids, logs0, leases0, logs, leases, seconds, wired, now, w) && id !in ids && id in logs0
    requires logs' == logs[id := AfterDue(logs0[id], LeaseOf(leases0, id), wired, now, w, id)]
    requires forall x :: LeaseOf(leases', x) ==
               if x == id then LeaseAfter(logs0[id], LeaseOf(leases0, id), seconds, now, w, id) else LeaseOf(leases, x)
    ensures DueDone(ids + {id}, logs0, leases0, logs', leases', seconds, wired, now, w)
  {
    hide AfterDue, LeaseAfter, LeaseOf;
  }

  lemma AllDueDone(logs0: map<Id, Log>, leases0: map<Id, LeaseFile>, logs: map<Id, Log>, leases: map<Id, LeaseFile>,
                   seconds: int, wired: bool, now: int, w: World)
    requires DueDone(logs0.Keys, logs0, leases0, logs, leases, seconds, wired, now, w)
    ensures logs.Keys == logs0.Keys
    ensures forall id :: id in logs ==> logs[id] == AfterDue(logs0[id], LeaseOf(leases0, id), wired, now, w, id)
    ensures forall id :: LeaseOf(leases, id) ==
              if id in logs then LeaseAfter(logs0[id], LeaseOf(leases0, id), seconds, now, w, id)
              else LeaseOf(leases0, id)
  {
    hide AfterDue, LeaseAfter, LeaseOf;
  }

  ghost function DispatchedIn(ids: set<Id>, logs: map<Id, Log>, leases: map<Id, LeaseFile>, wired: bool, now: int,
                              w: World): set<(Id, int)> {
    set id | id in ids && id in logs && wired && Proceeds(logs[id], LeaseOf(leases, id), now, w, id) :: (id, now)
  }

  /** The dispatcher calls of one tick: only with a dispatcher, a due window and a fresh lease. */
  ghost function DispatchedBy(logs: map<Id, Log>, leases: map<Id, LeaseFile>, wired: bool, now: int,
                              w: World): set<(Id, int)> {
    DispatchedIn(logs.Keys, logs, leases, wired, now, w)
  }

  lemma DispatchOneMore(ids: set<Id>, id: Id, logs: map<Id, Log>, leases: map<Id, LeaseFile>, wired: bool, now: int,
                        w: World)
    requires id in logs
    ensures DispatchedIn(ids + {id}, logs, leases, wired, now, w)
            == DispatchedIn(ids, logs, leases, wired, now, w)
               + (if wired && Proceeds(logs[id], LeaseOf(leases, id), now, w, id) then {(id, now)} else {})
  {
  }

  // ---------- Over whole runs, for one change ----------

  datatype Step =
    | Tick(now: int, world: World)
    | External(event: Event)        // an operator, the CAB, a wired bridge

  /** What the runner keeps about one change. */
  datatype Track = Track(log: Log, lease: LeaseFile, wired: bool)

  function After(t: Track, seconds: int, id: Id, s: Step): Track {
    match s
    case External(e) => t.(log := t.log + [e])
    case Tick(now, w) =>
      var wired := t.wired || w.bridge;
      Track(LogAfter(t.log, t.lease, wired, now, w, id), LeaseAfter(t.log, t.lease, seconds, now, w, id), wired)
  }

  function Run(t: Track, seconds: int, id: Id, steps: seq<Step>): Track
    decreases |steps|
  {
    if steps == [] then t else Run(After(t, seconds, id, steps[0]), seconds, id, steps[1..])
  }

  /** Others neither report a missed window nor set the status to scheduled without a window. */
  predicate Polite(s: Step) {
    s.External? ==> s.event != WindowMissed && s.event != StatusTo(Scheduled)
                    && s.event != PlanNote && s.event != DispatchNote
  }

  /** Some scheduling stands between any two missed-window events. */
  ghost predicate OncePerScheduling(log: Log) {
    forall i, j :: 0 <= i < j < |log| && log[i] == WindowMissed && log[j] == WindowMissed ==>
      exists k :: i < k < j && log[k].Schedule?
  }

  /** Since the last missed window there was a new scheduling, if the change is scheduled at all. */
  ghost predicate Rescheduled(log: Log) {
    StatusOf(log) == Scheduled ==>
      forall i :: 0 <= i < |log| && log[i] == WindowMissed ==> exists k :: i < k < |log| && log[k].Schedule?
  }

  lemma AppendOnce(log: Log, e: Event)
    requires OncePerScheduling(log) && Rescheduled(log)
    requires e != StatusTo(Scheduled) && (e == WindowMissed ==> StatusOf(log) == Scheduled)
    ensures OncePerScheduling(log + [e]) && Rescheduled(log + [e])
  {
    var log' := log + [e];
    assert log'[..|log'| - 1] == log;
    forall i, j | 0 <= i < j < |log'| && log'[i] == WindowMissed && log'[j] == WindowMissed
      ensures exists k :: i < k < j && log'[k].Schedule?
    {
      assert log[i] == WindowMissed;
      if j < |log| {
        var k :| i < k < j && log[k].Schedule?;
        assert log'[k].Schedule?;
      } else {
        var k :| i < k < |log| && log[k].Schedule?;
        assert log'[k].Schedule?;
      }
    }
    if StatusOf(log') == Scheduled {
      forall i | 0 <= i < |log'| && log'[i] == WindowMissed ensures exists k :: i < k < |log'| && log'[k].Schedule? {
        if e.Schedule? {
          assert log'[|log|].Schedule?;
        } else {
          var k :| i < k < |log| && log[k].Schedule?;
          assert log'[k].Schedule?;
        }
      }
    }
  }

  /** However ticks and other events interleave, each scheduling gets at most one window_missed. */
  lemma {:induction false} OneMissPerScheduling(t: Track, seconds: int, id: Id, steps: seq<Step>)
    requires OncePerScheduling(t.log) && Rescheduled(t.log) && forall s :: s in steps ==> Polite(s)
    ensures OncePerScheduling(Run(t, seconds, id, steps).log)
    decreases |steps|
  {
    if steps != [] {
      assert Polite(steps[0]);
      var t' := After(t, seconds, id, steps[0]);
      if t'.log != t.log {
        AppendOnce(t.log, t'.log[|t.log|]);
        assert t'.log == t.log + [t'.log[|t.log|]];
      }
      OneMissPerScheduling(t', seconds, id, steps[1..]);
    }
  }

  /** What the ticks of a run append, without what others append in between. */
  function TickEvents(t: Track, seconds: int, id: Id, steps: seq<Step>): Log
    decreases |steps|
  {
    if steps == [] then []
    else
      var next := After(t, seconds, id, steps[0]);
      (if steps[0].Tick? then next.log[|t.log|..] else []) + TickEvents(next, seconds, id, steps[1..])
  }

  /** The times at which ticks of a run call the dispatcher for this change. */
  function Dispatches(t: Track, seconds: int, id: Id, steps: seq<Step>): seq<int>
    decreases |steps|
  {
    if steps == [] then []
    else
      var s := steps[0];
      (if s.Tick? && (t.wired || s.world.bridge) && Proceeds(t.log, t.lease, s.now, s.world, id) then [s.now] else [])
      + Dispatches(After(t, seconds, id, s), seconds, id, steps[1..])
  }

  /**
   Without a dispatcher, whatever others append: no tick calls one, every event a tick adds is a plan note or
   a missed window, and nothing is ever taken out of the log.
   */
  lemma {:induction false} PlanOnly(t: Track, seconds: int, id: Id, steps: seq<Step>)
    requires !t.wired && forall s :: s in steps && s.Tick? ==> !s.world.bridge
    ensures Dispatches(t, seconds, id, steps) == []
    ensures forall e :: e in TickEvents(t, seconds, id, steps) ==> e == PlanNote || e == WindowMissed
    ensures var end := Run(t, seconds, id, steps);
            && !end.wired && t.log <= end.log
            && (DispatchNote !in t.log && (forall s :: s in steps ==> Polite(s)) ==> DispatchNote !in end.log)
    decreases |steps|
  {
    if steps != [] {
      assert steps[0] in steps;
      PlanStep(t, seconds, id, steps[0]);
      hide After, Proceeds, Polite;
      PlanOnly(After(t, seconds, id, steps[0]), seconds, id, steps[1..]);
    }
  }

  lemma PlanStep(t: Track, seconds: int, id: Id, s: Step)
    requires !t.wired && (s.Tick? ==> !s.world.bridge)
    ensures var next := After(t, seconds, id, s);
            && !next.wired && t.log <= next.log
            && (s.Tick? ==> forall e :: e in next.log[|t.log|..] ==> e == PlanNote || e == WindowMissed)
            && (DispatchNote !in t.log && Polite(s) ==> DispatchNote !in next.log)
  {
    hide Proceeds, Missed;
  }

  /** What the fold makes of each event: a missed window sends a scheduled change back to approved, and no other. */
  lemma FoldOf(log: Log, w: Window, s: Status)
    ensures StatusOf([]) == Other("proposed") && WindowOf([]) == Window(None, None)
    ensures StatusOf(log + [Schedule(w)]) == Scheduled && WindowOf(log + [Schedule(w)]) == w
    ensures StatusOf(log + [WindowMissed]) == (if StatusOf(log) == Scheduled then Approved else StatusOf(log))
    ensures StatusOf(log + [StatusTo(s)]) == s
    ensures StatusOf(log + [PlanNote]) == StatusOf(log + [DispatchNote]) == StatusOf(log)
    ensures forall e :: e in [WindowMissed, StatusTo(s), PlanNote, DispatchNote] ==>
              WindowOf(log + [e]) == WindowOf(log)
  {
    assert forall e: Event :: (log + [e])[..|log + [e]| - 1] == log && (log + [e])[|log + [e]| - 1] == e;
  }

  /**
   Exactly what a tick does to a scheduled change: past the end of its window one window_missed; inside it, both ends
   included and with the lease free, the lease and one note; and nothing otherwise.
   */
  lemma TickTiming(t: Track, seconds: int, id: Id, now: int, w: World)
    ensures var t', win := After(t, seconds, id, Tick(now, w)), WindowOf(t.log);
            var scheduled, wired := StatusOf(t.log) == Scheduled, t.wired || w.bridge;
            var past := scheduled && win.end.Some? && now > win.end.value;
            var inside := scheduled && win.start.Some? && win.end.Some? && win.start.value <= now <= win.end.value;
            var leased := inside && id !in w.fails && (t.lease.Unreadable? || t.lease.expires <= w.clock(id));
            && t'.wired == wired
            && t'.log == t.log + (if past && id !in w.fails then [WindowMissed]
                                  else if !leased || id in w.failsLate then []
                                  else if wired && w.outcome(id) == Completed then [DispatchNote]
                                  else [PlanNote])
            && t'.lease == if leased then Lease(w.clock(id), w.clock(id) + seconds) else t.lease
  {
    MissedIsNotDue(t.log, now, w, id);
    assert t.log + [] == t.log;
  }

  /** The dispatcher is called exactly for the scheduled changes inside their window that get their lease. */
  lemma DispatchedIff(logs: map<Id, Log>, leases: map<Id, LeaseFile>, wired: bool, now: int, w: World, id: Id)
    ensures (id, now) in DispatchedBy(logs, leases, wired, now, w) <==>
              && wired && id in logs && StatusOf(logs[id]) == Scheduled && id !in w.fails
              && WindowOf(logs[id]).start.Some? && WindowOf(logs[id]).start.value <= now
              && WindowOf(logs[id]).end.Some? && now <= WindowOf(logs[id]).end.value
              && (id !in leases || leases[id].Unreadable? || leases[id].expires <= w.clock(id))
    ensures forall x :: x in DispatchedBy(logs, leases, wired, now, w) ==> x.1 == now
  {
    hide StatusOf, WindowOf;
  }
}
