/** Re-keying auto-detected incidents to deterministic ids, and running the migration twice. */
module ItilRekey {
  import opened Wrappers
  import opened ItilStore

  function AfterLastColon(s: string): string {
    if ':' !in s then s else if s[0] == ':' && ':' !in s[1..] then s[1..] else AfterLastColon(s[1..])
  }

  function Service(core: Core): string {
    if core.services != [] then core.services[0] else core.title
  }

  /** The dedup key, with the default for a core written without one. */
  function DedupKey(core: Core): string {
    if core.dedupKey != "" then core.dedupKey else Service(core) + ":unreachable"
  }

  function FailureClass(core: Core): string {
    if ':' in DedupKey(core) then AfterLastColon(DedupKey(core)) else "unreachable"
  }

  /** The day of detection; today's when the timestamp does not parse. */
  function Day(lib: Lib, core: Core, today: string): string {
    var day := lib.dayOf(core.detectedAt);
    if day.Some? then day.value else today
  }

  function NewId(lib: Lib, core: Core, today: string): Id {
    lib.autoId(Service(core), FailureClass(core), Day(lib, core, today))
  }

  lemma {:induction false} LastPart(a: string, b: string)
    requires ':' !in b
    ensures AfterLastColon(a + ":" + b) == b
  {
    var s := a + ":" + b;
    if a == [] {
      assert s[0] == ':' && s[1..] == b;
    } else {
      assert s[1..] == a[1..] + ":" + b && (a[1..] + ":" + b)[|a| - 1] == ':';
      LastPart(a[1..], b);
    }
  }

  /**
   The deterministic id of a record: from its first service, or its title; from what follows the last colon of its
   dedup key, or `unreachable` where there is none; and from the day it was detected, or today.
   */
  lemma DeterministicId(lib: Lib, core: Core, today: string, a: string, b: string)
    requires ':' !in b
    ensures core.services != [] && core.dedupKey == a + ":" + b && lib.dayOf(core.detectedAt).Some? ==>
              NewId(lib, core, today) == lib.autoId(core.services[0], b, lib.dayOf(core.detectedAt).value)
    ensures core.services == [] && core.dedupKey == a + ":" + b && lib.dayOf(core.detectedAt).Some? ==>
              NewId(lib, core, today) == lib.autoId(core.title, b, lib.dayOf(core.detectedAt).value)
    ensures core.services != [] && ':' !in core.dedupKey && lib.dayOf(core.detectedAt).None? ==>
              NewId(lib, core, today) == lib.autoId(core.services[0], "unreachable", today)
    ensures core.services == [] && ':' !in core.dedupKey && lib.dayOf(core.detectedAt).Some? ==>
              NewId(lib, core, today) == lib.autoId(core.title, "unreachable", lib.dayOf(core.detectedAt).value)
  {
    LastPart(a, b);
    assert (a + ":" + b)[|a|] == ':';
    LastPart(Service(core), "unreachable");
    assert (Service(core) + ":unreachable")[|Service(core)|] == ':' && ":unreachable" == ":" + "unreachable";
    assert Service(core) + ":unreachable" == Service(core) + ":" + "unreachable";
  }

  /** `id` is an auto-detected record that is not yet under its deterministic id. */
  predicate Moves(lib: Lib, s: Store, today: string, id: Id) {
    Has(s, id) && CoreOf(s, id).autoDetected && NewId(lib, CoreOf(s, id), today) != id
  }

  function Target(lib: Lib, s: Store, today: string, id: Id): Id
    requires Has(s, id)
  {
    NewId(lib, CoreOf(s, id), today)
  }

  function RekeyedFiles(events: map<FileName, seq<Line>>): (r: map<FileName, seq<Line>>)
    ensures forall f :: f in r <==> f.Rekeyed? && f.file in events
    ensures forall f :: f in r ==> r[f] == events[f.file]
  {
    map f | f in events :: Rekeyed(f) := events[f]
  }

  /** The free case: a new directory takes the core and the events; the old one keeps a redirect. */
  function MoveTo(s: Store, id: Id, to: Id): Store
    requires Has(s, id)
  {
    s[to := Dir(Some(CoreOf(s, id).(id := to)), s[id].events, None)]
     [id := Dir(None, map[], Some(to))]
  }

  /** The collision case: the events go to the existing directory, and the old core stays in place. */
  function PourInto(s: Store, id: Id, to: Id): Store
    requires Has(s, id) && to in s && to != id
  {
    s[to := s[to].(events := s[to].events + RekeyedFiles(s[id].events))]
     [id := s[id].(events := map[], redirect := Some(to))]
  }

  /** One record of the pass. */
  function RekeyOne(lib: Lib, s: Store, today: string, id: Id): Store {
    if !Moves(lib, s, today, id) then s
    else if Target(lib, s, today, id) in s then PourInto(s, id, Target(lib, s, today, id))
    else MoveTo(s, id, Target(lib, s, today, id))
  }

  /** The pass over the directories listed at its start. */
  function Rekey(lib: Lib, s: Store, today: string, order: seq<Id>): Store
    decreases |order|
  {
    if order == [] then s else Rekey(lib, RekeyOne(lib, s, today, order[0]), today, order[1..])
  }

  /** What the pass reports: each re-keyed id with its new one. */
  function Reported(lib: Lib, s: Store, today: string, order: seq<Id>): map<Id, Id>
    decreases |order|
  {
    if order == [] then map[]
    else (if Moves(lib, s, today, order[0]) then map[order[0] := Target(lib, s, today, order[0])] else map[])
         + Reported(lib, RekeyOne(lib, s, today, order[0]), today, order[1..])
  }

  // ---------- The code ----------

  class RekeyPass {
    const lib: Lib
    var store: Store

    constructor (lib: Lib, store: Store)
      ensures this.lib == lib && this.store == store
    {
      this.lib, this.store := lib, store;
    }

    /** One directory of the pass: leave it, pour it into an existing target, or move it to a new one. */
    method RekeyRecord(id: Id, today: string) returns (moved: Option<Id>)
      modifies this
      ensures store == RekeyOne(lib, old(store), today, id)
      ensures moved == if Moves(lib, old(store), today, id) then Some(Target(lib, old(store), today, id)) else None
    {
      if id !in store || store[id].core.None? {
        return None;
      }
      var core := store[id].core.value;
      if !core.autoDetected {
        return None;
      }
      var newId := NewId(lib, core, today);
      if newId == id {
        return None;
      }
      if newId in store {
        store := PourInto(store, id, newId);
      } else {
        store := MoveTo(store, id, newId);
      }
      return Some(newId);
    }

    /** `order` lists the record directories, sorted by name, as they are when the pass starts. */
    method RekeyAutoDetected(order: seq<Id>, today: string) returns (rekeys: map<Id, Id>)
      modifies this
      ensures store == Rekey(lib, old(store), today, order)
      ensures rekeys == Reported(lib, old(store), today, order)
    {
      hide RekeyOne, Moves, Target;
      rekeys := map[];
      ghost var s0 := store;
      var i := 0;
      assert order[0..] == order;
      while i < |order|
        invariant 0 <= i <= |order|
        invariant Rekey(lib, store, today, order[i..]) == Rekey(lib, s0, today, order)
        invariant rekeys + Reported(lib, store, today, order[i..]) == Reported(lib, s0, today, order)
      {
        assert order[i..][0] == order[i] && order[i..][1..] == order[i + 1..];
        PassStep(lib, store, today, order[i..], rekeys);
        var moved := RekeyRecord(order[i], today);
        if moved.Some? {
          rekeys := rekeys[order[i] := moved.value];
        }
        i := i + 1;
      }
    }
  }

  lemma PassStep(lib: Lib, s: Store, today: string, todo: seq<Id>, sofar: map<Id, Id>)
    requires todo != []
    ensures var id, rest := todo[0], todo[1..];
            && Rekey(lib, s, today, todo) == Rekey(lib, RekeyOne(lib, s, today, id), today, rest)
            && sofar + Reported(lib, s, today, todo)
               == (if Moves(lib, s, today, id) then sofar[id := Target(lib, s, today, id)] else sofar)
                  + Reported(lib, RekeyOne(lib, s, today, id), today, rest)
  {
    hide RekeyOne, Target;
    var id, later := todo[0], Reported(lib, RekeyOne(lib, s, today, todo[0]), today, todo[1..]);
    if Moves(lib, s, today, id) {
      assert sofar + (map[id := Target(lib, s, today, id)] + later) == sofar[id := Target(lib, s, today, id)] + later;
    } else {
      assert map[] + later == later;
    }
  }

  // ---------- Collisions ----------

  /** No target is an existing directory, and no two records move to one target. */
  ghost predicate NoCollision(lib: Lib, s: Store, today: string) {
    && (forall id :: Moves(lib, s, today, id) ==> Target(lib, s, today, id) !in s)
    && (forall a, b :: Moves(lib, s, today, a) && Moves(lib, s, today, b) && a != b ==>
          Target(lib, s, today, a) != Target(lib, s, today, b))
  }

  ghost predicate Distinct(order: seq<Id>) {
    forall i, j :: 0 <= i < j < |order| ==> order[i] != order[j]
  }

  /** `order` lists every directory once. */
  ghost predicate Lists(order: seq<Id>, s: Store) {
    Distinct(order) && forall id :: id in order <==> id in s
  }

  /** In the pass over `order` no record meets an existing target. */
  ghost predicate Clean(lib: Lib, s: Store, today: string, order: seq<Id>)
    decreases |order|
  {
    order == [] ||
    ((Moves(lib, s, today, order[0]) ==> Target(lib, s, today, order[0]) !in s)
     && Clean(lib, RekeyOne(lib, s, today, order[0]), today, order[1..]))
  }

  /** A step leaves the cores of all other directories alone. */
  lemma StepFrame(lib: Lib, s: Store, today: string, id: Id, other: Id)
    requires other != id && other in s
    ensures var t := RekeyOne(lib, s, today, id);
            && other in t && t[other].core == s[other].core
            && (Moves(lib, t, today, other) <==> Moves(lib, s, today, other))
  {
  }

  lemma RestDistinct(order: seq<Id>)
    requires order != [] && Distinct(order)
    ensures Distinct(order[1..]) && order[0] !in order[1..]
    ensures forall id :: id in order <==> id == order[0] || id in order[1..]
  {
  }

  /** A record that meets a collision keeps its core where it is, to the end of the pass. */
  lemma {:induction false} StuckStays(lib: Lib, s: Store, today: string, order: seq<Id>, id: Id)
    requires id !in order && Moves(lib, s, today, id)
    ensures Moves(lib, Rekey(lib, s, today, order), today, id)
    decreases |order|
  {
    if order != [] {
      assert order[0] in order;
      StepFrame(lib, s, today, order[0], id);
      StuckStays(lib, RekeyOne(lib, s, today, order[0]), today, order[1..], id);
    }
  }

  lemma {:induction false} DirtyLeavesAMover(lib: Lib, s: Store, today: string, order: seq<Id>) returns (id: Id)
    requires Distinct(order) && !Clean(lib, s, today, order)
    ensures Moves(lib, Rekey(lib, s, today, order), today, id)
    decreases |order|
  {
    RestDistinct(order);
    id := order[0];
    var t := RekeyOne(lib, s, today, id);
    if Moves(lib, s, today, id) && Target(lib, s, today, id) in s {
      assert t[id].core == s[id].core;
      StuckStays(lib, t, today, order[1..], id);
    } else {
      id := DirtyLeavesAMover(lib, t, today, order[1..]);
    }
  }

  /** Whatever is not ahead in the pass needs no move. */
  ghost predicate Settled(lib: Lib, s: Store, today: string, ahead: seq<Id>) {
    forall id :: Moves(lib, s, today, id) ==> id in ahead
  }

  lemma StepSettles(lib: Lib, s: Store, today: string, order: seq<Id>)
    requires order != [] && Settled(lib, s, today, order)
    requires Moves(lib, s, today, order[0]) ==> Target(lib, s, today, order[0]) !in s
    ensures Settled(lib, RekeyOne(lib, s, today, order[0]), today, order[1..])
  {
    var t := RekeyOne(lib, s, today, order[0]);
    forall id | Moves(lib, t, today, id) ensures id in order[1..] {
      if id in s && id != order[0] { StepFrame(lib, s, today, order[0], id); }
    }
  }

  lemma {:induction false} CleanSettles(lib: Lib, s: Store, today: string, order: seq<Id>)
    requires Clean(lib, s, today, order) && Settled(lib, s, today, order)
    ensures Settled(lib, Rekey(lib, s, today, order), today, [])
    decreases |order|
  {
    if order != [] {
      StepSettles(lib, s, today, order);
      CleanSettles(lib, RekeyOne(lib, s, today, order[0]), today, order[1..]);
    }
  }

  lemma {:induction false} SettledIsFixed(lib: Lib, s: Store, today: string, order: seq<Id>)
    requires Settled(lib, s, today, [])
    ensures Rekey(lib, s, today, order) == s && Reported(lib, s, today, order) == map[]
    decreases |order|
  {
    if order != [] {
      assert !Moves(lib, s, today, order[0]);
      SettledIsFixed(lib, s, today, order[1..]);
    }
  }

  lemma {:induction false} MoversAreReported(lib: Lib, s: Store, today: string, order: seq<Id>, id: Id)
    requires Distinct(order) && id in order && Moves(lib, s, today, id)
    ensures id in Reported(lib, s, today, order)
    decreases |order|
  {
    RestDistinct(order);
    if id != order[0] {
      StepFrame(lib, s, today, order[0], id);
      MoversAreReported(lib, RekeyOne(lib, s, today, order[0]), today, order[1..], id);
    }
  }

  /** No collision among the records ahead: with what exists now, or with each other. */
  ghost predicate NoCollisionAhead(lib: Lib, s: Store, today: string, order: seq<Id>) {
    && (forall id :: id in order && Moves(lib, s, today, id) ==> Target(lib, s, today, id) !in s)
    && (forall a, b :: a in order && b in order && Moves(lib, s, today, a) && Moves(lib, s, today, b) && a != b ==>
          Target(lib, s, today, a) != Target(lib, s, today, b))
  }

  lemma {:induction false} CleanIffNoneAhead(lib: Lib, s: Store, today: string, order: seq<Id>)
    requires Distinct(order) && forall id :: id in order ==> id in s
    ensures Clean(lib, s, today, order) <==> NoCollisionAhead(lib, s, today, order)
    decreases |order|
  {
    if order != [] {
      RestDistinct(order);
      var id, rest := order[0], order[1..];
      var t := RekeyOne(lib, s, today, id);
      forall x | x in rest
        ensures x in t && (Moves(lib, t, today, x) <==> Moves(lib, s, today, x))
        ensures Has(s, x) ==> Target(lib, t, today, x) == Target(lib, s, today, x)
      {
        StepFrame(lib, s, today, id, x);
      }
      CleanIffNoneAhead(lib, t, today, rest);
      if Moves(lib, s, today, id) && Target(lib, s, today, id) !in s {
        assert t.Keys == s.Keys + {Target(lib, s, today, id)};
      }
    }
  }

  lemma CleanIffNoCollision(lib: Lib, s: Store, today: string, order: seq<Id>)
    requires Lists(order, s)
    ensures Clean(lib, s, today, order) <==> NoCollision(lib, s, today)
  {
    CleanIffNoneAhead(lib, s, today, order);
    assert forall id :: Moves(lib, s, today, id) ==> id in order;
  }

  /** In a pass without collisions a moved record takes its events along; others stay as they were. */
  lemma {:induction false} CleanMoves(lib: Lib, s: Store, today: string, order: seq<Id>, id: Id)
    requires Distinct(order) && Clean(lib, s, today, order) && Has(s, id) && forall x :: x in order ==> x in s
    ensures var t := Rekey(lib, s, today, order);
            if id in order && Moves(lib, s, today, id)
            then var to := Target(lib, s, today, id);
                 && to in t && t[to] == Dir(Some(CoreOf(s, id).(id := to)), s[id].events, None)
                 && id in t && t[id] == Dir(None, map[], Some(to))
            else id in t && t[id] == s[id]
    decreases |order|
  {
    if order != [] {
      RestDistinct(order);
      var first, rest := order[0], order[1..];
      var t := RekeyOne(lib, s, today, first);
      if first == id && Moves(lib, s, today, id) {
        var to := Target(lib, s, today, id);
        Untouched(lib, t, today, rest, to);
        Untouched(lib, t, today, rest, id);
      } else {
        if first != id { StepFrame(lib, s, today, first, id); }
        CleanMoves(lib, t, today, rest, id);
      }
    }
  }

  /** A clean pass leaves a directory alone that is not ahead in it. */
  lemma {:induction false} Untouched(lib: Lib, s: Store, today: string, order: seq<Id>, id: Id)
    requires Clean(lib, s, today, order) && id in s && id !in order
    ensures id in Rekey(lib, s, today, order) && Rekey(lib, s, today, order)[id] == s[id]
    decreases |order|
  {
    if order != [] {
      assert order[0] in order;
      Untouched(lib, RekeyOne(lib, s, today, order[0]), today, order[1..], id);
    }
  }

  // ---------- The second pass, on any day ----------

  lemma SameDayQuietIff(lib: Lib, s: Store, today: string, order: seq<Id>, order2: seq<Id>)
    requires Lists(order, s) && Lists(order2, Rekey(lib, s, today, order))
    ensures Reported(lib, Rekey(lib, s, today, order), today, order2) == map[] <==> NoCollision(lib, s, today)
    ensures NoCollision(lib, s, today) ==>
              Rekey(lib, Rekey(lib, s, today, order), today, order2) == Rekey(lib, s, today, order)
  {
    var t := Rekey(lib, s, today, order);
    CleanIffNoCollision(lib, s, today, order);
    if Clean(lib, s, today, order) {
      CleanSettles(lib, s, today, order);
      SettledIsFixed(lib, t, today, order2);
    } else {
      var id := DirtyLeavesAMover(lib, s, today, order);
      MoversAreReported(lib, t, today, order2, id);
    }
  }

  /** Every auto-detected record has a timestamp that names a day. */
  ghost predicate Dated(lib: Lib, s: Store) {
    forall id :: Has(s, id) && CoreOf(s, id).autoDetected ==> lib.dayOf(CoreOf(s, id).detectedAt).Some?
  }

  /** No auto-detected record's deterministic id depends on the day of the pass. */
  ghost predicate Steady(lib: Lib, s: Store, today: string) {
    forall id, later :: Has(s, id) && CoreOf(s, id).autoDetected ==>
      NewId(lib, CoreOf(s, id), later) == NewId(lib, CoreOf(s, id), today)
  }

  lemma DatedIsSteady(lib: Lib, s: Store, today: string)
    requires Dated(lib, s)
    ensures Steady(lib, s, today)
  {
  }

  lemma StepKeepsSteady(lib: Lib, s: Store, today: string, id: Id)
    requires Steady(lib, s, today)
    ensures Steady(lib, RekeyOne(lib, s, today, id), today)
  {
    var t := RekeyOne(lib, s, today, id);
    forall x, later | Has(t, x) && CoreOf(t, x).autoDetected
      ensures NewId(lib, CoreOf(t, x), later) == NewId(lib, CoreOf(t, x), today)
    {
      var from := if x in s && t[x].core == s[x].core then x else id;
      assert NewId(lib, CoreOf(t, x), later) == NewId(lib, CoreOf(s, from), later);
    }
  }

  lemma {:induction false} SteadyKept(lib: Lib, s: Store, today: string, order: seq<Id>)
    requires Steady(lib, s, today)
    ensures Steady(lib, Rekey(lib, s, today, order), today)
    decreases |order|
  {
    if order != [] {
      StepKeepsSteady(lib, s, today, order[0]);
      SteadyKept(lib, RekeyOne(lib, s, today, order[0]), today, order[1..]);
    }
  }

  /** On steady records a pass does the same on every day. */
  lemma {:induction false} EveryDayTheSame(lib: Lib, s: Store, today: string, later: string, order: seq<Id>)
    requires Steady(lib, s, today)
    ensures Rekey(lib, s, later, order) == Rekey(lib, s, today, order)
    ensures Reported(lib, s, later, order) == Reported(lib, s, today, order)
    decreases |order|
  {
    if order != [] {
      var id := order[0];
      assert Has(s, id) && CoreOf(s, id).autoDetected ==>
               NewId(lib, CoreOf(s, id), later) == NewId(lib, CoreOf(s, id), today);
      StepKeepsSteady(lib, s, today, id);
      EveryDayTheSame(lib, RekeyOne(lib, s, today, id), today, later, order[1..]);
    }
  }

  /**
   With every auto-detected record dated, a second re-key pass on any later day reports nothing, and
   changes nothing, if and only if the first pass met no collision: targets that exist, or that two
   records share.
   */
  lemma SecondPassQuietIff(lib: Lib, s: Store, today: string, order: seq<Id>, later: string, order2: seq<Id>)
    requires Lists(order, s) && Lists(order2, Rekey(lib, s, today, order)) && Dated(lib, s)
    ensures Reported(lib, Rekey(lib, s, today, order), later, order2) == map[] <==> NoCollision(lib, s, today)
    ensures NoCollision(lib, s, today) ==>
              Rekey(lib, Rekey(lib, s, today, order), later, order2) == Rekey(lib, s, today, order)
  {
    DatedIsSteady(lib, s, today);
    SteadyKept(lib, s, today, order);
    EveryDayTheSame(lib, Rekey(lib, s, today, order), today, later, order2);
    SameDayQuietIff(lib, s, today, order, order2);
  }

  lemma {:induction false} ListingOf(ids: set<Id>) returns (order: seq<Id>)
    ensures Distinct(order) && forall id :: id in order <==> id in ids
  {
    if ids == {} {
      order := [];
    } else {
      var id :| id in ids;
      var rest := ListingOf(ids - {id});
      order := [id] + rest;
    }
  }

  /** A pass over `s` on `later`, in any directory order, reports nothing. */
  ghost predicate QuietOn(lib: Lib, s: Store, later: string) {
    forall order :: Lists(order, s) ==> Reported(lib, s, later, order) == map[]
  }

  lemma SteadyIsQuiet(lib: Lib, s: Store, today: string, order: seq<Id>, later: string)
    requires Lists(order, s) && NoCollision(lib, s, today) && Steady(lib, s, today)
    ensures QuietOn(lib, Rekey(lib, s, today, order), later)
  {
    var t := Rekey(lib, s, today, order);
    SteadyKept(lib, s, today, order);
    forall o | Lists(o, t) ensures Reported(lib, t, later, o) == map[] {
      EveryDayTheSame(lib, t, today, later, o);
      SameDayQuietIff(lib, s, today, order, o);
    }
  }

  /** After a clean pass an auto-detected record lies under its id of that day; a quiet later day gives the same id. */
  lemma QuietKeepsId(lib: Lib, s: Store, today: string, order: seq<Id>, later: string, id: Id)
    requires Lists(order, s) && Clean(lib, s, today, order) && QuietOn(lib, Rekey(lib, s, today, order), later)
    requires Has(s, id) && CoreOf(s, id).autoDetected
    ensures NewId(lib, CoreOf(s, id), later) == NewId(lib, CoreOf(s, id), today)
  {
    var t := Rekey(lib, s, today, order);
    var listing := ListingOf(t.Keys);
    CleanMoves(lib, s, today, order, id);
    var place := if Moves(lib, s, today, id) then Target(lib, s, today, id) else id;
    if Moves(lib, t, later, place) { MoversAreReported(lib, t, later, listing, place); }
  }

  ghost predicate QuietEveryDay(lib: Lib, s: Store) {
    forall later :: QuietOn(lib, s, later)
  }

  /**
   For any records: the second pass is quiet on every day exactly when the first met no collision and
   no record's id depends on the day.
   */
  lemma QuietEveryDayIff(lib: Lib, s: Store, today: string, order: seq<Id>)
    requires Lists(order, s)
    ensures QuietEveryDay(lib, Rekey(lib, s, today, order)) <==> NoCollision(lib, s, today) && Steady(lib, s, today)
  {
    hide NoCollision, NewId, Lists, QuietOn;
    var t := Rekey(lib, s, today, order);
    if NoCollision(lib, s, today) && Steady(lib, s, today) {
      forall later ensures QuietOn(lib, t, later) { SteadyIsQuiet(lib, s, today, order, later); }
    }
    if QuietEveryDay(lib, t) {
      assert QuietOn(lib, t, today);
      QuietHadNoCollision(lib, s, today, order);
      forall id, later | Has(s, id) && CoreOf(s, id).autoDetected
        ensures NewId(lib, CoreOf(s, id), later) == NewId(lib, CoreOf(s, id), today)
      {
        assert QuietOn(lib, t, later);
        QuietKeepsId(lib, s, today, order, later, id);
      }
    }
  }

  lemma QuietHadNoCollision(lib: Lib, s: Store, today: string, order: seq<Id>)
    requires Lists(order, s) && QuietOn(lib, Rekey(lib, s, today, order), today)
    ensures NoCollision(lib, s, today) && Clean(lib, s, today, order)
  {
    var listing := ListingOf(Rekey(lib, s, today, order).Keys);
    SameDayQuietIff(lib, s, today, order, listing);
    CleanIffNoCollision(lib, s, today, order);
  }

  /** A lone record without a date takes a new id on every day: no collision, and re-keyed again the next day. */
  lemma UndatedMovesAgain() returns (lib: Lib, s: Store, id: Id, today: string, later: string)
    ensures Lists([id], s) && NoCollision(lib, s, today) && Has(s, id)
    ensures lib.dayOf(CoreOf(s, id).detectedAt).None? && Rekey(lib, s, today, [id]) == s
    ensures id in Reported(lib, s, later, [id])
  {
    today, later := "2026-08-13", "2026-08-14";
    lib := Lib(title => title, (service, failure, day) => day, stamp => None, (a, b, c) => "");
    id := today;
    s := map[id := Dir(Some(Core(id, "down", ["web"], "", true, "")), map[], None)];
    assert today[9] != later[9];
    assert [id][1..] == [];
    assert NewId(lib, CoreOf(s, id), today) == today && NewId(lib, CoreOf(s, id), later) == later;
    MoversAreReported(lib, s, later, [id], id);
  }
}
