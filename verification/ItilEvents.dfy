/**
 Where event files go when records are re-keyed, collisions included, and which of them survive.  Files are followed
 through the pass by the moves of the records alone; what the directories hold afterwards is proved to agree.
 */
module ItilEvents {
  import opened Wrappers
  import opened ItilStore
  import opened ItilMerge
  import opened ItilRekey

  /** An event file: its directory and its name there. */
  datatype Spot = Spot(dir: Id, file: FileName)

  /** Where each file of the store before the pass is now; a file that was replaced is missing. */
  type Trace = map<Spot, Spot>

  function Files(s: Store): set<Spot> {
    set d, f | d in s && f in s[d].events :: Spot(d, f)
  }

  function Unmoved(s: Store): Trace {
    map o | o in Files(s) :: o
  }

  /** The directories that exist once the records `order` have been handled. */
  ghost function Known(lib: Lib, s: Store, today: string, order: seq<Id>): set<Id>
    decreases |order|
  {
    if order == [] then s.Keys
    else
      var front, x := order[..|order| - 1], order[|order| - 1];
      Known(lib, s, today, front) + if Moves(lib, s, today, x) then {NewId(lib, CoreOf(s, x), today)} else {}
  }

  /** Some file in `x` has, once marked as re-keyed, the name of the file at `at`. */
  predicate Covered(m: Trace, x: Id, at: Spot) {
    at.file.Rekeyed? && Spot(x, at.file.file) in m.Values
  }

  /** The files of `x` go to the new directory `to` under their names. */
  function Moved(m: Trace, x: Id, to: Id): Trace {
    map o | o in m :: if m[o].dir == x then Spot(to, m[o].file) else m[o]
  }

  /** They go to the existing directory `to` marked as re-keyed, over any file of that name. */
  function Poured(m: Trace, x: Id, to: Id): Trace {
    map o | o in m && !(m[o].dir == to && Covered(m, x, m[o])) ::
      if m[o].dir == x then Spot(to, Rekeyed(m[o].file)) else m[o]
  }

  /** Where the files of `s` are after the records `order`. */
  ghost function Carried(lib: Lib, s: Store, today: string, order: seq<Id>): Trace
    decreases |order|
  {
    if order == [] then Unmoved(s)
    else
      var front, x := order[..|order| - 1], order[|order| - 1];
      var m := Carried(lib, s, today, front);
      if !Moves(lib, s, today, x) then m
      else
        var to := NewId(lib, CoreOf(s, x), today);
        if to in Known(lib, s, today, front) then Poured(m, x, to) else Moved(m, x, to)
  }

  // ---------- What the directories hold ----------

  /** Every traced file is where the trace says, line for line. */
  ghost predicate Kept(m: Trace, s: Store, t: Store) {
    forall o :: o in m ==> At(s, o).Some? && At(t, m[o]) == At(s, o)
  }

  /** Every file of `t` is traced. */
  ghost predicate NoOthers(m: Trace, t: Store) {
    forall at :: At(t, at).Some? ==> at in m.Values
  }

  ghost predicate Apart(m: Trace) {
    forall o, p :: o in m && p in m && m[o] == m[p] ==> o == p
  }

  /** The files of `t` are those traced from `s`, each from one file only. */
  ghost predicate Holds(m: Trace, s: Store, t: Store) {
    Kept(m, s, t) && NoOthers(m, t) && Apart(m)
  }

  /** The lines of the file at a place. */
  function At(t: Store, at: Spot): Option<seq<Line>> {
    if at.dir in t then Lookup(t[at.dir].events, at.file) else None
  }

  lemma MovedAt(t: Store, x: Id, to: Id, at: Spot)
    requires Has(t, x) && to !in t && to != x
    ensures At(MoveTo(t, x, to), at) ==
              if at.dir == to then At(t, Spot(x, at.file)) else if at.dir == x then None else At(t, at)
  {
    var t' := MoveTo(t, x, to);
    if at.dir == to {
      assert t'[to].events == t[x].events;
    } else if at.dir == x {
      assert t'[x].events == map[];
    } else {
      assert at.dir in t' <==> at.dir in t;
    }
  }

  /** What a place holds after the pour: the file poured there, if any, else what it held. */
  function PouredAt(t: Store, x: Id, to: Id, at: Spot): Option<seq<Line>> {
    if at.dir == to && at.file.Rekeyed? && At(t, Spot(x, at.file.file)).Some? then At(t, Spot(x, at.file.file))
    else if at.dir == x then None
    else At(t, at)
  }

  lemma PourAt(t: Store, x: Id, to: Id, at: Spot)
    requires Has(t, x) && to in t && to != x
    ensures At(PourInto(t, x, to), at) == PouredAt(t, x, to, at)
  {
    PouredDirs(t, x, to);
    hide PourInto, RekeyedFiles;
    if at.dir == to { PlusAt(t[to].events, t[x].events, at.file); }
  }

  lemma PouredDirs(t: Store, x: Id, to: Id)
    requires Has(t, x) && to in t && to != x
    ensures var t' := PourInto(t, x, to);
            && t'.Keys == t.Keys && t'[to].events == t[to].events + RekeyedFiles(t[x].events) && t'[x].events == map[]
            && forall d :: d in t && d != x && d != to ==> t'[d] == t[d]
  {
    hide RekeyedFiles;
  }

  lemma PlusAt(held: map<FileName, seq<Line>>, poured: map<FileName, seq<Line>>, f: FileName)
    ensures Lookup(held + RekeyedFiles(poured), f) ==
              if f.Rekeyed? && f.file in poured then Some(poured[f.file]) else Lookup(held, f)
  {
  }

  lemma MoveHolds(m: Trace, s: Store, t: Store, x: Id, to: Id)
    requires Holds(m, s, t) && Has(t, x) && to !in t && to != x
    ensures Holds(Moved(m, x, to), s, MoveTo(t, x, to))
  {
    var m', t' := Moved(m, x, to), MoveTo(t, x, to);
    forall at ensures At(t, at).Some? ==> at.dir != to {}
    hide MoveTo, At;
    forall o | o in m' ensures o in m && At(t', m'[o]) == At(t, m[o]) {
      MovedAt(t, x, to, m'[o]);
    }
    forall at | At(t', at).Some? ensures at in m'.Values {
      MovedAt(t, x, to, at);
      var o :| o in m && m[o] == (if at.dir == to then Spot(x, at.file) else at);
      assert o in m' && m'[o] == at;
    }
    MovedApart(m, s, t, x, to);
    hide Moved;
  }

  lemma MovedApart(m: Trace, s: Store, t: Store, x: Id, to: Id)
    requires Kept(m, s, t) && Apart(m) && forall at :: At(t, at).Some? ==> at.dir != to
    ensures Apart(Moved(m, x, to))
  {
    hide At;
    var m' := Moved(m, x, to);
    forall o, p | o in m' && p in m' && m'[o] == m'[p] ensures o == p {
      assert At(t, m[o]).Some? && At(t, m[p]).Some?;
      assert m[o] == m[p];
    }
  }

  lemma PourHolds(m: Trace, s: Store, t: Store, x: Id, to: Id)
    requires Holds(m, s, t) && Has(t, x) && to in t && to != x
    ensures Holds(Poured(m, x, to), s, PourInto(t, x, to))
  {
    PourKept(m, s, t, x, to);
    PourNoOthers(m, s, t, x, to);
    hide Has, Kept, NoOthers, PourInto, Poured;
    forall o, p | o in Poured(m, x, to) && p in Poured(m, x, to) && Poured(m, x, to)[o] == Poured(m, x, to)[p]
      ensures o == p
    {
      PouredOnce(m, x, to, o, p);
    }
  }

  lemma PourKept(m: Trace, s: Store, t: Store, x: Id, to: Id)
    requires Holds(m, s, t) && Has(t, x) && to in t && to != x
    ensures Kept(Poured(m, x, to), s, PourInto(t, x, to))
  {
    hide Has, PourInto, At, PouredAt, Poured, Holds;
    var m', t' := Poured(m, x, to), PourInto(t, x, to);
    forall o | o in m' ensures At(s, o).Some? && At(t', m'[o]) == At(s, o) {
      PouredKeeps(m, s, t, x, to, o);
      PourAt(t, x, to, m'[o]);
    }
  }

  lemma PourNoOthers(m: Trace, s: Store, t: Store, x: Id, to: Id)
    requires Holds(m, s, t) && Has(t, x) && to in t && to != x
    ensures NoOthers(Poured(m, x, to), PourInto(t, x, to))
  {
    hide Has, PourInto, At, PouredAt, Poured, Kept, Apart, Holds;
    var m', t' := Poured(m, x, to), PourInto(t, x, to);
    forall at | At(t', at).Some? ensures at in m'.Values {
      PourAt(t, x, to, at);
      var o := PouredFrom(m, s, t, x, to, at);
    }
  }

  lemma CoveredIff(m: Trace, s: Store, t: Store, x: Id, at: Spot)
    requires Holds(m, s, t)
    ensures Covered(m, x, at) <==> at.file.Rekeyed? && At(t, Spot(x, at.file.file)).Some?
  {
    hide At;
  }

  lemma PouredKeeps(m: Trace, s: Store, t: Store, x: Id, to: Id, o: Spot)
    requires Holds(m, s, t) && to != x && o in Poured(m, x, to)
    ensures o in m && At(s, o).Some? && PouredAt(t, x, to, Poured(m, x, to)[o]) == At(s, o)
  {
    CoveredIff(m, s, t, x, m[o]);
    hide At, Covered, NoOthers, Apart;
    assert At(t, m[o]).Some?;
  }

  lemma PouredFrom(m: Trace, s: Store, t: Store, x: Id, to: Id, at: Spot) returns (o: Spot)
    requires Holds(m, s, t) && to != x && PouredAt(t, x, to, at).Some?
    ensures o in Poured(m, x, to) && Poured(m, x, to)[o] == at
  {
    CoveredIff(m, s, t, x, at);
    hide At, Covered;
    var poured := at.dir == to && at.file.Rekeyed? && At(t, Spot(x, at.file.file)).Some?;
    var from := if poured then Spot(x, at.file.file) else at;
    o :| o in m && m[o] == from;
  }

  lemma PouredOnce(m: Trace, x: Id, to: Id, o: Spot, p: Spot)
    requires Apart(m) && to != x && o in Poured(m, x, to) && p in Poured(m, x, to)
    requires Poured(m, x, to)[o] == Poured(m, x, to)[p]
    ensures o == p
  {
    assert m[o] == m[p];
  }

  // ---------- Over the whole pass ----------

  lemma {:induction false} RekeySnoc(lib: Lib, s: Store, today: string, order: seq<Id>, x: Id)
    ensures Rekey(lib, s, today, order + [x]) == RekeyOne(lib, Rekey(lib, s, today, order), today, x)
    decreases |order|
  {
    var all := order + [x];
    if order == [] {
      assert all[1..] == [];
    } else {
      assert all[0] == order[0] && all[1..] == order[1..] + [x];
      RekeySnoc(lib, RekeyOne(lib, s, today, order[0]), today, order[1..], x);
    }
  }

  /** The directories are the known ones, and records ahead in the pass have their cores. */
  ghost predicate Ahead(lib: Lib, s: Store, today: string, order: seq<Id>, t: Store) {
    t.Keys == Known(lib, s, today, order) && forall x :: x in s && x !in order ==> x in t && t[x].core == s[x].core
  }

  /** The step for record `x` from `t`, in terms of the store `s` before the pass. */
  lemma StepAs(lib: Lib, s: Store, today: string, front: seq<Id>, x: Id, t: Store)
    requires x in s && x !in front && Ahead(lib, s, today, front, t)
    ensures !Moves(lib, s, today, x) ==> RekeyOne(lib, t, today, x) == t
    ensures Moves(lib, s, today, x) ==>
              var to := NewId(lib, CoreOf(s, x), today);
              && to != x && Has(t, x) && (to in t <==> to in Known(lib, s, today, front))
              && RekeyOne(lib, t, today, x) == if to in t then PourInto(t, x, to) else MoveTo(t, x, to)
  {
    hide Known, NewId;
  }

  lemma StepKeys(t: Store, x: Id, to: Id)
    requires Has(t, x) && to != x
    ensures to in t ==> PourInto(t, x, to).Keys == t.Keys
    ensures to !in t ==> MoveTo(t, x, to).Keys == t.Keys + {to}
    ensures forall y :: y in t && y != x ==>
              && (to in t ==> PourInto(t, x, to)[y].core == t[y].core
                              && PourInto(t, x, to)[y].redirect == t[y].redirect)
              && (to !in t ==> MoveTo(t, x, to)[y] == t[y])
  {
  }

  lemma StepAhead(lib: Lib, s: Store, today: string, order: seq<Id>, t: Store)
    requires order != [] && Ahead(lib, s, today, order[..|order| - 1], t)
    requires order[|order| - 1] in s && order[|order| - 1] !in order[..|order| - 1]
    ensures Ahead(lib, s, today, order, RekeyOne(lib, t, today, order[|order| - 1]))
  {
    hide NewId, Moves, RekeyOne, PourInto, MoveTo;
    var front, x := order[..|order| - 1], order[|order| - 1];
    StepAs(lib, s, today, front, x, t);
    assert forall y :: y in order <==> y in front || y == x;
    if Moves(lib, s, today, x) { StepKeys(t, x, NewId(lib, CoreOf(s, x), today)); }
  }

  /** Whatever the records and collisions: the directories hold exactly the files traced, line for line. */
  lemma {:induction false} PassHolds(lib: Lib, s: Store, today: string, order: seq<Id>)
    requires Distinct(order) && forall x :: x in order ==> x in s
    ensures Holds(Carried(lib, s, today, order), s, Rekey(lib, s, today, order))
    ensures Ahead(lib, s, today, order, Rekey(lib, s, today, order))
    decreases |order|
  {
    if order == [] {
      NothingCarried(s);
    } else {
      var front, x := order[..|order| - 1], order[|order| - 1];
      assert order == front + [x];
      PassHolds(lib, s, today, front);
      RekeySnoc(lib, s, today, front, x);
      var t := Rekey(lib, s, today, front);
      StepAs(lib, s, today, front, x, t);
      StepAhead(lib, s, today, order, t);
      hide Holds, Ahead, Rekey, RekeyOne, Moves, NewId, Known, PourInto, MoveTo, Has;
      if Moves(lib, s, today, x) {
        var m, to := Carried(lib, s, today, front), NewId(lib, CoreOf(s, x), today);
        if to in t { PourHolds(m, s, t, x, to); } else { MoveHolds(m, s, t, x, to); }
      }
    }
  }

  lemma NothingCarried(s: Store)
    ensures Holds(Unmoved(s), s, s)
  {
    forall at | At(s, at).Some? ensures at in Unmoved(s).Values { assert Unmoved(s)[at] == at; }
  }

  // ---------- Which files are lost, and where the others are ----------

  lemma {:induction false} KnownIff(lib: Lib, s: Store, today: string, order: seq<Id>, d: Id)
    ensures d in Known(lib, s, today, order) <==>
              d in s || exists x :: x in order && Moves(lib, s, today, x) && NewId(lib, CoreOf(s, x), today) == d
    decreases |order|
  {
    hide Moves, NewId;
    if order != [] {
      var front, x := order[..|order| - 1], order[|order| - 1];
      KnownIff(lib, s, today, front, d);
      assert forall y :: y in order <==> y in front || y == x;
    }
  }

  /** A file is lost exactly when, at some record of the pass, a file of its name was poured over it. */
  lemma {:induction false} LostIff(lib: Lib, s: Store, today: string, order: seq<Id>, o: Spot)
    requires o in Files(s)
    ensures o !in Carried(lib, s, today, order) <==>
              exists k :: 0 <= k < |order| && PouredOver(lib, s, today, order, k, o)
    decreases |order|
  {
    hide Moves, NewId, Known;
    if order != [] {
      var front, x := order[..|order| - 1], order[|order| - 1];
      LostIff(lib, s, today, front, o);
      forall k | 0 <= k < |front|
        ensures PouredOver(lib, s, today, front, k, o) <==> PouredOver(lib, s, today, order, k, o)
      {
        assert front[..k] == order[..k] && front[k] == order[k];
      }
      assert order[..|front|] == front;
      assert PouredOver(lib, s, today, order, |front|, o) <==>
               o in Carried(lib, s, today, front) && o !in Carried(lib, s, today, order);
    }
  }

  /** The k-th record is re-keyed to the existing directory where the file is, and has one of its name. */
  ghost predicate PouredOver(lib: Lib, s: Store, today: string, order: seq<Id>, k: nat, o: Spot)
    requires k < |order|
  {
    var m, x := Carried(lib, s, today, order[..k]), order[k];
    && o in m && Moves(lib, s, today, x) && NewId(lib, CoreOf(s, x), today) == m[o].dir
    && m[o].dir in Known(lib, s, today, order[..k])
    && m[o].file.Rekeyed? && Spot(x, m[o].file.file) in m.Values
  }

  /** The records handled before `id`. */
  function Before(order: seq<Id>, id: Id): seq<Id>
    decreases |order|
  {
    if order == [] then []
    else
      var front := order[..|order| - 1];
      if id in front then Before(front, id) else front
  }

  /** Where a file goes that is moved once: with its record, marked as re-keyed if the new directory existed. */
  ghost function Landing(lib: Lib, s: Store, today: string, order: seq<Id>, o: Spot): Spot {
    if o.dir in order && Moves(lib, s, today, o.dir) then
      var to := NewId(lib, CoreOf(s, o.dir), today);
      Spot(to, if to in Known(lib, s, today, Before(order, o.dir)) then Rekeyed(o.file) else o.file)
    else o
  }

  /** After the file landed, the j-th record is re-keyed to its directory, which exists, with a file of its name. */
  ghost predicate NameTaken(lib: Lib, s: Store, today: string, order: seq<Id>, j: nat, o: Spot)
    requires j < |order|
  {
    var x, at := order[j], Landing(lib, s, today, order[..j], o);
    && (o.dir in order[..j] || !Moves(lib, s, today, o.dir))
    && Moves(lib, s, today, x) && NewId(lib, CoreOf(s, x), today) == at.dir
    && at.dir in Known(lib, s, today, order[..j]) && at.file.Rekeyed? && at.file.file in s[x].events
  }

  /** No record is re-keyed to a directory that is itself re-keyed. */
  ghost predicate NoChains(lib: Lib, s: Store, today: string) {
    forall x :: Moves(lib, s, today, x) ==> !Moves(lib, s, today, NewId(lib, CoreOf(s, x), today))
  }

  /**
   Where no record is re-keyed to a directory that is itself re-keyed: a file survives exactly unless a later record
   of its new directory brings the same file name, and then it is where its record went.
   */
  lemma {:induction false} SurvivesIff(lib: Lib, s: Store, today: string, order: seq<Id>)
    requires Distinct(order) && (forall x :: x in order ==> x in s) && NoChains(lib, s, today)
    ensures forall o :: o in Files(s) ==>
              (o in Carried(lib, s, today, order) <==>
                 !exists j :: 0 <= j < |order| && NameTaken(lib, s, today, order, j, o))
    ensures forall o :: o in Carried(lib, s, today, order) ==>
              o in Files(s) && Carried(lib, s, today, order)[o] == Landing(lib, s, today, order, o)
    decreases |order|
  {
    if order != [] {
      var front := order[..|order| - 1];
      SurvivesIff(lib, s, today, front);
      forall o | o in Files(s) ensures
        o in Carried(lib, s, today, order) <==> !exists j :: 0 <= j < |order| && NameTaken(lib, s, today, order, j, o)
      {
        TakenSnoc(lib, s, today, order, o);
        SurvivesStep(lib, s, today, order, o);
      }
      forall o | o in Carried(lib, s, today, order)
        ensures o in Files(s) && Carried(lib, s, today, order)[o] == Landing(lib, s, today, order, o)
      {
        SurvivesStep(lib, s, today, order, o);
      }
    }
  }

  lemma TakenSnoc(lib: Lib, s: Store, today: string, order: seq<Id>, o: Spot)
    requires order != []
    ensures var front := order[..|order| - 1];
            (exists j :: 0 <= j < |order| && NameTaken(lib, s, today, order, j, o)) <==>
              NameTaken(lib, s, today, order, |front|, o)
              || exists j :: 0 <= j < |front| && NameTaken(lib, s, today, front, j, o)
  {
    var front := order[..|order| - 1];
    forall j | 0 <= j < |front|
      ensures NameTaken(lib, s, today, front, j, o) <==> NameTaken(lib, s, today, order, j, o)
    {
      assert front[..j] == order[..j] && front[j] == order[j];
    }
  }

  lemma LandingSnoc(lib: Lib, s: Store, today: string, order: seq<Id>, o: Spot)
    requires order != [] && Distinct(order)
    ensures var front, x := order[..|order| - 1], order[|order| - 1];
            && (!Moves(lib, s, today, x) || o.dir != x ==>
                  Landing(lib, s, today, order, o) == Landing(lib, s, today, front, o))
            && (Moves(lib, s, today, x) && o.dir == x ==>
                  var to := NewId(lib, CoreOf(s, x), today);
                  && Landing(lib, s, today, front, o) == o
                  && Landing(lib, s, today, order, o)
                     == Spot(to, if to in Known(lib, s, today, front) then Rekeyed(o.file) else o.file))
  {
    hide NewId, Known;
    var front, x := order[..|order| - 1], order[|order| - 1];
    assert forall y :: y in order <==> y in front || y == x;
  }

  lemma CarriedSnoc(lib: Lib, s: Store, today: string, order: seq<Id>)
    requires order != []
    ensures var front, x := order[..|order| - 1], order[|order| - 1];
            var m := Carried(lib, s, today, front);
            && (!Moves(lib, s, today, x) ==> Carried(lib, s, today, order) == m)
            && (Moves(lib, s, today, x) ==>
                  var to := NewId(lib, CoreOf(s, x), today);
                  Carried(lib, s, today, order)
                  == if to in Known(lib, s, today, front) then Poured(m, x, to) else Moved(m, x, to))
  {
  }

  /** One more record of a pass without chains. */
  lemma SurvivesStep(lib: Lib, s: Store, today: string, order: seq<Id>, o: Spot)
    requires order != [] && Distinct(order) && NoChains(lib, s, today)
    requires var m := Carried(lib, s, today, order[..|order| - 1]);
             && (forall p :: p in m ==> p in Files(s) && m[p] == Landing(lib, s, today, order[..|order| - 1], p))
             && (forall p :: p in Files(s) && Moves(lib, s, today, p.dir) && p.dir !in order[..|order| - 1] ==> p in m)
    ensures var front, m := order[..|order| - 1], Carried(lib, s, today, order);
            && (o in m <==> o in Carried(lib, s, today, front) && !NameTaken(lib, s, today, order, |front|, o))
            && (o in m ==> o in Files(s) && m[o] == Landing(lib, s, today, order, o))
  {
    var front, x := order[..|order| - 1], order[|order| - 1];
    LandingSnoc(lib, s, today, order, o);
    CarriedSnoc(lib, s, today, order);
    hide NewId, Known, Carried, Distinct;
    var m := Carried(lib, s, today, front);
    assert order[..|front|] == front && order[|front|] == x;
    if Moves(lib, s, today, x) {
      assert forall p :: p in m && p.dir == x ==> m[p] == p;
      assert forall f :: Spot(x, f) in Files(s) ==> Spot(x, f) in m;
      assert forall f :: Spot(x, f) in m.Values <==> f in s[x].events;
      assert forall p :: p in m && m[p].dir == x ==> p.dir == x;
      hide NoChains, Files;
      MovedOne(m, x, NewId(lib, CoreOf(s, x), today), o);
      hide Poured, Moved;
      if o in m { assert m[o] == Landing(lib, s, today, front, o); }
    } else {
      hide NoChains, Files, Poured, Moved;
    }
  }

  lemma MovedOne(m: Trace, x: Id, to: Id, o: Spot)
    ensures o in Moved(m, x, to) <==> o in m
    ensures o in m ==> Moved(m, x, to)[o] == if m[o].dir == x then Spot(to, m[o].file) else m[o]
    ensures o in Poured(m, x, to) <==>
              o in m && !(m[o].dir == to && m[o].file.Rekeyed? && Spot(x, m[o].file.file) in m.Values)
    ensures o in Poured(m, x, to) ==>
              Poured(m, x, to)[o] == if m[o].dir == x then Spot(to, Rekeyed(m[o].file)) else m[o]
  {
  }

  /** Some later record of its new directory brings a file of the same name. */
  ghost predicate Overwritten(lib: Lib, s: Store, today: string, order: seq<Id>, o: Spot) {
    exists j :: 0 <= j < |order| && NameTaken(lib, s, today, order, j, o)
  }

  /**
   No event is lost by a pass without chains, unless a later record brings a file of the same name to the same
   directory: a record that stays keeps its files, one re-keyed to a directory that exists, or was made earlier in
   the pass, has them there marked as re-keyed, and any other has them in its new directory under their names.
   */
  lemma EventsFollowTheirRecord(lib: Lib, s: Store, today: string, order: seq<Id>, id: Id, f: FileName)
    requires Lists(order, s) && NoChains(lib, s, today) && id in s && f in s[id].events
    requires !Overwritten(lib, s, today, order, Spot(id, f))
    ensures var t := Rekey(lib, s, today, order);
            if !Moves(lib, s, today, id) then id in t && Lookup(t[id].events, f) == Some(s[id].events[f])
            else
              var to := NewId(lib, CoreOf(s, id), today);
              var met := to in s || exists x ::
                x in Before(order, id) && Moves(lib, s, today, x) && NewId(lib, CoreOf(s, x), today) == to;
              && to in t
              && Lookup(t[to].events, if met then Rekeyed(f) else f) == Some(s[id].events[f])
  {
    PassHolds(lib, s, today, order);
    SurvivesIff(lib, s, today, order);
    var o, t := Spot(id, f), Rekey(lib, s, today, order);
    assert At(t, Landing(lib, s, today, order, o)) == At(s, o);
    if Moves(lib, s, today, id) { KnownIff(lib, s, today, Before(order, id), NewId(lib, CoreOf(s, id), today)); }
  }

  /** What the step of a record leaves of it. */
  ghost predicate Followed(s: Store, id: Id, to: Id, met: bool, t: Store)
    requires Has(s, id)
  {
    && id in t && t[id].redirect == Some(to) && to in t && t[id].core == (if met then s[id].core else None)
    && (!met ==> t[to].core == Some(CoreOf(s, id).(id := to)))
  }

  lemma StepFollows(s: Store, t: Store, x: Id, to: Id)
    requires Has(s, x) && Has(t, x) && t[x].core == s[x].core && to != x
    ensures to in t ==> Followed(s, x, to, true, PourInto(t, x, to))
    ensures to !in t ==> Followed(s, x, to, false, MoveTo(t, x, to))
  {
  }

  lemma FollowedStays(s: Store, id: Id, at: Id, met: bool, t: Store, x: Id, to: Id)
    requires Has(s, id) && Followed(s, id, at, met, t) && Has(t, x) && to != x && x != id && (!met ==> x != at)
    ensures to in t ==> Followed(s, id, at, met, PourInto(t, x, to))
    ensures to !in t ==> Followed(s, id, at, met, MoveTo(t, x, to))
  {
    StepKeys(t, x, to);
    hide PourInto, MoveTo;
  }

  /**
   What the pass leaves of a re-keyed record: a redirect to its new id; its core stays where it was if the new
   directory existed, and else is found there under the new id.
   */
  lemma {:induction false} RecordFollows(lib: Lib, s: Store, today: string, order: seq<Id>, id: Id)
    requires Distinct(order) && (forall x :: x in order ==> x in s) && id in order && Moves(lib, s, today, id)
    ensures var t, to := Rekey(lib, s, today, order), NewId(lib, CoreOf(s, id), today);
            var met := to in Known(lib, s, today, Before(order, id));
            && id in t && t[id].redirect == Some(to) && to in t
            && (met ==> t[id].core == s[id].core)
            && (!met ==> t[id].core == None && t[to].core == Some(CoreOf(s, id).(id := to)))
  {
    RecordFollowed(lib, s, today, order, id);
    hide Rekey, Known, NewId, Moves;
  }

  lemma {:induction false} RecordFollowed(lib: Lib, s: Store, today: string, order: seq<Id>, id: Id)
    requires Distinct(order) && (forall x :: x in order ==> x in s) && id in order && Moves(lib, s, today, id)
    ensures var to := NewId(lib, CoreOf(s, id), today);
            Followed(s, id, to, to in Known(lib, s, today, Before(order, id)), Rekey(lib, s, today, order))
    decreases |order|
  {
    hide Rekey, RekeyOne, NewId, Holds, Carried, PourInto, MoveTo, Followed;
    var front, x := order[..|order| - 1], order[|order| - 1];
    var t, at := Rekey(lib, s, today, front), NewId(lib, CoreOf(s, id), today);
    assert order == front + [x];
    assert forall y :: y in order <==> y in front || y == x;
    PassHolds(lib, s, today, front);
    RekeySnoc(lib, s, today, front, x);
    StepAs(lib, s, today, front, x, t);
    if id in front {
      RecordFollowed(lib, s, today, front, id);
      KnownFromStart(lib, s, today, Before(order, id));
      if Moves(lib, s, today, x) {
        FollowedStays(s, id, at, at in Known(lib, s, today, Before(order, id)), t, x, NewId(lib, CoreOf(s, x), today));
      }
    } else {
      StepFollows(s, t, x, at);
    }
  }

  lemma KnownFromStart(lib: Lib, s: Store, today: string, order: seq<Id>)
    ensures s.Keys <= Known(lib, s, today, order)
  {
    forall d | d in s ensures d in Known(lib, s, today, order) { KnownIff(lib, s, today, order, d); }
  }
}
