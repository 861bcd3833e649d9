/** Merge, then re-key, then look records up: what a second run changes and where events end up. */
module ItilFixpoint {
  import opened Wrappers
  import opened ItilStore
  import opened ItilMerge
  import opened ItilRekey

  // ---------- Clusters stay apart ----------

  lemma MergeSeparates(lib: Lib, s: Store, t: Store)
    requires Merged(lib, s, t)
    ensures ClustersDistinct(lib, t)
  {
    forall a, b | Same(lib, t, a, b) ensures a == b {
      assert DirMerged(lib, s, Duplicates(lib, s), a, t[a]) && DirMerged(lib, s, Duplicates(lib, s), b, t[b]);
      assert Same(lib, s, a, b);
      CanonOfSame(lib, s, a, b);
    }
  }

  lemma StepKeepsApart(lib: Lib, s: Store, today: string, id: Id)
    requires ClustersDistinct(lib, s)
    ensures ClustersDistinct(lib, RekeyOne(lib, s, today, id))
  {
    var t := RekeyOne(lib, s, today, id);
    forall a, b | Same(lib, t, a, b) ensures a == b {
      var to := if Moves(lib, s, today, id) then Target(lib, s, today, id) else id;
      var a' := if a in s && t[a].core == s[a].core then a else id;
      var b' := if b in s && t[b].core == s[b].core then b else id;
      assert Same(lib, s, a', b');
    }
  }

  lemma {:induction false} RekeyKeepsApart(lib: Lib, s: Store, today: string, order: seq<Id>)
    requires ClustersDistinct(lib, s)
    ensures ClustersDistinct(lib, Rekey(lib, s, today, order))
    decreases |order|
  {
    if order != [] {
      StepKeepsApart(lib, s, today, order[0]);
      RekeyKeepsApart(lib, RekeyOne(lib, s, today, order[0]), today, order[1..]);
    }
  }

  /** Where no two records share a cluster, a merge changes nothing. */
  lemma NothingToMerge(lib: Lib, s: Store, t: Store)
    requires ClustersDistinct(lib, s) && Merged(lib, s, t)
    ensures Duplicates(lib, s) == {} && t == s
  {
    forall d ensures !Duplicate(lib, s, d) {
      if Has(s, d) { assert Same(lib, s, d, Canon(lib, s, d)); }
    }
    forall id | id in s ensures t[id] == s[id] {
      assert DirMerged(lib, s, {}, id, t[id]);
      forall f ensures Lookup(t[id].events, f) == Lookup(s[id].events, f) {
        assert FoldedAt(lib, s, {}, id, f).None?;
      }
      LookupsEqual(t[id].events, s[id].events);
    }
  }

  // ---------- The second run ----------

  /**
   After a merge (to `merged`) and a re-key pass (to `done`), a second merge finds no duplicate and
   changes nothing.  When every auto-detected record is dated, a second re-key pass on any later day
   reports nothing if and only if the first one met no collision; then it changes nothing either.
   */
  lemma MigrationIsFixpoint(lib: Lib, s: Store, merged: Store, today: string, order: seq<Id>,
                            again: Store, later: string, order2: seq<Id>)
    requires Merged(lib, s, merged) && Lists(order, merged)
    requires Merged(lib, Rekey(lib, merged, today, order), again) && Lists(order2, again)
    ensures var done := Rekey(lib, merged, today, order);
            && Duplicates(lib, done) == {} && again == done
            && (Dated(lib, s) ==>
                  && (Reported(lib, again, later, order2) == map[] <==> NoCollision(lib, merged, today))
                  && (NoCollision(lib, merged, today) ==> Rekey(lib, again, later, order2) == done))
  {
    var done := Rekey(lib, merged, today, order);
    MergeSeparates(lib, s, merged);
    RekeyKeepsApart(lib, merged, today, order);
    NothingToMerge(lib, done, again);
    if Dated(lib, s) {
      MergeKeepsDated(lib, s, merged);
      SecondPassQuietIff(lib, merged, today, order, later, order2);
    }
  }

  /** The cores a merge leaves are cores it found. */
  lemma MergeKeepsDated(lib: Lib, s: Store, t: Store)
    requires Merged(lib, s, t) && Dated(lib, s)
    ensures Dated(lib, t)
  {
    forall id | Has(t, id) ensures Has(s, id) && CoreOf(t, id) == CoreOf(s, id) {
      assert DirMerged(lib, s, Duplicates(lib, s), id, t[id]);
    }
  }

  // ---------- No event is lost ----------

  /**
   The directory of the canonical record of `id` holds all events of `id`: those of another record under their
   from-name, and its own unless a duplicate of the cluster brings different lines under the same name.
   */
  lemma CanonicalHoldsEvents(lib: Lib, s: Store, t: Store, id: Id, f: FileName)
    requires Merged(lib, s, t) && Has(s, id) && f in s[id].events
    ensures var c, brought := Canon(lib, s, id), FoldedAt(lib, s, Duplicates(lib, s), id, f);
            && Has(t, c) && CoreOf(t, c) == CoreOf(s, c)
            && (id == c ==> (Lookup(t[c].events, f) == Some(s[id].events[f])
                             <==> brought.None? || brought == Some(s[id].events[f])))
            && (id != c ==> Lookup(t[c].events, From(f, id)) == Some(NonBlank(s[id].events[f])))
  {
    var c := Canon(lib, s, id);
    CanonOfCanon(lib, s, id);
    assert DirMerged(lib, s, Duplicates(lib, s), c, t[c]);
    if id != c {
      assert FoldsInto(lib, s, Duplicates(lib, s), id, c);
      assert FoldedAt(lib, s, Duplicates(lib, s), c, From(f, id)).Some?;
    } else {
      var brought := FoldedAt(lib, s, Duplicates(lib, s), id, f);
      assert Lookup(t[c].events, f) == if brought.Some? then brought else Lookup(s[c].events, f);
    }
  }

  // ---------- Looking records up ----------

  /** Follow redirects until a core, a dead end, or an id seen before. */
  function Resolve(s: Store, cur: Id, seen: set<Id>): Id
    requires seen <= s.Keys
    decreases s.Keys - seen
  {
    if cur in seen || cur !in s || s[cur].core.Some? || s[cur].redirect.None? then cur
    else Resolve(s, s[cur].redirect.value, seen + {cur})
  }

  method ResolveRedirect(s: Store, id: Id) returns (r: Id)
    ensures r == Resolve(s, id, {})
    ensures Has(s, r) || r !in s || s[r].core.None?
  {
    var seen: set<Id> := {};
    r := id;
    while r !in seen
      invariant seen <= s.Keys && Resolve(s, r, seen) == Resolve(s, id, {})
      decreases s.Keys - seen
    {
      if r !in s || s[r].core.Some? || s[r].redirect.None? {
        return;
      }
      seen, r := seen + {r}, s[r].redirect.value;
    }
  }

  /** Redirects in two steps, as a merge followed by a re-key leaves them. */
  lemma ResolveTwo(s: Store, a: Id, b: Id, c: Id)
    requires a in s && s[a].core.None? && s[a].redirect == Some(b)
    requires b in s && s[b].core.None? && s[b].redirect == Some(c) && a != b && Has(s, c)
    ensures Resolve(s, a, {}) == c
  {
    assert {} + {a} == {a};
    assert Resolve(s, a, {}) == Resolve(s, b, {a});
    assert Resolve(s, b, {a}) == Resolve(s, c, {a} + {b});
    assert Resolve(s, c, {a} + {b}) == c;
  }

  lemma ResolveOne(s: Store, a: Id, c: Id)
    requires a in s && s[a].core.None? && s[a].redirect == Some(c) && Has(s, c)
    ensures Resolve(s, a, {}) == c
  {
  }

  /** Where the record `id` ends up after merge and re-key. */
  ghost function Home(lib: Lib, s: Store, merged: Store, today: string, id: Id): Id
    requires Has(s, id)
  {
    var c := Canon(lib, s, id);
    if Moves(lib, merged, today, c) then Target(lib, merged, today, c) else c
  }

  /**
   After merge and a re-key pass without collision, looking any original record up leads to a record
   of its cluster that holds the canonical record's merged events.
   */
  lemma EveryRecordResolves(lib: Lib, s: Store, merged: Store, today: string, order: seq<Id>, id: Id)
    requires Merged(lib, s, merged) && Lists(order, merged) && NoCollision(lib, merged, today) && Has(s, id)
    ensures var done, c := Rekey(lib, merged, today, order), Canon(lib, s, id);
            var home := Home(lib, s, merged, today, id);
            && Resolve(done, id, {}) == home && Has(done, home)
            && KeyOf(lib, CoreOf(done, home)) == KeyOf(lib, CoreOf(s, id))
            && done[home].events == merged[c].events
  {
    var done, c := Rekey(lib, merged, today, order), Canon(lib, s, id);
    CanonOfCanon(lib, s, id);
    var dups := Duplicates(lib, s);
    assert DirMerged(lib, s, dups, c, merged[c]) && DirMerged(lib, s, dups, id, merged[id]);
    CleanIffNoCollision(lib, merged, today, order);
    CleanMoves(lib, merged, today, order, c);
    var home := Home(lib, s, merged, today, id);
    if id != c {
      assert id in dups && merged[id].redirect == Some(c);
      RedirectStays(lib, merged, today, order, id);
      if home == c { ResolveOne(done, id, c); } else { ResolveTwo(done, id, c, home); }
    } else if home != c {
      ResolveOne(done, c, home);
    }
  }

  /** A directory without a core is not touched by a clean pass. */
  lemma {:induction false} RedirectStays(lib: Lib, s: Store, today: string, order: seq<Id>, id: Id)
    requires Clean(lib, s, today, order) && id in s && s[id].core.None?
    ensures id in Rekey(lib, s, today, order) && Rekey(lib, s, today, order)[id] == s[id]
    decreases |order|
  {
    if order != [] {
      RedirectStays(lib, RekeyOne(lib, s, today, order[0]), today, order[1..], id);
    }
  }

  // ---------- Any pass, collisions included ----------

  /** A directory the pass does not visit, or finds without a core, keeps its core and redirect. */
  lemma {:induction false} OffThePass(lib: Lib, s: Store, today: string, order: seq<Id>, id: Id)
    requires id in s && (id !in order || s[id].core.None?)
    ensures var t := Rekey(lib, s, today, order);
            id in t && t[id].core == s[id].core && t[id].redirect == s[id].redirect
    decreases |order|
  {
    if order != [] {
      assert order[0] in order;
      OffThePass(lib, RekeyOne(lib, s, today, order[0]), today, order[1..], id);
    }
  }

  /** A record's core is where it was, or under its target with a redirect left behind. */
  ghost predicate CoreKept(lib: Lib, s: Store, today: string, id: Id, t: Store)
    requires Has(s, id)
  {
    var to := Target(lib, s, today, id);
    || (Has(t, id) && CoreOf(t, id) == CoreOf(s, id))
    || (id in t && t[id].core.None? && t[id].redirect == Some(to) && Has(t, to)
        && CoreOf(t, to) == CoreOf(s, id).(id := to))
  }

  lemma {:induction false} PassKeepsCore(lib: Lib, s: Store, today: string, order: seq<Id>, id: Id)
    requires Distinct(order) && Has(s, id) && forall x :: x in order ==> x in s
    ensures CoreKept(lib, s, today, id, Rekey(lib, s, today, order))
    decreases |order|
  {
    if order != [] {
      RestDistinct(order);
      var first, rest := order[0], order[1..];
      var t := RekeyOne(lib, s, today, first);
      if first != id {
        StepFrame(lib, s, today, first, id);
        PassKeepsCore(lib, t, today, rest, id);
      } else {
        OffThePass(lib, t, today, rest, id);
        if Moves(lib, s, today, id) && Target(lib, s, today, id) !in s {
          OffThePass(lib, t, today, rest, Target(lib, s, today, id));
        }
      }
    }
  }

  /** After merge and any re-key pass, looking any original record up leads to a record of its cluster. */
  lemma EveryRecordFindsItsCluster(lib: Lib, s: Store, merged: Store, today: string, order: seq<Id>, id: Id)
    requires Merged(lib, s, merged) && Lists(order, merged) && Has(s, id)
    ensures var done := Rekey(lib, merged, today, order);
            var home := Resolve(done, id, {});
            Has(done, home) && KeyOf(lib, CoreOf(done, home)) == KeyOf(lib, CoreOf(s, id))
  {
    var done, c := Rekey(lib, merged, today, order), Canon(lib, s, id);
    CanonOfCanon(lib, s, id);
    var dups := Duplicates(lib, s);
    assert DirMerged(lib, s, dups, c, merged[c]) && DirMerged(lib, s, dups, id, merged[id]);
    PassKeepsCore(lib, merged, today, order, c);
    var to := Target(lib, merged, today, c);
    if id != c {
      assert id in dups && merged[id].redirect == Some(c);
      OffThePass(lib, merged, today, order, id);
      if Has(done, c) { ResolveOne(done, id, c); } else { ResolveTwo(done, id, c, to); }
    } else if !Has(done, c) {
      ResolveOne(done, c, to);
    }
  }
}
