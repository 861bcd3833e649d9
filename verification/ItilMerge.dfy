/** Merging duplicate incidents into the oldest record of their cluster. */
module ItilMerge {
  import opened Wrappers
  import opened Text
  import opened ItilStore

  function NonBlank(lines: seq<Line>): seq<Line> {
    if lines == [] then []
    else if Strip(lines[0]) != "" then [lines[0]] + NonBlank(lines[1..])
    else NonBlank(lines[1..])
  }

  function Lookup(events: map<FileName, seq<Line>>, f: FileName): Option<seq<Line>> {
    if f in events then Some(events[f]) else None
  }

  // ---------- What a merge leaves ----------

  /** The duplicates: records that are not the oldest of their cluster. */
  ghost predicate Duplicate(lib: Lib, s: Store, id: Id) {
    Has(s, id) && Canon(lib, s, id) != id
  }

  /** `d` is a merged duplicate of `id`. */
  ghost predicate FoldsInto(lib: Lib, s: Store, merged: set<Id>, d: Id, id: Id) {
    d in merged && Has(s, d) && Canon(lib, s, d) == id
  }

  /** The file `f` that merging the duplicates `merged` writes into record `id`, if any. */
  ghost function FoldedAt(lib: Lib, s: Store, merged: set<Id>, id: Id, f: FileName): Option<seq<Line>> {
    match f
    case From(g, d) =>
      if FoldsInto(lib, s, merged, d, id) && g in s[d].events then Some(NonBlank(s[d].events[g])) else None
    case MergedNote(d) =>
      if FoldsInto(lib, s, merged, d, id) then Some([lib.noteLine(id, d, CoreOf(s, d).detectedAt)]) else None
    case _ => None
  }

  ghost predicate EventsMerged(lib: Lib, s: Store, merged: set<Id>, id: Id, events: map<FileName, seq<Line>>)
    requires id in s
  {
    forall f {:trigger Lookup(events, f)} ::
      Lookup(events, f) == var w := FoldedAt(lib, s, merged, id, f); if w.Some? then w else Lookup(s[id].events, f)
  }

  /** The directory of `id` once the duplicates `merged` of store `s` have been merged. */
  ghost predicate DirMerged(lib: Lib, s: Store, merged: set<Id>, id: Id, dir: Dir)
    requires id in s && (id in merged ==> Duplicate(lib, s, id))
  {
    if id in merged then dir == Dir(None, s[id].events, Some(Canon(lib, s, id)))
    else dir.core == s[id].core && dir.redirect == s[id].redirect && EventsMerged(lib, s, merged, id, dir.events)
  }

  ghost predicate Merging(lib: Lib, s: Store, merged: set<Id>, t: Store) {
    && t.Keys == s.Keys
    && (forall d :: d in merged ==> Duplicate(lib, s, d))
    && (forall id :: id in s ==> DirMerged(lib, s, merged, id, t[id]))
  }

  ghost function Duplicates(lib: Lib, s: Store): set<Id> {
    set d | d in s && Duplicate(lib, s, d)
  }

  /** The result of a complete merge. */
  ghost predicate Merged(lib: Lib, s: Store, t: Store) {
    Merging(lib, s, Duplicates(lib, s), t)
  }

  lemma CanonOfCanon(lib: Lib, s: Store, id: Id)
    requires Has(s, id)
    ensures Has(s, Canon(lib, s, id)) && Canon(lib, s, Canon(lib, s, id)) == Canon(lib, s, id)
  {
    CanonOfSame(lib, s, id, Canon(lib, s, id));
  }

  // ---------- The code ----------

  class Incidents {
    const lib: Lib
    var store: Store

    constructor (lib: Lib, store: Store)
      ensures this.lib == lib && this.store == store
    {
      this.lib, this.store := lib, store;
    }

    /** Copy the duplicate's event files under the canonical record, under names of their own. */
    method CopyEvents(canon: Id, dup: Id)
      requires canon in store && dup in store && canon != dup
      modifies this
      ensures store.Keys == old(store).Keys
      ensures forall id :: id in store && id != canon ==> store[id] == old(store)[id]
      ensures store[canon].core == old(store)[canon].core && store[canon].redirect == old(store)[canon].redirect
      ensures forall f {:trigger Lookup(store[canon].events, f)} ::
                Lookup(store[canon].events, f) ==
                  if f.From? && f.dup == dup && f.file in old(store)[dup].events
                  then Some(NonBlank(old(store)[dup].events[f.file])) else Lookup(old(store)[canon].events, f)
    {
      var files := store[dup].events;
      var dir := store[canon];
      var todo := files.Keys;
      while todo != {}
        invariant todo <= files.Keys
        invariant dir.core == store[canon].core && dir.redirect == store[canon].redirect
        invariant forall f {:trigger Lookup(dir.events, f)} ::
                    Lookup(dir.events, f) ==
                      if f.From? && f.dup == dup && f.file in files && f.file !in todo
                      then Some(NonBlank(files[f.file])) else Lookup(store[canon].events, f)
      {
        var g :| g in todo;
        todo := todo - {g};
        ghost var events := dir.events;
        dir := dir.(events := dir.events[From(g, dup) := NonBlank(files[g])]);
        assert forall f :: f != From(g, dup) ==> Lookup(dir.events, f) == Lookup(events, f);
      }
      store := store[canon := dir];
    }

    /** Fold one duplicate into its canonical record, note it there, and leave a redirect. */
    method FoldDuplicate(canon: Id, dup: Id, ghost s: Store, ghost merged: set<Id>)
      requires Merging(lib, s, merged, store)
      requires Duplicate(lib, s, dup) && dup !in merged && canon == Canon(lib, s, dup)
      modifies this
      ensures Merging(lib, s, merged + {dup}, store)
    {
      ghost var before := store;
      BeforeFolding(lib, s, merged, dup, canon, store);
      hide Merging, EventsMerged, Canon, Duplicate, FoldedAt, NonBlank;
      CopyEvents(canon, dup);
      ghost var copied := store[canon].events;
      WriteNote(canon, dup, CoreOf(store, dup).detectedAt);
      NoteOneMore(lib, s, dup, canon, before[canon].events, copied, store[canon].events);
      FoldedOneMore(lib, s, merged, dup, canon, before[canon].events, store[canon].events);
      store := store[dup := Dir(None, store[dup].events, Some(canon))];
      MergingOneMore(lib, s, merged, dup, canon, before, store);
    }

    /** Write the merged_from note. */
    method WriteNote(canon: Id, dup: Id, detectedAt: string)
      requires canon in store
      modifies this
      ensures store == old(store)[canon := old(store)[canon].(events :=
                         old(store)[canon].events[MergedNote(dup) := [lib.noteLine(canon, dup, detectedAt)]])]
    {
      var dir := store[canon];
      store := store[canon := dir.(events := dir.events[MergedNote(dup) := [lib.noteLine(canon, dup, detectedAt)]])];
    }

    /** Fold every member of a cluster but its oldest, `canonical`, into the oldest. */
    method FoldDuplicates(canonical: Id, members: set<Id>, cores: Store, ghost merged: set<Id>)
      returns (redirects: map<Id, Id>)
      requires Merging(lib, cores, merged, store) && members !! merged
      requires forall d :: d in members ==> Duplicate(lib, cores, d) && Canon(lib, cores, d) == canonical
      modifies this
      ensures Merging(lib, cores, merged + members, store)
      ensures redirects.Keys == members && forall d :: d in members ==> redirects[d] == canonical
    {
      hide Merging, Canon, Duplicate;
      var dupes := members;
      ghost var folded := merged;
      redirects := map[];
      while dupes != {}
        invariant dupes <= members && folded == merged + (members - dupes)
        invariant Merging(lib, cores, folded, store)
        invariant redirects.Keys == members - dupes && forall d :: d in redirects ==> redirects[d] == canonical
      {
        var dup :| dup in dupes;
        FoldDuplicate(canonical, dup, cores, folded);
        redirects := redirects[dup := canonical];
        dupes, folded := dupes - {dup}, folded + {dup};
      }
      assert folded == merged + members;
    }

    /** Gather the clusters of all records and merge each. */
    method SemanticMerge() returns (redirects: map<Id, Id>)
      modifies this
      ensures Merged(lib, old(store), store)
      ensures RedirectsFor(lib, old(store), Duplicates(lib, old(store)), redirects)
    {
      hide Merging, Pending, RedirectsFor, WholeCluster, Canon, Duplicate, Duplicates;
      var cores := store;
      var todo := set id | id in cores && cores[id].core.Some?;
      ghost var merged: set<Id> := {};
      redirects := map[];
      UntouchedIsMerging(lib, cores);
      NothingMergedYet(lib, cores, todo);
      while todo != {}
        invariant Pending(lib, cores, todo, merged)
        invariant Merging(lib, cores, merged, store) && RedirectsFor(lib, cores, merged, redirects)
      {
        var x :| x in todo;
        var cluster := set y | y in todo && Same(lib, cores, x, y);
        PendingCluster(lib, cores, todo, merged, x);
        var canonical := OldestOf(cores, cluster);
        ClusterCanon(lib, cores, cluster, canonical);
        ClusterMembers(lib, cores, todo, merged, cluster, canonical);
        var more := FoldDuplicates(canonical, cluster - {canonical}, cores, merged);
        ghost var merged' := merged + (cluster - {canonical});
        PendingShrinks(lib, cores, todo, merged, cluster, canonical);
        RedirectsGrow(lib, cores, merged, redirects, more, canonical);
        redirects := redirects + more;
        todo, merged := todo - cluster, merged';
      }
      AllMerged(lib, cores, merged);
    }
  }

  ghost predicate RedirectsFor(lib: Lib, s: Store, merged: set<Id>, redirects: map<Id, Id>) {
    redirects.Keys == merged && forall d :: d in merged ==> Has(s, d) && redirects[d] == Canon(lib, s, d)
  }

  /** All members of one cluster. */
  ghost predicate WholeCluster(lib: Lib, s: Store, cluster: set<Id>) {
    && (forall x :: x in cluster ==> Has(s, x))
    && (forall x, y :: x in cluster && y in cluster ==> Same(lib, s, x, y))
    && (forall x, y :: x in cluster && Same(lib, s, x, y) ==> y in cluster)
  }

  /** `todo` is made of whole clusters, and `merged` is the duplicates outside it. */
  ghost predicate Pending(lib: Lib, s: Store, todo: set<Id>, merged: set<Id>) {
    && (forall x :: x in todo ==> Has(s, x))
    && (forall x, y :: x in todo && Same(lib, s, x, y) ==> y in todo)
    && (forall d :: d in merged <==> d !in todo && Duplicate(lib, s, d))
  }

  lemma NothingMergedYet(lib: Lib, s: Store, todo: set<Id>)
    requires forall x :: x in todo <==> Has(s, x)
    ensures Pending(lib, s, todo, {}) && RedirectsFor(lib, s, {}, map[])
  {
  }

  lemma ClusterMembers(lib: Lib, s: Store, todo: set<Id>, merged: set<Id>, cluster: set<Id>, canonical: Id)
    requires Pending(lib, s, todo, merged) && WholeCluster(lib, s, cluster) && cluster <= todo
    requires forall x :: x in cluster ==> Canon(lib, s, x) == canonical
    ensures cluster !! merged && forall x :: x in cluster ==> Has(s, x)
    ensures forall d :: d in cluster - {canonical} ==> Duplicate(lib, s, d)
  {
  }

  lemma RedirectsGrow(lib: Lib, s: Store, merged: set<Id>, redirects: map<Id, Id>, more: map<Id, Id>, canonical: Id)
    requires RedirectsFor(lib, s, merged, redirects)
    requires forall d :: d in more ==> Has(s, d) && Canon(lib, s, d) == canonical && more[d] == canonical
    ensures RedirectsFor(lib, s, merged + more.Keys, redirects + more)
  {
  }

  lemma AllMerged(lib: Lib, s: Store, merged: set<Id>)
    requires Pending(lib, s, {}, merged)
    ensures merged == Duplicates(lib, s)
  {
  }

  lemma PendingCluster(lib: Lib, s: Store, todo: set<Id>, merged: set<Id>, x: Id)
    requires Pending(lib, s, todo, merged) && x in todo
    ensures var cluster := set y | y in todo && Same(lib, s, x, y);
            WholeCluster(lib, s, cluster) && x in cluster && cluster <= todo
  {
  }

  lemma PendingShrinks(lib: Lib, s: Store, todo: set<Id>, merged: set<Id>, cluster: set<Id>, canonical: Id)
    requires Pending(lib, s, todo, merged) && WholeCluster(lib, s, cluster) && cluster <= todo && canonical in cluster
    requires forall x :: x in cluster ==> Has(s, x) && Canon(lib, s, x) == canonical
    ensures Pending(lib, s, todo - cluster, merged + (cluster - {canonical}))
  {
  }

  lemma UntouchedIsMerging(lib: Lib, s: Store)
    ensures Merging(lib, s, {}, s)
  {
  }

  /** The least of a whole cluster is the canonical record of each member. */
  lemma ClusterCanon(lib: Lib, s: Store, cluster: set<Id>, canonical: Id)
    requires WholeCluster(lib, s, cluster) && canonical in cluster
    requires forall x :: x in cluster && x != canonical ==> Older(s, canonical, x)
    ensures forall x :: x in cluster ==> Canon(lib, s, x) == canonical
  {
    forall x | x in cluster ensures Canon(lib, s, x) == canonical {
      assert Same(lib, s, x, x) && Oldest(lib, s, x, canonical);
      OldestIsUnique(lib, s, x, x, Canon(lib, s, x), canonical);
    }
  }

  lemma NoteOneMore(lib: Lib, s: Store, dup: Id, canon: Id, before: map<FileName, seq<Line>>,
                    copied: map<FileName, seq<Line>>, after: map<FileName, seq<Line>>)
    requires Has(s, dup) && after == copied[MergedNote(dup) := [lib.noteLine(canon, dup, CoreOf(s, dup).detectedAt)]]
    requires forall f {:trigger Lookup(copied, f)} :: Lookup(copied, f) ==
               if f.From? && f.dup == dup && f.file in s[dup].events then Some(NonBlank(s[dup].events[f.file]))
               else Lookup(before, f)
    ensures forall f {:trigger Lookup(after, f)} :: Lookup(after, f) ==
               if f == MergedNote(dup) then Some([lib.noteLine(canon, dup, CoreOf(s, dup).detectedAt)])
               else if f.From? && f.dup == dup && f.file in s[dup].events then Some(NonBlank(s[dup].events[f.file]))
               else Lookup(before, f)
  {
    assert forall f :: f != MergedNote(dup) ==> Lookup(after, f) == Lookup(copied, f);
  }

  lemma MergingOneMore(lib: Lib, s: Store, merged: set<Id>, dup: Id, canon: Id, before: Store, after: Store)
    requires Merging(lib, s, merged, before) && Duplicate(lib, s, dup) && dup !in merged
    requires canon == Canon(lib, s, dup) && canon in s && canon !in merged && after.Keys == s.Keys
    requires forall id :: id in s && id != dup && id != canon ==> after[id] == before[id]
    requires after[dup] == Dir(None, s[dup].events, Some(canon))
    requires after[canon].core == before[canon].core && after[canon].redirect == before[canon].redirect
    requires EventsMerged(lib, s, merged + {dup}, canon, after[canon].events)
    ensures Merging(lib, s, merged + {dup}, after)
  {
    forall id | id in s ensures DirMerged(lib, s, merged + {dup}, id, after[id]) {
      assert DirMerged(lib, s, merged, id, before[id]);
      if id != dup && id != canon && id !in merged { OthersFoldTheSame(lib, s, merged, dup, id, after[id].events); }
    }
  }

  /** Where an unmerged duplicate and its canonical record stand. */
  lemma BeforeFolding(lib: Lib, s: Store, merged: set<Id>, dup: Id, canon: Id, t: Store)
    requires Merging(lib, s, merged, t) && Duplicate(lib, s, dup) && dup !in merged && canon == Canon(lib, s, dup)
    ensures t.Keys == s.Keys && Has(s, dup) && canon in s && canon != dup && canon !in merged
    ensures t[dup].core == s[dup].core && t[dup].events == s[dup].events
    ensures EventsMerged(lib, s, merged, canon, t[canon].events)
  {
    CanonOfCanon(lib, s, dup);
    hide EventsMerged;
    assert DirMerged(lib, s, merged, dup, t[dup]) && DirMerged(lib, s, merged, canon, t[canon]);
    NothingFoldsIntoADuplicate(lib, s, merged, dup, t[dup].events);
  }

  lemma NothingFoldsIntoADuplicate(lib: Lib, s: Store, merged: set<Id>, dup: Id, events: map<FileName, seq<Line>>)
    requires Duplicate(lib, s, dup) && EventsMerged(lib, s, merged, dup, events)
    ensures events == s[dup].events
  {
    forall d ensures !FoldsInto(lib, s, merged, d, dup) {
      if Has(s, d) { CanonOfCanon(lib, s, d); }
    }
    forall f ensures Lookup(events, f) == Lookup(s[dup].events, f) {}
    LookupsEqual(events, s[dup].events);
  }

  lemma LookupsEqual(a: map<FileName, seq<Line>>, b: map<FileName, seq<Line>>)
    requires forall f {:trigger Lookup(a, f)} :: Lookup(a, f) == Lookup(b, f)
    ensures a == b
  {
    forall f ensures f in a <==> f in b { assert Lookup(a, f) == Lookup(b, f); }
    forall f | f in a ensures a[f] == b[f] { assert Lookup(a, f) == Lookup(b, f); }
  }

  lemma OthersFoldTheSame(lib: Lib, s: Store, merged: set<Id>, dup: Id, id: Id, events: map<FileName, seq<Line>>)
    requires id in s && Duplicate(lib, s, dup) && Canon(lib, s, dup) != id && EventsMerged(lib, s, merged, id, events)
    ensures EventsMerged(lib, s, merged + {dup}, id, events)
  {
  }

  /** The canonical record's events after one more duplicate. */
  lemma FoldedOneMore(lib: Lib, s: Store, merged: set<Id>, dup: Id, canon: Id,
                      before: map<FileName, seq<Line>>, after: map<FileName, seq<Line>>)
    requires Duplicate(lib, s, dup) && dup !in merged && canon == Canon(lib, s, dup)
    requires EventsMerged(lib, s, merged, canon, before)
    requires forall f {:trigger Lookup(after, f)} :: Lookup(after, f) ==
               if f == MergedNote(dup) then Some([lib.noteLine(canon, dup, CoreOf(s, dup).detectedAt)])
               else if f.From? && f.dup == dup && f.file in s[dup].events then Some(NonBlank(s[dup].events[f.file]))
               else Lookup(before, f)
    ensures EventsMerged(lib, s, merged + {dup}, canon, after)
  {
  }
}
