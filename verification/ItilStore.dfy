/** The incident store on disk, and how records of one outage are recognised. */
module ItilStore {
  import opened Wrappers
  import opened Text

  type Id = string
  type Line = string

  /** Names of event files; the prefixes and suffixes the migration adds are kept apart from the rest. */
  datatype FileName =
    | Plain(name: string)
    | From(file: FileName, dup: Id)
    | MergedNote(dup: Id)
    | Rekeyed(file: FileName)

  datatype Core = Core(
    id: Id, title: string, services: seq<string>, detectedAt: string,
    autoDetected: bool, dedupKey: string)

  /** A record directory: core.json, events/ and redirect.json. */
  datatype Dir = Dir(core: Option<Core>, events: map<FileName, seq<Line>>, redirect: Option<Id>)

  type Store = map<Id, Dir>

  /** The parts of the ITIL package the migration calls: slugs, deterministic ids, and the day of a timestamp. */
  datatype Lib = Lib(
    slug: string -> string,
    autoId: (string, string, string) -> Id,
    dayOf: string -> Option<string>,
    noteLine: (Id, Id, string) -> Line)

  predicate Has(s: Store, id: Id) {
    id in s && s[id].core.Some?
  }

  function CoreOf(s: Store, id: Id): Core
    requires Has(s, id)
  {
    s[id].core.value
  }

  // ---------- Clusters ----------

  type Key = (multiset<string>, string)

  /** Sorted service lists are equal exactly when the multisets are. */
  function KeyOf(lib: Lib, core: Core): Key {
    (multiset(core.services), lib.slug(core.title))
  }

  predicate Same(lib: Lib, s: Store, a: Id, b: Id) {
    Has(s, a) && Has(s, b) && KeyOf(lib, CoreOf(s, a)) == KeyOf(lib, CoreOf(s, b))
  }

  /** The order (detected_at, id) that picks a cluster's canonical record. */
  predicate Older(s: Store, a: Id, b: Id)
    requires Has(s, a) && Has(s, b)
  {
    var x, y := CoreOf(s, a).detectedAt, CoreOf(s, b).detectedAt;
    LexLess(x, y) || (x == y && LexLess(a, b))
  }

  lemma OlderIsTotal(s: Store, a: Id, b: Id)
    requires Has(s, a) && Has(s, b)
    ensures Older(s, a, b) || a == b || Older(s, b, a)
    ensures !(Older(s, a, b) && Older(s, b, a)) && !Older(s, a, a)
  {
    LexTotal(CoreOf(s, a).detectedAt, CoreOf(s, b).detectedAt);
    LexTotal(a, b);
  }

  lemma OlderIsTransitive(s: Store, a: Id, b: Id, c: Id)
    requires Has(s, a) && Has(s, b) && Has(s, c) && Older(s, a, b) && Older(s, b, c)
    ensures Older(s, a, c)
  {
    var x, y, z := CoreOf(s, a).detectedAt, CoreOf(s, b).detectedAt, CoreOf(s, c).detectedAt;
    if LexLess(x, y) && LexLess(y, z) { LexTransitive(x, y, z); }
    if LexLess(a, b) && LexLess(b, c) { LexTransitive(a, b, c); }
  }

  /** `m` is the oldest record of the cluster of `id`. */
  ghost predicate Oldest(lib: Lib, s: Store, id: Id, m: Id) {
    Same(lib, s, id, m) && forall x :: Same(lib, s, id, x) && x != m ==> Older(s, m, x)
  }

  lemma OldestIsUnique(lib: Lib, s: Store, a: Id, b: Id, m: Id, n: Id)
    requires Same(lib, s, a, b) && Oldest(lib, s, a, m) && Oldest(lib, s, b, n)
    ensures m == n
  {
    if m != n {
      assert Same(lib, s, a, n) && Same(lib, s, b, m);
      OlderIsTotal(s, m, n);
    }
  }

  /** `min(ids, key=(detected_at, id))`, whatever the order the ids are met in. */
  method OldestOf(s: Store, ids: set<Id>) returns (m: Id)
    requires ids != {} && forall x :: x in ids ==> Has(s, x)
    ensures m in ids && forall x :: x in ids && x != m ==> Older(s, m, x)
  {
    m :| m in ids;
    var rest := ids - {m};
    while rest != {}
      invariant rest <= ids && m in ids - rest
      invariant forall x :: x in ids - rest && x != m ==> Older(s, m, x)
    {
      var x :| x in rest;
      OlderIsTotal(s, m, x);
      if Older(s, x, m) {
        forall y | y in ids - rest && y != m ensures Older(s, x, y) {
          OlderIsTransitive(s, x, m, y);
        }
        m := x;
      }
      rest := rest - {x};
    }
  }

  ghost function Cluster(lib: Lib, s: Store, id: Id): set<Id> {
    set x | x in s && Same(lib, s, id, x)
  }

  lemma OldestExists(lib: Lib, s: Store, id: Id)
    requires Has(s, id)
    ensures exists m :: Oldest(lib, s, id, m)
  {
    assert id in Cluster(lib, s, id);
    var m := LeastOf(s, Cluster(lib, s, id));
    assert Oldest(lib, s, id, m);
  }

  lemma {:induction false} LeastOf(s: Store, ids: set<Id>) returns (m: Id)
    requires ids != {} && forall x :: x in ids ==> Has(s, x)
    ensures m in ids && forall x :: x in ids && x != m ==> Older(s, m, x)
  {
    m :| m in ids;
    assert forall x :: x in ids ==> x == m || x in ids - {m};
    if ids - {m} != {} {
      var n := LeastOf(s, ids - {m});
      OlderIsTotal(s, m, n);
      if Older(s, n, m) {
        m := n;
      } else {
        forall x | x in ids && x != m ensures Older(s, m, x) {
          if x != n { OlderIsTransitive(s, m, n, x); }
        }
      }
    }
  }

  /** The canonical record of a cluster. */
  ghost function Canon(lib: Lib, s: Store, id: Id): (m: Id)
    requires Has(s, id)
    ensures Oldest(lib, s, id, m)
  {
    OldestExists(lib, s, id);
    var m :| Oldest(lib, s, id, m);
    m
  }

  lemma CanonOfSame(lib: Lib, s: Store, a: Id, b: Id)
    requires Same(lib, s, a, b)
    ensures Canon(lib, s, a) == Canon(lib, s, b)
  {
    OldestIsUnique(lib, s, a, b, Canon(lib, s, a), Canon(lib, s, b));
  }

  /** No two records of one cluster are left. */
  ghost predicate ClustersDistinct(lib: Lib, s: Store) {
    forall a, b :: Same(lib, s, a, b) ==> a == b
  }
}
