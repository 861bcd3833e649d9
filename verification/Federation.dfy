/** Last-writer-wins over the conflict copies that file synchronization leaves beside a shared file. */
module Federation {
  import opened Text

  // ---------- Names ----------

  predicate AllDigits(s: string) {
    forall ch :: ch in s ==> '0' <= ch <= '9'
  }

  predicate AllAlnum(s: string) {
    forall ch :: ch in s ==> '0' <= ch <= '9' || 'a' <= ch <= 'z'
  }

  const MARK := ".sync-conflict-"

  /** ".sync-conflict-", eight digits, "-", six digits, "-", letters and digits; case does not matter. */
  predicate IsSuffix(s: string) {
    var t := Lower(s);
    && |t| > |MARK| + 16 && MARK <= t
    && AllDigits(t[|MARK|..|MARK| + 8]) && t[|MARK| + 8] == '-'
    && AllDigits(t[|MARK| + 9..|MARK| + 15]) && t[|MARK| + 15] == '-'
    && AllAlnum(t[|MARK| + 16..])
  }

  /** The stem up to its last dot; a conflict suffix holds no dot but its first character. */
  function BeforeLastDot(stem: string): (r: string)
    ensures r <= stem
  {
    if stem == "" || stem[|stem| - 1] == '.' then stem[..if stem == "" then 0 else |stem| - 1]
    else BeforeLastDot(stem[..|stem| - 1])
  }

  predicate IsConflict(stem: string) {
    IsSuffix(stem[|BeforeLastDot(stem)|..])
  }

  function Canonical(stem: string): (r: string)
    ensures r <= stem && (IsConflict(stem) ==> |r| < |stem|)
  {
    BeforeLastDot(stem)
  }

  predicate Digit(ch: char) {
    '0' <= ch <= '9'
  }

  predicate LetterOrDigit(ch: char) {
    Digit(ch) || 'a' <= ch <= 'z' || 'A' <= ch <= 'Z'
  }

  /** A date, a time and a device name make a conflict copy of any name. */
  lemma ConflictNames(base: string, date: string, time: string, device: string)
    requires |date| == 8 && |time| == 6 && device != "" && forall ch :: ch in date + time ==> Digit(ch)
    requires forall ch :: ch in device ==> LetterOrDigit(ch)
    ensures var stem := base + (".sync-conflict-" + date + "-" + time + "-" + device);
            IsConflict(stem) && Canonical(stem) == base
  {
    var tail := "sync-conflict-" + date + "-" + time + "-" + device;
    forall ch | ch in tail ensures ch != '.' {
      assert ch in "sync-conflict-" || ch in date + time || ch == '-' || ch in device;
    }
    var stem := base + (".sync-conflict-" + date + "-" + time + "-" + device);
    assert stem == base + ("." + tail);
    LastDot(base, tail);
    assert stem[|base|..] == "." + tail;
    SuffixFrom(date, time, device);
  }

  lemma SuffixFrom(date: string, time: string, device: string)
    requires |date| == 8 && |time| == 6 && device != "" && forall ch :: ch in date + time ==> Digit(ch)
    requires forall ch :: ch in device ==> LetterOrDigit(ch)
    ensures IsSuffix(".sync-conflict-" + date + "-" + time + "-" + device)
  {
    var s := ".sync-conflict-" + date + "-" + time + "-" + device;
    hide Lower, AllDigits, AllAlnum, Digit, LetterOrDigit;
    assert s[..15] == MARK && s[15..23] == date && s[24..30] == time && s[31..] == device;
    LowerParts(s);
    LowerPrefix(s, 15);
    LowerMark();
    forall ch | ch in date ensures Digit(ch) { assert ch in date + time; }
    forall ch | ch in time ensures Digit(ch) { assert ch in date + time; }
  }

  /** Which parts a name has does not depend on its case. */
  lemma LowerParts(s: string)
    requires |s| > 31
    ensures var t := Lower(s);
            && (AllDigits(t[15..23]) <==> forall ch :: ch in s[15..23] ==> Digit(ch))
            && (AllDigits(t[24..30]) <==> forall ch :: ch in s[24..30] ==> Digit(ch))
            && (t[23] == '-' <==> s[23] == '-') && (t[30] == '-' <==> s[30] == '-')
            && (AllAlnum(t[31..]) <==>
                  forall ch :: ch in s[31..] ==> LetterOrDigit(ch))
  {
    DigitsLower(s, 15, 23);
    DigitsLower(s, 24, 30);
    AlnumLower(s, 31);
  }

  lemma DigitsLower(s: string, a: nat, b: nat)
    requires a <= b <= |s|
    ensures AllDigits(Lower(s)[a..b]) <==> forall ch :: ch in s[a..b] ==> Digit(ch)
  {
    var t := Lower(s);
    hide Lower;
    forall i | a <= i < b ensures t[i] == t[a..b][i - a] && s[i] == s[a..b][i - a] && (Digit(t[i]) <==> Digit(s[i])) {}
    if AllDigits(t[a..b]) {
      forall ch | ch in s[a..b] ensures Digit(ch) {
        var i :| 0 <= i < b - a && s[a..b][i] == ch;
        assert t[a..b][i] in t[a..b] && Digit(t[a + i]);
      }
    } else {
      var ch :| ch in t[a..b] && !Digit(ch);
      var i :| 0 <= i < b - a && t[a..b][i] == ch;
      assert s[a..b][i] in s[a..b] && !Digit(s[a + i]);
    }
  }

  lemma AlnumLower(s: string, a: nat)
    requires a <= |s|
    ensures AllAlnum(Lower(s)[a..]) <==> forall ch :: ch in s[a..] ==> LetterOrDigit(ch)
  {
    var t := Lower(s);
    hide Lower;
    forall i | a <= i < |s| ensures t[i] == t[a..][i - a] && s[i] == s[a..][i - a]
      && (Digit(t[i]) || 'a' <= t[i] <= 'z' <==> LetterOrDigit(s[i])) {}
    if AllAlnum(t[a..]) {
      forall ch | ch in s[a..] ensures LetterOrDigit(ch) {
        var i :| 0 <= i < |s| - a && s[a..][i] == ch;
        assert t[a..][i] in t[a..];
      }
    } else {
      var ch :| ch in t[a..] && !(Digit(ch) || 'a' <= ch <= 'z');
      var i :| 0 <= i < |s| - a && t[a..][i] == ch;
      assert s[a..][i] in s[a..] && !LetterOrDigit(s[a + i]);
    }
  }

  lemma {:induction false} LastDot(base: string, tail: string)
    requires '.' !in tail
    ensures BeforeLastDot(base + ("." + tail)) == base
  {
    var stem := base + ("." + tail);
    if tail == "" {
      assert stem[..|stem| - 1] == base;
    } else {
      assert stem[..|stem| - 1] == base + ("." + tail[..|tail| - 1]);
      assert tail[|tail| - 1] in tail;
      LastDot(base, tail[..|tail| - 1]);
    }
  }

  /** And a conflict copy has such a name, in upper or lower case. */
  lemma ConflictNamed(stem: string) returns (mark: string, date: string, time: string, device: string)
    requires IsConflict(stem)
    ensures stem == Canonical(stem) + (mark + date + "-" + time + "-" + device) && Lower(mark) == ".sync-conflict-"
    ensures |date| == 8 && |time| == 6 && device != "" && forall ch :: ch in date + time ==> Digit(ch)
    ensures forall ch :: ch in device ==> LetterOrDigit(ch)
  {
    hide IsSuffix, BeforeLastDot, Lower;
    var s := stem[|BeforeLastDot(stem)|..];
    assert stem == BeforeLastDot(stem) + s;
    mark, date, time, device := SuffixParts(s);
  }

  lemma SuffixParts(s: string) returns (mark: string, date: string, time: string, device: string)
    requires IsSuffix(s)
    ensures s == mark + date + "-" + time + "-" + device && Lower(mark) == ".sync-conflict-"
    ensures |date| == 8 && |time| == 6 && device != "" && forall ch :: ch in date + time ==> Digit(ch)
    ensures forall ch :: ch in device ==> LetterOrDigit(ch)
  {
    LowerParts(s);
    LowerPrefix(s, 15);
    hide Lower, AllDigits, AllAlnum, Digit, LetterOrDigit;
    mark, date, time, device := s[..15], s[15..23], s[24..30], s[31..];
    forall ch | ch in date + time ensures Digit(ch) { assert ch in date || ch in time; }
    SevenPieces(s);
  }

  lemma {:induction false} LowerPrefix(s: string, n: nat)
    requires n <= |s|
    ensures Lower(s[..n]) == Lower(s)[..n]
  {
    if n > 0 {
      assert s[..n][1..] == s[1..][..n - 1];
      LowerPrefix(s[1..], n - 1);
    }
  }

  lemma LowerMark()
    ensures Lower(".sync-conflict-") == ".sync-conflict-"
  {
    hide Lower;
    NothingToLower(".sync-conflict-");
  }

  lemma {:induction false} NothingToLower(s: string)
    requires forall i :: 0 <= i < |s| ==> !('A' <= s[i] <= 'Z')
    ensures Lower(s) == s
  {
    if s != "" { NothingToLower(s[1..]); }
  }

  lemma SevenPieces(s: string)
    requires |s| > 31 && s[23] == '-' && s[30] == '-'
    ensures s == s[..15] + s[15..23] + "-" + s[24..30] + "-" + s[31..]
  {
  }

  // ---------- The directory ----------

  datatype File = File(mtime: int, content: string)

  type Dir = map<string, File>

  /** What one event for `stem` makes of the directory. */
  function Handled(d: Dir, stem: string): Dir {
    if stem !in d || !IsConflict(stem) then d
    else
      var c, rest := Canonical(stem), d - {stem};
      if c !in d || d[stem].mtime > d[c].mtime then rest[c := d[stem]] else rest
  }

  function Run(d: Dir, events: seq<string>): Dir
    decreases |events|
  {
    if events == [] then d else Run(Handled(d, events[0]), events[1..])
  }

  class FederationWatcher {
    var dir: Dir

    constructor (dir: Dir)
      ensures this.dir == dir
    {
      this.dir := dir;
    }

    /** `_handle_change`. */
    method HandleChange(stem: string)
      modifies this`dir
      ensures dir == Handled(old(dir), stem)
    {
      if stem !in dir {
        return;
      }
      if IsConflict(stem) {
        ResolveConflict(stem);
      }
    }

    method ResolveConflict(stem: string)
      requires stem in dir && IsConflict(stem)
      modifies this`dir
      ensures dir == Handled(old(dir), stem)
    {
      var c := Canonical(stem);
      if c !in dir {
        Rename(stem, c);
        return;
      }
      if dir[stem].mtime > dir[c].mtime {
        Rename(stem, c);
      } else {
        dir := dir - {stem};
      }
    }

    /** Rename keeps the modification time and replaces the target. */
    method Rename(from: string, to: string)
      requires from in dir && from != to
      modifies this`dir
      ensures dir == (old(dir) - {from})[to := old(dir)[from]]
    {
      var file := dir[from];
      dir := dir - {from};
      dir := dir[to := file];
    }
  }

  // ---------- One family of files ----------

  /** The conflict copies of a canonical name that are present. */
  function Siblings(d: Dir, c: string): set<string> {
    set x | x in d && IsConflict(x) && Canonical(x) == c
  }

  predicate Member(d: Dir, c: string, x: string) {
    x in d && (x == c || (IsConflict(x) && Canonical(x) == c))
  }

  /** The name left when every conflict suffix is gone. */
  function Root(stem: string): string
    decreases |stem|
  {
    if IsConflict(stem) then Root(Canonical(stem)) else stem
  }

  /** The name is canonical and no copy of it has copies of its own. */
  predicate Flat(d: Dir, c: string) {
    && !IsConflict(c)
    && forall y :: y in d && Root(y) == c && y != c ==> Canonical(y) == c
  }

  /** `m` is the newest modification time in the family. */
  ghost predicate Newest(d: Dir, c: string, m: int) {
    && (exists x :: Member(d, c, x) && d[x].mtime == m)
    && (forall x :: Member(d, c, x) ==> d[x].mtime <= m)
  }

  lemma OneEvent(d: Dir, c: string, stem: string)
    requires Flat(d, c)
    ensures var d' := Handled(d, stem);
            && Flat(d', c) && Siblings(d', c) == Siblings(d, c) - {stem}
            && (forall x :: Member(d', c, x) && x != c ==> Member(d, c, x) && d'[x] == d[x])
            && (forall x :: Member(d, c, x) && x != c && x != stem ==> Member(d', c, x))
            && (c in d' ==> (c in d && d'[c] == d[c]) || (stem in Siblings(d, c) && d'[c] == d[stem]))
            && (stem in Siblings(d, c) ==>
                  c in d' && d'[c].mtime >= d[stem].mtime && (d'[c] == d[stem] || (c in d && d'[c] == d[c])))
            && (c in d ==> c in d' && d'[c].mtime >= d[c].mtime)
            && (c in d && (stem in Siblings(d, c) ==> d[stem].mtime <= d[c].mtime) ==> d'[c] == d[c])
  {
    hide IsConflict, Canonical;
    RootStep(stem);
    RootStep(c);
    forall x | IsConflict(x) && Canonical(x) == c ensures Root(x) == c {
      RootStep(x);
    }
  }

  lemma RootStep(stem: string)
    ensures if IsConflict(stem) then Root(stem) == Root(Canonical(stem)) && Canonical(stem) != stem
            else Root(stem) == stem
  {
  }

  lemma NewestStays(d: Dir, c: string, stem: string, m: int)
    requires Flat(d, c) && Newest(d, c, m)
    ensures Newest(Handled(d, stem), c, m)
  {
    hide IsConflict, Canonical, Handled;
    OneEvent(d, c, stem);
    var d' := Handled(d, stem);
    var x :| Member(d, c, x) && d[x].mtime == m;
    if x == c || x == stem {
      assert Member(d', c, c) && d'[c].mtime >= m;
      if d'[c] != d[x] {
        assert d'[c].mtime <= m;
      }
    } else {
      assert Member(d', c, x) && d'[x] == d[x];
    }
  }

  // ---------- Any order of events ----------

  function Elements(events: seq<string>): set<string> {
    set e | e in events
  }

  /** A file some member had before. */
  ghost predicate FromFamily(d: Dir, c: string, f: File) {
    exists x :: Member(d, c, x) && d[x] == f
  }

  /** The canonical name, if present, holds what some member had before. */
  ghost predicate CanonFrom(d': Dir, d: Dir, c: string) {
    c in d' ==> FromFamily(d, c, d'[c])
  }

  lemma {:induction false} RunKeeps(d: Dir, c: string, events: seq<string>, m: int)
    requires Flat(d, c) && Newest(d, c, m)
    ensures var d' := Run(d, events);
            && Flat(d', c) && Newest(d', c, m) && CanonFrom(d', d, c)
            && Siblings(d', c) == Siblings(d, c) - Elements(events)
            && (c in d && d[c].mtime == m ==> c in d' && d'[c] == d[c])
    decreases |events|
  {
    hide Flat, Newest, Handled, IsConflict, Canonical;
    if events == [] {
      if c in d { assert Member(d, c, c); }
    } else {
      var e, rest := events[0], events[1..];
      var next := Handled(d, e);
      OneEvent(d, c, e);
      NewestStays(d, c, e, m);
      RunKeeps(next, c, rest, m);
      assert Elements(events) == {e} + Elements(rest);
      StepFrom(d, c, e, Run(d, events));
      if c in d && d[c].mtime == m { TopStays(d, c, e, m); }
    }
  }

  lemma TopStays(d: Dir, c: string, stem: string, m: int)
    requires Flat(d, c) && Newest(d, c, m) && c in d && d[c].mtime == m
    ensures c in Handled(d, stem) && Handled(d, stem)[c] == d[c]
  {
  }

  lemma StepFrom(d: Dir, c: string, stem: string, end: Dir)
    requires Flat(d, c) && CanonFrom(end, Handled(d, stem), c)
    ensures CanonFrom(end, d, c)
  {
    hide IsConflict, Canonical, Handled, Flat;
    OneEvent(d, c, stem);
    var next := Handled(d, stem);
    if c in end {
      var x :| Member(next, c, x) && next[x] == end[c];
      if x == c {
        if c in d && next[c] == d[c] {
          assert Member(d, c, c);
        } else {
          assert Member(d, c, stem) && d[stem] == next[c];
        }
      } else {
        assert Member(d, c, x);
      }
    }
  }

  /** However the events come, once each copy had one, a single file is left: the newest, as some member had it. */
  lemma ResolvesToNewest(d: Dir, c: string, events: seq<string>, m: int)
    requires Flat(d, c) && Newest(d, c, m) && Siblings(d, c) <= Elements(events)
    ensures var d' := Run(d, events);
            && c in d' && d'[c].mtime == m && FromFamily(d, c, d'[c])
            && (forall x :: Member(d', c, x) <==> x == c)
            && (c in d && d[c].mtime == m ==> d'[c] == d[c])
  {
    hide Flat, IsConflict, Canonical, Handled, Run;
    RunKeeps(d, c, events, m);
    var d' := Run(d, events);
    assert Siblings(d', c) == {};
    forall x | Member(d', c, x) ensures x == c {
      assert x != c ==> x in Siblings(d', c);
    }
    var x :| Member(d', c, x) && d'[x].mtime == m;
    assert x == c;
  }

  /** The canonical file is already newest, or all newest copies agree. */
  ghost predicate TopAgrees(d: Dir, c: string, m: int) {
    || (c in d && d[c].mtime == m)
    || (forall x, y :: Member(d, c, x) && Member(d, c, y) && d[x].mtime == m && d[y].mtime == m ==>
          d[x].content == d[y].content)
  }

  /** Events, in any order and any number, that leave no copy out. */
  ghost predicate Covers(d: Dir, c: string, events: seq<string>) {
    Siblings(d, c) <= Elements(events)
  }

  ghost predicate OrderFree(d: Dir, c: string) {
    forall a, b :: Covers(d, c, a) && Covers(d, c, b) ==> ContentAfter(d, c, a) == ContentAfter(d, c, b)
  }

  function ContentAfter(d: Dir, c: string, events: seq<string>): string {
    var d' := Run(d, events);
    if c in d' then d'[c].content else ""
  }

  /** A newest copy that is handled first, while the canonical file is older or absent, wins. */
  lemma FirstNewestWins(d: Dir, c: string, x: string, events: seq<string>, m: int)
    requires Flat(d, c) && Newest(d, c, m) && x in Siblings(d, c) && d[x].mtime == m
    requires c in d ==> d[c].mtime < m
    ensures ContentAfter(d, c, [x] + events) == d[x].content
  {
    hide Flat, IsConflict, Canonical;
    assert ([x] + events)[1..] == events;
    OneEvent(d, c, x);
    NewestStays(d, c, x, m);
    RunKeeps(Handled(d, x), c, events, m);
  }

  /** The outcome does not depend on the order exactly when the newest files leave no choice. */
  lemma OrderFreeIff(d: Dir, c: string, m: int, all: seq<string>)
    requires Flat(d, c) && Newest(d, c, m) && Covers(d, c, all)
    ensures OrderFree(d, c) <==> TopAgrees(d, c, m)
  {
    hide Flat, IsConflict, Canonical, Handled, Run, Newest;
    if TopAgrees(d, c, m) {
      forall a, b | Covers(d, c, a) && Covers(d, c, b) ensures ContentAfter(d, c, a) == ContentAfter(d, c, b) {
        ResolvesToNewest(d, c, a, m);
        ResolvesToNewest(d, c, b, m);
        var x :| Member(d, c, x) && d[x] == Run(d, a)[c];
        var y :| Member(d, c, y) && d[y] == Run(d, b)[c];
      }
    } else {
      NewestIsMax(d, c, m);
      var x, y :| Member(d, c, x) && Member(d, c, y) && d[x].mtime == m && d[y].mtime == m
                  && d[x].content != d[y].content;
      assert x in Siblings(d, c) && y in Siblings(d, c);
      FirstNewestWins(d, c, x, all, m);
      FirstNewestWins(d, c, y, all, m);
      assert forall e :: e in all ==> e in [x] + all && e in [y] + all;
      assert Covers(d, c, [x] + all) && Covers(d, c, [y] + all);
    }
  }

  lemma NewestIsMax(d: Dir, c: string, m: int)
    requires Newest(d, c, m)
    ensures c in d ==> d[c].mtime <= m
  {
  }

  /** Distinct modification times leave no choice. */
  lemma DistinctTimesAgree(d: Dir, c: string, m: int)
    requires forall x, y :: Member(d, c, x) && Member(d, c, y) && d[x].mtime == d[y].mtime ==> x == y
    ensures TopAgrees(d, c, m)
  {
  }

  // ---------- Copies of copies ----------

  /** Events, in any order and any number, for every file of the family but the canonical one. */
  ghost predicate CoversFamily(d: Dir, c: string, events: seq<string>) {
    forall x :: x in d && Root(x) == c && x != c ==> x in events
  }

  ghost predicate OneFileLeft(d: Dir, c: string) {
    c in d && forall x :: x in d && Root(x) == c ==> x == c
  }

  ghost predicate AlwaysOneFile(d: Dir, c: string) {
    forall events :: CoversFamily(d, c, events) ==> OneFileLeft(Run(d, events), c)
  }

  lemma {:induction false} NewestOf(d: Dir, ids: set<string>) returns (x: string)
    requires ids != {} && ids <= d.Keys
    ensures x in ids && forall y :: y in ids ==> d[y].mtime <= d[x].mtime
  {
    x :| x in ids;
    if ids != {x} {
      var y := NewestOf(d, ids - {x});
      if d[y].mtime > d[x].mtime { x := y; }
    }
  }

  /** In a flat directory the family is the canonical file and its copies. */
  lemma FlatFamily(d: Dir, c: string, x: string)
    requires Flat(d, c) && x in d
    ensures Root(x) == c <==> Member(d, c, x)
  {
    hide IsConflict, Canonical;
    RootStep(x);
    RootStep(c);
  }

  lemma FlatLeavesOne(d: Dir, c: string, events: seq<string>)
    requires Flat(d, c) && (exists x :: x in d && Root(x) == c) && CoversFamily(d, c, events)
    ensures OneFileLeft(Run(d, events), c)
  {
    hide Flat, IsConflict, Canonical, Handled, Run;
    forall x | x in d ensures Root(x) == c <==> Member(d, c, x) { FlatFamily(d, c, x); }
    var family := set x | x in d && Member(d, c, x);
    var some :| some in d && Root(some) == c;
    assert some in family;
    var top := NewestOf(d, family);
    assert Newest(d, c, d[top].mtime) by {
      assert forall x :: Member(d, c, x) ==> x in family;
    }
    FlatRoot(d, c);
    assert Covers(d, c, events);
    ResolvesToNewest(d, c, events, d[top].mtime);
    RunKeeps(d, c, events, d[top].mtime);
    var d' := Run(d, events);
    forall x | x in d' && Root(x) == c ensures x == c { FlatFamily(d', c, x); }
  }

  lemma FlatRoot(d: Dir, c: string)
    requires Flat(d, c)
    ensures !IsConflict(c)
  {
  }

  lemma {:induction false} RunSnoc(d: Dir, events: seq<string>, e: string)
    ensures Run(d, events + [e]) == Handled(Run(d, events), e)
    decreases |events|
  {
    if events == [] {
      assert [] + [e] == [e] && [e][1..] == [];
    } else {
      assert (events + [e])[1..] == events[1..] + [e];
      RunSnoc(Handled(d, events[0]), events[1..], e);
    }
  }

  /** A file without an event of its own is still there. */
  lemma {:induction false} NoEventStays(d: Dir, events: seq<string>, x: string)
    requires x in d && x !in events
    ensures x in Run(d, events)
    decreases |events|
  {
    if events != [] {
      assert events[0] in events;
      NoEventStays(Handled(d, events[0]), events[1..], x);
    }
  }

  function Without(events: seq<string>, x: string): (r: seq<string>)
    ensures forall e :: e in r <==> e in events && e != x
  {
    if events == [] then [] else (if events[0] == x then [] else [events[0]]) + Without(events[1..], x)
  }

  /** A copy of a copy handled last leaves the copy it was made of. */
  lemma NestedLeavesMore(d: Dir, c: string, all: seq<string>, y: string)
    requires CoversFamily(d, c, all) && y in d && Root(y) == c && y != c && Canonical(y) != c
    ensures CoversFamily(d, c, Without(all, y) + [y]) && !OneFileLeft(Run(d, Without(all, y) + [y]), c)
  {
    hide IsSuffix;
    var first := Without(all, y);
    NoEventStays(d, first, y);
    RunSnoc(d, first, y);
    RootStep(y);
    assert Canonical(y) in Handled(Run(d, first), y);
  }

  /** Every order of events leaves a single file exactly when no file of the family is a copy of a copy. */
  lemma OneFileIffFlat(d: Dir, c: string, all: seq<string>)
    requires !IsConflict(c) && (exists x :: x in d && Root(x) == c) && CoversFamily(d, c, all)
    ensures AlwaysOneFile(d, c) <==> Flat(d, c)
  {
    hide IsConflict, Canonical, Run, CoversFamily, OneFileLeft;
    if Flat(d, c) {
      forall events | CoversFamily(d, c, events) ensures OneFileLeft(Run(d, events), c) {
        FlatLeavesOne(d, c, events);
      }
    } else {
      var y :| y in d && Root(y) == c && y != c && Canonical(y) != c;
      NestedLeavesMore(d, c, all, y);
      assert CoversFamily(d, c, Without(all, y) + [y]);
    }
  }

  // ---------- Debouncing ----------

  const STALE_MS := 60_000

  function LastOf(last: map<string, int>, path: string): int {
    if path in last then last[path] else 0
  }

  predicate IsJson(path: string) {
    |path| >= 5 && path[|path| - 5..] == ".json"
  }

  lemma JsonPaths(path: string, base: string)
    ensures IsJson(base + ".json")
    ensures IsJson(path) ==> path == path[..|path| - 5] + ".json"
  {
    assert (base + ".json")[|base|..] == ".json";
  }

  predicate Accepts(last: map<string, int>, path: string, now: int, debounce: int) {
    IsJson(path) && now - LastOf(last, path) >= debounce
  }

  /** The table after an accepted event: its own time in, entries a minute old out. */
  function Remembered(last: map<string, int>, path: string, now: int): map<string, int> {
    var all := last[path := now];
    map p | p in all && all[p] > now - STALE_MS :: all[p]
  }

  class EventHandler {
    const debounce: int
    var lastEvent: map<string, int>

    constructor (debounce: int)
      ensures this.debounce == debounce && lastEvent == map[]
    {
      this.debounce, lastEvent := debounce, map[];
    }

    method Accept(path: string, now: int) returns (accepted: bool)
      modifies this`lastEvent
      ensures accepted == Accepts(old(lastEvent), path, now, debounce)
      ensures lastEvent == if accepted then Remembered(old(lastEvent), path, now) else old(lastEvent)
    {
      if !IsJson(path) {
        return false;
      }
      var last := if path in lastEvent then lastEvent[path] else 0;
      if now - last < debounce {
        return false;
      }
      lastEvent := lastEvent[path := now];
      var cutoff := now - STALE_MS;
      lastEvent := map p | p in lastEvent && lastEvent[p] > cutoff :: lastEvent[p];
      return true;
    }
  }

  datatype Event = Event(path: string, time: int)

  function Accepted(last: map<string, int>, events: seq<Event>, debounce: int): seq<Event>
    decreases |events|
  {
    if events == [] then []
    else
      var e := events[0];
      if Accepts(last, e.path, e.time, debounce)
      then [e] + Accepted(Remembered(last, e.path, e.time), events[1..], debounce)
      else Accepted(last, events[1..], debounce)
  }

  ghost predicate InTime(from: int, events: seq<Event>) {
    && (events != [] ==> events[0].time >= from)
    && forall i, j :: 0 <= i < j < |events| ==> events[i].time <= events[j].time
  }

  /** Accepted events of one path are at least the debounce time apart. */
  ghost predicate SpacedOut(accepted: seq<Event>, debounce: int) {
    forall i, j :: 0 <= i < j < |accepted| && accepted[i].path == accepted[j].path ==>
      accepted[j].time - accepted[i].time >= debounce
  }

  /** After a path's event at `t` its next accepted one is a debounce later: the table knows, or a minute passed. */
  lemma {:induction false} NextAcceptedLater(last: map<string, int>, events: seq<Event>, debounce: int, path: string,
                                             t: int, from: int)
    requires debounce <= STALE_MS && t <= from && InTime(from, events)
    requires (path in last && last[path] >= t) || t <= from - STALE_MS
    ensures forall e :: e in Accepted(last, events, debounce) && e.path == path ==> e.time - t >= debounce
    decreases |events|
  {
    if events != [] {
      var e := events[0];
      var next := if Accepts(last, e.path, e.time, debounce) then Remembered(last, e.path, e.time) else last;
      assert path in last && last[path] >= t ==> (path in next && next[path] >= t) || t <= e.time - STALE_MS;
      NextAcceptedLater(next, events[1..], debounce, path, t, e.time);
    }
  }

  lemma {:induction false} AcceptedSpacedOut(last: map<string, int>, events: seq<Event>, debounce: int, from: int)
    requires debounce <= STALE_MS && InTime(from, events)
    ensures SpacedOut(Accepted(last, events, debounce), debounce)
    decreases |events|
  {
    if events != [] {
      var e, rest := events[0], events[1..];
      if Accepts(last, e.path, e.time, debounce) {
        var next := Remembered(last, e.path, e.time);
        AcceptedSpacedOut(next, rest, debounce, e.time);
        NextAcceptedLater(next, rest, debounce, e.path, e.time, e.time);
        var tail := Accepted(next, rest, debounce);
        forall k | 0 <= k < |tail| && tail[k].path == e.path ensures tail[k].time - e.time >= debounce {
          assert tail[k] in tail;
        }
      } else {
        AcceptedSpacedOut(last, rest, debounce, e.time);
      }
    }
  }

  /** Another path's event a minute later makes the table forget, and the path is accepted again at once. */
  lemma LongDebounceForgets(debounce: int)
    requires debounce > STALE_MS
    ensures var events := [Event("a.json", debounce), Event("b.json", debounce + STALE_MS),
                           Event("a.json", debounce + STALE_MS)];
            InTime(0, events) && Accepted(map[], events, debounce) == events && !SpacedOut(events, debounce)
  {
    var a, b := Event("a.json", debounce), Event("b.json", debounce + STALE_MS);
    var again := Event("a.json", debounce + STALE_MS);
    assert IsJson("a.json") && IsJson("b.json");
    var first := Remembered(map[], a.path, a.time);
    var second := Remembered(first, b.path, b.time);
    assert "b.json" !in first && "a.json" !in second;
    assert [a, b, again][1..] == [b, again] && [b, again][1..] == [again] && [again][1..] == [];
    assert Accepted(second, [again], debounce) == [again];
    assert Accepted(first, [b, again], debounce) == [b, again];
    assert Accepted(map[], [a, b, again], debounce) == [a, b, again];
    assert [a, b, again][0].path == [a, b, again][2].path;
  }

  /** Debouncing spaces every run of events exactly when the debounce time is at most the minute the table remembers. */
  lemma DebounceHoldsIff(debounce: int)
    ensures (forall events :: InTime(0, events) ==> SpacedOut(Accepted(map[], events, debounce), debounce))
            <==> debounce <= STALE_MS
  {
    if debounce <= STALE_MS {
      forall events | InTime(0, events) ensures SpacedOut(Accepted(map[], events, debounce), debounce) {
        AcceptedSpacedOut(map[], events, debounce, 0);
      }
    } else {
      LongDebounceForgets(debounce);
    }
  }
}
