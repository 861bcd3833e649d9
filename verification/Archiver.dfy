/** Moving old messages of a conversation into its archive: first the archive is written, then the active file. */
module Archiver {
  import opened Wrappers
  import opened Text

  type Peer = string

  /** A stored message; a missing timestamp is "", and `when` is the parsed one. */
  datatype Message = Message(text: string, timestamp: string, when: Option<int>)

  type Messages = seq<Message>

  // ---------- Which messages are old ----------

  predicate IsOld(m: Message, cutoff: int) {
    m.when.Some? && m.when.value < cutoff
  }

  predicate IsProtected(i: nat, length: nat, keep: int) {
    i >= length - keep
  }

  predicate Archivable(ms: Messages, i: nat, cutoff: int, keep: int)
    requires i < |ms|
  {
    !IsProtected(i, |ms|, keep) && IsOld(ms[i], cutoff)
  }

  /** Among the first `upto` messages, in order, those that are archivable or those that are not. */
  function Chosen(ms: Messages, archive: bool, upto: nat, cutoff: int, keep: int): Messages
    requires upto <= |ms|
  {
    if upto == 0 then []
    else Chosen(ms, archive, upto - 1, cutoff, keep)
         + if Archivable(ms, upto - 1, cutoff, keep) == archive then [ms[upto - 1]] else []
  }

  function Retained(ms: Messages, cutoff: int, keep: int): Messages {
    Chosen(ms, false, |ms|, cutoff, keep)
  }

  function ToArchive(ms: Messages, cutoff: int, keep: int): Messages {
    Chosen(ms, true, |ms|, cutoff, keep)
  }

  /** The two parts together are exactly the messages. */
  lemma {:induction false} PartsAddUp(ms: Messages, upto: nat, cutoff: int, keep: int)
    requires upto <= |ms|
    ensures multiset(Chosen(ms, false, upto, cutoff, keep)) + multiset(Chosen(ms, true, upto, cutoff, keep))
            == multiset(ms[..upto])
  {
    hide *;
    if upto == 0 {
      NothingYet(ms, cutoff, keep);
    } else {
      PartsAddUp(ms, upto - 1, cutoff, keep);
      PrefixGrows(ms, upto - 1);
      ChosenStep(ms, upto, cutoff, keep);
      Splits(Chosen(ms, false, upto - 1, cutoff, keep), Chosen(ms, true, upto - 1, cutoff, keep), ms[..upto - 1],
             ms[upto - 1]);
      assert multiset(ms[..upto]) == multiset(ms[..upto - 1] + [ms[upto - 1]]);
    }
  }

  lemma NothingYet(ms: Messages, cutoff: int, keep: int)
    ensures Chosen(ms, false, 0, cutoff, keep) == Chosen(ms, true, 0, cutoff, keep) == ms[..0] == []
  {
  }

  lemma PrefixGrows(ms: Messages, k: nat)
    requires k < |ms|
    ensures ms[..k + 1] == ms[..k] + [ms[k]]
  {
  }

  lemma ChosenStep(ms: Messages, upto: nat, cutoff: int, keep: int)
    requires 0 < upto <= |ms|
    ensures var a, b := Chosen(ms, false, upto - 1, cutoff, keep), Chosen(ms, true, upto - 1, cutoff, keep);
            var m, moves := [ms[upto - 1]], Archivable(ms, upto - 1, cutoff, keep);
            && Chosen(ms, false, upto, cutoff, keep) == (if moves then a else a + m)
            && Chosen(ms, true, upto, cutoff, keep) == (if moves then b + m else b)
  {
  }

  lemma Splits(a: Messages, b: Messages, both: Messages, m: Message)
    requires multiset(a) + multiset(b) == multiset(both)
    ensures multiset(a + [m]) + multiset(b) == multiset(both + [m]) == multiset(a) + multiset(b + [m])
  {
  }

  lemma Conserved(ms: Messages, cutoff: int, keep: int)
    ensures multiset(Retained(ms, cutoff, keep)) + multiset(ToArchive(ms, cutoff, keep)) == multiset(ms)
  {
    PartsAddUp(ms, |ms|, cutoff, keep);
    assert ms[..|ms|] == ms;
  }

  /**
   What goes to the archive, in order: exactly the messages before the last `keep` whose timestamp parses to a time
   before the cutoff; and what is retained: exactly the others.
   */
  lemma {:induction false} ChosenPlaces(ms: Messages, archive: bool, upto: nat, cutoff: int, keep: int)
    returns (idx: seq<nat>)
    requires upto <= |ms|
    ensures |idx| == |Chosen(ms, archive, upto, cutoff, keep)| && forall j, k :: 0 <= j < k < |idx| ==> idx[j] < idx[k]
    ensures forall i :: i in idx <==>
              0 <= i < upto && (archive <==> i < |ms| - keep && ms[i].when.Some? && ms[i].when.value < cutoff)
    ensures forall k :: 0 <= k < |idx| ==>
              0 <= idx[k] < upto && Chosen(ms, archive, upto, cutoff, keep)[k] == ms[idx[k]]
  {
    if upto == 0 {
      return [];
    }
    idx := ChosenPlaces(ms, archive, upto - 1, cutoff, keep);
    if Archivable(ms, upto - 1, cutoff, keep) == archive { idx := idx + [upto - 1]; }
  }

  /** Below the protected range, nothing old is retained. */
  lemma {:induction false} NoneOldRetained(ms: Messages, upto: nat, cutoff: int, keep: int)
    requires upto <= |ms| && upto <= |ms| - keep
    ensures forall m :: m in Chosen(ms, false, upto, cutoff, keep) ==> !IsOld(m, cutoff)
  {
    if upto > 0 { NoneOldRetained(ms, upto - 1, cutoff, keep); }
  }

  /** The protected range is retained whole. */
  lemma {:induction false} ProtectedStay(ms: Messages, from: nat, upto: nat, cutoff: int, keep: int)
    requires from <= upto <= |ms| && from >= |ms| - keep
    ensures Chosen(ms, false, upto, cutoff, keep) == Chosen(ms, false, from, cutoff, keep) + ms[from..upto]
  {
    if from < upto {
      ProtectedStay(ms, from, upto - 1, cutoff, keep);
      assert ms[from..upto] == ms[from..upto - 1] + [ms[upto - 1]];
    }
  }

  lemma {:induction false} NothingChosen(ms: Messages, upto: nat, cutoff: int, keep: int)
    requires upto <= |ms| && forall i :: 0 <= i < upto ==> !Archivable(ms, i, cutoff, keep)
    ensures Chosen(ms, true, upto, cutoff, keep) == []
  {
    if upto > 0 { NothingChosen(ms, upto - 1, cutoff, keep); }
  }

  /** At the same cutoff, what was retained has nothing more to archive. */
  lemma SecondRunIsIdle(ms: Messages, cutoff: int, keep: int)
    ensures ToArchive(Retained(ms, cutoff, keep), cutoff, keep) == []
  {
    var r := Retained(ms, cutoff, keep);
    var from := if keep <= 0 then |ms| else if |ms| <= keep then 0 else |ms| - keep;
    var low := Chosen(ms, false, from, cutoff, keep);
    if keep > 0 { ProtectedStay(ms, from, |ms|, cutoff, keep); }
    if from > 0 { NoneOldRetained(ms, from, cutoff, keep); }
    forall i | 0 <= i < |r| ensures !Archivable(r, i, cutoff, keep) {
      if i < |low| {
        assert r[i] == low[i] && low[i] in low;
      }
    }
    NothingChosen(r, |r|, cutoff, keep);
  }

  // ---------- The archive's order ----------

  /** Insert before the first message with a later timestamp, that is, after its equals. */
  function Insert(m: Message, sorted: Messages): Messages {
    if sorted == [] then [m]
    else if LexLess(m.timestamp, sorted[0].timestamp) then [m] + sorted
    else [sorted[0]] + Insert(m, sorted[1..])
  }

  /** Python's stable sort by timestamp. */
  function SortByStamp(ms: Messages): Messages
    decreases |ms|
  {
    if ms == [] then [] else Insert(ms[|ms| - 1], SortByStamp(ms[..|ms| - 1]))
  }

  ghost predicate IsSorted(ms: Messages) {
    forall i, j :: 0 <= i < j < |ms| ==> !LexLess(ms[j].timestamp, ms[i].timestamp)
  }

  /** The messages of one timestamp, in order. */
  function Stamped(ms: Messages, timestamp: string): Messages {
    if ms == [] then []
    else (if ms[0].timestamp == timestamp then [ms[0]] else []) + Stamped(ms[1..], timestamp)
  }

  lemma {:induction false} StampedSplit(a: Messages, b: Messages, timestamp: string)
    ensures Stamped(a + b, timestamp) == Stamped(a, timestamp) + Stamped(b, timestamp)
  {
    if a == [] {
      assert a + b == b;
    } else {
      var all := a + b;
      assert all[0] == a[0] && all[1..] == a[1..] + b;
      StampedSplit(a[1..], b, timestamp);
      var head := if a[0].timestamp == timestamp then [a[0]] else [];
      assert head + (Stamped(a[1..], timestamp) + Stamped(b, timestamp))
             == head + Stamped(a[1..], timestamp) + Stamped(b, timestamp);
    }
  }

  lemma {:induction false} NoneLater(m: Message, sorted: Messages)
    requires IsSorted(sorted) && (sorted != [] ==> LexLess(m.timestamp, sorted[0].timestamp))
    ensures Stamped(sorted, m.timestamp) == []
    decreases |sorted|
  {
    if sorted != [] {
      LexTotal(m.timestamp, sorted[0].timestamp);
      if |sorted| > 1 {
        Later(m.timestamp, sorted[0].timestamp, sorted[1].timestamp);
      }
      NoneLater(m, sorted[1..]);
    }
  }

  lemma Later(a: string, b: string, c: string)
    requires LexLess(a, b) && !LexLess(c, b)
    ensures LexLess(a, c)
  {
  }

  lemma {:induction false} InsertKeeps(m: Message, sorted: Messages)
    requires IsSorted(sorted)
    ensures IsSorted(Insert(m, sorted)) && multiset(Insert(m, sorted)) == multiset(sorted + [m])
    ensures forall stamp :: Stamped(Insert(m, sorted), stamp) == Stamped(sorted, stamp) + Stamped([m], stamp)
    decreases |sorted|
  {
    hide LexLess, IsSorted, Stamped;
    if sorted == [] {
      InsertOnly(m);
      hide Insert;
    } else {
      var head, tail := sorted[0], sorted[1..];
      if LexLess(m.timestamp, head.timestamp) {
        InsertFirst(m, sorted);
      } else {
        TailSorted(head, tail, sorted);
        InsertKeeps(m, tail);
        InsertLater(m, head, tail);
      }
    }
  }

  lemma InsertOnly(m: Message)
    ensures Insert(m, []) == [m] == [] + [m] && IsSorted([m])
    ensures forall stamp :: Stamped([m], stamp) == Stamped([], stamp) + Stamped([m], stamp)
  {
    hide LexLess;
    forall stamp ensures Stamped([m], stamp) == Stamped([], stamp) + Stamped([m], stamp) {
      StampedNone(stamp);
      hide Stamped;
    }
  }

  lemma StampedNone(stamp: string)
    ensures Stamped([], stamp) == []
  {
  }

  lemma TailSorted(head: Message, tail: Messages, sorted: Messages)
    requires sorted != [] && IsSorted(sorted) && head == sorted[0] && tail == sorted[1..]
    ensures IsSorted(tail) && sorted == [head] + tail
  {
    hide LexLess;
  }

  lemma InsertFirst(m: Message, sorted: Messages)
    requires IsSorted(sorted) && sorted != [] && LexLess(m.timestamp, sorted[0].timestamp)
    ensures IsSorted([m] + sorted) && multiset([m] + sorted) == multiset(sorted + [m])
    ensures forall stamp :: Stamped([m] + sorted, stamp) == Stamped(sorted, stamp) + Stamped([m], stamp)
  {
    var r := [m] + sorted;
    forall i, j | 0 <= i < j < |r| ensures !LexLess(r[j].timestamp, r[i].timestamp) {
      if i == 0 {
        if j > 1 { Later(m.timestamp, sorted[0].timestamp, sorted[j - 1].timestamp); }
        LexTotal(m.timestamp, r[j].timestamp);
      }
    }
    forall stamp ensures Stamped(r, stamp) == Stamped(sorted, stamp) + Stamped([m], stamp) {
      StampedSplit([m], sorted, stamp);
      if stamp == m.timestamp {
        NoneLater(m, sorted);
      } else {
        assert Stamped([m], stamp) == [];
      }
    }
  }

  lemma InsertLater(m: Message, head: Message, tail: Messages)
    requires IsSorted([head] + tail) && !LexLess(m.timestamp, head.timestamp)
    requires var r := Insert(m, tail);
             IsSorted(r) && multiset(r) == multiset(tail + [m])
             && forall stamp :: Stamped(r, stamp) == Stamped(tail, stamp) + Stamped([m], stamp)
    ensures var r := [head] + Insert(m, tail);
            IsSorted(r) && multiset(r) == multiset([head] + tail + [m])
            && forall stamp :: Stamped(r, stamp) == Stamped([head] + tail, stamp) + Stamped([m], stamp)
  {
    hide Insert, LexLess;
    var rest := Insert(m, tail);
    HeadFirst(m, head, tail, rest);
    assert [head] + tail + [m] == [head] + (tail + [m]);
    hide IsSorted;
    forall stamp ensures Stamped([head] + rest, stamp) == Stamped([head] + tail, stamp) + Stamped([m], stamp) {
      StampedSplit([head], rest, stamp);
      StampedSplit([head], tail, stamp);
    }
  }

  lemma HeadFirst(m: Message, head: Message, tail: Messages, rest: Messages)
    requires IsSorted([head] + tail) && !LexLess(m.timestamp, head.timestamp)
    requires IsSorted(rest) && multiset(rest) == multiset(tail + [m])
    ensures IsSorted([head] + rest)
  {
    hide LexLess;
    var r, all := [head] + rest, [head] + tail;
    forall k | 0 <= k < |rest| ensures !LexLess(rest[k].timestamp, head.timestamp) {
      assert rest[k] in multiset(tail + [m]);
      if rest[k] != m {
        var t :| 0 <= t < |tail| && tail[t] == rest[k];
        assert all[0] == head && all[t + 1] == rest[k];
      }
    }
    forall i, j | 0 <= i < j < |r| ensures !LexLess(r[j].timestamp, r[i].timestamp) {
      assert r[j] == rest[j - 1];
      if i > 0 {
        assert r[i] == rest[i - 1];
      }
    }
  }

  lemma SortStep(front: Messages, m: Message, sorted: Messages)
    requires IsSorted(sorted) && multiset(sorted) == multiset(front)
    requires forall stamp :: Stamped(sorted, stamp) == Stamped(front, stamp)
    ensures IsSorted(Insert(m, sorted)) && multiset(Insert(m, sorted)) == multiset(front + [m])
    ensures forall stamp :: Stamped(Insert(m, sorted), stamp) == Stamped(front + [m], stamp)
  {
    hide IsSorted, Stamped, Insert;
    InsertKeeps(m, sorted);
    assert multiset(sorted + [m]) == multiset(sorted) + multiset{m} == multiset(front + [m]);
    forall stamp ensures Stamped(Insert(m, sorted), stamp) == Stamped(front + [m], stamp) {
      StampedSplit(front, [m], stamp);
    }
  }

  /** The archive is sorted, holds the same messages, and keeps the order of those with equal timestamps. */
  lemma {:induction false} SortIsStable(ms: Messages)
    ensures IsSorted(SortByStamp(ms)) && multiset(SortByStamp(ms)) == multiset(ms)
    ensures forall stamp :: Stamped(SortByStamp(ms), stamp) == Stamped(ms, stamp)
    decreases |ms|
  {
    if ms != [] {
      hide IsSorted, Stamped, Insert;
      var front := ms[..|ms| - 1];
      SortIsStable(front);
      SortStep(front, ms[|ms| - 1], SortByStamp(front));
      assert ms == front + [ms[|ms| - 1]];
    }
  }

  // ---------- The code ----------

  datatype Result = Skipped | Archived(moved: nat, retained: nat)

  /** How far one call gets before the process dies, if it does. */
  datatype Crash = Never | BeforeArchive | BetweenWrites

  /** What one archiving of a non-empty file with something to archive leaves behind. */
  function ArchiveAfter(ms: Messages, existing: Messages, cutoff: int, keep: int, crash: Crash): Messages {
    if crash == BeforeArchive || ToArchive(ms, cutoff, keep) == [] then existing
    else SortByStamp(existing + ToArchive(ms, cutoff, keep))
  }

  function ActiveAfter(ms: Messages, cutoff: int, keep: int, crash: Crash): Messages {
    if crash == Never then Retained(ms, cutoff, keep) else ms
  }

  /** Nothing is lost at any crash point, and nothing is doubled by a run that completes. */
  lemma NothingLost(ms: Messages, existing: Messages, cutoff: int, keep: int, crash: Crash)
    ensures var total := multiset(ActiveAfter(ms, cutoff, keep, crash))
                         + multiset(ArchiveAfter(ms, existing, cutoff, keep, crash));
            && multiset(ms) + multiset(existing) <= total
            && (crash != BetweenWrites ==> total == multiset(ms) + multiset(existing))
            && (crash == BetweenWrites ==>
                  total == multiset(ms) + multiset(existing) + multiset(ToArchive(ms, cutoff, keep)))
  {
    var moved := ToArchive(ms, cutoff, keep);
    Conserved(ms, cutoff, keep);
    ArchiveGrows(ms, existing, cutoff, keep, crash);
    hide *;
    ActiveIs(ms, cutoff, keep, crash);
    Totals(multiset(ms), multiset(Retained(ms, cutoff, keep)), multiset(moved), multiset(existing));
  }

  lemma ActiveIs(ms: Messages, cutoff: int, keep: int, crash: Crash)
    ensures ActiveAfter(ms, cutoff, keep, crash) == if crash.Never? then Retained(ms, cutoff, keep) else ms
  {
  }

  lemma ArchiveGrows(ms: Messages, existing: Messages, cutoff: int, keep: int, crash: Crash)
    ensures multiset(ArchiveAfter(ms, existing, cutoff, keep, crash))
            == if crash.BeforeArchive? then multiset(existing)
               else multiset(existing) + multiset(ToArchive(ms, cutoff, keep))
  {
    var moved := ToArchive(ms, cutoff, keep);
    hide IsSorted, Stamped, ToArchive, SortByStamp;
    SortIsStable(existing + moved);
    assert multiset(existing + moved) == multiset(existing) + multiset(moved);
  }

  lemma Totals(all: multiset<Message>, stay: multiset<Message>, moved: multiset<Message>, former: multiset<Message>)
    requires stay + moved == all
    ensures stay + (former + moved) == all + former
    ensures all + (former + moved) == all + former + moved
  {
  }

  /** Doubles exactly the moved messages when a crash between the writes is followed by a full run. */
  lemma RerunDoubles(ms: Messages, existing: Messages, cutoff: int, keep: int)
    ensures var archive := ArchiveAfter(ms, existing, cutoff, keep, BetweenWrites);
            multiset(ActiveAfter(ms, cutoff, keep, Never)) + multiset(ArchiveAfter(ms, archive, cutoff, keep, Never))
            == multiset(ms) + multiset(existing) + multiset(ToArchive(ms, cutoff, keep))
  {
    NothingLost(ms, existing, cutoff, keep, BetweenWrites);
    NothingLost(ms, ArchiveAfter(ms, existing, cutoff, keep, BetweenWrites), cutoff, keep, Never);
  }

  function FileOf(files: map<Peer, Messages>, peer: Peer): Messages {
    if peer in files then files[peer] else []
  }

  class ConversationArchiver {
    const age: int
    const keepRecent: int
    var active: map<Peer, Messages>
    var archive: map<Peer, Messages>

    constructor (age: int, keepRecent: int, active: map<Peer, Messages>, archive: map<Peer, Messages>)
      ensures this.age == age && this.keepRecent == keepRecent && this.active == active && this.archive == archive
    {
      this.age, this.keepRecent, this.active, this.archive := age, keepRecent, active, archive;
    }

    method Partition(messages: Messages, now: int) returns (retain: Messages, past: Messages)
      ensures retain == Retained(messages, now - age, keepRecent)
      ensures past == ToArchive(messages, now - age, keepRecent)
    {
      retain, past := [], [];
      var cutoff := now - age;
      var i := 0;
      while i < |messages|
        invariant 0 <= i <= |messages|
        invariant retain == Chosen(messages, false, i, cutoff, keepRecent)
        invariant past == Chosen(messages, true, i, cutoff, keepRecent)
      {
        if IsProtected(i, |messages|, keepRecent) {
          retain := retain + [messages[i]];
        } else {
          var when := messages[i].when;
          if when.None? || when.value >= cutoff {
            retain := retain + [messages[i]];
          } else {
            past := past + [messages[i]];
          }
        }
        i := i + 1;
      }
    }

    /** Write the archive, then the active file; `crash` says where the process dies. */
    method ArchivePeer(peer: Peer, now: int, crash: Crash) returns (r: Result)
      modifies this`active, this`archive
      ensures var ms, before := FileOf(old(active), peer), FileOf(old(archive), peer);
              var cutoff := now - age;
              if ToArchive(ms, cutoff, keepRecent) == []
              then r.Skipped? && active == old(active) && archive == old(archive)
              else
                && FileOf(active, peer) == ActiveAfter(ms, cutoff, keepRecent, crash)
                && FileOf(archive, peer) == ArchiveAfter(ms, before, cutoff, keepRecent, crash)
                && (crash == Never ==> r == Archived(|ToArchive(ms, cutoff, keepRecent)|,
                                                     |Retained(ms, cutoff, keepRecent)|))
      ensures forall other :: other != peer ==> FileOf(active, other) == FileOf(old(active), other)
                                                && FileOf(archive, other) == FileOf(old(archive), other)
    {
      r := Skipped;
      if peer !in active {
        return;
      }
      var messages := active[peer];
      if messages == [] {
        return;
      }
      var retain, past := Partition(messages, now);
      if past == [] {
        return;
      }
      if crash == BeforeArchive {
        return;
      }
      var existing := if peer in archive then archive[peer] else [];
      archive := archive[peer := SortByStamp(existing + past)];
      if crash == BetweenWrites {
        return;
      }
      active := active[peer := retain];
      r := Archived(|past|, |retain|);
    }
  }
}
