/**
 The persistence design replays events by (time, node, writer, sequence), not by sequence alone.
 All migrated events share one node, so the order is by time, then writer, then sequence.
 */
module FoldOrder {
  import opened Bridge
  import opened Text
  import opened Explode

  predicate Earlier(a: Event, b: Event) {
    || LexLess(a.ts, b.ts)
    || (a.ts == b.ts && (LexLess(a.writer, b.writer) || (a.writer == b.writer && a.seqNo < b.seqNo)))
  }

  lemma EarlierTotal(a: Event, b: Event)
    ensures !(Earlier(a, b) && Earlier(b, a))
    ensures a.seqNo != b.seqNo ==> Earlier(a, b) || Earlier(b, a)
  {
    LexTotal(a.ts, b.ts);
    LexTotal(a.writer, b.writer);
  }

  lemma EarlierTransitive(a: Event, b: Event, c: Event)
    requires Earlier(a, b) && Earlier(b, c)
    ensures Earlier(a, c)
  {
    if LexLess(a.ts, b.ts) && LexLess(b.ts, c.ts) { LexTransitive(a.ts, b.ts, c.ts); }
    if LexLess(a.writer, b.writer) && LexLess(b.writer, c.writer) { LexTransitive(a.writer, b.writer, c.writer); }
  }

  ghost predicate InFoldOrder(evs: seq<Event>) {
    forall i, j :: 0 <= i < j < |evs| ==> Earlier(evs[i], evs[j])
  }

  /** `sorted` is `flat` put into the documented replay order. */
  ghost predicate FoldOrderOf(sorted: seq<Event>, flat: seq<Event>) {
    multiset(sorted) == multiset(flat) && InFoldOrder(sorted)
  }

  // ---------- The documented sort ----------

  function Insert(e: Event, evs: seq<Event>): seq<Event> {
    if evs == [] || Earlier(e, evs[0]) then [e] + evs else [evs[0]] + Insert(e, evs[1..])
  }

  /** `events.sort(key=(ts, node, writer, seq))`. */
  function FoldSorted(evs: seq<Event>): seq<Event>
    decreases |evs|
  {
    if evs == [] then [] else Insert(evs[|evs| - 1], FoldSorted(evs[..|evs| - 1]))
  }

  lemma PrependOrdered(e: Event, evs: seq<Event>)
    requires InFoldOrder(evs) && forall x :: x in evs ==> Earlier(e, x)
    ensures InFoldOrder([e] + evs)
  {
    var r := [e] + evs;
    forall i, j | 0 <= i < j < |r| ensures Earlier(r[i], r[j]) {
      assert r[j] == evs[j - 1] && evs[j - 1] in evs;
      if i > 0 { assert r[i] == evs[i - 1]; }
    }
  }

  lemma InsertFirst(e: Event, evs: seq<Event>)
    requires InFoldOrder(evs) && evs != [] && Earlier(e, evs[0])
    ensures FoldOrderOf([e] + evs, evs + [e])
  {
    hide Earlier;
    forall x | x in evs ensures Earlier(e, x) {
      var k :| 0 <= k < |evs| && evs[k] == x;
      if k > 0 { EarlierTransitive(e, evs[0], x); }
    }
    PrependOrdered(e, evs);
    assert multiset([e] + evs) == multiset(evs + [e]);
  }

  lemma InsertLater(e: Event, head: Event, tail: seq<Event>, rest: seq<Event>)
    requires InFoldOrder([head] + tail) && Earlier(head, e) && FoldOrderOf(rest, tail + [e])
    ensures FoldOrderOf([head] + rest, [head] + tail + [e])
  {
    hide Earlier;
    var evs := [head] + tail;
    forall x | x in rest ensures Earlier(head, x) {
      assert x in multiset(tail + [e]);
      if x != e {
        var k :| 0 <= k < |tail| && tail[k] == x;
        assert evs[0] == head && evs[k + 1] == x;
      }
    }
    PrependOrdered(head, rest);
    assert evs + [e] == [head] + (tail + [e]);
    assert multiset([head] + rest) == multiset{head} + multiset(rest);
  }

  lemma {:induction false} InsertOrdered(e: Event, evs: seq<Event>)
    requires InFoldOrder(evs) && forall x :: x in evs ==> x.seqNo != e.seqNo
    ensures FoldOrderOf(Insert(e, evs), evs + [e])
    decreases |evs|
  {
    hide Earlier;
    if evs == [] {
      assert evs + [e] == [e];
    } else if Earlier(e, evs[0]) {
      InsertFirst(e, evs);
    } else {
      EarlierTotal(e, evs[0]);
      assert InFoldOrder(evs[1..]);
      InsertOrdered(e, evs[1..]);
      assert evs == [evs[0]] + evs[1..];
      hide InFoldOrder, FoldOrderOf;
      InsertLater(e, evs[0], evs[1..], Insert(e, evs[1..]));
    }
  }

  ghost predicate Numbered(evs: seq<Event>) {
    forall i, j :: 0 <= i < j < |evs| ==> evs[i].seqNo != evs[j].seqNo
  }

  lemma SortStep(front: seq<Event>, e: Event, sorted: seq<Event>)
    requires FoldOrderOf(sorted, front) && forall x :: x in front ==> x.seqNo != e.seqNo
    ensures FoldOrderOf(Insert(e, sorted), front + [e])
  {
    hide Earlier, Insert;
    forall x | x in sorted ensures x in front { assert x in multiset(front); }
    InsertOrdered(e, sorted);
    assert multiset(sorted + [e]) == multiset(front) + multiset{e} == multiset(front + [e]);
  }

  lemma {:induction false} SortIsFoldOrder(evs: seq<Event>)
    requires Numbered(evs)
    ensures FoldOrderOf(FoldSorted(evs), evs)
    decreases |evs|
  {
    if evs != [] {
      hide FoldOrderOf, Insert, Earlier;
      var front, e := evs[..|evs| - 1], evs[|evs| - 1];
      SortIsFoldOrder(front);
      SortStep(front, e, FoldSorted(front));
      assert evs == front + [e];
    } else {
      assert FoldSorted(evs) == evs;
    }
  }

  // ---------- There is one such order ----------

  lemma SameFirst(sorted: seq<Event>, flat: seq<Event>)
    requires FoldOrderOf(sorted, flat) && InFoldOrder(flat) && sorted != [] && flat != []
    ensures sorted[0] == flat[0]
  {
    var s, f := sorted[0], flat[0];
    assert s in multiset(sorted) && f in multiset(flat);
    assert s in flat && f in sorted;
    if s != f {
      EarlierTotal(s, f);
    }
  }

  lemma {:induction false} FoldOrderUnique(sorted: seq<Event>, flat: seq<Event>)
    requires FoldOrderOf(sorted, flat) && InFoldOrder(flat)
    ensures sorted == flat
    decreases |flat|
  {
    hide Earlier;
    assert |sorted| == |multiset(sorted)| == |multiset(flat)| == |flat|;
    if flat != [] {
      SameFirst(sorted, flat);
      WithoutFirst(sorted);
      WithoutFirst(flat);
      assert sorted == [sorted[0]] + sorted[1..] && flat == [flat[0]] + flat[1..];
      FoldOrderUnique(sorted[1..], flat[1..]);
    }
  }

  lemma WithoutFirst(evs: seq<Event>)
    requires evs != []
    ensures multiset(evs[1..]) == multiset(evs) - multiset{evs[0]}
  {
    assert evs == [evs[0]] + evs[1..];
  }

  // ---------- Where the hops go ----------

  /** How many of the first events sort before `mark`. */
  function Leading(evs: seq<Event>, mark: Event): (k: nat)
    ensures k <= |evs|
  {
    if evs == [] || !Earlier(evs[0], mark) then 0 else 1 + Leading(evs[1..], mark)
  }

  lemma {:induction false} LeadingSplits(evs: seq<Event>, mark: Event)
    requires InFoldOrder(evs)
    ensures forall i :: 0 <= i < |evs| ==> (Earlier(evs[i], mark) <==> i < Leading(evs, mark))
    decreases |evs|
  {
    hide Earlier;
    if evs != [] {
      if Earlier(evs[0], mark) {
        LeadingSplits(evs[1..], mark);
        assert forall i :: 1 <= i < |evs| ==> evs[i] == evs[1..][i - 1];
      } else {
        forall i | 0 <= i < |evs| ensures !Earlier(evs[i], mark) {
          if i > 0 && Earlier(evs[i], mark) { EarlierTransitive(evs[0], evs[i], mark); }
        }
      }
    }
  }

  /** Events of one time and writer, numbered on from `from`. */
  ghost predicate IsBlock(hops: seq<Event>, stamp: string, writer: string, from: nat) {
    forall j :: 0 <= j < |hops| ==> hops[j].ts == stamp && hops[j].writer == writer && hops[j].seqNo == from + j
  }

  /** Against events with smaller numbers, a block sorts as its first number does. */
  lemma BlockAsOne(e: Event, hops: seq<Event>, mark: Event, j: nat)
    requires IsBlock(hops, mark.ts, mark.writer, mark.seqNo) && e.seqNo < mark.seqNo && j < |hops|
    ensures Earlier(e, mark) ==> Earlier(e, hops[j])
    ensures !Earlier(e, mark) ==> Earlier(hops[j], e)
  {
    EarlierTotal(e, mark);
  }

  lemma BlockOrdered(rest: seq<Event>, hops: seq<Event>, mark: Event)
    requires InFoldOrder(rest) && IsBlock(hops, mark.ts, mark.writer, mark.seqNo)
    requires forall e :: e in rest ==> e.seqNo < mark.seqNo
    ensures var k := Leading(rest, mark); InFoldOrder(rest[..k] + hops + rest[k..])
  {
    LeadingSplits(rest, mark);
    var k := Leading(rest, mark);
    var all := rest[..k] + hops + rest[k..];
    forall i, j | 0 <= i < j < |all| ensures Earlier(all[i], all[j]) {
      var inI, inJ := k <= i < k + |hops|, k <= j < k + |hops|;
      if !inI && inJ { BlockAsOne(rest[i], hops, mark, j - k); }
      if inI && !inJ { BlockAsOne(rest[j - |hops|], hops, mark, i - k); }
    }
  }

  /** The documented order: all else in that order, with the block put in at one place. */
  lemma SortedWithBlock(flat: seq<Event>, m: nat, mark: Event)
    requires m <= |flat| && mark.seqNo == m && forall i :: 0 <= i < |flat| ==> flat[i].seqNo == i
    requires IsBlock(flat[m..], mark.ts, mark.writer, m)
    ensures var rest := FoldSorted(flat[..m]);
            var k := Leading(rest, mark);
            FoldSorted(flat) == rest[..k] + flat[m..] + rest[k..]
  {
    hide Earlier;
    var rest, hops := FoldSorted(flat[..m]), flat[m..];
    SortIsFoldOrder(flat);
    SortIsFoldOrder(flat[..m]);
    forall e | e in rest ensures e.seqNo < m {
      assert e in multiset(flat[..m]);
      var i :| 0 <= i < m && flat[..m][i] == e;
    }
    BlockOrdered(rest, hops, mark);
    var k := Leading(rest, mark);
    SameEvents(flat, m, rest, k);
    FoldOrderUnique(FoldSorted(flat), rest[..k] + hops + rest[k..]);
  }

  lemma SameEvents(flat: seq<Event>, m: nat, rest: seq<Event>, k: nat)
    requires m <= |flat| && k <= |rest| && multiset(rest) == multiset(flat[..m])
    ensures multiset(rest[..k] + flat[m..] + rest[k..]) == multiset(flat)
  {
    assert flat == flat[..m] + flat[m..];
    assert rest == rest[..k] + rest[k..];
  }

  // ---------- The status after the documented replay ----------

  /** What the hops sort like: the last entry's time, the migration's writer, their first number. */
  function HopMark(data: Legacy, now: string, m: nat): Event {
    Event(LastStamp(data, now, |data.timeline|), MIGRATION, Ack, m)
  }

  /** The hops' events within an explosion. */
  lemma HopsAreBlock(t: Table, data: Legacy, now: string, logs: Logs, flat: seq<Event>, path: seq<Status>)
    requires Exploded(t, data, now, logs, flat, path)
    ensures |path| <= |flat|
    ensures var m := |flat| - |path|;
            var mark := HopMark(data, now, m);
            && (forall i :: 0 <= i < |flat| ==> flat[i].seqNo == i)
            && mark.seqNo == m && IsBlock(flat[m..], mark.ts, mark.writer, m) && Walks(flat[m..], path)
  {
    hide TimelineEvents, LastStamp, Terminals, Bridges, Splits, Synthesized, Hops, Walks;
    var n, m := |data.timeline|, |flat| - |path|;
    SplitsNumbers(logs, flat);
    WalkSlice(flat, LastStamp(data, now, n), path, m);
    SynthesizedBlock(flat, LastStamp(data, now, n), path, m);
  }

  lemma SplitsNumbers(logs: Logs, flat: seq<Event>)
    requires Splits(logs, flat)
    ensures forall i :: 0 <= i < |flat| ==> flat[i].seqNo == i
  {
    hide LogOk, Held;
  }

  lemma SynthesizedBlock(flat: seq<Event>, stamp: string, path: seq<Status>, m: nat)
    requires Synthesized(flat, Hops(stamp, path), m) && |flat| == m + |path|
    ensures IsBlock(flat[m..], stamp, MIGRATION, m)
  {
  }

  /**
   In the documented order the hops of any record are replayed together, after the events that sort before
   them and before the rest.  The recorded status survives exactly when the rest, replayed from where the
   hops lead, leads back to it.
   */
  lemma DocumentedReplayIff(t: Table, data: Legacy, now: string, logs: Logs, flat: seq<Event>, path: seq<Status>)
    requires Exploded(t, data, now, logs, flat, path) && data.status != ""
    ensures |path| <= |flat|
    ensures var ts, m := t.transitions, |flat| - |path|;
            var others := FoldSorted(flat[..m]);
            var k := Leading(others, HopMark(data, now, m));
            var before := Replay(ts, t.initial, others[..k]);
            Replay(ts, t.initial, FoldSorted(flat)) == data.status
            <==> Replay(ts, if Fires(ts, before, path) then data.status else before, others[k..]) == data.status
  {
    hide *;
    HopsAreBlock(t, data, now, logs, flat, path);
    var ts, m := t.transitions, |flat| - |path|;
    var others, hops := FoldSorted(flat[..m]), flat[m..];
    var k := Leading(others, HopMark(data, now, m));
    SortedWithBlock(flat, m, HopMark(data, now, m));
    BridgeOf(t, data, now, logs, flat, path);
    ReplayAround(ts, t.initial, others[..k], hops, others[k..], Folded(t, data, now), path, data.status);
  }

  lemma BridgeOf(t: Table, data: Legacy, now: string, logs: Logs, flat: seq<Event>, path: seq<Status>)
    requires Exploded(t, data, now, logs, flat, path)
    ensures Chain(t.transitions, Folded(t, data, now), path) && (path != [] ==> path[|path| - 1] == data.status)
  {
    hide Assembled;
    BridgeIsChain(t, Folded(t, data, now), data.status, path);
  }

  lemma ReplayAround(ts: Transitions<Status>, s: Status, a: seq<Event>, hops: seq<Event>, b: seq<Event>,
                     cur: Status, path: seq<Status>, target: Status)
    requires Chain(ts, cur, path) && Walks(hops, path) && (path != [] ==> path[|path| - 1] == target)
    ensures var before := Replay(ts, s, a);
            Replay(ts, s, a + hops + b) == Replay(ts, if Fires(ts, before, path) then target else before, b)
  {
    hide Replay, Fires, Chain, Walks;
    var before := Replay(ts, s, a);
    ReplayConcat(ts, s, a + hops, b);
    ReplayConcat(ts, s, a, hops);
    ReplayHops(ts, cur, path, hops, before);
    NoHopNoFire(ts, before);
  }

  lemma {:induction false} NoStatusNoChange(ts: Transitions<Status>, s: Status, evs: seq<Event>)
    requires forall e :: e in evs ==> !e.payload.StatusTo?
    ensures Replay(ts, s, evs) == s
  {
    if evs != [] { NoStatusNoChange(ts, s, evs[..|evs| - 1]); }
  }

  lemma SortedStays(evs: seq<Event>)
    requires InFoldOrder(evs) && Numbered(evs)
    ensures FoldSorted(evs) == evs
  {
    SortIsFoldOrder(evs);
    FoldOrderUnique(FoldSorted(evs), evs);
  }

  /**
   For a record without terminal facts whose timeline is in order: the status survives whenever it can, as
   long as no status entry sorts after the hops, that is, at the last time by a writer after "migration".
   */
  lemma HarmlessTailKeepsStatus(t: Table, data: Legacy, now: string, logs: Logs, flat: seq<Event>, path: seq<Status>)
    requires Exploded(t, data, now, logs, flat, path) && data.status != "" && Terminals(t.kind, data) == []
    requires InFoldOrder(TimelineEvents(data, now, |data.timeline|))
    requires forall e :: e in TimelineEvents(data, now, |data.timeline|) && e.payload.StatusTo? ==>
               Earlier(e, HopMark(data, now, |data.timeline|))
    ensures var cur := Folded(t, data, now);
            Replay(t.transitions, t.initial, FoldSorted(flat)) == data.status
            <==> cur == data.status || Reachable(t.transitions, cur, data.status)
  {
    hide *;
    var ts, n := t.transitions, |data.timeline|;
    var evs := TimelineEvents(data, now, n);
    PlainRecord(t, data, now, logs, flat, path);
    HarmlessTail(ts, t.initial, evs, HopMark(data, now, n), data.status);
    DocumentedReplayIff(t, data, now, logs, flat, path);
    assert flat[..n] == evs;
  }

  /** A record without terminal facts: timeline and hops. */
  lemma PlainRecord(t: Table, data: Legacy, now: string, logs: Logs, flat: seq<Event>, path: seq<Status>)
    requires Exploded(t, data, now, logs, flat, path) && data.status != "" && Terminals(t.kind, data) == []
    ensures var n, evs, cur := |data.timeline|, TimelineEvents(data, now, |data.timeline|), Folded(t, data, now);
            && |flat| == n + |path| && flat[..n] == evs && Numbered(evs) && cur == Replay(t.transitions, t.initial, evs)
            && (Fires(t.transitions, cur, path) <==> cur != data.status && Reachable(t.transitions, cur, data.status))
  {
    hide TimelineEvents, LastStamp, Next, Replay;
    var n, evs := |data.timeline|, TimelineEvents(data, now, |data.timeline|);
    FiresIffPath(t, Folded(t, data, now), data.status, path);
    assert Numbered(evs) by { assert forall i :: 0 <= i < n ==> evs[i] == flat[i]; }
  }

  /** When all statuses sort before `mark`, the events from there on change nothing. */
  lemma HarmlessTail(ts: Transitions<Status>, s: Status, evs: seq<Event>, mark: Event, x: Status)
    requires InFoldOrder(evs) && Numbered(evs)
    requires forall e :: e in evs && e.payload.StatusTo? ==> Earlier(e, mark)
    ensures FoldSorted(evs) == evs
    ensures var k := Leading(evs, mark);
            && Replay(ts, s, evs[..k]) == Replay(ts, s, evs)
            && Replay(ts, x, evs[k..]) == x && Replay(ts, Replay(ts, s, evs), evs[k..]) == Replay(ts, s, evs)
  {
    hide Earlier, Replay, Leading, FoldSorted;
    SortedStays(evs);
    LeadingSplits(evs, mark);
    var k := Leading(evs, mark);
    assert evs == evs[..k] + evs[k..];
    ReplayConcat(ts, s, evs[..k], evs[k..]);
    NoStatusNoChange(ts, Replay(ts, s, evs[..k]), evs[k..]);
    NoStatusNoChange(ts, x, evs[k..]);
  }

  /** From the status the bridge starts at, it fires exactly when it is not empty. */
  lemma FiresIffPath(t: Table, cur: Status, target: Status, path: seq<Status>)
    requires Bridges(t, cur, target, path)
    ensures Fires(t.transitions, cur, path) <==> path != []
  {
    if path != [] { assert path[0] in Next(t.transitions, Before(cur, path, 0)); }
  }

  // ---------- A record that loses its status ----------

  lemma AnalyzingEntry()
    ensures MapEntry(Entry("opus", "T", "status:identified->analyzing", "")) == StatusTo("analyzing", "")
  {
    hide HasArrow, AfterLastArrow;
    var action := "status:identified->analyzing";
    assert action[7..] == "identified" + "->" + "analyzing";
    NoDashNoArrow("analyzing");
    AfterArrow("identified", "analyzing");
    assert Strip("analyzing") == "analyzing";
  }

  lemma SmallLogs(e0: Event, e1: Event) returns (logs: Logs)
    requires e0.seqNo == 0 && e1.seqNo == 1
    ensures Splits(logs, [e0, e1])
  {
    EmptySplits();
    logs := Append(map[], e0);
    AppendSplits(map[], [], e0);
    assert [] + [e0] == [e0];
    AppendSplits(logs, [e0], e1);
    logs := Append(logs, e1);
    assert [e0] + [e1] == [e0, e1];
  }

  /** The documented life of a problem: identified, analyzing, known_error, resolved. */
  const PROBLEM_CHAIN: Transitions<Status> :=
    map["identified" := ["analyzing"], "analyzing" := ["known_error"], "known_error" := ["resolved"]]

  lemma KnownErrorIsNext()
    ensures Leads(PROBLEM_CHAIN, "analyzing", "known_error", ["known_error"])
    ensures Reachable(PROBLEM_CHAIN, "analyzing", "known_error")
    ensures "known_error" in Next(PROBLEM_CHAIN, "analyzing")
    ensures "known_error" !in Next(PROBLEM_CHAIN, "identified") && "analyzing" in Next(PROBLEM_CHAIN, "identified")
  {
    var ts, path := PROBLEM_CHAIN, ["known_error"];
    assert "analyzing"[0] != "identified"[0] && "known_error"[0] != "identified"[0]
           && "analyzing"[0] != "known_error"[0];
    assert Chain(ts, "analyzing", path) by { assert "known_error" in Next(ts, Before("analyzing", path, 0)); }
    assert Leads(ts, "analyzing", "known_error", path);
  }

  lemma OneEntryRecord(e0: Event) returns (data: Legacy)
    requires e0 == Event("T", "opus", StatusTo("analyzing", ""), 0)
    ensures data.timeline == [Entry("opus", "T", "status:identified->analyzing", "")] && data.status == "known_error"
    ensures LastStamp(data, "", 1) == "T" && TimelineEvents(data, "", 1) == [e0] && Terminals(Problems, data) == []
  {
    data := Legacy([Entry("opus", "T", "status:identified->analyzing", "")], "T", "", "", "", "", "known_error");
    AnalyzingEntry();
    hide MapEntry;
    assert LastStamp(data, "", 0) == "T";
    assert TimelineEvents(data, "", 0) == [] && TimelineEvent(data, "", 0) == e0;
  }

  lemma HopSortsFirst(e0: Event, e1: Event)
    requires e0.ts == e1.ts && e0.writer == "opus" && e1.writer == MIGRATION && e0.seqNo == 0 && e1.seqNo == 1
    ensures FoldSorted([e0, e1]) == [e1, e0]
  {
    HopIsEarlier(e0, e1);
    hide FoldSorted, Earlier;
    SortIsFoldOrder([e0, e1]);
    Swapped(e0, e1);
    FoldOrderUnique(FoldSorted([e0, e1]), [e1, e0]);
  }

  lemma HopIsEarlier(e0: Event, e1: Event)
    requires e0.ts == e1.ts && e0.writer == "opus" && e1.writer == MIGRATION
    ensures Earlier(e1, e0)
  {
    assert LexLess(MIGRATION, "opus");
  }

  lemma Swapped(e0: Event, e1: Event)
    ensures multiset([e0, e1]) == multiset([e1, e0])
  {
  }

  lemma ReplayTwo(ts: Transitions<Status>, s: Status, e: Event, f: Event)
    ensures Replay(ts, s, [e]) == Apply(ts, s, e.payload)
    ensures Replay(ts, s, [e, f]) == Apply(ts, Apply(ts, s, e.payload), f.payload)
  {
  }

  lemma TwoReplays(e0: Event, e1: Event)
    requires e0.payload == StatusTo("analyzing", "") && e1.payload == StatusTo("known_error", "")
    ensures Replay(PROBLEM_CHAIN, "identified", [e0]) == "analyzing"
    ensures Replay(PROBLEM_CHAIN, "identified", [e0, e1]) == "known_error"
    ensures Replay(PROBLEM_CHAIN, "identified", [e1, e0]) == "analyzing"
  {
    KnownErrorIsNext();
    hide Next, Replay;
    ReplayTwo(PROBLEM_CHAIN, "identified", e0, e1);
    ReplayTwo(PROBLEM_CHAIN, "identified", e1, e0);
  }

  lemma TwoEventsExploded(t: Table, data: Legacy, logs: Logs, e0: Event, e1: Event)
    requires t == Table(Problems, PROBLEM_CHAIN, "identified")
    requires |data.timeline| == 1 && data.status == "known_error" && Terminals(Problems, data) == []
    requires LastStamp(data, "", 1) == "T" && TimelineEvents(data, "", 1) == [e0] && Splits(logs, [e0, e1])
    requires e1 == Event("T", MIGRATION, StatusTo("known_error", ""), 1) && Folded(t, data, "") == "analyzing"
    ensures Exploded(t, data, "", logs, [e0, e1], ["known_error"])
  {
    KnownErrorIsNext();
    hide Splits, TimelineEvents, LastStamp, Terminals, Next, Reachable, Leads, Folded;
    assert [e0, e1][..1] == [e0];
    assert "analyzing"[0] != "known_error"[0];
  }

  /**
   A problem that loses its status: the hop to known_error carries the last entry's time, and the writer
   "migration" sorts before "opus", so the hop is replayed before the entry it continues from.
   */
  lemma HopBeforeItsEntry()
    returns (t: Table, data: Legacy, logs: Logs, flat: seq<Event>, path: seq<Status>)
    ensures t == Table(Problems, PROBLEM_CHAIN, "identified") && Exploded(t, data, "", logs, flat, path)
    ensures Reachable(t.transitions, Folded(t, data, ""), data.status)
    ensures Replay(t.transitions, t.initial, flat) == data.status != Replay(t.transitions, t.initial, FoldSorted(flat))
  {
    hide Exploded, Splits, TimelineEvents, LastStamp, Terminals, Reachable, FoldSorted, Replay;
    t := Table(Problems, PROBLEM_CHAIN, "identified");
    var e0 := Event("T", "opus", StatusTo("analyzing", ""), 0);
    var e1 := Event("T", MIGRATION, StatusTo("known_error", ""), 1);
    data := OneEntryRecord(e0);
    logs := SmallLogs(e0, e1);
    flat, path := [e0, e1], ["known_error"];
    KnownErrorIsNext();
    TwoReplays(e0, e1);
    TwoEventsExploded(t, data, logs, e0, e1);
    HopSortsFirst(e0, e1);
    assert "analyzing"[0] != "known_error"[0];
  }
}
