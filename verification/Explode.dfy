/**
 Exploding a legacy record into per-writer event logs, and what replaying the logs gives back.
 */
module Explode {
  import opened Bridge
  import opened Text

  type Status = string

  /** A missing field is the empty string, as the code treats both alike. */
  datatype Entry = Entry(agent: string, ts: string, action: string, note: string)

  datatype RecordType = Incidents | Problems | Changes

  datatype Legacy = Legacy(
    timeline: seq<Entry>,
    detectedAt: string, createdAt: string,
    acknowledgedAt: string, resolvedAt: string, closedAt: string,
    status: Status)

  datatype Payload =
    | Created(note: string)
    | StatusTo(to: Status, note: string)
    | SeverityTo(to: string, note: string)
    | AutoApproved(note: string)
    | Note(note: string)
    | Ack

  datatype Event = Event(ts: string, writer: string, payload: Payload, seqNo: nat)

  /** The transition table and first status of a record type. */
  datatype Table = Table(kind: RecordType, transitions: Transitions<Status>, initial: Status)

  // ---------- One timeline entry ----------

  function Target(rest: string): string {
    Strip(if HasArrow(rest) then AfterLastArrow(rest) else rest)
  }

  /** Every entry becomes exactly one event; an unknown action is kept as a note. */
  function MapEntry(e: Entry): Payload {
    if e.action == "created" || e.action == "proposed" then Created(e.note)
    else if StartsWith(e.action, "status:") then StatusTo(Target(e.action[|"status:"|..]), e.note)
    else if StartsWith(e.action, "severity:") then SeverityTo(Target(e.action[|"severity:"|..]), e.note)
    else if e.action == "auto-approved" then AutoApproved(e.note)
    else if e.action == "note" then Note(e.note)
    else Note(if e.note != "" then e.note else e.action)
  }

  function Writer(e: Entry): string {
    if e.agent == "" then "unknown" else e.agent
  }

  function Stamp(e: Entry, lastTs: string): string {
    if e.ts == "" then lastTs else e.ts
  }

  function FirstStamp(data: Legacy, now: string): string {
    if data.detectedAt != "" then data.detectedAt else if data.createdAt != "" then data.createdAt else now
  }

  /** A status or severity change counts with what follows its last arrow, stripped. */
  lemma ChangeEntry(e: Entry, a: string, b: string)
    requires !HasArrow(b)
    ensures e.action == "status:" + (a + "->" + b) || e.action == "status:" + b ==>
              MapEntry(e) == StatusTo(Strip(b), e.note)
    ensures e.action == "severity:" + (a + "->" + b) || e.action == "severity:" + b ==>
              MapEntry(e) == SeverityTo(Strip(b), e.note)
  {
    AfterArrow(a, b);
    hide Strip, HasArrow, AfterLastArrow;
    StatusEntry(e, a + "->" + b);
    StatusEntry(e, b);
    SeverityEntry(e, a + "->" + b);
    SeverityEntry(e, b);
    hide MapEntry;
  }

  lemma StatusEntry(e: Entry, rest: string)
    ensures e.action == "status:" + rest ==> MapEntry(e) == StatusTo(Target(rest), e.note)
  {
    hide Target;
    After("status:", rest);
    if e.action == "status:" + rest { assert e.action[1] == 't'; }
  }

  lemma SeverityEntry(e: Entry, rest: string)
    ensures e.action == "severity:" + rest ==> MapEntry(e) == SeverityTo(Target(rest), e.note)
  {
    hide Target;
    After("severity:", rest);
    if e.action == "severity:" + rest { assert e.action[1] == 'e' && e.action[2] == 'v'; }
  }

  lemma After(prefix: string, rest: string)
    ensures (prefix + rest)[|prefix|..] == rest && prefix <= prefix + rest
  {
  }

  /** Every other action: a creation, an approval, a note, or kept as a note so that nothing is lost. */
  lemma OtherEntry(e: Entry)
    requires !("status:" <= e.action) && !("severity:" <= e.action)
    ensures MapEntry(e) == match e.action
                           case "created" => Created(e.note)
                           case "proposed" => Created(e.note)
                           case "auto-approved" => AutoApproved(e.note)
                           case "note" => Note(e.note)
                           case other => Note(if e.note != "" then e.note else other)
  {
  }

  // ---------- Replay ----------

  /** Apply one event to a status; a transition the table does not allow is ignored. */
  function Apply(ts: Transitions<Status>, s: Status, p: Payload): Status {
    if p.StatusTo? && p.to in Next(ts, s) then p.to else s
  }

  function Replay(ts: Transitions<Status>, s: Status, evs: seq<Event>): Status {
    if evs == [] then s else Apply(ts, Replay(ts, s, evs[..|evs| - 1]), evs[|evs| - 1].payload)
  }

  lemma {:induction false} ReplayConcat(ts: Transitions<Status>, s: Status, a: seq<Event>, b: seq<Event>)
    ensures Replay(ts, s, a + b) == Replay(ts, Replay(ts, s, a), b)
    decreases |b|
  {
    if b == [] {
      assert a + b == a;
    } else {
      assert (a + b)[..|a + b| - 1] == a + b[..|b| - 1];
      ReplayConcat(ts, s, a, b[..|b| - 1]);
    }
  }

  /** The events that walk along `path`. */
  ghost predicate Walks(evs: seq<Event>, path: seq<Status>) {
    |evs| == |path| && forall i :: 0 <= i < |evs| ==> evs[i].payload == StatusTo(path[i], "")
  }

  /** From status `x` some hop of the path is an allowed transition. */
  ghost predicate Fires(ts: Transitions<Status>, x: Status, path: seq<Status>) {
    exists i :: 0 <= i < |path| && path[i] in Next(ts, x)
  }

  /** Replaying a chain from any status: once one hop applies, so do all later ones. */
  lemma {:induction false} ReplayHops(ts: Transitions<Status>, cur: Status, path: seq<Status>, evs: seq<Event>,
                                      x: Status)
    requires Chain(ts, cur, path) && Walks(evs, path)
    ensures Replay(ts, x, evs) == if Fires(ts, x, path) then path[|path| - 1] else x
    decreases |path|
  {
    if path != [] {
      var k := |path| - 1;
      var front := path[..k];
      assert Chain(ts, cur, front) by {
        forall i | 0 <= i < k ensures front[i] in Next(ts, Before(cur, front, i)) {
          assert path[i] in Next(ts, Before(cur, path, i));
        }
      }
      ReplayHops(ts, cur, front, evs[..k], x);
      assert path[k] in Next(ts, Before(cur, path, k));
      if Fires(ts, x, front) {
        var i :| 0 <= i < k && front[i] in Next(ts, x);
        assert path[i] in Next(ts, x);
      } else if path[k] in Next(ts, x) {
        assert Fires(ts, x, path);
      } else {
        assert forall i :: 0 <= i < k ==> path[i] == front[i];
      }
    }
  }

  // ---------- Logs ----------

  type Logs = map<string, seq<Event>>

  function Log(logs: Logs, w: string): seq<Event> {
    if w in logs then logs[w] else []
  }

  ghost predicate InLog(log: seq<Event>, e: Event) {
    exists k :: 0 <= k < |log| && log[k] == e
  }

  /** One writer's log: its events in rising order, each the event of that number. */
  ghost predicate LogOk(log: seq<Event>, w: string, flat: seq<Event>) {
    && (forall k :: 0 <= k < |log| ==> log[k].writer == w && log[k].seqNo < |flat| && flat[log[k].seqNo] == log[k])
    && (forall j, k :: 0 <= j < k < |log| ==> log[j].seqNo < log[k].seqNo)
  }

  /** The i-th event is in its writer's log. */
  ghost predicate Held(logs: Logs, flat: seq<Event>, i: nat)
    requires i < |flat|
  {
    InLog(Log(logs, flat[i].writer), flat[i])
  }

  /** `logs` holds the events of `flat`, each under its writer, in order, numbered by position. */
  ghost predicate Splits(logs: Logs, flat: seq<Event>) {
    && (forall i :: 0 <= i < |flat| ==> flat[i].seqNo == i)
    && (forall i {:trigger Held(logs, flat, i)} :: 0 <= i < |flat| ==> Held(logs, flat, i))
    && (forall w :: LogOk(Log(logs, w), w, flat))
  }

  /** `setdefault(writer, []).append(ev)`. */
  function Append(logs: Logs, e: Event): Logs {
    logs[e.writer := Log(logs, e.writer) + [e]]
  }

  lemma InLogAppend(log: seq<Event>, e: Event, x: Event)
    requires InLog(log, x) || x == e
    ensures InLog(log + [e], x)
  {
    var log' := log + [e];
    if x == e {
      assert log'[|log|] == e;
    } else {
      var k :| 0 <= k < |log| && log[k] == x;
      assert log'[k] == x;
    }
  }

  lemma EmptySplits()
    ensures Splits(map[], [])
  {
  }

  lemma LogOkGrows(log: seq<Event>, w: string, flat: seq<Event>, e: Event)
    requires LogOk(log, w, flat) && e.seqNo == |flat|
    ensures LogOk(log, w, flat + [e])
    ensures w == e.writer ==> LogOk(log + [e], w, flat + [e])
  {
  }

  lemma AppendSplits(logs: Logs, flat: seq<Event>, e: Event)
    requires Splits(logs, flat) && e.seqNo == |flat|
    ensures Splits(Append(logs, e), flat + [e])
  {
    hide LogOk, InLog;
    var logs', flat' := Append(logs, e), flat + [e];
    forall i | 0 <= i < |flat'| ensures Held(logs', flat', i) {
      assert i < |flat| ==> Held(logs, flat, i);
      if flat'[i].writer == e.writer { InLogAppend(Log(logs, e.writer), e, flat'[i]); }
    }
    forall w ensures LogOk(Log(logs', w), w, flat') {
      LogOkGrows(Log(logs, w), w, flat, e);
    }
  }

  lemma SplitsAgree(logs: Logs, a: seq<Event>, b: seq<Event>, i: nat)
    requires Splits(logs, a) && Splits(logs, b) && i < |a|
    ensures i < |b| && a[i] == b[i]
  {
    assert Held(logs, a, i) && LogOk(Log(logs, a[i].writer), a[i].writer, b);
  }

  /** Sequence numbers are unique over all logs, and merging by them gives back one list only. */
  lemma MergeIsUnique(logs: Logs, a: seq<Event>, b: seq<Event>)
    requires Splits(logs, a) && Splits(logs, b)
    ensures a == b
  {
    if |a| > |b| { SplitsAgree(logs, a, b, |b|); }
    if |b| > |a| { SplitsAgree(logs, b, a, |a|); }
    forall i | 0 <= i < |a| ensures a[i] == b[i] {
      SplitsAgree(logs, a, b, i);
    }
  }

  // ---------- The code ----------

  const MIGRATION := "migration"
  const RESOLVED: Status := "resolved"
  const CLOSED: Status := "closed"

  /** The time given to entries without one: that of the entry before. */
  function LastStamp(data: Legacy, now: string, n: nat): string
    requires n <= |data.timeline|
  {
    if n == 0 then FirstStamp(data, now) else Stamp(data.timeline[n - 1], LastStamp(data, now, n - 1))
  }

  function TimelineEvent(data: Legacy, now: string, i: nat): Event
    requires i < |data.timeline|
  {
    Event(LastStamp(data, now, i + 1), Writer(data.timeline[i]), MapEntry(data.timeline[i]), i)
  }

  /** The first `n` timeline entries as events. */
  function TimelineEvents(data: Legacy, now: string, n: nat): (evs: seq<Event>)
    requires n <= |data.timeline|
    ensures |evs| == n && forall i :: 0 <= i < n ==> evs[i] == TimelineEvent(data, now, i)
  {
    if n == 0 then [] else TimelineEvents(data, now, n - 1) + [TimelineEvent(data, now, n - 1)]
  }

  /** The recorded terminal facts of an incident, as (time, event) pairs. */
  function Terminals(kind: RecordType, data: Legacy): seq<(string, Payload)> {
    if kind != Incidents then []
    else (if data.acknowledgedAt != "" then [(data.acknowledgedAt, Ack)] else [])
         + (if data.resolvedAt != "" then [(data.resolvedAt, StatusTo(RESOLVED, ""))] else [])
         + (if data.closedAt != "" then [(data.closedAt, StatusTo(CLOSED, ""))] else [])
  }

  /**
   Each timeline event keeps its writer, or `unknown`, and its time, or that of the event before; the first falls
   back on when the record was detected, was created, or is migrated.
   */
  lemma TimelineEventIs(data: Legacy, now: string, i: nat)
    requires i < |data.timeline|
    ensures var e, ev := data.timeline[i], TimelineEvents(data, now, |data.timeline|)[i];
            && ev.seqNo == i && ev.payload == MapEntry(e) && ev.writer == (if e.agent == "" then "unknown" else e.agent)
            && ev.ts == if e.ts != "" then e.ts
                        else if i > 0 then TimelineEvents(data, now, |data.timeline|)[i - 1].ts
                        else if data.detectedAt != "" then data.detectedAt
                        else if data.createdAt != "" then data.createdAt else now
  {
    hide MapEntry;
    var evs := TimelineEvents(data, now, |data.timeline|);
    hide TimelineEvents;
    assert evs[i] == TimelineEvent(data, now, i);
    assert LastStamp(data, now, i + 1) == Stamp(data.timeline[i], LastStamp(data, now, i));
    if i > 0 {
      assert evs[i - 1] == TimelineEvent(data, now, i - 1) && i - 1 + 1 == i;
    } else {
      assert LastStamp(data, now, 0) == FirstStamp(data, now);
    }
  }

  /** An incident's recorded facts in order, each at its time, and nothing else; problems and changes have none. */
  lemma TerminalFacts(kind: RecordType, data: Legacy)
    ensures var ack, resolved, closed := data.acknowledgedAt, data.resolvedAt, data.closedAt;
            var n, facts := if ack == "" then 0 else 1, Terminals(kind, data);
            && (kind != Incidents ==> facts == [])
            && (kind == Incidents ==>
                  && |facts| == n + (if resolved == "" then 0 else 1) + (if closed == "" then 0 else 1)
                  && (ack != "" ==> facts[0] == (ack, Ack))
                  && (resolved != "" ==> facts[n] == (resolved, StatusTo("resolved", "")))
                  && (closed != "" ==> facts[|facts| - 1] == (closed, StatusTo("closed", ""))))
  {
    var a: seq<(string, Payload)> := if data.acknowledgedAt != "" then [(data.acknowledgedAt, Ack)] else [];
    var r := if data.resolvedAt != "" then [(data.resolvedAt, StatusTo(RESOLVED, ""))] else [];
    var c := if data.closedAt != "" then [(data.closedAt, StatusTo(CLOSED, ""))] else [];
    if kind == Incidents {
      assert Terminals(kind, data) == a + r + c;
      assert a != [] ==> (a + r + c)[0] == a[0];
      assert r != [] ==> (a + r + c)[|a|] == r[0];
      assert c != [] ==> (a + r + c)[|a + r|] == c[0];
    }
  }

  /** From position `n` on, `flat` holds the synthesized facts. */
  ghost predicate Synthesized(flat: seq<Event>, facts: seq<(string, Payload)>, n: nat) {
    && n + |facts| <= |flat|
    && forall i :: n <= i < n + |facts| ==> flat[i] == Event(facts[i - n].0, MIGRATION, facts[i - n].1, i)
  }

  function Hops(ts: string, path: seq<Status>): (facts: seq<(string, Payload)>)
    ensures |facts| == |path| && forall i :: 0 <= i < |path| ==> facts[i] == (ts, StatusTo(path[i], ""))
  {
    seq(|path|, i requires 0 <= i < |path| => (ts, StatusTo(path[i], "")))
  }

  /** The status after the timeline alone. */
  function Folded(t: Table, data: Legacy, now: string): Status {
    Replay(t.transitions, t.initial, TimelineEvents(data, now, |data.timeline|))
  }

  /** The path found from the folded to the recorded status; empty when there is nothing to bridge or no way. */
  ghost predicate Bridges(t: Table, cur: Status, target: Status, path: seq<Status>) {
    && (path == [] <==> target == "" || cur == target || !Reachable(t.transitions, cur, target))
    && (path != [] ==> Leads(t.transitions, cur, target, path))
  }

  /** `flat` is the timeline, then `facts`, then the hops along `path`; `logs` holds it by writer. */
  ghost predicate Assembled(data: Legacy, now: string, facts: seq<(string, Payload)>, logs: Logs, flat: seq<Event>,
                            path: seq<Status>) {
    var n, m := |data.timeline|, |data.timeline| + |facts|;
    && Splits(logs, flat) && |flat| == m + |path|
    && flat[..n] == TimelineEvents(data, now, n) && Synthesized(flat, facts, n)
    && Synthesized(flat, Hops(LastStamp(data, now, n), path), m)
  }

  /** What an explosion produces: the timeline, the terminal facts, and the hops to the recorded status. */
  ghost predicate Exploded(t: Table, data: Legacy, now: string, logs: Logs, flat: seq<Event>, path: seq<Status>) {
    && Assembled(data, now, Terminals(t.kind, data), logs, flat, path)
    && Bridges(t, Folded(t, data, now), data.status, path)
  }

  /** The logs are those of some explosion; MergeIsUnique says of which one. */
  ghost predicate Explodes(t: Table, data: Legacy, now: string, logs: Logs) {
    exists flat, path :: Exploded(t, data, now, logs, flat, path)
  }

  method EventsFromLegacy(t: Table, data: Legacy, now: string) returns (logs: Logs)
    ensures Explodes(t, data, now, logs)
  {
    var folded, lastTs;
    ghost var flat, path;
    logs, folded, lastTs, flat := MapTimeline(t, data, now);
    var hops := [];
    if data.status != "" && data.status != folded {
      hops := BridgePath(t.transitions, folded, data.status);
    }
    path := hops;
    logs, flat := AddSynthesized(data, now, Terminals(t.kind, data), lastTs, hops, logs, flat);
    assert Exploded(t, data, now, logs, flat, path);
  }

  method AddSynthesized(data: Legacy, now: string, facts: seq<(string, Payload)>, lastTs: string, hops: seq<Status>,
                        logs0: Logs, ghost flat0: seq<Event>)
    returns (logs: Logs, ghost flat: seq<Event>)
    requires Splits(logs0, flat0) && flat0 == TimelineEvents(data, now, |data.timeline|)
    requires lastTs == LastStamp(data, now, |data.timeline|)
    ensures Assembled(data, now, facts, logs, flat, hops)
  {
    logs, flat := Synthesize(facts, |data.timeline|, logs0, flat0);
    ghost var middle := flat;
    logs, flat := Synthesize(Hops(lastTs, hops), |data.timeline| + |facts|, logs, flat);
    LaterPartsKeep(middle, flat, facts, |flat0|);
  }

  lemma LaterPartsKeep(a: seq<Event>, b: seq<Event>, facts: seq<(string, Payload)>, n: nat)
    requires |a| <= |b| && b[..|a|] == a && n <= |a| && Synthesized(a, facts, n)
    ensures b[..n] == a[..n] && Synthesized(b, facts, n)
  {
  }

  /** The first loop: one event per timeline entry, and the status they fold to. */
  method MapTimeline(t: Table, data: Legacy, now: string)
    returns (logs: Logs, folded: Status, lastTs: string, ghost flat: seq<Event>)
    ensures Splits(logs, flat) && flat == TimelineEvents(data, now, |data.timeline|)
    ensures folded == Folded(t, data, now) && lastTs == LastStamp(data, now, |data.timeline|)
  {
    hide Splits, MapEntry, Stamp, Writer, Next, FirstStamp;
    EmptySplits();
    logs, flat := map[], [];
    folded, lastTs := t.initial, FirstStamp(data, now);
    var order := 0;
    while order < |data.timeline|
      invariant 0 <= order <= |data.timeline| && Splits(logs, flat)
      invariant flat == TimelineEvents(data, now, order) && lastTs == LastStamp(data, now, order)
      invariant folded == Replay(t.transitions, t.initial, flat)
    {
      var entry := data.timeline[order];
      lastTs := Stamp(entry, lastTs);
      var ev := Event(lastTs, Writer(entry), MapEntry(entry), order);
      if ev.payload.StatusTo? && ev.payload.to in Next(t.transitions, folded) {
        folded := ev.payload.to;
      }
      AppendSplits(logs, flat, ev);
      assert (flat + [ev])[..|flat + [ev]| - 1] == flat;
      logs, flat, order := Append(logs, ev), flat + [ev], order + 1;
    }
  }

  /** The second loop: append synthesized facts under the migration's own writer. */
  method Synthesize(facts: seq<(string, Payload)>, order: nat, logs0: Logs, ghost flat0: seq<Event>)
    returns (logs: Logs, ghost flat: seq<Event>)
    requires Splits(logs0, flat0) && order == |flat0|
    ensures Splits(logs, flat) && |flat| == order + |facts| && flat[..order] == flat0
    ensures Synthesized(flat, facts, order)
  {
    logs, flat := logs0, flat0;
    var i := 0;
    while i < |facts|
      invariant 0 <= i <= |facts| && Splits(logs, flat) && |flat| == order + i
      invariant flat[..order] == flat0
      invariant forall j :: order <= j < order + i ==>
                  flat[j] == Event(facts[j - order].0, MIGRATION, facts[j - order].1, j)
    {
      var ev := Event(facts[i].0, MIGRATION, facts[i].1, order + i);
      AppendSplits(logs, flat, ev);
      logs, flat := Append(logs, ev), flat + [ev];
      i := i + 1;
    }
  }

  // ---------- Replaying what was exploded ----------

  function ApplyFacts(ts: Transitions<Status>, s: Status, facts: seq<(string, Payload)>): Status {
    if facts == [] then s else Apply(ts, ApplyFacts(ts, s, facts[..|facts| - 1]), facts[|facts| - 1].1)
  }

  /** The status after the timeline and the recorded terminal facts. */
  function MidStatus(t: Table, data: Legacy, now: string): Status {
    ApplyFacts(t.transitions, Folded(t, data, now), Terminals(t.kind, data))
  }

  lemma {:induction false} ReplayFacts(ts: Transitions<Status>, s: Status, flat: seq<Event>,
                                       facts: seq<(string, Payload)>, n: nat)
    requires Synthesized(flat, facts, n)
    ensures Replay(ts, s, flat[n..n + |facts|]) == ApplyFacts(ts, s, facts)
    decreases |facts|
  {
    if facts != [] {
      var k := |facts| - 1;
      var evs := flat[n..n + |facts|];
      assert evs[..k] == flat[n..n + k] && evs[k] == flat[n + k];
      ReplayFacts(ts, s, flat, facts[..k], n);
    }
  }

  /** Replay in three parts: timeline, facts, hops. */
  lemma ReplayThree(ts: Transitions<Status>, s: Status, flat: seq<Event>, n: nat, m: nat)
    requires n <= m <= |flat|
    ensures Replay(ts, s, flat) == Replay(ts, Replay(ts, Replay(ts, s, flat[..n]), flat[n..m]), flat[m..])
  {
    assert flat == flat[..n] + (flat[n..m] + flat[m..]);
    ReplayConcat(ts, s, flat[..n], flat[n..m] + flat[m..]);
    ReplayConcat(ts, Replay(ts, s, flat[..n]), flat[n..m], flat[m..]);
  }

  lemma WalkSlice(flat: seq<Event>, stamp: string, path: seq<Status>, m: nat)
    requires Synthesized(flat, Hops(stamp, path), m) && |flat| == m + |path|
    ensures Walks(flat[m..], path)
  {
  }

  lemma BridgeIsChain(t: Table, cur: Status, target: Status, path: seq<Status>)
    requires Bridges(t, cur, target, path)
    ensures Chain(t.transitions, cur, path) && (path != [] ==> path[|path| - 1] == target)
  {
  }

  /**
   Merged by sequence number and replayed, the logs of any record end in the recorded status exactly when
   the terminal facts lead there, or to a status from which some hop of the bridge applies.
   */
  lemma StatusIsReproduced(t: Table, data: Legacy, now: string, logs: Logs, flat: seq<Event>, path: seq<Status>)
    requires Exploded(t, data, now, logs, flat, path) && data.status != ""
    ensures var mid := MidStatus(t, data, now);
            Replay(t.transitions, t.initial, flat) == data.status
            <==> mid == data.status || Fires(t.transitions, mid, path)
  {
    hide Replay, Splits, Synthesized, TimelineEvents, Terminals, LastStamp, Hops, Fires, Bridges;
    var n, facts := |data.timeline|, Terminals(t.kind, data);
    ReplayThree(t.transitions, t.initial, flat, n, n + |facts|);
    ReplayFacts(t.transitions, Folded(t, data, now), flat, facts, n);
    BridgeIsChain(t, Folded(t, data, now), data.status, path);
    WalkSlice(flat, LastStamp(data, now, n), path, n + |facts|);
    ReplayHops(t.transitions, Folded(t, data, now), path, flat[n + |facts|..], MidStatus(t, data, now));
    NoHopNoFire(t.transitions, MidStatus(t, data, now));
  }

  lemma NoHopNoFire(ts: Transitions<Status>, x: Status)
    ensures !Fires(ts, x, [])
  {
  }

  /** The guard the code leaves without effect: no recorded terminal fact is a transition that would apply. */
  predicate TerminalsQuiet(t: Table, data: Legacy, now: string) {
    var cur := Folded(t, data, now);
    t.kind == Incidents ==>
      && (data.resolvedAt != "" ==> RESOLVED !in Next(t.transitions, cur))
      && (data.closedAt != "" ==> CLOSED !in Next(t.transitions, cur))
  }

  lemma {:induction false} QuietFactsStay(ts: Transitions<Status>, s: Status, facts: seq<(string, Payload)>)
    requires forall i :: 0 <= i < |facts| && facts[i].1.StatusTo? ==> facts[i].1.to !in Next(ts, s)
    ensures ApplyFacts(ts, s, facts) == s
  {
    if facts != [] { QuietFactsStay(ts, s, facts[..|facts| - 1]); }
  }

  /** So with quiet terminal facts the status is reproduced when there is nothing to bridge or a way to bridge it. */
  lemma QuietRecordKeepsStatus(t: Table, data: Legacy, now: string, logs: Logs, flat: seq<Event>, path: seq<Status>)
    requires Exploded(t, data, now, logs, flat, path) && TerminalsQuiet(t, data, now) && data.status != ""
    ensures var cur := Folded(t, data, now);
            Replay(t.transitions, t.initial, flat) == data.status
            <==> cur == data.status || Reachable(t.transitions, cur, data.status)
  {
    var cur := Folded(t, data, now);
    QuietFactsStay(t.transitions, cur, Terminals(t.kind, data));
    StatusIsReproduced(t, data, now, logs, flat, path);
    if path != [] { assert path[0] in Next(t.transitions, Before(cur, path, 0)); }
  }
}
