/** Fitting prompt sections into a character budget by trimming the unprotected ones. */
module PromptBudget {

  datatype Section = Section(name: string, text: string, priority: int)

  const PROTECTED_MIN_PRIORITY := 50
  const TRIM_MARKER := "\n[...trimmed]"
  const SEPARATOR := "\n\n"

  predicate Protected(s: Section) {
    s.priority >= PROTECTED_MIN_PRIORITY
  }

  function MaxChars(maxTokens: int): nat {
    if maxTokens < 0 then 0 else 4 * maxTokens
  }

  // ---------- Joining ----------

  function NonEmpty(secs: seq<Section>): seq<Section> {
    if secs == [] then []
    else if secs[0].text != "" then [secs[0]] + NonEmpty(secs[1..])
    else NonEmpty(secs[1..])
  }

  function Texts(secs: seq<Section>): (ts: seq<string>)
    ensures |ts| == |secs| && forall i :: 0 <= i < |secs| ==> ts[i] == secs[i].text
  {
    seq(|secs|, i requires 0 <= i < |secs| => secs[i].text)
  }

  function NonBlank(ts: seq<string>): seq<string> {
    if ts == [] then [] else if ts[0] != "" then [ts[0]] + NonBlank(ts[1..]) else NonBlank(ts[1..])
  }

  function Join(ts: seq<string>): string {
    if ts == [] then "" else if |ts| == 1 then ts[0] else ts[0] + SEPARATOR + Join(ts[1..])
  }

  function Sum(ts: seq<string>): nat {
    if ts == [] then 0 else |ts[0]| + Sum(ts[1..])
  }

  /** Characters the separators between `n` sections take. */
  function Overhead(n: nat): nat {
    if n > 1 then |SEPARATOR| * (n - 1) else 0
  }

  lemma {:induction false} JoinLength(ts: seq<string>)
    ensures |Join(ts)| == Sum(ts) + Overhead(|ts|)
  {
    if |ts| == 1 {
      assert ts[1..] == [];
    } else if |ts| > 1 {
      JoinLength(ts[1..]);
    }
  }

  lemma {:induction false} NonBlankShrinks(ts: seq<string>)
    ensures |NonBlank(ts)| <= |ts| && Sum(NonBlank(ts)) == Sum(ts)
  {
    if ts != [] { NonBlankShrinks(ts[1..]); }
  }

  lemma {:induction false} SumUpdate(ts: seq<string>, i: nat, t: string)
    requires i < |ts|
    ensures Sum(ts[i := t]) == Sum(ts) - |ts[i]| + |t|
  {
    if i == 0 {
      assert ts[i := t][1..] == ts[1..];
    } else {
      assert ts[i := t][1..] == ts[1..][i - 1 := t];
      SumUpdate(ts[1..], i - 1, t);
    }
  }

  // ---------- Order of trimming ----------

  predicate Below(order: seq<nat>, n: nat) {
    forall k :: 0 <= k < |order| ==> order[k] < n
  }

  /** `sorted(..., key=priority, reverse=True)`: descending, ties in assembly order. */
  function Insert(secs: seq<Section>, i: nat, order: seq<nat>): seq<nat>
    requires i < |secs| && Below(order, |secs|)
  {
    if order == [] then [i]
    else if secs[order[0]].priority >= secs[i].priority then [order[0]] + Insert(secs, i, order[1..])
    else [i] + order
  }

  function RankUpTo(secs: seq<Section>, n: nat): (order: seq<nat>)
    requires n <= |secs|
    ensures Below(order, n)
  {
    if n == 0 then []
    else if Protected(secs[n - 1]) then RankUpTo(secs, n - 1)
    else
      InsertMembers(secs, n - 1, RankUpTo(secs, n - 1));
      Insert(secs, n - 1, RankUpTo(secs, n - 1))
  }

  lemma {:induction false} InsertMembers(secs: seq<Section>, i: nat, order: seq<nat>)
    requires i < |secs| && Below(order, |secs|)
    ensures forall o :: o in Insert(secs, i, order) <==> o == i || o in order
    ensures forall n :: i < n && Below(order, n) ==> Below(Insert(secs, i, order), n)
  {
    var r := Insert(secs, i, order);
    if order != [] && secs[order[0]].priority >= secs[i].priority {
      InsertMembers(secs, i, order[1..]);
      assert forall o :: o in order <==> o == order[0] || o in order[1..];
    }
    forall n | i < n && Below(order, n) ensures Below(r, n) {
      forall k | 0 <= k < |r| ensures r[k] < n { assert r[k] in r; }
    }
  }

  function Rank(secs: seq<Section>): seq<nat> {
    RankUpTo(secs, |secs|)
  }

  /** Earlier in the ranking: higher priority, or the same priority and earlier in the prompt. */
  predicate Outranks(secs: seq<Section>, a: nat, b: nat)
    requires a < |secs| && b < |secs|
  {
    secs[a].priority > secs[b].priority || (secs[a].priority == secs[b].priority && a < b)
  }

  ghost predicate Ranked(secs: seq<Section>, order: seq<nat>) {
    && (forall k :: 0 <= k < |order| ==> order[k] < |secs|)
    && (forall k, m :: 0 <= k < m < |order| ==> Outranks(secs, order[k], order[m]))
  }

  lemma {:induction false} InsertRanks(secs: seq<Section>, i: nat, order: seq<nat>)
    requires i < |secs| && Below(order, |secs|)
    requires Ranked(secs, order) && forall k :: 0 <= k < |order| ==> order[k] < i
    ensures Ranked(secs, Insert(secs, i, order))
  {
    var r := Insert(secs, i, order);
    InsertMembers(secs, i, order);
    if order != [] {
      if secs[order[0]].priority >= secs[i].priority {
        InsertMembers(secs, i, order[1..]);
        InsertRanks(secs, i, order[1..]);
        forall k, m | 0 <= k < m < |r| ensures Outranks(secs, r[k], r[m]) {
          if k == 0 {
            var x := r[m];
            assert x in Insert(secs, i, order[1..]);
            if x != i { var q :| 0 <= q < |order[1..]| && order[1..][q] == x; assert order[q + 1] == x; }
          } else {
            assert r[k] == Insert(secs, i, order[1..])[k - 1] && r[m] == Insert(secs, i, order[1..])[m - 1];
          }
        }
      } else {
        forall k, m | 0 <= k < m < |r| ensures Outranks(secs, r[k], r[m]) {
          if k == 0 { assert secs[order[0]].priority >= secs[order[m - 1]].priority; }
        }
      }
    }
  }

  /** The ranking lists exactly the trimmable sections, by descending priority, ties in order. */
  lemma {:induction false} RankIsRanked(secs: seq<Section>, n: nat)
    requires n <= |secs|
    ensures Ranked(secs, RankUpTo(secs, n))
    ensures forall i :: i in RankUpTo(secs, n) <==> 0 <= i < n && !Protected(secs[i])
  {
    if n > 0 {
      RankIsRanked(secs, n - 1);
      RankStep(secs, n);
      hide *;
    }
  }

  lemma RankStep(secs: seq<Section>, n: nat)
    requires 0 < n <= |secs| && Ranked(secs, RankUpTo(secs, n - 1))
    requires forall i :: i in RankUpTo(secs, n - 1) <==> 0 <= i < n - 1 && !Protected(secs[i])
    ensures Ranked(secs, RankUpTo(secs, n))
    ensures forall i :: i in RankUpTo(secs, n) <==> 0 <= i < n && !Protected(secs[i])
  {
    var order := RankUpTo(secs, n - 1);
    hide Ranked, Protected, Insert;
    if !Protected(secs[n - 1]) {
      InsertRanks(secs, n - 1, order);
      InsertMembers(secs, n - 1, order);
    }
  }

  // ---------- Trimming ----------

  /** What is left of one section when `remaining` characters are: whole, cut with the marker, or dropped. */
  function Cut(text: string, remaining: int): string {
    if remaining <= 0 then ""
    else if |text| <= remaining then text
    else if remaining > |TRIM_MARKER| then text[..remaining - |TRIM_MARKER|] + TRIM_MARKER
    else ""
  }

  function Left(text: string, remaining: int): int {
    if remaining <= 0 then remaining else if |text| <= remaining then remaining - |text| else 0
  }

  function Trim(ts: seq<string>, order: seq<nat>, remaining: int): (r: seq<string>)
    requires Below(order, |ts|)
    ensures |r| == |ts|
    decreases |order|
  {
    if order == [] then ts
    else Trim(ts[order[0] := Cut(ts[order[0]], remaining)], order[1..], Left(ts[order[0]], remaining))
  }

  lemma TrimStep(ts: seq<string>, order: seq<nat>, remaining: int)
    requires Below(order, |ts|) && order != []
    ensures Below(order[1..], |ts|)
    ensures Trim(ts, order, remaining)
            == Trim(ts[order[0] := Cut(ts[order[0]], remaining)], order[1..], Left(ts[order[0]], remaining))
  {
  }

  function SumAt(ts: seq<string>, order: seq<nat>): nat
    requires Below(order, |ts|)
  {
    if order == [] then 0 else |ts[order[0]]| + SumAt(ts, order[1..])
  }

  ghost predicate Distinct(order: seq<nat>) {
    forall k, m :: 0 <= k < m < |order| ==> order[k] != order[m]
  }

  lemma {:induction false} SumAtFrame(ts: seq<string>, order: seq<nat>, i: nat, t: string)
    requires Below(order, |ts|) && i < |ts| && i !in order
    ensures SumAt(ts[i := t], order) == SumAt(ts, order)
  {
    if order != [] {
      assert order[0] in order;
      SumAtFrame(ts, order[1..], i, t);
    }
  }

  /** The trimmed sections together take no more than the budget given to them. */
  lemma {:induction false} TrimFits(ts: seq<string>, order: seq<nat>, remaining: int)
    requires Below(order, |ts|) && Distinct(order) && remaining >= 0
    ensures Sum(Trim(ts, order, remaining)) <= Sum(ts) - SumAt(ts, order) + remaining
    decreases |order|
  {
    if order != [] {
      var i, t := order[0], Cut(ts[order[0]], remaining);
      SumUpdate(ts, i, t);
      SumAtFrame(ts, order[1..], i, t);
      TrimFits(ts[i := t], order[1..], Left(ts[i], remaining));
    }
  }

  /** Sections outside the ranking are not touched. */
  lemma {:induction false} TrimFrame(ts: seq<string>, order: seq<nat>, remaining: int, i: nat)
    requires Below(order, |ts|) && i < |ts| && i !in order
    ensures Trim(ts, order, remaining)[i] == ts[i]
    decreases |order|
  {
    if order != [] {
      assert order[0] in order;
      TrimFrame(ts[order[0] := Cut(ts[order[0]], remaining)], order[1..], Left(ts[order[0]], remaining), i);
    }
  }

  /** With nothing left, the rest of the ranking is dropped. */
  lemma {:induction false} TrimDrops(ts: seq<string>, order: seq<nat>, remaining: int)
    requires Below(order, |ts|) && Distinct(order) && remaining <= 0
    ensures forall k :: 0 <= k < |order| ==> Trim(ts, order, remaining)[order[k]] == ""
    decreases |order|
  {
    if order != [] {
      var ts' := ts[order[0] := ""];
      TrimDrops(ts', order[1..], remaining);
      TrimFrame(ts', order[1..], remaining, order[0]);
      forall k | 0 <= k < |order| ensures Trim(ts, order, remaining)[order[k]] == "" {
        if k > 0 { assert order[k] == order[1..][k - 1]; }
      }
    }
  }

  /** Whole sections up to `k`, at most one cut at `k` because it does not fit, none after. */
  ghost predicate Greedy(ts: seq<string>, order: seq<nat>, remaining: int, r: seq<string>, k: nat)
    requires Below(order, |ts|) && |r| == |ts| && k <= |order|
  {
    && (forall j :: 0 <= j < k ==> r[order[j]] == ts[order[j]])
    && SumAt(ts, order[..k]) <= remaining
    && (k < |order| ==> var left := remaining - SumAt(ts, order[..k]);
                        left < |ts[order[k]]| && r[order[k]] ==
                          if left > 13 then ts[order[k]][..left - 13] + "\n[...trimmed]" else "")
    && (forall j :: k < j < |order| ==> r[order[j]] == "")
  }

  /** A whole section in front of a greedy trim is a greedy trim. */
  lemma GreedyCons(ts: seq<string>, order: seq<nat>, remaining: int, r: seq<string>, k: nat)
    requires order != [] && Below(order, |ts|) && |r| == |ts| && k < |order| && Distinct(order)
    requires r[order[0]] == ts[order[0]] && |ts[order[0]]| <= remaining
    requires Greedy(ts, order[1..], remaining - |ts[order[0]]|, r, k)
    ensures Greedy(ts, order, remaining, r, k + 1)
  {
    var rest := order[1..];
    assert order[..k + 1][1..] == rest[..k];
    assert SumAt(ts, order[..k + 1]) == |ts[order[0]]| + SumAt(ts, rest[..k]);
    forall j | 0 <= j < k + 1 ensures r[order[j]] == ts[order[j]] {
      if j > 0 { assert order[j] == rest[j - 1]; }
    }
    forall j | k + 1 < j < |order| ensures r[order[j]] == "" { assert order[j] == rest[j - 1]; }
    if k + 1 < |order| { assert order[k + 1] == rest[k]; }
  }

  lemma {:induction false} TrimIsGreedy(ts: seq<string>, order: seq<nat>, remaining: int) returns (k: nat)
    requires Below(order, |ts|) && Distinct(order) && remaining >= 0
    requires forall j :: 0 <= j < |order| ==> ts[order[j]] != ""
    ensures k <= |order| && Greedy(ts, order, remaining, Trim(ts, order, remaining), k)
    decreases |order|
  {
    if order == [] {
      return 0;
    }
    var i, rest := order[0], order[1..];
    var r := Trim(ts, order, remaining);
    forall j | 0 <= j < |rest| ensures rest[j] == order[j + 1] != i {}
    if |ts[i]| <= remaining {
      assert ts[i := ts[i]] == ts;
      TrimFrame(ts, rest, remaining - |ts[i]|, i);
      TrimStep(ts, order, remaining);
      hide Greedy, Trim;
      k := TrimIsGreedy(ts, rest, remaining - |ts[i]|);
      GreedyCons(ts, order, remaining, r, k);
      return k + 1;
    }
    CutFirst(ts, order, remaining);
    return 0;
  }

  /** Where not even the first section fits, it is cut and all others are dropped. */
  lemma CutFirst(ts: seq<string>, order: seq<nat>, remaining: int)
    requires Below(order, |ts|) && Distinct(order) && remaining >= 0 && order != [] && |ts[order[0]]| > remaining
    ensures Greedy(ts, order, remaining, Trim(ts, order, remaining), 0)
  {
    var i, rest := order[0], order[1..];
    var ts' := ts[i := Cut(ts[i], remaining)];
    forall j | 0 <= j < |rest| ensures rest[j] == order[j + 1] != i {}
    TrimFrame(ts', rest, 0, i);
    TrimDrops(ts', rest, 0);
    TrimStep(ts, order, remaining);
    hide Trim;
    assert order[..0] == [];
    forall j | 0 < j < |order| ensures Trim(ts, order, remaining)[order[j]] == "" { assert order[j] == rest[j - 1]; }
  }

  // ---------- The whole function ----------

  function ProtectedChars(secs: seq<Section>): nat {
    if secs == [] then 0
    else (if Protected(secs[0]) then |secs[0].text| else 0) + ProtectedChars(secs[1..])
  }

  /** Characters left for the trimmable sections; negative when the protected ones overflow. */
  function TrimBudget(secs: seq<Section>, maxTokens: int): int {
    MaxChars(maxTokens) - ProtectedChars(secs) - Overhead(|secs|)
  }

  function Tail(full: string, maxChars: nat): string
    requires maxChars <= |full|
  {
    full[..if maxChars < |TRIM_MARKER| then 0 else maxChars - |TRIM_MARKER|] + TRIM_MARKER
  }

  lemma TextsBelow(secs: seq<Section>)
    ensures Below(Rank(secs), |Texts(secs)|)
  {
  }

  function Fitted(sections: seq<Section>, maxTokens: int): string {
    var secs := NonEmpty(sections);
    var full := Join(Texts(secs));
    if |full| <= MaxChars(maxTokens) then full
    else if TrimBudget(secs, maxTokens) < 0 then Tail(full, MaxChars(maxTokens))
    else
      TextsBelow(secs);
      Join(NonBlank(Trim(Texts(secs), Rank(secs), TrimBudget(secs, maxTokens))))
  }

  /** The code: filter, compare, protect, then trim in ranking order. */
  method FitToBudget(sections: seq<Section>, maxTokens: int) returns (prompt: string)
    ensures prompt == Fitted(sections, maxTokens)
  {
    var maxChars := MaxChars(maxTokens);
    var secs := NonEmpty(sections);
    if secs == [] {
      return "";
    }
    var full := Join(Texts(secs));
    if |full| <= maxChars {
      return full;
    }
    var budget := maxChars - ProtectedChars(secs) - Overhead(|secs|);
    if budget < 0 {
      var keep := if maxChars < |TRIM_MARKER| then 0 else maxChars - |TRIM_MARKER|;
      return full[..keep] + TRIM_MARKER;
    }
    TextsBelow(secs);
    var ts, remaining, order := Texts(secs), budget, Rank(secs);
    ghost var trimmed := Trim(ts, order, budget);
    var j := 0;
    while j < |order|
      invariant 0 <= j <= |order| && |ts| == |secs| && Below(order[j..], |ts|)
      invariant Trim(ts, order[j..], remaining) == trimmed
    {
      var i := order[j];
      assert order[j..][0] == i && order[j..][1..] == order[j + 1..];
      var t := ts[i];
      TrimStep(ts, order[j..], remaining);
      hide Trim;
      if remaining <= 0 {
        ts := ts[i := ""];
      } else if |t| <= remaining {
        remaining := remaining - |t|;
        assert ts[i := t] == ts;
      } else {
        var keep := remaining - |TRIM_MARKER|;
        ts := ts[i := if keep > 0 then t[..keep] + TRIM_MARKER else ""];
        remaining := 0;
      }
      j := j + 1;
    }
    return Join(NonBlank(ts));
  }

  // ---------- What the caller gets ----------

  lemma {:induction false} SumTexts(secs: seq<Section>, n: nat)
    requires n <= |secs|
    ensures Sum(Texts(secs[..n])) == ProtectedChars(secs[..n]) + SumAt(Texts(secs), RankUpTo(secs, n))
  {
    var ts := Texts(secs);
    if n > 0 {
      SumTexts(secs, n - 1);
      var front := secs[..n - 1];
      assert secs[..n] == front + [secs[n - 1]];
      assert Texts(secs[..n]) == Texts(front) + [ts[n - 1]];
      SumSnoc(Texts(front), ts[n - 1]);
      ProtectedSnoc(front, secs[n - 1]);
      if !Protected(secs[n - 1]) {
        InsertSums(secs, n - 1, RankUpTo(secs, n - 1));
      }
    }
  }

  lemma {:induction false} SumSnoc(ts: seq<string>, t: string)
    ensures Sum(ts + [t]) == Sum(ts) + |t|
  {
    if ts == [] {
      assert ts + [t] == [t] && [t][1..] == [];
    } else {
      assert (ts + [t])[1..] == ts[1..] + [t];
      SumSnoc(ts[1..], t);
    }
  }

  lemma {:induction false} ProtectedSnoc(secs: seq<Section>, s: Section)
    ensures ProtectedChars(secs + [s]) == ProtectedChars(secs) + if Protected(s) then |s.text| else 0
  {
    if secs == [] {
      assert secs + [s] == [s] && [s][1..] == [];
    } else {
      assert (secs + [s])[1..] == secs[1..] + [s];
      ProtectedSnoc(secs[1..], s);
    }
  }

  lemma {:induction false} InsertSums(secs: seq<Section>, i: nat, order: seq<nat>)
    requires i < |secs| && Below(order, |secs|)
    ensures Below(Insert(secs, i, order), |secs|)
    ensures SumAt(Texts(secs), Insert(secs, i, order)) == |secs[i].text| + SumAt(Texts(secs), order)
  {
    InsertMembers(secs, i, order);
    if order != [] && secs[order[0]].priority >= secs[i].priority {
      InsertSums(secs, i, order[1..]);
      assert Insert(secs, i, order)[1..] == Insert(secs, i, order[1..]);
    } else {
      assert Insert(secs, i, order)[1..] == order;
    }
  }

  lemma RankedDistinct(secs: seq<Section>)
    ensures Distinct(Rank(secs)) && Below(Rank(secs), |secs|)
  {
    RankIsRanked(secs, |secs|);
    forall k, m | 0 <= k < m < |Rank(secs)| ensures Rank(secs)[k] != Rank(secs)[m] {
      assert Outranks(secs, Rank(secs)[k], Rank(secs)[m]);
    }
  }

  /** Too much even for the protected sections and the separators. */
  predicate Overflows(sections: seq<Section>, maxTokens: int) {
    var secs := NonEmpty(sections);
    |Join(Texts(secs))| > MaxChars(maxTokens) && TrimBudget(secs, maxTokens) < 0
  }

  /** Characters of the whole assembly: its nonempty sections and two between neighbours. */
  function FullLength(sections: seq<Section>): nat {
    var secs := NonEmpty(sections);
    Sum(Texts(secs)) + if |secs| > 1 then 2 * (|secs| - 1) else 0
  }

  /**
   The cap of four characters a token (none for a negative limit) is broken exactly when the protected sections and
   the separators exceed it and it is shorter than the marker; then the marker alone is returned.
   */
  lemma CapIsKept(sections: seq<Section>, maxTokens: int)
    ensures var cap, secs := if maxTokens < 0 then 0 else 4 * maxTokens, NonEmpty(sections);
            |Fitted(sections, maxTokens)| > cap <==>
              && FullLength(sections) > cap && cap < 13
              && cap < ProtectedChars(secs) + (if |secs| > 1 then 2 * (|secs| - 1) else 0)
  {
    var secs := NonEmpty(sections);
    var ts, budget := Texts(secs), TrimBudget(secs, maxTokens);
    JoinLength(ts);
    if |Join(ts)| > MaxChars(maxTokens) && budget >= 0 {
      RankedDistinct(secs);
      var out := Trim(ts, Rank(secs), budget);
      TrimFits(ts, Rank(secs), budget);
      assert secs[..|secs|] == secs;
      SumTexts(secs, |secs|);
      NonBlankShrinks(out);
      JoinLength(NonBlank(out));
    }
  }

  /**
   When the assembly is too long but the protected sections and the separators fit: every protected
   section is kept verbatim, and down the ranking the others are whole, then at most one cut, then
   dropped.  What remains is joined in assembly order.
   */
  lemma TrimmedByPriority(sections: seq<Section>, maxTokens: int) returns (out: seq<string>, k: nat)
    requires |Join(Texts(NonEmpty(sections)))| > MaxChars(maxTokens) && !Overflows(sections, maxTokens)
    ensures var secs := NonEmpty(sections);
            var order := Rank(secs);
            && |out| == |secs| && Fitted(sections, maxTokens) == Join(NonBlank(out))
            && (forall i :: 0 <= i < |secs| && secs[i].priority >= 50 ==> out[i] == secs[i].text)
            && (forall i :: i in order <==> 0 <= i < |secs| && secs[i].priority < 50)
            && Ranked(secs, order)
            && k <= |order| && Greedy(Texts(secs), order, TrimBudget(secs, maxTokens), out, k)
  {
    var secs := NonEmpty(sections);
    var ts, order, budget := Texts(secs), Rank(secs), TrimBudget(secs, maxTokens);
    RankedDistinct(secs);
    RankIsRanked(secs, |secs|);
    NonEmptyTexts(sections);
    out := Trim(ts, order, budget);
    k := TrimIsGreedy(ts, order, budget);
    forall i | 0 <= i < |secs| && Protected(secs[i]) ensures out[i] == secs[i].text {
      TrimFrame(ts, order, budget, i);
    }
  }

  lemma {:induction false} NonEmptyTexts(secs: seq<Section>)
    ensures forall i :: 0 <= i < |NonEmpty(secs)| ==> NonEmpty(secs)[i].text != ""
  {
    if secs != [] { NonEmptyTexts(secs[1..]); }
  }

  // ---------- Where everything stands in the prompt ----------

  /** Part `i` stands behind the earlier ones; after it comes a blank line, or the end. */
  predicate Stands(text: string, parts: seq<string>, i: nat)
    requires i < |parts|
  {
    var at := Sum(parts[..i]) + 2 * i;
    var end := at + |parts[i]|;
    && end <= |text| && text[at..end] == parts[i]
    && (if i + 1 == |parts| then end == |text| else end + 2 <= |text| && text[end..end + 2] == "\n\n")
  }

  /** The parts stand in the text one after another from its start to its end, a blank line between neighbours. */
  ghost predicate LaidOut(text: string, parts: seq<string>) {
    (parts == [] ==> text == "") && forall i :: 0 <= i < |parts| ==> Stands(text, parts, i)
  }

  lemma {:induction false} JoinIsLaidOut(ts: seq<string>)
    ensures LaidOut(Join(ts), ts)
  {
    if |ts| == 1 {
      assert ts[..0] == [];
    } else if |ts| > 1 {
      JoinIsLaidOut(ts[1..]);
      var head := ts[0] + SEPARATOR;
      assert Join(ts) == head + Join(ts[1..]) && ts == [ts[0]] + ts[1..];
      forall i | 0 <= i < |ts| ensures Stands(Join(ts), ts, i) {
        if i == 0 {
          assert ts[..0] == [];
        } else {
          hide Stands;
          assert Stands(Join(ts[1..]), ts[1..], i - 1);
          StandsBehind(head, Join(ts[1..]), ts[0], ts[1..], i - 1);
        }
      }
    }
  }

  lemma StandsBehind(head: string, tail: string, first: string, rest: seq<string>, j: nat)
    requires j < |rest| && Stands(tail, rest, j) && |head| == |first| + 2
    ensures Stands(head + tail, [first] + rest, j + 1)
  {
    var ts := [first] + rest;
    assert ts[..j + 1] == [first] + rest[..j] && ([first] + rest[..j])[1..] == rest[..j];
    assert ts[j + 1] == rest[j];
    var at := Sum(rest[..j]) + 2 * j;
    var end := at + |rest[j]|;
    assert Sum(ts[..j + 1]) == |first| + Sum(rest[..j]);
    hide Sum;
    Behind(head, tail, at, end);
    if j + 1 < |rest| { Behind(head, tail, end, end + 2); }
  }

  lemma Behind(head: string, tail: string, i: nat, j: nat)
    requires i <= j <= |tail|
    ensures (head + tail)[|head| + i..|head| + j] == tail[i..j]
  {
  }

  /** The layout leaves no choice. */
  lemma LayoutIsUnique(text: string, text': string, parts: seq<string>)
    requires LaidOut(text, parts) && LaidOut(text', parts)
    ensures text == text'
  {
    if parts != [] {
      var n := |parts| - 1;
      assert Stands(text, parts, n) && Stands(text', parts, n);
      Covers(text, text', parts, n);
      assert text[..|text|] == text && text'[..|text'|] == text';
    }
  }

  lemma {:induction false} Covers(text: string, text': string, parts: seq<string>, n: nat)
    requires LaidOut(text, parts) && LaidOut(text', parts) && n < |parts|
    ensures var end := Sum(parts[..n]) + 2 * n + |parts[n]|;
            end <= |text| && end <= |text'| && text[..end] == text'[..end]
  {
    assert Stands(text, parts, n) && Stands(text', parts, n);
    if n == 0 {
      assert parts[..0] == [];
    } else {
      assert Stands(text, parts, n - 1) && Stands(text', parts, n - 1);
      Covers(text, text', parts, n - 1);
      var before := Sum(parts[..n - 1]) + 2 * (n - 1) + |parts[n - 1]|;
      assert parts[..n] == parts[..n - 1] + [parts[n - 1]];
      SumSnoc(parts[..n - 1], parts[n - 1]);
      var at := Sum(parts[..n]) + 2 * n;
      assert before + 2 == at;
      hide LaidOut, Sum;
      ThreePieces(text, before, at, at + |parts[n]|);
      ThreePieces(text', before, at, at + |parts[n]|);
    }
  }

  lemma ThreePieces(text: string, i: nat, j: nat, k: nat)
    requires i <= j <= k <= |text|
    ensures text[..k] == text[..i] + text[i..j] + text[j..k]
  {
  }

  ghost predicate Rising(idx: seq<nat>) {
    forall j, k :: 0 <= j < k < |idx| ==> idx[j] < idx[k]
  }

  /** The places of a list with one more element in front, which is taken or not. */
  lemma PlacesCons(rest: seq<nat>, first: bool) returns (idx: seq<nat>)
    requires Rising(rest)
    ensures Rising(idx) && |idx| == |rest| + if first then 1 else 0
    ensures forall i :: i in idx <==> (first && i == 0) || (i > 0 && i - 1 in rest)
    ensures first ==> idx[0] == 0 && forall k :: 0 < k < |idx| ==> idx[k] == rest[k - 1] + 1
    ensures !first ==> forall k :: 0 <= k < |idx| ==> idx[k] == rest[k] + 1
  {
    var later := seq(|rest|, k requires 0 <= k < |rest| => rest[k] + 1);
    forall i ensures i in later <==> i > 0 && i - 1 in rest {
      if i > 0 && i - 1 in rest {
        var k :| 0 <= k < |rest| && rest[k] == i - 1;
        assert later[k] == i;
      }
    }
    idx := if first then [0] + later else later;
  }

  /** The nonempty sections, in input order: the places they come from. */
  lemma {:induction false} NonEmptyPlaces(secs: seq<Section>) returns (idx: seq<nat>)
    ensures |idx| == |NonEmpty(secs)| && Rising(idx)
    ensures forall i :: i in idx <==> 0 <= i < |secs| && secs[i].text != ""
    ensures forall k :: 0 <= k < |idx| ==> 0 <= idx[k] < |secs| && NonEmpty(secs)[k] == secs[idx[k]]
  {
    if secs == [] {
      return [];
    }
    var rest := NonEmptyPlaces(secs[1..]);
    idx := PlacesCons(rest, secs[0].text != "");
    hide Rising;
    forall k | 0 <= k < |idx| ensures 0 <= idx[k] < |secs| && NonEmpty(secs)[k] == secs[idx[k]] {
      var j := if secs[0].text != "" then k - 1 else k;
      if j >= 0 { assert secs[1..][rest[j]] == secs[rest[j] + 1]; }
    }
  }

  lemma {:induction false} NonBlankPlaces(ts: seq<string>) returns (idx: seq<nat>)
    ensures |idx| == |NonBlank(ts)| && Rising(idx)
    ensures forall i :: i in idx <==> 0 <= i < |ts| && ts[i] != ""
    ensures forall k :: 0 <= k < |idx| ==> 0 <= idx[k] < |ts| && NonBlank(ts)[k] == ts[idx[k]]
  {
    if ts == [] {
      return [];
    }
    var rest := NonBlankPlaces(ts[1..]);
    idx := PlacesCons(rest, ts[0] != "");
    hide Rising;
    forall k | 0 <= k < |idx| ensures 0 <= idx[k] < |ts| && NonBlank(ts)[k] == ts[idx[k]] {
      var j := if ts[0] != "" then k - 1 else k;
      if j >= 0 { assert ts[1..][rest[j]] == ts[rest[j] + 1]; }
    }
  }

  /** An assembly that fits is returned unchanged: exactly its nonempty sections, in input order, each verbatim. */
  lemma FittingPrompt(sections: seq<Section>, maxTokens: int) returns (idx: seq<nat>, parts: seq<string>)
    requires maxTokens >= 0 && FullLength(sections) <= 4 * maxTokens
    ensures Rising(idx) && |parts| == |idx| && forall i :: i in idx <==> 0 <= i < |sections| && sections[i].text != ""
    ensures forall k :: 0 <= k < |idx| ==> 0 <= idx[k] < |sections| && parts[k] == sections[idx[k]].text
    ensures LaidOut(Fitted(sections, maxTokens), parts)
  {
    idx := NonEmptyPlaces(sections);
    parts := Texts(NonEmpty(sections));
    JoinLength(parts);
    JoinIsLaidOut(parts);
  }

  /** Characters the protected sections and the blank lines need. */
  function NeededLength(sections: seq<Section>): nat {
    var secs := NonEmpty(sections);
    ProtectedChars(secs) + if |secs| > 1 then 2 * (|secs| - 1) else 0
  }

  /**
   A longer assembly whose protected sections and blank lines fit: the nonempty of the trimmed sections, in input
   order; `out` is what is left of each nonempty section, as TrimmedByPriority says.
   */
  lemma TrimmedPrompt(sections: seq<Section>, maxTokens: int) returns (out: seq<string>, k: nat, parts: seq<string>)
    requires var cap := if maxTokens < 0 then 0 else 4 * maxTokens;
             FullLength(sections) > cap && NeededLength(sections) <= cap
    ensures var secs, cap := NonEmpty(sections), if maxTokens < 0 then 0 else 4 * maxTokens;
            && |out| == |secs| && (forall i :: 0 <= i < |secs| && secs[i].priority >= 50 ==> out[i] == secs[i].text)
            && Below(Rank(secs), |secs|) && k <= |Rank(secs)|
            && Greedy(Texts(secs), Rank(secs), cap - NeededLength(sections), out, k)
    ensures LaidOut(Fitted(sections, maxTokens), parts) && Filtered(out, parts)
  {
    JoinLength(Texts(NonEmpty(sections)));
    hide Greedy, Ranked, Join, Sum, Rank, Fitted;
    out, k := TrimmedByPriority(sections, maxTokens);
    parts := NonBlank(out);
    JoinIsLaidOut(parts);
    var idx := NonBlankPlaces(out);
    assert TakenAt(out, parts, idx);
  }

  ghost predicate TakenAt(all: seq<string>, some: seq<string>, idx: seq<nat>) {
    && |idx| == |some| && Rising(idx) && (forall i :: i in idx <==> 0 <= i < |all| && all[i] != "")
    && (forall j :: 0 <= j < |idx| ==> 0 <= idx[j] < |all| && some[j] == all[idx[j]])
  }

  /** `some` is the nonempty ones of `all`, in their order. */
  ghost predicate Filtered(all: seq<string>, some: seq<string>) {
    exists idx :: TakenAt(all, some, idx)
  }

  /** When even those do not fit: the beginning of the whole assembly, and the marker. */
  lemma OverflowingPrompt(sections: seq<Section>, maxTokens: int) returns (full: string)
    requires var cap := if maxTokens < 0 then 0 else 4 * maxTokens;
             FullLength(sections) > cap && NeededLength(sections) > cap
    ensures LaidOut(full, Texts(NonEmpty(sections)))
    ensures |full| == FullLength(sections)
    ensures Fitted(sections, maxTokens)
            == full[..if 4 * maxTokens < 13 then 0 else 4 * maxTokens - 13] + "\n[...trimmed]"
  {
    full := Join(Texts(NonEmpty(sections)));
    JoinLength(Texts(NonEmpty(sections)));
    JoinIsLaidOut(Texts(NonEmpty(sections)));
  }
}
