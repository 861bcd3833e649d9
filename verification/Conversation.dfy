/**
 Conversation storage: a per-peer history file, the in-memory view the prompts are built from, and the
 compression that replaces old messages by a summary.
 */
module Conversation {
  import opened PeerName

  type Peer = string

  /** One stored entry; a summary carries how many entries it stands for. */
  datatype Entry =
    | Message(role: string, text: string, stamp: int)
    | Summary(count: nat, text: string, stamp: int)

  type History = seq<Entry>

  // ---------- Tokens ----------

  function Digits(n: nat): string {
    if n < 10 then [('0' as int + n) as char] else Digits(n / 10) + [('0' as int + n % 10) as char]
  }

  function Content(e: Entry): string {
    match e
    case Message(_, text, _) => text
    case Summary(count, text, _) => "[Earlier context - " + Digits(count) + " messages summarized]: " + text
  }

  /** The sum of `count` over the contents; the tokenizer is a parameter. */
  function HistoryTokens(h: History, count: string -> nat): nat {
    if h == [] then 0 else count(Content(h[0])) + HistoryTokens(h[1..], count)
  }

  /** The number a text of digits stands for. */
  function Value(s: string): nat
    requires forall i :: 0 <= i < |s| ==> '0' <= s[i] <= '9'
  {
    if s == "" then 0 else 10 * Value(s[..|s| - 1]) + (s[|s| - 1] as int - '0' as int)
  }

  lemma {:induction false} DigitsAre(n: nat)
    ensures forall i :: 0 <= i < |Digits(n)| ==> '0' <= Digits(n)[i] <= '9'
    ensures Value(Digits(n)) == n && Digits(n) != "" && (n > 0 ==> Digits(n)[0] != '0')
  {
    if n >= 10 {
      DigitsAre(n / 10);
      assert Digits(n)[..|Digits(n)| - 1] == Digits(n / 10);
    } else {
      assert Digits(n)[..0] == "";
    }
  }

  /** A history costs what its contents cost; a summary's content names the number of messages it stands for. */
  lemma {:induction false} TokensAre(a: History, b: History, e: Entry, count: string -> nat)
    ensures HistoryTokens([], count) == 0
    ensures HistoryTokens(a + b, count) == HistoryTokens(a, count) + HistoryTokens(b, count)
    ensures HistoryTokens([e], count) == count(
              if e.Message? then e.text
              else "[Earlier context - " + Digits(e.count) + " messages summarized]: " + e.text)
  {
    assert [e][1..] == [];
    if a == [] {
      assert a + b == b;
    } else {
      assert (a + b)[0] == a[0] && (a + b)[1..] == a[1..] + b;
      TokensAre(a[1..], b, e, count);
    }
  }

  // ---------- Slices ----------

  /** Python's `h[-n:]`: all of h when n is zero. */
  function Tail(h: History, n: nat): History {
    if n == 0 || n >= |h| then h else h[|h| - n..]
  }

  /** `get_last`: the last n entries, none when n is zero. */
  function Last(h: History, n: nat): History {
    if n > 0 then Tail(h, n) else []
  }

  const KEEP_RECENT := 4

  // ---------- What a compressed history stands for ----------

  /** A stored entry as it came to be: appended, or folded from earlier nodes. */
  datatype Node = Leaf(entry: Entry) | Folded(summary: Entry, parts: seq<Node>)

  function Shown(t: seq<Node>): (h: History)
    ensures |h| == |t|
  {
    seq(|t|, i requires 0 <= i < |t| => if t[i].Leaf? then t[i].entry else t[i].summary)
  }

  /** All the entries a sequence of nodes stands for, in order. */
  function Unfold(t: seq<Node>): History {
    if t == [] then [] else UnfoldNode(t[0]) + Unfold(t[1..])
  }

  function UnfoldNode(n: Node): History {
    match n
    case Leaf(e) => [e]
    case Folded(_, parts) => Unfold(parts)
  }

  /** Every fold says truthfully how many entries it replaced. */
  ghost predicate Honest(t: seq<Node>) {
    forall n :: n in t ==> HonestNode(n)
  }

  ghost predicate HonestNode(n: Node) {
    n.Folded? ==> n.summary.Summary? && n.summary.count == |n.parts| && n.parts != [] && Honest(n.parts)
  }

  lemma {:induction false} UnfoldSplit(a: seq<Node>, b: seq<Node>)
    ensures Unfold(a + b) == Unfold(a) + Unfold(b)
    decreases |a|
  {
    if a == [] {
      assert a + b == b;
    } else {
      assert (a + b)[1..] == a[1..] + b;
      UnfoldSplit(a[1..], b);
    }
  }

  /** Folding a prefix into one node loses nothing and leaves the rest as it was. */
  lemma FoldKeepsAll(t: seq<Node>, k: nat, text: string, stamp: int)
    requires Honest(t) && 0 < k <= |t|
    ensures var folded := [Folded(Summary(k, text, stamp), t[..k])] + t[k..];
            && Unfold(folded) == Unfold(t) && Honest(folded)
            && Shown(folded) == [Summary(k, text, stamp)] + Shown(t)[k..]
  {
    hide *;
    HonestFold(t, k, text, stamp);
    UnfoldFold(t, k, Summary(k, text, stamp));
    ShownFold(t, k, Summary(k, text, stamp));
  }

  lemma UnfoldFold(t: seq<Node>, k: nat, summary: Entry)
    requires k <= |t|
    ensures Unfold([Folded(summary, t[..k])] + t[k..]) == Unfold(t)
  {
    hide Shown;
    var node := Folded(summary, t[..k]);
    var folded := [node] + t[k..];
    assert folded[0] == node && folded[1..] == t[k..];
    assert Unfold(folded) == UnfoldNode(node) + Unfold(t[k..]);
    assert UnfoldNode(node) == Unfold(t[..k]);
    UnfoldSplit(t[..k], t[k..]);
    assert t[..k] + t[k..] == t;
  }

  lemma ShownFold(t: seq<Node>, k: nat, summary: Entry)
    requires k <= |t|
    ensures Shown([Folded(summary, t[..k])] + t[k..]) == [summary] + Shown(t)[k..]
  {
  }

  lemma HonestFold(t: seq<Node>, k: nat, text: string, stamp: int)
    requires Honest(t) && 0 < k <= |t|
    ensures Honest([Folded(Summary(k, text, stamp), t[..k])] + t[k..])
  {
  }

  lemma AppendLeaf(t: seq<Node>, e: Entry)
    requires Honest(t)
    ensures Unfold(t + [Leaf(e)]) == Unfold(t) + [e] && Honest(t + [Leaf(e)]) && Shown(t + [Leaf(e)]) == Shown(t) + [e]
  {
    UnfoldSplit(t, [Leaf(e)]);
    assert Unfold([Leaf(e)]) == [e] + Unfold([]) == [e];
  }

  // ---------- One file, its story, its view ----------

  /** A conversation file with the entries ever appended to it and how they were folded. */
  ghost predicate Conserves(h: History, t: seq<Node>, said: History) {
    Shown(t) == h && Unfold(t) == said && Honest(t)
  }

  /** What compression makes of a history. */
  function Compressed(h: History, summary: string, stamp: int): History
    requires |h| > KEEP_RECENT
  {
    [Summary(|h| - KEEP_RECENT, summary, stamp)] + h[|h| - KEEP_RECENT..]
  }

  /** Compression keeps the story and, view by view, changes only what lies before the last four. */
  lemma CompressConserves(h: History, t: seq<Node>, said: History, summary: string, stamp: int) returns (t': seq<Node>)
    requires Conserves(h, t, said) && |h| > KEEP_RECENT
    ensures Conserves(Compressed(h, summary, stamp), t', said)
  {
    var k := |h| - KEEP_RECENT;
    FoldKeepsAll(t, k, summary, stamp);
    t' := [Folded(Summary(k, summary, stamp), t[..k])] + t[k..];
  }

  lemma CompressedViews(h: History, summary: string, stamp: int, n: nat)
    requires |h| > KEEP_RECENT
    ensures n <= KEEP_RECENT ==> Last(Compressed(h, summary, stamp), n) == Last(h, n)
    ensures n > KEEP_RECENT ==>
              (Last(Compressed(h, summary, stamp), n) == Last(h, n) <==>
                 (n == 5 || |h| == 5) && h[|h| - 5] == Summary(|h| - KEEP_RECENT, summary, stamp))
    ensures |Compressed(h, summary, stamp)| == 5 <= |h|
  {
  }
}
