/** The objects that write conversations: the loop's store, memory and statistics, and the older manager. */
module ConversationLoop {
  import opened PeerName
  import opened Conversation

  /** What the statistics table records for one peer. */
  datatype Stats = Stats(tokens: nat, messages: nat)

  function Of(m: map<Peer, History>, peer: Peer): History {
    if peer in m then m[peer] else []
  }

  function TreeOf(m: map<Peer, seq<Node>>, peer: Peer): seq<Node> {
    if peer in m then m[peer] else []
  }

  /** The view of one peer is the last `cap` entries of its file. */
  predicate Coherent(files: map<Peer, History>, memory: map<Peer, History>, cap: nat, peer: Peer) {
    Of(memory, peer) == Last(Of(files, peer), cap)
  }

  /** Every peer whose name is its own file name has a coherent view. */
  ghost predicate AllCoherent(files: map<Peer, History>, memory: map<Peer, History>, cap: nat) {
    forall peer :: IsPlain(peer) ==> Coherent(files, memory, cap, peer)
  }

  lemma TailOfAppended(h: History, e: Entry, cap: nat)
    requires cap > 0 && e !in h
    ensures e in Last(h + [e], cap) && e !in Last(h, cap)
  {
    var last := Last(h + [e], cap);
    assert last[|last| - 1] == e;
  }

  /** Writing one file and its view keeps every other view. */
  lemma OthersStay(files: map<Peer, History>, memory: map<Peer, History>, cap: nat, name: Peer, h: History)
    requires AllCoherent(files, memory, cap)
    ensures AllCoherent(files[name := h], memory[name := Last(h, cap)], cap)
  {
  }

  /** Writing file `name` but refreshing the view of `key` breaks coherence exactly when that file has a stale view. */
  lemma RefreshedElsewhere(files: map<Peer, History>, memory: map<Peer, History>, cap: nat, name: Peer, key: Peer,
                           h: History)
    requires AllCoherent(files, memory, cap) && !IsPlain(key) && key != name
    ensures AllCoherent(files[name := h], memory[key := Last(h, cap)], cap)
            <==> !IsPlain(name) || Last(h, cap) == Last(Of(files, name), cap)
  {
  }

  /**
   `add_to_history` sanitizes twice.  The views stay coherent exactly when the raw name is not cut at a dot, or
   the new message does not show in the view, as a fresh one always does.
   */
  lemma AddViews(files: map<Peer, History>, memory: map<Peer, History>, cap: nat, peer: string, e: Entry)
    requires AllCoherent(files, memory, cap)
    ensures var name := Sanitize(peer);
            var file := Sanitize(name);
            var h := Of(files, file);
            var files', memory' := files[file := h + [e]], memory[name := Last(h + [e], cap)];
            && (AllCoherent(files', memory', cap) <==> !CutAtDot(peer) || Last(h + [e], cap) == Last(h, cap))
            && (cap >= 1 && e !in h ==> (AllCoherent(files', memory', cap) <==> !CutAtDot(peer)))
  {
    hide Last, IsPlain, Sanitize, CutAtDot, AllCoherent;
    var name := Sanitize(peer);
    var file := Sanitize(name);
    var h := Of(files, file);
    SanitizeTwiceIff(peer);
    SecondPassIsPlain(peer);
    if CutAtDot(peer) {
      RefreshedElsewhere(files, memory, cap, file, name, h + [e]);
    } else {
      OthersStay(files, memory, cap, name, h + [e]);
    }
    if cap >= 1 && e !in h {
      TailOfAppended(h, e, cap);
    }
  }

  /** The view of the last `cap` entries does not show that `h` was compressed. */
  predicate SameView(h: History, summary: string, stamp: int, cap: nat)
    requires |h| > KEEP_RECENT
  {
    cap <= KEEP_RECENT || ((cap == 5 || |h| == 5) && h[|h| - 5] == Summary(|h| - KEEP_RECENT, summary, stamp))
  }

  /**
   Compressing under a raw name refreshes the raw name's view.  This leaves a stale view behind exactly when
   the raw name is neither plain nor cut at a dot, and the compression shows in the file's view.
   */
  lemma GuardViews(files: map<Peer, History>, memory: map<Peer, History>, cap: nat, sender: string, summary: string,
                   stamp: int)
    requires AllCoherent(files, memory, cap) && |Of(files, Sanitize(sender))| > KEEP_RECENT
    ensures var name := Sanitize(sender);
            var h := Of(files, name);
            var c := Compressed(h, summary, stamp);
            AllCoherent(files[name := c], memory[sender := Last(c, cap)], cap)
            <==> IsPlain(sender) || CutAtDot(sender) || SameView(h, summary, stamp, cap)
  {
    hide Last, IsPlain, Sanitize, CutAtDot, AllCoherent;
    SanitizeTwiceIff(sender);
    var name := Sanitize(sender);
    var h := Of(files, name);
    var c := Compressed(h, summary, stamp);
    FixedPointIff(sender);
    CompressedViews(h, summary, stamp, cap);
    if sender == name {
      OthersStay(files, memory, cap, name, c);
    } else {
      RefreshedElsewhere(files, memory, cap, name, sender, c);
    }
  }

  ghost predicate Stories(files: map<Peer, History>, trees: map<Peer, seq<Node>>, said: map<Peer, History>) {
    && trees.Keys == files.Keys == said.Keys
    && forall p :: p in files ==> Conserves(files[p], trees[p], said[p])
  }

  lemma SetStory(files: map<Peer, History>, trees: map<Peer, seq<Node>>, said: map<Peer, History>,
                 name: Peer, h: History, t: seq<Node>, s: History)
    requires Stories(files, trees, said) && Conserves(h, t, s)
    ensures Stories(files[name := h], trees[name := t], said[name := s])
  {
  }

  lemma StoryOf(files: map<Peer, History>, trees: map<Peer, seq<Node>>, said: map<Peer, History>, name: Peer)
    requires Stories(files, trees, said)
    ensures Conserves(Of(files, name), TreeOf(trees, name), Of(said, name))
  {
  }

  lemma InStories(files: map<Peer, History>, trees: map<Peer, seq<Node>>, said: map<Peer, History>, name: Peer)
    requires Stories(files, trees, said)
    ensures Of(files, name) != [] ==> name in files && name in said
  {
  }

  class ConversationLoop {
    const cap: nat
    const threshold: nat
    const count: string -> nat
    var files: map<Peer, History>
    var memory: map<Peer, History>
    var stats: map<Peer, Stats>
    ghost var trees: map<Peer, seq<Node>>
    ghost var said: map<Peer, History>     // everything ever appended to each file

    /** Each file unfolds to all that was ever appended to it, in order. */
    ghost predicate Valid()
      reads this
    {
      Stories(files, trees, said)
    }

    constructor (cap: nat, maxTokens: nat, count: string -> nat, files: map<Peer, History>)
      ensures Valid() && this.files == files && said == files && this.cap == cap && this.count == count
      ensures threshold == maxTokens * 4 / 5
      ensures cap >= 1 ==> AllCoherent(files, memory, cap)
    {
      this.cap, threshold, this.count, this.files := cap, maxTokens * 4 / 5, count, files;
      memory, stats := map[], map[];
      said := files;
      trees := map p | p in files :: Leaves(files[p]);
      new;
      forall p | p in files ensures Conserves(files[p], trees[p], said[p]) {
        LeavesConserve(files[p]);
      }
      LoadAll();
    }

    /** Load the tail of every conversation file. */
    method LoadAll()
      requires Valid() && memory == map[]
      modifies this`memory
      ensures memory.Keys == files.Keys && forall p :: p in files ==> memory[p] == Tail(files[p], cap)
      ensures cap >= 1 ==> AllCoherent(files, memory, cap)
    {
      var left := files.Keys;
      while left != {}
        invariant left <= files.Keys && memory.Keys == files.Keys - left
        invariant forall p :: p in memory ==> memory[p] == Tail(files[p], cap)
      {
        var p :| p in left;
        memory := memory[p := Tail(files[p], cap)];
        left := left - {p};
      }
    }

    method StoreLoad(peer: string) returns (h: History)
      ensures h == Of(files, Sanitize(peer))
    {
      var name := Sanitize(peer);
      h := if name in files then files[name] else [];
    }

    method StoreGetLast(peer: string, n: nat) returns (h: History)
      ensures h == Last(Of(files, Sanitize(peer)), n)
    {
      h := StoreLoad(peer);
      h := if n > 0 then Tail(h, n) else [];
    }

    method StoreAppend(peer: string, e: Entry)
      requires Valid()
      modifies this`files, this`trees, this`said
      ensures Valid()
      ensures files == old(files)[Sanitize(peer) := Of(old(files), Sanitize(peer)) + [e]]
      ensures said == old(said)[Sanitize(peer) := Of(old(said), Sanitize(peer)) + [e]]
    {
      var name := Sanitize(peer);
      var h := StoreLoad(peer);
      ghost var t := TreeOf(trees, name);
      StoryOf(files, trees, said, name);
      AppendLeaf(t, e);
      SetStory(files, trees, said, name, h + [e], t + [Leaf(e)], Of(said, name) + [e]);
      files := files[name := h + [e]];
      trees := trees[name := t + [Leaf(e)]];
      said := said[name := Of(said, name) + [e]];
    }

    /** Replace a whole file; `t` says what the new history stands for. */
    method StoreReplace(peer: string, h: History, ghost t: seq<Node>)
      requires Valid() && Shown(t) == h && Honest(t)
      modifies this`files, this`trees, this`said
      ensures Valid() && files == old(files)[Sanitize(peer) := h] && said == old(said)[Sanitize(peer) := Unfold(t)]
    {
      hide Sanitize, Shown, Unfold, Honest;
      var name := Sanitize(peer);
      SetStory(files, trees, said, name, h, t, Unfold(t));
      files := files[name := h];
      trees, said := trees[name := t], said[name := Unfold(t)];
    }

    /** `add_to_history`: store the message, then refresh the view of the sanitized peer. */
    method AddToHistory(peer: string, e: Entry)
      requires Valid()
      modifies this`files, this`trees, this`said, this`memory
      ensures Valid()
      ensures var name := Sanitize(peer);
              var file := Sanitize(name);
              && files == old(files)[file := Of(old(files), file) + [e]]
              && said == old(said)[file := Of(old(said), file) + [e]]
              && memory == old(memory)[name := Last(Of(files, file), cap)]
              && (old(AllCoherent(files, memory, cap)) ==>
                    && (AllCoherent(files, memory, cap)
                        <==> !CutAtDot(peer) || Last(Of(files, file), cap) == Last(Of(old(files), file), cap))
                    && (cap >= 1 && e !in Of(old(files), file) ==>
                          (AllCoherent(files, memory, cap) <==> !CutAtDot(peer))))
    {
      hide Last, AllCoherent, IsPlain, Sanitize, CutAtDot, Stories;
      var name := Sanitize(peer);
      if AllCoherent(files, memory, cap) {
        AddViews(files, memory, cap, peer, e);
      }
      StoreAppend(name, e);
      var view := StoreGetLast(name, cap);
      memory := memory[name := view];
    }

    /** `check_and_compress`; `summary` is whatever the language model answers. */
    method CheckAndCompress(peer: string, bridge: bool, summary: string, stamp: int) returns (compressed: bool)
      requires Valid()
      modifies this`files, this`trees, this`said, this`stats
      ensures Valid() && said == old(said)
      ensures var h := Of(old(files), Sanitize(peer));
              && (compressed <==> HistoryTokens(h, count) >= threshold && bridge && |h| > 4 && summary != "")
              && files == (if compressed then old(files)[Sanitize(peer) := Compressed(h, summary, stamp)]
                           else old(files))
      ensures var now := Of(files, Sanitize(peer));
              stats == old(stats)[peer := Stats(HistoryTokens(now, count), |now|)]
    {
      hide Conserves, Sanitize, Stories, HistoryTokens;
      ghost var files0 := files;
      var history := StoreLoad(peer);
      var tokens := HistoryTokens(history, count);
      stats := stats[peer := Stats(tokens, |history|)];
      if tokens < threshold {
        return false;
      }
      if !bridge {
        return false;
      }
      if |history| <= KEEP_RECENT {
        return false;
      }
      var toSummarize, recent := history[..|history| - KEEP_RECENT], history[|history| - KEEP_RECENT..];
      if summary == "" {
        return false;
      }
      var shorter := [Summary(|toSummarize|, summary, stamp)] + recent;
      ghost var name := Sanitize(peer);
      StoryOf(files, trees, said, name);
      InStories(files, trees, said, name);
      ghost var t := CompressConserves(history, TreeOf(trees, name), Of(said, name), summary, stamp);
      StoreReplace(peer, shorter, t);
      assert said == old(said);
      stats := stats[peer := Stats(HistoryTokens(shorter, count), |shorter|)];
      return true;
    }

    /** The context guard after a turn: compress, and refresh the view kept under the raw sender name. */
    method GuardContext(sender: string, bridge: bool, summary: string, stamp: int) returns (compressed: bool)
      requires Valid()
      modifies this`files, this`trees, this`said, this`stats, this`memory
      ensures Valid() && said == old(said)
      ensures var name := Sanitize(sender);
              var h := Of(old(files), name);
              && (compressed <==> HistoryTokens(h, count) >= threshold && bridge && |h| > 4 && summary != "")
              && files == (if compressed then old(files)[name := Compressed(h, summary, stamp)] else old(files))
              && memory == (if compressed then old(memory)[sender := Last(Of(files, name), cap)] else old(memory))
              && (old(AllCoherent(files, memory, cap)) ==>
                    (AllCoherent(files, memory, cap)
                     <==> !compressed || IsPlain(sender) || CutAtDot(sender) || SameView(h, summary, stamp, cap)))
    {
      hide Last, AllCoherent, IsPlain, Sanitize, CutAtDot, Stories, HistoryTokens;
      ghost var files0, memory0 := files, memory;
      compressed := CheckAndCompress(sender, bridge, summary, stamp);
      if compressed {
        var view := StoreGetLast(sender, cap);
        memory := memory[sender := view];
        if AllCoherent(files0, memory0, cap) {
          GuardViews(files0, memory0, cap, sender, summary, stamp);
        }
      }
    }
  }

  function Leaves(h: History): seq<Node> {
    seq(|h|, i requires 0 <= i < |h| => Leaf(h[i]))
  }

  lemma {:induction false} LeavesUnfold(h: History)
    ensures Unfold(Leaves(h)) == h
  {
    if h != [] {
      LeavesUnfold(h[1..]);
      assert Leaves(h)[1..] == Leaves(h[1..]);
    }
  }

  lemma LeavesConserve(h: History)
    ensures Conserves(h, Leaves(h), h)
  {
    LeavesUnfold(h);
  }

  // ---------- The older path: the manager owns memory and file ----------

  function AddCapped(h: History, e: Entry, cap: nat): History {
    if |h + [e]| > cap then Tail(h + [e], cap) else h + [e]
  }

  function RunCapped(h: History, es: History, cap: nat): History
    decreases |es|
  {
    if es == [] then h else RunCapped(AddCapped(h, es[0], cap), es[1..], cap)
  }

  class ConversationManager {
    const cap: nat
    var files: map<Peer, History>
    var memory: map<Peer, History>

    constructor (cap: nat)
      ensures this.cap == cap && files == map[] && memory == map[]
    {
      this.cap, files, memory := cap, map[], map[];
    }

    /** Append to memory, cut to the cap, write the file. */
    method AddMessage(peer: string, e: Entry)
      modifies this`files, this`memory
      ensures var name := Sanitize(peer);
              && memory == old(memory)[name := AddCapped(Of(old(memory), name), e, cap)]
              && files == old(files)[name := memory[name]]
    {
      var name := Sanitize(peer);
      memory := memory[name := (if name in memory then memory[name] else []) + [e]];
      if |memory[name]| > cap {
        memory := memory[name := Tail(memory[name], cap)];
      }
      Persist(name);
    }

    method Persist(name: Peer)
      requires name in memory
      modifies this`files
      ensures files == old(files)[name := memory[name]]
    {
      files := files[name := memory[name]];
    }
  }

  lemma LastOfCapped(h: History, es: History, cap: nat)
    requires cap >= 1 && |h| <= cap && es != []
    ensures |AddCapped(h, es[0], cap)| <= cap
    ensures Last(AddCapped(h, es[0], cap) + es[1..], cap) == Last(h + es, cap)
  {
    assert h + es == h + [es[0]] + es[1..];
    if |h| == cap {
      assert AddCapped(h, es[0], cap) + es[1..] == (h + es)[1..];
    }
  }

  /** With a cap of at least one the manager keeps exactly the last `cap` of all messages. */
  lemma {:induction false} CappedRunKeepsLast(h: History, es: History, cap: nat)
    requires cap >= 1 && |h| <= cap
    ensures RunCapped(h, es, cap) == Last(h + es, cap)
    decreases |es|
  {
    if es == [] {
      assert h + es == h;
    } else {
      var next := AddCapped(h, es[0], cap);
      CappedRunKeepsLast(next, es[1..], cap);
      LastOfCapped(h, es, cap);
    }
  }

  /** With a cap of zero the cut takes the whole list, so nothing is ever dropped. */
  lemma {:induction false} ZeroCapKeepsAll(h: History, es: History)
    ensures RunCapped(h, es, 0) == h + es
    decreases |es|
  {
    if es == [] {
      assert h + es == h;
    } else {
      ZeroCapKeepsAll(h + [es[0]], es[1..]);
      assert h + es == h + [es[0]] + es[1..];
    }
  }

  /** So the cap bounds every run exactly when it is at least one. */
  lemma CapHoldsIff(cap: nat)
    ensures (forall es :: |RunCapped([], es, cap)| <= cap) <==> cap >= 1
  {
    if cap >= 1 {
      forall es ensures |RunCapped([], es, cap)| <= cap {
        CappedRunKeepsLast([], es, cap);
      }
    } else {
      var one := [Message("user", "", 0)];
      ZeroCapKeepsAll([], one);
      assert |RunCapped([], one, 0)| == 1;
    }
  }
}
