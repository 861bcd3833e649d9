/**
 Overlapping workers and one conversation file.  Nothing locks the file: an append reads it and later writes it,
 a compression loads it, waits for the model and later replaces it, and a refresh reads it and later sets the
 cached view.  Steps about other files do not touch this one.
 */
module ConversationOverlap {
  import opened Conversation

  type Worker = nat

  /** What a worker is doing with the file, with the history it read. */
  datatype Op = Appending(snap: History, e: Entry) | Compressing(snap: History) | Refreshing(snap: History)

  datatype Step =
    | BeginAppend(worker: Worker, e: Entry)
    | EndAppend(worker: Worker)
    | BeginCompress(worker: Worker)
    | EndCompress(worker: Worker, summary: string, stamp: int)
    | BeginRefresh(worker: Worker)
    | EndRefresh(worker: Worker)
    | Drop(worker: Worker)           // below the threshold, no summary, or an exception

  /** `tree` and `trees` say what the file and the snapshots stand for, `said` which appends were written. */
  datatype State = State(
    file: History, view: History, ops: map<Worker, Op>,
    tree: seq<Node>, trees: map<Worker, seq<Node>>, said: History, seen: set<Entry>)

  predicate Enabled(s: State, step: Step) {
    match step
    case BeginAppend(w, _) => w !in s.ops
    case BeginCompress(w) => w !in s.ops
    case BeginRefresh(w) => w !in s.ops
    case EndAppend(w) => w in s.ops && s.ops[w].Appending?
    case EndCompress(w, summary, _) =>
      w in s.ops && s.ops[w].Compressing? && |s.ops[w].snap| > KEEP_RECENT && summary != ""
    case EndRefresh(w) => w in s.ops && s.ops[w].Refreshing?
    case Drop(w) => w in s.ops
  }

  function TreeAt(s: State, w: Worker): seq<Node> {
    if w in s.trees then s.trees[w] else []
  }

  function Begin(s: State, w: Worker, op: Op): State {
    s.(ops := s.ops[w := op], trees := s.trees[w := s.tree])
  }

  function End(s: State, w: Worker): State {
    s.(ops := s.ops - {w}, trees := s.trees - {w})
  }

  function Written(s: State, w: Worker, h: History, t: seq<Node>): State {
    End(s, w).(file := h, tree := t, seen := s.seen + set x | x in h)
  }

  function FoldedTree(t: seq<Node>, summary: string, stamp: int): seq<Node> {
    if |t| <= KEEP_RECENT then t
    else [Folded(Summary(|t| - KEEP_RECENT, summary, stamp), t[..|t| - KEEP_RECENT])] + t[|t| - KEEP_RECENT..]
  }

  function After(s: State, step: Step, cap: nat): State {
    if !Enabled(s, step) then s
    else
      match step
      case BeginAppend(w, e) => Begin(s, w, Appending(s.file, e))
      case BeginCompress(w) => Begin(s, w, Compressing(s.file))
      case BeginRefresh(w) => Begin(s, w, Refreshing(s.file))
      case EndAppend(w) =>
        var op := s.ops[w];
        Written(s, w, op.snap + [op.e], TreeAt(s, w) + [Leaf(op.e)]).(said := s.said + [op.e])
      case EndCompress(w, summary, stamp) =>
        Written(s, w, Compressed(s.ops[w].snap, summary, stamp), FoldedTree(TreeAt(s, w), summary, stamp))
      case EndRefresh(w) => End(s, w).(view := Last(s.ops[w].snap, cap))
      case Drop(w) => End(s, w)
  }

  function Run(s: State, steps: seq<Step>, cap: nat): State
    decreases |steps|
  {
    if steps == [] then s else After(Run(s, steps[..|steps| - 1], cap), steps[|steps| - 1], cap)
  }

  ghost predicate Valid(s: State, steps: seq<Step>, cap: nat) {
    forall k {:trigger steps[k]} :: 0 <= k < |steps| ==> Enabled(Run(s, steps[..k], cap), steps[k])
  }

  function Start(h: History, view: History, t: seq<Node>): State {
    State(h, view, map[], t, map[], Unfold(t), set x | x in h)
  }

  // ---------- Who overtakes whom ----------

  /** Since the worker last read the file, another worker wrote an append to it. */
  predicate AppendedSince(steps: seq<Step>, w: Worker)
    decreases |steps|
  {
    steps != [] &&
    var front, step := steps[..|steps| - 1], steps[|steps| - 1];
    if step.worker == w then !Begins(step) && AppendedSince(front, w)
    else step.EndAppend? || AppendedSince(front, w)
  }

  predicate Begins(step: Step) {
    step.BeginAppend? || step.BeginCompress? || step.BeginRefresh?
  }

  predicate Writes(step: Step) {
    step.EndAppend? || step.EndCompress?
  }

  /** No append is written between another worker's read of the file and that worker's write. */
  ghost predicate NoneOvertaken(steps: seq<Step>) {
    forall k {:trigger steps[k]} :: 0 <= k < |steps| && Writes(steps[k]) ==> !AppendedSince(steps[..k], steps[k].worker)
  }

  // ---------- Conservation ----------

  /** The file unfolds to all that was ever appended, in the order of the writes. */
  ghost predicate Conserved(s: State) {
    Conserves(s.file, s.tree, s.said)
  }

  /** Every snapshot is what its tree shows; trees never stand for more than was said. */
  ghost predicate Sound(s: State) {
    && s.trees.Keys == s.ops.Keys
    && Shown(s.tree) == s.file && Honest(s.tree) && |Unfold(s.tree)| <= |s.said|
    && forall w :: w in s.ops ==> SoundSnap(s, w)
  }

  ghost predicate SoundSnap(s: State, w: Worker) {
    Shown(TreeAt(s, w)) == (if w in s.ops then s.ops[w].snap else []) && Honest(TreeAt(s, w))
    && |Unfold(TreeAt(s, w))| <= |s.said|
  }

  /** A snapshot overtaken by an append stands for less than was said. */
  ghost predicate Behind(s: State, steps: seq<Step>) {
    forall w :: w in s.ops && AppendedSince(steps, w) ==> |Unfold(TreeAt(s, w))| < |s.said|
  }

  /** ... and any other, as long as all is conserved, for all that was said. */
  ghost predicate UpToDate(s: State, steps: seq<Step>) {
    forall w :: w in s.ops && !AppendedSince(steps, w) ==> Unfold(TreeAt(s, w)) == s.said
  }

  lemma FoldedTreeKeeps(t: seq<Node>, h: History, summary: string, stamp: int)
    requires Shown(t) == h && Honest(t) && |h| > KEEP_RECENT
    ensures var t' := FoldedTree(t, summary, stamp);
            Unfold(t') == Unfold(t) && Honest(t') && Shown(t') == Compressed(h, summary, stamp)
  {
    hide Honest, Unfold;
    FoldKeepsAll(t, |t| - KEEP_RECENT, summary, stamp);
  }

  /** What a write makes of the tree it started from. */
  lemma WriteTree(s: State, step: Step, cap: nat)
    requires Sound(s) && Enabled(s, step) && Writes(step)
    ensures var t, base := After(s, step, cap), TreeAt(s, step.worker);
            && Shown(t.tree) == t.file && Honest(t.tree)
            && (step.EndAppend? ==> Unfold(t.tree) == Unfold(base) + [s.ops[step.worker].e]
                                    && t.said == s.said + [s.ops[step.worker].e])
            && (step.EndCompress? ==> Unfold(t.tree) == Unfold(base) && t.said == s.said)
  {
    hide Shown, Unfold, Honest, Compressed, FoldedTree, Last;
    var w := step.worker;
    assert SoundSnap(s, w);
    match step
    case EndAppend(_) => AppendLeaf(TreeAt(s, w), s.ops[w].e);
    case EndCompress(_, summary, stamp) => FoldedTreeKeeps(TreeAt(s, w), s.ops[w].snap, summary, stamp);
  }

  /** The other workers' snapshots are untouched by a step. */
  lemma OthersSame(s: State, step: Step, cap: nat, v: Worker)
    requires Enabled(s, step) && v != step.worker
    ensures var t := After(s, step, cap);
            (v in t.ops <==> v in s.ops) && (v in s.ops ==> t.ops[v] == s.ops[v]) && TreeAt(t, v) == TreeAt(s, v)
  {
    hide Compressed, FoldedTree, Last;
  }

  lemma SaidGrows(s: State, step: Step, cap: nat)
    requires Enabled(s, step)
    ensures var t := After(s, step, cap);
            |t.said| == |s.said| + (if step.EndAppend? then 1 else 0) && (!step.EndAppend? ==> t.said == s.said)
  {
    hide Compressed, FoldedTree, Last;
  }

  lemma OwnAfter(s: State, step: Step, cap: nat)
    requires Enabled(s, step)
    ensures var t, w := After(s, step, cap), step.worker;
            && (Begins(step) <==> w in t.ops)
            && (Begins(step) ==> t.ops[w].snap == s.file && TreeAt(t, w) == s.tree)
            && (!Writes(step) ==> t.file == s.file && t.tree == s.tree && t.seen == s.seen)
            && (s.trees.Keys == s.ops.Keys ==> t.trees.Keys == t.ops.Keys)
  {
    hide Compressed, FoldedTree, Last;
  }

  lemma StepSound(s: State, steps: seq<Step>, step: Step, cap: nat)
    requires Sound(s) && Behind(s, steps) && Enabled(s, step)
    ensures Sound(After(s, step, cap)) && Behind(After(s, step, cap), steps + [step])
  {
    hide After, Enabled, Shown, Unfold, Honest, TreeAt;
    var t, all := After(s, step, cap), steps + [step];
    assert all[..|all| - 1] == steps && all[|all| - 1] == step;
    OwnAfter(s, step, cap);
    SaidGrows(s, step, cap);
    if Writes(step) {
      assert step.worker in s.ops by { WriterIsBusy(s, step); }
      assert SoundSnap(s, step.worker);
      WriteTree(s, step, cap);
    }
    forall v | v in t.ops
      ensures SoundSnap(t, v) && (AppendedSince(all, v) ==> |Unfold(TreeAt(t, v))| < |t.said|)
    {
      if v != step.worker {
        OthersSame(s, step, cap, v);
        assert SoundSnap(s, v);
      }
    }
  }

  lemma WriterIsBusy(s: State, step: Step)
    requires Enabled(s, step) && !Begins(step)
    ensures step.worker in s.ops
  {
  }

  /** A step of a conserving run conserves exactly when it is no write by an overtaken worker. */
  lemma StepConserves(s: State, steps: seq<Step>, step: Step, cap: nat)
    requires Sound(s) && Behind(s, steps) && UpToDate(s, steps) && Conserved(s) && Enabled(s, step)
    ensures var t := After(s, step, cap);
            && (Conserved(t) <==> !(Writes(step) && AppendedSince(steps, step.worker)))
            && (Conserved(t) ==> UpToDate(t, steps + [step]))
  {
    hide After, Enabled, Shown, Unfold, Honest, TreeAt;
    var t, all := After(s, step, cap), steps + [step];
    assert all[..|all| - 1] == steps && all[|all| - 1] == step;
    OwnAfter(s, step, cap);
    SaidGrows(s, step, cap);
    if Writes(step) {
      WriterIsBusy(s, step);
      WriteTree(s, step, cap);
    }
    if Conserved(t) {
      forall v | v in t.ops && !AppendedSince(all, v) ensures Unfold(TreeAt(t, v)) == t.said {
        if v != step.worker { OthersSame(s, step, cap, v); }
      }
    }
  }

  lemma ValidFront(s: State, steps: seq<Step>, cap: nat)
    requires Valid(s, steps, cap) && steps != []
    ensures var front := steps[..|steps| - 1];
            Valid(s, front, cap) && Enabled(Run(s, front, cap), steps[|steps| - 1])
  {
    hide Enabled, Run;
    var front := steps[..|steps| - 1];
    assert Enabled(Run(s, steps[..|front|], cap), steps[|front|]);
    forall k | 0 <= k < |front| ensures Enabled(Run(s, front[..k], cap), front[k]) {
      assert front[..k] == steps[..k] && front[k] == steps[k];
    }
  }

  ghost predicate ConservedThroughout(s: State, steps: seq<Step>, cap: nat) {
    forall k :: 0 <= k <= |steps| ==> Conserved(Run(s, steps[..k], cap))
  }

  lemma SplitLast(s: State, steps: seq<Step>, cap: nat)
    requires steps != []
    ensures var front, step := steps[..|steps| - 1], steps[|steps| - 1];
            && (ConservedThroughout(s, steps, cap)
                <==> ConservedThroughout(s, front, cap) && Conserved(Run(s, steps, cap)))
            && (NoneOvertaken(steps) <==> NoneOvertaken(front) && !(Writes(step) && AppendedSince(front, step.worker)))
  {
    hide Conserved, AppendedSince, Run, Writes;
    var front, n := steps[..|steps| - 1], |steps| - 1;
    assert steps[..|steps|] == steps && steps[..n] == front;
    if NoneOvertaken(steps) {
      assert Writes(steps[n]) ==> !AppendedSince(steps[..n], steps[n].worker);
      forall k | 0 <= k < n && Writes(front[k]) ensures !AppendedSince(front[..k], front[k].worker) {
        assert steps[k] == front[k] && steps[..k] == front[..k];
      }
    }
    if NoneOvertaken(front) && !(Writes(steps[n]) && AppendedSince(front, steps[n].worker)) {
      forall k | 0 <= k < |steps| && Writes(steps[k]) ensures !AppendedSince(steps[..k], steps[k].worker) {
        if k < n { assert front[k] == steps[k] && steps[..k] == front[..k]; }
      }
    }
    if ConservedThroughout(s, front, cap) && Conserved(Run(s, steps, cap)) {
      forall k | 0 <= k <= |steps| ensures Conserved(Run(s, steps[..k], cap)) {
        if k <= n { assert front[..k] == steps[..k]; }
      }
    }
    if ConservedThroughout(s, steps, cap) {
      forall k | 0 <= k <= n ensures Conserved(Run(s, front[..k], cap)) {
        assert front[..k] == steps[..k];
      }
    }
  }

  lemma {:induction false} RunSound(h: History, view: History, t: seq<Node>, steps: seq<Step>, cap: nat)
    requires Shown(t) == h && Honest(t) && Valid(Start(h, view, t), steps, cap)
    ensures var end := Run(Start(h, view, t), steps, cap); Sound(end) && Behind(end, steps)
    decreases |steps|
  {
    hide Shown, Unfold, Honest, Sound, Behind, Enabled, After;
    var s := Start(h, view, t);
    if steps == [] {
      StartSound(h, view, t);
    } else {
      var front, step := steps[..|steps| - 1], steps[|steps| - 1];
      ValidFront(s, steps, cap);
      RunSound(h, view, t, front, cap);
      StepSound(Run(s, front, cap), front, step, cap);
      assert front + [step] == steps;
    }
  }

  lemma StartSound(h: History, view: History, t: seq<Node>)
    requires Shown(t) == h && Honest(t)
    ensures var s := Start(h, view, t); Sound(s) && Behind(s, []) && Conserved(s) && UpToDate(s, [])
  {
  }

  lemma {:induction false} ConservesAndUpToDate(h: History, view: History, t: seq<Node>, steps: seq<Step>, cap: nat)
    requires Shown(t) == h && Honest(t) && Valid(Start(h, view, t), steps, cap)
    ensures var s := Start(h, view, t);
            && (ConservedThroughout(s, steps, cap) <==> NoneOvertaken(steps))
            && (NoneOvertaken(steps) ==> UpToDate(Run(s, steps, cap), steps) && Conserved(Run(s, steps, cap)))
    decreases |steps|
  {
    hide Shown, Unfold, Honest, Sound, Behind, UpToDate, Conserved, Enabled, After;
    var s := Start(h, view, t);
    if steps == [] {
      StartSound(h, view, t);
      assert steps[..0] == [];
    } else {
      var front, step := steps[..|steps| - 1], steps[|steps| - 1];
      ValidFront(s, steps, cap);
      ConservesAndUpToDate(h, view, t, front, cap);
      SplitLast(s, steps, cap);
      if NoneOvertaken(front) {
        RunSound(h, view, t, front, cap);
        StepConserves(Run(s, front, cap), front, step, cap);
        assert front + [step] == steps;
      }
    }
  }

  /**
   However workers overlap: every state of a run conserves the conversation if and only if no append is written
   between another worker's read of the file and that worker's write.
   */
  lemma ConservesIffNoneOvertaken(h: History, view: History, t: seq<Node>, steps: seq<Step>, cap: nat)
    requires Shown(t) == h && Honest(t) && Valid(Start(h, view, t), steps, cap)
    ensures ConservedThroughout(Start(h, view, t), steps, cap) <==> NoneOvertaken(steps)
  {
    ConservesAndUpToDate(h, view, t, steps, cap);
  }

  /** An append written while a compression waits for its summary is gone: not in the file, not in any summary. */
  lemma CompressionLosesAppend(h: History, view: History, t: seq<Node>, m: Entry, summary: string, stamp: int, cap: nat)
    requires Shown(t) == h && Honest(t) && |h| > KEEP_RECENT && summary != "" && m !in Unfold(t)
    ensures var s := Start(h, view, t);
            var steps := [BeginCompress(0), BeginAppend(1, m), EndAppend(1), EndCompress(0, summary, stamp)];
            var end := Run(s, steps, cap);
            && Valid(s, steps, cap) && end.file == Compressed(h, summary, stamp)
            && m in end.said && m !in Unfold(end.tree) && !Conserved(end)
  {
    hide Shown, Unfold, Honest, Compressed, FoldedTree, Last;
    var s := Start(h, view, t);
    var a, b, c, d := BeginCompress(0), BeginAppend(1, m), EndAppend(1), EndCompress(0, summary, stamp);
    var steps := [a, b, c, d];
    assert steps[..0] == [] && steps[..1] == [a] && steps[..2] == [a, b] && steps[..3] == [a, b, c];
    assert [a][..0] == [] && [a, b][..1] == [a] && [a, b, c][..2] == [a, b];
    var s1 := After(s, a, cap);
    var s2 := After(s1, b, cap);
    var s3 := After(s2, c, cap);
    assert Run(s, [], cap) == s && Run(s, [a], cap) == s1 && Run(s, [a, b], cap) == s2;
    assert Run(s, [a, b, c], cap) == s3 && Run(s, steps, cap) == After(s3, d, cap);
    FoldedTreeKeeps(t, h, summary, stamp);
  }

  // ---------- The cached view ----------

  /** Since the worker last read the file, another worker's write changed what the last `cap` entries show. */
  predicate ViewChangedSince(steps: seq<Step>, w: Worker, cap: nat)
    decreases |steps|
  {
    steps != [] &&
    var front, step := steps[..|steps| - 1], steps[|steps| - 1];
    if step.worker == w then !Begins(step) && ViewChangedSince(front, w, cap)
    else step.EndAppend? || (cap > KEEP_RECENT && step.EndCompress?) || ViewChangedSince(front, w, cap)
  }

  /** Messages and summaries carry their time, so a written entry was never in the file before. */
  predicate Fresh(s: State, step: Step)
    requires Enabled(s, step)
  {
    match step
    case EndAppend(w) => s.ops[w].e !in s.seen
    case EndCompress(w, summary, stamp) => Summary(|s.ops[w].snap| - KEEP_RECENT, summary, stamp) !in s.seen
    case _ => true
  }

  ghost predicate AllFresh(s: State, steps: seq<Step>, cap: nat) {
    forall k {:trigger steps[k]} :: 0 <= k < |steps| ==>
      var now := Run(s, steps[..k], cap); Enabled(now, steps[k]) && Fresh(now, steps[k])
  }

  /** An entry of the file that a snapshot lacks, and that its last `cap` entries show. */
  predicate Differs(file: History, snap: History, cap: nat) {
    || (file != [] && file[|file| - 1] !in snap)
    || (cap > KEEP_RECENT && |file| == 5 && file[0] !in snap)
  }

  lemma DiffersShows(file: History, snap: History, cap: nat)
    requires cap >= 1 && Differs(file, snap, cap)
    ensures Last(file, cap) != Last(snap, cap)
  {
    var shown := Last(file, cap);
    if file != [] && file[|file| - 1] !in snap {
      assert shown[|shown| - 1] == file[|file| - 1];
    } else {
      assert shown == file;
    }
    assert forall e :: e in Last(snap, cap) ==> e in snap;
  }

  lemma LastOfLast(h: History, n: nat)
    requires n <= KEEP_RECENT
    ensures Last(Last(h, KEEP_RECENT), n) == Last(h, n)
  {
  }

  /** How one snapshot relates to the file. */
  ghost predicate SnapView(file: History, snap: History, seen: set<Entry>, appended: bool, changed: bool, cap: nat) {
    && (forall e :: e in snap ==> e in seen)
    && (!appended ==> Last(snap, KEEP_RECENT) == Last(file, KEEP_RECENT))
    && (!changed ==> Last(snap, cap) == Last(file, cap))
    && (changed ==> Differs(file, snap, cap))
  }

  ghost predicate Views(s: State, steps: seq<Step>, cap: nat) {
    && (forall e :: e in s.file ==> e in s.seen)
    && forall w :: w in s.ops ==>
         SnapView(s.file, s.ops[w].snap, s.seen, AppendedSince(steps, w), ViewChangedSince(steps, w, cap), cap)
  }

  lemma AppendShows(file: History, base: History, e: Entry, snap: History, seen: set<Entry>, a: bool, c: bool, cap: nat)
    requires SnapView(file, snap, seen, a, c, cap) && e !in seen
    ensures SnapView(base + [e], snap, seen + (set x | x in base + [e]), true, true, cap)
  {
    var file' := base + [e];
    assert file'[|file'| - 1] == e;
  }

  /** A compression from a snapshot with the file's last four changes only longer views. */
  lemma CompressShows(file: History, base: History, summary: string, stamp: int, snap: History, seen: set<Entry>,
                      a: bool, c: bool, cap: nat)
    requires SnapView(file, snap, seen, a, c, cap) && |base| > KEEP_RECENT
    requires Last(base, KEEP_RECENT) == Last(file, KEEP_RECENT)
    requires Summary(|base| - KEEP_RECENT, summary, stamp) !in seen
    ensures var file' := Compressed(base, summary, stamp);
            SnapView(file', snap, seen + (set x | x in file'), a, c || cap > KEEP_RECENT, cap)
  {
    var file' := Compressed(base, summary, stamp);
    CompressedViews(base, summary, stamp, KEEP_RECENT);
    assert |file'| == 5 && file'[0] == Summary(|base| - KEEP_RECENT, summary, stamp);
    assert file'[4] == base[|base| - 1] == Last(base, KEEP_RECENT)[3] == Last(file, KEEP_RECENT)[3];
    assert |file| >= 4 && Last(file, KEEP_RECENT)[3] == file[|file| - 1];
    if cap <= KEEP_RECENT {
      LastOfLast(file, cap);
      LastOfLast(file', cap);
    }
  }

  lemma StepViews(s: State, steps: seq<Step>, step: Step, cap: nat)
    requires Views(s, steps, cap) && Enabled(s, step) && Fresh(s, step)
    requires !(Writes(step) && AppendedSince(steps, step.worker))
    ensures Views(After(s, step, cap), steps + [step], cap)
  {
    hide SnapView, Compressed, FoldedTree, Last;
    var t, all := After(s, step, cap), steps + [step];
    assert all[..|all| - 1] == steps && all[|all| - 1] == step;
    OwnAfter(s, step, cap);
    if !Begins(step) { WriterIsBusy(s, step); }
    forall v | v in t.ops
      ensures SnapView(t.file, t.ops[v].snap, t.seen, AppendedSince(all, v), ViewChangedSince(all, v, cap), cap)
    {
      if v == step.worker {
        OwnView(s.file, s.seen, cap);
      } else {
        OthersSame(s, step, cap, v);
        OtherView(s, steps, step, cap, v);
      }
    }
  }

  lemma OwnView(file: History, seen: set<Entry>, cap: nat)
    requires forall e :: e in file ==> e in seen
    ensures SnapView(file, file, seen, false, false, cap)
  {
  }

  lemma OtherView(s: State, steps: seq<Step>, step: Step, cap: nat, v: Worker)
    requires Views(s, steps, cap) && Enabled(s, step) && Fresh(s, step) && v in s.ops && v != step.worker
    requires !(Writes(step) && AppendedSince(steps, step.worker))
    ensures var t, all := After(s, step, cap), steps + [step];
            SnapView(t.file, s.ops[v].snap, t.seen, AppendedSince(all, v), ViewChangedSince(all, v, cap), cap)
  {
    hide SnapView, Compressed, FoldedTree, Last;
    var all := steps + [step];
    assert all[..|all| - 1] == steps && all[|all| - 1] == step;
    var snap, a, c := s.ops[v].snap, AppendedSince(steps, v), ViewChangedSince(steps, v, cap);
    assert SnapView(s.file, snap, s.seen, a, c, cap);
    match step
    case EndAppend(w) => AppendShows(s.file, s.ops[w].snap, s.ops[w].e, snap, s.seen, a, c, cap);
    case EndCompress(w, summary, stamp) =>
      LastFour(s, steps, w, cap);
      CompressShows(s.file, s.ops[w].snap, summary, stamp, snap, s.seen, a, c, cap);
    case _ =>
  }

  lemma LastFour(s: State, steps: seq<Step>, w: Worker, cap: nat)
    requires Views(s, steps, cap) && w in s.ops && !AppendedSince(steps, w)
    ensures Last(s.ops[w].snap, KEEP_RECENT) == Last(s.file, KEEP_RECENT)
  {
    assert SnapView(s.file, s.ops[w].snap, s.seen, AppendedSince(steps, w), ViewChangedSince(steps, w, cap), cap);
  }

  lemma FreshFront(s: State, steps: seq<Step>, cap: nat)
    requires AllFresh(s, steps, cap) && NoneOvertaken(steps) && steps != []
    ensures var front, step := steps[..|steps| - 1], steps[|steps| - 1];
            && AllFresh(s, front, cap) && NoneOvertaken(front) && Enabled(Run(s, front, cap), step)
            && Fresh(Run(s, front, cap), step) && !(Writes(step) && AppendedSince(front, step.worker))
  {
    hide Enabled, Fresh, Run, AppendedSince, Writes;
    SplitLast(s, steps, cap);
    var front := steps[..|steps| - 1];
    assert Enabled(Run(s, steps[..|front|], cap), steps[|front|]);
    assert Fresh(Run(s, steps[..|front|], cap), steps[|front|]);
    forall k | 0 <= k < |front|
      ensures Enabled(Run(s, front[..k], cap), front[k]) && Fresh(Run(s, front[..k], cap), front[k])
    {
      assert front[..k] == steps[..k] && front[k] == steps[k];
    }
  }

  lemma {:induction false} RunViews(h: History, view: History, t: seq<Node>, steps: seq<Step>, cap: nat)
    requires AllFresh(Start(h, view, t), steps, cap) && NoneOvertaken(steps)
    ensures Views(Run(Start(h, view, t), steps, cap), steps, cap)
    decreases |steps|
  {
    hide Enabled, Fresh, After, Views;
    var s := Start(h, view, t);
    if steps == [] {
      StartViews(h, view, t, cap);
    } else {
      var front, step := steps[..|steps| - 1], steps[|steps| - 1];
      FreshFront(s, steps, cap);
      RunViews(h, view, t, front, cap);
      StepViews(Run(s, front, cap), front, step, cap);
      assert front + [step] == steps;
    }
  }

  lemma StartViews(h: History, view: History, t: seq<Node>, cap: nat)
    ensures Views(Start(h, view, t), [], cap)
  {
  }

  /**
   In a run that conserves, a worker's refresh leaves the cached view the last entries of the file if and only if,
   since it read the file, no other worker wrote an append, nor a compression when the view reaches past the last four.
   */
  lemma RefreshCoherentIff(h: History, view: History, t: seq<Node>, steps: seq<Step>, w: Worker, cap: nat)
    requires cap >= 1 && AllFresh(Start(h, view, t), steps + [EndRefresh(w)], cap) && NoneOvertaken(steps)
    ensures var end := Run(Start(h, view, t), steps + [EndRefresh(w)], cap);
            end.view == Last(end.file, cap) <==> !ViewChangedSince(steps, w, cap)
  {
    hide Last, Compressed, FoldedTree, AppendedSince, ViewChangedSince, Differs;
    var s0, all := Start(h, view, t), steps + [EndRefresh(w)];
    assert all[..|all| - 1] == steps && all[|steps|] == EndRefresh(w);
    FrontFresh(s0, steps, EndRefresh(w), cap);
    RunViews(h, view, t, steps, cap);
    var s := Run(s0, steps, cap);
    assert Enabled(Run(s0, all[..|steps|], cap), all[|steps|]) && all[..|steps|] == steps;
    var snap := s.ops[w].snap;
    assert SnapView(s.file, snap, s.seen, AppendedSince(steps, w), ViewChangedSince(steps, w, cap), cap);
    if ViewChangedSince(steps, w, cap) { DiffersShows(s.file, snap, cap); }
  }

  lemma FrontFresh(s: State, steps: seq<Step>, step: Step, cap: nat)
    requires AllFresh(s, steps + [step], cap)
    ensures AllFresh(s, steps, cap)
  {
    hide Enabled, Fresh, Run;
    var all := steps + [step];
    forall k | 0 <= k < |steps|
      ensures Enabled(Run(s, steps[..k], cap), steps[k]) && Fresh(Run(s, steps[..k], cap), steps[k])
    {
      assert all[..k] == steps[..k] && all[k] == steps[k];
    }
  }

  // ---------- The code, one read or write at a time ----------

  class SharedConversation {
    const cap: nat
    var file: History
    var view: History
    var ops: map<Worker, Op>
    ghost var tree: seq<Node>
    ghost var trees: map<Worker, seq<Node>>
    ghost var said: History
    ghost var seen: set<Entry>

    ghost function Now(): State
      reads this
    {
      State(file, view, ops, tree, trees, said, seen)
    }

    constructor (h: History, view: History, cap: nat, ghost t: seq<Node>)
      requires Shown(t) == h
      ensures Now() == Start(h, view, t) && this.cap == cap
    {
      this.cap, file, this.view, ops := cap, h, view, map[];
      tree, trees, said, seen := t, map[], Unfold(t), set x | x in h;
    }

    ghost method Note(s: State)
      modifies this`tree, this`trees, this`said, this`seen
      ensures tree == s.tree && trees == s.trees && said == s.said && seen == s.seen
    {
      tree, trees, said, seen := s.tree, s.trees, s.said, s.seen;
    }

    /** The first half of `append`: build the message and read the file. */
    method ReadForAppend(w: Worker, e: Entry)
      requires w !in ops
      modifies this
      ensures Now() == After(old(Now()), BeginAppend(w, e), cap)
    {
      Note(After(Now(), BeginAppend(w, e), cap));
      ops := ops[w := Appending(file, e)];
    }

    /** ... and the second: write back what was read with the message after it. */
    method WriteAppend(w: Worker)
      requires w in ops && ops[w].Appending?
      modifies this
      ensures Now() == After(old(Now()), EndAppend(w), cap)
    {
      Note(After(Now(), EndAppend(w), cap));
      file := ops[w].snap + [ops[w].e];
      ops := ops - {w};
    }

    /** `check_and_compress` up to the call of the model. */
    method LoadForCompress(w: Worker)
      requires w !in ops
      modifies this
      ensures Now() == After(old(Now()), BeginCompress(w), cap)
    {
      Note(After(Now(), BeginCompress(w), cap));
      ops := ops[w := Compressing(file)];
    }

    /** ... and from its summary on. */
    method ReplaceCompressed(w: Worker, summary: string, stamp: int)
      requires w in ops && ops[w].Compressing? && |ops[w].snap| > KEEP_RECENT && summary != ""
      modifies this
      ensures Now() == After(old(Now()), EndCompress(w, summary, stamp), cap)
    {
      Note(After(Now(), EndCompress(w, summary, stamp), cap));
      var history := ops[w].snap;
      var toSummarize, recent := history[..|history| - KEEP_RECENT], history[|history| - KEEP_RECENT..];
      file := [Summary(|toSummarize|, summary, stamp)] + recent;
      ops := ops - {w};
    }

    /** `get_last` for the cached view. */
    method ReadForRefresh(w: Worker)
      requires w !in ops
      modifies this
      ensures Now() == After(old(Now()), BeginRefresh(w), cap)
    {
      Note(After(Now(), BeginRefresh(w), cap));
      ops := ops[w := Refreshing(file)];
    }

    method SetView(w: Worker)
      requires w in ops && ops[w].Refreshing?
      modifies this
      ensures Now() == After(old(Now()), EndRefresh(w), cap)
    {
      Note(After(Now(), EndRefresh(w), cap));
      var h := ops[w].snap;
      view := if cap > 0 then Tail(h, cap) else [];
      ops := ops - {w};
    }

    method GiveUp(w: Worker)
      requires w in ops
      modifies this
      ensures Now() == After(old(Now()), Drop(w), cap)
    {
      Note(After(Now(), Drop(w), cap));
      ops := ops - {w};
    }
  }
}
