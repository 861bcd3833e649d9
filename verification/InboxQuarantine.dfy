/**
 Quarantined files and deadletter names.

 The deadletter name is chosen by an existence check and the move comes later, so two handlers can
 pick the same plain name.  What is kept under which condition is settled here.
 */
module InboxQuarantine {
  import opened InboxProtocol
  import InboxSafety

  predicate Bad(c: Config, p: Path) {
    !WellFormed(c.world(p))
  }

  ghost predicate Buried(s: State, p: Path) {
    exists d :: d in s.dead && s.dead[d] == p && InboxSafety.FileOf(d) == Plain(p.name)
  }

  /** Every oversized or malformed file that arrived is still in the inbox or in deadletter/. */
  ghost predicate BadFilesKept(c: Config, s: State) {
    forall p :: p in s.arrived && Bad(c, p) ==> p in s.inbox || p in s.dead.Values
  }

  /** No two bad files of different peers share a file name. */
  ghost predicate BadNamesDistinct(c: Config) {
    forall p, q :: Bad(c, p) && Bad(c, q) && p.name == q.name ==> p == q
  }

  predicate FileRouted(c: Config, f: File) {
    f.InboxFile? ==> Bad(c, f.path)
  }

  predicate Routed(c: Config, pc: Pc) {
    match pc
    case Quarantine(f) => FileRouted(c, f)
    case Bury(f, dest) => FileRouted(c, f) && InboxSafety.FileOf(dest) == NameOf(f)
    case Peek(p) => !Bad(c, p)
    case Consume(p) => !Bad(c, p)
    case Admit(p) => !Bad(c, p)
    case Stage(p) => !Bad(c, p)
    case _ => true
  }

  predicate DeadNamed(c: Config, s: State, d: DeadName) {
    d in s.dead && InboxSafety.FileOf(d).Plain? ==>
      Bad(c, s.dead[d]) && s.dead[d].name == InboxSafety.FileOf(d).name
  }

  ghost predicate Kept(c: Config, s: State, p: Path) {
    p in s.arrived && Bad(c, p) ==> p in s.inbox || Buried(s, p)
  }

  ghost predicate Inv(c: Config, s: State) {
    && (forall p :: Kept(c, s, p))
    && (forall d :: DeadNamed(c, s, d))
    && (forall n :: n in s.calls ==> Routed(c, s.calls[n]))
  }

  /** A step that buries nothing and takes no bad file out of the inbox. */
  lemma DiskKept(c: Config, s: State, t: State)
    requires Inv(c, s) && t.dead == s.dead && t.arrived <= s.arrived + t.inbox
    requires forall p :: p in s.inbox && Bad(c, p) ==> p in t.inbox
    requires forall n :: n in t.calls ==> (n in s.calls && t.calls[n] == s.calls[n]) || Routed(c, t.calls[n])
    ensures Inv(c, t)
  {
    forall p ensures Kept(c, t, p) {
      assert Kept(c, s, p);
      if Buried(s, p) {
        var d :| d in s.dead && s.dead[d] == p && InboxSafety.FileOf(d) == Plain(p.name);
        assert d in t.dead;
      }
    }
    forall d ensures DeadNamed(c, t, d) { assert DeadNamed(c, s, d); }
  }

  lemma BuryKeeps(c: Config, s: State, n: nat, f: File, dest: DeadName, a: Answer)
    requires BadNamesDistinct(c) && Inv(c, s) && FileRouted(c, f) && InboxSafety.FileOf(dest) == NameOf(f)
    ensures Inv(c, AfterBury(s, n, f, dest, a))
  {
    var t := AfterBury(s, n, f, dest, a);
    if !Exists(s, f) || a == Fault {
      DiskKept(c, s, t);
      return;
    }
    forall p ensures Kept(c, t, p) {
      assert Kept(c, s, p);
      if Buried(s, p) && Bad(c, p) {
        var d :| d in s.dead && s.dead[d] == p && InboxSafety.FileOf(d) == Plain(p.name);
        assert d == dest ==> f == InboxFile(p);
        assert d in t.dead && t.dead[d] == p;
      } else if f == InboxFile(p) {
        assert t.dead[dest] == p;
      }
    }
    forall d ensures DeadNamed(c, t, d) { assert DeadNamed(c, s, d); }
  }

  /** Call `n` goes on to `pc` or ends, after a change to memory only. */
  lemma MovesOn(c: Config, s: State, t: State, n: nat, pc: Pc)
    requires Inv(c, s) && Routed(c, pc)
    requires t.inbox == s.inbox && t.dead == s.dead && t.arrived == s.arrived && t.calls == s.calls
    ensures Inv(c, Goto(t, n, pc)) && Inv(c, End(t, n))
  {
    DiskKept(c, s, Goto(t, n, pc));
    DiskKept(c, s, End(t, n));
  }

  lemma HandlerKeeps(c: Config, s: State, n: nat, a: Answer)
    requires Inv(c, s) && n in s.calls && AnswerFits(s, s.calls[n], a, c) && Routed(c, s.calls[n])
    ensures s.calls[n].Classify? ==> Inv(c, AfterClassify(c, s, n, s.calls[n].path, a))
    ensures s.calls[n].Peek? ==> Inv(c, AfterPeek(c, s, n, s.calls[n].path))
    ensures s.calls[n].Admit? ==> Inv(c, AfterAdmit(c, s, n, s.calls[n].path, a))
    ensures s.calls[n].Mark? ==> Inv(c, AfterMark(c, s, n, s.calls[n].path, a))
  {
    match s.calls[n] {
      case Classify(p) =>
        MovesOn(c, s, s, n, if Bad(c, p) then Quarantine(InboxFile(p)) else Peek(p));
      case Peek(p) =>
        MovesOn(c, s, s, n, Consume(p));
        MovesOn(c, s, s, n, Admit(p));
      case Admit(p) =>
        MovesOn(c, s, s, n, if IsBroadcast(c.world(p)) then Broadcast(p) else Stage(p));
      case Mark(p) =>
        MovesOn(c, s, s, n, Mark(p));
        MovesOn(c, s, s.(processed := s.processed + {MessageId(c.world(p))}), n, Mark(p));
        if a.Trimmed? { MovesOn(c, s, s.(processed := a.kept), n, Mark(p)); }
      case _ =>
    }
  }

  lemma SubmitKeeps(c: Config, s: State, n: nat, p: Path, job: Job, a: Answer)
    requires Inv(c, s)
    ensures Inv(c, AfterSubmit(s, n, p, job, a))
  {
    MovesOn(c, s, s, n, Mark(p));
    MovesOn(c, s, s.(queue := s.queue + [job]), n, Mark(p));
  }

  lemma LeaveKeeps(c: Config, s: State, n: nat, p: Path, a: Answer)
    requires Inv(c, s) && !Bad(c, p)
    ensures Inv(c, AfterConsume(s, n, p, a)) && Inv(c, AfterStage(s, n, p, a))
  {
    MovesOn(c, s, s, n, Mark(p));
    var t := s.(inbox := s.inbox - {p});
    DiskKept(c, s, t);
    MovesOn(c, t, t, n, Mark(p));
    if a.Named? {
      var u := Restage(s, p, a.uid);
      DiskKept(c, s, u);
      MovesOn(c, u, u, n, Submit(p, Staged(a.uid, p)));
    }
  }

  lemma QuarantineKeeps(c: Config, s: State, n: nat, f: File, a: Answer)
    requires Inv(c, s) && FileRouted(c, f)
    ensures Inv(c, AfterQuarantine(s, n, f, a))
  {
    MovesOn(c, s, s, n, Bury(f, DeadName(NameOf(f))));
    if a.Named? {
      MovesOn(c, s, s.(issued := s.issued[a.uid := Origin(f)]), n, Bury(f, Renamed(a.uid, NameOf(f))));
    }
  }

  lemma WorkKeeps(c: Config, s: State, n: nat, st: Staged, a: Answer)
    requires Inv(c, s)
    ensures Inv(c, AfterLoad(s, n, st, a)) && Inv(c, AfterWork(s, n, st, a))
  {
    hide Inv, Goto, End;
    MovesOn(c, s, s, n, Quarantine(StagedFile(st)));
    MovesOn(c, s, s, n, Work(st));
    MovesOn(c, s, s.(raises := s.raises[st := Count(s.raises, st) + 1]), n, Bump(st));
    MovesOn(c, s, s.(done := s.done + {st.origin}), n, Finish(st));
  }

  lemma CountKeeps(c: Config, s: State, n: nat, st: Staged, a: Answer)
    requires Inv(c, s)
    ensures Inv(c, AfterBump(s, n, st)) && Inv(c, AfterFinish(s, n, st, a))
  {
    var file := Quarantine(StagedFile(st));
    MovesOn(c, s, s.(attempts := s.attempts[st := Count(s.attempts, st) + 1]), n, file);
    var s' := s.(attempts := s.attempts - {st});
    MovesOn(c, s, s', n, file);
    MovesOn(c, s, s'.(processing := s'.processing - {st}), n, file);
  }

  lemma StepKeeps(c: Config, s: State, n: nat, a: Answer)
    requires BadNamesDistinct(c) && Inv(c, s) && n in s.calls && AnswerFits(s, s.calls[n], a, c)
    ensures Inv(c, Step(c, s, n, a))
  {
    assert Routed(c, s.calls[n]);
    match s.calls[n] {
      case Consume(p) => LeaveKeeps(c, s, n, p, a);
      case Stage(p) => LeaveKeeps(c, s, n, p, a);
      case Broadcast(p) => SubmitKeeps(c, s, n, p, Tell(p), a);
      case Submit(p, st) => SubmitKeeps(c, s, n, p, Deliver(st), a);
      case Quarantine(f) => QuarantineKeeps(c, s, n, f, a);
      case Bury(f, dest) => BuryKeeps(c, s, n, f, dest, a);
      case Load(st) => WorkKeeps(c, s, n, st, a);
      case Work(st) => WorkKeeps(c, s, n, st, a);
      case Bump(st) => CountKeeps(c, s, n, st, a);
      case Finish(st) => CountKeeps(c, s, n, st, a);
      case Announce(p) =>
        MovesOn(c, s, s, n, Mark(p));
        MovesOn(c, s, s.(done := s.done + {p}), n, Mark(p));
      case _ => HandlerKeeps(c, s, n, a);
    }
  }

  lemma NextKeeps(c: Config, s: State, act: Action)
    requires BadNamesDistinct(c) && Inv(c, s) && Enabled(c, s, act)
    ensures Inv(c, Next(c, s, act))
  {
    match act {
      case Advance(n, a) => StepKeeps(c, s, n, a);
      case _ => DiskKept(c, s, Next(c, s, act));
    }
  }

  lemma {:induction false} RunKeeps(c: Config, s: State, acts: seq<Action>, t: State)
    requires BadNamesDistinct(c) && Inv(c, s) && Run(c, s, acts, t)
    ensures Inv(c, t)
    decreases |acts|
  {
    if acts != [] {
      NextKeeps(c, s, acts[0]);
      RunKeeps(c, Next(c, s, acts[0]), acts[1..], t);
    }
  }

  /** Two bad files of the same name, quarantined by two handlers at once: the first is replaced. */
  lemma SharedNameClobbers(c: Config, p: Path, q: Path) returns (acts: seq<Action>, s: State)
    requires Bad(c, p) && Bad(c, q) && p.name == q.name && p != q
    ensures Reachable(c, acts, s) && !BadFilesKept(c, s)
  {
    acts, s := BothPicked(c, p, q);
    acts, s := InboxSafety.ExtendBy(c, acts, s, Advance(0, Fine));
    acts, s := InboxSafety.ExtendBy(c, acts, s, Advance(1, Fine));
    assert p in s.arrived && p !in s.inbox && s.dead == map[DeadName(Plain(q.name)) := q];
    assert p !in s.dead.Values;
  }

  /** Both handlers found the plain name free. */
  lemma BothPicked(c: Config, p: Path, q: Path) returns (acts: seq<Action>, s: State)
    requires Bad(c, p) && Bad(c, q) && p.name == q.name && p != q
    ensures Reachable(c, acts, s)
    ensures s == Start.(inbox := {p, q}, arrived := {p, q},
                        calls := map[0 := Bury(InboxFile(p), DeadName(Plain(p.name))),
                                     1 := Bury(InboxFile(q), DeadName(Plain(q.name)))])
  {
    acts, s := BothClassified(c, p, q);
    acts, s := InboxSafety.ExtendBy(c, acts, s, Advance(0, Fine));
    acts, s := InboxSafety.ExtendBy(c, acts, s, Advance(1, Fine));
  }

  lemma BothClassified(c: Config, p: Path, q: Path) returns (acts: seq<Action>, s: State)
    requires Bad(c, p) && Bad(c, q)
    ensures Reachable(c, acts, s)
    ensures s == Start.(inbox := {p, q}, arrived := {p, q},
                        calls := map[0 := Quarantine(InboxFile(p)), 1 := Quarantine(InboxFile(q))])
  {
    acts, s := BothArrived(c, p, q);
    acts, s := InboxSafety.ExtendBy(c, acts, s, Advance(0, Fine));
    acts, s := InboxSafety.ExtendBy(c, acts, s, Notice(1, q));
    acts, s := InboxSafety.ExtendBy(c, acts, s, Advance(1, Fine));
  }

  lemma BothArrived(c: Config, p: Path, q: Path) returns (acts: seq<Action>, s: State)
    ensures Reachable(c, acts, s)
    ensures s == Start.(inbox := {p, q}, arrived := {p, q}, calls := map[0 := Classify(p)])
  {
    acts, s := [], Start;
    acts, s := InboxSafety.ExtendBy(c, acts, s, Arrive(p));
    acts, s := InboxSafety.ExtendBy(c, acts, s, Arrive(q));
    acts, s := InboxSafety.ExtendBy(c, acts, s, Notice(0, p));
  }

  /** Bad files never clobber each other if and only if their names differ across peers. */
  lemma BadFilesKeptIffNamesDistinct(c: Config)
    ensures BadNamesDistinct(c) <==> forall acts, s :: Reachable(c, acts, s) ==> BadFilesKept(c, s)
  {
    if BadNamesDistinct(c) {
      forall acts, s | Reachable(c, acts, s) ensures BadFilesKept(c, s) {
        RunKeeps(c, Start, acts, s);
        forall p | p in s.arrived && Bad(c, p) ensures p in s.inbox || p in s.dead.Values {
          assert Kept(c, s, p);
        }
      }
    } else {
      var p, q :| Bad(c, p) && Bad(c, q) && p.name == q.name && p != q;
      var acts, s := SharedNameClobbers(c, p, q);
    }
  }
}
