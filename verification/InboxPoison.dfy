/**
 Poison messages and memory: how often a failing envelope is retried, what happens to its counter,
 and how large the dedup memory gets.
 */
module InboxPoison {
  import opened InboxProtocol

  // ---------- The dedup memory ----------

  lemma MarkBounded(c: Config, s: State, n: nat, p: Path, a: Answer)
    requires |s.processed| <= MAX_PROCESSED_IDS && AnswerFits(s, Mark(p), a, c)
    ensures |AfterMark(c, s, n, p, a).processed| <= MAX_PROCESSED_IDS
  {
  }

  lemma OnlyMarkRemembers(c: Config, s: State, n: nat, a: Answer)
    requires n in s.calls && AnswerFits(s, s.calls[n], a, c) && !s.calls[n].Mark?
    ensures Step(c, s, n, a).processed == s.processed
  {
  }

  /** Whatever the run, the dedup memory never holds more than a thousand ids. */
  lemma {:induction false} ProcessedIdsBounded(c: Config, s: State, acts: seq<Action>, t: State)
    requires |s.processed| <= MAX_PROCESSED_IDS && Run(c, s, acts, t)
    ensures |t.processed| <= MAX_PROCESSED_IDS
    decreases |acts|
  {
    if acts != [] {
      match acts[0] {
        case Advance(n, a) =>
          if s.calls[n].Mark? { MarkBounded(c, s, n, s.calls[n].path, a); }
          else { OnlyMarkRemembers(c, s, n, a); }
        case _ =>
      }
      ProcessedIdsBounded(c, Next(c, s, acts[0]), acts[1..], t);
    }
  }

  // ---------- Retries ----------

  /** The staged file a worker call is working on. */
  predicate Handles(pc: Pc, st: Staged) {
    pc == Load(st) || pc == Work(st) || pc == Bump(st) || pc == Finish(st) || Removes(pc, st)
  }

  predicate Removes(pc: Pc, st: Staged) {
    (pc.Quarantine? || pc.Bury?) && pc.file == StagedFile(st)
  }

  ghost predicate Busy(s: State, st: Staged) {
    exists n :: n in s.calls && Handles(s.calls[n], st)
  }

  /**
   Runs without a crash, with at most one worker call per staged file, and in which moves and unlinks
   of staged files succeed.  Workers may raise at will and staged files may be unreadable.
   */
  ghost predicate Orderly(s: State, act: Action) {
    match act
    case Crash => false
    case Take(_) => s.queue != [] && s.queue[0].Deliver? ==> !Busy(s, s.queue[0].staged)
    case Advance(n, a) => n in s.calls && a == Fault ==>
      !s.calls[n].Finish? && !(s.calls[n].Bury? && s.calls[n].file.StagedFile?)
    case _ => true
  }

  ghost predicate OrderlyRun(c: Config, s: State, acts: seq<Action>, t: State)
    decreases |acts|
  {
    if acts == [] then s == t
    else Enabled(c, s, acts[0]) && Orderly(s, acts[0]) && OrderlyRun(c, Next(c, s, acts[0]), acts[1..], t)
  }

  ghost predicate Bumping(s: State, st: Staged) {
    exists n :: n in s.calls && s.calls[n] == Bump(st)
  }

  ghost predicate Leaving(s: State, st: Staged) {
    exists n :: n in s.calls && Removes(s.calls[n], st)
  }

  /** The counter is the number of raising attempts so far, and stops below five or at the exit. */
  predicate TallyAs(s: State, st: Staged, bumping: bool, leaving: bool) {
    var counted, raised := Count(s.attempts, st), Count(s.raises, st);
    if st !in s.processing then st !in s.attempts && raised <= MAX_PROCESS_ATTEMPTS
    else if bumping then raised == counted + 1 <= MAX_PROCESS_ATTEMPTS
    else raised == counted <= MAX_PROCESS_ATTEMPTS && (counted == MAX_PROCESS_ATTEMPTS ==> leaving)
  }

  ghost predicate Tally(s: State, st: Staged) {
    TallyAs(s, st, Bumping(s, st), Leaving(s, st))
  }

  predicate Known(s: State, st: Staged) {
    st.uid in s.issued
  }

  ghost predicate CallOk(s: State, pc: Pc) {
    && (forall st :: Handles(pc, st) ==> Known(s, st) && (pc.Load? || st in s.processing))
    && (pc.Submit? ==> Known(s, pc.staged))
  }

  ghost predicate Inv(s: State) {
    && (forall st :: Tally(s, st))
    && (forall n :: n in s.calls ==> CallOk(s, s.calls[n]))
    && (forall n, m, st :: n in s.calls && m in s.calls && Handles(s.calls[n], st) && Handles(s.calls[m], st) ==>
          n == m)
    && (forall st :: st in s.processing || st in s.attempts || st in s.raises ==> Known(s, st))
    && (forall j :: j in s.queue && j.Deliver? ==> Known(s, j.staged))
  }

  /** Nothing a step of call `n` does concerns `st`. */
  lemma OthersTallied(s: State, t: State, n: nat, st: Staged)
    requires Inv(s) && t.calls - {n} == s.calls - {n}
    requires n in s.calls ==> !Handles(s.calls[n], st)
    requires n in t.calls ==> !Handles(t.calls[n], st)
    requires st in t.processing <==> st in s.processing
    requires st in t.attempts <==> st in s.attempts
    requires Count(t.attempts, st) == Count(s.attempts, st) && Count(t.raises, st) == Count(s.raises, st)
    ensures Tally(t, st)
  {
    assert Tally(s, st);
    RestSame(s.calls, t.calls, n);
    assert Bumping(s, st) <==> Bumping(t, st);
    assert Leaving(s, st) <==> Leaving(t, st);
  }

  /** The frame of every step: all that changed is call `n` and the one staged file it is about. */
  ghost predicate Touches(s: State, t: State, n: nat, focus: Staged) {
    && t.calls - {n} == s.calls - {n}
    && (forall u :: u in s.issued ==> u in t.issued)
    && (forall st :: st != focus ==>
          && (st in t.processing <==> st in s.processing)
          && (st in t.attempts <==> st in s.attempts)
          && Count(t.attempts, st) == Count(s.attempts, st)
          && (st in t.raises <==> st in s.raises)
          && Count(t.raises, st) == Count(s.raises, st)
          && (n in s.calls ==> !Handles(s.calls[n], st))
          && (n in t.calls ==> !Handles(t.calls[n], st)))
  }

  lemma TouchKeeps(s: State, t: State, n: nat, focus: Staged)
    requires Inv(s) && Touches(s, t, n, focus)
    requires Tally(t, focus)
    requires focus in t.processing || focus in t.attempts || focus in t.raises ==> Known(t, focus)
    requires n in t.calls ==> CallOk(t, t.calls[n])
    requires n in t.calls && Handles(t.calls[n], focus) ==>
               !Busy(s, focus) || (n in s.calls && Handles(s.calls[n], focus))
    requires forall m :: m != n && m in s.calls && Handles(s.calls[m], focus) && !s.calls[m].Load? ==>
               focus in t.processing
    requires forall j :: j in t.queue && j.Deliver? ==> Known(t, j.staged)
    ensures Inv(t)
  {
    forall st ensures Tally(t, st) {
      if st != focus { OthersTallied(s, t, n, st); }
    }
    hide Tally;
    TouchedCalls(s, t, n, focus);
    hide CallOk, Handles;
  }

  lemma TouchedCalls(s: State, t: State, n: nat, focus: Staged)
    requires Inv(s) && Touches(s, t, n, focus)
    requires n in t.calls ==> CallOk(t, t.calls[n])
    requires n in t.calls && Handles(t.calls[n], focus) ==>
               !Busy(s, focus) || (n in s.calls && Handles(s.calls[n], focus))
    requires forall m :: m != n && m in s.calls && Handles(s.calls[m], focus) && !s.calls[m].Load? ==>
               focus in t.processing
    ensures forall m :: m in t.calls ==> CallOk(t, t.calls[m])
    ensures forall k, m, st :: k in t.calls && m in t.calls && Handles(t.calls[k], st) && Handles(t.calls[m], st) ==>
              k == m
  {
    hide Tally;
    RestSame(s.calls, t.calls, n);
    forall m | m in t.calls ensures CallOk(t, t.calls[m]) {
      hide Handles;
      if m != n { assert CallOk(s, s.calls[m]); }
    }
    hide CallOk, Handles;
  }

  lemma RestSame(m: map<nat, Pc>, m': map<nat, Pc>, n: nat)
    requires m' - {n} == m - {n}
    ensures forall k :: k != n ==> (k in m' <==> k in m) && (k in m ==> m'[k] == m[k])
  {
    assert forall k :: k != n ==> (k in m' <==> k in m' - {n}) && (k in m <==> k in m - {n});
    assert forall k :: k != n && k in m ==> m'[k] == (m' - {n})[k] == m[k];
  }

  /** A step of a call that works on no staged file, before or after. */
  lemma BystanderKeeps(s: State, t: State, n: nat)
    requires Inv(s) && t.calls - {n} == s.calls - {n}
    requires t.processing == s.processing && t.attempts == s.attempts && t.raises == s.raises
    requires forall u :: u in s.issued ==> u in t.issued
    requires n in s.calls ==> forall st :: !Handles(s.calls[n], st)
    requires n in t.calls ==> (forall st :: !Handles(t.calls[n], st)) && CallOk(t, t.calls[n])
    requires forall j :: j in t.queue && j.Deliver? ==> Known(t, j.staged)
    ensures Inv(t)
  {
    var any := Staged(0, Path("", ""));
    OthersTallied(s, t, n, any);
    TouchKeeps(s, t, n, any);
  }

  /** The one call at work on `st` decides how its count reads, before and after the step. */
  lemma SoleHandler(s: State, t: State, n: nat, st: Staged)
    requires Inv(s) && n in s.calls && Handles(s.calls[n], st) && t.calls - {n} == s.calls - {n}
    ensures Bumping(s, st) <==> s.calls[n] == Bump(st)
    ensures Leaving(s, st) <==> Removes(s.calls[n], st)
    ensures Bumping(t, st) <==> n in t.calls && t.calls[n] == Bump(st)
    ensures Leaving(t, st) <==> n in t.calls && Removes(t.calls[n], st)
    ensures forall m :: m != n && m in s.calls ==> !Handles(s.calls[m], st)
  {
    RestSame(s.calls, t.calls, n);
  }

  lemma HandlesOne(pc: Pc, st: Staged)
    requires Handles(pc, st)
    ensures forall o :: o != st ==> !Handles(pc, o)
  {
  }

  lemma OnlyKeyChanged(m: map<Staged, nat>, m': map<Staged, nat>, st: Staged)
    requires m - {st} == m' - {st}
    ensures forall o :: o != st ==> (o in m <==> o in m') && Count(m, o) == Count(m', o)
  {
    assert forall o :: o != st ==> (o in m <==> o in m - {st}) && (o in m' <==> o in m' - {st});
  }

  /** A step of the worker call on `st`: it goes on with `st` or ends, and only `st`'s data changed. */
  lemma WorkerMoves(s: State, t: State, n: nat, st: Staged)
    requires Inv(s) && n in s.calls && Handles(s.calls[n], st)
    requires t.calls == s.calls - {n}
             || (n in t.calls && t.calls == s.calls[n := t.calls[n]] && Handles(t.calls[n], st))
    requires t.processing == s.processing || (t.processing == s.processing - {st} && n !in t.calls)
    requires t.attempts - {st} == s.attempts - {st} && t.raises - {st} == s.raises - {st}
    requires t.issued == s.issued || forall u :: u in s.issued ==> u in t.issued
    requires t.queue == s.queue
    requires n in t.calls ==> st in t.processing
    requires TallyAs(t, st, n in t.calls && t.calls[n] == Bump(st), n in t.calls && Removes(t.calls[n], st))
    ensures Inv(t)
  {
    assert t.calls - {n} == s.calls - {n};
    SoleHandler(s, t, n, st);
    HandlesOne(s.calls[n], st);
    if n in t.calls { HandlesOne(t.calls[n], st); }
    OnlyKeyChanged(s.attempts, t.attempts, st);
    OnlyKeyChanged(s.raises, t.raises, st);
    assert Tally(t, st);
    MovedOk(s, t, n, st);
    hide Handles, TallyAs, CallOk, Bumping, Leaving;
    TouchKeeps(s, t, n, st);
  }

  lemma MovedOk(s: State, t: State, n: nat, st: Staged)
    requires Inv(s) && n in s.calls && Handles(s.calls[n], st)
    requires n in t.calls ==> Handles(t.calls[n], st) && st in t.processing
    requires forall u :: u in s.issued ==> u in t.issued
    ensures Known(s, st) && (n in t.calls ==> CallOk(t, t.calls[n]))
  {
    hide Tally;
    assert CallOk(s, s.calls[n]);
    if n in t.calls { HandlesOne(t.calls[n], st); }
  }

  lemma WorkerGoesOn(s: State, s': State, n: nat, st: Staged, pc: Pc)
    requires Inv(s) && n in s.calls && Handles(s.calls[n], st) && Handles(pc, st)
    requires s' == s.(attempts := s'.attempts) && s'.attempts - {st} == s.attempts - {st} && st in s'.processing
    requires TallyAs(s', st, pc == Bump(st), Removes(pc, st))
    ensures Inv(Goto(s', n, pc))
  {
    hide Inv, Handles;
    var t := Goto(s', n, pc);
    assert t.calls == s.calls[n := t.calls[n]];
    WorkerMoves(s, t, n, st);
  }

  lemma WorkerEnds(s: State, s': State, n: nat, st: Staged)
    requires Inv(s) && n in s.calls && Handles(s.calls[n], st)
    requires s' == s.(attempts := s'.attempts) && s'.attempts - {st} == s.attempts - {st}
    requires TallyAs(s', st, false, false)
    ensures Inv(End(s', n))
  {
    hide Inv, Handles;
    WorkerMoves(s, End(s', n), n, st);
  }

  /** What the invariant says of the file a worker call is on. */
  lemma Situation(s: State, n: nat, st: Staged)
    requires Inv(s) && n in s.calls && Handles(s.calls[n], st)
    ensures TallyAs(s, st, s.calls[n] == Bump(st), Removes(s.calls[n], st))
    ensures s.calls[n].Load? || st in s.processing
  {
    SoleHandler(s, s, n, st);
    assert Tally(s, st) && CallOk(s, s.calls[n]);
  }

  lemma LoadKeeps(s: State, n: nat, st: Staged, a: Answer)
    requires Inv(s) && n in s.calls && s.calls[n] == Load(st)
    ensures Inv(AfterLoad(s, n, st, a))
  {
    Situation(s, n, st);
    hide Inv, CallOk;
    if st !in s.processing {
      WorkerEnds(s, s, n, st);
    } else {
      WorkerGoesOn(s, s, n, st, if a == Fault then Quarantine(StagedFile(st)) else Work(st));
    }
  }

  lemma WorkKeeps(s: State, n: nat, st: Staged, a: Answer)
    requires Inv(s) && n in s.calls && s.calls[n] == Work(st)
    ensures Inv(AfterWork(s, n, st, a))
  {
    var t := AfterWork(s, n, st, a);
    Situation(s, n, st);
    hide Inv, CallOk;
    WorkerMoves(s, t, n, st);
  }

  lemma BumpKeeps(s: State, n: nat, st: Staged)
    requires Inv(s) && n in s.calls && s.calls[n] == Bump(st)
    ensures Inv(AfterBump(s, n, st))
  {
    var k := Count(s.attempts, st) + 1;
    var s' := s.(attempts := s.attempts[st := k]);
    Situation(s, n, st);
    hide Inv, CallOk;
    if k >= MAX_PROCESS_ATTEMPTS {
      WorkerGoesOn(s, s', n, st, Quarantine(StagedFile(st)));
    } else {
      WorkerEnds(s, s', n, st);
    }
  }

  lemma FinishKeeps(s: State, n: nat, st: Staged)
    requires Inv(s) && n in s.calls && s.calls[n] == Finish(st)
    ensures Inv(AfterFinish(s, n, st, Fine))
  {
    var t := AfterFinish(s, n, st, Fine);
    Situation(s, n, st);
    hide Inv, CallOk;
    WorkerMoves(s, t, n, st);
  }

  lemma ExitKeeps(s: State, n: nat, st: Staged, dest: DeadName)
    requires Inv(s) && n in s.calls && s.calls[n] == Bury(StagedFile(st), dest)
    ensures Inv(AfterBury(s, n, StagedFile(st), dest, Fine))
  {
    var t := AfterBury(s, n, StagedFile(st), dest, Fine);
    Situation(s, n, st);
    hide Inv, CallOk;
    WorkerMoves(s, t, n, st);
  }

  lemma NameKeeps(s: State, n: nat, f: File, a: Answer)
    requires Inv(s) && n in s.calls && s.calls[n] == Quarantine(f)
    ensures Inv(AfterQuarantine(s, n, f, a))
  {
    var t := AfterQuarantine(s, n, f, a);
    match f {
      case InboxFile(_) => BystanderKeeps(s, t, n);
      case StagedFile(st) =>
        Situation(s, n, st);
        hide Inv, CallOk;
        WorkerMoves(s, t, n, st);
    }
  }

  lemma SubmitOk(t: State, p: Path, st: Staged)
    requires Known(t, st)
    ensures CallOk(t, Submit(p, st)) && forall o :: !Handles(Submit(p, st), o)
  {
  }

  lemma NewcomerTallied(s: State, t: State, n: nat, st: Staged)
    requires Inv(s) && !Known(s, st) && t.calls - {n} == s.calls - {n}
    requires n in t.calls ==> !Handles(t.calls[n], st)
    requires t.attempts == s.attempts && t.raises == s.raises && st in t.processing
    ensures Tally(t, st) && forall m :: m in s.calls ==> !Handles(s.calls[m], st)
  {
    forall m | m in s.calls ensures !Handles(s.calls[m], st) { assert CallOk(s, s.calls[m]); }
    hide Inv, CallOk;
    forall m | m in t.calls && m != n ensures m in s.calls && t.calls[m] == s.calls[m] {
      assert m in t.calls - {n} && (t.calls - {n})[m] == t.calls[m];
      assert m in s.calls - {n} && (s.calls - {n})[m] == s.calls[m];
    }
    assert !Bumping(t, st) && !Leaving(t, st);
  }

  /** A freshly staged file has no history. */
  lemma StageKeeps(s: State, n: nat, p: Path, uid: nat)
    requires Inv(s) && n in s.calls && s.calls[n] == Stage(p) && uid !in s.issued
    ensures Inv(Goto(Restage(s, p, uid), n, Submit(p, Staged(uid, p))))
  {
    var st := Staged(uid, p);
    var t := Goto(Restage(s, p, uid), n, Submit(p, st));
    NewcomerTallied(s, t, n, st);
    SubmitOk(t, p, st);
    forall o ensures !Handles(s.calls[n], o) {}
    hide Handles, Tally, CallOk;
    TouchKeeps(s, t, n, st);
  }

  /** A change to what retries do not depend on. */
  lemma QuietKeeps(s: State, t: State)
    requires Inv(s) && t.calls == s.calls && t.processing == s.processing
    requires t.attempts == s.attempts && t.raises == s.raises && t.issued == s.issued
    requires forall j :: j in t.queue && j.Deliver? ==> Known(s, j.staged)
    ensures Inv(t)
  {
    forall st ensures Tally(t, st) { assert Tally(s, st); }
    forall n | n in t.calls ensures CallOk(t, t.calls[n]) { assert CallOk(s, s.calls[n]); }
  }

  predicate Bystander(pc: Pc) {
    !pc.Load? && !pc.Work? && !pc.Bump? && !pc.Finish?
    && ((pc.Quarantine? || pc.Bury?) ==> pc.file.InboxFile?)
  }

  lemma HandlerMoves(s: State, t: State, n: nat, pc: Pc)
    requires Inv(s) && (n in s.calls ==> Bystander(s.calls[n]))
    requires Bystander(pc) && (pc.Submit? ==> Known(s, pc.staged))
    requires t.calls == s.calls && t.processing == s.processing
    requires t.attempts == s.attempts && t.raises == s.raises && t.issued == s.issued
    requires forall j :: j in t.queue && j.Deliver? ==> Known(s, j.staged)
    ensures Inv(Goto(t, n, pc)) && Inv(End(t, n))
  {
    QuietKeeps(s, t);
    assert Goto(t, n, pc).calls - {n} == t.calls - {n} == End(t, n).calls - {n};
    BystanderKeeps(t, Goto(t, n, pc), n);
    BystanderKeeps(t, End(t, n), n);
  }

  lemma RouteKeeps(c: Config, s: State, n: nat, a: Answer)
    requires Inv(s) && n in s.calls && AnswerFits(s, s.calls[n], a, c)
    ensures s.calls[n].Classify? ==> Inv(AfterClassify(c, s, n, s.calls[n].path, a))
    ensures s.calls[n].Peek? ==> Inv(AfterPeek(c, s, n, s.calls[n].path))
    ensures s.calls[n].Admit? ==> Inv(AfterAdmit(c, s, n, s.calls[n].path, a))
    ensures s.calls[n].Consume? ==> Inv(AfterConsume(s, n, s.calls[n].path, a))
  {
    match s.calls[n] {
      case Classify(p) =>
        HandlerMoves(s, s, n, if WellFormed(c.world(p)) then Peek(p) else Quarantine(InboxFile(p)));
      case Peek(p) =>
        HandlerMoves(s, s, n, Consume(p));
        HandlerMoves(s, s, n, Admit(p));
      case Admit(p) => HandlerMoves(s, s, n, if IsBroadcast(c.world(p)) then Broadcast(p) else Stage(p));
      case Consume(p) =>
        HandlerMoves(s, s, n, Consume(p));
        HandlerMoves(s, s.(inbox := s.inbox - {p}), n, Consume(p));
      case _ =>
    }
  }

  lemma HandOverKeeps(c: Config, s: State, n: nat, p: Path, job: Job, a: Answer)
    requires Inv(s) && n in s.calls && Bystander(s.calls[n]) && (job.Deliver? ==> Known(s, job.staged))
    ensures Inv(AfterSubmit(s, n, p, job, a)) && Inv(AfterMark(c, s, n, p, a)) && Inv(AfterAnnounce(s, n, p, a))
  {
    HandlerMoves(s, s, n, Mark(p));
    HandlerMoves(s, s.(queue := s.queue + [job]), n, Mark(p));
    HandlerMoves(s, s.(processed := s.processed + {MessageId(c.world(p))}), n, Mark(p));
    if a.Trimmed? { HandlerMoves(s, s.(processed := a.kept), n, Mark(p)); }
    HandlerMoves(s, s.(done := s.done + {p}), n, Mark(p));
  }

  lemma BuryInboxKeeps(s: State, n: nat, p: Path, dest: DeadName, a: Answer)
    requires Inv(s) && n in s.calls && Bystander(s.calls[n])
    ensures Inv(AfterBury(s, n, InboxFile(p), dest, a))
  {
    HandlerMoves(s, s, n, Mark(p));
    HandlerMoves(s, s.(inbox := s.inbox - {p}, dead := s.dead[dest := p]), n, Mark(p));
  }

  lemma StepKeeps(c: Config, s: State, n: nat, a: Answer)
    requires Inv(s) && n in s.calls && AnswerFits(s, s.calls[n], a, c) && Orderly(s, Advance(n, a))
    ensures Inv(Step(c, s, n, a))
  {
    assert CallOk(s, s.calls[n]);
    match s.calls[n] {
      case Broadcast(p) => HandOverKeeps(c, s, n, p, Tell(p), a);
      case Submit(p, st) => HandOverKeeps(c, s, n, p, Deliver(st), a);
      case Mark(p) => HandOverKeeps(c, s, n, p, Tell(p), a);
      case Announce(p) => HandOverKeeps(c, s, n, p, Tell(p), a);
      case Stage(p) =>
        HandlerMoves(s, s, n, Mark(p));
        if a.Named? { StageKeeps(s, n, p, a.uid); }
      case Quarantine(f) => NameKeeps(s, n, f, a);
      case Bury(InboxFile(p), dest) => BuryInboxKeeps(s, n, p, dest, a);
      case Bury(StagedFile(st), dest) => ExitKeeps(s, n, st, dest);
      case Load(st) => LoadKeeps(s, n, st, a);
      case Work(st) => WorkKeeps(s, n, st, a);
      case Bump(st) => BumpKeeps(s, n, st);
      case Finish(st) => FinishKeeps(s, n, st);
      case _ => RouteKeeps(c, s, n, a);
    }
  }

  lemma LoadStarts(s: State, n: nat, st: Staged)
    requires Inv(s) && n !in s.calls && !Busy(s, st) && Known(s, st)
    ensures Inv(Goto(s, n, Load(st)))
  {
    var t := Goto(s, n, Load(st));
    assert t.calls - {n} == s.calls - {n};
    HandlesOne(Load(st), st);
    assert forall m :: m in t.calls && m != n ==> m in s.calls && t.calls[m] == s.calls[m];
    assert Tally(t, st) by {
      assert Tally(s, st);
      assert Bumping(t, st) <==> Bumping(s, st);
      assert Leaving(t, st) <==> Leaving(s, st);
    }
    assert CallOk(t, Load(st));
    hide Handles, Tally, CallOk;
    TouchKeeps(s, t, n, st);
  }

  /** A worker takes a job: nobody else is at work on that file. */
  lemma TakeKeeps(c: Config, s: State, n: nat)
    requires Inv(s) && Enabled(c, s, Take(n)) && Orderly(s, Take(n))
    ensures Inv(Next(c, s, Take(n)))
  {
    var s' := s.(queue := s.queue[1..]);
    match s.queue[0] {
      case Tell(p) => HandlerMoves(s, s', n, Announce(p));
      case Deliver(st) =>
        QuietKeeps(s, s');
        LoadStarts(s', n, st);
    }
  }

  lemma {:induction false} OrderlyRunKeeps(c: Config, s: State, acts: seq<Action>, t: State)
    requires Inv(s) && OrderlyRun(c, s, acts, t)
    ensures Inv(t)
    decreases |acts|
  {
    if acts != [] {
      match acts[0] {
        case Arrive(_) => QuietKeeps(s, Next(c, s, acts[0]));
        case Resubmit(_) => QuietKeeps(s, Next(c, s, acts[0]));
        case Notice(n, p) => HandlerMoves(s, s, n, Classify(p));
        case Take(n) => TakeKeeps(c, s, n);
        case Advance(n, a) => StepKeeps(c, s, n, a);
        case Crash =>
      }
      OrderlyRunKeeps(c, Next(c, s, acts[0]), acts[1..], t);
    }
  }

  /**
   In an orderly run no staged file is ever worked on with more than five raising attempts; one that
   raised five times and is still in processing/ is on its way to deadletter; and a file that left
   has no counter.
   */
  lemma PoisonIsBounded(c: Config, acts: seq<Action>, t: State, st: Staged)
    requires OrderlyRun(c, Start, acts, t)
    ensures Count(t.raises, st) <= MAX_PROCESS_ATTEMPTS
    ensures st in t.processing && Count(t.raises, st) == MAX_PROCESS_ATTEMPTS ==> Bumping(t, st) || Leaving(t, st)
    ensures st !in t.processing ==> st !in t.attempts
  {
    assert forall o :: Tally(Start, o);
    OrderlyRunKeeps(c, Start, acts, t);
    assert Tally(t, st);
  }
}
