/**
 No directed envelope is lost, and files meant for others are left alone, whatever the interleaving
 of handlers, workers, rescans, re-deliveries and crashes.
 */
module InboxSafety {
  import opened InboxProtocol

  // ---------- What is promised ----------

  /** Content `e` is staged, quarantined or was handed to a worker call that returned. */
  ghost predicate Secured(c: Config, s: State, e: Envelope) {
    || (exists st :: st in s.processing && c.world(st.origin) == e)
    || (exists d :: d in s.dead && c.world(s.dead[d]) == e)
    || (exists p :: p in s.done && c.world(p) == e)
  }

  ghost predicate Held(c: Config, s: State, e: Envelope) {
    (exists p :: p in s.inbox && c.world(p) == e) || Secured(c, s, e)
  }

  predicate Directed(c: Config, p: Path) {
    IsDirected(c.agent, c.world(p))
  }

  /** Past validation and routing: directed to us, or a broadcast. */
  predicate Accepted(c: Config, p: Path) {
    Directed(c, p) || IsBroadcast(c.world(p))
  }

  predicate ForOthers(c: Config, p: Path) {
    IsBroadcast(c.world(p)) || IsForeign(c.agent, c.world(p))
  }

  ghost predicate NoLoss(c: Config, s: State) {
    forall p :: p in s.arrived && Directed(c, p) ==> Held(c, s, c.world(p))
  }

  ghost predicate OthersUntouched(c: Config, s: State) {
    forall p :: p in s.arrived && ForOthers(c, p) ==> p in s.inbox
  }

  /** Everything on disk or handed to a worker did arrive. */
  ghost predicate NothingInvented(s: State) {
    && s.inbox <= s.arrived
    && (forall st :: st in s.processing ==> st.origin in s.arrived)
    && (forall d :: d in s.dead ==> s.dead[d] in s.arrived)
    && s.done <= s.arrived
  }

  /** One id, one content: what deduplication by id relies on. */
  ghost predicate OneContentPerId(c: Config) {
    forall p, q :: Accepted(c, p) && Directed(c, q)
                   && MessageId(c.world(p)) == MessageId(c.world(q)) != ""
                   ==> c.world(p) == c.world(q)
  }

  // ---------- The invariant ----------

  /** `st` got its uuid when `st.origin` was staged. */
  predicate Genuine(c: Config, s: State, st: Staged) {
    st.uid in s.issued && s.issued[st.uid] == st.origin && Directed(c, st.origin) && st.origin in s.arrived
  }

  function FileOf(d: DeadName): FileName {
    match d case DeadName(f) => f case Renamed(_, f) => f
  }

  predicate FileOk(c: Config, s: State, f: File) {
    match f
    case InboxFile(p) => !WellFormed(c.world(p))
    case StagedFile(st) => Genuine(c, s, st)
  }

  ghost predicate Safe(c: Config, s: State, p: Path) {
    Directed(c, p) ==> Secured(c, s, c.world(p))
  }

  ghost predicate CallOk(c: Config, s: State, pc: Pc) {
    match pc
    case Classify(_) => true
    case Peek(p) => Accepted(c, p) && p in s.arrived
    case Consume(p) => Directed(c, p) && Safe(c, s, p)
    case Admit(p) => Accepted(c, p) && p in s.arrived
    case Broadcast(p) => IsBroadcast(c.world(p)) && p in s.arrived
    case Stage(p) => Directed(c, p)
    case Submit(p, st) => Accepted(c, p) && Safe(c, s, p) && Genuine(c, s, st)
    case Mark(p) => Accepted(c, p) && Safe(c, s, p)
    case Quarantine(f) => FileOk(c, s, f)
    case Bury(f, dest) => FileOk(c, s, f) && FileOf(dest) == NameOf(f)
    case Load(st) => Genuine(c, s, st)
    case Work(st) => Genuine(c, s, st)
    case Bump(st) => Genuine(c, s, st)
    case Finish(st) => Genuine(c, s, st) && st.origin in s.done
    case Announce(p) => p in s.arrived
  }

  ghost predicate JobOk(c: Config, s: State, j: Job) {
    match j
    case Deliver(st) => Genuine(c, s, st)
    case Tell(p) => p in s.arrived
  }

  ghost predicate DeadOk(c: Config, s: State, d: DeadName) {
    d in s.dead ==>
      match FileOf(d)
      case Plain(_) => !Directed(c, s.dead[d])
      case Prefixed(u, _) => u in s.issued && s.issued[u] == s.dead[d]
  }

  ghost predicate MarkedSecured(c: Config, s: State) {
    forall p :: Directed(c, p) && MessageId(c.world(p)) != "" && MessageId(c.world(p)) in s.processed
                ==> Secured(c, s, c.world(p))
  }

  ghost predicate Inv(c: Config, s: State) {
    && NoLoss(c, s)
    && OthersUntouched(c, s)
    && NothingInvented(s)
    && MarkedSecured(c, s)
    && (forall st :: st in s.processing ==> Genuine(c, s, st))
    && (forall d :: DeadOk(c, s, d))
    && (forall j :: j in s.queue ==> JobOk(c, s, j))
    && (forall n :: n in s.calls ==> CallOk(c, s, s.calls[n]))
  }

  // ---------- Preservation ----------

  /** What every step keeps: names stay issued, history grows, secured content stays secured. */
  ghost predicate Grows(c: Config, s: State, t: State) {
    && s.arrived <= t.arrived && s.done <= t.done
    && (forall u :: u in s.issued ==> u in t.issued && t.issued[u] == s.issued[u])
    && (forall p :: Safe(c, s, p) ==> Safe(c, t, p))
  }

  lemma GrowsKeepsCalls(c: Config, s: State, t: State)
    requires Grows(c, s, t)
    ensures forall pc :: CallOk(c, s, pc) ==> CallOk(c, t, pc)
    ensures forall j :: JobOk(c, s, j) ==> JobOk(c, t, j)
  {
  }

  /** Where the content of `p` is after a step that keeps all three places. */
  lemma SecuredKept(c: Config, s: State, t: State)
    requires forall st :: st in s.processing && st !in t.processing ==>
               (exists d :: d in t.dead && t.dead[d] == st.origin) || st.origin in t.done
    requires forall d :: d in s.dead && Directed(c, s.dead[d]) ==> d in t.dead && t.dead[d] == s.dead[d]
    requires s.done <= t.done
    ensures forall p :: Safe(c, s, p) ==> Safe(c, t, p)
  {
  }

  predicate SameDisk(s: State, t: State) {
    && t.inbox == s.inbox && t.processing == s.processing && t.dead == s.dead
    && t.arrived == s.arrived && t.done == s.done && t.issued == s.issued
  }

  ghost predicate CallsFollow(c: Config, s: State, t: State) {
    forall m :: m in t.calls ==> (m in s.calls && t.calls[m] == s.calls[m]) || CallOk(c, t, t.calls[m])
  }

  ghost predicate QueueFollows(c: Config, s: State, t: State) {
    forall j :: j in t.queue ==> j in s.queue || JobOk(c, t, j)
  }

  /** The part of the invariant about memory follows when disk facts only grow. */
  lemma MemoryKept(c: Config, s: State, t: State)
    requires Inv(c, s) && Grows(c, s, t) && CallsFollow(c, s, t) && QueueFollows(c, s, t)
    ensures forall j :: j in t.queue ==> JobOk(c, t, j)
    ensures forall m :: m in t.calls ==> CallOk(c, t, t.calls[m])
    ensures t.processed <= s.processed ==> MarkedSecured(c, t)
  {
    GrowsKeepsCalls(c, s, t);
    if t.processed <= s.processed {
      forall p | Directed(c, p) && MessageId(c.world(p)) != "" && MessageId(c.world(p)) in t.processed
        ensures Secured(c, t, c.world(p))
      {
        assert Safe(c, s, p);
      }
    }
  }

  /** No loss is kept when whatever leaves the inbox is secured by the same step. */
  lemma NoLossKept(c: Config, s: State, t: State)
    requires NoLoss(c, s) && Grows(c, s, t)
    requires t.arrived <= s.arrived + t.inbox
    requires forall r :: r in s.inbox && r !in t.inbox ==> Safe(c, t, r)
    ensures NoLoss(c, t)
  {
    forall p | p in t.arrived && Directed(c, p) ensures Held(c, t, c.world(p)) {
      if p in s.arrived {
        assert Held(c, s, c.world(p));
        if Secured(c, s, c.world(p)) {
          assert Safe(c, s, p);
        } else {
          var r :| r in s.inbox && c.world(r) == c.world(p);
          assert r in t.inbox || Safe(c, t, r);
        }
      }
    }
  }

  lemma QuietStep(c: Config, s: State, t: State)
    requires Inv(c, s) && SameDisk(s, t)
    requires CallsFollow(c, s, t) && QueueFollows(c, s, t)
    requires t.processed <= s.processed || MarkedSecured(c, t)
    ensures Inv(c, t)
  {
    forall e ensures Secured(c, s, e) == Secured(c, t, e) && Held(c, s, e) == Held(c, t, e) {}
    forall d ensures DeadOk(c, t, d) { assert DeadOk(c, s, d); }
    forall p | Safe(c, s, p) ensures Safe(c, t, p) {}
    MemoryKept(c, s, t);
  }

  lemma GotoKeeps(c: Config, s: State, n: nat, pc: Pc)
    requires Inv(c, s) && CallOk(c, s, pc)
    ensures Inv(c, Goto(s, n, pc))
  {
    var t := Goto(s, n, pc);
    forall p | Safe(c, s, p) ensures Safe(c, t, p) {}
    GrowsKeepsCalls(c, s, t);
    QuietStep(c, s, t);
  }

  lemma EndKeeps(c: Config, s: State, n: nat)
    requires Inv(c, s)
    ensures Inv(c, End(s, n))
  {
    QuietStep(c, s, End(s, n));
  }

  /** Steps of a handler that only route: no disk change. */
  lemma ClassifyStep(c: Config, s: State, n: nat, p: Path, a: Answer)
    requires Inv(c, s)
    ensures Inv(c, AfterClassify(c, s, n, p, a))
  {
    EndKeeps(c, s, n);
    var e := c.world(p);
    if p in s.inbox && a != Fault {
      if !WellFormed(e) {
        GotoKeeps(c, s, n, Quarantine(InboxFile(p)));
      } else if !IsForeign(c.agent, e) {
        GotoKeeps(c, s, n, Peek(p));
      }
    }
  }

  lemma PeekStep(c: Config, s: State, n: nat, p: Path)
    requires Inv(c, s) && CallOk(c, s, Peek(p))
    ensures Inv(c, AfterPeek(c, s, n, p))
  {
    EndKeeps(c, s, n);
    var e := c.world(p);
    if MessageId(e) != "" && MessageId(e) in s.processed {
      if !IsBroadcast(e) { GotoKeeps(c, s, n, Consume(p)); }
    } else {
      GotoKeeps(c, s, n, Admit(p));
    }
  }

  lemma AdmitStep(c: Config, s: State, n: nat, a: Answer)
    requires Inv(c, s) && n in s.calls && AnswerFits(s, s.calls[n], a, c) && s.calls[n].Admit?
    ensures Inv(c, Step(c, s, n, a))
  {
    var p := s.calls[n].path;
    assert CallOk(c, s, s.calls[n]);
    EndKeeps(c, s, n);
    if a != Fault {
      GotoKeeps(c, s, n, if IsBroadcast(c.world(p)) then Broadcast(p) else Stage(p));
    }
  }

  lemma SubmitStep(c: Config, s: State, n: nat, a: Answer)
    requires Inv(c, s) && n in s.calls && AnswerFits(s, s.calls[n], a, c)
    requires s.calls[n].Broadcast? || s.calls[n].Submit?
    ensures Inv(c, Step(c, s, n, a))
  {
    var t := Step(c, s, n, a);
    assert CallOk(c, s, s.calls[n]);
    assert SameDisk(s, t);
    forall e ensures Secured(c, s, e) == Secured(c, t, e) {}
    if n in t.calls { assert CallOk(c, t, t.calls[n]); }
    QuietStep(c, s, t);
  }

  /** Marking is where one-content-per-id is used: the new id covers every envelope that bears it. */
  lemma MarkStep(c: Config, s: State, n: nat, a: Answer)
    requires OneContentPerId(c)
    requires Inv(c, s) && n in s.calls && AnswerFits(s, s.calls[n], a, c) && s.calls[n].Mark?
    ensures Inv(c, Step(c, s, n, a))
  {
    var t := Step(c, s, n, a);
    var p := s.calls[n].path;
    assert CallOk(c, s, s.calls[n]);
    forall q | Directed(c, q) && MessageId(c.world(q)) != "" && MessageId(c.world(q)) in t.processed
      ensures Secured(c, t, c.world(q))
    {
      if MessageId(c.world(q)) !in s.processed {
        assert c.world(p) == c.world(q);
        assert Directed(c, p);
      }
      assert Secured(c, s, c.world(q));
    }
    QuietStep(c, s, t);
  }

  /** The retry counters carry no weight for safety. */
  lemma CountersFree(c: Config, s: State, attempts: map<Staged, nat>, raises: map<Staged, nat>)
    requires Inv(c, s)
    ensures Inv(c, s.(attempts := attempts, raises := raises))
  {
    QuietStep(c, s, s.(attempts := attempts, raises := raises));
  }

  lemma LoadStep(c: Config, s: State, n: nat, st: Staged, a: Answer)
    requires Inv(c, s) && Genuine(c, s, st)
    ensures Inv(c, AfterLoad(s, n, st, a))
  {
    EndKeeps(c, s, n);
    if st in s.processing {
      GotoKeeps(c, s, n, if a == Fault then Quarantine(StagedFile(st)) else Work(st));
    }
  }

  /** After a change to the counters only, call `n` goes on to `pc` or ends. */
  lemma CountedKeeps(c: Config, s: State, attempts: map<Staged, nat>, raises: map<Staged, nat>, n: nat, pc: Pc)
    requires Inv(c, s) && CallOk(c, s, pc)
    ensures var t := s.(attempts := attempts, raises := raises);
            Inv(c, Goto(t, n, pc)) && Inv(c, End(t, n))
  {
    hide Inv, CallOk;
    CountersFree(c, s, attempts, raises);
    GotoKeeps(c, s, n, pc);
    CountersFree(c, Goto(s, n, pc), attempts, raises);
    EndKeeps(c, s, n);
    CountersFree(c, End(s, n), attempts, raises);
  }

  lemma StagedCallsOk(c: Config, s: State, st: Staged)
    requires Inv(c, s) && Genuine(c, s, st)
    ensures CallOk(c, s, Quarantine(StagedFile(st))) && CallOk(c, s, Bump(st)) && st.origin in s.arrived
  {
  }

  lemma BumpStep(c: Config, s: State, n: nat, st: Staged)
    requires Inv(c, s) && Genuine(c, s, st)
    ensures Inv(c, AfterBump(s, n, st))
  {
    hide Inv, CallOk, Genuine, Goto, End;
    StagedCallsOk(c, s, st);
    CountedKeeps(c, s, s.attempts[st := Count(s.attempts, st) + 1], s.raises, n, Quarantine(StagedFile(st)));
  }

  /** A call of the worker function returned: its envelope is done from now on. */
  lemma DoneKeeps(c: Config, s: State, p: Path)
    requires Inv(c, s) && p in s.arrived
    ensures Inv(c, s.(done := s.done + {p}))
  {
    var t := s.(done := s.done + {p});
    SecuredKept(c, s, t);
    NoLossKept(c, s, t);
    forall d ensures DeadOk(c, t, d) { assert DeadOk(c, s, d); }
    MemoryKept(c, s, t);
  }

  lemma WorkStep(c: Config, s: State, n: nat, st: Staged, a: Answer)
    requires Inv(c, s) && Genuine(c, s, st)
    ensures Inv(c, AfterWork(s, n, st, a))
  {
    hide Inv, CallOk, Genuine, Goto, End;
    StagedCallsOk(c, s, st);
    if a == Fault {
      RaisedKeeps(c, s, n, st);
    } else {
      ReturnedKeeps(c, s, n, st);
    }
  }

  lemma RaisedKeeps(c: Config, s: State, n: nat, st: Staged)
    requires Inv(c, s) && CallOk(c, s, Bump(st))
    ensures Inv(c, Goto(s.(raises := s.raises[st := Count(s.raises, st) + 1]), n, Bump(st)))
  {
    hide Inv, CallOk;
    CountedKeeps(c, s, s.attempts, s.raises[st := Count(s.raises, st) + 1], n, Bump(st));
  }

  lemma ReturnedKeeps(c: Config, s: State, n: nat, st: Staged)
    requires Inv(c, s) && Genuine(c, s, st) && st.origin in s.arrived
    ensures Inv(c, Goto(s.(done := s.done + {st.origin}), n, Finish(st)))
  {
    DoneKeeps(c, s, st.origin);
    assert CallOk(c, s.(done := s.done + {st.origin}), Finish(st));
    GotoKeeps(c, s.(done := s.done + {st.origin}), n, Finish(st));
  }

  lemma AnnounceStep(c: Config, s: State, n: nat, p: Path, a: Answer)
    requires Inv(c, s) && p in s.arrived
    ensures Inv(c, AfterAnnounce(s, n, p, a))
  {
    DoneKeeps(c, s, p);
    EndKeeps(c, s, n);
    EndKeeps(c, s.(done := s.done + {p}), n);
  }

  /** The worker removes the staged copy only after its envelope is done. */
  lemma UnstageKeeps(c: Config, s: State, st: Staged)
    requires Inv(c, s) && st.origin in s.done
    ensures Inv(c, s.(processing := s.processing - {st}))
  {
    var t := s.(processing := s.processing - {st});
    SecuredKept(c, s, t);
    NoLossKept(c, s, t);
    forall d ensures DeadOk(c, t, d) { assert DeadOk(c, s, d); }
    MemoryKept(c, s, t);
  }

  lemma FinishStep(c: Config, s: State, n: nat, st: Staged, a: Answer)
    requires Inv(c, s) && st.origin in s.done
    ensures Inv(c, AfterFinish(s, n, st, a))
  {
    var s' := s.(attempts := s.attempts - {st});
    CountersFree(c, s, s'.attempts, s.raises);
    EndKeeps(c, s', n);
    UnstageKeeps(c, s', st);
    EndKeeps(c, s'.(processing := s'.processing - {st}), n);
  }

  /** Unlinking a directed duplicate: an earlier copy of it is secured. */
  lemma UnlinkKeeps(c: Config, s: State, p: Path)
    requires Inv(c, s) && Directed(c, p) && Secured(c, s, c.world(p))
    ensures Inv(c, s.(inbox := s.inbox - {p}))
  {
    var t := s.(inbox := s.inbox - {p});
    assert Safe(c, s, p);
    SecuredKept(c, s, t);
    NoLossKept(c, s, t);
    forall d ensures DeadOk(c, t, d) { assert DeadOk(c, s, d); }
    MemoryKept(c, s, t);
  }

  lemma ConsumeStep(c: Config, s: State, n: nat, a: Answer)
    requires Inv(c, s) && n in s.calls && AnswerFits(s, s.calls[n], a, c) && s.calls[n].Consume?
    ensures Inv(c, Step(c, s, n, a))
  {
    assert CallOk(c, s, s.calls[n]);
    var p := s.calls[n].path;
    EndKeeps(c, s, n);
    UnlinkKeeps(c, s, p);
    EndKeeps(c, s.(inbox := s.inbox - {p}), n);
  }

  /** Staging moves the file; its content is in processing/ the moment it leaves the inbox. */
  lemma RestageKeeps(c: Config, s: State, p: Path, uid: nat)
    requires Inv(c, s) && Directed(c, p) && p in s.inbox && uid !in s.issued
    ensures Inv(c, Restage(s, p, uid))
    ensures Genuine(c, Restage(s, p, uid), Staged(uid, p)) && Safe(c, Restage(s, p, uid), p)
  {
    var t := Restage(s, p, uid);
    assert Staged(uid, p) in t.processing;
    SecuredKept(c, s, t);
    NoLossKept(c, s, t);
    forall d ensures DeadOk(c, t, d) { assert DeadOk(c, s, d); }
    MemoryKept(c, s, t);
  }

  lemma StageStep(c: Config, s: State, n: nat, a: Answer)
    requires Inv(c, s) && n in s.calls && AnswerFits(s, s.calls[n], a, c) && s.calls[n].Stage?
    ensures Inv(c, Step(c, s, n, a))
  {
    assert CallOk(c, s, s.calls[n]);
    var p := s.calls[n].path;
    EndKeeps(c, s, n);
    if p in s.inbox && a != Fault {
      RestageKeeps(c, s, p, a.uid);
      GotoKeeps(c, Restage(s, p, a.uid), n, Submit(p, Staged(a.uid, p)));
    }
  }

  /** Drawing a uuid for a new name. */
  lemma IssueKeeps(c: Config, s: State, p: Path, uid: nat)
    requires Inv(c, s) && uid !in s.issued
    ensures Inv(c, s.(issued := s.issued[uid := p]))
    ensures forall pc :: CallOk(c, s, pc) ==> CallOk(c, s.(issued := s.issued[uid := p]), pc)
  {
    var t := s.(issued := s.issued[uid := p]);
    SecuredKept(c, s, t);
    NoLossKept(c, s, t);
    forall d ensures DeadOk(c, t, d) { assert DeadOk(c, s, d); }
    MemoryKept(c, s, t);
    GrowsKeepsCalls(c, s, t);
  }

  lemma QuarantineStep(c: Config, s: State, n: nat, a: Answer)
    requires Inv(c, s) && n in s.calls && AnswerFits(s, s.calls[n], a, c) && s.calls[n].Quarantine?
    ensures Inv(c, Step(c, s, n, a))
  {
    var f := s.calls[n].file;
    assert CallOk(c, s, s.calls[n]);
    if a.Named? {
      assert CallOk(c, s, Bury(f, Renamed(a.uid, NameOf(f))));
      IssueKeeps(c, s, Origin(f), a.uid);
      GotoKeeps(c, s.(issued := s.issued[a.uid := Origin(f)]), n, Bury(f, Renamed(a.uid, NameOf(f))));
    } else {
      GotoKeeps(c, s, n, Bury(f, DeadName(NameOf(f))));
    }
  }

  function Buried(s: State, f: File, dest: DeadName): State {
    s.(inbox := if f.InboxFile? then s.inbox - {f.path} else s.inbox,
       processing := if f.StagedFile? then s.processing - {f.staged} else s.processing,
       dead := s.dead[dest := Origin(f)])
  }

  /** The move into deadletter/ replaces nothing but another copy of the same envelope. */
  lemma BuriedKeeps(c: Config, s: State, f: File, dest: DeadName)
    requires Inv(c, s) && FileOk(c, s, f) && FileOf(dest) == NameOf(f) && Exists(s, f)
    ensures Inv(c, Buried(s, f, dest))
  {
    var t := Buried(s, f, dest);
    assert t.dead[dest] == Origin(f);
    assert Grows(c, s, t) by {
      assert DeadOk(c, s, dest);
      SecuredKept(c, s, t);
    }
    NoLossKept(c, s, t);
    forall d ensures DeadOk(c, t, d) { assert DeadOk(c, s, d); }
    assert NothingInvented(t);
    assert OthersUntouched(c, t);
    MemoryKept(c, s, t);
  }

  lemma BuryStep(c: Config, s: State, n: nat, f: File, dest: DeadName, a: Answer)
    requires Inv(c, s) && FileOk(c, s, f) && FileOf(dest) == NameOf(f)
    ensures Inv(c, AfterBury(s, n, f, dest, a))
  {
    EndKeeps(c, s, n);
    if Exists(s, f) && a != Fault {
      var t := Buried(s, f, dest);
      BuriedKeeps(c, s, f, dest);
      EndKeeps(c, t, n);
      if f.StagedFile? {
        CountersFree(c, t, t.attempts - {f.staged}, t.raises);
        EndKeeps(c, t.(attempts := t.attempts - {f.staged}), n);
      }
    }
  }

  lemma StepKeepsInv(c: Config, s: State, n: nat, a: Answer)
    requires OneContentPerId(c)
    requires Inv(c, s) && n in s.calls && AnswerFits(s, s.calls[n], a, c)
    ensures Inv(c, Step(c, s, n, a))
  {
    assert CallOk(c, s, s.calls[n]);
    match s.calls[n] {
      case Classify(p) => ClassifyStep(c, s, n, p, a);
      case Peek(p) => PeekStep(c, s, n, p);
      case Admit(_) => AdmitStep(c, s, n, a);
      case Consume(_) => ConsumeStep(c, s, n, a);
      case Broadcast(_) => SubmitStep(c, s, n, a);
      case Submit(_, _) => SubmitStep(c, s, n, a);
      case Stage(_) => StageStep(c, s, n, a);
      case Mark(_) => MarkStep(c, s, n, a);
      case Quarantine(_) => QuarantineStep(c, s, n, a);
      case Bury(f, dest) => BuryStep(c, s, n, f, dest, a);
      case Load(st) => LoadStep(c, s, n, st, a);
      case Bump(st) => BumpStep(c, s, n, st);
      case Work(st) => WorkStep(c, s, n, st, a);
      case Announce(p) => AnnounceStep(c, s, n, p, a);
      case Finish(st) => FinishStep(c, s, n, st, a);
    }
  }

  lemma ArriveStep(c: Config, s: State, p: Path)
    requires Inv(c, s)
    ensures Inv(c, Next(c, s, Arrive(p)))
  {
    var t := Next(c, s, Arrive(p));
    SecuredKept(c, s, t);
    NoLossKept(c, s, t);
    forall d ensures DeadOk(c, t, d) { assert DeadOk(c, s, d); }
    MemoryKept(c, s, t);
  }

  lemma NextKeepsInv(c: Config, s: State, act: Action)
    requires OneContentPerId(c)
    requires Inv(c, s) && Enabled(c, s, act)
    ensures Inv(c, Next(c, s, act))
  {
    var t := Next(c, s, act);
    match act {
      case Arrive(p) => ArriveStep(c, s, p);
      case Advance(n, a) => StepKeepsInv(c, s, n, a);
      case Take(n) => TakeStep(c, s, n);
      case Notice(n, _) =>
        assert CallOk(c, t, t.calls[n]);
        QuietStep(c, s, t);
      case Resubmit(st) =>
        assert Genuine(c, t, st);
        QuietStep(c, s, t);
      case Crash => QuietStep(c, s, t);
    }
  }

  lemma TakeStep(c: Config, s: State, n: nat)
    requires OneContentPerId(c)
    requires Inv(c, s) && Enabled(c, s, Take(n))
    ensures Inv(c, Next(c, s, Take(n)))
  {
    var t := Next(c, s, Take(n));
    assert JobOk(c, s, s.queue[0]);
    assert CallOk(c, t, t.calls[n]);
    QuietStep(c, s, t);
  }

  lemma {:induction false} RunKeepsInv(c: Config, s: State, acts: seq<Action>, t: State)
    requires OneContentPerId(c)
    requires Inv(c, s) && Run(c, s, acts, t)
    ensures Inv(c, t)
    decreases |acts|
  {
    if acts != [] {
      NextKeepsInv(c, s, acts[0]);
      RunKeepsInv(c, Next(c, s, acts[0]), acts[1..], t);
    }
  }

  // ---------- Main results ----------

  /**
   In every reachable state: each directed envelope that ever arrived is in the inbox, staged,
   quarantined or was handed to a worker call that returned; broadcasts and other agents' files that
   arrived are still in the inbox; and nothing is anywhere that did not arrive.
   */
  lemma DeliveryIsSafe(c: Config, acts: seq<Action>, t: State)
    requires OneContentPerId(c) && Reachable(c, acts, t)
    ensures NoLoss(c, t) && OthersUntouched(c, t) && NothingInvented(t)
  {
    RunKeepsInv(c, Start, acts, t);
  }

  // ---------- The assumption is exactly what is needed ----------

  lemma Extend(c: Config, acts: seq<Action>, s: State, act: Action)
    requires Reachable(c, acts, s) && Enabled(c, s, act)
    ensures Reachable(c, acts + [act], Next(c, s, act))
  {
    assert Run(c, s, [act], Next(c, s, act)) by {
      assert [act][1..] == [];
    }
    RunConcat(c, Start, acts, s, [act], Next(c, s, act));
  }

  lemma ExtendBy(c: Config, acts: seq<Action>, s: State, act: Action) returns (acts': seq<Action>, s': State)
    requires Reachable(c, acts, s) && Enabled(c, s, act)
    ensures acts' == acts + [act] && s' == Next(c, s, act) && Reachable(c, acts', s')
  {
    Extend(c, acts, s, act);
    acts', s' := acts + [act], Next(c, s, act);
  }

  /** One delivery of `p` by itself, up to the queue-depth check. */
  lemma AdmitFirst(c: Config, p: Path) returns (acts: seq<Action>, s: State)
    requires Accepted(c, p)
    ensures Reachable(c, acts, s)
    ensures s == Start.(inbox := {p}, arrived := {p}, calls := map[0 := Admit(p)])
  {
    acts, s := [], Start;
    acts, s := ExtendBy(c, acts, s, Arrive(p));
    acts, s := ExtendBy(c, acts, s, Notice(0, p));
    acts, s := ExtendBy(c, acts, s, Advance(0, Fine));
    acts, s := ExtendBy(c, acts, s, Advance(0, Fine));
  }

  /** ... and on until its id has been marked. */
  lemma DeliverFirst(c: Config, p: Path) returns (acts: seq<Action>, s: State)
    requires Accepted(c, p) && MessageId(c.world(p)) != ""
    ensures Reachable(c, acts, s)
    ensures s.processed == {MessageId(c.world(p))} && s.calls == map[]
    ensures s.inbox <= {p} && (forall st :: st in s.processing ==> st.origin == p)
    ensures s.dead == map[] && s.done == {}
  {
    acts, s := AdmitFirst(c, p);
    acts, s := ExtendBy(c, acts, s, Advance(0, Fine));
    if IsBroadcast(c.world(p)) {
      acts, s := ExtendBy(c, acts, s, Advance(0, Fine));
    } else {
      acts, s := ExtendBy(c, acts, s, Advance(0, Named(0)));
      acts, s := ExtendBy(c, acts, s, Advance(0, Fine));
    }
    acts, s := ExtendBy(c, acts, s, Advance(0, Fine));
  }

  /** Two contents under one id: the second one to arrive is unlinked as a duplicate and lost. */
  lemma SharedIdLoses(c: Config, p: Path, q: Path) returns (acts: seq<Action>, s: State)
    requires Accepted(c, p) && Directed(c, q)
    requires MessageId(c.world(p)) == MessageId(c.world(q)) != "" && c.world(p) != c.world(q)
    ensures Reachable(c, acts, s) && !NoLoss(c, s)
  {
    acts, s := DeliverFirst(c, p);
    acts, s := ExtendBy(c, acts, s, Arrive(q));
    acts, s := ExtendBy(c, acts, s, Notice(0, q));
    acts, s := ExtendBy(c, acts, s, Advance(0, Fine));
    acts, s := ExtendBy(c, acts, s, Advance(0, Fine));
    acts, s := ExtendBy(c, acts, s, Advance(0, Fine));
    assert q in s.arrived && !Held(c, s, c.world(q));
  }

  /** Nothing is ever lost if and only if no two contents share a message id. */
  lemma NoLossIffOneContentPerId(c: Config)
    ensures OneContentPerId(c) <==> forall acts, s :: Reachable(c, acts, s) ==> NoLoss(c, s)
  {
    if OneContentPerId(c) {
      forall acts, s | Reachable(c, acts, s) ensures NoLoss(c, s) {
        DeliveryIsSafe(c, acts, s);
      }
    } else {
      var p, q :| Accepted(c, p) && Directed(c, q)
                  && MessageId(c.world(p)) == MessageId(c.world(q)) != "" && c.world(p) != c.world(q);
      var acts, s := SharedIdLoses(c, p, q);
    }
  }
}
