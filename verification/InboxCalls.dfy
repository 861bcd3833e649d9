/**
 What one uninterrupted call of an inbox method does, case by case, and that each such call is a run of the
 protocol in module InboxProtocol, so what is proved there of every interleaving covers the methods.
 */
module InboxCalls {
  import opened InboxProtocol
  import InboxSafety
  import opened Text

  // ---------- What a call does ----------

  /** How the environment answers one call of the handler. */
  datatype Luck = Luck(
    readable: bool,    // stat and read succeed, and the file is not empty
    depthKnown: bool,  // the executor's queue depth can be read
    checked: bool,     // sender and signature are looked at without an exception
    moves: bool,       // the rename, move or unlink succeeds
    submits: bool)     // the executor takes the job

  /** How it answers one worker call; `answered` is false when `process_envelope` raises. */
  datatype Shift = Shift(readable: bool, answered: bool, moves: bool)

  /** `after` is the memory `before` with `id` marked: beyond a thousand ids some five hundred stay. */
  predicate Marked(before: set<string>, id: string, after: set<string>) {
    if id == "" then after == before
    else if |before + {id}| <= 1000 then after == before + {id}
    else after <= before + {id} && |after| == 500
  }

  /** The job goes to the executor, and then the id is marked; without the one there is not the other. */
  predicate Submitted(s: State, job: Job, id: string, submits: bool, t: State) {
    if submits then t == s.(queue := s.queue + [job], processed := t.processed) && Marked(s.processed, id, t.processed)
    else t == s
  }

  function Without(s: State, f: File): State {
    match f
    case InboxFile(p) => s.(inbox := s.inbox - {p})
    case StagedFile(st) => s.(processing := s.processing - {st}, attempts := s.attempts - {st})
  }

  /** The file goes to deadletter/ under its own name, or under a fresh one if that is taken, or stays. */
  ghost predicate Quarantined(s: State, f: File, moves: bool, t: State) {
    if DeadName(NameOf(f)) !in s.dead then
      t == if moves then Without(s, f).(dead := s.dead[DeadName(NameOf(f)) := Origin(f)]) else s
    else
      exists uid :: uid !in s.issued && t == FreshlyNamed(s, f, moves, uid)
  }

  function FreshlyNamed(s: State, f: File, moves: bool, uid: nat): State {
    var s' := s.(issued := s.issued[uid := Origin(f)]);
    if moves then Without(s', f).(dead := s.dead[Renamed(uid, NameOf(f)) := Origin(f)]) else s'
  }

  /** The file leaves the inbox for processing/ under a fresh name, and then goes to the executor. */
  ghost predicate StagedFor(s: State, p: Path, id: string, submits: bool, t: State) {
    exists uid :: uid !in s.issued && Submitted(Restage(s, p, uid), Deliver(Staged(uid, p)), id, submits, t)
  }

  /** One call of `_on_inbox_file`, case by case. */
  ghost predicate Handled(c: Config, slots: int, luck: Luck, p: Path, s: State, t: State) {
    var e := c.world(p);
    var id := MessageId(e);
    if p !in s.inbox || !luck.readable then t == s
    else if e.size > MAX_ENVELOPE_BYTES || !e.body.Dict? || !e.body.hasSender
    then Quarantined(s, InboxFile(p), luck.moves, t)
    else if c.agent != "" && e.body.recipient != "" && Lower(e.body.recipient) != c.agent then t == s
    else if id != "" && id in s.processed
    then t == if e.body.recipient != "" && luck.moves then s.(inbox := s.inbox - {p}) else s
    else if (luck.depthKnown && |s.queue| >= slots * 2) || !luck.checked then t == s
    else if e.body.recipient == "" then Submitted(s, Tell(p), id, luck.submits, t)
    else if !luck.moves then t == s
    else StagedFor(s, p, id, luck.submits, t)
  }

  /** One call of `_process_staged` on the first job of the queue, case by case. */
  ghost predicate Processed(w: Shift, staged: Staged, s: State, t: State) {
    var s' := s.(queue := if s.queue == [] then [] else s.queue[1..]);
    if staged !in s.processing then t == s'
    else if !w.readable then Quarantined(s', StagedFile(staged), w.moves, t)
    else if w.answered then
      t == s'.(done := s.done + {staged.origin}, attempts := s.attempts - {staged},
               processing := if w.moves then s.processing - {staged} else s.processing)
    else
      var n := Count(s.attempts, staged) + 1;
      var s'' := s'.(attempts := s.attempts[staged := n], raises := s.raises[staged := Count(s.raises, staged) + 1]);
      if n >= MAX_PROCESS_ATTEMPTS then Quarantined(s'', StagedFile(staged), w.moves, t) else t == s''
  }

  // ---------- Calls are runs of the protocol ----------

  /** Some run of the protocol leads from `s` to `t`. */
  ghost predicate Leads(c: Config, s: State, t: State) {
    exists acts :: Run(c, s, acts, t)
  }

  lemma LeadsNowhere(c: Config, s: State)
    ensures Leads(c, s, s)
  {
    assert Run(c, s, [], s);
  }

  lemma Then(c: Config, s0: State, s: State, act: Action)
    requires Leads(c, s0, s) && Enabled(c, s, act)
    ensures Leads(c, s0, Next(c, s, act))
  {
    var acts :| Run(c, s0, acts, s);
    assert [act][1..] == [];
    assert Run(c, s, [act], Next(c, s, act));
    RunConcat(c, s0, acts, s, [act], Next(c, s, act));
  }

  /** Call 0, standing at `pc` in `s`, ends with answer `a`, leaving `t`. */
  lemma CallEnds(c: Config, s0: State, s: State, pc: Pc, a: Answer, t: State)
    requires s.calls == t.calls == map[] && Leads(c, s0, Goto(s, 0, pc))
    requires AnswerFits(Goto(s, 0, pc), pc, a, c)
    requires Step(c, Goto(s, 0, pc), 0, a) == End(Goto(t, 0, pc), 0)
    ensures Leads(c, s0, t)
  {
    Then(c, s0, Goto(s, 0, pc), Advance(0, a));
    assert t.calls[0 := pc] - {0} == map[];
  }

  lemma GotoTwice(t: State, pc: Pc, next: Pc)
    ensures Goto(Goto(t, 0, pc), 0, next) == Goto(t, 0, next)
  {
    assert t.calls[0 := pc][0 := next] == t.calls[0 := next];
  }

  /** Call 0, standing at `pc` in `s`, goes on to `next` with answer `a`, leaving `t`. */
  lemma CallGoes(c: Config, s0: State, s: State, pc: Pc, a: Answer, t: State, next: Pc)
    requires s.calls == t.calls == map[] && Leads(c, s0, Goto(s, 0, pc))
    requires AnswerFits(Goto(s, 0, pc), pc, a, c)
    requires Step(c, Goto(s, 0, pc), 0, a) == Goto(Goto(t, 0, pc), 0, next)
    ensures Leads(c, s0, Goto(t, 0, next))
  {
    GotoTwice(t, pc, next);
    hide Leads, Step, AnswerFits;
    Then(c, s0, Goto(s, 0, pc), Advance(0, a));
  }

  lemma LeadsOn(c: Config, s: State, t: State, u: State)
    requires Leads(c, s, t) && Leads(c, t, u)
    ensures Leads(c, s, u)
  {
    var a, b :| Run(c, s, a, t) && Run(c, t, b, u);
    RunConcat(c, s, a, t, b, u);
  }

  lemma MarkedIsRun(c: Config, s0: State, s: State, p: Path, t: State)
    requires s.calls == map[] && Leads(c, s0, Goto(s, 0, Mark(p)))
    requires t == s.(processed := t.processed) && Marked(s.processed, MessageId(c.world(p)), t.processed)
    ensures Leads(c, s0, t)
  {
    hide Leads;
    var id := MessageId(c.world(p));
    var a := if id != "" && |s.processed + {id}| > MAX_PROCESSED_IDS then Trimmed(t.processed) else Fine;
    CallEnds(c, s0, s, Mark(p), a, t);
  }

  lemma SubmittedIsRun(c: Config, s0: State, s: State, p: Path, job: Job, submits: bool, t: State)
    requires s.calls == map[] && (job.Tell? ==> job.path == p)
    requires Leads(c, s0, Goto(s, 0, match job case Tell(_) => Broadcast(p) case Deliver(st) => Submit(p, st)))
    requires Submitted(s, job, MessageId(c.world(p)), submits, t)
    ensures Leads(c, s0, t)
  {
    hide Leads, Marked, MessageId;
    var pc := match job case Tell(_) => Broadcast(p) case Deliver(st) => Submit(p, st);
    if submits {
      var s' := s.(queue := s.queue + [job]);
      CallGoes(c, s0, s, pc, Fine, s', Mark(p));
      MarkedIsRun(c, s0, s', p, t);
    } else {
      CallEnds(c, s0, s, pc, Fault, s);
    }
  }

  lemma BuriedIsRun(c: Config, s0: State, s: State, f: File, dest: DeadName, moves: bool, t: State)
    requires s.calls == map[] && Exists(s, f) && Leads(c, s0, Goto(s, 0, Bury(f, dest)))
    requires t == if moves then Without(s, f).(dead := s.dead[dest := Origin(f)]) else s
    ensures Leads(c, s0, t)
  {
    hide Leads;
    CallEnds(c, s0, s, Bury(f, dest), if moves then Fine else Fault, t);
  }

  lemma QuarantinedIsRun(c: Config, s0: State, s: State, f: File, moves: bool, t: State)
    requires s.calls == map[] && Exists(s, f) && Leads(c, s0, Goto(s, 0, Quarantine(f)))
    requires Quarantined(s, f, moves, t)
    ensures Leads(c, s0, t)
  {
    hide Leads, Without, Exists;
    if DeadName(NameOf(f)) !in s.dead {
      CallGoes(c, s0, s, Quarantine(f), Fine, s, Bury(f, DeadName(NameOf(f))));
      BuriedIsRun(c, s0, s, f, DeadName(NameOf(f)), moves, t);
    } else {
      var uid :| uid !in s.issued && t == FreshlyNamed(s, f, moves, uid);
      var s' := s.(issued := s.issued[uid := Origin(f)]);
      StillThere(s, s', f);
      CallGoes(c, s0, s, Quarantine(f), Named(uid), s', Bury(f, Renamed(uid, NameOf(f))));
      BuriedIsRun(c, s0, s', f, Renamed(uid, NameOf(f)), moves, t);
    }
  }

  lemma StillThere(s: State, s': State, f: File)
    requires Exists(s, f) && s'.inbox == s.inbox && s'.processing == s.processing
    ensures Exists(s', f)
  {
  }

  lemma StagedIsRun(c: Config, s0: State, s: State, p: Path, submits: bool, t: State)
    requires s.calls == map[] && p in s.inbox && Leads(c, s0, Goto(s, 0, Stage(p)))
    requires StagedFor(s, p, MessageId(c.world(p)), submits, t)
    ensures Leads(c, s0, t)
  {
    hide Leads, Submitted, MessageId;
    var uid :| uid !in s.issued
               && Submitted(Restage(s, p, uid), Deliver(Staged(uid, p)), MessageId(c.world(p)), submits, t);
    CallGoes(c, s0, s, Stage(p), Named(uid), Restage(s, p, uid), Submit(p, Staged(uid, p)));
    SubmittedIsRun(c, s0, Restage(s, p, uid), p, Deliver(Staged(uid, p)), submits, t);
  }

  /** From deduplication on. */
  lemma AcceptedIsRun(c: Config, slots: int, luck: Luck, p: Path, s0: State, s: State, t: State)
    requires s.calls == map[] && Leads(c, s0, Goto(s, 0, Peek(p))) && InboxSafety.Accepted(c, p)
    requires p in s.inbox && luck.readable && Handled(c, slots, luck, p, s, t)
    ensures Leads(c, s0, t)
  {
    hide Leads, Submitted, StagedFor, Quarantined, MessageId;
    var e := c.world(p);
    var id := MessageId(e);
    if id != "" && id in s.processed {
      if e.body.recipient == "" {
        CallEnds(c, s0, s, Peek(p), Fine, s);
      } else {
        CallGoes(c, s0, s, Peek(p), Fine, s, Consume(p));
        CallEnds(c, s0, s, Consume(p), if luck.moves then Fine else Fault, t);
      }
    } else {
      CallGoes(c, s0, s, Peek(p), Fine, s, Admit(p));
      AdmittedIsRun(c, slots, luck, p, s0, s, t);
    }
  }

  lemma AdmittedIsRun(c: Config, slots: int, luck: Luck, p: Path, s0: State, s: State, t: State)
    requires s.calls == map[] && Leads(c, s0, Goto(s, 0, Admit(p))) && InboxSafety.Accepted(c, p)
    requires p in s.inbox && luck.readable && Handled(c, slots, luck, p, s, t)
    requires MessageId(c.world(p)) == "" || MessageId(c.world(p)) !in s.processed
    ensures Leads(c, s0, t)
  {
    hide Leads, Submitted, StagedFor, Quarantined, MessageId;
    if (luck.depthKnown && |s.queue| >= slots * 2) || !luck.checked {
      CallEnds(c, s0, s, Admit(p), Fault, s);
    } else if c.world(p).body.recipient == "" {
      CallGoes(c, s0, s, Admit(p), Fine, s, Broadcast(p));
      SubmittedIsRun(c, s0, s, p, Tell(p), luck.submits, t);
    } else {
      CallGoes(c, s0, s, Admit(p), Fine, s, Stage(p));
      if luck.moves { StagedIsRun(c, s0, s, p, luck.submits, t); } else { CallEnds(c, s0, s, Stage(p), Fault, s); }
    }
  }

  /** Every uninterrupted call of the handler is a run of the protocol. */
  lemma HandledIsRun(c: Config, slots: int, luck: Luck, p: Path, s: State, t: State)
    requires s.calls == map[] && Handled(c, slots, luck, p, s, t)
    ensures Leads(c, s, t)
  {
    LeadsNowhere(c, s);
    Then(c, s, s, Notice(0, p));
    hide Leads, Submitted, StagedFor, Quarantined, MessageId;
    var e := c.world(p);
    if p !in s.inbox || !luck.readable {
      CallEnds(c, s, s, Classify(p), Fault, s);
    } else if e.size > MAX_ENVELOPE_BYTES || !e.body.Dict? || !e.body.hasSender {
      CallGoes(c, s, s, Classify(p), Fine, s, Quarantine(InboxFile(p)));
      QuarantinedIsRun(c, s, s, InboxFile(p), luck.moves, t);
    } else if c.agent != "" && e.body.recipient != "" && Lower(e.body.recipient) != c.agent {
      CallEnds(c, s, s, Classify(p), Fine, s);
    } else {
      CallGoes(c, s, s, Classify(p), Fine, s, Peek(p));
      AcceptedIsRun(c, slots, luck, p, s, s, t);
    }
  }

  /** Every uninterrupted worker call is a run of the protocol. */
  lemma ProcessedIsRun(c: Config, w: Shift, staged: Staged, s: State, t: State)
    requires s.calls == map[] && s.queue != [] && s.queue[0] == Deliver(staged) && Processed(w, staged, s, t)
    ensures Leads(c, s, t)
  {
    var s' := s.(queue := s.queue[1..]);
    hide Leads, Quarantined;
    Taken(c, s, staged);
    if staged !in s.processing {
      Vanished(c, s, s', staged);
    } else if !w.readable {
      Unreadable(c, s, s', staged);
      QuarantinedIsRun(c, s, s', StagedFile(staged), w.moves, t);
    } else {
      Loaded(c, s, s', staged);
      hide Count;
      if w.answered {
        Returned(c, s, s', staged, w.moves);
      } else {
        Raised(c, s, s', staged);
        var n := Count(s.attempts, staged) + 1;
        var s'' := s'.(attempts := s.attempts[staged := n], raises := s.raises[staged := Count(s.raises, staged) + 1]);
        if n >= MAX_PROCESS_ATTEMPTS { QuarantinedIsRun(c, s, s'', StagedFile(staged), w.moves, t); }
      }
    }
  }

  lemma Taken(c: Config, s: State, staged: Staged)
    requires s.calls == map[] && s.queue != [] && s.queue[0] == Deliver(staged)
    ensures Leads(c, s, Goto(s.(queue := s.queue[1..]), 0, Load(staged)))
  {
    LeadsNowhere(c, s);
    hide Leads;
    Then(c, s, s, Take(0));
  }

  lemma Vanished(c: Config, s0: State, s: State, staged: Staged)
    requires s.calls == map[] && staged !in s.processing && Leads(c, s0, Goto(s, 0, Load(staged)))
    ensures Leads(c, s0, s)
  {
    hide Leads;
    CallEnds(c, s0, s, Load(staged), Fine, s);
  }

  lemma Unreadable(c: Config, s0: State, s: State, staged: Staged)
    requires s.calls == map[] && staged in s.processing && Leads(c, s0, Goto(s, 0, Load(staged)))
    ensures Leads(c, s0, Goto(s, 0, Quarantine(StagedFile(staged))))
  {
    hide Leads;
    CallGoes(c, s0, s, Load(staged), Fault, s, Quarantine(StagedFile(staged)));
  }

  lemma Loaded(c: Config, s0: State, s: State, staged: Staged)
    requires s.calls == map[] && staged in s.processing && Leads(c, s0, Goto(s, 0, Load(staged)))
    ensures Leads(c, s0, Goto(s, 0, Work(staged)))
  {
    hide Leads;
    CallGoes(c, s0, s, Load(staged), Fine, s, Work(staged));
  }

  lemma Returned(c: Config, s0: State, s: State, staged: Staged, moves: bool)
    requires s.calls == map[] && Leads(c, s0, Goto(s, 0, Work(staged)))
    ensures Leads(c, s0, s.(done := s.done + {staged.origin}, attempts := s.attempts - {staged},
                            processing := if moves then s.processing - {staged} else s.processing))
  {
    hide Leads;
    var told := s.(done := s.done + {staged.origin});
    CallGoes(c, s0, s, Work(staged), Fine, told, Finish(staged));
    CallEnds(c, s0, told, Finish(staged), if moves then Fine else Fault,
             told.(attempts := s.attempts - {staged},
                   processing := if moves then s.processing - {staged} else s.processing));
  }

  /** The failure is counted, and at the fifth the file is to be quarantined. */
  lemma Raised(c: Config, s0: State, s: State, staged: Staged)
    requires s.calls == map[] && Leads(c, s0, Goto(s, 0, Work(staged)))
    ensures var n := Count(s.attempts, staged) + 1;
            var t := s.(attempts := s.attempts[staged := n], raises := s.raises[staged := Count(s.raises, staged) + 1]);
            Leads(c, s0, if n >= MAX_PROCESS_ATTEMPTS then Goto(t, 0, Quarantine(StagedFile(staged))) else t)
  {
    hide Leads, Count;
    var raised := s.(raises := s.raises[staged := Count(s.raises, staged) + 1]);
    CallGoes(c, s0, s, Work(staged), Fault, raised, Bump(staged));
    Bumped(c, s0, raised, staged);
  }

  lemma Bumped(c: Config, s0: State, s: State, staged: Staged)
    requires s.calls == map[] && Leads(c, s0, Goto(s, 0, Bump(staged)))
    ensures var n := Count(s.attempts, staged) + 1;
            var t := s.(attempts := s.attempts[staged := n]);
            Leads(c, s0, if n >= MAX_PROCESS_ATTEMPTS then Goto(t, 0, Quarantine(StagedFile(staged))) else t)
  {
    hide Leads, Count;
    var n := Count(s.attempts, staged) + 1;
    var t := s.(attempts := s.attempts[staged := n]);
    assert AfterBump(Goto(s, 0, Bump(staged)), 0, staged)
           == if n >= MAX_PROCESS_ATTEMPTS then Goto(Goto(t, 0, Bump(staged)), 0, Quarantine(StagedFile(staged)))
              else End(Goto(t, 0, Bump(staged)), 0);
    hide AfterBump;
    if n >= MAX_PROCESS_ATTEMPTS {
      CallGoes(c, s0, s, Bump(staged), Fine, t, Quarantine(StagedFile(staged)));
    } else {
      CallEnds(c, s0, s, Bump(staged), Fine, t);
    }
  }

  /** What module InboxSafety proves of the protocol holds after any sequence of these calls. */
  lemma CallsAreSafe(c: Config, s: State, t: State)
    requires InboxSafety.OneContentPerId(c) && Leads(c, Start, s) && Leads(c, s, t)
    ensures InboxSafety.NoLoss(c, t) && InboxSafety.OthersUntouched(c, t)
  {
    LeadsOn(c, Start, s, t);
    var acts :| Run(c, Start, acts, t);
    InboxSafety.DeliveryIsSafe(c, acts, t);
  }

  // ---------- What becomes of a file ----------

  /**
   The executor gets a job exactly for a readable, well-formed file for us or for all, not seen before, while it
   has room, its sender checks, and every operation on the way succeeds; then one, last in its queue.
   */
  lemma QueuedIff(c: Config, slots: int, luck: Luck, p: Path, s: State, t: State)
    requires Handled(c, slots, luck, p, s, t)
    ensures var b := c.world(p).body;
            t.queue != s.queue <==>
              && p in s.inbox && luck.readable && c.world(p).size <= 1_000_000 && b.Dict? && b.hasSender
              && (b.recipient == "" || c.agent == "" || Lower(b.recipient) == c.agent)
              && (b.messageId == "" || b.messageId !in s.processed)
              && (b.messageId != "" || b.envelopeId == "" || b.envelopeId !in s.processed)
              && (b.messageId != "" || b.envelopeId != "" || b.id == "" || b.id !in s.processed)
              && (!luck.depthKnown || |s.queue| < 2 * slots) && luck.checked && luck.submits
              && (b.recipient == "" || luck.moves)
    ensures t.queue == s.queue ==> t.processed == s.processed
  {
    hide Quarantined, Lower;
    if p in s.inbox && luck.readable && !InboxProtocol.WellFormed(c.world(p)) {
      QuarantineKeepsMemory(s, InboxFile(p), luck.moves, t);
    }
  }

  /** It is last in the queue: the shared file of a broadcast, or the staged copy of a message for us. */
  lemma QueuedJob(c: Config, slots: int, luck: Luck, p: Path, s: State, t: State)
    requires Handled(c, slots, luck, p, s, t) && t.queue != s.queue
    ensures |t.queue| == |s.queue| + 1 && t.queue[..|s.queue|] == s.queue
    ensures Marked(s.processed, MessageId(c.world(p)), t.processed)
    ensures c.world(p).body.recipient == "" ==> t.queue[|s.queue|] == Tell(p)
    ensures c.world(p).body.recipient != "" ==>
              var job := t.queue[|s.queue|]; job.Deliver? && job.staged.origin == p && job.staged in t.processing
  {
    hide Quarantined, Lower, MessageId, Marked;
    if p in s.inbox && luck.readable && !InboxProtocol.WellFormed(c.world(p)) {
      QuarantineKeepsMemory(s, InboxFile(p), luck.moves, t);
    }
  }

  /** Quarantine touches neither the queue nor the ids seen. */
  lemma QuarantineKeepsMemory(s: State, f: File, moves: bool, t: State)
    requires Quarantined(s, f, moves, t)
    ensures t.queue == s.queue && t.processed == s.processed && t.done == s.done && t.arrived == s.arrived
    ensures f.InboxFile? ==> t.processing == s.processing && t.attempts == s.attempts
                             && t.inbox == (if moves then s.inbox - {f.path} else s.inbox)
    ensures f.StagedFile? ==> t.inbox == s.inbox
                              && t.processing == (if moves then s.processing - {f.staged} else s.processing)
    ensures !moves ==> t.attempts == s.attempts
    ensures !moves ==> t.dead == s.dead
    ensures moves ==> Buried(s, f, t)
  {
  }

  /** The file is under its own name if that was free, else under a fresh one; nothing that lay there is gone. */
  ghost predicate Buried(s: State, f: File, t: State) {
    if DeadName(NameOf(f)) !in s.dead then t.dead == s.dead[DeadName(NameOf(f)) := Origin(f)]
    else exists uid {:trigger Renamed(uid, NameOf(f))} ::
      uid !in s.issued && t.dead == s.dead[Renamed(uid, NameOf(f)) := Origin(f)]
  }

  /**
   The file leaves the inbox exactly when it can be read and moved and is malformed, a duplicate for us, or new
   for us while the executor has room and the sender checks; every other file stays.
   */
  lemma LeavesInboxIff(c: Config, slots: int, luck: Luck, p: Path, s: State, t: State)
    requires Handled(c, slots, luck, p, s, t) && p in s.inbox
    ensures var e := c.world(p);
            var id := if !e.body.Dict? then "" else if e.body.messageId != "" then e.body.messageId
                      else if e.body.envelopeId != "" then e.body.envelopeId else e.body.id;
            var bad := e.size > 1_000_000 || !e.body.Dict? || !e.body.hasSender;
            var ours := !bad && e.body.recipient != "" && (c.agent == "" || Lower(e.body.recipient) == c.agent);
            var seen := id != "" && id in s.processed;
            var admitted := (!luck.depthKnown || |s.queue| < 2 * slots) && luck.checked;
            p !in t.inbox <==> luck.readable && luck.moves && (bad || (ours && (seen || admitted)))
    ensures t.inbox == s.inbox || t.inbox == s.inbox - {p}
    ensures t.done == s.done && t.arrived == s.arrived && t.attempts == s.attempts
  {
    hide Quarantined, Lower;
    if luck.readable && !InboxProtocol.WellFormed(c.world(p)) {
      QuarantineKeepsMemory(s, InboxFile(p), luck.moves, t);
    }
  }

  /** Deadletter/ gets exactly the malformed files that can be read and moved. */
  lemma BuriedIff(c: Config, slots: int, luck: Luck, p: Path, s: State, t: State)
    requires Handled(c, slots, luck, p, s, t) && p in s.inbox
    ensures var e := c.world(p);
            if luck.readable && luck.moves
               && (e.size > 1_000_000 || e.body.NotJson? || e.body.NotDict? || !e.body.hasSender)
            then Buried(s, InboxFile(p), t) && p !in t.inbox
            else t.dead == s.dead
  {
    hide Quarantined, Buried, Lower;
    if luck.readable && !InboxProtocol.WellFormed(c.world(p)) {
      QuarantineKeepsMemory(s, InboxFile(p), luck.moves, t);
    }
  }

  /** Nothing goes wrong on our side. */
  const GoodLuck := Luck(true, true, true, true, true)

  /**
   A new message for us, all going well: it leaves the inbox for the executor, the worker that takes it hands it
   over and removes it, and no file with its id reaches a worker after that.
   */
  lemma DeliveredOnce(c: Config, slots: int, p: Path, s: State, t: State) returns (staged: Staged)
    requires p in s.inbox && s.queue == [] && slots > 0 && |s.processed| < 1000
    requires forall st :: st in s.processing ==> st.uid in s.issued
    requires InboxSafety.Directed(c, p) && MessageId(c.world(p)) != "" && MessageId(c.world(p)) !in s.processed
    requires Handled(c, slots, GoodLuck, p, s, t)
    ensures t.queue == [Deliver(staged)] && staged.origin == p && p !in t.inbox
    ensures forall v :: Processed(Shift(true, true, true), staged, t, v) ==>
              && v.queue == [] && p in v.done && p !in v.inbox
              && v.processing == s.processing && v.dead == s.dead
              && forall luck, q, w :: MessageId(c.world(q)) == MessageId(c.world(p)) && Handled(c, slots, luck, q, v, w)
                   ==> w.queue == []
  {
    var id := MessageId(c.world(p));
    staged := NewMessageIsStaged(c, slots, p, s, t);
    forall v | Processed(Shift(true, true, true), staged, t, v)
      ensures v.queue == [] && p in v.done && p !in v.inbox && v.processing == s.processing && v.dead == s.dead
      ensures forall luck, q, w :: MessageId(c.world(q)) == id && Handled(c, slots, luck, q, v, w) ==> w.queue == []
    {
      assert id in v.processed && v.processing == s.processing + {staged} - {staged} == s.processing;
      hide MessageId, Processed, Handled;
      forall luck, q, w | MessageId(c.world(q)) == id && Handled(c, slots, luck, q, v, w) ensures w.queue == [] {
        SeenIsNotQueued(c, slots, luck, q, v, w);
      }
    }
  }

  lemma NewMessageIsStaged(c: Config, slots: int, p: Path, s: State, t: State) returns (staged: Staged)
    requires p in s.inbox && s.queue == [] && slots > 0 && |s.processed| < 1000
    requires forall st :: st in s.processing ==> st.uid in s.issued
    requires InboxSafety.Directed(c, p) && MessageId(c.world(p)) != "" && MessageId(c.world(p)) !in s.processed
    requires Handled(c, slots, GoodLuck, p, s, t)
    ensures staged.origin == p && staged !in s.processing
    ensures t == s.(inbox := s.inbox - {p}, processing := s.processing + {staged}, issued := t.issued,
                    queue := [Deliver(staged)], processed := s.processed + {MessageId(c.world(p))})
  {
    hide Quarantined, Lower, MessageId;
    var id := MessageId(c.world(p));
    var uid :| uid !in s.issued && Submitted(Restage(s, p, uid), Deliver(Staged(uid, p)), id, true, t);
    staged := Staged(uid, p);
    assert |s.processed + {id}| == |s.processed| + 1;
  }

  lemma SeenIsNotQueued(c: Config, slots: int, luck: Luck, p: Path, s: State, t: State)
    requires Handled(c, slots, luck, p, s, t) && MessageId(c.world(p)) != "" && MessageId(c.world(p)) in s.processed
    ensures t.queue == s.queue
  {
    QueuedIff(c, slots, luck, p, s, t);
    hide Handled;
  }

  /**
   The fate of a staged file in one worker call: it goes exactly when it can be removed and was handed over, cannot
   be read, or raised for the fifth time.  A raise is counted, and only a call that returned hands the file over.
   */
  lemma StagedFate(w: Shift, staged: Staged, s: State, t: State)
    requires Processed(w, staged, s, t) && staged in s.processing
    ensures staged !in t.processing <==> w.moves && (!w.readable || w.answered || Count(s.attempts, staged) >= 4)
    ensures t.done == if w.readable && w.answered then s.done + {staged.origin} else s.done
    ensures w.readable && w.answered ==> staged !in t.attempts && t.dead == s.dead
    ensures w.readable && !w.answered && staged in t.processing ==>
              t.attempts == s.attempts[staged := Count(s.attempts, staged) + 1] && t.dead == s.dead
    ensures staged !in t.processing && !(w.readable && w.answered) ==> Buried(s, StagedFile(staged), t)
    ensures t.inbox == s.inbox && t.processed == s.processed && |t.queue| <= |s.queue|
  {
    hide Quarantined, Buried;
    var s' := s.(queue := if s.queue == [] then [] else s.queue[1..]);
    if !w.readable {
      QuarantineKeepsMemory(s', StagedFile(staged), w.moves, t);
      SameNames(s, s', StagedFile(staged), t);
    } else if !w.answered {
      var n := Count(s.attempts, staged) + 1;
      var s'' := s'.(attempts := s.attempts[staged := n], raises := s.raises[staged := Count(s.raises, staged) + 1]);
      if n >= MAX_PROCESS_ATTEMPTS { QuarantineKeepsMemory(s'', StagedFile(staged), w.moves, t); }
      SameNames(s, s'', StagedFile(staged), t);
    }
  }

  lemma SameNames(s: State, s': State, f: File, t: State)
    requires s'.dead == s.dead && s'.issued == s.issued
    ensures Buried(s, f, t) <==> Buried(s', f, t)
  {
  }
}
