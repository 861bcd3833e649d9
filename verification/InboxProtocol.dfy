/**
 The delivery protocol between the shared inbox, `processing/` and `deadletter/`.

 Handlers (the inotify watcher and the rescan both run `_on_inbox_file`) and pool workers
 (`_process_staged`) run concurrently, and the process may crash between any two file-system or
 locked operations.  A state holds the three directories, the volatile memory and one program
 counter per running call; `Next` performs one atomic operation of one call.
 */
module InboxProtocol {
  import opened Text

  const MAX_ENVELOPE_BYTES := 1_000_000
  const MAX_PROCESS_ATTEMPTS := 5
  const MAX_PROCESSED_IDS := 1000
  const KEPT_PROCESSED_IDS := 500

  // ---------- Files and their contents ----------

  /** A file below the inbox; `dir` is the per-peer sub-directory. */
  datatype Path = Path(dir: string, name: string)

  datatype Body =
    | NotJson
    | NotDict
    | Dict(hasSender: bool, recipient: string, messageId: string, envelopeId: string, id: string)

  /** The parts the protocol looks at, and the whole text of the file, which is what must not be lost. */
  datatype Envelope = Envelope(size: nat, body: Body, text: string)

  /** What the protocol runs in: the content each file name stands for, and our agent's name. */
  datatype Config = Config(world: Path -> Envelope, agent: string)

  /** An envelope past validation: small enough, a JSON object, with a sender. */
  predicate WellFormed(e: Envelope) {
    e.size <= MAX_ENVELOPE_BYTES && e.body.Dict? && e.body.hasSender
  }

  predicate IsBroadcast(e: Envelope) {
    WellFormed(e) && e.body.recipient == ""
  }

  /** Addressed to another agent that shares this inbox. */
  predicate IsForeign(agent: string, e: Envelope) {
    WellFormed(e) && e.body.recipient != "" && agent != "" && Lower(e.body.recipient) != agent
  }

  predicate IsDirected(agent: string, e: Envelope) {
    WellFormed(e) && e.body.recipient != "" && !IsForeign(agent, e)
  }

  /** The id used for deduplication; empty when the envelope carries none. */
  function MessageId(e: Envelope): string {
    if !e.body.Dict? then ""
    else if e.body.messageId != "" then e.body.messageId
    else if e.body.envelopeId != "" then e.body.envelopeId
    else e.body.id
  }

  // ---------- Names ----------

  /** A file below `processing/`: a fresh uuid in front of the original name. */
  datatype Staged = Staged(uid: nat, origin: Path)

  datatype File = InboxFile(path: Path) | StagedFile(staged: Staged)

  datatype FileName = Plain(name: string) | Prefixed(uid: nat, name: string)

  /** A name in `deadletter/`, with the uuid put in front when the plain name was taken. */
  datatype DeadName = DeadName(file: FileName) | Renamed(uid: nat, file: FileName)

  function NameOf(f: File): FileName {
    match f
    case InboxFile(p) => Plain(p.name)
    case StagedFile(st) => Prefixed(st.uid, st.origin.name)
  }

  function Origin(f: File): Path {
    match f
    case InboxFile(p) => p
    case StagedFile(st) => st.origin
  }

  // ---------- State ----------

  /** Where a running call stands; the operation named is the one it performs next. */
  datatype Pc =
    | Classify(path: Path)                // stat, read, parse, route by recipient
    | Peek(path: Path)                    // look the id up in _processed_ids
    | Consume(path: Path)                 // unlink a directed duplicate
    | Admit(path: Path)                   // executor queue depth, signature check
    | Broadcast(path: Path)               // submit without staging
    | Stage(path: Path)                   // rename into processing/
    | Submit(path: Path, staged: Staged)  // hand the staged file to the pool
    | Mark(path: Path)                    // add the id to _processed_ids
    | Quarantine(file: File)              // choose the deadletter name
    | Bury(file: File, dest: DeadName)    // move into deadletter/
    | Load(staged: Staged)                // worker: read the staged file
    | Work(staged: Staged)                // worker: process_envelope
    | Bump(staged: Staged)                // worker: count a failure
    | Finish(staged: Staged)              // worker: forget the counter, unlink
    | Announce(path: Path)                // worker: process_envelope on a broadcast

  datatype Job = Deliver(staged: Staged) | Tell(path: Path)

  datatype State = State(
    // on disk
    inbox: set<Path>,
    processing: set<Staged>,
    dead: map<DeadName, Path>,
    // in memory
    queue: seq<Job>,
    processed: set<string>,
    attempts: map<Staged, nat>,
    calls: map<nat, Pc>,
    // history, for stating properties
    arrived: set<Path>,
    done: set<Path>,
    issued: map<nat, Path>,
    raises: map<Staged, nat>
  )

  const Start := State({}, {}, map[], [], {}, map[], map[], {}, {}, map[], map[])

  // ---------- Actions ----------

  /** How the environment answers one operation. */
  datatype Answer =
    | Fine
    | Fault                     // the operation fails, or the worker raises
    | Named(uid: nat)           // the uuid drawn for a new name
    | Trimmed(kept: set<string>)

  datatype Action =
    | Arrive(path: Path)        // a file appears (again) in the inbox
    | Notice(call: nat, path: Path)     // the watcher or the rescan calls _on_inbox_file
    | Resubmit(staged: Staged)  // the rescan resubmits a staged file
    | Take(call: nat)           // a worker takes the next job
    | Advance(call: nat, answer: Answer)
    | Crash

  function Count<K>(m: map<K, nat>, k: K): nat {
    if k in m then m[k] else 0
  }

  predicate Exists(s: State, f: File) {
    match f
    case InboxFile(p) => p in s.inbox
    case StagedFile(st) => st in s.processing
  }

  predicate AnswerFits(s: State, pc: Pc, a: Answer, c: Config) {
    match pc
    case Stage(p) =>
      a == Fault || (a.Named? && a.uid !in s.issued)
    case Mark(p) =>
      var ids := s.processed + {MessageId(c.world(p))};
      if MessageId(c.world(p)) != "" && |ids| > MAX_PROCESSED_IDS
      then a.Trimmed? && a.kept <= ids && |a.kept| == KEPT_PROCESSED_IDS
      else a == Fine
    case Quarantine(f) =>
      if DeadName(NameOf(f)) in s.dead then a.Named? && a.uid !in s.issued else a == Fine
    case Peek(_) => a == Fine
    case Bump(_) => a == Fine
    case _ => a == Fine || a == Fault
  }

  predicate Enabled(c: Config, s: State, act: Action) {
    match act
    case Arrive(_) => true
    case Notice(n, _) => n !in s.calls
    case Resubmit(st) => st in s.processing
    case Take(n) => n !in s.calls && s.queue != []
    case Advance(n, a) => n in s.calls && AnswerFits(s, s.calls[n], a, c)
    case Crash => true
  }

  /** Move call `n` on to `pc`. */
  function Goto(s: State, n: nat, pc: Pc): State {
    s.(calls := s.calls[n := pc])
  }

  function End(s: State, n: nat): State {
    s.(calls := s.calls - {n})
  }

  function AfterClassify(c: Config, s: State, n: nat, p: Path, a: Answer): (t: State)
    ensures t.processed == s.processed
  {
    var e := c.world(p);
    if p !in s.inbox || a == Fault then End(s, n)          // vanished, unreadable or still empty
    else if !WellFormed(e) then Goto(s, n, Quarantine(InboxFile(p)))
    else if IsForeign(c.agent, e) then End(s, n)
    else Goto(s, n, Peek(p))
  }

  function AfterPeek(c: Config, s: State, n: nat, p: Path): (t: State)
    ensures t.processed == s.processed
  {
    var e := c.world(p);
    if MessageId(e) != "" && MessageId(e) in s.processed then
      if IsBroadcast(e) then End(s, n) else Goto(s, n, Consume(p))
    else Goto(s, n, Admit(p))
  }

  function AfterMark(c: Config, s: State, n: nat, p: Path, a: Answer): State {
    var id := MessageId(c.world(p));
    if id == "" then End(s, n)
    else if a.Trimmed? then End(s.(processed := a.kept), n)
    else End(s.(processed := s.processed + {id}), n)
  }

  /** The move into deadletter/; a file already there under the same name is replaced. */
  function AfterBury(s: State, n: nat, f: File, dest: DeadName, a: Answer): (t: State)
    ensures t.processed == s.processed
  {
    if !Exists(s, f) || a == Fault then End(s, n)
    else match f
      case InboxFile(p) =>
        End(s.(inbox := s.inbox - {p}, dead := s.dead[dest := p]), n)
      case StagedFile(st) =>
        End(s.(processing := s.processing - {st}, dead := s.dead[dest := st.origin],
               attempts := s.attempts - {st}), n)
  }

  /** `Fault` here is a staged file that can be listed but not read back. */
  function AfterLoad(s: State, n: nat, st: Staged, a: Answer): (t: State)
    ensures t.processed == s.processed
  {
    if st !in s.processing then End(s, n)
    else if a == Fault then Goto(s, n, Quarantine(StagedFile(st)))
    else Goto(s, n, Work(st))
  }

  function AfterBump(s: State, n: nat, st: Staged): (t: State)
    ensures t.processed == s.processed
  {
    var k := Count(s.attempts, st) + 1;
    var s' := s.(attempts := s.attempts[st := k]);
    if k >= MAX_PROCESS_ATTEMPTS then Goto(s', n, Quarantine(StagedFile(st))) else End(s', n)
  }

  function AfterFinish(s: State, n: nat, st: Staged, a: Answer): (t: State)
    ensures t.processed == s.processed
  {
    var s' := s.(attempts := s.attempts - {st});
    if a == Fault then End(s', n) else End(s'.(processing := s.processing - {st}), n)
  }

  function AfterConsume(s: State, n: nat, p: Path, a: Answer): (t: State)
    ensures t.processed == s.processed
  {
    if a == Fault then End(s, n) else End(s.(inbox := s.inbox - {p}), n)
  }

  /** `Fault`: the executor is backlogged; the file stays on disk and is not marked. */
  function AfterAdmit(c: Config, s: State, n: nat, p: Path, a: Answer): (t: State)
    ensures t.processed == s.processed
  {
    if a == Fault then End(s, n)
    else if IsBroadcast(c.world(p)) then Goto(s, n, Broadcast(p))
    else Goto(s, n, Stage(p))
  }

  function AfterSubmit(s: State, n: nat, p: Path, job: Job, a: Answer): (t: State)
    ensures t.processed == s.processed
  {
    if a == Fault then End(s, n) else Goto(s.(queue := s.queue + [job]), n, Mark(p))
  }

  /** Move `p` from the inbox into `processing/` under the name `uid` makes fresh. */
  function Restage(s: State, p: Path, uid: nat): State {
    s.(inbox := s.inbox - {p}, processing := s.processing + {Staged(uid, p)},
       issued := s.issued[uid := p])
  }

  function AfterStage(s: State, n: nat, p: Path, a: Answer): (t: State)
    ensures t.processed == s.processed
  {
    if p !in s.inbox || !a.Named? then End(s, n)
    else Goto(Restage(s, p, a.uid), n, Submit(p, Staged(a.uid, p)))
  }

  function AfterQuarantine(s: State, n: nat, f: File, a: Answer): (t: State)
    ensures t.processed == s.processed
  {
    if a.Named?
    then Goto(s.(issued := s.issued[a.uid := Origin(f)]), n, Bury(f, Renamed(a.uid, NameOf(f))))
    else Goto(s, n, Bury(f, DeadName(NameOf(f))))
  }

  /** `Fault`: process_envelope raised.  Otherwise it returned, and the envelope is done. */
  function AfterWork(s: State, n: nat, st: Staged, a: Answer): (t: State)
    ensures t.processed == s.processed
  {
    if a == Fault then Goto(s.(raises := s.raises[st := Count(s.raises, st) + 1]), n, Bump(st))
    else Goto(s.(done := s.done + {st.origin}), n, Finish(st))
  }

  function AfterAnnounce(s: State, n: nat, p: Path, a: Answer): (t: State)
    ensures t.processed == s.processed
  {
    if a == Fault then End(s, n) else End(s.(done := s.done + {p}), n)
  }

  function Step(c: Config, s: State, n: nat, a: Answer): State
    requires n in s.calls && AnswerFits(s, s.calls[n], a, c)
  {
    match s.calls[n]
    case Classify(p) => AfterClassify(c, s, n, p, a)
    case Peek(p) => AfterPeek(c, s, n, p)
    case Consume(p) => AfterConsume(s, n, p, a)
    case Admit(p) => AfterAdmit(c, s, n, p, a)
    case Broadcast(p) => AfterSubmit(s, n, p, Tell(p), a)
    case Stage(p) => AfterStage(s, n, p, a)
    case Submit(p, st) => AfterSubmit(s, n, p, Deliver(st), a)
    case Mark(p) => AfterMark(c, s, n, p, a)
    case Quarantine(f) => AfterQuarantine(s, n, f, a)
    case Bury(f, dest) => AfterBury(s, n, f, dest, a)
    case Load(st) => AfterLoad(s, n, st, a)
    case Work(st) => AfterWork(s, n, st, a)
    case Bump(st) => AfterBump(s, n, st)
    case Finish(st) => AfterFinish(s, n, st, a)
    case Announce(p) => AfterAnnounce(s, n, p, a)
  }

  function Next(c: Config, s: State, act: Action): State
    requires Enabled(c, s, act)
  {
    match act
    case Arrive(p) => s.(inbox := s.inbox + {p}, arrived := s.arrived + {p})
    case Notice(n, p) => Goto(s, n, Classify(p))
    case Resubmit(st) => s.(queue := s.queue + [Deliver(st)])
    case Take(n) =>
      var s' := s.(queue := s.queue[1..]);
      (match s.queue[0]
       case Deliver(st) => Goto(s', n, Load(st))
       case Tell(p) => Goto(s', n, Announce(p)))
    case Advance(n, a) => Step(c, s, n, a)
    case Crash => s.(queue := [], processed := {}, attempts := map[], calls := map[])
  }

  /** `acts` is a run from `s` to `t`. */
  predicate Run(c: Config, s: State, acts: seq<Action>, t: State)
    decreases |acts|
  {
    if acts == [] then s == t
    else Enabled(c, s, acts[0]) && Run(c, Next(c, s, acts[0]), acts[1..], t)
  }

  predicate Reachable(c: Config, acts: seq<Action>, t: State) {
    Run(c, Start, acts, t)
  }

  lemma {:induction false} RunConcat(c: Config, s: State, a: seq<Action>, t: State, b: seq<Action>, u: State)
    requires Run(c, s, a, t) && Run(c, t, b, u)
    ensures Run(c, s, a + b, u)
    decreases |a|
  {
    if a == [] {
      assert a + b == b;
    } else {
      assert (a + b)[0] == a[0] && (a + b)[1..] == a[1..] + b;
      RunConcat(c, Next(c, s, a[0]), a[1..], t, b, u);
    }
  }
}
