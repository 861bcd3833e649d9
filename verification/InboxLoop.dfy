/**
 The inbox methods as the program runs them, one call at a time.  `_on_inbox_file` and `_process_staged` keep their
 control flow; how the environment answers is given by the caller.
 */
module InboxLoop {
  import opened InboxProtocol
  import opened InboxCalls
  import opened Wrappers
  import InboxSafety
  import Text

  /** Any set has a subset of each smaller size: the trim in `_mark_processed` is always possible. */
  lemma {:induction false} SubsetOfSize(ids: set<string>, k: nat) returns (kept: set<string>)
    requires k <= |ids|
    ensures kept <= ids && |kept| == k
  {
    if k == |ids| {
      kept := ids;
    } else {
      var x :| x in ids;
      kept := SubsetOfSize(ids - {x}, k);
    }
  }

  lemma {:induction false} BoundedAbove(ids: set<nat>) returns (k: nat)
    ensures forall u :: u in ids ==> u < k
  {
    if ids == {} {
      k := 0;
    } else {
      var x :| x in ids;
      var j := BoundedAbove(ids - {x});
      k := if x < j then j else x + 1;
      assert forall u :: u in ids ==> u == x || u in ids - {x};
    }
  }

  class ConsciousnessLoop {
    const config: Config
    const maxConcurrent: int
    // the shared directories
    var inbox: set<Path>
    var processing: set<Staged>
    var dead: map<DeadName, Path>
    // the executor's work queue and the in-memory records
    var queue: seq<Job>
    var processedIds: set<string>
    var processAttempts: map<Staged, nat>
    // history
    ghost var arrived: set<Path>
    ghost var done: set<Path>
    var issued: map<nat, Path>  // the uuids drawn so far
    ghost var raises: map<Staged, nat>

    /** The protocol state between two calls. */
    ghost function Snapshot(): State
      reads this
    {
      State(inbox, processing, dead, queue, processedIds, processAttempts, map[], arrived, done, issued, raises)
    }

    constructor (c: Config, maxConcurrent: int)
      ensures config == c && this.maxConcurrent == maxConcurrent && Snapshot() == Start
    {
      config, this.maxConcurrent := c, maxConcurrent;
      inbox, processing, dead := {}, {}, map[];
      queue, processedIds, processAttempts := [], {}, map[];
      arrived, done, issued, raises := {}, {}, map[], map[];
    }

    method DrawUuid() returns (uid: nat)
      ensures uid !in issued
    {
      ghost var k := BoundedAbove(issued.Keys);
      assert k !in issued;
      uid :| uid !in issued;
    }

    /** Add the id, and keep five hundred of the ids once there are more than a thousand. */
    method MarkProcessed(id: string)
      modifies this`processedIds
      ensures Marked(old(processedIds), id, processedIds)
      ensures |old(processedIds)| <= MAX_PROCESSED_IDS ==> |processedIds| <= MAX_PROCESSED_IDS
    {
      if id != "" {
        processedIds := processedIds + {id};
        if |processedIds| > MAX_PROCESSED_IDS {
          ghost var some := SubsetOfSize(processedIds, KEPT_PROCESSED_IDS);
          var kept :| kept <= processedIds && |kept| == KEPT_PROCESSED_IDS;
          processedIds := kept;
        }
      }
    }

    /** Move `file` into deadletter/, under a fresh name when its own is taken. */
    method DeadletterInboxFile(file: File, moves: bool)
      requires Exists(Snapshot(), file)
      modifies this`inbox, this`processing, this`dead, this`processAttempts, this`issued
      ensures Quarantined(old(Snapshot()), file, moves, Snapshot())
    {
      var dest := DeadName(NameOf(file));
      if dest in dead {
        var uid := DrawUuid();
        dest := Renamed(uid, NameOf(file));
        issued := issued[uid := Origin(file)];
        assert uid !in old(issued);
        MoveToDeadletter(file, dest, moves);
        assert Snapshot() == FreshlyNamed(old(Snapshot()), file, moves, uid);
      } else {
        MoveToDeadletter(file, dest, moves);
      }
    }

    /** `shutil.move`, which may fail; the retry counter goes with the file. */
    method MoveToDeadletter(file: File, dest: DeadName, moves: bool)
      requires Exists(Snapshot(), file)
      modifies this`inbox, this`processing, this`dead, this`processAttempts
      ensures Snapshot() == var s := old(Snapshot());
                            if moves then Without(s, file).(dead := s.dead[dest := Origin(file)]) else s
    {
      if !moves {
        return;
      }
      match file {
        case InboxFile(path) =>
          inbox, dead := inbox - {path}, dead[dest := path];
        case StagedFile(staged) =>
          processing, dead := processing - {staged}, dead[dest := staged.origin];
          processAttempts := processAttempts - {staged};
      }
    }

    /** Rename a directed inbox file into `processing/`; `None` when it cannot be moved. */
    method StageForProcessing(path: Path, moves: bool) returns (staged: Option<Staged>)
      requires path in inbox
      modifies this`inbox, this`processing, this`issued
      ensures staged.Some? <==> moves
      ensures staged.None? ==> Snapshot() == old(Snapshot())
      ensures staged.Some? ==> staged.value.uid !in old(issued) && staged.value.origin == path
                               && Snapshot() == Restage(old(Snapshot()), path, staged.value.uid)
    {
      var uid := DrawUuid();
      if !moves {
        return None;
      }
      inbox, processing := inbox - {path}, processing + {Staged(uid, path)};
      issued := issued[uid := path];
      return Some(Staged(uid, path));
    }

    method SubmitAndMark(job: Job, id: string, submits: bool)
      modifies this`queue, this`processedIds
      ensures Submitted(old(Snapshot()), job, id, submits, Snapshot())
    {
      if !submits {
        return;
      }
      queue := queue + [job];
      MarkProcessed(id);
    }

    /** The part of `_on_inbox_file` from deduplication on. */
    method Accept(path: Path, luck: Luck)
      requires path in inbox && luck.readable && InboxSafety.Accepted(config, path)
      modifies this
      ensures Handled(config, maxConcurrent, luck, path, old(Snapshot()), Snapshot())
    {
      hide Quarantined, Marked, MessageId;
      var e := config.world(path);
      var id := MessageId(e);
      if id != "" && id in processedIds {
        if e.body.recipient != "" {
          ConsumeInboxFile(path, luck.moves);
        }
        return;
      }
      if luck.depthKnown && |queue| >= maxConcurrent * 2 {
        return;
      }
      if !luck.checked {
        return;
      }
      if e.body.recipient == "" {
        SubmitAndMark(Tell(path), id, luck.submits);
      } else {
        var staged := StageForProcessing(path, luck.moves);
        if staged.Some? {
          SubmitAndMark(Deliver(staged.value), id, luck.submits);
        }
      }
    }

    /** Unlink, or fail quietly. */
    method ConsumeInboxFile(path: Path, moves: bool)
      modifies this`inbox
      ensures inbox == if moves then old(inbox) - {path} else old(inbox)
    {
      if moves {
        inbox := inbox - {path};
      }
    }

    /** Handle one inbox file: validate, route by recipient, deduplicate, hand over. */
    method OnInboxFile(path: Path, luck: Luck)
      modifies this
      ensures Handled(config, maxConcurrent, luck, path, old(Snapshot()), Snapshot())
    {
      hide Quarantined, Submitted, StagedFor, MessageId;
      var e := config.world(path);
      if path !in inbox || !luck.readable {
        return;
      }
      if e.size > MAX_ENVELOPE_BYTES || !e.body.Dict? || !e.body.hasSender {
        DeadletterInboxFile(InboxFile(path), luck.moves);
      } else if config.agent != "" && e.body.recipient != "" && Text.Lower(e.body.recipient) != config.agent {
        return;
      } else {
        Accept(path, luck);
      }
    }

    method BumpAttempts(staged: Staged) returns (n: nat)
      modifies this`processAttempts
      ensures n == Count(old(processAttempts), staged) + 1
      ensures processAttempts == old(processAttempts)[staged := n]
    {
      n := Count(processAttempts, staged) + 1;
      processAttempts := processAttempts[staged := n];
    }

    /** The worker entry point: delete the staged file only after `process_envelope` returned. */
    method ProcessStaged(staged: Staged, w: Shift)
      requires queue != [] && queue[0] == Deliver(staged)
      modifies this
      ensures Processed(w, staged, old(Snapshot()), Snapshot())
    {
      hide Quarantined;
      queue := queue[1..];
      if staged !in processing {
        return;
      }
      if !w.readable {
        DeadletterInboxFile(StagedFile(staged), w.moves);
        return;
      }
      if !w.answered {
        raises := raises[staged := Count(raises, staged) + 1];
        RetryOrQuarantine(staged, w.moves);
        return;
      }
      done := done + {staged.origin};
      processAttempts := processAttempts - {staged};
      if w.moves {
        processing := processing - {staged};
      }
    }

    /** `process_envelope` raised. */
    method RetryOrQuarantine(staged: Staged, moves: bool)
      requires staged in processing
      modifies this`processAttempts, this`inbox, this`processing, this`dead, this`issued
      ensures var s := old(Snapshot());
              var n := Count(s.attempts, staged) + 1;
              var counted := s.(attempts := s.attempts[staged := n]);
              if n >= MAX_PROCESS_ATTEMPTS then Quarantined(counted, StagedFile(staged), moves, Snapshot())
              else Snapshot() == counted
    {
      hide Quarantined;
      var attempts := BumpAttempts(staged);
      if attempts >= MAX_PROCESS_ATTEMPTS {
        DeadletterInboxFile(StagedFile(staged), moves);
      }
    }

    /** Resubmit stale staged files, then route every inbox file through the handler. */
    method RescanInbox(stale: Staged -> bool, submits: Staged -> bool, luck: Path -> Luck)
      returns (submitted: nat, ghost jobs: seq<Staged>, ghost files: seq<Path>, ghost states: seq<State>)
      modifies this
      ensures Each(jobs, set st | st in old(processing) && stale(st) && submits(st))
      ensures Each(files, old(inbox)) && |states| == |files| + 1
      ensures states[0] == old(Snapshot()).(queue := old(queue) + Deliveries(jobs)) && states[|files|] == Snapshot()
      ensures forall i :: 0 <= i < |files| ==>
                Handled(config, maxConcurrent, luck(files[i]), files[i], states[i], states[i + 1])
      ensures submitted == |jobs| + |old(inbox)|
    {
      hide Handled;
      submitted, jobs := ResubmitStale(stale, submits);
      files, states := [], [Snapshot()];
      var todo := inbox;
      while todo != {}
        invariant todo <= old(inbox) && Each(files, old(inbox) - todo)
        invariant |states| == |files| + 1 && states[|files|] == Snapshot()
        invariant states[0] == old(Snapshot()).(queue := old(queue) + Deliveries(jobs))
        invariant forall i :: 0 <= i < |files| ==>
                    Handled(config, maxConcurrent, luck(files[i]), files[i], states[i], states[i + 1])
        invariant submitted == |jobs| + |files| && |files| + |todo| == |old(inbox)|
      {
        var path :| path in todo;
        OnInboxFile(path, luck(path));
        EachOneMore(files, old(inbox) - todo, path);
        assert old(inbox) - (todo - {path}) == old(inbox) - todo + {path};
        files, states := files + [path], states + [Snapshot()];
        todo := todo - {path};
        submitted := submitted + 1;
      }
    }

    method ResubmitStale(stale: Staged -> bool, submits: Staged -> bool)
      returns (submitted: nat, ghost jobs: seq<Staged>)
      modifies this`queue
      ensures Each(jobs, set st | st in processing && stale(st) && submits(st))
      ensures queue == old(queue) + Deliveries(jobs) && submitted == |jobs|
    {
      submitted, jobs := 0, [];
      var todo := processing;
      while todo != {}
        invariant todo <= processing && submitted == |jobs|
        invariant Each(jobs, set st | st in processing - todo && stale(st) && submits(st))
        invariant queue == old(queue) + Deliveries(jobs)
      {
        var st :| st in todo;
        ghost var ready := set st | st in processing - todo && stale(st) && submits(st);
        todo := todo - {st};
        if stale(st) && submits(st) {
          EachOneMore(jobs, ready, st);
          DeliveriesSnoc(jobs, st);
          assert (set st | st in processing - todo && stale(st) && submits(st)) == ready + {st};
          queue := queue + [Deliver(st)];
          submitted, jobs := submitted + 1, jobs + [st];
        } else {
          assert (set st | st in processing - todo && stale(st) && submits(st)) == ready;
        }
      }
      assert processing - todo == processing;
    }
  }

  /** `list` has each element of `all` exactly once. */
  ghost predicate Each<T(!new)>(list: seq<T>, all: set<T>) {
    (forall x :: x in list <==> x in all) && forall i, j :: 0 <= i < j < |list| ==> list[i] != list[j]
  }

  lemma EachOneMore<T(!new)>(list: seq<T>, all: set<T>, x: T)
    requires Each(list, all) && x !in all
    ensures Each(list + [x], all + {x})
  {
  }

  function Deliveries(jobs: seq<Staged>): seq<Job> {
    seq(|jobs|, i requires 0 <= i < |jobs| => Deliver(jobs[i]))
  }

  lemma DeliveriesSnoc(jobs: seq<Staged>, st: Staged)
    ensures Deliveries(jobs + [st]) == Deliveries(jobs) + [Deliver(st)]
  {
  }

  lemma ResubmittedIsRun(c: Config, s: State, jobs: seq<Staged>)
    requires forall i :: 0 <= i < |jobs| ==> jobs[i] in s.processing
    ensures Leads(c, s, s.(queue := s.queue + Deliveries(jobs)))
  {
    if jobs == [] {
      assert s.queue + Deliveries(jobs) == s.queue;
      LeadsNowhere(c, s);
    } else {
      var front, st := jobs[..|jobs| - 1], jobs[|jobs| - 1];
      ResubmittedIsRun(c, s, front);
      DeliveriesSnoc(front, st);
      assert front + [st] == jobs;
      assert s.queue + Deliveries(jobs) == s.queue + Deliveries(front) + [Deliver(st)];
      Then(c, s, s.(queue := s.queue + Deliveries(front)), Resubmit(st));
    }
  }

  /** A whole rescan is a run of the protocol. */
  lemma {:induction false} RescanIsRun(c: Config, slots: int, luck: Path -> Luck, s: State, jobs: seq<Staged>,
                                       files: seq<Path>, states: seq<State>, n: nat)
    requires s.calls == map[] && |states| == |files| + 1 && n <= |files|
    requires forall i :: 0 <= i < |jobs| ==> jobs[i] in s.processing
    requires states[0] == s.(queue := s.queue + Deliveries(jobs))
    requires forall i :: 0 <= i < |files| ==> Handled(c, slots, luck(files[i]), files[i], states[i], states[i + 1])
    ensures Leads(c, s, states[n]) && states[n].calls == map[]
  {
    hide Leads;
    if n == 0 {
      ResubmittedIsRun(c, s, jobs);
    } else {
      RescanIsRun(c, slots, luck, s, jobs, files, states, n - 1);
      HandledIsRun(c, slots, luck(files[n - 1]), files[n - 1], states[n - 1], states[n]);
      LeadsOn(c, s, states[n - 1], states[n]);
      HandledKeepsNoCalls(c, slots, luck(files[n - 1]), files[n - 1], states[n - 1], states[n]);
    }
  }

  lemma HandledKeepsNoCalls(c: Config, slots: int, luck: Luck, p: Path, s: State, t: State)
    requires Handled(c, slots, luck, p, s, t)
    ensures t.calls == s.calls
  {
    hide Text.Lower, MessageId;
  }
}
