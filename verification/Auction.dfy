/**
 Task auctions in one event loop: openings, bids and any number of resolver coroutines, each of which
 sleeps through the bidding window and then runs its body without interruption.
 */
module Auction {
  import opened Wrappers

  type TaskId = string
  type Agent = string

  const WINDOW_SECS := 5

  datatype Bid = Bid(agent: Agent, claimedTasks: int, cpu: real)

  datatype Status = Pending | Resolved | NoBidders

  datatype Record = Record(status: Status, winner: Option<Agent>, bids: seq<Bid>, openedAt: int)

  // ---------- Scores ----------

  function CappedCpu(cpu: real): real {
    if cpu > 100.0 then 100.0 else cpu
  }

  function CappedTasks(n: int): int {
    if n > 20 then 20 else n
  }

  /** `_load_score`, in exact arithmetic: seventy percent processor, thirty percent claimed tasks. */
  function LoadScore(b: Bid): real {
    0.7 * (CappedCpu(b.cpu) / 100.0) + 0.3 * (CappedTasks(b.claimedTasks) as real / 20.0)
  }

  /** Seventy percent processor, up to a hundred, and thirty percent tasks, up to twenty. */
  lemma LoadIs(b: Bid)
    ensures b.cpu <= 100.0 && b.claimedTasks <= 20 ==>
              LoadScore(b) == 0.7 * (b.cpu / 100.0) + 0.3 * (b.claimedTasks as real / 20.0)
    ensures b.cpu > 100.0 ==> LoadScore(b) == LoadScore(b.(cpu := 100.0))
    ensures b.claimedTasks > 20 ==> LoadScore(b) == LoadScore(b.(claimedTasks := 20))
  {
  }

  /** The bid at k is the first one of least load. */
  ghost predicate FirstLeast(bids: seq<Bid>, k: nat) {
    && k < |bids|
    && (forall i :: 0 <= i < |bids| ==> LoadScore(bids[k]) <= LoadScore(bids[i]))
    && (forall i :: 0 <= i < k ==> LoadScore(bids[k]) < LoadScore(bids[i]))
  }

  /** Index of the first bid of least load among the first `n`. */
  function LeastIndex(bids: seq<Bid>, n: nat): (k: nat)
    requires 1 <= n <= |bids|
    ensures FirstLeast(bids[..n], k)
  {
    if n == 1 then 0
    else
      var k := LeastIndex(bids, n - 1);
      assert bids[..n - 1][k] == bids[k];
      assert forall i :: 0 <= i < n - 1 ==> bids[..n - 1][i] == bids[..n][i];
      if LoadScore(bids[n - 1]) < LoadScore(bids[k]) then n - 1 else k
  }

  lemma WinnerIsFirstLeast(bids: seq<Bid>)
    requires bids != []
    ensures exists k: nat :: FirstLeast(bids, k) && bids[k].agent == WinnerOf(bids)
  {
    var k := LeastIndex(bids, |bids|);
    assert bids[..|bids|] == bids;
    assert FirstLeast(bids, k) && bids[k].agent == WinnerOf(bids);
  }

  function WinnerOf(bids: seq<Bid>): Agent
    requires bids != []
  {
    bids[LeastIndex(bids, |bids|)].agent
  }

  lemma FirstLeastIsUnique(bids: seq<Bid>, j: nat, k: nat)
    requires FirstLeast(bids, j) && FirstLeast(bids, k)
    ensures j == k
  {
    hide LoadScore;
    assert LoadScore(bids[j]) == LoadScore(bids[k]);
  }

  // ---------- The state of one event loop ----------

  datatype Sleeper = Sleeper(task: TaskId, begun: int)

  /** A claim made on the board for an opening of a task; openings are numbered per task. */
  datatype Claim = Claim(task: TaskId, opening: nat, agent: Agent)

  datatype State = State(
    records: map<TaskId, Record>,
    asleep: map<nat, Sleeper>,
    openings: map<TaskId, nat>,
    claims: seq<Claim>)

  datatype Step =
    | Open(task: TaskId, now: int)
    | Submit(task: TaskId, bid: Bid)
    | BeginResolve(who: nat, target: TaskId, now: int)
    | Wake(who: nat, now: int, claimWorks: bool)

  function OpeningOf(s: State, task: TaskId): nat {
    if task in s.openings then s.openings[task] else 0
  }

  function Without(bids: seq<Bid>, agent: Agent): (r: seq<Bid>)
    ensures forall b :: b in r <==> b in bids && b.agent != agent
  {
    if bids == [] then []
    else (if bids[0].agent != agent then [bids[0]] else []) + Without(bids[1..], agent)
  }

  /** The other agents' bids keep their order. */
  lemma OthersKeepOrder(a: seq<Bid>, b: seq<Bid>, bid: Bid, agent: Agent)
    ensures Without(a + b, agent) == Without(a, agent) + Without(b, agent)
    ensures Without([bid], agent) == if bid.agent == agent then [] else [bid]
  {
    WithoutSplit(a, b, agent);
    WithoutOne(bid, agent);
    hide Without;
  }

  lemma {:induction false} WithoutSplit(a: seq<Bid>, b: seq<Bid>, agent: Agent)
    ensures Without(a + b, agent) == Without(a, agent) + Without(b, agent)
  {
    hide Without;
    if a == [] {
      assert a + b == b;
      WithoutNone(agent);
    } else {
      var rest := a[1..];
      var head := if a[0].agent != agent then [a[0]] else [];
      assert a == [a[0]] + rest && a + b == [a[0]] + (rest + b);
      WithoutCons(a[0], rest, agent);
      WithoutCons(a[0], rest + b, agent);
      WithoutSplit(rest, b, agent);
      Associates(head, Without(rest, agent), Without(b, agent));
    }
  }

  lemma Associates(a: seq<Bid>, b: seq<Bid>, c: seq<Bid>)
    ensures a + (b + c) == a + b + c
  {
  }

  lemma WithoutNone(agent: Agent)
    ensures Without([], agent) == []
  {
  }

  lemma WithoutCons(bid: Bid, bids: seq<Bid>, agent: Agent)
    ensures Without([bid] + bids, agent) == (if bid.agent != agent then [bid] else []) + Without(bids, agent)
  {
    assert ([bid] + bids)[1..] == bids;
  }

  lemma WithoutOne(bid: Bid, agent: Agent)
    ensures Without([bid], agent) == if bid.agent == agent then [] else [bid]
  {
    assert [bid][1..] == [];
  }

  predicate IsPending(s: State, task: TaskId) {
    task in s.records && s.records[task].status == Pending
  }

  /** What a resolver does after its sleep, to the record it finds pending. */
  function Closed(r: Record, claimWorks: bool): Record {
    if r.bids == [] then r.(status := NoBidders)
    else r.(status := Resolved, winner := if claimWorks then Some(WinnerOf(r.bids)) else None)
  }

  function ClaimsOf(s: State, task: TaskId): seq<Claim>
    requires IsPending(s, task)
  {
    var r := s.records[task];
    if r.bids == [] then [] else [Claim(task, OpeningOf(s, task), WinnerOf(r.bids))]
  }

  function AfterWake(s: State, task: TaskId, claimWorks: bool): State {
    if !IsPending(s, task) then s
    else s.(records := s.records[task := Closed(s.records[task], claimWorks)], claims := s.claims + ClaimsOf(s, task))
  }

  /** A sleeper may wake once the window has passed since it began. */
  predicate CanWake(s: State, who: nat, now: int) {
    who in s.asleep && now >= s.asleep[who].begun + WINDOW_SECS
  }

  function After(s: State, step: Step): State {
    match step
    case Open(task, now) =>
      s.(records := s.records[task := Record(Pending, None, [], now)],
         openings := s.openings[task := OpeningOf(s, task) + 1])
    case Submit(task, bid) =>
      if !IsPending(s, task) then s
      else
        var r := s.records[task];
        s.(records := s.records[task := r.(bids := Without(r.bids, bid.agent) + [bid])])
    case BeginResolve(who, task, now) => s.(asleep := s.asleep[who := Sleeper(task, now)])
    case Wake(who, now, claimWorks) =>
      if !CanWake(s, who, now) then s
      else AfterWake(s.(asleep := s.asleep - {who}), s.asleep[who].task, claimWorks)
  }

  function Run(s: State, steps: seq<Step>): State
    decreases |steps|
  {
    if steps == [] then s else Run(After(s, steps[0]), steps[1..])
  }

  /**
   A resolver that finds its auction pending closes it: without bids nobody wins; with bids the first bidder of least
   load is claimed for, once, and recorded as the winner exactly when the claim works.
   */
  lemma WakeDecides(s: State, who: nat, now: int, claimWorks: bool, k: nat)
    requires who in s.asleep && now >= s.asleep[who].begun + 5 && s.asleep[who].task in s.records
    requires s.records[s.asleep[who].task].status == Pending
    ensures var task, t := s.asleep[who].task, After(s, Wake(who, now, claimWorks));
            var r := s.records[task];
            && t.records.Keys == s.records.Keys && t.asleep == s.asleep - {who}
            && (r.bids == [] ==> t.claims == s.claims && t.records[task] == r.(status := NoBidders))
            && (FirstLeast(r.bids, k) ==>
                  && t.claims == s.claims + [Claim(task, OpeningOf(s, task), r.bids[k].agent)]
                  && t.records[task] == r.(status := Resolved,
                                           winner := if claimWorks then Some(r.bids[k].agent) else None))
  {
    var r := s.records[s.asleep[who].task];
    if FirstLeast(r.bids, k) {
      assert r.bids != [] && k < |r.bids|;
      hide FirstLeast, LoadScore;
      var j := WinningIndex(r.bids);
      FirstLeastIsUnique(r.bids, j, k);
    }
  }

  lemma WinningIndex(bids: seq<Bid>) returns (k: nat)
    requires bids != []
    ensures FirstLeast(bids, k) && bids[k].agent == WinnerOf(bids)
  {
    WinnerIsFirstLeast(bids);
    k :| FirstLeast(bids, k) && bids[k].agent == WinnerOf(bids);
  }

  // ---------- The code ----------

  class AuctionManager {
    var records: map<TaskId, Record>
    var asleep: map<nat, Sleeper>
    ghost var openings: map<TaskId, nat>
    ghost var claims: seq<Claim>

    ghost function View(): State
      reads this
    {
      State(records, asleep, openings, claims)
    }

    constructor ()
      ensures View() == State(map[], map[], map[], [])
    {
      records, asleep, openings, claims := map[], map[], map[], [];
    }

    method StartAuction(task: TaskId, now: int) returns (r: Record)
      modifies this
      ensures View() == After(old(View()), Open(task, now)) && r == records[task]
    {
      r := Record(Pending, None, [], now);
      records := records[task := r];
      openings := openings[task := (if task in openings then openings[task] else 0) + 1];
    }

    method SubmitBid(task: TaskId, bid: Bid) returns (accepted: bool)
      modifies this
      ensures View() == After(old(View()), Submit(task, bid)) && accepted == IsPending(old(View()), task)
    {
      if task !in records || records[task].status != Pending {
        return false;
      }
      var record := records[task];
      record := record.(bids := Without(record.bids, bid.agent));
      record := record.(bids := record.bids + [bid]);
      records := records[task := record];
      return true;
    }

    /** The first half of `resolve_auction`: go to sleep. */
    method GoToSleep(who: nat, task: TaskId, now: int)
      modifies this
      ensures View() == After(old(View()), BeginResolve(who, task, now))
    {
      asleep := asleep[who := Sleeper(task, now)];
    }

    /** Python's `min` with a key: the first of the least. */
    method PickWinner(bids: seq<Bid>) returns (winner: Agent)
      requires bids != []
      ensures winner == WinnerOf(bids)
    {
      var best := 0;
      var i := 1;
      while i < |bids|
        invariant 1 <= i <= |bids| && best == LeastIndex(bids, i)
      {
        if LoadScore(bids[i]) < LoadScore(bids[best]) {
          best := i;
        }
        i := i + 1;
      }
      winner := bids[best].agent;
    }

    /** The second half, from load to save without an await. */
    method ResolveAwake(who: nat, now: int, claimWorks: bool) returns (winner: Option<Agent>)
      requires CanWake(View(), who, now)
      modifies this
      ensures View() == After(old(View()), Wake(who, now, claimWorks))
      ensures var task := old(asleep)[who].task;
              Inv(old(View())) ==> winner == if task in records then records[task].winner else None
    {
      var task := asleep[who].task;
      asleep := asleep - {who};
      if task !in records {
        return None;
      }
      var record := records[task];
      if record.status != Pending {
        return record.winner;
      }
      if record.bids == [] {
        records := records[task := record.(status := NoBidders)];
        return None;
      }
      var best := PickWinner(record.bids);
      claims := claims + [Claim(task, OpeningOf(View(), task), best)];
      winner := if claimWorks then Some(best) else None;
      records := records[task := record.(winner := winner, status := Resolved)];
    }
  }

  // ---------- What every step keeps ----------

  ghost predicate OneBidEach(bids: seq<Bid>) {
    forall i, j :: 0 <= i < j < |bids| ==> bids[i].agent != bids[j].agent
  }

  /** A closed record with a winner names the first bidder of least load; an open one has none yet. */
  ghost predicate RecordOk(r: Record) {
    && OneBidEach(r.bids)
    && (r.status != Resolved ==> r.winner.None?)
    && (r.status == NoBidders ==> r.bids == [])
    && (r.winner.Some? ==> exists k: nat :: FirstLeast(r.bids, k) && r.bids[k].agent == r.winner.value)
  }

  /** At most one claim an opening, none for one still pending, none for one not yet made. */
  ghost predicate ClaimsOk(s: State) {
    && (forall i, j :: 0 <= i < j < |s.claims| ==>
          s.claims[i].task != s.claims[j].task || s.claims[i].opening != s.claims[j].opening)
    && (forall c :: c in s.claims ==> c.opening <= OpeningOf(s, c.task))
    && (forall c :: c in s.claims && IsPending(s, c.task) ==> c.opening < OpeningOf(s, c.task))
  }

  ghost predicate Inv(s: State) {
    && (forall task :: task in s.records ==> RecordOk(s.records[task]))
    && ClaimsOk(s)
  }

  lemma {:induction false} WithoutKeepsOne(bids: seq<Bid>, agent: Agent)
    requires OneBidEach(bids)
    ensures OneBidEach(Without(bids, agent)) && forall b :: b in Without(bids, agent) ==> b.agent != agent
  {
    if bids != [] {
      WithoutKeepsOne(bids[1..], agent);
      var rest := Without(bids[1..], agent);
      if bids[0].agent != agent {
        var r := [bids[0]] + rest;
        forall i, j | 0 <= i < j < |r| ensures r[i].agent != r[j].agent {
          assert r[j] == rest[j - 1] && rest[j - 1] in rest && rest[j - 1] in bids[1..];
          if i > 0 { assert r[i] == rest[i - 1]; }
        }
      }
      assert Without(bids, agent) == (if bids[0].agent != agent then [bids[0]] else []) + rest;
    }
  }

  lemma SubmitKeepsRecord(r: Record, bid: Bid)
    requires RecordOk(r) && r.status == Pending
    ensures RecordOk(r.(bids := Without(r.bids, bid.agent) + [bid]))
  {
    WithoutKeepsOne(r.bids, bid.agent);
    var rest := Without(r.bids, bid.agent);
    forall i, j | 0 <= i < j < |rest + [bid]| ensures (rest + [bid])[i].agent != (rest + [bid])[j].agent {
      assert rest[i] in rest;
    }
  }

  lemma CloseKeepsRecord(r: Record, claimWorks: bool)
    requires RecordOk(r) && r.status == Pending
    ensures RecordOk(Closed(r, claimWorks)) && Closed(r, claimWorks).status != Pending
  {
    if r.bids != [] { WinnerIsFirstLeast(r.bids); }
  }

  lemma WakeKeepsClaims(s: State, task: TaskId, claimWorks: bool)
    requires ClaimsOk(s)
    ensures ClaimsOk(AfterWake(s, task, claimWorks))
  {
  }

  lemma OpenKeepsClaims(s: State, task: TaskId, now: int)
    requires ClaimsOk(s)
    ensures ClaimsOk(After(s, Open(task, now)))
  {
  }

  lemma StepKeepsInv(s: State, step: Step)
    requires Inv(s)
    ensures Inv(After(s, step))
  {
    hide FirstLeast, WinnerOf, Without, LoadScore, ClaimsOk;
    match step
    case Open(task, now) =>
      OpenKeepsClaims(s, task, now);
    case Submit(task, bid) =>
      if IsPending(s, task) {
        SubmitKeepsRecord(s.records[task], bid);
        SamePending(s, After(s, step));
      }
    case BeginResolve(_, _, _) =>
      SamePending(s, After(s, step));
    case Wake(who, now, claimWorks) =>
      if CanWake(s, who, now) {
        var task, woken := s.asleep[who].task, s.(asleep := s.asleep - {who});
        SamePending(s, woken);
        WakeKeepsClaims(woken, task, claimWorks);
        if IsPending(woken, task) { CloseKeepsRecord(s.records[task], claimWorks); }
      }
  }

  lemma SamePending(s: State, s': State)
    requires ClaimsOk(s) && s'.claims == s.claims && s'.openings == s.openings
    requires forall t :: IsPending(s', t) <==> IsPending(s, t)
    ensures ClaimsOk(s')
  {
  }

  // ---------- Whole runs ----------

  /** Over any interleaving: one bid per agent, at most one claim per opening, the right winner. */
  lemma {:induction false} RunKeepsInv(s: State, steps: seq<Step>)
    requires Inv(s)
    ensures Inv(Run(s, steps))
    decreases |steps|
  {
    if steps != [] {
      StepKeepsInv(s, steps[0]);
      RunKeepsInv(After(s, steps[0]), steps[1..]);
    }
  }

  function ClaimsFor(claims: seq<Claim>, task: TaskId, opening: nat): nat {
    if claims == [] then 0
    else ClaimsFor(claims[..|claims| - 1], task, opening)
         + if claims[|claims| - 1].task == task && claims[|claims| - 1].opening == opening then 1 else 0
  }

  lemma {:induction false} AtMostOne(claims: seq<Claim>, task: TaskId, opening: nat)
    requires forall i, j :: 0 <= i < j < |claims| ==>
               claims[i].task != claims[j].task || claims[i].opening != claims[j].opening
    ensures ClaimsFor(claims, task, opening) <= 1
    ensures ClaimsFor(claims, task, opening) == 1 ==>
              exists i :: 0 <= i < |claims| && claims[i].task == task && claims[i].opening == opening
  {
    if claims != [] {
      var front := claims[..|claims| - 1];
      AtMostOne(front, task, opening);
      if ClaimsFor(front, task, opening) == 1 {
        var i :| 0 <= i < |front| && front[i].task == task && front[i].opening == opening;
        assert claims[i].task == task && claims[i].opening == opening;
      } else if claims[|claims| - 1].task == task && claims[|claims| - 1].opening == opening {
        assert claims[|claims| - 1].task == task;
      }
    }
  }

  /** From an empty loop, any number of resolvers together attempt at most one claim for each opening. */
  lemma OneClaimPerOpening(steps: seq<Step>, task: TaskId, opening: nat)
    ensures ClaimsFor(Run(State(map[], map[], map[], []), steps).claims, task, opening) <= 1
  {
    RunKeepsInv(State(map[], map[], map[], []), steps);
    AtMostOne(Run(State(map[], map[], map[], []), steps).claims, task, opening);
  }

  /** A closed auction takes no bids and is not closed again; only a new opening changes it. */
  lemma {:induction false} ClosedIsFinal(s: State, steps: seq<Step>, task: TaskId)
    requires task in s.records && s.records[task].status != Pending
    requires forall step :: step in steps && step.Open? ==> step.task != task
    ensures task in Run(s, steps).records && Run(s, steps).records[task] == s.records[task]
    decreases |steps|
  {
    if steps != [] {
      hide WinnerOf, Without;
      assert steps[0] in steps;
      ClosedIsFinal(After(s, steps[0]), steps[1..], task);
    }
  }

  // ---------- The bidding window ----------

  /** A resolver left over from before the current opening. */
  ghost predicate Leftover(s: State, who: nat, task: TaskId) {
    task in s.records && who in s.asleep && s.asleep[who].task == task && s.asleep[who].begun < s.records[task].openedAt
  }

  /** This step closes the pending auction of `task` before its window has passed. */
  ghost predicate ClosesEarly(s: State, step: Step, task: TaskId) {
    && IsPending(s, task) && !IsPending(After(s, step), task)
    && step.Wake? && step.now < s.records[task].openedAt + WINDOW_SECS
  }

  /** Steps happen at or after the opening in force and without a new one. */
  ghost predicate WithinOpening(steps: seq<Step>, task: TaskId, openedAt: int) {
    forall step :: step in steps ==>
      (step.Open? ==> step.task != task) && (step.BeginResolve? ==> step.now >= openedAt)
        && (step.Wake? ==> step.now >= openedAt)
  }

  /** Some step of the run closes the auction early. */
  ghost predicate SomeClosesEarly(s: State, steps: seq<Step>, task: TaskId)
    decreases |steps|
  {
    steps != [] && (ClosesEarly(s, steps[0], task) || SomeClosesEarly(After(s, steps[0]), steps[1..], task))
  }

  lemma StepKeepsNoLeftover(s: State, step: Step, task: TaskId)
    requires task in s.records && (forall who :: !Leftover(s, who, task))
             && WithinOpening([step], task, s.records[task].openedAt)
    ensures var s' := After(s, step);
            && !ClosesEarly(s, step, task)
            && task in s'.records && s'.records[task].openedAt == s.records[task].openedAt
            && forall who :: !Leftover(s', who, task)
  {
    hide WinnerOf, Without;
    assert step in [step];
    if step.Wake? && CanWake(s, step.who, step.now) {
      assert !Leftover(s, step.who, task);
    }
    var s' := After(s, step);
    forall who ensures !Leftover(s', who, task) {
      assert !Leftover(s, who, task);
    }
  }

  lemma {:induction false} NoLeftoverNoEarlyClose(s: State, steps: seq<Step>, task: TaskId)
    requires task in s.records && (forall who :: !Leftover(s, who, task))
             && WithinOpening(steps, task, s.records[task].openedAt)
    ensures !SomeClosesEarly(s, steps, task)
    decreases |steps|
  {
    if steps != [] {
      assert steps[0] in steps;
      StepKeepsNoLeftover(s, steps[0], task);
      NoLeftoverNoEarlyClose(After(s, steps[0]), steps[1..], task);
    }
  }

  /**
   A fresh opening keeps its whole window in every continuation exactly when no resolver of the same task
   is still asleep from before it: re-opening a task within five seconds lets the old resolver close the new auction.
   */
  lemma WindowKeptIff(s: State, task: TaskId)
    requires IsPending(s, task)
    ensures (forall steps :: WithinOpening(steps, task, s.records[task].openedAt) ==> !SomeClosesEarly(s, steps, task))
            <==> (forall who :: !Leftover(s, who, task))
  {
    if forall who :: !Leftover(s, who, task) {
      forall steps | WithinOpening(steps, task, s.records[task].openedAt) ensures !SomeClosesEarly(s, steps, task) {
        NoLeftoverNoEarlyClose(s, steps, task);
      }
    } else {
      var who :| Leftover(s, who, task);
      var due, openedAt := s.asleep[who].begun + WINDOW_SECS, s.records[task].openedAt;
      var wake := Wake(who, if due < openedAt then openedAt else due, true);
      assert ClosesEarly(s, wake, task);
      assert SomeClosesEarly(s, [wake], task) && WithinOpening([wake], task, openedAt);
    }
  }
}
