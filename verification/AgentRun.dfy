/**
 The AI runner: queued runs are claimed, gated by card kind, mode and origin, and dispatched or only planned.
 A card's run is the fold of its append-only events; only the part the runner relies on is modelled.
 */
module AgentRun {
  import opened Wrappers
  import opened ExecuteMux

  datatype State = Queued | Running | NeedsReview | Done | Failed

  datatype Event =
    | Request(mode: string)
    | Claim
    | SetState(state: State)
    | Activity(atype: string)
    | Move(column: string)

  type Log = seq<Event>

  function RunState(log: Log): Option<State> {
    if log == [] then None
    else match log[|log| - 1]
      case Request(_) => Some(Queued)
      case Claim => Some(Running)
      case SetState(s) => Some(s)
      case _ => RunState(log[..|log| - 1])
  }

  function RunMode(log: Log): string {
    if log == [] then "propose"
    else match log[|log| - 1]
      case Request(mode) => mode
      case _ => RunMode(log[..|log| - 1])
  }

  // ---------- The gate ----------

  predicate Gate(kind: string, mode: string, origin: Option<string>, changeStatus: Option<string>) {
    if mode == "propose" || mode == "dry-run" then true
    else if origin == Some("alert") || origin == Some("gtd") then true
    else if kind == "change" then changeStatus == Some("proposed") || changeStatus == Some("reviewing")
    else true
  }

  // ---------- One run ----------

  /** The activity of a reply; an entry that is no mapping is None. */
  datatype ActivityField = NotIterable | Items(items: seq<Option<string>>)

  /** The links of a reply: no mapping at all, or its keys and whether it has a draft PR. */
  datatype LinksField = NoMapping | Links(keys: set<string>, textKeys: bool, draftPr: bool)

  datatype Answer =
    | Raises
    | NotAMapping
    | Reply(activity: ActivityField, links: LinksField)

  /** What the runner meets during one tick. */
  datatype World = World(
    live: bool,
    origin: CardId -> Option<string>,      // the card as the runner folds it
    changeStatus: CardId -> Option<string>,
    routed: CardId -> Fold,                // the card as the mux folds it
    answer: CardId -> Answer,
    storeNames: set<string>,               // the card store's own parameter names
    linkFails: CardId -> bool)             // the draft PR cannot be attached to the change record

  /** The parameters of `set_state` that links are passed next to. */
  const TAKEN := {"home", "card_id", "run_id", "state", "writer"}

  /** Links that can be passed on as keyword arguments. */
  predicate Passable(l: LinksField, storeNames: set<string>) {
    l.Links? && l.textKeys && l.keys !! TAKEN && l.keys !! storeNames
  }

  predicate AllReadable(items: seq<Option<string>>) {
    forall i :: 0 <= i < |items| ==> items[i].Some?
  }

  predicate ActivityReadable(a: ActivityField) {
    a.Items? && AllReadable(a.items)
  }

  /** The runner can read the answer to the end, or the dispatcher raised. */
  predicate Usable(a: Answer, storeNames: set<string>) {
    a.Raises? || (a.Reply? && ActivityReadable(a.activity) && Passable(a.links, storeNames))
  }

  datatype Route = Gated | NotWired | Plan | Dispatch(to: Dispatcher, passedIn: bool)

  function RouteOf(id: CardId, kind: string, mode: string, wired: Option<Dispatcher>, passed: Option<Dispatcher>,
                   w: World): Route {
    var status := if kind == "change" && mode == "execute" then w.changeStatus(id) else None;
    if mode == "execute" && !Gate(kind, mode, w.origin(id), status) then Gated
    else if !w.live then Plan
    else if mode == "execute" then if wired.None? then NotWired else Dispatch(wired.value, false)
    else if passed.None? then Plan else Dispatch(passed.value, true)
  }

  const NOT_WIRED := Reply(Items([Some("elicitation")]), Links({}, true, false))

  /** A mux whose leg is missing answers for itself, with a note that nothing was dispatched. */
  function AnswerOf(d: Dispatcher, id: CardId, w: World): Answer {
    if Reaches(d, id, w.routed(id)).None? then NOT_WIRED else w.answer(id)
  }

  predicate IsChangeId(id: CardId) {
    "chg-" <= id
  }

  /** The reply's draft PR is attached to the change record; this comes before the state is set. */
  predicate LinksPr(id: CardId, mode: string, a: Answer) {
    && a.Reply? && ActivityReadable(a.activity) && a.links.Links? && a.links.draftPr
    && mode == "execute" && IsChangeId(id)
  }

  /** The entries up to the first unreadable one. */
  function Notes(items: seq<Option<string>>): Log {
    if items == [] || items[0].None? then [] else [Activity(items[0].value)] + Notes(items[1..])
  }

  lemma {:induction false} NotesPrefix(items: seq<Option<string>>, i: nat)
    requires i <= |items| && AllReadable(items[..i])
    ensures i < |items| && items[i].None? ==> Notes(items) == Notes(items[..i])
    ensures i < |items| && items[i].Some? ==> Notes(items[..i + 1]) == Notes(items[..i]) + [Activity(items[i].value)]
    ensures i == |items| ==> items[..i] == items
    decreases i
  {
    if i > 0 {
      var rest := items[1..i];
      assert items[..i][0] == items[0] && items[..i][1..] == rest == items[1..][..i - 1];
      forall k | 0 <= k < |rest| ensures rest[k].Some? {
        assert rest[k] == items[..i][k + 1];
      }
      NotesPrefix(items[1..], i - 1);
      if i < |items| { assert items[..i + 1][1..] == items[1..][..i]; }
    }
  }

  /** What is appended for a reply before its state is set, or before an unreadable field ends the run. */
  function ReplyHead(id: CardId, mode: string, a: Answer, linkFails: bool): Log
    requires a.Reply?
  {
    if a.activity.NotIterable? then []
    else Notes(a.activity.items)
         + (if AllReadable(a.activity.items) then [Activity("response")] else [])
         + (if LinksPr(id, mode, a) && linkFails then [Activity("error")] else [])
  }

  function ReplyReport(id: CardId, mode: string, a: Answer, linkFails: bool, storeNames: set<string>): Log
    requires a.Reply?
  {
    ReplyHead(id, mode, a, linkFails)
    + (if Usable(a, storeNames) then [SetState(NeedsReview), Move("review")] else [])
  }

  /** Everything the runner appends after claiming, by route. */
  function Report(route: Route, id: CardId, mode: string, w: World): Log {
    match route
    case Gated => [Activity("elicitation")] + [] + [SetState(NeedsReview), Move("review")]
    case NotWired => [Activity("elicitation")] + [Activity("response")] + [SetState(NeedsReview), Move("review")]
    case Plan => [Activity("action")] + [Activity("response")] + [SetState(NeedsReview), Move("review")]
    case Dispatch(d, _) =>
      var a := AnswerOf(d, id, w);
      if a.Raises? then [Activity("error"), SetState(Failed)]
      else if a.NotAMapping? then []
      else ReplyReport(id, mode, a, w.linkFails(id), w.storeNames)
  }

  /** The change record that gets a draft PR attached. */
  function Linking(route: Route, id: CardId, mode: string, w: World): seq<CardId> {
    if route.Dispatch? && LinksPr(id, mode, AnswerOf(route.to, id, w)) && !w.linkFails(id) then [id] else []
  }

  function ProcessedTail(route: Route, id: CardId, mode: string, w: World): Log {
    [Claim, Activity("thought")] + Report(route, id, mode, w)
  }

  function ProcessedLog(log: Log, route: Route, id: CardId, w: World): Log {
    log + ProcessedTail(route, id, RunMode(log), w)
  }

  /** An exception leaves `process_one`, and with it the tick: only the call itself is inside the try. */
  predicate Escapes(route: Route, id: CardId, w: World) {
    route.Dispatch? && !Usable(AnswerOf(route.to, id, w), w.storeNames)
  }

  lemma {:induction false} QuietTail(log: Log, tail: Log)
    requires forall e :: e in tail ==> e.Activity? || e.Move?
    ensures RunState(log + tail) == RunState(log)
    decreases |tail|
  {
    if tail == [] {
      assert log + tail == log;
    } else {
      var front := tail[..|tail| - 1];
      assert (log + tail)[..|log + tail| - 1] == log + front;
      assert tail[|tail| - 1] in tail;
      QuietTail(log, front);
    }
  }

  lemma {:induction false} NotesAreActivity(items: seq<Option<string>>)
    ensures forall e :: e in Notes(items) ==> e.Activity?
  {
    if items != [] { NotesAreActivity(items[1..]); }
  }

  lemma StateAfter(log: Log, report: Log)
    requires |report| >= 2 && report[|report| - 2].SetState? && report[|report| - 1].Move?
    ensures RunState(log + report) == Some(report[|report| - 2].state)
  {
    var all := log + report;
    assert all[..|all| - 1][|all| - 2] == report[|report| - 2];
  }

  lemma EscapedReport(route: Route, id: CardId, mode: string, w: World)
    requires Escapes(route, id, w)
    ensures forall e :: e in Report(route, id, mode, w) ==> e.Activity?
  {
    hide AnswerOf, LinksPr, AllReadable, Passable;
    var a := AnswerOf(route.to, id, w);
    if a.Reply? && a.activity.Items? { NotesAreActivity(a.activity.items); }
  }

  /** A run whose answer cannot be read to the end stays claimed, whatever was appended before that. */
  lemma EscapedStaysRunning(log: Log, route: Route, id: CardId, w: World)
    requires Escapes(route, id, w)
    ensures RunState(ProcessedLog(log, route, id, w)) == Some(Running)
  {
    hide Escapes, Report;
    var report := Report(route, id, RunMode(log), w);
    EscapedReport(route, id, RunMode(log), w);
    var claimed, tail := log + [Claim], [Activity("thought")] + report;
    QuietTail(claimed, tail);
    assert ProcessedLog(log, route, id, w) == claimed + tail;
  }

  lemma UnescapedEnds(log: Log, route: Route, id: CardId, w: World)
    requires !Escapes(route, id, w)
    ensures RunState(ProcessedLog(log, route, id, w))
            == Some(if route.Dispatch? && AnswerOf(route.to, id, w).Raises? then Failed else NeedsReview)
  {
    var report := Report(route, id, RunMode(log), w);
    var claimed := log + [Claim, Activity("thought")];
    assert ProcessedLog(log, route, id, w) == claimed + report;
    if route.Dispatch? && AnswerOf(route.to, id, w).Raises? {
      assert (claimed + report)[|claimed + report| - 1] == SetState(Failed);
    } else {
      hide ReplyHead;
      StateAfter(claimed, report);
    }
  }

  /**
   A processed run ends in review; or failed, exactly when its dispatcher raised; or it stays claimed for
   good, exactly when the answer is no mapping, its activity or one of its entries cannot be read, or its
   links cannot be passed on.
   */
  lemma EndsReviewedOrFailed(log: Log, route: Route, id: CardId, w: World)
    ensures var end := RunState(ProcessedLog(log, route, id, w));
            && end in {Some(Failed), Some(Running), Some(NeedsReview)}
            && (end == Some(Failed) <==> route.Dispatch? && AnswerOf(route.to, id, w).Raises?)
            && (end == Some(Running) <==>
                  route.Dispatch?
                  && var a := AnswerOf(route.to, id, w);
                     || a.NotAMapping?
                     || (a.Reply? && (|| a.activity.NotIterable?
                                      || (exists i :: 0 <= i < |a.activity.items| && a.activity.items[i].None?)
                                      || a.links.NoMapping? || !a.links.textKeys
                                      || !(a.links.keys !! TAKEN) || !(a.links.keys !! w.storeNames))))
  {
    hide ProcessedLog, RunState;
    if Escapes(route, id, w) { EscapedStaysRunning(log, route, id, w); } else { UnescapedEnds(log, route, id, w); }
  }

  // ---------- Calls to executors ----------

  /** One call that reached an executor, with everything read for it. */
  datatype Call = Call(id: CardId, kind: string, mode: string, origin: Option<string>, changeStatus: Option<string>,
                       via: Dispatcher, passedIn: bool, routed: Fold, executor: string)

  function CallsOf(route: Route, id: CardId, kind: string, mode: string, w: World): seq<Call> {
    if route.Dispatch? && Reaches(route.to, id, w.routed(id)).Some? then
      [Call(id, kind, mode, w.origin(id), w.changeStatus(id), route.to, route.passedIn, w.routed(id),
            Reaches(route.to, id, w.routed(id)).value)]
    else []
  }

  lemma NoCall(route: Route, id: CardId, kind: string, mode: string, w: World)
    ensures !route.Dispatch? ==> CallsOf(route, id, kind, mode, w) == []
    ensures !route.Dispatch? ==> Linking(route, id, mode, w) == [] && !Escapes(route, id, w)
    ensures !route.Dispatch? ==>
              Report(route, id, mode, w) == [Activity(if route.Plan? then "action" else "elicitation")]
                + (if route.Gated? then [] else [Activity("response")]) + [SetState(NeedsReview), Move("review")]
  {
  }

  /**
   The dispatcher a run is handed to when live: one in a mode other than execute to the one passed in; an execute run
   to the wired one if the card is from alert or gtd, is no change, or is a change still proposed or reviewing.
   */
  function HandedTo(id: CardId, kind: string, mode: string, wired: Option<Dispatcher>, passed: Option<Dispatcher>,
                    w: World): Option<Dispatcher> {
    if !w.live then None
    else if mode != "execute" then passed
    else if || w.origin(id) == Some("alert") || w.origin(id) == Some("gtd") || kind != "change"
            || w.changeStatus(id) == Some("proposed") || w.changeStatus(id) == Some("reviewing") then wired
    else None
  }

  /** The calls this makes: one, of the executor at the end of the comms legs or of the code legs, if there is one. */
  function CallsMade(id: CardId, kind: string, mode: string, to: Option<Dispatcher>, w: World): seq<Call> {
    if to.None? then []
    else
      var executor := AlongLegs(to.value, SeenAsComms(id, w.routed(id)));
      if executor.None? then []
      else [Call(id, kind, mode, w.origin(id), w.changeStatus(id), to.value, mode != "execute", w.routed(id),
                 executor.value)]
  }

  lemma WhoIsCalled(id: CardId, kind: string, mode: string, wired: Option<Dispatcher>, passed: Option<Dispatcher>,
                    w: World)
    ensures CallsOf(RouteOf(id, kind, mode, wired, passed, w), id, kind, mode, w)
            == CallsMade(id, kind, mode, HandedTo(id, kind, mode, wired, passed, w), w)
  {
    var to := HandedTo(id, kind, mode, wired, passed, w);
    if to.Some? { MuxRoutes(to.value, id, w.routed(id)); }
  }

  /** The log after one processed run that no dispatcher handled. */
  lemma UndispatchedRecord(log: Log, id: CardId, kind: string, wired: Option<Dispatcher>, passed: Option<Dispatcher>,
                           w: World)
    requires var mode := RunMode(log); HandedTo(id, kind, mode, wired, passed, w).None?
    ensures var mode := RunMode(log);
            var allowed := || mode != "execute" || w.origin(id) == Some("alert") || w.origin(id) == Some("gtd")
                           || kind != "change" || w.changeStatus(id) == Some("proposed")
                           || w.changeStatus(id) == Some("reviewing");
            ProcessedLog(log, RouteOf(id, kind, mode, wired, passed, w), id, w)
            == log + [Claim, Activity("thought")]
               + (if !allowed then [Activity("elicitation")]
                  else if mode == "execute" && w.live then [Activity("elicitation"), Activity("response")]
                  else [Activity("action"), Activity("response")])
               + [SetState(NeedsReview), Move("review")]
  {
    var mode := RunMode(log);
    var route := RouteOf(id, kind, mode, wired, passed, w);
    NoCall(route, id, kind, mode, w);
    hide Report;
    var claim, tail := [Claim, Activity("thought")], [SetState(NeedsReview), Move("review")];
    var first := if route.Plan? then "action" else "elicitation";
    if !route.Gated? {
      assert [Activity(first)] + [Activity("response")] == [Activity(first), Activity("response")];
    }
    assert log + (claim + ([Activity(first)] + [] + tail)) == log + claim + [Activity(first)] + tail;
    assert log + (claim + ([Activity(first)] + [Activity("response")] + tail))
           == log + claim + [Activity(first), Activity("response")] + tail;
  }

  /** An activity field all of whose entries can be read. */
  function Entries(notes: seq<string>): seq<Option<string>> {
    if notes == [] then [] else [Some(notes[0])] + Entries(notes[1..])
  }

  function Activities(notes: seq<string>): (log: Log)
    ensures |log| == |notes| && forall i :: 0 <= i < |notes| ==> log[i] == Activity(notes[i])
  {
    if notes == [] then [] else [Activity(notes[0])] + Activities(notes[1..])
  }

  /**
   The log after a run whose dispatcher was called: an error and the failure when it raised; else the activity it
   reports, in order, a response, an error if the draft PR of an execute run of a change could not be attached,
   and the move to review.
   */
  lemma DispatchedRecord(log: Log, id: CardId, kind: string, wired: Option<Dispatcher>, passed: Option<Dispatcher>,
                         w: World, notes: seq<string>)
    requires var mode := RunMode(log);
             var to := HandedTo(id, kind, mode, wired, passed, w);
             to.Some? && AlongLegs(to.value, SeenAsComms(id, w.routed(id))).Some?
    requires w.answer(id).Reply? ==>
               && w.answer(id).activity == Items(Entries(notes))
               && Passable(w.answer(id).links, w.storeNames)
    ensures var mode, a := RunMode(log), w.answer(id);
            var route := RouteOf(id, kind, mode, wired, passed, w);
            var after := ProcessedLog(log, route, id, w);
            var claimed := log + [Claim, Activity("thought")];
            var pr := a.Reply? && a.links.draftPr && mode == "execute" && "chg-" <= id;
            && (a.Raises? ==> after == claimed + [Activity("error"), SetState(Failed)])
            && (a.NotAMapping? ==> after == claimed)
            && (a.Reply? ==>
                  after == claimed + Activities(notes)
                           + ([Activity("response")] + (if pr && w.linkFails(id) then [Activity("error")] else [])
                              + [SetState(NeedsReview), Move("review")]))
            && Linking(route, id, mode, w) == if pr && !w.linkFails(id) then [id] else []
  {
    var mode, a := RunMode(log), w.answer(id);
    var to := HandedTo(id, kind, mode, wired, passed, w).value;
    var route := RouteOf(id, kind, mode, wired, passed, w);
    MuxRoutes(to, id, w.routed(id));
    assert route == Dispatch(to, mode != "execute") && AnswerOf(to, id, w) == a;
    hide RouteOf, HandedTo, AnswerOf, Reaches;
    Claimed(log, Report(route, id, mode, w));
    if a.Reply? {
      hide ReplyReport, ProcessedLog;
      ReplyRecord(id, mode, a, w.linkFails(id), w.storeNames, notes);
      Claimed(log, Activities(notes));
    }
  }

  lemma Claimed(log: Log, report: Log)
    ensures log + ([Claim, Activity("thought")] + report) == log + [Claim, Activity("thought")] + report
  {
  }

  lemma ReplyRecord(id: CardId, mode: string, a: Answer, linkFails: bool, storeNames: set<string>, notes: seq<string>)
    requires a.Reply? && Passable(a.links, storeNames)
    requires a.activity == Items(Entries(notes))
    ensures LinksPr(id, mode, a) <==> a.links.draftPr && mode == "execute" && "chg-" <= id
    ensures ReplyReport(id, mode, a, linkFails, storeNames)
            == Activities(notes)
               + ([Activity("response")] + (if LinksPr(id, mode, a) && linkFails then [Activity("error")] else [])
                  + [SetState(NeedsReview), Move("review")])
  {
    AllNotes(notes);
    hide Notes, AllReadable;
    var body := Activities(notes);
    var pr := if LinksPr(id, mode, a) && linkFails then [Activity("error")] else [];
    var tail := [SetState(NeedsReview), Move("review")];
    assert body + [Activity("response")] + pr + tail == body + ([Activity("response")] + pr + tail);
  }

  /** A mux whose leg is missing calls nobody, and the run goes to review with a note. */
  lemma UnwiredLegRecord(log: Log, id: CardId, kind: string, wired: Option<Dispatcher>, passed: Option<Dispatcher>,
                         w: World)
    requires var to := HandedTo(id, kind, RunMode(log), wired, passed, w);
             to.Some? && AlongLegs(to.value, SeenAsComms(id, w.routed(id))).None?
    ensures ProcessedLog(log, RouteOf(id, kind, RunMode(log), wired, passed, w), id, w)
            == log + [Claim, Activity("thought"), Activity("elicitation"), Activity("response"),
                      SetState(NeedsReview), Move("review")]
  {
    var mode := RunMode(log);
    var to := HandedTo(id, kind, mode, wired, passed, w).value;
    var route := RouteOf(id, kind, mode, wired, passed, w);
    MuxRoutes(to, id, w.routed(id));
    assert route == Dispatch(to, mode != "execute") && AnswerOf(to, id, w) == NOT_WIRED;
    hide RouteOf, HandedTo, AnswerOf, Reaches, ReplyReport;
    ReplyRecord(id, mode, NOT_WIRED, w.linkFails(id), w.storeNames, ["elicitation"]);
    assert Activities(["elicitation"]) == [Activity("elicitation")];
    var rest := [Activity("response")] + [] + [SetState(NeedsReview), Move("review")];
    assert log + ([Claim, Activity("thought")] + ([Activity("elicitation")] + rest))
           == log + [Claim, Activity("thought"), Activity("elicitation"), Activity("response"),
                     SetState(NeedsReview), Move("review")];
  }

  lemma {:induction false} AllNotes(notes: seq<string>)
    ensures AllReadable(Entries(notes)) && Notes(Entries(notes)) == Activities(notes)
  {
    if notes != [] { AllNotes(notes[1..]); }
  }

  predicate FromComms(origin: Option<string>) {
    origin == Some("alert") || origin == Some("gtd")
  }

  /** The safety law of a single call. */
  predicate Lawful(c: Call) {
    && (c.mode == "execute" ==> !c.passedIn)
    && (c.mode == "execute" && c.kind == "change" && !FromComms(c.origin) ==>
          c.changeStatus == Some("proposed") || c.changeStatus == Some("reviewing"))
    && Reaches(c.via, c.id, c.routed) == Some(c.executor)
  }

  lemma CallIsLawful(id: CardId, kind: string, mode: string, wired: Option<Dispatcher>, passed: Option<Dispatcher>,
                     w: World)
    ensures forall c :: c in CallsOf(RouteOf(id, kind, mode, wired, passed, w), id, kind, mode, w) ==> Lawful(c)
    ensures mode == "execute" && kind == "change" && !FromComms(w.origin(id))
            && w.changeStatus(id) != Some("proposed") && w.changeStatus(id) != Some("reviewing")
            ==> RouteOf(id, kind, mode, wired, passed, w) == Gated
  {
  }

  // ---------- A whole tick ----------

  type Store = map<CardId, Log>

  /** The store after appending to one card's log. */
  function Extended(store: Store, id: CardId, tail: Log): (r: Store)
    requires id in store
    ensures r.Keys == store.Keys && r[id] == store[id] + tail
    ensures forall other :: other in store && other != id ==> r[other] == store[other]
  {
    store[id := store[id] + tail]
  }

  lemma ExtendTwice(store: Store, id: CardId, a: Log, b: Log)
    requires id in store
    ensures Extended(Extended(store, id, a), id, b) == Extended(store, id, a + b)
  {
    assert store[id] + a + b == store[id] + (a + b);
  }

  ghost predicate Distinct(ids: seq<CardId>) {
    forall i, j :: 0 <= i < j < |ids| ==> ids[i] != ids[j]
  }

  ghost predicate Lists(listing: seq<CardId>, ids: set<CardId>) {
    && Distinct(listing)
    && (forall id :: id in listing <==> id in ids)
  }

  predicate IsQueued(store: Store, id: CardId) {
    id in store && RunState(store[id]) == Some(Queued)
  }

  /** `list_queued`, in the order the store lists its cards. */
  function ListQueued(listing: seq<CardId>, store: Store): (r: seq<CardId>)
    ensures forall id :: id in r <==> id in listing && IsQueued(store, id)
  {
    if listing == [] then []
    else (if IsQueued(store, listing[0]) then [listing[0]] else []) + ListQueued(listing[1..], store)
  }

  lemma {:induction false} ListQueuedOnce(listing: seq<CardId>, store: Store)
    requires Distinct(listing)
    ensures Distinct(ListQueued(listing, store))
  {
    if listing != [] {
      var rest := ListQueued(listing[1..], store);
      assert listing[0] !in listing[1..];
      ListQueuedOnce(listing[1..], store);
      PrependDistinct(listing[0], rest);
    }
  }

  lemma PrependDistinct(id: CardId, rest: seq<CardId>)
    requires Distinct(rest) && id !in rest
    ensures Distinct([id] + rest) && [] + rest == rest
  {
  }

  /** The settings of a runner during one tick. */
  datatype Setup = Setup(kind: CardId -> string, wired: Option<Dispatcher>, passed: Option<Dispatcher>)

  function RouteIn(store: Store, id: CardId, s: Setup, w: World): Route
    requires id in store
  {
    RouteOf(id, s.kind(id), RunMode(store[id]), s.wired, s.passed, w)
  }

  /** Process the picked runs in order, up to and including the first one whose exception escapes. */
  function Processed(store: Store, picked: seq<CardId>, s: Setup, w: World): Store
    requires forall id :: id in picked ==> id in store
  {
    if picked == [] then store
    else
      var id := picked[0];
      var route := RouteIn(store, id, s, w);
      var next := Extended(store, id, ProcessedTail(route, id, RunMode(store[id]), w));
      if Escapes(route, id, w) then next else Processed(next, picked[1..], s, w)
  }

  function CallsDuring(store: Store, picked: seq<CardId>, s: Setup, w: World): seq<Call>
    requires forall id :: id in picked ==> id in store
  {
    if picked == [] then []
    else
      var id := picked[0];
      var route := RouteIn(store, id, s, w);
      var next := Extended(store, id, ProcessedTail(route, id, RunMode(store[id]), w));
      CallsOf(route, id, s.kind(id), RunMode(store[id]), w)
      + if Escapes(route, id, w) then [] else CallsDuring(next, picked[1..], s, w)
  }

  /** What processing one queued run does to the store and which executors it calls. */
  ghost predicate OneProcessed(store: Store, id: CardId, s: Setup, w: World, next: Store, now: seq<Call>, escaped: bool)
    requires id in store
  {
    var route, mode := RouteIn(store, id, s, w), RunMode(store[id]);
    && next == Extended(store, id, ProcessedTail(route, id, mode, w))
    && now == CallsOf(route, id, s.kind(id), mode, w)
    && escaped == Escapes(route, id, w)
  }

  /** After `i` picked runs: what is left to do completes the tick. */
  ghost predicate Midway(store0: Store, store: Store, made: seq<Call>, picked: seq<CardId>, i: nat, s: Setup,
                         w: World) {
    && i <= |picked|
    && (forall id :: id in picked ==> id in store && id in store0)
    && Processed(store, picked[i..], s, w) == Processed(store0, picked, s, w)
    && made + CallsDuring(store, picked[i..], s, w) == CallsDuring(store0, picked, s, w)
  }

  lemma ProcessedStep(store: Store, picked: seq<CardId>, s: Setup, w: World)
    requires picked != [] && forall id :: id in picked ==> id in store
    ensures var id := picked[0];
            var route := RouteIn(store, id, s, w);
            var next := Extended(store, id, ProcessedTail(route, id, RunMode(store[id]), w));
            && Processed(store, picked, s, w)
               == (if Escapes(route, id, w) then next else Processed(next, picked[1..], s, w))
            && CallsDuring(store, picked, s, w)
               == CallsOf(route, id, s.kind(id), RunMode(store[id]), w)
                  + (if Escapes(route, id, w) then [] else CallsDuring(next, picked[1..], s, w))
  {
  }

  /** One more picked run: the tick is over when its exception escapes, and further along otherwise. */
  lemma MidwayStep(store0: Store, store: Store, made: seq<Call>, picked: seq<CardId>, i: nat, s: Setup, w: World,
                   next: Store, now: seq<Call>, escaped: bool)
    requires Midway(store0, store, made, picked, i, s, w) && i < |picked|
    requires picked[i] in store && OneProcessed(store, picked[i], s, w, next, now, escaped)
    ensures if escaped then next == Processed(store0, picked, s, w) && made + now == CallsDuring(store0, picked, s, w)
            else Midway(store0, next, made + now, picked, i + 1, s, w)
  {
    hide Extended, Escapes, CallsOf, RouteIn, ProcessedTail, Processed, CallsDuring, RunMode;
    var id, rest := picked[i], picked[i + 1..];
    assert picked[i..][1..] == rest && picked[i..][0] == id;
    ProcessedStep(store, picked[i..], s, w);
    if escaped {
      assert now + [] == now;
    } else {
      assert (made + now) + CallsDuring(next, rest, s, w) == made + (now + CallsDuring(next, rest, s, w));
    }
  }

  lemma MidwayEnds(store0: Store, store: Store, made: seq<Call>, picked: seq<CardId>, s: Setup, w: World)
    requires forall id :: id in picked ==> id in store0.Keys
    ensures Midway(store0, store0, [], picked, 0, s, w)
    ensures Midway(store0, store, made, picked, |picked|, s, w) ==>
              store == Processed(store0, picked, s, w) && made == CallsDuring(store0, picked, s, w)
  {
    assert picked[0..] == picked;
    assert picked[|picked|..] == [];
  }

  class AiRunner {
    const comms: Dispatcher
    const kind: CardId -> string
    var store: Store
    var executeDispatcher: Option<Dispatcher>
    var linked: seq<CardId>            // change records that got a draft PR attached
    ghost var calls: seq<Call>

    ghost predicate Valid()
      reads this
    {
      forall c :: c in calls ==> Lawful(c)
    }

    constructor (kind: CardId -> string, comms: Dispatcher, store: Store)
      ensures Valid() && executeDispatcher == None && this.store == store && calls == []
      ensures this.comms == comms && this.kind == kind
    {
      this.kind, this.comms, this.store := kind, comms, store;
      executeDispatcher, linked, calls := None, [], [];
    }

    method SetExecuteDispatcher(d: Option<Dispatcher>)
      requires Valid()
      modifies this`executeDispatcher
      ensures Valid() && executeDispatcher == d
    {
      executeDispatcher := d;
    }

    method MaybeWireExecuteBridge(enabled: bool, built: Option<Dispatcher>)
      requires Valid()
      modifies this`executeDispatcher
      ensures Valid()
      ensures executeDispatcher == if enabled && old(executeDispatcher).None? then built else old(executeDispatcher)
    {
      if !enabled {
        return;
      }
      if executeDispatcher.Some? {
        return;
      }
      if built.None? {
        return;
      }
      SetExecuteDispatcher(built);
    }

    method MaybeWireExecuteMux()
      requires Valid()
      modifies this`executeDispatcher
      ensures Valid() && executeDispatcher == Some(Wrapped(old(executeDispatcher), comms))
      ensures executeDispatcher.value.Mux?
    {
      if executeDispatcher.Some? && executeDispatcher.value.Mux? {
        return;
      }
      SetExecuteDispatcher(Some(Mux(executeDispatcher, Some(comms))));
    }

    method Append(id: CardId, e: Event)
      requires id in store
      modifies this`store
      ensures store == Extended(old(store), id, [e])
    {
      store := store[id := store[id] + [e]];
    }

    method MoveToReview(id: CardId)
      requires id in store
      modifies this`store
      ensures store == Extended(old(store), id, [SetState(NeedsReview), Move("review")])
    {
      Append(id, SetState(NeedsReview));
      Append(id, Move("review"));
      ExtendTwice(old(store), id, [SetState(NeedsReview)], [Move("review")]);
      assert [SetState(NeedsReview)] + [Move("review")] == [SetState(NeedsReview), Move("review")];
    }

    /** Append entries until one cannot be read. */
    method AppendActivity(id: CardId, items: seq<Option<string>>) returns (ok: bool)
      requires id in store
      modifies this`store
      ensures store == Extended(old(store), id, Notes(items)) && ok == AllReadable(items)
    {
      var i := 0;
      assert store[id] + Notes([]) == store[id];
      assert store == store[id := store[id]];
      while i < |items|
        invariant 0 <= i <= |items| && id in old(store) && AllReadable(items[..i])
        invariant store == Extended(old(store), id, Notes(items[..i]))
      {
        NotesPrefix(items, i);
        if items[i].None? {
          return false;
        }
        Append(id, Activity(items[i].value));
        ExtendTwice(old(store), id, Notes(items[..i]), [Activity(items[i].value)]);
        i := i + 1;
      }
      NotesPrefix(items, i);
      return true;
    }

    /**
     Record a reply: its activity, the response, the link to the change record, the new state.  None of
     this is inside a try, so an unreadable field ends the run where it is met.
     */
    method RecordReply(id: CardId, mode: string, a: Answer, linkFails: bool, storeNames: set<string>)
      returns (escaped: bool)
      requires id in store && a.Reply?
      modifies this`store, this`linked
      ensures store == Extended(old(store), id, ReplyReport(id, mode, a, linkFails, storeNames))
      ensures linked == old(linked) + if LinksPr(id, mode, a) && !linkFails then [id] else []
      ensures escaped == !Usable(a, storeNames)
    {
      ghost var store0 := store;
      assert store0[id] + [] == store0[id] && store0 == store0[id := store0[id]];
      hide Extended;
      if a.activity.NotIterable? {
        return true;
      }
      var items := a.activity.items;
      ghost var so_far := Notes(items);
      var readable := AppendActivity(id, items);
      assert so_far + [] + [] + [] == so_far;
      if !readable {
        return true;
      }
      Append(id, Activity("response"));
      ExtendTwice(store0, id, so_far, [Activity("response")]);
      so_far := so_far + [Activity("response")];
      assert so_far + [] == so_far;
      if mode == "execute" && IsChangeId(id) {
        if a.links.NoMapping? {
          return true;
        }
        if a.links.draftPr {
          if linkFails {
            Append(id, Activity("error"));
            ExtendTwice(store0, id, so_far, [Activity("error")]);
            so_far := so_far + [Activity("error")];
          } else {
            linked := linked + [id];
          }
        }
      }
      assert so_far == ReplyHead(id, mode, a, linkFails) && so_far + [] == so_far;
      if !Passable(a.links, storeNames) {
        return true;
      }
      MoveToReview(id);
      ExtendTwice(store0, id, so_far, [SetState(NeedsReview), Move("review")]);
      return false;
    }

    /** Call a dispatcher and record what comes back. */
    method CallDispatcher(id: CardId, mode: string, d: Dispatcher, passedIn: bool, w: World) returns (escaped: bool)
      requires id in store
      modifies this`store, this`linked, this`calls
      ensures var route := Dispatch(d, passedIn);
              && escaped == Escapes(route, id, w)
              && store == Extended(old(store), id, Report(route, id, mode, w))
              && calls == old(calls) + CallsOf(route, id, kind(id), mode, w)
              && linked == old(linked) + Linking(route, id, mode, w)
    {
      hide Reaches;
      var reached := Reaches(d, id, w.routed(id));
      if reached.Some? {
        calls := calls + [Call(id, kind(id), mode, w.origin(id), w.changeStatus(id), d, passedIn, w.routed(id),
                               reached.value)];
      }
      var answer := AnswerOf(d, id, w);
      match answer
      case Raises =>
        Append(id, Activity("error"));
        Append(id, SetState(Failed));
        ExtendTwice(old(store), id, [Activity("error")], [SetState(Failed)]);
        assert [Activity("error")] + [SetState(Failed)] == [Activity("error"), SetState(Failed)];
        escaped := false;
      case NotAMapping =>
        assert store[id] + [] == store[id] && store == store[id := store[id]];
        escaped := true;
      case Reply(_, _) =>
        hide Extended, ReplyReport;
        escaped := RecordReply(id, mode, answer, w.linkFails(id), w.storeNames);
    }

    /** The notes of a run that no dispatcher handled, and its move to review. */
    method RecordUndispatched(id: CardId, first: string, second: Option<string>)
      requires id in store
      modifies this`store
      ensures store == Extended(old(store), id,
                                [Activity(first)]
                                + (if second.Some? then [Activity(second.value)] else [])
                                + [SetState(NeedsReview), Move("review")])
    {
      hide Extended;
      ghost var store0, so_far := store, [Activity(first)];
      Append(id, Activity(first));
      if second.Some? {
        Append(id, Activity(second.value));
        ExtendTwice(store0, id, so_far, [Activity(second.value)]);
        so_far := so_far + [Activity(second.value)];
      }
      MoveToReview(id);
      ExtendTwice(store0, id, so_far, [SetState(NeedsReview), Move("review")]);
      assert so_far == [Activity(first)] + (if second.Some? then [Activity(second.value)] else []);
    }

    /** Claim and process one queued run; `escaped` is an exception the runner does not catch. */
    method ProcessOne(id: CardId, passed: Option<Dispatcher>, w: World) returns (escaped: bool, ghost now: seq<Call>)
      requires Valid() && id in store
      modifies this`store, this`linked, this`calls
      ensures Valid() && calls == old(calls) + now
      ensures store.Keys == old(store).Keys
      ensures OneProcessed(old(store), id, Setup(kind, executeDispatcher, passed), w, store, now, escaped)
      ensures var mode := RunMode(old(store)[id]);
              now == CallsMade(id, kind(id), mode, HandedTo(id, kind(id), mode, executeDispatcher, passed, w), w)
      ensures var route := RouteIn(old(store), id, Setup(kind, executeDispatcher, passed), w);
              linked == old(linked) + Linking(route, id, RunMode(old(store)[id]), w)
    {
      hide Extended, Report, Lawful, CallsOf, CallsMade, HandedTo, Linking, Escapes;
      var mode := RunMode(store[id]);
      ghost var route := RouteIn(store, id, Setup(kind, executeDispatcher, passed), w);
      now := CallsOf(route, id, kind(id), mode, w);
      NoCall(route, id, kind(id), mode, w);
      CallIsLawful(id, kind(id), mode, executeDispatcher, passed, w);
      WhoIsCalled(id, kind(id), mode, executeDispatcher, passed, w);
      ghost var store0, claim := store, [Claim, Activity("thought")];
      Append(id, Claim);
      Append(id, Activity("thought"));
      ExtendTwice(store0, id, [Claim], [Activity("thought")]);
      assert [Claim] + [Activity("thought")] == claim;
      ExtendTwice(store0, id, claim, Report(route, id, mode, w));
      var origin := w.origin(id);
      var status := None;
      if kind(id) == "change" && mode == "execute" {
        status := w.changeStatus(id);
      }
      escaped := false;
      if mode == "execute" && !Gate(kind(id), mode, origin, status) {
        RecordUndispatched(id, "elicitation", None);
        return;
      }
      if w.live {
        var dispatcher := if mode == "execute" then executeDispatcher else passed;
        if mode == "execute" && dispatcher.None? {
          RecordUndispatched(id, "elicitation", Some("response"));
          return;
        }
        if dispatcher.Some? {
          escaped := CallDispatcher(id, mode, dispatcher.value, mode != "execute", w);
          return;
        }
      }
      RecordUndispatched(id, "action", Some("response"));
    }

    /** The tick's loop over the runs it picked. */
    method ProcessPicked(picked: seq<CardId>, passed: Option<Dispatcher>, w: World)
      requires Valid() && forall id :: id in picked ==> id in store.Keys
      modifies this`store, this`linked, this`calls
      ensures Valid()
      ensures var s := Setup(kind, executeDispatcher, passed);
              && store == Processed(old(store), picked, s, w)
              && calls == old(calls) + CallsDuring(old(store), picked, s, w)
    {
      ghost var s := Setup(kind, executeDispatcher, passed);
      ghost var store0, calls0, made: seq<Call> := store, calls, [];
      hide *;
      MidwayEnds(store0, store, [], picked, s, w);
      var i := 0;
      while i < |picked|
        invariant 0 <= i <= |picked| && Valid()
        invariant store.Keys == store0.Keys
        invariant Midway(store0, store, made, picked, i, s, w)
        invariant calls == calls0 + made
      {
        ghost var before := store;
        var escaped, now := ProcessOne(picked[i], passed, w);
        MidwayStep(store0, before, made, picked, i, s, w, store, now, escaped);
        made := made + now;
        if escaped {
          return;
        }
        i := i + 1;
      }
      MidwayEnds(store0, store, made, picked, s, w);
    }

    /** One scheduler tick over at most `limit` queued runs. */
    method RunOnce(listing: seq<CardId>, passed: Option<Dispatcher>, limit: nat, w: World)
      requires Valid() && Lists(listing, store.Keys)
      modifies this`store, this`linked, this`calls
      ensures Valid()
      ensures var s := Setup(kind, executeDispatcher, passed);
              var picked := Picked(listing, old(store), limit);
              && store == Processed(old(store), picked, s, w)
              && calls == old(calls) + CallsDuring(old(store), picked, s, w)
    {
      var queued := ListQueued(listing, store);
      ProcessPicked(if limit < |queued| then queued[..limit] else queued, passed, w);
    }

    /** The scheduled job: wire what can be wired, then one tick with the default limit. */
    method RunJob(bridgeEnabled: bool, built: Option<Dispatcher>, listing: seq<CardId>, claude: Dispatcher, w: World)
      requires Valid() && Lists(listing, store.Keys)
      modifies this
      ensures Valid() && executeDispatcher == Some(WiredByJob(old(executeDispatcher), bridgeEnabled, built, comms))
      ensures var s, picked := Setup(kind, executeDispatcher, Some(claude)), Picked(listing, old(store), DEFAULT_LIMIT);
              && store == Processed(old(store), picked, s, w)
              && calls == old(calls) + CallsDuring(old(store), picked, s, w)
    {
      MaybeWireExecuteBridge(bridgeEnabled, built);
      MaybeWireExecuteMux();
      RunOnce(listing, Some(claude), DEFAULT_LIMIT, w);
    }
  }

  const DEFAULT_LIMIT: nat := 5

  function WiredByJob(wired: Option<Dispatcher>, enabled: bool, built: Option<Dispatcher>,
                      comms: Dispatcher): Dispatcher {
    Wrapped(if enabled && wired.None? then built else wired, comms)
  }

  function Picked(listing: seq<CardId>, store: Store, limit: nat): (r: seq<CardId>)
    ensures forall id :: id in r ==> id in listing && IsQueued(store, id)
  {
    var queued := ListQueued(listing, store);
    if limit < |queued| then queued[..limit] else queued
  }
}
