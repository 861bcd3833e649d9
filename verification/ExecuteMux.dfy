/**
 The execute-mode multiplexer: one dispatcher that sends a card to the code leg or the comms leg.
 A dispatcher is modelled by what it ends up calling; executors themselves are opaque names.
 */
module ExecuteMux {
  import opened Wrappers

  type CardId = string

  /** A wired callable: some executor, or a mux stamped with its marker. */
  datatype Dispatcher = Executor(name: string) | Mux(code: Option<Dispatcher>, comms: Option<Dispatcher>)

  /** What folding a card for routing gives. */
  datatype Fold = FoldFailed | Missing | Found(labels: seq<string>, surface: Option<string>)

  datatype Routing = Routing(hasRepoLabel: bool, surface: Option<string>)

  predicate IsRepoLabel(tag: string) {
    "repo:" <= tag
  }

  /** A blank id, a fold failure and a missing card all route like a card with nothing known. */
  function CardRouting(id: CardId, fold: Fold): Routing {
    if id == "" || !fold.Found? then Routing(false, None)
    else Routing(exists tag :: tag in fold.labels && IsRepoLabel(tag), fold.surface)
  }

  predicate IsCommsSurface(surface: Option<string>) {
    surface == Some("alert") || surface == Some("gtd")
  }

  /** The executor one call reaches, if any; an unwired leg is never called. */
  function Reaches(d: Dispatcher, id: CardId, fold: Fold): Option<string> {
    match d
    case Executor(name) => Some(name)
    case Mux(code, comms) =>
      var routing := CardRouting(id, fold);
      var leg := if !routing.hasRepoLabel && IsCommsSurface(routing.surface) then comms else code;
      if leg.None? then None else Reaches(leg.value, id, fold)
  }

  /** `_maybe_wire_execute_mux`: wrap whatever is wired, unless it already is a mux. */
  function Wrapped(wired: Option<Dispatcher>, comms: Dispatcher): Dispatcher {
    if wired.Some? && wired.value.Mux? then wired.value else Mux(wired, Some(comms))
  }

  lemma WrapOnce(wired: Option<Dispatcher>, comms: Dispatcher, again: Dispatcher)
    ensures Wrapped(Some(Wrapped(wired, comms)), again) == Wrapped(wired, comms)
  {
  }

  /** The mux's reading of a card: an alert or gtd card without a repo label. */
  predicate SeenAsComms(id: CardId, fold: Fold) {
    && id != "" && fold.Found? && (fold.surface == Some("alert") || fold.surface == Some("gtd"))
    && forall tag :: tag in fold.labels ==> !("repo:" <= tag)
  }

  /** What is left when every mux takes its comms leg, or every mux its code leg. */
  function AlongLegs(d: Dispatcher, comms: bool): Option<string> {
    match d
    case Executor(name) => Some(name)
    case Mux(code, other) =>
      var leg := if comms then other else code;
      if leg.None? then None else AlongLegs(leg.value, comms)
  }

  /**
   However muxes are nested, one card goes along the comms legs all the way or along the code legs all the
   way: along the comms legs exactly when it is an alert or gtd card without a repo label.
   */
  lemma {:induction false} MuxRoutes(d: Dispatcher, id: CardId, fold: Fold)
    ensures Reaches(d, id, fold) == AlongLegs(d, SeenAsComms(id, fold))
  {
    match d
    case Executor(_) =>
    case Mux(code, comms) =>
      if fold.Found? {
        assert forall tag :: tag in fold.labels ==> (IsRepoLabel(tag) <==> "repo:" <= tag);
      }
      var leg := if SeenAsComms(id, fold) then comms else code;
      if leg.Some? { MuxRoutes(leg.value, id, fold); }
  }
}
