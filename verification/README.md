# SKCapstone: verified model of the state-keeping core

SKCapstone is an agent runtime in Python. This project models the parts of it that keep state over many
steps and proves what they keep. It is written for Dafny 4.11; `dafny verify dfyconfig.toml` checks all of it.

| area | files | what is proved |
|---|---|---|
| inbox delivery | `InboxProtocol`, `InboxSafety`, `InboxQuarantine`, `InboxPoison`, `InboxCalls`, `InboxLoop` | no accepted envelope is lost under any interleaving of handlers, workers, rescans and crashes; exactly when quarantined files survive; retries are bounded; what each method does case by case, and that its calls are runs of the protocol |
| throttling | `Throttle`, `Breaker` | the sliding-window limiter never overfills a window; the circuit breaker keeps its promise exactly for some settings |
| prompt assembly | `PromptBudget` | where each section stands in the prompt, when the character cap holds, and what trimming keeps |
| model fallback | `Fallback` | who is asked in which order, that four nested attempts are one first-success search, what the tracker and the cache hold |
| ITIL migration | `Bridge`, `Explode`, `FoldOrder`, `ItilStore`, `ItilMerge`, `ItilRekey`, `ItilEvents`, `ItilFixpoint` | shortest bridges, logs that merge back, statuses that survive replay, merge and re-key as a fixpoint, which event files survive it, redirects that resolve |
| change deploys | `DeployLease`, `DeployTick`, `DeployOverlap` | lease spacing across processes, tick timing, plan-only canary, exactly when overlapping ticks report a missed window once per scheduling |
| AI runner | `ExecuteMux`, `AgentRun`, `RunnerRuns` | exactly who is called for each run, what is recorded and how each run ends, how fast the queue drains |
| conversations | `PeerName`, `Conversation`, `ConversationLoop`, `ConversationOverlap`, `Archiver` | compression, caching and archiving conserve messages call by call; exactly when overlapping workers conserve them too |
| coordination | `Federation`, `Auction` | confluence of conflict resolution, debouncing, one claim per auction opening |

`Text` and `Wrappers` hold the string operations and the option type the others share.

## How it is modelled

Directories are sets or maps of names, JSON contents are datatypes, and time, randomness, the network, language
models and the unseen ITIL and card-store packages are parameters. An object whose methods update its fields is
a class with those fields; its methods are proved against specification functions, and the properties are
lemmas about those functions. Concurrency is a step relation: each handler or worker call of the inbox is a
program counter that advances one file-system operation at a time, a crash clears all memory, and a run is any
sequence of enabled steps. A region under a lock, or between two awaits, is one step. Where a method meets its
environment, what reads, moves, submissions and models answer is a parameter of the call, so its contract says what
it does for each answer.

Identities, labels and file names are ASCII strings. Python integers are unbounded, as Dafny's are. Floating
point appears as exact reals or as integer milliseconds.

## What turned out conditional

Several promises of the code's own comments hold only under a condition. Each is stated as an equivalence and,
where the failure is not plain from the statement, with a run that shows it.

- No loss needs one content per message id, where the content is the whole text of the file: of two envelopes
  sharing an id, the second is lost (`InboxSafety.NoLossIffOneContentPerId`). The comment at
  `consciousness_loop.py:2362-2370` that quarantine never clobbers holds exactly when bad files of different peers
  never share a name, because the name is chosen before the file is moved
  (`InboxQuarantine.BadFilesKeptIffNamesDistinct`).
- The breaker bounds every window exactly when it admits nothing, the window is empty, or the cool-down is at
  least as long as the window (`Breaker.ThrottlesIff`).
- The prompt cap is exceeded exactly when the protected sections overflow it and it is shorter than the trim
  marker (`PromptBudget.CapIsKept`); the docstring says never.
- With every auto-detected record dated, a second re-key pass on any later day is quiet exactly when the first met
  no colliding target (`ItilRekey.SecondPassQuietIff`). Without dates it is quiet on every day exactly when, besides,
  no record's id depends on the day (`ItilRekey.QuietEveryDayIff`); an undated record is re-keyed again on the next
  day (`ItilRekey.UndatedMovesAgain`). Pouring a colliding record's events into its target replaces files of the same
  name there: over any pass a file is lost exactly when that happens to it (`ItilEvents.LostIff`), and where no record
  is re-keyed to a directory that is itself re-keyed, exactly when a later record of the same target has a file of the
  same name (`ItilEvents.SurvivesIff`).
- Replayed by sequence number, an exploded record ends in its recorded status exactly when the terminal facts lead
  there, or to a status from which some bridging hop applies (`Explode.StatusIsReproduced`). In the replay order that
  `docs/itil-conflict-free-persistence.md` documents, the hops can come before the entry they continue
  (`FoldOrder.HopBeforeItsEntry`); the status survives exactly when the events after the hops lead back to it
  (`FoldOrder.DocumentedReplayIff`).
- A run stays claimed for good, and ends the tick, exactly when its dispatcher's answer is no mapping, its activity
  or one of its entries cannot be read, or its links cannot be passed on (`AgentRun.EndsReviewedOrFailed`). The first
  job of a process settles the execute wiring; a code bridge enabled later is never wired
  (`RunnerRuns.FirstJobSettles`). The gate lets any change from alert or gtd execute because that goes to the comms
  executor; it goes to the code executor exactly when the mux, folding the card again, sees a repo label or no comms
  surface (`RunnerRuns.CommsChangeReachesCodeIff`).
- Sanitizing a peer name twice is sanitizing it once, and the result is a plain name, unless the name, filtered and
  without dots at either end, is longer than 64 characters and has a dot in the 64th place
  (`PeerName.SanitizeTwiceIff`). For such a name alone a fresh message leaves a stale view behind
  (`ConversationLoop.AddViews`). Compressing the history of a sender whose raw name is not its file name leaves a
  stale view behind exactly when the name is not cut at a dot and the compression shows in the file's view, as it does
  once the cap exceeds the four kept entries (`ConversationLoop.GuardViews`). A manager cap of zero caps nothing
  (`ConversationLoop.CapHoldsIff`).
- Three workers share the conversation files without a lock. A run conserves a conversation in every state exactly
  when no append is written between another worker's read of the file and that worker's write
  (`ConversationOverlap.ConservesIffNoneOvertaken`); an append made while a compression waits for its summary is gone
  (`ConversationOverlap.CompressionLosesAppend`). In a run that conserves, a refresh leaves the cached view coherent
  exactly when no other worker's write showed in it since the refresh read the file
  (`ConversationOverlap.RefreshCoherentIff`).
- Overlapping deploy ticks report a missed window once per scheduling exactly when no tick appends its event after
  another appended since it listed the change, unless it was scheduled anew in between
  (`DeployOverlap.OneMissIffNoneOvertaken`); two that both list first report it twice
  (`DeployOverlap.OverlapReportsTwice`).
- A crash between the archiver's two writes loses nothing but doubles the moved messages, and a later run keeps
  them doubled (`Archiver.RerunDoubles`).
- Resolving conflict copies in every order leaves one file exactly when none is a copy of a copy
  (`Federation.OneFileIffFlat`), and is order-independent exactly when the newest files leave no choice
  (`Federation.OrderFreeIff`); debouncing spaces events exactly up to a debounce of one minute
  (`Federation.DebounceHoldsIff`).
- An auction that is opened again within five seconds can be closed early by the resolver of the opening before
  (`Auction.WindowKeptIff`).

## Model

| member | source | states |
|---|---|---|
| InboxSafety.DeliveryIsSafe | src/skcapstone/consciousness_loop.py:2389-2554 | in every state any interleaving with crashes can reach, each directed envelope that arrived is in the inbox, staged, quarantined or was handed to a worker call that returned; broadcasts and other agents' files stay in the inbox; nothing is anywhere that did not arrive |
| InboxSafety.NoLossIffOneContentPerId | src/skcapstone/consciousness_loop.py:2449-2511 | no reachable state loses an accepted directed envelope if and only if no two files of different text share a message id |
| InboxSafety.SharedIdLoses | src/skcapstone/consciousness_loop.py:2449-2511 | for any two files of different text under one id there is a run in which the second is unlinked as a duplicate and its text is nowhere |
| InboxSafety.MarkStep | src/skcapstone/consciousness_loop.py:2516-2530 | remembering an id keeps every envelope that bears it secured, also when the memory is trimmed |
| InboxSafety.UnlinkKeeps | src/skcapstone/consciousness_loop.py:2344-2360 | unlinking a directed duplicate keeps the invariant because an earlier copy is secured |
| InboxSafety.RestageKeeps | src/skcapstone/consciousness_loop.py:2532-2554 | staging secures the content in processing/ at the moment it leaves the inbox |
| InboxSafety.UnstageKeeps | src/skcapstone/consciousness_loop.py:2585-2633 | removing a staged copy whose worker call returned keeps the invariant |
| InboxQuarantine.BadFilesKeptIffNamesDistinct | src/skcapstone/consciousness_loop.py:2362-2387 | no reachable state loses a quarantined malformed file if and only if the names of bad files differ across peers |
| InboxQuarantine.SharedNameClobbers | src/skcapstone/consciousness_loop.py:2362-2387 | two bad files of one name, quarantined by two handlers at once: a run in which one replaces the other |
| InboxPoison.PoisonIsBounded | src/skcapstone/consciousness_loop.py:2572-2633 | in a crash-free run with one worker per staged file and with moves and unlinks that succeed, at most five attempts raise; at five the file is on its way to deadletter; a file that left has no counter |
| InboxPoison.ProcessedIdsBounded | src/skcapstone/consciousness_loop.py:2516-2530 | over any run the dedup memory never holds more than a thousand ids |
| InboxCalls.CallsAreSafe | src/skcapstone/consciousness_loop.py:2389-2680 | the safety theorem of the protocol covers any sequence of the modelled method calls |
| InboxCalls.HandledIsRun | src/skcapstone/consciousness_loop.py:2389-2514 | every uninterrupted handler call, whatever its environment answers, is a run of the protocol |
| InboxCalls.ProcessedIsRun | src/skcapstone/consciousness_loop.py:2585-2633 | every uninterrupted worker call is a run of the protocol |
| InboxCalls.QueuedIff | src/skcapstone/consciousness_loop.py:2400-2511 | the executor gets a job exactly for a readable, small, well-formed file for this agent or for all, whose id was not seen, while its queue is shorter than twice the worker limit and sender check, staging and submission succeed; no other call changes the memory of ids |
| InboxCalls.QueuedJob | src/skcapstone/consciousness_loop.py:2482-2511 | the job is last in the queue: the shared file of a broadcast, or the staged copy of a directed message; its id is marked |
| InboxCalls.LeavesInboxIff | src/skcapstone/consciousness_loop.py:2389-2514 | a readable file leaves the inbox exactly when it can be moved and is malformed, a directed duplicate, or a new directed message that is admitted; no other file does |
| InboxCalls.BuriedIff | src/skcapstone/consciousness_loop.py:2362-2387 | exactly the malformed files that can be read and moved go to deadletter/, under their own name or, if that is taken, a fresh one |
| InboxCalls.StagedFate | src/skcapstone/consciousness_loop.py:2585-2633 | a staged file goes exactly when it can be removed and was handed over, cannot be read, or raised for the fifth time; a raise is counted; only a call that returned hands it over |
| InboxCalls.DeliveredOnce | src/skcapstone/consciousness_loop.py:2389-2633 | a new directed message, all going well: it is staged, queued and marked, the worker call hands it over and removes it, and no file of its id is queued after that |
| InboxLoop.ConsciousnessLoop.OnInboxFile | src/skcapstone/consciousness_loop.py:2389-2514 | one uninterrupted call does exactly what Handled says: nothing, quarantine, drop a duplicate, tell a broadcast, or stage, submit and mark a new message, by the file's content, the ids seen, the queue length and what the environment answers |
| InboxLoop.ConsciousnessLoop.Accept | src/skcapstone/consciousness_loop.py:2449-2511 | the same from deduplication on |
| InboxLoop.ConsciousnessLoop.MarkProcessed | src/skcapstone/consciousness_loop.py:2516-2530 | the id is added, and beyond a thousand ids some five hundred of them stay |
| InboxLoop.ConsciousnessLoop.StageForProcessing | src/skcapstone/consciousness_loop.py:2532-2554 | the file moves to processing/ under a fresh name, or nothing changes, as the rename succeeds or not |
| InboxLoop.ConsciousnessLoop.DeadletterInboxFile | src/skcapstone/consciousness_loop.py:2362-2387 | the file goes to deadletter/ under its own or a fresh name with its retry counter dropped, or stays if it cannot be moved |
| InboxLoop.ConsciousnessLoop.ConsumeInboxFile | src/skcapstone/consciousness_loop.py:2344-2360 | the file is gone, or stays if it cannot be unlinked |
| InboxLoop.ConsciousnessLoop.ProcessStaged | src/skcapstone/consciousness_loop.py:2585-2633 | one worker call does exactly what Processed says: nothing for a vanished file, quarantine for an unreadable one, removal and a cleared counter after a return, a counted retry or quarantine after a raise |
| InboxLoop.ConsciousnessLoop.RetryOrQuarantine | src/skcapstone/consciousness_loop.py:2606-2624 | after a raise the counter is one higher, and from five on the file is quarantined |
| InboxLoop.ConsciousnessLoop.BumpAttempts | src/skcapstone/consciousness_loop.py:2572-2578 | counts one more attempt of this file and of no other |
| InboxLoop.ConsciousnessLoop.RescanInbox | src/skcapstone/consciousness_loop.py:2635-2680 | queues a job for exactly the stale staged files whose submission succeeds, each once, then handles every inbox file exactly once, case by case |
| InboxLoop.RescanIsRun | src/skcapstone/consciousness_loop.py:2635-2680 | a whole rescan is a run of the protocol |
| Throttle.RateLimiter.Allow | src/skcapstone/consciousness_loop.py:1453-1473 | admits exactly when fewer than the maximum were admitted in the window ending now, and logs it |
| Throttle.RateLimiter.CurrentCount | src/skcapstone/consciousness_loop.py:1475-1484 | returns how many admissions lie in the window ending now |
| Throttle.RateLimiter.NoWindowOverfull | src/skcapstone/consciousness_loop.py:1434-1473 | over any history of calls no window of any sender holds more than the maximum |
| Throttle.SpacedIsBounded | src/skcapstone/consciousness_loop.py:1434-1473 | entries n apart being a window apart is enough for every window, at any time, to hold at most n |
| Throttle.PopOld | src/skcapstone/consciousness_loop.py:1465-1469 | the loop drops exactly the entries at or before the cutoff from the front |
| Throttle.BareName | src/skcapstone/consciousness_loop.py:1364-1376 | a peer is its trimmed, lower-case name after the first colon and before the next at sign |
| Breaker.AutoReplyGuard.Allow | src/skcapstone/consciousness_loop.py:1405-1426 | the deque and trip map give the answer of the full admission ledger, per normalized peer |
| Breaker.AutoReplyGuard.Decide | src/skcapstone/consciousness_loop.py:1405-1426 | for one peer: refuse while tripped, trip at the maximum, else admit |
| Breaker.AutoReplyGuard.IsTripped | src/skcapstone/consciousness_loop.py:1428-1431 | reports exactly the peers whose deadline lies ahead |
| Breaker.ThrottlesIff | src/skcapstone/consciousness_loop.py:1379-1426 | every window of every run stays within the maximum if and only if nothing is admitted, the window is empty, or the cool-down is at least the window |
| Breaker.LongCooldownThrottles | src/skcapstone/consciousness_loop.py:1379-1426 | with a cool-down of at least the window the bound holds although a trip clears the deque |
| Breaker.ShortCooldownLeaks | src/skcapstone/consciousness_loop.py:1379-1426 | with a shorter cool-down one burst and one late reply overfill a window |
| Breaker.TripHolds | src/skcapstone/consciousness_loop.py:1405-1431 | a tripped peer admits nothing before its deadline, and its first later call is admitted |
| PromptBudget.FitToBudget | src/skcapstone/consciousness_loop.py:859-924 | the loop over ranked sections computes the specified assembly |
| PromptBudget.CapIsKept | src/skcapstone/consciousness_loop.py:859-924 | the result is longer than four characters a token exactly when the whole assembly and its protected part with the blank lines exceed that cap and it is shorter than the marker |
| PromptBudget.TrimmedByPriority | src/skcapstone/consciousness_loop.py:859-924 | the sections of priority 50 and more survive verbatim in order; by descending priority the others are whole, then at most one cut to what is left with the marker, then dropped |
| PromptBudget.FittingPrompt | src/skcapstone/consciousness_loop.py:883-893 | an assembly within four characters a token is the nonempty sections in input order, each verbatim at the place the earlier ones and the blank lines between them leave |
| PromptBudget.TrimmedPrompt | src/skcapstone/consciousness_loop.py:895-924 | a longer one whose protected part fits is what trimming leaves of the nonempty sections, in input order, each at its place with a blank line between neighbours; sections of priority 50 and more are verbatim |
| PromptBudget.OverflowingPrompt | src/skcapstone/consciousness_loop.py:901-904 | else it is the beginning of the whole assembly, thirteen characters short of the cap, and the marker |
| PromptBudget.LayoutIsUnique | src/skcapstone/consciousness_loop.py:891-924 | the places of the sections leave only one text |
| PromptBudget.TrimIsGreedy | src/skcapstone/consciousness_loop.py:906-921 | trimming keeps the longest run of whole sections the budget allows |
| PromptBudget.RankIsRanked | src/skcapstone/consciousness_loop.py:906-913 | the trimmable sections are ranked by descending priority, ties in assembly order, each once |
| Fallback.LLMBridge.Generate | src/skcapstone/consciousness_loop.py:496-711 | a live cache entry is answered exactly when a cache is there and not skipped; else the four nested attempts are the first success of one flat plan; only a primary model's text is ever cached |
| Fallback.WhoIsAsked | src/skcapstone/consciousness_loop.py:536-692 | the plan: the chosen model, the other models of its tier in order, unless that is FAST every FAST model, and exactly the available providers in chain order with the primary's prompt; a FAST request cuts the system text at 2000 characters |
| Fallback.WhoAnswers | src/skcapstone/consciousness_loop.py:550-711 | the answer is that of the first of the plan that answers, under its backend and tier; the fixed message comes exactly when all raise |
| Fallback.LLMBridge.FallToModels | src/skcapstone/consciousness_loop.py:575-656 | alternates of the tier, then FAST models, each recorded, stopping at the first that answers |
| Fallback.LLMBridge.TryChain | src/skcapstone/consciousness_loop.py:658-692 | the available providers of the chain in order, each recorded, stopping at the first that answers |
| Fallback.TrackerShape | src/skcapstone/consciousness_loop.py:558-711 | nothing is recorded when the primary answers; else one event per later attempt, with its model, backend, outcome and the primary's, plus one when all failed; at most one success, last, exactly when another model answered |
| Bridge.BridgePath | scripts/itil_migrate_events.py:119-141 | on any finite transition map: a shortest chain of allowed transitions to the target, empty exactly when there is nothing to do or no way |
| Explode.EventsFromLegacy | scripts/itil_migrate_events.py:166-253 | timeline, terminal facts and hops, split by writer with rising, globally unique numbers |
| Explode.MapTimeline | scripts/itil_migrate_events.py:176-203 | one event per timeline entry, the status they fold to, and the last timestamp |
| Explode.TimelineEventIs | scripts/itil_migrate_events.py:176-203 | each event keeps its entry's writer, or unknown, and its time, or that of the event before; the first falls back on detection, creation or now |
| Explode.ChangeEntry | scripts/itil_migrate_events.py:143-163 | a status or severity entry becomes a change to what follows its last arrow, or its colon, stripped |
| Explode.OtherEntry | scripts/itil_migrate_events.py:143-163 | creations, approvals and notes keep their kind, and any other action is kept as a note |
| Text.StripIs | scripts/itil_migrate_events.py:151-151 | stripping takes the spaces at both ends and nothing else |
| Explode.TerminalFacts | scripts/itil_migrate_events.py:205-221 | an incident's acknowledgement, resolution and closing, each at its time and in this order, and nothing for problems and changes |
| Explode.MergeIsUnique | scripts/itil_migrate_events.py:276-298 | per-writer logs determine one merged event list |
| Explode.StatusIsReproduced | scripts/itil_migrate_events.py:223-253 | for every record: replayed by sequence number, the logs end in the recorded status exactly when the terminal facts lead there or to a status from which some hop applies |
| Explode.ReplayHops | scripts/itil_migrate_events.py:223-228 | replaying a bridge from any status ends at its target once one hop applies, and changes nothing otherwise |
| Explode.QuietRecordKeepsStatus | scripts/itil_migrate_events.py:223-253 | with quiet terminal facts, and so for problems and changes, the status is reproduced exactly when it is the folded one or reachable from it |
| FoldOrder.HarmlessTailKeepsStatus | docs/itil-conflict-free-persistence.md:92-130 | a record without terminal facts whose timeline is in order keeps its status whenever it is reachable, if no status entry sorts after the hops |
| FoldOrder.DocumentedReplayIff | docs/itil-conflict-free-persistence.md:92-130 | for every record: replayed in the documented order, the status survives exactly when the events after the hops lead back to it from where the hops lead |
| FoldOrder.SortedWithBlock | scripts/itil_migrate_events.py:223-251 | in the documented order the hops stay together, after exactly the events that sort before the first of them |
| FoldOrder.FoldOrderUnique | docs/itil-conflict-free-persistence.md:92-130 | the documented order sorts a record's events in one way only |
| FoldOrder.SortIsFoldOrder | docs/itil-conflict-free-persistence.md:101-102 | sorting by (time, writer, sequence) gives that order of the same events |
| FoldOrder.HopBeforeItsEntry | scripts/itil_migrate_events.py:228-251 | a problem with the documented transitions that reproduces its status by sequence number and loses it in the documented order |
| ItilStore.OldestOf | scripts/itil_migrate_events.py:452-465 | the loop finds the member with the least (detected_at, id), whatever the directory order |
| ItilStore.OldestIsUnique | scripts/itil_migrate_events.py:464-464 | a cluster has one canonical record only |
| ItilMerge.Incidents.SemanticMerge | scripts/itil_migrate_events.py:435-518 | every duplicate keeps its files, loses its core and redirects to its cluster's canonical record, whose directory has its own files and every duplicate's, name by name; the returned map is exactly the duplicates with their canonical ids |
| ItilMerge.Incidents.FoldDuplicate | scripts/itil_migrate_events.py:466-517 | one duplicate more is merged and no other directory changes |
| ItilMerge.Incidents.CopyEvents | scripts/itil_migrate_events.py:466-485 | each event file of the duplicate arrives under its from-name without its blank lines, and no other file changes |
| ItilRekey.RekeyPass.RekeyAutoDetected | scripts/itil_migrate_events.py:521-572 | the pass over the listed directories, with the old and new id of every record it moves |
| ItilRekey.RekeyPass.RekeyRecord | scripts/itil_migrate_events.py:527-571 | one directory is left, poured into an existing target, or moved to a new one |
| ItilRekey.DeterministicId | scripts/itil_migrate_events.py:536-544 | the new id is made of the first service or the title, what follows the last colon of the dedup key or unreachable, and the day of detection or today |
| ItilEvents.PassHolds | scripts/itil_migrate_events.py:521-572 | after any pass over any listing, collisions included, the directories hold exactly the event files traced from before, line for line, each from one file only |
| ItilEvents.LostIff | scripts/itil_migrate_events.py:550-553 | a file is lost exactly when, at some record of the pass, a file of its name is poured over it |
| ItilEvents.SurvivesIff | scripts/itil_migrate_events.py:550-567 | where no record is re-keyed to a directory that is itself re-keyed, a file survives exactly unless a later record of its directory brings a file of its name |
| ItilEvents.EventsFollowTheirRecord | scripts/itil_migrate_events.py:548-567 | and then its lines are in its own directory if its record stays, in the new one under its name if that is made for it, and there marked as re-keyed if it exists |
| ItilEvents.RecordFollows | scripts/itil_migrate_events.py:548-571 | a re-keyed record leaves a redirect to its new id; its core moves there under that id if the directory is new, and stays if it exists |
| ItilRekey.SecondPassQuietIff | scripts/itil_migrate_events.py:521-572 | with every auto-detected record dated, a second pass on any later day reports nothing if and only if the first met no collision, and then changes nothing |
| ItilRekey.QuietEveryDayIff | scripts/itil_migrate_events.py:521-572 | for any records, the second pass is quiet on every day if and only if the first met no collision and no record's id depends on the day |
| ItilRekey.UndatedMovesAgain | scripts/itil_migrate_events.py:537-546 | an undated record, without any collision, that the next day's pass moves again |
| ItilRekey.CleanIffNoCollision | scripts/itil_migrate_events.py:545-571 | no step of the pass meets an existing target exactly when targets are new and pairwise distinct beforehand |
| ItilFixpoint.MigrationIsFixpoint | scripts/itil_migrate_events.py:621-625 | after merge and re-key a second merge changes nothing, and with dated records a second re-key on any later day is quiet exactly when the first met no collision |
| ItilFixpoint.MergeSeparates | scripts/itil_migrate_events.py:435-518 | after a merge no two cores share a cluster key |
| ItilFixpoint.RekeyKeepsApart | scripts/itil_migrate_events.py:521-572 | re-keying never brings two cores into one cluster, collisions included |
| ItilFixpoint.CanonicalHoldsEvents | scripts/itil_migrate_events.py:464-517 | every event file of every duplicate is in its cluster's canonical directory under its from-name; a file of the canonical record itself is there unchanged exactly when no duplicate brings different lines under its name |
| ItilFixpoint.EveryRecordResolves | scripts/itil_migrate_events.py:383-399 | after merge and a collision-free re-key, looking up any original id ends at a core of its cluster that holds the merged events |
| ItilFixpoint.EveryRecordFindsItsCluster | scripts/itil_migrate_events.py:383-399 | after merge and any re-key pass, collisions included, looking up any original id ends at a core of its cluster |
| ItilFixpoint.ResolveRedirect | scripts/itil_migrate_events.py:383-399 | chasing redirects terminates on any store, cycles included, at a core, a missing id or a directory without core |
| DeployLease.ChangeLease.Claim | src/skcapstone/change_deploy.py:145-196 | succeeds exactly when no lease is active at the time the process read, however stale, and keeps claims a lease apart |
| DeployLease.ChangeLease.ReadClock | src/skcapstone/change_deploy.py:170-172 | a process reads some clock before it asks for the lock; nothing relates it to what others read |
| DeployLease.ChangeLease.Damage | src/skcapstone/change_deploy.py:174-183 | an empty or unreadable lease file counts as no lease, and the spacing starts afresh |
| DeployLease.ChangeLease.ClaimsInWindow | src/skcapstone/change_deploy.py:145-196 | over any interleaving, claims stamped in a window number at most (end - start) / lease + 1 |
| DeployLease.FewInWindow | src/skcapstone/change_deploy.py:145-196 | the same bound for any sequence of claims a lease apart |
| DeployTick.DeployRunner.RunTick | src/skcapstone/change_deploy.py:388-415 | per change: one missed-window event, or one note under a fresh lease, or nothing, whatever items fail; the dispatcher is called only when wired, inside the window and with a fresh lease |
| DeployTick.DeployRunner.HandleMissed | src/skcapstone/change_deploy.py:400-406 | appends one event to every missed change; one that raises does not stop the others |
| DeployTick.DeployRunner.HandleDue | src/skcapstone/change_deploy.py:408-413 | handles every due change under its lease; one that raises does not stop the others |
| DeployTick.DeployRunner.ProcessDue | src/skcapstone/change_deploy.py:335-362 | one due change: its note, its lease and its dispatcher call, and no other change's |
| DeployTick.DeployRunner.ProcessMissed | src/skcapstone/change_deploy.py:365-385 | one window_missed event, unless the append raises |
| DeployTick.PassesCompose | src/skcapstone/change_deploy.py:388-415 | the missed pass never makes a change due, so the two passes act as one per-change function |
| DeployTick.OneMissPerScheduling | src/skcapstone/change_deploy.py:365-415 | over any run of one runner's ticks, between two missed-window events of a change there is a new scheduling |
| DeployOverlap.OneMissIffNoneOvertaken | src/skcapstone/change_deploy.py:400-406 | with listing and appending as separate steps of any number of ticks: every state of a run has at most one missed-window event per scheduling if and only if no tick appends after another appended since it listed the change, unless it was scheduled anew in between |
| DeployOverlap.OneAtATimeReportsOnce | src/skcapstone/change_deploy.py:400-406 | ticks that never hold the change listed at the same time report each miss once |
| DeployOverlap.OverlapReportsTwice | src/skcapstone/change_deploy.py:118-138 | from any state with a missed change, two ticks that both list before either appends report it twice |
| DeployTick.PlanOnly | src/skcapstone/change_deploy.py:251-291 | while no dispatcher is wired, over any run no tick calls one, every event a tick adds is a plan note or a missed window, and no event is ever removed |
| DeployTick.TickTiming | src/skcapstone/change_deploy.py:92-133 | exactly what a tick does to a change: past its window one missed-window event; inside it, both ends included, with a free lease the lease and one note; nothing otherwise |
| DeployTick.DispatchedIff | src/skcapstone/change_deploy.py:335-362 | the dispatcher is called exactly for the scheduled changes inside their window that get their lease |
| DeployTick.FoldOf | src/skcapstone/change_deploy.py:365-385 | a missed window sends a scheduled change back to approved and changes no other; notes change nothing |
| DeployTick.MissedIsNotDue | src/skcapstone/change_deploy.py:92-133 | at one time no change is both due and missed, and a missed one is not due after its event |
| ExecuteMux.MuxRoutes | src/skcapstone/execute_mux.py:80-118 | however muxes are nested, a card goes along the comms legs all the way exactly when its surface is alert or gtd and no label starts with repo:, else along the code legs; a missing leg reaches nobody |
| ExecuteMux.WrapOnce | src/skcapstone/agent_run.py:743-768 | wrapping an already wrapped dispatcher changes nothing |
| AgentRun.EndsReviewedOrFailed | src/skcapstone/agent_run.py:776-916 | a processed run ends in needs-review, or failed exactly when its dispatcher raised, or stays running exactly when the answer, its activity, one of its entries or its links cannot be read or passed on |
| AgentRun.WhoIsCalled | src/skcapstone/agent_run.py:806-870 | for every kind, mode and origin: a run in a mode other than execute calls the passed-in dispatcher, an execute run the wired one if the card is from alert or gtd, is no change, or is a proposed or reviewing change, and only when live; the executor reached is that at the end of the comms or code legs; otherwise nobody is called |
| AgentRun.UndispatchedRecord | src/skcapstone/agent_run.py:810-825 | what is recorded for a gated run, an execute run without a wired dispatcher, and a run only planned |
| AgentRun.DispatchedRecord | src/skcapstone/agent_run.py:872-894 | what is recorded after a raise, a malformed answer and a readable one, entry by entry, and when the draft PR is attached to the change |
| AgentRun.UnwiredLegRecord | src/skcapstone/execute_mux.py:106-118 | a mux whose leg is missing calls nobody, and the run goes to review with a note |
| AgentRun.AiRunner.ProcessOne | src/skcapstone/agent_run.py:776-916 | the events appended, exactly the call that WhoIsCalled names, and the change linked, by mode, gate, wiring and answer |
| AgentRun.AiRunner.CallDispatcher | src/skcapstone/agent_run.py:872-894 | what is recorded for a raising, a malformed and a proper answer, up to the field that cannot be read |
| AgentRun.AiRunner.RecordReply | src/skcapstone/agent_run.py:879-888 | activity up to the first unreadable entry, response, link to the change record and new state, in this order, and whether an exception cut it short |
| AgentRun.AiRunner.RunOnce | src/skcapstone/agent_run.py:971-976 | processes the first queued runs up to the limit, stopping at an escaping exception |
| AgentRun.AiRunner.RunJob | src/skcapstone/agent_run.py:1043-1060 | bridge, then mux, then one tick of five with the wired mux |
| AgentRun.AiRunner.MaybeWireExecuteBridge | src/skcapstone/agent_run.py:702-724 | wires the bridge only when enabled, buildable and nothing is wired |
| AgentRun.AiRunner.MaybeWireExecuteMux | src/skcapstone/agent_run.py:743-768 | leaves a mux wired, never a mux of a mux |
| AgentRun.ListQueuedOnce | src/skcapstone/agent_run.py:242-250 | the queue lists each queued card once |
| RunnerRuns.PlainChangesOnlyWhileDrafted | src/skcapstone/agent_run.py:567-640 | over any run of ticks, no execute run of a change from elsewhere than alert or gtd reaches an executor unless the change is proposed or reviewing, and the passed-in dispatcher never sees execute mode |
| RunnerRuns.CommsChangeReachesCodeIff | src/skcapstone/agent_run.py:605-624 | an execute run of an alert or gtd change of any status reaches the code executor exactly when that is wired and the mux sees a repo label or no comms surface, and the comms executor exactly otherwise |
| RunnerRuns.MuxedCallIsSafe | src/skcapstone/execute_mux.py:106-118 | through the wired mux an alert or gtd card without repo label reaches only the comms executor |
| RunnerRuns.FirstJobSettles | src/skcapstone/agent_run.py:702-768 | the wiring after any number of jobs is that of the first one |
| RunnerRuns.TickDrains | src/skcapstone/agent_run.py:971-976 | a tick takes exactly limit runs off the queue, or all; even with malformed answers at least one |
| RunnerRuns.WhoATickCalls | src/skcapstone/agent_run.py:971-976 | a tick makes exactly these calls for the runs it picked, in order, up to and including the first whose exception escapes |
| RunnerRuns.AlwaysDrains | src/skcapstone/agent_run.py:971-976 | whatever dispatchers answer, n queued runs are gone after n ticks |
| RunnerRuns.DrainsInTicks | src/skcapstone/agent_run.py:971-976 | with no new requests the queue shrinks by the limit every tick |
| RunnerRuns.DrainedExactlyWhen | src/skcapstone/agent_run.py:971-976 | n queued runs are gone after k ticks if and only if n is at most k times the limit |
| PeerName.FixedPointIff | src/skcapstone/conversation_store.py:31-50 | exactly the plain names (allowed characters, one to 64, no dot at either end) are left alone |
| PeerName.SanitizeIsSafe | src/skcapstone/conversation_store.py:31-50 | the result has one to 64 allowed characters and no leading dot |
| PeerName.SanitizeIs | src/skcapstone/conversation_store.py:31-50 | the filtered name without the dots at both ends, cut at 64, or unknown when nothing is left |
| PeerName.FilteredIs | src/skcapstone/conversation_store.py:46-48 | filtering keeps, in order, exactly letters, digits and four punctuation marks |
| PeerName.SanitizeTwiceIff | src/skcapstone/conversation_store.py:31-50 | sanitizing twice is sanitizing once, and the result is plain, if and only if the name, filtered and stripped of dots at both ends, is not both longer than 64 and dotted in the 64th place |
| PeerName.CutLeavesDot | src/skcapstone/conversation_store.py:31-50 | a 65-character name for which it is not |
| Conversation.FoldKeepsAll | src/skcapstone/context_window.py:176-202 | replacing a prefix by a summary loses no entry of the unfolded conversation and leaves the rest as it was |
| Conversation.CompressConserves | src/skcapstone/context_window.py:176-202 | a compressed history still unfolds to all that was said, in order, with truthful counts |
| Conversation.CompressedViews | src/skcapstone/context_window.py:176-202 | which views of the last n entries a compression changes, and that five entries remain |
| Conversation.TokensAre | src/skcapstone/context_window.py:77-86 | a history costs what its contents cost, a summary's content naming the number of messages it stands for |
| Conversation.DigitsAre | src/skcapstone/context_window.py:193-196 | that number is written in decimal |
| ConversationLoop.ConversationLoop.CheckAndCompress | src/skcapstone/context_window.py:118-222 | in one uninterrupted call: compresses exactly when at the threshold, bridged, longer than four and answered; else the store is unchanged; the recorded tokens and messages are those of the stored history |
| ConversationLoop.ConversationLoop.StoreAppend | src/skcapstone/conversation_store.py:74-114 | in one uninterrupted call: one entry more at the end of one file |
| ConversationLoop.ConversationLoop.StoreReplace | src/skcapstone/conversation_store.py:116-128 | the file of one peer is replaced by any history, and stands for what that history unfolds to |
| ConversationLoop.ConversationLoop.StoreGetLast | src/skcapstone/conversation_store.py:134-147 | the last n stored entries, none for zero |
| ConversationLoop.ConversationLoop.AddToHistory | src/skcapstone/consciousness_loop.py:1000-1041 | in one uninterrupted call: one entry more in the file, the view refreshed under the once-sanitized name, and the views coherent exactly when the raw name is not cut at a dot or the entry does not show |
| ConversationLoop.ConversationLoop.GuardContext | src/skcapstone/consciousness_loop.py:1975-1983 | in one uninterrupted call: keeps the views coherent exactly when nothing was compressed, the sender's name is plain or cut at a dot, or the compression does not show |
| ConversationLoop.ConversationLoop.LoadAll | src/skcapstone/conversation_manager.py:211-222 | the tail of every file is loaded, which makes all views coherent |
| ConversationLoop.AddViews | src/skcapstone/consciousness_loop.py:1028-1041 | adding a message keeps the views coherent if and only if the raw name is not cut at a dot or the message does not show in the view, as a fresh one always does |
| ConversationLoop.GuardViews | src/skcapstone/consciousness_loop.py:1975-1983 | refreshing under the raw sender name keeps the views coherent if and only if that name is plain, is cut at a dot, or the compression does not show in the file's view |
| ConversationLoop.ConversationManager.AddMessage | src/skcapstone/conversation_manager.py:107-131 | memory and file both hold the capped history |
| ConversationLoop.CappedRunKeepsLast | src/skcapstone/conversation_manager.py:107-131 | over any run the manager keeps exactly the last messages up to the cap |
| ConversationLoop.CapHoldsIff | src/skcapstone/conversation_manager.py:107-131 | the cap bounds every run exactly when it is at least one |
| ConversationOverlap.ConservesIffNoneOvertaken | src/skcapstone/conversation_store.py:101-128 | over any interleaving of reads and writes by any workers: every state conserves all that was appended if and only if no append is written between another worker's read of the file and that worker's write |
| ConversationOverlap.CompressionLosesAppend | src/skcapstone/context_window.py:144-202 | for any history longer than four and any new message there is a run in which the message, appended while a compression waits, is in no entry and no summary afterwards |
| ConversationOverlap.RefreshCoherentIff | src/skcapstone/consciousness_loop.py:1038-1041 | in a run that conserves, with entries never seen before, a refresh leaves the view the last entries of the file if and only if since its read no other worker wrote an append, nor a compression that reaches the view |
| ConversationOverlap.SharedConversation.ReadForAppend | src/skcapstone/conversation_store.py:101-111 | the first half of an append: the snapshot read is the file at that moment |
| ConversationOverlap.SharedConversation.WriteAppend | src/skcapstone/conversation_store.py:112-114 | the second half: the file becomes the snapshot and the message, whatever was written in between |
| ConversationOverlap.SharedConversation.LoadForCompress | src/skcapstone/context_window.py:144-144 | a compression works on the file as it was before the model was called |
| ConversationOverlap.SharedConversation.ReplaceCompressed | src/skcapstone/context_window.py:176-202 | the file becomes the summary and the last four entries of what was loaded |
| ConversationOverlap.SharedConversation.ReadForRefresh | src/skcapstone/conversation_store.py:146-147 | the history a refresh reads is the file at that moment |
| ConversationOverlap.SharedConversation.SetView | src/skcapstone/consciousness_loop.py:1038-1041 | the cached view becomes the last entries of what was read |
| Archiver.ConversationArchiver.Partition | src/skcapstone/archiver.py:308-346 | the loop splits into two order-preserving complementary parts |
| Archiver.ChosenPlaces | src/skcapstone/archiver.py:308-346 | what goes to the archive, in order, is exactly the messages before the last kept ones with a time before the cutoff; what is retained, exactly the others |
| Archiver.ConversationArchiver.ArchivePeer | src/skcapstone/archiver.py:199-250 | what active file and archive hold after a run or a crash at either point, and that other peers are untouched |
| Archiver.Conserved | src/skcapstone/archiver.py:308-346 | the two parts together are exactly the messages |
| Archiver.NothingLost | src/skcapstone/archiver.py:230-237 | active plus archive, as a multiset, is unchanged by a completed run and never below its start at a crash point |
| Archiver.RerunDoubles | src/skcapstone/archiver.py:230-237 | after a crash between the writes a full run leaves exactly the moved messages twice |
| Archiver.SecondRunIsIdle | src/skcapstone/archiver.py:308-346 | at the same clock a second run archives nothing |
| Archiver.SortIsStable | src/skcapstone/archiver.py:142-157 | the archive is sorted by timestamp, holds the same messages, and keeps the order of equal timestamps |
| Federation.FederationWatcher.HandleChange | src/skcapstone/coord_federation.py:185-195 | one event resolves one conflict copy, and ignores vanished and canonical files |
| Federation.FederationWatcher.ResolveConflict | src/skcapstone/coord_federation.py:197-242 | promote, replace or drop, by modification time |
| Federation.ResolvesToNewest | src/skcapstone/coord_federation.py:197-242 | whatever the order and repetition of events, one file is left: the newest, as some member had it |
| Federation.OneFileIffFlat | src/skcapstone/coord_federation.py:197-242 | every order of events leaves a single file of the family if and only if none is a copy of a copy |
| Federation.OrderFreeIff | src/skcapstone/coord_federation.py:197-242 | the final content is independent of the order if and only if the canonical file is already newest or all newest copies agree |
| Federation.DistinctTimesAgree | src/skcapstone/coord_federation.py:197-242 | distinct modification times make it independent |
| Federation.EventHandler.Accept | src/skcapstone/coord_federation.py:62-74 | accepts a JSON path a debounce after its last accepted event, and forgets entries a minute old |
| Federation.ConflictNames | src/skcapstone/coord_federation.py:33-35 | any name with the mark, a date, a time and a device is a conflict copy of that name |
| Federation.ConflictNamed | src/skcapstone/coord_federation.py:33-35 | every conflict copy has such a name, in upper or lower case |
| Federation.JsonPaths | src/skcapstone/coord_federation.py:64-65 | exactly the paths that end in .json are looked at |
| Federation.DebounceHoldsIff | src/skcapstone/coord_federation.py:62-74 | accepted events of one path are a debounce apart in every run if and only if the debounce is at most a minute |
| Auction.OneClaimPerOpening | src/skcapstone/auction.py:239-305 | any number of resolver coroutines in one event loop attempt at most one claim per opening |
| Auction.RunKeepsInv | src/skcapstone/auction.py:170-305 | over any interleaving: one bid per agent, a recorded winner is the first bidder of least load, no claim while pending |
| Auction.WakeDecides | src/skcapstone/auction.py:254-300 | a resolver that finds its auction pending closes it: nobody wins without bids; else the first bidder of least load is claimed for, and recorded as the winner exactly when the claim works |
| Auction.ClosedIsFinal | src/skcapstone/auction.py:204-232 | a closed auction takes no bids and is not closed again |
| Auction.WindowKeptIff | src/skcapstone/auction.py:239-268 | an opening keeps its five seconds in every continuation if and only if no resolver is still asleep from before it |
| Auction.FirstLeastIsUnique | src/skcapstone/auction.py:76-84 | the first bid of least load is one bid |
| Auction.LoadIs | src/skcapstone/auction.py:76-84 | seventy percent processor up to a hundred, thirty percent claimed tasks up to twenty |
| Auction.OthersKeepOrder | src/skcapstone/auction.py:222-223 | replacing an agent's bid keeps the order of the others |
| Auction.AuctionManager.SubmitBid | src/skcapstone/auction.py:204-232 | replaces the agent's bid while pending, and answers whether it was |
| Auction.AuctionManager.StartAuction | src/skcapstone/auction.py:170-202 | a fresh pending record, counted as a new opening |
| Auction.AuctionManager.GoToSleep | src/skcapstone/auction.py:239-253 | a resolver only remembers its task and when it began |
| Auction.AuctionManager.ResolveAwake | src/skcapstone/auction.py:254-335 | from load to save in one step: the recorded winner, also for a resolver that finds the auction closed |
| Auction.AuctionManager.PickWinner | src/skcapstone/auction.py:283-284 | the loop finds the first bid of least load |

## Left out

- The body of `process_envelope`, the LLM texts, embeddings, signature checks and hashes: arbitrary outcomes or parameters.
- The age limit that prunes old inbox files, and the staleness clock of staged files: a rescan may resubmit any staged file at any time.
- Reads of files still being written: a read returns nothing or the whole file. A name below the inbox stands for one content for ever: a file rewritten under its own name between a handler's peek and its unlink, or between choosing a deadletter name and moving, is not covered.
- More than one agent on one shared root, and processes other than the modelled ones writing its files.
- InboxPoison.PoisonIsBounded: stated for runs without a crash, with at most one worker per staged file and with moves and unlinks that succeed, because a crash forgets the counters and a failing move keeps the file.
- That a staged file eventually leaves `processing/` when nobody rescans: no scheduling fairness is assumed.
- The ITIL and card-store packages (`itil.py`, `card_store.py` are shims whose code is not part of this repository): transition tables, slugs and incident ids are parameters, and a change's or run's status is a small fold of its events. The parameter names of the card store are a parameter; texts it cannot write are write errors.
- RunnerRuns.DrainsInTicks: assumes no requests arrive between ticks and that event appends succeed.
- ItilFixpoint.EveryRecordResolves: stated for a re-key pass without collisions; in the collision branch the old core stays in place without its events, and `ItilFixpoint.EveryRecordFindsItsCluster` says what remains.
- Sync-conflict folding, backups, dry runs and the state file of the migration, and the JSON encoding of events.
- Whole deploy ticks of several runners at once: the lease and the missed-window pass are proved for overlapping ones (`DeployLease`, `DeployOverlap`), the other effects of a tick for one runner.
- DeployTick.OneMissPerScheduling: for one runner, assuming nobody else appends missed-window events or sets a change to scheduled without a window; `DeployOverlap.OneMissIffNoneOvertaken` is for overlapping ticks.
- Overlapping calls in `ConversationLoop` and `Archiver`: their methods run without interruption. Overlapping appends, compressions and refreshes of one file are in `ConversationOverlap`; the archiver running while workers append to the same peer, and the older manager path, are not covered.
- Writes that share a temporary file name: every file write is one atomic step.
- Two overlapping AI runner jobs: each appends its claim without looking at the run's state (`agent_run.py:796`), so both process a run that both listed as queued.
- A card whose `meta.origin` is no mapping: reading its surface (`agent_run.py:807`) raises after the claim and outside any try, a further way for a run to stay running; origins are assumed to be mappings or empty.
- The reason texts of fallback events; time to live and eviction of the response cache beyond an entry being possibly gone; concurrency limits and timeouts of model calls.
- Rounding of floating point: scores, times and the 80 percent threshold are exact (the threshold is the integer part of four fifths).
- Percentages and compression times in the context statistics, and the tokenizer, which is a parameter.
- Write errors that are logged and ignored, and corrupt files read as empty, in the conversation store and archiver.
- Federation.ResolvesToNewest: for families without copies of copies; `Federation.OneFileIffFlat` proves that any other family has an order that leaves more than one file.
- Federation.OrderFreeIff: stated for families without copies of copies; with one, some order leaves more than one file anyway. The watcher's publish messages.
- Auctions resolved by several processes at once, and bids arriving by file synchronization.
- HTTP routes, sockets, dashboards, command lines, installers, registries and configuration checks.
