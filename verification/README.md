# Verified model of the agent harness's state machines

The harness runs an agent's turns, its background work, its subagents and its teams. What keeps those safe is a
set of small state machines with their edges injected: a sequenced session over a link that drops, a scheduler
with a notification queue, a lead and teammates talking over a log, a daemon with one turn in flight, two line
framers; and a set of folds whose order must not matter: hooks that may only tighten a decision, configuration
layers under ceilings, authority intersected on the way down. This project models them in Dafny and proves what
they promise over whole runs.

Objects whose methods update fields are classes (`RemoteSession`, `NotificationQueue`, `BackgroundManager`,
`CycleFinder`, `TeamLead`, `EventStore`, `HookEngine`, `SubagentSupervisor`, `Daemon`, `StdinLineReader`,
`SocketConnection`). Each method is proved to take the object's value to the value of a step function, and the
theorems are about those step functions over arbitrary runs. Loops of the original are loops here, proved equal
to recursive descriptions. What a step function itself must do is stated without it: from the events of a run
(`RemoteLiveness`, `BackgroundStory`, `DaemonStory`, `SocketReplies`, `SessionAppends`), from an item and its place
(`ContextOffload`), or at the constructors and characters of the input (`HookEvents`, `Orders`, `SessionRecords`).

| file | subject |
|---|---|
| `RemoteSession.dfy`, `RemoteLiveness.dfy`, `RemoteDelivery.dfy` | the sequenced session, what it knows of its peer over every history, and two of them over a lossy link |
| `Notifications.dfy`, `NotificationBounds.dfy` | the four-level queue with its anti-starvation counter, and which waits it bounds |
| `BackgroundTasks.dfy`, `BackgroundHistory.dfy`, `BackgroundScheduling.dfy`, `BackgroundStory.dfy`, `BackgroundLog.dfy`, `BackgroundManager.dfy` | the background lifecycle: steps, per-task history, scheduling, each task's story told by its events, ids and times, and the object |
| `CycleDetection.dfy`, `SourceText.dfy` | the architecture gate's depth-first search and its comment blanking |
| `ContextItems.dfy`, `ContextReduction.dfy`, `ContextOffload.dfy`, `ContextGuarantees.dfy`, `ContextDropping.dfy`, `ContextPairing.dfy` | transcripts, their reduction, what becomes of each item, what it guarantees, which pairs it drops, and when no result loses its call |
| `TeamBus.dfy`, `TeamSafety.dfy`, `TeamProgress.dfy` | the lead, the teammates and the bus: steps, what always holds, what can still be reached |
| `Sessions.dfy`, `SessionRecords.dfy`, `SessionFork.dfy`, `SessionAppends.dfy` | sessions over the event log, what is read off it, forking one, and what appends make of a store |
| `HookFold.dfy`, `HookEvents.dfy`, `ConfigResolution.dfy`, `Authorities.dfy`, `Orders.dfy`, `Subagents.dfy` | the folds, the hooks told event by event, configuration and authority told by name, and the tree of agents |
| `Daemon.dfy`, `DaemonStory.dfy`, `CommandSocket.dfy`, `SocketReplies.dfy`, `LineReader.dfy`, `Lines.dfy` | the daemon, its turns and settlements told by its steps, its socket and what that answers, and the approval prompt |
| `Options.dfy`, `Sequences.dfy` | stock helpers |

`dafny verify dfyconfig.toml` checks everything.

## What the environment is taken to be

- The link between two sessions is first-in first-out and may lose any in-flight suffix when it is cut. On
  reconnect both sides replay their unacknowledged frames before anything new is sent, acks carry the highest
  inbound sequence delivered, and message ids are distinct.
- Runner callbacks are separate steps; they do not run inside `start` or `cancel`. The clock is one value per step.
- Ids handed out by an id source are new: they are numbered in the order they are minted. Several tokens (a
  waiter's promise, an approval's promise) are numbers too.
- In the team, a teammate's poll scans the bus from its start in one step and acts on the first entry that ends its
  wait, as the loop does. The lead handles one entry per step, in any order, with others posting in between, or
  the whole bus in one step; what holds always holds of both, and what can be reached uses only whole polls.
- A fork starts from a log that appends have built, with an id source that repeats no id in it.
- Handlers of the hook engine return an outcome or a failure; the engine runs they start themselves nest.
- The engine of a turn asks for approvals only while that turn is in flight.
- A stream delivers no data before it is attached or after it has ended, and a socket none after it was destroyed;
  the close is the last event of a socket.

## Where the code and its own words differ

The model follows the code.

- `packages/context/src/reduction.ts:137-142` says pairs in the preserved tail are never dropped. The index is
  computed before pruning, so they can be: `RecentPairCanBeDropped`, and exactly when not,
  `TailIsSparedExactlyWhen` by position and `TailComesThroughExactlyWhen` by content. It also says the oldest
  pairs go first, and line 172 that pairs come in call order. They come in the order of their results:
  `YoungerCallIsDroppedFirst`, and exactly when the oldest do go first, `DropsOldestExactlyWhen`.
- `packages/context/src/reduction.ts:68` calls pairing always intact. Two results of one call can lose it:
  `RepeatedResultsCanBeOrphaned`, and exactly when pairing survives, `ReductionKeepsPairingExactlyWhen`.
- `apps/cli/src/team.ts:718-724` speaks of subjects that start with `R:`; the expression also matches after white
  space: `RejectedInTheMiddle`, `RejectedExactlyWhen`. The limit of three submissions is never reached:
  `ApprovedByRevisionOne`.
- The background output flag reads as truncated after an empty chunk on a full preview:
  `EmptyChunkReportsTruncation`; exactly when it is set, `PreviewIsPrefix`.
- The anti-starvation rule serves only the next occupied level below the top. A level with two used levels above
  it can starve (`BelowTwoLevelsStarves`), and so can one between a level above and one below, such as level 2
  between 1 and 3 (`SecondLevelCanStarve`). A bound on the individual wait exists if and only if no used level is
  above, or exactly one is above and none below: `BoundExistsExactlyWhen`.
- `apps/cli/src/sessions.ts:107-116` gives the condition for a pending approval; the code also asks that the
  latest open request name a call and that some call be unsettled: `PendingExactlyWhen`, with a log that fails each
  way, `NamelessRequestIsNotOffered` and `RequestWithoutCallIsNotOffered`.
- `apps/daemon/src/socket-protocol.ts:120` says the first frame must be a matching hello or the connection is
  refused. Malformed frames before it are tolerated, and frames behind a refused one in the same chunk are still
  handled: `HandshakeExactlyWhen`, and one chunk that does both, `RefusedAndAnnounced`.
- `scripts/architecture.ts:152-157` says string bodies are blanked and imports are read from the original text.
  Exactly what reads as a comment to a scan that knows no quotes is blanked (`BlankedExactlyInComments`,
  `UntouchedExactlyWhen`): a string body stays (`StringBodyStays`), and imports are read from the blanked text,
  where a specifier with two slashes in it has lost its tail (`SpecifierTailIsLost`).
- `packages/policy/src/authority.ts:90-99` has a branch that would keep a requested allow-rule; its conditions
  exclude each other: `RestrictionsSurviveAndAllowsDoNot`.
- `packages/policy/src/authority.ts:36-37` calls the depth budget the number of further levels its holder may create.
  Admission never asks for it (`AdmittedExactlyWhen`), so a holder with none left still starts children
  (`EmptyBudgetStillStarts`). The depth limit alone bounds the levels (`LevelReachedExactlyWhen`); exactly when
  the budget does too, `BudgetBoundsLevelsExactlyWhen`.

## Model

| member | source | states |
|---|---|---|
| RemoteSession.InOrderIsSorted | apps/remote-worker/src/session.ts:114-117 | The replay list holds exactly the frames that are still kept, each once, in strictly rising sequence |
| RemoteSession.DuplicateIsNoOp | apps/remote-worker/src/session.ts:84-93 | After an accepted envelope every later one with its message id is refused, whatever else it says, and the session does not change |
| RemoteSession.DeliveryIgnoresSequence | apps/remote-worker/src/session.ts:111-112 | Remark: a session delivers any new work envelope whatever its sequence, so order must come from the channel |
| RemoteSession.RemoteSession.MarkConnected | apps/remote-worker/src/session.ts:52-55 | Only the peer state and the heartbeat time change |
| RemoteSession.RemoteSession.Frame | apps/remote-worker/src/session.ts:58-77 | The envelope carries the next sequence number and is kept under it; the state step used by the delivery theorems |
| RemoteSession.RemoteSession.Receive | apps/remote-worker/src/session.ts:84-112 | Outcome and whole new state for malformed, duplicate, heartbeat, ack and work envelopes |
| RemoteSession.RemoteSession.Forget | apps/remote-worker/src/session.ts:104-106 | Deleting while iterating leaves exactly the frames above the acknowledged sequence |
| RemoteSession.RemoteSession.UnacknowledgedFrames | apps/remote-worker/src/session.ts:115-117 | Repeatedly taking the least remaining key gives the sorted list of kept frames |
| RemoteSession.RemoteSession.CheckHeartbeat | apps/remote-worker/src/session.ts:123-131 | Reports a transition exactly when a connected peer has been silent longer than the timeout |
| RemoteLiveness.LossIsReportedExactlyWhen | apps/remote-worker/src/session.ts:52-131 | Over every history of a session a check reports the peer lost if and only if it is not taken for gone already and its latest sign of life (construction, a transport that connected, a well-formed envelope with a new id) is more than the timeout ago |
| RemoteLiveness.AnsweredByTheHistory | apps/remote-worker/src/session.ts:84-131 | Over every history: what a received envelope is answered, the state of the peer and the highest sequence of work received are what the events say |
| RemoteLiveness.HeartbeatRevives | apps/remote-worker/src/session.ts:95-99 | A well-formed heartbeat with a new id brings a peer that was taken for gone back, from every history |
| RemoteLiveness.OtherNewsDoesNotRevive | apps/remote-worker/src/session.ts:91-112 | Work, acks, duplicates and malformed envelopes leave a lost peer lost, though new ones are signs of life |
| RemoteLiveness.HeartbeatBuysTime | apps/remote-worker/src/session.ts:123-131 | At the default timeout, a heartbeat at 40 seconds puts the loss off until 85 seconds have passed |
| RemoteLiveness.CheckOf | apps/remote-worker/src/session.ts:123-131 | The method reports exactly that, and leaves the session the step leaves |
| RemoteLiveness.ReplayedExactlyWhen | apps/remote-worker/src/session.ts:58-117 | Over every history what is unacknowledged is exactly what was sent and not confirmed by a later ack, with its content and number, in the order sent |
| RemoteDelivery.DeliveryIsExactlyOnce | apps/remote-worker/src/session.ts:58-117 | Two sessions, a FIFO channel that may lose any in-flight suffix on a cut, replay on reconnect: in every run, in both directions, the work handed over is a gap-free, duplicate-free, in-order prefix of the work framed, and a frame is forgotten only once the peer has it |
| RemoteDelivery.NothingIsLost | apps/remote-worker/README.md:9-17 | From every reachable state some continuation that frames nothing new hands both sides all work ever framed |
| RemoteDelivery.LossFromTheMiddleLosesWork | apps/remote-worker/src/session.ts:103-112 | Without the FIFO assumption a session acknowledges a frame it never had and the sender forgets it |
| RemoteDelivery.UnusableIdIsRefusedForGood | apps/remote-worker/src/session.ts:58-77 | A frame is refused by every receiver exactly when its message id is empty or over 128 characters, which framing does not check |
| Notifications.ServedExactlyWhen | packages/background/src/notifications.ts:108-122 | A waiting level is served next if and only if it is the top one and the counter is below ten, or it is the next occupied level below the top (or the only one) once the counter reached ten |
| Notifications.FifoAndConserved | packages/background/src/notifications.ts:83-133 | Over every run and at every level, what was delivered followed by what waits is what waited followed by what arrived: nothing lost, invented or reordered, forced deliveries included |
| Notifications.TwoLevelsAreFair | packages/background/src/notifications.ts:108-122 | While only two levels ever hold items, every delivery sees at most one occupied level above the lower and nothing below it |
| Notifications.BoundedWait | packages/background/src/notifications.ts:108-122 | On such a run the item at position p of a level is out, as the (p+1)th of its level, within 11(p+1) deliveries, under arbitrary arrivals |
| Notifications.UrgentGoesFirst | packages/background/src/notifications.ts:33-122 | While an approval, an elicitation, a shutdown, a security failure or an input request waits and fewer than ten deliveries passed over a lower item, the next delivery is one of these kinds |
| Notifications.LevelsByKind | packages/background/src/notifications.ts:33-51 | The level of each of the thirteen kinds, at its constructor |
| Notifications.OneOfElevenIsForced | packages/background/src/notifications.ts:112-121 | With any levels occupied, eleven consecutive deliveries that each see a lower level waiting include one from below the top |
| NotificationBounds.TopBoundedWait | packages/background/src/notifications.ts:108-122 | Below nothing, the item at position p is out, as the (p+1)th of its level, within p + 1 + (p + counter)/10 deliveries, whatever arrives at or below its level |
| NotificationBounds.BelowTwoLevelsStarves | packages/background/src/notifications.ts:112-117 | Below two levels there is no individual bound: from any state and for every n some run makes n deliveries, none of them from the level |
| NotificationBounds.BetweenTwoLevelsStarves | packages/background/src/notifications.ts:112-117 | Between one level above and one below there is none either: each forced delivery takes the level below, for every n |
| NotificationBounds.SecondLevelCanStarve | packages/background/src/notifications.ts:112-117 | An item that waits alone at level 2 is passed over any number of times while levels 1 and 3 are used |
| NotificationBounds.BoundExistsExactlyWhen | packages/background/src/notifications.ts:108-122 | For every set of levels in use and each level of it: a bound on deliveries that depends on the position alone exists, over all runs, if and only if no used level is above, or exactly one is above and none below |
| Notifications.NotificationQueue.Enqueue | packages/background/src/notifications.ts:83-85 | The item goes to the back of its own level; the counter is untouched |
| Notifications.NotificationQueue.Size | packages/background/src/notifications.ts:87-89 | The number of waiting items, over all four levels |
| Notifications.NotificationQueue.PeekLevel | packages/background/src/notifications.ts:92-100 | Always the level of the item the next delivery returns, or none exactly when nothing waits |
| Notifications.NotificationQueue.Deliver | packages/background/src/notifications.ts:108-122 | Returns the item and reaches the state the fairness theorems speak about, and keeps the counter at most ten |
| Notifications.NotificationQueue.Drain | packages/background/src/notifications.ts:125-133 | Terminates with every level empty, having handed over exactly what waited, in order within each level |
| BackgroundScheduling.ConcurrencyIsBounded | packages/background/src/manager.ts:160-204 | In every reachable state at most the limit of foreground tasks run, and one is queued only while every slot is taken |
| BackgroundScheduling.LaunchIsFifo | packages/background/src/manager.ts:377-394 | Foreground tasks launch in start order although cancelled ids stay queued: an older one that has not launched when a younger has was cancelled |
| BackgroundScheduling.SettledExactlyOnce | packages/background/src/manager.ts:355-375 | Every terminal task has exactly one completion record and one notification, every waiter was resolved once with the terminal view, and no task launches twice |
| BackgroundScheduling.TerminalForever | packages/background/src/manager.ts:355-358 | Status, exit and end time of a terminal task never change again, whatever the run does |
| BackgroundScheduling.PreviewIsPrefix | packages/background/src/manager.ts:307-331 | The preview is exactly the first 64 Ki characters of all accepted output, the byte count its length, and truncation is flagged exactly when more came or an empty chunk hit a full preview |
| BackgroundScheduling.EmptyChunkReportsTruncation | packages/background/src/manager.ts:307-331 | Remark: an empty chunk after an exactly full preview sets the truncation flag without losing a character |
| BackgroundScheduling.WatchdogOnlySuspends | packages/background/src/manager.ts:260-287 | The watchdog never launches, settles, answers or resumes anything |
| BackgroundStory.EveryTaskFollowsItsStory | packages/background/src/manager.ts:160-412 | After every run each task is what its events say: its placement, what ended it, with which status, exit and time, its input wait with the 30-second and five-minute timers, its output count, and the exact list of cancellations, inputs and notifications sent for it, at their levels and times |
| BackgroundStory.FirstEndDecides | packages/background/src/manager.ts:242-381 | The first exit report, stop or hard stop that reaches a live task decides for good: succeeded if and only if an exit report said ok, cancelled if and only if it was a stop; nothing else ends a task |
| BackgroundStory.SuccessIsTheExits | packages/background/src/manager.ts:349-381 | In every reachable state a task that ended succeeded if and only if its exit says ok |
| BackgroundLog.EveryIdIsNew | packages/background/src/manager.ts:160-409 | In every reachable state tasks, notifications and waits have ids of their own, in rising order, and the queue holds every notification sent, level by level, in order |
| BackgroundLog.LaunchesNow | packages/background/src/manager.ts:293-304 | Whatever event launches a task, its start time is that of the event |
| BackgroundLog.ViewShowsTheRest | packages/background/src/manager.ts:424-445 | A view shows everything of a task but its runner handle and its waiters |
| BackgroundScheduling.OpKeeps | packages/background/src/manager.ts:160-287 | Every operation and callback keeps the scheduling invariant and the per-task history, in any order |
| BackgroundManager.BackgroundManager.StartTask | packages/background/src/manager.ts:160-204 | Launches or queues by placement and free slots; returns the view of the new task |
| BackgroundManager.BackgroundManager.GiveInput | packages/background/src/manager.ts:225-239 | Resumes a suspended task and refuses, without effect, exactly the unknown and the not-waiting |
| BackgroundManager.BackgroundManager.StopTask | packages/background/src/manager.ts:242-247 | Cancels and settles once; a no-op on a terminal task; unknown ids are refused |
| BackgroundManager.BackgroundManager.AwaitTask | packages/background/src/manager.ts:250-254 | A terminal task resolves at once, any other when it settles |
| BackgroundManager.BackgroundManager.CheckWatchdogs | packages/background/src/manager.ts:266-287 | Each task in start order is suspended after 30 seconds of detected wait and blocked after five minutes |
| BackgroundManager.BackgroundManager.OutputArrived | packages/background/src/manager.ts:307-331 | Appends to a live task only, and settles it when the hard limit is passed |
| BackgroundManager.BackgroundManager.InputRequested | packages/background/src/manager.ts:339-347 | A running task becomes awaiting input and a notification is raised once |
| BackgroundManager.BackgroundManager.InputWaitDetected | packages/background/src/manager.ts:333-337 | Only the first detection on a running task is recorded |
| BackgroundManager.BackgroundManager.Exited | packages/background/src/manager.ts:349-353 | The first exit settles the task and admits the next; a later one changes nothing |
| CycleDetection.FinishedIsAcyclic | scripts/architecture.ts:255-284 | If every node finished after its successors, the graph on its key nodes has no cycle |
| CycleDetection.SmallGraphs | scripts/architecture.ts:255-284 | A package that depends on itself is a cycle, two on each other are, and one on an unknown package is none |
| CycleDetection.CycleFinder.Visit | scripts/architecture.ts:259-275 | One depth-first visit returns a real cycle that repeats no node but its ends, or leaves the node and all it reaches finished and the stack restored |
| CycleDetection.CycleFinder.FindCycle | scripts/architecture.ts:255-284 | Sound, complete and terminating: a returned path is a cycle that repeats no node but its ends, and none is returned if and only if the graph is acyclic |
| SourceText.StripComments | scripts/architecture.ts:158-182 | The index loop computes the recursive description of blanking that the position results are about |
| SourceText.LineOf | scripts/architecture.ts:185-191 | One more than the newlines before the index, or before the end when the index is past it |
| SourceText.StripIsInPlace | scripts/architecture.ts:152-182 | Every newline stays at its position and every other character is itself or a space; the text grows, by two spaces, if and only if a block comment is left open |
| SourceText.LinesAgree | scripts/architecture.ts:185-191 | Every index of the original has the same line in the stripped text |
| SourceText.NoCommentSurvives | scripts/architecture.ts:158-182 | No comment opener is left anywhere in the stripped text |
| SourceText.UntouchedExactlyWhen | scripts/architecture.ts:152-182 | Text comes back unchanged if and only if it has no comment opener anywhere, in quotes or out of them |
| SourceText.BlankedExactlyInComments | scripts/architecture.ts:158-182 | Position by position: a character is blanked if and only if a scan that knows only comments, and no quotes, has it inside one; newlines stay |
| SourceText.SlashesTakeTheRest | scripts/architecture.ts:158-168 | Two slashes behind comment-free text blank the rest of their line, even inside quotes |
| SourceText.OneBlock | scripts/architecture.ts:158-184 | A block comment is blanked from its opener through the first closer, but for its newlines, and everything else stays in its place |
| SourceText.StringBodyStays | scripts/architecture.ts:152-157 | A string body that mentions `Date.now()` is left as it is |
| SourceText.SpecifierTailIsLost | scripts/architecture.ts:152-157 | An import specifier with two slashes in it loses everything from them on |
| SourceText.StrippingTwiceIsOnce | scripts/architecture.ts:158-182 | Stripping is idempotent |
| ContextItems.EstimateItems | packages/context/src/budget.ts:49-58 | The running total equals the sum over the serialized items |
| ContextItems.RenderFitsExactlyWhen | packages/context/src/refs.ts:41-77 | A rendered reference is no longer than its text if and only if head, tail, ref id and markers fit into it |
| ContextOffload.EveryItemComesThrough | packages/context/src/reduction.ts:76-121 | Without a target: the items that are not pruned, in order and no others; each unchanged, or, if it is a result before the recent tail longer than the threshold, with its call id and name, its first headChars and last tailChars (or all of it), and the closing marker with ref id and length; and the references of exactly those |
| ContextOffload.PreviewIsBounded | packages/context/src/refs.ts:41-52 | A preview is the text itself if it fits, and otherwise its head, the number of characters left out, and its tail |
| ContextOffload.DefaultsOffloadAbove2048 | packages/context/src/reduction.ts:76-103 | At the default sizes a result with four items behind it stays up to 2048 characters; a longer one reads as its first 512 and its last 512 |
| ContextOffload.EveryFieldIsCounted | packages/context/src/budget.ts:24-47 | The default estimate of an item is a quarter of all its fields and labels, rounded up |
| ContextReduction.CheckPairing | packages/context/src/reduction.ts:34-41 | True exactly when every result has an earlier call with its id |
| ContextReduction.CompletePairs | packages/context/src/reduction.ts:173-187 | Each result with an earlier call is paired with the latest such call |
| ContextReduction.DropOldestPairsUntil | packages/context/src/reduction.ts:143-164 | Returns what dropping the least sufficient number of leading pairs leaves, and that number |
| ContextReduction.OffloadOld | packages/context/src/reduction.ts:88-103 | Exactly the old results over the threshold are replaced by their references |
| ContextReduction.PruneMiddle | packages/context/src/reduction.ts:105-115 | Exactly the messages strictly between the first item and the tail go, and they are counted |
| ContextReduction.ReduceContext | packages/context/src/reduction.ts:72-135 | The three phases in order, with the counts and estimates of the actual result |
| ContextGuarantees.DropsShortestPrefix | packages/context/src/reduction.ts:137-164 | The result is at or below the target or no droppable pair is left, and stopping at any earlier pair would have left it above |
| ContextPairing.ReductionKeepsPairingExactlyWhen | packages/context/src/reduction.ts:72-135 | For every transcript and all settings, reused ids and repeated results included: pairing is kept for every target and estimator if and only if each result has an earlier call with its id none of whose own droppable answers comes before that result |
| ContextPairing.PairingKeptExactlyWhen | packages/context/src/reduction.ts:143-164 | The same for pair dropping alone, over any list and any limit |
| ContextPairing.DroppingKeepsPairingExactlyWhen | packages/context/src/reduction.ts:143-164 | The case of an intact list with distinct call ids, derived from it: if and only if no droppable call has two results |
| ContextPairing.ReusedIdIsKept | packages/context/src/reduction.ts:173-187 | A call id used twice, each time with its result, keeps its pairing under all settings |
| ContextGuarantees.PruningKeepsPairing | packages/context/src/reduction.ts:84-115 | Offloading and pruning never orphan a result, repeated ids or not |
| ContextGuarantees.ReductionKeepsPairing | packages/context/src/reduction.ts:72-135 | For every option and target an intact transcript with one result per id stays intact, and without a target any intact transcript does |
| ContextGuarantees.RecentTailIsUntouched | packages/context/src/reduction.ts:76-121 | Without a target the last preserveRecent items are unchanged; with one, as many of them as remain after taking off one per pruned message |
| ContextDropping.TailIsSparedExactlyWhen | packages/context/src/reduction.ts:72-164 | For every transcript: no item of the preserved tail is dropped, for any target and estimator, if and only if none of the first positions of that tail, as many as messages were pruned, holds a result with an earlier call |
| ContextDropping.TailComesThroughExactlyWhen | packages/context/src/reduction.ts:72-164 | On a transcript that is intact or has one result per id, the last preserveRecent items are the same for every target and estimator under the same condition |
| ContextDropping.OrphanCanStandIn | packages/context/src/reduction.ts:72-164 | Neither intact nor one result per id: a result that never had a call stands in for the equal one that was dropped from the tail |
| ContextDropping.PairsAreAnswers | packages/context/src/reduction.ts:172-187 | The pairs are exactly the results with the last earlier call of their id, each once |
| ContextDropping.DropsOldestExactlyWhen | packages/context/src/reduction.ts:137-164 | Dropping takes the oldest calls first, for every target and estimator, if and only if no two droppable calls have their results in the opposite order |
| ContextDropping.YoungerCallIsDroppedFirst | packages/context/src/reduction.ts:137-142 | Two calls of which the younger is answered first: the younger is dropped and the older stays |
| ContextGuarantees.RecentPairCanBeDropped | packages/context/src/reduction.ts:137-154 | With two messages pruned, the pair that is the whole preserved tail of two is dropped, against the comment |
| ContextPairing.RepeatedResultsCanBeOrphaned | packages/context/src/reduction.ts:173-187 | Two results under one call id: some target leaves the second without its call |
| ContextGuarantees.ReductionNeverCostsMore | packages/context/src/reduction.ts:72-135 | The estimate never grows when every reference fits into the result it replaces |
| ContextGuarantees.DefaultsNeverCostMore | packages/context/src/reduction.ts:76-103 | With the default estimator, threshold and previews, ref ids of up to 512 characters always fit |
| TeamBus.RejectedExactlyWhen | apps/cli/src/team.ts:726-747 | A plan is sent back if and only if it is revision 0 and its subject has `R:` at its start or after white space, for every revision and subject |
| TeamBus.RejectedInTheMiddle | apps/cli/src/team.ts:718-729 | A subject that merely contains `R:` after a space is sent back too, which the comment does not say |
| TeamBus.TeamLead.Poll | apps/cli/src/team.ts:607-632 | One pass over a snapshot of the bus: which responses are posted, in which order, and the new counters |
| TeamBus.LeadPollIsARun | apps/cli/src/team.ts:607-632 | A poll over the bus as it stands leaves the lead, the bus and the ids as handling each of its entries once, in order, does |
| TeamSafety.OneResponsePerRequest | apps/cli/src/team.ts:598-632 | In every interleaving there is at most one response per correlation id, each the lead's decision on an earlier request and addressed to its author, and the counters are the responses posted |
| TeamSafety.ShellOnlyWhenCleared | apps/cli/src/team.ts:944-1012 | A shell ran only after an approval of a plan this member submitted for that subject and, for `P:` subjects, a grant of the permission it requested for that task |
| TeamSafety.PermissionGoesByTheSubject | apps/cli/src/team.ts:985-1009 | A shell run carries a permission the lead granted for its task if and only if its subject starts with the characters `P` and `:`, in every reachable team |
| TeamSafety.AfterApproval | apps/cli/src/team.ts:944-991 | When a teammate reads the approval of its plan it may ask, and not run, if and only if its subject starts so; otherwise it may run and not ask |
| TeamSafety.MarkedDeploymentAsksFirst | apps/cli/src/team.ts:985-991 | The subjects `P:deploy` and `deploy` |
| TeamSafety.AnswersByName | apps/cli/src/team.ts:598-632 | In every reachable team permissions are granted, plans are answered by their text, and each answer is of the kind of its request |
| TeamSafety.MarksByPlace | apps/cli/src/team.ts:718-747 | The mark at the start, behind white space, inside a word, and in a second submission |
| TeamSafety.WhatEndsAWait | apps/cli/src/team.ts:910-1004 | Which entries end a wait and what each makes of the teammate: shutdown, an answer the tracker refuses, rejection with up to three submissions, denial, grant |
| TeamSafety.TrackerRefuses | packages/teams/src/protocol.ts:97-126 | A tracker refuses an answer exactly if nobody waits for it, it is of the other kind, or the roles are not reversed |
| TeamSafety.ActionNamesItsTask | apps/cli/src/team.ts:988-992 | What a permission request asks for names its task, and no two tasks ask for the same |
| TeamSafety.ApprovedByRevisionOne | apps/cli/src/team.ts:951-974 | No plan is submitted a third time, none is abandoned, and the tracker never refuses an answer |
| TeamSafety.AnswerClearsOneRun | apps/cli/src/team.ts:944-1012 | No approval and no grant ever clears two shell runs, of one member or of two |
| TeamProgress.ShutdownEndsShellRuns | apps/cli/src/team.ts:910-934 | Once a request to shut it down is on the bus, a member that is not cleared, and whose wait, if it waits, does not end in the answer that clears it, never runs a shell again, whatever anybody does |
| TeamProgress.ClearsExactlyWhen | apps/cli/src/team.ts:910-1012 | From any reachable state the lead and the member alone can bring the task the member plans, waits for or is cleared for to its shell run if and only if no request to shut the member down is on the bus, or it is cleared already, or the first entry that ends its wait is the answer that clears it; and then within ten steps |
| TeamProgress.ShutdownBeforeAnswer | apps/cli/src/team.ts:910-934 | A task claimed just before the shutdown request is never worked on, though its plan is still submitted |
| Sessions.EventStore.ReadThread | packages/storage/src/event-store.ts:401-406 | The log of exactly that thread, empty when there is none |
| Sessions.EventStore.Append | packages/storage/src/event-store.ts:170-288 | Refused, without effect, exactly for a second row of a thread or turn or a turn without id; otherwise the next sequence number and the projections |
| SessionAppends.AcceptedExactlyWhenFitting | packages/storage/src/event-store.ts:170-288 | A list of appends to an empty store is accepted if and only if it creates no thread and starts no turn twice and every turn it starts has an id; then each thread has its events in order, numbered from zero, and exactly the threads created a row, as created and with the latest lineage |
| Sessions.ReconstructHistory | apps/cli/src/sessions.ts:48-86 | The loop equals the concatenation of what each event contributes, the function the fork theorems are about |
| Sessions.FindPendingApproval | apps/cli/src/sessions.ts:118-193 | The loops and sets compute the pending record defined over the log |
| Sessions.PendingExactlyWhen | apps/cli/src/sessions.ts:107-193 | A record exists if and only if the last started turn has no end, its latest unresolved request names a call, and some tool call of it has no result |
| Sessions.NamelessRequestIsNotOffered | apps/cli/src/sessions.ts:107-152 | A log whose turn waits for approval, by the comment, with a request that names no call: no record |
| Sessions.RequestWithoutCallIsNotOffered | apps/cli/src/sessions.ts:107-179 | A log whose turn waits for approval, by the comment, with no recorded call: no record |
| SessionRecords.HistoryGrows | apps/cli/src/sessions.ts:48-86 | What one more event of each kind adds to the conversation |
| SessionRecords.RecordIsReadOffTheLog | apps/cli/src/sessions.ts:118-193 | Every field of the record: the last turn started, correlation and profile of its first event, call, action and risk of its latest unresolved request, and its calls without a result, in order and no others |
| SessionRecords.OfferedExactlyWhenRecorded | apps/cli/src/sessions.ts:118-193 | If the log holds such a record, one is offered |
| SessionFork.ForkSession | apps/cli/src/sessions.ts:206-279 | Refuses exactly the missing source and the existing target, without effect; otherwise appends exactly the plan, every append accepted, and the store stays well formed |
| SessionFork.PlanAccepted | apps/cli/src/sessions.ts:235-247 | The reminted ids collide with no turn in the store, so no append of a fork is refused half-way |
| SessionFork.CutoffSelects | apps/cli/src/sessions.ts:216-252 | Stopping at the first event past the cutoff keeps exactly the events up to it, and by default all |
| SessionFork.ForkPreservesMeaning | apps/cli/src/sessions.ts:195-279 | The new thread reads as the source's conversation up to the cutoff, and every other thread keeps its log and row |
| SessionFork.ForkRenamesInjectively | apps/cli/src/sessions.ts:235-276 | One injective map onto fresh ids accounts for every turn and item id of the copy, envelope and body alike, and the copy is exactly the turn starts and items in order |
| SessionFork.ForkRecordsLineage | apps/cli/src/sessions.ts:219-233 | The new row has the source's directory, repository and profile, the marked name, and the source with the cutoff |
| SessionAppends.ForkRowByName | apps/cli/src/sessions.ts:216-233 | The new row by its characters: no name for none or an empty one, else the name with ` (fork)` behind it; and the number the fork was taken up to |
| SessionAppends.ForkTakesTheEventsUpTo | apps/cli/src/sessions.ts:216-252 | The events copied from are a prefix of the source's log: those up to the number given, or all |
| SessionAppends.EveryDraftIsTheForks | apps/cli/src/sessions.ts:221-276 | Every event a fork appends is the new thread's, under one new correlation id and the source's profile |
| SessionAppends.EachCopyByItsFields | apps/cli/src/sessions.ts:234-276 | A fork appends its creation and lineage and then, for each turn start and item up to the cutoff and nothing else, the event again, under the new thread and the renamed ids, in order |
| SessionFork.ForkHasNothingPending | apps/cli/src/sessions.ts:107-193 | The fork of an interrupted thread waits for no approval |
| SessionFork.ForkOfForkKeepsMeaning | apps/cli/src/sessions.ts:195-279 | A fork of a fork reads as the first source, and both earlier threads stay as they were |
| HookFold.HookEngine.Run | packages/hooks/src/engine.ts:119-140 | A Stop inside a Stop is refused before any handler runs, at any nesting depth, and the flag is restored; otherwise the fold |
| HookFold.HookEngine.RunInner | packages/hooks/src/engine.ts:142-316 | The accumulator loop equals the fold, whatever engine runs its handlers start |
| HookFold.DecisionIsTheStrictest | packages/hooks/src/engine.ts:164-315 | The decision is the strictest of the base and everything any handler asked for, skipped ones included; it is the base when nobody asked for more; blocked means denied, by the first handler that blocks |
| HookFold.DecisionIgnoresOrder | packages/hooks/src/engine.ts:84-94 | Order and repetition of handlers do not change how strict the decision is, nor whether the action is blocked |
| HookFold.AddingNeverLoosens | packages/hooks/src/engine.ts:78-94 | A further handler anywhere never loosens the decision, and no run goes below its base |
| HookFold.InertHandlersCannotMatter | packages/hooks/src/engine.ts:189-290 | Erasing every failing, continuing, annotating, context and elevating handler leaves decision, block, stop and modifications unchanged |
| HookFold.OneAuditRecordEach | packages/hooks/src/engine.ts:180-214 | One audit record per registration, in order: the outcome, the failure, or skipped exactly after the first block |
| HookFold.NothingSaidIsLost | packages/hooks/src/engine.ts:220-292 | Every modification, context, annotation, failure and ignored elevation of the handlers that ran is kept under its handler, in order, and nothing else |
| HookFold.StoppedByTheFirst | packages/hooks/src/engine.ts:220-285 | The next step is prevented exactly when a handler that ran stops it or blocks too late, the first giving the reason; inside a Stop it is only recorded |
| HookEvents.BlockDeniesTheAction | packages/hooks/src/engine.ts:216-232 | At PreToolUse, Stop and every other event that is no tool result: blocked, and then denied, if and only if some handler blocks, for the first one's reason, with the later ones skipped |
| HookEvents.ResultsCannotBeBlocked | packages/hooks/src/engine.ts:216-224 | At PostToolUse, PostToolUseFailure and PostToolBatch nothing is blocked and every handler runs; the first block or stop gives the reason to prevent the next step |
| HookEvents.StopIsARequest | packages/hooks/src/engine.ts:267-278 | At the other events only a request with no block before it stops, and at a Stop it is only recorded |
| HookEvents.DecisionByName | packages/hooks/src/engine.ts:216-275 | Deny, ask or the base, by what was asked for and by whether the event can still be blocked |
| HookEvents.PreToolUseBlocks | packages/hooks/src/events.ts:59-67 | A block at PreToolUse on an allowed action: blocked, denied, not stopped |
| ConfigResolution.ResolveOverride | packages/config/src/resolve.ts:136-157 | The loop equals the specified override, managed sources skipped |
| ConfigResolution.ResolveCeiling | packages/config/src/resolve.ts:163-183 | The loop equals the specified ceiling over every scope |
| ConfigResolution.ResolveDeny | packages/config/src/resolve.ts:189-203 | Exactly what some source denies, each entry once and in the order of first contributions, with every contribution in order |
| ConfigResolution.FirstsFollowContributions | packages/config/src/resolve.ts:189-203 | The positions at which the listed entries were first contributed rise along the list |
| ConfigResolution.ResolveConfig | packages/config/src/resolve.ts:222-337 | Effective authority, the denies once each with every contribution, and every ordinary key at its owner, over the built-in layer and all sources |
| ConfigResolution.OverrideIsTheOwners | packages/config/src/resolve.ts:5-9 | A value is reported if and only if some source but managed sets it: that of the highest scope, the later one among equals, under its own name |
| ConfigResolution.CeilingIsTheTightest | packages/config/src/resolve.ts:159-183 | The ceiling is the tightest value of any source, credited to the first that set it |
| ConfigResolution.AuthorityIsWithinEveryCeiling | packages/config/src/resolve.ts:205-250 | Effective profile, isolation and network are within every source's ceiling, and are what was asked for unless a ceiling is tighter |
| ConfigResolution.AddingNeverWidensACeiling | packages/config/src/resolve.ts:16-20 | A further source anywhere in the list never widens a ceiling |
| ConfigResolution.AddingNeverRemovesADeny | packages/config/src/resolve.ts:11-15 | A further source anywhere adds exactly its own denies and removes none |
| ConfigResolution.ManagedNeverSetsAValue | packages/config/src/resolve.ts:141-144 | Without the managed sources every key resolves to the same value and source |
| ConfigResolution.ManagedOnlyTightens | packages/config/src/resolve.ts:16-20 | Managed sources can only lower the effective profile, isolation and network |
| ConfigResolution.OverrideIgnoresOrder | packages/config/src/resolve.ts:136-157 | With one source per scope the order of the list changes neither a value nor its credit |
| ConfigResolution.AuthorityIgnoresOrder | packages/config/src/resolve.ts:222-337 | Sources with distinct scopes give the same authority and the same denies in any order |
| ConfigResolution.ProvenanceIsReal | packages/config/src/resolve.ts:57-62 | A value is reported under the first source of the tightest ceiling, with its value, if and only if that ceiling is tighter than what was asked for, and otherwise under the owner who asked for it |
| ConfigResolution.SameScopeFollowsOrder | packages/config/src/resolve.ts:148-151 | Remark: of two sources of one scope that no other source setting the key outranks, the later one decides, so distinct scopes are needed |
| Orders.HighestScopeDecides | packages/config/src/sources.ts:36-43 | The value and its credit, by name: cli over env over local over shared over user over builtin, later over earlier, managed never |
| Orders.EffectiveIsTheTighter | packages/config/src/resolve.ts:34-49 | The effective profile and isolation by name, plan below ask below auto-accept-edits below yolo and read-only below workspace-write below disabled: never above what a source allows, and as asked for unless the ceiling is tighter |
| Orders.NothingConfigured | packages/config/src/sources.ts:109-159 | With no source: ask, workspace-write, no network, and no ceiling |
| Orders.BuiltinBudgets | packages/config/src/sources.ts:109-152 | The built-in budgets, output sizes and telemetry switches, by name |
| Authorities.AuthorityViolations | packages/policy/src/authority.ts:129-174 | No violation is listed if and only if the child holds at most what the parent holds |
| Authorities.AtMostIsAPreorder | packages/policy/src/authority.ts:176-178 | Holding at most as much is reflexive and transitive, workspace roots included |
| Authorities.IntersectionIsAtMostParentExactlyWhen | packages/policy/src/authority.ts:69-121 | The intersection is at most the parent if and only if the parent's depth budget is not negative; it is always within managed policy and strictly shallower |
| Authorities.RestrictionsSurviveAndAllowsDoNot | packages/policy/src/authority.ts:88-102 | The child's rules are the parent's and the requested restrictions: no requested allow-rule is ever added |
| Orders.IntersectionFieldByField | packages/policy/src/authority.ts:69-121 | Every field of the intersection exactly: the tightest of the three profiles and isolations, the network if all three allow it, the held roots, kept rules and granted grants in order, and the levels left |
| Orders.AtMostByName | packages/policy/src/authority.ts:129-178 | Holding at most as much, told by the orders, the paths and the ids |
| Orders.WithinIsBeneath | packages/policy/src/paths.ts:353-357 | A path is within a root if and only if it is the root or goes on behind it after a slash |
| Orders.WorkHoldsItsOwn | packages/policy/src/paths.ts:353-357 | `/work` holds `/work/x` and not `/workshop` |
| Subagents.SubagentSupervisor.ChildAuthority | packages/agents/src/subagent.ts:159-170 | The widening guard fires exactly on a negative depth budget |
| Subagents.SubagentSupervisor.Admit | packages/agents/src/subagent.ts:177-203 | The five guards in their order |
| Subagents.SubagentSupervisor.Spawn | packages/agents/src/subagent.ts:251-307 | Both entry points: a refusal changes nothing, an admission counts once, holds at most the parent's authority, and keeps active equal to the unsettled children |
| Subagents.SubagentSupervisor.Settle | packages/agents/src/subagent.ts:231-304 | Success or failure releases exactly one slot; the conclusion is the first 8000 characters |
| Subagents.SubagentSupervisor.ChildSupervisor | packages/agents/src/subagent.ts:319-331 | One level deeper, same limits and managed policy, empty counters |
| Subagents.TreeIsBounded | packages/agents/src/subagent.ts:177-203 | In every run at most n + n^2 + ... + n^d agents are ever started, no supervisor exceeds its limits, active counts are exact, and nobody holds more than the root |
| Subagents.DefaultTreeIsBounded | packages/agents/src/subagent.ts:65-69 | With the default limits that is at most 272 agents |
| Subagents.SettlingIsAlwaysPossible | packages/agents/src/subagent.ts:294-304 | An unsettled child always still holds a slot to release |
| Subagents.AdmittedExactlyWhen | packages/agents/src/subagent.ts:177-203 | A child is admitted if and only if depth, total and active are below their limits, nobody cancelled, and the holder's depth budget is not negative; nothing else of the holder's authority matters |
| Subagents.RefusedForTheFirstReason | packages/agents/src/subagent.ts:177-203 | A refusal names the first limit reached, then a cancellation |
| Subagents.EmptyBudgetStillStarts | packages/policy/src/authority.ts:36-37 | A holder whose depth budget allows no further level starts a child, and that child one of its own |
| Subagents.LevelReachedExactlyWhen | packages/agents/src/subagent.ts:177-203 | Some run reaches a level if and only if the depth limit allows it, children are allowed at all and the root's budget is not negative, whatever that budget is |
| Subagents.BudgetBoundsLevelsExactlyWhen | packages/policy/src/authority.ts:36-37 | No run goes deeper than the root's depth budget says if and only if nobody can be started or the depth limit is no larger than the budget |
| Daemon.Daemon.Connect | apps/daemon/src/daemon.ts:92-94 | One more client; nothing else changes |
| Daemon.Daemon.Disconnect | apps/daemon/src/daemon.ts:95-107 | When the last client leaves, a waiting approval is deferred |
| Daemon.Daemon.OnCommand | apps/daemon/src/daemon.ts:182-296 | Reply and whole new state for every command; a refused one changes nothing |
| Daemon.Daemon.Ask | apps/daemon/src/daemon.ts:372-400 | Deferred on the spot without clients or after an abort, otherwise left waiting for the running thread |
| Daemon.Daemon.EndTurn | apps/daemon/src/daemon.ts:345-349 | Neither a turn nor a waiting approval is left |
| Daemon.Daemon.Stop | apps/daemon/src/daemon.ts:167-173 | Aborts the running turn, once |
| Daemon.ApprovalsWaitForSomebody | apps/daemon/src/daemon.ts:82-349 | In every order of steps an approval waits only while its own turn is in flight, uninterrupted unless the daemon is stopping, and a client is attached; each request is settled at most once |
| Daemon.OneTurnAtATime | apps/daemon/src/daemon.ts:292-349 | In every run the turns started and not ended are the one in flight, or none |
| Daemon.RunningTurnIsKept | apps/daemon/src/daemon.ts:213-246 | Remark: while a turn runs, start and resume are refused without effect and nothing but its end replaces it or undoes its abort |
| Daemon.ApprovedOnlyByAnAnswer | apps/daemon/src/daemon.ts:248-267 | Over every run a request is approved if and only if a granting approve command arrived while it waited, naming its call or none |
| Daemon.NoRequestIsLost | apps/daemon/src/daemon.ts:372-400 | With an engine that asks one approval at a time every request made is settled or is the one waiting |
| Daemon.DroppedStaysUnanswered | apps/daemon/src/daemon.ts:345-349 | A request still waiting when its turn ends is dropped and never settled, whatever follows |
| DaemonStory.TurnsOfEveryRun | apps/daemon/src/daemon.ts:182-349 | Over every run: which turn is running, for which thread, and whether it is aborted, told by the prompts, resumes, interrupts, ends and stops alone |
| DaemonStory.PromptsAreAnswered | apps/daemon/src/daemon.ts:213-246 | A prompt to a thread that waits for an approval and a resume of one that does not are refused, each for its reason |
| DaemonStory.AnswersAreAnswered | apps/daemon/src/daemon.ts:248-290 | What an answer and an interrupt are replied in every state a run leads to |
| DaemonStory.SettledExactlyWhenExplained | apps/daemon/src/daemon.ts:95-400 | Over every run a settlement is in the log if and only if a step explains it: an answer in its scope, `once` by default, a denial, the last client leaving, an interrupt, or a request without client or in an aborted turn |
| DaemonStory.RequestsWait | apps/daemon/src/daemon.ts:372-400 | A request that is not deferred at once waits under its call for the running thread |
| Lines.SplitConcat | apps/cli/src/stdin.ts:21-36 | Text that arrives in two pieces splits into lines as if it had arrived in one |
| SocketReplies.TextIsItsLines | apps/cli/src/stdin.ts:21-36 | A text is its lines, each with a line feed behind it, and the rest behind the last; none holds a line feed |
| Lines.IndexOfNewline | apps/cli/src/stdin.ts:21-24 | Where the first line ends, which line that is, and what text is left |
| LineReader.StdinLineReader.Drain | apps/cli/src/stdin.ts:19-37 | Answers waiting prompts in order while a full line is buffered or the stream has ended |
| LineReader.StdinLineReader.OnData | apps/cli/src/stdin.ts:43-46 | A chunk extends the buffer and answers whoever can be answered |
| LineReader.StdinLineReader.OnEnd | apps/cli/src/stdin.ts:47-54 | The end, or an error, answers everybody who waits |
| LineReader.StdinLineReader.Ask | apps/cli/src/stdin.ts:57-63 | A prompt joins the queue behind the earlier ones and may be answered at once |
| LineReader.PromptsGetTheirLines | apps/cli/src/stdin.ts:10-64 | In every interleaving the j-th prompt is answered with the j-th line of the stream (a final unterminated one counts, none past the end), and waits exactly for want of a full line while the stream is open |
| LineReader.AnswersAreFinal | apps/cli/src/stdin.ts:19-37 | An answer given early is the one the finished stream gives, whatever text still follows |
| LineReader.AnswersIgnoreTiming | apps/cli/src/stdin.ts:10-64 | Two finished runs over the same text agree on every prompt both made |
| CommandSocket.FramingIgnoresChunking | apps/daemon/src/socket-protocol.ts:225-236 | The frames handed on are those of the whole text, however it was cut |
| CommandSocket.MessagesRoundTrip | apps/daemon/src/socket-protocol.ts:225-236 | Newline-free, trimmed, non-empty messages written with newlines arrive exactly, in order, in any chunks, leaving nothing buffered |
| CommandSocket.TwoChunksAsOne | apps/daemon/src/socket-protocol.ts:225-236 | Two chunks leave the connection and everything it did as one chunk with the same text |
| CommandSocket.SocketConnection.OnLine | apps/daemon/src/socket-protocol.ts:105-144 | What one frame does to the handshake, the socket and the handler |
| CommandSocket.SocketConnection.Data | apps/daemon/src/socket-protocol.ts:225-236 | One chunk: exactly the completed frames are handled, in order, and the unfinished line is kept |
| CommandSocket.SocketConnection.Close | apps/daemon/src/socket-protocol.ts:146-149 | The handler hears of the end exactly if it heard of the connection |
| CommandSocket.NoCommandBeforeHello | apps/daemon/src/socket-protocol.ts:97-144 | In every run commands reach the handler only after one announcement under the name given, and a connection is announced if and only if a hello of the right version was among its frames |
| CommandSocket.HandshakeExactlyWhen | apps/daemon/src/socket-protocol.ts:119-140 | Within a chunk a connection is announced iff it holds a matching hello and refused iff a well-formed frame precedes it; both happen exactly when both conditions hold |
| CommandSocket.RefusedAndAnnounced | apps/daemon/src/socket-protocol.ts:119-140 | One chunk with a command and then a hello: the command is refused, the socket destroyed, and the connection announced |
| CommandSocket.HandsOnCommandsBehindHello | apps/daemon/src/socket-protocol.ts:97-236 | In every run a connection handles exactly the frames of the text it was sent, however cut, and hands on exactly the command frames behind the first matching hello, in order |
| SocketReplies.EveryFrameIsAnswered | apps/daemon/src/socket-protocol.ts:97-149 | Over every run, everything written and told to the handler is, frame by frame of the text however cut, the error, rejection, acknowledgement, announcement or command the frame brings about given the frames before it, and the disconnection at the close |
| SocketReplies.TrimIsTheMiddle | apps/daemon/src/socket-protocol.ts:225-236 | A trimmed line is the middle of the line, with only white space around it and none at its own ends |
| CommandSocket.SentCommandsAreHandedOn | apps/daemon/src/socket-protocol.ts:97-236 | Messages written one per line arrive at the handler, from the first hello on, as the commands they are |

## Left out

- RemoteDelivery.DeliveryIsExactlyOnce: covers the two sessions and their link; the driver's timers and the deadlines of in-flight work are not modelled.
- RemoteSession.RemoteSession.Receive: the schema check is reduced to the version, the id and sequence bounds and the ack bound; the other envelope fields are not modelled.
- BackgroundManager.BackgroundManager.StartTask: task records are values in a map, so aliasing between a caller's record and the manager's is not captured; the sink and the runner are always present.
- BackgroundManager.BackgroundManager.OutputArrived: lengths count characters, as the source's string lengths do, and the wording of notifications is reduced to their kind.
- CycleDetection.CycleFinder.FindCycle: nodes and successors are visited in an arbitrary order, of which the sorted order is one, so which cycle is found first is not stated.
- ContextReduction.ReduceContext: the number of offloaded results is that of the references and has no field of its own; the kind kept in a reference is not modelled.
- TeamBus.TeamLead.Poll: parsing of malformed bus entries, heartbeats, worktrees and the roster are not modelled; the shutdown message is a step of its own, and the termination message, which would end a wait too and which neither side posts, is not modelled.
- TeamProgress.ClearsExactlyWhen: progress is the existence of a short continuation; the bound on polls and the clock are not modelled.
- Sessions.EventStore.Append: the SQL projections other than thread and turn rows, schema parsing and redaction of payloads (taken to leave stored text unchanged) are not modelled.
- Sessions.FindPendingApproval: the parsed arguments attached to a tool call are not modelled.
- HookFold.HookEngine.Run: concurrent runs, deadlines, cancellation and the text sanitizer are not modelled, nor are the derived fields for a durable result, a changed decision and a modified input, or which of allow and passthrough an ignored elevation asked for; a run that a handler starts is finished before the handler settles.
- ConfigResolution.ResolveConfig: the ordinary keys are one map by dotted name rather than nested fields.
- Authorities.IntersectionIsAtMostParentExactlyWhen: rules and grants are compared by id, as in the source; what a rule or grant matches is not modelled.
- Subagents.SubagentSupervisor.Settle: joining all background children, which awaits promises in spawn order, is not modelled.
- Daemon.Daemon.Ask: the reason of a deferral is named, not spelled out.
- Daemon.Daemon.OnCommand: what the event log says about a thread is a parameter of the command; broadcasts, the store's contents and the lease are not modelled.
- CommandSocket.SocketConnection.OnLine: JSON and schema parsing are an arbitrary function from lines to frames; the client side of the handshake is not modelled.
- LineReader.StdinLineReader.OnData: chunks are sequences of characters; decoding a character split over two chunks is not modelled.
- Hosts and I/O: the database, sockets, child processes, worktrees, the sandbox worker, the model provider and the terminal interface.
- Context compaction's head and tail split, the daemon lease, the scheduler, the task graph and the policy engine's rule evaluation.
- Token utilization as a floating-point ratio, and the import scanner's regular expressions.
