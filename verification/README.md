# Orchestrator cores, verified

A Dafny 4.11 model of the logic at the centre of the session orchestrator, with proofs of what that logic is for.
`dafny verify dfyconfig.toml` checks all of it.

| files | what they model |
|---|---|
| `LineDiff` | the greedy line diff: forward search over diagonals, a snapshot a round, the way back through them |
| `IdleGraph`, `IdleGraphTheorems`, `IdleGraphHolds`, `IdleGraphLedger`, `IdleGraphReports`, `IdleGraphTurns`, `IdleGraphRuns`, `IdleGraphExamples`, `IdleSubscriptions` | the idle-wake protocol among sessions that own one another, as a state machine over values and as the hub class that runs it |
| `AskState`, `Transcript`, `Conversation`, `TranscriptScan` | "is this session waiting on the user?": a reducer, its summaries, a backward chunked file scan and an incremental memo |
| `EventArchive`, `EventStitch`, `EventPager` | the replayed archive under a trimmed ring: where it is cut, what a page shows, what a walk through the pages adds up to |
| `JsonText`, `Answers`, `AnswerRoundTrip` | the answer text of a question card, and its strict and canonical parsers |
| `ForwardFrame` | the forward frame, its parser and its splitter |
| `DepsDrift`, `Tasks`, `ImageCost`, `HostTerminal`, `KeyedQueue`, `TtsQueue` | the dependency-closure check, the task tracker, the image cost and JPEG walk, the terminal pump, the two queues |
| `Text` | splitting and joining, shared |

Code that the source runs step by step is a method with its loop, or a class with the source's fields, and is proved to
compute a specification function; the theorems are about those functions. Sessions, promises, sockets and timers
interleave as steps of a state machine. What the source reads from elsewhere (a replayed file, the quiescence search,
the text-ask classifier, a parsed package.json) is a parameter, with no more assumed of it than the proofs need.

Three findings, stated as lemmas:

* **A relaunch during a hold can lose the hold's release.** `IdleGraphExamples.RelaunchStrands` is a run in which a held
  session is relaunched while the session it waits for finishes: the wake is dropped because there is no process to
  prompt, and the hold then waits on nothing. `IdleGraphHolds.StepLosesIff` says exactly when a step loses a hold: it
  skips, at one of three guards, a decision that would have been a release. `IdleGraphHolds.NoStrandedHold` takes every
  stranded hold of every run back to such a step, and `IdleGraphExamples.RelaunchKeeps` is a relaunch during a hold that
  loses nothing, since the worker is still in its turn.
* **A forwarded single message can be split.** A lone message is framed without a boundary line, so one that reads as
  several messages itself is split (`ForwardFrame.SingleCanSplit`); `ForwardFrame.SplitWholeIff` says when exactly.
* **An instruction that holds a footer paragraph moves the frame's end** (`ForwardFrame.ParseAfterBuild`, both directions).

## Model

| member | source | states |
|---|---|---|
| LineDiff.LineDiff | shared/diff.ts:11-61 | the ops spell the old lines without the insertions and the new lines without the deletions, and no edit script of the two has fewer deletions and insertions |
| LineDiff.DiffStats | shared/diff.ts:64-71 | the counts are the numbers of insertions and deletions in the list |
| LineDiff.GreedyBound | shared/diff.ts:29-47 | every point reachable on a diagonal with d edits, outside the grid too, is no further than the point the round computes there |
| LineDiff.StopsAtCorner | shared/diff.ts:43-44 | the first round whose point is at or past both ends is at exactly (N, M), although points may leave the grid |
| LineDiff.CheapestIsShortest | shared/diff.ts:19-60 | a script is the shortest of all when no smaller number of edits reaches the corner |
| LineDiff.Search | shared/diff.ts:25-48 | the search ends, and its snapshots hold the furthest points of each round up to the one that reaches the corner |
| LineDiff.Backtrack | shared/diff.ts:49-60 | the way back through the snapshots spells a script whose cost is the number of rounds |
| IdleGraphTheorems.StepBack | src/idleSubscriptions.ts:335-475 | any step read backwards: a closed group of quiet held owned sessions that wait only on each other after it, none of whose decisions the step skipped, was one before it |
| IdleGraphHolds.NoStrandedHold | src/idleSubscriptions.ts:335-475 | in every run of starts, ends, dispatches, sends done or refused, disarms, removals, exits, heartbeats and settles, a quiet held owned session is on a chain of waits to one that work, an owed wake or a gone target's heartbeat will wake, or on one to a session whose decision a guard skipped and which has been stranded ever since |
| IdleGraphHolds.StepLosesIff | src/idleSubscriptions.ts:459-475 | a step from a state without stranded holds strands one if and only if it skips, at a guard, the decision about a held session that the search would now release |
| IdleGraphHolds.RunLosesIff | src/idleSubscriptions.ts:459-475 | no state of a run has a stranded hold if and only if no step of it skips such a decision |
| IdleGraphHolds.LostIffReleasable | src/idleSubscriptions.ts:396-434 | a held session is stranded exactly when the wait search finds nothing to hold for and no chain of its waits comes to a target gone for good, whose heartbeat still reports |
| IdleGraphHolds.SkippedIsGuarded | src/idleSubscriptions.ts:459-475 | a step skips a hold decision only for a session made quiet by a change of its facts, one swept with the session it waits for, or one no wake can reach because the hub is suspended or its process is down |
| IdleGraphHolds.HoldsEnd | src/idleSubscriptions.ts:459-475 | in a run no step of which skips such a decision, every quiet held owned session is on a chain of waits to one that something still wakes |
| IdleGraphExamples.RelaunchStrands | src/idleSubscriptions.ts:459-475 | a relaunch during a hold leaves a live quiet held session with no chain to anything that would release it |
| IdleGraphExamples.RelaunchKeeps | src/idleSubscriptions.ts:459-475 | the same relaunch, the worker still in its turn: the decision is skipped and the hold's way out is intact |
| IdleGraphLedger.WakeLedger | src/idleSubscriptions.ts:816-871 | in every run, for each caller and target, successful arms are consuming deliveries plus exits, retired heartbeats, disarms and purges, plus one if the pair is armed now |
| IdleGraphLedger.OneWakePerArm | src/idleSubscriptions.ts:436-452 | over any stretch of a run in which a pair is not armed anew, at most one of its wakes ends, and none if it was not armed |
| IdleGraphTurns.OneWakePerTurn | src/idleSubscriptions.ts:715-748 | over a stretch of a run with one turn of a session (one start, and a status that leaves the turn once, before the turn's end is announced), each caller's wake on it is consumed at most once, mid-turn dispatches, holds and releases included |
| IdleGraphReports.ReportsConserved | src/idleSubscriptions.ts:989-1106 | in every run, for each caller and target, the wakes a turn's end consumed are those sent, those dropped with nobody to prompt and those waiting behind the caller's turn, each once; and so are the wakes an exit ended |
| IdleGraphLedger.LiveHeartbeatKeeps | src/idleSubscriptions.ts:816-848 | the heartbeat of a live target ends no armed wake and takes no human prompt |
| IdleGraphRuns.HumanPromptsConserved | src/idleSubscriptions.ts:1199-1208 | in every run the prompts typed into a session are, in order, those taken by one report or dropped with nobody to tell, then those still pending |
| IdleSubscriptions.IdleSubscriptionHub.WaitsOnWork | src/idleSubscriptions.ts:408-424 | with one shared, growing seen set the search ends; true comes with a chain of armed edges through live idle held sessions other than the root that ends at a deferred or in-flight wake or at a working target, false with a seen set that is closed and holds no such end |
| IdleSubscriptions.IdleSubscriptionHub.Holds | src/idleSubscriptions.ts:426-434 | the decision of the search started with only the session itself seen: held if and only if it was not asked, not aborted, and some chain of held waits from it ends at work |
| IdleSubscriptions.MutualWaitsDoNotHold | src/idleSubscriptions.ts:396-424 | a session waits on no work if and only if a group of held sessions around it waits on nothing but itself and what is gone |
| IdleSubscriptions.NoWorkInside | src/idleSubscriptions.ts:408-424 | if every session looked at has no work of its own and leads only to looked-at ones, no chain from them ends at work |
| IdleSubscriptions.IdleSubscriptionHub.OnTurnStart | src/idleSubscriptions.ts:715-748 | the new state is the one the machine's turn start gives |
| IdleSubscriptions.IdleSubscriptionHub.OnTurnEnd | src/idleSubscriptions.ts:335-389 | the new state is the one the machine's turn end gives: hold, consume or leave armed |
| IdleSubscriptions.IdleSubscriptionHub.Deliver | src/idleSubscriptions.ts:1010-1106 | the new state is the one the machine's delivery gives: dropped, held behind a running turn, or in flight |
| IdleSubscriptions.IdleSubscriptionHub.Consume | src/idleSubscriptions.ts:436-452 | the new state is the one the machine's consume gives |
| IdleSubscriptions.IdleSubscriptionHub.ReleaseHeld | src/idleSubscriptions.ts:459-475 | the new state is the one the machine's release gives, its guards included |
| IdleSubscriptions.IdleSubscriptionHub.FlushDeferredWakes | src/idleSubscriptions.ts:989-1008 | the new state is the one the machine's flush gives |
| IdleSubscriptions.IdleSubscriptionHub.OnTargetExit | src/idleSubscriptions.ts:580-604 | the new state is the one the machine's exit gives |
| IdleSubscriptions.IdleSubscriptionHub.NoteDispatch | src/idleSubscriptions.ts:685-713 | the new state is the one the machine's dispatch gives, and the three refusals are told apart |
| IdleSubscriptions.IdleSubscriptionHub.Purge | src/idleSubscriptions.ts:898-941 | the new state is the one the machine's removal gives, waiters decided about afterwards |
| IdleSubscriptions.IdleSubscriptionHub.EndInFlight | src/idleSubscriptions.ts:1108-1118 | the new state is the one the machine gives when a send is done, refused or abandoned |
| AskState.ComposeActs | src/awaitingUser.ts:95-103 | applying a composed summary is applying the older, then the newer |
| AskState.ComposeMonoid | src/awaitingUser.ts:82-99 | composition is associative with the identity summary on both sides |
| AskState.SummaryDetermined | src/awaitingUser.ts:80-103 | two summaries that act alike on every state are equal, so a summary loses nothing and holds nothing spare |
| AskState.SummaryFolds | src/awaitingUser.ts:62-103 | the action of a fact list's summary is the left fold of the reducer over it |
| Transcript.LinesBackward | src/awaitingUserTranscript.ts:106-126 | for every chunk size from 1 and every bytes, the lines yielded are the non-empty newline-terminated lines of the range with their offsets, newest first, without the unfinished last one |
| Transcript.LinesSplit | src/awaitingUserTranscript.ts:106-126 | cutting a range at a line boundary cuts its lines |
| Conversation.BackwardIsForward | src/awaitingUserTranscript.ts:137-198 | reading records newest first with one run's context gives the same facts as grouping them into assistant messages oldest first |
| Conversation.CutFacts | src/awaitingUserTranscript.ts:75-101 | at a cut the scan may resume from, the facts of the file are those below it followed by those above it |
| Conversation.SafeCutGrows | src/awaitingUserTranscript.ts:75-101 | such a cut stays one however the file grows |
| TranscriptScan.ScanRegion | src/awaitingUserTranscript.ts:137-198 | the scan, stopping at the first decisive fact, gives the summaries of the trailing message and of what is below it, and where the next scan may start |
| TranscriptScan.IncrementIsFull | src/awaitingUserTranscript.ts:75-101 | the memoised summary extended by a scan of the new bytes is the summary of the whole file |
| TranscriptScan.TranscriptMemo.FileSummary | src/awaitingUserTranscript.ts:75-101 | for a file that only grew, through any memoised scans, the summary returned is the summary of all its facts |
| TranscriptScan.TranscriptMemo.DeriveAwaitingUser | src/awaitingUserTranscript.ts:65-73 | walking the segments newest first and stopping at the first constant summary gives the fold of every segment's facts oldest first |
| EventArchive.StampArchiveEvents | src/eventArchive.ts:101-115 | the archive is the stamping of the concatenated lines |
| EventArchive.StampAllStamps | src/eventArchive.ts:101-115 | stamped events are numbered densely, each prompt carries the number of prompts before it, and nothing else changes |
| EventArchive.BuildFlatIndex | src/eventArchive.ts:155-162 | the index holds every key the archive has, at its first event |
| EventArchive.CorrelateRingHead | src/eventArchive.ts:217-230 | the result is the place of the first ring event replay could have written, or -1 if it has no name or no place |
| EventArchive.CutFromEchoAnchor | src/eventArchive.ts:235-249 | the result is the place of the anchor-th prompt, just after it when asked, or the end |
| EventArchive.CalibrateEchoOffset | src/eventArchive.ts:259-278 | the result is the offset at the first ring event after a prompt whose content the file holds |
| EventArchive.BuildArchive | src/eventArchive.ts:368-437 | events, cut and gap are those of the archive specification on every path: unreadable file, uncalibrated, correlated, echo-anchored and clamped |
| EventStitch.CorrelatedIsExact | src/eventArchive.ts:217-230 | when the ring is a suffix of the live log and the file mirrors the log, a correlated cut is the number of file events below the ring head |
| EventStitch.EchoCutIsExact | src/eventArchive.ts:235-249 | so is a cut at the ring head's own prompt, whether or not that prompt is on disk yet |
| EventStitch.AfterEchoIsBelow | src/eventArchive.ts:409-419 | the fallback cut, after the prompt before the head, never takes an event the ring serves |
| EventStitch.MeasuredOffset | src/eventArchive.ts:259-278 | a measured offset is the true one, however many replay-only prompts the file opens with |
| EventStitch.AnchorIsExact | src/eventArchive.ts:386-422 | before clamping, a correlated or echo-anchored cut takes exactly the written events of the evicted prefix, the fallback at most those |
| EventStitch.ExactStitch | src/eventArchive.ts:386-437 | after clamping, everything served lies below the ring in content and in seq, and unless a gap is marked every evicted event the file holds is served |
| EventStitch.StreamedInputStitches | src/eventArchive.ts:217-230 | a log in which one tool call streams two input chunks of one key meets the hypotheses, and the head scan steps over both chunks to the exact cut |
| EventStitch.ClampMarks | src/eventArchive.ts:423-432 | what the clamp drops sets the gap |
| EventStitch.ServedOrdinals | src/eventArchive.ts:442-452 | a served prompt carries the ordinal the live log gave it |
| EventPager.ClampLimit | src/eventArchive.ts:65-71 | a limit from 1 to 500 is kept, a larger one becomes 500, and one below 1 or not an integer becomes 200 |
| EventPager.FirstIndexAtOrAbove | src/eventArchive.ts:74-81 | the binary search splits a sorted list at the seq |
| EventPager.InjectTaskCompletions | src/eventArchive.ts:697-714 | each completion follows the event it completes, the later one of the same seq winning |
| EventPager.InjectionKeeps | src/eventArchive.ts:697-714 | completions hide no event and move no gap marker |
| EventPager.PageCombined | src/eventArchive.ts:546-655 | the page is the specified one over the quiescent range, backward or forward, whatever the quiescence search returns |
| EventPager.PageShows | src/eventArchive.ts:546-655 | without markers the page is its range of the list, and its gap markers stand exactly at the seam and at the floor |
| EventPager.PageInstanceEvents | src/eventArchive.ts:470-532 | the page of an instance is the specified one, the archive being read exactly when the window dips below the ring or holds a headless child |
| EventPager.PageInHistory | src/eventArchive.ts:470-532 | ring-only or stitched, a backward page is the stretch of the whole history just below its cursor and hands on the cursor of its own start |
| EventPager.WalkTilesHistory | src/eventArchive.ts:470-643 | following nextBefore until hasMore is false ends, and the pages' events are the archive up to the cut followed by the ring, each once and in order |
| EventPager.GapIsShown | src/eventArchive.ts:470-643 | if evicted history is lost, some page of the walk carries a gap marker at the seam |
| EventPager.GapOnlyThere | src/eventArchive.ts:470-643 | no page of the walk carries a gap marker anywhere but at a lossy seam or, when asked, at the floor of an evicted earlier segment |
| JsonText.ReadQuotedAt | shared/userQuestionAnswers.ts:168-179 | the scan returns the literal opening at the index, or nothing where there is none |
| JsonText.UnescapeEscape | shared/userQuestionAnswers.ts:68 | parsing undoes quoting for every string of UTF-16 code units, lone surrogates included |
| JsonText.ReadInvertsQuoting | shared/userQuestionAnswers.ts:168-179 | reading a quoted value gives it back, whatever follows the closing quote |
| JsonText.EscapeHasNoControl | shared/userQuestionAnswers.ts:15-17 | quoted text holds no control character |
| Answers.ParseBodyAt | shared/userQuestionAnswers.ts:183-213 | the body parser computes the grammar's reading, consuming the whole body or failing |
| Answers.ParseAnswers | shared/userQuestionAnswers.ts:122-148 | the strict parser computes the grammar's reading, every question unanswered where it fails |
| AnswerRoundTrip.BodyReadBack | shared/userQuestionAnswers.ts:78-87 | a rendered answer of offered labels and the question's kind parses back to itself, note and text trimmed |
| AnswerRoundTrip.RenderHasNoNewline | shared/userQuestionAnswers.ts:78-87 | whatever an answer holds, its text stays on one line |
| AnswerRoundTrip.ParseAfterFormat | shared/userQuestionAnswers.ts:91-148 | for all questions and all well-formed answers, parsing the formatted text gives the normalised answers |
| AnswerRoundTrip.CanonicalAfterFormat | shared/userQuestionAnswers.ts:155-163 | so does the canonical parser: it never turns down what the formatter wrote |
| AnswerRoundTrip.CanonicalIffFormatted | shared/userQuestionAnswers.ts:155-163 | the canonical parser accepts exactly the texts the formatter writes for well-formed answers |
| AnswerRoundTrip.FormatIsInjective | shared/userQuestionAnswers.ts:91-95 | well-formed answers with the same text are the same answers, normalised |
| AnswerRoundTrip.ParseFits | shared/userQuestionAnswers.ts:122-213 | any text parses to one answer per question that the question's card can give |
| ForwardFrame.Parse | shared/forwardFrame.ts:62-79 | the scan finds the last footer that stands as a paragraph |
| ForwardFrame.ParseRejoins | shared/forwardFrame.ts:55-79 | a parsed frame re-concatenates to the text |
| ForwardFrame.ParseAfterBuild | shared/forwardFrame.ts:44-79 | parsing a built frame gives payload and instruction back if and only if the instruction holds no footer paragraph |
| ForwardFrame.SplitMessages | shared/forwardFrame.ts:87-103 | the backward scan computes the split |
| ForwardFrame.SplitReads | shared/forwardFrame.ts:81-103 | a split either leaves the payload whole or re-joins to it byte for byte at its boundaries |
| ForwardFrame.SplitWholeIff | shared/forwardFrame.ts:81-103 | it leaves whole exactly the payloads that cannot be read as numbered messages |
| ForwardFrame.SplitAfterBuild | shared/forwardFrame.ts:44-103 | for two messages or more, splitting a built payload gives the bodies back if and only if no body, read with the marker before it, holds that marker again |
| ForwardFrame.SingleCanSplit | shared/forwardFrame.ts:44-103 | one message that reads as two is split, as its build carries no boundary |
| DepsDrift.RangesAreIntervals | src/depsDrift.ts:54-74 | each operator is exactly its lexicographic interval of release versions |
| DepsDrift.ResolveFrom | src/depsDrift.ts:79-88 | the lookup loop computes the resolution |
| DepsDrift.ResolveFinds | src/depsDrift.ts:77-88 | the lookup fails if and only if no directory Node looks in has the package, and else gives the nearest |
| DepsDrift.Walk | src/depsDrift.ts:93-112 | the walk ends; it adds only reachable packages, a drift it reports is a real missing dependency, and without one it has added all of them and they are complete |
| DepsDrift.ReachExists | src/depsDrift.ts:93-112 | for every tree and roots there is the set the walk is measured against: the least one that holds the roots and is closed under found dependencies |
| DepsDrift.TopLevel | src/depsDrift.ts:115-129 | the list holds exactly the top-level and scoped package directories |
| DepsDrift.CheckRoots | src/depsDrift.ts:148-161 | null exactly when every root is supported, and present or optional, and in range |
| DepsDrift.DependencyDrift | src/depsDrift.ts:132-184 | null exactly when the roots are in order, dev roots counted only when one on disk is unreachable from the production graph, everything reachable resolves its required dependencies, and every top-level package is reachable |
| Tasks.TaskTracker.Apply | shared/tasks.ts:145-223 | the new state is the one the tracker's step gives |
| Tasks.TaskTracker.ApplyUpdate | shared/tasks.ts:167-199 | the new state is the one the update step gives: history, edit, delete, and the batch recorded at the completing edge |
| Tasks.TrackerIsFold | shared/tasks.ts:120-240 | in any order of calls and results, each at most once, what shows is a fold that places each creation at the later of its two events |
| Tasks.LiveAndReplayAgree | shared/tasks.ts:120-240 | exchanging a call and its result, live order for replay order, ends in the same tasks, history and batches |
| Tasks.BatchesAreDone | shared/tasks.ts:186-195 | recorded batches are kept, and each is non-empty and fully completed |
| ImageCost.ImageTokenCost | src/imageCost.ts:38-52 | at most 4784; the plain patch count if the image fits, else that of the largest long edge whose scaled image fits |
| ImageCost.RoundMonotone | src/imageCost.ts:28-34 | half-even rounding of rationals is monotone |
| ImageCost.FitsBelow | src/imageCost.ts:21-48 | a smaller scale of an image that fits, fits |
| ImageCost.CostIsSymmetric | src/imageCost.ts:36-52 | the cost is one number, the same with width and height swapped |
| ImageCost.AspectKept | src/imageCost.ts:36-52 | the scaled short edge is within half a pixel of the exact one, unless it is one pixel |
| ImageCost.ShortStaysShort | src/imageCost.ts:28-34 | at full size rounding leaves the short edge as it is, and at any scale it is no longer than the long one |
| ImageCost.Jpeg | src/imageCost.ts:103-122 | on any bytes the walk ends, within the buffer, with the specified result |
| ImageCost.WalkFinds | src/imageCost.ts:103-122 | behind any well-formed segments, fill bytes included, the walk returns the size in the first frame header |
| HostTerminal.TerminalBridge.Attach | src/hostTerminal.ts:193-220 | the new state is the one the machine's attach gives: held chunks first, then a held end |
| HostTerminal.TerminalBridge.SendDone | src/hostTerminal.ts:154-162 | the new state is the one the machine gives when a send settles |
| HostTerminal.TerminalBridge.Exit | src/hostTerminal.ts:169-190 | the new state is the one the machine's exit gives |
| HostTerminal.EveryRunKeeps | src/hostTerminal.ts:143-222 | in every interleaving the client has got the received chunks in order and then at most one end message, the count is the unsettled bytes, pauses and resumes alternate with a resume only at zero, and the terminal is closed at most once and never after its end |
| HostTerminal.SumWithout | src/hostTerminal.ts:154-162 | whichever send settles, exactly its bytes leave the sum |
| HostTerminal.ClosedOnce | src/hostTerminal.ts:196-201 | in a reachable state the terminal has been closed at most once, and not after its end |
| HostTerminal.SettledIsRunning | src/hostTerminal.ts:154-162 | once every send has settled the terminal is running, and an attached client has all that was received |
| KeyedQueue.Queue.Run | src/keyedQueue.ts:10-20 | the new state is the one the machine's call gives |
| KeyedQueue.Queue.TailSettled | src/keyedQueue.ts:10-20 | the new state is the one the machine gives when a tail's reaction runs |
| KeyedQueue.EveryRunKeeps | src/keyedQueue.ts:10-20 | in every interleaving from the empty queue, jobs of a key run one at a time in call order, after rejections too |
| KeyedQueue.IdleIsEmpty | src/keyedQueue.ts:5-20 | a key whose jobs have all settled and whose reactions have run has no entry, whatever the other keys do |
| KeyedQueue.NeverStuck | src/keyedQueue.ts:10-20 | the first unsettled job of a key is running or may start |
| TtsQueue.Queue.Resume | shared/tts-queue.ts:48-57 | the new state is the one the machine gives when a drain wakes up |
| TtsQueue.EveryRunKeeps | shared/tts-queue.ts:28-57 | in every interleaving from the empty queue, each item is started, flushed or queued and only one of these, starts follow the enqueue order, and the queue is draining exactly while one drain with the current id is suspended |
| TtsQueue.StartsInOrder | shared/tts-queue.ts:28-57 | in every such interleaving the items started are started once each, in the order they were enqueued, and a started item is neither queued nor flushed |
| TtsQueue.FinishedIsEmpty | shared/tts-queue.ts:48-57 | a drain that finishes uninterrupted leaves the queue empty, with every item started or flushed |

## Left out

- LineDiff.LineDiff: the texts are strings of Unicode characters; a lone surrogate in a JavaScript string is not one.
- IdleGraphHolds.NoStrandedHold: states the exception for skipped decisions, because the code does skip them; `RelaunchStrands` shows that without it the statement is false, and `StepLosesIff` says exactly when it is needed.
- IdleGraphTurns.OneWakePerTurn: takes from the instance that its status leaves the turn before the turn's end, or a rotation that comes up idle, is announced, and that it is back in a turn only with the next start (src/instances.ts:1743-1806).
- IdleGraphReports.ReportsConserved: heartbeats of live targets are sent beside the account, as they end no armed wake.
- IdleGraphLedger.WakeLedger: counts a delivery that a suspended hub drops as consumed, as the code drops the entry before it looks.
- Decline notes, the settle's plain bookkeeping of already-consumed sessions, heartbeat lengths, `subscription_changed` notices and stub wording: they carry no armed wake.
- `severForOverageStop` and the queue filter it runs: it skips release deliberately.
- `LiveAskFacts` and the block collection it does: not part of this model.
- `isTextAsk`, `classifyUserTurn` and the transcript's JSON records: uninterpreted functions of the text.
- TranscriptScan.ScanRegion: reads are whole; a short read, which ends the scan, is not modelled.
- The quiescence search and the headless-child test of the parser are arbitrary functions; only that the search returns an index in range is assumed.
- EventStitch.ExactStitch: takes of the log that the correlation key of an event replay can write names that event alone in its segment; keys of ring-only events may repeat.
- EventPager.WalkTilesHistory: the instance does not change during the walk and its ring is not empty.
- `pagePersistedEvents`, `insertRingSeamDividers` and `segmentOfSeq`: the first is `PageCombined` without a seam, the others are one-branch lookups.
- `normalizeQuestions`, `isUserQuestionAnswerText` and `isQuestionAnswerShape`: shape checks of raw input.
- Answers.ParseAnswers: a text that is not a string is not modelled; it leaves every question unanswered.
- ForwardFrame.SplitMessages: the total in a boundary line is an unbounded integer; above 2^53 JavaScript rounds it.
- DepsDrift.DependencyDrift: ranges and versions come parsed, and which of several offenders is named first is not stated; nor is the sorting of the top-level list.
- Tasks.TaskTracker.Apply: the id in a result's text comes already matched, change listeners and the sorted `list()` are left out, and a recorded batch is the map it is listed from.
- ImageCost.ImageTokenCost: the ratio of the edges is an exact rational; the source divides doubles.
- The PNG, GIF and WebP header readers: fixed-offset reads.
- HostTerminal.EveryRunKeeps: the terminal reports one end and no output after it; a control message comes parsed, and socket close codes are not modelled.
- TtsQueue.EveryRunKeeps: `onStart` and `playFn` do not call back into the queue, and a play promise that rejects, which leaves the queue draining for good, is not a step.
