# Feishu project agent: a verified model

This project models the parts of the Feishu project agent whose correctness rests on
order, ownership or bounds, and proves what they guarantee.

- **Group runs.** A chat message takes the chat's Redis lock, becomes a run row and a
  session row, and a worker drives the run through its statuses while cancellations,
  timeouts and failures arrive between any two awaits. `GroupProtocol` is the labelled
  transition system, `GroupProtocolSafety`, `GroupProtocolClosing`,
  `GroupProtocolProgress`, `GroupProtocolRest` and `GroupProtocolOutcomes` prove its
  invariants, its state at rest, the end of every worker path, that rest can always be
  reached, and what endings leave behind;
  `GroupProtocolTraces` and `GroupProtocolLateTraces` show where the guarantees stop.
  `AgentRuns` is the same code as methods over one mutable platform. `AgentRunsRefine`
  proves that whatever its worker does is one of the interleavings, and
  `AgentRunsComplete` that every interleaving of a worker with cancellations ends as
  the worker's method does for some script.
- **Runtime session.** The turn machine (`TurnMachine`), the numbered event log and its
  window (`EventLogs`), the todo list (`TodoLists`).
- **Remote readers.** The folder crawl (`FolderScans`), the documents it keeps
  (`DocumentChoice`), the table read and its counts (`BitableReader`).
- **Schedulers and stores.** The cron matcher (`Crons`), digest jobs
  (`DigestSchedules`), repository synchronisation (`RepoSyncs`, `RepoSyncSafety`),
  artifacts (`Artifacts`, `ArtifactHistory`, `ArtifactCounts`), the processor that ends a
  run from them (`ArtifactSyncs`) and the configuration text (`ProjectConfigs`).

Code that changes state step by step is a class whose methods are proved against
functions on values; the theorems are about those functions and about every sequence
of them.

## What the code does not guarantee

The proofs give these as exact conditions or as concrete runs.

- With status handling in one step, and where no submission of the session lost its lock
  by expiry, a run can end and leave its session busy and its chat locked in exactly two
  ways: it is canceled, and the cancellation handled, after its row was created and
  before its session was marked; or it is canceled after the worker's catch block has
  read its status and before that block writes `failed`
  (`GroupProtocolClosing.WholeAtRestUnlapsed`, `GroupProtocolTraces`).
- A submission whose lock expired can still mark its session, over the pointer of the
  submission that holds the lock now. That run then ends without its session being
  found, and its chat stays locked although its own lock never expired
  (`GroupProtocolLateTraces.LateMarkLeavesTheLock`). With handling in one step this is
  the only third way (`GroupProtocolClosing.WholeAtRest`).
- The last update of `handleRunStatusTransition` is keyed by session id only. Between
  the release of the lock and that update the next run can be admitted and marked, and
  the update then erases its pointer: that run ends without its session being found and
  its chat stays locked. With the awaits of handling apart, an ended run's lock that has
  not expired under it stays held exactly when the run was stranded in one of the two
  ways above or its pointer was erased by such an update or a late mark
  (`GroupProtocolTraces.OvertakenRunStaysLocked`, `GroupProtocolClosing.AtRest`).
- The update that marks a session busy is keyed by session id only as well. It makes a
  session busy with no run exactly when it lands after the pointer was cleared
  (`GroupProtocolClosing.BusyForNothingIffTouchedLate`); a manual retry makes that
  happen without any expiry (`GroupProtocolLateTraces.LateTouchLeavesTheSessionBusy`).
- A live run holds its chat exactly unless its lock expired under it, so of two live
  runs of one chat one has lost its lock by expiry
  (`GroupProtocolSafety.LiveRunHoldsItsChat`), and that does happen
  (`GroupProtocolTraces.ExpiryAllowsTwoLiveRuns`).
- The `truncated` flag says that some page held more valid entries than were asked
  for. The crawl asks for no more than it has room for, so with a server that honours
  the page size the flag is never set, however much was cut off
  (`FolderScans.ScanEntries`, `FolderScans.CutOffUnflagged`).
- A message decided while a session that executes and streams also compacts is answered
  as accepted and handed to nothing; no other accepted message is lost
  (`TurnMachine.AcceptedIsHeldOnce`, `TurnMachine.CompactingDropsAMessage`).
- A resumed session sets its turn without looking for one, after an await in which a
  message may have started another; both coroutines are then live
  (`TurnMachine.ResumptionCanStartASecondTurn`).
- A todo task created under a name that already resolves cannot be reached by that name
  (`TodoLists.CreatedIsFoundIffItsNameIsNew`).
- Reading back an event log restores it exactly when it holds at most a hundred rows.
  With n rows, n above a hundred, the numbers repeat and exactly the next n - 100
  records are refused by the unique index (`EventLogs.RecordsLostAfterRestart`).
- The last-digest check remembers one digest only: one that has finished today is due
  again exactly when the last to finish since is of the other type. That a digest is
  queued once a day rests on the job id (`DigestSchedules.DueAgainIffOtherFinishedLast`,
  `DigestSchedules.WeeklyMakesDailyDueAgain`).
- Creating a document can throw after the document was made, and the token is then
  lost. An artifact has one document for its successful sync, if there was one, and one
  more for each attempt refused after the creation; a retry makes another
  (`ArtifactCounts.DocumentsMade`, `ArtifactCounts.RetryMakesASecondDocument`).
- A retry after a partial failure writes the first task rows again. No row is written
  twice exactly when no two attempts got past their first row
  (`ArtifactCounts.NoRowTwiceIffOneAttemptWrites`, `ArtifactCounts.RetryWritesRowsAgain`).
- The section expression of the configuration parser captures the first line of a
  section and nothing else, so description, repository, branch and model are lost and
  "mention only" always reads as off (`ProjectConfigs.SectionEndsWithItsFirstLine`,
  `ProjectConfigs.ParsedForm`).

## Model

| member | source | states |
|---|---|---|
| `RunStatuses.ChangesAreBoundedByRank` | src/common/state/state-machine.ts:4-12 | every history that obeys the table has at most three real changes, and as many as its rank falls |
| `RunStatuses.TerminalIsForever` | src/common/state/state-machine.ts:40-47 | after a terminal status only that same status is ever written, although equal states pass the check |
| `RunStatuses.CanceledAndSyncingExclude` | src/common/state/state-machine.ts:4-12 | no legal history contains both canceled and syncing |
| `RunStatuses.TableInWords` | src/common/state/state-machine.ts:4-12 | a run that has not ended may move to its successor, to failed or timeout and, until it syncs, to canceled; exactly the terminal statuses admit nothing else |
| `GroupStores.Attempt` | src/modules/agent/agent.service.ts:326-329 | the check and the write as one step: it changes the status of that one known run, as the table allows, and nothing else |
| `GroupProtocolSafety.LiveRunHoldsItsChat` | src/modules/agent/group-agent-session.service.ts:190-211 | in every interleaving, whatever expires, the token of a live group run is the one in its chat's lock if and only if that lock has not expired under it; of two live runs of one chat at least one has lost its lock by expiry |
| `GroupProtocolSafety.EveryGroupRunHasAChat` | src/modules/agent/agent.service.ts:344-376 | every group run has its submission and chat, so the previous statement covers all of them |
| `GroupProtocolSafety.OnlyItsOwnerFreesALock` | src/modules/agent/group-agent-session.service.ts:196-211 | even with expiry, and with handling split at every await, a token leaves its lock only by expiry, by its own submission giving up, or by the end of the run it queued |
| `GroupProtocolSafety.TransitionsNameATokenToRelease` | src/modules/agent/group-agent-session.service.ts:445-446 | a status transition never takes the branch that deletes the lock without comparing tokens |
| `GroupProtocolSafety.SupersededRunChangesNothing` | src/modules/agent/group-agent-session.service.ts:432-436 | a run that its session does not point at, or that no submission queued, finishes without touching a lock or a session |
| `GroupProtocolSafety.HandleAtOnceIsItsParts` | src/modules/agent/group-agent-session.service.ts:432-469 | handling in one step equals its three awaits with nothing in between |
| `GroupProtocolSafety.AtMostThreeChanges` | src/queues/processors/agent-run.processor.ts:30-182 | along every run of the system each run's status changes at most three times, its rank falling each time |
| `GroupProtocolSafety.CanceledIsFinal` | src/modules/agent/agent.service.ts:293-336 | a canceled run stays canceled, and neither before nor after does a worker add an artifact job for it |
| `GroupProtocolOutcomes.SyncerVerdict` | src/queues/processors/artifact-sync.processor.ts:43-79 | whatever happens between the sync of the outputs and the verdict, a run still syncing then ends failed if outputs were stored and one failed, succeeded otherwise; an ended one stays, and no other run changes |
| `GroupProtocolOutcomes.ClosedSessionsSayHowItEnded` | src/modules/agent/group-agent-session.service.ts:445-457 | in every reachable state, only the handling of an ended run clears a session's pointer, and the session is then in error exactly if that run failed or timed out, and idle if it succeeded or was canceled |
| `GroupProtocolOutcomes.JobsAreTakenOnce` | src/queues/processors/agent-run.processor.ts:30-50 | taking a job removes it and starts one actor at the beginning of its path; a retry is asked for known runs only |
| `GroupProtocolClosing.AtRest` | src/modules/agent/group-agent-session.service.ts:432-469 | when nobody has anything left to do, whatever interleaved or expired, every group run has ended; its lock is held exactly if it has not expired under the run and the run was stranded or erased; unless it has, the session points at the run exactly if it was stranded and not erased |
| `GroupProtocolClosing.WholeAtRest` | src/queues/processors/agent-run.processor.ts:30-182 | the same with handling in one step; there a run whose lock has not expired is erased only if another submission of its session lost its lock by expiry, and a session that still points at a run is busy |
| `GroupProtocolClosing.WholeAtRestUnlapsed` | src/modules/agent/agent.service.ts:293-376 | with handling in one step, where no submission of the session lost its lock by expiry, pointer, busy session and held lock remain exactly in the two stranded cases, all of them canceled runs |
| `GroupProtocolClosing.SessionsAtRest` | src/modules/agent/group-agent-session.service.ts:445-457 | with handling in one step a session at rest is busy exactly if it points at a run and has a token exactly then, and that run was stranded and not erased |
| `GroupProtocolClosing.PointedSessionsAreBusy` | src/modules/agent/group-agent-session.service.ts:412-430 | with the awaits of handling apart too, a session that points at a run is busy in every state that is passed |
| `GroupProtocolClosing.BusyForNothingIffTouchedLate` | src/modules/agent/group-agent-session.service.ts:460-468 | a step makes a session busy that points at no run if and only if it is the busy update of a status transition that found the run before its pointer was cleared |
| `GroupProtocolProgress.EveryActorEnds` | src/queues/processors/agent-run.processor.ts:30-182 | in every interleaving a worker, an artifact worker or a cancellation is over after at most 35 moves of its own |
| `GroupProtocolProgress.AnActorCanAlwaysMove` | src/queues/processors/artifact-sync.processor.ts:31-97 | until then some step moves it |
| `GroupProtocolRest.EveryRunCanComeToRest` | src/queues/processors/agent-run.processor.ts:30-182 | from every reachable state some steps, none of them an expiry, lead to one in which nobody has anything left to do |
| `GroupProtocolTraces.CancelBeforeMarkingStrands` | src/modules/agent/agent.service.ts:344-376 | a concrete run of the first stranded case |
| `GroupProtocolTraces.CancelInCatchWindowStrands` | src/queues/processors/agent-run.processor.ts:155-181 | a concrete run of the second |
| `GroupProtocolTraces.ExpiryAllowsTwoLiveRuns` | src/modules/agent/group-agent-session.service.ts:190-194 | a concrete run in which a lock expires and two runs of one chat are live |
| `GroupProtocolTraces.OvertakenRunStaysLocked` | src/modules/agent/group-agent-session.service.ts:445-457 | fourteen labels, no expiry, nothing stranded: at rest an ended run's token still locks its chat and no session points at it |
| `GroupProtocolLateTraces.LateMarkLeavesTheLock` | src/modules/agent/agent.service.ts:344-376 | thirteen labels with every handling in one step: at rest nothing is stranded and the session is idle, but the lock is held by the token of an ended run that never lost its lock |
| `GroupProtocolLateTraces.LateTouchLeavesTheSessionBusy` | src/modules/agent/group-agent-session.service.ts:460-468 | without expiry, at rest and with no lock held, the session is busy and points at no run |
| `AgentRunsRefine.ProcessIsARunOfTheProtocol` | src/queues/processors/agent-run.processor.ts:30-182 | from any state in which a queued run's job waits, and for every script, some interleaving of the transition system ends exactly in the store that the worker's method is proved to leave |
| `AgentRunsRefine.SyncRunIsARunOfTheProtocol` | src/queues/processors/artifact-sync.processor.ts:31-79 | from any state in which an artifact job waits, and for every pattern of failures, some interleaving ends exactly in the store that the artifact worker's method leaves |
| `AgentRunsComplete.EveryInterleavingIsAScript` | src/queues/processors/agent-run.processor.ts:30-182 | conversely, however the worker's awaits, any number of cancellations of the run at any moment and their handling interleave, once they are done the store is what the worker's method leaves for some script of the five cancellation points |
| `AgentRuns.RunLife` | src/queues/processors/agent-run.processor.ts:30-182 | from admission through both workers, for every executor outcome, cancellation point and output failure: the exact final status, the lock as before, and the session cleared, in error exactly after a failure or timeout; except in the catch window |
| `AgentRuns.Platform.TryAcquireLock` | src/modules/agent/group-agent-session.service.ts:190-194 | succeeds exactly when the chat is unlocked and then stores the token; nothing else changes |
| `AgentRuns.Platform.ReleaseLock` | src/modules/agent/group-agent-session.service.ts:196-211 | compare and delete with a token, plain delete without one |
| `AgentRuns.Platform.HandleRunStatusTransition` | src/modules/agent/group-agent-session.service.ts:432-469 | settles the one session that points at the run, if there is one: after an ending it is cleared, in error exactly for failed and timeout and idle otherwise; other sessions are as before |
| `AgentRuns.Platform.Transition` | src/modules/agent/agent.service.ts:326-336 | throws exactly when the table forbids it, otherwise writes the status and settles the session |
| `AgentRuns.Platform.CancelRun` | src/modules/agent/agent.service.ts:293-324 | a queued run is over and off its queue, a running one only gets the status |
| `AgentRuns.Platform.Process` | src/queues/processors/agent-run.processor.ts:30-182 | for every script of answers and cancellations ends the platform as `Processed` says, and throws exactly when the executor did and no cancellation came in time |
| `AgentRuns.Platform.QueueGroupExecution` | src/modules/agent/agent.service.ts:344-376 | run row, session row and job, in that order |
| `AgentRuns.Platform.HandleInteractiveGroupMessage` | src/modules/agent/agent.service.ts:57-226 | which of the answers is given, from the decision and the policy; a run is queued exactly on the execute branch, and in every other case the lock store, rows and queues are as before |
| `AgentRuns.Platform.SubmitGroupMessage` | src/modules/agent/agent.service.ts:228-278 | rejected exactly when the chat is locked, admitted otherwise |
| `AgentRuns.Platform.SyncRun` | src/queues/processors/artifact-sync.processor.ts:31-79 | a syncing run fails exactly when some output failed and succeeds otherwise, and its session says so; no other run changes |
| `ArtifactSyncs.ArtifactSyncProcessor.Process` | src/queues/processors/artifact-sync.processor.ts:31-79 | over both services: the outputs are synced, and a syncing run then fails exactly when some artifact is left failed, and succeeds exactly when each is synced or skipped |
| `FolderScans.ScanEntries` | src/modules/feishu/feishu-project-reader.service.ts:54-99 | whatever the page boundaries, the entries are the first `limit` of the breadth-first listing; each is a usable file of a requested page with that file's own token, name, kind and parent, in order; only the root and folders listed before are asked for; truncated exactly when some page overflowed its room |
| `FolderScans.ValidLists` | src/modules/feishu/feishu-project-reader.service.ts:304-340 | one entry for each file of a page with a token and no empty name, in order, with that file's token, name or else token as title, kind and parent |
| `FolderScans.CutOffUnflagged` | src/modules/feishu/feishu-project-reader.service.ts:73-77 | a listing whose server honours the page size, with more entries than the limit, and its crawl's one request: the flag is unset |
| `FolderScans.FlagMeansOverflow` | src/modules/feishu/feishu-project-reader.service.ts:73-82 | over the log of a crawl's requests, each sized by the room left, the flag is set exactly when some page held more valid entries than that room |
| `FolderScans.LimitPlusOneFoldersSuffice` | src/modules/feishu/feishu-project-reader.service.ts:59-61 | looking into more than limit + 1 folders changes none of the first `limit` entries, and fewer than `limit` entries are the whole listing |
| `FolderScans.ReadFolder` | src/modules/feishu/feishu-project-reader.service.ts:63-98 | the pages of one folder, sized by the room left, give the prefix of its listing that fits, and queue its folders |
| `FolderScans.AddItems` | src/modules/feishu/feishu-project-reader.service.ts:73-82 | takes what fits, queues the folders among it, reports whether something was left |
| `DocumentChoice.KeptIsTheNewest` | src/modules/feishu/feishu-project-reader.service.ts:101-108 | for every stable sort: nothing left out is newer than anything kept, at each edit time the kept ones are the first in crawl order, and all of them once anything older is kept |
| `DocumentChoice.StableSortIsUnique` | src/modules/feishu/feishu-project-reader.service.ts:103-107 | two stable sorts of the same entries are equal |
| `DocumentChoice.KeptCount` | src/modules/feishu/feishu-project-reader.service.ts:101-108 | as many as the limit or the readable entries allow, each of them a readable entry |
| `DocumentChoice.KeptAreTheLatestWordFiles` | src/modules/feishu/feishu-project-reader.service.ts:101-108 | what is kept are doc and docx files of the crawl in any letter case, latest edit first; none left out was edited later, and none is left out below the limit |
| `DocumentChoice.ScanProjectFolder` | src/modules/feishu/feishu-project-reader.service.ts:38-141 | no folder gives nothing; otherwise the prefix of the full listing and the documents chosen from it |
| `BitableReader.ReadRows` | src/modules/feishu/feishu-project-reader.service.ts:261-290 | the rows are the first `limit` records with an id and fields, each with its own id and fields, however the table is paged |
| `BitableReader.CalculateTaskStats` | src/modules/feishu/feishu-project-reader.service.ts:397-433 | each count is the size of the rows selected; total is open plus done, overdue at most open, blocked and unassigned at most total |
| `BitableReader.ConditionsByText` | src/modules/feishu/feishu-project-reader.service.ts:403-425 | done, blocked, unassigned and overdue in terms of the texts in the status, assignee and due columns and the words looked for |
| `BitableReader.ReadBitable` | src/modules/feishu/feishu-project-reader.service.ts:252-297 | nothing without both tokens; otherwise all five counts of those rows, and the first fifty |
| `EventLogs.PollerFromTheStart` | src/modules/agent/pi-mono.adapter.ts:683-692 | over every run of records, polls and early restarts the log holds what was recorded, text by text; a poller receives its rows in order, each once, and it has them all exactly when it was never more than a hundred behind |
| `EventLogs.PollerReceivesEverything` | src/modules/agent/pi-event-recorder.service.ts:36-46 | the same from any state: completeness is kept exactly by polls that are in time and never comes back |
| `EventLogs.PullIsASuffix` | src/modules/agent/pi-mono.adapter.ts:683-692 | for any number the caller gives, a pull returns the rows after it that are still in the window |
| `EventLogs.HydrationIsExact` | src/modules/agent/pi-mono.adapter.ts:1644-1661 | window and numbering are restored, and the next record is accepted, exactly when the log has at most a hundred rows |
| `EventLogs.RecordsLostAfterRestart` | src/modules/agent/pi-event-recorder.service.ts:36-62 | after a restart with n rows, n above a hundred, exactly the next n - 100 records are refused by the unique number |
| `EventLogs.EventRecorder.RecordRuntimeEvent` | src/modules/agent/pi-event-recorder.service.ts:29-66 | keeps the numbering gapless and the window the last hundred; memory moves on even when the insert is refused |
| `EventLogs.EventRecorder.HydrateRuntimeState` | src/modules/agent/pi-mono.adapter.ts:1644-1661 | reads the oldest hundred rows, once |
| `EventLogs.EventRecorder.PullRuntimeEvents` | src/modules/agent/pi-mono.adapter.ts:683-692 | everything after the caller's number exactly when it is at most a hundred behind |
| `TurnMachine.OneTurnAtATime` | src/modules/agent/pi-mono.adapter.ts:1684-1784 | in every interleaving whose resumptions find no turn, a turn's coroutine is live exactly when currentTurn is set and it is that turn's, a group runtime execution only happens while a turn is current, and what is steered goes to a live turn |
| `TurnMachine.OneTurnIsKeptIffResumedIdle` | src/modules/agent/pi-mono.adapter.ts:454-515 | every step keeps turns exclusive, except exactly a resumption that sets its turn while another is current |
| `TurnMachine.ExclusiveIffCareful` | src/modules/agent/pi-mono.adapter.ts:454-515 | over runs: turns are exclusive in every state that is passed if and only if no resumption sets its turn while another is current |
| `TurnMachine.ResumptionCanStartASecondTurn` | src/modules/agent/pi-mono.adapter.ts:465-496 | a message decided while a resumption awaits starts a turn, and then two are live |
| `TurnMachine.EachMessageIsPlacedOnce` | src/modules/agent/pi-mono.adapter.ts:381-451 | in every interleaving, resumptions included, a submitted message is on its way or was placed once; the queues and the SDK session hold exactly the messages placed there, in order; turns start once each |
| `TurnMachine.MessagesAreDecidedByTheState` | src/modules/agent/pi-mono.adapter.ts:381-451 | in every reachable state a message is steered exactly if the session executes and streams, otherwise held for the confirmation exactly if a nonempty reason waits, otherwise queued exactly if a turn is current, and starts one exactly otherwise |
| `TurnMachine.NoMessageStartsATurnWhileWaiting` | src/modules/agent/pi-mono.adapter.ts:386-399 | from a request for confirmation until a resumption no message starts a turn or queues for one, whatever else happens |
| `TurnMachine.ReasonIsTheLastRequest` | src/modules/agent/pi-mono.adapter.ts:1781-1783 | over every run the waiting reason is that of the last request since the last resumption, and executing, streaming and compacting are what was last reported |
| `TurnMachine.AcceptedIsHeldOnce` | src/modules/agent/pi-mono.adapter.ts:1666-1682 | over every run, and whatever follows, a message once decided stands exactly once among started turns, both queues and the SDK session, or nowhere; nowhere if and only if at that moment the session executed, streamed, and compacted or threw |
| `TurnMachine.CompactingDropsAMessage` | src/modules/agent/pi-mono.adapter.ts:1666-1682 | six labels after which a message answered as steered is nowhere |
| `TurnMachine.RuntimeSession.SubmitMessage` | src/modules/agent/pi-mono.adapter.ts:381-451 | the segment from the check to the answer: answer and new state from the fields of the old one |
| `TurnMachine.RuntimeSession.HandleStreamingSubmission` | src/modules/agent/pi-mono.adapter.ts:1666-1682 | steers unless the session compacts, and answers the same either way |
| `TodoLists.TaskIStaysTaskI` | src/modules/agent/pi-tool-registry.service.ts:550-622 | over every sequence of actions from the empty list task i has orderIndex i and its id and alias never change; ids are UUIDs, aliases are not and stand in the payload |
| `TodoLists.NamesStayResolved` | src/modules/agent/pi-tool-registry.service.ts:615-622 | once a name resolves it resolves to the same task for ever |
| `TodoLists.TaskDependsOnItsOwnActions` | src/modules/agent/pi-tool-registry.service.ts:574-612 | a task ends as the edits that name it make it, in order; other actions never touch it |
| `TodoLists.FieldsAreTheLastGiven` | src/modules/agent/pi-tool-registry.service.ts:574-612 | over every sequence of edits each of ten fields is the last value given for it: status by kind, reason and error with their resets, payload with its alias |
| `TodoLists.TasksAreWhatWasAskedLast` | src/modules/agent/pi-tool-registry.service.ts:550-612 | over every sequence of actions after its creation a task is what the creation asked for, overwritten by what the actions naming it give |
| `TodoLists.CreatedAsAsked` | src/modules/agent/pi-mono.adapter.ts:1852-1880 | a created task is queued and has the fields asked for, with the defaults for a missing title and intent |
| `TodoLists.CreatedIsFoundIffItsNameIsNew` | src/modules/agent/pi-tool-registry.service.ts:551-572 | a created task answers to its requested name exactly when nothing answered to it before |
| `TodoLists.UuidsAreInGroups` | src/modules/agent/pi-tool-registry.service.ts:624-626 | a name is taken for an id exactly if it is five groups of 8, 4, 4, 4 and 12 hexadecimal digits with version 1 to 5 and the usual variant |
| `TodoLists.Find` | src/modules/agent/pi-mono.adapter.ts:1917-1924 | the first task whose id or alias is the trimmed name |
| `TodoLists.TodoList.TransitionRuntimeTask` | src/modules/agent/pi-mono.adapter.ts:1852-1915 | appends what was created, or edits the one entry named and no other |
| `Crons.MatchingIsMembership` | src/modules/digest/project-digest.service.ts:251-305 | for every five-field schedule tree, matching its text is membership of all five time parts in what it denotes |
| `Crons.FieldMatchesItsMeaning` | src/modules/digest/project-digest.service.ts:267-269 | a field matches exactly the values that one of its terms denotes |
| `Crons.TermMatchesItsMeaning` | src/modules/digest/project-digest.service.ts:271-305 | a term matches exactly the values start + k * step up to its end |
| `Crons.TextsThatAreNotNumbers` | src/modules/digest/project-digest.service.ts:271-305 | an unreadable or zero step or an unreadable number matches nothing, and an unreadable end of a range is no bound |
| `Crons.DefaultSchedules` | src/modules/digest/project-digest.service.ts:44-45 | the default texts mean weekdays at ten and Fridays at seventeen |
| `DigestSchedules.OneJobPerSessionTypeAndDate` | src/queues/processors/project-digest.processor.ts:49-83 | over any scans at any times, with digests finishing and rows changing in between, at most one job per session, type and local date; each is marked internal exactly if it goes to the internal digest only |
| `DigestSchedules.EachJobIsForOneSessionTypeAndDate` | src/queues/processors/project-digest.processor.ts:77-79 | different sessions, types or dates never share a job |
| `DigestSchedules.JobIdIsInjective` | src/modules/digest/project-digest.service.ts:215-218 | session, date and type can be read back from the job id |
| `DigestSchedules.PeriodKeyLooks` | src/modules/digest/project-digest.service.ts:215-218 | the period key is year, two-digit month, two-digit day and the type's name |
| `DigestSchedules.ScanQueuesEverythingDue` | src/queues/processors/project-digest.processor.ts:59-82 | after a scan there is a job for every digest due to a scanned session, and none was lost |
| `DigestSchedules.ScanQueuesOnlyWhatIsDue` | src/queues/processors/project-digest.processor.ts:49-83 | a job that a scan adds is for a session of the scan that is not busy, of a type its policy and the clock call for |
| `DigestSchedules.DueAgainIffOtherFinishedLast` | src/modules/digest/project-digest.service.ts:238-249 | over any digests finishing in order, one that finished today is due again exactly when the last to finish is of the other type |
| `DigestSchedules.WeeklyMakesDailyDueAgain` | src/modules/digest/project-digest.service.ts:238-249 | with the default schedules on a Friday at ten: daily due, not due once finished, due again after a weekly one |
| `DigestSchedules.DueJobsAreTheDueTypes` | src/modules/digest/project-digest.service.ts:34-78 | the jobs are those of the due types, each once |
| `DigestSchedules.GetScheduledDigestJobs` | src/modules/digest/project-digest.service.ts:34-78 | a type is among the jobs exactly if the policy wants it, its own schedule matches the local time and it is not what finished last, today; daily before weekly |
| `DigestSchedules.TargetChannels` | src/modules/digest/project-digest.service.ts:220-236 | which channels are among the targets, each exactly when the policy says so |
| `DigestSchedules.DigestQueue.ProcessScan` | src/queues/processors/project-digest.processor.ts:49-83 | the queue after the nested loops, busy sessions skipped |
| `RepoSyncSafety.OneSyncPerEnvironment` | src/modules/repo/repo-sync.service.ts:26-38 | in every interleaving two running syncs are never of one environment, and the map lists exactly the running ones |
| `RepoSyncSafety.JoinersShareTheResult` | src/modules/repo/repo-sync.service.ts:26-38 | a call is answered exactly when the sync it started or joined has settled, and every call of one sync gets the result of what it wrote: uninitialized without URL, ready with the head git gave, or error with git's message |
| `RepoSyncSafety.RowsSayWhatIsSyncing` | src/modules/repo/repo-sync.service.ts:135-142 | while a sync waits for git its row is syncing and shows no error |
| `RepoSyncSafety.StoresAgreeAfterEverySync` | src/modules/repo/repo-sync.service.ts:114-244 | with no sync in flight manifest and row agree, are not syncing, and hold the head the completed syncs left |
| `RepoSyncSafety.HeadIsTheLastMove` | src/modules/repo/repo-sync.service.ts:216-228 | that head is the last successful sync's, unless a sync without URL came later |
| `RepoSyncs.Environment.EnsureRepoFreshInternal` | src/modules/repo/repo-sync.service.ts:114-214 | one sync on its own leaves manifest, row and result in agreement: ready exactly when git gave a head, error exactly when it failed, uninitialized exactly without URL; a failure keeps the head |
| `RepoSyncs.RepoSyncService.EnsureRepoFresh` | src/modules/repo/repo-sync.service.ts:26-38 | joins the sync in flight or starts the next one |
| `RepoSyncs.RepoSyncService.Finally` | src/modules/repo/repo-sync.service.ts:33-35 | removes the entry and answers every caller of the sync |
| `ArtifactHistory.OneArtifactPerHash` | src/modules/artifact/artifact.service.ts:29-58 | over every history of runs, syncs and retries and every Feishu failure, one artifact per project, type and hash |
| `ArtifactHistory.SyncedAndSkippedAreFinal` | src/modules/artifact/artifact.service.ts:72-74 | a synced or skipped artifact never changes again, and every status moves as the table allows |
| `ArtifactHistory.ArtifactsAreTheirAttempts` | src/modules/artifact/artifact.service.ts:60-149 | over every history an artifact is what its own attempts make of it, and what Feishu was asked to make for it is what they made, in order |
| `ArtifactCounts.DocumentsMade` | src/modules/feishu/feishu.service.ts:99-147 | a document artifact has one document if it is synced and one more for each attempt refused after the creation; at most one creation ever returned |
| `ArtifactCounts.OneDocumentIffNoneHalfMade` | src/modules/artifact/artifact.service.ts:94-101 | one document exactly when synced and none otherwise, if and only if no attempt was refused after the creation |
| `ArtifactCounts.RetryMakesASecondDocument` | src/modules/artifact/artifact.service.ts:135-147 | one refused block conversion and a good retry: synced, with two documents |
| `ArtifactCounts.FilesMade` | src/modules/artifact/artifact.service.ts:124-132 | a file is uploaded once if its artifact is synced and never otherwise |
| `ArtifactCounts.RowsMade` | src/modules/artifact/artifact.service.ts:110-121 | a task artifact's rows are the sum of what its attempts wrote, row j once for every attempt that got as far |
| `ArtifactCounts.NoRowTwiceIffOneAttemptWrites` | src/modules/artifact/artifact.service.ts:113-121 | no row is written twice if and only if no two attempts wrote any row |
| `ArtifactCounts.EachRowOnceIffRefusedAtTheFirst` | src/modules/artifact/artifact.service.ts:113-121 | a synced artifact has each row exactly once if and only if every earlier attempt was refused at its first row |
| `ArtifactCounts.OnlyWhatWasAsked` | src/modules/artifact/artifact.service.ts:81-122 | whatever was created, its output asked for, and an attempt made it while the group's policy allowed that kind of write |
| `ArtifactCounts.ArtifactsAreAsTheirLastAttemptEnded` | src/modules/artifact/artifact.service.ts:60-149 | over every history an artifact is as its last attempt ended: skipped exactly if not asked for or forbidden by the policy, otherwise synced exactly if every request was accepted, with what Feishu answered or the error kept; all earlier attempts were refused |
| `ArtifactCounts.RetryWritesRowsAgain` | src/modules/artifact/artifact.service.ts:113-121 | two rows, the second refused, and a retry: three rows, the first twice |
| `ArtifactCounts.RetryRefusedAtOnceRepeatsNothing` | src/modules/artifact/artifact.service.ts:113-121 | a retry refused at its first row, after an attempt that wrote one: failed, with that row once |
| `ArtifactHistory.RunIsItsOutputs` | src/queues/processors/artifact-sync.processor.ts:41-47 | a run's loop is its outputs one after the other, so the statements above cover it |
| `Artifacts.ArtifactTableInWords` | src/common/state/state-machine.ts:14-19 | pending and failed may become anything but pending; exactly the synced and skipped statuses admit nothing else |
| `Artifacts.AttemptEnds` | src/modules/artifact/artifact.service.ts:60-149 | the same for one attempt, from the output, the policy and Feishu's answers |
| `Artifacts.RowIdsReadBack` | src/modules/artifact/artifact.service.ts:113-121 | the ids of the rows written can be read back from the text they are joined into |
| `Artifacts.ArtifactService.CreateFromOutput` | src/modules/artifact/artifact.service.ts:29-58 | keeps the rows exactly if one of that project, type and hash is there, and otherwise appends one pending row |
| `Artifacts.ArtifactService.CreateFeishuDocument` | src/modules/feishu/feishu.service.ts:99-147 | three requests, the last two only with a token and a text; the document stands if a later one is refused |
| `Artifacts.ArtifactService.SyncArtifact` | src/modules/artifact/artifact.service.ts:60-149 | ends as the policy, the channels asked for and Feishu's answers say; its status checks never fail |
| `Artifacts.ArtifactService.RetrySync` | src/modules/artifact/artifact.service.ts:151-155 | the same as a sync |
| `Artifacts.ArtifactService.MarkSynced` | src/modules/artifact/artifact.service.ts:157-177 | throws exactly when the table forbids it; clears error and skip reason |
| `Artifacts.ArtifactService.MarkSkipped` | src/modules/artifact/artifact.service.ts:179-198 | throws exactly when the table forbids it; keeps the reason |
| `Artifacts.ArtifactService.WriteRows` | src/modules/artifact/artifact.service.ts:110-121 | writes rows until one is refused and joins the ids of those written |
| `Artifacts.ArtifactService.SyncOutputs` | src/queues/processors/artifact-sync.processor.ts:41-47 | reports for each output the status its artifact has after its sync, never pending |
| `ProjectConfigs.ParsedForm` | src/modules/config/project-config.parser.ts:13-109 | for every form without line terminators the printed text parses, with nothing missing, to the trimmed name, the fixed environment name and the enabled flag, and to nothing else: no members, no skills, no memory |
| `ProjectConfigs.ParsedByItsSections` | src/modules/config/project-config.parser.ts:13-38 | for every text, each part is read from the last section of its name, and exactly the project and the environment are reported when empty or missing |
| `ProjectConfigs.EachItemSetsItsField` | src/modules/config/project-config.parser.ts:48-99 | a section with one item sets that item's field, trimmed, and no other |
| `ProjectConfigs.MemberRowReadsBack` | src/modules/config/project-config.parser.ts:72-88 | a member row comes back as its four trimmed cells unless it is the table's head |
| `ProjectConfigs.SkillReadsBack` | src/modules/config/project-config.parser.ts:101-109 | a skill item comes back trimmed |
| `ProjectConfigs.FlagsComeBackUnlessMentionOnly` | frontend/src/hooks/useGroupConfig.ts:4-20 | both flags survive exactly when mention only was off |
| `ProjectConfigs.SectionEndsWithItsFirstLine` | src/modules/config/project-config.parser.ts:42-43 | the lazy section text ends at the first place its look-ahead holds, the end of its first line |
| `ProjectConfigs.ScanIsByLines` | src/modules/config/project-config.parser.ts:40-49 | in every text of header lines and plain lines each header takes the line below it |
| `ProjectConfigs.FormSections` | frontend/src/hooks/useGroupConfig.ts:4-20 | the printed text has three sections, each holding its first line |
| `ProjectConfigs.EveryFieldIsPrinted` | frontend/src/hooks/useGroupConfig.ts:4-20 | the printed text has fifteen lines, with each field of a flat form behind its own label |
| `ProjectConfigs.ExtractSections` | src/modules/config/project-config.parser.ts:40-49 | the loop collects all matches, a later section replacing an earlier one |

## Left out

Modelled differently:

- The check of the status table and the write in `transition` and `cancelRun` are one step; the code has no compare-and-set there.
- `GroupProtocolClosing.SessionsAtRest` takes `handleRunStatusTransition` as one step; with its awaits apart a session can be busy for nothing, as `GroupProtocolClosing.BusyForNothingIffTouchedLate` says.
- Database and queue calls do not fail and tokens are fresh; a failing queue in `submitGroupMessage` would leave the lock, since its return is not awaited.
- `AgentRuns.Platform.Process` lets cancellations land at five places between the worker's awaits; `AgentRunsComplete` shows that others end as these do.
- `AgentRunsComplete.EveryInterleavingIsAScript` is about one worker and cancellations of its run, handled in one step; other submissions, expiry and split handling are in `GroupProtocol`.
- Runs without a chat session, digests among them, enter the transition system as plain runs; the digest worker's own writes are not in it.
- disableByChat and closeSession, which delete a lock without a token, and the administrative endpoints.
- `TurnMachine.OneTurnAtATime` takes other executions on the session key as steps that may clear the execution field at any time, so it says nothing of when a live turn's prompt shows there.
- `TurnMachine.RuntimeSession.SubmitMessage` is about one session state; two opened at once for one key are not modelled, nor the todo edits of a resumption.
- `TurnMachine.EachMessageIsPlacedOnce` says where messages wait; nothing in the code drains the two queues.
- `Crons.MatchingIsMembership` is about in-range time parts; the matcher itself reads a numeral only when it is decimal digits, so signs, fractions, exponents and other JavaScript numerals count as not a number.
- `DigestSchedules.DueAgainIffOtherFinishedLast` assumes that the instants of one local date form an interval, as they do unless clocks are put back across midnight.
- `DigestSchedules.OneJobPerSessionTypeAndDate` assumes a queue that ignores repeated ids, and session ids without a colon; time zone conversion is a parameter.
- `TodoLists.TaskIStaysTaskI` is about todo actions; a confirmation request, which marks a task waiting, is not one.
- `BitableReader.CalculateTaskStats` takes cells as rendered text, the choice of columns as given and date parsing as a parameter.
- `DocumentChoice.ScanProjectFolder` leaves out the documents' contents and the folder and document caches.
- `FolderScans.ScanEntries` assumes that a page and what follows it are what was left before, and finitely many pages a folder; links and request errors are not modelled.
- `RepoSyncs.Environment.EnsureRepoFreshInternal` leaves out git, the file system and paths; writing the manifest does not fail.
- `Artifacts.ArtifactService.SyncArtifact` takes a refused request as one that made nothing; a request whose answer is lost is not modelled.
- `Artifacts.ArtifactService.CreateFromOutput` runs one at a time; the unique index that guards concurrent runs is not modelled, and the hash is a parameter.

Not modelled:

- Feishu HTTP, encryption, signatures, BullMQ, Prisma, Redis, git and the Pi SDK; their answers are parameters or choices.
- Prompt texts, message texts and logging.
- Confirmations, whose second confirm submits again.
- Frontend pages, controllers and HTML consoles.
- That at most one todo is running: the code lets start follow anything.
- Joining day and weekday by "or" as crontab does: the code conjoins all five fields.
