# Investigation runs, tool governance and their stores

Deepticket lets an agent investigate problems in chats, tickets and ingress events. An investigation
is a *run*: a persisted state machine that a chat task drives, that a tool-call hook can pause for an
operator's approval, that operators resume or reject, that users cancel, and that a restart recovers.
Every party also leaves an append-only audit log. This project models that protocol as a step system,
with the stores under it, and four further cores: the incremental decoding of the reply stream, the
local storage and chat history as indexes that must agree with their contents, configuration merging
with the two-way permission index, and the ingress queue.

`dafny verify dfyconfig.toml` checks everything.

## How the model is laid out

- `RunModel.dfy`, `RunDb.dfy`, `Approvals.dfy`, `Policy.dfy`: the run, its transition table and audit
  events; the run and event stores as one value with each store operation a function on it; requests,
  one-time grants and a history of what was resolved and let through; the policy chain.
- `World.dfy`: the protocol. A step is one stretch of code between two suspension points: store
  methods never await, and the manager's lock is never held across an await, so the exit of a task
  (handler, `finally`, removal from the registry) is one stretch too. `Exec(gov, steps)` is the state
  after any list of steps; a step that is not enabled does nothing, so every list is a run.
- `Settling.dfy`, `Safety.dfy`: how a task ends, and the invariant that every step of every party
  keeps. `SingleFlight.dfy`: one live task and one unfinished run per chat. `Theorems.dfy`: what holds
  in every run of the protocol. `StuckTasks.dfy`, `Freeing.dfy`: a task that is cancelled before its
  first step, what frees its chat, and when nothing but a restart does. `Tickets.dfy`: runs without a
  chat that are left RUNNING. `Decisions.dfy`: what approving, rejecting, cancelling and pausing come to.
  `Witnesses.dfy`: explicit lists of steps that reach the states in which something goes wrong.
- `Stores.dfy`, `ApprovalBook.dfy`, `Service.dfy`: the same operations in the form the code has, as
  classes whose methods rewrite fields; each method is proved against the function or step it takes,
  so what the theorems say of the steps holds of the methods (one row a class stands for `Service.dfy`
  and `ApprovalBook.dfy` below).
- `FanOut.dfy`, `StreamReply.dfy`: subscriber queues; reply decoding and the final pieces.
- `ZSets.dfy`, `Names.dfy`, `KeyCodec.dfy`, `LocalStorage.dfy`: sorted sets, file names, the file
  storage. `ChatHistory.dfy`, `Replay.dfy`, `ChatOrchestrator.dfy`: the chat store and the history
  that a new message is replayed with. `ChatFiles.dfy`: the tables of the chat store as hashes and
  sorted sets of the file storage under joined keys.
- `Merge.dfy`, `Permissions.dfy`, `IngressQueue.dfy`: the three smaller cores. `Text.dfy`,
  `Wrappers.dfy`: Python's string operations and the optional value.

Clocks are strictly increasing numbers, identifiers are values never drawn before, scores are integers
(they are only compared), storage calls do not fail, and keys that the code joins with `:` are tuples.

## Where the code does less than its documentation or a caller might expect

Each of these is proved, with the exact condition where there is one, and where that is not plain to
meet, with an input or a list of steps that meets it.

- A resume that finds the task of the same run still live leaves two live tasks in the chat, and a
  late event for an old run takes the greatest score of the chat, on which the 50-entry window relies,
  away from the unfinished one. From a state with single flight a step keeps it if and only if it is
  neither (`SingleFlight.FlightKeptExactly`); both happen (`Witnesses.TakeoverReached`,
  `Witnesses.LateEventReached`).
- A chat task that is cancelled before its first step never unregisters, be it the task of a message
  or the one that an approval creates; the run that such a task was to continue is over by then
  (`StuckTasks.StuckRunIsOver`). As long as its entry is there every message of the chat is refused, and
  a step takes the entry out if and only if it is a restart or some other task of that chat exits
  (`StuckTasks.FreedExactly`). It stays in every continuation without a restart if and only if no task
  of the chat is alive, registered or not (`Freeing.StuckForGoodExactly`), which is always so after a
  quiet run (`StuckTasks.CancelledForGood`). All three happen: a new task (`Witnesses.StuckReached`), a
  resumed one (`Witnesses.ResumedStuckReached`), and after a takeover an unregistered task that frees
  the chat by exiting (`Witnesses.FreedReached`).
- A run without a chat that is approved after its stream has ended is RUNNING with nothing behind it,
  until it is cancelled, another call of it is held back, or the server restarts: exactly those are
  RUNNING then (`Tickets.LeftRunningExactly`, reached in `Witnesses.LeftRunningReached`).
- Restart recovery fails started runs and writes no audit event; a run it finds CREATED or QUEUED
  stays unfinished (`RunDb.RecoveryLeavesUnstarted`). In the modelled protocol no run is left in those.
- A task that meets its own cancel request at a chunk finds the run cancelled already, and the chat is
  shown as failed (`Theorems.CancelShownAsFailed`, reached in `Witnesses.CancelShownReached`).
- The pending request of a run is searched among 21 index entries only, in the order of the length of
  the creation text and then the id (`Approvals.PendingMissedExactly`); with 21 resolved requests
  above it a pending one is missed (`Approvals.PendingMissedReached`).
- An unregistered tool under the mode `audit` is allowed even where the default denies
  (`Policy.UnknownToolsDiffer`).
- A chunk boundary inside an escape puts a backslash into the text that was given out
  (`StreamReply.ChunkIndependence`); such a cutting exists exactly for texts with a newline, tab,
  carriage return or quote (`StreamReply.WrongCutExists`).
- A subscriber that is 512 items behind never gets the end marker (`FanOut.EndMarkerExactly`,
  `FanOut.SlowNeverTold`).
- An empty storage key is listed as `.json` (`KeyCodec.KeyRoundTrip`).
- Patching and resolving commute except where a stored non-object hides a default object that an
  object patch does not cover (`Merge.PatchThenResolve`, `Merge.PatchOrderMatters`); `patch_mcp`
  replaces the stored servers, but a YAML server that is left out comes back when the configuration is
  resolved (`Merge.McpReplacement`).
- A member without a name is granted access that emptying the list does not revoke
  (`Permissions.NamelessMemberStays`). Only a direct call of `set_members` can send one: the API
  builds members from registered users, whose names have at least three characters
  (deepticket/api/routers/admin_projects.py:216-230).
- A second call of `stop` while one is pending leaves one end marker per worker on the queue, behind
  the jobs that were enqueued between the two calls (`IngressQueue.SecondStopLeavesMarkers`,
  `IngressQueue.SecondStopReached`).

## Model

The last five rows follow directly from the definitions; they are there because the code's callers rely on
them, not as main results.

| member | source | states |
|---|---|---|
| `Theorems.GrantsMatched` | deepticket/investigation/governance/gate.py:54-80 | in every run of the protocol each call whose policy verdict is require_approval was let through on an earlier approval of the same project, run and tool, no two on the same one; uses never exceed approvals; no request is resolved twice |
| `Theorems.GateDecides` | deepticket/investigation/governance/gate.py:49-151 | a call goes through exactly when a grant is outstanding or the policy allows it, exactly then it is recorded and the grant is gone, and a call held back leaves a pending request for its tool |
| `Theorems.GateAudits` | deepticket/investigation/governance/gate.py:63-151 | the audit log gains exactly the decision taken, and behind it the error of a call that was held back |
| `Theorems.ResumeEarned` | deepticket/chat_runs.py:285-298 | a run is resumed at most as often as requests of its own were approved, and pauses exceed resumptions by one exactly while it waits or when it ended waiting |
| `Theorems.AuditReplay` | deepticket/investigation/store.py:87-136 | the logged status changes are a walk through the table from CREATED to the stored status, one completion event exactly when that is terminal, times and counters agree; recovered runs are the exception, stated exactly |
| `Theorems.NothingTakenBack` | deepticket/investigation/events.py:43-74 | whatever happens later, no run disappears, start and finish times are written once, a terminal status is final, and neither log nor history loses an entry |
| `Theorems.TaskSettles` | deepticket/chat_runs.py:309-530 | whatever chunk, end or exception a suspended task meets, once its `finally` has run its run is terminal or WAITING_APPROVAL, it is unregistered and its chat is not shown as running |
| `Theorems.FirstStepSettles` | deepticket/chat_runs.py:285-318 | a task ends in its first step exactly when its chat was deleted, and then its run is settled too |
| `Theorems.TaskEndsAs` | deepticket/chat_runs.py:319-522 | the final status of run and chat as a table over the status before, the cancel flag and the exit taken |
| `Theorems.NeverStranded` | deepticket/chat_runs.py:266-530 | between steps no run is CREATED or QUEUED, and an unsettled chat run has a task suspended on its behalf |
| `Decisions.ApprovalContinues` | deepticket/api/routers/runs.py:129-155 | approving a waiting run without a chat approves its request, leaves the grant for its tool and makes it RUNNING |
| `Decisions.RejectionBlocks` | deepticket/chat_runs.py:171-192 | rejecting a run rejects its request, issues no grant, blocks the run for the given reason and idles its chat |
| `Decisions.ApprovedTaskResumes` | deepticket/chat_runs.py:285-318 | the first step after an approval makes the waiting run RUNNING, driven by that task, and shows the chat as running |
| `Decisions.CancelTellsTask` | deepticket/chat_runs.py:115-142 | a cancel ends the run where the table allows it, tells the task and unregisters nothing |
| `Decisions.HeldCallPauses` | deepticket/investigation/governance/approval_pause.py:27-54 | a call held back for approval pauses its running run and shows its chat as waiting |
| `SingleFlight.AlwaysSingleFlight` | deepticket/chat_runs.py:72-95 | over all quiet runs a chat has at most one live task and one unfinished run, which has the greatest score of its chat, and the window finds exactly what a full scan finds |
| `SingleFlight.FlightKeptExactly` | deepticket/chat_runs.py:233-249 | a step keeps single flight if and only if it is no resume over a live task and no event for an old run beside an unfinished one |
| `SingleFlight.TakeoverBreaks` | deepticket/chat_runs.py:235-258 | the resume that finds the live task of its run leaves two live tasks |
| `SingleFlight.LateEventBreaks` | deepticket/investigation/store.py:138-149 | an event for another run of the chat takes the greatest score away from the unfinished one |
| `SingleFlight.WindowExact` | deepticket/investigation/store.py:191-199 | under the invariant the 50-entry window agrees with a scan of all runs, both ways |
| `StuckTasks.FreedExactly` | deepticket/chat_runs.py:524-530 | a step takes the entry of a task that never ran, of a message or of an approval, out if and only if it is a restart or a task of that chat exits in it; while it is there `start` is refused |
| `StuckTasks.StuckUntilFreed` | deepticket/chat_runs.py:524-530 | over any continuation the entry is there all along if and only if no step of it is one of those |
| `StuckTasks.StuckForGood` | deepticket/chat_runs.py:72-76 | where no task of the chat is alive the entry stays in every continuation without a restart and `start` is refused after each |
| `Freeing.StuckForGoodExactly` | deepticket/chat_runs.py:524-530 | the entry stays in every continuation without a restart if and only if no task of the chat is alive, registered or not |
| `StuckTasks.CancelledForGood` | deepticket/chat_runs.py:146-147 | so it is after every quiet run that ends with a task, of a message or of an approval, cancelled before its first step |
| `StuckTasks.StuckRunIsOver` | deepticket/chat_runs.py:128-147 | in every run the task of an entry that stays behind was told to cancel, and the run it was to continue is over |
| `Tickets.LeftRunningExactly` | deepticket/api/routers/runs.py:129-155 | a run without a chat whose stream has ended is RUNNING exactly when it was approved and neither a cancel, a restart nor a held call has stopped it since |
| `Witnesses.TakeoverReached` | deepticket/chat_runs.py:235-258 | a first call that is held back and approved while its task is suspended leaves two live tasks, for every policy that asks for the approval |
| `Witnesses.TakeoverHappens` | deepticket/chat_runs.py:235-258 | such a run exists under a policy that asks for every call, so not every run is quiet |
| `Witnesses.LateEventReached` | deepticket/investigation/store.py:138-149 | a failed run, a second message and an event of the first run: the unfinished run loses the greatest score |
| `Witnesses.StuckReached` | deepticket/chat_runs.py:128-147 | a new chat whose first task is cancelled before its first step stays blocked in every continuation without a restart |
| `Witnesses.ResumedStuckReached` | deepticket/chat_runs.py:128-147 | so does a chat whose resumed task is, after a held call and its approval; its run is cancelled |
| `Witnesses.LeftRunningReached` | deepticket/chat_orchestrator.py:196-236 | a ticket run whose call is held back, whose stream ends and which is approved then is RUNNING with nothing behind it |
| `Witnesses.FreedReached` | deepticket/chat_runs.py:524-530 | a stuck chat that a resumed task, no longer registered, frees by exiting |
| `Witnesses.CancelShownReached` | deepticket/chat_runs.py:353-364 | a started task, a cancel and one more chunk: the run is cancelled and the chat shown as failed |
| `Safety.AlwaysSafe` | deepticket/chat_runs.py:115-258 | the invariant over runs, ledger, tasks, registry and chats holds after every list of steps |
| `Safety.GateSafe` | deepticket/investigation/governance/gate.py:49-151 | every outcome of the gate keeps the invariant |
| `Safety.HookSafe` | deepticket/investigation/governance/pre_tool_use.py:71-135 | so does the whole hook process, with the pause it causes |
| `Safety.GrantedSafe` | deepticket/chat_runs.py:194-206 | an approval keeps the invariant and leaves room for one more resumption of its run |
| `Safety.TaskStepSafe` | deepticket/chat_runs.py:319-530 | every step of a suspended task keeps the invariant and moves its own run only |
| `Settling.TaskOutcomeMoves` | deepticket/chat_runs.py:319-530 | what a step of a task may change: its run, its object, its chat's status and, when it ends, its registry entry |
| `Approvals.UsesBounded` | deepticket/investigation/approvals.py:126-176 | of one project, run and tool at most as many gated calls passed as requests were approved |
| `Approvals.ApprovalUsedInjective` | deepticket/investigation/approvals.py:167-176 | two gated calls never used the same approval |
| `Approvals.ResolvedForGood` | deepticket/investigation/approvals.py:126-145 | a request can be resolved exactly while it is pending; the next attempt is refused with the status it got; no other request or grant changes |
| `Approvals.PendingSound` | deepticket/investigation/approvals.py:112-124 | a request that the search reports is a stored pending request of that run |
| `Approvals.PendingMissedExactly` | deepticket/investigation/approvals.py:115-123 | it reports none exactly when the 21 top entries are all resolved, which for up to 21 requests means none is pending |
| `Approvals.PendingMissedReached` | deepticket/investigation/approvals.py:115-123 | with 21 or more resolved requests above it a pending request of the run is not found |
| `RunModel.PathPointwise` | deepticket/investigation/transitions.py:23-51 | in a walk each change is allowed, starts where the one before ended, and only the last reaches a terminal status |
| `RunModel.PausesAlternate` | deepticket/investigation/transitions.py:23-40 | on every walk pauses and resumptions alternate |
| `RunDb.TransitionKeeps` | deepticket/investigation/store.py:87-136 | a transition keeps audit trail, indexes and counters in agreement with the document |
| `RunDb.TransitionFacts` | deepticket/investigation/store.py:87-136 | which document and which events a successful transition leaves, and that it touches no other run |
| `RunDb.TransitionRuns` | deepticket/investigation/transitions.py:43-51 | a transition of a stored run succeeds exactly when the table allows it |
| `RunDb.AppendKeeps` | deepticket/investigation/events.py:43-74 | so does appending an event of the agent or the gate |
| `RunDb.SaveKeepsIndex` | deepticket/investigation/store.py:226-241 | after a save both indexes list the run with its updated_at and nothing that is not stored |
| `RunDb.BeginWorks` | deepticket/investigation/run_lifecycle.py:21-51 | a begun run is RUNNING with its owner and chat, and no other run is touched |
| `RunDb.RecoveryExact` | deepticket/investigation/store.py:201-224 | recovery over any listing fails exactly the started runs, keeps logs and loses nothing |
| `RunDb.RecoveryLeavesUnstarted` | deepticket/investigation/store.py:201-224 | a run stays unfinished exactly when it was CREATED or QUEUED |
| `RunDb.ActiveRunSound` | deepticket/investigation/store.py:191-199 | a run that the window reports is an unfinished run of that user and chat |
| `RunDb.ActiveRunFound` | deepticket/investigation/store.py:179-199 | the window reports the unfinished run whenever it has the greatest score of its chat |
| `Policy.EvaluateChain` | deepticket/investigation/policy/strategy.py:104-113 | the loop gives the answer of the first strategy that answers |
| `Policy.FirstMatchDecides` | deepticket/investigation/policy/strategy.py:98-113 | the verdict is that of the first custom strategy that answers, else that of the YAML rules; the chain's default is never reached |
| `Policy.MostSpecificDecides` | deepticket/investigation/policy/strategy.py:40-96 | the YAML decision is that of the most specific source that says anything |
| `Stores.Storage.Append` | deepticket/investigation/events.py:43-74 | one more entry at the end of the run's log, with the next sequence number, and the run's counters |
| `Stores.Storage.Move` | deepticket/investigation/store.py:87-136 | the stored state is that of the transition, and an error is reported before anything is written |
| `Stores.Storage.SaveRun` | deepticket/investigation/store.py:226-241 | the document and both index entries |
| `Stores.Storage.Create` | deepticket/investigation/store.py:55-79 | a new CREATED run under an identifier never drawn before |
| `Stores.Storage.Begin` | deepticket/investigation/run_lifecycle.py:32-51 | create, record, start |
| `Stores.Storage.RunsForChat` | deepticket/investigation/store.py:179-189 | the listed runs are the stored ones from the top of the index |
| `Stores.Storage.ActiveRunForChat` | deepticket/investigation/store.py:191-199 | the first unfinished run of the user in the window |
| `Stores.Storage.FailOrphanedRuns` | deepticket/investigation/store.py:201-224 | recovery over the keys in any order, and its result counts the runs that were started |
| `Stores.LogGrows` | deepticket/investigation/events.py:53-69 | documents, index and counter hold exactly the log: sequence numbers are 1 to n |
| `Stores.IndexOrder` | deepticket/investigation/events.py:84-86 | the index lists the events in the order they were appended |
| `Stores.Storage.ListEvents` | deepticket/investigation/events.py:76-97 | a page holds the events that follow the given number, one after another, as many as asked for within 1 to 500 |
| `Stores.Storage.ReadAll` | deepticket/investigation/events.py:76-97 | paging by the last number seen, with any page sizes, ends and gives the whole log once in order |
| `ApprovalBook.ApprovalStore.ResolveRequest` | deepticket/investigation/approvals.py:126-145 | resolves a pending request; a missing or resolved one is an error and nothing changes; the search and the grants of the class agree with their functions in the same way |
| `Service.ToolGovernanceGate.EvaluateContext` | deepticket/investigation/governance/gate.py:49-151 | the gate's changes to log, requests and grants and its result are those of the modelled gate |
| `Service.ChatRunManager.EvaluateHookEvent` | deepticket/investigation/governance/pre_tool_use.py:71-135 | the hook takes its protocol step and allows the tool exactly when the gate does not block it; the other methods of the class take the step of their name in the same way |
| `FanOut.AlwaysInOrder` | deepticket/chat_runs.py:97-109 | every subscriber gets an in-order, duplicate-free selection of what was broadcast after it attached |
| `FanOut.CompleteExactly` | deepticket/chat_runs.py:532-537 | it gets everything exactly when its queue was never full at a put |
| `FanOut.EndMarkerExactly` | deepticket/chat_runs.py:539-544 | the end marker reaches it exactly when its queue has room at that moment |
| `FanOut.SlowNeverTold` | deepticket/chat_runs.py:539-544 | a subscriber that reads nothing during 512 chunks or more never gets the marker |
| `FanOut.ChatRun.Broadcast` | deepticket/chat_runs.py:532-544 | the item is offered once to every subscriber |
| `FanOut.ChatRun.OnChunk` | deepticket/chat_runs.py:347-351 | a chunk's text joins the reply and the chunk is offered to every subscriber |
| `FanOut.ChatRun.Reply` | deepticket/chat_runs.py:366-387 | the stored reply is the text of the broadcast chunks, whatever the subscribers did |
| `StreamReply.ReadJsonStringValue` | deepticket/layers/engine/stream_reply.py:19-35 | the loop reads the value as far as the buffer goes |
| `StreamReply.ReadShows` | deepticket/layers/engine/stream_reply.py:19-35 | reading any prefix of an encoded text shows its complete characters, and a backslash for an escape cut in two |
| `StreamReply.PrefixShows` | deepticket/layers/engine/stream_reply.py:38-53 | what is visible of any prefix of the wire; nothing before the value starts |
| `StreamReply.ChunkIndependence` | deepticket/layers/engine/stream_reply.py:19-69 | for every text, tail and cutting the text given out has the length of the message and equals it but for a backslash where an escape was cut; it is the message exactly when every cut escape is a backslash's |
| `StreamReply.WrongCutExists` | deepticket/layers/engine/stream_reply.py:19-69 | some cutting gives a wrong text exactly when the text has an escaped character that is no backslash |
| `StreamReply.ResetStartsOver` | deepticket/layers/engine/stream_reply.py:14-16 | after a reset the output is that of a new state |
| `StreamReply.ReplyStreamState.ConsumeStreamContent` | deepticket/layers/engine/stream_reply.py:56-69 | the new state and the new text of one token |
| `StreamReply.StreamTextDeltas` | deepticket/layers/engine/openhands_engine.py:961-976 | the pieces that are put on the queue, for both step sizes |
| `StreamReply.PiecesWhole` | deepticket/layers/engine/openhands_engine.py:970-976 | the pieces are non-empty, bounded and concatenate to the text |
| `StreamReply.EmitFinalReply` | deepticket/layers/engine/openhands_engine.py:978-997 | which pieces follow the streamed text |
| `StreamReply.EndToEndText` | deepticket/layers/engine/openhands_engine.py:961-997 | with no escape cut and no reset, what was given out for the tokens followed by the pieces is exactly the final text, wherever the stream broke off |
| `ZSets.SortedMembers` | deepticket/layers/storage/local.py:121-131 | the loop lists the members by score and then name, or in reverse |
| `ZSets.SliceIsRedisRange` | deepticket/layers/storage/local.py:133-140 | the slice is the rank range that the Redis commands use, for all positive and negative bounds |
| `ZSets.RevRangeIsReverse` | deepticket/layers/storage/local.py:142-148 | zrevrange over everything is the reverse of zrange |
| `ZSets.OrderedDropRange` | deepticket/layers/storage/local.py:168-175 | without a rank range the other members keep their order |
| `KeyCodec.DecodeEncode` | deepticket/layers/storage/local.py:22-28 | unquoting an encoded key gives the key |
| `KeyCodec.KeyRoundTrip` | deepticket/layers/storage/local.py:60-74 | the stem of the file name gives back the key exactly when the key is not empty |
| `KeyCodec.FilesDistinct` | deepticket/layers/storage/local.py:22-28 | distinct keys never share a file |
| `LocalFiles.LocalStorage.ListKeys` | deepticket/layers/storage/local.py:60-74 | the sorted keys of everything that is no sorted set; without an empty key each exactly once |
| `LocalFiles.LocalStorage.GetJson` | deepticket/layers/storage/local.py:30-37 | the stored document; a sorted set is none |
| `LocalFiles.LocalStorage.SetJson` | deepticket/layers/storage/local.py:39-43 | what is stored under the key and that no other key changes |
| `LocalFiles.LocalStorage.DeleteMany` | deepticket/layers/storage/local.py:51-58 | exactly the given keys are gone |
| `LocalFiles.LocalStorage.HSet` | deepticket/layers/storage/local.py:85-93 | the fields join the hash that is there; a sorted set under the key is lost |
| `LocalFiles.LocalStorage.HGetAll` | deepticket/layers/storage/local.py:76-83 | the hash, or nothing for a sorted set |
| `LocalFiles.LocalStorage.ZAdd` | deepticket/layers/storage/local.py:113-119 | the scores of the mapping replace or join those that are there |
| `LocalFiles.LocalStorage.ZRange` | deepticket/layers/storage/local.py:147-148 | the Redis rank range of the members in order |
| `LocalFiles.LocalStorage.ZRevRange` | deepticket/layers/storage/local.py:142-145 | the same of the reverse order |
| `LocalFiles.LocalStorage.ZRem` | deepticket/layers/storage/local.py:153-166 | exactly the given members are gone, and with the last one the file |
| `LocalFiles.LocalStorage.ZRemRangeByRank` | deepticket/layers/storage/local.py:168-175 | removes exactly the members it returns, those at the given ranks, and the others keep their order |
| `ChatHistory.AppendHolds` | deepticket/layers/storage/chat_history.py:187-191 | storing and trimming keeps the index at the newest 200 messages with a hash for exactly those |
| `ChatHistory.NewestKept` | deepticket/layers/storage/chat_history.py:325-339 | after any n appends the index lists the last min(n, 200) in order and hashes exist for exactly the listed ids |
| `ChatHistory.StepOk` | deepticket/layers/storage/chat_history.py:403-420 | work on one chat keeps the invariant of all |
| `ChatHistory.ChatHistoryStore.TrimMessages` | deepticket/layers/storage/chat_history.py:325-339 | removes the messages beyond the newest 200 with their hashes |
| `ChatHistory.ChatHistoryStore.AppendMessage` | deepticket/layers/storage/chat_history.py:151-219 | the message joins what was said, the count is that of the index, no other chat changes, the chat is the newest of its user, and its title and search text are what the message makes of them |
| `ChatHistory.NamedOnce` | deepticket/layers/storage/chat_history.py:195-197 | a new chat is named by the first user message that has some text and keeps that name through all later messages |
| `ChatHistory.ChatHistoryStore.GetThread` | deepticket/layers/storage/chat_history.py:65-75 | the last min(n, 200) messages in the order they were said |
| `ChatHistory.ChatHistoryStore.CreateThread` | deepticket/layers/storage/chat_history.py:108-132 | a new empty chat at the top of its user's list |
| `ChatHistory.ChatHistoryStore.DeleteThread` | deepticket/layers/storage/chat_history.py:134-149 | the chat is gone with all its messages and no other chat changes |
| `ChatHistory.ChatHistoryStore.SetAgentRunStatus` | deepticket/layers/storage/chat_history.py:256-276 | status and error of an existing chat; an error for a missing one |
| `ChatHistory.ChatHistoryStore.ListThreads` | deepticket/layers/storage/chat_history.py:33-63 | exactly the user's chats, newest first |
| `ChatFiles.MessageNameUnique` | deepticket/layers/storage/chat_history.py:415-416 | parts without a colon are told apart in a joined key |
| `ChatFiles.ChatFileStore.StoreMessage` | deepticket/layers/storage/chat_history.py:187-190 | hset and zadd leave in the files what storing leaves in the tables, for every chat |
| `ChatFiles.ChatFileStore.TrimMessages` | deepticket/layers/storage/chat_history.py:325-339 | the storage calls of the trimming leave in the files what it leaves in the tables |
| `ChatFiles.ChatFileStore.Append` | deepticket/layers/storage/chat_history.py:187-215 | the files after the storage calls of an append hold the tables after it |
| `ChatFiles.ChatFileStore.Erase` | deepticket/layers/storage/chat_history.py:134-149 | the files after the storage calls of a deletion hold the tables after it |
| `ChatFiles.ChatFileStore.ReadIndex` | deepticket/layers/storage/chat_history.py:71-74 | the ids that the files list are those of the index in order |
| `Replay.CurrentMessageLeftOut` | deepticket/chat_orchestrator.py:40-63 | storing the current message first and leaving it out afterwards gives the usable messages from before, also for a repeated or blank message |
| `Replay.HistoryFromThread` | deepticket/chat_orchestrator.py:40-63 | the loop gives the usable messages without the current one |
| `Replay.HistoryPrefixMatchLen` | deepticket/layers/engine/conversation_history.py:40-55 | the length of the longest common beginning |
| `Replay.HistoryIsSynced` | deepticket/layers/engine/conversation_history.py:58-67 | true exactly when the filtered history is the beginning of the agent's messages |
| `Replay.FilterChatHistory` | deepticket/layers/engine/conversation_history.py:28-37 | the pairs of role and normalised text |
| `ChatOrchestrator.ReplayedHistory` | deepticket/chat_orchestrator.py:119-136 | the replayed history is the usable messages among the newest 199 before the current one |
| `ChatOrchestrator.PrepareTurn` | deepticket/chat_orchestrator.py:107-136 | append, read and filter give that history, and no other chat changes |
| `Merge.DeepMerge` | deepticket/projects/merge.py:7-19 | the loop computes the recursive merge |
| `Merge.MergeIdempotent` | deepticket/projects/merge.py:7-19 | merging the same override again changes nothing |
| `Merge.MergeIsOverride` | deepticket/projects/merge.py:7-19 | the result is the override itself exactly when the override covers the base |
| `Merge.MergeAssociates` | deepticket/projects/merge.py:7-19 | merging associates exactly when no default object is hidden by a stored non-object and left uncovered by an object patch |
| `Merge.PatchThenResolve` | deepticket/projects/store.py:122-133 | patching the stored configuration and resolving equals resolving and patching, under exactly that condition |
| `Merge.PatchOrderMatters` | deepticket/projects/store.py:122-133 | a text stored over an object default, patched with an empty object: the two orders differ |
| `Merge.McpReplacement` | deepticket/projects/store.py:163-178 | the stored servers are the given ones and no other key changes; the effective ones are exactly when the given ones cover the YAML ones |
| `Merge.ProjectConfigStore.ApplyPatch` | deepticket/projects/store.py:122-133 | what is stored and returned, and that no other project changes |
| `Merge.ProjectConfigStore.PatchMcp` | deepticket/projects/store.py:163-178 | the same for replacing the servers |
| `Merge.ProjectConfigStore.Delete` | deepticket/projects/store.py:199-207 | neither the default project nor an unstored one is deleted; another is gone from both tables |
| `Permissions.SetMembersExact` | deepticket/projects/permissions.py:34-49 | set_members keeps the two indexes in agreement exactly when the given ids are the ids that will be listed |
| `Permissions.AlwaysConsistent` | deepticket/projects/permissions.py:21-77 | after every sequence of calls with trimmed, non-blank ids a user is listed as member exactly of the projects in the user's list |
| `Permissions.NamelessMemberStays` | deepticket/projects/permissions.py:29-48 | a member without a name keeps access when the list is emptied |
| `Permissions.ProjectPermissionStore.SetMembers` | deepticket/projects/permissions.py:34-49 | who gains and who loses the project, and that agreement is kept |
| `Permissions.ProjectPermissionStore.EnsureDefaultAccess` | deepticket/projects/permissions.py:67-74 | adds an unlisted user, grants again to a listed one, and keeps agreement |
| `Permissions.ProjectPermissionStore.ListProjectIds` | deepticket/projects/permissions.py:63-65 | the sorted projects that the user has access to |
| `IngressQueue.GracefulDrain` | deepticket/layers/ingress/queue.py:53-62 | when stop returns, every job enqueued before it was handed out once in order and no later one was, each worker took one marker and none is left, and each job is finished or failed and counted once |
| `IngressQueue.StopCannotHang` | deepticket/layers/ingress/queue.py:53-98 | while a stop is pending something can always happen |
| `IngressQueue.WorkShrinks` | deepticket/layers/ingress/queue.py:67-98 | every step of a worker leaves less to do |
| `IngressQueue.StopReturnsInTime` | deepticket/layers/ingress/queue.py:53-98 | without new jobs a pending stop returns: at most Work(s) worker steps are possible, and where none is left the stop can return |
| `IngressQueue.SecondStopReached` | deepticket/layers/ingress/queue.py:53-62 | one worker and two calls: a marker is left |
| `IngressQueue.SecondStopLeavesMarkers` | deepticket/layers/ingress/queue.py:53-62 | a second stop while one is pending: when both can return the queue holds the jobs enqueued between the two, then one marker per worker, then later jobs |
| `IngressQueue.StepKeepsQueue` | deepticket/layers/ingress/queue.py:39-98 | jobs come off in the order they were put on, and every exit took one marker |
| `IngressQueue.StepKeepsJobs` | deepticket/ingress_runner.py:164-277 | a job is QUEUED on the queue, RUNNING with one worker, and then finished or failed and counted |
| `IngressQueue.IngressRunner.TakeItem` | deepticket/layers/ingress/queue.py:67-76 | one turn of a worker |
| `IngressQueue.IngressRunner.FinishJob` | deepticket/ingress_runner.py:254-274 | the final document and the counter |
| `IngressQueue.IngressRunner.MarkFailed` | deepticket/ingress_runner.py:87-107 | a job whose handler raised is failed and counted |
| `IngressQueue.IngressRunner.SubmitJob` | deepticket/ingress_runner.py:124-151 | the queued document, then the queue |
| `IngressQueue.IngressRunner.PutMarkers` | deepticket/layers/ingress/queue.py:53-58 | one marker per worker |
| `IngressQueue.IngressRunner.StartWorkers` | deepticket/layers/ingress/queue.py:39-51 | as many waiting workers as configured, at least one, unless they run already |
| `Theorems.RequestReused` | deepticket/investigation/governance/gate.py:125-139 | a request is created exactly where none is found pending for the tool |
| `Theorems.OneTimeGrant` | deepticket/investigation/approvals.py:147-176 | an approval lets exactly one call through whatever the policy says; the next one passes only if the policy allows it |
| `Theorems.CancelShownAsFailed` | deepticket/chat_runs.py:353-364 | a cancel seen at a chunk leaves the run cancelled and the chat shown as failed |
| `Policy.UnknownToolsDiffer` | deepticket/investigation/policy/strategy.py:79-96 | when registering a tool changes the decision, exactly |
| `ChatHistory.HashRoundTrip` | deepticket/layers/storage/chat_history.py:456-514 | a message comes back from its hash unchanged exactly when its identifier and optional parts are no empty texts |

## Left out

- HTTP, WebSocket and SSE transport, calls to the agent server, MCP subprocesses, git and publishing: outside the state that is modelled; a call to the agent server is a suspension point.
- The web interface, login, passwords, tokens and API keys, configuration loading and record validation.
- Races between processes inside one store call, expiry of Redis keys and failing storage calls: store calls are atomic and succeed.
- Confidence scoring, metrics, route classification, activity wording, image handling and token totals: they would only add easy members.
- The JSON form of the documents of runs, requests, grants and events, and with it the step from `Stores.dfy` and `ApprovalBook.dfy` to the file storage; for the chat store that step is `ChatFiles.dfy`.
- The contents of JSON values inside messages, arguments and events: opaque texts.
- Keys that are joined with `:` are tuples; project ids that contain `:` are not modelled.
- Object identity of the chat tasks: `ChatRunManager` keeps them in a table by identity, so aliasing between the registry and a task's own reference is not captured.
- Suspension inside the token-usage call and the engine stream is one point each; what the engine does between two chunks is not modelled.
- RejectInChat: an error after the decision (a refused transition or a missing chat) is not reported to the caller; what is stored is the same.
- ApproveInChat: the payload and history of the resumed task are not part of the step, and neither is the message of an error that follows the grant.
- OnStreamClosed: the reply text, its confidence and the token usage are not part of the step; the reply is in `FanOut.ChatRun.Reply` and `AppendMessage`.
- Move: the `oh_conversation_id` argument of a transition, which no caller passes, is not modelled.
- AlwaysSingleFlight: needs the two excluded steps not to happen; `FlightKeptExactly` shows that the condition is exact.
- NeverStranded: speaks of chat runs; of runs without a chat `Tickets.LeftRunningExactly` says which stay RUNNING with nothing behind them.
- StoreMessage: parts of keys with a colon, and project ids that contain one, are not covered by the file store.
- SetStatus: keeps the status of a chat only; the error text next to it is in `SetAgentRunStatus`.
- CreateThread: like all chat methods it draws identifiers from a counter; that `uuid4` does not repeat is an assumption.
- DecodeEncode: escapes above `%7F` decode as UTF-8 in the code; no encoded key contains one.
- ListKeys: files that are not valid JSON, which the code lists as well, do not occur in the model.
- HSet: a field named like the marker of sorted sets, which would turn the hash into one, is excluded.
- ZAdd: scores are integers; `incr` of the file storage is modelled only as the event counter in `Stores.dfy`.
- ApplyPatch: the index of project ids is a set; trimming and sorting of that list are not modelled.
- FinishJob: of the final document only the status is kept, and the counter.
- MarkFailed: of the failed document only the status is kept, and the counter, not its error and reply.
- SubmitJob: of the queued document only the status is kept.
- GracefulDrain: cancellation of worker tasks is excluded, and a failing failure handler does not occur.
- TaskEndsAs: says nothing of a chat that was deleted meanwhile; `TaskSettles` covers it.
