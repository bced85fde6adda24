# Verification of the Codex A2A service

This project models four state machines of the service that exposes Codex as an A2A agent, and
proves what holds of them on every input, in every run and under every interleaving:

- **Task store** (`TaskStore`, `Pagination`, `PageTokens`, `Ordering`): the versioned map of tasks
  with per-user ownership, and the sorted, binary-searched, cursor-token view of it. `PagingRuns`
  follows a paging client while other callers write; `VersionRuns` follows writers that race.
- **Broker** (`BrokerModel`, `BrokerObjects`): contexts of task sessions with a maintained child
  index, the leaf-resolution rule and exclusive ownership of Codex clients. A start is several steps
  (resolve, launch, fork, register), so `BrokerSystem` is a machine of such steps, and `BrokerRuns`,
  `BrokerClients`, `BrokerThreads` and `BrokerChain` quantify over every interleaving of overlapping
  starts, turns, finishes, discards and closes.
- **Executor** (`ExecutorModel`, `ExecutorObjects`): the loop that turns Codex messages into A2A
  events and pauses, resumes, finishes or fails a task. `ExecutorRuns`, `Executions`,
  `WireDiscipline` and `Artifacts` are about one execution, `TaskLife` about all executions of one
  task while other tasks use the broker in between, and `Interleaving` lets them do so inside an
  execution too, whose steps are those of `Stepwise`. `Service`, with its steps in `ServiceSteps`, is the whole service: any
  number of tasks whose executions overlap on one broker. `Replies`, `Endings` and `Telling` say what
  one execution answers and tells without the functions that compute it, and `LifeOutcomes` says it of
  all executions of a task.
- **Executor on the broker** (`WireThreads`, `BrokerSteps`, `ServiceBroker`, `ServiceShadows`,
  `ServiceBranches`): every step of the service is some steps of the broker's interleaved system, so
  what is proved of the one holds of the other, and what a task's Codex thread holds can be read off
  its wire log.
- **JSON-RPC multiplexer** (`RpcMux`, `RpcSteps`, `RpcRuns`, `RpcObjects`): concurrent requests, one
  read loop and a one-shot `finish` that share a map of one-slot channels. A step of the machine is one critical
  section, one channel operation or one access to the closed flag. `RpcEnding` is about how a client
  ends: who gets the error, and that everything comes to rest.

What the program changes in place is a class here (`TaskStore.Store`, `BrokerObjects.TaskRuntime`,
`BrokerObjects.TaskBroker`, `ExecutorObjects.Executor`, `RpcObjects.CodexClient`); its methods are
proved against functions on values, and the runs and invariants are about those functions.

The outside world is a parameter: clock readings, map visiting orders, what launch and Codex answer
(`World`), the messages that arrive, the page-token codecs and the history Codex keeps for a thread
(as the fake app server of the integration test does). A2A events are folded by section 7.2.3 of the
A2A 0.3.0 specification: a replacing artifact event replaces, an appending one appends. Task IDs are
not empty and never used twice; launched clients and threads that Codex makes are new.

Four promises turned out narrower than they look, and the exact limits are proved. A page token
survives decoding if and only if the task ID has no `_` in it, and the next page after such an entry
is refused. A completion that brings no output of its own leaves the visible text of a command or file
change unchanged if and only if the last start or completion of that item made visible all the text it
stood for: a restart after output, or an earlier completion with another output, breaks it. A context
used one start at a time, without references and without discarding a task that has children, stays a
single chain if and only if every start still finds the parent it was forked from when it registers;
it does not when that parent was discarded in between, because its first turn could not be started.
A request that returns without an error has a response if and only if it was not woken by `done` after
the client ended without an error or after another receiver took the error out; at most one receiver
ever gets it.

Where the README of the repository and its code could be read differently (several branches, ambiguous
follow-ups), the model follows the code: ambiguity is decided at the resolving step only, so two
overlapping starts may share a leaf.

## Model

| member | source | states |
|---|---|---|
| Ordering.BeforeTotal | internal/service/taskstore.go:142-147 | Of two listing positions exactly one comes first, unless they are the same time and task ID: the listing order is strict and total |
| Ordering.NewestFirstThenLargerId | internal/service/taskstore.go:142-147 | The newer stamp comes first, and of equal stamps the ID that is larger where the two texts part |
| Ordering.RestampMovesForward | internal/service/taskstore.go:84-89 | A newer stamp for the same task never moves it towards the end of a listing |
| PageTokens.TokenRoundTrip | internal/service/taskstore.go:225-245 | The token is the encoded `<time>_<ID>`; decoding it gives the same time and ID exactly when the ID has no `_`, and with one it is the parse error |
| PageTokens.TokensThatDecode | internal/service/taskstore.go:229-245 | Whoever made it, a token reads as a position exactly when it is a parsable time, one `_` and the ID, and an encoding error means that the outer encoding is broken |
| PageTokens.TokensAreDistinct | internal/service/taskstore.go:225-227 | Two entries share a token only when time and ID agree |
| PageTokens.UnderscoreTokenRejected | internal/service/taskstore.go:235-238 | A concrete task ID whose token the store issues and then rejects |
| Pagination.SearchAfter | internal/service/taskstore.go:203-213 | The binary search stops at the number of entries at or before the cursor, in the list or not, and what follows is what the cursor leaves |
| Pagination.CountIsBoundary | internal/service/taskstore.go:203-213 | In a sorted listing the entries at or before any cursor, listed or not, are a prefix, their count is its length, and the rest is what the cursor leaves |
| Pagination.PaginateTasks | internal/service/taskstore.go:196-223 | The page is the first `pageSize` entries the token leaves; a next token is issued exactly when more remain |
| Pagination.NextTokenContinues | internal/service/taskstore.go:221-222 | The token of a page leaves exactly what the page left of the listing, or is unreadable because of its ID |
| Pagination.StaticPagingExact | internal/service/taskstore.go:123-151 | On an unchanged listing the walk ends after max(1, ceil(n/p)) pages that put together are the listing, exactly when its page boundaries have readable IDs; otherwise it breaks off with the parse error after an ID with `_` |
| TaskStore.ListingUnique | internal/service/taskstore.go:142-147 | The sort leaves no choice: two sorted listings of the same entries are equal |
| TaskStore.ListingIsWanted | internal/service/taskstore.go:123-139 | A listing has every task stored under the caller whose context, status and stamp are those asked for, where they are, each once, and no other |
| TaskStore.ListAnswersWanted | internal/service/taskstore.go:109-175 | Every task `List` returns is the caller's and meets the filters, shown as asked; the total counts all such tasks; page size, history length and token are refused in that order |
| TaskStore.SortListing | internal/service/taskstore.go:142-147 | The in-place sort leaves the same entries in listing order |
| TaskStore.Store.Create | internal/service/taskstore.go:37-62 | A new task gets version 1; an existing one is refused, as unknown to other users; nothing else changes |
| TaskStore.Store.Update | internal/service/taskstore.go:64-91 | The version counts up by one when owner and previous version agree; every refusal leaves the store as it was |
| TaskStore.Store.Get | internal/service/taskstore.go:93-107 | A task is returned to its owner only, with its version |
| TaskStore.Store.Filter | internal/service/taskstore.go:123-139 | In any visiting order the loop keeps exactly the caller's entries with the context, status and stamp asked for, each once |
| TaskStore.Store.Present | internal/service/taskstore.go:154-167 | Each copy has the end of the task's history, of the length asked for when that is positive and shorter, artifacts only on request, and all else as stored |
| TaskStore.Store.List | internal/service/taskstore.go:109-175 | The answer is the page of the unique sorted listing, or the error of page size, history length or token; every task in it is the caller's and meets the filters, and the total counts all that do |
| TaskStore.RequestWalkExact | internal/service/taskstore.go:109-175 | Following tokens on an unchanged store returns exactly the matching tasks of the request in listing order |
| PagingRuns.PagingUnderChange | internal/service/taskstore.go:37-91 | Whatever creates and updates come between the pages, no task is returned twice, and when the tokens run out every match that was not updated meanwhile has been returned |
| PagingRuns.OnlyOwnTasksReturned | internal/service/taskstore.go:121-128 | Whatever other users write, a paging client is never returned another user's task |
| PagingRuns.UnwrittenTaskReturnedOnce | internal/service/taskstore.go:109-175 | A task that matched at the first page and was not written before the tokens ran out is returned exactly once |
| PagingRuns.NextPageRefused | internal/service/taskstore.go:229-238 | The next page after an entry is refused, whatever the store holds by then, exactly when the entry's ID has the separator or the request itself is malformed |
| PagingRuns.PagesAreListed | internal/service/taskstore.go:149-174 | In every run what the client has been returned are the IDs of the tasks in all that `List` answered it, one answer after the other; an error returns nothing |
| VersionRuns.VersionsCountWrites | internal/service/taskstore.go:55-61 | A task's version is the number of its successful writes: 1, 2, 3, ... |
| VersionRuns.OwnersAreFixed | internal/service/taskstore.go:75-78 | The owner of a task never changes and no other user's write succeeds |
| VersionRuns.OneWinnerPerVersion | internal/service/taskstore.go:79-83 | Among updates with the same real previous version at most one succeeds, wherever they are in a run |
| VersionRuns.NoLostUpdates | internal/service/taskstore.go:64-91 | When every writer of a task updates it under the version it read, the stored task is what a successful create stored with all accepted edits applied in order, whatever happens to other tasks |
| BrokerModel.ResolutionOrderFree | internal/service/broker.go:290-303 | In every visiting order an unreferenced resolve succeeds exactly when the context has one leaf that neither runs a turn nor waits, and then returns it; its error names a leaf that does, or means two leaves |
| BrokerModel.ReferenceResolves | internal/service/broker.go:279-288 | One reference alone decides: not of the context, still active because it runs a turn or waits, or found |
| BrokerModel.ReferencesAreRefused | internal/service/broker.go:268-278 | Several references are refused, as unknown in a context without sessions |
| BrokerModel.ResolvesToIdle | internal/service/broker.go:263-304 | Whatever a resolve returns is a session of the context whose task neither runs a turn nor waits |
| BrokerModel.RegisterKeepsCounts | internal/service/broker.go:331-346 | Registering keeps every child count equal to the number of children, also when the parent is gone |
| BrokerModel.DropKeepsCounts | internal/service/broker.go:380-395 | Discarding does too, also of a session that has children |
| BrokerModel.YoungestIsLeaf | internal/service/broker.go:290-303 | With parents older than children and right counts, a context that has sessions has a leaf |
| BrokerModel.FinishEffect | internal/service/broker.go:369-405 | A finished task loses its runtime; its session stays without the client, or goes and its parent counts one child less; nothing else changes but that an empty context goes |
| BrokerRuns.IndexAgreement | internal/service/broker.go:306-405 | In every reachable state of overlapping starts, finishes, discards and closes a session's `childCount` is the number of sessions naming it as parent |
| BrokerRuns.OnlyUnknownContextsStartFresh | internal/service/broker.go:263-304 | A resolve returns no session and no error exactly when no reference is given and the context holds no session |
| BrokerRuns.StartsFromIdle | internal/service/broker.go:263-304 | In every run a start that is resolved to a task found it neither running a turn nor waiting, in its context and with that thread |
| BrokerRuns.KnownContextHasLeaf | internal/service/broker.go:290-303 | Every context the broker keeps has a session nobody forked from |
| BrokerRuns.DiscardRollsBack | internal/service/broker.go:369-405 | Registering a task and discarding it again, with any work in other contexts between, is as if it never was, and the `finishTask` that follows changes nothing |
| BrokerRuns.StartsJoin | internal/service/broker.go:329-348 | In every reachable state a start about to register meets the conditions of that rollback |
| BrokerChain.ChainResolves | internal/service/broker.go:290-303 | In a chain an unreferenced resolve gives its last task, or that task's activity as the error, in every visiting order |
| BrokerChain.RegisterExact | internal/service/broker.go:331-346 | A start that registers in a chain leaves a chain exactly when its base is the last task of the line at that moment |
| BrokerChain.ChainExactly | internal/service/broker.go:306-405 | However starts overlap and whatever they refer to, a context is a single chain in every state of a run exactly when every registration finds its base at the end and every discard takes the end away |
| BrokerChain.StaysAChain | internal/service/broker.go:331-346 | With unreferenced starts that do not overlap and no discard of a task with children, that is exactly when every start finds its parent still there as it registers |
| BrokerChain.DiscardedParentBranches | internal/service/executor.go:138-141 | A run of that kind that ends with two branches: a task whose turn could not be started is discarded while another is forked from it, and the next unreferenced start is refused |
| BrokerClients.EveryClientHasOneOwner | internal/service/broker.go:192-261 | Every launched client is in exactly one place over all interleavings: a start, one active task, or handed out for closing once |
| BrokerThreads.BranchesAreImmutable | internal/service/broker.go:224-261 | A task's thread holds what its parent held at the fork step followed by the task's own completed prompts, whatever other tasks do |
| BrokerObjects.TaskBroker.Task | internal/service/broker.go:351-359 | The runtime filed under the ID, none exactly when the task is not active |
| BrokerObjects.TaskBroker.ResolveBaseSession | internal/service/broker.go:263-304 | The loop over the map decides as the value model does for the order it visits in, error by error; without a reference it finds a session exactly when that is the only leaf and neither runs a turn nor waits, and with one only such a session |
| BrokerObjects.TaskBroker.Register | internal/service/broker.go:329-348 | The locked section takes the broker to the registered state and keeps runtimes, sessions and clients linked |
| BrokerObjects.TaskBroker.StartTask | internal/service/broker.go:306-349 | A start without other tasks in between: refused with a launched client closed, or registered with its client, on the thread Codex made by forking its parent's or anew |
| BrokerObjects.TaskBroker.FinishTaskWithPolicy | internal/service/broker.go:369-405 | The runtime goes, the session stays without a client or is dropped from the tree, and the task's client is closed; an inactive task changes nothing |
| BrokerObjects.TaskBroker.Cancel | internal/service/broker.go:407-414 | Only the cancel flag of that runtime is set |
| BrokerObjects.TaskBroker.Close | internal/service/broker.go:416-435 | All runtimes are dropped, all their sessions give up their clients and every one of those clients is closed |
| ExecutorRuns.StartedSession | internal/service/broker.go:192-261 | A started task's session has the thread Codex made, the launched client, and as parent the idle task whose thread was forked, or none |
| ExecutorRuns.ConsumeSettles | internal/service/executor.go:186-304 | Where the loop stops, and what the last status, `pending` and `turnActive` are for each message it can stop at: each kind of request, each end of a turn, each error |
| ExecutorRuns.LifecycleAgreement | internal/service/executor.go:62-120 | After every execution either the last status is input-required with the kind of what waits and the broker holds the runtime, or it is failed or canceled and the broker has let go; a cancel-requested interrupt ends without a status |
| ExecutorRuns.ExecutionAccountsForClients | internal/service/executor.go:76-83 | An execution closes the task's client exactly when it lets go of the task, and then once |
| Replies.TrimmedIsSaid | internal/service/executor.go:445-452 | Trimmed and in lower case a text is a word exactly when the text says it letter by letter, in any case, with white space around |
| Replies.AnswerIsGiven | internal/service/executor.go:425-473 | The answer is exactly what the reply gives: the decision field, action and content, or by the words of its text accept, decline or cancel; and none otherwise |
| Replies.ExecutionAnswers | internal/service/executor.go:155-184 | An execution sends an answer exactly when a request waits, its reply gives that answer and the write succeeds; under the ID that waits, first and once |
| Replies.ExecutionSends | internal/service/executor.go:87-153 | Besides answers and exactly when: a new task that is resolved and has its client asks for its thread, a fork of its base's or a new one, and starts its turn there with its prompt; a task told to go on with nothing pending starts one on its session's thread |
| Endings.ExecutionKeepsSession | internal/service/executor.go:130-152 | After an execution the session is there to branch from exactly when there was one or Codex made its thread, and no turn was refused |
| Endings.ExecutionEnds | internal/service/executor.go:62-304 | What an execution comes to is decided by the last message it consumed: request, completed, interrupted, failed or unknown end, or an error |
| Endings.StatusTellsTheEnd | internal/service/executor.go:280-304 | The last status is canceled exactly after an interrupted turn that nobody canceled, failed exactly after an error, a failed end or an unknown one, and ready exactly after a completed turn |
| Telling.ConsumeIsTold | internal/service/executor.go:186-364 | The events of the loop are a function of the messages alone, those before included: each artifact with its ID, parts and whether it appends, each status |
| Telling.ExecutionIsTold | internal/service/executor.go:62-364 | So is everything an execution emits: submitted, working, what its messages tell, how it asks again, failed |
| WireThreads.TrackFits | internal/service/executor.go:130-131 | In a disciplined log the first request makes the thread, every turn is started on that thread, and a turn runs whenever Codex is read |
| WireDiscipline.ExecutionIsDisciplined | internal/service/executor.go:122-233 | One execution's wire log goes on from the mode its runtime was in and ends in the mode its runtime is in |
| Artifacts.ConsumeInStep | internal/service/executor.go:186-364 | The fold of the emitted events and the runtime's accumulated text follow the consumed messages item by item |
| Artifacts.ArtifactIdsApart | internal/service/executor.go:551-553 | Artifact IDs of different prefixes or items never collide |
| Artifacts.AssistantShowsDeltas | internal/service/executor.go:322-329 | The assistant artifact is the concatenation of all deltas, or the text of the completion that no delta came after |
| Artifacts.MarkThenDeltas | internal/service/executor.go:330-358 | A command or file change shows what its last start or completion made visible and every delta since, and has accumulated what that stood for and the same deltas |
| Artifacts.CompletionKeepsText | internal/service/executor.go:641-687 | After any messages at all a completion without output of its own shows the accumulated text, and leaves the visible text unchanged exactly when the item's last start or completion made visible what it stood for |
| Artifacts.CompletionInFold | internal/service/executor.go:641-687 | The same for what a client sees when it folds in the completion's events |
| Artifacts.StartedFirstKeepsText | internal/service/executor.go:618-639 | When no delta came before a start and no completion brought an output of its own, the condition holds |
| Artifacts.RestartedCommandReadsDifferently | internal/service/executor.go:650-666 | A concrete command, started again after it wrote, whose completion changes the visible text |
| Artifacts.CompletedTwiceReadsDifferently | internal/service/executor.go:650-666 | A concrete command, completed with another output and then without one, whose second completion changes the visible text |
| TaskLife.LifeViewsAgree | internal/service/executor.go:62-233 | Between executions, over a whole life, the stored state is input-required exactly when the broker holds the task |
| TaskLife.LifeIsDisciplined | internal/service/executor.go:122-233 | The thread is made first; `turn/start` goes to that thread, with no turn active and nothing pending; requests and responses alternate, each response under the waiting ID, in its form, and before Codex is read again |
| TaskLife.LifeConservesMessages | internal/service/executor.go:186-233 | What was read from Codex, by the wire log, over all executions, followed by what waits is what arrived, in order: nothing is skipped, repeated or read twice |
| Executions.ExecutionStopsAtBoundary | internal/service/executor.go:199-232 | An execution that succeeds and consumes stops exactly at the first server request or end of a turn |
| TaskLife.MalformedRepliesStutter | internal/service/executor.go:155-184 | Any number of replies that do not answer the request leave broker, messages and wire unchanged and show the same status again |
| TaskLife.LifeShowsText | internal/service/executor.go:322-358 | Over any interleaving of items, pauses, turns and completions the folded events show the text of the assistant, commands and file changes so described, and a held runtime has accumulated all deltas |
| TaskLife.LifeCompletionKeepsText | internal/service/executor.go:641-687 | At any message of any execution in a life, a completion without output of its own keeps what the client sees exactly under that condition |
| LifeOutcomes.LifeTellsArrivals | internal/service/executor.go:62-364 | Over a whole life what each execution emits is a function of the task's own messages so far, whatever other tasks do |
| LifeOutcomes.LifeAnswersReplies | internal/service/executor.go:155-184 | Over a whole life Codex is answered exactly what the replies give |
| LifeOutcomes.LifeTellsEnds | internal/service/executor.go:280-304 | Over a whole life the last status tells how the turn ended, and the user's cancel is that of any execution so far |
| Interleaving.InterleavedIsAtomic | internal/service/executor.go:62-233 | However other tasks use the broker between the steps of an execution, it emits, sends, consumes and closes what the execution in one piece does, as far as it has come, and leaves its task as that one does |
| Interleaving.OverlappedRunIsLife | internal/service/executor.go:62-233 | So an execution that overlaps with others is a step of a life, and what holds of every life holds of overlapping executions |
| Interleaving.ReadSoFar | internal/service/executor.go:186-233 | After every step of an execution what it has read from Codex is exactly what it has taken from the inbox, in order |
| Interleaving.StepStaysElsewhere | internal/service/executor.go:62-233 | A step of another task's execution leaves a task's runtime, client and thread alone: it is work of the kind an execution tolerates |
| Service.EveryTaskLives | internal/service/executor.go:62-233 | When any number of tasks' executions overlap on one broker, every task lives the life it would live with each of its executions in one piece |
| Service.NothingIsStuck | internal/service/executor.go:62-233 | In every run of the service an execution that may begin can begin, and one under way can go on |
| Service.ServiceViewsAgree | internal/service/executor.go:62-120 | In the whole service, between the executions of a task, the last status its client saw is input-required exactly when the broker holds the task, with the kind of what waits |
| Service.ServiceIsDisciplined | internal/service/executor.go:122-233 | In the whole service, at every moment, what each task has sent and read keeps the discipline of the wire |
| Service.ServiceConservesMessages | internal/service/executor.go:186-233 | In the whole service, at every moment, what each task has read followed by what waits for it is what arrived for it |
| Service.ServiceShowsText | internal/service/executor.go:322-358 | In the whole service, between the executions of a task, its client sees of each item what the task's own messages make of it |
| BrokerSteps.StartTaskIsSteps | internal/service/broker.go:306-349 | The start of an execution in one piece is the resolve, launch, thread and register steps of the broker's interleaved system |
| BrokerSteps.MomentMakes | internal/service/executor.go:62-233 | Each step of an execution is some steps of that system, and keeps the start in flight, the thread and the completed prompts in line with the task's log |
| ServiceBranches.ServiceIsBrokerRun | internal/service/broker.go:306-405 | Whatever state the service comes to, a run of the broker's interleaved system comes to its broker |
| ServiceBranches.ServiceIndexAgrees | internal/service/broker.go:331-346 | In the whole service a session's `childCount` is the number of its children |
| ServiceBranches.ServiceStartsFromIdle | internal/service/broker.go:263-304 | In the whole service no execution forks the thread of a task that runs a turn or waits |
| ServiceBranches.ServiceBranchesAreImmutable | internal/service/broker.go:224-261 | In the whole service a task's thread holds what its base's thread held when it was forked and then exactly the task's prompts whose turns completed, by its wire log, whose turns all name that thread |
| ExecutorObjects.Executor.HandleNotification | internal/service/executor.go:274-364 | The runtime object and the events follow the value model message by message, errors included; each end of a turn has its status and outcome, and each message the events its history tells |
| ExecutorObjects.Executor.Consume | internal/service/executor.go:186-233 | The loop consumes a prefix of the queue, and events, runtime and wire are those of the recursive model |
| ExecutorObjects.Executor.ConsumeTurn | internal/service/executor.go:186-233 | The same with the broker: the task is kept at a pause, else finished and its client closed |
| ExecutorObjects.Executor.StartNewTurn | internal/service/executor.go:122-153 | `turn/start` on the session's thread; a refusal discards the task, else the turn is consumed |
| ExecutorObjects.Executor.ResumeInputRequired | internal/service/executor.go:155-184 | A reply that answers is sent under the waiting ID before Codex is read again; one that does not asks again; a failed write finishes the task |
| ExecutorObjects.Executor.Execute | internal/service/executor.go:87-120 | New tasks are started, input-required tasks resumed or continued, all others refused |
| ExecutorObjects.Executor.ExecuteStream | internal/service/executor.go:62-85 | The whole execution on objects does what the model says: broker, events, client and wire, with a finished task and a failed status after an error |
| RpcRuns.EveryChannelHasOneOwner | internal/service/codex_client.go:185-231 | From its insert on a call's channel is in exactly one place: the map, the read loop's hand, the drain's hand, or spent by its one send; it is closed once for that send |
| RpcRuns.DeliveryNeverBlocks | internal/service/codex_client.go:194-195 | The read loop finds the slot empty when it sends and the channel open when it closes |
| RpcRuns.FinishNeverBlocks | internal/service/codex_client.go:216-232 | So does the drain, and `finish` always has a step to make |
| RpcRuns.ReceivedIsOwn | internal/service/codex_client.go:307-312 | A waiting call that can receive finds a message; what it received is the response with its own ID, which fits no other call, or the text of the client's error, "codex app-server closed" if it has none |
| RpcRuns.NoForgottenWaiter | internal/service/codex_client.go:296-305 | After the drain a waiting call has its message in its channel or in the read loop's hand, and only calls about to fail or to remove their entry are in the map |
| RpcRuns.LeaversLeave | internal/service/codex_client.go:300-305 | Such a call finds the client closed and removes its own entry and no other |
| RpcRuns.ShutdownEndsEmpty | internal/service/codex_client.go:216-233 | When a client that was shut down comes to rest, though no call's context ends and no write fails, every call has returned, the map is empty and every channel sent to is closed |
| RpcRuns.SuccessWithoutResponse | internal/service/codex_client.go:313-314 | A concrete run in which a call returns without an error and without a response |
| RpcEnding.WakeWithoutError | internal/service/codex_client.go:313-314 | A woken call returns the error of the client, or none exactly when the client ended without one or another receiver took it before |
| RpcEnding.SuccessHasResponse | internal/service/codex_client.go:307-314 | A call that returned without an error has a response, its own, exactly when it was not woken in that way |
| RpcEnding.ErrorIsTakenOnce | internal/service/codex_client.go:228-232 | Over all interleavings at most one receiver gets the error |
| RpcEnding.ReplyWasTaken | internal/service/codex_client.go:183-195 | What a call receives as its response is a message Codex sent under the ID that was the call's in the map, unaltered |
| RpcEnding.ReturnedByAct | internal/service/codex_client.go:300-317 | How a call returned is what it did last: received, woken, abandoned by its context, or took its entry back after a failed write |
| RpcEnding.ErrorWasGiven | internal/service/codex_client.go:216-222 | The error that all receivers see is the one the first `finish` was given |
| RpcEnding.WorkIsBounded | internal/service/codex_client.go:183-233 | While no call is new, calls, read loop and `finish` take no more steps than a measure of the state at the outset |
| RpcEnding.ShutdownComesToRest | internal/service/codex_client.go:216-233 | A client that was shut down can always get, within that measure, to where every call has returned and the map is empty, without an ending context or a failed write |
| RpcRuns.DrainOrderFree | internal/service/codex_client.go:223-227 | Whatever entry the drain takes next, what the whole drain will leave is the same |
| RpcMux.DecimalReadsBack | internal/service/codex_client.go:283-284 | The decimal text of a request ID determines the ID, so no two calls share a key |
| RpcObjects.CodexClient.Request | internal/service/codex_client.go:282-305 | A new ID and channel, filed when written; a call that could not be written leaves no entry behind |
| RpcObjects.CodexClient.Receive | internal/service/codex_client.go:307-312 | A ready channel holds a message: the own response, or an error of a closed client |
| RpcObjects.CodexClient.Deliver | internal/service/codex_client.go:183-195 | A response goes to the call with its ID, once; a duplicate or unknown ID changes nothing |
| RpcObjects.CodexClient.Finish | internal/service/codex_client.go:216-233 | The first `finish` empties the map and leaves the error in each channel that was in it, closed; any other changes nothing |

## Left out

- Processes, pipes, HTTP, JSON, gob registration, timeouts: foreign code. `cloneTask` is a copy of a value that cannot fail; whether a message decodes is part of the message.
- `auth_proxy.go`, `mock_responses.go`, `card.go`, `config.go` and `main.go`: proxying, flags and lookups that would add only easy members.
- Message texts, artifact names and metadata, and the note of a refused reply (one constant here). Event time stamps are part of that metadata.
- `codexInputsFromMessage` and `firstDataPart`: a user message comes with its prompt, data part and text already extracted; data fields are texts. Lower case is that of the letters whose lower case is ASCII; no other can be in a word that answers.
- Request options: what a thread or a turn is started with, apart from the thread, does not reach the state.
- Clocks: one integer clock; monotonic readings and the locality of time stamps are not modelled.
- Integer widths: versions, child counts and request IDs are unbounded, so wrap-around of an `int64` after 2^63 steps is not modelled.
- Task ID reuse: starting an active ID again would break the forest; A2A assigns fresh IDs, and the model requires it.
- A sink that refuses events: every write succeeds here, so what `executeStream` does after a refused write is not modelled.
- Data races between `Close` and a running execution: the executor model has them one after the other, and runs of the service have no `Close`. The broker interleavings include it.
- The events channel after `finish`: Codex messages are a FIFO that ends when the client fails; which of two ready cases `next` picks after shutdown is not modelled.
- `Cancel`'s own status event and interrupt request: the flag it stores reaches the executor with the next message. `Cleanup` is one more finish of the task, which the broker interleavings include.
- Sessions are values in the broker's maps: that a runtime and its context share one session object is modelled by looking the session up, so aliasing of session objects is not captured.
- The nil branch of `resumeInputRequired`: its only caller checked for a pending request, and executions of one task do not overlap.
- Atomicity of "not active" and the fork: the check holds at the resolving step only, as in the code; a parent may start a turn before it is forked.
- The A2A library's event application is the fold defined in `Artifacts`; an appending event for an unknown artifact starts from nothing.
- Thread histories: Codex is specified as in the integration test's fake, where a fork copies and a completed turn appends its prompt.
