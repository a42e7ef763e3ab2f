# Verification of loopd's message store, run protocol and conversation protocols

This project models the parts of loopd whose guarantees span several functions and
hold over unbounded runs, and proves those guarantees for all inputs and all
interleavings. `dafny verify dfyconfig.toml` checks everything.

## What is modelled

1. **Message content store** (`Agentue`, `Framing`, `Layout`, `PartRows`, `MessageContents`,
   `MessageStore`, `Pages`). A logical message is an ordered list of uniquely named blocks
   and metadata. It is stored as a root with an inline prefix and references to bounded
   parts; one oversized block is cut into frames. `MessageStore.Store` keeps, as ghost state,
   the complete logical content of every message, and every operation is stated on it: an
   update that loads one block and perhaps the tail part has the effect of the same event on
   the complete message.
2. **Harness run protocol** (`HarnessRuns`, `HarnessStores`, `HarnessAgreement`, `HarnessProtocol`). The
   transactions are functions on the lease row, the run row and the message; the class
   performs them on the tables (and on a `MessageStore.Store`); any history of those
   transactions and of ordinary writes keeps runs and messages agreeing. The protocol interleaves
   single statements of any number of drivers and maintainers with arbitrary clocks, crashes,
   answers that never arrive and appends that commit after their caller gave up.
3. **Admission** (`Admission`). The mutex-guarded slot operations, `Submit` over the harness
   tables, and all interleavings of submissions, the scheduling loop and driver goroutines.
4. **LongHorizon Manager** (`LongHorizon`, `LongHorizonManager`, `Intake`). One reconcile is one
   optimistic-lock step on a persisted status. `Intake` composes any number of Ingress
   workers, one Manager for each run and the consumption cursor.
5. **Consumption cursors** (`Cursors`, `CursorProtocol`). Signal, Poll and Commit as
   read-modify-write calls on one versioned object, from many processes at once.
6. **Ordered output** (`Writers`, `Streams`, `MessageListeners`, `ConvListeners`, `Browser`).
   The retrying writer, the revision history SQL keeps, the lossy bridge, the two repairing
   listeners and the page's reducer.
7. **Parallel detail grouping** (`Parallel`). The one-pass sweep computes the connected
   components of interval overlap.

Code that updates fields, maps or loop variables is modelled by classes and loops; each of
their methods is tied to a function of the old state, and the guarantees are lemmas about
that function.

## Assumptions

- What an event does to the text of the block it addresses, and to metadata, is decided by the
  agentue library, which is not part of this model: it is a parameter (`Library`). Where an
  event may act is fixed: on the addressed block, or at the end when there is none.
- Hashes are collision-free: a fingerprint is kept as the event and status it covers, a replay
  hash as the data it chains over. Fresh ids are counters or parameters.
- Byte sizes are those of a concrete encoding with a constant frame envelope. Nothing depends
  on the constants; removing a block makes a part smaller.
- Rows of a part group are returned in any order.
- Message ids commit in increasing order, as the cursors and discovery assume. Callers pass
  `after` and `through` values from results that their actor received.
- The bridge may deliver any event that was true of SQL, at any time and any number of times.
- Deliveries of one connection to the page have no gaps, as a listener's output has none.
- Reconciles of one LongHorizon run do not overlap: one controller with one leader works on
  each run. Its reads may be old, its writes may be lost and it may stop anywhere, but no
  second Manager of the same run creates a child in between.
- LongHorizon is configured with at most 1000 rounds, which the process checks when it starts.

## What is false without a condition

Nothing in Ingress keeps two of its reconciles apart, and when they overlap a conversation
can lose both of its guarantees: at most one unfinished run, and no message with two runs.

- `Intake.OverlappingIngressBreaks` is a concrete history that leaves two unfinished runs: the
  second reconcile listed runs before the first run was created and polled after that run had
  committed its input.
- `Intake.StaleGoalShares` is a concrete history in which no run is unfinished whenever one is
  created, and yet one message ends up in two runs: it was absorbed by the first run between
  the second reconcile's poll and its creation.

`Intake.GuaranteedExactlyWhen` gives the exact condition, for any number of workers: both
guarantees hold in every state of a history if and only if each creation in it finds the run
it meant to create, or happens while no run is unfinished and its message is unconsumed. A
caller could check that by listing and reading the cursor again in the step that creates.
`Intake.SerialisedIsSafe` shows that one worker, as one controller with one leader gives,
meets the condition without checking anything again.

## Model

| member | source | states |
|---|---|---|
| Agentue.ApplyBlocksKeeps | server/internal/repo/projection.go:84-94 | an accepted event keeps block ids unique and in order, and changes no block but the one it addresses |
| Framing.DecodeEncode | server/internal/repo/message_part.go:594-605 | reading back an encoded block gives that block, so bytes determine the block |
| Framing.UnframeFrame | server/internal/repo/message_part.go:371-386 | frames of a block, found in any order, reassemble to its exact bytes |
| Framing.PayloadsBounded | server/internal/repo/message_part.go:366-403 | every row written for a group is within the byte limit, for one part and for each frame |
| Framing.Collect | server/internal/repo/message_part.go:150-184 | the pass over the rows succeeds exactly for one owner and group without nested references, disguised frames or repeated identities, and separates blocks from frames |
| Framing.DecodePart | server/internal/repo/message_part.go:142-203 | the loop over the rows decodes a group, or refuses it when rows are missing, mixed or incomplete |
| Framing.StoredDecodes | server/internal/repo/message_part.go:205-221 | whatever order the database returns the rows in, a written group decodes to exactly its blocks |
| PartRows.PartTable.Replace | server/internal/repo/message_part.go:394-411 | replaces a complete group, never mixes versions, touches no other group or message, and fails only when no frame size can hold the block |
| PartRows.RetainedRepresents | server/internal/repo/message_part.go:493-499 | deleting unnamed groups leaves exactly the named groups of the message and every other message's rows |
| PartRows.ReplacedRepresents | server/internal/repo/message_part.go:394-411 | after one replacement the rows are those of the message with that one group changed |
| MessageContents.MessageContent.LoadPart | server/internal/repo/message_part.go:205-221 | a part read once gives the blocks its group holds; an unknown group is an error |
| MessageContents.MessageContent.Materialize | server/internal/repo/message_part.go:223-245 | puts the body of one referenced block inline and changes no other entry; fails exactly when the part does not hold it |
| MessageContents.MessageContent.Place | server/internal/repo/message_part.go:260-304 | the block's body ends up in the returned group and nowhere else, no other body moves, every group fits or holds one block, and only the original group or the tail is read |
| MessageContents.MessageContent.PackContent | server/internal/repo/message_part.go:307-357 | the packed root shows the same blocks, inline ones first, within the limit; too large only when every block is a reference already |
| MessageContents.MessageContent.Persist | server/internal/repo/message_part.go:360-414 | writes every changed part and nothing of other messages; succeeds exactly when each changed part can be written |
| MessageContents.WrittenOk | server/internal/repo/message_part.go:394-412 | writing one dirty part keeps the open transaction consistent with the table |
| Layout.ReferencedOnce | server/internal/repo/message_part.go:463-499 | in a stored message every part body is referenced by exactly one entry, and is the body shown there |
| Layout.ShowsUnique | server/internal/repo/message_part.go:517-570 | a root and its parts determine the blocks and their order |
| Layout.PackingStep | server/internal/repo/message_part.go:329-334 | replacing an inline block by a reference to where it was placed keeps showing the same message |
| Layout.PackedSettles | server/internal/repo/message_part.go:307-357 | when updates only edit or append, packing leaves no orphan group and no stale body |
| Layout.TrimmedSettles | server/internal/repo/message_part.go:463-499 | trimming parts to what the new root names removes every body of a removed block and nothing that is shown |
| Layout.RemoveShrinks | server/internal/repo/message_part.go:281-284 | a part with one block removed is smaller, so moving a grown block out never overfills its old part |
| MessageStore.StoredMessage | server/internal/repo/message_part.go:97-99 | in every valid store the root is inline blocks followed by references to parts that fit the limit or hold one block, with ids unique |
| MessageStore.SoundPersists | server/internal/repo/message_part.go:371-376 | if a frame fits the limit at all, every group of a sound layout can be written: the oversized multi-block error is unreachable |
| MessageStore.ApplyEntriesIs | server/internal/repo/projection.go:84-94 | applying an event to the partly loaded snapshot is applying it to the complete message |
| MessageStore.ExternalKept | server/internal/repo/message_part.go:307-335 | a block that was external before an update is external after it |
| MessageStore.WriteKeeps | server/internal/repo/projection.go:103-126 | writing one message leaves every other stored message as it was |
| MessageStore.Store.Update | server/internal/repo/projection.go:84-126 | hydrating after a partial update gives the event applied to the complete message; only the addressed block's part and the tail are read; too large only where no layout of references fits |
| MessageStore.Store.WriteOutput | server/internal/repo/projection.go:38-127 | sequence check, retry by fingerprint and refusals are those of the logical message; a refusal changes nothing |
| MessageStore.Store.ProjectOutput | server/internal/repo/projection.go:20-37 | no caller but a run writes a run's message; an accepted end, and only it, makes the message terminal; other messages are untouched |
| MessageStore.Store.Save | server/internal/repo/message_part.go:418-514 | over any earlier layout the stored message then is exactly the given one; incomplete bodies, missing and existing rows are refused; no external block returns inline |
| MessageStore.Store.GetMessage | server/internal/repo/message_part.go:517-570 | hydration returns the complete logical message |
| MessageStore.Store.MessageBlocks | server/internal/repo/message_part.go:27-94 | a page is a function of the logical message alone, whatever the physical layout |
| MessageStore.Store.UpdateMessageContent | server/internal/repo/message.go:147-163 | replaces content at the next revision, never for a message that a run owns |
| MessageStore.Store.DeleteMessage | server/internal/repo/message.go:166-183 | removes the message and all its parts, never for a message that a run owns |
| MessageStore.Store.ExpireMessages | server/internal/repo/message.go:238-264 | expires exactly the listed messages that are still streaming, idle, unowned and unchanged |
| Pages.PageEnd | server/internal/repo/message_part.go:67-91 | a page that has a first block makes progress and stays within the message |
| Pages.Blocks | runtime/service/read.go:43-60 | the cursor loop ends; its pages concatenate to all blocks of one revision, or it reports a conflict or a missing message |
| Pages.BlocksAtRest | runtime/service/read.go:43-60 | an undisturbed message is read completely, each block once and in order |
| HarnessRuns.TerminalTogether | server/internal/repo/harness_run.go:191-249 | run and message are terminal together; success is a completed message with exactly one result block; a cancelled run has none |
| HarnessRuns.AppendAgrees | server/internal/repo/harness_run.go:154-187 | an append that extends the checkpoint by one extends the saved output by exactly that event |
| HarnessRuns.FinishAgrees | server/internal/repo/harness_run.go:191-249 | the closing events and the terminal phase commit together and agree |
| HarnessStores.HarnessStore.Lock | server/internal/repo/resource_lock.go:15-42 | take over when expired, else insert, then count |
| HarnessStores.HarnessStore.AppendHarnessOutput | server/internal/repo/harness_run.go:154-187 | event and checkpoint commit together on the tables, and no other run or message changes |
| HarnessStores.HarnessStore.FinishHarnessRun | server/internal/repo/harness_run.go:191-249 | both closing writes and the phase commit, or the transaction rolls back; no other run or message changes |
| HarnessStores.HarnessStore.CreateHarnessRun | server/internal/repo/harness_run.go:38-80 | a repeated submission finds its run without asking for capacity; a new one creates run and message together |
| HarnessStores.HarnessStore.CancelHarnessRun | server/internal/repo/harness_run.go:256-269 | a request is recorded unless the run is over |
| HarnessAgreement.Write | server/internal/repo/harness_run.go:22-33 | ordinary writes, expiry and deletion leave every message that a run owns, and its agreement with the run, as they were |
| HarnessAgreement.AfterAgrees | server/internal/repo/harness_run.go:139-269 | each harness transaction takes a run and message that agree to ones that agree |
| HarnessAgreement.Perform | server/internal/repo/harness_run.go:24-269 | any call on the tables, by ordinary writers or harness attempts, keeps every run agreeing with its message |
| HarnessAgreement.History | server/internal/repo/harness_run.go:24-269 | so does any history of such calls from empty tables |
| HarnessAgreement.AgreementMeans | server/internal/repo/harness_run.go:191-249 | then a run is terminal exactly when its message is, succeeded exactly when that is completed with one result, and a cancelled one has none |
| HarnessProtocol.Reachable | server/internal/component/harness_runner.go:214-324 | the invariant of the protocol holds after every sequence of steps |
| HarnessProtocol.FencedWrites | server/internal/repo/resource_lock.go:15-80 | with any clocks and any interleaving of Lock's statements, each token's fenced writes are contiguous and none follows a takeover |
| HarnessProtocol.PromptedOnce | server/internal/component/harness_runner.go:254-262 | Prompt is called at most once per run; all other attempts resume |
| HarnessProtocol.RunAndMessageAgree | server/internal/repo/harness_run.go:119-249 | in every reachable state the run is terminal exactly when its message is, succeeded exactly when completed, and a cancelled one has no result |
| HarnessProtocol.ExactlyOnce | server/internal/component/harness_runner.go:279-321 | output is only extended, by one event at a time, and only by an attempt that replayed everything saved; the same for success; a closed run never changes |
| HarnessProtocol.History | server/internal/repo/harness_run.go:119-277 | over a whole run the saved events are extended prefixes of each other, and a cancellation committed before the finish decides the outcome |
| HarnessProtocol.PublishedSeq | server/internal/component/harness_runner.go:310-320 | the sequence number published after an append is the revision that was committed |
| Admission.HarnessRunner.Ready | server/internal/component/harness_runner.go:99-110 | takes each waiting id once and keeps its slot reserved |
| Admission.HarnessRunner.Submit | server/internal/component/harness_runner.go:57-77 | a new run's slot is handed over only when the creation is known to have committed; a repetition or any error, a lost answer included, leaves the slots as they were, and a run that was created all the same is found by its key |
| Admission.Reachable | server/internal/component/harness_runner.go:114-177 | at every moment of every run each slot in use has exactly one owner and no other slot has one |
| Admission.AdmissionIsSafe | server/internal/component/harness_runner.go:57-177 | in every interleaving slots stay within the limit, a run has at most one local driver, and an acknowledged submission is handed to at most one launch and never forgotten |
| Admission.FailedLeavesNothing | server/internal/component/harness_runner.go:57-77 | a submission that ends with an error, committed or not, leaves no slot and touches no other |
| Cursors.InboxContiguous | server/internal/repo/inbox.go:14-28 | a batch leaves no gap: a wanted message up to its last one is in it |
| Cursors.ReceivedKeeps | server/internal/k8s/conversation.go:145-172 | receiving moves one actor's position forward and nothing else |
| Cursors.AcknowledgedKeeps | server/internal/k8s/conversation.go:188-215 | committing moves one actor's recovery point forward, never past what it received, and nothing else |
| Cursors.SignaledKeeps | server/internal/k8s/conversation.go:37-98 | a signal moves no cursor; recipients' end offsets only grow and a target becomes a participant |
| Cursors.ConversationClient.Poll | server/internal/k8s/conversation.go:108-176 | the reply is the batch after the later of the committed point and the caller's; its receipt is recorded |
| Cursors.ConversationClient.Commit | server/internal/k8s/conversation.go:188-215 | stores the recovery point or refuses one that was never received |
| CursorProtocol.NothingSkipped | server/internal/k8s/conversation.go:108-215 | in every interleaving each message addressed to the actor at or below its recovery point was in a result it received |
| CursorProtocol.CursorsGrow | server/internal/k8s/conversation.go:108-215 | both cursors only grow, and one actor's calls never move another's |
| LongHorizon.AbsorbKeeps | operators/longhorizon/internal/longhorizon/manager.go:400-424 | absorbing input stays within the input and guidance bounds, and any new message raises the contract version and drops the evidence |
| LongHorizon.StepLowers | operators/longhorizon/internal/longhorizon/manager.go:22-174 | every persisted step lowers the measure and keeps the bounds |
| LongHorizon.Reachable | operators/longhorizon/internal/longhorizon/manager.go:22-480 | the invariant holds after every sequence of reconciles, replies, verdicts, answers and collections |
| LongHorizon.SuccessIsSound | operators/longhorizon/internal/longhorizon/manager.go:116-179 | a succeeded run holds a clean, complete, evidenced verdict on its last issued execution, against the contract text and version in its status, with no input absorbed since |
| LongHorizon.Terminates | operators/longhorizon/internal/longhorizon/manager.go:61-84 | along every run a changed status has a lower measure; round stays within budget + 1 and 1001; a terminal phase never changes |
| LongHorizon.FinitelyManySteps | operators/longhorizon/internal/longhorizon/manager.go:22-447 | whatever replies, verdicts and answers arrive, the Manager persists at most 20060 statuses for one run |
| LongHorizon.ApprovalsSpentOnce | operators/longhorizon/internal/longhorizon/manager.go:310-394 | no two human waits share round and reason, so no approval is spent twice |
| LongHorizon.ChildrenInUse | operators/longhorizon/internal/longhorizon/manager.go:450-480 | the execution or audit that the current round waits for is never collected |
| LongHorizonManager.Manager.Receive | operators/longhorizon/internal/longhorizon/manager.go:400-424 | the loop absorbs messages in order up to the first that has to wait |
| LongHorizonManager.Manager.Human | operators/longhorizon/internal/longhorizon/manager.go:310-394 | asks once, then acts on the answer by its reason |
| LongHorizonManager.Manager.ObserveAudit | operators/longhorizon/internal/longhorizon/manager.go:265-308 | the verdict becomes evidence for the execution and contract it was made against, or the round fails |
| LongHorizonManager.Manager.Reconcile | operators/longhorizon/internal/longhorizon/manager.go:22-174 | the field-by-field reconcile persists and creates exactly what the step functions say, and what it persists is within the bounds, has a lower measure and keeps a terminal phase |
| Intake.AbsorbRecords | operators/longhorizon/internal/longhorizon/manager.go:400-424 | among messages read in order exactly those up to the new boundary are taken, and every user message of them is recorded |
| Intake.RunsPartitionInput | operators/longhorizon/internal/longhorizon/controller.go:169-243 | with serialised Ingress at most one run is unfinished, no message has two runs, a finished run's boundary is committed, a run records every user message up to its boundary, and every consumed one is recorded in a run or was turned down |
| Intake.SafeRunsPartitionInput | operators/longhorizon/internal/longhorizon/controller.go:169-243 | the same for any number of workers whose creations meet the condition; a run then may miss a message only if that was turned down |
| Intake.GuaranteedExactlyWhen | operators/longhorizon/internal/longhorizon/controller.go:177-242 | for any number of workers, every state of a history has at most one unfinished run and no message with two runs exactly when each creation in it meets the condition |
| Intake.SerialisedIsSafe | operators/longhorizon/internal/longhorizon/controller.go:177-242 | reconciles that do not overlap meet the condition at every creation |
| Intake.OverlappingIngressBreaks | operators/longhorizon/internal/longhorizon/controller.go:177-186 | two overlapping Ingress reconciles can leave two unfinished runs |
| Intake.StaleGoalShares | operators/longhorizon/internal/longhorizon/controller.go:194-242 | that no run is unfinished at each creation is not enough: a message absorbed between poll and creation gets two runs |
| Intake.CreationIsSafeWhen | operators/longhorizon/internal/longhorizon/controller.go:239-242 | one creation keeps both guarantees exactly when it finds its own run, or no run is unfinished and its message is unconsumed at that moment |
| Writers.MessageStream.Emit | runtime/service/message.go:39-49 | numbers the update, refuses any other while one has an unknown outcome, and moves on only when acknowledged |
| Writers.MessageStream.Close | runtime/service/message.go:54-78 | ends once; repeating the same end needs no request |
| Writers.ExactlyOnce | runtime/service/message.go:80-113 | with one handle, under any loss, delay and repetition the accepted events are the acknowledged ones in order, or those and the one pending |
| Writers.RestoredExactlyOnce | runtime/service/message.go:16-35 | however often a handle is restored in the middle of an update, all accepted events but at most one are settled, each once, and the acknowledged ones are among them in order |
| Streams.WrittenKeeps | server/internal/repo/projection.go:66-77 | a revision determines content: history is only extended, and each event-made revision is its event applied to the one before |
| Streams.PublishedTruthful | server/internal/service/message.go:281-320 | whatever the bridge has seen and whoever wrote in between, what is published is true of SQL |
| Streams.AcknowledgedMade | server/internal/service/message.go:225-268 | an acknowledged update, new or repeated, made the revision with its number |
| MessageListeners.MessageListener.Hear | server/internal/component/message_listener.go:133-156 | delivers only the next increment or a newer snapshot, ignores what is old and repairs a gap |
| MessageListeners.ObserverIsConsistent | server/internal/component/message_listener.go:39-158 | for any deliveries and repairs the folded events are SQL's content at the last delivered revision, and the stream ends only with the final content |
| ConvListeners.ConvListener.Observe | server/internal/component/conv_listener.go:102-154 | a row is delivered when it is ahead, and watched only while it can still change |
| ConvListeners.ConvListener.Hear | server/internal/component/conv_listener.go:252-298 | deliveries of cancelled readers, old events and gaps are dropped; ends and newer snapshots are read from SQL |
| ConvListeners.ObserversAreConsistent | server/internal/component/conv_listener.go:61-300 | for every message what was delivered folds to SQL's content at the remembered revision, and content-bearing revisions strictly increase |
| Browser.MergeIs | web/src/messages/state.ts:16-24 | a merge changes one message, never to an older revision, and metadata does not erase a body of the same revision |
| Browser.ReceiveKeeps | web/src/messages/state.ts:25-47 | a delivery that follows its connection is applied without error and leaves every body truthful |
| Browser.PageAgrees | web/src/messages/state.ts:16-47 | any order of deltas, snapshots, metadata and body reads leaves each loaded body equal to SQL's content at its revision, and revisions never go back |
| Parallel.GroupParallelMessages | web/src/operator/parallel.ts:8-47 | the loop computes the sweep over the messages sorted by start time and id: every message once, and two dated messages together exactly when a chain of intersecting intervals links them |
| Parallel.SweepFindsComponents | web/src/operator/parallel.ts:22-45 | a sweep over any listing in start order finds the connected components of overlap |
| Parallel.SortedOrders | web/src/operator/parallel.ts:14-18 | sorting orders by start, unknown starts last, and keeps every message |
| Parallel.SweptHasAll | web/src/operator/parallel.ts:22-45 | every message is in the layout exactly once |
| Parallel.SweptColumns | web/src/operator/parallel.ts:33-43 | within a group a column has one actor and an actor one column |
| Parallel.GroupsAreComponents | web/src/operator/parallel.ts:22-45 | for messages in any order, two dated ones share a group exactly when a chain of intersecting intervals links them |
| Parallel.UndatedAlone | web/src/operator/parallel.ts:23-27 | a message without a start time shares its group with no other |

## Left out

- MessageStore.Store.WriteOutput: does not model timestamps, the dispatch flag or the wake-up that an end causes.
- MessageStore.Store.GetMessage: hydrates one message; the source batches the rows of several messages and resolves each by its owner.
- MessageStore.Store.Save: reports a conflict with an existing id before packing, where the database reports it on insertion after packing.
- MessageStore.Store.ExpireMessages: the idle messages are a parameter; clocks are not modelled.
- MessageStore.Store.MessageBlocks: the cursor is modelled decoded; its textual form and the JSON text of a block are not.
- Pages.Blocks: the visiting callback of the source is the returned list; a failing callback is not modelled.
- HarnessStores.HarnessStore.CreateHarnessRun: the conversation row, participants and the stored request text are not modelled.
- HarnessStores.HarnessStore.Lock: runs the three statements in sequence; their interleaving is in HarnessProtocol.
- HarnessAgreement.Perform: takes from its callers that an append extends the saved events by the event it carries, which HarnessProtocol shows of every attempt.
- HarnessProtocol.Reachable: an adapter is any sequence of event data with any outcome; the cancellation watcher is one of the causes of an interruption.
- Admission.AdmissionIsSafe: says that an accepted submission is never lost or launched twice, not that the loop is scheduled.
- Writers.ExactlyOnce: three attempts and their delays are one step whose requests may arrive any number of times.
- ConvListeners.ObserversAreConsistent: a message deleted while it is watched, and reader restarts by time, are not modelled.
- MessageListeners.ObserverIsConsistent: the message is a run's, which nobody deletes.
- LongHorizon.SuccessIsSound: a prompt's text, the shortening of saved summaries and the parsing of a decision are not modelled; a reply is its decoded decision.
- LongHorizon.ApprovalsSpentOnce: a question is named by its round and reason, which are its effect key; how people answer it is not modelled.
- Intake.RunsPartitionInput: a run deleted by hand before it finished is not modelled.
- Cursors.ConversationClient.Signal: the wake annotations and the object's creation conflict are not modelled.
- Parallel.SortedOrders: message ids are compared as numbers and dates are already parsed.
- JSON and UTF-8: text is a sequence of characters, and an encoding of blocks stands for the JSON text.
- HTTP, SSE, Redis, Kubernetes and SQL clients, configuration and registration: input and output only.
- Human questions: a small machine from pending to resolved.
- The router and interaction operators: mostly prompt text and calls on top of the cursors.
- A promise that every revision wakes its reader: acknowledging a dispatch does not check the revision, so none is made.
