# Verification of the Kanban dispatcher

This project models the dispatcher of a multi-agent development daemon and proves properties of
whole runs of it. Six agents each work one column of a Kanban board; humans approve or reject tasks
that wait in four buffer columns; an event loop turns board events into review items; everything that
must survive a restart is kept twice, in memory and in a store. Beside the dispatcher it models five
self-contained algorithms of the same program.

Run `dafny verify dfyconfig.toml` with Dafny 4.11 to verify everything.

## How it is built

| file | what it holds |
|---|---|
| `columns.dfy`, `board.dfy`, `board_runs.dfy`, `kanban_board.dfy` | columns, roles and stages; the board as functions; any sequence of board operations; the mutable board class |
| `sorting.dfy`, `review_queue.dfy`, `human_review_queue.dfy` | stable sorting; the review queue as functions, with its refinement and boot confluence; the mutable queue class |
| `protocol.dfy` | the dispatcher as a transition system, one step per lock section: agents, event loop, human and tool calls, reloads, lost events, restarts |
| `effects.dfy`, `lists.dfy`, `steps.dfy` | what each board write does: to records and counts of a well-formed board, to lists, histories and stages of any board; the one board write of every step |
| `gate.dfy`, `wip.dfy`, `placement.dfy`, `blocking.dfy`, `resolution.dfy`, `action_log.dfy`, `verdicts.dfy`, `queue_runs.dfy`, `starts.dfy`, `edits.dfy`, `wakes.dfy` | properties of every interleaving: the approval gate, the WIP bound, the waiting map, ownership on the lists, block and answer, when a resolved item stays resolved and a recorded action recorded, which verdicts items hold, the order of the queue, that nothing blocked is started, what a landing edit loses, delivery of events and lost wake-ups |
| `sections.dfy`, `atomic.dfy`, `agent_runs.dfy`, `outcomes.dfy` | calls, events and agent runs that nothing interrupts, as runs of the machine and in one step; what each of them changes, spelled out field by field |
| `ownership.dfy`, `restarts.dfy`, `gate_edits.dfy`, `approvals.dfy`, `accounting.dfy`, `agreement.dfy` | properties of runs whose calls do not overlap: ownership on the records, restart safety and what a restart undoes, the gate with free edits, current approvals, Done, move accounting, queue against store |
| `holes.dfy`, `in_flight.dfy` | exact conditions and runs in which a property is lost; what becomes of a task blocked while an agent works on it |
| `journeys.dfy`, `reachable.dfy`, `long_runs.dfy` | how agents, events and approvals take a task over the board, as runs of the machine; runs from a fresh installation into the states where a property is lost |
| `store.dfy`, `dispatcher.dfy` | the mutable store and dispatcher, method by method, against the one-step specifications |
| `texts.dfy`, `stream.dfy`, `window.dfy`, `cover.dfy`, `wrap.dfy`, `editor.dfy` | stream parser, context window, minimal cover of repository roots, word wrap, editor buffer |

Model output, verdicts, ids, times, file listings and the choices of hash maps are inputs of the steps.
A step that is not possible changes nothing, so runs need no side conditions but the stated hypotheses.
The theorems about runs speak of every state of a trace (`Protocol.Trace`): the states a run goes
through, each action satisfying a hypothesis where it is taken.

Which actions a theorem about runs leaves out is said by its hypothesis:

- `Anything`: nothing.
- `Allowed(mode)`: edits of a task, and in strict runs rework to the right.
- `Within(column, bound)`: restarts, and limits above the bound.
- `Undisplaced`: steps, other than the agent's own, that take a task in work out of its agent's column;
  `Left(id)` and `LeftAlone(role, id)` besides restarts, calls that move that task, and answers to the role.
- `FreelyEdited(mode)`: overlapping calls, blocks that take a task in work away, and in strict runs
  rework to the right.
- `Undisturbed`: overlapping calls, such blocks, and edits whose stored record is not where the task is
  shown; `Leftward` besides rework to the right.
- `NotOverwritten(id)`: restarts, and other edits of the task.
- `Lossless`: lost events and restarts. `Unattended`: calls and restarts.
- `OnlyAgent(role)`: everything but the sections of that agent.

Where the code and its documentation differ, the model follows the code: taking an item by task takes
the first item of any kind (src/dispatcher/review_queue.rs:146-152 documents buffer approvals only);
there are 11 columns and 6 roles (two test names at src/dispatcher/mod.rs:1992 and 2068 say 13 and 7);
a wrapped line is measured in bytes, not in characters (src/tui/ui.rs:1155).

## What the code does not guarantee

Each of these is a lemma with the exact condition, and `reachable.dfy` and `long_runs.dfy` run the
machine from a fresh installation into the states in question:

- A rejection may name a column to the right of the buffer. It keeps the approval gate exactly when the
  approvals already recorded reach that column (`ReworkKeepsGateIff`, `ReworkCanSkipEveryGate`,
  `UnapprovedReachesDeploying`).
- Approvals ignore WIP limits, and the slot an approval frees wakes nobody who waits for it
  (`ApprovalIgnoresLimits`, `EventWakesIff`, `WaitingIsReached`).
- A task that finishes wakes no role whose task waited for it (`LostWakeUp`, `FinishMakesReady`,
  `QuiescentIsReached`).
- The move to Done is never stored, so a restart sends every finished task back to Deploying, and
  editing a finished task breaks the board (`DoneIsNeverStored`, `RestartUndoesDone`,
  `EditKeepsBoardIff`, `EditingDoneBreaksBoard`, `DoneIsReached`).
- Nor is the move into a buffer, so a restart empties all four buffers, sends each task there back to
  its agent, and still queues its approval, which no decision can then act on (`NoBufferIsEverStored`,
  `RestartEmptiesBuffers`, `RestartStrandsApprovals`, `StrandedApprovalIsReached`).
- An edit takes back from the board exactly the decisions recorded since it read the store
  (`EditLosesDecisionIff`, `EditLandsIff`, `EditUndoesApproval`, `LostApprovalIsReached`).
- A resolved item stays resolved exactly when no pending discussion holds an older copy of it
  (`ResolvedForeverIff`, `DiscussionReopens`, `ReopenedIsNotQueued`, `StaleDiscussionIsReached`), and a
  recorded action stays recorded exactly when no pending call holds a copy read before it
  (`ActionsForeverIff`).
- A blocked agent's question is stored once and queued twice; an answer keeps queue and store in
  agreement exactly when it takes a question under its stored id (`QuestionIsAnnounced`,
  `QuestionQueuedTwice`, `TwiceQueuedIsReached`, `AnswerKeepsAgreementIff`).
- An answer is lost exactly when the role has announced its question and not yet raised its flag
  (`AnswerLostIff`, `EarlyAnswerIsLost`, `EarlyAnswerIsPossible`); an answer reaches the waiting role
  exactly when the question's task is still in its column (`AnswerReachesColumn`); and it is among the
  answered questions later runs are told exactly when it was given to the stored id, so never through
  the item a blocking agent queues (`AnswerIsVisibleIff`, `AgentsCopyIsUnseen`).
- A step keeps task ownership exactly when it takes no task in work away from its agent, which a block
  can do and a decision begun before somebody else's (`StepPlacedIff`, `CallOwnedIff`, `BlockOwnedIff`,
  `DisplacementIsReached`); a block takes no agent off its task, so the agent still moves it on past its
  blockers exactly when the run succeeds, is verified and finds room (`BlockInFlightJumps`,
  `BlockedInFlightRun`, `BlockedRunFinishes`, `ClearedIsReached`, `BlockedTaskIsFinished`).

## Model

| member | source | states |
|---|---|---|
| Columns.FeedersAreUnique | src/dispatcher/mod.rs:84-105 | roles and work columns correspond, no two roles feed one column, every buffer and Done has exactly one feeding role |
| Columns.StagesShow | src/model/task.rs:68-84 | each column's own stage shows in it; of the legacy stages the backlog shows with the prioritizer, work in progress with the coder, and what waits for review where the coder passes work on |
| Kanban.AdvanceEffect | src/dispatcher/board.rs:85-109 | a move keeps the board well formed, changes one record's stage, and puts the task behind all tasks of equal priority |
| Kanban.ReworkIsFifo | src/dispatcher/mod.rs:469-471 | tasks sent back with priority 0 queue up first in, first out, whatever their priority was |
| Kanban.SetPriorityEffect | src/dispatcher/board.rs:138-146 | a new priority keeps the board well formed and every count |
| Kanban.PickIsBestReady | src/dispatcher/board.rs:122-135 | the pick is a ready task of the column with the smallest priority number, every blocker of it is on the board in Done, and when nothing is picked each task of the column has a blocker that is not |
| Kanban.PickIsUnblocked | src/dispatcher/board.rs:122-135 | the same about blockers on any board, filed or not |
| Kanban.SortedColumn | src/dispatcher/board.rs:149-156 | a sorted column is in order of priority number, and ids without a record sort behind those with one |
| Kanban.FindColumnIsStage | src/dispatcher/board.rs:159-166 | the column found is the stage's, for every iteration order of the column map |
| Kanban.FromTasksEffect | src/dispatcher/board.rs:23-53 | the projection of records with distinct ids is well formed and holds exactly these records |
| BoardRuns.BoardRefinement | src/dispatcher/board.rs:27-166 | after any sequence of moves, additions and priority changes every task is listed once, in its stage's column, sorted by priority |
| BoardRuns.OthersKeepTheirOrder | src/dispatcher/board.rs:85-156 | no operation changes the order of the tasks it is not about |
| KanbanBoards.KanbanBoard.FromTasks | src/dispatcher/board.rs:27-53 | the constructing loops build the projection; distinct ids make a valid board |
| KanbanBoards.KanbanBoard.FindColumn | src/dispatcher/board.rs:159-166 | the search loop finds the stage's column in any order |
| KanbanBoards.KanbanBoard.Advance | src/dispatcher/board.rs:85-109 | in place: new stage, place behind equals, false and no change for an unknown task |
| KanbanBoards.KanbanBoard.AddTask | src/dispatcher/board.rs:112-120 | in place, keeping a valid board valid for a new id |
| KanbanBoards.KanbanBoard.SetPriority | src/dispatcher/board.rs:138-146 | in place, keeping a valid board valid |
| KanbanBoards.KanbanBoard.NextUnblocked | src/dispatcher/board.rs:125-135 | the loop returns the best-ranked ready task, and some task whenever one is ready; every blocker of a returned task is on the board in Done, and when none is returned each listed task has a blocker that is not |
| ReviewQueues.QueueIsStableSort | src/dispatcher/review_queue.rs:80-152 | after any operations the queue is the stable sort by key of the live items in arrival order |
| ReviewQueues.HumanOrder | src/dispatcher/review_queue.rs:72-98 | after any operations questions come first, in order of their stamps; then approvals, the rightmost buffer first, and for one buffer by priority number and then by stamp |
| ReviewQueues.QueueFromLive | src/dispatcher/review_queue.rs:101-160 | the live items determine the queue, each is in it once, and the questions are a prefix of the counted length |
| ReviewQueues.TakesLeastOfTask | src/dispatcher/review_queue.rs:146-152 | taking by task takes an item of least key of that task, so a question before an approval |
| ReviewQueues.DrainIsQueue | src/dispatcher/review_queue.rs:131-144 | peeking and dequeuing by id until empty yields the queue in order |
| ReviewQueues.BootConfluence | src/dispatcher/mod.rs:1013-1044 | the rebuilt queue is the same for every order of the stored items if and only if no two different items share a sort key |
| HumanReviewQueues.HumanReviewQueue.Enqueue | src/dispatcher/review_queue.rs:120-128 | the position search and insertion are the ordered insertion, and keep the queue in the order of kind, buffer, priority and stamp |
| HumanReviewQueues.HumanReviewQueue.Peek | src/dispatcher/review_queue.rs:131-134 | the first item; on a sorted queue no item has a smaller key, it is a question if any item is, the oldest of them, and otherwise an approval for the rightmost buffer, there of the smallest priority number and then the oldest |
| HumanReviewQueues.HumanReviewQueue.Dequeue | src/dispatcher/review_queue.rs:141-144 | removes and returns the first item with the id, or nothing |
| HumanReviewQueues.HumanReviewQueue.DequeueByTaskId | src/dispatcher/review_queue.rs:149-152 | removes and returns the first item of the task, or nothing |
| HumanReviewQueues.HumanReviewQueue.QuestionCount | src/dispatcher/review_queue.rs:155-160 | the counting loop returns the length of the prefix of questions of a sorted queue |
| QueueRuns.QueueStaysInOrder | src/dispatcher/review_queue.rs:72-128 | in every interleaving, restarts included, the dispatcher's queue is in that order |
| Reviews.ActionsResolve | src/state/review.rs:66-79 | a decision or answer resolves an item for good, a comment never changes whether it is resolved |
| Gates.AgentKeeps | src/dispatcher/agent_pool.rs:194-293 | every section of an agent, however stale its snapshot, keeps the gate invariant |
| Gates.ContinueKeeps | src/dispatcher/mod.rs:355-522 | every section of a half-done call keeps the gate invariant for itself and all other calls |
| Gates.StepKeeps | src/dispatcher/mod.rs:1803-1956 | every step of the machine but one that begins an edit of a task (and in strict runs a rework to the right), restarts included, keeps the gate invariant |
| Gates.GateSafety | src/dispatcher/mod.rs:355-522 | in every interleaving from a fresh installation without edits of tasks, each task in a column has a recorded decision for every buffer left of it, on the board and in the store; with leftward rework an approval |
| Gates.DoneHasFourApprovals | src/dispatcher/mod.rs:371-380 | with leftward rework and without edits of tasks a task listed in Done carries the approvals of all four buffers |
| GateEdits.GateWithEdits | src/dispatcher/mod.rs:721-746 | the gate with free edits: in every run whose calls do not overlap, edits and restarts included and no task in work blocked out of its column, a listed task has a recorded decision for every buffer left of the column that lists it |
| GateEdits.DoneIsApproved | src/dispatcher/mod.rs:721-746 | so with leftward rework a task listed in Done carries all four approvals whatever was edited |
| Approvals.ApprovalsAreCurrent | src/dispatcher/mod.rs:371-380 | in runs without overlapping calls, with harmless blocks and edits and leftward rework, a task right of a buffer has an approval for it younger than every recorded return to the buffer or left of it |
| Listings.WriteLists | src/dispatcher/board.rs:85-146 | on any board, filed or not, a move takes the task off the first column that lists it and puts it in its destination, a new task joins its column, and no other write changes what any column lists |
| Listings.WriteRecords | src/dispatcher/mod.rs:371-380 | on any board a write changes no history but the decided task's, by one entry, or a replaced record's, and no stage but the moved task's |
| Wip.BufferWipBound | src/dispatcher/agent_pool.rs:472-492 | from any boot until the next restart, in every interleaving, edits included, and under reloaded limits, no buffer and not Done ever holds more than the larger of its count at boot and the largest limit |
| Wip.WaitingStep | src/dispatcher/mod.rs:1825-1830 | one section leaves a waiting record alone, adds the acting role's own, or takes the record of the left column away and signals its role |
| Wip.WaitingAlwaysRight | src/dispatcher/agent_pool.rs:478-483 | in every run each waiting record is under the column its role feeds, so none overwrites another role's |
| Sections.WholeIsARun | src/dispatcher/mod.rs:355-419 | an undisturbed call is a run of the interleaved machine |
| Atomic.WholeIsAtomic | src/dispatcher/mod.rs:355-878 | the sections of each call run back to back do what its one-step specification says |
| Outcomes.ApprovalOutcome | src/dispatcher/mod.rs:355-419 | an approved task is shown, stored and listed once, in the next column, the approval last in its history; its first item leaves the queue, the event is sent, the next role is told; nothing else changes but the items |
| Outcomes.RejectionOutcome | src/dispatcher/mod.rs:425-522 | a rejected task is shown, stored and listed in its target at priority 0 with the feedback, the rejection last in its history; else as an approval |
| Outcomes.NoDecision | src/dispatcher/mod.rs:355-462 | a decision on a task in no buffer, or to a column no role works, changes nothing |
| Outcomes.BlockOutcome | src/dispatcher/mod.rs:790-829 | a blocked task is shown, stored and listed in Prioritized at priority 0 with just these blockers, announced, and the prioritizer told |
| Outcomes.CreationOutcome | src/dispatcher/mod.rs:686-719 | a new task has the id, title and priority given, and nothing else; it is shown, stored, listed in Prioritized and announced |
| Outcomes.PriorityOutcome | src/dispatcher/mod.rs:748-764 | the stored and the shown record get the priority, and no count changes |
| Outcomes.ParkOutcome | src/dispatcher/mod.rs:766-782 | the stored and the shown record get the note to resume with |
| Outcomes.EditOutcome | src/dispatcher/mod.rs:721-746 | the stored record gets the title and becomes the shown one, the lists staying as they are |
| Outcomes.QuestionOutcome | src/dispatcher/mod.rs:835-878 | a question is stored open and queued under one new id, in its place in the queue |
| Outcomes.DiscussionOutcome | src/dispatcher/mod.rs:1272-1292 | the human's comment and the reply, in this order, join exactly one unresolved item of the task, if it has one |
| Outcomes.ArrivalEvent | src/dispatcher/mod.rs:1832-1834 | an arrival in a work column tells the column's role and nobody else |
| Outcomes.ReleaseEvent | src/dispatcher/mod.rs:1825-1830 | a change out of a column somebody waits for removes that record and tells that role |
| Outcomes.BufferEvent | src/dispatcher/mod.rs:1835-1875 | an arrival in a buffer stores an open approval under a new id and queues one under another, with the task's priority |
| Outcomes.DoneEvent | src/dispatcher/mod.rs:1877-1880 | an arrival in Done queues a question if and only if the merge conflicts |
| Outcomes.BlockedEvent | src/dispatcher/mod.rs:1892-1907 | an agent's announced question is queued |
| Outcomes.WakeOutcome | src/dispatcher/agent_pool.rs:196-244 | a woken agent that is not blocked runs on the picked task, whose shown and stored record has a branch afterwards |
| Outcomes.SuccessOutcome | src/dispatcher/agent_pool.rs:354-508 | a verified success below the limit, compared in 32 bits, is reported, shown and listed in the next column, announced twice, and the agent rests |
| Outcomes.WaitingOutcome | src/dispatcher/agent_pool.rs:472-483 | at the limit it is reported, the role recorded as waiting for the column, and the task stays |
| Outcomes.UnverifiedOutcome | src/dispatcher/agent_pool.rs:354-450 | a success that fails both verifications is reported and a human asked with the verifier's text |
| Outcomes.BlockedOutcome | src/dispatcher/agent_pool.rs:313-351 | a blocked run stores an open question, queues it under another id, announces it, and the agent rests blocked |
| Outcomes.BootOutcome | src/dispatcher/mod.rs:998-1088 | a boot shows the stored tasks, queues exactly the open items as stored, wakes the roles with work, and has no event, waiting record or call pending |
| Atomic.EventIsAtomic | src/dispatcher/mod.rs:1818-1922 | the handling of one event run back to back does what its one-step specification says |
| AgentRuns.WakeIsAtomic | src/dispatcher/agent_pool.rs:196-244 | a woken agent spends its permit, heeds its flag, takes the first ready task and gives it a branch |
| AgentRuns.GateIsAtomic | src/dispatcher/agent_pool.rs:464-507 | at the limit the role waits; below it the task moves and two events follow |
| AgentRuns.AskingIsAtomic | src/dispatcher/agent_pool.rs:313-351 | blocking files an item, emits an event, raises the flag and queues an item under another id |
| AgentRuns.ResultIsAtomic | src/dispatcher/agent_pool.rs:297-450 | a result is reported, verified and retried once, then passes the gate or goes to a human |
| Ownership.StepOwned | src/dispatcher/agent_pool.rs:194-293 | every step keeps ownership and the store at most one column behind, calls being undisturbed and harmless: no block of a task in work outside Prioritized, no edit whose stored record is not where the task is shown |
| Ownership.CallOwnedIff | src/dispatcher/mod.rs:721-829 | an undisturbed call keeps that invariant if and only if it is harmless in this sense |
| Ownership.OwnershipSafety | src/dispatcher/agent_pool.rs:207-217 | from any boot, calls being undisturbed and harmless, while a role works on a task the task's record and listing are in that role's column and no other role works on it |
| Placement.OwnershipWithEdits | src/dispatcher/agent_pool.rs:207-217 | from any boot, in every interleaving, overlapping calls and edits included, until a call takes a task in work away from its agent: the task a role works on is listed in that role's column and in no other, and no other role works on it |
| Placement.StepPlacedIff | src/dispatcher/mod.rs:355-829 | any step keeps this invariant of the lists if and only if it is the agent's own or takes no task in work out of its agent's column |
| Ownership.StartsOnBestReady | src/dispatcher/agent_pool.rs:207-217 | a run starts only on the best-ranked ready task of the column, whose blockers are all in Done and which nobody else has |
| Starts.WorkWasFree | src/dispatcher/agent_pool.rs:207-217 | in every interleaving, edits, overlapping calls and restarts included, a task an agent holds was listed in its column, all its blockers on the board in Done, at an earlier point at which the agent was about to pick |
| Starts.BootWakesIff | src/dispatcher/mod.rs:1078-1088 | after a boot every role rests, neither blocked nor answered, and is awake if and only if some stored record shows its column |
| Starts.BootedRoleStarts | src/dispatcher/mod.rs:1078-1088 | after a boot a role with a stored task whose blockers are done runs on such a task, of the smallest priority number among them |
| Ownership.DoneIsAbsorbing | src/dispatcher/agent_pool.rs:485-492 | calls being undisturbed and harmless, only a restart or a block of that very task takes a task's record out of Done |
| Placement.DoneStaysListed | src/dispatcher/agent_pool.rs:485-492 | in such interleavings only a restart or a call that moves that very task - a block, or a decision begun earlier - takes a task out of the list of Done |
| Ownership.RestartSafety | src/dispatcher/mod.rs:1002-1007 | rebuilding the board at any point keeps all tasks and histories and moves each task back at most one column |
| Ownership.RestartAfterRun | src/dispatcher/mod.rs:1002-1007 | the same after any run of undisturbed harmless calls from any boot |
| Restarts.DoneIsNeverStored | src/dispatcher/agent_pool.rs:485-507 | no step of such a run stores a record in Done |
| Restarts.NoBufferIsEverStored | src/dispatcher/agent_pool.rs:485-507 | from a fresh installation no step of such a run stores a record in a buffer either: every stored record shows some role's column |
| Restarts.RestartUndoesDone | src/dispatcher/mod.rs:1002-1007 | a restart takes every finished task back to Deploying |
| Restarts.RestartEmptiesBuffers | src/dispatcher/mod.rs:1002-1007 | a restart at any point of such a run leaves every buffer and Done empty, each task that was there one column back, and any other where it was, or from Designing in Prioritized |
| Restarts.RestartStrandsApprovals | src/dispatcher/mod.rs:1013-1044 | that restart queues every unresolved item again, while approving or rejecting any task does nothing |
| Accounting.WeightIsBounded | src/dispatcher/board.rs:79-81 | the column counts add up to the number of tasks, so the column indices to at most ten per task |
| Accounting.MoveAccounting | src/dispatcher/agent_pool.rs:485-492 | until a restart, calls being undisturbed and harmless, the sum of column indices is its initial value plus forward moves minus rework distance, and forward moves are at most ten per task plus that distance |
| Agreement.QueueAgreesWithStore | src/dispatcher/mod.rs:393-405 | in undisturbed runs without questions each task has as many queued items as unresolved stored ones, restarts included |
| Agreement.ItemsOnlyGain | src/dispatcher/mod.rs:393-401 | without overlapping calls every stored item stays and only gains actions |
| Agreement.ResolvedStaysResolved | src/state/review.rs:66-79 | without overlapping calls a resolved item stays resolved, also across restarts |
| Resolution.ResolvedForeverIff | src/dispatcher/mod.rs:1272-1292 | a resolved item stays resolved in every interleaving, restarts included, if and only if no pending discussion holds a copy of it taken while it was unresolved |
| Resolution.ResolvedAtBoot | src/dispatcher/mod.rs:1013-1044 | what is resolved at a boot stays resolved in every interleaving |
| Verdicts.ApprovalIsStored | src/dispatcher/mod.rs:393-401 | approving a task in a buffer adds exactly an approval to exactly one unresolved item of the task, if it has one; every other item, and every item in any other case, stays as it is |
| Verdicts.RejectionIsStored | src/dispatcher/mod.rs:494-503 | rejecting it adds exactly a rejection with the feedback in the same way |
| Verdicts.VerdictsAreRecorded | src/dispatcher/mod.rs:371-405 | in every interleaving, edits and restarts included, an item holds an approval only if the history of its task held one at that point or before, and a rejection only if it held a rejection with that feedback |
| ActionLogs.ActionsForeverIff | src/dispatcher/mod.rs:393-401 | what is recorded on an item stays recorded in every interleaving, restarts included, if and only if every pending call that holds a copy of the item has all of it in its copy |
| Resolution.DiscussionReopens | src/dispatcher/mod.rs:1272-1292 | whatever resolves an item while a discussion of it is half done, in any run, the discussion's last section makes it unresolved again |
| Blocking.BlockedStartsNothing | src/dispatcher/agent_pool.rs:199-205 | in every interleaving a blocked role stays blocked and runs no task until an answer is delivered to it |
| Blocking.BlockedTaskStays | src/dispatcher/agent_pool.rs:313-351 | in such interleavings, from the block until an answer reaches the role, a restart or a call that moves that task, the task stays listed in the blocked role's column |
| Blocking.FlaggingParks | src/dispatcher/agent_pool.rs:340-343 | raising the flag parks the task the agent was running |
| Blocking.AnswerEffect | src/dispatcher/mod.rs:598-650 | an answer fills exactly one role's slot, lowers its flag and sets its permit; the item leaves the queue and its stored copy is answered |
| Blocking.AnswerReachesColumn | src/dispatcher/mod.rs:630-647 | a blocked role is released if and only if the question's task is in its column |
| Blocking.AnsweredRoleLooks | src/dispatcher/agent_pool.rs:139-157 | an answered idle role wakes and looks at its column |
| Wakes.EntriesWakeTheirRole | src/dispatcher/mod.rs:413-416 | whichever call but a creation makes a work column list another task, on any board, that column's role has its permit set when the call is done |
| Wakes.AgentEntersDesigning | src/dispatcher/agent_pool.rs:485-501 | the only agent that makes a work column list another task is the prioritizer, and its next section announces the move |
| Wakes.EventWakesIff | src/dispatcher/mod.rs:1818-1926 | handling an event sets a role's permit if and only if it is a new task and the role the prioritizer, a change to the role's column, or a change from the column the role waits for |
| Wakes.CreationIsAnnounced | src/dispatcher/mod.rs:1819-1822 | a creation lists its task in Prioritized and puts its event behind whatever is queued |
| Wakes.EventIsDelivered | src/dispatcher/mod.rs:1806-1834 | in every interleaving without lost events or restarts an event for a role is still on its way or has left the loop in a step that set the role's permit |
| Wakes.CreationReachesPrioritizer | src/dispatcher/mod.rs:1819-1822 | so a new task is on its way to the prioritizer or has woken it, at every later point |
| Wakes.LostWakeUp | src/dispatcher/mod.rs:1823-1836 | when only the last agent works and nothing else is announced, every other role rests unsignalled however long the daemon runs without calls or restarts |
| Wakes.FinishMakesReady | src/dispatcher/board.rs:125-135 | though the move into Done makes a task ready that waited for the moved one only |
| Protocol.RunsHaveTraces | src/dispatcher/mod.rs:1803-1956 | every run has a trace from every state, ending where executing the run ends |
| Holes.ReworkKeepsGateIff | src/dispatcher/mod.rs:463-482 | a rejection keeps the gate if and only if the recorded approvals already reach its target |
| Holes.ReworkCanSkipEveryGate | src/dispatcher/mod.rs:463-482 | an unapproved task can be rejected into Deploying |
| Holes.ApprovalIgnoresLimits | src/dispatcher/mod.rs:367-381 | an approval adds to its column at any limit, keeps every waiting record and wakes no waiting role |
| Holes.EditKeepsBoardIff | src/dispatcher/mod.rs:721-746 | an edit keeps every task listed in its stage's column if and only if the stored stage is the shown one |
| Holes.EditingDoneBreaksBoard | src/dispatcher/mod.rs:736-742 | editing a finished task leaves it listed in Done with another stage |
| Holes.EditUndoesApproval | src/dispatcher/mod.rs:727-742 | an edit around an approval takes the approval back while the task stays listed where it was approved to |
| Edits.EditLandsIff | src/dispatcher/mod.rs:736-742 | the last section of an edit keeps what the board has recorded on the task if and only if that is a prefix of the history of the record it writes |
| Edits.EditLosesDecisionIff | src/dispatcher/mod.rs:727-742 | an edit that lands later in any interleaving sets the history back to what it read, and loses something if and only if a decision on the task was recorded in between |
| Steps.StepWritesBoard | src/dispatcher/mod.rs:355-878 | every step but a restart writes the board once, by the write its section or call makes |
| Holes.ReopenedIsNotQueued | src/dispatcher/mod.rs:1272-1292 | a discussion around an approval, rejection or answer leaves the item unresolved in the store and out of the queue |
| Holes.AnswerKeepsAgreementIff | src/dispatcher/mod.rs:600-628 | an answer keeps queue and store in agreement if and only if it takes nothing or a question under its unresolved stored id |
| Holes.AnswerIsVisibleIff | src/state/store.rs:183-206 | an answer joins a task's answered questions if and only if the queued item's id is that of a stored question of the task; otherwise they stay the same |
| Holes.AgentsCopyIsUnseen | src/dispatcher/agent_pool.rs:313-351 | an answer to the item a blocking agent queues changes no stored item and leaves its stored question open |
| Holes.AnswerLostIff | src/dispatcher/agent_pool.rs:335-343 | an answer that reaches a role leaves it blocked after its next section if and only if the role had announced its question and not yet raised its flag |
| Holes.EarlyAnswerIsLost | src/dispatcher/agent_pool.rs:335-343 | a lost answer leaves the role blocked without a permit |
| Holes.QuestionIsAnnounced | src/dispatcher/agent_pool.rs:313-351 | a blocking agent stores its question once, queues it once and puts its announcement behind whatever is queued |
| Holes.QuestionQueuedTwice | src/dispatcher/mod.rs:1890-1907 | in every interleaving without lost events or restarts the announcement is on its way until the loop, handling it, queues a second item and stores none |
| InFlightBlocks.BlockOwnedIff | src/dispatcher/mod.rs:795-808 | a block keeps ownership if and only if no agent works on the task outside Prioritized |
| InFlightBlocks.BlockInFlightJumps | src/dispatcher/mod.rs:795-808 | after a block of a task in work the agent's next section moves it if and only if the agent had passed the WIP check; then it jumps from Prioritized to the agent's target and the store is left behind |
| InFlightBlocks.BlockedInFlightRun | src/dispatcher/mod.rs:790-829 | in every run of the agent's own sections after such a block the task keeps its blockers, is in Prioritized until the agent's section that moves it, and in the agent's target from then on |
| InFlightBlocks.BlockedRunFinishes | src/dispatcher/agent_pool.rs:297-450 | once the agent has finished with it, the blocked task is in the agent's target if and only if the run succeeded, was verified at once or after the retry, and found room there; else in Prioritized |
| Reachability.UnapprovedReachesDeploying | src/dispatcher/mod.rs:463-482 | a run from a fresh installation puts a task nobody approved into Deploying |
| Reachability.LostApprovalIsReached | src/dispatcher/mod.rs:727-742 | a run from a fresh installation ends with an approved task whose record an edit has set back |
| Reachability.StaleDiscussionIsReached | src/dispatcher/mod.rs:1272-1292 | a run from a fresh installation ends with a resolved item and a pending discussion that will reopen it |
| Reachability.EarlyAnswerIsPossible | src/dispatcher/agent_pool.rs:335-343 | a run from a fresh installation ends with a question in the queue whose agent has not raised its flag |
| Reachability.TwiceQueuedIsReached | src/dispatcher/mod.rs:1890-1907 | a run from a fresh installation ends with a question stored once and queued twice |
| Reachability.ClearedIsReached | src/dispatcher/agent_pool.rs:472-492 | a run from a fresh installation ends with the designer past the WIP check |
| Reachability.DisplacementIsReached | src/dispatcher/mod.rs:445-471 | a run from a fresh installation ends with the coder working on a task and a rejection of it, begun before its approval, about to land |
| LongRuns.DoneIsReached | src/dispatcher/agent_pool.rs:485-507 | a run from a fresh installation takes a task through all agents, gates and approvals to Done, with ownership kept and nothing stored in Done |
| LongRuns.QuiescentIsReached | src/dispatcher/mod.rs:1823-1836 | a run from a fresh installation ends with the last agent about to move a task to Done, another task waiting for it only, and nobody told or about to be |
| LongRuns.WaitingIsReached | src/dispatcher/agent_pool.rs:478-483 | a run from a fresh installation ends with a buffer at its limit of one, the task in it open to approval and the designer recorded as waiting |
| LongRuns.BlockedTaskIsFinished | src/dispatcher/mod.rs:790-829 | a run from a fresh installation ends with a task moved on to the first buffer though its blocker is not done |
| LongRuns.StrandedApprovalIsReached | src/dispatcher/mod.rs:1013-1044 | a run from a fresh installation ends with an approval queued for a task that is in no buffer |
| Journeys.PassesOn | src/dispatcher/agent_pool.rs:455-508 | from any state in which one agent runs and the others rest, a successful run with room ahead is a run of the machine that moves the task to the next column, puts two events behind whatever is queued and leaves the other tasks, the reviews, the queue, the limits and the waiting records as they were |
| Journeys.OneLeg | src/dispatcher/mod.rs:355-419 | a told role, its backend's success, the filed item and its approval together take a task, while the others wait for it, from one work column to the next one's told role |
| Stores.InMemoryStore.FindUnresolvedForTask | src/state/store.rs:166-172 | returns an unresolved item of the task, or none when there is none |
| Stores.InMemoryStore.LoadAllTasks | src/state/store.rs:119-121 | returns the records in iteration order |
| Stores.InMemoryStore.LoadAllUnresolved | src/state/store.rs:174-181 | returns exactly the unresolved items, in iteration order |
| Stores.InMemoryStore.LoadAnsweredForTask | src/state/store.rs:183-206 | returns each answered question of the task with its latest answer, and only those |
| Stores.PairIsLatest | src/state/store.rs:183-206 | an item gives a pair if and only if it is a question of the task with that text and that is its answer after which no other was given |
| Stores.AnsweredPairsIff | src/state/store.rs:183-206 | a question and an answer are listed if and only if some listed item of the task is a question with that text and that latest answer |
| Stores.AnswerIsSeen | src/state/review.rs:150-165 | an answer stays the latest one whatever is discussed afterwards |
| Stores.AnsweredIsResolved | src/state/review.rs:66-79 | an answered item is resolved |
| Dispatchers.Dispatcher.Start | src/dispatcher/mod.rs:998-1088 | boot builds board and queue from the store; every role rests, and is awake if and only if some stored record shows its column |
| Dispatchers.Dispatcher.Approve | src/dispatcher/mod.rs:355-419 | in place: a task in a buffer moves to the next column with the approval recorded, board copy saved, one stored item resolved, one queued item taken, the event sent and the column's role woken; elsewhere nothing; true exactly for a task in a buffer with a record; exactly an approval joins one of its unresolved items, if it has one |
| Dispatchers.Dispatcher.Reject | src/dispatcher/mod.rs:425-440 | in place: a task in a buffer goes one column back at priority 0 with feedback and the rejection recorded, then as an approval, with the same flag; exactly a rejection with the feedback joins one of its unresolved items |
| Dispatchers.Dispatcher.RejectTo | src/dispatcher/mod.rs:445-522 | in place: the same to any work column; nothing, and false, if the task is in no buffer or the target has no role; exactly a rejection with the feedback joins one of its unresolved items |
| Dispatchers.Dispatcher.BlockTask | src/dispatcher/mod.rs:790-829 | in place: a listed task goes to the top of Prioritized with its blockers, is saved, announced and the prioritizer woken; an unlisted one is left alone; true exactly for a listed task with a record |
| Dispatchers.Dispatcher.CreateTask | src/dispatcher/mod.rs:686-719 | in place: a new task, with the title and priority given and nothing else, is stored, listed in Prioritized by priority and announced, and returned |
| Dispatchers.Dispatcher.PrioritizeTask | src/dispatcher/mod.rs:748-764 | in place: the stored record and the board's get the priority and the column is re-sorted; false for an unknown task |
| Dispatchers.Dispatcher.ParkTask | src/dispatcher/mod.rs:766-782 | in place: the stored record and the board's get the note; false for an unknown task |
| Dispatchers.Dispatcher.UpdateTask | src/dispatcher/mod.rs:721-746 | in place: the store's record with the new title is saved and replaces the board's whole record; false for an unknown task |
| Dispatchers.Dispatcher.AnswerQuestion | src/dispatcher/mod.rs:598-650 | in place: the item leaves the queue before its kind is looked at; a question's stored copy is answered and the role of its task's column gets the answer, a lowered flag and its permit; true exactly when there is such a role |
| Dispatchers.Dispatcher.CreateReviewItem | src/dispatcher/mod.rs:835-878 | in place: a question is stored and queued under one new id |
| Dispatchers.Dispatcher.HandleNext | src/dispatcher/mod.rs:1806-1926 | in place: the front event leaves the queue and signals, frees a slot, files and queues an approval, or queues a question, by its kind; an empty queue changes nothing |
| Dispatchers.Dispatcher.Wake | src/dispatcher/agent_pool.rs:196-244 | in place: the permit is spent, and unless blocked the first ready task of the column is taken, given a branch if it has none, and returned; all its blockers are in Done |
| Dispatchers.Dispatcher.TryAdvance | src/dispatcher/agent_pool.rs:455-508 | in place: at the limit the role is recorded as waiting, below it the task moves to the next column and two events follow |
| Dispatchers.Dispatcher.Escalate | src/dispatcher/agent_pool.rs:512-549 | in place: a question is stored, announced and queued under another id, and the role rests blocked |
| Dispatchers.Dispatcher.HandleAgentResult | src/dispatcher/agent_pool.rs:297-450 | in place: a success is reported and verified, with one retry, and then passes the gate or goes to a human; a blocked result goes to a human; a failure changes the agent's phase only |
| Dispatchers.AgentPool.Unblock | src/dispatcher/agent_pool.rs:139-157 | stores the answer, lowers the flag, sets the permit, of one role only |
| Streams.TurnStreaming | src/agent/main_agent.rs:592-684 | the buffer-and-split loops give what one pass over the complete lines of the whole text gives: for any lines, what the payloads of the data lines decode to adds up to content, finish reason, calls and events |
| Streams.PayloadIff | src/agent/main_agent.rs:605-620 | a line hands a payload to the decoder if and only if it is the data field with that payload, followed by any number of returns, and the payload is not the end mark |
| Streams.SkippedLines | src/agent/main_agent.rs:609-620 | blank lines, comments, other fields and the end mark carry nothing |
| Streams.ReplyOfPayloads | src/agent/main_agent.rs:600-680 | for any text of lines, however cut, the reply is that of the payloads its data lines carry, decoded in order |
| Streams.LinesAnnounce | src/agent/main_agent.rs:642-674 | the events emitted are, choice by choice, the word count of a text that is not empty, at least 1, and then the names its fragments bring |
| Streams.ChunkingInvariance | src/agent/main_agent.rs:600-608 | any two ways of cutting the same text end with the same result |
| Streams.ReplyAddsUp | src/agent/main_agent.rs:632-679 | content, finish reason and calls are the in-order sums of the deltas; one call per index up to the largest, with its argument fragments joined in order |
| Streams.BoundIsLargestIndex | src/agent/main_agent.rs:655-664 | the list of calls is one longer than the largest index seen |
| Streams.TokensCoverWords | src/agent/main_agent.rs:642-649 | the token counts emitted add up to at least the words of the text |
| CodingAgents.WindowMessages | src/agent/coding_agent.rs:142-168 | the scan for exchange starts and the cut compute the window |
| CodingAgents.WindowKeepsWholeExchanges | src/agent/coding_agent.rs:142-168 | the window of any complete exchanges is the preamble and the last ten of them, all whole |
| CodingAgents.WindowIsLastTen | src/agent/coding_agent.rs:142-168 | of more than ten exchanges all but the last ten are left out, of fewer none |
| CodingAgents.Run | src/agent/coding_agent.rs:61-129 | in every round the request carries the preamble and the last ten complete exchanges, and the outcome is the last reply's |
| RootCover.MinimalCover | src/bootstrap.rs:495-509 | the loop returns, in order, exactly the candidates that continue no other candidate by further components |
| RootCover.PathsAreLexicographic | src/bootstrap.rs:495-496 | paths sort by their first differing component, a path before its continuations |
| RootCover.NamesAreLexicographic | src/bootstrap.rs:495-496 | and components by their first differing character |
| RootCover.CoverIsMinimal | src/bootstrap.rs:493-494 | the result covers every candidate and no entry covers another |
| RootCover.CoverIgnoresOrder | src/bootstrap.rs:495-496 | the result depends only on which candidates there are |
| RootCover.NextCandidate | src/bootstrap.rs:498-508 | a new candidate is kept exactly when nothing kept covers it, and retaining removes nothing |
| WordWrap.WrapText | src/tui/ui.rs:1142-1169 | the nested loops wrap each paragraph greedily, an empty paragraph staying an empty line; width 0 leaves the text whole |
| WordWrap.TextIsBroken | src/tui/ui.rs:1146-1167 | the lines are those of the paragraphs in order, each empty or broken as below |
| WordWrap.ParagraphIsBroken | src/tui/ui.rs:1152-1166 | the words are kept in order with single blanks between them, each line fits or is one word, and no line could take the next word |
| Texts.SizeIsEncoded | src/tui/ui.rs:1155 | the size of a character is the number of bytes of its UTF-8 encoding (section 3 of RFC 3629), from which it can be read back |
| Texts.SpacesAreListed | src/tui/ui.rs:1152 | the characters words are cut at are the 25 with the White_Space property |
| WordWrap.GreedyIsOnly | src/tui/ui.rs:1152-1166 | these conditions determine the lines |
| WordWrap.WrapUsesFewestLines | src/tui/ui.rs:1152-1166 | no lines of text with the same words under the same conditions are fewer |
| EditorBuffers.ParseEditorBuffer | src/tui/app.rs:1035-1071 | the loop over lines computes title and description |
| EditorBuffers.SectionsAreRead | src/tui/app.rs:1035-1071 | the title read is the trimmed text between the title header and the description header, the description the trimmed text after it; what stands above the title header is not read |
| EditorBuffers.ParsedHasNoHeader | src/tui/app.rs:1041-1048 | no line of what is read is a section header |
| EditorBuffers.RoundTripIff | src/tui/app.rs:977-979 | printing and parsing gives the texts back if and only if both are trimmed, hold no header line and no newline after a return |

## Left out

- Liveness: an agent handles one task per wake, so nothing is claimed about when a task moves.
- Failed store writes and loads: every write succeeds; the code logs a failure and goes on.
- Generated ids: fresh ids are inputs, and a step whose id is used up does nothing; branch names, slugs and worktrees are inputs or absent.
- Outcomes.BufferEvent: the text of an approval item is the task's title alone, because the words the program appends to it have no part in the protocol.
- Task fields without a part in the protocol: epic, repository, description, timestamps; an edit changes the title only.
- Epics and the epic lists that creating a task updates.
- Stage history entries written by `transition_to`: no modelled operation calls it.
- The event bus: lost events are an action of the machine; events that only the user interface consumes are not emitted.
- WIP limit names and defaults: any map of limits may be in force and be reloaded at any time.
- The spawned delivery of an answer: storing it and lowering the flag is one section, waking the role the next.
- The chat, its forks and interrupts, panels, provider switching, configuration and tokens.
- Model calls, the verifier's model, git merges, worktrees and shells: their results are inputs.
- Dispatchers.Dispatcher.Approve: the class methods describe calls that run undisturbed; their interleavings are the sections of the machine, which are functions on values and do not capture aliasing of task references across locks.
- Streams.TurnStreaming: chunks are cut at character boundaries, JSON decoding is a function parameter, and the last step from arguments text to JSON is absent.
- CodingAgents.Run: a failed request and a reply without choices are one outcome, and retries inside a request are part of the model's reply.
- RootCover.MinimalCover: paths are sequences of component names; scanning directories for repositories is absent.
- Numbers are unbounded except where 32-bit width matters: priorities and limits are 32-bit, and the count the gate compares is truncated to 32 bits.
