/**
 * Every call, event and agent run spelled out, field by field, on well-formed boards: what a person who
 * issues a call, or watches an agent, finds changed afterwards, and that nothing else has changed.
 */
module Outcomes {
  import opened Options
  import opened Columns
  import opened Kanban
  import opened ReviewQueues
  import Sorting = StableSorting
  import opened Reviews
  import opened Protocol
  import opened Atomic
  import opened AgentRuns
  import opened Effects
  import opened Gates
  import opened Wip
  import opened Verdicts
  import opened Starts
  import opened Journeys

  // ── Pieces ────────────────────────────────────────────────────────────────

  /** No limit, waiting record, pending call or event being handled is affected. */
  predicate Undisturbed(s: State, s': State) {
    s'.limits == s.limits && s'.waiting == s.waiting && s'.calls == s.calls && s'.loop == s.loop
  }

  /** The role of the column is told, and nothing else happens to any agent. */
  ghost predicate Tells(s: State, s': State, c: Column) {
    exists r :: WorkColumn(r) == c && s'.agents == s.agents[r := AgentOf(s, r).(permit := true)]
  }

  lemma TellsRole(s: State, s': State, c: Column)
    requires RoleOf(c).Some? && s'.agents == WriteSignal(s.agents, RoleOf(c))
    ensures Tells(s, s', c)
  {
    FeedersAreUnique(c, RoleOf(c).value, RoleOf(c).value);
  }

  /** The first item of the task, of whatever kind, leaves the queue. */
  ghost predicate TakesFirst(q: Queue, q': Queue, taskId: Id) {
    if forall i :: 0 <= i < |q| ==> q[i].taskId != taskId then q' == q
    else exists k {:trigger q[k]} ::
      0 <= k < |q| && q[k].taskId == taskId && (forall i :: 0 <= i < k ==> q[i].taskId != taskId) && q' == q[..k] + q[k + 1..]
  }

  lemma DropsFirst(q: Queue, taskId: Id)
    ensures TakesFirst(q, DequeueByTask(q, taskId).0, taskId)
  {
    var k := FirstForTask(q, taskId);
    if k < |q| { assert q[k].taskId == taskId; }
  }

  /** The task is listed in its new column, once, and in no other. */
  ghost predicate ListedOnly(b: Board, id: Id, c: Column) {
    forall d :: Times(b, id, d) == if d == c then 1 else 0
  }

  lemma FiledListsOnly(b: Board, id: Id)
    requires WellFormed(b) && id in b.tasks
    ensures ListedOnly(b, id, b.tasks[id].Column())
  {
    forall d ensures Times(b, id, d) == if d == b.tasks[id].Column() then 1 else 0 {
      assert Times(b, id, d) == Listed(b.tasks, id, d);
    }
  }

  lemma StageIsFound(b: Board, id: Id)
    requires WellFormed(b)
    ensures FindColumn(b, id) == if id in b.tasks then Some(b.tasks[id].Column()) else None
  {
    FindColumnIsStage(b, id);
  }

  // ── Decisions ─────────────────────────────────────────────────────────────

  /** What every decision has in common, once the task's record is `t`. */
  ghost predicate DecidedTo(s: State, s': State, id: Id, t: Task, target: Column) {
    && s'.board.tasks == s.board.tasks[id := t] && s'.store == s.store[id := t]
    && ListedOnly(s'.board, id, target) && WellFormed(s'.board)
    && TakesFirst(s.queue, s'.queue, id) && Tells(s, s', target)
    && Undisturbed(s, s') && s'.used == s.used
  }

  lemma DecisionOutcome(s: State, id: Id, d: Decision, x: Input)
    requires WellFormed(s.board) && id in s.board.tasks && RoleOf(d.target).Some?
    ensures var s' := AfterDecision(s, id, d, x);
      && DecidedTo(s, s', id, Decided(s.board.tasks[id], d, x.now), d.target)
      && s'.events == s.events + [if d.Approved? then HumanApproved(id, d.target) else HumanRejected(id, d.target)]
  {
    hide DecideOn, WellFormed, FindUnresolved, DequeueByTask, WriteSignal, RoleOf, Tells, TakesFirst, ListedOnly;
    WriteBoardEffect(s.board, Decide(id, d, x.now));
    OwnId(s.board, id);
    var s' := AfterDecision(s, id, d, x);
    DropsFirst(s.queue, id);
    TellsRole(s, s', d.target);
    FiledListsOnly(s'.board, id);
  }

  /** An approved task is in the next column with the approval last in its history. */
  lemma ApprovalOutcome(s: State, id: Id, c: Column, next: Column, x: Input)
    requires Inv(Unchecked, s) && id in s.board.tasks && s.board.tasks[id].Column() == c && IsBuffer(c) && Next(c) == Some(next)
    ensures var s', t := RunCall(s, OpApprove(id), x), s.board.tasks[id];
      && DecidedTo(s, s', id, t.(stage := At(next), history := t.history + [Approval(x.now, At(next))]), next)
      && s'.events == s.events + [HumanApproved(id, next)]
  {
    hide RunCall, AfterDecision, WellFormed, DecidedTo, FindColumn;
    WholeIsAtomic(s, OpApprove(id), x);
    BufferNeighbours(c);
    StageIsFound(s.board, id);
    DecisionOutcome(s, id, Approved(next), x);
  }

  /** A rejected task is in the target column at priority 0, with the feedback and the rejection last in its history. */
  lemma RejectionOutcome(s: State, op: Op, c: Column, target: Column, x: Input)
    requires Inv(Unchecked, s) && (op.OpReject? || op.OpRejectTo?)
    requires op.id in s.board.tasks && s.board.tasks[op.id].Column() == c && IsBuffer(c)
    requires if op.OpReject? then Prev(c) == Some(target) else op.target == target && exists r :: WorkColumn(r) == target
    ensures var s', t := RunCall(s, op, x), s.board.tasks[op.id];
      && DecidedTo(s, s', op.id, t.(stage := At(target), priority := 0, feedback := Some(op.feedback),
                                    history := t.history + [Rejection(x.now, op.feedback, At(target))]), target)
      && s'.events == s.events + [HumanRejected(op.id, target)]
  {
    hide RunCall, AfterDecision, WellFormed, DecidedTo, FindColumn;
    WholeIsAtomic(s, op, x);
    BufferNeighbours(c);
    StageIsFound(s.board, op.id);
    DecisionOutcome(s, op.id, Rejected(target, op.feedback), x);
  }

  /** A decision on a task that is in no buffer, or to a column nobody works, changes nothing. */
  lemma NoDecision(s: State, op: Op, x: Input)
    requires Inv(Unchecked, s) && (op.OpApprove? || op.OpReject? || op.OpRejectTo?)
    requires op.id !in s.board.tasks || !IsBuffer(s.board.tasks[op.id].Column())
             || (op.OpRejectTo? && forall r :: WorkColumn(r) != op.target)
    ensures RunCall(s, op, x) == s
  {
    hide RunCall, AfterDecision, WellFormed, FindColumn;
    WholeIsAtomic(s, op, x);
    StageIsFound(s.board, op.id);
    if op.OpRejectTo? && RoleOf(op.target).Some? { assert WorkColumn(RoleOf(op.target).value) == op.target; }
  }

  // ── The tools ─────────────────────────────────────────────────────────────

  /** A blocked task is on top of Prioritized, with just these blockers. */
  lemma BlockOutcome(s: State, id: Id, blockedBy: seq<Id>, x: Input)
    requires Inv(Unchecked, s) && id in s.board.tasks
    ensures var s', t := RunCall(s, OpBlock(id, blockedBy), x), s.board.tasks[id];
      var t' := t.(stage := At(Prioritized), priority := 0, blockedBy := blockedBy);
      && s'.board.tasks == s.board.tasks[id := t'] && s'.store == s.store[id := t']
      && ListedOnly(s'.board, id, Prioritized) && WellFormed(s'.board)
      && s'.events == s.events + [StageChanged(id, t.Column(), Prioritized)] && Tells(s, s', Prioritized)
      && s'.queue == s.queue && s'.reviews == s.reviews && Undisturbed(s, s') && s'.used == s.used
  {
    hide RunCall, WellFormed, BlockOn, FindColumn, WriteSignal, Tells, ListedOnly;
    WholeIsAtomic(s, OpBlock(id, blockedBy), x);
    StageIsFound(s.board, id);
    WriteBoardEffect(s.board, Block(id, blockedBy));
    OwnId(s.board, id);
    var s' := RunCall(s, OpBlock(id, blockedBy), x);
    TellsRole(s, s', Prioritized);
    FiledListsOnly(s'.board, id);
  }

  /** A new task has the title and priority asked for and nothing else; it is stored, listed and announced. */
  lemma CreationOutcome(s: State, title: string, priority: Priority, x: Input)
    requires Inv(Unchecked, s) && x.newId !in s.used
    ensures var s' := RunCall(s, OpCreate(title, priority), x);
      var t := Task(x.newId, title, Backlog, priority, None, None, None, None, [], []);
      && s'.board.tasks == s.board.tasks[x.newId := t] && s'.store == s.store[x.newId := t]
      && ListedOnly(s'.board, x.newId, Prioritized) && WellFormed(s'.board)
      && s'.events == s.events + [TaskCreated(x.newId)] && s'.used == s.used + {x.newId}
      && s'.queue == s.queue && s'.reviews == s.reviews && s'.agents == s.agents && Undisturbed(s, s')
  {
    hide RunCall, WellFormed, AddTask, ListedOnly;
    WholeIsAtomic(s, OpCreate(title, priority), x);
    AddTaskEffect(s.board, NewTask(x.newId, title, priority));
    FiledListsOnly(RunCall(s, OpCreate(title, priority), x).board, x.newId);
  }

  /** Only the board and the store are affected. */
  predicate RecordsOnly(s: State, s': State) {
    && s'.queue == s.queue && s'.reviews == s.reviews && s'.agents == s.agents && s'.events == s.events && s'.used == s.used
    && Undisturbed(s, s')
  }

  /** A new priority is stored, and shown by a task on the board, whose columns list what they listed, in order. */
  lemma PriorityOutcome(s: State, id: Id, priority: Priority, x: Input)
    requires Inv(Unchecked, s) && id in s.store && s.store[id].id == id
    ensures var s' := RunCall(s, OpPrioritize(id, priority), x);
      && s'.store == s.store[id := s.store[id].(priority := priority)]
      && s'.board.tasks == (if id in s.board.tasks then s.board.tasks[id := s.board.tasks[id].(priority := priority)] else s.board.tasks)
      && WellFormed(s'.board) && (forall c :: Count(s'.board, c) == Count(s.board, c)) && RecordsOnly(s, s')
  {
    hide RunCall, WellFormed, SetPriority, Count;
    WholeIsAtomic(s, OpPrioritize(id, priority), x);
    SetPriorityEffect(s.board, id, priority);
  }

  /** A note is stored as the task's resume note, and shown on the board. */
  lemma ParkOutcome(s: State, id: Id, note: string, x: Input)
    requires id in s.store && s.store[id].id == id && (id in s.board.tasks ==> s.board.tasks[id].id == id)
    ensures var s' := RunCall(s, OpPark(id, note), x);
      && s'.store == s.store[id := s.store[id].(resume := Some(note))]
      && s'.board.tasks == (if id in s.board.tasks then s.board.tasks[id := s.board.tasks[id].(resume := Some(note))] else s.board.tasks)
      && s'.board.columns == s.board.columns && RecordsOnly(s, s')
  {
    hide RunCall;
    WholeIsAtomic(s, OpPark(id, note), x);
  }

  /** An edit stores the new title, and puts the whole stored record on the board. */
  lemma EditOutcome(s: State, id: Id, title: string, x: Input)
    requires id in s.store && s.store[id].id == id
    ensures var s' := RunCall(s, OpUpdate(id, title), x); var t := s.store[id].(title := title);
      && s'.store == s.store[id := t]
      && s'.board.tasks == (if id in s.board.tasks then s.board.tasks[id := t] else s.board.tasks)
      && s'.board.columns == s.board.columns && RecordsOnly(s, s')
  {
    hide RunCall;
    WholeIsAtomic(s, OpUpdate(id, title), x);
  }

  /** An edit of a task that is not stored changes nothing. */
  lemma NoEdit(s: State, op: Op, x: Input)
    requires (op.OpPrioritize? || op.OpPark? || op.OpUpdate?) && op.id !in s.store
    ensures RunCall(s, op, x) == s
  {
    hide RunCall;
    WholeIsAtomic(s, op, x);
  }

  /** A question is stored under a new id, open, and queued under the same id. */
  lemma QuestionOutcome(s: State, taskId: Id, question: string, x: Input)
    requires x.newId !in s.used
    ensures var s' := RunCall(s, OpAsk(taskId, question), x);
      && s'.reviews == s.reviews[x.newId := PersistedItem(x.newId, taskId, AgentQuestion(question), question, x.now, [])]
      && Joins(s.queue, s'.queue, ReviewItem(x.newId, taskId, AgentQuestion(question), question, x.now))
      && s'.board == s.board && s'.store == s.store && s'.agents == s.agents && s'.events == s.events
      && s'.used == s.used + {x.newId} && Undisturbed(s, s')
  {
    hide RunCall, Enqueue, Joins;
    WholeIsAtomic(s, OpAsk(taskId, question), x);
    EnqueueJoins(s.queue, ReviewItem(x.newId, taskId, AgentQuestion(question), question, x.now));
  }

  /** The item is put somewhere into the queue, behind everything that is seen before it if the queue is in order. */
  ghost predicate Joins(q: Queue, q': Queue, item: ReviewItem) {
    exists k {:trigger q[..k]} ::
      0 <= k <= |q| && q' == q[..k] + [item] + q[k..]
      && (forall i :: 0 <= i < k ==> SeenBefore(q[i], item)) && (k < |q| ==> !SeenBefore(q[k], item))
  }

  lemma EnqueueJoins(q: Queue, item: ReviewItem)
    ensures Joins(q, Enqueue(q, item), item)
  {
    hide SeenBefore, SortKey, KeyLe;
    var k := Sorting.Position(ByKey(), q, item);
    assert Enqueue(q, item) == q[..k] + [item] + q[k..];
    forall i | 0 <= i < |q| ensures ByKey()(q[i], item) <==> SeenBefore(q[i], item) { KeyMeansSeen(q[i], item); }
  }

  /** A discussion adds the human's comment and the reply to an unresolved item of the task, if there is one. */
  lemma DiscussionOutcome(s: State, taskId: Id, content: string, x: Input)
    requires OwnIds(s.reviews)
    ensures var s' := RunCall(s, OpDiscuss(taskId, content), x);
      && s' == s.(reviews := s'.reviews)
      && if exists p :: Candidate(s.reviews, taskId, p)
         then exists p :: Candidate(s.reviews, taskId, p)
                          && s'.reviews == s.reviews[p := s.reviews[p].(actions := s.reviews[p].actions
                               + [Comment(x.now, true, content), Comment(x.now, false, x.text)])]
         else s'.reviews == s.reviews
  {
    hide RunCall, IsUnresolved;
    WholeIsAtomic(s, OpDiscuss(taskId, content), x);
    var p := FindUnresolved(s.reviews, taskId, x.pick);
    if p.Some? {
      assert Candidate(s.reviews, taskId, p.value.id);
      var a, b := Comment(x.now, true, content), Comment(x.now, false, x.text);
      assert p.value.actions + [a] + [b] == p.value.actions + [a, b];
    }
  }

  // ── Events ────────────────────────────────────────────────────────────────

  /** The front event is gone and nothing but the named parts is affected. */
  predicate Handled(s: State, s': State) {
    && s.events != [] && s'.events == s.events[1..] && s'.board == s.board && s'.store == s.store && s'.limits == s.limits
    && s'.calls == s.calls && s'.loop == s.loop
  }

  /** A new task is the prioritizer's to look at. */
  lemma CreatedEvent(s: State, x: Input)
    requires s.loop.Listening? && s.events != [] && s.events[0].TaskCreated? && x.newId !in s.used
    ensures var s' := HandleEvent(s, x);
      && Handled(s, s') && Tells(s, s', Prioritized)
      && s'.queue == s.queue && s'.reviews == s.reviews && s'.waiting == s.waiting && s'.used == s.used
  {
    hide HandleEvent;
    EventIsAtomic(s, x);
    assert WorkColumn(Prioritizer) == Prioritized;
  }

  /** A task's arrival in a work column, when nobody waits for the column it left, tells the column's role. */
  lemma ArrivalEvent(s: State, r: Role, x: Input)
    requires s.loop.Listening? && s.events != [] && s.events[0].StageChanged? && x.newId !in s.used
    requires s.events[0].to == WorkColumn(r) && s.events[0].from !in s.waiting
    ensures var s' := HandleEvent(s, x);
      && Handled(s, s') && s'.agents == s.agents[r := AgentOf(s, r).(permit := true)]
      && s'.queue == s.queue && s'.reviews == s.reviews && s'.waiting == s.waiting && s'.used == s.used
  {
    hide HandleEvent, AfterEntry;
    EventIsAtomic(s, x);
    FeedersAreUnique(Done, r, r);
    assert s.waiting - {s.events[0].from} == s.waiting;
  }

  /** A change out of a column somebody waits for removes the record and tells the waiting role. */
  lemma ReleaseEvent(s: State, x: Input)
    requires s.loop.Listening? && s.events != [] && s.events[0].StageChanged? && x.newId !in s.used
    requires s.events[0].from in s.waiting && s.events[0].to == Done && !x.conflict
    ensures var s', r := HandleEvent(s, x), s.waiting[s.events[0].from];
      && Handled(s, s') && s'.agents == s.agents[r := AgentOf(s, r).(permit := true)]
      && s'.waiting == s.waiting - {s.events[0].from}
      && s'.queue == s.queue && s'.reviews == s.reviews && s'.used == s.used
  {
    hide HandleEvent, AfterEntry;
    EventIsAtomic(s, x);
  }

  /**
   * A task's arrival in a buffer stores an open approval under a new id and queues one under another, with
   * the task's title and priority, or its id and the last priority if it has no record.
   */
  lemma BufferEvent(s: State, x: Input)
    requires s.loop.Listening? && s.events != [] && s.events[0].StageChanged? && x.newId !in s.used
    requires IsBuffer(s.events[0].to) && s.events[0].from !in s.waiting
    ensures var s', e := HandleEvent(s, x), s.events[0];
      var title := if e.id in s.board.tasks then s.board.tasks[e.id].title else e.id;
      var kind := BufferApproval(e.to, if e.id in s.board.tasks then s.board.tasks[e.id].priority else 0xFFFF_FFFF);
      && Handled(s, s') && s'.agents == s.agents && s'.waiting == s.waiting && s'.used == s.used + {x.newId}
      && s'.reviews == s.reviews[x.newId := PersistedItem(x.newId, e.id, kind, title, x.now, [])]
      && Joins(s.queue, s'.queue, ReviewItem(x.queueId, e.id, kind, title, x.now))
  {
    hide HandleEvent, Enqueue, Joins;
    EventIsAtomic(s, x);
    var e := s.events[0];
    assert s.waiting - {e.from} == s.waiting;
    var title := if e.id in s.board.tasks then s.board.tasks[e.id].title else e.id;
    EnqueueJoins(s.queue, ReviewItem(x.queueId, e.id, BufferApproval(e.to, Rank(s.board.tasks, e.id)), title, x.now));
  }

  /** A task's arrival in Done asks about the merge exactly when the merge conflicts. */
  lemma DoneEvent(s: State, x: Input)
    requires s.loop.Listening? && s.events != [] && s.events[0].StageChanged? && x.newId !in s.used
    requires s.events[0].to == Done && s.events[0].from !in s.waiting
    ensures var s' := HandleEvent(s, x);
      && Handled(s, s') && s'.agents == s.agents && s'.waiting == s.waiting && s'.used == s.used && s'.reviews == s.reviews
      && if x.conflict then Joins(s.queue, s'.queue, ReviewItem(x.queueId, s.events[0].id, AgentQuestion(x.text), x.text, x.now))
         else s'.queue == s.queue
  {
    hide HandleEvent, Enqueue, Joins, AfterEntry;
    EventIsAtomic(s, x);
    assert s.waiting - {s.events[0].from} == s.waiting;
    EnqueueJoins(s.queue, ReviewItem(x.queueId, s.events[0].id, AgentQuestion(x.text), x.text, x.now));
  }

  /** An agent's question is queued once more. */
  lemma BlockedEvent(s: State, x: Input)
    requires s.loop.Listening? && s.events != [] && s.events[0].AgentBlocked? && x.newId !in s.used
    ensures var s', e := HandleEvent(s, x), s.events[0];
      && Handled(s, s') && s'.agents == s.agents && s'.waiting == s.waiting && s'.used == s.used && s'.reviews == s.reviews
      && Joins(s.queue, s'.queue, ReviewItem(x.queueId, e.id, AgentQuestion(e.question), e.question, x.now))
  {
    hide HandleEvent, Enqueue, Joins, AfterStageChange;
    EventIsAtomic(s, x);
    var e := s.events[0];
    EnqueueJoins(s.queue, ReviewItem(x.queueId, e.id, AgentQuestion(e.question), e.question, x.now));
  }

  /** The other events change nothing. */
  lemma IgnoredEvents(s: State, x: Input)
    requires s.loop.Listening? && s.events != [] && x.newId !in s.used
    requires s.events[0].AgentCompleted? || s.events[0].HumanApproved? || s.events[0].HumanRejected?
    ensures HandleEvent(s, x) == s.(events := s.events[1..])
  {
    hide HandleEvent, Enqueue, AfterStageChange;
    EventIsAtomic(s, x);
  }

  // ── Agents ────────────────────────────────────────────────────────────────

  /** Nothing but this agent, the board and the store is affected. */
  predicate OwnWork(s: State, s': State) {
    && s'.queue == s.queue && s'.reviews == s.reviews && s'.used == s.used && Undisturbed(s, s')
  }

  /** A woken agent that has not blocked takes the first free task, and gives it a branch if it has none. */
  lemma WakeOutcome(s: State, r: Role, t: Task, x: Input, retryPasses: bool)
    requires Inv(Unchecked, s) && AgentOf(s, r).phase.Idle? && AgentOf(s, r).permit && !AgentOf(s, r).blocked
    requires NextUnblocked(s.board, WorkColumn(r)) == Some(t)
    ensures var s' := FinishAgent(s, r, x, retryPasses, 4); var t' := t.(branch := Some(x.branch));
      && t.id in s.board.tasks && s.board.tasks[t.id] == t
      && s'.agents == s.agents[r := AgentOf(s, r).(permit := false, phase := Running(t))]
      && (t.branch.Some? ==> s'.board == s.board && s'.store == s.store)
      && (t.branch.None? ==> s'.board == s.board.(tasks := s.board.tasks[t.id := t']) && s'.store == s.store[t.id := t'])
      && s'.events == s.events && OwnWork(s, s')
  {
    hide FinishAgent, NextUnblocked, WellFormed, AfterWake;
    WakeIsAtomic(s, r, x, retryPasses);
    PickIsBestReady(s.board, WorkColumn(r));
    WokenAgent(s, r, t, x.branch);
  }

  lemma WokenAgent(s: State, r: Role, t: Task, branch: string)
    requires !AgentOf(s, r).blocked && NextUnblocked(s.board, WorkColumn(r)) == Some(t)
    requires t.id in s.board.tasks && s.board.tasks[t.id] == t
    ensures var t' := t.(branch := Some(branch));
      var agents := s.agents[r := AgentOf(s, r).(permit := false, phase := Running(t))];
      AfterWake(s, r, branch)
      == if t.branch.Some? then s.(agents := agents)
         else s.(board := s.board.(tasks := s.board.tasks[t.id := t']), store := s.store[t.id := t'], agents := agents)
  {
    hide NextUnblocked, Standing, WriteBoard;
    var a := AgentOf(s, r).(permit := false, phase := Idle);
    var t' := t.(branch := Some(branch));
    StandsAs(s, r, a, Running(t));
    BranchIsWritten(s.board, t, branch);
    StandsAs(s.(board := s.board.(tasks := s.board.tasks[t.id := t']), store := s.store[t.id := t']), r, a, Running(t));
  }

  lemma BranchIsWritten(b: Board, t: Task, branch: string)
    requires t.id in b.tasks && b.tasks[t.id] == t
    ensures WriteBoard(b, SetBranch(t.id, branch)).0 == b.(tasks := b.tasks[t.id := t.(branch := Some(branch))])
  {
  }

  /** A woken agent that has blocked, or finds no free task, rests again. */
  lemma IdleOutcome(s: State, r: Role, x: Input, retryPasses: bool)
    requires AgentOf(s, r).phase.Idle? && AgentOf(s, r).permit
    requires AgentOf(s, r).blocked || NextUnblocked(s.board, WorkColumn(r)).None?
    ensures FinishAgent(s, r, x, retryPasses, 4) == s.(agents := s.agents[r := AgentOf(s, r).(permit := false)])
  {
    hide FinishAgent, NextUnblocked;
    WakeIsAtomic(s, r, x, retryPasses);
  }

  /** A failed run leaves everything but the agent as it was. */
  lemma FailureOutcome(s: State, r: Role, t: Task, x: Input, retryPasses: bool)
    requires r in s.agents && s.agents[r].phase == Running(t) && x.newId !in s.used && (x.result.RunError? || x.result.RunFailure?)
    ensures FinishAgent(s, r, x, retryPasses, 8) == s.(agents := s.agents[r := s.agents[r].(phase := Idle)])
  {
    hide FinishAgent;
    StandsThere(s, r);
    ResultIsAtomic(s, r, t, x, retryPasses);
  }

  lemma StandsThere(s: State, r: Role)
    requires r in s.agents
    ensures Standing(s, r, s.agents[r].phase) == s
  {
    assert s.agents[r := s.agents[r].(phase := s.agents[r].phase)] == s.agents;
  }

  /** A question is stored open under a new id, announced, and queued under another id; the agent rests blocked. */
  ghost predicate Asks(s: State, s': State, r: Role, t: Task, question: string, x: Input) {
    && s'.reviews == s.reviews[x.newId := PersistedItem(x.newId, t.id, AgentQuestion(question), question, x.now, [])]
    && Joins(s.queue, s'.queue, ReviewItem(x.queueId, t.id, AgentQuestion(question), question, x.now))
    && s'.events == s.events + [AgentBlocked(t.id, r, question)] && s'.used == s.used + {x.newId}
    && s'.agents == s.agents[r := AgentOf(s, r).(blocked := true, phase := Idle)]
    && Undisturbed(s, s')
  }

  lemma AskingAsks(s: State, r: Role, t: Task, question: string, x: Input)
    ensures var s' := AfterAsking(s, r, t, question, x);
      Asks(s, s', r, t, question, x) && s'.board == s.board && s'.store == s.store
  {
    hide Enqueue, Joins;
    EnqueueJoins(s.queue, ReviewItem(x.queueId, t.id, AgentQuestion(question), question, x.now));
  }

  /** An agent that cannot go on asks. */
  lemma BlockedOutcome(s: State, r: Role, t: Task, question: string, x: Input, retryPasses: bool)
    requires r in s.agents && s.agents[r].phase == Running(t) && x.newId !in s.used && x.result == RunBlocked(question)
    ensures var s' := FinishAgent(s, r, x, retryPasses, 8);
      Asks(s, s', r, t, question, x) && s'.board == s.board && s'.store == s.store
  {
    hide FinishAgent, AfterAsking, Asks;
    StandsThere(s, r);
    ResultIsAtomic(s, r, t, x, retryPasses);
    AskingAsks(s, r, t, question, x);
  }

  /** The report: the output is on the task's record, and the record as shown is stored. */
  ghost predicate Reports(s: State, s': State, t: Task, output: string, stage: Stage) {
    && t.id in s.board.tasks
    && var t' := s.board.tasks[t.id].(output := Some(output));
       && s'.board.tasks == s.board.tasks[t.id := t'.(stage := stage)] && s'.store == s.store[t.id := t']
  }

  lemma ReportReports(s: State, t: Task, output: string)
    requires WellFormed(s.board) && t.id in s.board.tasks
    ensures var s' := AfterReport(s, t, output);
      && Reports(s, s', t, output, s.board.tasks[t.id].stage) && s' == s.(board := s'.board, store := s'.store)
      && s'.board.columns == s.board.columns && WellFormed(s'.board)
  {
    hide WellFormed;
    OwnId(s.board, t.id);
    WriteBoardEffect(s.board, SetOutput(t.id, output));
  }

  /** A success that fails its verification twice is reported, and a human is asked. */
  lemma UnverifiedOutcome(s: State, r: Role, t: Task, output: string, x: Input)
    requires Inv(Unchecked, s) && t.id in s.board.tasks && r in s.agents && s.agents[r].phase == Running(t)
    requires x.newId !in s.used && x.result == RunSuccess(output) && !x.pass
    ensures var s' := FinishAgent(s, r, x, false, 8);
      Reports(s, s', t, output, s.board.tasks[t.id].stage) && Asks(s, s', r, t, x.text, x)
  {
    hide FinishAgent, AfterAsking, AfterReport, Joins, WellFormed;
    StandsThere(s, r);
    ResultIsAtomic(s, r, t, x, false);
    ReportReports(s, t, output);
    AskingAsks(AfterReport(s, t, output), r, t, x.text, x);
  }

  /** The limit of a column, which without a setting is the largest 32-bit number, and the count that is compared with it. */
  predicate BelowLimit(s: State, c: Column) {
    Count(s.board, c) % 0x1_0000_0000 < if c in s.limits then s.limits[c] else 0xFFFF_FFFF
  }

  /** A verified success below the limit is reported, moved on and announced twice. */
  lemma SuccessOutcome(s: State, r: Role, t: Task, output: string, x: Input, retryPasses: bool)
    requires Inv(Unchecked, s) && t.id in s.board.tasks && r in s.agents && s.agents[r].phase == Running(t)
    requires x.newId !in s.used && x.result == RunSuccess(output) && (x.pass || retryPasses) && BelowLimit(s, Target(r))
    ensures var s' := FinishAgent(s, r, x, retryPasses, 8);
      && Reports(s, s', t, output, At(Target(r))) && ListedOnly(s'.board, t.id, Target(r))
      && s'.events == s.events + [StageChanged(t.id, WorkColumn(r), Target(r)), AgentCompleted(t.id, r)]
      && s'.agents == s.agents[r := s.agents[r].(phase := Idle)] && OwnWork(s, s')
  {
    hide FinishAgent, AfterReport, WellFormed, Advance, AfterGate, ListedOnly, Reports, Count;
    StandsThere(s, r);
    ResultIsAtomic(s, r, t, x, retryPasses);
    ReportReports(s, t, output);
    var s1 := AfterReport(s, t, output);
    SameLimit(s, s1, Target(r));
    ReportMoves(s, s1, t, output, Target(r));
    GateMoves(s1, r, t);
  }

  lemma SameLimit(s: State, s1: State, c: Column)
    requires s1.limits == s.limits && s1.board.columns == s.board.columns
    ensures BelowLimit(s1, c) <==> BelowLimit(s, c)
  {
  }

  /** Moving a reported task changes the stage shown, and where it is listed. */
  lemma ReportMoves(s: State, s1: State, t: Task, output: string, c: Column)
    requires t.id in s.board.tasks && Reports(s, s1, t, output, s.board.tasks[t.id].stage) && WellFormed(s1.board)
    ensures var (b, ok) := Advance(s1.board, t.id, c);
      ok && ListedOnly(b, t.id, c) && forall s2: State :: s2.board == b && s2.store == s1.store ==> Reports(s, s2, t, output, At(c))
  {
    hide WellFormed, Advance, ListedOnly;
    AdvanceEffect(s1.board, t.id, c);
    FiledListsOnly(Advance(s1.board, t.id, c).0, t.id);
  }

  lemma GateMoves(s: State, r: Role, t: Task)
    requires BelowLimit(s, Target(r)) && r in s.agents && Advance(s.board, t.id, Target(r)).1
    ensures AfterGate(s, r, t) ==
      s.(board := Advance(s.board, t.id, Target(r)).0,
         events := s.events + [StageChanged(t.id, WorkColumn(r), Target(r)), AgentCompleted(t.id, r)],
         agents := s.agents[r := s.agents[r].(phase := Idle)])
  {
    hide Advance, Count;
  }

  /** A verified success at the limit is reported, and the role recorded as waiting for the column. */
  lemma WaitingOutcome(s: State, r: Role, t: Task, output: string, x: Input, retryPasses: bool)
    requires Inv(Unchecked, s) && t.id in s.board.tasks && r in s.agents && s.agents[r].phase == Running(t)
    requires x.newId !in s.used && x.result == RunSuccess(output) && (x.pass || retryPasses) && !BelowLimit(s, Target(r))
    ensures var s' := FinishAgent(s, r, x, retryPasses, 8);
      && Reports(s, s', t, output, s.board.tasks[t.id].stage) && s'.board.columns == s.board.columns
      && s'.waiting == s.waiting[Target(r) := r] && s'.agents == s.agents[r := s.agents[r].(phase := Idle)]
      && s'.events == s.events && s'.queue == s.queue && s'.reviews == s.reviews && s'.used == s.used
      && s'.limits == s.limits && s'.calls == s.calls && s'.loop == s.loop
  {
    hide FinishAgent, AfterReport, WellFormed, Advance, AfterGate;
    StandsThere(s, r);
    ResultIsAtomic(s, r, t, x, retryPasses);
    ReportReports(s, t, output);
    SameLimit(s, AfterReport(s, t, output), Target(r));
    GateWaits(AfterReport(s, t, output), r, t);
  }

  lemma GateWaits(s: State, r: Role, t: Task)
    requires !BelowLimit(s, Target(r)) && r in s.agents
    ensures AfterGate(s, r, t) == s.(waiting := s.waiting[Target(r) := r], agents := s.agents[r := s.agents[r].(phase := Idle)])
  {
    hide Advance, Count;
  }

  // ── Boot ──────────────────────────────────────────────────────────────────

  /** The queue item has the id, the task, the kind, the description and the stamp of the stored one. */
  predicate Requeues(item: ReviewItem, p: PersistedItem) {
    item == ReviewItem(p.id, p.taskId, p.kind, p.description, p.createdAt)
  }

  /** A boot shows the stored tasks, queues the open items, wakes the roles with work, and starts afresh. */
  lemma BootOutcome(s: State, order: seq<Id>, reviewOrder: seq<Id>, limits: map<Column, Priority>)
    requires StoreFiled(s) && CanBoot(s, order, reviewOrder)
    ensures var s' := Boot(s, order, reviewOrder, limits);
      && s'.board.tasks == s.store && WellFormed(s'.board) && AwakeWithWork(s'.agents, s.store)
      && |s'.queue| == |reviewOrder|
      && (forall item :: item in s'.queue <==> exists p :: p in reviewOrder && Requeues(item, s.reviews[p]))
      && s'.store == s.store && s'.reviews == s.reviews && s'.used == s.used && s'.limits == limits
      && s'.waiting == map[] && s'.calls == map[] && s'.events == [] && s'.loop.Listening?
  {
    hide WellFormed, FromTasks, Lookup, Rebuild, QueueItems, AwakeWithWork, BootAgents;
    BootBoard(s, order, reviewOrder, limits);
    BootWakes(s, order, reviewOrder, limits);
    var items := QueueItems(s.reviews, reviewOrder);
    QueueItemsAre(s.reviews, reviewOrder);
    RebuildMembers(items);
    forall item ensures item in Rebuild(items) <==> exists p :: p in reviewOrder && Requeues(item, s.reviews[p])
    {
      if item in items {
        var i :| 0 <= i < |items| && items[i] == item;
        assert reviewOrder[i] in reviewOrder;
      }
      if p :| p in reviewOrder && Requeues(item, s.reviews[p]) {
        var i :| 0 <= i < |reviewOrder| && reviewOrder[i] == p;
        assert items[i] == item;
      }
    }
  }

  lemma {:induction false} QueueItemsAre(m: map<Id, PersistedItem>, order: seq<Id>)
    requires forall id :: id in order ==> id in m
    ensures var items := QueueItems(m, order);
      |items| == |order| && forall i :: 0 <= i < |order| ==> Requeues(items[i], m[order[i]])
  {
    if order != [] { QueueItemsAre(m, order[..|order| - 1]); }
  }

  lemma {:induction false} RebuildMembers(items: seq<ReviewItem>)
    ensures |Rebuild(items)| == |items| && forall x :: x in Rebuild(items) <==> x in items
  {
    if items != [] {
      var init, last := items[..|items| - 1], items[|items| - 1];
      RebuildMembers(init);
      EnqueuedMembers(Rebuild(init), last);
      assert items == init + [last];
    }
  }

  lemma EnqueuedMembers(q: Queue, item: ReviewItem)
    ensures |Enqueue(q, item)| == |q| + 1 && forall x :: x in Enqueue(q, item) <==> x in q || x == item
  {
    EnqueueMembers(q, item);
  }
}
