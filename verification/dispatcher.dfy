/**
 * The dispatcher object: the board, the queue, the store, the agents' handles and its own fields,
 * changed in place call by call.  Each method has exactly the effect of the one-step specification
 * of module Atomic, which in turn is what the sections of the state machine do back to back.
 */
module Dispatchers {
  import opened Options
  import opened Columns
  import opened Kanban
  import opened ReviewQueues
  import opened Reviews
  import opened Protocol
  import opened Atomic
  import opened AgentRuns
  import opened Listings
  import Blocking
  import Starts
  import Verdicts
  import opened KanbanBoards
  import opened HumanReviewQueues
  import opened Stores

  /** The agents' handles: wake permit, blocked flag and answer slot, and where the loop stands. */
  class AgentPool {
    var agents: map<Role, Agent>

    constructor ()
      ensures agents == map r: Role | r in ALL_ROLES :: RESTING
    {
      agents := map r: Role | r in ALL_ROLES :: RESTING;
    }

    method Signal(r: Role)
      modifies this
      ensures agents == WriteSignal(old(agents), Some(r))
    {
      agents := agents[r := (if r in agents then agents[r] else RESTING).(permit := true)];
    }

    /** Stores the answer, lowers the flag, wakes the role. */
    method Unblock(r: Role, answer: string)
      modifies this
      ensures agents == WriteSignal(Deliver(old(agents), Unblocking(r, answer)), Some(r))
    {
      var agent := if r in agents then agents[r] else RESTING;
      agents := agents[r := agent.(answer := Some(answer), blocked := false)];
      Signal(r);
    }

    method TakePermit(r: Role)
      modifies this
      ensures agents == old(agents)[r := AgentIn(old(agents), r).(permit := false)]
    {
      agents := agents[r := (if r in agents then agents[r] else RESTING).(permit := false)];
    }

    method SetBlocked(r: Role)
      modifies this
      ensures agents == old(agents)[r := AgentIn(old(agents), r).(blocked := true)]
    {
      agents := agents[r := (if r in agents then agents[r] else RESTING).(blocked := true)];
    }

    method Stand(r: Role, phase: Phase)
      modifies this
      ensures agents == old(agents)[r := AgentIn(old(agents), r).(phase := phase)]
    {
      agents := agents[r := (if r in agents then agents[r] else RESTING).(phase := phase)];
    }
  }

  /** The part of a decision after its board write. */
  ghost function Concluded(s: State, id: Id, d: Decision, x: Input): State {
    var p := FindUnresolved(s.reviews, id, x.pick);
    s.(store := WriteStore(s.store, s.board, SaveBoardCopy(id)),
       reviews := if p.Some? then WriteReviews(s.reviews, Some(Append(p.value, ActionOf(d, x.now)))) else s.reviews,
       queue := ReviewQueues.DequeueByTask(s.queue, id).0,
       events := s.events + [EventOf(id, d)],
       agents := WriteSignal(s.agents, RoleOf(d.target)))
  }

  lemma DecidedAndConcluded(s: State, id: Id, d: Decision, x: Input)
    ensures AfterDecision(s, id, d, x) ==
      var (b, ok) := DecideOn(s.board, id, d, x.now);
      if ok then Concluded(s.(board := b), id, d, x) else s.(board := b)
  {
    hide DecideOn, FindUnresolved, WriteStore, WriteReviews, WriteSignal;
  }

  class Dispatcher {
    const board: KanbanBoard
    const queue: HumanReviewQueue
    const store: InMemoryStore
    const pool: AgentPool
    var limits: map<Column, Priority>
    var waiting: map<Column, Role>
    var events: seq<Event>
    var loop: Loop
    ghost var calls: map<nat, Call>
    ghost var used: set<Id>

    ghost function View(): State
      reads this, board, queue, store, pool
    {
      State(board.View(), store.tasks, queue.items, store.reviews, limits, waiting, pool.agents, calls, events, loop, used)
    }

    /**
     * Boot: the board from all stored tasks, the queue from all unresolved items, every agent whose
     * column holds work woken.
     */
    constructor Start(store: InMemoryStore, order: seq<Id>, listing: seq<Id>, limits: map<Column, Priority>, ghost pre: State)
      requires pre.store == store.tasks && pre.reviews == store.reviews
      requires CanBoot(pre, order, UnresolvedIds(pre.reviews, listing))
      ensures View() == Boot(pre, order, UnresolvedIds(pre.reviews, listing), limits)
      ensures Starts.AwakeWithWork(pool.agents, store.tasks)
    {
      hide Kanban.FromTasks, Lookup, Rebuild, QueueItems, UnresolvedIds, Starts.AwakeWithWork;
      var records := store.LoadAllTasks(order);
      var b := new KanbanBoard.FromTasks(records);
      var items := store.LoadAllUnresolved(listing);
      var q := LoadQueue(store, items, UnresolvedIds(store.reviews, listing));
      var p := WakeBusy(b);
      board, queue, pool := b, q, p;
      this.store, this.limits := store, limits;
      waiting, events, loop, calls, used := map[], [], Listening, map[], pre.used;
      new;
      Starts.BootWakes(pre, order, UnresolvedIds(pre.reviews, listing), limits);
    }

    static method LoadQueue(store: InMemoryStore, items: seq<PersistedItem>, ghost ids: seq<Id>)
      returns (q: HumanReviewQueue)
      requires (forall id :: id in ids ==> id in store.reviews) && |items| == |ids|
      requires forall i :: 0 <= i < |ids| ==> items[i] == store.reviews[ids[i]]
      ensures fresh(q) && q.items == Rebuild(QueueItems(store.reviews, ids))
    {
      q := new HumanReviewQueue();
      for i := 0 to |items|
        invariant fresh(q) && q.items == Rebuild(QueueItems(store.reviews, ids[..i]))
      {
        assert ids[..i + 1][..i] == ids[..i];
        QueueItemsNext(store.reviews, ids[..i + 1]);
        q.Enqueue(ToQueueItem(items[i]));
      }
      assert ids[..|items|] == ids;
    }

    static method WakeBusy(b: KanbanBoard) returns (p: AgentPool)
      ensures fresh(p) && p.agents == BootAgents(b.View())
    {
      p := new AgentPool();
      var roles := [Prioritizer, Designer, Coder, Reviewer, Auditor, Infrarian];
      for i := 0 to |roles|
        invariant fresh(p) && p.agents.Keys == ALL_ROLES
        invariant forall r :: r in p.agents ==>
          p.agents[r] == RESTING.(permit := r in roles[..i] && Ids(b.View(), WorkColumn(r)) != [])
      {
        var c := WorkColumn(roles[i]);
        if c in b.columns && b.columns[c] != [] {
          p.Signal(roles[i]);
        }
      }
      EveryRoleListed(roles);
      assert roles[..|roles|] == roles;
    }

    static lemma EveryRoleListed(roles: seq<Role>)
      requires roles == [Prioritizer, Designer, Coder, Reviewer, Auditor, Infrarian]
      ensures forall r: Role :: r in roles
    {
      assert roles[0] == Prioritizer && roles[1] == Designer && roles[2] == Coder;
      assert roles[3] == Reviewer && roles[4] == Auditor && roles[5] == Infrarian;
      forall r: Role ensures r in roles { EveryRole(r); }
    }

    static lemma QueueItemsNext(m: map<Id, PersistedItem>, ids: seq<Id>)
      requires ids != [] && forall id :: id in ids ==> id in m
      ensures QueueItems(m, ids) == QueueItems(m, ids[..|ids| - 1]) + [ToQueueItem(m[ids[|ids| - 1]])]
      ensures Rebuild(QueueItems(m, ids))
        == ReviewQueues.Enqueue(Rebuild(QueueItems(m, ids[..|ids| - 1])), ToQueueItem(m[ids[|ids| - 1]]))
    {
    }

    // ── Decisions ───────────────────────────────────────────────────────────

    /** What follows the board write of a decision: save, resolve, dequeue, announce, wake. */
    method Conclude(id: Id, d: Decision, x: Input, order: seq<Id>) returns (ghost pick: Id)
      requires forall p :: p in store.reviews ==> p in order
      modifies this`events, queue, store, pool
      ensures View() == Concluded(old(View()), id, d, x.(pick := pick))
    {
      hide FindUnresolved, Candidate, IsUnresolved, Append, WriteReviews, ReviewQueues.DequeueByTask, ActionOf;
      if id in board.tasks {
        store.WriteTask(board.tasks[id]);
      }
      var item;
      item, pick := store.FindUnresolvedForTask(id, order);
      if item.Some? {
        store.WriteReviewItem(Append(item.value, ActionOf(d, x.now)));
      }
      var _ := queue.DequeueByTaskId(id);
      events := events + [EventOf(id, d)];
      if RoleOf(d.target).Some? {
        pool.Signal(RoleOf(d.target).value);
      }
    }

    method Approve(id: Id, x: Input, order: seq<Id>) returns (ok: bool, ghost pick: Id)
      requires forall p :: p in store.reviews ==> p in order
      modifies this`events, board, queue, store, pool
      ensures View() == Atomically(old(View()), OpApprove(id), x.(pick := pick))
      ensures ok <==> BufferOf(old(board.View()), id).Some? && id in old(board.tasks)
      ensures Verdicts.OwnIds(old(store.reviews)) ==>
        if ok then Verdicts.Resolves(old(store.reviews), store.reviews, id, ReviewAction.Approve(x.now))
        else store.reviews == old(store.reviews)
    {
      hide AfterDecision, FindIn, WellFormed, Verdicts.Resolves, Verdicts.OwnIds;
      var current := board.FindColumn(ALL_COLUMNS, id);
      if current.None? || !IsBuffer(current.value) {
        return false, "";
      }
      ok, pick := SendOn(id, Next(current.value).value, x, order);
    }

    method SendOn(id: Id, target: Column, x: Input, order: seq<Id>) returns (ok: bool, ghost pick: Id)
      requires forall p :: p in store.reviews ==> p in order
      modifies this`events, board, queue, store, pool
      ensures View() == AfterDecision(old(View()), id, Approved(target), x.(pick := pick))
      ensures ok <==> Kanban.FindColumn(old(board.View()), id).Some? && id in old(board.tasks)
      ensures Verdicts.OwnIds(old(store.reviews)) ==>
        if ok then Verdicts.Resolves(old(store.reviews), store.reviews, id, ReviewAction.Approve(x.now))
        else store.reviews == old(store.reviews)
    {
      hide DecideOn, AfterDecision, Concluded, Kanban.FindColumn, Verdicts.Resolves, Verdicts.OwnIds;
      pick := "";
      ghost var before := View();
      SendingOnGoesThrough(before.board, id, Approved(target), x.now);
      ok := WriteApproval(id, target, x.now);
      if ok {
        pick := Conclude(id, Approved(target), x, order);
      }
      DecidedAndConcluded(before, id, Approved(target), x.(pick := pick));
      if Verdicts.OwnIds(before.reviews) {
        if ok { Verdicts.DecisionResolvesOne(before, id, Approved(target), x.(pick := pick)); }
        else { Verdicts.NothingResolved(before, id, Approved(target), x.(pick := pick)); }
      }
    }

    /** The board's part of an approval, under one write lock. */
    method WriteApproval(id: Id, target: Column, now: int) returns (ok: bool)
      modifies board
      ensures (board.View(), ok) == DecideOn(old(board.View()), id, Approved(target), now)
    {
      hide Kanban.Advance, WellFormed, Protocol.AddHistory, InsertId, Retain;
      ok := board.Advance(id, target);
      if ok {
        AddHistory(id, Approval(now, At(target)));
      }
    }

    /** An approval goes through exactly for a listed task with a record. */
    static lemma SendingOnGoesThrough(b: Board, id: Id, d: Decision, now: int)
      requires d.Approved?
      ensures DecideOn(b, id, d, now).1 <==> Kanban.FindColumn(b, id).Some? && id in b.tasks
    {
      hide Kanban.Advance, Kanban.FindColumn, Relisted;
      AdvanceLists(b, id, d.target);
    }

    /** A rejection or a block goes through exactly then, too. */
    static lemma SendingBackGoesThrough(b: Board, id: Id, d: Decision, now: int, blockedBy: seq<Id>)
      requires d.Rejected?
      ensures DecideOn(b, id, d, now).1 <==> Kanban.FindColumn(b, id).Some? && id in b.tasks
      ensures BlockOn(b, id, blockedBy).1 <==> Kanban.FindColumn(b, id).Some? && id in b.tasks
    {
      hide Rework, Kanban.FindColumn, Relisted;
      ReworkLists(b, id, d.target);
      ReworkLists(b, id, Prioritized);
    }

    /** The board's part of a rejection, under one write lock. */
    method WriteRejection(id: Id, target: Column, feedback: string, now: int) returns (ok: bool)
      modifies board
      ensures (board.View(), ok) == DecideOn(old(board.View()), id, Rejected(target, feedback), now)
    {
      hide Kanban.Advance, Kanban.SetPriority, WellFormed, Protocol.AddHistory, InsertId, Retain;
      ok := board.Advance(id, target);
      if ok {
        board.SetPriority(id, 0);
        ok := id in board.tasks;
        if ok {
          board.Amend(board.tasks[id].(feedback := Some(feedback)));
          AddHistory(id, Rejection(now, feedback, At(target)));
        }
      }
    }

    method AddHistory(id: Id, entry: HistoryEntry)
      modifies board
      ensures board.View() == Protocol.AddHistory(old(board.View()), id, entry)
    {
      if id in board.tasks {
        board.Amend(board.tasks[id].(history := board.tasks[id].history + [entry]));
      }
    }

    /** Sends a task in a buffer to any work column. */
    method RejectTo(id: Id, target: Column, feedback: string, x: Input, order: seq<Id>)
      returns (ok: bool, ghost pick: Id)
      requires forall p :: p in store.reviews ==> p in order
      modifies this`events, board, queue, store, pool
      ensures View() == Atomically(old(View()), OpRejectTo(id, target, feedback), x.(pick := pick))
      ensures ok <==> BufferOf(old(board.View()), id).Some? && RoleOf(target).Some? && id in old(board.tasks)
      ensures Verdicts.OwnIds(old(store.reviews)) ==>
        if ok then Verdicts.Resolves(old(store.reviews), store.reviews, id, ReviewAction.Reject(x.now, feedback))
        else store.reviews == old(store.reviews)
    {
      hide Atomically, AfterDecision, RoleOf, FindIn, WellFormed, Verdicts.Resolves, Verdicts.OwnIds;
      ghost var before := View();
      var current := board.FindColumn(ALL_COLUMNS, id);
      if current.None? || !IsBuffer(current.value) || RoleOf(target).None? {
        RejectionIs(before, id, target, feedback, x.(pick := ""));
        return false, "";
      }
      ok, pick := SendBack(id, target, feedback, x, order);
      RejectionIs(before, id, target, feedback, x.(pick := pick));
    }

    static lemma RejectionIs(s: State, id: Id, target: Column, feedback: string, x: Input)
      ensures Atomically(s, OpRejectTo(id, target, feedback), x)
        == if BufferOf(s.board, id).Some? && RoleOf(target).Some? then AfterDecision(s, id, Rejected(target, feedback), x) else s
    {
      hide AfterDecision, BufferOf;
    }

    method SendBack(id: Id, target: Column, feedback: string, x: Input, order: seq<Id>)
      returns (ok: bool, ghost pick: Id)
      requires forall p :: p in store.reviews ==> p in order
      modifies this`events, board, queue, store, pool
      ensures View() == AfterDecision(old(View()), id, Rejected(target, feedback), x.(pick := pick))
      ensures ok <==> Kanban.FindColumn(old(board.View()), id).Some? && id in old(board.tasks)
      ensures Verdicts.OwnIds(old(store.reviews)) ==>
        if ok then Verdicts.Resolves(old(store.reviews), store.reviews, id, ReviewAction.Reject(x.now, feedback))
        else store.reviews == old(store.reviews)
    {
      hide DecideOn, AfterDecision, Concluded, Kanban.FindColumn, Verdicts.Resolves, Verdicts.OwnIds;
      pick := "";
      ghost var before := View();
      SendingBackGoesThrough(before.board, id, Rejected(target, feedback), x.now, []);
      ok := WriteRejection(id, target, feedback, x.now);
      if ok {
        pick := Conclude(id, Rejected(target, feedback), x, order);
      }
      DecidedAndConcluded(before, id, Rejected(target, feedback), x.(pick := pick));
      if Verdicts.OwnIds(before.reviews) {
        if ok { Verdicts.DecisionResolvesOne(before, id, Rejected(target, feedback), x.(pick := pick)); }
        else { Verdicts.NothingResolved(before, id, Rejected(target, feedback), x.(pick := pick)); }
      }
    }

    /** Sends a task in a buffer one column back. */
    method Reject(id: Id, feedback: string, x: Input, order: seq<Id>) returns (ok: bool, ghost pick: Id)
      requires forall p :: p in store.reviews ==> p in order
      modifies this`events, board, queue, store, pool
      ensures View() == Atomically(old(View()), OpReject(id, feedback), x.(pick := pick))
      ensures ok <==> BufferOf(old(board.View()), id).Some? && id in old(board.tasks)
      ensures Verdicts.OwnIds(old(store.reviews)) ==>
        if ok then Verdicts.Resolves(old(store.reviews), store.reviews, id, ReviewAction.Reject(x.now, feedback))
        else store.reviews == old(store.reviews)
    {
      hide AfterDecision, FindIn, WellFormed, Verdicts.Resolves, Verdicts.OwnIds;
      var current := board.FindColumn(ALL_COLUMNS, id);
      if current.None? || !IsBuffer(current.value) {
        return false, "";
      }
      BufferNeighbours(current.value);
      ok, pick := RejectTo(id, Prev(current.value).value, feedback, x, order);
    }

    // ── The tools ───────────────────────────────────────────────────────────

    /** Sends a task to the top of Prioritized until its blockers are done. */
    method BlockTask(id: Id, blockedBy: seq<Id>, x: Input) returns (ok: bool)
      modifies this`events, board, store, pool
      ensures View() == Atomically(old(View()), OpBlock(id, blockedBy), x)
      ensures ok <==> Kanban.FindColumn(old(board.View()), id).Some? && id in old(board.tasks)
    {
      hide BlockOn, WellFormed, FindIn;
      SendingBackGoesThrough(board.View(), id, Rejected(Prioritized, ""), x.now, blockedBy);
      var from := board.FindColumn(ALL_COLUMNS, id);
      if from.None? {
        return false;
      }
      ok := WriteBlock(id, blockedBy);
      if !ok {
        return;
      }
      if id in board.tasks {
        store.WriteTask(board.tasks[id]);
      }
      events := events + [StageChanged(id, from.value, Prioritized)];
      pool.Signal(Prioritizer);
    }

    method WriteBlock(id: Id, blockedBy: seq<Id>) returns (ok: bool)
      modifies board
      ensures (board.View(), ok) == BlockOn(old(board.View()), id, blockedBy)
    {
      hide Kanban.Advance, Kanban.SetPriority, WellFormed, InsertId, Retain;
      ok := board.Advance(id, Prioritized);
      if ok {
        board.SetPriority(id, 0);
        ok := id in board.tasks;
        if ok {
          board.Amend(board.tasks[id].(blockedBy := blockedBy));
        }
      }
    }

    /** Stores a new task, then shows it on the board and announces it. */
    method CreateTask(title: string, priority: Priority, x: Input) returns (t: Task)
      requires x.newId !in used
      modifies this`events, this`used, board, store
      ensures View() == Atomically(old(View()), OpCreate(title, priority), x)
      ensures t == Task(x.newId, title, Backlog, priority, None, None, None, None, [], [])
    {
      hide Kanban.AddTask, WellFormed;
      t := NewTask(x.newId, title, priority);
      used := used + {t.id};
      store.WriteTask(t);
      board.AddTask(t);
      events := events + [TaskCreated(t.id)];
    }

    method PrioritizeTask(id: Id, priority: Priority, x: Input) returns (ok: bool)
      modifies board, store
      ensures View() == Atomically(old(View()), OpPrioritize(id, priority), x) && ok == (id in old(store.tasks))
    {
      var t := store.LoadTask(id);
      ok := t.Some?;
      if ok {
        store.WriteTask(t.value.(priority := priority));
        board.SetPriority(t.value.id, priority);
      }
    }

    method ParkTask(id: Id, note: string, x: Input) returns (ok: bool)
      modifies board, store
      ensures View() == Atomically(old(View()), OpPark(id, note), x) && ok == (id in old(store.tasks))
    {
      var t := store.LoadTask(id);
      ok := t.Some?;
      if ok {
        store.WriteTask(t.value.(resume := Some(note)));
        if t.value.id in board.tasks {
          board.Amend(board.tasks[t.value.id].(resume := Some(note)));
        }
      }
    }

    /** Replaces the whole board record with the edited store copy. */
    method UpdateTask(id: Id, title: string, x: Input) returns (ok: bool)
      modifies board, store
      ensures View() == Atomically(old(View()), OpUpdate(id, title), x) && ok == (id in old(store.tasks))
    {
      var t := store.LoadTask(id);
      ok := t.Some?;
      if ok {
        store.WriteTask(t.value.(title := title));
        board.Amend(t.value.(title := title));
      }
    }

    /** Takes the item off the queue first and only then looks at its kind. */
    method AnswerQuestion(itemId: Id, answer: string, x: Input) returns (ok: bool)
      modifies queue, store, pool
      ensures View() == Atomically(old(View()), OpAnswer(itemId, answer), x)
      ensures ok <==> Blocking.Answered(old(View()), itemId).Some?
    {
      var item := queue.Dequeue(itemId);
      if item.None? || !item.value.kind.AgentQuestion? {
        return false;
      }
      ok := DeliverAnswer(item.value, answer, x);
    }

    method DeliverAnswer(item: ReviewItem, answer: string, x: Input) returns (ok: bool)
      modifies store, pool
      ensures View() == AfterAnswer(old(View()), item, answer, x.now)
      ensures ok <==> item.taskId in board.tasks && RoleOf(board.tasks[item.taskId].Column()).Some?
    {
      var stored := store.LoadReviewItem(item.id);
      if stored.Some? {
        store.WriteReviewItem(Append(stored.value, Answer(x.now, answer)));
      }
      if item.taskId !in board.tasks {
        return false;
      }
      var role := RoleOf(board.tasks[item.taskId].Column());
      if role.None? {
        return false;
      }
      pool.Unblock(role.value, answer);
      return true;
    }

    /** Files a question under one id, on disk and in the queue. */
    method CreateReviewItem(taskId: Id, question: string, x: Input) returns (p: PersistedItem)
      requires x.newId !in used
      modifies this`used, queue, store
      ensures View() == Atomically(old(View()), OpAsk(taskId, question), x)
    {
      p := PersistedItem(x.newId, taskId, AgentQuestion(question), question, x.now, []);
      used := used + {p.id};
      store.WriteReviewItem(p);
      queue.Enqueue(ToQueueItem(p));
    }

    // ── The event loop ──────────────────────────────────────────────────────

    /** Receives the next event, if there is one, and handles it. */
    method HandleNext(x: Input)
      requires x.newId !in used && loop.Listening?
      modifies this`events, this`waiting, this`used, queue, store, pool
      ensures View() == AtomicEvent(old(View()), x)
    {
      hide AfterArrival, ReviewQueues.Enqueue;
      if events == [] {
        return;
      }
      var event := events[0];
      events := events[1..];
      match event {
        case TaskCreated(_) => pool.Signal(Prioritizer);
        case StageChanged(id, from, to) =>
          if from in waiting {
            pool.Signal(waiting[from]);
          }
          waiting := waiting - {from};
          Arrive(id, to, x);
        case AgentBlocked(id, _, question) =>
          queue.Enqueue(ReviewItem(x.queueId, id, AgentQuestion(question), question, x.now));
        case AgentCompleted(_, _) =>
        case HumanApproved(_, _) =>
        case HumanRejected(_, _) =>
      }
    }

    method Arrive(id: Id, to: Column, x: Input)
      requires x.newId !in used
      modifies this`used, queue, store, pool
      ensures View() == AfterArrival(old(View()), id, to, x)
    {
      if RoleOf(to).Some? {
        pool.Signal(RoleOf(to).value);
      } else if IsBuffer(to) {
        var priority := if id in board.tasks then board.tasks[id].priority else U32_MAX;
        var description := if id in board.tasks then board.tasks[id].title else id;
        used := used + {x.newId};
        store.WriteReviewItem(PersistedItem(x.newId, id, BufferApproval(to, priority), description, x.now, []));
        queue.Enqueue(ReviewItem(x.queueId, id, BufferApproval(to, priority), description, x.now));
      } else if x.conflict {
        queue.Enqueue(ReviewItem(x.queueId, id, AgentQuestion(x.text), x.text, x.now));
      }
    }

    // ── The agents ──────────────────────────────────────────────────────────

    /** A signalled agent wakes, heeds its flag, picks the first ready task and gives it a branch. */
    method Wake(r: Role, branch: string) returns (task: Option<Task>)
      requires r in pool.agents && pool.agents[r].permit && pool.agents[r].phase.Idle?
      modifies board, store, pool
      ensures View() == AfterWake(old(View()), r, branch)
      ensures task == if old(pool.agents)[r].blocked then None
                      else Kanban.NextUnblocked(old(board.View()), WorkColumn(r))
      ensures task.Some? ==> forall blocker :: blocker in task.value.blockedBy ==>
        blocker in old(board.tasks) && old(board.tasks)[blocker].stage == At(Done)
    {
      hide Kanban.NextUnblocked, WellFormed, Ready, WriteBoard;
      pool.TakePermit(r);
      if pool.agents[r].blocked {
        return None;
      }
      task := board.NextUnblocked(WorkColumn(r));
      if task.None? {
        return;
      }
      var t := task.value;
      if t.branch.None? {
        BranchWrites(board.View(), t.id, branch);
        if t.id in board.tasks {
          board.Amend(board.tasks[t.id].(branch := Some(branch)));
        }
        store.WriteTask(t.(branch := Some(branch)));
      }
      pool.Stand(r, Running(t));
    }

    static lemma BranchWrites(b: Board, id: Id, branch: string)
      ensures WriteBoard(b, SetBranch(id, branch)).0
        == if id in b.tasks then Kanban.Amend(b, b.tasks[id].(branch := Some(branch))) else b
    {
    }

    /** The check and the move of the WIP gate. */
    method TryAdvance(r: Role, t: Task)
      modifies this`waiting, this`events, board, pool
      ensures View() == AfterGate(old(View()), r, t)
    {
      hide Kanban.Advance, WellFormed, InsertId, Retain, Target, Kanban.Count;
      var target := Target(r);
      pool.Stand(r, Idle);
      var count := board.CountIn(target);
      var limit := if target in limits then limits[target] else U32_MAX;
      if count % (U32_MAX + 1) >= limit {
        waiting := waiting[target := r];
        return;
      }
      var ok := board.Advance(t.id, target);
      if !ok {
        return;
      }
      events := events + [StageChanged(t.id, WorkColumn(r), target)];
      events := events + [AgentCompleted(t.id, r)];
    }

    /** Files a question in the store and announces it. */
    method FileQuestion(r: Role, t: Task, question: string, x: Input)
      requires x.newId !in used
      modifies this`events, this`used, store
      ensures View() == old(View()).(
        reviews := old(store.reviews)[x.newId := PersistedItem(x.newId, t.id, AgentQuestion(question), question, x.now, [])],
        used := old(used) + {x.newId}, events := old(events) + [AgentBlocked(t.id, r, question)])
    {
      used := used + {x.newId};
      store.WriteReviewItem(PersistedItem(x.newId, t.id, AgentQuestion(question), question, x.now, []));
      events := events + [AgentBlocked(t.id, r, question)];
    }

    /** Asks a human and rests blocked: for a blocked agent and for a task that failed verification twice. */
    method Escalate(r: Role, t: Task, question: string, x: Input)
      requires x.newId !in used
      modifies this`events, this`used, queue, store, pool
      ensures View() == AfterAsking(old(View()), r, t, question, x)
    {
      hide ReviewQueues.Enqueue;
      ghost var before := pool.agents;
      FileQuestion(r, t, question, x);
      pool.SetBlocked(r);
      queue.Enqueue(ReviewItem(x.queueId, t.id, AgentQuestion(question), question, x.now));
      pool.Stand(r, Idle);
      assert pool.agents == before[r := AgentIn(before, r).(blocked := true, phase := Idle)];
    }

    /** Records the output on the board and saves the board's record. */
    method Report(t: Task, output: string)
      modifies board, store
      ensures View() == AfterReport(old(View()), t, output)
    {
      if t.id in board.tasks {
        board.Amend(board.tasks[t.id].(output := Some(output)));
      }
      if t.id in board.tasks {
        store.WriteTask(board.tasks[t.id]);
      }
    }

    /** Handles what a run returned; a negative verdict is followed by one retry. */
    method HandleAgentResult(r: Role, t: Task, x: Input, retryPasses: bool)
      requires x.newId !in used
      modifies this`events, this`used, this`waiting, board, queue, store, pool
      ensures View() == AfterResult(old(View()), r, t, x, retryPasses)
    {
      hide AfterReport, AfterGate, AfterAsking;
      match x.result {
        case RunBlocked(question) => Escalate(r, t, question, x);
        case RunError => pool.Stand(r, Idle);
        case RunFailure => pool.Stand(r, Idle);
        case RunSuccess(output) =>
          Report(t, output);
          if x.pass {
            TryAdvance(r, t);
          } else if retryPasses {
            TryAdvance(r, t);
          } else {
            Escalate(r, t, x.text, x);
          }
      }
    }
  }
}
