/**
 * Calls and event handlings that no other section interrupts.  `Atomically` and `AtomicEvent` say in
 * one step what each does; the sections run back to back do exactly that.
 */
module Atomic {
  import opened Options
  import opened Columns
  import opened Kanban
  import opened ReviewQueues
  import opened Reviews
  import opened Protocol

  /** A decision moves and saves the task, resolves one stored item, takes one queued item and wakes the target. */
  ghost function AfterDecision(s: State, id: Id, d: Decision, x: Input): State {
    var (b, ok) := DecideOn(s.board, id, d, x.now);
    if !ok then s.(board := b)
    else
      var p := FindUnresolved(s.reviews, id, x.pick);
      s.(board := b,
         store := WriteStore(s.store, b, SaveBoardCopy(id)),
         reviews := if p.Some? then WriteReviews(s.reviews, Some(Append(p.value, ActionOf(d, x.now)))) else s.reviews,
         queue := DequeueByTask(s.queue, id).0,
         events := s.events + [EventOf(id, d)],
         agents := WriteSignal(s.agents, RoleOf(d.target)))
  }

  ghost function AfterBlock(s: State, id: Id, blockedBy: seq<Id>, from: Column): State {
    var (b, ok) := BlockOn(s.board, id, blockedBy);
    if !ok then s.(board := b)
    else s.(board := b,
            store := WriteStore(s.store, b, SaveBoardCopy(id)),
            events := s.events + [StageChanged(id, from, Prioritized)],
            agents := WriteSignal(s.agents, Some(Prioritizer)))
  }

  /** The answer lands on the stored item with the queue item's id, if there is one, and on the task's column's role. */
  function AfterAnswer(s: State, item: ReviewItem, answer: string, now: int): State {
    var reviews :=
      if item.id in s.reviews then WriteReviews(s.reviews, Some(Append(s.reviews[item.id], Answer(now, answer))))
      else s.reviews;
    var role := if item.taskId in s.board.tasks then RoleOf(s.board.tasks[item.taskId].Column()) else None;
    s.(reviews := reviews,
       agents := if role.Some? then WriteSignal(Deliver(s.agents, Unblocking(role.value, answer)), role) else s.agents)
  }

  ghost function Atomically(s: State, op: Op, x: Input): State {
    match op
    case OpApprove(id) =>
      var c := BufferOf(s.board, id);
      if c.Some? then AfterDecision(s, id, Approved(Next(c.value).value), x) else s
    case OpReject(id, feedback) =>
      var c := BufferOf(s.board, id);
      if c.Some? then AfterDecision(s, id, Rejected(Prev(c.value).value, feedback), x) else s
    case OpRejectTo(id, target, feedback) =>
      if BufferOf(s.board, id).Some? && RoleOf(target).Some? then AfterDecision(s, id, Rejected(target, feedback), x)
      else s
    case OpBlock(id, blockedBy) =>
      var from := FindColumn(s.board, id);
      if from.Some? then AfterBlock(s, id, blockedBy, from.value) else s
    case OpCreate(title, priority) =>
      var t := NewTask(x.newId, title, priority);
      if x.newId in s.used then s
      else s.(store := s.store[t.id := t], board := AddTask(s.board, t), used := s.used + {t.id},
              events := s.events + [TaskCreated(t.id)])
    case OpPrioritize(id, priority) =>
      if id !in s.store then s
      else
        var t := s.store[id];
        s.(store := s.store[t.id := t.(priority := priority)], board := SetPriority(s.board, t.id, priority))
    case OpPark(id, note) =>
      if id !in s.store then s
      else
        var t := s.store[id];
        s.(store := s.store[t.id := t.(resume := Some(note))], board := WriteBoard(s.board, SetNote(t.id, note)).0)
    case OpUpdate(id, title) =>
      if id !in s.store then s
      else
        var t := s.store[id].(title := title);
        s.(store := s.store[t.id := t], board := Amend(s.board, t))
    case OpAnswer(itemId, answer) =>
      var (q, taken) := Dequeue(s.queue, itemId);
      if taken.Some? && taken.value.kind.AgentQuestion? then AfterAnswer(s.(queue := q), taken.value, answer, x.now)
      else s.(queue := q)
    case OpAsk(taskId, question) =>
      var p := PersistedItem(x.newId, taskId, AgentQuestion(question), question, x.now, []);
      if x.newId in s.used then s
      else s.(reviews := s.reviews[p.id := p], used := s.used + {p.id}, queue := Enqueue(s.queue, ToQueueItem(p)))
    case OpDiscuss(taskId, content) =>
      var p := FindUnresolved(s.reviews, taskId, x.pick);
      if p.None? then s
      else s.(reviews := WriteReviews(s.reviews, Some(Append(Append(p.value, Comment(x.now, true, content)),
                                                             Comment(x.now, false, x.text)))))
  }

  // ── Sections that write one part of the state ─────────────────────────────

  lemma NoChange(s: State)
    ensures Perform(s, NOTHING) == s
  {
  }

  lemma BoardSection(s: State, w: BoardWrite)
    ensures Perform(s, Writing(w)) == s.(board := WriteBoard(s.board, w).0)
  {
  }

  lemma StoreSection(s: State, w: StoreWrite)
    ensures Perform(s, Saving(w)) == s.(store := WriteStore(s.store, s.board, w))
  {
  }

  lemma ReviewSection(s: State, p: PersistedItem)
    ensures Perform(s, SavingReview(p)) == s.(reviews := WriteReviews(s.reviews, Some(p)))
  {
  }

  lemma EventSection(s: State, e: Event)
    ensures Perform(s, Emitting(e)) == s.(events := s.events + [e])
  {
  }

  lemma SignalSection(s: State, r: Option<Role>)
    ensures Perform(s, Signalling(r)) == s.(agents := WriteSignal(s.agents, r))
  {
  }

  lemma QueueSection(s: State, w: QueueWrite)
    ensures Perform(s, NOTHING.(queue := w)) == s.(queue := WriteQueue(s.queue, w))
  {
  }

  lemma FilingSection(s: State, p: PersistedItem)
    ensures Perform(s, Filing(p)) == s.(reviews := s.reviews[p.id := p], used := s.used + {p.id})
  {
  }

  lemma CreatingSection(s: State, t: Task)
    ensures Perform(s, Saving(SaveRecord(t)).(newId := Some(t.id)))
      == s.(store := s.store[t.id := t], used := s.used + {t.id})
  {
  }

  /** One more section of an undisturbed call. */
  lemma OneMore(s: State, call: Call, x: Input, fuel: nat, s1: State, next: Call)
    requires ContinueSection(s, call, x) == (s1, Some(next)) && fuel > 0
    ensures Finish(s, call, x, fuel) == Finish(s1, next, x, fuel - 1)
  {
  }

  lemma DecisionIsAtomic(s: State, id: Id, d: Decision, x: Input, fuel: nat)
    requires fuel >= 7
    ensures Finish(s, Deciding(id, d), x, fuel) == AfterDecision(s, id, d, x)
  {
    hide Finish, Perform, DecideOn, WriteStore;
    BoardSection(s, Decide(id, d, x.now));
    var (s1, next) := ContinueSection(s, Deciding(id, d), x);
    if next.None? {
      LastSection(s, Deciding(id, d), x, fuel);
    } else {
      OneMore(s, Deciding(id, d), x, fuel, s1, SavingDecision(id, d));
      StoreSection(s1, SaveBoardCopy(id));
      var s2 := ContinueSection(s1, SavingDecision(id, d), x).0;
      OneMore(s1, SavingDecision(id, d), x, fuel - 1, s2, Resolving(id, d));
      ResolvingIsAtomic(s2, id, d, x, fuel - 2);
    }
  }

  lemma LastSection(s: State, call: Call, x: Input, fuel: nat)
    requires ContinueSection(s, call, x).1.None?
    ensures Finish(s, call, x, fuel) == ContinueSection(s, call, x).0
  {
  }

  /** A section that delivers no answer, and another after it. */
  lemma GoesOn(s: State, call: Call, x: Input, fuel: nat, ch: Change, s1: State, next: Call)
    requires !call.Unblocking? && fuel > 0
    requires ContinueChange(s, call, x) == (ch, Some(next)) && Perform(s, ch) == s1
    ensures Finish(s, call, x, fuel) == Finish(s1, next, x, fuel - 1)
  {
    hide Finish, Perform, ContinueChange;
    OneMore(s, call, x, fuel, s1, next);
  }

  /** The last section, when it delivers no answer. */
  lemma Ends(s: State, call: Call, x: Input, fuel: nat, ch: Change, s1: State)
    requires !call.Unblocking?
    requires ContinueChange(s, call, x) == (ch, None) && Perform(s, ch) == s1
    ensures Finish(s, call, x, fuel) == s1
  {
    hide Finish, Perform, ContinueChange;
    LastSection(s, call, x, fuel);
  }

  lemma ResolvingIsAtomic(s: State, id: Id, d: Decision, x: Input, fuel: nat)
    requires fuel >= 4
    ensures var p := FindUnresolved(s.reviews, id, x.pick);
      Finish(s, Resolving(id, d), x, fuel)
      == s.(reviews := if p.Some? then WriteReviews(s.reviews, Some(Append(p.value, ActionOf(d, x.now)))) else s.reviews,
            queue := DequeueByTask(s.queue, id).0,
            events := s.events + [EventOf(id, d)],
            agents := WriteSignal(s.agents, RoleOf(d.target)))
  {
    hide Finish, Perform;
    NoChange(s);
    var p := FindUnresolved(s.reviews, id, x.pick);
    if p.None? {
      OneMore(s, Resolving(id, d), x, fuel, s, Dequeuing(id, d));
      DequeuingIsAtomic(s, id, d, x, fuel - 1);
    } else {
      OneMore(s, Resolving(id, d), x, fuel, s, Recording(id, d, p.value));
      ReviewSection(s, Append(p.value, ActionOf(d, x.now)));
      var s1 := ContinueSection(s, Recording(id, d, p.value), x).0;
      OneMore(s, Recording(id, d, p.value), x, fuel - 1, s1, Dequeuing(id, d));
      DequeuingIsAtomic(s1, id, d, x, fuel - 2);
    }
  }

  lemma DequeuingIsAtomic(s: State, id: Id, d: Decision, x: Input, fuel: nat)
    requires fuel >= 2
    ensures Finish(s, Dequeuing(id, d), x, fuel)
      == s.(queue := DequeueByTask(s.queue, id).0,
            events := s.events + [EventOf(id, d)],
            agents := WriteSignal(s.agents, RoleOf(d.target)))
  {
    hide Finish, Perform, DequeueByTask, WriteSignal;
    QueueSection(s, DropForTask(id));
    var s1 := s.(queue := DequeueByTask(s.queue, id).0);
    GoesOn(s, Dequeuing(id, d), x, fuel, NOTHING.(queue := DropForTask(id)), s1, Announcing(id, d));
    EventSection(s1, EventOf(id, d));
    var s2 := s1.(events := s1.events + [EventOf(id, d)]);
    GoesOn(s1, Announcing(id, d), x, fuel - 1, Emitting(EventOf(id, d)), s2, SignallingTarget(d));
    SignalSection(s2, RoleOf(d.target));
    Ends(s2, SignallingTarget(d), x, fuel - 2, Signalling(RoleOf(d.target)), s2.(agents := WriteSignal(s2.agents, RoleOf(d.target))));
  }

  lemma BlockIsAtomic(s: State, id: Id, from: Column, x: Input, fuel: nat)
    requires fuel >= 2
    ensures Finish(s, SavingBlock(id, from), x, fuel)
      == s.(store := WriteStore(s.store, s.board, SaveBoardCopy(id)),
            events := s.events + [StageChanged(id, from, Prioritized)],
            agents := WriteSignal(s.agents, Some(Prioritizer)))
  {
    hide Finish, Perform, WriteStore, WriteSignal;
    var e := StageChanged(id, from, Prioritized);
    StoreSection(s, SaveBoardCopy(id));
    var s1 := s.(store := WriteStore(s.store, s.board, SaveBoardCopy(id)));
    GoesOn(s, SavingBlock(id, from), x, fuel, Saving(SaveBoardCopy(id)), s1, AnnouncingBlock(id, from));
    EventSection(s1, e);
    var s2 := s1.(events := s1.events + [e]);
    GoesOn(s1, AnnouncingBlock(id, from), x, fuel - 1, Emitting(e), s2, SignallingBlock);
    SignalSection(s2, Some(Prioritizer));
    Ends(s2, SignallingBlock, x, fuel - 2, Signalling(Some(Prioritizer)), s2.(agents := WriteSignal(s2.agents, Some(Prioritizer))));
  }

  /** A call of two sections. */
  lemma TwoSections(s: State, call: Call, x: Input, fuel: nat, s1: State, next: Call)
    requires fuel >= 1
    requires ContinueSection(s, call, x) == (s1, Some(next)) && ContinueSection(s1, next, x).1.None?
    ensures Finish(s, call, x, fuel) == ContinueSection(s1, next, x).0
  {
    hide ContinueSection, Finish;
    OneMore(s, call, x, fuel, s1, next);
    LastSection(s1, next, x, fuel - 1);
  }

  lemma AnswerIsAtomic(s: State, item: ReviewItem, answer: string, x: Input, fuel: nat)
    requires fuel >= 4
    ensures Finish(s, Answering(item, answer), x, fuel) == AfterAnswer(s, item, answer, x.now)
  {
    hide Finish, Perform, WriteReviews, Append;
    NoChange(s);
    if item.id !in s.reviews {
      GoesOn(s, Answering(item, answer), x, fuel, NOTHING, s, Locating(item, answer));
      LocatingIsAtomic(s, item, answer, x, fuel - 1);
    } else {
      var stored := s.reviews[item.id];
      GoesOn(s, Answering(item, answer), x, fuel, NOTHING, s, RecordingAnswer(item, answer, stored));
      var p := Append(stored, Answer(x.now, answer));
      var s1 := s.(reviews := WriteReviews(s.reviews, Some(p)));
      ReviewSection(s, p);
      GoesOn(s, RecordingAnswer(item, answer, stored), x, fuel - 1, SavingReview(p), s1, Locating(item, answer));
      LocatingIsAtomic(s1, item, answer, x, fuel - 2);
    }
  }

  lemma LocatingIsAtomic(s: State, item: ReviewItem, answer: string, x: Input, fuel: nat)
    requires fuel >= 2
    ensures
      var role := if item.taskId in s.board.tasks then RoleOf(s.board.tasks[item.taskId].Column()) else None;
      Finish(s, Locating(item, answer), x, fuel)
      == s.(agents := if role.Some? then WriteSignal(Deliver(s.agents, Unblocking(role.value, answer)), role)
                      else s.agents)
  {
    hide Finish, Perform, Deliver, WriteSignal;
    NoChange(s);
    var role := if item.taskId in s.board.tasks then RoleOf(s.board.tasks[item.taskId].Column()) else None;
    if role.None? {
      Ends(s, Locating(item, answer), x, fuel, NOTHING, s);
    } else {
      GoesOn(s, Locating(item, answer), x, fuel, NOTHING, s, Unblocking(role.value, answer));
      UnblockingIsAtomic(s, role.value, answer, x, fuel - 1);
    }
  }

  lemma UnblockingIsAtomic(s: State, r: Role, answer: string, x: Input, fuel: nat)
    requires fuel >= 1
    ensures Finish(s, Unblocking(r, answer), x, fuel)
      == s.(agents := WriteSignal(Deliver(s.agents, Unblocking(r, answer)), Some(r)))
  {
    hide Finish, Perform, Deliver, WriteSignal;
    NoChange(s);
    var s1 := s.(agents := Deliver(s.agents, Unblocking(r, answer)));
    OneMore(s, Unblocking(r, answer), x, fuel, s1, Notifying(r));
    SignalSection(s1, Some(r));
    Ends(s1, Notifying(r), x, fuel - 1, Signalling(Some(r)), s1.(agents := WriteSignal(s1.agents, Some(r))));
  }

  /** A call that writes a record to the store and then one thing to the board. */
  lemma StoreThenBoard(s: State, call: Call, x: Input, t: Task, next: Call, w: BoardWrite)
    requires !call.Unblocking? && !next.Unblocking?
    requires ContinueChange(s, call, x) == (Saving(SaveRecord(t)), Some(next))
    requires ContinueChange(s.(store := s.store[t.id := t]), next, x) == (Writing(w), None)
    ensures Finish(s, call, x, CALL_SECTIONS) == s.(store := s.store[t.id := t], board := WriteBoard(s.board, w).0)
  {
    hide Finish, Perform, ContinueChange, WriteBoard;
    StoreSection(s, SaveRecord(t));
    var s1 := s.(store := s.store[t.id := t]);
    BoardSection(s1, w);
    TwoSections(s, call, x, CALL_SECTIONS, s1, next);
  }

  lemma EditIsAtomic(s: State, op: Op, x: Input)
    requires op.OpPrioritize? || op.OpPark? || op.OpUpdate?
    ensures RunCall(s, op, x) == Atomically(s, op, x)
  {
    hide Finish, Perform, SetPriority;
    NoChange(s);
    if op.id in s.store {
      var t := s.store[op.id];
      if op.OpPrioritize? {
        StoreThenBoard(s, StoringPriority(t, op.priority), x, t.(priority := op.priority),
                       SettingPriority(t.id, op.priority), Reprioritize(t.id, op.priority));
      } else if op.OpPark? {
        StoreThenBoard(s, StoringNote(t, op.note), x, t.(resume := Some(op.note)),
                       SettingNote(t.id, op.note), SetNote(t.id, op.note));
      } else {
        var t1 := t.(title := op.title);
        StoreThenBoard(s, StoringEdit(t1), x, t1, SettingEdit(t1), Replace(t1));
      }
    }
  }

  lemma DecisionCallIsAtomic(s: State, op: Op, x: Input)
    requires op.OpApprove? || op.OpReject? || op.OpRejectTo?
    ensures RunCall(s, op, x) == Atomically(s, op, x)
  {
    hide Finish, AfterDecision, Perform;
    NoChange(s);
    var (s0, next) := BeginSection(s, op, x);
    assert s0 == s;
    if op.OpReject? && next.Some? {
      var target := next.value.target;
      BufferIsBuffer(s.board, op.id);
      OneMore(s, next.value, x, CALL_SECTIONS, s, Deciding(op.id, Rejected(target, op.feedback)));
      DecisionIsAtomic(s, op.id, Rejected(target, op.feedback), x, CALL_SECTIONS - 1);
    } else if next.Some? {
      DecisionIsAtomic(s, op.id, next.value.decision, x, CALL_SECTIONS);
    }
  }

  lemma BlockCallIsAtomic(s: State, op: Op, x: Input)
    requires op.OpBlock?
    ensures RunCall(s, op, x) == Atomically(s, op, x)
  {
    hide Finish, Perform, BlockOn, WriteStore;
    NoChange(s);
    BoardSection(s, Block(op.id, op.blockedBy));
    var (s0, next) := BeginSection(s, op, x);
    if next.Some? { BlockIsAtomic(s0, op.id, next.value.from, x, CALL_SECTIONS); }
  }

  lemma AddingIsAtomic(s: State, t: Task, x: Input)
    ensures Finish(s, Adding(t), x, CALL_SECTIONS)
      == s.(board := AddTask(s.board, t), events := s.events + [TaskCreated(t.id)])
  {
    hide Finish, Perform, AddTask;
    BoardSection(s, Insert(t));
    var s1 := s.(board := AddTask(s.board, t));
    EventSection(s1, TaskCreated(t.id));
    TwoSections(s, Adding(t), x, CALL_SECTIONS, s1, AnnouncingTask(t.id));
  }

  lemma CreateIsAtomic(s: State, op: Op, x: Input)
    requires op.OpCreate?
    ensures RunCall(s, op, x) == Atomically(s, op, x)
  {
    hide Finish, Perform, AddTask;
    NoChange(s);
    if x.newId !in s.used {
      var t := NewTask(x.newId, op.title, op.priority);
      CreatingSection(s, t);
      AddingIsAtomic(s.(store := s.store[t.id := t], used := s.used + {t.id}), t, x);
    }
  }

  lemma AnswerCallIsAtomic(s: State, op: Op, x: Input)
    requires op.OpAnswer?
    ensures RunCall(s, op, x) == Atomically(s, op, x)
  {
    hide Finish, Perform, AfterAnswer;
    QueueSection(s, DropItem(op.itemId));
    var (s0, next) := BeginSection(s, op, x);
    if next.Some? { AnswerIsAtomic(s0, next.value.item, op.answer, x, CALL_SECTIONS); }
  }

  lemma AskIsAtomic(s: State, op: Op, x: Input)
    requires op.OpAsk?
    ensures RunCall(s, op, x) == Atomically(s, op, x)
  {
    hide Finish, Perform, Enqueue, ContinueChange;
    NoChange(s);
    if x.newId !in s.used {
      var p := PersistedItem(x.newId, op.taskId, AgentQuestion(op.question), op.question, x.now, []);
      FilingSection(s, p);
      QuestionIsQueued(s.(reviews := s.reviews[p.id := p], used := s.used + {p.id}), ToQueueItem(p), x);
    }
  }

  lemma QuestionIsQueued(s: State, item: ReviewItem, x: Input)
    ensures Finish(s, FilingQuestion(item), x, CALL_SECTIONS) == s.(queue := Enqueue(s.queue, item))
  {
    hide Finish, Perform, Enqueue;
    QueueSection(s, Put(item));
    Ends(s, FilingQuestion(item), x, CALL_SECTIONS, Enqueueing(item), s.(queue := Enqueue(s.queue, item)));
  }

  lemma DiscussIsAtomic(s: State, op: Op, x: Input)
    requires op.OpDiscuss?
    ensures RunCall(s, op, x) == Atomically(s, op, x)
  {
    hide Finish, Perform;
    NoChange(s);
    var next := BeginSection(s, op, x).1;
    if next.Some? {
      ReviewSection(s, next.value.stored);
      LastSection(s, next.value, x, CALL_SECTIONS);
    }
  }

  /** A call whose sections run back to back has exactly the effect of the one-step specification. */
  lemma WholeIsAtomic(s: State, op: Op, x: Input)
    ensures RunCall(s, op, x) == Atomically(s, op, x)
  {
    hide RunCall, Atomically;
    if op.OpApprove? || op.OpReject? || op.OpRejectTo? { DecisionCallIsAtomic(s, op, x); }
    else if op.OpPrioritize? || op.OpPark? || op.OpUpdate? { EditIsAtomic(s, op, x); }
    else if op.OpBlock? { BlockCallIsAtomic(s, op, x); }
    else if op.OpCreate? { CreateIsAtomic(s, op, x); }
    else if op.OpAnswer? { AnswerCallIsAtomic(s, op, x); }
    else if op.OpAsk? { AskIsAtomic(s, op, x); }
    else { DiscussIsAtomic(s, op, x); }
  }

  /** The board write of a call. */
  function CallWrite(s: State, op: Op, x: Input): BoardWrite {
    match op
    case OpApprove(id) =>
      var c := BufferOf(s.board, id);
      if c.Some? then Decide(id, Approved(Next(c.value).value), x.now) else KeepBoard
    case OpReject(id, feedback) =>
      var c := BufferOf(s.board, id);
      if c.Some? then Decide(id, Rejected(Prev(c.value).value, feedback), x.now) else KeepBoard
    case OpRejectTo(id, target, feedback) =>
      if BufferOf(s.board, id).Some? && RoleOf(target).Some? then Decide(id, Rejected(target, feedback), x.now)
      else KeepBoard
    case OpBlock(id, blockedBy) => if FindColumn(s.board, id).Some? then Block(id, blockedBy) else KeepBoard
    case OpCreate(title, priority) =>
      if x.newId in s.used then KeepBoard else Insert(NewTask(x.newId, title, priority))
    case OpPrioritize(id, priority) => if id in s.store then Reprioritize(s.store[id].id, priority) else KeepBoard
    case OpPark(id, note) => if id in s.store then SetNote(s.store[id].id, note) else KeepBoard
    case OpUpdate(id, title) => if id in s.store then Replace(s.store[id].(title := title)) else KeepBoard
    case OpAnswer(_, _) => KeepBoard
    case OpAsk(_, _) => KeepBoard
    case OpDiscuss(_, _) => KeepBoard
  }

  /** A call writes the board once. */
  lemma CallWritesBoard(s: State, op: Op, x: Input)
    ensures RunCall(s, op, x).board == WriteBoard(s.board, CallWrite(s, op, x)).0
  {
    hide RunCall, Atomically, CallWrite, WriteBoard;
    WholeIsAtomic(s, op, x);
    if op.OpApprove? || op.OpReject? || op.OpRejectTo? { DecisionWrite(s, op, x); }
    else if op.OpAnswer? || op.OpAsk? || op.OpDiscuss? { ReviewWrite(s, op, x); }
    else { PlainWrite(s, op, x); }
  }

  lemma DecisionWrite(s: State, op: Op, x: Input)
    requires op.OpApprove? || op.OpReject? || op.OpRejectTo?
    ensures Atomically(s, op, x).board == WriteBoard(s.board, CallWrite(s, op, x)).0
  {
    hide DecideOn, BufferOf, AfterDecision;
    BufferIsBuffer(s.board, op.id);
    var w := CallWrite(s, op, x);
    if w.Decide? { DecidedBoard(s, w.id, w.decision, x); }
  }

  lemma DecidedBoard(s: State, id: Id, d: Decision, x: Input)
    ensures AfterDecision(s, id, d, x).board == DecideOn(s.board, id, d, x.now).0
  {
    hide DecideOn, FindUnresolved;
  }

  lemma ReviewWrite(s: State, op: Op, x: Input)
    requires op.OpAnswer? || op.OpAsk? || op.OpDiscuss?
    ensures Atomically(s, op, x).board == WriteBoard(s.board, CallWrite(s, op, x)).0
  {
    hide FindUnresolved, Dequeue, Enqueue, Append, WriteReviews, AfterAnswer;
    if op.OpAnswer? {
      var (q, taken) := Dequeue(s.queue, op.itemId);
      if taken.Some? { AnswerKeepsBoard(s.(queue := q), taken.value, op.answer, x.now); }
    }
  }

  lemma AnswerKeepsBoard(s: State, item: ReviewItem, answer: string, now: int)
    ensures AfterAnswer(s, item, answer, now).board == s.board
  {
    hide Append, WriteReviews, Deliver, WriteSignal;
  }

  lemma PlainWrite(s: State, op: Op, x: Input)
    requires op.OpBlock? || op.OpCreate? || op.OpPrioritize? || op.OpPark? || op.OpUpdate?
    ensures Atomically(s, op, x).board == WriteBoard(s.board, CallWrite(s, op, x)).0
  {
    hide Atomically, CallWrite, WriteBoard;
    if op.OpBlock? || op.OpCreate? { PlacingWrite(s, op, x); } else { RecordWrite(s, op, x); }
  }

  lemma PlacingWrite(s: State, op: Op, x: Input)
    requires op.OpBlock? || op.OpCreate?
    ensures Atomically(s, op, x).board == WriteBoard(s.board, CallWrite(s, op, x)).0
  {
    hide BlockOn, AddTask, FindColumn, WriteStore, WriteSignal;
  }

  lemma RecordWrite(s: State, op: Op, x: Input)
    requires op.OpPrioritize? || op.OpPark? || op.OpUpdate?
    ensures Atomically(s, op, x).board == WriteBoard(s.board, CallWrite(s, op, x)).0
  {
    hide SetPriority, Amend;
  }

  // ── Event handling ────────────────────────────────────────────────────────

  /** A task entering a buffer leaves one stored and one queued approval item, under different ids. */
  function AfterEntry(s: State, id: Id, to: Column, x: Input): State {
    var description := if id in s.board.tasks then s.board.tasks[id].title else id;
    var kind := BufferApproval(to, Rank(s.board.tasks, id));
    var p := PersistedItem(x.newId, id, kind, description, x.now, []);
    s.(reviews := s.reviews[p.id := p], used := s.used + {p.id},
       queue := Enqueue(s.queue, ReviewItem(x.queueId, id, kind, description, x.now)))
  }

  /** A task entering a work column wakes its role; one entering a buffer asks for approval. */
  function AfterArrival(s: State, id: Id, to: Column, x: Input): State {
    if RoleOf(to).Some? then s.(agents := WriteSignal(s.agents, RoleOf(to)))
    else if IsBuffer(to) then AfterEntry(s, id, to, x)
    else if x.conflict then
      s.(queue := Enqueue(s.queue, ReviewItem(x.queueId, id, AgentQuestion(x.text), x.text, x.now)))
    else s
  }

  function AfterRelease(s: State, from: Column): State {
    s.(waiting := s.waiting - {from},
       agents := WriteSignal(s.agents, if from in s.waiting then Some(s.waiting[from]) else None))
  }

  function AfterStageChange(s: State, id: Id, from: Column, to: Column, x: Input): State {
    AfterArrival(AfterRelease(s, from), id, to, x)
  }

  function AtomicEvent(s: State, x: Input): State {
    if !s.loop.Listening? || s.events == [] || x.newId in s.used then s
    else
      var s1 := s.(events := s.events[1..]);
      match s.events[0]
      case TaskCreated(_) => s1.(agents := WriteSignal(s1.agents, Some(Prioritizer)))
      case StageChanged(id, from, to) => AfterStageChange(s1, id, from, to, x)
      case AgentBlocked(id, _, question) =>
        s1.(queue := Enqueue(s1.queue, ReviewItem(x.queueId, id, AgentQuestion(question), question, x.now)))
      case _ => s1
  }

  lemma NextEvent(s: State, x: Input, fuel: nat)
    requires fuel > 0 && !LoopSection(s, x).loop.Listening?
    ensures FinishEvent(s, x, fuel) == FinishEvent(LoopSection(s, x), x, fuel - 1)
  {
  }

  lemma LastEvent(s: State, x: Input, fuel: nat)
    requires LoopSection(s, x).loop.Listening?
    ensures FinishEvent(s, x, fuel) == LoopSection(s, x)
  {
  }

  lemma EntryIsAtomic(s: State, id: Id, to: Column, x: Input, fuel: nat)
    requires s.loop == Entered(id, to) && IsBuffer(to) && x.newId !in s.used && fuel >= 2
    ensures FinishEvent(s, x, fuel) == AfterEntry(s, id, to, x).(loop := Listening)
  {
    hide FinishEvent, Enqueue;
    NextEvent(s, x, fuel);
    var s1 := LoopSection(s, x);
    NextEvent(s1, x, fuel - 1);
    LastEvent(LoopSection(s1, x), x, fuel - 2);
  }

  lemma ArrivalIsAtomic(s: State, id: Id, to: Column, x: Input, fuel: nat)
    requires s.loop == Entered(id, to) && x.newId !in s.used && fuel >= 2
    ensures FinishEvent(s, x, fuel) == AfterArrival(s, id, to, x).(loop := Listening)
  {
    hide FinishEvent, Perform, AfterEntry;
    NoChange(s);
    if RoleOf(to).None? && IsBuffer(to) {
      EntryIsAtomic(s, id, to, x, fuel);
    } else {
      SignalSection(s, RoleOf(to));
      QueueSection(s, LoopChange(s, x).0.queue);
      LastEvent(s, x, fuel);
    }
  }

  lemma ReleaseSection(s: State, id: Id, from: Column, to: Column, x: Input)
    requires s.loop == Handling(StageChanged(id, from, to))
    ensures LoopSection(s, x) == AfterRelease(s, from).(loop := Entered(id, to))
  {
  }

  lemma ChangeIsAtomic(s: State, id: Id, from: Column, to: Column, x: Input, fuel: nat)
    requires s.loop == Handling(StageChanged(id, from, to)) && x.newId !in s.used && fuel >= 3
    ensures FinishEvent(s, x, fuel) == AfterStageChange(s, id, from, to, x).(loop := Listening)
  {
    hide FinishEvent, LoopSection, AfterArrival;
    ReleaseSection(s, id, from, to, x);
    NextEvent(s, x, fuel);
    var s1 := AfterRelease(s, from).(loop := Entered(id, to));
    ArrivalIsAtomic(s1, id, to, x, fuel - 1);
    ArrivalElsewhere(AfterRelease(s, from), Entered(id, to), id, to, x);
  }

  lemma EntryElsewhere(s: State, loop: Loop, id: Id, to: Column, x: Input)
    ensures AfterEntry(s.(loop := loop), id, to, x) == AfterEntry(s, id, to, x).(loop := loop)
  {
    hide Enqueue;
  }

  /** What handling an arrival does is independent of where the loop stands. */
  lemma ArrivalElsewhere(s: State, loop: Loop, id: Id, to: Column, x: Input)
    ensures AfterArrival(s.(loop := loop), id, to, x) == AfterArrival(s, id, to, x).(loop := loop)
  {
    if RoleOf(to).None? && IsBuffer(to) {
      hide AfterEntry;
      EntryElsewhere(s, loop, id, to, x);
    } else {
      PlainArrivalElsewhere(s, loop, id, to, x);
    }
  }

  lemma PlainArrivalElsewhere(s: State, loop: Loop, id: Id, to: Column, x: Input)
    requires RoleOf(to).Some? || !IsBuffer(to)
    ensures AfterArrival(s.(loop := loop), id, to, x) == AfterArrival(s, id, to, x).(loop := loop)
  {
    hide Enqueue, WriteSignal, AfterEntry, RoleOf, IsBuffer;
  }

  lemma ReceiveEvent(s: State, x: Input)
    requires s.loop.Listening? && s.events != [] && x.newId !in s.used
    ensures var s1 := s.(events := s.events[1..], loop := Handling(s.events[0]));
      HandleEvent(s, x) == FinishEvent(s1, x, EVENT_SECTIONS - 1)
  {
    hide FinishEvent, Perform;
    NoChange(s);
    NextEvent(s, x, EVENT_SECTIONS);
  }

  lemma PlainEventIsAtomic(s: State, x: Input)
    requires s.loop.Listening? && s.events != [] && x.newId !in s.used && !s.events[0].StageChanged?
    ensures var s1 := s.(events := s.events[1..], loop := Handling(s.events[0]));
      LoopSection(s1, x) == AtomicEvent(s, x)
  {
    hide LoopSection, AfterStageChange;
    PlainSection(s.(events := s.events[1..], loop := Handling(s.events[0])), s.events[0], x);
  }

  lemma PlainSection(s: State, e: Event, x: Input)
    requires s.loop == Handling(e) && !e.StageChanged?
    ensures LoopSection(s, x) ==
      if e.TaskCreated? then s.(loop := Listening, agents := WriteSignal(s.agents, Some(Prioritizer)))
      else if e.AgentBlocked? then
        s.(loop := Listening, queue := Enqueue(s.queue, ReviewItem(x.queueId, e.id, AgentQuestion(e.question), e.question, x.now)))
      else s.(loop := Listening)
  {
    hide Perform, Enqueue, WriteSignal;
    NoChange(s);
    if e.TaskCreated? { SignalSection(s, Some(Prioritizer)); }
    else if e.AgentBlocked? { QueueSection(s, Put(ReviewItem(x.queueId, e.id, AgentQuestion(e.question), e.question, x.now))); }
  }

  /** Handling one event without interruption has exactly the effect of the one-step specification. */
  lemma EventIsAtomic(s: State, x: Input)
    ensures HandleEvent(s, x) == AtomicEvent(s, x)
  {
    hide FinishEvent, LoopSection, AfterStageChange;
    if s.loop.Listening? && s.events != [] && x.newId !in s.used {
      ReceiveEvent(s, x);
      var s1 := s.(events := s.events[1..], loop := Handling(s.events[0]));
      if s.events[0].StageChanged? {
        var e := s.events[0];
        ChangeIsAtomic(s1, e.id, e.from, e.to, x, EVENT_SECTIONS - 1);
        var s0 := s.(events := s.events[1..]);
        assert s1 == s0.(loop := Handling(e));
        ChangeElsewhere(s0, Handling(e), e.id, e.from, e.to, x);
      } else {
        PlainEventIsAtomic(s, x);
        LastEvent(s1, x, EVENT_SECTIONS - 1);
      }
    }
  }

  lemma ChangeElsewhere(s: State, loop: Loop, id: Id, from: Column, to: Column, x: Input)
    requires s.loop.Listening?
    ensures AfterStageChange(s.(loop := loop), id, from, to, x).(loop := Listening)
      == AfterStageChange(s, id, from, to, x)
  {
    hide AfterArrival;
    ArrivalElsewhere(AfterRelease(s, from), loop, id, to, x);
    StaysListening(AfterRelease(s, from), id, to, x);
  }

  lemma StaysListening(s: State, id: Id, to: Column, x: Input)
    ensures AfterArrival(s, id, to, x).loop == s.loop
  {
  }
}
