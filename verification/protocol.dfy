/** Review items as stored, and which of them still wait for a decision. */
module Reviews {
  import opened Options
  import opened Kanban
  import opened ReviewQueues

  datatype ReviewAction =
    | Approve(stamp: int)
    | Reject(stamp: int, feedback: string)
    | Answer(stamp: int, content: string)
    | Comment(stamp: int, byUser: bool, content: string)

  datatype PersistedItem = PersistedItem(
    id: Id, taskId: Id, kind: ReviewKind, description: string, createdAt: int, actions: seq<ReviewAction>)

  predicate IsUnresolved(p: PersistedItem) {
    forall a :: a in p.actions ==> a.Comment?
  }

  function Append(p: PersistedItem, a: ReviewAction): PersistedItem {
    p.(actions := p.actions + [a])
  }

  /** The queue item rebuilt from a stored one at boot keeps its id, task, kind and stamp. */
  function ToQueueItem(p: PersistedItem): ReviewItem {
    ReviewItem(p.id, p.taskId, p.kind, p.description, p.createdAt)
  }

  /** A decision resolves an item for good; a comment never changes whether it is resolved. */
  lemma ActionsResolve(p: PersistedItem, a: ReviewAction)
    ensures IsUnresolved(Append(p, a)) <==> IsUnresolved(p) && a.Comment?
  {
    assert a in Append(p, a).actions;
    assert forall x :: x in p.actions ==> x in Append(p, a).actions;
  }
}

/**
 * The dispatcher as a transition system.  Every lock section of the program is one step, so runs
 * range over all interleavings of the six agents, the event loop and any number of concurrent
 * human or tool calls.  `Apply` is total: a step that is not possible changes nothing.
 */
module Protocol {
  import opened Options
  import opened Columns
  import opened Kanban
  import opened ReviewQueues
  import opened Reviews

  datatype Event =
    | TaskCreated(id: Id)
    | StageChanged(id: Id, from: Column, to: Column)
    | AgentCompleted(id: Id, role: Role)
    | AgentBlocked(id: Id, role: Role, question: string)
    | HumanApproved(id: Id, target: Column)
    | HumanRejected(id: Id, target: Column)

  /** Where an agent loop stands between two lock sections; `task` is the snapshot it works on. */
  datatype Phase =
    | Idle
    | Woken
    | Unblocked
    | Picked(task: Task)
    | Branched(task: Task, branch: string)
    | Running(task: Task)
    | Reported(task: Task)
    | Verifying(task: Task)
    | Retrying(task: Task)
    | Gated(task: Task)
    | Counted(task: Task, count: nat)
    | Full(task: Task)
    | Cleared(task: Task)
    | Moved(task: Task)
    | Announced(task: Task)
    | Asking(task: Task, question: string)
    | Asked(task: Task, question: string)
    | Flagging(task: Task, question: string)
    | FilingItem(task: Task, question: string)

  datatype Agent = Agent(permit: bool, blocked: bool, answer: Option<string>, phase: Phase)

  const RESTING: Agent := Agent(false, false, None, Idle)

  datatype Decision = Approved(target: Column) | Rejected(target: Column, feedback: string)

  /** Where a call stands between two lock sections. */
  datatype Call =
    | Targeted(id: Id, target: Column, feedback: string)
    | Deciding(id: Id, decision: Decision)
    | SavingDecision(id: Id, decision: Decision)
    | Resolving(id: Id, decision: Decision)
    | Recording(id: Id, decision: Decision, stored: PersistedItem)
    | Dequeuing(id: Id, decision: Decision)
    | Announcing(id: Id, decision: Decision)
    | SignallingTarget(decision: Decision)
    | SavingBlock(id: Id, from: Column)
    | AnnouncingBlock(id: Id, from: Column)
    | SignallingBlock
    | Adding(task: Task)
    | AnnouncingTask(id: Id)
    | StoringPriority(task: Task, priority: Priority)
    | SettingPriority(id: Id, priority: Priority)
    | StoringNote(task: Task, note: string)
    | SettingNote(id: Id, note: string)
    | StoringEdit(task: Task)
    | SettingEdit(task: Task)
    | Answering(item: ReviewItem, answer: string)
    | RecordingAnswer(item: ReviewItem, answer: string, stored: PersistedItem)
    | Locating(item: ReviewItem, answer: string)
    | Unblocking(role: Role, answer: string)
    | Notifying(role: Role)
    | FilingQuestion(item: ReviewItem)
    | Discussing(stored: PersistedItem)

  datatype Op =
    | OpApprove(id: Id)
    | OpReject(id: Id, feedback: string)
    | OpRejectTo(id: Id, target: Column, feedback: string)
    | OpBlock(id: Id, blockedBy: seq<Id>)
    | OpCreate(title: string, priority: Priority)
    | OpPrioritize(id: Id, priority: Priority)
    | OpPark(id: Id, note: string)
    | OpUpdate(id: Id, title: string)
    | OpAnswer(itemId: Id, answer: string)
    | OpAsk(taskId: Id, question: string)
    | OpDiscuss(taskId: Id, content: string)

  /** Where the event loop stands inside the handling of one event. */
  datatype Loop =
    | Listening
    | Handling(event: Event)
    | Entered(id: Id, to: Column)
    | Noted(id: Id, to: Column, priority: Priority, description: string)
    | Persisted(id: Id, to: Column, priority: Priority, description: string)

  datatype State = State(
    board: Board, store: map<Id, Task>, queue: Queue, reviews: map<Id, PersistedItem>,
    limits: map<Column, Priority>, waiting: map<Column, Role>, agents: map<Role, Agent>,
    calls: map<nat, Call>, events: seq<Event>, loop: Loop, used: set<Id>)

  /** What the outside world decides in a step: model output, verdicts, fresh ids, the clock. */
  datatype RunResult = RunError | RunFailure | RunBlocked(question: string) | RunSuccess(output: string)
  datatype Input = Input(branch: string, result: RunResult, pass: bool, text: string, newId: Id, queueId: Id,
                         now: int, pick: Id, conflict: bool)

  datatype Action =
    | AgentStep(role: Role, input: Input)
    | LoopStep(input: Input)
    | Begin(pid: nat, op: Op, input: Input)
    | Continue(pid: nat, input: Input)
    | Whole(op: Op, input: Input)
    | WholeEvent(input: Input)
    | SetLimits(limits: map<Column, Priority>)
    | Lag(n: nat)
    | Restart(order: seq<Id>, reviewOrder: seq<Id>, limits: map<Column, Priority>)

  // ── What one section writes ───────────────────────────────────────────────

  datatype BoardWrite =
    | KeepBoard
    | SetBranch(id: Id, text: string)
    | SetOutput(id: Id, text: string)
    | SetNote(id: Id, text: string)
    | Move(id: Id, target: Column)
    | Decide(id: Id, decision: Decision, now: int)
    | Block(id: Id, blockedBy: seq<Id>)
    | Insert(task: Task)
    | Reprioritize(id: Id, priority: Priority)
    | Replace(task: Task)

  datatype StoreWrite = KeepStore | SaveBoardCopy(id: Id) | SaveRecord(task: Task)
  datatype QueueWrite = KeepQueue | Put(item: ReviewItem) | DropForTask(taskId: Id) | DropItem(itemId: Id)
  datatype WaitWrite = KeepWaiting | Wait(column: Column, role: Role) | Release(column: Column)

  /** The shared state one lock section writes; everything not named stays as it is. */
  datatype Change = Change(
    board: BoardWrite, store: StoreWrite, review: Option<PersistedItem>, queue: QueueWrite,
    event: Option<Event>, waiting: WaitWrite, signal: Option<Role>, newId: Option<Id>)

  const NOTHING: Change := Change(KeepBoard, KeepStore, None, KeepQueue, None, KeepWaiting, None, None)

  function Writing(w: BoardWrite): Change { NOTHING.(board := w) }
  function Saving(w: StoreWrite): Change { NOTHING.(store := w) }
  function Emitting(e: Event): Change { NOTHING.(event := Some(e)) }
  function Enqueueing(item: ReviewItem): Change { NOTHING.(queue := Put(item)) }
  function Signalling(r: Option<Role>): Change { NOTHING.(signal := r) }
  function SavingReview(p: PersistedItem): Change { NOTHING.(review := Some(p)) }
  /** Writes a review item under a new id. */
  function Filing(p: PersistedItem): Change { NOTHING.(review := Some(p), newId := Some(p.id)) }

  // ── What the writes do ────────────────────────────────────────────────────

  function AddHistory(b: Board, id: Id, entry: HistoryEntry): Board {
    if id in b.tasks then Amend(b, b.tasks[id].(history := b.tasks[id].history + [entry])) else b
  }

  /** A decision moves the task and records itself in the task's history. */
  function DecideOn(b: Board, id: Id, d: Decision, now: int): (Board, bool) {
    if d.Approved? then
      var (b1, ok) := Advance(b, id, d.target);
      (if ok then AddHistory(b1, id, Approval(now, At(d.target))) else b1, ok)
    else
      var (b1, ok) := Rework(b, id, d.target);
      if ok && id in b1.tasks then
        var b2 := Amend(b1, b1.tasks[id].(feedback := Some(d.feedback)));
        (AddHistory(b2, id, Rejection(now, d.feedback, At(d.target))), true)
      else (b1, false)
  }

  /** A block sends the task to the top of Prioritized with new blockers. */
  function BlockOn(b: Board, id: Id, blockedBy: seq<Id>): (Board, bool) {
    var (b1, ok) := Rework(b, id, Prioritized);
    if ok && id in b1.tasks then (Amend(b1, b1.tasks[id].(blockedBy := blockedBy)), true) else (b1, false)
  }

  /** The board after a write; the flag is false when the write found no such task to move. */
  function WriteBoard(b: Board, w: BoardWrite): (Board, bool) {
    match w
    case KeepBoard => (b, true)
    case SetBranch(id, text) => (if id in b.tasks then Amend(b, b.tasks[id].(branch := Some(text))) else b, true)
    case SetOutput(id, text) => (if id in b.tasks then Amend(b, b.tasks[id].(output := Some(text))) else b, true)
    case SetNote(id, text) => (if id in b.tasks then Amend(b, b.tasks[id].(resume := Some(text))) else b, true)
    case Move(id, target) => Advance(b, id, target)
    case Decide(id, d, now) => DecideOn(b, id, d, now)
    case Block(id, blockedBy) => BlockOn(b, id, blockedBy)
    case Insert(t) => (AddTask(b, t), true)
    case Reprioritize(id, priority) => (SetPriority(b, id, priority), true)
    case Replace(t) => (Amend(b, t), true)
  }

  /** Saving the board's copy holds the board's read lock while the file is written. */
  function WriteStore(store: map<Id, Task>, b: Board, w: StoreWrite): map<Id, Task> {
    match w
    case KeepStore => store
    case SaveBoardCopy(id) => if id in b.tasks then store[b.tasks[id].id := b.tasks[id]] else store
    case SaveRecord(t) => store[t.id := t]
  }

  function WriteReviews(reviews: map<Id, PersistedItem>, p: Option<PersistedItem>): map<Id, PersistedItem> {
    if p.Some? then reviews[p.value.id := p.value] else reviews
  }

  function WriteQueue(q: Queue, w: QueueWrite): Queue {
    match w
    case KeepQueue => q
    case Put(item) => Enqueue(q, item)
    case DropForTask(taskId) => DequeueByTask(q, taskId).0
    case DropItem(itemId) => Dequeue(q, itemId).0
  }

  function WriteWaiting(waiting: map<Column, Role>, w: WaitWrite): map<Column, Role> {
    match w
    case KeepWaiting => waiting
    case Wait(c, r) => waiting[c := r]
    case Release(c) => waiting - {c}
  }

  function AgentIn(agents: map<Role, Agent>, r: Role): Agent {
    if r in agents then agents[r] else RESTING
  }

  function AgentOf(s: State, r: Role): Agent {
    AgentIn(s.agents, r)
  }

  function WriteSignal(agents: map<Role, Agent>, signal: Option<Role>): map<Role, Agent> {
    if signal.Some? then agents[signal.value := AgentIn(agents, signal.value).(permit := true)] else agents
  }

  function Perform(s: State, ch: Change): State {
    s.(board := WriteBoard(s.board, ch.board).0,
       store := WriteStore(s.store, s.board, ch.store),
       reviews := WriteReviews(s.reviews, ch.review),
       queue := WriteQueue(s.queue, ch.queue),
       events := if ch.event.Some? then s.events + [ch.event.value] else s.events,
       waiting := WriteWaiting(s.waiting, ch.waiting),
       agents := WriteSignal(s.agents, ch.signal),
       used := if ch.newId.Some? then s.used + {ch.newId.value} else s.used)
  }

  lemma PerformKeepsCalls(s: State, ch: Change)
    ensures Perform(s, ch).calls == s.calls
  {
    hide WriteBoard, WriteStore, WriteReviews, WriteQueue, WriteWaiting, WriteSignal;
  }

  // ── Reading helpers ───────────────────────────────────────────────────────

  predicate Candidate(reviews: map<Id, PersistedItem>, taskId: Id, p: Id) {
    p in reviews && reviews[p].taskId == taskId && IsUnresolved(reviews[p])
  }

  /** Some unresolved item of the task; which one depends on directory order, hence `pick`. */
  ghost function FindUnresolved(reviews: map<Id, PersistedItem>, taskId: Id, pick: Id): (r: Option<PersistedItem>)
    ensures r.Some? ==> exists p :: Candidate(reviews, taskId, p) && r.value == reviews[p]
    ensures r.None? ==> forall p :: !Candidate(reviews, taskId, p)
  {
    if Candidate(reviews, taskId, pick) then Some(reviews[pick])
    else if p :| Candidate(reviews, taskId, p) then Some(reviews[p])
    else None
  }

  function LimitOf(s: State, c: Column): Priority {
    if c in s.limits then s.limits[c] else U32_MAX
  }

  function BufferOf(b: Board, id: Id): Option<Column> {
    var c := FindColumn(b, id);
    if c.Some? && IsBuffer(c.value) then c else None
  }

  lemma BufferIsBuffer(b: Board, id: Id)
    ensures BufferOf(b, id).Some? ==>
      var c := BufferOf(b, id).value;
      IsBuffer(c) && Next(c).Some? && Prev(c).Some? && RoleOf(Next(c).value).Some? && RoleOf(Prev(c).value).Some?
  {
  }

  function ActionOf(d: Decision, now: int): ReviewAction {
    if d.Approved? then Approve(now) else Reject(now, d.feedback)
  }

  function EventOf(id: Id, d: Decision): Event {
    if d.Approved? then HumanApproved(id, d.target) else HumanRejected(id, d.target)
  }

  function NewTask(id: Id, title: string, priority: Priority): Task {
    Task(id, title, Backlog, priority, None, None, None, None, [], [])
  }

  // ── One section of an agent loop ──────────────────────────────────────────

  /** What the section writes, and where the agent stands after it. */
  function AgentChange(s: State, r: Role, x: Input): (Change, Phase) {
    var a := AgentOf(s, r);
    match a.phase
    case Idle => (NOTHING, if a.permit then Woken else Idle)
    case Woken => (NOTHING, if a.blocked then Idle else Unblocked)
    case Unblocked =>
      var pick := NextUnblocked(s.board, WorkColumn(r));
      (NOTHING, if pick.Some? then Picked(pick.value) else Idle)
    case Picked(t) =>
      if t.branch.Some? then (NOTHING, Running(t)) else (Writing(SetBranch(t.id, x.branch)), Branched(t, x.branch))
    case Branched(t, branch) => (Saving(SaveRecord(t.(branch := Some(branch)))), Running(t))
    case Running(t) =>
      (match x.result
       case RunError => (NOTHING, Idle)
       case RunFailure => (NOTHING, Idle)
       case RunBlocked(question) => (NOTHING, Asking(t, question))
       case RunSuccess(output) => (Writing(SetOutput(t.id, output)), Reported(t)))
    case Reported(t) => (Saving(SaveBoardCopy(t.id)), Verifying(t))
    case Verifying(t) => (NOTHING, if x.pass then Gated(t) else Retrying(t))
    case Retrying(t) => (NOTHING, if x.pass then Gated(t) else Asking(t, x.text))
    case Gated(t) => (NOTHING, Counted(t, Count(s.board, Target(r)) % (U32_MAX + 1)))
    case Counted(t, count) => (NOTHING, if count < LimitOf(s, Target(r)) then Cleared(t) else Full(t))
    case Full(t) => (NOTHING.(waiting := Wait(Target(r), r)), Idle)
    case Cleared(t) =>
      (Writing(Move(t.id, Target(r))), if Advance(s.board, t.id, Target(r)).1 then Moved(t) else Idle)
    case Moved(t) => (Emitting(StageChanged(t.id, WorkColumn(r), Target(r))), Announced(t))
    case Announced(t) => (Emitting(AgentCompleted(t.id, r)), Idle)
    case Asking(t, question) =>
      if x.newId in s.used then (NOTHING, a.phase)
      else (Filing(PersistedItem(x.newId, t.id, AgentQuestion(question), question, x.now, [])), Asked(t, question))
    case Asked(t, question) => (Emitting(AgentBlocked(t.id, r, question)), Flagging(t, question))
    case Flagging(t, question) => (NOTHING, FilingItem(t, question))
    case FilingItem(t, question) =>
      (Enqueueing(ReviewItem(x.queueId, t.id, AgentQuestion(question), question, x.now)), Idle)
  }

  /** Waking consumes the permit; flagging raises the blocked flag. */
  function AgentAfter(a: Agent, next: Phase): Agent {
    a.(phase := next,
       permit := if a.phase.Idle? then false else a.permit,
       blocked := if a.phase.Flagging? then true else a.blocked)
  }

  function AgentSection(s: State, r: Role, x: Input): State {
    var (ch, next) := AgentChange(s, r, x);
    Perform(s, ch).(agents := s.agents[r := AgentAfter(AgentOf(s, r), next)])
  }

  // ── One section of the event loop ─────────────────────────────────────────

  /** What the section writes, and where the loop stands after it. */
  function LoopChange(s: State, x: Input): (Change, Loop) {
    match s.loop
    case Listening => (NOTHING, if s.events == [] then Listening else Handling(s.events[0]))
    case Handling(event) =>
      (match event
       case TaskCreated(_) => (Signalling(Some(Prioritizer)), Listening)
       case StageChanged(id, from, to) =>
         (NOTHING.(waiting := Release(from), signal := if from in s.waiting then Some(s.waiting[from]) else None),
          Entered(id, to))
       case AgentBlocked(id, _, question) =>
         (Enqueueing(ReviewItem(x.queueId, id, AgentQuestion(question), question, x.now)), Listening)
       case AgentCompleted(_, _) => (NOTHING, Listening)
       case HumanApproved(_, _) => (NOTHING, Listening)
       case HumanRejected(_, _) => (NOTHING, Listening))
    case Entered(id, to) =>
      if RoleOf(to).Some? then (Signalling(RoleOf(to)), Listening)
      else if IsBuffer(to) then
        (NOTHING, Noted(id, to, Rank(s.board.tasks, id), if id in s.board.tasks then s.board.tasks[id].title else id))
      else if x.conflict then
        (Enqueueing(ReviewItem(x.queueId, id, AgentQuestion(x.text), x.text, x.now)), Listening)
      else (NOTHING, Listening)
    case Noted(id, to, priority, description) =>
      if x.newId in s.used then (NOTHING, s.loop)
      else (Filing(PersistedItem(x.newId, id, BufferApproval(to, priority), description, x.now, [])),
            Persisted(id, to, priority, description))
    case Persisted(id, to, priority, description) =>
      (Enqueueing(ReviewItem(x.queueId, id, BufferApproval(to, priority), description, x.now)), Listening)
  }

  function LoopSection(s: State, x: Input): State {
    var (ch, next) := LoopChange(s, x);
    Perform(s, ch).(loop := next, events := if s.loop.Listening? && s.events != [] then s.events[1..] else s.events)
  }

  // ── Sections of a call ────────────────────────────────────────────────────

  /** The first section of a call: what it writes and where the call goes on, if it does. */
  ghost function BeginChange(s: State, op: Op, x: Input): (Change, Option<Call>) {
    match op
    case OpApprove(id) =>
      var c := BufferOf(s.board, id);
      (NOTHING, if c.Some? then Some(Deciding(id, Approved(Next(c.value).value))) else None)
    case OpReject(id, feedback) =>
      var c := BufferOf(s.board, id);
      (NOTHING, if c.Some? then Some(Targeted(id, Prev(c.value).value, feedback)) else None)
    case OpRejectTo(id, target, feedback) =>
      (NOTHING, if BufferOf(s.board, id).Some? && RoleOf(target).Some?
                then Some(Deciding(id, Rejected(target, feedback))) else None)
    case OpBlock(id, blockedBy) =>
      var from := FindColumn(s.board, id);
      if from.None? then (NOTHING, None)
      else (Writing(Block(id, blockedBy)),
            if BlockOn(s.board, id, blockedBy).1 then Some(SavingBlock(id, from.value)) else None)
    case OpCreate(title, priority) =>
      if x.newId in s.used then (NOTHING, None)
      else
        var t := NewTask(x.newId, title, priority);
        (Saving(SaveRecord(t)).(newId := Some(t.id)), Some(Adding(t)))
    case OpPrioritize(id, priority) =>
      (NOTHING, if id in s.store then Some(StoringPriority(s.store[id], priority)) else None)
    case OpPark(id, note) => (NOTHING, if id in s.store then Some(StoringNote(s.store[id], note)) else None)
    case OpUpdate(id, title) =>
      (NOTHING, if id in s.store then Some(StoringEdit(s.store[id].(title := title))) else None)
    case OpAnswer(itemId, answer) =>
      var taken := Dequeue(s.queue, itemId).1;
      (NOTHING.(queue := DropItem(itemId)),
       if taken.Some? && taken.value.kind.AgentQuestion? then Some(Answering(taken.value, answer)) else None)
    case OpAsk(taskId, question) =>
      if x.newId in s.used then (NOTHING, None)
      else
        var p := PersistedItem(x.newId, taskId, AgentQuestion(question), question, x.now, []);
        (Filing(p), Some(FilingQuestion(ToQueueItem(p))))
    case OpDiscuss(taskId, content) =>
      var p := FindUnresolved(s.reviews, taskId, x.pick);
      (NOTHING, if p.None? then None
                else Some(Discussing(Append(Append(p.value, Comment(x.now, true, content)),
                                            Comment(x.now, false, x.text)))))
  }

  /** A later section of a call. */
  ghost function ContinueChange(s: State, call: Call, x: Input): (Change, Option<Call>) {
    match call
    case Targeted(id, target, feedback) => BeginChange(s, OpRejectTo(id, target, feedback), x)
    case Deciding(id, d) =>
      (Writing(Decide(id, d, x.now)), if DecideOn(s.board, id, d, x.now).1 then Some(SavingDecision(id, d)) else None)
    case SavingDecision(id, d) => (Saving(SaveBoardCopy(id)), Some(Resolving(id, d)))
    case Resolving(id, d) =>
      var p := FindUnresolved(s.reviews, id, x.pick);
      (NOTHING, Some(if p.Some? then Recording(id, d, p.value) else Dequeuing(id, d)))
    case Recording(id, d, p) => (SavingReview(Append(p, ActionOf(d, x.now))), Some(Dequeuing(id, d)))
    case Dequeuing(id, d) => (NOTHING.(queue := DropForTask(id)), Some(Announcing(id, d)))
    case Announcing(id, d) => (Emitting(EventOf(id, d)), Some(SignallingTarget(d)))
    case SignallingTarget(d) => (Signalling(RoleOf(d.target)), None)
    case SavingBlock(id, from) => (Saving(SaveBoardCopy(id)), Some(AnnouncingBlock(id, from)))
    case AnnouncingBlock(id, from) => (Emitting(StageChanged(id, from, Prioritized)), Some(SignallingBlock))
    case SignallingBlock => (Signalling(Some(Prioritizer)), None)
    case Adding(t) => (Writing(Insert(t)), Some(AnnouncingTask(t.id)))
    case AnnouncingTask(id) => (Emitting(TaskCreated(id)), None)
    case StoringPriority(t, priority) =>
      (Saving(SaveRecord(t.(priority := priority))), Some(SettingPriority(t.id, priority)))
    case SettingPriority(id, priority) => (Writing(Reprioritize(id, priority)), None)
    case StoringNote(t, note) => (Saving(SaveRecord(t.(resume := Some(note)))), Some(SettingNote(t.id, note)))
    case SettingNote(id, note) => (Writing(SetNote(id, note)), None)
    case StoringEdit(t) => (Saving(SaveRecord(t)), Some(SettingEdit(t)))
    case SettingEdit(t) => (Writing(Replace(t)), None)
    case Answering(item, answer) =>
      (NOTHING, Some(if item.id in s.reviews then RecordingAnswer(item, answer, s.reviews[item.id])
                     else Locating(item, answer)))
    case RecordingAnswer(item, answer, stored) =>
      (SavingReview(Append(stored, Answer(x.now, answer))), Some(Locating(item, answer)))
    case Locating(item, answer) =>
      (NOTHING, if item.taskId in s.board.tasks && RoleOf(s.board.tasks[item.taskId].Column()).Some?
                then Some(Unblocking(RoleOf(s.board.tasks[item.taskId].Column()).value, answer)) else None)
    case Unblocking(r, answer) => (NOTHING, Some(Notifying(r)))
    case Notifying(r) => (Signalling(Some(r)), None)
    case FilingQuestion(item) => (Enqueueing(item), None)
    case Discussing(p) => (SavingReview(p), None)
  }

  /** Delivering an answer fills the agent's answer slot and lowers its blocked flag. */
  function Deliver(agents: map<Role, Agent>, call: Call): map<Role, Agent> {
    if call.Unblocking?
    then agents[call.role := AgentIn(agents, call.role).(answer := Some(call.answer), blocked := false)]
    else agents
  }

  ghost function BeginSection(s: State, op: Op, x: Input): (State, Option<Call>) {
    var (ch, next) := BeginChange(s, op, x);
    (Perform(s, ch), next)
  }

  ghost function ContinueSection(s: State, call: Call, x: Input): (State, Option<Call>) {
    var (ch, next) := ContinueChange(s, call, x);
    var s1 := Perform(s, ch);
    (s1.(agents := Deliver(s1.agents, call)), next)
  }

  function Track(s: State, pid: nat, next: Option<Call>): State {
    s.(calls := if next.Some? then s.calls[pid := next.value] else s.calls - {pid})
  }

  /** A call run from one section to its end without interruption. */
  ghost function Finish(s: State, call: Call, x: Input, fuel: nat): State
    decreases fuel
  {
    var (s1, next) := ContinueSection(s, call, x);
    if next.None? || fuel == 0 then s1 else Finish(s1, next.value, x, fuel - 1)
  }

  /** No call has more than this many sections after its first. */
  const CALL_SECTIONS: nat := 9

  ghost function RunCall(s: State, op: Op, x: Input): State {
    var (s1, next) := BeginSection(s, op, x);
    if next.None? then s1 else Finish(s1, next.value, x, CALL_SECTIONS)
  }

  /** The loop's sections from one event to the next time it listens. */
  function FinishEvent(s: State, x: Input, fuel: nat): State
    decreases fuel
  {
    var s1 := LoopSection(s, x);
    if s1.loop.Listening? || fuel == 0 then s1 else FinishEvent(s1, x, fuel - 1)
  }

  /** Handling an event takes at most this many sections after its receipt. */
  const EVENT_SECTIONS: nat := 4

  function HandleEvent(s: State, x: Input): State {
    if !s.loop.Listening? || s.events == [] || x.newId in s.used then s else FinishEvent(s, x, EVENT_SECTIONS)
  }

  // ── Boot ──────────────────────────────────────────────────────────────────

  function Lookup<T>(m: map<Id, T>, order: seq<Id>): seq<T>
    requires forall id :: id in order ==> id in m
  {
    if order == [] then [] else Lookup(m, order[..|order| - 1]) + [m[order[|order| - 1]]]
  }

  function QueueItems(m: map<Id, PersistedItem>, order: seq<Id>): seq<ReviewItem>
    requires forall id :: id in order ==> id in m
  {
    if order == [] then [] else QueueItems(m, order[..|order| - 1]) + [ToQueueItem(m[order[|order| - 1]])]
  }

  ghost predicate Enumerates<T>(order: seq<Id>, m: map<Id, T>, want: T -> bool) {
    && (forall id :: id in order <==> id in m && want(m[id]))
    && (forall i, j :: 0 <= i < j < |order| ==> order[i] != order[j])
  }

  /** A boot reads every task and every unresolved item, each in some order. */
  ghost predicate CanBoot(s: State, order: seq<Id>, reviewOrder: seq<Id>) {
    && Enumerates(order, s.store, (t: Task) => true)
    && Enumerates(reviewOrder, s.reviews, (p: PersistedItem) => IsUnresolved(p))
  }

  function BootAgents(b: Board): map<Role, Agent> {
    map r: Role | r in ALL_ROLES :: RESTING.(permit := Ids(b, WorkColumn(r)) != [])
  }

  ghost function Boot(s: State, order: seq<Id>, reviewOrder: seq<Id>, limits: map<Column, Priority>): State
    requires CanBoot(s, order, reviewOrder)
  {
    var b := FromTasks(Lookup(s.store, order));
    State(b, s.store, Rebuild(QueueItems(s.reviews, reviewOrder)), s.reviews, limits, map[], BootAgents(b),
          map[], [], Listening, s.used)
  }

  // ── Steps and runs ────────────────────────────────────────────────────────

  ghost function Apply(s: State, a: Action): State {
    match a
    case AgentStep(r, x) => AgentSection(s, r, x)
    case LoopStep(x) => LoopSection(s, x)
    case Begin(pid, op, x) =>
      if pid in s.calls then s
      else
        var (s1, next) := BeginSection(s, op, x);
        Track(s1, pid, next)
    case Continue(pid, x) =>
      if pid !in s.calls then s
      else
        var (s1, next) := ContinueSection(s, s.calls[pid], x);
        Track(s1, pid, next)
    case Whole(op, x) => RunCall(s, op, x)
    case WholeEvent(x) => HandleEvent(s, x)
    case SetLimits(limits) => s.(limits := limits)
    case Lag(n) => if n <= |s.events| then s.(events := s.events[n..]) else s
    case Restart(order, reviewOrder, limits) =>
      if CanBoot(s, order, reviewOrder) then Boot(s, order, reviewOrder, limits) else s
  }

  ghost function Exec(s: State, run: seq<Action>): State {
    if run == [] then s else Apply(Exec(s, run[..|run| - 1]), run[|run| - 1])
  }

  /** The states a run goes through; every action satisfies the hypothesis where it is taken. */
  ghost predicate Trace(states: seq<State>, run: seq<Action>, h: (State, Action) -> bool) {
    && |states| == |run| + 1
    && forall i {:trigger run[i]} :: 0 <= i < |run| ==> h(states[i], run[i]) && states[i + 1] == Apply(states[i], run[i])
  }

  /** The step that led to a state of a trace. */
  lemma LastStep(states: seq<State>, run: seq<Action>, h: (State, Action) -> bool, k: nat)
    requires Trace(states, run, h) && 0 < k < |states|
    ensures k <= |run| && h(states[k - 1], run[k - 1]) && states[k] == Apply(states[k - 1], run[k - 1])
  {
  }

  /** Everything may happen. */
  ghost function Anything(): (State, Action) -> bool {
    (s: State, a: Action) => true
  }

  /** Every run has a trace from every state, and a trace ends where executing its run ends. */
  lemma {:induction false} RunsHaveTraces(s: State, run: seq<Action>) returns (states: seq<State>)
    ensures Trace(states, run, Anything()) && states[0] == s && states[|run|] == Exec(s, run)
  {
    if run == [] {
      states := [s];
    } else {
      hide Apply;
      var init := run[..|run| - 1];
      var before := RunsHaveTraces(s, init);
      states := before + [Exec(s, run)];
      forall i | 0 <= i < |run| ensures states[i + 1] == Apply(states[i], run[i]) {
        if i < |init| { assert init[i] == run[i] && states[i] == before[i] && states[i + 1] == before[i + 1]; }
      }
    }
  }
}
