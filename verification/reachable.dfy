/**
 * Runs of the machine from a fresh installation to the states in which the properties of module
 * Holes are lost: tasks are created and taken to the columns in question by the agents' own steps.
 */
module Reachability {
  import opened Options
  import opened Columns
  import opened Kanban
  import opened ReviewQueues
  import opened Reviews
  import opened Protocol
  import opened Sections
  import opened Atomic
  import opened AgentRuns
  import opened Effects
  import opened Gates
  import opened Wip
  import opened Ownership
  import opened Restarts
  import opened Placement
  import opened Steps
  import opened Agreement
  import opened Blocking
  import opened Resolution
  import opened Wakes
  import opened Journeys
  import opened Holes
  import InFlightBlocks

  // ── One task ──────────────────────────────────────────────────────────────

  /** The task is the only one, nobody has decided on it, no review is stored or queued, and nothing is limited. */
  ghost predicate Untouched(s: State, id: Id) {
    && s.board.tasks.Keys == {id} && s.board.tasks[id].history == []
    && s.limits == map[] && s.waiting == map[] && s.used == {id} && s.queue == [] && s.reviews == map[]
  }

  ghost predicate Alone(s: State, id: Id, c: Column) {
    Poised(s, id, c) && Untouched(s, id)
  }

  ghost predicate Working(s: State, id: Id, r: Role) {
    Busy(s, id, r) && Untouched(s, id) && OnlyTold(s.agents, None) && s.events == []
  }

  lemma StaysUntouched(s: State, s': State, id: Id)
    requires Untouched(s, id) && SameElsewhere(s, s') && SameTask(s.board, s'.board, id)
    ensures Untouched(s', id)
  {
  }

  lemma UntouchedIsCalm(s: State, id: Id)
    requires Untouched(s, id) && s.events == []
    ensures Calm(s, id)
  {
  }

  lemma FreshIsHushed()
    ensures Hushed(FRESH)
  {
    FreshIsWell();
  }

  /** A task is created and its event handled: it waits in Prioritized and the prioritizer is told. */
  lemma Created(id: Id, title: string, priority: Priority) returns (run: seq<Action>)
    requires id != ""
    ensures var s := Exec(FRESH, run); Ahead(s, id, Prioritizer) && Untouched(s, id)
  {
    hide Apply, Exec, Hushed, Poised, OnlyTold, WriteSignal;
    var create := Whole(OpCreate(title, priority), SUCCESS.(newId := id));
    run := [create, WholeEvent(SUCCESS)];
    ExecTwo(FRESH, create, WholeEvent(SUCCESS));
    FreshIsHushed();
    FreshIsWell();
    Creates(FRESH, id, title, priority);
    var s1 := Apply(FRESH, create);
    PoisedRests(s1, id, Prioritized);
    NobodyTold(s1.agents);
    Heralded(s1, id, Prioritized);
    NowTold(s1.agents, Prioritizer);
  }

  lemma NobodyTold(agents: map<Role, Agent>)
    requires agents == map[]
    ensures OnlyTold(agents, None)
  {
  }

  /** The prioritizer has just taken the new task on. */
  lemma ReachPrioritizing(id: Id, title: string, priority: Priority) returns (run: seq<Action>)
    requires id != ""
    ensures Working(Exec(FRESH, run), id, Prioritizer)
  {
    hide Exec, Poised, Busy, OnlyTold;
    run := Created(id, title, priority);
    var s := Exec(FRESH, run);
    var more := Embarks(s, id, Prioritizer);
    ExecConcat(FRESH, run, more);
    StaysUntouched(s, Exec(s, more), id);
    run := run + more;
  }

  /** The designer has just taken it on. */
  lemma ReachDesigning(id: Id, title: string, priority: Priority) returns (run: seq<Action>)
    requires id != ""
    ensures Working(Exec(FRESH, run), id, Designer)
  {
    hide Exec, Poised, Busy, OnlyTold;
    run := Created(id, title, priority);
    var s := Exec(FRESH, run);
    var more := FirstLeg(s, id);
    ExecConcat(FRESH, run, more);
    StaysUntouched(s, Exec(s, more), id);
    run, s := run + more, Exec(s, more);
    more := Embarks(s, id, Designer);
    ExecConcat(FRESH, run, more);
    StaysUntouched(s, Exec(s, more), id);
    run := run + more;
  }

  /** The designer has finished: the task waits, undecided, in the first buffer, its arrival announced. */
  lemma ReachCodingBuffer(id: Id, title: string, priority: Priority) returns (run: seq<Action>)
    requires id != ""
    ensures var s := Exec(FRESH, run);
      Alone(s, id, CodingBuffer) && OnlyTold(s.agents, None)
      && s.events == [StageChanged(id, Designing, CodingBuffer), AgentCompleted(id, Designer)]
  {
    hide Exec, Poised, Busy, OnlyTold;
    run := ReachDesigning(id, title, priority);
    var s := Exec(FRESH, run);
    UntouchedIsCalm(s, id);
    var more := Lands(s, id, Designer);
    ExecConcat(FRESH, run, more);
    StaysUntouched(s, Exec(s, more), id);
    run := run + more;
  }

  // ── The states ────────────────────────────────────────────────────────────

  lemma AloneInBuffer(s: State, id: Id, c: Column)
    requires Alone(s, id, c) && IsBuffer(c)
    ensures Inv(Unchecked, s) && BufferOf(s.board, id) == Some(c) && id in s.board.tasks && s.board.tasks[id].history == []
  {
    hide AllOwnRight, StoreFollows, StoredAtWork;
    BoardIsWell(s);
    FindColumnIsStage(s.board, id);
  }

  /** A run of the machine that puts a task nobody has approved into Deploying. */
  lemma UnapprovedReachesDeploying(id: Id, title: string, priority: Priority, feedback: string) returns (run: seq<Action>)
    requires id != ""
    ensures var b := Exec(FRESH, run).board;
      id in b.tasks && b.tasks[id].Column() == Deploying && !TaskPassed(Strict, b.tasks[id])
  {
    hide Exec, Alone, Apply, Inv, BufferOf;
    run := ReachCodingBuffer(id, title, priority);
    var s := Exec(FRESH, run);
    AloneInBuffer(s, id, CodingBuffer);
    ReworkCanSkipEveryGate(s, id, feedback, SUCCESS);
    WholeIsCall(s, OpRejectTo(id, Deploying, feedback), SUCCESS);
    ExecOne(FRESH, run, Whole(OpRejectTo(id, Deploying, feedback), SUCCESS));
    run := run + [Whole(OpRejectTo(id, Deploying, feedback), SUCCESS)];
  }

  function Repeated(a: Action, n: nat): seq<Action> {
    if n == 0 then [] else [a] + Repeated(a, n - 1)
  }

  function Several(s: State, r: Role, x: Input, n: nat): State
    decreases n
  {
    if n == 0 then s else Several(AgentSection(s, r, x), r, x, n - 1)
  }

  lemma {:induction false} SeveralIsRun(s: State, r: Role, x: Input, n: nat)
    ensures Exec(s, Repeated(AgentStep(r, x), n)) == Several(s, r, x, n)
    ensures Owned(s) ==> Owned(Several(s, r, x, n))
    decreases n
  {
    hide AgentSection, Owned, Exec;
    if n == 0 { ExecNothing(s); }
    else {
      SeveralIsRun(AgentSection(s, r, x), r, x, n - 1);
      ExecFirst(s, AgentStep(r, x), Repeated(AgentStep(r, x), n - 1));
      if Owned(s) { AgentOwned(s, r, x); }
    }
  }

  /** A run that ends with the designer cleared to move: blocking its task now makes it jump. */
  lemma ClearedIsReached(id: Id, title: string, priority: Priority) returns (run: seq<Action>)
    requires id != ""
    ensures var s := Exec(FRESH, run); Owned(s) && AgentOf(s, Designer).phase.Cleared?
  {
    hide Exec, Working, Several, Owned;
    run := ReachDesigning(id, title, priority);
    var s := Exec(FRESH, run);
    var more := Repeated(AgentStep(Designer, SUCCESS), 5);
    SeveralIsRun(s, Designer, SUCCESS, 5);
    WorkingIsCalm(s, id, Designer);
    BusyIsOwned(s, id, Designer);
    ReachesCleared(s, id, Designer);
    ExecConcat(FRESH, run, more);
    run := run + more;
  }

  lemma WorkingIsCalm(s: State, id: Id, r: Role)
    requires Working(s, id, r)
    ensures Busy(s, id, r) && Calm(s, id)
  {
  }

  lemma BusyIsOwned(s: State, id: Id, r: Role)
    requires Busy(s, id, r)
    ensures Owned(s) && r in s.agents && s.agents[r].phase.Running? && id in s.board.tasks
  {
  }

  /** Five sections on, the agent is past the limit check. */
  lemma ReachesCleared(s: State, id: Id, r: Role)
    requires Busy(s, id, r) && Calm(s, id)
    ensures var t := s.agents[r].phase.task;
      Several(s, r, SUCCESS, 5) == Standing(AfterReport(s, t, "output"), r, Cleared(t))
  {
    hide AgentSection, Well, AfterReport, Standing, WellFormed, Count, Room;
    var t := s.agents[r].phase.task;
    AsStanding(s, r);
    ReportSections(s, r, t);
    var s1 := AfterReport(s, t, "output");
    WellBoard(s);
    ReportRest(s, t, "output");
    ReportKeepsTask(s, t, "output");
    NextHasRoom(s, id, r);
    GateSections(s1, r, t);
  }

  lemma ReportSections(s: State, r: Role, t: Task)
    ensures Several(Standing(s, r, Running(t)), r, SUCCESS, 5)
      == Several(Standing(AfterReport(s, t, "output"), r, Verifying(t)), r, SUCCESS, 3)
  {
    hide AgentSection, Perform, WriteBoard, WriteStore;
    BoardSection(s, SetOutput(t.id, "output"));
    var s1 := s.(board := WriteBoard(s.board, SetOutput(t.id, "output")).0);
    SectionStands(s, r, Running(t), SUCCESS, Writing(SetOutput(t.id, "output")), Reported(t));
    StoreSection(s1, SaveBoardCopy(t.id));
    SectionStands(s1, r, Reported(t), SUCCESS, Saving(SaveBoardCopy(t.id)), Verifying(t));
    var a, b, c := Standing(s, r, Running(t)), Standing(s1, r, Reported(t)), Standing(AfterReport(s, t, "output"), r, Verifying(t));
    assert Several(a, r, SUCCESS, 5) == Several(b, r, SUCCESS, 4);
    assert Several(b, r, SUCCESS, 4) == Several(c, r, SUCCESS, 3);
  }

  lemma GateSections(s: State, r: Role, t: Task)
    requires Count(s.board, Target(r)) == 0 && s.limits == map[]
    ensures Several(Standing(s, r, Verifying(t)), r, SUCCESS, 3) == Standing(s, r, Cleared(t))
  {
    hide AgentSection, Perform, Count;
    NoChange(s);
    SectionStands(s, r, Verifying(t), SUCCESS, NOTHING, Gated(t));
    SectionStands(s, r, Gated(t), SUCCESS, NOTHING, Counted(t, 0));
    SectionStands(s, r, Counted(t, 0), SUCCESS, NOTHING, Cleared(t));
    var a, b, c := Standing(s, r, Verifying(t)), Standing(s, r, Gated(t)), Standing(s, r, Counted(t, 0));
    assert Several(a, r, SUCCESS, 3) == Several(b, r, SUCCESS, 2);
    assert Several(b, r, SUCCESS, 2) == Several(c, r, SUCCESS, 1);
    assert Several(c, r, SUCCESS, 1) == Several(Standing(s, r, Cleared(t)), r, SUCCESS, 0);
  }

  /** The prioritizer asks about its task: the question is filed as `item`, announced, not yet flagged. */
  function Asking3(s: State, r: Role, t: Task, item: Id, question: string): State {
    Standing(s.(reviews := s.reviews[item := PersistedItem(item, t.id, AgentQuestion(question), question, 0, [])],
                used := s.used + {item}, events := s.events + [AgentBlocked(t.id, r, question)]),
             r, Flagging(t, question))
  }

  function BlockedResult(item: Id, question: string): Input {
    SUCCESS.(result := RunBlocked(question), newId := item)
  }

  lemma AskSections(s: State, r: Role, t: Task, item: Id, question: string)
    requires item !in s.used
    ensures Several(Standing(s, r, Running(t)), r, BlockedResult(item, question), 3) == Asking3(s, r, t, item, question)
  {
    hide AgentSection, Perform;
    var x := BlockedResult(item, question);
    var p := PersistedItem(item, t.id, AgentQuestion(question), question, 0, []);
    NoChange(s);
    SectionStands(s, r, Running(t), x, NOTHING, Asking(t, question));
    FilingSection(s, p);
    SectionStands(s, r, Asking(t, question), x, Filing(p), Asked(t, question));
    var s1 := s.(reviews := s.reviews[item := p], used := s.used + {item});
    EventSection(s1, AgentBlocked(t.id, r, question));
    SectionStands(s1, r, Asked(t, question), x, Emitting(AgentBlocked(t.id, r, question)), Flagging(t, question));
    var a, b, c := Standing(s, r, Running(t)), Standing(s, r, Asking(t, question)), Standing(s1, r, Asked(t, question));
    assert Several(a, r, x, 3) == Several(b, r, x, 2);
    assert Several(b, r, x, 2) == Several(c, r, x, 1);
    assert Several(c, r, x, 1) == Several(Asking3(s, r, t, item, question), r, x, 0);
  }

  /**
   * A run that ends with the prioritizer between announcing its question and raising its flag, and the
   * question in the queue, where a human can answer it: that answer will be lost.
   */
  lemma EarlyAnswerIsPossible(id: Id, title: string, priority: Priority, item: Id, question: string) returns (run: seq<Action>)
    requires id != "" && item != "" && item != id
    ensures var s := Exec(FRESH, run);
      AgentOf(s, Prioritizer).phase.Flagging? && Answered(s, item) == Some(Prioritizer)
  {
    hide Exec, Alone, Working, Several, Apply, Answered, Asking3;
    run := ReachPrioritizing(id, title, priority);
    var s := Exec(FRESH, run);
    var x := BlockedResult(item, question);
    var more := Repeated(AgentStep(Prioritizer, x), 3);
    SeveralIsRun(s, Prioritizer, x, 3);
    ExecConcat(FRESH, run, more);
    var s1 := Exec(s, more);
    run := run + more;
    AsksFirst(s, id, item, question);
    ExecOne(FRESH, run, WholeEvent(SUCCESS.(queueId := item)));
    run := run + [WholeEvent(SUCCESS.(queueId := item))];
  }

  lemma AsksFirst(s: State, id: Id, item: Id, question: string)
    requires Working(s, id, Prioritizer) && item != "" && item != id
    ensures var s' := Apply(Several(s, Prioritizer, BlockedResult(item, question), 3), WholeEvent(SUCCESS.(queueId := item)));
      AgentOf(s', Prioritizer).phase.Flagging? && Answered(s', item) == Some(Prioritizer)
  {
    hide Several, Well, Apply, Answered, Enqueue, BlockedResult;
    var t := s.agents[Prioritizer].phase.task;
    AsStanding(s, Prioritizer);
    AskSections(s, Prioritizer, t, item, question);
    var s1 := Asking3(s, Prioritizer, t, item, question);
    QuestionHandled(s1, id, item, question);
    OnlyItem(ReviewItem(item, id, AgentQuestion(question), question, 0));
    AnsweredBy(Apply(s1, WholeEvent(SUCCESS.(queueId := item))), ReviewItem(item, id, AgentQuestion(question), question, 0));
  }

  lemma QuestionHandled(s: State, id: Id, item: Id, question: string)
    requires s.loop.Listening? && s.events == [AgentBlocked(id, Prioritizer, question)] && "" !in s.used && s.queue == []
    ensures var s' := Apply(s, WholeEvent(SUCCESS.(queueId := item)));
      && s'.queue == Enqueue([], ReviewItem(item, id, AgentQuestion(question), question, 0))
      && s'.board == s.board && s'.agents == s.agents
  {
    hide FinishEvent, HandleEvent, AtomicEvent;
    EventIsAtomic(s, SUCCESS.(queueId := item));
    QuestionQueued(s, SUCCESS.(queueId := item), id, question);
  }

  lemma QuestionQueued(s: State, x: Input, id: Id, question: string)
    requires s.loop.Listening? && s.events == [AgentBlocked(id, Prioritizer, question)] && x.newId !in s.used
    ensures var s' := AtomicEvent(s, x);
      && s'.queue == Enqueue(s.queue, ReviewItem(x.queueId, id, AgentQuestion(question), question, x.now))
      && s'.board == s.board && s'.agents == s.agents && s'.reviews == s.reviews
  {
    hide Enqueue, AfterStageChange, WriteSignal;
    assert s.events[0] == AgentBlocked(id, Prioritizer, question);
  }

  lemma OnlyItem(q: ReviewItem)
    ensures Enqueue([], q) == [q] && Dequeue([q], q.id).1 == Some(q)
  {
    assert FirstWithId([q], q.id) == 0;
  }

  lemma AnsweredBy(s: State, q: ReviewItem)
    requires s.queue == [q] && q.kind.AgentQuestion? && q.taskId in s.board.tasks
    requires Dequeue([q], q.id).1 == Some(q) && s.board.tasks[q.taskId].Column() == Prioritized
    ensures Answered(s, q.id) == Some(Prioritizer)
  {
    hide Dequeue;
  }

  /**
   * A run that ends with an approved item resolved in the store and a discussion pending that will
   * write it back unresolved.
   */
  lemma StaleDiscussionIsReached(id: Id, title: string, priority: Priority, item: Id, content: string)
    returns (run: seq<Action>)
    requires id != "" && item != "" && item != id
    ensures var s := Exec(FRESH, run); ItemsFiled(s) && Resolved(s, item) && StalePending(s, item)
  {
    hide Exec, Alone, Poised, Apply, ItemsFiled, Resolved, StalePending;
    run := ReachCodingBuffer(id, title, priority);
    var s := Exec(FRESH, run);
    var x := SUCCESS.(newId := item, queueId := item);
    ExecOne(FRESH, run, WholeEvent(x));
    run := run + [WholeEvent(x)];
    ItemFiled(s, id, item);
    var s1 := Apply(s, WholeEvent(x));
    var y := SUCCESS.(pick := item);
    ExecOne(FRESH, run, Begin(0, OpDiscuss(id, content), y));
    run := run + [Begin(0, OpDiscuss(id, content), y)];
    var s2 := Apply(s1, Begin(0, OpDiscuss(id, content), y));
    ExecOne(FRESH, run, Whole(OpApprove(id), y));
    run := run + [Whole(OpApprove(id), y)];
    DiscussedThenApproved(s1, id, item, content);
  }

  /** The buffer's item is stored, unresolved, under its own id. */
  ghost predicate ItemWaits(s: State, id: Id, item: Id) {
    && WellFormed(s.board) && BufferOf(s.board, id).Some? && s.calls == map[]
    && ItemsFiled(s) && Candidate(s.reviews, id, item) && item in s.used
  }

  lemma ItemFiled(s: State, id: Id, item: Id)
    requires Alone(s, id, CodingBuffer) && item != id && item != ""
    requires s.events == [StageChanged(id, Designing, CodingBuffer), AgentCompleted(id, Designer)]
    ensures var s' := Apply(s, WholeEvent(SUCCESS.(newId := item, queueId := item)));
      && Poised(s', id, CodingBuffer) && ItemWaits(s', id, item)
      && s'.reviews.Keys == {item} && s'.board == s.board && s'.store == s.store && s'.agents == s.agents
      && s'.events == [AgentCompleted(id, Designer)] && s'.used == {id, item} && s'.limits == map[] && s'.waiting == map[]
  {
    hide Apply, Well, WellFormed, BufferOf, IsUnresolved;
    Filed1(s, id, CodingBuffer, CodingBuffer, item);
    WellBoard(s);
    InBuffer(s.board, id, CodingBuffer);
    assert s.events[1..] == [AgentCompleted(id, Designer)];
  }

  lemma DiscussedThenApproved(s: State, id: Id, item: Id, content: string)
    requires ItemWaits(s, id, item)
    ensures var y := SUCCESS.(pick := item);
      var s2 := Apply(s, Begin(0, OpDiscuss(id, content), y));
      var s3 := Apply(s2, Whole(OpApprove(id), y));
      ItemsFiled(s3) && Resolved(s3, item) && StalePending(s3, item)
  {
    hide Apply, WellFormed, BufferOf, AfterDecision, IsUnresolved, FindUnresolved;
    var y := SUCCESS.(pick := item);
    DiscussionReads(s, 0, id, content, y);
    DiscussionBegins(s, id, content, y);
    var s2 := Apply(s, Begin(0, OpDiscuss(id, content), y));
    PickIsFound(s, id, item);
    ApprovalStep(s2, id, y);
    var d := Approved(Next(BufferOf(s.board, id).value).value);
    DecisionResolves(s2, id, d, y);
    DecisionGains(s2, id, d, y);
    ActionsResolve(s.reviews[item], ActionOf(d, y.now));
    var s3 := AfterDecision(s2, id, d, y);
    assert 0 in s3.calls && HoldsStale(s3.calls[0], item);
  }

  lemma PickIsFound(s: State, id: Id, item: Id)
    requires Candidate(s.reviews, id, item)
    ensures FindUnresolved(s.reviews, id, item) == Some(s.reviews[item])
  {
  }

  /** A run that ends with a blocked agent's question stored once and queued twice. */
  lemma TwiceQueuedIsReached(id: Id, title: string, priority: Priority, item: Id, question: string) returns (run: seq<Action>)
    requires id != "" && item != "" && item != id
    ensures var s := Exec(FRESH, run); QueuedFor(s.queue, id) == 2 && |OpenFor(s.reviews, id)| == 1
  {
    hide Exec, Alone, Working, FinishAgent, Apply, QueuedFor, OpenFor, BlockedResult;
    run := ReachPrioritizing(id, title, priority);
    var s := Exec(FRESH, run);
    var more := AgentRun(s, Prioritizer, BlockedResult(item, question), 8);
    ExecConcat(FRESH, run, more);
    run := run + more;
    AsksAll(s, id, item, question);
    var s1 := FinishAgent(s, Prioritizer, BlockedResult(item, question), true, 8);
    QueuedTwice(s1, id, item, question);
    ExecOne(FRESH, run, WholeEvent(SUCCESS));
    run := run + [WholeEvent(SUCCESS)];
  }

  /** The question is filed, queued and announced; the prioritizer rests. */
  ghost predicate Asked1(s: State, id: Id, item: Id, question: string) {
    && s.loop.Listening? && s.events == [AgentBlocked(id, Prioritizer, question)] && s.used == {id, item}
    && s.queue == Enqueue([], ReviewItem("", id, AgentQuestion(question), question, 0))
    && s.reviews == map[item := PersistedItem(item, id, AgentQuestion(question), question, 0, [])]
  }

  lemma AsksAll(s: State, id: Id, item: Id, question: string)
    requires Working(s, id, Prioritizer) && item != "" && item != id
    ensures Asked1(FinishAgent(s, Prioritizer, BlockedResult(item, question), true, 8), id, item, question)
  {
    hide FinishAgent, Well, Enqueue;
    AsStanding(s, Prioritizer);
    ResultIsAtomic(s, Prioritizer, s.agents[Prioritizer].phase.task, BlockedResult(item, question), true);
  }

  lemma QueuedTwice(s: State, id: Id, item: Id, question: string)
    requires Asked1(s, id, item, question) && id != "" && item != ""
    ensures var s' := Apply(s, WholeEvent(SUCCESS)); QueuedFor(s'.queue, id) == 2 && |OpenFor(s'.reviews, id)| == 1
  {
    hide FinishEvent, HandleEvent, AtomicEvent, Enqueue, QueuedFor;
    EventIsAtomic(s, SUCCESS);
    var q := ReviewItem("", id, AgentQuestion(question), question, 0);
    QuestionQueued(s, SUCCESS, id, question);
    QueuedAfterEnqueue([], q, id);
    QueuedAfterEnqueue(s.queue, q, id);
    assert QueuedFor([], id) == 0 by { NoneQueued([], id); }
    assert OpenFor(s.reviews, id) == {item};
  }

  /** A run that ends with a task listed in Coding, approved, whose record an edit has set back. */
  lemma LostApprovalIsReached(id: Id, title: string, priority: Priority) returns (run: seq<Action>)
    requires id != ""
    ensures var b := Exec(FRESH, run).board;
      id in Ids(b, Coding) && id in b.tasks && b.tasks[id].history == [] && b.tasks[id].Column() != Coding
  {
    hide Exec, Alone, Apply, Inv, BufferOf;
    run := ReachCodingBuffer(id, title, priority);
    var s := Exec(FRESH, run);
    AloneInBuffer(s, id, CodingBuffer);
    AloneIsStored(s, id, CodingBuffer);
    EditUndoesApproval(s, id, title, SUCCESS);
    var more := [Begin(0, OpUpdate(id, title), SUCCESS), Whole(OpApprove(id), SUCCESS), Continue(0, SUCCESS), Continue(0, SUCCESS)];
    ExecConcat(FRESH, run, more);
    run := run + more;
  }

  lemma AloneIsStored(s: State, id: Id, c: Column)
    requires Alone(s, id, c)
    ensures Owned(s) && 0 !in s.calls && id in s.store && s.store[id].history == []
  {
    hide Inv, AllOwnRight;
    assert id in s.store;
    StoredIsShown(s, id);
  }

  // ── A decision that lands on a task in work ───────────────────────────────

  lemma {:induction false} FinishPlaced(s: State, r: Role, x: Input, fuel: nat)
    requires Placed(s)
    ensures Placed(FinishAgent(s, r, x, true, fuel)) && FinishAgent(s, r, x, true, fuel).calls == s.calls
    decreases fuel
  {
    hide AgentSection, Placed;
    var y := if AgentOf(s, r).phase.Retrying? then x.(pass := true) else x;
    AgentPlaced(s, r, y);
    SectionsKeepCalls(s, r, OpApprove(""), SignallingBlock, y);
    var s1 := AgentSection(s, r, y);
    if !(fuel == 0 || AgentOf(s1, r).phase.Idle? || AgentOf(s1, r).phase.Running?) {
      FinishPlaced(s1, r, x, fuel - 1);
    }
  }

  /** Approved into Coding and about to be picked there, while a rejection begun before is pending. */
  ghost predicate Contested(s: State, id: Id, call: Call) {
    && Placed(s) && s.calls == map[0 := call]
    && WellFormed(s.board) && s.board.tasks.Keys == {id} && s.board.tasks[id].id == id
    && s.board.tasks[id].Column() == Coding && s.board.tasks[id].blockedBy == []
    && AgentOf(s, Coder).phase.Idle? && AgentOf(s, Coder).permit && !AgentOf(s, Coder).blocked
  }

  lemma ApprovedAnyway(s: State, id: Id, feedback: string)
    requires Alone(s, id, CodingBuffer)
    ensures var s1 := Apply(s, Begin(0, OpRejectTo(id, Designing, feedback), SUCCESS));
      Contested(Apply(s1, Whole(OpApprove(id), SUCCESS)), id, Deciding(id, Rejected(Designing, feedback)))
  {
    hide Apply, Inv, BufferOf, AllOwnRight, StoreFollows, Placed, AfterDecision, WellFormed;
    var call := Deciding(id, Rejected(Designing, feedback));
    AloneInBuffer(s, id, CodingBuffer);
    OwnedIsPlaced(s);
    var s1 := s.(calls := map[0 := call]);
    RejectionBegins(s, id, feedback);
    StepPlaced(s, Begin(0, OpRejectTo(id, Designing, feedback), SUCCESS));
    ApprovalStep(s1, id, SUCCESS);
    NobodyOwns(s1, Whole(OpApprove(id), SUCCESS));
    StepPlaced(s1, Whole(OpApprove(id), SUCCESS));
    BoardIsWell(s);
    ApprovedState(s1, id);
  }

  lemma RejectionBegins(s: State, id: Id, feedback: string)
    requires BufferOf(s.board, id).Some? && s.calls == map[]
    ensures var a := Begin(0, OpRejectTo(id, Designing, feedback), SUCCESS);
      Apply(s, a) == s.(calls := map[0 := Deciding(id, Rejected(Designing, feedback))]) && !Displaces(s, a)
  {
    hide Perform, BufferOf;
    NoChange(s);
  }

  /** Where every agent rests no call can take a task in work away. */
  lemma NobodyOwns(s: State, a: Action)
    requires forall r :: AtRest(AgentIn(s.agents, r))
    ensures !Displaces(s, a)
  {
    hide StepWrite;
  }

  lemma ApprovedState(s: State, id: Id)
    requires WellFormed(s.board) && BufferOf(s.board, id) == Some(CodingBuffer) && s.board.tasks.Keys == {id}
    requires s.board.tasks[id].blockedBy == [] && AtRest(AgentOf(s, Coder))
    ensures var s' := AfterDecision(s, id, Approved(Coding), SUCCESS);
      && s'.calls == s.calls && WellFormed(s'.board) && s'.board.tasks.Keys == {id} && s'.board.tasks[id].id == id
      && s'.board.tasks[id].Column() == Coding && s'.board.tasks[id].blockedBy == []
      && AgentOf(s', Coder).phase.Idle? && AgentOf(s', Coder).permit && !AgentOf(s', Coder).blocked
  {
    hide DecideOn, BufferOf, WellFormed, FindUnresolved, DequeueByTask, WriteStore;
    BufferIsColumn(s.board, id);
    WriteBoardEffect(s.board, Decide(id, Approved(Coding), SUCCESS.now));
  }

  lemma CoderTakesIt(s: State, id: Id, call: Call)
    requires Contested(s, id, call)
    ensures var s' := FinishAgent(s, Coder, SUCCESS, true, 4);
      && Placed(s') && s'.calls == s.calls && AgentOf(s', Coder).phase.Running? && AgentOf(s', Coder).phase.task.id == id
  {
    hide FinishAgent, NextUnblocked, Placed, AfterWake, WellFormed;
    WakeIsAtomic(s, Coder, SUCCESS, true);
    FinishPlaced(s, Coder, SUCCESS, 4);
    PickIsBestReady(s.board, Coding);
    assert Ready(s.board, s.board.tasks[id]);
    WakeTakes(s, Coder, id);
  }

  /**
   * A run that ends with the coder working on a task and a rejection of that task pending, begun before
   * it was approved: its next section takes the task in work away, so ownership needs that no such call lands.
   */
  lemma DisplacementIsReached(id: Id, title: string, priority: Priority, feedback: string) returns (run: seq<Action>)
    requires id != ""
    ensures var s := Exec(FRESH, run); Placed(s) && Displaces(s, Continue(0, SUCCESS))
  {
    hide Exec, Alone, Apply, FinishAgent, Placed, Contested;
    run := ReachCodingBuffer(id, title, priority);
    var s := Exec(FRESH, run);
    var begin, approve := Begin(0, OpRejectTo(id, Designing, feedback), SUCCESS), Whole(OpApprove(id), SUCCESS);
    ApprovedAnyway(s, id, feedback);
    var call := Deciding(id, Rejected(Designing, feedback));
    ExecOne(FRESH, run, begin);
    ExecOne(FRESH, run + [begin], approve);
    run := run + [begin] + [approve];
    s := Apply(Apply(s, begin), approve);
    CoderTakesIt(s, id, call);
    var more := AgentRun(s, Coder, SUCCESS, 4);
    ExecConcat(FRESH, run, more);
    run := run + more;
    ContestedCall(s, id, call);
    LandsOnWork(FinishAgent(s, Coder, SUCCESS, true, 4), id, feedback);
  }

  lemma ContestedCall(s: State, id: Id, call: Call)
    requires Contested(s, id, call)
    ensures s.calls == map[0 := call]
  {
  }

  lemma LandsOnWork(s: State, id: Id, feedback: string)
    requires s.calls == map[0 := Deciding(id, Rejected(Designing, feedback))]
    requires AgentOf(s, Coder).phase.Running? && AgentOf(s, Coder).phase.task.id == id
    ensures Displaces(s, Continue(0, SUCCESS))
  {
    hide DecideOn;
    assert WorkColumn(Coder) != Designing;
  }
}
