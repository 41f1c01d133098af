/**
 * The block and answer protocol: a role that has blocked starts no task, whatever signals arrive,
 * until an answer reaches it; the task it blocked on stays in its column; and an answer wakes
 * exactly the role whose column holds the task the question is about.
 */
module Blocking {
  import opened Options
  import opened Columns
  import opened Kanban
  import opened ReviewQueues
  import opened Reviews
  import opened Protocol
  import opened Atomic
  import opened Effects
  import opened Gates
  import opened Wip
  import opened Steps
  import opened Ownership
  import opened Placement

  /** A blocked agent is filing its question or resting before the point where it looks at its flag. */
  predicate FlagHeeded(a: Agent) {
    a.blocked ==> a.phase.FilingItem? || a.phase.Idle? || a.phase.Woken?
  }

  ghost predicate FlagsHeeded(agents: map<Role, Agent>) {
    forall r :: FlagHeeded(AgentIn(agents, r))
  }

  predicate Blocked(s: State, r: Role) {
    AgentOf(s, r).blocked
  }

  /** The role an answer to a queued item reaches: that of the column of the question's task. */
  function Answered(s: State, itemId: Id): Option<Role> {
    var taken := Dequeue(s.queue, itemId).1;
    if taken.Some? && taken.value.kind.AgentQuestion? && taken.value.taskId in s.board.tasks
    then RoleOf(s.board.tasks[taken.value.taskId].Column()) else None
  }

  /** The actions that deliver an answer to the role, or start everything afresh. */
  ghost predicate Releases(s: State, a: Action, r: Role) {
    || a.Restart?
    || (a.Continue? && a.pid in s.calls && s.calls[a.pid].Unblocking? && s.calls[a.pid].role == r)
    || (a.Whole? && a.op.OpAnswer? && Answered(s, a.op.itemId) == Some(r))
  }

  // ── Sections ──────────────────────────────────────────────────────────────

  /** Only permits change, and flags are lowered at most. */
  ghost predicate OnlySignals(agents: map<Role, Agent>, agents': map<Role, Agent>) {
    forall q :: AgentIn(agents', q).phase == AgentIn(agents, q).phase
                && AgentIn(agents', q).blocked == AgentIn(agents, q).blocked
  }

  lemma SignalOnly(agents: map<Role, Agent>, signal: Option<Role>)
    ensures OnlySignals(agents, WriteSignal(agents, signal))
  {
  }

  lemma SignalsHeeded(agents: map<Role, Agent>, agents': map<Role, Agent>)
    requires FlagsHeeded(agents) && OnlySignals(agents, agents')
    ensures FlagsHeeded(agents')
  {
    forall q ensures FlagHeeded(AgentIn(agents', q)) {
      assert FlagHeeded(AgentIn(agents, q));
    }
  }

  /** An agent's own section heeds the flag and never lowers it. */
  lemma OwnSection(s: State, r: Role, x: Input)
    requires FlagHeeded(AgentOf(s, r))
    ensures var a := AgentAfter(AgentOf(s, r), AgentChange(s, r, x).1);
      FlagHeeded(a) && (AgentOf(s, r).blocked ==> a.blocked)
  {
    hide NextUnblocked;
  }

  lemma AgentHeeds(s: State, r: Role, x: Input, q: Role)
    requires FlagsHeeded(s.agents)
    ensures FlagsHeeded(AgentSection(s, r, x).agents)
    ensures Blocked(s, q) ==> Blocked(AgentSection(s, r, x), q)
  {
    hide AgentChange, Perform, FlagHeeded;
    assert FlagHeeded(AgentIn(s.agents, r));
    OwnSection(s, r, x);
    forall p ensures FlagHeeded(AgentIn(AgentSection(s, r, x).agents, p)) {
      assert FlagHeeded(AgentIn(s.agents, p));
    }
  }

  lemma LoopSignals(s: State, x: Input)
    ensures OnlySignals(s.agents, LoopSection(s, x).agents)
  {
    hide LoopChange, WriteBoard, WriteStore, WriteQueue;
    SignalOnly(s.agents, LoopChange(s, x).0.signal);
  }

  lemma {:induction false} EventSignals(s: State, x: Input, fuel: nat)
    ensures OnlySignals(s.agents, FinishEvent(s, x, fuel).agents)
    decreases fuel
  {
    hide LoopSection;
    LoopSignals(s, x);
    var s1 := LoopSection(s, x);
    if !s1.loop.Listening? && fuel > 0 {
      EventSignals(s1, x, fuel - 1);
    }
  }

  lemma BeginSignals(s: State, op: Op, x: Input)
    ensures OnlySignals(s.agents, BeginSection(s, op, x).0.agents)
  {
    hide BeginChange, WriteBoard, WriteStore, WriteQueue;
    SignalOnly(s.agents, BeginChange(s, op, x).0.signal);
  }

  /** A later section lowers a flag only if it delivers an answer, and then only the addressee's. */
  lemma ContinueHeeds(s: State, call: Call, x: Input, q: Role)
    requires FlagsHeeded(s.agents)
    ensures FlagsHeeded(ContinueSection(s, call, x).0.agents)
    ensures Blocked(s, q) && !(call.Unblocking? && call.role == q) ==> Blocked(ContinueSection(s, call, x).0, q)
  {
    hide ContinueChange, WriteBoard, WriteStore, WriteQueue, FlagHeeded;
    var agents := WriteSignal(s.agents, ContinueChange(s, call, x).0.signal);
    SignalOnly(s.agents, ContinueChange(s, call, x).0.signal);
    SignalsHeeded(s.agents, agents);
    DeliverHeeds(agents, call);
  }

  lemma DeliverHeeds(agents: map<Role, Agent>, call: Call)
    requires FlagsHeeded(agents)
    ensures FlagsHeeded(Deliver(agents, call))
  {
    forall p ensures FlagHeeded(AgentIn(Deliver(agents, call), p)) {
      assert FlagHeeded(AgentIn(agents, p));
    }
  }

  lemma {:induction false} FinishHeeds(s: State, call: Call, x: Input, fuel: nat)
    requires FlagsHeeded(s.agents)
    ensures FlagsHeeded(Finish(s, call, x, fuel).agents)
    decreases fuel
  {
    hide ContinueSection, FlagsHeeded;
    ContinueHeeds(s, call, x, Coder);
    var (s1, next) := ContinueSection(s, call, x);
    if next.Some? && fuel > 0 {
      FinishHeeds(s1, next.value, x, fuel - 1);
    }
  }

  lemma CallHeeds(s: State, op: Op, x: Input)
    requires FlagsHeeded(s.agents)
    ensures FlagsHeeded(RunCall(s, op, x).agents)
  {
    hide BeginSection, Finish, FlagsHeeded;
    var (s1, next) := BeginSection(s, op, x);
    BeginSignals(s, op, x);
    SignalsHeeded(s.agents, s1.agents);
    if next.Some? { FinishHeeds(s1, next.value, x, CALL_SECTIONS); }
  }

  // ── What an answer does ───────────────────────────────────────────────────

  /**
   * An answer to a queued question wakes exactly the role whose column holds the question's task:
   * its slot is filled, its flag lowered, its permit set; every other agent, the board and the task
   * store stay as they are, the item leaves the queue, and the stored item with its id, if any, is answered.
   */
  lemma AnswerEffect(s: State, itemId: Id, answer: string, x: Input)
    ensures var s' := RunCall(s, OpAnswer(itemId, answer), x); var r := Answered(s, itemId);
      && s'.board == s.board && s'.store == s.store && s'.queue == Dequeue(s.queue, itemId).0
      && (r.None? ==> s'.agents == s.agents)
      && (r.Some? ==> s'.agents == s.agents[r.value := AgentOf(s, r.value).(answer := Some(answer), blocked := false, permit := true)])
      && (r.Some? && itemId in s.reviews && s.reviews[itemId].id == itemId ==>
            s'.reviews == s.reviews[itemId := Append(s.reviews[itemId], Answer(x.now, answer))])
  {
    hide RunCall, Atomically, Dequeue, AfterAnswer, Append, RoleOf;
    WholeIsAtomic(s, OpAnswer(itemId, answer), x);
    AnswerIs(s, itemId, answer, x);
    TakenHasId(s.queue, itemId);
    var (q, taken) := Dequeue(s.queue, itemId);
    if taken.Some? && taken.value.kind.AgentQuestion? { DeliveryEffect(s.(queue := q), taken.value, answer, x.now); }
  }

  lemma AnswerIs(s: State, itemId: Id, answer: string, x: Input)
    ensures var (q, taken) := Dequeue(s.queue, itemId);
      Atomically(s, OpAnswer(itemId, answer), x)
      == if taken.Some? && taken.value.kind.AgentQuestion? then AfterAnswer(s.(queue := q), taken.value, answer, x.now)
         else s.(queue := q)
  {
    hide Dequeue, AfterAnswer;
  }

  lemma DeliveryEffect(s: State, item: ReviewItem, answer: string, now: int)
    ensures var s' := AfterAnswer(s, item, answer, now);
      var r := if item.taskId in s.board.tasks then RoleOf(s.board.tasks[item.taskId].Column()) else None;
      && s'.board == s.board && s'.store == s.store && s'.queue == s.queue
      && (r.None? ==> s'.agents == s.agents)
      && (r.Some? ==> s'.agents == s.agents[r.value := AgentOf(s, r.value).(answer := Some(answer), blocked := false, permit := true)])
      && (item.id in s.reviews && s.reviews[item.id].id == item.id ==>
            s'.reviews == s.reviews[item.id := Append(s.reviews[item.id], Answer(now, answer))])
  {
    hide RoleOf;
  }

  lemma TakenHasId(q: Queue, itemId: Id)
    ensures Dequeue(q, itemId).1.Some? ==> Dequeue(q, itemId).1.value.id == itemId
  {
  }

  /** The role that is waiting is reached exactly when the task of the question is in its column. */
  lemma AnswerReachesColumn(s: State, itemId: Id, answer: string, x: Input, r: Role)
    requires Blocked(s, r)
    ensures !Blocked(RunCall(s, OpAnswer(itemId, answer), x), r) <==>
      var taken := Dequeue(s.queue, itemId).1;
      taken.Some? && taken.value.kind.AgentQuestion? && taken.value.taskId in s.board.tasks
      && s.board.tasks[taken.value.taskId].Column() == WorkColumn(r)
  {
    hide RunCall, Dequeue;
    AnswerEffect(s, itemId, answer, x);
    var taken := Dequeue(s.queue, itemId).1;
    if taken.Some? && taken.value.kind.AgentQuestion? && taken.value.taskId in s.board.tasks {
      FeedersAreUnique(s.board.tasks[taken.value.taskId].Column(), r, r);
    }
  }

  /** After the answer an idle role wakes and looks at its column in its next three sections. */
  lemma AnsweredRoleLooks(s: State, itemId: Id, answer: string, x: Input, r: Role)
    requires Answered(s, itemId) == Some(r) && AgentOf(s, r).phase.Idle?
    ensures var s1 := RunCall(s, OpAnswer(itemId, answer), x);
      var s3 := AgentSection(AgentSection(s1, r, x), r, x);
      && AgentOf(s3, r).phase == Unblocked && !AgentOf(s3, r).permit && s3.board == s.board
      && AgentChange(s3, r, x).1 == (var pick := NextUnblocked(s.board, WorkColumn(r));
                                     if pick.Some? then Picked(pick.value) else Idle)
  {
    hide RunCall, Answered, NextUnblocked;
    AnswerEffect(s, itemId, answer, x);
    var s1 := RunCall(s, OpAnswer(itemId, answer), x);
    WakeUp(s1, r, x);
  }

  lemma WakeUp(s: State, r: Role, x: Input)
    requires AgentOf(s, r).phase.Idle? && AgentOf(s, r).permit && !AgentOf(s, r).blocked
    ensures var s2 := AgentSection(s, r, x); var s3 := AgentSection(s2, r, x);
      && AgentOf(s3, r).phase == Unblocked && !AgentOf(s3, r).permit && s3.board == s.board
  {
    NoChange(s);
    hide Perform;
    var s2 := AgentSection(s, r, x);
    NoChange(s2);
  }

  // ── Steps and runs ────────────────────────────────────────────────────────

  ghost function Unanswered(r: Role): (State, Action) -> bool {
    (s: State, a: Action) => !Releases(s, a, r)
  }

  lemma CallStaysBlocked(s: State, op: Op, x: Input, r: Role)
    requires Blocked(s, r) && (op.OpAnswer? ==> Answered(s, op.itemId) != Some(r))
    ensures Blocked(RunCall(s, op, x), r)
  {
    hide RunCall, Answered;
    if op.OpAnswer? { AnswerEffect(s, op.itemId, op.answer, x); }
    else { OtherCallSignals(s, op, x); }
  }

  lemma OtherCallSignals(s: State, op: Op, x: Input)
    requires !op.OpAnswer?
    ensures OnlySignals(s.agents, RunCall(s, op, x).agents)
  {
    hide RunCall, WriteSignal, DecideOn, BlockOn, SetPriority, Amend, AddTask, OnlySignals, Enqueue, FindUnresolved;
    WholeIsAtomic(s, op, x);
    SameAgents(s.agents);
    if op.OpBlock? { SignalOnly(s.agents, Some(Prioritizer)); }
    else if op.OpRejectTo? { SignalOnly(s.agents, RoleOf(op.target)); }
    else if op.OpApprove? || op.OpReject? {
      var c := BufferOf(s.board, op.id);
      BufferIsBuffer(s.board, op.id);
      if c.Some? { SignalOnly(s.agents, RoleOf(if op.OpApprove? then Next(c.value).value else Prev(c.value).value)); }
    }
  }

  lemma SameAgents(agents: map<Role, Agent>)
    ensures OnlySignals(agents, agents)
  {
  }

  lemma CallStepBlocked(s: State, a: Action, r: Role)
    requires FlagsHeeded(s.agents) && (a.Begin? || a.Continue?)
    ensures FlagsHeeded(Apply(s, a).agents)
    ensures Blocked(s, r) && !Releases(s, a, r) ==> Blocked(Apply(s, a), r)
  {
    hide BeginSection, ContinueSection, FlagsHeeded, OnlySignals;
    if a.Begin? && a.pid !in s.calls {
      BeginSignals(s, a.op, a.input);
      var s1 := BeginSection(s, a.op, a.input).0;
      SignalsHeeded(s.agents, s1.agents);
      SignalsKeepBlocked(s, s1, r);
    } else if a.Continue? && a.pid in s.calls {
      ContinueHeeds(s, s.calls[a.pid], a.input, r);
    }
  }

  lemma SignalsKeepBlocked(s: State, s': State, r: Role)
    requires OnlySignals(s.agents, s'.agents)
    ensures Blocked(s', r) == Blocked(s, r)
  {
  }

  lemma StepStaysBlocked(s: State, a: Action, r: Role)
    requires FlagsHeeded(s.agents)
    ensures FlagsHeeded(Apply(s, a).agents)
    ensures Blocked(s, r) && !Releases(s, a, r) ==> Blocked(Apply(s, a), r)
  {
    hide AgentSection, LoopSection, RunCall, FinishEvent, FlagsHeeded, OnlySignals, Answered, CanBoot, Boot, Blocked;
    if a.AgentStep? { AgentHeeds(s, a.role, a.input, r); }
    else if a.LoopStep? {
      LoopSignals(s, a.input);
      SignalsHeeded(s.agents, LoopSection(s, a.input).agents);
      SignalsKeepBlocked(s, LoopSection(s, a.input), r);
    } else if a.WholeEvent? {
      SameAgents(s.agents);
      EventSignals(s, a.input, EVENT_SECTIONS);
      SignalsHeeded(s.agents, HandleEvent(s, a.input).agents);
      SignalsKeepBlocked(s, HandleEvent(s, a.input), r);
    } else if a.Whole? {
      CallHeeds(s, a.op, a.input);
      if Blocked(s, r) && !Releases(s, a, r) { CallStaysBlocked(s, a.op, a.input, r); }
    } else if a.Begin? || a.Continue? { CallStepBlocked(s, a, r); }
    else if a.Restart? {
      if CanBoot(s, a.order, a.reviewOrder) { BootHeeds(s, a.order, a.reviewOrder, a.limits); }
    } else { SameFlags(s, Apply(s, a), r); }
  }

  lemma SameFlags(s: State, s': State, r: Role)
    requires s'.agents == s.agents
    ensures Blocked(s', r) == Blocked(s, r)
  {
  }

  lemma BootHeeds(s: State, order: seq<Id>, reviewOrder: seq<Id>, limits: map<Column, Priority>)
    requires CanBoot(s, order, reviewOrder)
    ensures FlagsHeeded(Boot(s, order, reviewOrder, limits).agents)
  {
    hide FromTasks, Rebuild;
  }

  /**
   * In every interleaving, restarts excepted, a blocked role stays blocked and runs no task until an
   * answer is delivered to it, however often it is signalled.
   */
  lemma {:induction false} BlockedStartsNothing(states: seq<State>, run: seq<Action>, k: nat, r: Role)
    requires Trace(states, run, Unanswered(r)) && FlagsHeeded(states[0].agents) && Blocked(states[0], r) && k < |states|
    ensures FlagsHeeded(states[k].agents) && Blocked(states[k], r)
    ensures var p := AgentOf(states[k], r).phase; p.Idle? || p.Woken? || p.FilingItem?
  {
    hide Trace, Apply, Releases;
    if k > 0 {
      BlockedStartsNothing(states, run, k - 1, r);
      LastStep(states, run, Unanswered(r), k);
      StepStaysBlocked(states[k - 1], run[k - 1], r);
    }
    assert FlagHeeded(AgentIn(states[k].agents, r));
  }

  // ── The task stays where it is ────────────────────────────────────────────

  /** The role is blocked and its column lists the task. */
  ghost predicate Parked(s: State, r: Role, id: Id) {
    FlagsHeeded(s.agents) && Blocked(s, r) && id in Ids(s.board, WorkColumn(r))
  }

  /** No call moves a task in work away, none moves this task, and no answer reaches the role. */
  ghost function LeftAlone(r: Role, id: Id): (State, Action) -> bool {
    (s: State, a: Action) => !Displaces(s, a) && !Retrieves(s, a, id) && !Releases(s, a, r)
  }

  lemma AgentKeepsParked(s: State, q: Role, x: Input, r: Role, id: Id)
    requires Placed(s) && Parked(s, r, id)
    ensures id in Ids(AgentSection(s, q, x).board, WorkColumn(r))
  {
    hide AgentSection, Placed, Ids;
    assert FlagHeeded(AgentIn(s.agents, r));
    FeedersAreUnique(Done, q, r);
    AgentLeavesListed(s, q, x, id, WorkColumn(r));
  }

  lemma StepKeepsParked(s: State, a: Action, r: Role, id: Id)
    requires Placed(s) && Parked(s, r, id) && LeftAlone(r, id)(s, a)
    ensures Parked(Apply(s, a), r, id)
  {
    hide AgentSection, Placed, Displaces, Retrieves, Releases, FlagsHeeded, Blocked, Ids, LeftAlone, Apply;
    LeftAloneMeans(s, a, r, id);
    StepStaysBlocked(s, a, r);
    if a.AgentStep? {
      AgentKeepsParked(s, a.role, a.input, r, id);
      AgentStepIs(s, a);
    } else {
      PlacedIsSingle(s);
      StepLeavesListed(s, a, id, WorkColumn(r));
    }
  }

  lemma AgentStepIs(s: State, a: Action)
    requires a.AgentStep?
    ensures Apply(s, a) == AgentSection(s, a.role, a.input)
  {
    hide AgentSection;
  }

  lemma PlacedIsSingle(s: State)
    requires Placed(s)
    ensures OneColumnEach(s.board)
  {
  }

  lemma LeftAloneMeans(s: State, a: Action, r: Role, id: Id)
    requires LeftAlone(r, id)(s, a)
    ensures !Displaces(s, a) && !Retrieves(s, a, id) && !Releases(s, a, r)
  {
  }

  /**
   * In every interleaving in which no call moves a task in work away: from the moment a role has blocked
   * on a task until an answer reaches the role or a call moves that task, it stays in the role's column.
   */
  lemma {:induction false} BlockedTaskStays(states: seq<State>, run: seq<Action>, k: nat, r: Role, id: Id)
    requires Trace(states, run, LeftAlone(r, id)) && Placed(states[0]) && Parked(states[0], r, id) && k < |states|
    ensures Placed(states[k]) && Parked(states[k], r, id)
  {
    hide Trace, Placed, Parked, Apply, LeftAlone, Displaces, Retrieves, Releases;
    if k > 0 {
      BlockedTaskStays(states, run, k - 1, r, id);
      LastStep(states, run, LeftAlone(r, id), k);
      LeftAloneMeans(states[k - 1], run[k - 1], r, id);
      StepPlaced(states[k - 1], run[k - 1]);
      StepKeepsParked(states[k - 1], run[k - 1], r, id);
    }
  }

  /** Raising the flag parks the task the agent was running. */
  lemma FlaggingParks(s: State, r: Role, x: Input)
    requires Placed(s) && FlagsHeeded(s.agents) && AgentOf(s, r).phase.Flagging?
    ensures Parked(AgentSection(s, r, x), r, AgentOf(s, r).phase.task.id)
  {
    hide AgentSection, OneColumnEach, KeysUsed, Ids, FlagsHeeded;
    assert AgentOf(s, r).phase.task.id in Ids(s.board, WorkColumn(r));
    AgentLeavesListed(s, r, x, AgentOf(s, r).phase.task.id, WorkColumn(r));
    AgentHeeds(s, r, x, r);
    FlagIsUp(s, r, x);
  }

  lemma FlagIsUp(s: State, r: Role, x: Input)
    requires AgentOf(s, r).phase.Flagging?
    ensures Blocked(AgentSection(s, r, x), r)
  {
    hide AgentChange, Perform;
  }
}
