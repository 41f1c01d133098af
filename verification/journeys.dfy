/**
 * Journeys of a task over the board, as runs of the machine: agents pick it up and pass it on section by
 * section, events are handled, humans approve.  Module Reachability puts them together.
 */
module Journeys {
  import opened Options
  import opened Columns
  import opened Kanban
  import opened ReviewQueues
  import opened Reviews
  import opened Protocol
  import opened Sections
  import opened Atomic
  import opened AgentRuns
  import opened Effects
  import opened Gates
  import opened Wip
  import opened Steps
  import opened Ownership
  import opened Restarts
  import opened Resolution

  /** What the outside world decides in these runs. */
  const SUCCESS: Input := Input("branch", RunSuccess("output"), true, "text", "", "", 0, "", false)

  // ── Runs ──────────────────────────────────────────────────────────────────

  /** What every undisturbed run from a fresh installation keeps. */
  ghost predicate Well(s: State) {
    Owned(s) && StoredAtWork(s)
  }

  lemma StepWell(s: State, a: Action)
    requires Well(s) && Undisturbed()(s, a)
    ensures Well(Apply(s, a))
  {
    hide Owned, StoredAtWork, Apply, StoredOutside, Undisturbed;
    StepOwned(s, a);
    AtWorkIsOutside(s);
    forall c | RoleOf(c).None? ensures StoredOutside(Apply(s, a), c) {
      StepStoresOutside(s, a, c);
    }
    AtWorkIsOutside(Apply(s, a));
  }

  lemma FreshIsWell()
    ensures Well(FRESH) && FRESH.board.tasks == map[]
  {
    FreshInv(Unchecked);
  }

  /** Steps that are no calls are always undisturbed, and so are calls that neither block nor edit. */
  lemma NothingDisturbs(s: State, a: Action)
    requires !a.Begin? && !a.Continue? && (a.Whole? ==> !a.op.OpBlock? && !a.op.OpUpdate?)
    ensures Undisturbed()(s, a)
  {
  }

  /** The agent's sections as actions of the machine. */
  lemma {:induction false} AgentRun(s: State, r: Role, x: Input, fuel: nat) returns (run: seq<Action>)
    ensures Exec(s, run) == FinishAgent(s, r, x, true, fuel)
    ensures Well(s) ==> Well(FinishAgent(s, r, x, true, fuel))
    decreases fuel
  {
    hide AgentSection, Exec, Well;
    var y := if AgentOf(s, r).phase.Retrying? then x.(pass := true) else x;
    var s1 := AgentSection(s, r, y);
    if Well(s) {
      NothingDisturbs(s, AgentStep(r, y));
      StepWell(s, AgentStep(r, y));
    }
    if fuel == 0 || AgentOf(s1, r).phase.Idle? || AgentOf(s1, r).phase.Running? {
      run := [AgentStep(r, y)];
      OneStep(s, AgentStep(r, y));
    } else {
      var rest := AgentRun(s1, r, x, fuel - 1);
      run := [AgentStep(r, y)] + rest;
      ExecFirst(s, AgentStep(r, y), rest);
    }
  }

  /** A string that is not in the set. */
  lemma FreshId(used: set<Id>) returns (id: Id)
    ensures id !in used && id != ""
  {
    var n := Longest(used);
    id := seq(n + 1, _ => 'x');
  }

  lemma Longest(used: set<Id>) returns (n: nat)
    ensures forall id :: id in used ==> |id| <= n
  {
    n := 0;
    var rest := used;
    while rest != {}
      invariant rest <= used && forall id :: id in used - rest ==> |id| <= n
      decreases rest
    {
      var id :| id in rest;
      if |id| > n { n := |id|; }
      rest := rest - {id};
    }
  }

  // ── Agents at rest and at work ────────────────────────────────────────────

  /** An agent at rest that has not blocked. */
  predicate AtRest(a: Agent) {
    a.phase.Idle? && !a.blocked
  }

  ghost predicate RestExcept(agents: map<Role, Agent>, r: Role) {
    forall q :: q != r ==> AtRest(AgentIn(agents, q))
  }

  ghost predicate AllRest(agents: map<Role, Agent>) {
    forall q :: AtRest(AgentIn(agents, q))
  }

  /** At most this role has its permit set. */
  ghost predicate OnlyTold(agents: map<Role, Agent>, r: Option<Role>) {
    forall q :: AgentIn(agents, q).permit ==> r == Some(q)
  }

  lemma NowWorking(agents: map<Role, Agent>, r: Role, a: Agent)
    requires AllRest(agents)
    ensures RestExcept(agents[r := a], r)
    ensures OnlyTold(agents, Some(r)) && !a.permit ==> OnlyTold(agents[r := a], None)
  {
    var agents' := agents[r := a];
    forall q | q != r ensures AtRest(AgentIn(agents', q)) && AgentIn(agents', q).permit == AgentIn(agents, q).permit {
      assert AtRest(AgentIn(agents, q));
    }
  }

  lemma NowResting(agents: map<Role, Agent>, r: Role, a: Agent)
    requires RestExcept(agents, r) && AtRest(a)
    ensures AllRest(agents[r := a])
    ensures OnlyTold(agents, None) && !a.permit ==> OnlyTold(agents[r := a], None)
  {
    var agents' := agents[r := a];
    forall q ensures AtRest(AgentIn(agents', q)) && (q != r ==> AgentIn(agents', q).permit == AgentIn(agents, q).permit) {
      assert q != r ==> AtRest(AgentIn(agents, q));
    }
  }

  lemma NowTold(agents: map<Role, Agent>, r: Role)
    requires AllRest(agents)
    ensures AllRest(WriteSignal(agents, Some(r))) && AgentIn(WriteSignal(agents, Some(r)), r).permit
    ensures OnlyTold(agents, None) || OnlyTold(agents, Some(r)) ==> OnlyTold(WriteSignal(agents, Some(r)), Some(r))
  {
    var agents' := WriteSignal(agents, Some(r));
    forall q ensures AtRest(AgentIn(agents', q)) && (q != r ==> AgentIn(agents', q).permit == AgentIn(agents, q).permit) {
      assert AtRest(AgentIn(agents, q));
    }
  }

  // ── Where the task is ─────────────────────────────────────────────────────

  /** Every agent rests, no call is pending and the loop listens. */
  ghost predicate Hushed(s: State) {
    Well(s) && AllRest(s.agents) && s.calls == map[] && s.loop.Listening? && "" !in s.used
  }

  /** The task is in column `c` without blockers, and nothing runs. */
  ghost predicate Poised(s: State, id: Id, c: Column) {
    && Hushed(s)
    && id in s.board.tasks && s.board.tasks[id].Column() == c && s.board.tasks[id].blockedBy == [] && id != ""
  }

  /** The same, except that role `r` runs its backend on the task, in its own column. */
  ghost predicate Busy(s: State, id: Id, r: Role) {
    && Well(s) && id in s.board.tasks && s.board.tasks[id].Column() == WorkColumn(r) && s.board.tasks[id].blockedBy == []
    && r in s.agents && s.agents[r].phase.Running? && s.agents[r].phase.task.id == id && !s.agents[r].blocked
    && RestExcept(s.agents, r) && s.calls == map[] && s.loop.Listening? && "" !in s.used && id != ""
  }

  /** Everything but the board, the store, the agents and the events is as it was. */
  ghost predicate SameElsewhere(s: State, s': State) {
    && s'.limits == s.limits && s'.waiting == s.waiting && s'.calls == s.calls && s'.loop == s.loop
    && s'.used == s.used && s'.queue == s.queue && s'.reviews == s.reviews
  }

  /** The same tasks, and the other tasks' records are the same. */
  ghost predicate Others(b: Board, b': Board, id: Id) {
    b'.tasks.Keys == b.tasks.Keys && forall x :: x in b.tasks && x != id ==> b'.tasks[x] == b.tasks[x]
  }

  /** The task's record is as it was in all that matters here but its stage. */
  ghost predicate SameTask(b: Board, b': Board, id: Id) {
    && Others(b, b', id) && id in b.tasks
    && b'.tasks[id].id == b.tasks[id].id && b'.tasks[id].blockedBy == b.tasks[id].blockedBy
    && b'.tasks[id].history == b.tasks[id].history
  }

  ghost predicate SamePlace(b: Board, b': Board, id: Id) {
    SameTask(b, b', id) && b'.tasks[id].stage == b.tasks[id].stage
  }

  /** No other task of the column is ready. */
  ghost predicate NoRival(b: Board, id: Id, c: Column) {
    forall x :: x in b.tasks && x != id && b.tasks[x].Column() == c ==> !Ready(b, b.tasks[x])
  }

  // ── An agent takes it on ──────────────────────────────────────────────────

  /** The only ready task of the column is picked. */
  lemma PicksIt(s: State, id: Id, c: Column)
    requires WellFormed(s.board) && id in s.board.tasks && s.board.tasks[id].Column() == c
    requires s.board.tasks[id].blockedBy == [] && NoRival(s.board, id, c)
    ensures NextUnblocked(s.board, c) == Some(s.board.tasks[id]) && s.board.tasks[id].id == id
  {
    hide NextUnblocked, WellFormed;
    PickIsBestReady(s.board, c);
    OwnId(s.board, id);
    assert Ready(s.board, s.board.tasks[id]);
  }

  function Taken(s: State, r: Role, t: Task): Agent {
    AgentOf(s, r).(permit := false, phase := Running(t))
  }

  lemma StandsAs(s: State, r: Role, a: Agent, phase: Phase)
    ensures Standing(s.(agents := s.agents[r := a]), r, phase) == s.(agents := s.agents[r := a.(phase := phase)])
  {
    assert s.agents[r := a][r := a.(phase := phase)] == s.agents[r := a.(phase := phase)];
  }

  lemma WakeIs(s: State, r: Role, t: Task)
    requires !AgentOf(s, r).blocked && NextUnblocked(s.board, WorkColumn(r)) == Some(t)
    ensures AfterWake(s, r, "branch") ==
      if t.branch.Some? then s.(agents := s.agents[r := Taken(s, r, t)])
      else s.(board := WriteBoard(s.board, SetBranch(t.id, "branch")).0,
              store := s.store[t.id := t.(branch := Some("branch"))], agents := s.agents[r := Taken(s, r, t)])
  {
    hide NextUnblocked, WriteBoard, Standing;
    var a := AgentOf(s, r).(permit := false, phase := Idle);
    StandsAs(s, r, a, Running(t));
    StandsAs(s.(board := WriteBoard(s.board, SetBranch(t.id, "branch")).0,
                store := s.store[t.id := t.(branch := Some("branch"))]), r, a, Running(t));
  }

  /** Waking on a ready task starts it, giving its record a branch if it has none. */
  lemma WakeTakes(s: State, r: Role, id: Id)
    requires !AgentOf(s, r).blocked && id in s.board.tasks && s.board.tasks[id].id == id
    requires NextUnblocked(s.board, WorkColumn(r)) == Some(s.board.tasks[id])
    ensures var s' := AfterWake(s, r, "branch");
      && SameElsewhere(s, s') && s'.events == s.events && SamePlace(s.board, s'.board, id)
      && s'.agents == s.agents[r := Taken(s, r, s.board.tasks[id])]
  {
    hide NextUnblocked, SamePlace, AfterWake, WriteBoard, Taken;
    WakeIs(s, r, s.board.tasks[id]);
    BranchKeepsTask(s.board, id);
    KeepsTask(s.board, id);
  }

  lemma KeepsTask(b: Board, id: Id)
    requires id in b.tasks
    ensures SamePlace(b, b, id)
  {
  }

  lemma BranchKeepsTask(b: Board, id: Id)
    requires id in b.tasks && b.tasks[id].id == id
    ensures SamePlace(b, WriteBoard(b, SetBranch(id, "branch")).0, id)
  {
  }

  lemma WellBoard(s: State)
    requires Well(s)
    ensures WellFormed(s.board)
  {
  }

  lemma TakesOn(s: State, id: Id, r: Role) returns (run: seq<Action>)
    requires Poised(s, id, WorkColumn(r)) && AgentOf(s, r).permit && NoRival(s.board, id, WorkColumn(r))
    ensures var s' := Exec(s, run);
      && Busy(s', id, r) && SameElsewhere(s, s') && s'.events == s.events && SamePlace(s.board, s'.board, id)
      && (OnlyTold(s.agents, Some(r)) ==> OnlyTold(s'.agents, None))
  {
    hide FinishAgent, Exec, NextUnblocked, Well, AfterWake, NoRival, WellFormed;
    run := AgentRun(s, r, SUCCESS, 4);
    WellBoard(s);
    PicksIt(s, id, WorkColumn(r));
    assert AtRest(AgentIn(s.agents, r));
    WakeIsAtomic(s, r, SUCCESS, true);
    WakeTakes(s, r, id);
    NowWorking(s.agents, r, Taken(s, r, s.board.tasks[id]));
  }

  // ── The agent passes it on, or waits ──────────────────────────────────────

  lemma ReportRest(s: State, t: Task, output: string)
    ensures var s' := AfterReport(s, t, output); s' == s.(board := s'.board, store := s'.store)
  {
    hide WriteBoard, WriteStore;
  }

  lemma ReportKeepsTask(s: State, t: Task, output: string)
    requires WellFormed(s.board) && t.id in s.board.tasks
    ensures var b := AfterReport(s, t, output).board;
      WellFormed(b) && SamePlace(s.board, b, t.id) && forall c :: Count(b, c) == Count(s.board, c)
  {
    hide WellFormed, WriteStore;
    WriteBoardEffect(s.board, SetOutput(t.id, output));
    OwnId(s.board, t.id);
    OutputKeepsTask(s.board, t.id, output);
  }

  lemma OutputKeepsTask(b: Board, id: Id, output: string)
    requires id in b.tasks && b.tasks[id].id == id
    ensures SamePlace(b, WriteBoard(b, SetOutput(id, output)).0, id)
  {
  }

  /** The gate lets it through. */
  predicate Room(s: State, c: Column) {
    Count(s.board, c) % (U32_MAX + 1) < LimitOf(s, c)
  }

  lemma AsStanding(s: State, r: Role)
    requires r in s.agents
    ensures Standing(s, r, s.agents[r].phase) == s
  {
    assert s.agents[r := s.agents[r].(phase := s.agents[r].phase)] == s.agents;
  }

  lemma ResultIs(s: State, id: Id, r: Role)
    requires Busy(s, id, r)
    ensures FinishAgent(s, r, SUCCESS, true, 8) == AfterGate(AfterReport(s, s.agents[r].phase.task, "output"), r, s.agents[r].phase.task)
  {
    hide FinishAgent, Well, AfterGate, AfterReport;
    AsStanding(s, r);
    ResultIsAtomic(s, r, s.agents[r].phase.task, SUCCESS, true);
  }

  lemma MovesTask(b: Board, id: Id, to: Column)
    requires WellFormed(b) && id in b.tasks
    ensures var (b', ok) := Advance(b, id, to);
      ok && SameTask(b, b', id) && b'.tasks[id].Column() == to
  {
    hide Advance, WellFormed;
    AdvanceEffect(b, id, to);
  }

  /** What the gate does, by whether there is room. */
  lemma GateIs(s: State, r: Role, t: Task)
    ensures AfterGate(s, r, t) ==
      if !Room(s, Target(r)) then Standing(s.(waiting := s.waiting[Target(r) := r]), r, Idle)
      else
        var (b, ok) := Advance(s.board, t.id, Target(r));
        Standing(s.(board := b,
                    events := if ok then s.events + [StageChanged(t.id, WorkColumn(r), Target(r)), AgentCompleted(t.id, r)]
                              else s.events), r, Idle)
  {
    hide Advance, Count, LimitOf, Standing;
  }

  lemma SameRoom(s: State, s1: State, c: Column)
    requires s1.limits == s.limits && Count(s1.board, c) == Count(s.board, c)
    ensures Room(s1, c) == Room(s, c)
  {
  }

  lemma StandsIdle(s: State, r: Role)
    requires r in s.agents
    ensures Standing(s, r, Idle) == s.(agents := s.agents[r := s.agents[r].(phase := Idle)])
  {
  }

  lemma PassesOn(s: State, id: Id, r: Role) returns (run: seq<Action>)
    requires Busy(s, id, r) && Room(s, Target(r))
    ensures var s' := Exec(s, run);
      && Poised(s', id, Target(r)) && SameElsewhere(s, s') && SameTask(s.board, s'.board, id)
      && s'.events == s.events + [StageChanged(id, WorkColumn(r), Target(r)), AgentCompleted(id, r)]
      && (OnlyTold(s.agents, None) ==> OnlyTold(s'.agents, None))
  {
    hide FinishAgent, Exec, Well, AfterGate, AfterReport, WellFormed, Advance, Standing, Room;
    run := AgentRun(s, r, SUCCESS, 8);
    var t := s.agents[r].phase.task;
    var s1 := AfterReport(s, t, "output");
    WellBoard(s);
    ResultIs(s, id, r);
    ReportRest(s, t, "output");
    ReportKeepsTask(s, t, "output");
    SameRoom(s, s1, Target(r));
    GateIs(s1, r, t);
    MovesTask(s1.board, id, Target(r));
    var b := Advance(s1.board, id, Target(r)).0;
    StandsIdle(s1.(board := b, events := s1.events + [StageChanged(id, WorkColumn(r), Target(r)), AgentCompleted(id, r)]), r);
    NowResting(s.agents, r, s.agents[r].(phase := Idle));
  }

  /** At the limit the agent is recorded as waiting for the column it feeds. */
  lemma Waits(s: State, id: Id, r: Role) returns (run: seq<Action>)
    requires Busy(s, id, r) && !Room(s, Target(r))
    ensures var s' := Exec(s, run);
      && Poised(s', id, WorkColumn(r)) && s'.waiting == s.waiting[Target(r) := r] && s'.limits == s.limits
      && SamePlace(s.board, s'.board, id)
  {
    hide FinishAgent, Exec, Well, AfterGate, AfterReport, WellFormed, Advance, Standing, Room;
    run := AgentRun(s, r, SUCCESS, 8);
    var t := s.agents[r].phase.task;
    var s1 := AfterReport(s, t, "output");
    WellBoard(s);
    ResultIs(s, id, r);
    ReportRest(s, t, "output");
    ReportKeepsTask(s, t, "output");
    SameRoom(s, s1, Target(r));
    GateIs(s1, r, t);
    StandsIdle(s1.(waiting := s1.waiting[Target(r) := r]), r);
    NowResting(s.agents, r, s.agents[r].(phase := Idle));
  }

  // ── Events and approvals ──────────────────────────────────────────────────

  lemma EventIsWell(s: State, x: Input)
    requires Well(s)
    ensures Well(Apply(s, WholeEvent(x))) && Apply(s, WholeEvent(x)).board == s.board
  {
    hide Well, Apply, FinishEvent;
    NothingDisturbs(s, WholeEvent(x));
    StepWell(s, WholeEvent(x));
    HandlingKeepsBoard(s, x);
  }

  lemma HandlingKeepsBoard(s: State, x: Input)
    ensures Apply(s, WholeEvent(x)).board == s.board
  {
    hide FinishEvent;
    EventKeepsBoard(s, x, EVENT_SECTIONS);
  }

  lemma WholeEventIs(s: State, x: Input)
    ensures Apply(s, WholeEvent(x)) == AtomicEvent(s, x)
  {
    hide HandleEvent, AtomicEvent;
    EventIsAtomic(s, x);
  }

  /** An event nobody in the dispatcher heeds. */
  lemma Unheeded(s: State, id: Id, c: Column)
    requires Poised(s, id, c) && s.events != [] && (s.events[0].AgentCompleted? || s.events[0].HumanApproved?)
    ensures var s' := Apply(s, WholeEvent(SUCCESS));
      Poised(s', id, c) && s' == s.(events := s.events[1..])
  {
    hide Apply, Well, AfterStageChange;
    WholeEventIs(s, SUCCESS);
    EventIsWell(s, SUCCESS);
  }

  /** The creation of a task wakes the prioritizer. */
  lemma Heralded(s: State, id: Id, c: Column)
    requires Poised(s, id, c) && s.events != [] && s.events[0].TaskCreated?
    ensures var s' := Apply(s, WholeEvent(SUCCESS));
      && Poised(s', id, c) && SameElsewhere(s, s') && s'.board == s.board && s'.events == s.events[1..]
      && s'.agents == WriteSignal(s.agents, Some(Prioritizer))
  {
    hide Apply, Well, AfterStageChange, WriteSignal;
    WholeEventIs(s, SUCCESS);
    EventIsWell(s, SUCCESS);
    NowTold(s.agents, Prioritizer);
  }

  /** An arrival in a work column wakes its role, if nobody waits for the column left. */
  lemma Received(s: State, id: Id, c: Column, r: Role)
    requires Poised(s, id, c) && s.events != [] && s.events[0].StageChanged? && s.events[0].to == WorkColumn(r)
    requires s.waiting == map[]
    ensures var s' := Apply(s, WholeEvent(SUCCESS));
      && Poised(s', id, c) && SameElsewhere(s, s') && s'.board == s.board && s'.events == s.events[1..]
      && s'.agents == WriteSignal(s.agents, Some(r))
  {
    hide Apply, Well, AfterStageChange, WriteSignal;
    var e := s.events[0];
    WholeEventIs(s, SUCCESS);
    EventIsWell(s, SUCCESS);
    ArrivalIs(s.(events := s.events[1..]), e.id, e.from, r);
    NowTold(s.agents, r);
  }

  lemma ArrivalIs(s: State, id: Id, from: Column, r: Role)
    requires s.waiting == map[]
    ensures AfterStageChange(s, id, from, WorkColumn(r), SUCCESS) == s.(agents := WriteSignal(s.agents, Some(r)))
  {
    hide AfterEntry;
    FeedersAreUnique(Done, r, r);
    assert s.waiting - {from} == s.waiting;
    assert AfterRelease(s, from) == s;
  }

  /** An arrival in a buffer files and queues an item, under a new id. */
  lemma Filed1(s: State, id: Id, c: Column, buffer: Column, item: Id)
    requires Poised(s, id, c) && s.events != [] && s.events[0].StageChanged? && s.events[0].to == buffer
    requires IsBuffer(buffer) && s.waiting == map[] && item !in s.used && item != ""
    ensures var s' := Apply(s, WholeEvent(SUCCESS.(newId := item, queueId := item)));
      && Poised(s', id, c) && s'.board == s.board && s'.store == s.store && s'.events == s.events[1..] && s'.agents == s.agents
      && s'.waiting == map[] && s'.limits == s.limits && s'.used == s.used + {item}
      && s'.reviews.Keys == s.reviews.Keys + {item} && s'.reviews[item].id == item
      && s'.reviews[item].taskId == s.events[0].id && IsUnresolved(s'.reviews[item])
      && (forall p :: p in s.reviews && p != item ==> s'.reviews[p] == s.reviews[p])
  {
    hide Apply, Well, AfterStageChange, WriteSignal;
    var x, e := SUCCESS.(newId := item, queueId := item), s.events[0];
    WholeEventIs(s, x);
    EventIsWell(s, x);
    EntryIs(s.(events := s.events[1..]), e.id, e.from, buffer, item);
  }

  lemma EntryIs(s: State, id: Id, from: Column, buffer: Column, item: Id)
    requires IsBuffer(buffer) && s.waiting == map[]
    ensures var s' := AfterStageChange(s, id, from, buffer, SUCCESS.(newId := item, queueId := item));
      && s'.board == s.board && s'.store == s.store && s'.events == s.events && s'.agents == s.agents && s'.waiting == map[]
      && s'.limits == s.limits && s'.calls == s.calls && s'.loop == s.loop && s'.used == s.used + {item}
      && s'.reviews == s.reviews[item := s'.reviews[item]] && s'.reviews[item].id == item
      && s'.reviews[item].taskId == id && s'.reviews[item].actions == []
  {
    hide Enqueue;
    assert s.waiting - {from} == s.waiting;
    assert AfterRelease(s, from) == s;
  }

  /** A human approves the task: it moves to the next column, whose role is woken. */
  lemma ApprovedOn(s: State, id: Id, c: Column, r: Role)
    requires Poised(s, id, c) && IsBuffer(c) && Next(c) == Some(WorkColumn(r))
    ensures var s' := Apply(s, Whole(OpApprove(id), SUCCESS));
      && Poised(s', id, WorkColumn(r)) && Others(s.board, s'.board, id)
      && s'.events == s.events + [HumanApproved(id, WorkColumn(r))] && s'.agents == WriteSignal(s.agents, Some(r))
      && s'.waiting == s.waiting && s'.limits == s.limits && s'.used == s.used
  {
    hide Apply, Well, AfterDecision, DecideOn, WriteSignal, BufferOf, WellFormed;
    var op := OpApprove(id);
    NothingDisturbs(s, Whole(op, SUCCESS));
    StepWell(s, Whole(op, SUCCESS));
    WellBoard(s);
    InBuffer(s.board, id, c);
    ApprovalIs(s, id, c);
    ApprovedBoard(s.board, id, c, SUCCESS.now);
    ApprovedRest(s, id, Approved(WorkColumn(r)));
    FeedersAreUnique(Done, r, r);
    NowTold(s.agents, r);
  }

  lemma InBuffer(b: Board, id: Id, c: Column)
    requires WellFormed(b) && id in b.tasks && b.tasks[id].Column() == c && IsBuffer(c)
    ensures BufferOf(b, id) == Some(c)
  {
    hide FindColumn;
    FindColumnIsStage(b, id);
  }

  lemma ApprovalIs(s: State, id: Id, c: Column)
    requires BufferOf(s.board, id) == Some(c) && IsBuffer(c)
    ensures Next(c).Some? && Apply(s, Whole(OpApprove(id), SUCCESS)) == AfterDecision(s, id, Approved(Next(c).value), SUCCESS)
  {
    hide RunCall, AfterDecision, BufferOf;
    BufferNeighbours(c);
    WholeIsAtomic(s, OpApprove(id), SUCCESS);
  }

  lemma ApprovedBoard(b: Board, id: Id, c: Column, now: int)
    requires WellFormed(b) && id in b.tasks && IsBuffer(c)
    ensures Next(c).Some?
    ensures var (b', ok) := DecideOn(b, id, Approved(Next(c).value), now);
      && ok && Others(b, b', id) && b'.tasks[id].Column() == Next(c).value
      && b'.tasks[id].blockedBy == b.tasks[id].blockedBy
  {
    hide DecideOn, WellFormed;
    BufferNeighbours(c);
    WriteBoardEffect(b, Decide(id, Approved(Next(c).value), now));
  }

  lemma ApprovedRest(s: State, id: Id, d: Decision)
    requires DecideOn(s.board, id, d, SUCCESS.now).1 && d.Approved?
    ensures var s' := AfterDecision(s, id, d, SUCCESS);
      && s'.board == DecideOn(s.board, id, d, SUCCESS.now).0 && s'.events == s.events + [HumanApproved(id, d.target)]
      && s'.agents == WriteSignal(s.agents, RoleOf(d.target)) && s'.waiting == s.waiting && s'.limits == s.limits
      && s'.used == s.used && s'.calls == s.calls && s'.loop == s.loop
  {
    hide DecideOn, FindUnresolved, WriteStore, WriteSignal;
  }

  // ── New tasks and new blockers ────────────────────────────────────────────

  /** A new task waits in the first column, and its event at the end of the queue. */
  lemma Creates(s: State, id: Id, title: string, priority: Priority)
    requires Hushed(s) && id !in s.used && id != ""
    ensures id !in s.board.tasks
    ensures var s' := Apply(s, Whole(OpCreate(title, priority), SUCCESS.(newId := id)));
      && Poised(s', id, Prioritized) && s'.board.tasks == s.board.tasks[id := NewTask(id, title, priority)]
      && s'.events == s.events + [TaskCreated(id)] && s'.agents == s.agents && s'.used == s.used + {id}
      && s'.limits == s.limits && s'.waiting == s.waiting && s'.queue == s.queue && s'.reviews == s.reviews
  {
    hide Apply, RunCall, AddTask, Well, WellFormed;
    var op, x := OpCreate(title, priority), SUCCESS.(newId := id);
    NothingDisturbs(s, Whole(op, x));
    StepWell(s, Whole(op, x));
    WellBoard(s);
    UsedIds(s, id);
    CreationIs(s, op, x);
    AddTaskEffect(s.board, NewTask(id, title, priority));
  }

  lemma UsedIds(s: State, id: Id)
    requires Well(s) && id !in s.used
    ensures id !in s.board.tasks
  {
  }

  lemma CreationIs(s: State, op: Op, x: Input)
    requires op.OpCreate? && x.newId !in s.used
    ensures var t := NewTask(x.newId, op.title, op.priority);
      Apply(s, Whole(op, x)) == s.(board := AddTask(s.board, t), store := s.store[x.newId := t],
                                   events := s.events + [TaskCreated(x.newId)], used := s.used + {x.newId})
  {
    hide RunCall, AddTask;
    WholeIsAtomic(s, op, x);
  }

  /** A task in the first column gets a blocker, and the prioritizer is woken. */
  lemma Blocks(s: State, id: Id, on: Id)
    requires Poised(s, id, Prioritized)
    ensures var s' := Apply(s, Whole(OpBlock(id, [on]), SUCCESS));
      && Hushed(s') && Others(s.board, s'.board, id)
      && id in s'.board.tasks && s'.board.tasks[id].Column() == Prioritized && s'.board.tasks[id].blockedBy == [on]
      && s'.events == s.events + [StageChanged(id, Prioritized, Prioritized)]
      && s'.agents == WriteSignal(s.agents, Some(Prioritizer)) && s'.waiting == s.waiting && s'.limits == s.limits
  {
    hide Apply, RunCall, Well, WellFormed, AfterBlock, WriteSignal, FindColumn;
    var op := OpBlock(id, [on]);
    NobodyWorks(s, id, [on]);
    StepWell(s, Whole(op, SUCCESS));
    WellBoard(s);
    FindColumnIsStage(s.board, id);
    BlockIs(s, id, [on]);
    BlockedBoard(s.board, id, [on]);
    BlockedRest(s, id, [on]);
    NowTold(s.agents, Prioritizer);
  }

  lemma NobodyWorks(s: State, id: Id, blockedBy: seq<Id>)
    requires AllRest(s.agents)
    ensures Undisturbed()(s, Whole(OpBlock(id, blockedBy), SUCCESS))
  {
    hide FindColumn;
    forall r ensures !Owns(AgentOf(s, r).phase) {
      assert AtRest(AgentIn(s.agents, r));
    }
  }

  lemma BlockIs(s: State, id: Id, blockedBy: seq<Id>)
    requires FindColumn(s.board, id) == Some(Prioritized)
    ensures Apply(s, Whole(OpBlock(id, blockedBy), SUCCESS)) == AfterBlock(s, id, blockedBy, Prioritized)
  {
    hide RunCall, AfterBlock, FindColumn;
    WholeIsAtomic(s, OpBlock(id, blockedBy), SUCCESS);
  }

  lemma BlockedBoard(b: Board, id: Id, blockedBy: seq<Id>)
    requires WellFormed(b) && id in b.tasks
    ensures var (b', ok) := BlockOn(b, id, blockedBy);
      && ok && Others(b, b', id) && b'.tasks[id].Column() == Prioritized && b'.tasks[id].blockedBy == blockedBy
  {
    hide BlockOn, WellFormed;
    WriteBoardEffect(b, Block(id, blockedBy));
  }

  lemma BlockedRest(s: State, id: Id, blockedBy: seq<Id>)
    requires BlockOn(s.board, id, blockedBy).1
    ensures var s' := AfterBlock(s, id, blockedBy, Prioritized);
      && s'.board == BlockOn(s.board, id, blockedBy).0 && s'.events == s.events + [StageChanged(id, Prioritized, Prioritized)]
      && s'.agents == WriteSignal(s.agents, Some(Prioritizer)) && s'.waiting == s.waiting && s'.limits == s.limits
      && s'.used == s.used && s'.calls == s.calls && s'.loop == s.loop
  {
    hide BlockOn, WriteStore, WriteSignal;
  }

  // ── From agent to agent ───────────────────────────────────────────────────

  /** Every other task waits in the first column for this one to finish. */
  ghost predicate OthersWait(b: Board, id: Id) {
    forall x :: x in b.tasks && x != id ==> b.tasks[x].Column() == Prioritized && b.tasks[x].blockedBy == [id]
  }

  /** Nothing else is going on. */
  ghost predicate Calm(s: State, id: Id) {
    s.events == [] && s.waiting == map[] && s.limits == map[] && OthersWait(s.board, id)
  }

  /** The task waits for role `r`, which alone is told. */
  ghost predicate Ahead(s: State, id: Id, r: Role) {
    Poised(s, id, WorkColumn(r)) && AgentOf(s, r).permit && OnlyTold(s.agents, Some(r)) && Calm(s, id)
  }

  lemma WaitersAreNoRivals(b: Board, id: Id, c: Column)
    requires OthersWait(b, id) && id in b.tasks && b.tasks[id].Column() == c && c != Done
    ensures NoRival(b, id, c)
  {
    forall x | x in b.tasks && x != id && b.tasks[x].Column() == c ensures !Ready(b, b.tasks[x]) {
      assert id in b.tasks[x].blockedBy;
    }
  }

  lemma WaitersStay(b: Board, b': Board, id: Id)
    requires OthersWait(b, id) && Others(b, b', id)
    ensures OthersWait(b', id)
  {
  }

  lemma HasMember(ids: seq<Id>)
    requires |ids| > 0
    ensures exists x :: x in ids
  {
    assert ids[0] in ids;
  }

  /** A column that no task is in has room. */
  lemma EmptyHasRoom(s: State, c: Column)
    requires WellFormed(s.board) && s.limits == map[] && forall x :: x in s.board.tasks ==> s.board.tasks[x].Column() != c
    ensures Count(s.board, c) == 0 && Room(s, c)
  {
    MembersOf(s.board, c);
    if Count(s.board, c) > 0 { HasMember(Ids(s.board, c)); }
  }

  lemma NextHasRoom(s: State, id: Id, r: Role)
    requires Well(s) && id in s.board.tasks && s.board.tasks[id].Column() == WorkColumn(r) && Calm(s, id)
    ensures Count(s.board, Target(r)) == 0 && Room(s, Target(r))
  {
    hide Well, WellFormed, Room, Count;
    WellBoard(s);
    TargetElsewhere(r);
    EmptyHasRoom(s, Target(r));
  }

  lemma TargetElsewhere(r: Role)
    ensures Target(r) != WorkColumn(r) && Target(r) != Prioritized
  {
  }

  /** The role takes the task on, and nothing else happens. */
  lemma Embarks(s: State, id: Id, r: Role) returns (run: seq<Action>)
    requires Ahead(s, id, r)
    ensures var s' := Exec(s, run);
      && Busy(s', id, r) && OnlyTold(s'.agents, None) && Calm(s', id)
      && SamePlace(s.board, s'.board, id) && SameElsewhere(s, s')
  {
    hide Exec, Well;
    WorkIsNotDone(r);
    WaitersAreNoRivals(s.board, id, WorkColumn(r));
    run := TakesOn(s, id, r);
    WaitersStay(s.board, Exec(s, run).board, id);
  }

  lemma WorkIsNotDone(r: Role)
    ensures WorkColumn(r) != Done && RoleOf(WorkColumn(r)) == Some(r)
  {
  }

  /** The role finishes its part. */
  lemma Lands(s: State, id: Id, r: Role) returns (run: seq<Action>)
    requires Busy(s, id, r) && OnlyTold(s.agents, None) && Calm(s, id)
    ensures var s' := Exec(s, run);
      && Poised(s', id, Target(r)) && OnlyTold(s'.agents, None) && SameElsewhere(s, s') && OthersWait(s'.board, id)
      && SameTask(s.board, s'.board, id)
      && s'.events == [StageChanged(id, WorkColumn(r), Target(r)), AgentCompleted(id, r)]
  {
    hide Exec, Well, Room, Count;
    NextHasRoom(s, id, r);
    run := PassesOn(s, id, r);
    WaitersStay(s.board, Exec(s, run).board, id);
  }

  /** The prioritizer's part of the journey. */
  lemma FirstLeg(s: State, id: Id) returns (run: seq<Action>)
    requires Ahead(s, id, Prioritizer)
    ensures var s' := Exec(s, run); Ahead(s', id, Designer) && SameTask(s.board, s'.board, id) && SameElsewhere(s, s')
  {
    hide Exec, Apply, Poised, Busy, OnlyTold, WriteSignal;
    run := Embarks(s, id, Prioritizer);
    var more := Lands(Exec(s, run), id, Prioritizer);
    ExecConcat(s, run, more);
    run := run + more;
    var s1 := Exec(s, run);
    PoisedRests(s1, id, Designing);
    Received(s1, id, Designing, Designer);
    NowTold(s1.agents, Designer);
    var s2 := Apply(s1, WholeEvent(SUCCESS));
    Unheeded(s2, id, Designing);
    run := ThenTwo(s, run, WholeEvent(SUCCESS), WholeEvent(SUCCESS));
  }

  lemma PoisedRests(s: State, id: Id, c: Column)
    requires Poised(s, id, c)
    ensures Hushed(s) && AllRest(s.agents) && s.loop.Listening?
  {
  }

  lemma OthersChain(b: Board, b1: Board, b2: Board, id: Id)
    requires Others(b, b1, id) && Others(b1, b2, id)
    ensures Others(b, b2, id)
  {
  }

  lemma ThenTwo(s: State, run: seq<Action>, a: Action, b: Action) returns (longer: seq<Action>)
    ensures Exec(s, longer) == Apply(Apply(Exec(s, run), a), b)
  {
    hide Apply, Exec;
    longer := run + [a] + [b];
    ExecOne(s, run, a);
    ExecOne(s, run + [a], b);
  }

  /** An agent's part and the approval that follows it, up to the next role. */
  lemma OneLeg(s: State, id: Id, r: Role, next: Role) returns (run: seq<Action>)
    requires Ahead(s, id, r) && IsBuffer(Target(r)) && Next(Target(r)) == Some(WorkColumn(next))
    ensures var s' := Exec(s, run); Ahead(s', id, next) && Others(s.board, s'.board, id)
  {
    hide Exec, Apply, Poised, Busy, OnlyTold, WriteSignal;
    run := Embarks(s, id, r);
    var more := Lands(Exec(s, run), id, r);
    ExecConcat(s, run, more);
    OthersChain(s.board, Exec(s, run).board, Exec(s, run + more).board, id);
    run := run + more;
    var s1 := Exec(s, run);
    var rest := FiledAndApproved(s1, id, r, next);
    ExecConcat(s, run, rest);
    OthersChain(s.board, s1.board, Exec(s, run + rest).board, id);
    run := run + rest;
  }

  lemma FiledAndApproved(s: State, id: Id, r: Role, next: Role) returns (run: seq<Action>)
    requires Poised(s, id, Target(r)) && OnlyTold(s.agents, None) && IsBuffer(Target(r)) && Next(Target(r)) == Some(WorkColumn(next))
    requires s.events == [StageChanged(id, WorkColumn(r), Target(r)), AgentCompleted(id, r)]
    requires s.waiting == map[] && s.limits == map[] && OthersWait(s.board, id)
    ensures var s' := Exec(s, run); Ahead(s', id, next) && Others(s.board, s'.board, id)
  {
    hide Exec, Apply, Poised, OnlyTold, WriteSignal, IsUnresolved;
    var item := FreshId(s.used);
    var filing := WholeEvent(SUCCESS.(newId := item, queueId := item));
    Filed1(s, id, Target(r), Target(r), item);
    var s1 := Apply(s, filing);
    Unheeded(s1, id, Target(r));
    var s2 := Apply(s1, WholeEvent(SUCCESS));
    ApprovedOn(s2, id, Target(r), next);
    PoisedRests(s2, id, Target(r));
    NowTold(s2.agents, next);
    var s3 := Apply(s2, Whole(OpApprove(id), SUCCESS));
    Unheeded(s3, id, WorkColumn(next));
    WaitersStay(s.board, s3.board, id);
    run := ThenTwo(s, [], filing, WholeEvent(SUCCESS));
    ExecNothing(s);
    run := ThenTwo(s, run, Whole(OpApprove(id), SUCCESS), WholeEvent(SUCCESS));
  }

  /** The whole way from the prioritizer to the last agent. */
  lemma Voyage(s: State, id: Id) returns (run: seq<Action>)
    requires Ahead(s, id, Prioritizer)
    ensures var s' := Exec(s, run); Ahead(s', id, Infrarian) && Others(s.board, s'.board, id)
  {
    hide Exec, Ahead, Others;
    run := FirstLeg(s, id);
    run := NextLeg(s, run, id, Designer, Coder);
    run := NextLeg(s, run, id, Coder, Reviewer);
    run := NextLeg(s, run, id, Reviewer, Auditor);
    run := NextLeg(s, run, id, Auditor, Infrarian);
  }

  lemma NextLeg(s: State, run: seq<Action>, id: Id, r: Role, next: Role) returns (longer: seq<Action>)
    requires Ahead(Exec(s, run), id, r) && Others(s.board, Exec(s, run).board, id)
    requires IsBuffer(Target(r)) && Next(Target(r)) == Some(WorkColumn(next))
    ensures Ahead(Exec(s, longer), id, next) && Others(s.board, Exec(s, longer).board, id)
  {
    hide Exec, Ahead;
    var more := OneLeg(Exec(s, run), id, r, next);
    longer := run + more;
    ExecConcat(s, run, more);
    OthersChain(s.board, Exec(s, run).board, Exec(s, longer).board, id);
  }
}
