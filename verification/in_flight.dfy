/**
 * Blocking a task an agent works on: exactly when that keeps ownership, and what becomes of the task.
 * The block takes no agent off the task, so it can still be moved on past its blockers.
 */
module InFlightBlocks {
  import opened Options
  import opened Columns
  import opened Kanban
  import opened ReviewQueues
  import opened Reviews
  import opened Protocol
  import opened Atomic
  import opened AgentRuns
  import opened Effects
  import opened Gates
  import opened Wip
  import opened Listings
  import opened Ownership

  /**
   * A block keeps ownership and the store behind the board exactly when no agent works on the task
   * outside Prioritized.
   */
  lemma BlockOwnedIff(s: State, id: Id, blockedBy: seq<Id>, x: Input)
    requires Owned(s) && id in s.board.tasks
    ensures Owned(RunCall(s, OpBlock(id, blockedBy), x)) <==> !(InFlight(s, id) && s.board.tasks[id].Column() != Prioritized)
  {
    hide RunCall, Owned, FindColumn, InFlight;
    CallOwnedIff(s, OpBlock(id, blockedBy), x);
    OwnedFinds(s, id);
  }

  lemma OwnedFinds(s: State, id: Id)
    requires Owned(s) && id in s.board.tasks
    ensures FindColumn(s.board, id) == Some(s.board.tasks[id].Column())
  {
    hide StoreFollows, AllOwnRight;
    BoardIsWell(s);
    FindColumnIsStage(s.board, id);
  }

  /**
   * After a block of a task in flight the agent's next section moves the task exactly when the agent
   * had passed the WIP check: the task jumps from Prioritized to the column the agent feeds, and the
   * store is left that far behind.
   */
  lemma BlockInFlightJumps(s: State, r: Role, blockedBy: seq<Id>, x: Input, y: Input)
    requires Owned(s) && Owns(AgentOf(s, r).phase) && r != Prioritizer
    ensures var id := AgentOf(s, r).phase.task.id;
      var s1 := RunCall(s, OpBlock(id, blockedBy), x);
      var s2 := AgentSection(s1, r, y);
      && id in s1.board.tasks && s1.board.tasks[id].Column() == Prioritized
      && id in s2.board.tasks
      && s2.board.tasks[id].Column() == (if AgentOf(s, r).phase.Cleared? then Target(r) else Prioritized)
      && (AgentOf(s, r).phase.Cleared? ==> !StoreFollows(s2.board.tasks, s2.store))
  {
    hide RunCall, AgentSection, Inv, AfterBlock, AllOwnRight, StoreFollows, FindColumn, SamePhases;
    var id := AgentOf(s, r).phase.task.id;
    OwnsItsColumn(s, r);
    OwnedFinds(s, id);
    WholeIsAtomic(s, OpBlock(id, blockedBy), x);
    WholeStep(Unchecked, s, OpBlock(id, blockedBy), x);
    BlockLands(s, id, blockedBy, WorkColumn(r));
    var s1 := RunCall(s, OpBlock(id, blockedBy), x);
    PhaseKept(s, s1, r);
    AgentBoardEffect(s1, r, y);
    AgentStoreEffect(s1, r, y);
    if AgentOf(s, r).phase.Cleared? { TooFar(AgentSection(s1, r, y), r, id); }
  }

  /** A run of one agent's sections only. */
  ghost function OnlyAgent(r: Role): (State, Action) -> bool {
    (s: State, a: Action) => a.AgentStep? && a.role == r
  }

  /** The agent's section that moves the task on. */
  predicate MovesOn(s: State, r: Role, id: Id) {
    AgentOf(s, r).phase.Cleared? && AgentOf(s, r).phase.task.id == id
  }

  ghost predicate HasMoved(states: seq<State>, k: nat, r: Role, id: Id) {
    exists i {:trigger states[i]} :: 0 <= i < k <= |states| && MovesOn(states[i], r, id)
  }

  /** A blocked task: still blocked, in the first column, or where its agent has moved it. */
  ghost predicate StillBlocked(s: State, r: Role, id: Id, blockedBy: seq<Id>, moved: bool) {
    && Inv(Unchecked, s) && id in s.board.tasks && s.board.tasks[id].blockedBy == blockedBy
    && s.board.tasks[id].Column() == (if moved then Target(r) else Prioritized)
    && (Owns(AgentOf(s, r).phase) && AgentOf(s, r).phase.task.id == id ==> !moved)
  }

  lemma SectionStillBlocked(s: State, r: Role, x: Input, id: Id, blockedBy: seq<Id>, moved: bool)
    requires StillBlocked(s, r, id, blockedBy, moved) && r != Prioritizer
    ensures StillBlocked(AgentSection(s, r, x), r, id, blockedBy, moved || MovesOn(s, r, id))
  {
    hide AgentSection, Inv, AgentChange, SameStages;
    AgentKeeps(Unchecked, s, r, x);
    SectionKeepsBlocked(s, r, x, id);
    OwnSteps(s, r, x);
    PhaseAfter(s, r, x, r);
    if AgentChange(s, r, x).1.Picked? { PickedElsewhere(s, r, id, AgentChange(s, r, x).1.task); }
  }

  /** What the agent picks is in its own column, which is neither the first one nor the one it feeds. */
  lemma PickedElsewhere(s: State, r: Role, id: Id, t: Task)
    requires Inv(Unchecked, s) && r != Prioritizer && NextUnblocked(s.board, WorkColumn(r)) == Some(t)
    requires id in s.board.tasks && (s.board.tasks[id].Column() == Prioritized || s.board.tasks[id].Column() == Target(r))
    ensures t.id != id
  {
    hide NextUnblocked, Inv;
    BoardIsWell(s);
    PickIsBestReady(s.board, WorkColumn(r));
  }

  /** An agent's section changes no blockers, and moves the task exactly when it is the cleared one. */
  lemma SectionKeepsBlocked(s: State, r: Role, x: Input, id: Id)
    requires Inv(Unchecked, s) && id in s.board.tasks
    ensures var tasks := AgentSection(s, r, x).board.tasks;
      && id in tasks && tasks[id].blockedBy == s.board.tasks[id].blockedBy
      && tasks[id].Column() == if MovesOn(s, r, id) then Target(r) else s.board.tasks[id].Column()
  {
    hide AgentSection, AgentChange, WriteBoard, Inv, WellFormed;
    var w := AgentChange(s, r, x).0.board;
    AgentBoardIs(s, r, x);
    AgentWrites(s, r, x);
    BoardIsWell(s);
    WriteBoardEffect(s.board, w);
    if AgentOf(s, r).phase.Cleared? { ClearedMoves(s, r, x); }
  }

  /**
   * A block takes no agent off its task: in every run of that agent's sections after the block the task
   * keeps its blockers and stays in Prioritized until the agent's cleared section, and is in the column
   * the agent feeds from then on.
   */
  lemma {:induction false} BlockedInFlightRun(states: seq<State>, run: seq<Action>, k: nat, r: Role, id: Id, blockedBy: seq<Id>)
    requires Trace(states, run, OnlyAgent(r)) && StillBlocked(states[0], r, id, blockedBy, false) && k < |states|
    requires r != Prioritizer
    ensures StillBlocked(states[k], r, id, blockedBy, HasMoved(states, k, r, id))
  {
    hide Trace, StillBlocked, Apply, OnlyAgent, MovesOn;
    if k > 0 {
      BlockedInFlightRun(states, run, k - 1, r, id, blockedBy);
      LastStep(states, run, OnlyAgent(r), k);
      OnlyAgentSteps(states[k - 1], run[k - 1], r);
      SectionStillBlocked(states[k - 1], r, run[k - 1].input, id, blockedBy, HasMoved(states, k - 1, r, id));
      OneMoreMove(states, k, r, id);
    }
  }

  lemma OnlyAgentSteps(s: State, a: Action, r: Role)
    requires OnlyAgent(r)(s, a)
    ensures a.AgentStep? && a.role == r && Apply(s, a) == AgentSection(s, r, a.input)
  {
    hide AgentSection;
  }

  lemma OneMoreMove(states: seq<State>, k: nat, r: Role, id: Id)
    requires 0 < k < |states|
    ensures HasMoved(states, k, r, id) <==> HasMoved(states, k - 1, r, id) || MovesOn(states[k - 1], r, id)
  {
    hide MovesOn;
  }

  lemma BlockStarts(s: State, r: Role, blockedBy: seq<Id>, x: Input)
    requires Owned(s) && Owns(AgentOf(s, r).phase)
    ensures var id := AgentOf(s, r).phase.task.id;
      StillBlocked(RunCall(s, OpBlock(id, blockedBy), x), r, id, blockedBy, false)
      && AgentOf(RunCall(s, OpBlock(id, blockedBy), x), r).phase == AgentOf(s, r).phase
  {
    hide RunCall, Inv, AfterBlock, AllOwnRight, StoreFollows, FindColumn, SamePhases;
    var id := AgentOf(s, r).phase.task.id;
    OwnsItsColumn(s, r);
    OwnedFinds(s, id);
    WholeIsAtomic(s, OpBlock(id, blockedBy), x);
    WholeStep(Unchecked, s, OpBlock(id, blockedBy), x);
    BlockLands(s, id, blockedBy, WorkColumn(r));
    PhaseKept(s, RunCall(s, OpBlock(id, blockedBy), x), r);
  }

  /** The WIP check of the column the role feeds passes. */
  predicate HasRoom(s: State, r: Role) {
    Count(s.board, Target(r)) % (U32_MAX + 1) < LimitOf(s, Target(r))
  }

  /**
   * So a task blocked while its agent's backend runs ends, once the agent has finished with it, in the
   * column the agent feeds, blockers or not, exactly when the run succeeds, is verified at last and
   * finds room there; else it stays in Prioritized.
   */
  lemma BlockedRunFinishes(s: State, r: Role, blockedBy: seq<Id>, x: Input, y: Input, retryPasses: bool)
    requires Owned(s) && AgentOf(s, r).phase.Running? && r != Prioritizer
    requires var id := AgentOf(s, r).phase.task.id; y.newId !in RunCall(s, OpBlock(id, blockedBy), x).used
    ensures var id := AgentOf(s, r).phase.task.id;
      var s1 := RunCall(s, OpBlock(id, blockedBy), x);
      var b := FinishAgent(s1, r, y, retryPasses, 8).board;
      && id in b.tasks && b.tasks[id].blockedBy == blockedBy
      && b.tasks[id].Column() ==
           if y.result.RunSuccess? && (y.pass || retryPasses) && HasRoom(s1, r) then Target(r) else Prioritized
  {
    hide RunCall, FinishAgent, AfterResult, Inv, AllOwnRight, StoreFollows;
    var t := AgentOf(s, r).phase.task;
    var s1 := RunCall(s, OpBlock(t.id, blockedBy), x);
    BlockStarts(s, r, blockedBy, x);
    RunningStands(s1, r);
    ResultIsAtomic(s1, r, t, y, retryPasses);
    BlockedResult(s1, r, t, y, retryPasses, blockedBy);
  }

  lemma RunningStands(s: State, r: Role)
    requires AgentOf(s, r).phase.Running?
    ensures Standing(s, r, AgentOf(s, r).phase) == s
  {
    assert r in s.agents;
    assert s.agents[r := s.agents[r].(phase := s.agents[r].phase)] == s.agents;
  }

  lemma BlockedResult(s: State, r: Role, t: Task, y: Input, retryPasses: bool, blockedBy: seq<Id>)
    requires StillBlocked(s, r, t.id, blockedBy, false)
    ensures var b := AfterResult(s, r, t, y, retryPasses).board;
      && t.id in b.tasks && b.tasks[t.id].blockedBy == blockedBy
      && b.tasks[t.id].Column() ==
           if y.result.RunSuccess? && (y.pass || retryPasses) && HasRoom(s, r) then Target(r) else Prioritized
  {
    hide Inv, AfterReport, AfterGate, AfterAsking, Standing, HasRoom;
    StandingKeepsBoard(s, r, Idle);
    if y.result.RunBlocked? { AskingKeepsBoard(s, r, t, y.result.question, y); }
    else if y.result.RunSuccess? {
      var s1 := AfterReport(s, t, y.result.output);
      ReportedBlocked(s, t, y.result.output);
      GatedBlocked(s1, r, t);
      AskingKeepsBoard(s1, r, t, y.text, y);
      SameRoom(s, s1, r);
    }
  }

  lemma AskingKeepsBoard(s: State, r: Role, t: Task, question: string, x: Input)
    ensures AfterAsking(s, r, t, question, x).board == s.board
  {
    hide Enqueue;
  }

  lemma SameRoom(s: State, s1: State, r: Role)
    requires s1.limits == s.limits && Count(s1.board, Target(r)) == Count(s.board, Target(r))
    ensures HasRoom(s1, r) == HasRoom(s, r)
  {
  }

  lemma ReportedBlocked(s: State, t: Task, output: string)
    requires Inv(Unchecked, s) && t.id in s.board.tasks
    ensures var s1 := AfterReport(s, t, output);
      && WellFormed(s1.board) && t.id in s1.board.tasks && s1.limits == s.limits
      && s1.board.tasks[t.id].blockedBy == s.board.tasks[t.id].blockedBy
      && s1.board.tasks[t.id].Column() == s.board.tasks[t.id].Column()
      && forall c :: Count(s1.board, c) == Count(s.board, c)
  {
    hide Inv, WellFormed, WriteStore;
    BoardIsWell(s);
    WriteBoardEffect(s.board, SetOutput(t.id, output));
  }

  lemma MoveSetsStage(b: Board, id: Id, to: Column)
    requires WellFormed(b) && id in b.tasks
    ensures Advance(b, id, to).1 && Advance(b, id, to).0.tasks == b.tasks[id := b.tasks[id].(stage := At(to))]
  {
    hide Advance, WellFormed;
    AdvanceEffect(b, id, to);
  }

  lemma GateBoard(s: State, r: Role, t: Task)
    ensures AfterGate(s, r, t).board == if HasRoom(s, r) then Advance(s.board, t.id, Target(r)).0 else s.board
  {
    hide Advance, Count, LimitOf, Standing;
    StandingKeepsBoard(s.(waiting := s.waiting[Target(r) := r]), r, Idle);
    var (b, ok) := Advance(s.board, t.id, Target(r));
    var events := if ok then s.events + [StageChanged(t.id, WorkColumn(r), Target(r)), AgentCompleted(t.id, r)] else s.events;
    StandingKeepsBoard(s.(board := b, events := events), r, Idle);
  }

  lemma StandingKeepsBoard(s: State, r: Role, phase: Phase)
    ensures Standing(s, r, phase).board == s.board
  {
  }

  lemma GatedBlocked(s: State, r: Role, t: Task)
    requires WellFormed(s.board) && t.id in s.board.tasks
    ensures var b := AfterGate(s, r, t).board;
      && t.id in b.tasks && b.tasks[t.id].blockedBy == s.board.tasks[t.id].blockedBy
      && b.tasks[t.id].Column() == if HasRoom(s, r) then Target(r) else s.board.tasks[t.id].Column()
  {
    hide WellFormed, Advance, HasRoom, AfterGate;
    GateBoard(s, r, t);
    MoveSetsStage(s.board, t.id, Target(r));
  }

  lemma PhaseKept(s: State, s': State, r: Role)
    requires SamePhases(s, s')
    ensures AgentOf(s', r).phase == AgentOf(s, r).phase
  {
  }

  lemma TooFar(s: State, r: Role, id: Id)
    requires id in s.board.tasks && s.board.tasks[id].Column() == Target(r) && r != Prioritizer
    requires id in s.store && s.store[id].Column() == Prioritized
    ensures !StoreFollows(s.board.tasks, s.store)
  {
    assert !Behind(s.store[id], s.board.tasks[id]);
  }
}
