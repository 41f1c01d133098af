/**
 * Move accounting for undisturbed calls: the sum of the column indices of all tasks is its initial
 * value plus the moves forward minus the distance moved back, so finitely many tasks with bounded
 * rework make finitely many moves.
 */
module Accounting {
  import opened Options
  import opened Columns
  import opened Kanban
  import opened ReviewQueues
  import opened Reviews
  import opened Protocol
  import opened Atomic
  import opened Effects
  import opened Gates
  import opened Wip
  import opened Steps
  import opened Ownership

  /** The column indices of all listed tasks, added up. */
  function Weight(b: Board): nat {
    Count(b, Designing) + 2 * Count(b, CodingBuffer) + 3 * Count(b, Coding) + 4 * Count(b, ReviewBuffer)
    + 5 * Count(b, Columns.Reviewing) + 6 * Count(b, SecurityAuditBuffer) + 7 * Count(b, Auditing)
    + 8 * Count(b, DeploymentBuffer) + 9 * Count(b, Deploying) + 10 * Count(b, Done)
  }

  function At1(c: Column, d: Column): nat {
    if c == d then 1 else 0
  }

  /** The index of a column, as the weight of one task in it. */
  lemma IndexAsWeight(c: Column)
    ensures Index(c) == At1(c, Designing) + 2 * At1(c, CodingBuffer) + 3 * At1(c, Coding) + 4 * At1(c, ReviewBuffer)
      + 5 * At1(c, Columns.Reviewing) + 6 * At1(c, SecurityAuditBuffer) + 7 * At1(c, Auditing)
      + 8 * At1(c, DeploymentBuffer) + 9 * At1(c, Deploying) + 10 * At1(c, Done)
  {
    match c {
      case Prioritized => case Designing => case CodingBuffer => case Coding => case ReviewBuffer =>
      case Reviewing => case SecurityAuditBuffer => case Auditing => case DeploymentBuffer =>
      case Deploying => case Done =>
    }
  }

  lemma WeightOfMove(b: Board, b': Board, id: Id, t': Task)
    requires MovedOnly(b, b', id, t')
    ensures Weight(b') == Weight(b) - Index(b.tasks[id].Column()) + Index(t'.Column())
  {
    var from, to := b.tasks[id].Column(), t'.Column();
    forall c ensures Count(b', c) == Count(b, c) - At1(from, c) + At1(to, c) {}
    hide At1, Count, Index, MovedOnly;
    IndexAsWeight(from);
    IndexAsWeight(to);
  }

  lemma SameCountsSameWeight(b: Board, b': Board)
    requires forall c :: Count(b', c) == Count(b, c)
    ensures Weight(b') == Weight(b)
  {
  }

  // ── Every task is listed once, so the weight is at most ten per task ───────

  function LeftIds(b: Board): seq<Id> {
    Ids(b, Prioritized) + Ids(b, Designing) + Ids(b, CodingBuffer) + Ids(b, Coding) + Ids(b, ReviewBuffer)
  }

  function RightIds(b: Board): seq<Id> {
    Ids(b, Columns.Reviewing) + Ids(b, SecurityAuditBuffer) + Ids(b, Auditing) + Ids(b, DeploymentBuffer)
    + Ids(b, Deploying) + Ids(b, Done)
  }

  lemma LeftTimes(b: Board, id: Id)
    requires Filed(b)
    ensures multiset(LeftIds(b))[id] ==
      Listed(b.tasks, id, Prioritized) + Listed(b.tasks, id, Designing) + Listed(b.tasks, id, CodingBuffer)
      + Listed(b.tasks, id, Coding) + Listed(b.tasks, id, ReviewBuffer)
  {
    hide Listed, Ids;
    assert Times(b, id, Prioritized) == Listed(b.tasks, id, Prioritized);
    assert Times(b, id, Designing) == Listed(b.tasks, id, Designing);
    assert Times(b, id, CodingBuffer) == Listed(b.tasks, id, CodingBuffer);
    assert Times(b, id, Coding) == Listed(b.tasks, id, Coding);
    assert Times(b, id, ReviewBuffer) == Listed(b.tasks, id, ReviewBuffer);
  }

  lemma RightTimes(b: Board, id: Id)
    requires Filed(b)
    ensures multiset(RightIds(b))[id] ==
      Listed(b.tasks, id, Columns.Reviewing) + Listed(b.tasks, id, SecurityAuditBuffer) + Listed(b.tasks, id, Auditing)
      + Listed(b.tasks, id, DeploymentBuffer) + Listed(b.tasks, id, Deploying) + Listed(b.tasks, id, Done)
  {
    hide Listed, Ids;
    assert Times(b, id, Columns.Reviewing) == Listed(b.tasks, id, Columns.Reviewing);
    assert Times(b, id, SecurityAuditBuffer) == Listed(b.tasks, id, SecurityAuditBuffer);
    assert Times(b, id, Auditing) == Listed(b.tasks, id, Auditing);
    assert Times(b, id, DeploymentBuffer) == Listed(b.tasks, id, DeploymentBuffer);
    assert Times(b, id, Deploying) == Listed(b.tasks, id, Deploying);
    assert Times(b, id, Done) == Listed(b.tasks, id, Done);
  }

  /** Left and right of the review buffer together list every task exactly once. */
  lemma ListedOnce(b: Board, id: Id)
    requires Filed(b)
    ensures multiset(LeftIds(b))[id] + multiset(RightIds(b))[id] == if id in b.tasks then 1 else 0
  {
    hide LeftIds, RightIds, Filed;
    LeftTimes(b, id);
    RightTimes(b, id);
  }

  lemma CountsBoundWeight(b: Board)
    ensures Weight(b) <= 10 * (|LeftIds(b)| + |RightIds(b)|)
  {
  }

  /** The counts of the columns add up to the number of tasks. */
  lemma WeightIsBounded(b: Board)
    requires WellFormed(b)
    ensures |LeftIds(b)| + |RightIds(b)| == |b.tasks|
    ensures Weight(b) <= 10 * |b.tasks|
  {
    hide Weight, LeftIds, RightIds;
    var all := multiset(LeftIds(b)) + multiset(RightIds(b));
    forall id ensures all[id] == multiset(b.tasks.Keys)[id] {
      ListedOnce(b, id);
    }
    assert all == multiset(b.tasks.Keys);
    assert |all| == |LeftIds(b)| + |RightIds(b)| && |multiset(b.tasks.Keys)| == |b.tasks|;
    CountsBoundWeight(b);
  }

  // ── What each step counts for ─────────────────────────────────────────────

  /** One for an agent's move to the column it feeds and for an approval; nothing else moves forward. */
  ghost function Forward(s: State, a: Action): nat {
    match a
    case AgentStep(r, _) => if AgentOf(s, r).phase.Cleared? && AgentOf(s, r).phase.task.id in s.board.tasks then 1 else 0
    case Whole(op, _) => if op.OpApprove? && BufferOf(s.board, op.id).Some? then 1 else 0
    case _ => 0
  }

  /** The columns a rejection or a block moves its task back; a rejection to the right counts negative. */
  ghost function Back(s: State, a: Action): int {
    if !a.Whole? then 0
    else
      match a.op
      case OpReject(id, _) => if BufferOf(s.board, id).Some? then 1 else 0
      case OpRejectTo(id, target, _) =>
        if BufferOf(s.board, id).Some? && RoleOf(target).Some? then Index(BufferOf(s.board, id).value) - Index(target)
        else 0
      case OpBlock(id, _) => if id in s.board.tasks then Index(s.board.tasks[id].Column()) else 0
      case _ => 0
  }

  ghost predicate Accounted(s: State, a: Action, b': Board) {
    Weight(b') == Weight(s.board) + Forward(s, a) - Back(s, a)
  }

  lemma AgentAccounted(s: State, a: Action)
    requires Owned(s) && a.AgentStep?
    ensures Accounted(s, a, Apply(s, a).board)
  {
    hide AgentChange, WriteBoard, Inv, WellFormed, StoreFollows, Weight, OwnsRight;
    var w := AgentChange(s, a.role, a.input).0.board;
    AgentWrites(s, a.role, a.input);
    BoardIsWell(s);
    if AgentOf(s, a.role).phase.Cleared? {
      ClearedWeight(s, a.role, a.input);
    } else {
      WriteBoardEffect(s.board, w);
      SameCountsSameWeight(s.board, WriteBoard(s.board, w).0);
    }
  }

  lemma ClearedWeight(s: State, r: Role, x: Input)
    requires Owned(s) && AgentOf(s, r).phase.Cleared?
    ensures Weight(WriteBoard(s.board, AgentChange(s, r, x).0.board).0) == Weight(s.board) + 1
    ensures AgentOf(s, r).phase.task.id in s.board.tasks && WriteBoard(s.board, AgentChange(s, r, x).0.board).1
  {
    hide AgentChange, WriteBoard, Inv, WellFormed, StoreFollows, Weight;
    var p, w := AgentOf(s, r).phase, AgentChange(s, r, x).0.board;
    BoardIsWell(s);
    ClearedMoves(s, r, x);
    WriteBoardEffect(s.board, w);
    OwnsItsColumn(s, r);
    TargetIsNext(r);
    WeightOfMove(s.board, WriteBoard(s.board, w).0, p.task.id, s.board.tasks[p.task.id].(stage := At(Target(r))));
  }

  lemma TargetIsNext(r: Role)
    ensures Index(Target(r)) == Index(WorkColumn(r)) + 1
  {
  }

  /** A decision on a task in a buffer changes the weight by the distance to its target. */
  lemma DecisionWeight(s: State, id: Id, d: Decision, x: Input)
    requires Inv(Unchecked, s) && BufferOf(s.board, id).Some?
    ensures Weight(AfterDecision(s, id, d, x).board)
      == Weight(s.board) + Index(d.target) - Index(BufferOf(s.board, id).value)
  {
    hide DecideOn, Inv, WellFormed, BufferOf, Weight, FindUnresolved;
    BoardIsWell(s);
    BufferIsColumn(s.board, id);
    WriteBoardEffect(s.board, Decide(id, d, x.now));
    WeightOfMove(s.board, DecideOn(s.board, id, d, x.now).0, id, Decided(s.board.tasks[id], d, x.now));
  }

  lemma BlockWeight(s: State, id: Id, blockedBy: seq<Id>, from: Column)
    requires Inv(Unchecked, s) && id in s.board.tasks
    ensures Weight(AfterBlock(s, id, blockedBy, from).board) == Weight(s.board) - Index(s.board.tasks[id].Column())
  {
    hide BlockOn, Inv, WellFormed, Weight;
    BoardIsWell(s);
    WriteBoardEffect(s.board, Block(id, blockedBy));
    WeightOfMove(s.board, BlockOn(s.board, id, blockedBy).0, id, BlockedRecord(s.board.tasks[id], blockedBy));
  }

  lemma DecisionAccounted(s: State, a: Action)
    requires Owned(s) && a.Whole? && (a.op.OpApprove? || a.op.OpReject? || a.op.OpRejectTo?)
    ensures Accounted(s, a, Atomically(s, a.op, a.input).board)
  {
    hide AfterDecision, Inv, BufferOf, Weight, StoreFollows, AllOwnRight;
    var op := a.op;
    if BufferOf(s.board, op.id).Some? {
      var c := BufferOf(s.board, op.id).value;
      BufferIsBuffer(s.board, op.id);
      BufferNeighbours(c);
      if op.OpApprove? { DecisionWeight(s, op.id, Approved(Next(c).value), a.input); }
      else if op.OpReject? { DecisionWeight(s, op.id, Rejected(Prev(c).value, op.feedback), a.input); }
      else { DecisionWeight(s, op.id, Rejected(op.target, op.feedback), a.input); }
    }
  }

  lemma BlockAccounted(s: State, a: Action)
    requires Owned(s) && a.Whole? && a.op.OpBlock?
    ensures Accounted(s, a, Atomically(s, a.op, a.input).board)
  {
    hide AfterBlock, Inv, FindColumn, Weight, StoreFollows, AllOwnRight, WellFormed;
    BoardIsWell(s);
    FindColumnIsStage(s.board, a.op.id);
    if a.op.id in s.board.tasks { BlockWeight(s, a.op.id, a.op.blockedBy, FindColumn(s.board, a.op.id).value); }
  }

  /** Creating adds a task in column 0; priorities, notes and edits move nothing. */
  lemma EditAccounted(s: State, a: Action)
    requires Owned(s) && a.Whole? && (a.op.OpCreate? || a.op.OpPrioritize? || a.op.OpPark? || a.op.OpUpdate?)
    ensures Accounted(s, a, Atomically(s, a.op, a.input).board)
  {
    hide AddTask, SetPriority, WellFormed, StoreFollows, AllOwnRight, Weight;
    BoardIsWell(s);
    var op, x := a.op, a.input;
    if op.OpCreate? && x.newId !in s.used {
      NewTaskWeight(s.board, NewTask(x.newId, op.title, op.priority));
    } else if op.OpPrioritize? && op.id in s.store {
      SetPriorityEffect(s.board, s.store[op.id].id, op.priority);
      SameCountsSameWeight(s.board, SetPriority(s.board, s.store[op.id].id, op.priority));
    } else if op.OpPark? && op.id in s.store {
      SameCountsSameWeight(s.board, WriteBoard(s.board, SetNote(s.store[op.id].id, op.note)).0);
    } else if op.OpUpdate? && op.id in s.store {
      SameCountsSameWeight(s.board, Amend(s.board, Edited(s, op)));
    }
  }

  lemma NewTaskWeight(b: Board, t: Task)
    requires WellFormed(b) && t.id !in b.tasks && t.stage == Backlog
    ensures Weight(AddTask(b, t)) == Weight(b)
  {
    hide AddTask;
    AddTaskEffect(b, t);
  }

  lemma CallAccounted(s: State, a: Action)
    requires Owned(s) && a.Whole?
    ensures Accounted(s, a, Apply(s, a).board)
  {
    hide RunCall, Atomically, Owned, BufferOf, Weight;
    var op, x := a.op, a.input;
    WholeIsAtomic(s, op, x);
    if op.OpApprove? || op.OpReject? || op.OpRejectTo? { DecisionAccounted(s, a); }
    else if op.OpBlock? { BlockAccounted(s, a); }
    else if op.OpAnswer? || op.OpAsk? || op.OpDiscuss? { ReviewOpsWriteNoTask(s, op, x); }
    else { EditAccounted(s, a); }
  }

  /** No restart, and calls as in the ownership theorems. */
  ghost function Steady(): (State, Action) -> bool {
    (s: State, a: Action) => Undisturbed()(s, a) && !a.Restart?
  }

  lemma StepAccounted(s: State, a: Action)
    requires Owned(s) && Steady()(s, a)
    ensures Accounted(s, a, Apply(s, a).board)
  {
    hide AgentSection, LoopSection, RunCall, FinishEvent, Owned, Harmless, Weight, BufferOf;
    assert Undisturbed()(s, a);
    if a.AgentStep? { AgentAccounted(s, a); }
    else if a.LoopStep? { LoopSectionBoard(s, a.input); }
    else if a.WholeEvent? { EventKeepsBoard(s, a.input, EVENT_SECTIONS); }
    else if a.Whole? { CallAccounted(s, a); }
  }

  /** The moves forward in the first `k` steps. */
  ghost function TotalForward(states: seq<State>, run: seq<Action>, k: nat): nat
    requires k <= |run| && |states| == |run| + 1
  {
    if k == 0 then 0 else TotalForward(states, run, k - 1) + Forward(states[k - 1], run[k - 1])
  }

  /** The distance moved back in the first `k` steps. */
  ghost function TotalBack(states: seq<State>, run: seq<Action>, k: nat): int
    requires k <= |run| && |states| == |run| + 1
  {
    if k == 0 then 0 else TotalBack(states, run, k - 1) + Back(states[k - 1], run[k - 1])
  }

  /**
   * Move accounting.  At every point of a run the sum of column indices is the initial one plus the
   * moves forward minus the distance moved back, and there have been at most ten moves forward per
   * task plus that distance.
   */
  lemma {:induction false} MoveAccounting(states: seq<State>, run: seq<Action>, k: nat)
    requires Trace(states, run, Steady()) && Owned(states[0]) && k < |states|
    ensures Owned(states[k])
    ensures Weight(states[k].board) == Weight(states[0].board) + TotalForward(states, run, k) - TotalBack(states, run, k)
    ensures TotalForward(states, run, k) <= 10 * |states[k].board.tasks| + TotalBack(states, run, k)
  {
    hide Trace, Owned, Apply, Weight, Undisturbed, Forward, Back;
    if k > 0 {
      MoveAccounting(states, run, k - 1);
      LastStep(states, run, Steady(), k);
      StepOwned(states[k - 1], run[k - 1]);
      StepAccounted(states[k - 1], run[k - 1]);
    }
    OwnedIsBounded(states[k]);
  }

  lemma OwnedIsBounded(s: State)
    requires Owned(s)
    ensures Weight(s.board) <= 10 * |s.board.tasks|
  {
    hide StoreFollows, AllOwnRight, Weight;
    BoardIsWell(s);
    WeightIsBounded(s.board);
  }
}
