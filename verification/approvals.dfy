/**
 * Approvals are current.  When calls do not overlap and rework goes to the left, a task right of a
 * buffer has an approval for that buffer recorded after the last recorded return to it or left of it:
 * what has been sent back has been approved again.
 */
module Approvals {
  import opened Options
  import opened Columns
  import opened Kanban
  import opened ReviewQueues
  import opened Reviews
  import opened Protocol
  import opened Atomic
  import opened Effects
  import opened Gates
  import opened Wip
  import opened Steps
  import opened Ownership

  /** The entry records a return to the buffer or left of it. */
  predicate Returns(e: HistoryEntry, buffer: Column) {
    e.Rejection? && Index(ToColumn(e.returnedTo)) <= Index(buffer)
  }

  predicate ApprovesExit(e: HistoryEntry, buffer: Column) {
    e.Approval? && Next(buffer).Some? && e.targetStage == At(Next(buffer).value)
  }

  /** An approval for the buffer that no later return has taken back. */
  ghost predicate Stands(h: seq<HistoryEntry>, buffer: Column) {
    exists i :: 0 <= i < |h| && StandsAt(h, i, buffer)
  }

  ghost predicate StandsAt(h: seq<HistoryEntry>, i: nat, buffer: Column) {
    i < |h| && ApprovesExit(h[i], buffer) && forall j :: i < j < |h| ==> !Returns(h[j], buffer)
  }

  ghost predicate CurrentUpTo(h: seq<HistoryEntry>, c: Column) {
    forall buffer {:trigger Stands(h, buffer)} :: IsBuffer(buffer) && Index(buffer) < Index(c) ==> Stands(h, buffer)
  }

  ghost predicate Current(t: Task) {
    CurrentUpTo(t.history, t.Column())
  }

  ghost predicate AllCurrent(tasks: map<Id, Task>) {
    forall id :: id in tasks ==> Current(tasks[id])
  }

  ghost predicate Sound(s: State) {
    Owned(s) && AllCurrent(s.board.tasks) && AllCurrent(s.store)
  }

  /** Undisturbed harmless calls, and a rejection names a column left of the buffer. */
  ghost function Leftward(): (State, Action) -> bool {
    (s: State, a: Action) => Undisturbed()(s, a) && (a.Whole? ==> OpLeftward(s, a.op))
  }

  ghost predicate OpLeftward(s: State, op: Op) {
    op.OpRejectTo? && BufferOf(s.board, op.id).Some? ==> Index(op.target) < Index(BufferOf(s.board, op.id).value)
  }

  // ── Records ───────────────────────────────────────────────────────────────

  /** An entry that is no return to the buffer leaves its approval standing. */
  lemma StandsOn(h: seq<HistoryEntry>, e: HistoryEntry, buffer: Column)
    requires Stands(h, buffer) && !Returns(e, buffer)
    ensures Stands(h + [e], buffer)
  {
    var i :| 0 <= i < |h| && StandsAt(h, i, buffer);
    assert StandsAt(h + [e], i, buffer);
  }

  lemma CurrentLeft(h: seq<HistoryEntry>, c: Column, c': Column)
    requires CurrentUpTo(h, c) && (Index(c') <= Index(c) || (Index(c') == Index(c) + 1 && !IsBuffer(c)))
    ensures CurrentUpTo(h, c')
  {
    forall buffer | IsBuffer(buffer) && Index(buffer) < Index(c') ensures Stands(h, buffer) {
      SameIndex(buffer, c);
    }
  }

  lemma SameIndex(c: Column, d: Column)
    ensures Index(c) == Index(d) ==> c == d
  {
    NeighboursInOrder(c);
    NeighboursInOrder(d);
  }

  /** An approval out of a buffer or a return to its left keeps the record current. */
  lemma DecidedCurrent(t: Task, d: Decision, now: int)
    requires Current(t) && IsBuffer(t.Column())
    requires if d.Approved? then Next(t.Column()) == Some(d.target) else Index(d.target) < Index(t.Column())
    ensures Current(Decided(t, d, now))
  {
    hide Stands;
    var t' := Decided(t, d, now);
    var e := t'.history[|t.history|];
    assert t'.history == t.history + [e];
    BufferNeighbours(t.Column());
    forall buffer | IsBuffer(buffer) && Index(buffer) < Index(t'.Column()) ensures Stands(t'.history, buffer) {
      SameIndex(buffer, t.Column());
      if buffer == t.Column() { LastStands(t.history, e, buffer); }
      else { StandsOn(t.history, e, buffer); }
    }
  }

  lemma LastStands(h: seq<HistoryEntry>, e: HistoryEntry, buffer: Column)
    requires ApprovesExit(e, buffer)
    ensures Stands(h + [e], buffer)
  {
    assert StandsAt(h + [e], |h|, buffer);
  }

  lemma AtStart(t: Task)
    requires t.Column() == Prioritized
    ensures Current(t)
  {
  }

  // ── Agents ────────────────────────────────────────────────────────────────

  lemma AgentSound(s: State, r: Role, x: Input)
    requires Sound(s)
    ensures Sound(AgentSection(s, r, x))
  {
    hide AgentSection, Owned, AgentBoard, AgentStore, Current;
    AgentOwned(s, r, x);
    OwnedIsInv(s);
    AgentBoardEffect(s, r, x);
    AgentStoreEffect(s, r, x);
    MovedCurrent(s, r, AgentSection(s, r, x).board.tasks);
    SavedCurrent(s, r, AgentSection(s, r, x).store);
  }

  lemma OwnedIsInv(s: State)
    requires Owned(s)
    ensures Inv(Unchecked, s) && AllOwnRight(s)
  {
  }

  lemma MovedCurrent(s: State, r: Role, tasks: map<Id, Task>)
    requires AllOwnRight(s) && AllCurrent(s.board.tasks) && AgentBoard(s, r, tasks)
    ensures AllCurrent(tasks)
  {
    hide CurrentUpTo;
    var p := AgentOf(s, r).phase;
    if p.Cleared? && p.task.id in s.board.tasks {
      OwnsItsColumn(s, r);
      TargetFollows(r);
      CurrentLeft(s.board.tasks[p.task.id].history, WorkColumn(r), Target(r));
    }
  }

  lemma TargetFollows(r: Role)
    ensures Index(Target(r)) == Index(WorkColumn(r)) + 1 && !IsBuffer(WorkColumn(r))
  {
  }

  lemma SavedCurrent(s: State, r: Role, store: map<Id, Task>)
    requires AllOwnRight(s) && AllCurrent(s.board.tasks) && AllCurrent(s.store) && AgentStore(s, r, store)
    ensures AllCurrent(store)
  {
    hide CurrentUpTo;
    var p := AgentOf(s, r).phase;
    if p.Branched? { OwnsItsColumn(s, r); assert OwnsRight(s.board.tasks, s.store, r, p); }
  }

  // ── Calls ─────────────────────────────────────────────────────────────────

  lemma WrittenCurrent(tasks: map<Id, Task>, tasks': map<Id, Task>, id: Id, t: Task)
    requires AllCurrent(tasks) && tasks' == tasks[id := t] && Current(t)
    ensures AllCurrent(tasks')
  {
    hide Current;
  }

  lemma DecisionCurrent(s: State, op: Op, x: Input)
    requires Sound(s) && OpLeftward(s, op) && (op.OpApprove? || op.OpReject? || op.OpRejectTo?)
    ensures AllCurrent(Atomically(s, op, x).board.tasks) && AllCurrent(Atomically(s, op, x).store)
  {
    hide AfterDecision, Owned, BufferOf, AllCurrent;
    if BufferOf(s.board, op.id).Some? {
      var c := BufferOf(s.board, op.id).value;
      BufferIsBuffer(s.board, op.id);
      BufferNeighbours(c);
      if op.OpApprove? { DecidedSound(s, op.id, Approved(Next(c).value), x); }
      else if op.OpReject? { DecidedSound(s, op.id, Rejected(Prev(c).value, op.feedback), x); }
      else { DecidedSound(s, op.id, Rejected(op.target, op.feedback), x); }
    }
  }

  lemma DecidedSound(s: State, id: Id, d: Decision, x: Input)
    requires Sound(s) && BufferOf(s.board, id).Some?
    requires var c := BufferOf(s.board, id).value;
      if d.Approved? then Next(c) == Some(d.target) else Index(d.target) < Index(c)
    ensures AllCurrent(AfterDecision(s, id, d, x).board.tasks) && AllCurrent(AfterDecision(s, id, d, x).store)
  {
    hide AfterDecision, Owned, BufferOf, Current, InFlight, SamePhases, Behind;
    DecisionWrites(s, id, d, x);
    OwnedIsInv(s);
    InvIsWell(s);
    BufferIsColumn(s.board, id);
    DecidedCurrent(s.board.tasks[id], d, x.now);
  }

  lemma InvIsWell(s: State)
    requires Inv(Unchecked, s)
    ensures WellFormed(s.board)
  {
  }

  /** A record of the same history in the same column, or one sent to the start. */
  lemma OtherCurrent(s: State, op: Op, x: Input)
    requires Sound(s) && Harmless(s, op)
    requires op.OpBlock? || op.OpCreate? || op.OpPrioritize? || op.OpPark? || op.OpUpdate?
    ensures AllCurrent(Atomically(s, op, x).board.tasks) && AllCurrent(Atomically(s, op, x).store)
  {
    if op.OpBlock? { BlockedCurrent(s, op, x); }
    else if op.OpCreate? { CreatedCurrent(s, op, x); }
    else if op.OpUpdate? { EditedCurrent(s, op, x); }
    else { TouchedCurrent(s, op, x); }
  }

  lemma BlockedCurrent(s: State, op: Op, x: Input)
    requires Sound(s) && op.OpBlock?
    ensures AllCurrent(Atomically(s, op, x).board.tasks) && AllCurrent(Atomically(s, op, x).store)
  {
    hide AfterBlock, Owned, FindColumn, Current, InFlight, SamePhases;
    OwnedIsInv(s);
    if FindColumn(s.board, op.id).Some? {
      BlockLands(s, op.id, op.blockedBy, FindColumn(s.board, op.id).value);
      AtStart(BlockedRecord(s.board.tasks[op.id], op.blockedBy));
    }
  }

  lemma CreatedCurrent(s: State, op: Op, x: Input)
    requires Sound(s) && op.OpCreate?
    ensures AllCurrent(Atomically(s, op, x).board.tasks) && AllCurrent(Atomically(s, op, x).store)
  {
    hide Owned, AddTask, Current, InFlight, SamePhases, Behind;
    if x.newId !in s.used {
      CreateWrites(s, op, x);
      AtStart(NewTask(x.newId, op.title, op.priority));
    }
  }

  lemma EditedCurrent(s: State, op: Op, x: Input)
    requires Sound(s) && op.OpUpdate? && EditFits(s, op)
    ensures AllCurrent(Atomically(s, op, x).board.tasks) && AllCurrent(Atomically(s, op, x).store)
  {
    hide Owned, InOrder, SamePhases, CurrentUpTo;
    if op.id in s.store {
      EditWrites(s, op, x);
      assert Current(s.board.tasks[op.id]) && Current(Edited(s, op));
    }
  }

  lemma TouchedCurrent(s: State, op: Op, x: Input)
    requires Sound(s) && (op.OpPrioritize? || op.OpPark?)
    ensures AllCurrent(Atomically(s, op, x).board.tasks) && AllCurrent(Atomically(s, op, x).store)
  {
    hide Owned, Atomically, CurrentUpTo, InFlight, SamePhases, Behind;
    if op.id !in s.store { UnknownEdit(s, op, x); }
    else {
      if op.OpPrioritize? { RankWrites(s, op, x); } else { ParkWrites(s, op, x); }
      assert Current(s.board.tasks[op.id]) && Current(s.store[op.id]);
    }
  }

  lemma CallSound(s: State, op: Op, x: Input)
    requires Sound(s) && Harmless(s, op) && OpLeftward(s, op)
    ensures Sound(RunCall(s, op, x))
  {
    hide RunCall, Atomically, Owned, AllCurrent, Harmless, OpLeftward;
    WholeIsAtomic(s, op, x);
    CallOwned(s, op, x);
    if op.OpApprove? || op.OpReject? || op.OpRejectTo? { DecisionCurrent(s, op, x); }
    else if op.OpAnswer? || op.OpAsk? || op.OpDiscuss? { ReviewOpsWriteNoTask(s, op, x); }
    else { OtherCurrent(s, op, x); }
  }

  // ── Steps and runs ────────────────────────────────────────────────────────

  lemma LeftwardMeans(s: State, a: Action)
    requires Leftward()(s, a)
    ensures Undisturbed()(s, a) && (a.Whole? ==> OpLeftward(s, a.op) && Harmless(s, a.op)) && !a.Begin? && !a.Continue?
  {
    assert Undisturbed()(s, a);
  }

  lemma StepSound(s: State, a: Action)
    requires Sound(s) && Leftward()(s, a)
    ensures Sound(Apply(s, a))
  {
    hide AgentSection, LoopSection, RunCall, FinishEvent, Boot, CanBoot, Owned, AllCurrent, Harmless, OpLeftward, Leftward;
    LeftwardMeans(s, a);
    StepOwned(s, a);
    if a.AgentStep? { AgentSound(s, a.role, a.input); }
    else if a.LoopStep? { LoopSectionBoard(s, a.input); }
    else if a.WholeEvent? { EventKeepsBoard(s, a.input, EVENT_SECTIONS); }
    else if a.Whole? { CallSound(s, a.op, a.input); }
    else if a.Restart? {
      if CanBoot(s, a.order, a.reviewOrder) { BootSound(s, a.order, a.reviewOrder, a.limits); }
    }
  }

  lemma BootSound(s: State, order: seq<Id>, reviewOrder: seq<Id>, limits: map<Column, Priority>)
    requires Owned(s) && CanBoot(s, order, reviewOrder)
    ensures var s' := Boot(s, order, reviewOrder, limits); s'.board.tasks == s.store && s'.store == s.store
  {
    hide FromTasks, CanBoot, AllOwnRight, StoreFollows;
    BoardIsWell(s);
    BootBoard(s, order, reviewOrder, limits);
  }

  lemma {:induction false} RunSound(states: seq<State>, run: seq<Action>, k: nat)
    requires Trace(states, run, Leftward()) && Sound(states[0]) && k < |states|
    ensures Sound(states[k])
  {
    hide Trace, Sound, Apply, Leftward;
    if k > 0 {
      RunSound(states, run, k - 1);
      LastStep(states, run, Leftward(), k);
      StepSound(states[k - 1], run[k - 1]);
    }
  }

  lemma FreshIsSound()
    ensures Sound(FRESH)
  {
    FreshInv(Unchecked);
  }

  /**
   * In every state of such a run from a fresh installation, restarts included, a task right of a buffer
   * has an approval for the buffer, on the board and in the store, that is younger than every recorded
   * return of the task to that buffer or left of it.
   */
  lemma ApprovalsAreCurrent(states: seq<State>, run: seq<Action>, k: nat, id: Id, buffer: Column)
    requires Trace(states, run, Leftward()) && states[0] == FRESH && k < |states| && IsBuffer(buffer)
    ensures var b := states[k].board;
      id in b.tasks && Index(buffer) < Index(b.tasks[id].Column()) ==> Stands(b.tasks[id].history, buffer)
    ensures var store := states[k].store;
      id in store && Index(buffer) < Index(store[id].Column()) ==> Stands(store[id].history, buffer)
  {
    hide Trace, Owned, Stands;
    FreshIsSound();
    RunSound(states, run, k);
    assert id in states[k].board.tasks ==> Current(states[k].board.tasks[id]);
    assert id in states[k].store ==> Current(states[k].store[id]);
  }
}
