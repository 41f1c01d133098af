/**
 * Ownership and restart safety, when dispatcher calls run to their end undisturbed: a task is worked
 * by one role at a time and stays in that role's column, and the store is never more than one
 * column behind the board.  Agents and the event loop still interleave section by section.
 */
module Ownership {
  import opened Options
  import opened Columns
  import opened Kanban
  import opened ReviewQueues
  import opened Reviews
  import opened Protocol
  import opened Atomic
  import opened Effects
  import opened Gates
  import opened Wip
  import opened Steps

  /** The agent works on its snapshot's task and has not moved it on yet. */
  predicate Owns(p: Phase) {
    !Resting(p) && !p.Moved? && !p.Announced?
  }

  /** The agent's output has been saved and the task not moved since. */
  predicate Saved(p: Phase) {
    p.Verifying? || p.Retrying? || p.Gated? || p.Counted? || p.Cleared?
  }

  ghost predicate InFlight(s: State, id: Id) {
    exists r :: Owns(AgentOf(s, r).phase) && AgentOf(s, r).phase.task.id == id
  }

  /** A block that takes a task in flight out of the column its agent works in. */
  ghost predicate Uproots(s: State, op: Op) {
    op.OpBlock? && InFlight(s, op.id) && FindColumn(s.board, op.id).Some? && FindColumn(s.board, op.id) != Some(Prioritized)
  }

  /** The record an edit puts on the board. */
  function Edited(s: State, op: Op): Task
    requires op.OpUpdate? && op.id in s.store
  {
    s.store[op.id].(title := op.title)
  }

  /** The edited record belongs where the task is shown, column and rank. */
  ghost predicate EditFits(s: State, op: Op) {
    op.OpUpdate? && op.id in s.store && op.id in s.board.tasks ==>
      Edited(s, op).Column() == s.board.tasks[op.id].Column()
      && InOrder(s.board.tasks[op.id := Edited(s, op)], Ids(s.board, Edited(s, op).Column()))
  }

  /** What a caller could check before the call; `CallOwnedIff` shows that it is what the invariant needs. */
  ghost predicate Harmless(s: State, op: Op) {
    !Uproots(s, op) && EditFits(s, op)
  }

  /** Calls run undisturbed and are harmless. */
  ghost function Undisturbed(): (State, Action) -> bool {
    (s: State, a: Action) => !a.Begin? && !a.Continue? && (a.Whole? ==> Harmless(s, a.op))
  }

  // ── The invariant ─────────────────────────────────────────────────────────

  /** What an agent's snapshot says is still true of the board, and after saving also of the store. */
  ghost predicate OwnsRight(tasks: map<Id, Task>, store: map<Id, Task>, r: Role, p: Phase) {
    Owns(p) ==>
      var id := p.task.id;
      && id in tasks && tasks[id].Column() == WorkColumn(r)
      && p.task.Column() == WorkColumn(r) && p.task.history == tasks[id].history
      && (Saved(p) ==> id in store && store[id].Column() == WorkColumn(r))
  }

  ghost predicate AllOwnRight(s: State) {
    forall r :: OwnsRight(s.board.tasks, s.store, r, AgentOf(s, r).phase)
  }

  /** A stored record is the board's or one column behind it, with the same history. */
  predicate Behind(stored: Task, shown: Task) {
    && stored.history == shown.history
    && (Index(shown.Column()) == Index(stored.Column()) || Index(shown.Column()) == Index(stored.Column()) + 1)
  }

  /** Board and store hold the same tasks and agree up to one column. */
  ghost predicate StoreFollows(tasks: map<Id, Task>, store: map<Id, Task>) {
    && tasks.Keys == store.Keys
    && forall id :: id in tasks ==> Behind(store[id], tasks[id])
  }

  ghost predicate Owned(s: State) {
    Inv(Unchecked, s) && AllOwnRight(s) && StoreFollows(s.board.tasks, s.store)
  }

  lemma OwnsItsColumn(s: State, r: Role)
    requires AllOwnRight(s) && Owns(AgentOf(s, r).phase)
    ensures var id := AgentOf(s, r).phase.task.id;
      id in s.board.tasks && s.board.tasks[id].Column() == WorkColumn(r) && InFlight(s, id)
  {
    assert OwnsRight(s.board.tasks, s.store, r, AgentOf(s, r).phase);
  }

  /** A task in flight is in a work column, so not in a buffer and not in Done. */
  lemma FlightIsWork(s: State, id: Id)
    requires AllOwnRight(s) && InFlight(s, id)
    ensures id in s.board.tasks && RoleOf(s.board.tasks[id].Column()).Some?
  {
    var r :| Owns(AgentOf(s, r).phase) && AgentOf(s, r).phase.task.id == id;
    OwnsItsColumn(s, r);
  }

  /** No two roles own one task. */
  lemma ExclusiveOwner(s: State, r1: Role, r2: Role)
    requires AllOwnRight(s) && Owns(AgentOf(s, r1).phase) && Owns(AgentOf(s, r2).phase)
    requires AgentOf(s, r1).phase.task.id == AgentOf(s, r2).phase.task.id
    ensures r1 == r2
  {
    OwnsItsColumn(s, r1);
    OwnsItsColumn(s, r2);
    FeedersAreUnique(Done, r1, r2);
  }

  // ── Agents ────────────────────────────────────────────────────────────────

  /** Where an agent's ownership and its saved state come from. */
  lemma OwnSteps(s: State, r: Role, x: Input)
    ensures var p, next := AgentOf(s, r).phase, AgentChange(s, r, x).1;
      && (Owns(next) ==> next.Picked? || (Owns(p) && !p.Cleared? && next.task == p.task))
      && (next.Picked? ==> p.Unblocked? && NextUnblocked(s.board, WorkColumn(r)) == Some(next.task))
      && (Saved(next) ==> p.Reported? || Saved(p))
  {
  }

  lemma BoardIsWell(s: State)
    requires Inv(Unchecked, s)
    ensures WellFormed(s.board) && forall id :: id in s.board.tasks ==> s.board.tasks[id].id == id
    ensures forall id :: id in s.store ==> s.store[id].id == id
  {
  }

  /** The agent's own task on the board after its section: moved when it was cleared, else in place. */
  ghost predicate AgentBoard(s: State, r: Role, tasks: map<Id, Task>) {
    var p := AgentOf(s, r).phase;
    if p.Cleared? && p.task.id in s.board.tasks
    then tasks == s.board.tasks[p.task.id := s.board.tasks[p.task.id].(stage := At(Target(r)))]
    else SameStages(s.board.tasks, tasks)
  }

  ghost predicate SameStages(tasks: map<Id, Task>, tasks': map<Id, Task>) {
    && tasks'.Keys == tasks.Keys
    && forall id :: id in tasks ==> tasks'[id].stage == tasks[id].stage && tasks'[id].history == tasks[id].history
  }

  /** The agent's own task in the store after its section: a saved board copy, its snapshot, or no change. */
  ghost predicate AgentStore(s: State, r: Role, store: map<Id, Task>) {
    var p := AgentOf(s, r).phase;
    if p.Reported? && p.task.id in s.board.tasks then store == s.store[p.task.id := s.board.tasks[p.task.id]]
    else if p.Branched? then store == s.store[p.task.id := p.task.(branch := Some(p.branch))]
    else store == s.store
  }

  lemma AgentBoardEffect(s: State, r: Role, x: Input)
    requires Inv(Unchecked, s)
    ensures AgentBoard(s, r, AgentSection(s, r, x).board.tasks)
  {
    hide AgentChange, WriteBoard, Inv, WellFormed;
    AgentWrites(s, r, x);
    BoardIsWell(s);
    WriteBoardEffect(s.board, AgentChange(s, r, x).0.board);
    if AgentOf(s, r).phase.Cleared? { ClearedMoves(s, r, x); }
  }

  lemma ClearedMoves(s: State, r: Role, x: Input)
    requires AgentOf(s, r).phase.Cleared?
    ensures AgentChange(s, r, x).0.board == Move(AgentOf(s, r).phase.task.id, Target(r))
  {
  }

  lemma AgentStoreEffect(s: State, r: Role, x: Input)
    requires Inv(Unchecked, s)
    ensures AgentStore(s, r, AgentSection(s, r, x).store)
  {
    hide Inv, WriteBoard, NextUnblocked;
    BoardIsWell(s);
  }

  lemma OthersAfterAgent(s: State, r: Role, q: Role, tasks: map<Id, Task>, store: map<Id, Task>)
    requires AllOwnRight(s) && q != r && (Owns(AgentOf(s, r).phase) || (tasks, store) == (s.board.tasks, s.store))
    requires AgentBoard(s, r, tasks) && AgentStore(s, r, store)
    ensures OwnsRight(tasks, store, q, AgentOf(s, q).phase)
  {
    assert OwnsRight(s.board.tasks, s.store, q, AgentOf(s, q).phase);
    if Owns(AgentOf(s, q).phase) && Owns(AgentOf(s, r).phase)
       && AgentOf(s, q).phase.task.id == AgentOf(s, r).phase.task.id {
      ExclusiveOwner(s, q, r);
    }
  }

  lemma PickedRight(s: State, r: Role, t: Task)
    requires Inv(Unchecked, s) && NextUnblocked(s.board, WorkColumn(r)) == Some(t)
    ensures OwnsRight(s.board.tasks, s.store, r, Picked(t))
  {
    BoardIsWell(s);
    PickIsBestReady(s.board, WorkColumn(r));
  }

  /** The agent's next phase is right whenever its snapshot was. */
  lemma OwnAfterAgent(s: State, r: Role, next: Phase, tasks: map<Id, Task>, store: map<Id, Task>)
    requires var p := AgentOf(s, r).phase;
      && OwnsRight(s.board.tasks, s.store, r, p)
      && Owns(p) && !p.Cleared? && Owns(next) && next.task == p.task && (Saved(next) ==> p.Reported? || Saved(p))
    requires AgentBoard(s, r, tasks) && AgentStore(s, r, store)
    ensures OwnsRight(tasks, store, r, next)
  {
    hide SameStages;
    var p := AgentOf(s, r).phase;
    StillInPlace(s.board.tasks, tasks, p.task.id);
    SavedStays(s, r, store);
  }

  lemma StillInPlace(tasks: map<Id, Task>, tasks': map<Id, Task>, id: Id)
    requires SameStages(tasks, tasks') && id in tasks
    ensures id in tasks' && tasks'[id].stage == tasks[id].stage && tasks'[id].history == tasks[id].history
  {
  }

  lemma SavedStays(s: State, r: Role, store: map<Id, Task>)
    requires var p := AgentOf(s, r).phase; OwnsRight(s.board.tasks, s.store, r, p) && Owns(p) && AgentStore(s, r, store)
    ensures var p := AgentOf(s, r).phase;
      p.Reported? || Saved(p) ==> p.task.id in store && store[p.task.id].Column() == WorkColumn(r)
  {
    hide SameStages;
  }

  lemma AgentStoreFollows(s: State, r: Role, tasks: map<Id, Task>, store: map<Id, Task>)
    requires StoreFollows(s.board.tasks, s.store) && OwnsRight(s.board.tasks, s.store, r, AgentOf(s, r).phase)
    requires AgentBoard(s, r, tasks) && AgentStore(s, r, store)
    ensures StoreFollows(tasks, store)
  {
    var p := AgentOf(s, r).phase;
    if p.Reported? || p.Branched? { SavedFollows(s.board.tasks, s.store, r, p, tasks, store); }
    else { MovedFollows(s.board.tasks, s.store, r, p, tasks); }
  }

  /** A move takes the board one column ahead of the record saved before it. */
  lemma MovedFollows(tasks: map<Id, Task>, store: map<Id, Task>, r: Role, p: Phase, tasks': map<Id, Task>)
    requires StoreFollows(tasks, store) && OwnsRight(tasks, store, r, p)
    requires if p.Cleared? && p.task.id in tasks
             then tasks' == tasks[p.task.id := tasks[p.task.id].(stage := At(Target(r)))]
             else SameStages(tasks, tasks')
    ensures StoreFollows(tasks', store)
  {
  }

  /** A save of the board's copy, or of the snapshot it was picked with, leaves no distance or the old one. */
  lemma SavedFollows(tasks: map<Id, Task>, store: map<Id, Task>, r: Role, p: Phase,
                     tasks': map<Id, Task>, store': map<Id, Task>)
    requires StoreFollows(tasks, store) && OwnsRight(tasks, store, r, p) && (p.Reported? || p.Branched?)
    requires SameStages(tasks, tasks')
    requires store' == store[p.task.id := if p.Branched? then p.task.(branch := Some(p.branch)) else tasks[p.task.id]]
    ensures StoreFollows(tasks', store')
  {
  }

  lemma RestingWritesNothing(s: State, r: Role, x: Input)
    requires !Owns(AgentOf(s, r).phase)
    ensures AgentSection(s, r, x).board == s.board && AgentSection(s, r, x).store == s.store
  {
    hide AgentChange;
    RestingChange(s, r, x);
  }

  lemma RestingChange(s: State, r: Role, x: Input)
    requires !Owns(AgentOf(s, r).phase)
    ensures AgentChange(s, r, x).0.board == KeepBoard && AgentChange(s, r, x).0.store == KeepStore
  {
    hide NextUnblocked;
  }

  lemma AgentOwned(s: State, r: Role, x: Input)
    requires Owned(s)
    ensures Owned(AgentSection(s, r, x))
  {
    hide AgentSection, Inv, AgentBoard, AgentStore, StoreFollows, OwnsRight;
    var s' := AgentSection(s, r, x);
    AgentKeeps(Unchecked, s, r, x);
    AgentBoardEffect(s, r, x);
    AgentStoreEffect(s, r, x);
    assert OwnsRight(s.board.tasks, s.store, r, AgentOf(s, r).phase);
    AgentStoreFollows(s, r, s'.board.tasks, s'.store);
    if !Owns(AgentOf(s, r).phase) { RestingWritesNothing(s, r, x); }
    forall q ensures OwnsRight(s'.board.tasks, s'.store, q, AgentOf(s', q).phase) {
      PhaseAfter(s, r, x, q);
      if q == r {
        SelfAfterAgent(s, r, x);
      } else {
        OthersAfterAgent(s, r, q, s'.board.tasks, s'.store);
      }
    }
  }

  lemma PhaseAfter(s: State, r: Role, x: Input, q: Role)
    ensures AgentOf(AgentSection(s, r, x), q).phase == if q == r then AgentChange(s, r, x).1 else AgentOf(s, q).phase
  {
    hide AgentChange, Perform;
  }

  lemma SelfAfterAgent(s: State, r: Role, x: Input)
    requires Owned(s)
    ensures var s' := AgentSection(s, r, x); OwnsRight(s'.board.tasks, s'.store, r, AgentChange(s, r, x).1)
  {
    hide AgentSection, AgentChange, Inv, AgentBoard, AgentStore, StoreFollows, NextUnblocked;
    var s', next := AgentSection(s, r, x), AgentChange(s, r, x).1;
    OwnSteps(s, r, x);
    assert OwnsRight(s.board.tasks, s.store, r, AgentOf(s, r).phase);
    if next.Picked? {
      PickedRight(s, r, next.task);
      RestingWritesNothing(s, r, x);
    } else if Owns(next) {
      AgentBoardEffect(s, r, x);
      AgentStoreEffect(s, r, x);
      OwnAfterAgent(s, r, next, s'.board.tasks, s'.store);
    }
  }

  // ── The event loop and the calls ──────────────────────────────────────────

  /** One record changes on the board and in the store; a task in flight keeps its column and history. */
  ghost predicate BothWritten(s: State, s': State, id: Id, t: Task, u: Task) {
    && s'.board.tasks == s.board.tasks[id := t] && s'.store == s.store[id := u] && Behind(u, t)
    && (InFlight(s, id) && id in s.board.tasks && id in s.store ==>
          t.Column() == s.board.tasks[id].Column() && t.history == s.board.tasks[id].history
          && u.Column() == s.store[id].Column())
  }

  ghost predicate SamePhases(s: State, s': State) {
    forall r :: AgentOf(s', r).phase == AgentOf(s, r).phase
  }

  lemma WrittenOwned(s: State, s': State, id: Id, t: Task, u: Task)
    requires Owned(s) && Inv(Unchecked, s') && SamePhases(s, s') && BothWritten(s, s', id, t, u)
    ensures Owned(s')
  {
    hide Inv;
    forall r ensures OwnsRight(s'.board.tasks, s'.store, r, AgentOf(s', r).phase) {
      assert OwnsRight(s.board.tasks, s.store, r, AgentOf(s, r).phase);
      if Owns(AgentOf(s, r).phase) { OwnsItsColumn(s, r); }
    }
  }

  lemma UnwrittenOwned(s: State, s': State)
    requires Owned(s) && Inv(Unchecked, s') && SamePhases(s, s')
    requires s'.board == s.board && s'.store == s.store
    ensures Owned(s')
  {
    hide Inv;
    forall r ensures OwnsRight(s'.board.tasks, s'.store, r, AgentOf(s', r).phase) {
      assert OwnsRight(s.board.tasks, s.store, r, AgentOf(s, r).phase);
    }
  }

  lemma LoopOwned(s: State, x: Input)
    requires Owned(s)
    ensures Owned(LoopSection(s, x))
  {
    LoopKeeps(Unchecked, s, x);
    LoopWritesNoTask(s, x);
    SignalKeepsPhases(s.agents, LoopChange(s, x).0.signal);
    UnwrittenOwned(s, LoopSection(s, x));
  }

  lemma {:induction false} EventOwned(s: State, x: Input, fuel: nat)
    requires Owned(s)
    ensures Owned(FinishEvent(s, x, fuel))
    decreases fuel
  {
    hide LoopSection, Owned;
    LoopOwned(s, x);
    if !LoopSection(s, x).loop.Listening? && fuel > 0 {
      EventOwned(LoopSection(s, x), x, fuel - 1);
    }
  }

  /** A decision taken on a task in a buffer, or a block of a task not in flight, writes board and store alike. */
  lemma DecisionWrites(s: State, id: Id, d: Decision, x: Input)
    requires Owned(s) && BufferOf(s.board, id).Some?
    ensures var s' := AfterDecision(s, id, d, x);
      && SamePhases(s, s') && !InFlight(s, id) && id in s.board.tasks
      && BothWritten(s, s', id, Decided(s.board.tasks[id], d, x.now), Decided(s.board.tasks[id], d, x.now))
  {
    hide DecideOn, Inv, WellFormed, BufferOf, AllOwnRight, StoreFollows, InFlight, FindUnresolved;
    BoardIsWell(s);
    BufferIsColumn(s.board, id);
    WriteBoardEffect(s.board, Decide(id, d, x.now));
    SignalKeepsPhases(s.agents, RoleOf(d.target));
    if InFlight(s, id) { FlightIsWork(s, id); }
  }

  /** A block writes one record to board and store alike, in flight or not. */
  lemma BlockLands(s: State, id: Id, blockedBy: seq<Id>, from: Column)
    requires Inv(Unchecked, s) && FindColumn(s.board, id) == Some(from)
    ensures var s' := AfterBlock(s, id, blockedBy, from);
      && id in s.board.tasks && s.board.tasks[id].Column() == from && SamePhases(s, s')
      && s'.board.tasks == s.board.tasks[id := BlockedRecord(s.board.tasks[id], blockedBy)]
      && s'.store == s.store[id := BlockedRecord(s.board.tasks[id], blockedBy)]
  {
    hide BlockOn, Inv, WellFormed, FindColumn;
    BoardIsWell(s);
    FindColumnIsStage(s.board, id);
    WriteBoardEffect(s.board, Block(id, blockedBy));
    SignalKeepsPhases(s.agents, Some(Prioritizer));
  }

  lemma BlockWrites(s: State, id: Id, blockedBy: seq<Id>, from: Column)
    requires Owned(s) && FindColumn(s.board, id) == Some(from) && (InFlight(s, id) ==> from == Prioritized)
    ensures var s' := AfterBlock(s, id, blockedBy, from);
      && id in s.board.tasks && s.board.tasks[id].Column() == from && SamePhases(s, s')
      && BothWritten(s, s', id, BlockedRecord(s.board.tasks[id], blockedBy), BlockedRecord(s.board.tasks[id], blockedBy))
  {
    hide AfterBlock, Inv, FindColumn, AllOwnRight, InFlight, SamePhases;
    BlockLands(s, id, blockedBy, from);
    assert Behind(s.store[id], s.board.tasks[id]);
  }

  /** An edit puts the stored record, with a new title, on the board. */
  lemma EditWrites(s: State, op: Op, x: Input)
    requires Owned(s) && op.OpUpdate? && op.id in s.store
    ensures var s' := Atomically(s, op, x); var t := Edited(s, op);
      && SamePhases(s, s') && op.id in s.board.tasks && t.id == op.id && t.history == s.board.tasks[op.id].history
      && s' == s.(board := Amend(s.board, t), store := s.store[op.id := t])
      && s'.board.tasks == s.board.tasks[op.id := t] && s'.board.columns == s.board.columns
  {
    hide Inv, AllOwnRight, InFlight;
    BoardIsWell(s);
    StoredIsShown(s, op.id);
  }

  lemma EditKeepsWell(b: Board, t: Task)
    requires WellFormed(b) && t.id in b.tasks && t.Column() == b.tasks[t.id].Column()
    requires InOrder(b.tasks[t.id := t], Ids(b, t.Column()))
    ensures WellFormed(Amend(b, t))
  {
    var b' := Amend(b, t);
    forall c, x ensures Times(b', x, c) == Listed(b'.tasks, x, c) {
      assert Times(b, x, c) == Listed(b.tasks, x, c);
    }
    forall c ensures InOrder(b'.tasks, Ids(b', c)) {
      if c != t.Column() {
        assert Times(b, t.id, c) == Listed(b.tasks, t.id, c);
        OrderElsewhere(b.tasks, b'.tasks, Ids(b, c), t.id);
      }
    }
  }

  lemma EditInv(s: State, op: Op, x: Input)
    requires Owned(s) && op.OpUpdate? && op.id in s.store && EditFits(s, op)
    ensures Inv(Unchecked, Atomically(s, op, x))
  {
    hide AllOwnRight, StoreFollows, InFlight, WellFormed, InOrder, Atomically, SamePhases;
    EditWrites(s, op, x);
    EditKeepsWell(s.board, Edited(s, op));
    var s' := Atomically(s, op, x);
    hide Holds;
    assert forall id :: id in s.board.tasks <==> id in s'.board.tasks;
    SameKeysFit(s.board.tasks, s'.board.tasks, s.used, s.agents, s.calls);
  }

  /** Without recorded decisions to look at, what is asked of snapshots and calls depends on the task ids only. */
  lemma SameKeysFit(tasks: map<Id, Task>, tasks': map<Id, Task>, used: set<Id>, agents: map<Role, Agent>, calls: map<nat, Call>)
    requires PhasesFit(Unchecked, tasks, agents) && CallsFit(Unchecked, tasks, used, calls) && tasks'.Keys == tasks.Keys
    ensures PhasesFit(Unchecked, tasks', agents) && CallsFit(Unchecked, tasks', used, calls)
  {
    forall r ensures PhaseFits(Unchecked, tasks', r, AgentIn(agents, r).phase) {
      assert PhaseFits(Unchecked, tasks, r, AgentIn(agents, r).phase);
    }
    forall pid | pid in calls ensures CallFits(Unchecked, tasks', used, calls[pid]) {
      assert CallFits(Unchecked, tasks, used, calls[pid]);
      SameKeysCall(tasks, tasks', used, calls[pid]);
    }
  }

  lemma SameKeysCall(tasks: map<Id, Task>, tasks': map<Id, Task>, used: set<Id>, call: Call)
    requires CallFits(Unchecked, tasks, used, call) && tasks'.Keys == tasks.Keys
    ensures CallFits(Unchecked, tasks', used, call)
  {
    if call.Deciding? && call.decision.Approved? {
      var buffer :| IsBuffer(buffer) && Next(buffer) == Some(call.decision.target)
                    && Holds(Unchecked, tasks, call.id, buffer);
      assert Holds(Unchecked, tasks', call.id, buffer);
    }
  }

  lemma EditOwned(s: State, op: Op, x: Input)
    requires Owned(s) && op.OpUpdate? && EditFits(s, op)
    ensures Owned(Atomically(s, op, x))
  {
    hide Inv, AllOwnRight, InFlight, InOrder, SamePhases;
    if op.id in s.store {
      EditInv(s, op, x);
      EditWrites(s, op, x);
      hide Atomically;
      WrittenOwned(s, Atomically(s, op, x), op.id, Edited(s, op), Edited(s, op));
    }
  }

  lemma CreateWrites(s: State, op: Op, x: Input)
    requires Owned(s) && op.OpCreate? && x.newId !in s.used
    ensures var s' := Atomically(s, op, x); var t := NewTask(x.newId, op.title, op.priority);
      SamePhases(s, s') && BothWritten(s, s', x.newId, t, t)
  {
    AddTaskEffect(s.board, NewTask(x.newId, op.title, op.priority));
  }

  /** A task in a store that follows the board is on the board too, under its own id. */
  lemma StoredIsShown(s: State, id: Id)
    requires Owned(s) && id in s.store
    ensures id in s.board.tasks && s.store[id].id == id && Behind(s.store[id], s.board.tasks[id])
  {
  }

  lemma RankWrites(s: State, op: Op, x: Input)
    requires Owned(s) && op.OpPrioritize? && op.id in s.store
    ensures var s' := Atomically(s, op, x); var id := op.id;
      SamePhases(s, s') && id in s.board.tasks
      && BothWritten(s, s', id, s.board.tasks[id].(priority := op.priority), s.store[id].(priority := op.priority))
  {
    hide SetPriority, StoreFollows, AllOwnRight, InFlight;
    StoredIsShown(s, op.id);
    SetPriorityEffect(s.board, op.id, op.priority);
  }

  lemma ParkWrites(s: State, op: Op, x: Input)
    requires Owned(s) && op.OpPark? && op.id in s.store
    ensures var s' := Atomically(s, op, x); var id := op.id;
      SamePhases(s, s') && id in s.board.tasks
      && BothWritten(s, s', id, s.board.tasks[id].(resume := Some(op.note)), s.store[id].(resume := Some(op.note)))
  {
    hide StoreFollows, AllOwnRight, InFlight, Inv;
    BoardIsWell(s);
    StoredIsShown(s, op.id);
  }

  lemma ReviewOpsWriteNoTask(s: State, op: Op, x: Input)
    requires op.OpAnswer? || op.OpAsk? || op.OpDiscuss?
    ensures var s' := Atomically(s, op, x); SamePhases(s, s') && s'.board == s.board && s'.store == s.store
  {
    hide Atomically, SamePhases;
    if op.OpAnswer? { AnswerOpWritesNoTask(s, op, x); } else { AskOpsWriteNoTask(s, op, x); }
  }

  lemma AskOpsWriteNoTask(s: State, op: Op, x: Input)
    requires op.OpAsk? || op.OpDiscuss?
    ensures var s' := Atomically(s, op, x); SamePhases(s, s') && s'.board == s.board && s'.store == s.store
  {
    hide Enqueue, FindUnresolved, Append, WriteReviews;
  }

  lemma AnswerOpWritesNoTask(s: State, op: Op, x: Input)
    requires op.OpAnswer?
    ensures var s' := Atomically(s, op, x); SamePhases(s, s') && s'.board == s.board && s'.store == s.store
  {
    hide Dequeue, AfterAnswer;
    var (q, taken) := Dequeue(s.queue, op.itemId);
    if taken.Some? { AnswerWritesNoTask(s.(queue := q), taken.value, op.answer, x.now); }
  }

  lemma AnswerWritesNoTask(s: State, item: ReviewItem, answer: string, now: int)
    ensures var s' := AfterAnswer(s, item, answer, now);
      SamePhases(s, s') && s'.board == s.board && s'.store == s.store
  {
  }

  /** What one undisturbed call writes to board and store: one record of each, or nothing. */
  ghost predicate OneWritten(s: State, s': State, id: Id) {
    exists t, u :: BothWritten(s, s', id, t, u)
  }

  lemma DecisionOps(s: State, op: Op, x: Input)
    requires Owned(s) && (op.OpApprove? || op.OpReject? || op.OpRejectTo?)
    ensures var s' := Atomically(s, op, x);
      SamePhases(s, s') && ((s'.board == s.board && s'.store == s.store)
                            || (OneWritten(s, s', op.id) && BufferOf(s.board, op.id).Some?))
  {
    hide AfterDecision, BothWritten, Owned, BufferOf;
    if BufferOf(s.board, op.id).Some? {
      var c := BufferOf(s.board, op.id).value;
      BufferIsBuffer(s.board, op.id);
      if op.OpApprove? { DecisionWrites(s, op.id, Approved(Next(c).value), x); }
      else if op.OpReject? { DecisionWrites(s, op.id, Rejected(Prev(c).value, op.feedback), x); }
      else { DecisionWrites(s, op.id, Rejected(op.target, op.feedback), x); }
    }
  }

  lemma OtherOps(s: State, op: Op, x: Input)
    requires Owned(s) && !Uproots(s, op)
    requires op.OpBlock? || op.OpCreate? || op.OpPrioritize? || op.OpPark?
    ensures var s' := Atomically(s, op, x); var id := if op.OpCreate? then x.newId else op.id;
      SamePhases(s, s') && ((s'.board == s.board && s'.store == s.store) || OneWritten(s, s', id))
  {
    hide AfterBlock, BothWritten, Owned, SetPriority, AddTask, InFlight;
    if op.OpBlock? {
      if FindColumn(s.board, op.id).Some? { BlockWrites(s, op.id, op.blockedBy, FindColumn(s.board, op.id).value); }
    } else if op.OpCreate? {
      if x.newId !in s.used { CreateWrites(s, op, x); }
    } else if op.id in s.store {
      if op.OpPrioritize? { RankWrites(s, op, x); } else { ParkWrites(s, op, x); }
    }
  }

  lemma CallOwned(s: State, op: Op, x: Input)
    requires Owned(s) && Harmless(s, op)
    ensures Owned(RunCall(s, op, x))
  {
    hide RunCall, Atomically, Owned, Uproots, EditFits;
    WholeIsAtomic(s, op, x);
    if op.OpUpdate? { EditOwned(s, op, x); } else { PlainCallOwned(s, op, x); }
  }

  lemma PlainCallOwned(s: State, op: Op, x: Input)
    requires Owned(s) && !Uproots(s, op) && !op.OpUpdate?
    ensures Owned(Atomically(s, op, x))
  {
    hide RunCall, Atomically, Inv, AllOwnRight, StoreFollows, Uproots, BothWritten, SamePhases, BufferOf;
    WholeIsAtomic(s, op, x);
    WholeStep(Unchecked, s, op, x);
    var s' := Atomically(s, op, x);
    var id := if op.OpCreate? then x.newId else if op.OpAnswer? || op.OpAsk? || op.OpDiscuss? then "" else op.id;
    if op.OpApprove? || op.OpReject? || op.OpRejectTo? { DecisionOps(s, op, x); }
    else if op.OpAnswer? || op.OpAsk? || op.OpDiscuss? { ReviewOpsWriteNoTask(s, op, x); }
    else { OtherOps(s, op, x); }
    if s'.board == s.board && s'.store == s.store { UnwrittenOwned(s, s'); }
    else {
      var t, u :| BothWritten(s, s', id, t, u);
      WrittenOwned(s, s', id, t, u);
    }
  }

  lemma UprootedNotOwned(s: State, op: Op, x: Input)
    requires Owned(s) && Uproots(s, op)
    ensures !Owned(Atomically(s, op, x))
  {
    hide AfterBlock, Inv, FindColumn, StoreFollows;
    var r :| Owns(AgentOf(s, r).phase) && AgentOf(s, r).phase.task.id == op.id;
    var from := FindColumn(s.board, op.id).value;
    BlockLands(s, op.id, op.blockedBy, from);
    OwnsItsColumn(s, r);
    var s' := AfterBlock(s, op.id, op.blockedBy, from);
    assert AgentOf(s', r).phase == AgentOf(s, r).phase && s'.board.tasks[op.id].Column() == Prioritized;
    assert !OwnsRight(s'.board.tasks, s'.store, r, AgentOf(s', r).phase);
  }

  lemma MisfitNotOwned(s: State, op: Op, x: Input)
    requires Owned(s) && op.OpUpdate? && !EditFits(s, op)
    ensures !Owned(Atomically(s, op, x))
  {
    hide Atomically, AllOwnRight, StoreFollows, InFlight, Inv, InOrder, SamePhases;
    EditWrites(s, op, x);
    BoardIsWell(s);
    MisfitNotWell(s.board, Edited(s, op));
    if Owned(Atomically(s, op, x)) { BoardIsWell(Atomically(s, op, x)); }
  }

  /** Replacing a record keeps the board filed exactly when the new record is in the old column. */
  lemma ReplaceKeepsFiledIff(b: Board, t: Task)
    requires Filed(b) && t.id in b.tasks
    ensures Filed(Amend(b, t)) <==> t.Column() == b.tasks[t.id].Column()
  {
    var b' := Amend(b, t);
    if t.Column() == b.tasks[t.id].Column() {
      forall c, x ensures Times(b', x, c) == Listed(b'.tasks, x, c) {
        assert Times(b, x, c) == Listed(b.tasks, x, c);
      }
    } else {
      assert Times(b, t.id, t.Column()) == Listed(b.tasks, t.id, t.Column());
      assert Times(b', t.id, t.Column()) != Listed(b'.tasks, t.id, t.Column());
    }
  }

  lemma MisfitNotWell(b: Board, t: Task)
    requires WellFormed(b) && t.id in b.tasks
    requires t.Column() != b.tasks[t.id].Column() || !InOrder(b.tasks[t.id := t], Ids(b, t.Column()))
    ensures !WellFormed(Amend(b, t))
  {
    ReplaceKeepsFiledIff(b, t);
    var b' := Amend(b, t);
    if InOrder(b'.tasks, Ids(b', t.Column())) { assert !Filed(b'); }
  }

  /**
   * An undisturbed call keeps the invariant exactly when it is no block of a task that an agent works
   * on outside Prioritized, and no edit whose stored record is not where the task is shown.
   */
  lemma CallOwnedIff(s: State, op: Op, x: Input)
    requires Owned(s)
    ensures Owned(RunCall(s, op, x)) <==> Harmless(s, op)
  {
    hide RunCall, Atomically, Owned, Uproots, EditFits;
    WholeIsAtomic(s, op, x);
    if Harmless(s, op) { CallOwned(s, op, x); }
    else if Uproots(s, op) { UprootedNotOwned(s, op, x); }
    else {
      OnlyEditsMisfit(s, op);
      MisfitNotOwned(s, op, x);
    }
  }

  lemma OnlyEditsMisfit(s: State, op: Op)
    requires !EditFits(s, op)
    ensures op.OpUpdate?
  {
  }

  // ── Steps and runs ────────────────────────────────────────────────────────

  lemma BootOwned(s: State, order: seq<Id>, reviewOrder: seq<Id>, limits: map<Column, Priority>)
    requires StoreFiled(s) && CanBoot(s, order, reviewOrder)
    ensures Owned(Boot(s, order, reviewOrder, limits))
  {
    BootInv(s, order, reviewOrder, limits);
    BootBoard(s, order, reviewOrder, limits);
  }

  lemma StoreIsFiled(s: State)
    requires Inv(Unchecked, s)
    ensures StoreFiled(s)
  {
  }

  lemma StepOwned(s: State, a: Action)
    requires Owned(s) && Undisturbed()(s, a)
    ensures Owned(Apply(s, a))
  {
    hide AgentSection, LoopSection, RunCall, FinishEvent, Boot, CanBoot, Inv, StoreFiled, Harmless;
    if a.AgentStep? { AgentOwned(s, a.role, a.input); }
    else if a.LoopStep? { LoopOwned(s, a.input); }
    else if a.WholeEvent? { EventOwned(s, a.input, EVENT_SECTIONS); }
    else if a.Whole? { CallOwned(s, a.op, a.input); }
    else if a.Restart? {
      StoreIsFiled(s);
      if CanBoot(s, a.order, a.reviewOrder) { BootOwned(s, a.order, a.reviewOrder, a.limits); }
    } else { PlainOwned(s, a); }
  }

  lemma PlainOwned(s: State, a: Action)
    requires Owned(s) && (a.SetLimits? || a.Lag?)
    ensures Owned(Apply(s, a))
  {
    hide Inv, Apply;
    StepKeeps(Unchecked, s, a);
    PlainStep(s, a);
    UnwrittenOwned(s, Apply(s, a));
  }

  lemma PlainStep(s: State, a: Action)
    requires a.SetLimits? || a.Lag?
    ensures Apply(s, a).board == s.board && Apply(s, a).store == s.store && SamePhases(s, Apply(s, a))
  {
    hide AgentSection, LoopSection, BeginSection, ContinueSection, RunCall, HandleEvent, CanBoot, Boot;
  }

  lemma {:induction false} RunOwned(states: seq<State>, run: seq<Action>, k: nat)
    requires Trace(states, run, Undisturbed()) && Owned(states[0]) && k < |states|
    ensures Owned(states[k])
  {
    hide Trace, Owned, Apply, Undisturbed;
    if k > 0 {
      RunOwned(states, run, k - 1);
      LastStep(states, run, Undisturbed(), k);
      StepOwned(states[k - 1], run[k - 1]);
    }
  }

  // ── Ownership ─────────────────────────────────────────────────────────────

  /**
   * Exclusive ownership over whole runs from any boot: while a role works on a task the task is in
   * that role's column, and no other role works on it.
   */
  lemma OwnershipSafety(pre: State, order: seq<Id>, reviewOrder: seq<Id>, limits: map<Column, Priority>,
                        states: seq<State>, run: seq<Action>, k: nat, r: Role, q: Role)
    requires StoreFiled(pre) && CanBoot(pre, order, reviewOrder)
    requires Trace(states, run, Undisturbed()) && states[0] == Boot(pre, order, reviewOrder, limits) && k < |states|
    requires Owns(AgentOf(states[k], r).phase)
    ensures var s := states[k]; var id := AgentOf(s, r).phase.task.id;
      && id in s.board.tasks && s.board.tasks[id].Column() == WorkColumn(r) && id in Ids(s.board, WorkColumn(r))
      && (Owns(AgentOf(s, q).phase) && AgentOf(s, q).phase.task.id == id ==> q == r)
  {
    hide Trace, Boot, Inv, StoreFiled, CanBoot;
    var s := states[k];
    BootOwned(pre, order, reviewOrder, limits);
    RunOwned(states, run, k);
    OwnsItsColumn(s, r);
    BoardIsWell(s);
    MembersOf(s.board, WorkColumn(r));
    if Owns(AgentOf(s, q).phase) && AgentOf(s, q).phase.task.id == AgentOf(s, r).phase.task.id {
      ExclusiveOwner(s, q, r);
    }
  }

  /** No ready task of the column has a smaller priority number. */
  ghost predicate BestReady(b: Board, c: Column, priority: Priority) {
    forall id :: id in b.tasks && b.tasks[id].Column() == c && Ready(b, b.tasks[id]) ==> priority <= b.tasks[id].priority
  }

  /** A role starts only on the best-ranked task of its column whose blockers are all Done, and nobody else has it. */
  lemma StartsOnBestReady(s: State, r: Role, x: Input)
    requires Owned(s) && !Owns(AgentOf(s, r).phase) && Owns(AgentChange(s, r, x).1)
    ensures var t := AgentChange(s, r, x).1.task;
      && t.id in s.board.tasks && t == s.board.tasks[t.id] && t.Column() == WorkColumn(r) && Ready(s.board, t)
      && !InFlight(s, t.id)
      && BestReady(s.board, WorkColumn(r), t.priority)
      && forall blocker :: blocker in t.blockedBy ==> blocker in s.board.tasks && s.board.tasks[blocker].stage == At(Done)
  {
    hide AgentChange, Inv, WellFormed, StoreFollows, AllOwnRight, NextUnblocked, Ready;
    OwnSteps(s, r, x);
    BoardIsWell(s);
    PickIsBestReady(s.board, WorkColumn(r));
    var id := AgentChange(s, r, x).1.task.id;
    if InFlight(s, id) {
      var q :| Owns(AgentOf(s, q).phase) && AgentOf(s, q).phase.task.id == id;
      OwnsItsColumn(s, q);
      FeedersAreUnique(Done, q, r);
    }
  }

  // ── Done ──────────────────────────────────────────────────────────────────

  ghost predicate InDone(s: State, id: Id) {
    id in s.board.tasks && s.board.tasks[id].Column() == Done
  }

  /** The only steps that may take a task out of Done. */
  predicate Reopens(a: Action, id: Id) {
    a.Restart? || (a.Whole? && a.op.OpBlock? && a.op.id == id)
  }

  lemma DoneNotInFlight(s: State, id: Id)
    requires AllOwnRight(s) && InDone(s, id)
    ensures !InFlight(s, id)
  {
    if InFlight(s, id) { FlightIsWork(s, id); }
  }

  lemma AgentKeepsDone(s: State, r: Role, x: Input, id: Id)
    requires Owned(s) && InDone(s, id)
    ensures InDone(AgentSection(s, r, x), id)
  {
    hide AgentSection, Inv, InFlight;
    DoneNotInFlight(s, id);
    AgentBoardEffect(s, r, x);
    if Owns(AgentOf(s, r).phase) { OwnsItsColumn(s, r); }
  }

  /** A harmless call that is not a block of the task leaves it in its column, unless that is a buffer. */
  lemma CallKeepsColumn(s: State, op: Op, x: Input, id: Id)
    requires Owned(s) && id in s.board.tasks && !IsBuffer(s.board.tasks[id].Column()) && Harmless(s, op)
    requires op.OpBlock? ==> op.id != id
    ensures var b' := RunCall(s, op, x).board; id in b'.tasks && b'.tasks[id].Column() == s.board.tasks[id].Column()
  {
    hide RunCall, Atomically, Owned, Uproots, EditFits;
    WholeIsAtomic(s, op, x);
    if op.OpUpdate? { EditKeepsColumn(s, op, x, id); } else { PlainKeepsColumn(s, op, x, id); }
  }

  lemma EditKeepsColumn(s: State, op: Op, x: Input, id: Id)
    requires Owned(s) && id in s.board.tasks && op.OpUpdate? && EditFits(s, op)
    ensures var b' := Atomically(s, op, x).board; id in b'.tasks && b'.tasks[id].Column() == s.board.tasks[id].Column()
  {
    hide Owned, InOrder, SamePhases;
    if op.id in s.store { EditWrites(s, op, x); }
  }

  lemma PlainKeepsColumn(s: State, op: Op, x: Input, id: Id)
    requires Owned(s) && id in s.board.tasks && !IsBuffer(s.board.tasks[id].Column()) && !op.OpUpdate?
    requires !Uproots(s, op) && (op.OpBlock? ==> op.id != id)
    ensures var b' := Atomically(s, op, x).board; id in b'.tasks && b'.tasks[id].Column() == s.board.tasks[id].Column()
  {
    hide Atomically, Inv, AllOwnRight, StoreFollows, InFlight, BufferOf, SamePhases, Uproots;
    BoardIsWell(s);
    if op.OpApprove? || op.OpReject? || op.OpRejectTo? {
      BufferIsColumn(s.board, op.id);
      DecisionOps(s, op, x);
    } else if op.OpAnswer? || op.OpAsk? || op.OpDiscuss? { ReviewOpsWriteNoTask(s, op, x); }
    else if op.OpCreate? { CreateKeepsOthers(s, op, x, id); }
    else if op.OpBlock? { OtherOps(s, op, x); }
    else if op.id in s.store {
      if op.OpPrioritize? { RankWrites(s, op, x); } else { ParkWrites(s, op, x); }
    } else { UnknownEdit(s, op, x); }
  }

  lemma UnknownEdit(s: State, op: Op, x: Input)
    requires (op.OpPrioritize? || op.OpPark?) && op.id !in s.store
    ensures Atomically(s, op, x) == s
  {
  }

  lemma CreateKeepsOthers(s: State, op: Op, x: Input, id: Id)
    requires Owned(s) && op.OpCreate? && id in s.board.tasks
    ensures var s' := Atomically(s, op, x); id in s'.board.tasks && s'.board.tasks[id] == s.board.tasks[id]
  {
    hide AddTask;
    if x.newId !in s.used { AddTaskEffect(s.board, NewTask(x.newId, op.title, op.priority)); }
  }

  lemma StepKeepsDone(s: State, a: Action, id: Id)
    requires Owned(s) && Undisturbed()(s, a) && InDone(s, id) && !Reopens(a, id)
    ensures InDone(Apply(s, a), id)
  {
    hide AgentSection, LoopSection, RunCall, FinishEvent, Inv, Owned, Harmless;
    if a.AgentStep? { AgentKeepsDone(s, a.role, a.input, id); }
    else if a.LoopStep? { LoopSectionBoard(s, a.input); }
    else if a.WholeEvent? { EventKeepsBoard(s, a.input, EVENT_SECTIONS); }
    else if a.Whole? { CallKeepsColumn(s, a.op, a.input, id); }
  }

  ghost function Closed(id: Id): (State, Action) -> bool {
    (s: State, a: Action) => Undisturbed()(s, a) && !Reopens(a, id)
  }

  /** Done is absorbing: only a restart or a block of that very task takes it out again. */
  lemma {:induction false} DoneIsAbsorbing(states: seq<State>, run: seq<Action>, k: nat, id: Id)
    requires Trace(states, run, Closed(id)) && Owned(states[0]) && InDone(states[0], id) && k < |states|
    ensures Owned(states[k]) && InDone(states[k], id)
  {
    hide Trace, Owned, InDone, Apply, Undisturbed;
    if k > 0 {
      DoneIsAbsorbing(states, run, k - 1, id);
      LastStep(states, run, Closed(id), k);
      StepOwned(states[k - 1], run[k - 1]);
      StepKeepsDone(states[k - 1], run[k - 1], id);
    }
  }

  // ── Restart ───────────────────────────────────────────────────────────────

  /**
   * Restart safety.  Rebuilding the board from the store at any point of such a run keeps the set of
   * tasks and every history, and takes each task to the column it was in or the one just before.
   */
  lemma RestartSafety(s: State, order: seq<Id>, reviewOrder: seq<Id>, limits: map<Column, Priority>, id: Id)
    requires Owned(s) && CanBoot(s, order, reviewOrder)
    ensures var s' := Boot(s, order, reviewOrder, limits);
      && Owned(s') && (id in s'.board.tasks <==> id in s.board.tasks)
      && (id in s.board.tasks ==>
            var t, t' := s.board.tasks[id], s'.board.tasks[id];
            t'.history == t.history && (t'.Column() == t.Column() || Prev(t.Column()) == Some(t'.Column())))
  {
    hide Boot, CanBoot, Inv, AllOwnRight;
    StoreIsFiled(s);
    BootOwned(s, order, reviewOrder, limits);
    BoardIsWell(s);
    BootBoard(s, order, reviewOrder, limits);
    if id in s.board.tasks {
      NeighboursInOrder(s.board.tasks[id].Column());
      NeighboursInOrder(s.store[id].Column());
    }
  }

  /** The same after any such run from any boot. */
  lemma RestartAfterRun(pre: State, order: seq<Id>, reviewOrder: seq<Id>, limits: map<Column, Priority>,
                        states: seq<State>, run: seq<Action>, k: nat, order': seq<Id>, reviewOrder': seq<Id>, id: Id)
    requires StoreFiled(pre) && CanBoot(pre, order, reviewOrder)
    requires Trace(states, run, Undisturbed()) && states[0] == Boot(pre, order, reviewOrder, limits) && k < |states|
    requires CanBoot(states[k], order', reviewOrder')
    ensures var b, b' := states[k].board, Boot(states[k], order', reviewOrder', limits).board;
      && (id in b'.tasks <==> id in b.tasks)
      && (id in b.tasks ==>
            var t, t' := b.tasks[id], b'.tasks[id];
            t'.history == t.history && (t'.Column() == t.Column() || Prev(t.Column()) == Some(t'.Column())))
  {
    hide Trace, Boot, CanBoot, Owned, StoreFiled;
    BootOwned(pre, order, reviewOrder, limits);
    RunOwned(states, run, k);
    RestartSafety(states[k], order', reviewOrder', limits, id);
  }
}
