/**
 * What a restart undoes.  No step ever stores a record in a buffer or in Done: the moves of the agents
 * are made on the board only.  So a restart empties every buffer and Done, sends each task there back
 * to the agent that had moved it on, and still queues the approvals that were asked for.
 */
module Restarts {
  import opened Options
  import opened Columns
  import opened Kanban
  import opened ReviewQueues
  import opened Reviews
  import opened Protocol
  import opened Atomic
  import opened Effects
  import opened Gates
  import opened Wip
  import opened Steps
  import opened Ownership

  /** No stored record shows the column. */
  ghost predicate StoredOutside(s: State, c: Column) {
    forall id :: id in s.store ==> s.store[id].Column() != c
  }

  ghost predicate NoStoredDone(s: State) {
    StoredOutside(s, Done)
  }

  /** Every stored record shows the column of some role. */
  ghost predicate StoredAtWork(s: State) {
    forall id :: id in s.store ==> RoleOf(s.store[id].Column()).Some?
  }

  lemma AtWorkIsOutside(s: State)
    ensures StoredAtWork(s) <==> forall c :: RoleOf(c).None? ==> StoredOutside(s, c)
  {
    if forall c :: RoleOf(c).None? ==> StoredOutside(s, c) {
      forall id | id in s.store ensures RoleOf(s.store[id].Column()).Some? {
        assert RoleOf(s.store[id].Column()).None? ==> StoredOutside(s, s.store[id].Column());
      }
    }
  }

  // ── Steps ─────────────────────────────────────────────────────────────────

  lemma AgentStoresOutside(s: State, r: Role, x: Input, c: Column)
    requires Owned(s) && StoredOutside(s, c) && RoleOf(c).None?
    ensures StoredOutside(AgentSection(s, r, x), c)
  {
    hide AgentSection, Inv, StoreFollows;
    AgentStoreEffect(s, r, x);
    FeedersAreUnique(Done, r, r);
    assert OwnsRight(s.board.tasks, s.store, r, AgentOf(s, r).phase);
  }

  lemma DecidedOutside(s: State, id: Id, d: Decision, x: Input, c: Column)
    requires Owned(s) && StoredOutside(s, c) && d.target != c && BufferOf(s.board, id).Some?
    ensures StoredOutside(AfterDecision(s, id, d, x), c)
  {
    hide AfterDecision, Owned, BufferOf, SamePhases, InFlight, Behind;
    DecisionWrites(s, id, d, x);
  }

  lemma DecisionStoresOutside(s: State, op: Op, x: Input, c: Column)
    requires Owned(s) && StoredOutside(s, c) && RoleOf(c).None? && (op.OpApprove? || op.OpReject? || op.OpRejectTo?)
    ensures StoredOutside(Atomically(s, op, x), c)
  {
    hide AfterDecision, Owned, BufferOf, StoredOutside;
    if BufferOf(s.board, op.id).Some? {
      var b := BufferOf(s.board, op.id).value;
      BufferIsBuffer(s.board, op.id);
      if op.OpApprove? { DecidedOutside(s, op.id, Approved(Next(b).value), x, c); }
      else if op.OpReject? { DecidedOutside(s, op.id, Rejected(Prev(b).value, op.feedback), x, c); }
      else if RoleOf(op.target).Some? { DecidedOutside(s, op.id, Rejected(op.target, op.feedback), x, c); }
    }
  }

  lemma BlockStoresOutside(s: State, op: Op, x: Input, c: Column)
    requires Owned(s) && StoredOutside(s, c) && RoleOf(c).None? && op.OpBlock?
    ensures StoredOutside(Atomically(s, op, x), c)
  {
    hide AfterBlock, Inv, FindColumn, AllOwnRight, StoreFollows, SamePhases;
    if FindColumn(s.board, op.id).Some? { BlockLands(s, op.id, op.blockedBy, FindColumn(s.board, op.id).value); }
  }

  lemma RecordStoresOutside(s: State, op: Op, x: Input, c: Column)
    requires Owned(s) && StoredOutside(s, c) && RoleOf(c).None?
    requires op.OpCreate? || op.OpPrioritize? || op.OpPark? || op.OpUpdate?
    ensures StoredOutside(Atomically(s, op, x), c)
  {
    hide AddTask, SetPriority, Amend, WriteBoard, Inv, AllOwnRight;
  }

  lemma SameStoreOutside(s: State, s': State, c: Column)
    requires StoredOutside(s, c) && s'.store == s.store
    ensures StoredOutside(s', c)
  {
  }

  lemma CallStoresOutside(s: State, op: Op, x: Input, c: Column)
    requires Owned(s) && StoredOutside(s, c) && RoleOf(c).None?
    ensures StoredOutside(RunCall(s, op, x), c)
  {
    hide RunCall, Atomically, Owned, StoredOutside;
    WholeIsAtomic(s, op, x);
    if op.OpApprove? || op.OpReject? || op.OpRejectTo? { DecisionStoresOutside(s, op, x, c); }
    else if op.OpAnswer? || op.OpAsk? || op.OpDiscuss? {
      ReviewOpsWriteNoTask(s, op, x);
      SameStoreOutside(s, Atomically(s, op, x), c);
    } else if op.OpBlock? { BlockStoresOutside(s, op, x, c); }
    else { RecordStoresOutside(s, op, x, c); }
  }

  lemma StepStoresOutside(s: State, a: Action, c: Column)
    requires Owned(s) && StoredOutside(s, c) && RoleOf(c).None? && Undisturbed()(s, a)
    ensures StoredOutside(Apply(s, a), c)
  {
    hide AgentSection, LoopSection, RunCall, FinishEvent, Owned, Harmless, StoredOutside, Boot, CanBoot;
    if a.AgentStep? { AgentStoresOutside(s, a.role, a.input, c); }
    else if a.Whole? { CallStoresOutside(s, a.op, a.input, c); }
    else {
      if a.LoopStep? { LoopSectionBoard(s, a.input); }
      else if a.WholeEvent? { EventKeepsBoard(s, a.input, EVENT_SECTIONS); }
      else if a.Restart? { BootKeepsStore(s, a); }
      SameStoreOutside(s, Apply(s, a), c);
    }
  }

  lemma BootKeepsStore(s: State, a: Action)
    requires a.Restart?
    ensures Apply(s, a).store == s.store
  {
    hide CanBoot, FromTasks, Rebuild;
  }

  /** No step of such a run ever stores a record in a column without a role. */
  lemma {:induction false} NeverStored(states: seq<State>, run: seq<Action>, k: nat, c: Column)
    requires Trace(states, run, Undisturbed()) && Owned(states[0]) && StoredOutside(states[0], c) && k < |states|
    requires RoleOf(c).None?
    ensures Owned(states[k]) && StoredOutside(states[k], c)
  {
    hide Trace, Owned, StoredOutside, Apply, Undisturbed;
    if k > 0 {
      NeverStored(states, run, k - 1, c);
      LastStep(states, run, Undisturbed(), k);
      StepOwned(states[k - 1], run[k - 1]);
      StepStoresOutside(states[k - 1], run[k - 1], c);
    }
  }

  /** In particular the last move of a task is never stored. */
  lemma DoneIsNeverStored(states: seq<State>, run: seq<Action>, k: nat)
    requires Trace(states, run, Undisturbed()) && Owned(states[0]) && NoStoredDone(states[0]) && k < |states|
    ensures Owned(states[k]) && NoStoredDone(states[k])
  {
    hide Trace, Owned, StoredOutside;
    NeverStored(states, run, k, Done);
  }

  /** And no buffer: in every run from a fresh installation each stored record is in a work column. */
  lemma NoBufferIsEverStored(states: seq<State>, run: seq<Action>, k: nat)
    requires Trace(states, run, Undisturbed()) && states[0] == FRESH && k < |states|
    ensures Owned(states[k]) && StoredAtWork(states[k])
  {
    hide Trace, Owned;
    assert Owned(FRESH) by { FreshOwned(); }
    forall c | RoleOf(c).None? ensures StoredOutside(states[k], c) {
      NeverStored(states, run, k, c);
    }
    NeverStored(states, run, k, Done);
    AtWorkIsOutside(states[k]);
  }

  lemma FreshOwned()
    ensures Owned(FRESH)
  {
    FreshInv(Unchecked);
  }

  // ── Restarts ──────────────────────────────────────────────────────────────

  /** So a restart sends every finished task back to Deploying, to be worked and finished again. */
  lemma RestartUndoesDone(states: seq<State>, run: seq<Action>, k: nat, order: seq<Id>, reviewOrder: seq<Id>,
                          limits: map<Column, Priority>, id: Id)
    requires Trace(states, run, Undisturbed()) && Owned(states[0]) && NoStoredDone(states[0]) && k < |states|
    requires InDone(states[k], id) && CanBoot(states[k], order, reviewOrder)
    ensures var b := Boot(states[k], order, reviewOrder, limits).board;
      id in b.tasks && b.tasks[id].Column() == Deploying
  {
    hide Boot, CanBoot, Inv, AllOwnRight, Trace;
    DoneIsNeverStored(states, run, k);
    BoardIsWell(states[k]);
    BootBoard(states[k], order, reviewOrder, limits);
  }

  /** Where a restart puts a task: back to the agent that moved it on, and else where it was. */
  ghost predicate SentBack(shown: Column, rebuilt: Column) {
    if RoleOf(shown).None? then Prev(shown) == Some(rebuilt)
    else if shown == Designing then rebuilt == Designing || rebuilt == Prioritized
    else rebuilt == shown
  }

  lemma BehindAtWork(stored: Task, shown: Task)
    requires Behind(stored, shown) && RoleOf(stored.Column()).Some?
    ensures SentBack(shown.Column(), stored.Column())
  {
    NeighboursInOrder(shown.Column());
    NeighboursInOrder(stored.Column());
  }

  /**
   * A restart after any such run leaves every buffer and Done empty, sends the tasks that were there back
   * to the column before, and leaves the others where they were, except that a task in Designing may
   * go back to Prioritized.
   */
  lemma RestartEmptiesBuffers(states: seq<State>, run: seq<Action>, k: nat, order: seq<Id>, reviewOrder: seq<Id>,
                              limits: map<Column, Priority>, id: Id, c: Column)
    requires Trace(states, run, Undisturbed()) && states[0] == FRESH && k < |states|
    requires CanBoot(states[k], order, reviewOrder)
    ensures var b, b' := states[k].board, Boot(states[k], order, reviewOrder, limits).board;
      && (RoleOf(c).None? ==> id !in Ids(b', c))
      && (id in b.tasks ==> id in b'.tasks && SentBack(b.tasks[id].Column(), b'.tasks[id].Column()))
  {
    hide Trace, Boot, CanBoot, Owned, Ids, SentBack;
    NoBufferIsEverStored(states, run, k);
    BootFromStore(states[k], order, reviewOrder, limits);
    MembersOf(Boot(states[k], order, reviewOrder, limits).board, c);
    if id in states[k].board.tasks {
      OwnedBehind(states[k], id);
      BehindAtWork(states[k].store[id], states[k].board.tasks[id]);
    }
  }

  lemma BootFromStore(s: State, order: seq<Id>, reviewOrder: seq<Id>, limits: map<Column, Priority>)
    requires Owned(s) && CanBoot(s, order, reviewOrder)
    ensures var b := Boot(s, order, reviewOrder, limits).board; Filed(b) && b.tasks == s.store
  {
    hide Boot, CanBoot, AllOwnRight, StoreFollows;
    BoardIsWell(s);
    BootBoard(s, order, reviewOrder, limits);
  }

  lemma OwnedBehind(s: State, id: Id)
    requires Owned(s) && id in s.board.tasks
    ensures id in s.store && Behind(s.store[id], s.board.tasks[id])
  {
    hide Inv, AllOwnRight;
  }

  // ── The queue after a restart ─────────────────────────────────────────────

  lemma {:induction false} RebuildHolds(items: seq<ReviewItem>, item: ReviewItem)
    requires item in items
    ensures item in Rebuild(items)
  {
    var init, last := items[..|items| - 1], items[|items| - 1];
    EnqueueMembers(Rebuild(init), last);
    if item != last {
      assert items == init + [last];
      RebuildHolds(init, item);
    }
  }

  lemma {:induction false} QueueItemsHold(m: map<Id, PersistedItem>, order: seq<Id>, p: Id)
    requires (forall id :: id in order ==> id in m) && p in order
    ensures ToQueueItem(m[p]) in QueueItems(m, order)
  {
    if p != order[|order| - 1] {
      assert order == order[..|order| - 1] + [order[|order| - 1]];
      QueueItemsHold(m, order[..|order| - 1], p);
    }
  }

  /**
   * The approvals asked for before are queued again, but for tasks that no longer wait for one: after a
   * restart neither approving nor rejecting any task does anything.
   */
  lemma RestartStrandsApprovals(states: seq<State>, run: seq<Action>, k: nat, order: seq<Id>, reviewOrder: seq<Id>,
                                limits: map<Column, Priority>, p: Id, id: Id, target: Column, feedback: string, x: Input)
    requires Trace(states, run, Undisturbed()) && states[0] == FRESH && k < |states|
    requires CanBoot(states[k], order, reviewOrder) && p in states[k].reviews && IsUnresolved(states[k].reviews[p])
    ensures var s' := Boot(states[k], order, reviewOrder, limits);
      && ToQueueItem(states[k].reviews[p]) in s'.queue
      && RunCall(s', OpApprove(id), x) == s' && RunCall(s', OpReject(id, feedback), x) == s'
      && RunCall(s', OpRejectTo(id, target, feedback), x) == s'
  {
    hide Trace, Owned, RunCall, Boot, CanBoot, IsUnresolved, StoredAtWork;
    var s' := Boot(states[k], order, reviewOrder, limits);
    RequeuedAtBoot(states[k], order, reviewOrder, limits, p);
    NoBufferIsEverStored(states, run, k);
    EmptyAfterBoot(states[k], order, reviewOrder, limits, id);
    DecisionDoesNothing(s', OpApprove(id), x);
    DecisionDoesNothing(s', OpReject(id, feedback), x);
    DecisionDoesNothing(s', OpRejectTo(id, target, feedback), x);
  }

  lemma RequeuedAtBoot(s: State, order: seq<Id>, reviewOrder: seq<Id>, limits: map<Column, Priority>, p: Id)
    requires CanBoot(s, order, reviewOrder) && p in s.reviews && IsUnresolved(s.reviews[p])
    ensures ToQueueItem(s.reviews[p]) in Boot(s, order, reviewOrder, limits).queue
  {
    hide FromTasks, IsUnresolved, Rebuild, QueueItems;
    QueueItemsHold(s.reviews, reviewOrder, p);
    RebuildHolds(QueueItems(s.reviews, reviewOrder), ToQueueItem(s.reviews[p]));
  }

  lemma EmptyAfterBoot(s: State, order: seq<Id>, reviewOrder: seq<Id>, limits: map<Column, Priority>, id: Id)
    requires Owned(s) && StoredAtWork(s) && CanBoot(s, order, reviewOrder)
    ensures BufferOf(Boot(s, order, reviewOrder, limits).board, id).None?
  {
    hide Owned, CanBoot, FromTasks, Rebuild, BufferOf;
    BootFromStore(s, order, reviewOrder, limits);
    NothingWaits(Boot(s, order, reviewOrder, limits), id);
  }

  /** A decision on a task that is in no buffer. */
  lemma DecisionDoesNothing(s: State, op: Op, x: Input)
    requires (op.OpApprove? || op.OpReject? || op.OpRejectTo?) && BufferOf(s.board, op.id).None?
    ensures RunCall(s, op, x) == s
  {
    hide RunCall, BufferOf, AfterDecision;
    WholeIsAtomic(s, op, x);
  }

  lemma NothingWaits(s: State, id: Id)
    requires Filed(s.board) && s.board.tasks == s.store && StoredAtWork(s)
    ensures BufferOf(s.board, id).None?
  {
    hide Filed, FindColumn;
    FindColumnIsStage(s.board, id);
  }
}
