/**
 * Ownership on the column lists, in every interleaving and with free edits.  While a role works on a
 * task that role's column lists it and no other column does, until a step of somebody else's - a block,
 * or a decision begun earlier - moves a task in work to another column; that is the only way to lose it.
 */
module Placement {
  import opened Options
  import opened Columns
  import opened Kanban
  import opened ReviewQueues
  import opened Reviews
  import opened Protocol
  import opened Atomic
  import opened Effects
  import opened Gates
  import opened Wip
  import opened Listings
  import opened Steps
  import opened Ownership

  /** The write moves a task to a column other than that of the agent working on it. */
  ghost predicate TakesAway(s: State, w: BoardWrite) {
    Relocates(w) && exists r :: Owns(AgentOf(s, r).phase) && AgentOf(s, r).phase.task.id == w.id
                                && WorkColumn(r) != Destination(w)
  }

  /** A step that is not an agent's takes a task in work out of its agent's column. */
  ghost predicate Displaces(s: State, a: Action) {
    !a.AgentStep? && TakesAway(s, StepWrite(s, a))
  }

  /** Any interleaving in which no step does; calls may overlap and edits are free. */
  ghost function Undisplaced(): (State, Action) -> bool {
    (s: State, a: Action) => !Displaces(s, a)
  }

  /** Every listed task has a record, under its own id, and is listed in one column only. */
  ghost predicate OneColumnEach(b: Board) {
    && Keyed(b.tasks)
    && (forall c, id :: id in Ids(b, c) ==> id in b.tasks)
    && (forall c, d, id :: id in Ids(b, c) && id in Ids(b, d) ==> c == d)
  }

  ghost predicate OwnersListed(b: Board, agents: map<Role, Agent>) {
    forall r :: Owns(AgentIn(agents, r).phase) ==> AgentIn(agents, r).phase.task.id in Ids(b, WorkColumn(r))
  }

  ghost predicate KeysUsed(s: State) {
    Keyed(s.store) && s.store.Keys <= s.used && s.board.tasks.Keys <= s.used
  }

  /** A half-done call holds records under used ids, and a task it is about to add is not on the board. */
  predicate CallFresh(tasks: map<Id, Task>, used: set<Id>, call: Call) {
    match call
    case Adding(t) => t.id in used && t.id !in tasks
    case StoringPriority(t, _) => t.id in used
    case StoringNote(t, _) => t.id in used
    case StoringEdit(t) => t.id in used
    case _ => true
  }

  ghost predicate CallsFresh(tasks: map<Id, Task>, used: set<Id>, calls: map<nat, Call>) {
    && (forall pid :: pid in calls ==> CallFresh(tasks, used, calls[pid]))
    && (forall p, q :: p in calls && q in calls && p != q && calls[p].Adding? && calls[q].Adding?
                       ==> calls[p].task.id != calls[q].task.id)
  }

  ghost predicate Placed(s: State) {
    && OneColumnEach(s.board) && OwnersListed(s.board, s.agents) && KeysUsed(s)
    && CallsFresh(s.board.tasks, s.used, s.calls)
  }

  // ── Board writes ──────────────────────────────────────────────────────────

  /** A found task is listed where it was found and nowhere else. */
  lemma FoundOnly(b: Board, id: Id, c: Column)
    requires OneColumnEach(b)
    ensures FindColumn(b, id) == Some(c) <==> id in Ids(b, c)
    ensures FindColumn(b, id).Some? ==> id in b.tasks
  {
    hide FindColumn;
    FindsListed(b, id);
  }

  lemma WriteListed(b: Board, w: BoardWrite)
    requires OneColumnEach(b) && (w.Insert? ==> w.task.id !in b.tasks)
    ensures OneColumnEach(WriteBoard(b, w).0)
  {
    hide WriteBoard, FindColumn, Ids, Count;
    WriteLists(b, w);
    WriteRecords(b, w);
    if Relocates(w) && FindColumn(b, w.id).Some? {
      var from := FindColumn(b, w.id).value;
      FoundOnly(b, w.id, from);
      RelistedRight(b, WriteBoard(b, w).0, w.id, from, Destination(w));
    }
  }

  lemma RelistedRight(b: Board, b': Board, id: Id, from: Column, to: Column)
    requires OneColumnEach(b) && id in Ids(b, from) && Relisted(b, b', id, from, Some(to))
    requires Keyed(b'.tasks) && b'.tasks.Keys == b.tasks.Keys
    ensures OneColumnEach(b')
  {
    hide Ids, Count;
    forall c, x | x in Ids(b', c) ensures x in b'.tasks && (if x == id then c == to else x in Ids(b, c)) {
      RelistedAt(b, b', id, from, to, c, x);
    }
    hide Relisted;
  }

  lemma RelistedAt(b: Board, b': Board, id: Id, from: Column, to: Column, c: Column, x: Id)
    requires OneColumnEach(b) && id in Ids(b, from) && Relisted(b, b', id, from, Some(to)) && x in Ids(b', c)
    ensures x in b.tasks && (if x == id then c == to else x in Ids(b, c))
  {
    hide Ids, Count;
  }

  /** A listed task stays where it is unless the write moves it. */
  lemma WriteStays(b: Board, w: BoardWrite, id: Id, c: Column)
    requires OneColumnEach(b) && id in Ids(b, c)
    requires Relocates(w) && w.id == id ==> c == Destination(w)
    ensures id in Ids(WriteBoard(b, w).0, c)
  {
    hide WriteBoard, FindColumn, Ids, Count;
    WriteLists(b, w);
    FoundOnly(b, id, c);
  }

  /** A task that moves goes to its destination. */
  lemma WriteArrives(b: Board, w: BoardWrite)
    requires OneColumnEach(b) && Relocates(w) && FindColumn(b, w.id).Some?
    ensures w.id in Ids(WriteBoard(b, w).0, Destination(w)) && WriteBoard(b, w).1
  {
    hide WriteBoard, FindColumn, Ids, Count;
    WriteLists(b, w);
    FoundOnly(b, w.id, FindColumn(b, w.id).value);
  }

  // ── Calls ─────────────────────────────────────────────────────────────────

  lemma SectionKeepsPhases(s: State, op: Op, call: Call, x: Input)
    ensures SamePhases(s, BeginSection(s, op, x).0) && SamePhases(s, ContinueSection(s, call, x).0)
    ensures s.used <= BeginSection(s, op, x).0.used && s.used <= ContinueSection(s, call, x).0.used
  {
    hide BeginChange, ContinueChange, WriteBoard, WriteStore, WriteQueue;
    SignalKeepsPhases(s.agents, BeginChange(s, op, x).0.signal);
    var signal := ContinueChange(s, call, x).0.signal;
    SignalKeepsPhases(s.agents, signal);
    DeliverKeepsPhases(WriteSignal(s.agents, signal), call);
  }

  lemma {:induction false} FinishKeepsPhases(s: State, call: Call, x: Input, fuel: nat)
    ensures SamePhases(s, Finish(s, call, x, fuel)) && s.used <= Finish(s, call, x, fuel).used
    decreases fuel
  {
    hide ContinueSection;
    SectionKeepsPhases(s, OpApprove(""), call, x);
    var (s1, next) := ContinueSection(s, call, x);
    if next.Some? && fuel > 0 { FinishKeepsPhases(s1, next.value, x, fuel - 1); }
  }

  lemma CallKeepsPhases(s: State, op: Op, x: Input)
    ensures SamePhases(s, RunCall(s, op, x)) && s.used <= RunCall(s, op, x).used
  {
    hide BeginSection, Finish;
    var (s1, next) := BeginSection(s, op, x);
    SectionKeepsPhases(s, op, SignallingBlock, x);
    if next.Some? { FinishKeepsPhases(s1, next.value, x, CALL_SECTIONS); }
  }

  /** A call inserts only under a new id. */
  lemma InsertsNew(s: State, op: Op, x: Input)
    ensures var w := CallWrite(s, op, x); w.Insert? ==> op.OpCreate? && w.task.id == x.newId && x.newId !in s.used
  {
    hide BufferOf, FindColumn;
  }

  /** A write that takes no task in work away leaves every owner's task in the owner's column. */
  lemma OwnersStay(s: State, w: BoardWrite, s': State)
    requires OneColumnEach(s.board) && OwnersListed(s.board, s.agents) && !TakesAway(s, w)
    requires s'.board == WriteBoard(s.board, w).0 && SamePhases(s, s')
    ensures OwnersListed(s'.board, s'.agents)
  {
    hide WriteBoard, Ids, OneColumnEach;
    forall r | Owns(AgentIn(s'.agents, r).phase)
      ensures AgentIn(s'.agents, r).phase.task.id in Ids(s'.board, WorkColumn(r))
    {
      assert AgentOf(s', r).phase == AgentOf(s, r).phase;
      WriteStays(s.board, w, AgentOf(s, r).phase.task.id, WorkColumn(r));
    }
  }

  /** A write that takes one away breaks the lists' agreement with the owners. */
  lemma OwnerLost(s: State, w: BoardWrite, s': State)
    requires OneColumnEach(s.board) && OwnersListed(s.board, s.agents) && TakesAway(s, w)
    requires s'.board == WriteBoard(s.board, w).0 && SamePhases(s, s')
    ensures !(OneColumnEach(s'.board) && OwnersListed(s'.board, s'.agents))
  {
    hide WriteBoard, Ids, OneColumnEach, FindColumn;
    var r :| Owns(AgentOf(s, r).phase) && AgentOf(s, r).phase.task.id == w.id && WorkColumn(r) != Destination(w);
    assert w.id in Ids(s.board, WorkColumn(r));
    FoundOnly(s.board, w.id, WorkColumn(r));
    WriteArrives(s.board, w);
    if OneColumnEach(s'.board) && OwnersListed(s'.board, s'.agents) {
      assert AgentOf(s', r).phase == AgentOf(s, r).phase;
      assert w.id in Ids(s'.board, WorkColumn(r));
      FoundOnly(s'.board, w.id, WorkColumn(r));
      FoundOnly(s'.board, w.id, Destination(w));
    }
  }

  /** Of the undisturbed calls exactly the uprooting blocks take a task in work away. */
  lemma UprootingTakesAway(s: State, op: Op, x: Input)
    requires OneColumnEach(s.board) && OwnersListed(s.board, s.agents)
    ensures TakesAway(s, CallWrite(s, op, x)) <==> Uproots(s, op)
  {
    hide FindColumn, Ids, OneColumnEach, CallWrite;
    CallRelocates(s, op, x);
    forall r | Owns(AgentOf(s, r).phase) ensures FindColumn(s.board, AgentOf(s, r).phase.task.id) == Some(WorkColumn(r)) {
      assert AgentIn(s.agents, r).phase.task.id in Ids(s.board, WorkColumn(r));
      FoundOnly(s.board, AgentOf(s, r).phase.task.id, WorkColumn(r));
    }
    forall r: Role ensures RoleOf(WorkColumn(r)).Some? { FeedersAreUnique(Done, r, r); }
  }

  /** Which undisturbed calls move a task: decisions on a task in a buffer, and blocks of a listed task. */
  lemma CallRelocates(s: State, op: Op, x: Input)
    ensures var w := CallWrite(s, op, x);
      && (op.OpBlock? ==> (Relocates(w) <==> FindColumn(s.board, op.id).Some?)
                          && (Relocates(w) ==> w.id == op.id && Destination(w) == Prioritized))
      && (!op.OpBlock? && Relocates(w) ==>
            FindColumn(s.board, w.id).Some? && RoleOf(FindColumn(s.board, w.id).value).None?)
  {
    hide FindColumn;
  }

  /** The store after a call holds records under their own ids, all of them used up. */
  lemma CallStores(s: State, op: Op, x: Input)
    requires KeysUsed(s) && Keyed(RunCall(s, op, x).board.tasks)
    requires RunCall(s, op, x).board.tasks.Keys <= RunCall(s, op, x).used
    ensures KeysUsed(RunCall(s, op, x))
  {
    hide RunCall, Atomically;
    WholeIsAtomic(s, op, x);
    CallKeepsPhases(s, op, x);
    if op.OpApprove? || op.OpReject? || op.OpRejectTo? { DecisionStores(s, op, x); }
    else if op.OpAnswer? || op.OpAsk? || op.OpDiscuss? { ReviewStores(s, op, x); }
    else if op.OpBlock? { BlockStores(s, op, x); }
    else { PlainStores(s, op, x); }
  }

  lemma DecisionStores(s: State, op: Op, x: Input)
    requires KeysUsed(s) && (op.OpApprove? || op.OpReject? || op.OpRejectTo?)
    requires Keyed(Atomically(s, op, x).board.tasks) && Atomically(s, op, x).board.tasks.Keys <= Atomically(s, op, x).used
    ensures KeysUsed(Atomically(s, op, x))
  {
    hide Atomically, CallWrite, AfterDecision, DecideOn, WriteStore, Keyed;
    var s' := Atomically(s, op, x);
    DecidesOrNothing(s, op, x);
    if s' != s {
      var w := CallWrite(s, op, x);
      DecidedStore(s, w.id, w.decision, x);
      if DecideOn(s.board, w.id, w.decision, x.now).1 { StoredKeyed(s.store, s'.board, SaveBoardCopy(w.id), s'.used); }
    }
  }

  lemma DecidesOrNothing(s: State, op: Op, x: Input)
    requires op.OpApprove? || op.OpReject? || op.OpRejectTo?
    ensures var w := CallWrite(s, op, x);
      Atomically(s, op, x) == s || (w.Decide? && Atomically(s, op, x) == AfterDecision(s, w.id, w.decision, x))
  {
    hide BufferOf, AfterDecision;
  }

  lemma DecidedStore(s: State, id: Id, d: Decision, x: Input)
    ensures var s' := AfterDecision(s, id, d, x);
      s'.used == s.used
      && s'.store == if DecideOn(s.board, id, d, x.now).1 then WriteStore(s.store, s'.board, SaveBoardCopy(id)) else s.store
  {
    hide DecideOn, FindUnresolved, WriteStore;
  }

  lemma ReviewStores(s: State, op: Op, x: Input)
    requires KeysUsed(s) && (op.OpAnswer? || op.OpAsk? || op.OpDiscuss?) && s.used <= Atomically(s, op, x).used
    ensures KeysUsed(Atomically(s, op, x))
  {
    hide Atomically, Keyed;
    ReviewOpsWriteNoTask(s, op, x);
  }

  lemma PlainStores(s: State, op: Op, x: Input)
    requires KeysUsed(s) && (op.OpCreate? || op.OpPrioritize? || op.OpPark? || op.OpUpdate?)
    requires Atomically(s, op, x).board.tasks.Keys <= Atomically(s, op, x).used
    ensures KeysUsed(Atomically(s, op, x))
  {
    hide AddTask, SetPriority, Amend, WriteBoard;
  }

  lemma BlockStores(s: State, op: Op, x: Input)
    requires KeysUsed(s) && op.OpBlock?
    requires Keyed(Atomically(s, op, x).board.tasks) && Atomically(s, op, x).board.tasks.Keys <= Atomically(s, op, x).used
    ensures KeysUsed(Atomically(s, op, x))
  {
    hide AfterBlock, FindColumn;
    if FindColumn(s.board, op.id).Some? { BlockedStore(s, op.id, op.blockedBy, FindColumn(s.board, op.id).value); }
  }

  lemma BlockedStore(s: State, id: Id, blockedBy: seq<Id>, from: Column)
    ensures var s' := AfterBlock(s, id, blockedBy, from);
      s'.used == s.used
      && s'.store == if BlockOn(s.board, id, blockedBy).1 then WriteStore(s.store, s'.board, SaveBoardCopy(id)) else s.store
  {
    hide BlockOn, WriteStore, WriteSignal;
  }

  lemma CreateUses(s: State, op: Op, x: Input)
    requires op.OpCreate? && x.newId !in s.used
    ensures x.newId in RunCall(s, op, x).used
  {
    hide RunCall, AddTask;
    WholeIsAtomic(s, op, x);
  }

  /** Pending calls stay fresh when the board gains at most a task none of them is about to add. */
  lemma FreshKept(tasks: map<Id, Task>, tasks': map<Id, Task>, used: set<Id>, used': set<Id>, calls: map<nat, Call>,
                  added: set<Id>)
    requires CallsFresh(tasks, used, calls) && tasks'.Keys == tasks.Keys + added && used <= used'
    requires forall pid :: pid in calls && calls[pid].Adding? ==> calls[pid].task.id !in added
    ensures CallsFresh(tasks', used', calls)
  {
    forall pid | pid in calls ensures CallFresh(tasks', used', calls[pid]) {
      assert CallFresh(tasks, used, calls[pid]);
    }
  }

  lemma AddingIsUsed(s: State)
    requires CallsFresh(s.board.tasks, s.used, s.calls)
    ensures forall pid :: pid in s.calls && s.calls[pid].Adding? ==> s.calls[pid].task.id in s.used
  {
    forall pid | pid in s.calls && s.calls[pid].Adding? ensures s.calls[pid].task.id in s.used {
      assert CallFresh(s.board.tasks, s.used, s.calls[pid]);
    }
  }

  lemma CallFreshKept(s: State, op: Op, x: Input)
    requires Placed(s)
    ensures CallsFresh(RunCall(s, op, x).board.tasks, RunCall(s, op, x).used, RunCall(s, op, x).calls)
  {
    hide RunCall, CallWrite, WriteBoard, OwnersListed, OneColumnEach, KeysUsed, CallsFresh;
    var w := CallWrite(s, op, x);
    CallWritesBoard(s, op, x);
    WholeKeepsCalls(s, op, x);
    CallKeepsPhases(s, op, x);
    InsertsNew(s, op, x);
    OneColumnKeyed(s.board);
    WriteRecords(s.board, w);
    AddingIsUsed(s);
    FreshKept(s.board.tasks, RunCall(s, op, x).board.tasks, s.used, RunCall(s, op, x).used, s.calls,
              if w.Insert? then {w.task.id} else {});
  }

  lemma CallPlaced(s: State, op: Op, x: Input)
    requires Placed(s) && !Uproots(s, op)
    ensures Placed(RunCall(s, op, x))
  {
    hide RunCall, CallWrite, WriteBoard, Ids, OneColumnEach, OwnersListed, Uproots, TakesAway, CallsFresh;
    var w := CallWrite(s, op, x);
    CallWritesBoard(s, op, x);
    CallKeepsPhases(s, op, x);
    UprootingTakesAway(s, op, x);
    OwnersStay(s, w, RunCall(s, op, x));
    InsertsNew(s, op, x);
    OneColumnKeyed(s.board);
    WriteRecords(s.board, w);
    WriteListed(s.board, w);
    if w.Insert? { CreateUses(s, op, x); }
    CallStores(s, op, x);
    CallFreshKept(s, op, x);
  }

  lemma OneColumnKeyed(b: Board)
    requires OneColumnEach(b)
    ensures Keyed(b.tasks)
  {
  }

  // ── Sections of overlapping calls ─────────────────────────────────────────

  /** What a section may write: a task that is not on the board, records under used ids. */
  ghost predicate Writes(s: State, ch: Change) {
    && (ch.board.Insert? ==> ch.board.task.id !in s.board.tasks && ch.board.task.id in s.used)
    && (ch.store.SaveRecord? ==> ch.store.task.id in s.used || ch.newId == Some(ch.store.task.id))
  }

  lemma BeginFresh(s: State, op: Op, x: Input)
    requires KeysUsed(s)
    ensures var (ch, next) := BeginChange(s, op, x);
      && Writes(s, ch) && !ch.board.Insert?
      && (next.Some? ==> CallFresh(s.board.tasks, Perform(s, ch).used, next.value))
      && (next.Some? && next.value.Adding? ==> next.value.task.id !in s.used)
  {
    hide FindColumn, BufferOf, BlockOn, Dequeue, FindUnresolved, WriteBoard, WriteStore, WriteReviews, WriteQueue, WriteWaiting, WriteSignal;
  }

  lemma ContinueFresh(s: State, call: Call, x: Input)
    requires CallFresh(s.board.tasks, s.used, call)
    ensures var (ch, next) := ContinueChange(s, call, x);
      && Writes(s, ch) && (ch.board.Insert? ==> call.Adding? && ch.board.task == call.task)
      && (next.Some? ==> !next.value.Adding? && forall tasks, used :: CallFresh(tasks, used, next.value))
  {
    hide ContinueChange;
    ContinueWritesFresh(s, call, x);
    HoldsNoRecord(s, call, x);
  }

  lemma ContinueWritesFresh(s: State, call: Call, x: Input)
    requires CallFresh(s.board.tasks, s.used, call)
    ensures var ch := ContinueChange(s, call, x).0;
      Writes(s, ch) && (ch.board.Insert? ==> call.Adding? && ch.board.task == call.task)
  {
    hide ContinueChange;
    InsertsAdded(s, call, x);
    SavesOwnRecord(s, call, x);
  }

  lemma InsertsAdded(s: State, call: Call, x: Input)
    ensures var w := ContinueChange(s, call, x).0.board; w.Insert? ==> call.Adding? && w.task == call.task
  {
    hide FindColumn, BufferOf, DecideOn, FindUnresolved, Append, ActionOf, RoleOf;
  }

  lemma SavesOwnRecord(s: State, call: Call, x: Input)
    ensures var w := ContinueChange(s, call, x).0.store;
      w.SaveRecord? ==> (call.StoringPriority? || call.StoringNote? || call.StoringEdit?) && w.task.id == call.task.id
  {
    hide FindColumn, BufferOf, DecideOn, FindUnresolved, Append, ActionOf, RoleOf;
  }

  /** A record about to be stored was read, or made, in the first section of its call. */
  lemma HoldsNoRecord(s: State, call: Call, x: Input)
    ensures var next := ContinueChange(s, call, x).1;
      next.Some? ==> !next.value.Adding? && !next.value.StoringPriority? && !next.value.StoringNote? && !next.value.StoringEdit?
  {
    hide FindColumn, BufferOf, DecideOn, FindUnresolved, Append, ActionOf, RoleOf;
  }

  /** A section keeps the board, the owners and the keys right, and the other calls fresh. */
  lemma SectionPlaced(s: State, ch: Change, s1: State, calls: map<nat, Call>)
    requires OneColumnEach(s.board) && OwnersListed(s.board, s.agents) && KeysUsed(s)
    requires CallsFresh(s.board.tasks, s.used, calls) && Writes(s, ch) && !TakesAway(s, ch.board)
    requires ch.board.Insert? ==> forall pid :: pid in calls && calls[pid].Adding? ==> calls[pid].task.id != ch.board.task.id
    requires SamePhases(s, s1) && s1.board == WriteBoard(s.board, ch.board).0
    requires s1.store == WriteStore(s.store, s.board, ch.store) && s1.used == Perform(s, ch).used
    ensures OneColumnEach(s1.board) && OwnersListed(s1.board, s1.agents) && KeysUsed(s1)
    ensures CallsFresh(s1.board.tasks, s1.used, calls)
  {
    hide WriteBoard, WriteStore, OneColumnEach, OwnersListed, TakesAway, CallsFresh, WriteReviews, WriteQueue, WriteWaiting, WriteSignal;
    var w := ch.board;
    OneColumnKeyed(s.board);
    WriteListed(s.board, w);
    WriteRecords(s.board, w);
    OwnersStay(s, w, s1);
    StoredKeyed(s.store, s.board, ch.store, s1.used);
    FreshKept(s.board.tasks, s1.board.tasks, s.used, s1.used, calls, if w.Insert? then {w.task.id} else {});
  }

  lemma SectionStore(s: State, op: Op, call: Call, x: Input)
    ensures var ch, s1 := BeginChange(s, op, x).0, BeginSection(s, op, x).0;
      s1.store == WriteStore(s.store, s.board, ch.store) && s1.used == Perform(s, ch).used
    ensures var ch, s1 := ContinueChange(s, call, x).0, ContinueSection(s, call, x).0;
      s1.store == WriteStore(s.store, s.board, ch.store) && s1.used == Perform(s, ch).used
  {
    hide BeginChange, ContinueChange, WriteBoard, WriteStore, WriteReviews, WriteQueue, WriteWaiting, WriteSignal, Deliver;
  }

  /** The pending calls after a section of one of them. */
  lemma TrackFresh(tasks: map<Id, Task>, used: set<Id>, calls: map<nat, Call>, pid: nat, next: Option<Call>)
    requires CallsFresh(tasks, used, calls - {pid})
    requires next.Some? ==> CallFresh(tasks, used, next.value) && Separate(calls - {pid}, next.value)
    ensures CallsFresh(tasks, used, if next.Some? then calls[pid := next.value] else calls - {pid})
  {
    var calls' := if next.Some? then calls[pid := next.value] else calls - {pid};
    forall q | q in calls' ensures CallFresh(tasks, used, calls'[q]) {
      assert q != pid ==> q in calls - {pid} && calls'[q] == (calls - {pid})[q];
    }
    forall p, q | p in calls' && q in calls' && p != q && calls'[p].Adding? && calls'[q].Adding?
      ensures calls'[p].task.id != calls'[q].task.id
    {
      assert p != pid ==> p in calls - {pid} && calls'[p] == (calls - {pid})[p];
      assert q != pid ==> q in calls - {pid} && calls'[q] == (calls - {pid})[q];
    }
  }

  lemma BeginPlaced(s: State, a: Action)
    requires Placed(s) && a.Begin? && a.pid !in s.calls && !TakesAway(s, BeginChange(s, a.op, a.input).0.board)
    ensures Placed(Apply(s, a))
  {
    hide BeginChange, BeginSection, WriteBoard, WriteStore, Perform, OneColumnEach, OwnersListed, TakesAway, CallsFresh, CallFresh;
    var (ch, next) := BeginChange(s, a.op, a.input);
    var s1 := BeginSection(s, a.op, a.input).0;
    BeginFresh(s, a.op, a.input);
    BeginsWith(s, a.op, a.input);
    SectionWrites(s, a.op, SignallingBlock, a.input);
    SectionStore(s, a.op, SignallingBlock, a.input);
    SectionKeepsPhases(s, a.op, SignallingBlock, a.input);
    SectionsKeepCalls(s, Coder, a.op, SignallingBlock, a.input);
    SectionPlaced(s, ch, s1, s.calls);
    AddingIsUsed(s);
    OneColumnKeyed(s.board);
    assert s.calls - {a.pid} == s.calls;
    if next.Some? { BegunFresh(s, a.op, a.input, s1); }
    TrackFresh(s1.board.tasks, s1.used, s.calls, a.pid, next);
  }

  lemma BeginsWith(s: State, op: Op, x: Input)
    ensures BeginSection(s, op, x).1 == BeginChange(s, op, x).1
  {
    hide BeginChange, Perform;
  }

  /** A begun call is fresh after its first section, which adds no task to the board. */
  lemma BegunFresh(s: State, op: Op, x: Input, s1: State)
    requires KeysUsed(s) && Keyed(s.board.tasks) && BeginChange(s, op, x).1.Some?
    requires s1.board == WriteBoard(s.board, BeginChange(s, op, x).0.board).0
    requires s1.used == Perform(s, BeginChange(s, op, x).0).used
    ensures CallFresh(s1.board.tasks, s1.used, BeginChange(s, op, x).1.value)
  {
    hide BeginChange, WriteBoard, Perform;
    BeginFresh(s, op, x);
    WriteRecords(s.board, BeginChange(s, op, x).0.board);
  }

  lemma ContinuePlaced(s: State, a: Action)
    requires Placed(s) && a.Continue? && a.pid in s.calls
    requires !TakesAway(s, ContinueChange(s, s.calls[a.pid], a.input).0.board)
    ensures Placed(Apply(s, a))
  {
    hide ContinueChange, ContinueSection, OneColumnEach, OwnersListed, TakesAway, CallFresh, CallsFresh, Keyed;
    var call := s.calls[a.pid];
    OthersFresh(s, a.pid);
    PendingFresh(s, a.pid);
    SectionsKeepCalls(s, Coder, OpApprove(""), call, a.input);
    ContinuedPlaced(s, call, s.calls - {a.pid}, a.input);
    var (s1, next) := ContinueSection(s, call, a.input);
    TrackFresh(s1.board.tasks, s1.used, s.calls, a.pid, next);
  }

  lemma PendingFresh(s: State, pid: nat)
    requires CallsFresh(s.board.tasks, s.used, s.calls) && pid in s.calls
    ensures CallFresh(s.board.tasks, s.used, s.calls[pid])
  {
  }

  /** A later section keeps the lists right, and the other calls fresh as well as its own. */
  lemma ContinuedPlaced(s: State, call: Call, others: map<nat, Call>, x: Input)
    requires OneColumnEach(s.board) && OwnersListed(s.board, s.agents) && KeysUsed(s)
    requires CallsFresh(s.board.tasks, s.used, others) && CallFresh(s.board.tasks, s.used, call)
    requires call.Adding? ==> forall pid :: pid in others && others[pid].Adding? ==> others[pid].task.id != call.task.id
    requires !TakesAway(s, ContinueChange(s, call, x).0.board)
    ensures var (s1, next) := ContinueSection(s, call, x);
      && OneColumnEach(s1.board) && OwnersListed(s1.board, s1.agents) && KeysUsed(s1)
      && CallsFresh(s1.board.tasks, s1.used, others)
      && (next.Some? ==> !next.value.Adding? && CallFresh(s1.board.tasks, s1.used, next.value))
  {
    hide ContinueChange, ContinueSection, WriteBoard, WriteStore, Perform, OneColumnEach, OwnersListed, TakesAway, CallFresh;
    hide CallsFresh, KeysUsed;
    ContinueFresh(s, call, x);
    ContinuesWith(s, call, x);
    SectionWrites(s, OpApprove(""), call, x);
    SectionStore(s, OpApprove(""), call, x);
    SectionKeepsPhases(s, OpApprove(""), call, x);
    SectionPlaced(s, ContinueChange(s, call, x).0, ContinueSection(s, call, x).0, others);
  }

  lemma ContinuesWith(s: State, call: Call, x: Input)
    ensures ContinueSection(s, call, x).1 == ContinueChange(s, call, x).1
  {
    hide ContinueChange, Perform, Deliver;
  }

  lemma OthersFresh(s: State, pid: nat)
    requires CallsFresh(s.board.tasks, s.used, s.calls) && pid in s.calls
    ensures CallsFresh(s.board.tasks, s.used, s.calls - {pid})
    ensures s.calls[pid].Adding? ==> forall q :: q in s.calls - {pid} && (s.calls - {pid})[q].Adding? ==>
      (s.calls - {pid})[q].task.id != s.calls[pid].task.id
  {
  }

  // ── Agents, events, restarts ──────────────────────────────────────────────

  /** What an agent picks is listed in its column, and its record is what the board holds. */
  lemma {:induction false} PickIsListed(b: Board, ids: seq<Id>)
    requires Keyed(b.tasks)
    ensures var pick := FirstReady(b, ids); pick.Some? ==> pick.value.id in ids && pick.value.id in b.tasks
  {
    if ids != [] { PickIsListed(b, ids[1..]); }
  }

  lemma AgentPlaced(s: State, r: Role, x: Input)
    requires Placed(s)
    ensures Placed(AgentSection(s, r, x))
  {
    hide AgentSection, AgentChange, WriteBoard, Ids, OneColumnEach, OwnersListed, KeysUsed, CallsFresh;
    AgentListed(s, r, x);
    AgentOwnersListed(s, r, x);
    AgentKeysUsed(s, r, x);
    AgentFreshKept(s, r, x);
  }

  lemma AgentFreshKept(s: State, r: Role, x: Input)
    requires Placed(s)
    ensures var s' := AgentSection(s, r, x); CallsFresh(s'.board.tasks, s'.used, s'.calls)
  {
    hide AgentSection, AgentChange, WriteBoard, Ids, OneColumnEach, OwnersListed, KeysUsed, CallsFresh, WriteStore;
    var s' := AgentSection(s, r, x);
    AgentBoardIs(s, r, x);
    AgentWrites(s, r, x);
    AgentStoreIs(s, r, x);
    OneColumnKeyed(s.board);
    WriteRecords(s.board, AgentChange(s, r, x).0.board);
    SectionsKeepCalls(s, r, OpApprove(""), SignallingBlock, x);
    FreshKept(s.board.tasks, s'.board.tasks, s.used, s'.used, s.calls, {});
  }

  lemma AgentListed(s: State, r: Role, x: Input)
    requires Placed(s)
    ensures OneColumnEach(AgentSection(s, r, x).board)
  {
    hide AgentSection, AgentChange, WriteBoard, OneColumnEach, OwnersListed, KeysUsed;
    AgentBoardIs(s, r, x);
    AgentWrites(s, r, x);
    WriteListed(s.board, AgentChange(s, r, x).0.board);
  }

  lemma AgentOwnersListed(s: State, r: Role, x: Input)
    requires Placed(s)
    ensures OwnersListed(AgentSection(s, r, x).board, AgentSection(s, r, x).agents)
  {
    hide AgentSection, AgentChange, WriteBoard, Ids, OneColumnEach, KeysUsed;
    var s', w := AgentSection(s, r, x), AgentChange(s, r, x).0.board;
    AgentBoardIs(s, r, x);
    AgentWrites(s, r, x);
    forall q | Owns(AgentIn(s'.agents, q).phase)
      ensures AgentIn(s'.agents, q).phase.task.id in Ids(s'.board, WorkColumn(q))
    {
      PhaseAfter(s, r, x, q);
      if q == r { SelfListed(s, r, x); }
      else { OtherListed(s, r, x, q); }
    }
  }

  lemma SelfListed(s: State, r: Role, x: Input)
    requires Placed(s) && Owns(AgentChange(s, r, x).1)
    ensures AgentChange(s, r, x).1.task.id in Ids(AgentSection(s, r, x).board, WorkColumn(r))
  {
    hide AgentSection, AgentChange, WriteBoard, Ids, OneColumnEach, KeysUsed, NextUnblocked;
    var next, w := AgentChange(s, r, x).1, AgentChange(s, r, x).0.board;
    AgentBoardIs(s, r, x);
    AgentWrites(s, r, x);
    OwnSteps(s, r, x);
    OneColumnKeyed(s.board);
    if next.Picked? { PickedListed(s.board, WorkColumn(r)); }
    assert next.task.id in Ids(s.board, WorkColumn(r));
    WriteStays(s.board, w, next.task.id, WorkColumn(r));
  }

  lemma PickedListed(b: Board, c: Column)
    requires Keyed(b.tasks)
    ensures NextUnblocked(b, c).Some? ==> NextUnblocked(b, c).value.id in Ids(b, c)
  {
    PickIsListed(b, Ids(b, c));
  }

  lemma OtherListed(s: State, r: Role, x: Input, q: Role)
    requires Placed(s) && q != r && Owns(AgentOf(s, q).phase)
    ensures AgentOf(s, q).phase.task.id in Ids(AgentSection(s, r, x).board, WorkColumn(q))
  {
    hide AgentSection, AgentChange, WriteBoard, Ids, OneColumnEach, KeysUsed;
    var w, id := AgentChange(s, r, x).0.board, AgentOf(s, q).phase.task.id;
    AgentBoardIs(s, r, x);
    AgentWrites(s, r, x);
    assert id in Ids(s.board, WorkColumn(q));
    if w.Move? && w.id == id {
      FoundOnly(s.board, id, WorkColumn(q));
      FoundOnly(s.board, id, WorkColumn(r));
      FeedersAreUnique(Done, q, r);
    }
    WriteStays(s.board, w, id, WorkColumn(q));
  }

  lemma AgentKeysUsed(s: State, r: Role, x: Input)
    requires Placed(s)
    ensures KeysUsed(AgentSection(s, r, x))
  {
    hide AgentSection, AgentChange, WriteBoard, Ids, WriteStore;
    var s', ch := AgentSection(s, r, x), AgentChange(s, r, x).0;
    AgentBoardIs(s, r, x);
    AgentWrites(s, r, x);
    WriteRecords(s.board, ch.board);
    AgentStoreIs(s, r, x);
    if ch.store.SaveRecord? { OwnedIsUsed(s, r); }
    StoredKeyed(s.store, s.board, ch.store, s.used);
  }

  lemma OwnedIsUsed(s: State, r: Role)
    requires Placed(s) && Owns(AgentOf(s, r).phase)
    ensures AgentOf(s, r).phase.task.id in s.used
  {
  }

  lemma AgentStoreIs(s: State, r: Role, x: Input)
    ensures AgentSection(s, r, x).store == WriteStore(s.store, s.board, AgentChange(s, r, x).0.store)
    ensures s.used <= AgentSection(s, r, x).used
  {
    hide AgentChange, WriteBoard, WriteStore;
  }

  lemma StoredKeyed(store: map<Id, Task>, b: Board, w: StoreWrite, used: set<Id>)
    requires Keyed(store) && Keyed(b.tasks) && store.Keys <= used && b.tasks.Keys <= used
    requires w.SaveRecord? ==> w.task.id in used
    ensures Keyed(WriteStore(store, b, w)) && WriteStore(store, b, w).Keys <= used
  {
  }

  /** A section that writes no task and moves no agent. */
  lemma QuietPlaced(s: State, s': State)
    requires Placed(s) && s'.board == s.board && s'.store == s.store && s.used <= s'.used && SamePhases(s, s')
    requires s'.calls == s.calls
    ensures Placed(s')
  {
    hide OneColumnEach, Ids, CallsFresh;
    FreshKept(s.board.tasks, s'.board.tasks, s.used, s'.used, s.calls, {});
    forall r | Owns(AgentIn(s'.agents, r).phase) ensures AgentIn(s'.agents, r).phase.task.id in Ids(s'.board, WorkColumn(r)) {
      assert AgentOf(s', r).phase == AgentOf(s, r).phase;
    }
  }

  lemma LoopPlaced(s: State, x: Input)
    requires Placed(s)
    ensures Placed(LoopSection(s, x))
  {
    hide Placed, LoopChange, WriteBoard, WriteStore, WriteQueue;
    LoopWritesNoTask(s, x);
    LoopSectionBoard(s, x);
    SignalKeepsPhases(s.agents, LoopChange(s, x).0.signal);
    SectionsKeepCalls(s, Coder, OpApprove(""), SignallingBlock, x);
    QuietPlaced(s, LoopSection(s, x));
  }

  lemma {:induction false} EventPlaced(s: State, x: Input, fuel: nat)
    requires Placed(s)
    ensures Placed(FinishEvent(s, x, fuel))
    decreases fuel
  {
    hide LoopSection, Placed;
    LoopPlaced(s, x);
    if !LoopSection(s, x).loop.Listening? && fuel > 0 { EventPlaced(LoopSection(s, x), x, fuel - 1); }
  }

  lemma FiledOneColumn(b: Board)
    requires WellFormed(b)
    ensures OneColumnEach(b)
  {
    forall c, id | id in Ids(b, c) ensures id in b.tasks && b.tasks[id].Column() == c {
      MembersOf(b, c);
    }
    forall c, d, id | id in Ids(b, c) && id in Ids(b, d) ensures c == d {
      MembersOf(b, c);
      MembersOf(b, d);
    }
  }

  lemma BootPlaced(s: State, order: seq<Id>, reviewOrder: seq<Id>, limits: map<Column, Priority>)
    requires StoreFiled(s) && CanBoot(s, order, reviewOrder)
    ensures Placed(Boot(s, order, reviewOrder, limits))
  {
    hide FromTasks, CanBoot, OneColumnEach, WellFormed;
    BootBoard(s, order, reviewOrder, limits);
    FiledOneColumn(Boot(s, order, reviewOrder, limits).board);
  }

  // ── Steps and runs ────────────────────────────────────────────────────────

  lemma StepPlaced(s: State, a: Action)
    requires Placed(s) && !Displaces(s, a)
    ensures Placed(Apply(s, a))
  {
    hide AgentSection, LoopSection, RunCall, FinishEvent, Boot, CanBoot, Placed, TakesAway, StoreFiled, BeginSection, ContinueSection, BeginChange, ContinueChange;
    if a.AgentStep? { AgentPlaced(s, a.role, a.input); }
    else if a.LoopStep? { LoopPlaced(s, a.input); }
    else if a.WholeEvent? { EventPlaced(s, a.input, EVENT_SECTIONS); }
    else if a.Whole? { WholePlaced(s, a); }
    else if a.Begin? {
      if a.pid !in s.calls { BeginPlaced(s, a); }
    } else if a.Continue? {
      if a.pid in s.calls { ContinuePlaced(s, a); }
    } else if a.Restart? {
      PlacedIsFiled(s);
      if CanBoot(s, a.order, a.reviewOrder) { BootPlaced(s, a.order, a.reviewOrder, a.limits); }
    } else { QuietPlaced(s, Apply(s, a)); }
  }

  lemma WholePlaced(s: State, a: Action)
    requires Placed(s) && a.Whole? && !Displaces(s, a)
    ensures Placed(RunCall(s, a.op, a.input))
  {
    hide RunCall, OneColumnEach, OwnersListed, KeysUsed, CallsFresh, TakesAway, Uproots, CallWrite;
    UprootingTakesAway(s, a.op, a.input);
    CallPlaced(s, a.op, a.input);
  }

  /**
   * The hypothesis is exact: a step keeps lists, owners and calls right unless it is not the agent's own
   * and takes a task in work out of its agent's column.
   */
  lemma StepPlacedIff(s: State, a: Action)
    requires Placed(s)
    ensures Placed(Apply(s, a)) <==> !Displaces(s, a)
  {
    hide Placed, Apply;
    if Displaces(s, a) { DisplacedNotPlaced(s, a); } else { StepPlaced(s, a); }
  }

  lemma DisplacedNotPlaced(s: State, a: Action)
    requires Placed(s) && Displaces(s, a)
    ensures !Placed(Apply(s, a))
  {
    hide Apply, StepWrite, OneColumnEach, OwnersListed, KeysUsed, CallsFresh, WriteBoard, TakesAway;
    OnlyCallsMove(s, a);
    StepWritesBoard(s, a);
    CallStepPhases(s, a);
    OwnerLost(s, StepWrite(s, a), Apply(s, a));
  }

  lemma OnlyCallsMove(s: State, a: Action)
    requires Displaces(s, a)
    ensures a.Begin? || a.Continue? || a.Whole?
  {
    hide CallWrite, BeginChange, ContinueChange;
  }

  lemma CallStepPhases(s: State, a: Action)
    requires a.Begin? || a.Continue? || a.Whole?
    ensures SamePhases(s, Apply(s, a))
  {
    hide RunCall, BeginSection, ContinueSection;
    if a.Whole? { CallKeepsPhases(s, a.op, a.input); }
    else if a.Begin? { SectionKeepsPhases(s, a.op, SignallingBlock, a.input); }
    else if a.pid in s.calls { SectionKeepsPhases(s, OpApprove(""), s.calls[a.pid], a.input); }
  }

  lemma PlacedIsFiled(s: State)
    requires Placed(s)
    ensures StoreFiled(s)
  {
  }

  lemma {:induction false} RunPlaced(states: seq<State>, run: seq<Action>, k: nat)
    requires Trace(states, run, Undisplaced()) && Placed(states[0]) && k < |states|
    ensures Placed(states[k])
  {
    hide Trace, Placed, Apply, Displaces;
    if k > 0 {
      RunPlaced(states, run, k - 1);
      LastStep(states, run, Undisplaced(), k);
      StepPlaced(states[k - 1], run[k - 1]);
    }
  }

  /**
   * Exclusive ownership in every interleaving from any boot, overlapping calls and edits included: until
   * a call moves a task in work away, the task a role works on is listed in that role's column and in
   * no other, and no other role works on it.
   */
  lemma OwnershipWithEdits(pre: State, order: seq<Id>, reviewOrder: seq<Id>, limits: map<Column, Priority>,
                           states: seq<State>, run: seq<Action>, k: nat, r: Role)
    requires StoreFiled(pre) && CanBoot(pre, order, reviewOrder)
    requires Trace(states, run, Undisplaced()) && states[0] == Boot(pre, order, reviewOrder, limits) && k < |states|
    requires Owns(AgentOf(states[k], r).phase)
    ensures var s := states[k]; var id := AgentOf(s, r).phase.task.id;
      && id in s.board.tasks
      && (forall c :: id in Ids(s.board, c) <==> c == WorkColumn(r))
      && (forall q :: Owns(AgentOf(s, q).phase) && AgentOf(s, q).phase.task.id == id ==> q == r)
  {
    hide Trace, Boot, StoreFiled, CanBoot, Ids;
    BootPlaced(pre, order, reviewOrder, limits);
    RunPlaced(states, run, k);
    var s := states[k];
    forall q | Owns(AgentOf(s, q).phase) && AgentOf(s, q).phase.task.id == AgentOf(s, r).phase.task.id ensures q == r {
      FeedersAreUnique(Done, q, r);
    }
  }

  /** Whatever holds the records right holds the lists right. */
  lemma OwnedIsPlaced(s: State)
    requires Owned(s)
    ensures Placed(s)
  {
    hide WellFormed, StoreFollows;
    BoardIsWell(s);
    FiledOneColumn(s.board);
    forall r | Owns(AgentIn(s.agents, r).phase)
      ensures AgentIn(s.agents, r).phase.task.id in Ids(s.board, WorkColumn(r))
    {
      OwnsItsColumn(s, r);
      WellMembers(s.board, WorkColumn(r));
    }
  }

  lemma WellMembers(b: Board, c: Column)
    requires WellFormed(b)
    ensures forall id :: id in Ids(b, c) <==> id in b.tasks && b.tasks[id].Column() == c
  {
    MembersOf(b, c);
  }

  // ── Done ──────────────────────────────────────────────────────────────────

  /** The step is a restart, or a call's that moves the task: a block, or a decision begun earlier. */
  ghost predicate Retrieves(s: State, a: Action, id: Id) {
    a.Restart? || (!a.AgentStep? && Relocates(StepWrite(s, a)) && StepWrite(s, a).id == id)
  }

  ghost function Left(id: Id): (State, Action) -> bool {
    (s: State, a: Action) => !Displaces(s, a) && !Retrieves(s, a, id)
  }

  /** A step that is no agent's leaves a task listed where it is unless it moves that task. */
  lemma StepLeavesListed(s: State, a: Action, id: Id, c: Column)
    requires OneColumnEach(s.board) && id in Ids(s.board, c) && !a.AgentStep? && !Retrieves(s, a, id)
    ensures id in Ids(Apply(s, a).board, c)
  {
    hide Apply, StepWrite, WriteBoard, Ids, OneColumnEach;
    StepWritesBoard(s, a);
    WriteStays(s.board, StepWrite(s, a), id, c);
  }

  /** An agent moves no listed task out of a column that is not its own. */
  lemma AgentLeavesListed(s: State, r: Role, x: Input, id: Id, c: Column)
    requires Placed(s) && id in Ids(s.board, c) && (AgentOf(s, r).phase.Cleared? ==> c != WorkColumn(r))
    ensures id in Ids(AgentSection(s, r, x).board, c)
  {
    hide AgentSection, AgentChange, WriteBoard, Ids, OneColumnEach, KeysUsed, FindColumn;
    var w := AgentChange(s, r, x).0.board;
    AgentBoardIs(s, r, x);
    AgentWrites(s, r, x);
    if w.Move? && w.id == id {
      FoundOnly(s.board, id, WorkColumn(r));
      FoundOnly(s.board, id, c);
    }
    WriteStays(s.board, w, id, c);
  }

  lemma LeftMeans(s: State, a: Action, id: Id)
    requires Left(id)(s, a)
    ensures !Displaces(s, a) && !Retrieves(s, a, id)
  {
  }

  lemma StepLeavesDone(s: State, a: Action, id: Id)
    requires Placed(s) && Left(id)(s, a) && id in Ids(s.board, Done)
    ensures id in Ids(Apply(s, a).board, Done)
  {
    hide AgentSection, Ids, OneColumnEach, Displaces, Retrieves, Left;
    LeftMeans(s, a, id);
    if a.AgentStep? {
      FeedersAreUnique(Done, a.role, a.role);
      AgentLeavesListed(s, a.role, a.input, id, Done);
    } else {
      hide Apply;
      StepLeavesListed(s, a, id, Done);
    }
  }

  /**
   * In such a run a task listed in Done stays listed there, edits or not, until a restart or a call
   * that moves that very task.
   */
  lemma {:induction false} DoneStaysListed(states: seq<State>, run: seq<Action>, k: nat, id: Id)
    requires Trace(states, run, Left(id)) && Placed(states[0]) && id in Ids(states[0].board, Done) && k < |states|
    ensures Placed(states[k]) && id in Ids(states[k].board, Done)
  {
    hide Trace, Placed, Apply, Displaces, Retrieves, Ids, Left;
    if k > 0 {
      DoneStaysListed(states, run, k - 1, id);
      LastStep(states, run, Left(id), k);
      LeftMeans(states[k - 1], run[k - 1], id);
      StepPlaced(states[k - 1], run[k - 1]);
      StepLeavesDone(states[k - 1], run[k - 1], id);
    }
  }
}
