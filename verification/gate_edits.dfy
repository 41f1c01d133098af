/**
 * The approval gate with edits.  When calls do not overlap, tasks may be edited freely: an edit may set
 * the recorded stage back, but the column that lists a task is still one whose gates the recorded
 * decisions have opened, and so is the stage any record shows.
 */
module GateEdits {
  import opened Options
  import opened Columns
  import opened Kanban
  import opened ReviewQueues
  import opened Reviews
  import opened Protocol
  import opened Atomic
  import opened Effects
  import opened Gates
  import opened Wip
  import opened Listings
  import opened Steps
  import opened Ownership
  import opened Placement

  /** Undisturbed calls that uproot no task, with rework as the mode asks; edits are free. */
  ghost function FreelyEdited(mode: Mode): (State, Action) -> bool {
    (s: State, a: Action) => !a.Begin? && !a.Continue? && (a.Whole? ==> !Uproots(s, a.op) && ReworkAllowed(mode, s, a.op))
  }

  /** Every record has passed what is left of its stage, and every listed task what is left of its column. */
  ghost predicate BoardPassed(mode: Mode, b: Board) {
    && (forall id :: id in b.tasks ==> TaskPassed(mode, b.tasks[id]))
    && (forall c, id :: id in Ids(b, c) && id in b.tasks ==> Passed(mode, b.tasks[id].history, c))
  }

  /** A record kept elsewhere: passed itself, and with the history the board has. */
  ghost predicate CopyPassed(mode: Mode, tasks: map<Id, Task>, id: Id, t: Task) {
    TaskPassed(mode, t) && id in tasks && t.history == tasks[id].history
  }

  ghost predicate StorePassed(mode: Mode, tasks: map<Id, Task>, store: map<Id, Task>) {
    forall id :: id in store ==> CopyPassed(mode, tasks, id, store[id])
  }

  ghost predicate SnapshotsPassed(mode: Mode, tasks: map<Id, Task>, agents: map<Role, Agent>) {
    forall r :: Owns(AgentIn(agents, r).phase) ==>
      CopyPassed(mode, tasks, AgentIn(agents, r).phase.task.id, AgentIn(agents, r).phase.task)
  }

  ghost predicate Recorded(mode: Mode, s: State) {
    && Placed(s) && BoardPassed(mode, s.board)
    && StorePassed(mode, s.board.tasks, s.store) && SnapshotsPassed(mode, s.board.tasks, s.agents)
  }

  // ── Board writes ──────────────────────────────────────────────────────────

  ghost predicate WritePasses(mode: Mode, b: Board, w: BoardWrite) {
    match w
    case Move(id, target) => id in b.tasks ==> Passed(mode, b.tasks[id].history, target)
    case Decide(id, d, _) => id in b.tasks ==> DecisionFits(mode, b.tasks, id, d)
    case Insert(t) => t.id !in b.tasks && t.stage == Backlog && t.history == []
    case Replace(t) => CopyPassed(mode, b.tasks, t.id, t)
    case _ => true
  }

  lemma StartPassed(mode: Mode, h: seq<HistoryEntry>)
    ensures Passed(mode, h, Prioritized)
  {
  }

  /** The history and the destination of a task that has moved. */
  lemma MovedPassed(mode: Mode, b: Board, w: BoardWrite)
    requires Keyed(b.tasks) && Relocates(w) && w.id in b.tasks && WritePasses(mode, b, w)
    ensures Passed(mode, HistoryAfter(b, w, true, w.id), Destination(w))
  {
    if w.Decide? { DecidedHere(mode, b.tasks, w.id, w.decision, w.now); }
    else if w.Block? { StartPassed(mode, b.tasks[w.id].history); }
  }

  /** What one write leaves true of one record and of one listing. */
  lemma WrittenPassed(mode: Mode, b: Board, w: BoardWrite, id: Id)
    requires OneColumnEach(b) && BoardPassed(mode, b) && WritePasses(mode, b, w)
    requires id in WriteBoard(b, w).0.tasks
    ensures TaskPassed(mode, WriteBoard(b, w).0.tasks[id])
  {
    hide WriteBoard, Passed, FindColumn, Ids, OneColumnEach;
    OneColumnKeyed(b);
    WriteRecords(b, w);
    if Relocates(w) && w.id == id && id in b.tasks && WriteBoard(b, w).1 { MovedPassed(mode, b, w); }
    if w.Insert? { StartPassed(mode, w.task.history); }
  }

  lemma ListedPassed(mode: Mode, b: Board, w: BoardWrite, id: Id, c: Column)
    requires OneColumnEach(b) && BoardPassed(mode, b) && WritePasses(mode, b, w)
    requires id in Ids(WriteBoard(b, w).0, c) && id in WriteBoard(b, w).0.tasks
    ensures Passed(mode, WriteBoard(b, w).0.tasks[id].history, c)
  {
    hide WriteBoard, Passed, FindColumn, Ids, OneColumnEach, WritePasses, BoardPassed;
    OneColumnKeyed(b);
    if Relocates(w) && w.id == id { MovedListed(mode, b, w, c); }
    else if w.Insert? && w.task.id == id { AddedListed(mode, b, w, c); }
    else { OtherListed(mode, b, w, id, c); }
  }

  lemma MovedListed(mode: Mode, b: Board, w: BoardWrite, c: Column)
    requires OneColumnEach(b) && WritePasses(mode, b, w) && Relocates(w)
    requires w.id in Ids(WriteBoard(b, w).0, c) && w.id in WriteBoard(b, w).0.tasks
    ensures Passed(mode, WriteBoard(b, w).0.tasks[w.id].history, c)
  {
    hide WriteBoard, Passed, FindColumn, Ids, OneColumnEach, WritePasses, HistoryAfter;
    OneColumnKeyed(b);
    WriteLists(b, w);
    WriteRecords(b, w);
    UnfoundUnlisted(b, w.id, c);
    FoundOnly(b, w.id, FindColumn(b, w.id).value);
    FoundOnly(b, w.id, c);
    MovedPassed(mode, b, w);
  }

  /** A task that no search finds is in no list. */
  lemma UnfoundUnlisted(b: Board, id: Id, c: Column)
    ensures FindColumn(b, id).None? ==> id !in Ids(b, c)
  {
    hide FindColumn, Ids;
    FindsListed(b, id);
  }

  lemma AddedListed(mode: Mode, b: Board, w: BoardWrite, c: Column)
    requires OneColumnEach(b) && WritePasses(mode, b, w) && w.Insert?
    requires w.task.id in Ids(WriteBoard(b, w).0, c) && w.task.id in WriteBoard(b, w).0.tasks
    ensures Passed(mode, WriteBoard(b, w).0.tasks[w.task.id].history, c)
  {
    hide WriteBoard, Passed, Ids;
    WriteLists(b, w);
    WriteRecords(b, w);
    StartPassed(mode, w.task.history);
  }

  lemma OtherListed(mode: Mode, b: Board, w: BoardWrite, id: Id, c: Column)
    requires Keyed(b.tasks) && BoardPassed(mode, b) && WritePasses(mode, b, w)
    requires !(Relocates(w) && w.id == id) && !(w.Insert? && w.task.id == id)
    requires id in Ids(WriteBoard(b, w).0, c) && id in WriteBoard(b, w).0.tasks
    ensures Passed(mode, WriteBoard(b, w).0.tasks[id].history, c)
  {
    hide WriteBoard, Passed, Ids, TaskPassed;
    ListedBefore(b, w, id, c);
    OtherHistory(mode, b, w, id);
  }

  lemma ListedBefore(b: Board, w: BoardWrite, id: Id, c: Column)
    requires !(Relocates(w) && w.id == id) && !(w.Insert? && w.task.id == id) && id in Ids(WriteBoard(b, w).0, c)
    ensures id in Ids(b, c)
  {
    hide WriteBoard, FindColumn, Ids, Count;
    WriteLists(b, w);
  }

  lemma OtherHistory(mode: Mode, b: Board, w: BoardWrite, id: Id)
    requires Keyed(b.tasks) && WritePasses(mode, b, w)
    requires !(Relocates(w) && w.id == id) && !(w.Insert? && w.task.id == id) && id in WriteBoard(b, w).0.tasks
    ensures id in b.tasks && WriteBoard(b, w).0.tasks[id].history == b.tasks[id].history
  {
    hide WriteBoard, TaskPassed, Passed;
    WriteRecords(b, w);
  }

  lemma BoardWritten(mode: Mode, b: Board, w: BoardWrite)
    requires OneColumnEach(b) && BoardPassed(mode, b) && WritePasses(mode, b, w)
    ensures BoardPassed(mode, WriteBoard(b, w).0)
  {
    hide WriteBoard, Passed, OneColumnEach, WritePasses, Ids, TaskPassed;
    var b' := WriteBoard(b, w).0;
    forall id | id in b'.tasks ensures TaskPassed(mode, b'.tasks[id]) {
      WrittenPassed(mode, b, w, id);
    }
    forall c, id | id in Ids(b', c) && id in b'.tasks ensures Passed(mode, b'.tasks[id].history, c) {
      ListedPassed(mode, b, w, id, c);
    }
  }

  /** A copy stays good through every write but a decision on its task. */
  lemma CopyKept(mode: Mode, b: Board, w: BoardWrite, id: Id, t: Task)
    requires Keyed(b.tasks) && WritePasses(mode, b, w) && CopyPassed(mode, b.tasks, id, t)
    requires !(w.Decide? && w.id == id && WriteBoard(b, w).1)
    ensures CopyPassed(mode, WriteBoard(b, w).0.tasks, id, t)
  {
    hide WriteBoard, TaskPassed, FindColumn;
    WriteRecords(b, w);
  }

  // ── Calls ─────────────────────────────────────────────────────────────────

  lemma CallPasses(mode: Mode, s: State, op: Op, x: Input)
    requires Recorded(mode, s) && ReworkAllowed(mode, s, op)
    ensures WritePasses(mode, s.board, CallWrite(s, op, x))
  {
    hide FindColumn, Ids, OneColumnEach, OwnersListed, Passed, BufferOf;
    if op.OpApprove? || op.OpReject? || op.OpRejectTo? {
      if BufferOf(s.board, op.id).Some? { DecisionPasses(mode, s, op, x); }
    }
  }

  lemma BufferIsListed(b: Board, id: Id)
    requires OneColumnEach(b) && BufferOf(b, id).Some?
    ensures id in b.tasks && id in Ids(b, BufferOf(b, id).value) && FindColumn(b, id) == BufferOf(b, id)
    ensures IsBuffer(BufferOf(b, id).value)
  {
    hide FindColumn, Ids, OneColumnEach;
    FoundOnly(b, id, BufferOf(b, id).value);
  }

  lemma DecisionPasses(mode: Mode, s: State, op: Op, x: Input)
    requires op.OpApprove? || op.OpReject? || op.OpRejectTo?
    requires Recorded(mode, s) && ReworkAllowed(mode, s, op) && BufferOf(s.board, op.id).Some?
    ensures WritePasses(mode, s.board, CallWrite(s, op, x))
  {
    hide FindColumn, Ids, OneColumnEach, OwnersListed, Passed, BufferOf;
    BufferIsListed(s.board, op.id);
    var c := BufferOf(s.board, op.id).value;
    BufferNeighbours(c);
    BufferIsBuffer(s.board, op.id);
    var h := s.board.tasks[op.id].history;
    assert Passed(mode, h, c);
    assert Holds(mode, s.board.tasks, op.id, c);
    if op.OpReject? { PassedGrows(mode, h, h, c, Prev(c).value); }
    else if op.OpRejectTo? && mode.Strict? { PassedGrows(mode, h, h, c, op.target); }
  }

  /** A task that an agent works on is listed in a work column, so no decision is taken on it. */
  lemma OwnedNotDecided(s: State, op: Op, x: Input, r: Role)
    requires Placed(s) && Owns(AgentOf(s, r).phase)
    ensures var w := CallWrite(s, op, x); !(w.Decide? && w.id == AgentOf(s, r).phase.task.id)
  {
    hide FindColumn, Ids, OneColumnEach, KeysUsed;
    var id := AgentOf(s, r).phase.task.id;
    assert id in Ids(s.board, WorkColumn(r));
    FoundOnly(s.board, id, WorkColumn(r));
    FeedersAreUnique(Done, r, r);
  }

  lemma CallSnapshots(mode: Mode, s: State, op: Op, x: Input)
    requires Recorded(mode, s) && ReworkAllowed(mode, s, op)
    ensures SnapshotsPassed(mode, RunCall(s, op, x).board.tasks, RunCall(s, op, x).agents)
  {
    hide RunCall, WriteBoard, Ids, OneColumnEach, CopyPassed, BoardPassed, StorePassed, CallWrite, WritePasses, ReworkAllowed;
    CallPasses(mode, s, op, x);
    CallWritesBoard(s, op, x);
    CallKeepsPhases(s, op, x);
    OneColumnKeyed(s.board);
    var s' := RunCall(s, op, x);
    forall r | Owns(AgentIn(s'.agents, r).phase)
      ensures CopyPassed(mode, s'.board.tasks, AgentIn(s'.agents, r).phase.task.id, AgentIn(s'.agents, r).phase.task)
    {
      assert AgentOf(s', r).phase == AgentOf(s, r).phase;
      OwnedNotDecided(s, op, x, r);
      CopyKept(mode, s.board, CallWrite(s, op, x), AgentOf(s, r).phase.task.id, AgentOf(s, r).phase.task);
    }
  }

  /** The records a call may put into the store: the board's new copy, the stored one retouched, a new task. */
  ghost predicate StoredFrom(mode: Mode, s: State, s': State, w: BoardWrite) {
    || (s'.store == s.store && !(w.Decide? && WriteBoard(s.board, w).1))
    || (Relocates(w) && s'.store == WriteStore(s.store, s'.board, SaveBoardCopy(w.id)))
    || (exists id, t :: s'.store == s.store[id := t] && CopyPassed(mode, s'.board.tasks, id, t) && !w.Decide?)
  }

  lemma CallStored(mode: Mode, s: State, op: Op, x: Input)
    requires Recorded(mode, s) && BoardPassed(mode, RunCall(s, op, x).board) && ReworkAllowed(mode, s, op)
    ensures StoredFrom(mode, s, RunCall(s, op, x), CallWrite(s, op, x))
  {
    hide RunCall, Atomically, StoredFrom, Recorded;
    WholeIsAtomic(s, op, x);
    if op.OpApprove? || op.OpReject? || op.OpRejectTo? { DecisionStored(mode, s, op, x); }
    else if op.OpAnswer? || op.OpAsk? || op.OpDiscuss? { ReviewStored(mode, s, op, x); }
    else if op.OpBlock? { BlockStored(mode, s, op, x); }
    else if op.OpCreate? { CreateStored(mode, s, op, x); }
    else { EditStored(mode, s, op, x); }
  }

  lemma DecisionStored(mode: Mode, s: State, op: Op, x: Input)
    requires op.OpApprove? || op.OpReject? || op.OpRejectTo?
    ensures StoredFrom(mode, s, Atomically(s, op, x), CallWrite(s, op, x))
  {
    hide BufferOf, AfterDecision, WriteStore;
    BufferIsBuffer(s.board, op.id);
    var w := CallWrite(s, op, x);
    if w.Decide? { DecidedStore(s, w.id, w.decision, x); }
  }

  lemma ReviewStored(mode: Mode, s: State, op: Op, x: Input)
    requires op.OpAnswer? || op.OpAsk? || op.OpDiscuss?
    ensures StoredFrom(mode, s, Atomically(s, op, x), CallWrite(s, op, x))
  {
    hide Atomically;
    ReviewOpsWriteNoTask(s, op, x);
  }

  lemma BlockStored(mode: Mode, s: State, op: Op, x: Input)
    requires op.OpBlock?
    ensures StoredFrom(mode, s, Atomically(s, op, x), CallWrite(s, op, x))
  {
    hide FindColumn, AfterBlock, WriteStore;
    if FindColumn(s.board, op.id).Some? { BlockedStore(s, op.id, op.blockedBy, FindColumn(s.board, op.id).value); }
  }

  lemma CreateStored(mode: Mode, s: State, op: Op, x: Input)
    requires op.OpCreate?
    ensures StoredFrom(mode, s, Atomically(s, op, x), CallWrite(s, op, x))
  {
    hide AddTask;
    if x.newId !in s.used {
      var t := NewTask(x.newId, op.title, op.priority);
      InsertRecords(s.board, t);
      StartPassed(mode, t.history);
      assert CopyPassed(mode, Atomically(s, op, x).board.tasks, t.id, t);
    }
  }

  lemma EditStored(mode: Mode, s: State, op: Op, x: Input)
    requires Recorded(mode, s) && (op.OpPrioritize? || op.OpPark? || op.OpUpdate?)
    ensures StoredFrom(mode, s, Atomically(s, op, x), CallWrite(s, op, x))
  {
    hide WriteBoard, Passed, OneColumnEach, Ids, StoredFrom;
    var w := CallWrite(s, op, x);
    if op.id in s.store {
      var t := s.store[op.id];
      var t' := if op.OpPrioritize? then t.(priority := op.priority)
                else if op.OpPark? then t.(resume := Some(op.note)) else t.(title := op.title);
      assert CopyPassed(mode, s.board.tasks, op.id, t) && t.id == op.id;
      OneColumnKeyed(s.board);
      CopyKept(mode, s.board, w, op.id, t');
      EditStoredAs(s, op, x, t');
      StoredTouch(mode, s, Atomically(s, op, x), w, op.id, t');
    } else { UnknownStored(mode, s, op, x); }
  }

  lemma UnknownStored(mode: Mode, s: State, op: Op, x: Input)
    requires (op.OpPrioritize? || op.OpPark? || op.OpUpdate?) && op.id !in s.store
    ensures StoredFrom(mode, s, Atomically(s, op, x), CallWrite(s, op, x))
  {
  }

  lemma EditStoredAs(s: State, op: Op, x: Input, t': Task)
    requires (op.OpPrioritize? || op.OpPark? || op.OpUpdate?) && op.id in s.store && s.store[op.id].id == op.id
    requires var t := s.store[op.id];
      t' == if op.OpPrioritize? then t.(priority := op.priority)
            else if op.OpPark? then t.(resume := Some(op.note)) else t.(title := op.title)
    ensures var s' := Atomically(s, op, x);
      s'.store == s.store[op.id := t'] && s'.board == WriteBoard(s.board, CallWrite(s, op, x)).0
  {
    hide SetPriority, Amend;
  }

  lemma StoredTouch(mode: Mode, s: State, s': State, w: BoardWrite, id: Id, t: Task)
    requires s'.store == s.store[id := t] && CopyPassed(mode, s'.board.tasks, id, t) && !w.Decide?
    ensures StoredFrom(mode, s, s', w)
  {
  }

  lemma StorePassedAfter(mode: Mode, s: State, s': State, w: BoardWrite)
    requires Keyed(s.board.tasks) && WritePasses(mode, s.board, w) && StorePassed(mode, s.board.tasks, s.store)
    requires s'.board == WriteBoard(s.board, w).0 && BoardPassed(mode, s'.board) && StoredFrom(mode, s, s', w)
    ensures StorePassed(mode, s'.board.tasks, s'.store)
  {
    hide WriteBoard, TaskPassed, WritePasses, Ids, CopyPassed;
    forall id | id in s'.store ensures CopyPassed(mode, s'.board.tasks, id, s'.store[id]) {
      StoredCopy(mode, s, s', w, id);
    }
  }

  lemma StoredCopy(mode: Mode, s: State, s': State, w: BoardWrite, id: Id)
    requires Keyed(s.board.tasks) && WritePasses(mode, s.board, w) && StorePassed(mode, s.board.tasks, s.store)
    requires s'.board == WriteBoard(s.board, w).0 && BoardPassed(mode, s'.board) && StoredFrom(mode, s, s', w)
    requires id in s'.store
    ensures CopyPassed(mode, s'.board.tasks, id, s'.store[id])
  {
    hide WriteBoard, TaskPassed, WritePasses, Ids, FindColumn, CopyPassed;
    if id in s.store && s'.store[id] == s.store[id] && !(w.Decide? && w.id == id && WriteBoard(s.board, w).1) {
      CopyKept(mode, s.board, w, id, s.store[id]);
    } else if Relocates(w) && s'.store == WriteStore(s.store, s'.board, SaveBoardCopy(w.id)) {
      BoardCopy(mode, s, s', w, id);
    }
  }

  /** What has just been saved from the board. */
  lemma BoardCopy(mode: Mode, s: State, s': State, w: BoardWrite, id: Id)
    requires Keyed(s.board.tasks) && Relocates(w) && s'.board == WriteBoard(s.board, w).0 && BoardPassed(mode, s'.board)
    requires s'.store == WriteStore(s.store, s'.board, SaveBoardCopy(w.id)) && id in s'.store
    requires !(id in s.store && s'.store[id] == s.store[id] && !(w.Decide? && w.id == id && WriteBoard(s.board, w).1))
    ensures CopyPassed(mode, s'.board.tasks, id, s'.store[id])
  {
    hide WriteBoard, TaskPassed, Ids, FindColumn;
    WriteRecords(s.board, w);
    if WriteBoard(s.board, w).1 { GoesThrough(s.board, w); }
  }

  /** Only a task with a record is moved. */
  lemma GoesThrough(b: Board, w: BoardWrite)
    requires Relocates(w) && WriteBoard(b, w).1
    ensures w.id in b.tasks
  {
    hide WriteBoard, FindColumn, Relisted;
    WriteLists(b, w);
  }

  lemma CallRecorded(mode: Mode, s: State, op: Op, x: Input)
    requires Recorded(mode, s) && ReworkAllowed(mode, s, op) && !Uproots(s, op)
    ensures Recorded(mode, RunCall(s, op, x))
  {
    hide RunCall, WriteBoard, CallWrite, OneColumnEach, OwnersListed, KeysUsed, BoardPassed, StorePassed, SnapshotsPassed,
         WritePasses, StoredFrom, ReworkAllowed, Uproots;
    var w := CallWrite(s, op, x);
    CallPlaced(s, op, x);
    CallPasses(mode, s, op, x);
    CallWritesBoard(s, op, x);
    BoardWritten(mode, s.board, w);
    CallSnapshots(mode, s, op, x);
    CallStored(mode, s, op, x);
    OneColumnKeyed(s.board);
    StorePassedAfter(mode, s, RunCall(s, op, x), w);
  }

  // ── Agents ────────────────────────────────────────────────────────────────

  lemma AgentPasses(mode: Mode, s: State, r: Role, x: Input)
    requires Recorded(mode, s)
    ensures WritePasses(mode, s.board, AgentChange(s, r, x).0.board) && !AgentChange(s, r, x).0.board.Decide?
  {
    hide AgentChange, Passed, Ids, OneColumnEach, KeysUsed;
    AgentWrites(s, r, x);
    var p := AgentOf(s, r).phase;
    if p.Cleared? {
      assert p.task.id in Ids(s.board, WorkColumn(r));
      ListedHasRecord(s.board, p.task.id, WorkColumn(r));
      TargetPassed(mode, s.board.tasks[p.task.id].history, r);
    }
  }

  lemma ListedHasRecord(b: Board, id: Id, c: Column)
    requires OneColumnEach(b) && id in Ids(b, c)
    ensures id in b.tasks && b.tasks[id].id == id
  {
  }

  lemma AgentSnapshots(mode: Mode, s: State, r: Role, x: Input)
    requires Recorded(mode, s)
    ensures SnapshotsPassed(mode, AgentSection(s, r, x).board.tasks, AgentSection(s, r, x).agents)
  {
    hide AgentSection, AgentChange, WriteBoard, Ids, OneColumnEach, OwnersListed, KeysUsed, CopyPassed, BoardPassed, StorePassed, WritePasses;
    var s', w := AgentSection(s, r, x), AgentChange(s, r, x).0.board;
    AgentPasses(mode, s, r, x);
    AgentBoardIs(s, r, x);
    OneColumnKeyed(s.board);
    forall q | Owns(AgentIn(s'.agents, q).phase)
      ensures CopyPassed(mode, s'.board.tasks, AgentIn(s'.agents, q).phase.task.id, AgentIn(s'.agents, q).phase.task)
    {
      PhaseAfter(s, r, x, q);
      if q == r { NextCopy(mode, s, r, x); }
      var t := AgentOf(s', q).phase.task;
      CopyKept(mode, s.board, w, t.id, t);
    }
  }

  /** What an agent holds after its section it held before, or has just read from the board. */
  lemma NextCopy(mode: Mode, s: State, r: Role, x: Input)
    requires Recorded(mode, s) && Owns(AgentChange(s, r, x).1)
    ensures CopyPassed(mode, s.board.tasks, AgentChange(s, r, x).1.task.id, AgentChange(s, r, x).1.task)
  {
    hide AgentChange, Ids, OneColumnEach, OwnersListed, KeysUsed, Passed, NextUnblocked;
    OwnSteps(s, r, x);
    OneColumnKeyed(s.board);
    if AgentChange(s, r, x).1.Picked? { PickedIsRecord(s.board, WorkColumn(r)); }
  }

  lemma {:induction false} FirstIsRecord(b: Board, ids: seq<Id>)
    requires Keyed(b.tasks)
    ensures var pick := FirstReady(b, ids); pick.Some? ==> pick.value.id in b.tasks && b.tasks[pick.value.id] == pick.value
  {
    if ids != [] { FirstIsRecord(b, ids[1..]); }
  }

  lemma PickedIsRecord(b: Board, c: Column)
    requires Keyed(b.tasks)
    ensures var pick := NextUnblocked(b, c); pick.Some? ==> pick.value.id in b.tasks && b.tasks[pick.value.id] == pick.value
  {
    FirstIsRecord(b, Ids(b, c));
  }

  lemma AgentStorePassed(mode: Mode, s: State, r: Role, x: Input)
    requires Recorded(mode, s)
    ensures StorePassed(mode, AgentSection(s, r, x).board.tasks, AgentSection(s, r, x).store)
  {
    hide AgentSection, AgentChange, WriteBoard, Ids, OneColumnEach, OwnersListed, KeysUsed, TaskPassed, WritePasses;
    var s', ch := AgentSection(s, r, x), AgentChange(s, r, x).0;
    AgentPasses(mode, s, r, x);
    AgentBoardIs(s, r, x);
    AgentStoreIs(s, r, x);
    AgentWrites(s, r, x);
    OneColumnKeyed(s.board);
    var store := WriteStore(s.store, s.board, ch.store);
    assert StorePassed(mode, s.board.tasks, store) by { SavedPassed(mode, s, r, x); }
    forall id | id in store ensures CopyPassed(mode, s'.board.tasks, id, store[id]) {
      CopyKept(mode, s.board, ch.board, id, store[id]);
    }
  }

  lemma SavedPassed(mode: Mode, s: State, r: Role, x: Input)
    requires Recorded(mode, s)
    ensures StorePassed(mode, s.board.tasks, WriteStore(s.store, s.board, AgentChange(s, r, x).0.store))
  {
    hide AgentChange, Ids, OneColumnEach, OwnersListed, KeysUsed, Passed;
    AgentWrites(s, r, x);
    OneColumnKeyed(s.board);
    var w, p := AgentChange(s, r, x).0.store, AgentOf(s, r).phase;
    if w.SaveRecord? {
      assert CopyPassed(mode, s.board.tasks, p.task.id, p.task);
      assert CopyPassed(mode, s.board.tasks, p.task.id, w.task);
    }
  }

  lemma AgentRecorded(mode: Mode, s: State, r: Role, x: Input)
    requires Recorded(mode, s)
    ensures Recorded(mode, AgentSection(s, r, x))
  {
    hide AgentSection, AgentChange, WriteBoard, OneColumnEach, OwnersListed, KeysUsed, BoardPassed, StorePassed,
         SnapshotsPassed, WritePasses;
    AgentPlaced(s, r, x);
    AgentPasses(mode, s, r, x);
    AgentBoardIs(s, r, x);
    BoardWritten(mode, s.board, AgentChange(s, r, x).0.board);
    AgentSnapshots(mode, s, r, x);
    AgentStorePassed(mode, s, r, x);
  }

  // ── The rest ──────────────────────────────────────────────────────────────

  lemma QuietRecorded(mode: Mode, s: State, s': State)
    requires Recorded(mode, s) && Placed(s') && s'.board == s.board && s'.store == s.store && SamePhases(s, s')
    ensures Recorded(mode, s')
  {
    hide Placed, BoardPassed, StorePassed, CopyPassed;
    forall r | Owns(AgentIn(s'.agents, r).phase)
      ensures CopyPassed(mode, s'.board.tasks, AgentIn(s'.agents, r).phase.task.id, AgentIn(s'.agents, r).phase.task)
    {
      assert AgentOf(s', r).phase == AgentOf(s, r).phase;
    }
  }

  lemma LoopRecorded(mode: Mode, s: State, x: Input)
    requires Recorded(mode, s)
    ensures Recorded(mode, LoopSection(s, x))
  {
    hide Placed, BoardPassed, StorePassed, SnapshotsPassed, LoopChange, WriteBoard, WriteStore, WriteQueue;
    LoopPlaced(s, x);
    LoopSectionBoard(s, x);
    SignalKeepsPhases(s.agents, LoopChange(s, x).0.signal);
    QuietRecorded(mode, s, LoopSection(s, x));
  }

  lemma {:induction false} EventRecorded(mode: Mode, s: State, x: Input, fuel: nat)
    requires Recorded(mode, s)
    ensures Recorded(mode, FinishEvent(s, x, fuel))
    decreases fuel
  {
    hide LoopSection, Recorded;
    LoopRecorded(mode, s, x);
    if !LoopSection(s, x).loop.Listening? && fuel > 0 { EventRecorded(mode, LoopSection(s, x), x, fuel - 1); }
  }

  lemma BootRecorded(mode: Mode, s: State, order: seq<Id>, reviewOrder: seq<Id>, limits: map<Column, Priority>)
    requires StoreFiled(s) && CanBoot(s, order, reviewOrder)
    requires forall id :: id in s.store ==> TaskPassed(mode, s.store[id])
    ensures Recorded(mode, Boot(s, order, reviewOrder, limits))
  {
    hide FromTasks, CanBoot, Placed, TaskPassed;
    BootPlaced(s, order, reviewOrder, limits);
    BootBoard(s, order, reviewOrder, limits);
    var b := Boot(s, order, reviewOrder, limits).board;
    WellPassed(mode, b);
  }

  lemma WellPassed(mode: Mode, b: Board)
    requires WellFormed(b) && forall id :: id in b.tasks ==> TaskPassed(mode, b.tasks[id])
    ensures BoardPassed(mode, b)
  {
    hide Passed;
    forall c, id | id in Ids(b, c) && id in b.tasks ensures Passed(mode, b.tasks[id].history, c) {
      MembersOf(b, c);
    }
  }

  lemma RecordedIsFiled(mode: Mode, s: State)
    requires Recorded(mode, s)
    ensures StoreFiled(s) && forall id :: id in s.store ==> TaskPassed(mode, s.store[id])
  {
    hide OneColumnEach, OwnersListed, TaskPassed, BoardPassed;
  }

  lemma FreelyMeans(mode: Mode, s: State, a: Action)
    requires FreelyEdited(mode)(s, a)
    ensures !a.Begin? && !a.Continue?
    ensures a.Whole? ==> ReworkAllowed(mode, s, a.op) && !Uproots(s, a.op)
  {
  }

  lemma StepRecorded(mode: Mode, s: State, a: Action)
    requires Recorded(mode, s) && FreelyEdited(mode)(s, a)
    ensures Recorded(mode, Apply(s, a))
  {
    hide AgentSection, LoopSection, RunCall, FinishEvent, Boot, CanBoot, Recorded, Uproots, ReworkAllowed, FreelyEdited, StoreFiled, TaskPassed;
    FreelyMeans(mode, s, a);
    if a.AgentStep? { AgentRecorded(mode, s, a.role, a.input); }
    else if a.LoopStep? { LoopRecorded(mode, s, a.input); }
    else if a.WholeEvent? { EventRecorded(mode, s, a.input, EVENT_SECTIONS); }
    else if a.Whole? { CallRecorded(mode, s, a.op, a.input); }
    else if a.Restart? {
      RecordedIsFiled(mode, s);
      if CanBoot(s, a.order, a.reviewOrder) { BootRecorded(mode, s, a.order, a.reviewOrder, a.limits); }
    } else { PlainRecorded(mode, s, a); }
  }

  lemma PlainRecorded(mode: Mode, s: State, a: Action)
    requires Recorded(mode, s) && (a.SetLimits? || a.Lag?)
    ensures Recorded(mode, Apply(s, a))
  {
    hide Apply, Placed, BoardPassed, StorePassed, SnapshotsPassed;
    PlainStep(s, a);
    PlainUsed(s, a);
    QuietPlaced(s, Apply(s, a));
    QuietRecorded(mode, s, Apply(s, a));
  }

  lemma PlainUsed(s: State, a: Action)
    requires a.SetLimits? || a.Lag?
    ensures Apply(s, a).used == s.used && Apply(s, a).calls == s.calls
  {
  }

  lemma {:induction false} RunRecorded(mode: Mode, states: seq<State>, run: seq<Action>, k: nat)
    requires Trace(states, run, FreelyEdited(mode)) && Recorded(mode, states[0]) && k < |states|
    ensures Recorded(mode, states[k])
  {
    hide Trace, Recorded, Apply, FreelyEdited;
    if k > 0 {
      RunRecorded(mode, states, run, k - 1);
      LastStep(states, run, FreelyEdited(mode), k);
      StepRecorded(mode, states[k - 1], run[k - 1]);
    }
  }

  lemma FreshRecorded(mode: Mode)
    ensures Recorded(mode, FRESH)
  {
  }

  /**
   * Gate safety with edits.  In every state of every undisturbed run from a fresh installation, edits
   * and restarts included, a task listed in a column has a recorded decision for every buffer left of
   * it; in strict runs an approval.
   */
  lemma GateWithEdits(mode: Mode, states: seq<State>, run: seq<Action>, k: nat, id: Id, c: Column)
    requires Trace(states, run, FreelyEdited(mode)) && states[0] == FRESH && k < |states|
    requires id in Ids(states[k].board, c)
    ensures id in states[k].board.tasks && Passed(mode, states[k].board.tasks[id].history, c)
  {
    hide Trace, Passed, Ids, OneColumnEach, OwnersListed, KeysUsed;
    FreshRecorded(mode);
    RunRecorded(mode, states, run, k);
    ListedHasRecord(states[k].board, id, c);
  }

  /** In particular a task listed in Done carries the approvals of all four buffers, whatever was edited. */
  lemma DoneIsApproved(states: seq<State>, run: seq<Action>, k: nat, id: Id)
    requires Trace(states, run, FreelyEdited(Strict)) && states[0] == FRESH && k < |states|
    requires id in Ids(states[k].board, Done)
    ensures id in states[k].board.tasks
    ensures var h := states[k].board.tasks[id].history;
      ApprovedFor(h, Coding) && ApprovedFor(h, Columns.Reviewing) && ApprovedFor(h, Auditing) && ApprovedFor(h, Deploying)
  {
    hide Trace, Passed, ApprovedFor;
    GateWithEdits(Strict, states, run, k, id, Done);
    var h := states[k].board.tasks[id].history;
    ApprovedBuffer(h, CodingBuffer);
    ApprovedBuffer(h, ReviewBuffer);
    ApprovedBuffer(h, SecurityAuditBuffer);
    ApprovedBuffer(h, DeploymentBuffer);
  }
}
