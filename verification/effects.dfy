/** What each board write does, stated on records and counts. */
module Effects {
  import opened Options
  import opened Columns
  import opened Kanban
  import opened ReviewQueues
  import opened Reviews
  import opened Protocol

  /** Same tasks in the same columns; records differ at most in branch, output, note, title and feedback. */
  ghost predicate Touched(b: Board, b': Board) {
    && b'.columns == b.columns && b'.tasks.Keys == b.tasks.Keys
    && forall id :: id in b.tasks ==>
         var t, t' := b.tasks[id], b'.tasks[id];
         t'.id == t.id && t'.stage == t.stage && t'.priority == t.priority && t'.history == t.history
         && t'.blockedBy == t.blockedBy
  }

  /** One task has moved to column `to`; nothing else about any column or record has changed. */
  ghost predicate MovedOnly(b: Board, b': Board, id: Id, t': Task) {
    && id in b.tasks && t'.id == id && b'.tasks == b.tasks[id := t']
    && forall c :: Count(b', c) == Count(b, c) - Listed(b.tasks, id, c) + (if c == t'.Column() then 1 else 0)
  }

  /** The same tasks; records differ at most in priority. */
  ghost predicate SamePlaces(tasks: map<Id, Task>, tasks': map<Id, Task>) {
    && tasks'.Keys == tasks.Keys
    && forall i :: i in tasks ==> exists p: Priority :: tasks'[i] == tasks[i].(priority := p)
  }

  lemma AmendTouches(b: Board, id: Id, t: Task)
    requires WellFormed(b) && id in b.tasks && t.id == b.tasks[id].id
    requires var o := b.tasks[id];
      t.stage == o.stage && t.priority == o.priority && t.history == o.history && t.blockedBy == o.blockedBy
    ensures WellFormed(Amend(b, t)) && Touched(b, Amend(b, t))
  {
    AmendEffect(b, t);
  }

  /** The record after a decision. */
  function Decided(t: Task, d: Decision, now: int): Task {
    match d
    case Approved(target) =>
      t.(stage := At(target), history := t.history + [Approval(now, At(target))])
    case Rejected(target, feedback) =>
      t.(stage := At(target), priority := 0, feedback := Some(feedback),
         history := t.history + [Rejection(now, feedback, At(target))])
  }

  lemma AddHistoryEffect(b: Board, id: Id, entry: HistoryEntry)
    requires WellFormed(b) && id in b.tasks
    ensures var b' := AddHistory(b, id, entry);
      WellFormed(b') && b'.columns == b.columns
      && b'.tasks == b.tasks[id := b.tasks[id].(history := b.tasks[id].history + [entry])]
  {
    AmendEffect(b, b.tasks[id].(history := b.tasks[id].history + [entry]));
  }

  lemma AdvanceMoves(b: Board, id: Id, to: Column)
    requires WellFormed(b) && id in b.tasks
    ensures var (b', ok) := Advance(b, id, to);
      ok && WellFormed(b') && MovedOnly(b, b', id, b.tasks[id].(stage := At(to)))
  {
    hide Advance, WellFormed;
    AdvanceEffect(b, id, to);
    OwnId(b, id);
  }

  lemma OwnId(b: Board, id: Id)
    requires WellFormed(b) && id in b.tasks
    ensures b.tasks[id].id == id
  {
  }

  /** Changing a moved record once more, within its column, is still one move. */
  lemma MovedThenAmended(b: Board, b1: Board, b': Board, id: Id, t1: Task, t': Task)
    requires MovedOnly(b, b1, id, t1) && b'.columns == b1.columns && b'.tasks == b1.tasks[id := t']
    requires t'.id == id && t'.stage == t1.stage
    ensures MovedOnly(b, b', id, t')
  {
    assert forall c :: Count(b', c) == Count(b1, c);
  }

  lemma ApproveEffect(b: Board, id: Id, target: Column, now: int)
    requires WellFormed(b) && id in b.tasks
    ensures var (b1, ok) := Advance(b, id, target);
      && ok && id in b1.tasks
      && var b' := AddHistory(b1, id, Approval(now, At(target)));
         WellFormed(b') && MovedOnly(b, b', id, Decided(b.tasks[id], Approved(target), now))
  {
    AdvanceMoves(b, id, target);
    var b1 := Advance(b, id, target).0;
    AddHistoryEffect(b1, id, Approval(now, At(target)));
    var b' := AddHistory(b1, id, Approval(now, At(target)));
    MovedThenAmended(b, b1, b', id, b1.tasks[id], Decided(b.tasks[id], Approved(target), now));
  }

  lemma RejectEffect(b: Board, id: Id, target: Column, feedback: string, now: int)
    requires WellFormed(b) && id in b.tasks
    ensures var (b1, ok) := Rework(b, id, target);
      && ok && id in b1.tasks
      && var b2 := Amend(b1, b1.tasks[id].(feedback := Some(feedback)));
         var b' := AddHistory(b2, id, Rejection(now, feedback, At(target)));
         WellFormed(b') && MovedOnly(b, b', id, Decided(b.tasks[id], Rejected(target, feedback), now))
  {
    ReworkMoves(b, id, target);
    var b1 := Rework(b, id, target).0;
    var t1 := b1.tasks[id].(feedback := Some(feedback));
    BlockAmend(b1, t1);
    var b2 := Amend(b1, t1);
    AddHistoryEffect(b2, id, Rejection(now, feedback, At(target)));
    var b' := AddHistory(b2, id, Rejection(now, feedback, At(target)));
    MovedThenAmended(b, b1, b', id, b1.tasks[id], Decided(b.tasks[id], Rejected(target, feedback), now));
  }

  lemma ReworkMoves(b: Board, id: Id, to: Column)
    requires WellFormed(b) && id in b.tasks
    ensures var (b', ok) := Rework(b, id, to);
      ok && WellFormed(b') && MovedOnly(b, b', id, b.tasks[id].(stage := At(to), priority := 0))
  {
    ReworkEffect(b, id, to);
  }

  lemma BlockAmend(b: Board, t: Task)
    requires WellFormed(b) && t.id in b.tasks
    requires t.stage == b.tasks[t.id].stage && t.priority == b.tasks[t.id].priority
    ensures WellFormed(Amend(b, t)) && Amend(b, t).columns == b.columns && Amend(b, t).tasks == b.tasks[t.id := t]
  {
    AmendEffect(b, t);
  }

  lemma OnlyPriority(tasks: map<Id, Task>, tasks': map<Id, Task>, id: Id, priority: Priority)
    requires tasks' == if id in tasks then tasks[id := tasks[id].(priority := priority)] else tasks
    ensures SamePlaces(tasks, tasks')
  {
    forall i | i in tasks ensures exists p: Priority :: tasks'[i] == tasks[i].(priority := p) {
      var p: Priority := if i == id then priority else tasks[i].priority;
      assert tasks'[i] == tasks[i].(priority := p);
    }
  }

  lemma BlockMoves(b: Board, id: Id, blockedBy: seq<Id>)
    requires WellFormed(b) && id in b.tasks
    ensures var (b', ok) := BlockOn(b, id, blockedBy);
      ok && WellFormed(b')
      && MovedOnly(b, b', id, b.tasks[id].(stage := At(Prioritized), priority := 0, blockedBy := blockedBy))
  {
    ReworkMoves(b, id, Prioritized);
    var b1 := Rework(b, id, Prioritized).0;
    var t := b1.tasks[id].(blockedBy := blockedBy);
    BlockAmend(b1, t);
    MovedThenAmended(b, b1, Amend(b1, t), id, b1.tasks[id], t);
  }

  /** What a board write does, by kind of write. */
  ghost predicate BoardChange(b: Board, w: BoardWrite, b': Board, ok: bool) {
    match w
    case KeepBoard => b' == b
    case SetBranch(_, _) => Touched(b, b')
    case SetOutput(_, _) => Touched(b, b')
    case SetNote(_, _) => Touched(b, b')
    case Move(id, to) =>
      ok == (id in b.tasks) && if ok then MovedOnly(b, b', id, b.tasks[id].(stage := At(to))) else b' == b
    case Decide(id, d, now) =>
      ok == (id in b.tasks) && if ok then MovedOnly(b, b', id, Decided(b.tasks[id], d, now)) else b' == b
    case Block(id, blockedBy) =>
      ok == (id in b.tasks)
      && if ok then MovedOnly(b, b', id, BlockedRecord(b.tasks[id], blockedBy)) else b' == b
    case Insert(t) =>
      b'.tasks == b.tasks[t.id := t]
      && forall c :: Count(b', c) == Count(b, c) + (if c == t.Column() then 1 else 0)
    case Reprioritize(_, _) =>
      SamePlaces(b.tasks, b'.tasks) && forall c :: Count(b', c) == Count(b, c)
    case Replace(_) => true
  }

  function BlockedRecord(t: Task, blockedBy: seq<Id>): Task {
    t.(stage := At(Prioritized), priority := 0, blockedBy := blockedBy)
  }

  /** Every write but a replacement keeps the board well formed; a new task needs a new id. */
  lemma WriteBoardEffect(b: Board, w: BoardWrite)
    requires WellFormed(b) && !w.Replace?
    requires w.Insert? ==> w.task.id !in b.tasks
    ensures var (b', ok) := WriteBoard(b, w); WellFormed(b') && BoardChange(b, w, b', ok)
  {
    if w.Move? { MoveChange(b, w); }
    else if w.Decide? { DecideChange(b, w); }
    else if w.Block? { BlockChange(b, w); }
    else if w.Insert? { AddTaskEffect(b, w.task); }
    else if w.Reprioritize? { RankChange(b, w); }
    else if !w.KeepBoard? { TextChange(b, w); }
  }

  lemma TextChange(b: Board, w: BoardWrite)
    requires WellFormed(b) && (w.SetBranch? || w.SetOutput? || w.SetNote?)
    ensures var (b', ok) := WriteBoard(b, w); WellFormed(b') && BoardChange(b, w, b', ok)
  {
    if w.id in b.tasks {
      var t := b.tasks[w.id];
      AmendTouches(b, w.id, if w.SetBranch? then t.(branch := Some(w.text))
                            else if w.SetOutput? then t.(output := Some(w.text)) else t.(resume := Some(w.text)));
    }
  }

  lemma RankChange(b: Board, w: BoardWrite)
    requires WellFormed(b) && w.Reprioritize?
    ensures var (b', ok) := WriteBoard(b, w); WellFormed(b') && BoardChange(b, w, b', ok)
  {
    SetPriorityEffect(b, w.id, w.priority);
    OnlyPriority(b.tasks, SetPriority(b, w.id, w.priority).tasks, w.id, w.priority);
  }

  lemma MoveChange(b: Board, w: BoardWrite)
    requires WellFormed(b) && w.Move?
    ensures var (b', ok) := WriteBoard(b, w); WellFormed(b') && BoardChange(b, w, b', ok)
  {
    if w.id in b.tasks { AdvanceMoves(b, w.id, w.target); } else { AdvanceUnknown(b, w.id, w.target); }
  }

  lemma DecideChange(b: Board, w: BoardWrite)
    requires WellFormed(b) && w.Decide?
    ensures var (b', ok) := WriteBoard(b, w); WellFormed(b') && BoardChange(b, w, b', ok)
  {
    var d := w.decision;
    if w.id !in b.tasks { AdvanceUnknown(b, w.id, d.target); }
    else if d.Approved? { ApproveEffect(b, w.id, d.target, w.now); }
    else { RejectEffect(b, w.id, d.target, d.feedback, w.now); }
  }

  lemma BlockChange(b: Board, w: BoardWrite)
    requires WellFormed(b) && w.Block?
    ensures var (b', ok) := WriteBoard(b, w); WellFormed(b') && BoardChange(b, w, b', ok)
  {
    if w.id !in b.tasks { AdvanceUnknown(b, w.id, Prioritized); } else { BlockMoves(b, w.id, w.blockedBy); }
  }

  lemma {:induction false} LookupTasks(m: map<Id, Task>, order: seq<Id>)
    requires forall id :: id in order ==> id in m
    ensures |Lookup(m, order)| == |order| && forall i :: 0 <= i < |order| ==> Lookup(m, order)[i] == m[order[i]]
  {
    if order != [] {
      LookupTasks(m, order[..|order| - 1]);
    }
  }

  /** A boot turns the stored records, each filed under its own id, into the board's records. */
  lemma BootBoard(s: State, order: seq<Id>, reviewOrder: seq<Id>, limits: map<Column, Priority>)
    requires CanBoot(s, order, reviewOrder)
    requires forall id :: id in s.store ==> s.store[id].id == id
    ensures var s' := Boot(s, order, reviewOrder, limits);
      WellFormed(s'.board) && s'.board.tasks == s.store
  {
    var records := Lookup(s.store, order);
    LookupTasks(s.store, order);
    assert DistinctIds(records);
    FromTasksEffect(records);
    assert TaskMap(records) == s.store by { RecordsAreStore(s.store, order); }
    assert Boot(s, order, reviewOrder, limits).board == FromTasks(records);
  }

  lemma RecordsAreStore(store: map<Id, Task>, order: seq<Id>)
    requires forall id :: id in store ==> store[id].id == id
    requires Enumerates(order, store, (t: Task) => true)
    ensures TaskMap(Lookup(store, order)) == store
  {
    hide TaskMap, Lookup;
    var records := Lookup(store, order);
    LookupTasks(store, order);
    TaskMapKeys(records);
    var m := TaskMap(records);
    forall id | id in store ensures id in m && m[id] == store[id] {
      var i :| 0 <= i < |order| && order[i] == id;
      assert records[i] == store[id] && records[i].id == id;
    }
    forall id | id in m ensures id in store {
      var i :| 0 <= i < |records| && records[i].id == id;
      assert order[i] in store;
    }
  }

  // ── What agent and call sections write ────────────────────────────────────

  /** Between tasks: no snapshot is held. */
  predicate Resting(p: Phase) {
    p.Idle? || p.Woken? || p.Unblocked?
  }

  /** An agent takes a snapshot only when it picks, and then keeps it until it rests again. */
  lemma SnapshotKept(s: State, r: Role, x: Input)
    requires !AgentOf(s, r).phase.Unblocked?
    ensures var next := AgentChange(s, r, x).1;
      Resting(next) || (!Resting(AgentOf(s, r).phase) && next.task == AgentOf(s, r).phase.task)
  {
  }

  /** An agent moves only its own task, to the column it feeds, and saves only its own task. */
  lemma AgentWrites(s: State, r: Role, x: Input)
    ensures var ch, p := AgentChange(s, r, x).0, AgentOf(s, r).phase;
      && (match ch.board
          case KeepBoard => true
          case SetBranch(id, _) => true
          case SetOutput(id, _) => true
          case Move(id, to) => p.Cleared? && id == p.task.id && to == Target(r)
          case _ => false)
      && (match ch.store
          case KeepStore => true
          case SaveBoardCopy(id) => p.Reported? && id == p.task.id
          case SaveRecord(t) => p.Branched? && t == p.task.(branch := Some(p.branch)))
  {
  }
}
