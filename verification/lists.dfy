/**
 * What the board writes do to the column lists and to the recorded histories of any board, filed or
 * not: a task that moves leaves the first column that lists it and enters its destination, a new
 * task enters its own column, and nothing else adds to a column or takes from it.
 */
module Listings {
  import opened Options
  import opened Columns
  import opened Kanban
  import opened ReviewQueues
  import opened Reviews
  import opened Protocol

  /** Every column lists the same tasks, the same number of times in all. */
  ghost predicate SameLists(b: Board, b': Board) {
    && (forall c :: Count(b', c) == Count(b, c))
    && (forall c, id :: id in Ids(b', c) <==> id in Ids(b, c))
  }

  /** A task has left one column and, if there is a destination, entered it. */
  ghost predicate Relisted(b: Board, b': Board, id: Id, from: Column, to: Option<Column>) {
    && (forall c :: Count(b', c) <= Count(b, c) + (if Some(c) == to then 1 else 0))
    && (forall c, x :: x in Ids(b', c) <==> (x == id && Some(c) == to) || (x in Ids(b, c) && (x == id ==> c != from)))
  }

  ghost predicate Added(b: Board, b': Board, id: Id, to: Column) {
    && (forall c :: Count(b', c) == Count(b, c) + (if c == to then 1 else 0))
    && (forall c, x :: x in Ids(b', c) <==> (x == id && c == to) || x in Ids(b, c))
  }

  ghost predicate Keyed(tasks: map<Id, Task>) {
    forall id :: id in tasks ==> tasks[id].id == id
  }

  predicate Relocates(w: BoardWrite) {
    w.Move? || w.Decide? || w.Block?
  }

  function Destination(w: BoardWrite): Column
    requires Relocates(w)
  {
    if w.Move? then w.target else if w.Decide? then w.decision.target else Prioritized
  }

  function EntryOf(d: Decision, now: int): HistoryEntry {
    if d.Approved? then Approval(now, At(d.target)) else Rejection(now, d.feedback, At(d.target))
  }

  /** What a write does to the lists. */
  ghost predicate ListEffect(b: Board, w: BoardWrite, b': Board, ok: bool) {
    if Relocates(w) then
      var from := FindColumn(b, w.id);
      if from.None? then b' == b && !ok
      else ok == (w.id in b.tasks) && Relisted(b, b', w.id, from.value, if ok then Some(Destination(w)) else None)
    else if w.Insert? then Added(b, b', w.task.id, w.task.Column())
    else SameLists(b, b')
  }

  /** The history a task has after a write. */
  function HistoryAfter(b: Board, w: BoardWrite, ok: bool, id: Id): seq<HistoryEntry>
    requires id in b.tasks
  {
    if (w.Replace? || w.Insert?) && w.task.id == id then w.task.history
    else if w.Decide? && w.id == id && ok then b.tasks[id].history + [EntryOf(w.decision, w.now)]
    else b.tasks[id].history
  }

  /** The stage a task's record shows after a write. */
  function StageAfter(b: Board, w: BoardWrite, ok: bool, id: Id): Stage
    requires id in b.tasks
  {
    if (w.Replace? || w.Insert?) && w.task.id == id then w.task.stage
    else if Relocates(w) && w.id == id && ok then At(Destination(w))
    else b.tasks[id].stage
  }

  /** What a write does to the records: the same tasks or one more, their histories and their stages. */
  ghost predicate RecordEffect(b: Board, w: BoardWrite, b': Board, ok: bool) {
    && Keyed(b'.tasks)
    && b'.tasks.Keys == b.tasks.Keys + (if w.Insert? then {w.task.id} else {})
    && (w.Insert? ==> b'.tasks[w.task.id] == w.task)
    && forall id :: id in b.tasks ==>
         b'.tasks[id].history == HistoryAfter(b, w, ok, id) && b'.tasks[id].stage == StageAfter(b, w, ok, id)
  }

  // ── Proofs ────────────────────────────────────────────────────────────────

  lemma {:induction false} FoundIsListed(b: Board, order: seq<Column>, id: Id)
    ensures match FindIn(b, order, id)
      case Some(c) => c in order && id in Ids(b, c)
      case None => forall c :: c in order ==> id !in Ids(b, c)
  {
    if order != [] { FoundIsListed(b, order[1..], id); }
  }

  /** A search finds a column that lists the task, and finds one whenever there is one. */
  lemma FindsListed(b: Board, id: Id)
    ensures match FindColumn(b, id)
      case Some(c) => id in Ids(b, c)
      case None => forall c :: id !in Ids(b, c)
  {
    FoundIsListed(b, ALL_COLUMNS, id);
    forall c: Column ensures c in ALL_COLUMNS { NeighboursInOrder(c); }
  }

  lemma SortColumnLists(b: Board, c: Column)
    ensures SameLists(b, SortColumn(b, c)) && SortColumn(b, c).tasks == b.tasks
  {
    if c in b.columns {
      SortedFacts(b.tasks, b.columns[c]);
      var sorted := SortIds(b.tasks, b.columns[c]);
      forall id ensures id in sorted <==> id in b.columns[c] {
        assert multiset(sorted)[id] == multiset(b.columns[c])[id];
      }
    }
  }

  lemma PushLists(b: Board, c: Column, id: Id)
    ensures Added(b, Push(b, c, id), id, c)
  {
  }

  lemma RetainLists(ids: seq<Id>, id: Id)
    ensures |Retain(ids, id)| <= |ids| && forall x :: x in Retain(ids, id) <==> x in ids && x != id
  {
    RetainMembers(ids, id);
    forall x ensures x in Retain(ids, id) <==> x in ids && x != id {
      assert multiset(Retain(ids, id))[x] == if x == id then 0 else multiset(ids)[x];
    }
  }

  lemma UnlistedLists(b: Board, id: Id, from: Column)
    ensures Relisted(b, b.(columns := b.columns[from := Retain(Ids(b, from), id)]), id, from, None)
  {
    hide Retain;
    RetainLists(Ids(b, from), id);
  }

  /** Adding a task to a column and re-sorting it, whatever the records are. */
  lemma PushSortLists(b: Board, b2: Board, id: Id, to: Column)
    requires b2.columns == b.columns
    ensures Added(b, SortColumn(Push(b2, to, id), to), id, to)
  {
    hide SortColumn, Push, Ids, Count;
    SameColumns(b, b2);
    PushLists(b2, to, id);
    SortColumnLists(Push(b2, to, id), to);
    AddedThenSorted(b, b2, Push(b2, to, id), SortColumn(Push(b2, to, id), to), id, to);
  }

  lemma AdvanceLists(b: Board, id: Id, to: Column)
    ensures var (b', ok) := Advance(b, id, to); var from := FindColumn(b, id);
      if from.None? then b' == b && !ok
      else
        && ok == (id in b.tasks) && Relisted(b, b', id, from.value, if ok then Some(to) else None)
        && b'.tasks == if ok then b.tasks[id := b.tasks[id].(stage := At(to))] else b.tasks
  {
    hide FindColumn, Retain, Relisted, SortColumn, Added;
    var found := FindColumn(b, id);
    if found.Some? {
      var from := found.value;
      UnlistedLists(b, id, from);
      var b1 := b.(columns := b.columns[from := Retain(Ids(b, from), id)]);
      if id in b.tasks {
        var b2 := b1.(tasks := b1.tasks[id := b1.tasks[id].(stage := At(to))]);
        PushSortLists(b1, b2, id, to);
        SortColumnLists(Push(b2, to, id), to);
        RelistedThenAdded(b, b1, SortColumn(Push(b2, to, id), to), id, from, to);
      }
    }
  }

  lemma RelistedThenAdded(b: Board, b1: Board, b': Board, id: Id, from: Column, to: Column)
    requires Relisted(b, b1, id, from, None) && Added(b1, b', id, to)
    ensures Relisted(b, b', id, from, Some(to))
  {
    hide Ids, Count;
  }

  lemma SetPriorityLists(b: Board, id: Id, priority: Priority)
    ensures var b' := SetPriority(b, id, priority);
      SameLists(b, b') && b'.tasks == if id in b.tasks then b.tasks[id := b.tasks[id].(priority := priority)] else b.tasks
  {
    if id in b.tasks {
      var b1 := b.(tasks := b.tasks[id := b.tasks[id].(priority := priority)]);
      SortColumnLists(b1, b1.tasks[id].Column());
    }
  }

  lemma ReworkLists(b: Board, id: Id, to: Column)
    ensures var (b', ok) := Rework(b, id, to); var from := FindColumn(b, id);
      if from.None? then b' == b && !ok
      else
        && ok == (id in b.tasks) && Relisted(b, b', id, from.value, if ok then Some(to) else None)
        && b'.tasks == if ok then b.tasks[id := b.tasks[id].(stage := At(to), priority := 0)] else b.tasks
  {
    hide Advance, SetPriority, FindColumn;
    AdvanceLists(b, id, to);
    SetPriorityLists(Advance(b, id, to).0, id, 0);
  }

  lemma DecideLists(b: Board, w: BoardWrite)
    requires w.Decide?
    ensures var (b', ok) := WriteBoard(b, w); ListEffect(b, w, b', ok)
  {
    hide DecideOn, FindColumn, Relisted;
    if w.decision.Approved? { ApprovalLists(b, w.id, w.decision, w.now); } else { RejectionLists(b, w.id, w.decision, w.now); }
  }

  lemma ApprovalLists(b: Board, id: Id, d: Decision, now: int)
    requires d.Approved?
    ensures var (b', ok) := DecideOn(b, id, d, now); var from := FindColumn(b, id);
      if from.None? then b' == b && !ok
      else ok == (id in b.tasks) && Relisted(b, b', id, from.value, if ok then Some(d.target) else None)
  {
    hide Advance, FindColumn, Ids, Count;
    AdvanceLists(b, id, d.target);
    if DecideOn(b, id, d, now).1 { SameColumns(Advance(b, id, d.target).0, DecideOn(b, id, d, now).0); }
  }

  lemma RejectionLists(b: Board, id: Id, d: Decision, now: int)
    requires d.Rejected?
    ensures var (b', ok) := DecideOn(b, id, d, now); var from := FindColumn(b, id);
      if from.None? then b' == b && !ok
      else ok == (id in b.tasks) && Relisted(b, b', id, from.value, if ok then Some(d.target) else None)
  {
    hide Rework, FindColumn, Ids, Count;
    ReworkLists(b, id, d.target);
    if DecideOn(b, id, d, now).1 { SameColumns(Rework(b, id, d.target).0, DecideOn(b, id, d, now).0); }
  }

  lemma MoveLists(b: Board, w: BoardWrite)
    requires w.Move?
    ensures var (b', ok) := WriteBoard(b, w); ListEffect(b, w, b', ok)
  {
    hide Advance, FindColumn;
    AdvanceLists(b, w.id, w.target);
  }

  lemma BlockLists(b: Board, w: BoardWrite)
    requires w.Block?
    ensures var (b', ok) := WriteBoard(b, w); ListEffect(b, w, b', ok)
  {
    hide Rework, FindColumn;
    ReworkLists(b, w.id, Prioritized);
  }

  lemma InsertLists(b: Board, t: Task)
    ensures Added(b, AddTask(b, t), t.id, t.Column())
  {
    hide SortColumn, Added;
    PushSortLists(b, b.(tasks := b.tasks[t.id := t]), t.id, t.Column());
  }

  lemma SameColumns(b: Board, b': Board)
    requires b'.columns == b.columns
    ensures SameLists(b, b')
  {
  }

  lemma AddedThenSorted(b: Board, b1: Board, b2: Board, b': Board, id: Id, to: Column)
    requires SameLists(b, b1) && Added(b1, b2, id, to) && SameLists(b2, b')
    ensures Added(b, b', id, to)
  {
    hide Ids, Count;
  }

  /** The lists of any board after a write. */
  lemma WriteLists(b: Board, w: BoardWrite)
    ensures var (b', ok) := WriteBoard(b, w); ListEffect(b, w, b', ok)
  {
    hide WriteBoard, SameLists, Added, Relisted;
    if w.Decide? { DecideLists(b, w); }
    else if w.Move? { MoveLists(b, w); }
    else if w.Block? { BlockLists(b, w); }
    else { PlainLists(b, w); }
  }

  lemma PlainLists(b: Board, w: BoardWrite)
    requires !Relocates(w)
    ensures var (b', ok) := WriteBoard(b, w); ListEffect(b, w, b', ok)
  {
    hide SetPriority, AddTask, Added, SameLists;
    if w.Insert? { InsertLists(b, w.task); }
    else if w.Reprioritize? { SetPriorityLists(b, w.id, w.priority); }
    else { SameColumns(b, WriteBoard(b, w).0); }
  }

  lemma DecideRecords(b: Board, w: BoardWrite)
    requires Keyed(b.tasks) && w.Decide?
    ensures var (b', ok) := WriteBoard(b, w); RecordEffect(b, w, b', ok)
  {
    hide Advance, Rework, FindColumn, Relisted;
    AdvanceLists(b, w.id, w.decision.target);
    ReworkLists(b, w.id, w.decision.target);
  }

  lemma MoveRecords(b: Board, w: BoardWrite)
    requires Keyed(b.tasks) && w.Move?
    ensures var (b', ok) := WriteBoard(b, w); RecordEffect(b, w, b', ok)
  {
    hide Advance, FindColumn, Relisted;
    AdvanceLists(b, w.id, w.target);
  }

  lemma BlockRecords(b: Board, w: BoardWrite)
    requires Keyed(b.tasks) && w.Block?
    ensures var (b', ok) := WriteBoard(b, w); RecordEffect(b, w, b', ok)
  {
    hide Rework, FindColumn, Relisted;
    ReworkLists(b, w.id, Prioritized);
  }

  /** The records after a write, on every board whose records are under their own ids. */
  lemma WriteRecords(b: Board, w: BoardWrite)
    requires Keyed(b.tasks)
    ensures var (b', ok) := WriteBoard(b, w); RecordEffect(b, w, b', ok)
  {
    hide WriteBoard, RecordEffect;
    if w.Decide? { DecideRecords(b, w); }
    else if w.Move? { MoveRecords(b, w); }
    else if w.Block? { BlockRecords(b, w); }
    else { PlainRecords(b, w); }
  }

  lemma PlainRecords(b: Board, w: BoardWrite)
    requires Keyed(b.tasks) && !Relocates(w)
    ensures var (b', ok) := WriteBoard(b, w); RecordEffect(b, w, b', ok)
  {
    hide RecordEffect, WriteBoard;
    if w.Insert? || w.Replace? { RecordWritten(b, w); }
    else if w.Reprioritize? { RankWritten(b, w); }
    else { TextWritten(b, w); }
  }

  lemma RecordWritten(b: Board, w: BoardWrite)
    requires Keyed(b.tasks) && (w.Insert? || w.Replace?)
    ensures var (b', ok) := WriteBoard(b, w); RecordEffect(b, w, b', ok)
  {
    hide AddTask;
    if w.Insert? { InsertRecords(b, w.task); }
  }

  lemma RankWritten(b: Board, w: BoardWrite)
    requires Keyed(b.tasks) && w.Reprioritize?
    ensures var (b', ok) := WriteBoard(b, w); RecordEffect(b, w, b', ok)
  {
    hide SetPriority;
    SetPriorityLists(b, w.id, w.priority);
  }

  predicate WritesText(w: BoardWrite) {
    w.KeepBoard? || w.SetBranch? || w.SetOutput? || w.SetNote?
  }

  lemma TextWritten(b: Board, w: BoardWrite)
    requires Keyed(b.tasks) && WritesText(w)
    ensures var (b', ok) := WriteBoard(b, w); RecordEffect(b, w, b', ok)
  {
    hide RecordEffect;
    TextKeepsStages(b, w, WriteBoard(b, w).0);
  }

  lemma TextKeepsStages(b: Board, w: BoardWrite, b': Board)
    requires Keyed(b.tasks) && WritesText(w) && b'.tasks.Keys == b.tasks.Keys
    requires forall id :: id in b.tasks ==>
               b'.tasks[id].id == id && b'.tasks[id].history == b.tasks[id].history && b'.tasks[id].stage == b.tasks[id].stage
    ensures RecordEffect(b, w, b', true)
  {
  }

  lemma InsertRecords(b: Board, t: Task)
    ensures AddTask(b, t).tasks == b.tasks[t.id := t]
  {
    SortColumnLists(Push(b, t.Column(), t.id).(tasks := b.tasks[t.id := t]), t.Column());
  }

  lemma AgentBoardIs(s: State, r: Role, x: Input)
    ensures AgentSection(s, r, x).board == WriteBoard(s.board, AgentChange(s, r, x).0.board).0
  {
    hide AgentChange, WriteBoard, WriteStore;
  }
}
