/** The mutable board object, method by method, against the board functions of module Kanban. */
module KanbanBoards {
  import opened Options
  import opened Columns
  import opened Kanban

  class KanbanBoard {
    var columns: map<Column, seq<Id>>
    var tasks: map<Id, Task>

    ghost function View(): Board
      reads this
    {
      Board(columns, tasks)
    }

    ghost predicate Valid()
      reads this
    {
      WellFormed(View())
    }

    constructor FromTasks(records: seq<Task>)
      ensures View() == Kanban.FromTasks(records)
      ensures DistinctIds(records) ==> Valid() && tasks == TaskMap(records)
    {
      columns := EMPTY_BOARD.columns;
      tasks := map[];
      new;
      for i := 0 to |records|
        invariant View() == Place(records[..i])
      {
        var t := records[i];
        columns := columns[t.Column() := (if t.Column() in columns then columns[t.Column()] else []) + [t.id]];
        tasks := tasks[t.id := t];
        assert records[..i + 1][..i] == records[..i];
      }
      assert records[..|records|] == records;
      ghost var placed := View();
      for i := 0 to |ALL_COLUMNS|
        invariant View() == Kanban.SortColumns(placed, ALL_COLUMNS[..i])
      {
        SortColumn(ALL_COLUMNS[i]);
        assert ALL_COLUMNS[..i + 1][..i] == ALL_COLUMNS[..i];
      }
      assert ALL_COLUMNS[..|ALL_COLUMNS|] == ALL_COLUMNS;
      if DistinctIds(records) {
        FromTasksEffect(records);
      }
    }

    method SortColumn(c: Column)
      modifies this`columns
      ensures View() == Kanban.SortColumn(old(View()), c)
    {
      if c in columns {
        columns := columns[c := SortIds(tasks, columns[c])];
      }
    }

    /** Looks through the columns in whatever order the map yields them. */
    method FindColumn(order: seq<Column>, id: Id) returns (found: Option<Column>)
      ensures found == FindIn(View(), order, id)
      ensures Valid() && (forall c :: c in order) ==> found == if id in tasks then Some(tasks[id].Column()) else None
    {
      found := None;
      var i := 0;
      while i < |order| && found == None
        invariant 0 <= i <= |order|
        invariant FindIn(View(), order, id) == if found == None then FindIn(View(), order[i..], id) else found
      {
        if order[i] in columns && id in columns[order[i]] {
          found := Some(order[i]);
        }
        i := i + 1;
      }
      if Valid() && forall c :: c in order {
        FindColumnIsStage(View(), id);
      }
    }

    method CountIn(c: Column) returns (n: nat)
      ensures n == Count(View(), c)
    {
      n := if c in columns then |columns[c]| else 0;
    }

    /**
     * Moves a task.  On a valid board the task leaves its column, gets the stage of the target and
     * stands there behind every task of equal priority; an unknown task changes nothing.
     */
    method Advance(id: Id, to: Column) returns (ok: bool)
      modifies this
      ensures (View(), ok) == Kanban.Advance(old(View()), id, to)
      ensures old(Valid()) ==> Valid() && ok == (id in old(tasks))
      ensures old(Valid()) && ok ==> tasks == old(tasks)[id := old(tasks)[id].(stage := At(to))]
      ensures old(Valid()) && ok ==> Ids(View(), to) == InsertId(tasks, Retain(Ids(old(View()), to), id), id)
      ensures old(Valid()) && !ok ==> View() == old(View())
    {
      hide WellFormed, InsertId, Retain, SortIds;
      ghost var before := View();
      ok := false;
      var from := FindColumn(ALL_COLUMNS, id);
      if from != None {
        FoundIsColumn(before, ALL_COLUMNS, id);
        columns := columns[from.value := Retain(columns[from.value], id)];
        if id in tasks {
          tasks := tasks[id := tasks[id].(stage := At(to))];
          columns := columns[to := (if to in columns then columns[to] else []) + [id]];
          SortColumn(to);
          ok := true;
        }
      }
      assert (View(), ok) == Kanban.Advance(before, id, to);
      AdvanceKeeps(before, id, to);
    }

    /** What a move does to a well-formed board. */
    static lemma AdvanceKeeps(b: Board, id: Id, to: Column)
      ensures var (b', ok) := Kanban.Advance(b, id, to);
        WellFormed(b) ==>
          && WellFormed(b') && ok == (id in b.tasks) && (!ok ==> b' == b)
          && (ok ==> b'.tasks == b.tasks[id := b.tasks[id].(stage := At(to))]
                     && Ids(b', to) == InsertId(b'.tasks, Retain(Ids(b, to), id), id))
    {
      hide WellFormed, Kanban.Advance;
      if WellFormed(b) {
        if id in b.tasks { AdvanceEffect(b, id, to); } else { AdvanceUnknown(b, id, to); }
      }
    }

    static lemma {:induction false} FoundIsColumn(b: Board, order: seq<Column>, id: Id)
      ensures FindIn(b, order, id).Some? ==> FindIn(b, order, id).value in b.columns
    {
      if order != [] {
        FoundIsColumn(b, order[1..], id);
      }
    }

    method AddTask(t: Task)
      modifies this
      ensures View() == Kanban.AddTask(old(View()), t)
      ensures old(Valid()) && t.id !in old(tasks) ==> Valid()
    {
      if Valid() && t.id !in tasks {
        AddTaskEffect(View(), t);
      }
      columns := columns[t.Column() := (if t.Column() in columns then columns[t.Column()] else []) + [t.id]];
      tasks := tasks[t.id := t];
      SortColumn(t.Column());
    }

    method SetPriority(id: Id, priority: Priority)
      modifies this
      ensures View() == Kanban.SetPriority(old(View()), id, priority)
      ensures old(Valid()) ==> Valid()
    {
      if Valid() {
        SetPriorityEffect(View(), id, priority);
      }
      if id in tasks {
        tasks := tasks[id := tasks[id].(priority := priority)];
        SortColumn(tasks[id].Column());
      }
    }

    /** A caller's update of the record it looked up; the lists are left alone. */
    method Amend(t: Task)
      modifies this`tasks
      ensures View() == Kanban.Amend(old(View()), t)
    {
      if t.id in tasks {
        tasks := tasks[t.id := t];
      }
    }

    method NextUnblocked(c: Column) returns (pick: Option<Task>)
      ensures pick == Kanban.NextUnblocked(View(), c)
      ensures Valid() && pick.Some? ==> pick.value.Column() == c && Ready(View(), pick.value)
      ensures forall id :: Valid() && id in tasks && tasks[id].Column() == c && Ready(View(), tasks[id])
                ==> pick.Some? && pick.value.priority <= tasks[id].priority
      ensures pick.Some? ==> forall blocker :: blocker in pick.value.blockedBy ==> blocker in tasks && tasks[blocker].stage == At(Done)
      ensures pick.None? ==> forall id :: id in Ids(View(), c) && id in tasks ==>
        exists blocker :: blocker in tasks[id].blockedBy && !(blocker in tasks && tasks[blocker].stage == At(Done))
    {
      PickIsUnblocked(View(), c);
      if Valid() {
        PickIsBestReady(View(), c);
      }
      var ids := if c in columns then columns[c] else [];
      for i := 0 to |ids|
        invariant FirstReady(View(), ids) == FirstReady(View(), ids[i..])
      {
        if ids[i] in tasks {
          var t := tasks[ids[i]];
          if forall blocker :: blocker in t.blockedBy ==> blocker in tasks && tasks[blocker].stage == At(Done) {
            return Some(t);
          }
        }
        assert ids[i..][1..] == ids[i + 1..];
      }
      return None;
    }
  }
}
