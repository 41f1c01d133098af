/** Any sequence of board operations keeps the board well formed and the order of the untouched tasks. */
module BoardRuns {
  import opened Options
  import opened Columns
  import opened Kanban
  import Sorting = StableSorting

  datatype BoardOp =
    | MoveTask(id: Id, target: Column)
    | NewTask(task: Task)
    | RankTask(id: Id, priority: Priority)

  function Operate(b: Board, op: BoardOp): Board {
    match op
    case MoveTask(id, target) => Advance(b, id, target).0
    case NewTask(t) => AddTask(b, t)
    case RankTask(id, priority) => SetPriority(b, id, priority)
  }

  function Run(b: Board, ops: seq<BoardOp>): Board {
    if ops == [] then b else Operate(Run(b, ops[..|ops| - 1]), ops[|ops| - 1])
  }

  /** Every new task comes under an id the board does not have. */
  predicate FreshTasks(b: Board, ops: seq<BoardOp>) {
    ops == []
    || (FreshTasks(b, ops[..|ops| - 1])
        && (ops[|ops| - 1].NewTask? ==> ops[|ops| - 1].task.id !in Run(b, ops[..|ops| - 1]).tasks))
  }

  lemma OperateKeeps(b: Board, op: BoardOp)
    requires WellFormed(b) && (op.NewTask? ==> op.task.id !in b.tasks)
    ensures WellFormed(Operate(b, op))
  {
    match op {
      case MoveTask(id, target) => if id in b.tasks { AdvanceEffect(b, id, target); } else { AdvanceUnknown(b, id, target); }
      case NewTask(t) => AddTaskEffect(b, t);
      case RankTask(id, priority) => SetPriorityEffect(b, id, priority);
    }
  }

  lemma {:induction false} RunKeeps(b: Board, ops: seq<BoardOp>)
    requires WellFormed(b) && FreshTasks(b, ops)
    ensures WellFormed(Run(b, ops))
  {
    if ops != [] {
      hide WellFormed, Operate;
      RunKeeps(b, ops[..|ops| - 1]);
      OperateKeeps(Run(b, ops[..|ops| - 1]), ops[|ops| - 1]);
    }
  }

  /**
   * From records with distinct ids, after any sequence of operations, every task is listed exactly
   * once, in the column of its stage, each column is sorted by priority, and the column found for a
   * task is that one in whatever order the columns are looked through.
   */
  lemma BoardRefinement(records: seq<Task>, ops: seq<BoardOp>, id: Id, order: seq<Column>)
    requires DistinctIds(records) && FreshTasks(FromTasks(records), ops) && forall c :: c in order
    ensures var b := Run(FromTasks(records), ops);
      && (id in b.tasks ==> forall c :: Times(b, id, c) == if c == b.tasks[id].Column() then 1 else 0)
      && (id !in b.tasks ==> forall c :: id !in Ids(b, c))
      && (forall c :: InOrder(b.tasks, Ids(b, c)))
      && FindIn(b, order, id) == if id in b.tasks then Some(b.tasks[id].Column()) else None
  {
    hide Run, FreshTasks;
    FromTasksEffect(records);
    RunKeeps(FromTasks(records), ops);
    var b := Run(FromTasks(records), ops);
    forall c ensures Times(b, id, c) == Listed(b.tasks, id, c) {}
    FindColumnIsStage(b, id);
    forall c | id !in b.tasks ensures id !in Ids(b, c) { MembersOf(b, c); }
  }

  // ── The others keep their order ───────────────────────────────────────────

  lemma {:induction false} RetainConcat(a: seq<Id>, b: seq<Id>, id: Id)
    ensures Retain(a + b, id) == Retain(a, id) + Retain(b, id)
  {
    if b == [] {
      assert a + b == a;
    } else {
      RetainConcat(a, b[..|b| - 1], id);
      assert (a + b)[..|a + b| - 1] == a + b[..|b| - 1];
    }
  }

  lemma {:induction false} RetainTwice(ids: seq<Id>, id: Id)
    ensures Retain(Retain(ids, id), id) == Retain(ids, id)
  {
    RetainMembers(ids, id);
    assert multiset(Retain(ids, id))[id] == 0;
    RetainMembers(Retain(ids, id), id);
  }

  lemma RetainInsert(tasks: map<Id, Task>, ids: seq<Id>, id: Id)
    ensures Retain(InsertId(tasks, ids, id), id) == Retain(ids, id)
  {
    var p := Sorting.Position(ByPriority(tasks), ids, id);
    RetainConcat(ids[..p] + [id], ids[p..], id);
    RetainConcat(ids[..p], [id], id);
    RetainConcat(ids[..p], ids[p..], id);
    assert ids == ids[..p] + ids[p..] && [id][..0] == [];
  }

  /** Taking one id out of a class, or out of the list first, is the same. */
  lemma {:induction false} RetainClass(le: (Id, Id) -> bool, ids: seq<Id>, id: Id, y: Id)
    ensures Sorting.Class(le, Retain(ids, id), y) == Retain(Sorting.Class(le, ids, y), id)
  {
    if ids != [] {
      var init, last := ids[..|ids| - 1], ids[|ids| - 1];
      RetainClass(le, init, id, y);
      var single := if le(y, last) && le(last, y) then [last] else [];
      RetainConcat(Sorting.Class(le, init, y), single, id);
      if last != id { Sorting.ClassAppend(le, Retain(init, id), last, y); }
      assert single != [] ==> single[..0] == [] && Retain(single, id) == if last == id then [] else [last];
    }
  }

  /** Re-sorting after one rank has changed keeps the order of all other tasks. */
  lemma SortKeepsOthers(tasks: map<Id, Task>, ids: seq<Id>, id: Id)
    requires InOrder(tasks, Retain(ids, id))
    ensures Retain(SortIds(tasks, ids), id) == Retain(ids, id)
  {
    var le, sorted := ByPriority(tasks), SortIds(tasks, ids);
    PriorityIsTotal(tasks);
    SortedFacts(tasks, ids);
    RetainInOrder(tasks, sorted, id);
    InOrderIsSorted(tasks, Retain(sorted, id));
    InOrderIsSorted(tasks, Retain(ids, id));
    SortedClasses(tasks, ids);
    forall y ensures Sorting.Class(le, Retain(sorted, id), y) == Sorting.Class(le, Retain(ids, id), y) {
      RetainClass(le, sorted, id, y);
      RetainClass(le, ids, id, y);
    }
    Sorting.StableSortUnique(le, Retain(sorted, id), Retain(ids, id));
  }

  lemma SortedClasses(tasks: map<Id, Task>, ids: seq<Id>)
    ensures forall y :: Sorting.Class(ByPriority(tasks), SortIds(tasks, ids), y) == Sorting.Class(ByPriority(tasks), ids, y)
  {
    PriorityIsTotal(tasks);
    Sorting.SortStable(ByPriority(tasks), ids);
  }

  /** The task an operation is about. */
  function Subject(op: BoardOp): Id {
    match op
    case MoveTask(id, _) => id
    case NewTask(t) => t.id
    case RankTask(id, _) => id
  }

  lemma RankKeepsOthers(b: Board, id: Id, priority: Priority, c: Column)
    requires WellFormed(b)
    ensures Retain(Ids(SetPriority(b, id, priority), c), id) == Retain(Ids(b, c), id)
  {
    if id in b.tasks && c == b.tasks[id].Column() {
      var tasks := b.tasks[id := b.tasks[id].(priority := priority)];
      var rest := Retain(Ids(b, c), id);
      RetainInOrder(b.tasks, Ids(b, c), id);
      RetainMembers(Ids(b, c), id);
      assert multiset(rest)[id] == 0;
      OrderElsewhere(b.tasks, tasks, rest, id);
      SetPriorityColumn(b, id, priority);
      SortKeepsOthers(tasks, Ids(b, c), id);
    }
  }

  /**
   * No operation changes the order of the tasks it is not about: without its subject, every column
   * reads as before.
   */
  lemma OthersKeepTheirOrder(b: Board, op: BoardOp, c: Column)
    requires WellFormed(b) && (op.NewTask? ==> op.task.id !in b.tasks)
    ensures Retain(Ids(Operate(b, op), c), Subject(op)) == Retain(Ids(b, c), Subject(op))
  {
    hide WellFormed, Advance, AddTask, SetPriority, InsertId, Retain;
    match op {
      case MoveTask(id, target) =>
        if id in b.tasks {
          AdvanceEffect(b, id, target);
          RetainTwice(Ids(b, c), id);
          RetainInsert(Advance(b, id, target).0.tasks, Retain(Ids(b, c), id), id);
        } else {
          AdvanceUnknown(b, id, target);
        }
      case NewTask(t) =>
        AddTaskEffect(b, t);
        RetainInsert(AddTask(b, t).tasks, Ids(b, c), t.id);
      case RankTask(id, priority) =>
        RankKeepsOthers(b, id, priority, c);
    }
  }
}
