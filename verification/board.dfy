/** Task records and the in-memory board projection. */
module Kanban {
  import opened Options
  import opened Columns
  import Sorting = StableSorting

  type Id = string

  const U32_MAX: nat := 0xFFFF_FFFF
  type Priority = n: nat | n <= U32_MAX

  datatype HistoryEntry =
    | StageChange(from: Stage, to: Stage, stamp: int, note: Option<string>)
    | Approval(stamp: int, targetStage: Stage)
    | Rejection(stamp: int, feedback: string, returnedTo: Stage)

  datatype Task = Task(
    id: Id, title: string, stage: Stage, priority: Priority,
    branch: Option<string>, feedback: Option<string>, output: Option<string>, resume: Option<string>,
    history: seq<HistoryEntry>, blockedBy: seq<Id>)
  {
    function Column(): Column { ToColumn(stage) }
  }

  datatype Board = Board(columns: map<Column, seq<Id>>, tasks: map<Id, Task>)

  // ── What the board computes ───────────────────────────────────────────────

  function Ids(b: Board, c: Column): seq<Id> {
    if c in b.columns then b.columns[c] else []
  }

  function Count(b: Board, c: Column): nat {
    |Ids(b, c)|
  }

  function Rank(tasks: map<Id, Task>, id: Id): Priority {
    if id in tasks then tasks[id].priority else U32_MAX
  }

  function ByPriority(tasks: map<Id, Task>): (Id, Id) -> bool {
    (x: Id, y: Id) => Rank(tasks, x) <= Rank(tasks, y)
  }

  function SortIds(tasks: map<Id, Task>, ids: seq<Id>): seq<Id> {
    Sorting.Sort(ByPriority(tasks), ids)
  }

  /** `id` behind all members of `ids` that rank no later than it. */
  function InsertId(tasks: map<Id, Task>, ids: seq<Id>, id: Id): seq<Id> {
    Sorting.Insert(ByPriority(tasks), ids, id)
  }

  function SortColumn(b: Board, c: Column): Board {
    if c in b.columns then b.(columns := b.columns[c := SortIds(b.tasks, b.columns[c])]) else b
  }

  function Push(b: Board, c: Column, id: Id): Board {
    b.(columns := b.columns[c := Ids(b, c) + [id]])
  }

  function Retain(ids: seq<Id>, id: Id): seq<Id> {
    if ids == [] then []
    else
      var rest := Retain(ids[..|ids| - 1], id);
      if ids[|ids| - 1] == id then rest else rest + [ids[|ids| - 1]]
  }

  /** The first column of `order` that lists the task; the program's order is that of a hash map. */
  function FindIn(b: Board, order: seq<Column>, id: Id): Option<Column> {
    if order == [] then None
    else if id in Ids(b, order[0]) then Some(order[0])
    else FindIn(b, order[1..], id)
  }

  function FindColumn(b: Board, id: Id): Option<Column> {
    FindIn(b, ALL_COLUMNS, id)
  }

  /** Moves a task; the flag is false when the task is unknown.  A listed id without a record is still unlisted. */
  function Advance(b: Board, id: Id, to: Column): (Board, bool) {
    match FindColumn(b, id)
    case None => (b, false)
    case Some(from) =>
      var b1 := b.(columns := b.columns[from := Retain(Ids(b, from), id)]);
      if id !in b1.tasks then (b1, false)
      else
        var b2 := b1.(tasks := b1.tasks[id := b1.tasks[id].(stage := At(to))]);
        (SortColumn(Push(b2, to, id), to), true)
  }

  function AddTask(b: Board, t: Task): Board {
    var b1 := Push(b, t.Column(), t.id);
    SortColumn(b1.(tasks := b1.tasks[t.id := t]), t.Column())
  }

  function SetPriority(b: Board, id: Id, priority: Priority): Board {
    if id !in b.tasks then b
    else
      var b1 := b.(tasks := b.tasks[id := b.tasks[id].(priority := priority)]);
      SortColumn(b1, b1.tasks[id].Column())
  }

  /** A rework move: to the target column, then to the top of it. */
  function Rework(b: Board, id: Id, to: Column): (Board, bool) {
    var (b1, ok) := Advance(b, id, to);
    if ok then (SetPriority(b1, id, 0), true) else (b1, false)
  }

  /** Replaces the record of a listed task, as a caller holding a mutable reference to it does. */
  function Amend(b: Board, t: Task): Board {
    if t.id in b.tasks then b.(tasks := b.tasks[t.id := t]) else b
  }

  predicate Ready(b: Board, t: Task) {
    forall blocker :: blocker in t.blockedBy ==> blocker in b.tasks && b.tasks[blocker].stage == At(Done)
  }

  function FirstReady(b: Board, ids: seq<Id>): Option<Task> {
    if ids == [] then None
    else if ids[0] in b.tasks && Ready(b, b.tasks[ids[0]]) then Some(b.tasks[ids[0]])
    else FirstReady(b, ids[1..])
  }

  function NextUnblocked(b: Board, c: Column): Option<Task> {
    FirstReady(b, Ids(b, c))
  }

  const EMPTY_BOARD: Board := Board(map c: Column | c in ALL_COLUMNS :: [], map[])

  function Place(tasks: seq<Task>): Board {
    if tasks == [] then EMPTY_BOARD
    else
      var b := Place(tasks[..|tasks| - 1]);
      var t := tasks[|tasks| - 1];
      var b1 := Push(b, t.Column(), t.id);
      b1.(tasks := b1.tasks[t.id := t])
  }

  function SortColumns(b: Board, order: seq<Column>): Board {
    if order == [] then b else SortColumn(SortColumns(b, order[..|order| - 1]), order[|order| - 1])
  }

  function FromTasks(tasks: seq<Task>): Board {
    SortColumns(Place(tasks), ALL_COLUMNS)
  }

  // ── Well-formed boards ────────────────────────────────────────────────────

  function Listed(tasks: map<Id, Task>, id: Id, c: Column): nat {
    if id in tasks && tasks[id].Column() == c then 1 else 0
  }

  /** How often a column lists a task. */
  ghost function Times(b: Board, id: Id, c: Column): nat {
    multiset(Ids(b, c))[id]
  }

  /** Every record is filed under its own id and listed once, in the column of its stage. */
  ghost predicate Filed(b: Board) {
    && (forall c: Column :: c in b.columns)
    && (forall id :: id in b.tasks ==> b.tasks[id].id == id)
    && (forall c, id :: Times(b, id, c) == Listed(b.tasks, id, c))
  }

  ghost predicate InOrder(tasks: map<Id, Task>, ids: seq<Id>) {
    forall i, j :: 0 <= i < j < |ids| ==> Rank(tasks, ids[i]) <= Rank(tasks, ids[j])
  }

  ghost predicate WellFormed(b: Board) {
    && Filed(b)
    && (forall c :: InOrder(b.tasks, Ids(b, c)))
  }

  lemma PriorityIsTotal(tasks: map<Id, Task>)
    ensures Sorting.TotalPreorder(ByPriority(tasks))
  {
  }

  lemma InOrderIsSorted(tasks: map<Id, Task>, ids: seq<Id>)
    ensures InOrder(tasks, ids) <==> Sorting.Sorted(ByPriority(tasks), ids)
  {
    var le := ByPriority(tasks);
    if Sorting.Sorted(le, ids) {
      forall i, j | 0 <= i < j < |ids| ensures Rank(tasks, ids[i]) <= Rank(tasks, ids[j]) {
        assert le(ids[i], ids[j]);
      }
    }
  }

  lemma SortedFacts(tasks: map<Id, Task>, s: seq<Id>)
    ensures var r := SortIds(tasks, s);
      InOrder(tasks, r) && multiset(r) == multiset(s) && |r| == |s|
  {
    PriorityIsTotal(tasks);
    Sorting.SortMembers(ByPriority(tasks), s);
    InOrderIsSorted(tasks, SortIds(tasks, s));
  }

  lemma AppendSorted(tasks: map<Id, Task>, s: seq<Id>, id: Id)
    requires InOrder(tasks, s)
    ensures SortIds(tasks, s + [id]) == InsertId(tasks, s, id)
    ensures |InsertId(tasks, s, id)| == |s| + 1
  {
    PriorityIsTotal(tasks);
    InOrderIsSorted(tasks, s);
    Sorting.SortAppend(ByPriority(tasks), s, id);
  }

  lemma {:induction false} RetainMembers(ids: seq<Id>, id: Id)
    ensures forall x :: multiset(Retain(ids, id))[x] == if x == id then 0 else multiset(ids)[x]
    ensures |Retain(ids, id)| == |ids| - multiset(ids)[id]
    ensures id !in ids ==> Retain(ids, id) == ids
  {
    if ids != [] {
      RetainMembers(ids[..|ids| - 1], id);
      assert ids == ids[..|ids| - 1] + [ids[|ids| - 1]];
    }
  }

  lemma {:induction false} RetainInOrder(tasks: map<Id, Task>, ids: seq<Id>, id: Id)
    requires InOrder(tasks, ids)
    ensures InOrder(tasks, Retain(ids, id))
    ensures forall x :: x in Retain(ids, id) ==> x in ids
  {
    if ids != [] {
      var init, last := ids[..|ids| - 1], ids[|ids| - 1];
      RetainInOrder(tasks, init, id);
      var rest := Retain(init, id);
      forall i | 0 <= i < |rest| ensures Rank(tasks, rest[i]) <= Rank(tasks, last) {
        assert rest[i] in init;
        var k :| 0 <= k < |init| && init[k] == rest[i];
        assert ids[k] == rest[i];
      }
    }
  }

  /** On a filed board the column found does not depend on the order in which columns are looked at. */
  lemma {:induction false} FindAnyOrder(b: Board, order: seq<Column>, id: Id)
    requires Filed(b)
    ensures id !in b.tasks ==> FindIn(b, order, id) == None
    ensures id in b.tasks && b.tasks[id].Column() in order ==> FindIn(b, order, id) == Some(b.tasks[id].Column())
  {
    if order != [] {
      FindAnyOrder(b, order[1..], id);
      assert id in Ids(b, order[0]) <==> Times(b, id, order[0]) > 0;
    }
  }

  lemma FindColumnIsStage(b: Board, id: Id)
    requires Filed(b)
    ensures FindColumn(b, id) == if id in b.tasks then Some(b.tasks[id].Column()) else None
    ensures forall order: seq<Column> :: (forall c :: c in order) ==> FindIn(b, order, id) == FindColumn(b, id)
  {
    FindAnyOrder(b, ALL_COLUMNS, id);
    if id in b.tasks { NeighboursInOrder(b.tasks[id].Column()); }
    forall order: seq<Column> | forall c :: c in order ensures FindIn(b, order, id) == FindColumn(b, id) {
      FindAnyOrder(b, order, id);
    }
  }

  lemma SortColumnFiled(b: Board, c: Column)
    requires Filed(b)
    ensures Filed(SortColumn(b, c))
    ensures InOrder(b.tasks, Ids(SortColumn(b, c), c))
    ensures forall d :: d != c ==> Ids(SortColumn(b, c), d) == Ids(b, d)
    ensures forall d :: Count(SortColumn(b, c), d) == Count(b, d)
  {
    var b' := SortColumn(b, c);
    SortedFacts(b.tasks, b.columns[c]);
    forall x, d ensures Times(b', x, d) == Listed(b'.tasks, x, d) {
      assert Times(b, x, d) == Listed(b.tasks, x, d);
    }
  }

  lemma SortColumnEffect(b: Board, c: Column)
    requires Filed(b)
    requires forall d :: d != c ==> InOrder(b.tasks, Ids(b, d))
    ensures WellFormed(SortColumn(b, c))
    ensures forall d :: Count(SortColumn(b, c), d) == Count(b, d)
  {
    SortColumnFiled(b, c);
  }

  /** A new priority for one task keeps the order of any column that does not list it. */
  lemma OrderElsewhere(tasks: map<Id, Task>, tasks': map<Id, Task>, ids: seq<Id>, id: Id)
    requires InOrder(tasks, ids) && id !in ids
    requires forall x :: x != id ==> Rank(tasks', x) == Rank(tasks, x)
    ensures InOrder(tasks', ids)
  {
  }

  /** Appending a task to a sorted column and re-sorting puts it behind all tasks of equal priority. */
  lemma PushSort(b: Board, c: Column, id: Id)
    requires Filed(Push(b, c, id))
    requires forall d :: InOrder(b.tasks, Ids(b, d))
    ensures var b' := SortColumn(Push(b, c, id), c);
      && WellFormed(b') && b'.tasks == b.tasks
      && (forall d :: Ids(b', d) == if d == c then InsertId(b.tasks, Ids(b, c), id) else Ids(b, d))
      && (forall d :: Count(b', d) == Count(b, d) + (if d == c then 1 else 0))
  {
    var b1 := Push(b, c, id);
    AppendSorted(b.tasks, Ids(b, c), id);
    assert forall d :: d != c ==> Ids(b1, d) == Ids(b, d);
    SortColumnEffect(b1, c);
    PushSortIds(b, c, id, InsertId(b.tasks, Ids(b, c), id));
  }

  lemma PushSortIds(b: Board, c: Column, id: Id, sorted: seq<Id>)
    requires sorted == SortIds(b.tasks, Ids(b, c) + [id]) && |sorted| == Count(b, c) + 1
    ensures var b' := SortColumn(Push(b, c, id), c);
      && (forall d :: Ids(b', d) == if d == c then sorted else Ids(b, d))
      && (forall d :: Count(b', d) == Count(b, d) + (if d == c then 1 else 0))
  {
    assert Push(b, c, id).columns[c] == Ids(b, c) + [id];
  }

  /** The board after a task has been taken off its column and its stage set. */
  ghost function Unlisted(b: Board, id: Id, to: Column): Board
    requires id in b.tasks
  {
    var from := b.tasks[id].Column();
    Board(b.columns[from := Retain(Ids(b, from), id)], b.tasks[id := b.tasks[id].(stage := At(to))])
  }

  lemma UnlistedEffect(b: Board, id: Id, to: Column)
    requires WellFormed(b) && id in b.tasks
    ensures var b2 := Unlisted(b, id, to);
      && Advance(b, id, to) == (SortColumn(Push(b2, to, id), to), true)
      && (forall c :: Ids(b2, c) == Retain(Ids(b, c), id))
      && (forall c :: InOrder(b2.tasks, Ids(b2, c)))
      && (forall c :: Count(b2, c) == Count(b, c) - Listed(b.tasks, id, c))
  {
    FindColumnIsStage(b, id);
    var b2 := Unlisted(b, id, to);
    forall c ensures Ids(b2, c) == Retain(Ids(b, c), id) && Count(b2, c) == Count(b, c) - Listed(b.tasks, id, c) {
      assert Times(b, id, c) == Listed(b.tasks, id, c);
      RetainMembers(Ids(b, c), id);
    }
    forall c ensures InOrder(b2.tasks, Ids(b2, c)) {
      RetainInOrder(b.tasks, Ids(b, c), id);
      SameRanks(b.tasks, b2.tasks, Ids(b2, c));
    }
  }

  lemma SameRanks(tasks: map<Id, Task>, tasks': map<Id, Task>, ids: seq<Id>)
    requires InOrder(tasks, ids) && forall x :: Rank(tasks', x) == Rank(tasks, x)
    ensures InOrder(tasks', ids)
  {
  }

  /** What a move does: the record's stage, the destination column and the counts. */
  lemma AdvanceEffect(b: Board, id: Id, to: Column)
    requires WellFormed(b) && id in b.tasks
    ensures var (b', ok) := Advance(b, id, to);
      && ok && WellFormed(b')
      && b'.tasks == b.tasks[id := b.tasks[id].(stage := At(to))]
      && (forall c :: Ids(b', c) == if c == to then InsertId(b'.tasks, Retain(Ids(b, c), id), id)
                                    else Retain(Ids(b, c), id))
      && (forall c :: Count(b', c) == Count(b, c) - Listed(b.tasks, id, c) + (if c == to then 1 else 0))
  {
    var b2 := Unlisted(b, id, to);
    UnlistedEffect(b, id, to);
    PushFiles(b, b2, Push(b2, to, id), id, to);
    PushSort(b2, to, id);
  }

  lemma PushTimes(b: Board, c: Column, id: Id, x: Id, d: Column)
    ensures Times(Push(b, c, id), x, d) == Times(b, x, d) + (if x == id && d == c then 1 else 0)
  {
    assert Ids(Push(b, c, id), d) == Ids(b, d) + (if d == c then [id] else []);
  }

  lemma PushFiles(b: Board, b2: Board, b3: Board, id: Id, to: Column)
    requires Filed(b) && id in b.tasks
    requires forall c: Column :: c in b2.columns
    requires forall c :: Ids(b2, c) == Retain(Ids(b, c), id)
    requires b2.tasks == b.tasks[id := b.tasks[id].(stage := At(to))] && b3 == Push(b2, to, id)
    ensures Filed(b3)
  {
    hide Times, Listed, Retain;
    assert b3.tasks == b2.tasks && forall c: Column :: c in b3.columns;
    forall c, x ensures Times(b3, x, c) == Listed(b3.tasks, x, c) {
      PushFilesAt(b, b2, id, to, x, c);
    }
  }

  lemma PushFilesAt(b: Board, b2: Board, id: Id, to: Column, x: Id, c: Column)
    requires Filed(b) && id in b.tasks && Ids(b2, c) == Retain(Ids(b, c), id)
    requires b2.tasks == b.tasks[id := b.tasks[id].(stage := At(to))]
    ensures Times(Push(b2, to, id), x, c) == Listed(b2.tasks, x, c)
  {
    hide Push, Ids, Retain;
    assert Times(b, x, c) == Listed(b.tasks, x, c);
    PushTimes(b2, to, id, x, c);
    RetainTimes(b, b2, id, x, c);
  }

  lemma RetainTimes(b: Board, b2: Board, id: Id, x: Id, c: Column)
    requires Ids(b2, c) == Retain(Ids(b, c), id)
    ensures Times(b2, x, c) == if x == id then 0 else Times(b, x, c)
  {
    RetainMembers(Ids(b, c), id);
  }

  /** A moved task stands behind all tasks of equal priority; the others keep their order. */
  lemma AdvancePlaces(b: Board, id: Id, to: Column)
    requires WellFormed(b) && id in b.tasks
    ensures var (b', ok) := Advance(b, id, to);
      && ok && to in b'.columns && b'.tasks == b.tasks[id := b.tasks[id].(stage := At(to))]
      && Ids(b', to) == InsertId(b'.tasks, Retain(Ids(b, to), id), id)
  {
    AdvanceEffect(b, id, to);
  }

  lemma AdvanceUnknown(b: Board, id: Id, to: Column)
    requires WellFormed(b) && id !in b.tasks
    ensures Advance(b, id, to) == (b, false)
  {
    FindColumnIsStage(b, id);
  }

  lemma SetPriorityEffect(b: Board, id: Id, priority: Priority)
    requires WellFormed(b)
    ensures WellFormed(SetPriority(b, id, priority))
    ensures SetPriority(b, id, priority).tasks ==
      if id in b.tasks then b.tasks[id := b.tasks[id].(priority := priority)] else b.tasks
    ensures forall c :: Count(SetPriority(b, id, priority), c) == Count(b, c)
  {
    if id in b.tasks {
      var b1 := b.(tasks := b.tasks[id := b.tasks[id].(priority := priority)]);
      forall c, x ensures Times(b1, x, c) == Listed(b1.tasks, x, c) {
        assert Times(b, x, c) == Listed(b.tasks, x, c);
      }
      forall d | d != b1.tasks[id].Column()
        ensures InOrder(b1.tasks, Ids(b1, d))
      {
        assert Times(b, id, d) == 0;
        OrderElsewhere(b.tasks, b1.tasks, b1.columns[d], id);
      }
      SortColumnEffect(b1, b1.tasks[id].Column());
    }
  }

  lemma AddTaskEffect(b: Board, t: Task)
    requires WellFormed(b) && t.id !in b.tasks
    ensures var b' := AddTask(b, t); var c := t.Column();
      && WellFormed(b') && b'.tasks == b.tasks[t.id := t]
      && (forall d :: Count(b', d) == Count(b, d) + (if d == c then 1 else 0))
      && (forall d :: Ids(b', d) == if d == c then InsertId(b'.tasks, Ids(b, c), t.id) else Ids(b, d))
  {
    var c := t.Column();
    var b1 := b.(tasks := b.tasks[t.id := t]);
    forall d, x ensures Times(Push(b1, c, t.id), x, d) == Listed(b1.tasks, x, d) {
      PushTimes(b1, c, t.id, x, d);
      assert Times(b, x, d) == Listed(b.tasks, x, d);
    }
    forall d ensures InOrder(b1.tasks, Ids(b1, d)) {
      assert Times(b, t.id, d) == Listed(b.tasks, t.id, d);
      OrderElsewhere(b.tasks, b1.tasks, Ids(b, d), t.id);
    }
    PushSort(b1, c, t.id);
    assert AddTask(b, t) == SortColumn(Push(b1, c, t.id), c);
  }

  /** A record may change in every field the board does not index by. */
  lemma AmendEffect(b: Board, t: Task)
    requires WellFormed(b)
    requires t.id in b.tasks ==> t.stage == b.tasks[t.id].stage && t.priority == b.tasks[t.id].priority
    ensures WellFormed(Amend(b, t)) && Amend(b, t).columns == b.columns
  {
    var b' := Amend(b, t);
    forall c, x ensures Times(b', x, c) == Listed(b'.tasks, x, c) {
      assert Times(b, x, c) == Listed(b.tasks, x, c);
    }
    forall c ensures InOrder(b'.tasks, Ids(b', c)) {
      assert InOrder(b.tasks, Ids(b, c));
    }
  }

  /** A rework move sets the stage and the priority of one record and moves one task. */
  lemma ReworkEffect(b: Board, id: Id, to: Column)
    requires WellFormed(b) && id in b.tasks
    ensures var (b', ok) := Rework(b, id, to);
      && ok && WellFormed(b')
      && b'.tasks == b.tasks[id := b.tasks[id].(stage := At(to), priority := 0)]
      && (forall c :: Count(b', c) == Count(b, c) - Listed(b.tasks, id, c) + (if c == to then 1 else 0))
  {
    AdvanceEffect(b, id, to);
    SetPriorityEffect(Advance(b, id, to).0, id, 0);
  }

  /**
   * A reworked task goes behind every task of priority 0 in the target column, whatever its
   * priority was before, and the other tasks keep their order: rework is first in, first out.
   */
  lemma ReworkIsFifo(b: Board, id: Id, to: Column)
    requires WellFormed(b) && id in b.tasks
    ensures var b' := Rework(b, id, to).0;
      Ids(b', to) == InsertId(b'.tasks, Retain(Ids(b, to), id), id)
  {
    AdvancePlaces(b, id, to);
    ReworkedColumn(b, Advance(b, id, to).0, id, to);
  }

  lemma ReworkedColumn(b: Board, b1: Board, id: Id, to: Column)
    requires WellFormed(b) && id in b.tasks && to in b1.columns
    requires b1.tasks == b.tasks[id := b.tasks[id].(stage := At(to))]
    requires Ids(b1, to) == InsertId(b1.tasks, Retain(Ids(b, to), id), id)
    ensures var b' := SetPriority(b1, id, 0);
      Ids(b', to) == InsertId(b'.tasks, Retain(Ids(b, to), id), id)
  {
    ReworkRest(b, b1.tasks, id, to);
    ToFront(b1, Retain(Ids(b, to), id), id, to);
  }

  lemma ToFront(b: Board, rest: seq<Id>, id: Id, c: Column)
    requires id in b.tasks && b.tasks[id].Column() == c && c in b.columns
    requires id !in rest && InOrder(b.tasks, rest) && Ids(b, c) == InsertId(b.tasks, rest, id)
    ensures Ids(SetPriority(b, id, 0), c) == InsertId(SetPriority(b, id, 0).tasks, rest, id)
  {
    ResortToFront(b.tasks, rest, id);
    SetPriorityColumn(b, id, 0);
  }

  lemma SetPriorityColumn(b: Board, id: Id, priority: Priority)
    requires id in b.tasks && b.tasks[id].Column() in b.columns
    ensures var b' := SetPriority(b, id, priority); var c := b.tasks[id].Column();
      && b'.tasks == b.tasks[id := b.tasks[id].(priority := priority)]
      && Ids(b', c) == SortIds(b'.tasks, Ids(b, c))
  {
  }

  lemma ReworkRest(b: Board, tasks: map<Id, Task>, id: Id, to: Column)
    requires WellFormed(b) && id in b.tasks
    requires tasks == b.tasks[id := b.tasks[id].(stage := At(to))]
    ensures id !in Retain(Ids(b, to), id) && InOrder(tasks, Retain(Ids(b, to), id))
  {
    var rest := Retain(Ids(b, to), id);
    RetainMembers(Ids(b, to), id);
    assert multiset(rest)[id] == 0;
    RetainInOrder(b.tasks, Ids(b, to), id);
    OrderElsewhere(b.tasks, tasks, rest, id);
  }

  /** Re-sorting after a priority has dropped to 0 moves the task behind the other tasks of priority 0. */
  lemma ResortToFront(tasks: map<Id, Task>, rest: seq<Id>, id: Id)
    requires id in tasks && id !in rest && InOrder(tasks, rest)
    ensures var tasks' := tasks[id := tasks[id].(priority := 0)];
      SortIds(tasks', InsertId(tasks, rest, id)) == InsertId(tasks', rest, id)
  {
    var tasks' := tasks[id := tasks[id].(priority := 0)];
    OrderElsewhere(tasks, tasks', rest, id);
    InOrderIsSorted(tasks', rest);
    PriorityIsTotal(tasks');
    BehindRanks(tasks, rest, id);
    Sorting.Resort(ByPriority(tasks), ByPriority(tasks'), rest, id);
  }

  lemma BehindRanks(tasks: map<Id, Task>, rest: seq<Id>, id: Id)
    requires id in tasks && id !in rest && InOrder(tasks, rest)
    ensures forall i :: Sorting.Position(ByPriority(tasks), rest, id) <= i < |rest| ==>
      Rank(tasks[id := tasks[id].(priority := 0)], rest[i]) > 0
  {
    var p := Sorting.Position(ByPriority(tasks), rest, id);
    forall i | p <= i < |rest| ensures Rank(tasks[id := tasks[id].(priority := 0)], rest[i]) > 0 {
      assert rest[i] != id;
      assert !ByPriority(tasks)(rest[p], id);
    }
  }

  // ── Picking work and booting ──────────────────────────────────────────────

  predicate Eligible(b: Board, id: Id) {
    id in b.tasks && Ready(b, b.tasks[id])
  }

  ghost predicate FirstEligible(b: Board, ids: seq<Id>, k: nat) {
    k < |ids| && Eligible(b, ids[k]) && forall i :: 0 <= i < k ==> !Eligible(b, ids[i])
  }

  /** The pick is the first task of the list whose blockers are all Done. */
  lemma {:induction false} FirstReadyIsFirst(b: Board, ids: seq<Id>) returns (k: nat)
    ensures FirstReady(b, ids).Some? ==> FirstEligible(b, ids, k) && FirstReady(b, ids).value == b.tasks[ids[k]]
    ensures FirstReady(b, ids).None? ==> forall i :: 0 <= i < |ids| ==> !Eligible(b, ids[i])
  {
    k := 0;
    if ids != [] && !Eligible(b, ids[0]) {
      k := FirstReadyIsFirst(b, ids[1..]);
      k := k + 1;
      forall i | 0 < i < |ids| ensures ids[i] == ids[1..][i - 1] {}
    }
  }

  lemma MembersOf(b: Board, c: Column)
    requires Filed(b)
    ensures forall id :: id in Ids(b, c) <==> id in b.tasks && b.tasks[id].Column() == c
  {
    forall id ensures id in Ids(b, c) <==> id in b.tasks && b.tasks[id].Column() == c {
      assert Times(b, id, c) == Listed(b.tasks, id, c);
    }
  }

  /**
   * On any board a picked task is listed in the column and each of its blockers is known and Done; when
   * nothing is picked every listed task has a blocker that is unknown or not Done.
   */
  lemma PickIsUnblocked(b: Board, c: Column)
    ensures match NextUnblocked(b, c)
      case None =>
        forall id :: id in Ids(b, c) && id in b.tasks ==>
          exists blocker :: blocker in b.tasks[id].blockedBy && !(blocker in b.tasks && b.tasks[blocker].stage == At(Done))
      case Some(t) =>
        && (exists id :: id in Ids(b, c) && id in b.tasks && b.tasks[id] == t)
        && forall blocker :: blocker in t.blockedBy ==> blocker in b.tasks && b.tasks[blocker].stage == At(Done)
  {
    var ids := Ids(b, c);
    var k := FirstReadyIsFirst(b, ids);
    if NextUnblocked(b, c).Some? {
      assert ids[k] in ids && Eligible(b, ids[k]);
    } else {
      forall id | id in ids && id in b.tasks
        ensures exists blocker :: blocker in b.tasks[id].blockedBy && !(blocker in b.tasks && b.tasks[blocker].stage == At(Done))
      {
        var i :| 0 <= i < |ids| && ids[i] == id;
        assert !Eligible(b, ids[i]);
      }
    }
  }

  /** A sorted column is in order of priority number, and what has no record sorts behind what has. */
  lemma SortedColumn(tasks: map<Id, Task>, ids: seq<Id>, i: nat, j: nat)
    requires i < j < |SortIds(tasks, ids)|
    ensures var x, y := SortIds(tasks, ids)[i], SortIds(tasks, ids)[j];
      && (x in tasks && y in tasks ==> tasks[x].priority <= tasks[y].priority)
      && (x !in tasks && y in tasks ==> tasks[y].priority == 0xFFFF_FFFF)
  {
    PriorityIsTotal(tasks);
    Sorting.SortStable(ByPriority(tasks), ids);
    assert ByPriority(tasks)(SortIds(tasks, ids)[i], SortIds(tasks, ids)[j]);
  }

  /** On a well-formed board the picked task is the best-ranked ready task whose stage is in the column. */
  lemma PickIsBestReady(b: Board, c: Column)
    requires WellFormed(b)
    ensures match NextUnblocked(b, c)
      case None => forall id :: id in b.tasks && b.tasks[id].Column() == c ==> !Ready(b, b.tasks[id])
      case Some(t) => t.id in b.tasks && t == b.tasks[t.id] && t.Column() == c && Ready(b, t)
                      && forall id :: id in b.tasks && b.tasks[id].Column() == c && Ready(b, b.tasks[id])
                                      ==> t.priority <= b.tasks[id].priority
    ensures match NextUnblocked(b, c)
      case None =>
        forall id :: id in b.tasks && b.tasks[id].Column() == c ==>
          exists blocker :: blocker in b.tasks[id].blockedBy && !(blocker in b.tasks && b.tasks[blocker].stage == At(Done))
      case Some(t) => forall blocker :: blocker in t.blockedBy ==> blocker in b.tasks && b.tasks[blocker].stage == At(Done)
  {
    PickIsUnblocked(b, c);
    var ids := Ids(b, c);
    var k := FirstReadyIsFirst(b, ids);
    MembersOf(b, c);
    forall id | id in b.tasks && b.tasks[id].Column() == c && Ready(b, b.tasks[id])
      ensures NextUnblocked(b, c).Some? && Rank(b.tasks, ids[k]) <= Rank(b.tasks, id)
    {
      var j :| 0 <= j < |ids| && ids[j] == id;
      assert Eligible(b, ids[j]) && InOrder(b.tasks, ids);
    }
    assert NextUnblocked(b, c).Some? ==> ids[k] in ids;
  }

  predicate DistinctIds(tasks: seq<Task>) {
    forall i, j :: 0 <= i < j < |tasks| ==> tasks[i].id != tasks[j].id
  }

  function TaskMap(tasks: seq<Task>): map<Id, Task> {
    if tasks == [] then map[]
    else TaskMap(tasks[..|tasks| - 1])[tasks[|tasks| - 1].id := tasks[|tasks| - 1]]
  }

  lemma {:induction false} TaskMapKeys(tasks: seq<Task>)
    ensures forall id :: id in TaskMap(tasks) <==> exists i :: 0 <= i < |tasks| && tasks[i].id == id
    ensures DistinctIds(tasks) ==> forall i :: 0 <= i < |tasks| ==> TaskMap(tasks)[tasks[i].id] == tasks[i]
  {
    if tasks != [] {
      var init := tasks[..|tasks| - 1];
      TaskMapKeys(init);
      assert forall i :: 0 <= i < |init| ==> init[i] == tasks[i];
    }
  }

  lemma {:induction false} PlaceFiles(tasks: seq<Task>)
    requires DistinctIds(tasks)
    ensures Filed(Place(tasks)) && Place(tasks).tasks == TaskMap(tasks)
  {
    if tasks == [] {
      assert forall c: Column :: c in ALL_COLUMNS by { forall c: Column ensures c in ALL_COLUMNS { NeighboursInOrder(c); } }
    } else {
      var init, t := tasks[..|tasks| - 1], tasks[|tasks| - 1];
      PlaceFiles(init);
      TaskMapKeys(init);
      assert t.id !in TaskMap(init);
      var b, b' := Place(init), Place(tasks);
      forall id, c ensures Times(b', id, c) == Listed(b'.tasks, id, c) {
        assert Times(b, id, c) == Listed(b.tasks, id, c);
        PushTimes(b, t.Column(), t.id, id, c);
      }
    }
  }

  lemma {:induction false} SortColumnsEffect(b: Board, order: seq<Column>)
    requires Filed(b)
    ensures var b' := SortColumns(b, order);
      && Filed(b') && b'.tasks == b.tasks
      && forall c :: c in order ==> InOrder(b.tasks, Ids(b', c))
  {
    if order != [] {
      var init, c := order[..|order| - 1], order[|order| - 1];
      SortColumnsEffect(b, init);
      SortColumnFiled(SortColumns(b, init), c);
      assert forall d :: d in order ==> d in init || d == c;
    }
  }

  /** The boot projection of records with distinct ids is well formed and holds exactly these records. */
  lemma FromTasksEffect(tasks: seq<Task>)
    requires DistinctIds(tasks)
    ensures WellFormed(FromTasks(tasks)) && FromTasks(tasks).tasks == TaskMap(tasks)
  {
    PlaceFiles(tasks);
    SortColumnsEffect(Place(tasks), ALL_COLUMNS);
    forall c: Column ensures c in ALL_COLUMNS { NeighboursInOrder(c); }
  }
}
