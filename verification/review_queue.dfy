/** The queue of items waiting for a human, ordered by kind, column, priority and arrival stamp. */
module ReviewQueues {
  import opened Options
  import opened Columns
  import opened Kanban
  import Sorting = StableSorting

  datatype ReviewKind =
    | AgentQuestion(question: string)
    | BufferApproval(column: Column, taskPriority: Priority)

  datatype ReviewItem = ReviewItem(id: Id, taskId: Id, kind: ReviewKind, description: string, createdAt: int)

  datatype Key = Key(kind: nat, column: nat, priority: Priority, stamp: int)

  /** Questions first; then the rightmost buffer, the smallest priority number and the earliest stamp. */
  function SortKey(item: ReviewItem): Key {
    match item.kind
    case AgentQuestion(_) => Key(0, 0, 0, item.createdAt)
    case BufferApproval(column, priority) => Key(1, |ALL_COLUMNS| - Index(column), priority, item.createdAt)
  }

  predicate KeyLe(a: Key, b: Key) {
    if a.kind != b.kind then a.kind < b.kind
    else if a.column != b.column then a.column < b.column
    else if a.priority != b.priority then a.priority < b.priority
    else a.stamp <= b.stamp
  }

  function ByKey(): (ReviewItem, ReviewItem) -> bool {
    (x: ReviewItem, y: ReviewItem) => KeyLe(SortKey(x), SortKey(y))
  }

  lemma ByKeyIsTotal()
    ensures Sorting.TotalPreorder(ByKey())
  {
  }

  lemma EquivalentMeansSameKey()
    ensures forall x, y :: ByKey()(x, y) && ByKey()(y, x) <==> SortKey(x) == SortKey(y)
  {
  }

  // ── Queue operations on values ────────────────────────────────────────────

  type Queue = seq<ReviewItem>

  function Enqueue(q: Queue, item: ReviewItem): Queue {
    Sorting.Insert(ByKey(), q, item)
  }

  /** Index of the first item satisfying the test, or the length. */
  function FirstWithId(q: Queue, id: Id): (k: nat)
    ensures k <= |q| && (k < |q| ==> q[k].id == id) && forall i :: 0 <= i < k ==> q[i].id != id
  {
    if q == [] || q[0].id == id then 0 else 1 + FirstWithId(q[1..], id)
  }

  function FirstForTask(q: Queue, taskId: Id): (k: nat)
    ensures k <= |q| && (k < |q| ==> q[k].taskId == taskId) && forall i :: 0 <= i < k ==> q[i].taskId != taskId
  {
    if q == [] || q[0].taskId == taskId then 0 else 1 + FirstForTask(q[1..], taskId)
  }

  function RemoveAt(q: Queue, k: nat): Queue {
    if k < |q| then q[..k] + q[k + 1..] else q
  }

  function ItemAt(q: Queue, k: nat): Option<ReviewItem> {
    if k < |q| then Some(q[k]) else None
  }

  function Dequeue(q: Queue, id: Id): (Queue, Option<ReviewItem>) {
    var k := FirstWithId(q, id);
    (RemoveAt(q, k), ItemAt(q, k))
  }

  function DequeueByTask(q: Queue, taskId: Id): (Queue, Option<ReviewItem>) {
    var k := FirstForTask(q, taskId);
    (RemoveAt(q, k), ItemAt(q, k))
  }

  function QuestionCount(q: Queue): nat {
    if q == [] then 0
    else QuestionCount(q[..|q| - 1]) + (if q[|q| - 1].kind.AgentQuestion? then 1 else 0)
  }

  // ── The queue is the stable sort of the live items in arrival order ───────

  datatype QueueOp = Arrive(item: ReviewItem) | TakeId(id: Id) | TakeTask(taskId: Id)

  function Operate(q: Queue, op: QueueOp): Queue {
    match op
    case Arrive(item) => Enqueue(q, item)
    case TakeId(id) => Dequeue(q, id).0
    case TakeTask(taskId) => DequeueByTask(q, taskId).0
  }

  function Without(s: seq<ReviewItem>, id: Id): seq<ReviewItem> {
    if s == [] then []
    else Without(s[..|s| - 1], id) + (if s[|s| - 1].id == id then [] else [s[|s| - 1]])
  }

  /** The item a dequeue takes, if any. */
  function Taken(q: Queue, op: QueueOp): Option<ReviewItem> {
    match op
    case Arrive(_) => None
    case TakeId(id) => Dequeue(q, id).1
    case TakeTask(taskId) => DequeueByTask(q, taskId).1
  }

  /** The queue after a sequence of operations on an empty queue. */
  function Run(ops: seq<QueueOp>): Queue {
    if ops == [] then [] else Operate(Run(ops[..|ops| - 1]), ops[|ops| - 1])
  }

  /** The items not yet taken, in the order they arrived. */
  function Live(ops: seq<QueueOp>): seq<ReviewItem> {
    if ops == [] then []
    else
      var init, op := ops[..|ops| - 1], ops[|ops| - 1];
      if op.Arrive? then Live(init) + [op.item]
      else if Taken(Run(init), op).Some? then Without(Live(init), Taken(Run(init), op).value.id)
      else Live(init)
  }

  /** Every arriving item has an id no earlier arrival had. */
  ghost predicate FreshIds(ops: seq<QueueOp>) {
    forall i, j :: 0 <= i < j < |ops| && ops[i].Arrive? && ops[j].Arrive? ==> ops[i].item.id != ops[j].item.id
  }

  ghost predicate DistinctItems(s: seq<ReviewItem>) {
    forall i, j :: 0 <= i < j < |s| ==> s[i].id != s[j].id
  }

  lemma {:induction false} WithoutMembers(s: seq<ReviewItem>, id: Id)
    ensures forall x :: x in Without(s, id) <==> x in s && x.id != id
  {
    if s != [] {
      WithoutMembers(s[..|s| - 1], id);
      assert s == s[..|s| - 1] + [s[|s| - 1]];
    }
  }

  lemma {:induction false} WithoutConcat(a: seq<ReviewItem>, b: seq<ReviewItem>, id: Id)
    ensures Without(a + b, id) == Without(a, id) + Without(b, id)
  {
    if b == [] {
      assert a + b == a;
    } else {
      WithoutConcat(a, b[..|b| - 1], id);
      assert (a + b)[..|a + b| - 1] == a + b[..|b| - 1];
    }
  }

  lemma {:induction false} WithoutAbsent(s: seq<ReviewItem>, id: Id)
    requires forall i :: 0 <= i < |s| ==> s[i].id != id
    ensures Without(s, id) == s
  {
    if s != [] {
      WithoutAbsent(s[..|s| - 1], id);
    }
  }

  /** Among distinct ids, removing one position is removing one id. */
  lemma RemoveIsWithout(q: Queue, k: nat)
    requires DistinctItems(q) && k < |q|
    ensures RemoveAt(q, k) == Without(q, q[k].id)
  {
    hide Without;
    var id, front, back := q[k].id, q[..k], q[k + 1..];
    assert q == (front + [q[k]]) + back;
    WithoutConcat(front + [q[k]], back, id);
    WithoutAppend(front, q[k], id);
    forall i | 0 <= i < |front| ensures front[i].id != id { assert front[i] == q[i]; }
    forall i | 0 <= i < |back| ensures back[i].id != id { assert back[i] == q[k + 1 + i]; }
    WithoutAbsent(front, id);
    WithoutAbsent(back, id);
  }

  lemma WithoutAppend(s: seq<ReviewItem>, x: ReviewItem, id: Id)
    ensures Without(s + [x], id) == if x.id == id then Without(s, id) else Without(s, id) + [x]
  {
    assert (s + [x])[..|s|] == s;
  }

  lemma {:induction false} WithoutClass(s: seq<ReviewItem>, id: Id, y: ReviewItem)
    ensures Sorting.Class(ByKey(), Without(s, id), y) == Without(Sorting.Class(ByKey(), s, y), id)
  {
    if s != [] {
      var init, last := s[..|s| - 1], s[|s| - 1];
      WithoutClass(init, id, y);
      assert s == init + [last];
      WithoutAppend(init, last, id);
      var c := Sorting.Class(ByKey(), init, y);
      Sorting.ClassAppend(ByKey(), init, last, y);
      Sorting.ClassAppend(ByKey(), Without(init, id), last, y);
      WithoutAppend(c, last, id);
      assert c + [] == c;
    }
  }

  lemma {:induction false} WithoutSorted(s: seq<ReviewItem>, id: Id)
    requires Sorting.Sorted(ByKey(), s)
    ensures Sorting.Sorted(ByKey(), Without(s, id))
  {
    if s != [] {
      var init, last := s[..|s| - 1], s[|s| - 1];
      WithoutSorted(init, id);
      WithoutMembers(init, id);
      var rest := Without(init, id);
      forall i | 0 <= i < |rest| ensures ByKey()(rest[i], last) {
        assert rest[i] in init;
        var k :| 0 <= k < |init| && init[k] == rest[i];
        assert s[k] == rest[i];
      }
    }
  }

  lemma {:induction false} WithoutDistinct(s: seq<ReviewItem>, id: Id)
    requires DistinctItems(s)
    ensures DistinctItems(Without(s, id))
  {
    if s != [] {
      var init, last := s[..|s| - 1], s[|s| - 1];
      WithoutDistinct(init, id);
      WithoutMembers(init, id);
      var rest := Without(init, id);
      forall i | 0 <= i < |rest| ensures rest[i].id != last.id {
        assert rest[i] in init;
        var k :| 0 <= k < |init| && init[k] == rest[i];
        assert s[k] == rest[i];
      }
    }
  }

  /** What one operation keeps, for a queue that is the stable sort of its live items. */
  lemma TakeKeepsSort(q: Queue, live: seq<ReviewItem>, k: nat)
    requires Sorting.StableSortOf(ByKey(), q, live) && DistinctItems(q) && k < |q|
    ensures Sorting.StableSortOf(ByKey(), RemoveAt(q, k), Without(live, q[k].id))
    ensures DistinctItems(RemoveAt(q, k))
  {
    var id := q[k].id;
    RemoveIsWithout(q, k);
    WithoutSorted(q, id);
    WithoutDistinct(q, id);
    forall y ensures Sorting.Class(ByKey(), Without(q, id), y) == Sorting.Class(ByKey(), Without(live, id), y) {
      WithoutClass(q, id, y);
      WithoutClass(live, id, y);
    }
  }

  lemma ArriveKeepsSort(q: Queue, live: seq<ReviewItem>, item: ReviewItem)
    requires Sorting.StableSortOf(ByKey(), q, live)
    ensures Sorting.StableSortOf(ByKey(), Enqueue(q, item), live + [item])
  {
    ByKeyIsTotal();
    Sorting.InsertStable(ByKey(), q, item);
    forall y ensures Sorting.Class(ByKey(), Enqueue(q, item), y) == Sorting.Class(ByKey(), live + [item], y) {
      Sorting.ClassAppend(ByKey(), q, item, y);
      Sorting.ClassAppend(ByKey(), live, item, y);
    }
  }

  lemma EnqueueMembers(q: Queue, item: ReviewItem)
    ensures forall x :: x in Enqueue(q, item) <==> x in q || x == item
    ensures DistinctItems(q) && (forall x :: x in q ==> x.id != item.id) ==> DistinctItems(Enqueue(q, item))
  {
    var p := Sorting.Position(ByKey(), q, item);
    var r := Enqueue(q, item);
    assert forall i :: 0 <= i < |r| ==> r[i] == if i < p then q[i] else if i == p then item else q[i - 1];
    forall x | x in q || x == item ensures x in r {
      if x in q {
        var i :| 0 <= i < |q| && q[i] == x;
        assert x == if i < p then r[i] else r[i + 1];
      } else {
        assert r[p] == x;
      }
    }
  }

  ghost predicate Arrived(ops: seq<QueueOp>, x: ReviewItem) {
    exists i :: 0 <= i < |ops| && ops[i] == Arrive(x)
  }

  /**
   * After any operations on an empty queue the queue is the stable sort, by key, of the live
   * items in arrival order: sorted, a permutation, and first in first out among equal keys.
   */
  lemma {:induction false} QueueIsStableSort(ops: seq<QueueOp>)
    requires FreshIds(ops)
    ensures Sorting.StableSortOf(ByKey(), Run(ops), Live(ops))
    ensures DistinctItems(Run(ops)) && forall x :: x in Run(ops) ==> Arrived(ops, x)
  {
    if ops != [] {
      var init, op := ops[..|ops| - 1], ops[|ops| - 1];
      QueueIsStableSort(init);
      var q := Run(init);
      forall x | Arrived(init, x) ensures Arrived(ops, x) {
        var i :| 0 <= i < |init| && init[i] == Arrive(x);
        assert ops[i] == Arrive(x);
      }
      match op {
        case Arrive(item) =>
          ArriveKeepsSort(q, Live(init), item);
          assert ops[|ops| - 1] == Arrive(item);
          forall x | x in q ensures x.id != item.id {
            var i :| 0 <= i < |init| && init[i] == Arrive(x);
            assert ops[i] == init[i];
          }
          EnqueueMembers(q, item);
        case TakeId(id) =>
          TakeOne(q, Live(init), FirstWithId(q, id));
        case TakeTask(taskId) =>
          TakeOne(q, Live(init), FirstForTask(q, taskId));
      }
    }
  }

  lemma TakeOne(q: Queue, live: seq<ReviewItem>, k: nat)
    requires Sorting.StableSortOf(ByKey(), q, live) && DistinctItems(q)
    ensures var r := RemoveAt(q, k);
      && Sorting.StableSortOf(ByKey(), r, if k < |q| then Without(live, q[k].id) else live)
      && DistinctItems(r) && (forall x :: x in r ==> x in q)
  {
    if k < |q| {
      TakeKeepsSort(q, live, k);
      RemoveIsWithout(q, k);
      WithoutMembers(q, q[k].id);
    }
  }

  /** The queue is determined by the live items, holds each of them once and starts with all questions. */
  lemma QueueFromLive(ops: seq<QueueOp>)
    requires FreshIds(ops)
    ensures Run(ops) == Sorting.Sort(ByKey(), Live(ops))
    ensures multiset(Run(ops)) == multiset(Live(ops))
    ensures forall i :: 0 <= i < |Run(ops)| ==> (Run(ops)[i].kind.AgentQuestion? <==> i < QuestionCount(Run(ops)))
  {
    QueueIsStableSort(ops);
    ByKeyIsTotal();
    Sorting.SortStable(ByKey(), Live(ops));
    Sorting.StableSortUnique(ByKey(), Run(ops), Sorting.Sort(ByKey(), Live(ops)));
    Sorting.SameClassesSameMembers(ByKey(), Run(ops), Live(ops));
    QuestionsArePrefix(Run(ops));
  }

  lemma {:induction false} QuestionsArePrefix(q: Queue)
    requires Sorting.Sorted(ByKey(), q)
    ensures QuestionCount(q) <= |q|
    ensures forall i :: 0 <= i < |q| ==> (q[i].kind.AgentQuestion? <==> i < QuestionCount(q))
  {
    if q != [] {
      var init, last := q[..|q| - 1], q[|q| - 1];
      QuestionsArePrefix(init);
      forall i | 0 <= i < |init| ensures init[i] == q[i] && (last.kind.AgentQuestion? ==> q[i].kind.AgentQuestion?) {
        assert ByKey()(q[i], last);
      }
    }
  }

  /**
   * Taking by task takes, of all the task's live items, one with the least key; so a question
   * goes before an approval of the same task.
   */
  lemma TakesLeastOfTask(q: Queue, taskId: Id)
    requires Sorting.Sorted(ByKey(), q)
    ensures match DequeueByTask(q, taskId).1
      case None => forall x :: x in q ==> x.taskId != taskId
      case Some(item) =>
        && item in q && item.taskId == taskId
        && (forall x :: x in q && x.taskId == taskId ==> KeyLe(SortKey(item), SortKey(x)))
        && ((exists x :: x in q && x.taskId == taskId && x.kind.AgentQuestion?) ==> item.kind.AgentQuestion?)
  {
    var k := FirstForTask(q, taskId);
    forall x | x in q && x.taskId == taskId ensures k < |q| && KeyLe(SortKey(q[k]), SortKey(x)) {
      var j :| 0 <= j < |q| && q[j] == x;
      assert k == j || ByKey()(q[k], q[j]);
    }
  }

  // ── The order a human sees ────────────────────────────────────────────────

  /** Questions in order of arrival, then approvals: rightmost buffer, smallest priority number, arrival. */
  predicate SeenBefore(x: ReviewItem, y: ReviewItem) {
    match (x.kind, y.kind)
    case (AgentQuestion(_), AgentQuestion(_)) => x.createdAt <= y.createdAt
    case (AgentQuestion(_), BufferApproval(_, _)) => true
    case (BufferApproval(_, _), AgentQuestion(_)) => false
    case (BufferApproval(c, p), BufferApproval(d, r)) =>
      Index(c) > Index(d) || (c == d && (p < r || (p == r && x.createdAt <= y.createdAt)))
  }

  ghost predicate InSeenOrder(q: Queue) {
    forall i, j :: 0 <= i < j < |q| ==> SeenBefore(q[i], q[j])
  }

  /** The key says exactly that. */
  lemma KeyMeansSeen(x: ReviewItem, y: ReviewItem)
    ensures KeyLe(SortKey(x), SortKey(y)) <==> SeenBefore(x, y)
  {
    if x.kind.BufferApproval? && y.kind.BufferApproval? {
      NeighboursInOrder(x.kind.column);
      NeighboursInOrder(y.kind.column);
    }
  }

  lemma SortedMeansSeen(q: Queue)
    ensures Sorting.Sorted(ByKey(), q) <==> InSeenOrder(q)
  {
    hide SeenBefore, SortKey, KeyLe;
    forall i, j | 0 <= i < j < |q| ensures ByKey()(q[i], q[j]) <==> SeenBefore(q[i], q[j]) {
      KeyMeansSeen(q[i], q[j]);
    }
  }

  /** Every operation keeps the queue in that order, whatever ids the items have. */
  lemma OperateKeepsOrder(q: Queue, op: QueueOp)
    requires InSeenOrder(q)
    ensures InSeenOrder(Operate(q, op))
  {
    hide SeenBefore;
    if op.Arrive? {
      SortedMeansSeen(q);
      ByKeyIsTotal();
      Sorting.InsertStable(ByKey(), q, op.item);
      SortedMeansSeen(Enqueue(q, op.item));
    }
  }

  lemma {:induction false} RunInOrder(ops: seq<QueueOp>)
    ensures InSeenOrder(Run(ops))
  {
    if ops != [] {
      RunInOrder(ops[..|ops| - 1]);
      OperateKeepsOrder(Run(ops[..|ops| - 1]), ops[|ops| - 1]);
    }
  }

  /**
   * After any operations no approval is in front of a question, questions are in order of arrival, no
   * approval is in front of one for a buffer further right, and those for one buffer are in order of
   * priority and then of arrival.
   */
  lemma HumanOrder(ops: seq<QueueOp>, i: nat, j: nat)
    requires i < j < |Run(ops)|
    ensures var x, y := Run(ops)[i], Run(ops)[j];
      && (y.kind.AgentQuestion? ==> x.kind.AgentQuestion? && x.createdAt <= y.createdAt)
      && (x.kind.BufferApproval? ==>
            && y.kind.BufferApproval?
            && Index(x.kind.column) >= Index(y.kind.column)
            && (x.kind.column == y.kind.column ==>
                  && x.kind.taskPriority <= y.kind.taskPriority
                  && (x.kind.taskPriority == y.kind.taskPriority ==> x.createdAt <= y.createdAt)))
  {
    hide Run;
    RunInOrder(ops);
    assert SeenBefore(Run(ops)[i], Run(ops)[j]);
  }

  /** What a reader sees who repeatedly peeks at the first item and dequeues it by its id. */
  function Drain(q: Queue): seq<ReviewItem>
    decreases |q|
  {
    if q == [] then []
    else
      var rest := Dequeue(q, q[0].id).0;
      [q[0]] + Drain(rest)
  }

  lemma {:induction false} DrainIsQueue(q: Queue)
    ensures Drain(q) == q
  {
    if q != [] {
      DrainIsQueue(q[1..]);
      assert Dequeue(q, q[0].id).0 == q[1..];
    }
  }

  // ── Boot ──────────────────────────────────────────────────────────────────

  /** The queue rebuilt at boot from the unresolved items, in the order the store returns them. */
  function Rebuild(items: seq<ReviewItem>): Queue {
    if items == [] then [] else Enqueue(Rebuild(items[..|items| - 1]), items[|items| - 1])
  }

  lemma {:induction false} RebuildInOrder(items: seq<ReviewItem>)
    ensures InSeenOrder(Rebuild(items))
  {
    if items != [] {
      RebuildInOrder(items[..|items| - 1]);
      OperateKeepsOrder(Rebuild(items[..|items| - 1]), Arrive(items[|items| - 1]));
    }
  }

  lemma {:induction false} RebuildIsSort(items: seq<ReviewItem>)
    ensures Rebuild(items) == Sorting.Sort(ByKey(), items)
  {
    if items != [] {
      RebuildIsSort(items[..|items| - 1]);
    }
  }

  ghost predicate KeysTellApart(items: seq<ReviewItem>) {
    forall x, y :: x in items && y in items && SortKey(x) == SortKey(y) ==> x == y
  }

  ghost predicate OrderFree(items: seq<ReviewItem>) {
    forall a, b :: Reorders(a, items) && Reorders(b, items) ==> Rebuild(a) == Rebuild(b)
  }

  ghost predicate Reorders(a: seq<ReviewItem>, items: seq<ReviewItem>) {
    multiset(a) == multiset(items)
  }

  /** When keys tell items apart, a class is that many copies of one item. */
  lemma ClassOfEqual(s: seq<ReviewItem>, x: ReviewItem, y: ReviewItem)
    requires KeysTellApart(s) && x in s && SortKey(x) == SortKey(y)
    ensures Sorting.Class(ByKey(), s, y) == seq(multiset(s)[x], i => x)
  {
    var c := Sorting.Class(ByKey(), s, y);
    Sorting.ClassCounts(ByKey(), s, x);
    SameClass(s, x, y);
    forall i | 0 <= i < |c| ensures c[i] == x {
      ClassHasKey(s, c[i], y);
    }
    AllSame(c, x);
  }

  lemma ClassHasKey(s: seq<ReviewItem>, x: ReviewItem, y: ReviewItem)
    requires x in Sorting.Class(ByKey(), s, y)
    ensures x in s && SortKey(x) == SortKey(y)
  {
    EquivalentMeansSameKey();
    Sorting.ClassMembers(ByKey(), s, y);
  }

  lemma {:induction false} SameClass(s: seq<ReviewItem>, x: ReviewItem, y: ReviewItem)
    requires SortKey(x) == SortKey(y)
    ensures Sorting.Class(ByKey(), s, x) == Sorting.Class(ByKey(), s, y)
  {
    if s != [] {
      SameClass(s[..|s| - 1], x, y);
    }
  }

  lemma {:induction false} AllSame(s: seq<ReviewItem>, x: ReviewItem)
    requires forall i :: 0 <= i < |s| ==> s[i] == x
    ensures multiset(s)[x] == |s|
  {
    if s != [] {
      AllSame(s[..|s| - 1], x);
      assert s == s[..|s| - 1] + [s[|s| - 1]];
    }
  }

  lemma SameMembers(a: seq<ReviewItem>, b: seq<ReviewItem>)
    requires multiset(a) == multiset(b)
    ensures forall x :: x in a <==> x in b
  {
    forall x ensures x in a <==> x in b {
      assert x in multiset(a) <==> x in multiset(b);
    }
  }

  lemma SameClassEverywhere(a: seq<ReviewItem>, b: seq<ReviewItem>, y: ReviewItem)
    requires multiset(a) == multiset(b) && KeysTellApart(a) && KeysTellApart(b)
    ensures Sorting.Class(ByKey(), a, y) == Sorting.Class(ByKey(), b, y)
  {
    SameMembers(a, b);
    if x :| x in a && SortKey(x) == SortKey(y) {
      ClassOfEqual(a, x, y);
      ClassOfEqual(b, x, y);
    } else {
      NoClass(a, y);
      NoClass(b, y);
    }
  }

  lemma NoClass(s: seq<ReviewItem>, y: ReviewItem)
    requires forall x :: x in s ==> SortKey(x) != SortKey(y)
    ensures Sorting.Class(ByKey(), s, y) == []
  {
    EquivalentMeansSameKey();
    Sorting.ClassEmpty(ByKey(), s, y);
  }

  lemma RebuildSame(a: seq<ReviewItem>, b: seq<ReviewItem>)
    requires multiset(a) == multiset(b) && KeysTellApart(a)
    ensures Rebuild(a) == Rebuild(b)
  {
    SameMembers(a, b);
    ByKeyIsTotal();
    RebuildIsSort(a);
    RebuildIsSort(b);
    Sorting.SortStable(ByKey(), a);
    Sorting.SortStable(ByKey(), b);
    forall y ensures Sorting.Class(ByKey(), a, y) == Sorting.Class(ByKey(), b, y) {
      SameClassEverywhere(a, b, y);
    }
    Sorting.StableSortUnique(ByKey(), Rebuild(a), Rebuild(b));
  }

  /** Two different items with one key make the rebuilt queue depend on the order. */
  lemma RebuildDiffers(rest: seq<ReviewItem>, x: ReviewItem, y: ReviewItem)
    requires x != y && SortKey(x) == SortKey(y)
    ensures Rebuild([x, y] + rest) != Rebuild([y, x] + rest)
  {
    HeadOfClass([x, y] + rest, [y] + rest, x, x);
    HeadOfClass([y, x] + rest, [x] + rest, y, x);
  }

  lemma HeadOfClass(s: seq<ReviewItem>, rest: seq<ReviewItem>, first: ReviewItem, y: ReviewItem)
    requires s == [first] + rest && SortKey(first) == SortKey(y)
    ensures Sorting.Class(ByKey(), Rebuild(s), y) != [] && Sorting.Class(ByKey(), Rebuild(s), y)[0] == first
  {
    RebuildClass(s, y);
    FirstOfClass(rest, first, y);
  }

  lemma RebuildClass(s: seq<ReviewItem>, y: ReviewItem)
    ensures Sorting.Class(ByKey(), Rebuild(s), y) == Sorting.Class(ByKey(), s, y)
  {
    ByKeyIsTotal();
    RebuildIsSort(s);
    Sorting.SortStable(ByKey(), s);
  }

  lemma FirstOfClass(rest: seq<ReviewItem>, first: ReviewItem, y: ReviewItem)
    requires SortKey(first) == SortKey(y)
    ensures Sorting.Class(ByKey(), [first] + rest, y) == [first] + Sorting.Class(ByKey(), rest, y)
  {
    Sorting.ClassConcat(ByKey(), [first], rest, y);
    Sorting.ClassAppend(ByKey(), [], first, y);
    assert [] + [first] == [first];
  }

  /** Boot is confluent exactly when no two different unresolved items share a sort key. */
  lemma BootConfluence(items: seq<ReviewItem>)
    ensures OrderFree(items) <==> KeysTellApart(items)
  {
    if KeysTellApart(items) {
      forall a, b | Reorders(a, items) && Reorders(b, items) ensures Rebuild(a) == Rebuild(b) {
        SameMembers(a, items);
        RebuildSame(a, b);
      }
    } else {
      var x, y :| x in items && y in items && SortKey(x) == SortKey(y) && x != y;
      var a, b := SharedKeyOrders(items, x, y);
    }
  }

  lemma SharedKeyOrders(items: seq<ReviewItem>, x: ReviewItem, y: ReviewItem)
    returns (a: seq<ReviewItem>, b: seq<ReviewItem>)
    requires x in items && y in items && SortKey(x) == SortKey(y) && x != y
    ensures Reorders(a, items) && Reorders(b, items) && Rebuild(a) != Rebuild(b)
  {
    var once := TakeOut(items, x);
    TakeOutOne(items, x);
    var rest := TakeOut(once, y);
    TakeOutOne(once, y);
    a, b := [x, y] + rest, [y, x] + rest;
    SwapFront(x, y, rest);
    RebuildDiffers(rest, x, y);
  }

  lemma SwapFront(x: ReviewItem, y: ReviewItem, rest: seq<ReviewItem>)
    ensures multiset([x, y] + rest) == multiset{x} + multiset([y] + rest) == multiset([y, x] + rest)
  {
    assert [x, y] + rest == [x] + ([y] + rest) && [y, x] + rest == [y] + ([x] + rest);
  }

  function TakeOut(s: seq<ReviewItem>, x: ReviewItem): seq<ReviewItem> {
    if s == [] then [] else if s[0] == x then s[1..] else [s[0]] + TakeOut(s[1..], x)
  }

  lemma {:induction false} TakeOutOne(s: seq<ReviewItem>, x: ReviewItem)
    requires x in s
    ensures multiset([x] + TakeOut(s, x)) == multiset(s)
    ensures forall z :: z in s && z != x ==> z in TakeOut(s, x)
  {
    assert s == [s[0]] + s[1..];
    if s[0] != x {
      TakeOutOne(s[1..], x);
      assert multiset([x] + TakeOut(s[1..], x)) == multiset{x} + multiset(TakeOut(s[1..], x));
    }
  }
}
