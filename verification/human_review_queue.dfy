/** The mutable review queue, method by method, against the functions of module ReviewQueues. */
module HumanReviewQueues {
  import opened Options
  import opened Columns
  import opened Kanban
  import opened ReviewQueues
  import Sorting = StableSorting

  class HumanReviewQueue {
    var items: seq<ReviewItem>

    constructor ()
      ensures items == []
    {
      items := [];
    }

    /** Inserts before the first item with a larger key. */
    method Enqueue(item: ReviewItem)
      modifies this
      ensures items == ReviewQueues.Enqueue(old(items), item)
      ensures InSeenOrder(old(items)) ==> InSeenOrder(items)
    {
      if InSeenOrder(items) {
        OperateKeepsOrder(items, Arrive(item));
      }
      var pos := 0;
      while pos < |items| && KeyLe(SortKey(items[pos]), SortKey(item))
        invariant 0 <= pos <= |items|
        invariant forall i :: 0 <= i < pos ==> ByKey()(items[i], item)
      {
        pos := pos + 1;
      }
      assert pos == Sorting.Position(ByKey(), items, item);
      items := items[..pos] + [item] + items[pos..];
    }

    /** The topmost item; on a sorted queue nothing comes before it, and it is a question if any item is. */
    method Peek() returns (first: Option<ReviewItem>)
      ensures first == ItemAt(items, 0)
      ensures Sorting.Sorted(ByKey(), items) && items != [] ==>
        first.Some? && forall i :: 0 <= i < |items| ==>
          KeyLe(SortKey(first.value), SortKey(items[i])) && (items[i].kind.AgentQuestion? ==> first.value.kind.AgentQuestion?)
      ensures InSeenOrder(items) && first.Some? && first.value.kind.BufferApproval? ==>
        forall i :: 0 <= i < |items| ==>
          && items[i].kind.BufferApproval?
          && Index(first.value.kind.column) >= Index(items[i].kind.column)
          && (items[i].kind.column == first.value.kind.column ==>
                && first.value.kind.taskPriority <= items[i].kind.taskPriority
                && (first.value.kind.taskPriority == items[i].kind.taskPriority ==> first.value.createdAt <= items[i].createdAt))
      ensures InSeenOrder(items) && first.Some? && first.value.kind.AgentQuestion? ==>
        forall i :: 0 <= i < |items| && items[i].kind.AgentQuestion? ==> first.value.createdAt <= items[i].createdAt
    {
      first := if items == [] then None else Some(items[0]);
      assert InSeenOrder(items) ==> forall i :: 0 < i < |items| ==> SeenBefore(items[0], items[i]);
      if Sorting.Sorted(ByKey(), items) && items != [] {
        QuestionsArePrefix(items);
        forall i | 0 <= i < |items| ensures KeyLe(SortKey(items[0]), SortKey(items[i])) {
          assert ByKey()(items[0], items[i]);
        }
      }
    }

    method Dequeue(id: Id) returns (taken: Option<ReviewItem>)
      modifies this
      ensures (items, taken) == ReviewQueues.Dequeue(old(items), id)
    {
      var pos := 0;
      while pos < |items| && items[pos].id != id
        invariant 0 <= pos <= |items|
        invariant forall i :: 0 <= i < pos ==> items[i].id != id
      {
        pos := pos + 1;
      }
      assert pos == FirstWithId(items, id);
      if pos == |items| {
        return None;
      }
      taken := Some(items[pos]);
      items := items[..pos] + items[pos + 1..];
    }

    method DequeueByTaskId(taskId: Id) returns (taken: Option<ReviewItem>)
      modifies this
      ensures (items, taken) == ReviewQueues.DequeueByTask(old(items), taskId)
    {
      var pos := 0;
      while pos < |items| && items[pos].taskId != taskId
        invariant 0 <= pos <= |items|
        invariant forall i :: 0 <= i < pos ==> items[i].taskId != taskId
      {
        pos := pos + 1;
      }
      assert pos == FirstForTask(items, taskId);
      if pos == |items| {
        return None;
      }
      taken := Some(items[pos]);
      items := items[..pos] + items[pos + 1..];
    }

    /** On a sorted queue the count is the length of the prefix of questions. */
    method QuestionCount() returns (n: nat)
      ensures n == ReviewQueues.QuestionCount(items)
      ensures Sorting.Sorted(ByKey(), items) ==>
        n <= |items| && forall i :: 0 <= i < |items| ==> (items[i].kind.AgentQuestion? <==> i < n)
    {
      n := 0;
      for i := 0 to |items|
        invariant n == ReviewQueues.QuestionCount(items[..i])
      {
        if items[i].kind.AgentQuestion? {
          n := n + 1;
        }
        assert items[..i + 1][..i] == items[..i];
      }
      assert items[..|items|] == items;
      if Sorting.Sorted(ByKey(), items) {
        QuestionsArePrefix(items);
      }
    }
  }
}
