/** The in-memory store of tasks and review items; a map's iteration order is a parameter. */
module Stores {
  import opened Options
  import opened Kanban
  import opened ReviewQueues
  import opened Reviews
  import opened Protocol

  /** The latest answer recorded on an item. */
  function LastAnswer(actions: seq<ReviewAction>): Option<string> {
    if actions == [] then None
    else if actions[|actions| - 1].Answer? then Some(actions[|actions| - 1].content)
    else LastAnswer(actions[..|actions| - 1])
  }

  /** The question of an item of the task with its latest answer, if it has one. */
  function AnsweredPair(p: PersistedItem, taskId: Id): Option<(string, string)> {
    if p.taskId != taskId || !p.kind.AgentQuestion? || LastAnswer(p.actions).None? then None
    else Some((p.kind.question, LastAnswer(p.actions).value))
  }

  function AnsweredPairs(reviews: map<Id, PersistedItem>, taskId: Id, order: seq<Id>): seq<(string, string)> {
    if order == [] then []
    else
      var rest, last := AnsweredPairs(reviews, taskId, order[..|order| - 1]), order[|order| - 1];
      if last in reviews && AnsweredPair(reviews[last], taskId).Some?
      then rest + [AnsweredPair(reviews[last], taskId).value] else rest
  }

  /** A pair is listed exactly when some listed item of the task is a question with that text and that latest answer. */
  lemma {:induction false} AnsweredPairsIff(reviews: map<Id, PersistedItem>, taskId: Id, order: seq<Id>, question: string, answer: string)
    ensures (question, answer) in AnsweredPairs(reviews, taskId, order) <==>
      exists id :: id in order && id in reviews && AnsweredPair(reviews[id], taskId) == Some((question, answer))
  {
    if order != [] {
      var init, last := order[..|order| - 1], order[|order| - 1];
      AnsweredPairsIff(reviews, taskId, init, question, answer);
      assert forall id :: id in order <==> id in init || id == last;
    }
  }

  /** The text was given as an answer, and no later action is an answer. */
  ghost predicate LatestAnswer(actions: seq<ReviewAction>, answer: string) {
    exists k :: 0 <= k < |actions| && actions[k].Answer? && actions[k].content == answer
                && forall i :: k < i < |actions| ==> !actions[i].Answer?
  }

  /** An item of the task pairs its question with the latest answer given to it. */
  lemma PairIsLatest(p: PersistedItem, taskId: Id, question: string, answer: string)
    ensures AnsweredPair(p, taskId) == Some((question, answer)) <==>
      p.taskId == taskId && p.kind == AgentQuestion(question) && LatestAnswer(p.actions, answer)
  {
    if LastAnswer(p.actions).Some? {
      var k := LastAnswerAt(p.actions);
      assert LatestAnswer(p.actions, LastAnswer(p.actions).value);
    } else {
      NoAnswerAtAll(p.actions);
    }
  }

  lemma {:induction false} NoAnswerAtAll(actions: seq<ReviewAction>)
    requires LastAnswer(actions).None?
    ensures forall i :: 0 <= i < |actions| ==> !actions[i].Answer?
  {
    if actions != [] { NoAnswerAtAll(actions[..|actions| - 1]); }
  }

  /** Items that are not among the answered questions before and after a change make no difference. */
  lemma {:induction false} SamePairs(reviews: map<Id, PersistedItem>, reviews': map<Id, PersistedItem>, taskId: Id, order: seq<Id>)
    requires reviews'.Keys == reviews.Keys
    requires forall id :: id in reviews ==> AnsweredPair(reviews'[id], taskId) == AnsweredPair(reviews[id], taskId)
    ensures AnsweredPairs(reviews', taskId, order) == AnsweredPairs(reviews, taskId, order)
  {
    if order != [] { SamePairs(reviews, reviews', taskId, order[..|order| - 1]); }
  }

  /** The ids of the unresolved items, in iteration order. */
  function UnresolvedIds(reviews: map<Id, PersistedItem>, order: seq<Id>): (r: seq<Id>)
    ensures forall id :: id in r <==> id in order && id in reviews && IsUnresolved(reviews[id])
  {
    if order == [] then []
    else
      var rest, last := UnresolvedIds(reviews, order[..|order| - 1]), order[|order| - 1];
      if last in reviews && IsUnresolved(reviews[last]) then rest + [last] else rest
  }

  /** An answer is the latest answer from then on, whatever is discussed afterwards. */
  lemma {:induction false} AnswerIsSeen(p: PersistedItem, now: int, content: string, later: seq<ReviewAction>)
    requires forall a :: a in later ==> a.Comment?
    ensures LastAnswer(Append(p, Answer(now, content)).actions + later) == Some(content)
  {
    if later == [] {
      var actions := Append(p, Answer(now, content)).actions;
      assert actions + later == actions && actions[|actions| - 1] == Answer(now, content);
    } else {
      var actions := Append(p, Answer(now, content)).actions;
      assert forall a :: a in later[..|later| - 1] ==> a in later;
      AnswerIsSeen(p, now, content, later[..|later| - 1]);
      assert (actions + later)[..|actions + later| - 1] == actions + later[..|later| - 1];
      assert later[|later| - 1] in later;
    }
  }

  /** An answered item is resolved, so its question is never asked again at boot. */
  lemma AnsweredIsResolved(p: PersistedItem)
    requires LastAnswer(p.actions).Some?
    ensures !IsUnresolved(p)
  {
    var k := LastAnswerAt(p.actions);
    assert p.actions[k] in p.actions;
  }

  lemma {:induction false} LastAnswerAt(actions: seq<ReviewAction>) returns (k: nat)
    requires LastAnswer(actions).Some?
    ensures k < |actions| && actions[k].Answer? && actions[k].content == LastAnswer(actions).value
    ensures forall i :: k < i < |actions| ==> !actions[i].Answer?
  {
    k := |actions| - 1;
    if !actions[k].Answer? {
      k := LastAnswerAt(actions[..|actions| - 1]);
    }
  }

  class InMemoryStore {
    var tasks: map<Id, Task>
    var reviews: map<Id, PersistedItem>

    constructor ()
      ensures tasks == map[] && reviews == map[]
    {
      tasks, reviews := map[], map[];
    }

    method WriteTask(t: Task)
      modifies this`tasks
      ensures tasks == old(tasks)[t.id := t]
    {
      tasks := tasks[t.id := t];
    }

    method LoadTask(id: Id) returns (t: Option<Task>)
      ensures t == if id in tasks then Some(tasks[id]) else None
    {
      t := if id in tasks then Some(tasks[id]) else None;
    }

    method LoadAllTasks(order: seq<Id>) returns (all: seq<Task>)
      requires forall id :: id in order ==> id in tasks
      ensures all == Lookup(tasks, order)
    {
      all := [];
      for i := 0 to |order|
        invariant all == Lookup(tasks, order[..i])
      {
        assert order[..i + 1][..i] == order[..i];
        all := all + [tasks[order[i]]];
      }
      assert order[..|order|] == order;
    }

    method WriteReviewItem(p: PersistedItem)
      modifies this`reviews
      ensures reviews == WriteReviews(old(reviews), Some(p))
    {
      reviews := reviews[p.id := p];
    }

    method LoadReviewItem(id: Id) returns (p: Option<PersistedItem>)
      ensures p == if id in reviews then Some(reviews[id]) else None
    {
      p := if id in reviews then Some(reviews[id]) else None;
    }

    /** The first unresolved item of the task in iteration order; `pick` is the id it is stored under. */
    method FindUnresolvedForTask(taskId: Id, order: seq<Id>) returns (found: Option<PersistedItem>, ghost pick: Id)
      requires forall id :: id in reviews ==> id in order
      ensures found == FindUnresolved(reviews, taskId, pick)
      ensures found.Some? ==> Candidate(reviews, taskId, pick) && found.value == reviews[pick]
      ensures found.None? ==> forall p :: !Candidate(reviews, taskId, p)
    {
      found, pick := None, "";
      for i := 0 to |order|
        invariant forall k :: 0 <= k < i ==> !Candidate(reviews, taskId, order[k])
      {
        if Candidate(reviews, taskId, order[i]) {
          return Some(reviews[order[i]]), order[i];
        }
      }
    }

    method LoadAllUnresolved(order: seq<Id>) returns (items: seq<PersistedItem>)
      ensures |items| == |UnresolvedIds(reviews, order)|
      ensures forall i :: 0 <= i < |items| ==> items[i] == reviews[UnresolvedIds(reviews, order)[i]]
    {
      items := [];
      for i := 0 to |order|
        invariant |items| == |UnresolvedIds(reviews, order[..i])|
        invariant forall k :: 0 <= k < |items| ==> items[k] == reviews[UnresolvedIds(reviews, order[..i])[k]]
      {
        assert order[..i + 1][..i] == order[..i];
        if order[i] in reviews && IsUnresolved(reviews[order[i]]) {
          items := items + [reviews[order[i]]];
        }
      }
      assert order[..|order|] == order;
    }

    /** The answered questions of a task, each with its latest answer, looked for from the end. */
    method LoadAnsweredForTask(taskId: Id, order: seq<Id>) returns (pairs: seq<(string, string)>)
      ensures pairs == AnsweredPairs(reviews, taskId, order)
      ensures forall question, answer :: (question, answer) in pairs <==>
        exists id :: id in order && id in reviews && AnsweredPair(reviews[id], taskId) == Some((question, answer))
      ensures forall question, answer :: (question, answer) in pairs <==>
        exists id :: id in order && id in reviews
          && reviews[id].taskId == taskId && reviews[id].kind == AgentQuestion(question)
          && LatestAnswer(reviews[id].actions, answer)
    {
      hide LatestAnswer;
      pairs := [];
      for i := 0 to |order|
        invariant pairs == AnsweredPairs(reviews, taskId, order[..i])
      {
        assert order[..i + 1][..i] == order[..i];
        if order[i] in reviews {
          var item := reviews[order[i]];
          if item.taskId == taskId && item.kind.AgentQuestion? {
            var answer := FindLastAnswer(item.actions);
            if answer.Some? {
              pairs := pairs + [(item.kind.question, answer.value)];
            }
          }
        }
      }
      assert order[..|order|] == order;
      forall question, answer
        ensures (question, answer) in pairs <==>
          exists id :: id in order && id in reviews && AnsweredPair(reviews[id], taskId) == Some((question, answer))
      {
        AnsweredPairsIff(reviews, taskId, order, question, answer);
      }
      forall id, question, answer | id in reviews
        ensures AnsweredPair(reviews[id], taskId) == Some((question, answer)) <==>
          reviews[id].taskId == taskId && reviews[id].kind == AgentQuestion(question) && LatestAnswer(reviews[id].actions, answer)
      {
        PairIsLatest(reviews[id], taskId, question, answer);
      }
    }
  }

  method FindLastAnswer(actions: seq<ReviewAction>) returns (answer: Option<string>)
    ensures answer == LastAnswer(actions)
  {
    var k: int := |actions|;
    assert actions[..|actions|] == actions;
    while k > 0
      invariant 0 <= k <= |actions| && LastAnswer(actions[..k]) == LastAnswer(actions)
    {
      k := k - 1;
      assert actions[..k + 1][..k] == actions[..k];
      if actions[k].Answer? {
        return Some(actions[k].content);
      }
    }
    return None;
  }
}
