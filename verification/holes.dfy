/**
 * Where the hypotheses of the other modules are needed: exact conditions under which a call keeps
 * the property in question, and for overlapping calls the runs in which it is lost.
 */
module Holes {
  import opened Options
  import opened Columns
  import opened Kanban
  import opened ReviewQueues
  import opened Reviews
  import opened Protocol
  import opened Sections
  import opened Atomic
  import opened Effects
  import opened Gates
  import opened Wip
  import opened Ownership
  import opened Restarts
  import opened Placement
  import opened Agreement
  import opened Blocking
  import opened Wakes
  import Stores

  // ── Rework to the right ───────────────────────────────────────────────────

  lemma RejectionExitsNothing(h: seq<HistoryEntry>, stamp: int, feedback: string, target: Column, c: Column)
    ensures Passed(Strict, h + [Rejection(stamp, feedback, At(target))], c) <==> Passed(Strict, h, c)
  {
    var h' := h + [Rejection(stamp, feedback, At(target))];
    forall buffer ensures Exited(Strict, h', buffer) <==> Exited(Strict, h, buffer) {
      if Exited(Strict, h, buffer) {
        var i :| 0 <= i < |h| && Exits(Strict, h[i], buffer);
        assert Exits(Strict, h'[i], buffer);
      }
      if Exited(Strict, h', buffer) {
        var i :| 0 <= i < |h'| && Exits(Strict, h'[i], buffer);
        assert i < |h| && Exits(Strict, h[i], buffer);
      }
    }
  }

  /**
   * A rejection to any work column keeps the approval gate exactly when the approvals recorded so
   * far already reach that column; the program checks only that the target has a role.
   */
  lemma ReworkKeepsGateIff(s: State, id: Id, target: Column, feedback: string, x: Input)
    requires Inv(Unchecked, s) && BufferOf(s.board, id).Some? && RoleOf(target).Some?
    ensures id in s.board.tasks
    ensures var b' := RunCall(s, OpRejectTo(id, target, feedback), x).board;
      id in b'.tasks && (TaskPassed(Strict, b'.tasks[id]) <==> Passed(Strict, s.board.tasks[id].history, target))
  {
    hide RunCall, Inv, BufferOf, DecideOn, WellFormed, Passed, FindUnresolved;
    WholeIsAtomic(s, OpRejectTo(id, target, feedback), x);
    BoardIsWell(s);
    BufferIsColumn(s.board, id);
    var d := Rejected(target, feedback);
    WriteBoardEffect(s.board, Decide(id, d, x.now));
    RejectionExitsNothing(s.board.tasks[id].history, x.now, feedback, target, target);
  }

  /** So an unapproved task in the first buffer reaches Deploying with no approval at all. */
  lemma ReworkCanSkipEveryGate(s: State, id: Id, feedback: string, x: Input)
    requires Inv(Unchecked, s) && BufferOf(s.board, id) == Some(CodingBuffer)
    requires id in s.board.tasks && s.board.tasks[id].history == []
    ensures var b' := RunCall(s, OpRejectTo(id, Deploying, feedback), x).board;
      id in b'.tasks && b'.tasks[id].Column() == Deploying && !TaskPassed(Strict, b'.tasks[id])
  {
    hide RunCall, Inv, BufferOf, DecideOn, WellFormed, FindUnresolved;
    ReworkKeepsGateIff(s, id, Deploying, feedback, x);
    assert !Exited(Strict, [], CodingBuffer);
    assert !Passed(Strict, [], Deploying);
    WholeIsAtomic(s, OpRejectTo(id, Deploying, feedback), x);
    BoardIsWell(s);
    BufferIsColumn(s.board, id);
    WriteBoardEffect(s.board, Decide(id, Rejected(Deploying, feedback), x.now));
  }

  // ── Human moves and the WIP gate ──────────────────────────────────────────

  /**
   * An approval adds one to the next column whatever its limit, keeps every waiting record, and
   * leaves the role that waits for the freed slot without a permit it did not have.
   */
  lemma ApprovalIgnoresLimits(s: State, id: Id, x: Input)
    requires Inv(Unchecked, s) && BufferOf(s.board, id).Some? && WaitingRight(s)
    ensures var c := BufferOf(s.board, id).value; var s' := RunCall(s, OpApprove(id), x);
      && Next(c).Some?
      && Count(s'.board, Next(c).value) == Count(s.board, Next(c).value) + 1
      && Count(s'.board, c) == Count(s.board, c) - 1
      && s'.waiting == s.waiting
      && (c in s.waiting ==> AgentOf(s', s.waiting[c]).permit == AgentOf(s, s.waiting[c]).permit)
  {
    hide RunCall, Inv, BufferOf, AfterDecision;
    WholeIsAtomic(s, OpApprove(id), x);
    BufferIsBuffer(s.board, id);
    var c := BufferOf(s.board, id).value;
    ApprovalCounts(s, id, x);
    DecisionSignals(s, id, Approved(Next(c).value), x);
    if c in s.waiting { WaiterNotSignalled(s, id, x); }
  }

  lemma ApprovalCounts(s: State, id: Id, x: Input)
    requires Inv(Unchecked, s) && BufferOf(s.board, id).Some? && Next(BufferOf(s.board, id).value).Some?
    ensures var c := BufferOf(s.board, id).value; var to := Next(c).value;
      var b' := AfterDecision(s, id, Approved(to), x).board;
      Count(b', to) == Count(s.board, to) + 1 && Count(b', c) == Count(s.board, c) - 1
  {
    hide Inv, BufferOf, DecideOn, WellFormed, FindUnresolved, Count;
    BoardIsWell(s);
    BufferIsColumn(s.board, id);
    WriteBoardEffect(s.board, Decide(id, Approved(Next(BufferOf(s.board, id).value).value), x.now));
  }

  lemma DecisionSignals(s: State, id: Id, d: Decision, x: Input)
    ensures var s' := AfterDecision(s, id, d, x);
      && s'.waiting == s.waiting
      && (s'.agents == s.agents || s'.agents == WriteSignal(s.agents, RoleOf(d.target)))
  {
    hide DecideOn, FindUnresolved, WriteSignal;
  }

  lemma WaiterNotSignalled(s: State, id: Id, x: Input)
    requires WaitingRight(s) && BufferOf(s.board, id).Some? && BufferOf(s.board, id).value in s.waiting
    requires Next(BufferOf(s.board, id).value).Some?
    ensures var c := BufferOf(s.board, id).value; var s' := AfterDecision(s, id, Approved(Next(c).value), x);
      AgentOf(s', s.waiting[c]).permit == AgentOf(s, s.waiting[c]).permit
  {
    hide BufferOf, AfterDecision;
    var c := BufferOf(s.board, id).value;
    BufferIsBuffer(s.board, id);
    FeederIsNotNext(s.waiting[c]);
    DecisionSignals(s, id, Approved(Next(c).value), x);
  }

  lemma FeederIsNotNext(r: Role)
    requires IsBuffer(Target(r))
    ensures RoleOf(Next(Target(r)).value) != Some(r)
  {
  }

  // ── Editing a task ────────────────────────────────────────────────────────

  /**
   * An edit puts the stored record on the board, so it keeps the board filed exactly when the store
   * is not one column behind.
   */
  lemma EditKeepsBoardIff(s: State, id: Id, title: string, x: Input)
    requires Owned(s) && id in s.store
    ensures id in s.board.tasks
    ensures Filed(RunCall(s, OpUpdate(id, title), x).board) <==> s.store[id].Column() == s.board.tasks[id].Column()
  {
    hide RunCall, Inv, AllOwnRight, StoreFollows;
    StoredIsShown(s, id);
    BoardIsWell(s);
    WholeIsAtomic(s, OpUpdate(id, title), x);
    ReplaceKeepsFiledIff(s.board, s.store[id].(title := title));
  }

  /** Editing a finished task therefore always breaks the board: no store ever records Done. */
  lemma EditingDoneBreaksBoard(s: State, id: Id, title: string, x: Input)
    requires Owned(s) && NoStoredDone(s) && InDone(s, id)
    ensures var b' := RunCall(s, OpUpdate(id, title), x).board;
      !Filed(b') && id in Ids(b', Done) && id in b'.tasks && b'.tasks[id].Column() == Deploying
  {
    hide RunCall, Atomically, Owned, Filed, Ids, InFlight, SamePhases;
    var op := OpUpdate(id, title);
    DoneIsStoredBehind(s, id);
    EditKeepsBoardIff(s, id, title, x);
    WholeIsAtomic(s, op, x);
    EditWrites(s, op, x);
    DoneListed(s, id);
    SameColumnsListed(s.board, Atomically(s, op, x).board);
  }

  lemma DoneIsStoredBehind(s: State, id: Id)
    requires Owned(s) && NoStoredDone(s) && InDone(s, id)
    ensures id in s.store && s.store[id].Column() == Deploying
  {
    hide Inv, AllOwnRight;
    assert id in s.store;
    StoredIsShown(s, id);
    NeighboursInOrder(s.store[id].Column());
  }

  lemma DoneListed(s: State, id: Id)
    requires Owned(s) && InDone(s, id)
    ensures id in Ids(s.board, Done)
  {
    hide StoreFollows, AllOwnRight;
    BoardIsWell(s);
    MembersOf(s.board, Done);
  }

  lemma SameColumnsListed(b: Board, b': Board)
    requires b'.columns == b.columns
    ensures forall c :: Ids(b', c) == Ids(b, c)
  {
  }

  // ── Overlapping calls ─────────────────────────────────────────────────────

  lemma ExecThree(s: State, a: Action, b: Action, c: Action)
    ensures Exec(s, [a, b, c]) == Apply(Apply(Apply(s, a), b), c)
  {
    hide Apply;
    ExecTwo(s, a, b);
    ExecOne(s, [a, b], c);
    assert [a, b, c] == [a, b] + [c];
  }

  lemma ExecFour(s: State, a: Action, b: Action, c: Action, d: Action)
    ensures Exec(s, [a, b, c, d]) == Apply(Apply(Apply(Apply(s, a), b), c), d)
  {
    hide Apply;
    ExecThree(s, a, b, c);
    ExecOne(s, [a, b, c], d);
    assert [a, b, c, d] == [a, b, c] + [d];
  }

  /**
   * An edit that read the store before an approval and writes after it takes the approval back from
   * the record while the task stays listed in the column it was approved for.
   */
  lemma EditUndoesApproval(s: State, id: Id, title: string, x: Input)
    requires Owned(s) && 0 !in s.calls && id in s.store && BufferOf(s.board, id).Some?
    ensures var c := BufferOf(s.board, id).value;
      var s' := Exec(s, [Begin(0, OpUpdate(id, title), x), Whole(OpApprove(id), x), Continue(0, x), Continue(0, x)]);
      && id in s'.board.tasks && s'.board.tasks[id].history == s.store[id].history
      && s'.store == s.store[id := s.store[id].(title := title)]
      && Next(c).Some? && id in Ids(s'.board, Next(c).value) && s'.board.tasks[id].Column() != Next(c).value
  {
    hide Apply, Inv, BufferOf, DecideOn, Exec, AllOwnRight, FindUnresolved, DequeueByTask, WriteStore, WriteReviews;
    var t, c := s.store[id].(title := title), BufferOf(s.board, id).value;
    StoredIsShown(s, id);
    BoardIsWell(s);
    BufferIsColumn(s.board, id);
    ExecFour(s, Begin(0, OpUpdate(id, title), x), Whole(OpApprove(id), x), Continue(0, x), Continue(0, x));
    EditBegins(s, id, title, x);
    var s1 := s.(calls := s.calls[0 := StoringEdit(t)]);
    ApprovalStep(s1, id, x);
    ApprovedListing(s, id, x);
    EditLands(AfterDecision(s1, id, Approved(Next(c).value), x), id, t, x);
    ApprovedStore(s1, id, Approved(Next(c).value), x);
    NotPast(s.store[id].Column(), s.board.tasks[id].Column());
  }

  lemma NotPast(stored: Column, shown: Column)
    requires IsBuffer(shown) && (Index(shown) == Index(stored) || Index(shown) == Index(stored) + 1)
    ensures Some(stored) != Next(shown)
  {
  }

  lemma EditBegins(s: State, id: Id, title: string, x: Input)
    requires 0 !in s.calls && id in s.store
    ensures Apply(s, Begin(0, OpUpdate(id, title), x))
      == s.(calls := s.calls[0 := StoringEdit(s.store[id].(title := title))])
  {
    hide Perform;
    NoChange(s);
  }

  lemma ApprovalStep(s: State, id: Id, x: Input)
    requires BufferOf(s.board, id).Some?
    ensures Next(BufferOf(s.board, id).value).Some?
    ensures Apply(s, Whole(OpApprove(id), x)) == AfterDecision(s, id, Approved(Next(BufferOf(s.board, id).value).value), x)
  {
    hide RunCall, AfterDecision;
    BufferIsBuffer(s.board, id);
    WholeIsAtomic(s, OpApprove(id), x);
  }

  lemma ApprovedStore(s: State, id: Id, d: Decision, x: Input)
    requires DecideOn(s.board, id, d, x.now).1 && id in DecideOn(s.board, id, d, x.now).0.tasks
    requires DecideOn(s.board, id, d, x.now).0.tasks[id].id == id
    ensures var s' := AfterDecision(s, id, d, x);
      s'.board == DecideOn(s.board, id, d, x.now).0 && s'.store == s.store[id := s'.board.tasks[id]]
      && s'.calls == s.calls
  {
    hide DecideOn;
  }

  /** After an approval the task is listed in the next column. */
  lemma ApprovedListing(s: State, id: Id, x: Input)
    requires Owned(s) && BufferOf(s.board, id).Some?
    ensures var c := BufferOf(s.board, id).value; var d := Approved(Next(c).value);
      var b' := DecideOn(s.board, id, d, x.now).0;
      && DecideOn(s.board, id, d, x.now).1 && id in b'.tasks && b'.tasks[id].id == id && id in Ids(b', d.target)
  {
    hide Inv, BufferOf, DecideOn, WellFormed, AllOwnRight, StoreFollows;
    BoardIsWell(s);
    BufferIsColumn(s.board, id);
    var d := Approved(Next(BufferOf(s.board, id).value).value);
    WriteBoardEffect(s.board, Decide(id, d, x.now));
    WellIsFiled(DecideOn(s.board, id, d, x.now).0);
    MembersOf(DecideOn(s.board, id, d, x.now).0, d.target);
  }

  lemma WellIsFiled(b: Board)
    requires WellFormed(b)
    ensures Filed(b)
  {
  }

  /** A pending call's section that delivers no answer. */
  lemma PendingSection(s: State, call: Call, x: Input, ch: Change, next: Option<Call>)
    requires 0 in s.calls && s.calls[0] == call && !call.Unblocking? && ContinueChange(s, call, x) == (ch, next)
    ensures Apply(s, Continue(0, x)) == Track(Perform(s, ch), 0, next)
  {
    hide ContinueChange, Perform;
  }

  /** The last two sections of an edit write the record it started from. */
  lemma EditLands(s: State, id: Id, t: Task, x: Input)
    requires 0 in s.calls && s.calls[0] == StoringEdit(t) && t.id == id && id in s.board.tasks
    ensures var s' := Apply(Apply(s, Continue(0, x)), Continue(0, x));
      s'.board == s.board.(tasks := s.board.tasks[id := t]) && s'.store == s.store[id := t]
  {
    hide Apply, Perform, DecideOn, FindUnresolved, FindColumn, BufferOf, RoleOf;
    StoreSection(s, SaveRecord(t));
    PendingSection(s, StoringEdit(t), x, Saving(SaveRecord(t)), Some(SettingEdit(t)));
    var s1 := s.(store := s.store[id := t], calls := s.calls[0 := SettingEdit(t)]);
    BoardSection(s1, Replace(t));
    PendingSection(s1, SettingEdit(t), x, Writing(Replace(t)), None);
  }

  /** The call resolves item `p` of the task: a decision that takes it, or an answer to it. */
  ghost predicate Resolves(s: State, op: Op, id: Id, p: Id) {
    if op.OpAnswer? then
      var taken := Dequeue(s.queue, op.itemId).1;
      taken.Some? && taken.value.kind.AgentQuestion? && taken.value.id == p && taken.value.taskId == id
    else
      && (op.OpApprove? || op.OpReject? || (op.OpRejectTo? && RoleOf(op.target).Some?))
      && op.id == id && BufferOf(s.board, id).Some?
  }

  /**
   * A discussion around an approval, a rejection or an answer leaves the item unresolved in the store
   * with nothing in the queue for it: one queued item less, the same open items as before.
   */
  lemma ReopenedIsNotQueued(s: State, id: Id, op: Op, content: string, x: Input)
    requires Agreed(s) && Inv(Unchecked, s) && 0 !in s.calls && Candidate(s.reviews, id, x.pick)
    requires Resolves(s, op, id, x.pick)
    ensures
      var s' := Exec(s, [Begin(0, OpDiscuss(id, content), x), Whole(op, x), Continue(0, x)]);
      && Candidate(s'.reviews, id, x.pick) && OpenFor(s'.reviews, id) == OpenFor(s.reviews, id)
      && QueuedFor(s'.queue, id) == QueuedFor(s.queue, id) - 1
  {
    hide Apply, Inv, Exec, IsUnresolved, QueuedFor, OpenFor, Resolves, RunCall;
    ExecThree(s, Begin(0, OpDiscuss(id, content), x), Whole(op, x), Continue(0, x));
    var p := s.reviews[x.pick];
    var stale := Append(Append(p, Comment(x.now, true, content)), Comment(x.now, false, x.text));
    DiscussionBegins(s, id, content, x);
    var s1 := s.(calls := s.calls[0 := Discussing(stale)]);
    OpenMember(s, id, x.pick);
    var act := CallResolves(s, s1, id, op, x);
    var s2 := RunCall(s1, op, x);
    assert Apply(s1, Whole(op, x)) == s2 by { WholeIsCall(s1, op, x); }
    DiscussionEnds(s2, stale, x);
    CommentsKeepOpen(p, Comment(x.now, true, content), Comment(x.now, false, x.text));
    StaleWrite(s.reviews, s2.reviews, id, x.pick, stale, act);
  }

  lemma WholeIsCall(s: State, op: Op, x: Input)
    ensures Apply(s, Whole(op, x)) == RunCall(s, op, x)
  {
  }

  /** Such a call adds a decision or an answer to the item and takes one item of the task from the queue. */
  lemma CallResolves(s: State, s1: State, id: Id, op: Op, x: Input) returns (act: ReviewAction)
    requires Agreed(s) && Inv(Unchecked, s) && Candidate(s.reviews, id, x.pick) && Resolves(s, op, id, x.pick)
    requires s1 == s.(calls := s1.calls) && s.reviews[x.pick].id == x.pick && QueuedFor(s.queue, id) > 0
    ensures !act.Comment?
    ensures var s' := RunCall(s1, op, x);
      && s'.reviews == s.reviews[x.pick := Append(s.reviews[x.pick], act)]
      && QueuedFor(s'.queue, id) == QueuedFor(s.queue, id) - 1 && s'.calls == s1.calls
  {
    hide RunCall, Inv, WellFormed, IsUnresolved, QueuedFor, Dequeue, BufferOf, AfterDecision, AfterAnswer;
    WholeIsAtomic(s1, op, x);
    if op.OpAnswer? {
      act := Answer(x.now, op.answer);
      var (q, taken) := Dequeue(s.queue, op.itemId);
      QueuedAfterDequeue(s.queue, op.itemId, id);
      AnswerResolves(s1.(queue := q), taken.value, op.answer, x.now);
    } else {
      BoardIsWell(s);
      BufferIsBuffer(s.board, id);
      var c := BufferOf(s.board, id).value;
      var d := if op.OpApprove? then Approved(Next(c).value)
               else if op.OpReject? then Rejected(Prev(c).value, op.feedback) else Rejected(op.target, op.feedback);
      act := ActionOf(d, x.now);
      DecisionResolves(s1, id, d, x);
      QueuedAfterTake(s.queue, id, id);
    }
  }

  lemma AnswerResolves(s: State, item: ReviewItem, answer: string, now: int)
    requires item.id in s.reviews && s.reviews[item.id].id == item.id
    ensures var s' := AfterAnswer(s, item, answer, now);
      && s'.reviews == s.reviews[item.id := Append(s.reviews[item.id], Answer(now, answer))]
      && s'.queue == s.queue && s'.calls == s.calls
  {
    hide Deliver, WriteSignal;
  }

  lemma OpenMember(s: State, id: Id, p: Id)
    requires Agreed(s) && Candidate(s.reviews, id, p)
    ensures QueuedFor(s.queue, id) > 0 && s.reviews[p].id == p
  {
    assert p in OpenFor(s.reviews, id);
  }

  lemma CommentsKeepOpen(p: PersistedItem, a: ReviewAction, b: ReviewAction)
    requires IsUnresolved(p) && a.Comment? && b.Comment?
    ensures IsUnresolved(Append(Append(p, a), b))
  {
    ActionsResolve(p, a);
    ActionsResolve(Append(p, a), b);
  }

  lemma DiscussionBegins(s: State, id: Id, content: string, x: Input)
    requires 0 !in s.calls && Candidate(s.reviews, id, x.pick)
    ensures Apply(s, Begin(0, OpDiscuss(id, content), x))
      == s.(calls := s.calls[0 := Discussing(Append(Append(s.reviews[x.pick], Comment(x.now, true, content)),
                                                    Comment(x.now, false, x.text)))])
  {
    hide Perform, IsUnresolved;
    NoChange(s);
  }

  lemma DiscussionEnds(s: State, p: PersistedItem, x: Input)
    requires 0 in s.calls && s.calls[0] == Discussing(p)
    ensures var s' := Apply(s, Continue(0, x)); s'.reviews == WriteReviews(s.reviews, Some(p)) && s'.queue == s.queue
  {
    hide Perform;
    ReviewSection(s, p);
  }

  /** A decision resolves the item the store returns for its task and takes one queued item. */
  lemma DecisionResolves(s: State, id: Id, d: Decision, x: Input)
    requires WellFormed(s.board) && BufferOf(s.board, id).Some? && Candidate(s.reviews, id, x.pick)
    requires s.reviews[x.pick].id == x.pick
    ensures var s' := AfterDecision(s, id, d, x);
      && s'.reviews == s.reviews[x.pick := Append(s.reviews[x.pick], ActionOf(d, x.now))]
      && s'.queue == DequeueByTask(s.queue, id).0 && s'.calls == s.calls
  {
    hide BufferOf, DecideOn, WellFormed, DequeueByTask, IsUnresolved, WriteStore;
    BufferIsColumn(s.board, id);
    WriteBoardEffect(s.board, Decide(id, d, x.now));
  }

  lemma StaleWrite(before: map<Id, PersistedItem>, decided: map<Id, PersistedItem>, id: Id, p: Id,
                   stale: PersistedItem, act: ReviewAction)
    requires Candidate(before, id, p) && before[p].id == p && decided == before[p := Append(before[p], act)]
    requires stale.id == p && stale.taskId == id && IsUnresolved(stale)
    ensures Candidate(WriteReviews(decided, Some(stale)), id, p)
    ensures OpenFor(WriteReviews(decided, Some(stale)), id) == OpenFor(before, id)
  {
  }

  // ── Answers ───────────────────────────────────────────────────────────────

  lemma QueuedAfterDequeue(q: Queue, itemId: Id, taskId: Id)
    ensures var (rest, taken) := Dequeue(q, itemId);
      QueuedFor(rest, taskId) == QueuedFor(q, taskId) - (if taken.Some? && taken.value.taskId == taskId then 1 else 0)
  {
    var k := FirstWithId(q, itemId);
    if k < |q| {
      assert q == q[..k] + [q[k]] + q[k + 1..];
      QueuedSplit(q[..k], q[k], q[k + 1..], taskId);
    }
  }

  /** The taken item is the queued side of an unresolved stored question of the same task. */
  ghost predicate Matches(s: State, item: ReviewItem) {
    item.kind.AgentQuestion? && Candidate(s.reviews, item.taskId, item.id)
  }

  /**
   * An answer keeps queue and store in agreement exactly when it takes nothing, or takes a question
   * whose own id is that of an unresolved stored item of its task.  An approval item answered by
   * mistake, or a question queued under an id of its own, is gone from the queue but still
   * unresolved in the store.
   */
  lemma AnswerKeepsAgreementIff(s: State, itemId: Id, answer: string, x: Input)
    requires ItemsFiled(s) && Agree(s.queue, s.reviews)
    ensures var taken := Dequeue(s.queue, itemId).1;
      var s' := RunCall(s, OpAnswer(itemId, answer), x);
      Agree(s'.queue, s'.reviews) <==> taken.None? || Matches(s, taken.value)
  {
    hide RunCall, Dequeue, ItemsFiled, Agree, Matches, AnsweredItems;
    AnswerWrites(s, itemId, answer, x);
    if Dequeue(s.queue, itemId).1.Some? {
      var item := Dequeue(s.queue, itemId).1.value;
      if Matches(s, item) { MatchKeeps(s, itemId, answer, x.now); } else { MismatchBreaks(s, itemId, answer, x.now); }
    }
  }

  lemma AnswerWrites(s: State, itemId: Id, answer: string, x: Input)
    ensures var (q, taken) := Dequeue(s.queue, itemId); var s' := RunCall(s, OpAnswer(itemId, answer), x);
      s'.queue == q && s'.reviews == if taken.None? then s.reviews else AnsweredItems(s.reviews, taken.value, answer, x.now)
    ensures Dequeue(s.queue, itemId).1.None? ==> Dequeue(s.queue, itemId).0 == s.queue
  {
    hide RunCall, Dequeue, Append, WriteReviews, AfterAnswer;
    WholeIsAtomic(s, OpAnswer(itemId, answer), x);
    NothingTaken(s.queue, itemId);
    var (q, taken) := Dequeue(s.queue, itemId);
    if taken.Some? && taken.value.kind.AgentQuestion? { AnswerItems(s.(queue := q), taken.value, answer, x.now); }
  }

  lemma AnswerItems(s: State, item: ReviewItem, answer: string, now: int)
    requires item.kind.AgentQuestion?
    ensures var s' := AfterAnswer(s, item, answer, now);
      s'.queue == s.queue && s'.reviews == AnsweredItems(s.reviews, item, answer, now)
  {
    hide Append, WriteReviews;
  }

  lemma NothingTaken(q: Queue, itemId: Id)
    ensures Dequeue(q, itemId).1.None? ==> Dequeue(q, itemId).0 == q
  {
  }

  lemma MatchKeeps(s: State, itemId: Id, answer: string, now: int)
    requires ItemsFiled(s) && Agree(s.queue, s.reviews)
    requires Dequeue(s.queue, itemId).1.Some? && Matches(s, Dequeue(s.queue, itemId).1.value)
    ensures Agree(Dequeue(s.queue, itemId).0, AnsweredItems(s.reviews, Dequeue(s.queue, itemId).1.value, answer, now))
  {
    hide Dequeue, ItemsFiled, QueuedFor, OpenFor, AnsweredItems, IsUnresolved;
    var (q, taken) := Dequeue(s.queue, itemId);
    var item := taken.value;
    OneTaskEach(s.reviews, item.id, item.taskId);
    forall taskId ensures QueuedFor(q, taskId) == |OpenFor(AnsweredItems(s.reviews, item, answer, now), taskId)| {
      assert QueuedFor(s.queue, taskId) == |OpenFor(s.reviews, taskId)|;
      QueuedAfterDequeue(s.queue, itemId, taskId);
      OpenAfterAnswer(s, item, answer, now, taskId);
    }
  }

  lemma MismatchBreaks(s: State, itemId: Id, answer: string, now: int)
    requires ItemsFiled(s) && Agree(s.queue, s.reviews)
    requires Dequeue(s.queue, itemId).1.Some? && !Matches(s, Dequeue(s.queue, itemId).1.value)
    ensures !Agree(Dequeue(s.queue, itemId).0, AnsweredItems(s.reviews, Dequeue(s.queue, itemId).1.value, answer, now))
  {
    hide Dequeue, ItemsFiled, QueuedFor, OpenFor, AnsweredItems, Candidate;
    var (q, taken) := Dequeue(s.queue, itemId);
    var item := taken.value;
    assert QueuedFor(s.queue, item.taskId) == |OpenFor(s.reviews, item.taskId)|;
    QueuedAfterDequeue(s.queue, itemId, item.taskId);
    OpenAfterAnswer(s, item, answer, now, item.taskId);
    assert QueuedFor(q, item.taskId) != |OpenFor(AnsweredItems(s.reviews, item, answer, now), item.taskId)|;
  }

  lemma OneTaskEach(reviews: map<Id, PersistedItem>, p: Id, taskId: Id)
    ensures Candidate(reviews, taskId, p) ==> forall other :: Candidate(reviews, other, p) ==> other == taskId
  {
  }

  /** The stored items after an answer to the taken item. */
  function AnsweredItems(reviews: map<Id, PersistedItem>, item: ReviewItem, answer: string, now: int): map<Id, PersistedItem> {
    if item.kind.AgentQuestion? && item.id in reviews
    then WriteReviews(reviews, Some(Append(reviews[item.id], Answer(now, answer)))) else reviews
  }

  lemma OpenAfterAnswer(s: State, item: ReviewItem, answer: string, now: int, taskId: Id)
    requires ItemsFiled(s)
    ensures |OpenFor(AnsweredItems(s.reviews, item, answer, now), taskId)| ==
      |OpenFor(s.reviews, taskId)| - (if item.kind.AgentQuestion? && Candidate(s.reviews, taskId, item.id) then 1 else 0)
  {
    if item.kind.AgentQuestion? && item.id in s.reviews {
      if IsUnresolved(s.reviews[item.id]) {
        OpenAfterDecision(s.reviews, item.id, Answer(now, answer), taskId);
      } else {
        ActionsResolve(s.reviews[item.id], Answer(now, answer));
        assert OpenFor(AnsweredItems(s.reviews, item, answer, now), taskId) == OpenFor(s.reviews, taskId);
      }
    }
  }

  /**
   * An answer shows up among a task's answered questions - the ones the agent is told - exactly when
   * the queued item's own id is that of a stored question of the task; else nothing there changes.
   */
  lemma AnswerIsVisibleIff(s: State, itemId: Id, answer: string, x: Input, taskId: Id, order: seq<Id>)
    requires ItemsFiled(s) && (forall id :: id in s.reviews ==> id in order)
    requires Dequeue(s.queue, itemId).1.Some? && Dequeue(s.queue, itemId).1.value.kind.AgentQuestion?
    ensures var before := Stores.AnsweredPairs(s.reviews, taskId, order);
      var after := Stores.AnsweredPairs(RunCall(s, OpAnswer(itemId, answer), x).reviews, taskId, order);
      if itemId in s.reviews && s.reviews[itemId].kind.AgentQuestion? && s.reviews[itemId].taskId == taskId
      then (s.reviews[itemId].kind.question, answer) in after
      else after == before
  {
    hide RunCall, Dequeue, Stores.AnsweredPair, Stores.AnsweredPairs, ItemsFiled;
    AnswerWrites(s, itemId, answer, x);
    TakenHasId(s.queue, itemId);
    var after := AnsweredItems(s.reviews, Dequeue(s.queue, itemId).1.value, answer, x.now);
    AnsweredRecords(s, Dequeue(s.queue, itemId).1.value, answer, x.now, taskId);
    if itemId in s.reviews && s.reviews[itemId].kind.AgentQuestion? && s.reviews[itemId].taskId == taskId {
      Stores.AnsweredPairsIff(after, taskId, order, s.reviews[itemId].kind.question, answer);
    } else {
      Stores.SamePairs(s.reviews, after, taskId, order);
    }
  }

  /** One record at most is answered, and it is paired with the answer if it is a question of the task. */
  lemma AnsweredRecords(s: State, item: ReviewItem, answer: string, now: int, taskId: Id)
    requires ItemsFiled(s) && item.kind.AgentQuestion?
    ensures var after := AnsweredItems(s.reviews, item, answer, now);
      && after.Keys == s.reviews.Keys
      && (forall id :: id in s.reviews && id != item.id ==> after[id] == s.reviews[id])
      && (item.id in s.reviews ==>
            Stores.AnsweredPair(after[item.id], taskId) ==
              if s.reviews[item.id].kind.AgentQuestion? && s.reviews[item.id].taskId == taskId
              then Some((s.reviews[item.id].kind.question, answer)) else None)
      && (item.id in s.reviews && !(s.reviews[item.id].kind.AgentQuestion? && s.reviews[item.id].taskId == taskId) ==>
            Stores.AnsweredPair(s.reviews[item.id], taskId) == None)
  {
    if item.id in s.reviews {
      Stores.AnswerIsSeen(s.reviews[item.id], now, answer, []);
      assert Append(s.reviews[item.id], Answer(now, answer)).actions + [] == Append(s.reviews[item.id], Answer(now, answer)).actions;
    }
  }

  /**
   * The item a blocking agent queues carries an id of its own, so the answer to it is never among the
   * task's answered questions, and the stored question stays open.
   */
  lemma AgentsCopyIsUnseen(s: State, r: Role, x: Input, answer: string, y: Input)
    requires ItemsFiled(s) && AgentOf(s, r).phase.Asking? && x.newId !in s.used
    requires x.queueId !in s.reviews && x.queueId != x.newId
    ensures var s2 := AgentSection(AgentSection(s, r, x), r, x);
      var s4 := AgentSection(AgentSection(s2, r, x), r, x);
      RunCall(s4, OpAnswer(x.queueId, answer), y).reviews == s4.reviews
      && x.newId in s4.reviews && IsUnresolved(s4.reviews[x.newId])
  {
    hide AgentSection, OpenFor, QueuedFor, RunCall, Dequeue;
    var s2 := AgentSection(AgentSection(s, r, x), r, x);
    var s4 := AgentSection(AgentSection(s2, r, x), r, x);
    QuestionIsAnnounced(s, r, x, AgentOf(s, r).phase.task.id);
    AnswerWrites(s4, x.queueId, answer, y);
    TakenHasId(s4.queue, x.queueId);
  }

  /**
   * An answer that reaches a role is lost - the role raises its flag in its next section all the same
   * - exactly when the role stands between announcing its question and raising the flag.
   */
  lemma AnswerLostIff(s: State, r: Role, itemId: Id, answer: string, x: Input, y: Input)
    requires Answered(s, itemId) == Some(r)
    ensures Blocked(AgentSection(RunCall(s, OpAnswer(itemId, answer), x), r, y), r) <==> AgentOf(s, r).phase.Flagging?
  {
    hide RunCall, Answered, AgentSection, AgentChange;
    AnswerEffect(s, itemId, answer, x);
    OwnAgent(RunCall(s, OpAnswer(itemId, answer), x), r, y);
  }

  /** A lost answer's permit is spent on seeing the flag, and the role rests blocked. */
  lemma EarlyAnswerIsLost(s: State, r: Role, itemId: Id, answer: string, x: Input)
    requires AgentOf(s, r).phase.Flagging? && Answered(s, itemId) == Some(r)
    ensures var s1 := RunCall(s, OpAnswer(itemId, answer), x);
      var s2 := AgentSection(AgentSection(s1, r, x), r, x);
      var s4 := AgentSection(AgentSection(s2, r, x), r, x);
      && AgentOf(s4, r).blocked && !AgentOf(s4, r).permit && AgentOf(s4, r).phase.Idle?
      && AgentOf(s4, r).answer == Some(answer)
  {
    hide RunCall, Answered, AgentSection;
    AnswerEffect(s, itemId, answer, x);
    AnswerLostIff(s, r, itemId, answer, x, x);
    var s1 := RunCall(s, OpAnswer(itemId, answer), x);
    OwnAgent(s1, r, x);
    var s2 := AgentSection(s1, r, x);
    OwnAgent(s2, r, x);
    var s3 := AgentSection(s2, r, x);
    OwnAgent(s3, r, x);
    OwnAgent(AgentSection(s3, r, x), r, x);
  }

  lemma OwnAgent(s: State, r: Role, x: Input)
    ensures AgentOf(AgentSection(s, r, x), r) == AgentAfter(AgentOf(s, r), AgentChange(s, r, x).1)
  {
    hide AgentChange, Perform;
  }

  /**
   * A blocking agent's question is stored once; the agent queues it itself, and the event it announces
   * it with joins the event queue, whatever is in that queue and wherever the loop stands.
   */
  lemma QuestionIsAnnounced(s: State, r: Role, x: Input, taskId: Id)
    requires ItemsFiled(s) && AgentOf(s, r).phase.Asking? && taskId == AgentOf(s, r).phase.task.id && x.newId !in s.used
    ensures var s2 := AgentSection(AgentSection(s, r, x), r, x);
      var s4 := AgentSection(AgentSection(s2, r, x), r, x);
      && s4.events == s.events + [AgentBlocked(taskId, r, AgentOf(s, r).phase.question)] && s4.loop == s.loop
      && QueuedFor(s4.queue, taskId) == QueuedFor(s.queue, taskId) + 1
      && |OpenFor(s4.reviews, taskId)| == |OpenFor(s.reviews, taskId)| + 1
      && s4.reviews == s.reviews[x.newId := PersistedItem(x.newId, taskId, AgentQuestion(AgentOf(s, r).phase.question),
                                                          AgentOf(s, r).phase.question, x.now, [])]
  {
    hide AgentSection, Enqueue, OpenFor, QueuedFor;
    var t, question := AgentOf(s, r).phase.task, AgentOf(s, r).phase.question;
    var p := PersistedItem(x.newId, t.id, AgentQuestion(question), question, x.now, []);
    FilesQuestion(s, r, x, p);
    var s1 := AgentSection(s, r, x);
    AnnouncesQuestion(s1, r, x);
    var s2 := AgentSection(s1, r, x);
    RaisesFlag(s2, r, x);
    var s3 := AgentSection(s2, r, x);
    QueuesQuestion(s3, r, x);
    OpenAfterNew(s, p, taskId);
    QueuedAfterEnqueue(s3.queue, ReviewItem(x.queueId, t.id, AgentQuestion(question), question, x.now), taskId);
  }

  /** At some point up to state `k` the handling of the event has queued an item for its task and stored none. */
  ghost predicate QueuedAgain(states: seq<State>, k: nat, e: Event)
    requires e.AgentBlocked?
  {
    exists m {:trigger Requeued(states, m, e)} :: 0 < m <= k && Requeued(states, m, e)
  }

  ghost predicate Requeued(states: seq<State>, m: nat, e: Event)
    requires e.AgentBlocked?
  {
    && 0 < m < |states| && OnItsWay(states[m - 1], e)
    && QueuedFor(states[m].queue, e.id) == QueuedFor(states[m - 1].queue, e.id) + 1
    && states[m].reviews == states[m - 1].reviews
  }

  lemma LoopRequeues(s: State, x: Input, e: Event)
    requires OnItsWay(s, e) && e.AgentBlocked?
    ensures var s' := LoopSection(s, x);
      OnItsWay(s', e) || (QueuedFor(s'.queue, e.id) == QueuedFor(s.queue, e.id) + 1 && s'.reviews == s.reviews)
  {
    hide QueuedFor, Enqueue, WriteReviews, WriteWaiting;
    if s.loop == Handling(e) { HandlesQuestion(s, x, e); }
    else if s.loop.Listening? && e != s.events[0] {
      var i :| 0 <= i < |s.events| && s.events[i] == e;
      assert s.events[1..][i - 1] == e;
    }
  }

  lemma HandlesQuestion(s: State, x: Input, e: Event)
    requires s.loop == Handling(e) && e.AgentBlocked?
    ensures var s' := LoopSection(s, x);
      QueuedFor(s'.queue, e.id) == QueuedFor(s.queue, e.id) + 1 && s'.reviews == s.reviews
  {
    hide Enqueue, QueuedFor;
    var item := ReviewItem(x.queueId, e.id, AgentQuestion(e.question), e.question, x.now);
    QueuedAfterEnqueue(s.queue, item, e.id);
  }

  lemma EventRequeues(s: State, x: Input, e: Event)
    requires OnItsWay(s, e) && e.AgentBlocked?
    ensures var s' := HandleEvent(s, x);
      OnItsWay(s', e) || (QueuedFor(s'.queue, e.id) == QueuedFor(s.queue, e.id) + 1 && s'.reviews == s.reviews)
  {
    hide HandleEvent, QueuedFor, Enqueue, AfterStageChange;
    EventIsAtomic(s, x);
    if s.loop.Listening? && s.events != [] && x.newId !in s.used {
      if s.events[0] == e {
        QueuedAfterEnqueue(s.queue, ReviewItem(x.queueId, e.id, AgentQuestion(e.question), e.question, x.now), e.id);
      } else {
        var i :| 0 <= i < |s.events| && s.events[i] == e;
        assert s.events[1..][i - 1] == e;
        AtomicEventTakesOne(s, x);
      }
    }
  }

  lemma AtomicEventTakesOne(s: State, x: Input)
    requires s.loop.Listening? && s.events != [] && x.newId !in s.used
    ensures AtomicEvent(s, x).events == s.events[1..]
  {
    hide Enqueue, WriteSignal, AfterStageChange;
    var e := s.events[0];
    if e.StageChanged? { ChangeKeepsEvents(s.(events := s.events[1..]), e.id, e.from, e.to, x); }
  }

  lemma ChangeKeepsEvents(s: State, id: Id, from: Column, to: Column, x: Input)
    ensures AfterStageChange(s, id, from, to, x).events == s.events
  {
    hide Enqueue, WriteSignal;
  }

  lemma StepRequeues(s: State, a: Action, e: Event)
    requires OnItsWay(s, e) && e.AgentBlocked? && Lossless()(s, a)
    ensures var s' := Apply(s, a);
      OnItsWay(s', e) || (QueuedFor(s'.queue, e.id) == QueuedFor(s.queue, e.id) + 1 && s'.reviews == s.reviews)
  {
    hide AgentSection, LoopSection, RunCall, HandleEvent, BeginSection, ContinueSection, OnItsWay, QueuedFor;
    if a.AgentStep? {
      AgentKeepsEvents(s, a.role, a.input);
      PrefixKeeps(s, Apply(s, a), e);
    } else if a.LoopStep? { LoopRequeues(s, a.input, e); }
    else if a.WholeEvent? { EventRequeues(s, a.input, e); }
    else if a.Whole? {
      CallKeepsEvents(s, a.op, a.input);
      PrefixKeeps(s, Apply(s, a), e);
    } else { CallStepDelivers(s, a, e); }
  }

  /**
   * A blocked agent's question is queued twice: in every interleaving that loses no event the
   * announcement is on its way until the loop, handling it, queues a second item and stores none.
   */
  lemma {:induction false} QuestionQueuedTwice(states: seq<State>, run: seq<Action>, k: nat, e: Event)
    requires Trace(states, run, Lossless()) && e.AgentBlocked? && OnItsWay(states[0], e) && k < |states|
    ensures OnItsWay(states[k], e) || QueuedAgain(states, k, e)
  {
    hide Trace, Apply, OnItsWay, Lossless, QueuedFor;
    if k > 0 {
      QuestionQueuedTwice(states, run, k - 1, e);
      LastStep(states, run, Lossless(), k);
      if OnItsWay(states[k - 1], e) {
        StepRequeues(states[k - 1], run[k - 1], e);
        assert OnItsWay(states[k], e) || Requeued(states, k, e);
      }
    }
  }

  /** What stays as it is while an agent blocks. */
  ghost predicate SameRest(s: State, s': State) {
    s'.loop == s.loop && s'.used == s.used && s'.reviews == s.reviews
  }

  lemma FilesQuestion(s: State, r: Role, x: Input, p: PersistedItem)
    requires AgentOf(s, r).phase.Asking? && x.newId !in s.used
    requires var t, question := AgentOf(s, r).phase.task, AgentOf(s, r).phase.question;
      p == PersistedItem(x.newId, t.id, AgentQuestion(question), question, x.now, [])
    ensures var s' := AgentSection(s, r, x);
      && AgentOf(s', r).phase == Asked(AgentOf(s, r).phase.task, AgentOf(s, r).phase.question)
      && s'.reviews == s.reviews[p.id := p] && s'.used == s.used + {p.id} && s'.queue == s.queue
      && s'.events == s.events && s'.loop == s.loop
  {
    hide Perform;
    FilingSection(s, p);
  }

  lemma AnnouncesQuestion(s: State, r: Role, x: Input)
    requires AgentOf(s, r).phase.Asked?
    ensures var s' := AgentSection(s, r, x); var p := AgentOf(s, r).phase;
      && AgentOf(s', r).phase == Flagging(p.task, p.question) && SameRest(s, s') && s'.queue == s.queue
      && s'.events == s.events + [AgentBlocked(p.task.id, r, p.question)]
  {
    hide Perform;
    EventSection(s, AgentBlocked(AgentOf(s, r).phase.task.id, r, AgentOf(s, r).phase.question));
  }

  lemma RaisesFlag(s: State, r: Role, x: Input)
    requires AgentOf(s, r).phase.Flagging?
    ensures var s' := AgentSection(s, r, x); var p := AgentOf(s, r).phase;
      && AgentOf(s', r).phase == FilingItem(p.task, p.question) && SameRest(s, s') && s'.queue == s.queue
      && s'.events == s.events && AgentOf(s', r).blocked
  {
    hide Perform;
    NoChange(s);
  }

  lemma QueuesQuestion(s: State, r: Role, x: Input)
    requires AgentOf(s, r).phase.FilingItem?
    ensures var s' := AgentSection(s, r, x); var p := AgentOf(s, r).phase;
      && SameRest(s, s') && s'.events == s.events
      && s'.queue == Enqueue(s.queue, ReviewItem(x.queueId, p.task.id, AgentQuestion(p.question), p.question, x.now))
  {
    hide Perform;
    QueueSection(s, Put(ReviewItem(x.queueId, AgentOf(s, r).phase.task.id, AgentQuestion(AgentOf(s, r).phase.question),
                                   AgentOf(s, r).phase.question, x.now)));
  }
}
