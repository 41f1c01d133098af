/**
 * Longer runs from a fresh installation, of one task or two: to a finished task, to a lost wake-up, to a
 * buffer at its limit with its feeder waiting, to a blocked task moved on, and over a restart.
 */
module LongRuns {
  import opened Options
  import opened Columns
  import opened Kanban
  import opened ReviewQueues
  import opened Reviews
  import opened Protocol
  import opened Sections
  import opened Atomic
  import opened AgentRuns
  import opened Effects
  import opened Gates
  import opened Wip
  import opened Ownership
  import opened Restarts
  import opened Wakes
  import opened Journeys
  import opened Reachability
  import opened InFlightBlocks
  import Holes

  // ── A finished task ───────────────────────────────────────────────────────

  /** A run that ends with the task in Done, approved in every buffer, by steps that keep ownership. */
  lemma DoneIsReached(id: Id, title: string, priority: Priority) returns (run: seq<Action>)
    requires id != ""
    ensures var s := Exec(FRESH, run); Owned(s) && NoStoredDone(s) && InDone(s, id)
  {
    hide Exec, Ahead, Busy, Poised, Calm;
    run := Created(id, title, priority);
    var s := Exec(FRESH, run);
    var more := Voyage(s, id);
    ExecConcat(FRESH, run, more);
    run, s := run + more, Exec(s, more);
    more := Embarks(s, id, Infrarian);
    ExecConcat(FRESH, run, more);
    run, s := run + more, Exec(s, more);
    more := Lands(s, id, Infrarian);
    ExecConcat(FRESH, run, more);
    run, s := run + more, Exec(s, more);
    PoisedInDone(s, id);
  }

  lemma PoisedInDone(s: State, id: Id)
    requires Poised(s, id, Done)
    ensures Owned(s) && NoStoredDone(s) && InDone(s, id)
  {
    AtWorkIsOutside(s);
  }

  // ── A lost wake-up ────────────────────────────────────────────────────────

  /** Two tasks in the first column, the second waiting for the first; the prioritizer is told. */
  lemma TwoCreated(a: Id, b: Id, title: string, priority: Priority) returns (run: seq<Action>)
    requires a != "" && b != "" && a != b
    ensures var s := Exec(FRESH, run); Ahead(s, a, Prioritizer) && b in s.board.tasks
  {
    hide Exec, Apply, Poised, Hushed, OnlyTold, WriteSignal;
    var createA, createB := Whole(OpCreate(title, priority), SUCCESS.(newId := a)), Whole(OpCreate(title, priority), SUCCESS.(newId := b));
    FreshIsHushed();
    FreshIsWell();
    Creates(FRESH, a, title, priority);
    var s1 := Apply(FRESH, createA);
    PoisedRests(s1, a, Prioritized);
    Creates(s1, b, title, priority);
    var s2 := Apply(s1, createB);
    PoisedRests(s2, b, Prioritized);
    NobodyTold(s2.agents);
    Blocks(s2, b, a);
    var s3 := Apply(s2, Whole(OpBlock(b, [a]), SUCCESS));
    run := [createA, createB, Whole(OpBlock(b, [a]), SUCCESS)];
    ExecTwo(FRESH, createA, createB);
    ExecOne(FRESH, [createA, createB], Whole(OpBlock(b, [a]), SUCCESS));
    assert [createA, createB] + [Whole(OpBlock(b, [a]), SUCCESS)] == run;
    FirstIsPoised(s1, s2, s3, a, b, title, priority);
    NowTold(s2.agents, Prioritizer);
    var rest := ThreeAnnounced(s3, a, b);
    ExecConcat(FRESH, run, rest);
    run := run + rest;
  }

  lemma FirstIsPoised(s1: State, s2: State, s3: State, a: Id, b: Id, title: string, priority: Priority)
    requires s1.board.tasks == map[a := NewTask(a, title, priority)] && a != b && a != ""
    requires s2.board.tasks == s1.board.tasks[b := NewTask(b, title, priority)]
    requires Hushed(s3) && Others(s2.board, s3.board, b)
    requires b in s3.board.tasks && s3.board.tasks[b].Column() == Prioritized && s3.board.tasks[b].blockedBy == [a]
    ensures Poised(s3, a, Prioritized) && OthersWait(s3.board, a)
  {
    hide Hushed;
    assert s3.board.tasks[a] == s2.board.tasks[a];
  }

  /** The events of the two creations and the block are handled. */
  lemma ThreeAnnounced(s: State, a: Id, b: Id) returns (run: seq<Action>)
    requires Poised(s, a, Prioritized) && OthersWait(s.board, a) && s.waiting == map[] && s.limits == map[]
    requires OnlyTold(s.agents, Some(Prioritizer))
    requires s.events == [TaskCreated(a)] + [TaskCreated(b)] + [StageChanged(b, Prioritized, Prioritized)]
    ensures var s' := Exec(s, run); Ahead(s', a, Prioritizer) && s'.board == s.board
  {
    hide Exec, Apply, Poised, Hushed, OnlyTold, WriteSignal;
    var handle := WholeEvent(SUCCESS);
    PoisedRests(s, a, Prioritized);
    Heralded(s, a, Prioritized);
    NowTold(s.agents, Prioritizer);
    var s1 := Apply(s, handle);
    assert s1.events == [TaskCreated(b)] + [StageChanged(b, Prioritized, Prioritized)];
    Heralded(s1, a, Prioritized);
    NowTold(s1.agents, Prioritizer);
    var s2 := Apply(s1, handle);
    assert s2.events == [StageChanged(b, Prioritized, Prioritized)];
    PoisedRests(s2, a, Prioritized);
    Received(s2, a, Prioritized, Prioritizer);
    NowTold(s2.agents, Prioritizer);
    run := [handle, handle] + [handle];
    ExecTwo(s, handle, handle);
    ExecOne(s, [handle, handle], handle);
  }

  /**
   * A run that ends with the last agent past its limit check, nobody else told of anything, and a task
   * that waits for the one the agent is about to move to Done: its wake-up will be lost.
   */
  lemma QuiescentIsReached(a: Id, b: Id, title: string, priority: Priority) returns (run: seq<Action>)
    requires a != "" && b != "" && a != b
    ensures var s := Exec(FRESH, run);
      && Quiescent(s) && WellFormed(s.board)
      && AgentOf(s, Infrarian).phase.Cleared? && AgentOf(s, Infrarian).phase.task.id == a
      && a in s.board.tasks && b in s.board.tasks && s.board.tasks[b].blockedBy == [a]
  {
    hide Exec, Ahead, Busy, Calm, Several, Quiescent, OnlyTold;
    run := TwoCreated(a, b, title, priority);
    var s := Exec(FRESH, run);
    var more := Voyage(s, a);
    ExecConcat(FRESH, run, more);
    run, s := run + more, Exec(s, more);
    more := Embarks(s, a, Infrarian);
    ExecConcat(FRESH, run, more);
    run, s := run + more, Exec(s, more);
    BusyIsQuiescent(s, a);
    more := Repeated(AgentStep(Infrarian, SUCCESS), 5);
    SeveralIsRun(s, Infrarian, SUCCESS, 5);
    ExecConcat(FRESH, run, more);
    run := run + more;
    SeveralQuiescent(s, Infrarian, SUCCESS, 5);
    AboutToFinish(s, a, b);
  }

  lemma BusyIsQuiescent(s: State, id: Id)
    requires Busy(s, id, Infrarian) && Calm(s, id) && OnlyTold(s.agents, None)
    ensures Quiescent(s)
  {
    hide Well, OthersWait;
    forall r | r != Infrarian ensures AgentIn(s.agents, r).phase.Idle? && !AgentIn(s.agents, r).permit {
      assert AtRest(AgentIn(s.agents, r));
    }
  }

  lemma {:induction false} SeveralQuiescent(s: State, r: Role, x: Input, n: nat)
    requires Quiescent(s)
    ensures Quiescent(Several(s, r, x, n))
    decreases n
  {
    hide Quiescent, AgentSection;
    if n > 0 {
      AgentQuiescent(s, r, x);
      SeveralQuiescent(AgentSection(s, r, x), r, x, n - 1);
    }
  }

  lemma AboutToFinish(s: State, a: Id, b: Id)
    requires Busy(s, a, Infrarian) && Calm(s, a) && b in s.board.tasks && b != a
    ensures var s' := Several(s, Infrarian, SUCCESS, 5);
      && WellFormed(s'.board)
      && AgentOf(s', Infrarian).phase.Cleared? && AgentOf(s', Infrarian).phase.task.id == a
      && a in s'.board.tasks && b in s'.board.tasks && s'.board.tasks[b].blockedBy == [a]
  {
    hide Several, Well, WellFormed, AfterReport;
    ReachesCleared(s, a, Infrarian);
    WellBoard(s);
    ReportKeepsTask(s, s.agents[Infrarian].phase.task, "output");
  }

  // ── A buffer at its limit ─────────────────────────────────────────────────

  /** The first task is in the first buffer, the second the only other one. */
  ghost predicate OneBuffered(b: Board, first: Id, id: Id) {
    b.tasks.Keys == {first, id} && first != id && b.tasks[first].Column() == CodingBuffer
  }

  lemma StaysBuffered(b: Board, b': Board, first: Id, id: Id)
    requires OneBuffered(b, first, id) && Others(b, b', id)
    ensures OneBuffered(b', first, id)
  {
  }

  lemma BufferedIsNoRival(b: Board, first: Id, id: Id, c: Column)
    requires OneBuffered(b, first, id) && c != CodingBuffer
    ensures NoRival(b, id, c)
  {
  }

  /** The first task's item is filed, and a second task is created and announced. */
  lemma SecondCreated(first: Id, id: Id, item: Id, title: string, priority: Priority) returns (run: seq<Action>)
    requires first != "" && id != "" && item != "" && first != id && first != item && id != item
    ensures var s := Exec(FRESH, run);
      && Poised(s, id, Prioritized) && OneBuffered(s.board, first, id) && AgentOf(s, Prioritizer).permit
      && OnlyTold(s.agents, Some(Prioritizer)) && s.events == [] && s.waiting == map[] && s.limits == map[]
  {
    hide Exec, Apply, Poised, OnlyTold, WriteSignal, ItemWaits, Hushed;
    run := ReachCodingBuffer(first, title, priority);
    var s := Exec(FRESH, run);
    var filing, handle := WholeEvent(SUCCESS.(newId := item, queueId := item)), WholeEvent(SUCCESS);
    var create := Whole(OpCreate(title, priority), SUCCESS.(newId := id));
    ItemFiled(s, first, item);
    var s1 := Apply(s, filing);
    Unheeded(s1, first, CodingBuffer);
    var s2 := Apply(s1, handle);
    run := ThenTwo(FRESH, run, filing, handle);
    PoisedRests(s2, first, CodingBuffer);
    Creates(s2, id, title, priority);
    var s3 := Apply(s2, create);
    SecondIsOther(s, s3, first, id, title, priority);
    Heralded(s3, id, Prioritized);
    NowTold(s3.agents, Prioritizer);
    run := ThenTwo(FRESH, run, create, handle);
  }

  lemma SecondIsOther(s: State, s': State, first: Id, id: Id, title: string, priority: Priority)
    requires Alone(s, first, CodingBuffer) && first != id
    requires s'.board.tasks == s.board.tasks[id := NewTask(id, title, priority)]
    ensures OneBuffered(s'.board, first, id)
  {
  }

  lemma OtherColumnHasRoom(s: State, first: Id, id: Id, c: Column)
    requires Well(s) && OneBuffered(s.board, first, id) && s.limits == map[]
    requires s.board.tasks[id].Column() != c && c != CodingBuffer
    ensures Room(s, c)
  {
    hide Well, Room, Count;
    WellBoard(s);
    EmptyHasRoom(s, c);
  }

  /** The second task is taken through Prioritized and the designer takes it on. */
  lemma SecondDesigned(s: State, first: Id, id: Id) returns (run: seq<Action>)
    requires Poised(s, id, Prioritized) && OneBuffered(s.board, first, id) && AgentOf(s, Prioritizer).permit
    requires OnlyTold(s.agents, Some(Prioritizer)) && s.events == [] && s.waiting == map[] && s.limits == map[]
    ensures var s' := Exec(s, run); Busy(s', id, Designer) && OneBuffered(s'.board, first, id) && SameElsewhere(s, s')
  {
    hide Exec, Apply, Poised, Busy, OnlyTold, WriteSignal, Room, OneBuffered;
    run := SecondPrioritized(s, first, id);
    var s1 := Exec(s, run);
    Received(s1, id, Designing, Designer);
    PoisedRests(s1, id, Designing);
    NowTold(s1.agents, Designer);
    var s2 := Apply(s1, WholeEvent(SUCCESS));
    Unheeded(s2, id, Designing);
    run := ThenTwo(s, run, WholeEvent(SUCCESS), WholeEvent(SUCCESS));
    var s3 := Exec(s, run);
    BufferedIsNoRival(s3.board, first, id, Designing);
    var more := TakesOn(s3, id, Designer);
    ExecConcat(s, run, more);
    StaysBuffered(s3.board, Exec(s3, more).board, first, id);
    run := run + more;
  }

  lemma SecondPrioritized(s: State, first: Id, id: Id) returns (run: seq<Action>)
    requires Poised(s, id, Prioritized) && OneBuffered(s.board, first, id) && AgentOf(s, Prioritizer).permit
    requires OnlyTold(s.agents, Some(Prioritizer)) && s.events == [] && s.waiting == map[] && s.limits == map[]
    ensures var s' := Exec(s, run);
      && Poised(s', id, Designing) && OneBuffered(s'.board, first, id) && SameElsewhere(s, s')
      && OnlyTold(s'.agents, None)
      && s'.events == [StageChanged(id, Prioritized, Designing), AgentCompleted(id, Prioritizer)]
  {
    hide Exec, Poised, OnlyTold, Room, OneBuffered, Well;
    BufferedIsNoRival(s.board, first, id, Prioritized);
    run := TakesOn(s, id, Prioritizer);
    var s1 := Exec(s, run);
    StaysBuffered(s.board, s1.board, first, id);
    OtherColumnHasRoom(s1, first, id, Designing);
    var more := PassesOn(s1, id, Prioritizer);
    ExecConcat(s, run, more);
    StaysBuffered(s1.board, Exec(s1, more).board, first, id);
    run := run + more;
  }

  /**
   * A run that ends with a buffer at its limit of one, the task in it waiting for approval and the
   * designer waiting for its slot: approving the task leaves the designer waiting.
   */
  lemma WaitingIsReached(first: Id, id: Id, item: Id, title: string, priority: Priority) returns (run: seq<Action>)
    requires first != "" && id != "" && item != "" && first != id && first != item && id != item
    ensures var s := Exec(FRESH, run);
      && Inv(Unchecked, s) && WaitingRight(s) && BufferOf(s.board, first) == Some(CodingBuffer)
      && CodingBuffer in s.waiting && s.waiting[CodingBuffer] == Designer
      && Count(s.board, CodingBuffer) == 1 && LimitOf(s, CodingBuffer) == 1
  {
    hide Exec, Apply, Poised, Busy, OnlyTold, Room, OneBuffered, Count, BufferOf, Inv, WaitingRight;
    run := SecondCreated(first, id, item, title, priority);
    var s := Exec(FRESH, run);
    var more := SecondDesigned(s, first, id);
    ExecConcat(FRESH, run, more);
    run, s := run + more, Exec(s, more);
    var limit := SetLimits(map[CodingBuffer := 1]);
    ExecOne(FRESH, run, limit);
    run := run + [limit];
    LimitSet(s, id, Designer);
    s := Apply(s, limit);
    OneInBuffer(s, first, id);
    more := Waits(s, id, Designer);
    ExecConcat(FRESH, run, more);
    run := run + more;
    AtLimit(s, Exec(s, more), first, id);
  }

  lemma LimitSet(s: State, id: Id, r: Role)
    requires Busy(s, id, r)
    ensures var s' := Apply(s, SetLimits(map[CodingBuffer := 1]));
      Busy(s', id, r) && s' == s.(limits := map[CodingBuffer := 1])
  {
    hide Well;
    NothingDisturbs(s, SetLimits(map[CodingBuffer := 1]));
    StepWell(s, SetLimits(map[CodingBuffer := 1]));
  }

  lemma {:induction false} OnlyOf(ids: seq<Id>, id: Id)
    requires forall x :: x in ids ==> x == id
    ensures multiset(ids)[id] == |ids|
  {
    if ids != [] {
      var rest := ids[1..];
      assert ids[0] in ids && ids == [ids[0]] + rest;
      forall x | x in rest ensures x == id { assert x in ids; }
      OnlyOf(rest, id);
      assert multiset(ids) == multiset{ids[0]} + multiset(rest);
    }
  }

  /** The buffer lists exactly the first task. */
  lemma JustOne(b: Board, first: Id, id: Id)
    requires WellFormed(b) && OneBuffered(b, first, id) && b.tasks[id].Column() != CodingBuffer
    ensures Count(b, CodingBuffer) == 1
  {
    MembersOf(b, CodingBuffer);
    assert Times(b, first, CodingBuffer) == 1;
    OnlyOf(Ids(b, CodingBuffer), first);
  }

  lemma OneInBuffer(s: State, first: Id, id: Id)
    requires Busy(s, id, Designer) && OneBuffered(s.board, first, id) && s.limits == map[CodingBuffer := 1]
    ensures Count(s.board, CodingBuffer) == 1 && !Room(s, Target(Designer))
  {
    hide Well, Count, OneBuffered;
    WellBoard(s);
    JustOne(s.board, first, id);
  }

  lemma AtLimit(s: State, s': State, first: Id, id: Id)
    requires s.waiting == map[] && s'.waiting == s.waiting[Target(Designer) := Designer]
    requires OneBuffered(s.board, first, id) && SamePlace(s.board, s'.board, id) && Poised(s', id, Designing)
    requires s'.limits == map[CodingBuffer := 1]
    ensures Inv(Unchecked, s') && WaitingRight(s') && BufferOf(s'.board, first) == Some(CodingBuffer)
    ensures CodingBuffer in s'.waiting && s'.waiting[CodingBuffer] == Designer
    ensures Count(s'.board, CodingBuffer) == 1 && LimitOf(s', CodingBuffer) == 1
  {
    hide WellFormed, Count, BufferOf, StoreFollows, AllOwnRight, InvWith;
    WellBoard(s');
    StaysBuffered(s.board, s'.board, first, id);
    JustOne(s'.board, first, id);
    InBuffer(s'.board, first, CodingBuffer);
  }

  // ── A blocked task moves on ───────────────────────────────────────────────

  /** A run that ends with a task in the first buffer though its only blocker is not done. */
  lemma BlockedTaskIsFinished(id: Id, on: Id, title: string, priority: Priority) returns (run: seq<Action>)
    requires id != "" && on != id
    ensures var b := Exec(FRESH, run).board;
      && id in b.tasks && b.tasks[id].Column() == CodingBuffer && b.tasks[id].blockedBy == [on] && !Ready(b, b.tasks[id])
  {
    hide Exec, Apply, Busy, Untouched, OnlyTold, FinishAgent, RunCall;
    run := ReachDesigning(id, title, priority);
    var s := Exec(FRESH, run);
    var block := Whole(OpBlock(id, [on]), SUCCESS);
    ExecOne(FRESH, run, block);
    Holes.WholeIsCall(s, OpBlock(id, [on]), SUCCESS);
    var s1 := Apply(s, block);
    run := run + [block];
    var more := AgentRun(s1, Designer, SUCCESS, 8);
    ExecConcat(FRESH, run, more);
    run := run + more;
    BlockedAtWork(s, id, on);
    MovesAnyway(s1, id, Designer);
    StillWaits(s1.board, Exec(FRESH, run).board, id, on);
  }

  lemma StillWaits(b: Board, b': Board, id: Id, on: Id)
    requires b.tasks.Keys == {id} && SameTask(b, b', id) && b.tasks[id].blockedBy == [on] && on != id
    ensures b'.tasks[id].blockedBy == [on] && !Ready(b', b'.tasks[id])
  {
    assert on in b'.tasks[id].blockedBy && on !in b'.tasks;
  }

  lemma BlockedAtWork(s: State, id: Id, on: Id)
    requires Busy(s, id, Designer) && Untouched(s, id)
    ensures var s' := RunCall(s, OpBlock(id, [on]), SUCCESS);
      && WellFormed(s'.board) && s'.board.tasks.Keys == {id} && s'.board.tasks[id].blockedBy == [on]
      && s'.board.tasks[id].Column() == Prioritized && s'.limits == map[] && "" !in s'.used
      && AgentOf(s', Designer).phase.Running? && AgentOf(s', Designer).phase.task.id == id
  {
    hide RunCall, AfterBlock, WellFormed, StoreFollows, AllOwnRight, Inv, BlockOn, FindColumn;
    BoardIsWell(s);
    FindColumnIsStage(s.board, id);
    WholeIsAtomic(s, OpBlock(id, [on]), SUCCESS);
    WriteBoardEffect(s.board, Block(id, [on]));
    BlockedRecords(s, id, on);
  }

  lemma BlockedRecords(s: State, id: Id, on: Id)
    requires BlockOn(s.board, id, [on]).1
    ensures var s' := AfterBlock(s, id, [on], Designing);
      s'.board == BlockOn(s.board, id, [on]).0 && s'.limits == s.limits && s'.used == s.used
      && AgentOf(s', Designer).phase == AgentOf(s, Designer).phase
  {
    hide BlockOn, WriteStore;
  }

  /** The agent's sections do not look at the stage or the blockers of the task. */
  lemma MovesAnyway(s: State, id: Id, r: Role)
    requires WellFormed(s.board) && s.board.tasks.Keys == {id} && s.board.tasks[id].Column() != Target(r)
    requires AgentOf(s, r).phase.Running? && AgentOf(s, r).phase.task.id == id && "" !in s.used && s.limits == map[]
    ensures var b := FinishAgent(s, r, SUCCESS, true, 8).board;
      SameTask(s.board, b, id) && b.tasks[id].Column() == Target(r)
  {
    hide FinishAgent, AfterGate, AfterReport, WellFormed, Advance, Standing, Room, Count;
    var t := AgentOf(s, r).phase.task;
    RunningStands(s, r);
    ResultIsAtomic(s, r, t, SUCCESS, true);
    var s1 := AfterReport(s, t, "output");
    ReportRest(s, t, "output");
    ReportKeepsTask(s, t, "output");
    EmptyHasRoom(s1, Target(r));
    GateIs(s1, r, t);
    MovesTask(s1.board, id, Target(r));
    StandingBoard(s1, r, t, id);
  }

  lemma StandingBoard(s: State, r: Role, t: Task, id: Id)
    requires Room(s, Target(r)) && t.id == id
    ensures AfterGate(s, r, t).board == Advance(s.board, id, Target(r)).0
  {
    hide Advance, Count;
  }

  // ── Over a restart ────────────────────────────────────────────────────────

  /** A run that ends with a task's approval queued though the task is in no buffer any more. */
  lemma StrandedApprovalIsReached(id: Id, title: string, priority: Priority, item: Id) returns (run: seq<Action>)
    requires id != "" && item != "" && item != id
    ensures var s := Exec(FRESH, run);
      && item in s.reviews && s.reviews[item].taskId == id && ToQueueItem(s.reviews[item]) in s.queue
      && id in s.board.tasks && BufferOf(s.board, id).None?
  {
    hide Exec, Alone, Apply, ItemWaits, Poised, Boot, CanBoot, BufferOf;
    run := ReachCodingBuffer(id, title, priority);
    var s := Exec(FRESH, run);
    var filing, restart := WholeEvent(SUCCESS.(newId := item, queueId := item)), Restart([id], [item], map[]);
    run := ThenTwo(FRESH, run, filing, restart);
    ItemFiled(s, id, item);
    AloneKeys(s, id);
    BootsStranded(Apply(s, filing), id, item);
  }

  lemma AloneKeys(s: State, id: Id)
    requires Alone(s, id, CodingBuffer)
    ensures s.board.tasks.Keys == {id}
  {
  }

  lemma BootsStranded(s: State, id: Id, item: Id)
    requires Poised(s, id, CodingBuffer) && ItemWaits(s, id, item) && s.reviews.Keys == {item} && s.board.tasks.Keys == {id}
    ensures var s' := Apply(s, Restart([id], [item], map[]));
      && item in s'.reviews && s'.reviews[item].taskId == id && ToQueueItem(s'.reviews[item]) in s'.queue
      && id in s'.board.tasks && BufferOf(s'.board, id).None?
  {
    hide Owned, Boot, CanBoot, WellFormed, BufferOf, IsUnresolved, StoredAtWork;
    OneToRead(s, id, item);
    RequeuedAtBoot(s, [id], [item], map[], item);
    EmptyAfterBoot(s, [id], [item], map[], id);
    BootFromStore(s, [id], [item], map[]);
    OwnedBehind(s, id);
    BootKeepsReviews(s, [id], [item]);
  }

  lemma BootKeepsReviews(s: State, order: seq<Id>, reviewOrder: seq<Id>)
    requires CanBoot(s, order, reviewOrder)
    ensures Boot(s, order, reviewOrder, map[]).reviews == s.reviews
  {
    hide CanBoot, FromTasks, Rebuild;
  }

  lemma OneToRead(s: State, id: Id, item: Id)
    requires Owned(s) && s.board.tasks.Keys == {id} && s.reviews.Keys == {item} && IsUnresolved(s.reviews[item])
    ensures CanBoot(s, [id], [item])
  {
    hide Inv, AllOwnRight, IsUnresolved;
  }
}
