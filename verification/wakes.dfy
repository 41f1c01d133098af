/**
 * Nothing enters a work column unnoticed.  Whatever call lists a task there also sets the permit of
 * the column's role, on any board; an agent's own move and a new task are announced by an event; and
 * an event in the queue reaches the role it is for, in every interleaving that loses no event.
 */
module Wakes {
  import opened Options
  import opened Columns
  import opened Kanban
  import opened ReviewQueues
  import opened Reviews
  import opened Protocol
  import opened Atomic
  import opened Effects
  import opened Gates
  import opened Wip
  import opened Listings

  /** The column of role `r` lists a task it did not list before. */
  predicate Enters(b: Board, b': Board, id: Id, r: Role) {
    id in Ids(b', WorkColumn(r)) && id !in Ids(b, WorkColumn(r))
  }

  // ── Calls ─────────────────────────────────────────────────────────────────

  lemma SignalSets(agents: map<Role, Agent>, r: Role)
    ensures AgentIn(WriteSignal(agents, Some(r)), r).permit
  {
  }

  /** On any board only a move to the column makes it list an old task. */
  lemma EntersByMove(b: Board, w: BoardWrite, id: Id, r: Role)
    requires Enters(b, WriteBoard(b, w).0, id, r) && !w.Insert?
    ensures Relocates(w) && w.id == id && Destination(w) == WorkColumn(r) && WriteBoard(b, w).1
  {
    hide WriteBoard, Ids, FindColumn, Count;
    WriteLists(b, w);
  }

  lemma OnlyCreationInserts(s: State, op: Op, x: Input)
    requires !op.OpCreate?
    ensures !CallWrite(s, op, x).Insert?
  {
    hide BufferOf, FindColumn;
  }

  /** A call whose write goes through signals the role of the task's destination. */
  lemma CallSignals(s: State, op: Op, x: Input, r: Role)
    requires var w := CallWrite(s, op, x); Relocates(w) && WriteBoard(s.board, w).1 && Destination(w) == WorkColumn(r)
    ensures AgentOf(Atomically(s, op, x), r).permit
  {
    hide BufferOf, FindColumn, DecideOn, BlockOn, FindUnresolved, WriteStore, WriteReviews, WriteSignal;
    FeedersAreUnique(Done, r, Prioritizer);
    SignalSets(s.agents, r);
  }

  /**
   * Whichever call makes a work column list a task it did not list before - a creation apart - the
   * role of that column has its permit set when the call is done, whatever state the board was in.
   */
  lemma EntriesWakeTheirRole(s: State, op: Op, x: Input, id: Id, r: Role)
    requires !op.OpCreate? && Enters(s.board, RunCall(s, op, x).board, id, r)
    ensures AgentOf(RunCall(s, op, x), r).permit
  {
    hide RunCall, Atomically, CallWrite, WriteBoard, Enters;
    WholeIsAtomic(s, op, x);
    CallWritesBoard(s, op, x);
    OnlyCreationInserts(s, op, x);
    EntersByMove(s.board, CallWrite(s, op, x), id, r);
    CallSignals(s, op, x, r);
  }

  /** A creation announces its task behind whatever is queued. */
  lemma CreationIsAnnounced(s: State, op: Op, x: Input)
    requires op.OpCreate? && x.newId !in s.used
    ensures var s1 := RunCall(s, op, x);
      && s1.events == s.events + [TaskCreated(x.newId)] && s1.loop == s.loop
      && x.newId in Ids(s1.board, Prioritized) && x.newId in s1.board.tasks
  {
    hide RunCall, AddTask;
    WholeIsAtomic(s, op, x);
    InsertLists(s.board, NewTask(x.newId, op.title, op.priority));
    InsertRecords(s.board, NewTask(x.newId, op.title, op.priority));
  }

  // ── Agents ────────────────────────────────────────────────────────────────

  /**
   * The only agent that makes a work column list another task is the prioritizer, whose next section
   * announces the move to Designing.
   */
  lemma AgentEntersDesigning(s: State, q: Role, x: Input, y: Input, id: Id, r: Role)
    requires Enters(s.board, AgentSection(s, q, x).board, id, r)
    ensures q == Prioritizer && r == Designer
    ensures var s1 := AgentSection(s, q, x);
      AgentSection(s1, q, y).events == s1.events + [StageChanged(id, Prioritized, Designing)]
  {
    hide AgentSection, AgentChange, WriteBoard, Enters;
    var w := AgentChange(s, q, x).0.board;
    AgentBoardIs(s, q, x);
    AgentWrites(s, q, x);
    EntersByMove(s.board, w, id, r);
    TargetHasNoRole(q, r);
    MoveAnnounced(s, q, x, y);
  }

  lemma TargetHasNoRole(q: Role, r: Role)
    ensures Target(q) == WorkColumn(r) ==> q == Prioritizer && r == Designer
  {
  }

  lemma MoveAnnounced(s: State, q: Role, x: Input, y: Input)
    requires AgentOf(s, q).phase.Cleared? && WriteBoard(s.board, AgentChange(s, q, x).0.board).1
    ensures var s1 := AgentSection(s, q, x);
      AgentSection(s1, q, y).events == s1.events + [StageChanged(AgentOf(s, q).phase.task.id, WorkColumn(q), Target(q))]
  {
    hide Advance, Perform;
    MovedNext(s, q, x);
    var s1 := AgentSection(s, q, x);
    EventSection(s1, StageChanged(AgentOf(s, q).phase.task.id, WorkColumn(q), Target(q)));
  }

  lemma MovedNext(s: State, q: Role, x: Input)
    requires AgentOf(s, q).phase.Cleared? && Advance(s.board, AgentOf(s, q).phase.task.id, Target(q)).1
    ensures AgentOf(AgentSection(s, q, x), q).phase == Moved(AgentOf(s, q).phase.task)
  {
    hide Advance, Perform;
  }

  // ── Events ────────────────────────────────────────────────────────────────

  /** Whom the handling of an event is for: a new task is the prioritizer's, an arrival its column's role's. */
  predicate For(e: Event, r: Role) {
    (e.TaskCreated? && r == Prioritizer) || (e.StageChanged? && RoleOf(e.to) == Some(r))
  }

  /** The role recorded as waiting for the column a task has left. */
  predicate Frees(waiting: map<Column, Role>, e: Event, r: Role) {
    e.StageChanged? && e.from in waiting && waiting[e.from] == r
  }

  /**
   * Handling an event sets a role's permit exactly when it is a new task and the role the prioritizer,
   * a change to the role's own column, or a change from the column the role is recorded to wait for.
   * So decisions wake nobody when their events are handled, nor does a finished task those it blocked.
   */
  lemma EventWakesIff(s: State, x: Input, r: Role)
    requires s.loop.Listening? && s.events != [] && x.newId !in s.used
    ensures AgentOf(HandleEvent(s, x), r).permit <==>
      AgentOf(s, r).permit || For(s.events[0], r) || Frees(s.waiting, s.events[0], r)
  {
    hide HandleEvent, AtomicEvent, AgentOf, For, Frees;
    EventIsAtomic(s, x);
    if s.events[0].StageChanged? { ChangeEventWakes(s, x, r); } else { PlainEventWakes(s, x, r); }
  }

  lemma ChangeEventWakes(s: State, x: Input, r: Role)
    requires s.loop.Listening? && s.events != [] && x.newId !in s.used && s.events[0].StageChanged?
    ensures AgentOf(AtomicEvent(s, x), r).permit <==>
      AgentOf(s, r).permit || For(s.events[0], r) || Frees(s.waiting, s.events[0], r)
  {
    hide AfterStageChange;
    var e := s.events[0];
    ChangeWakes(s.(events := s.events[1..]), e.id, e.from, e.to, x, r);
  }

  lemma PlainEventWakes(s: State, x: Input, r: Role)
    requires s.loop.Listening? && s.events != [] && x.newId !in s.used && !s.events[0].StageChanged?
    ensures AgentOf(AtomicEvent(s, x), r).permit <==> AgentOf(s, r).permit || For(s.events[0], r) || Frees(s.waiting, s.events[0], r)
  {
    hide AfterStageChange, Enqueue;
  }

  lemma ChangeWakes(s: State, id: Id, from: Column, to: Column, x: Input, r: Role)
    ensures AgentOf(AfterStageChange(s, id, from, to, x), r).permit <==>
      AgentOf(s, r).permit || RoleOf(to) == Some(r) || (from in s.waiting && s.waiting[from] == r)
  {
    hide AfterArrival;
    ArrivalWakes(AfterRelease(s, from), id, to, x, r);
  }

  lemma ArrivalWakes(s: State, id: Id, to: Column, x: Input, r: Role)
    ensures AgentOf(AfterArrival(s, id, to, x), r).permit <==> AgentOf(s, r).permit || RoleOf(to) == Some(r)
  {
    hide Enqueue;
  }

  /** The event is queued, being handled, or about to signal. */
  predicate OnItsWay(s: State, e: Event) {
    || e in s.events
    || s.loop == Handling(e)
    || (e.StageChanged? && s.loop == Entered(e.id, e.to))
  }

  /** No event is lost and the daemon is not restarted. */
  ghost function Lossless(): (State, Action) -> bool {
    (s: State, a: Action) => !a.Lag? && !a.Restart?
  }

  /** At some point up to state `k` the event has left the loop in a step that set the role's permit. */
  ghost predicate Told(states: seq<State>, k: nat, e: Event, r: Role) {
    exists m {:trigger Delivered(states, m, e, r)} :: 0 < m <= k && Delivered(states, m, e, r)
  }

  predicate Delivered(states: seq<State>, m: nat, e: Event, r: Role) {
    0 < m < |states| && OnItsWay(states[m - 1], e) && !OnItsWay(states[m], e) && AgentOf(states[m], r).permit
  }

  lemma AgentKeepsEvents(s: State, r: Role, x: Input)
    ensures s.events <= AgentSection(s, r, x).events && AgentSection(s, r, x).loop == s.loop
  {
    hide AgentChange, WriteBoard, WriteStore, WriteReviews, WriteQueue, WriteWaiting, WriteSignal;
  }

  lemma CallsKeepEvents(s: State, op: Op, call: Call, x: Input)
    ensures s.events <= BeginSection(s, op, x).0.events && BeginSection(s, op, x).0.loop == s.loop
    ensures s.events <= ContinueSection(s, call, x).0.events && ContinueSection(s, call, x).0.loop == s.loop
  {
    hide BeginChange, ContinueChange, WriteBoard, WriteStore, WriteReviews, WriteQueue, WriteWaiting, WriteSignal, Deliver;
  }

  lemma {:induction false} FinishKeepsEvents(s: State, call: Call, x: Input, fuel: nat)
    ensures s.events <= Finish(s, call, x, fuel).events && Finish(s, call, x, fuel).loop == s.loop
    decreases fuel
  {
    hide ContinueSection;
    CallsKeepEvents(s, OpApprove(""), call, x);
    var (s1, next) := ContinueSection(s, call, x);
    if next.Some? && fuel > 0 { FinishKeepsEvents(s1, next.value, x, fuel - 1); }
  }

  lemma CallKeepsEvents(s: State, op: Op, x: Input)
    ensures s.events <= RunCall(s, op, x).events && RunCall(s, op, x).loop == s.loop
  {
    hide BeginSection, Finish;
    CallsKeepEvents(s, op, SignallingBlock, x);
    var (s1, next) := BeginSection(s, op, x);
    if next.Some? { FinishKeepsEvents(s1, next.value, x, CALL_SECTIONS); }
  }

  lemma PrefixKeeps(s: State, s': State, e: Event)
    requires OnItsWay(s, e) && s.events <= s'.events && s'.loop == s.loop
    ensures OnItsWay(s', e)
  {
    if e in s.events {
      var i :| 0 <= i < |s.events| && s.events[i] == e;
      assert s'.events[i] == e;
    }
  }

  /** A section of the loop takes the event a step on, or sets the permit of the role it is for. */
  lemma LoopDelivers(s: State, x: Input, e: Event, r: Role)
    requires OnItsWay(s, e) && For(e, r)
    ensures OnItsWay(LoopSection(s, x), e) || AgentOf(LoopSection(s, x), r).permit
  {
    hide WriteQueue, WriteReviews, WriteWaiting;
    if s.loop.Listening? && e != s.events[0] {
      var i :| 0 <= i < |s.events| && s.events[i] == e;
      assert s.events[1..][i - 1] == e;
    }
  }

  /** Handling a whole event does too: permits are only ever set by the loop. */
  lemma LoopKeepsPermits(s: State, x: Input, r: Role)
    ensures AgentOf(s, r).permit ==> AgentOf(LoopSection(s, x), r).permit
  {
    hide LoopChange, WriteBoard, WriteStore, WriteReviews, WriteQueue, WriteWaiting;
  }

  lemma {:induction false} EventDelivers(s: State, x: Input, e: Event, r: Role, fuel: nat)
    requires (OnItsWay(s, e) || AgentOf(s, r).permit) && For(e, r)
    ensures OnItsWay(FinishEvent(s, x, fuel), e) || AgentOf(FinishEvent(s, x, fuel), r).permit
    decreases fuel
  {
    hide LoopSection, OnItsWay, For;
    if OnItsWay(s, e) { LoopDelivers(s, x, e, r); }
    LoopKeepsPermits(s, x, r);
    if !LoopSection(s, x).loop.Listening? && fuel > 0 { EventDelivers(LoopSection(s, x), x, e, r, fuel - 1); }
  }

  lemma StepDelivers(s: State, a: Action, e: Event, r: Role)
    requires OnItsWay(s, e) && For(e, r) && Lossless()(s, a)
    ensures OnItsWay(Apply(s, a), e) || AgentOf(Apply(s, a), r).permit
  {
    hide AgentSection, LoopSection, RunCall, FinishEvent, BeginSection, ContinueSection, OnItsWay, For;
    if a.AgentStep? {
      AgentKeepsEvents(s, a.role, a.input);
      PrefixKeeps(s, Apply(s, a), e);
    } else if a.LoopStep? { LoopDelivers(s, a.input, e, r); }
    else if a.WholeEvent? { EventDelivers(s, a.input, e, r, EVENT_SECTIONS); }
    else if a.Whole? {
      CallKeepsEvents(s, a.op, a.input);
      PrefixKeeps(s, Apply(s, a), e);
    } else { CallStepDelivers(s, a, e); }
  }

  lemma CallStepDelivers(s: State, a: Action, e: Event)
    requires OnItsWay(s, e) && (a.Begin? || a.Continue? || a.SetLimits?)
    ensures OnItsWay(Apply(s, a), e)
  {
    hide BeginSection, ContinueSection, OnItsWay;
    if a.Begin? { CallsKeepEvents(s, a.op, SignallingBlock, a.input); }
    else if a.Continue? && a.pid in s.calls { CallsKeepEvents(s, OpApprove(""), s.calls[a.pid], a.input); }
    PrefixKeeps(s, Apply(s, a), e);
  }

  /**
   * Delivery.  In every interleaving that loses no event, however long the queue and wherever the
   * loop stands, an event for a role is still on its way or has set the role's permit.
   */
  lemma {:induction false} EventIsDelivered(states: seq<State>, run: seq<Action>, k: nat, e: Event, r: Role)
    requires Trace(states, run, Lossless()) && OnItsWay(states[0], e) && For(e, r) && k < |states|
    ensures OnItsWay(states[k], e) || Told(states, k, e, r)
  {
    hide Trace, Apply, OnItsWay, For, Lossless;
    if k > 0 {
      EventIsDelivered(states, run, k - 1, e, r);
      LastStep(states, run, Lossless(), k);
      if OnItsWay(states[k - 1], e) {
        StepDelivers(states[k - 1], run[k - 1], e, r);
        assert OnItsWay(states[k], e) || Delivered(states, k, e, r);
      }
    }
  }

  /** So a new task is on its way to the prioritizer, or the prioritizer has been told, at every later point. */
  lemma CreationReachesPrioritizer(s: State, op: Op, x: Input, states: seq<State>, run: seq<Action>, k: nat)
    requires op.OpCreate? && x.newId !in s.used
    requires Trace(states, run, Lossless()) && states[0] == RunCall(s, op, x) && k < |states|
    ensures OnItsWay(states[k], TaskCreated(x.newId)) || Told(states, k, TaskCreated(x.newId), Prioritizer)
  {
    hide Trace, RunCall, Told;
    CreationIsAnnounced(s, op, x);
    EventIsDelivered(states, run, k, TaskCreated(x.newId), Prioritizer);
  }

  // ── Whom nobody tells ─────────────────────────────────────────────────────

  /** An event whose handling signals no role: no creation, and no change but the last one, into Done. */
  predicate Silent(e: Event) {
    !e.TaskCreated? && (e.StageChanged? ==> e.from == Deploying && e.to == Done)
  }

  predicate SilentLoop(loop: Loop) {
    match loop
    case Listening => true
    case Handling(e) => Silent(e)
    case Entered(_, to) => to == Done
    case _ => false
  }

  /** Every role but the last rests unsignalled, and nothing on its way signals one. */
  ghost predicate Quiescent(s: State) {
    && WaitingRight(s) && SilentLoop(s.loop)
    && (forall i :: 0 <= i < |s.events| ==> Silent(s.events[i]))
    && Dozing(s.agents)
  }

  ghost predicate Dozing(agents: map<Role, Agent>) {
    forall r :: r != Infrarian ==> AgentIn(agents, r).phase.Idle? && !AgentIn(agents, r).permit
  }

  lemma DozingOn(agents: map<Role, Agent>, r: Role, a: Agent)
    requires Dozing(agents) && (r != Infrarian ==> a.phase.Idle? && !a.permit)
    ensures Dozing(agents[r := a])
  {
    var agents' := agents[r := a];
    forall q | q != Infrarian ensures AgentIn(agents', q).phase.Idle? && !AgentIn(agents', q).permit {
      assert q != r ==> AgentIn(agents', q) == AgentIn(agents, q);
    }
  }

  /** No human and no tool calls the dispatcher, and nothing restarts. */
  ghost function Unattended(): (State, Action) -> bool {
    (s: State, a: Action) => !a.Begin? && !a.Continue? && !a.Whole? && !a.Restart?
  }

  lemma InfrarianIsSilent(s: State, x: Input)
    ensures var ch := AgentChange(s, Infrarian, x).0; ch.signal.None? && (ch.event.Some? ==> Silent(ch.event.value))
  {
    hide NextUnblocked, Advance;
  }

  lemma AtRestStays(s: State, r: Role, x: Input)
    requires AgentOf(s, r).phase.Idle? && !AgentOf(s, r).permit
    ensures AgentChange(s, r, x) == (NOTHING, Idle)
  {
  }

  lemma AgentQuiescent(s: State, r: Role, x: Input)
    requires Quiescent(s)
    ensures Quiescent(AgentSection(s, r, x))
  {
    hide AgentSection, AgentChange, Silent;
    if r == Infrarian { InfrarianQuiescent(s, x); }
    else {
      AtRestStays(s, r, x);
      RestingSection(s, r, x);
      DozingOn(s.agents, r, AgentOf(s, r).(permit := false));
    }
  }

  lemma RestingSection(s: State, r: Role, x: Input)
    requires AgentOf(s, r).phase.Idle? && AgentChange(s, r, x) == (NOTHING, Idle)
    ensures AgentSection(s, r, x) == s.(agents := s.agents[r := AgentOf(s, r).(permit := false)])
  {
    hide AgentChange, Perform;
    NoChange(s);
  }

  lemma InfrarianQuiescent(s: State, x: Input)
    requires Quiescent(s)
    ensures Quiescent(AgentSection(s, Infrarian, x))
  {
    hide AgentChange, WriteBoard, WriteStore, WriteReviews, WriteQueue, Silent;
    InfrarianIsSilent(s, x);
    AgentWaitWrites(s, Infrarian, x);
    DozingOn(s.agents, Infrarian, AgentAfter(AgentOf(s, Infrarian), AgentChange(s, Infrarian, x).1));
    var s', ch := AgentSection(s, Infrarian, x), AgentChange(s, Infrarian, x).0;
    forall i | 0 <= i < |s'.events| ensures Silent(s'.events[i]) {
      if i < |s.events| { assert s'.events[i] == s.events[i]; }
    }
  }

  /** The change into Done frees no slot anybody waits for: a role waits for the column it feeds. */
  lemma NobodyWaitsForDeploying(s: State)
    requires WaitingRight(s)
    ensures Deploying !in s.waiting
  {
  }

  lemma LoopIsSilent(s: State, x: Input)
    requires Quiescent(s)
    ensures var (ch, next) := LoopChange(s, x);
      ch.signal.None? && ch.event.None? && SilentLoop(next) && (ch.waiting.KeepWaiting? || ch.waiting.Release?)
  {
    NobodyWaitsForDeploying(s);
  }

  lemma LoopQuiescent(s: State, x: Input)
    requires Quiescent(s)
    ensures Quiescent(LoopSection(s, x))
  {
    hide LoopChange, WriteBoard, WriteStore, WriteReviews, WriteQueue, Silent;
    LoopIsSilent(s, x);
  }

  lemma {:induction false} EventQuiescent(s: State, x: Input, fuel: nat)
    requires Quiescent(s)
    ensures Quiescent(FinishEvent(s, x, fuel))
    decreases fuel
  {
    hide LoopSection, Quiescent;
    LoopQuiescent(s, x);
    if !LoopSection(s, x).loop.Listening? && fuel > 0 { EventQuiescent(LoopSection(s, x), x, fuel - 1); }
  }

  lemma StepQuiescent(s: State, a: Action)
    requires Quiescent(s) && Unattended()(s, a)
    ensures Quiescent(Apply(s, a))
  {
    hide AgentSection, LoopSection, FinishEvent, Silent;
    if a.AgentStep? { AgentQuiescent(s, a.role, a.input); }
    else if a.LoopStep? { LoopQuiescent(s, a.input); }
    else if a.WholeEvent? { EventQuiescent(s, a.input, EVENT_SECTIONS); }
  }

  /**
   * The lost wake-up.  When the last task in work is deployed, the agent moves it to Done and the loop
   * handles what it announces, but no role is told, however long the daemon runs unattended - not even
   * one whose task waited for nothing but that one.
   */
  lemma {:induction false} LostWakeUp(states: seq<State>, run: seq<Action>, k: nat, r: Role)
    requires Trace(states, run, Unattended()) && Quiescent(states[0]) && k < |states| && r != Infrarian
    ensures Quiescent(states[k])
    ensures AgentOf(states[k], r).phase.Idle? && !AgentOf(states[k], r).permit
  {
    hide Trace, Apply, Unattended, WaitingRight, Silent, SilentLoop;
    if k > 0 {
      LostWakeUp(states, run, k - 1, r);
      LastStep(states, run, Unattended(), k);
      StepQuiescent(states[k - 1], run[k - 1]);
    }
  }

  /** The move into Done makes a task ready that waited for the moved one only. */
  lemma FinishMakesReady(s: State, x: Input, id: Id)
    requires WellFormed(s.board) && AgentOf(s, Infrarian).phase.Cleared? && id in s.board.tasks
    requires var done := AgentOf(s, Infrarian).phase.task.id;
      done in s.board.tasks && done != id && s.board.tasks[id].blockedBy == [done]
    ensures var b' := AgentSection(s, Infrarian, x).board; id in b'.tasks && Ready(b', b'.tasks[id])
  {
    hide Advance, WellFormed;
    AdvanceEffect(s.board, AgentOf(s, Infrarian).phase.task.id, Done);
  }
}
