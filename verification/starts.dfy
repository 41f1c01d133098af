/**
 * What an agent works on was free to start.  In every interleaving, edits, overlapping calls and restarts
 * included, a task an agent holds was taken from its column at a moment when all its blockers were done;
 * and after a boot exactly the roles with stored work are awake, and take a free task if there is one.
 */
module Starts {
  import opened Options
  import opened Columns
  import opened Kanban
  import opened ReviewQueues
  import opened Reviews
  import opened Protocol
  import opened Sections
  import opened AgentRuns
  import opened Effects
  import opened Gates
  import opened Wip
  import opened Ownership
  import opened Placement
  import opened Listings
  import opened Journeys

  // ── Nothing is started before its blockers are done ───────────────────────

  /** The column lists the task, and every blocker of it is known and in Done. */
  ghost predicate Free(b: Board, c: Column, t: Task) {
    && (exists id :: id in Ids(b, c) && id in b.tasks && b.tasks[id] == t)
    && forall blocker :: blocker in t.blockedBy ==> blocker in b.tasks && b.tasks[blocker].stage == At(Done)
  }

  /** At some earlier point the role was about to pick, and the task was free in its column. */
  ghost predicate TakenFree(states: seq<State>, k: nat, r: Role, t: Task) {
    exists m {:trigger states[m]} :: 0 <= m < k <= |states| && AgentOf(states[m], r).phase.Unblocked?
                                     && Free(states[m].board, WorkColumn(r), t)
  }

  lemma PicksFree(s: State, r: Role, x: Input)
    requires AgentOf(s, r).phase.Unblocked? && !Resting(AgentChange(s, r, x).1)
    ensures Free(s.board, WorkColumn(r), AgentChange(s, r, x).1.task)
  {
    hide NextUnblocked;
    PickIsUnblocked(s.board, WorkColumn(r));
  }

  /** Only the agent's own section and a restart change where it stands. */
  lemma OthersKeepPhase(s: State, a: Action, r: Role)
    requires !a.Restart? && !(a.AgentStep? && a.role == r)
    ensures AgentOf(Apply(s, a), r).phase == AgentOf(s, r).phase
  {
    hide AgentSection, LoopSection, RunCall, FinishEvent, BeginSection, ContinueSection;
    if a.AgentStep? { PhaseAfter(s, a.role, a.input, r); }
    else if a.LoopStep? { LoopKeepsPhase(s, a.input, r); }
    else if a.WholeEvent? { EventKeepsPhase(s, a.input, r, EVENT_SECTIONS); }
    else if a.Begin? || a.Continue? || a.Whole? { CallStepPhases(s, a); }
  }

  lemma LoopKeepsPhase(s: State, x: Input, r: Role)
    ensures AgentOf(LoopSection(s, x), r).phase == AgentOf(s, r).phase
  {
    hide LoopChange, WriteBoard, WriteStore, WriteReviews, WriteQueue, WriteWaiting;
    SignalKeepsPhases(s.agents, LoopChange(s, x).0.signal);
  }

  lemma {:induction false} EventKeepsPhase(s: State, x: Input, r: Role, fuel: nat)
    ensures AgentOf(FinishEvent(s, x, fuel), r).phase == AgentOf(s, r).phase
    decreases fuel
  {
    hide LoopSection, AgentOf;
    LoopKeepsPhase(s, x, r);
    if !LoopSection(s, x).loop.Listening? && fuel > 0 { EventKeepsPhase(LoopSection(s, x), x, r, fuel - 1); }
  }

  lemma BootRests(s: State, a: Action, r: Role)
    requires a.Restart? && CanBoot(s, a.order, a.reviewOrder)
    ensures AgentOf(Apply(s, a), r).phase.Idle?
  {
    hide CanBoot, FromTasks, Rebuild, Ids;
  }

  /** A restart that is not possible changes nothing. */
  lemma NoBoot(s: State, a: Action)
    requires a.Restart? && !CanBoot(s, a.order, a.reviewOrder)
    ensures Apply(s, a) == s
  {
    hide CanBoot;
  }

  lemma StepFromFree(s: State, a: Action, r: Role)
    requires !Resting(AgentOf(Apply(s, a), r).phase)
    ensures var t := AgentOf(Apply(s, a), r).phase.task;
      (AgentOf(s, r).phase.Unblocked? && Free(s.board, WorkColumn(r), t))
      || (!Resting(AgentOf(s, r).phase) && AgentOf(s, r).phase.task == t)
  {
    hide Apply, Free, AgentSection, AgentChange, CanBoot;
    if a.Restart? {
      if CanBoot(s, a.order, a.reviewOrder) { BootRests(s, a, r); } else { NoBoot(s, a); }
    } else if a.AgentStep? && a.role == r {
      OwnPhase(s, a);
      if AgentOf(s, r).phase.Unblocked? { PicksFree(s, r, a.input); } else { SnapshotKept(s, r, a.input); }
    } else {
      OthersKeepPhase(s, a, r);
    }
  }

  lemma OwnPhase(s: State, a: Action)
    requires a.AgentStep?
    ensures AgentOf(Apply(s, a), a.role).phase == AgentChange(s, a.role, a.input).1
  {
    hide AgentSection, AgentChange;
    PhaseAfter(s, a.role, a.input, a.role);
  }

  /**
   * No task is started while it is blocked.  From any state in which the role rests, in every
   * interleaving, whatever task the role holds was listed in its column, all its blockers known and in
   * Done, at an earlier point at which the role was about to pick.
   */
  lemma {:induction false} WorkWasFree(states: seq<State>, run: seq<Action>, k: nat, r: Role)
    requires Trace(states, run, Anything()) && Resting(AgentOf(states[0], r).phase) && k < |states|
    ensures !Resting(AgentOf(states[k], r).phase) ==> TakenFree(states, k, r, AgentOf(states[k], r).phase.task)
  {
    hide Trace, Apply, Free, Anything;
    if k > 0 {
      WorkWasFree(states, run, k - 1, r);
      LastStep(states, run, Anything(), k);
      if !Resting(AgentOf(states[k], r).phase) {
        StepFromFree(states[k - 1], run[k - 1], r);
        var t := AgentOf(states[k], r).phase.task;
        if !Resting(AgentOf(states[k - 1], r).phase) && AgentOf(states[k - 1], r).phase.task == t {
          TakenLater(states, k, r, t);
        }
      }
    }
  }

  lemma TakenLater(states: seq<State>, k: nat, r: Role, t: Task)
    requires 0 < k <= |states| && TakenFree(states, k - 1, r, t)
    ensures TakenFree(states, k, r, t)
  {
    hide Free;
  }

  // ── Who is awake after a boot ─────────────────────────────────────────────

  lemma PlacedNext(records: seq<Task>, c: Column)
    requires records != []
    ensures var b, last := Place(records[..|records| - 1]), records[|records| - 1];
      Ids(Place(records), c) == if last.Column() == c then Ids(b, c) + [last.id] else Ids(b, c)
  {
  }

  lemma {:induction false} PlacedIds(records: seq<Task>, c: Column)
    ensures Ids(Place(records), c) != [] <==> exists i :: 0 <= i < |records| && records[i].Column() == c
  {
    if records == [] {
      assert Ids(Place([]), c) == [];
    } else {
      hide Place, Ids;
      var init := records[..|records| - 1];
      PlacedNext(records, c);
      PlacedIds(init, c);
      assert forall i :: 0 <= i < |init| ==> init[i] == records[i];
    }
  }

  lemma {:induction false} SortedCounts(b: Board, order: seq<Column>, c: Column)
    ensures Count(SortColumns(b, order), c) == Count(b, c)
  {
    if order != [] {
      SortedCounts(b, order[..|order| - 1], c);
      SortColumnLists(SortColumns(b, order[..|order| - 1]), order[|order| - 1]);
    }
  }

  /** The booted board lists something in a column exactly when some stored record shows it. */
  lemma BootLists(s: State, order: seq<Id>, reviewOrder: seq<Id>, c: Column)
    requires CanBoot(s, order, reviewOrder)
    ensures Ids(FromTasks(Lookup(s.store, order)), c) != [] <==> exists id :: id in s.store && ToColumn(s.store[id].stage) == c
  {
    hide Place, SortColumns, Lookup;
    var records := Lookup(s.store, order);
    LookupTasks(s.store, order);
    PlacedIds(records, c);
    SortedCounts(Place(records), ALL_COLUMNS, c);
    if id :| id in s.store && ToColumn(s.store[id].stage) == c {
      var i :| 0 <= i < |order| && order[i] == id;
      assert records[i].Column() == c;
    }
    if i :| 0 <= i < |records| && records[i].Column() == c {
      assert order[i] in s.store && s.store[order[i]] == records[i];
    }
  }

  /**
   * After a boot every role rests without a flag or an answer, and it is awake exactly when some stored
   * record shows its column.
   */
  lemma BootWakesIff(s: State, order: seq<Id>, reviewOrder: seq<Id>, limits: map<Column, Priority>, r: Role)
    requires CanBoot(s, order, reviewOrder)
    ensures var s' := Boot(s, order, reviewOrder, limits);
      && r in s'.agents
      && s'.agents[r].phase.Idle? && !s'.agents[r].blocked && s'.agents[r].answer.None?
      && (s'.agents[r].permit <==> exists id :: id in s.store && ToColumn(s.store[id].stage) == WorkColumn(r))
  {
    hide CanBoot, FromTasks, Lookup, Rebuild, QueueItems, Ids;
    EveryRole(r);
    BootLists(s, order, reviewOrder, WorkColumn(r));
  }

  /** Every role rests, and the awake ones are those whose column some stored record shows. */
  ghost predicate AwakeWithWork(agents: map<Role, Agent>, store: map<Id, Task>) {
    forall r :: r in agents && agents[r].phase.Idle? && !agents[r].blocked && agents[r].answer.None?
                && (agents[r].permit <==> exists id :: id in store && ToColumn(store[id].stage) == WorkColumn(r))
  }

  lemma BootWakes(s: State, order: seq<Id>, reviewOrder: seq<Id>, limits: map<Column, Priority>)
    requires CanBoot(s, order, reviewOrder)
    ensures AwakeWithWork(Boot(s, order, reviewOrder, limits).agents, s.store)
  {
    hide Boot, CanBoot;
    forall r: Role {
      BootWakesIff(s, order, reviewOrder, limits, r);
    }
  }

  /** A stored task of the role's column none of whose blockers is unfinished. */
  ghost predicate FreeInStore(store: map<Id, Task>, r: Role, id: Id) {
    && id in store && ToColumn(store[id].stage) == WorkColumn(r)
    && forall blocker :: blocker in store[id].blockedBy ==> blocker in store && store[blocker].stage == At(Done)
  }

  /** After a boot a role with a free task in the store takes one, of the smallest priority number among them. */
  lemma BootedRoleStarts(s: State, order: seq<Id>, reviewOrder: seq<Id>, limits: map<Column, Priority>, r: Role, id: Id)
    returns (run: seq<Action>)
    requires StoreFiled(s) && CanBoot(s, order, reviewOrder) && FreeInStore(s.store, r, id)
    ensures var s' := Exec(s, [Restart(order, reviewOrder, limits)] + run);
      && AgentOf(s', r).phase.Running?
      && FreeInStore(s.store, r, AgentOf(s', r).phase.task.id)
      && AgentOf(s', r).phase.task == s.store[AgentOf(s', r).phase.task.id]
      && AgentOf(s', r).phase.task.priority <= s.store[id].priority
  {
    hide Exec, FinishAgent, AfterWake, Boot, CanBoot, NextUnblocked, WellFormed;
    var s1 := Boot(s, order, reviewOrder, limits);
    run := AgentRun(s1, r, SUCCESS, 4);
    ExecFirst(s, Restart(order, reviewOrder, limits), run);
    BootWakesIff(s, order, reviewOrder, limits, r);
    WakeIsAtomic(s1, r, SUCCESS, true);
    BootBoard(s, order, reviewOrder, limits);
    PickIsBestReady(s1.board, WorkColumn(r));
    assert Ready(s1.board, s1.board.tasks[id]);
    WakeRuns(s1, r, NextUnblocked(s1.board, WorkColumn(r)).value);
  }

  lemma WakeRuns(s: State, r: Role, t: Task)
    requires !AgentOf(s, r).blocked && NextUnblocked(s.board, WorkColumn(r)) == Some(t)
    ensures AgentOf(AfterWake(s, r, "branch"), r).phase == Running(t)
  {
    hide AfterWake, NextUnblocked, WriteBoard;
    WakeIs(s, r, t);
  }
}
