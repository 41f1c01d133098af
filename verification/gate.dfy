/**
 * Gate safety: no task gets past a buffer column without the human decision recorded for it, in
 * any interleaving of agents, calls, restarts and lost events.
 *
 * In mode `Strict` the decision is an approval; rework must then target a column left of the
 * buffer.  In mode `Lenient` a recorded rejection to a column right of the buffer also counts, and
 * no hypothesis on rework is needed.  Mode `Unchecked` asks for no decisions: what is left of the
 * invariant is the shape of the state, which other proofs build on.
 */
module Gates {
  import opened Options
  import opened Columns
  import opened Kanban
  import opened ReviewQueues
  import opened Reviews
  import opened Protocol
  import opened Effects

  datatype Mode = Strict | Lenient | Unchecked

  predicate Exits(mode: Mode, e: HistoryEntry, buffer: Column) {
    || (e.Approval? && Next(buffer).Some? && e.targetStage == At(Next(buffer).value))
    || (mode.Lenient? && e.Rejection? && Index(ToColumn(e.returnedTo)) > Index(buffer))
  }

  predicate Exited(mode: Mode, h: seq<HistoryEntry>, buffer: Column) {
    exists i :: 0 <= i < |h| && Exits(mode, h[i], buffer)
  }

  /** Every buffer left of `c` has been passed by a recorded decision. */
  ghost predicate Passed(mode: Mode, h: seq<HistoryEntry>, c: Column) {
    mode.Unchecked? || forall buffer {:trigger Exited(mode, h, buffer)} :: IsBuffer(buffer) && Index(buffer) < Index(c) ==> Exited(mode, h, buffer)
  }

  ghost predicate TaskPassed(mode: Mode, t: Task) {
    Passed(mode, t.history, t.Column())
  }

  // ── Hypotheses ────────────────────────────────────────────────────────────

  /** In strict runs `OpRejectTo` names a column left of the buffer. */
  ghost predicate ReworkAllowed(mode: Mode, s: State, op: Op) {
    mode.Strict? && op.OpRejectTo? && BufferOf(s.board, op.id).Some? ==>
      Index(op.target) < Index(BufferOf(s.board, op.id).value)
  }

  /** Besides, nobody edits a task through `OpUpdate`. */
  ghost predicate OpAllowed(mode: Mode, s: State, op: Op) {
    !op.OpUpdate? && ReworkAllowed(mode, s, op)
  }

  ghost function Allowed(mode: Mode): (State, Action) -> bool {
    (s: State, a: Action) =>
      (a.Begin? ==> OpAllowed(mode, s, a.op)) && (a.Whole? ==> OpAllowed(mode, s, a.op))
  }

  // ── The invariant ─────────────────────────────────────────────────────────

  ghost predicate Core(mode: Mode, s: State) {
    && WellFormed(s.board)
    && (forall id :: id in s.board.tasks ==> TaskPassed(mode, s.board.tasks[id]) && id in s.used)
    && (forall id :: id in s.store ==> s.store[id].id == id && TaskPassed(mode, s.store[id]) && id in s.used)
  }

  /** The board's record of the task has passed all buffers left of `c`. */
  ghost predicate Holds(mode: Mode, tasks: map<Id, Task>, id: Id, c: Column) {
    id in tasks && Passed(mode, tasks[id].history, c)
  }

  /** An agent's snapshot stays good however long the run takes. */
  ghost predicate PhaseFits(mode: Mode, tasks: map<Id, Task>, r: Role, p: Phase) {
    Resting(p) || (Holds(mode, tasks, p.task.id, WorkColumn(r)) && TaskPassed(mode, p.task))
  }

  ghost predicate DecisionFits(mode: Mode, tasks: map<Id, Task>, id: Id, d: Decision) {
    match d
    case Approved(target) =>
      exists buffer :: IsBuffer(buffer) && Next(buffer) == Some(target) && Holds(mode, tasks, id, buffer)
    case Rejected(target, _) => RoleOf(target).Some? && (mode.Strict? ==> Holds(mode, tasks, id, target))
  }

  /** A half-done call stays good: what it checked still entitles it to what it is about to write. */
  ghost predicate CallFits(mode: Mode, tasks: map<Id, Task>, used: set<Id>, call: Call) {
    match call
    case Targeted(id, target, _) => RoleOf(target).Some? && Holds(mode, tasks, id, target)
    case Deciding(id, d) => DecisionFits(mode, tasks, id, d)
    case Adding(t) => t.id in used && t.id !in tasks && t.stage == Backlog
    case StoringPriority(t, _) => t.id in used && TaskPassed(mode, t)
    case StoringNote(t, _) => t.id in used && TaskPassed(mode, t)
    case StoringEdit(_) => false
    case SettingEdit(_) => false
    case _ => true
  }

  ghost predicate Separate(calls: map<nat, Call>, call: Call) {
    call.Adding? ==> forall pid :: pid in calls && calls[pid].Adding? ==> calls[pid].task.id != call.task.id
  }

  ghost predicate CallsFit(mode: Mode, tasks: map<Id, Task>, used: set<Id>, calls: map<nat, Call>) {
    && (forall pid :: pid in calls ==> CallFits(mode, tasks, used, calls[pid]))
    && (forall p, q :: p in calls && q in calls && p != q && calls[p].Adding? && calls[q].Adding?
                       ==> calls[p].task.id != calls[q].task.id)
  }

  ghost predicate PhasesFit(mode: Mode, tasks: map<Id, Task>, agents: map<Role, Agent>) {
    forall r :: PhaseFits(mode, tasks, r, AgentIn(agents, r).phase)
  }

  ghost predicate Inv(mode: Mode, s: State) {
    InvWith(mode, s, s.calls)
  }

  /** The invariant, with the given calls waiting. */
  ghost predicate InvWith(mode: Mode, s: State, calls: map<nat, Call>) {
    Core(mode, s) && PhasesFit(mode, s.board.tasks, s.agents) && CallsFit(mode, s.board.tasks, s.used, calls)
  }

  // ── Histories only grow ───────────────────────────────────────────────────

  ghost predicate Grows(tasks: map<Id, Task>, tasks': map<Id, Task>) {
    forall id :: id in tasks ==> id in tasks' && tasks[id].history <= tasks'[id].history
  }

  lemma PassedGrows(mode: Mode, h: seq<HistoryEntry>, h': seq<HistoryEntry>, c: Column, c': Column)
    requires Passed(mode, h, c) && h <= h' && Index(c') <= Index(c)
    ensures Passed(mode, h', c')
  {
    forall buffer | !mode.Unchecked? && IsBuffer(buffer) && Index(buffer) < Index(c') ensures Exited(mode, h', buffer) {
      assert Exited(mode, h, buffer);
      var i :| 0 <= i < |h| && Exits(mode, h[i], buffer);
      assert Exits(mode, h'[i], buffer);
    }
  }

  lemma HoldsGrows(mode: Mode, tasks: map<Id, Task>, tasks': map<Id, Task>, id: Id, c: Column)
    requires Grows(tasks, tasks') && Holds(mode, tasks, id, c)
    ensures Holds(mode, tasks', id, c)
  {
    PassedGrows(mode, tasks[id].history, tasks'[id].history, c, c);
  }

  lemma PhasesGrow(mode: Mode, tasks: map<Id, Task>, tasks': map<Id, Task>, agents: map<Role, Agent>)
    requires Grows(tasks, tasks') && PhasesFit(mode, tasks, agents)
    ensures PhasesFit(mode, tasks', agents)
  {
    forall r ensures PhaseFits(mode, tasks', r, AgentIn(agents, r).phase) {
      PhaseGrows(mode, tasks, tasks', r, AgentIn(agents, r).phase);
    }
  }

  lemma PhaseGrows(mode: Mode, tasks: map<Id, Task>, tasks': map<Id, Task>, r: Role, p: Phase)
    requires Grows(tasks, tasks') && PhaseFits(mode, tasks, r, p)
    ensures PhaseFits(mode, tasks', r, p)
  {
    if !Resting(p) {
      HoldsGrows(mode, tasks, tasks', p.task.id, WorkColumn(r));
    }
  }

  lemma CallGrows(mode: Mode, tasks: map<Id, Task>, tasks': map<Id, Task>, used: set<Id>, used': set<Id>, call: Call)
    requires Grows(tasks, tasks') && used <= used' && CallFits(mode, tasks, used, call)
    requires call.Adding? ==> call.task.id !in tasks'
    ensures CallFits(mode, tasks', used', call)
  {
    if call.Targeted? { HoldsGrows(mode, tasks, tasks', call.id, call.target); }
    else if call.Deciding? { DecisionGrows(mode, tasks, tasks', call.id, call.decision); }
  }

  lemma DecisionGrows(mode: Mode, tasks: map<Id, Task>, tasks': map<Id, Task>, id: Id, d: Decision)
    requires Grows(tasks, tasks') && DecisionFits(mode, tasks, id, d)
    ensures DecisionFits(mode, tasks', id, d)
  {
    match d {
      case Approved(target) =>
        var buffer :| IsBuffer(buffer) && Next(buffer) == Some(target) && Holds(mode, tasks, id, buffer);
        HoldsGrows(mode, tasks, tasks', id, buffer);
      case Rejected(target, _) =>
        if mode.Strict? { HoldsGrows(mode, tasks, tasks', id, target); }
    }
  }

  lemma CallsGrow(mode: Mode, tasks: map<Id, Task>, tasks': map<Id, Task>, used: set<Id>, used': set<Id>,
                  calls: map<nat, Call>)
    requires Grows(tasks, tasks') && used <= used' && CallsFit(mode, tasks, used, calls)
    requires forall pid :: pid in calls && calls[pid].Adding? ==> calls[pid].task.id !in tasks'
    ensures CallsFit(mode, tasks', used', calls)
  {
    forall pid | pid in calls ensures CallFits(mode, tasks', used', calls[pid]) {
      CallGrows(mode, tasks, tasks', used, used', calls[pid]);
    }
  }

  // ── What a section may write ──────────────────────────────────────────────

  ghost predicate WriteFits(mode: Mode, s: State, w: BoardWrite) {
    match w
    case Move(id, to) => id in s.board.tasks ==> Holds(mode, s.board.tasks, id, to)
    case Decide(id, d, _) => id in s.board.tasks ==> DecisionFits(mode, s.board.tasks, id, d)
    case Insert(t) => t.id !in s.board.tasks && t.id in s.used && t.stage == Backlog
    case Replace(_) => false
    case _ => true
  }

  ghost predicate ChangeFits(mode: Mode, s: State, ch: Change) {
    && WriteFits(mode, s, ch.board)
    && (ch.store.SaveRecord? ==> TaskPassed(mode, ch.store.task)
                                 && (ch.store.task.id in s.used || ch.newId == Some(ch.store.task.id)))
  }

  /** A decided record has passed everything left of where it was sent. */
  lemma DecidedPassed(mode: Mode, t: Task, d: Decision, now: int)
    requires DecisionFits(mode, map[t.id := t], t.id, d)
    ensures TaskPassed(mode, Decided(t, d, now)) && t.history <= Decided(t, d, now).history
  {
    var t' := Decided(t, d, now);
    var entry := t'.history[|t.history|];
    assert t'.history == t.history + [entry];
    forall buffer | !mode.Unchecked? && IsBuffer(buffer) && Index(buffer) < Index(d.target)
      ensures Exited(mode, t'.history, buffer)
    {
      if Exits(mode, entry, buffer) {
        assert Exits(mode, t'.history[|t.history|], buffer);
      } else {
        EarlierExit(mode, t, d, now, buffer);
      }
    }
  }

  /** A buffer the new entry does not exit was passed before the decision. */
  lemma EarlierExit(mode: Mode, t: Task, d: Decision, now: int, buffer: Column)
    requires DecisionFits(mode, map[t.id := t], t.id, d)
    requires IsBuffer(buffer) && Index(buffer) < Index(d.target) && !mode.Unchecked?
    requires !Exits(mode, Decided(t, d, now).history[|t.history|], buffer)
    ensures Exited(mode, Decided(t, d, now).history, buffer)
  {
    var source := d.target;
    if d.Approved? {
      var b :| IsBuffer(b) && Next(b) == Some(d.target) && Holds(mode, map[t.id := t], t.id, b);
      source := b;
    }
    assert Index(buffer) < Index(source);
    PassedGrows(mode, t.history, Decided(t, d, now).history, source, source);
  }

  ghost predicate GoodGrowth(mode: Mode, tasks: map<Id, Task>, tasks': map<Id, Task>, added: set<Id>) {
    && Grows(tasks, tasks')
    && (forall id :: id in tasks' ==> TaskPassed(mode, tasks'[id]))
    && tasks'.Keys == tasks.Keys + added
  }

  lemma WriteGrows(mode: Mode, s: State, w: BoardWrite)
    requires Core(mode, s) && WriteFits(mode, s, w)
    ensures var b' := WriteBoard(s.board, w).0;
      && WellFormed(b')
      && GoodGrowth(mode, s.board.tasks, b'.tasks, if w.Insert? then {w.task.id} else {})
  {
    WriteBoardEffect(s.board, w);
    if w.Move? || w.Decide? || w.Block? { MoveGrows(mode, s, w); }
    else { PlainGrows(mode, s, w, WriteBoard(s.board, w).0, WriteBoard(s.board, w).1); }
  }

  lemma PlainGrows(mode: Mode, s: State, w: BoardWrite, b': Board, ok: bool)
    requires Core(mode, s) && WriteFits(mode, s, w) && BoardChange(s.board, w, b', ok)
    requires !w.Move? && !w.Decide? && !w.Block?
    ensures GoodGrowth(mode, s.board.tasks, b'.tasks, if w.Insert? then {w.task.id} else {})
  {
    if w.Reprioritize? {
      RankedPassed(mode, s.board.tasks, b'.tasks);
    }
  }

  lemma MoveGrows(mode: Mode, s: State, w: BoardWrite)
    requires Core(mode, s) && WriteFits(mode, s, w) && (w.Move? || w.Decide? || w.Block?)
    ensures GoodGrowth(mode, s.board.tasks, WriteBoard(s.board, w).0.tasks, {})
  {
    hide WriteBoard, WellFormed, TaskPassed, Decided, BlockedRecord, GoodGrowth;
    WriteBoardEffect(s.board, w);
    if w.id in s.board.tasks {
      if w.Decide? {
        OwnId(s.board, w.id);
        DecidedHere(mode, s.board.tasks, w.id, w.decision, w.now);
        ReplaceGrows(mode, s.board.tasks, w.id, Decided(s.board.tasks[w.id], w.decision, w.now));
      } else { MovedGrows(mode, s, w); }
    } else { NothingGrows(mode, s.board.tasks); }
  }

  lemma NothingGrows(mode: Mode, tasks: map<Id, Task>)
    requires forall id :: id in tasks ==> TaskPassed(mode, tasks[id])
    ensures GoodGrowth(mode, tasks, tasks, {})
  {
  }

  lemma MovedGrows(mode: Mode, s: State, w: BoardWrite)
    requires Core(mode, s) && WriteFits(mode, s, w) && (w.Move? || w.Block?) && w.id in s.board.tasks
    ensures GoodGrowth(mode, s.board.tasks, WriteBoard(s.board, w).0.tasks, {})
  {
    hide WriteBoard, WellFormed, GoodGrowth;
    WriteBoardEffect(s.board, w);
    var t := s.board.tasks[w.id];
    ReplaceGrows(mode, s.board.tasks, w.id, if w.Move? then t.(stage := At(w.target)) else BlockedRecord(t, w.blockedBy));
  }

  lemma ReplaceGrows(mode: Mode, tasks: map<Id, Task>, id: Id, t: Task)
    requires forall i :: i in tasks ==> TaskPassed(mode, tasks[i])
    requires id in tasks && TaskPassed(mode, t) && tasks[id].history <= t.history
    ensures GoodGrowth(mode, tasks, tasks[id := t], {})
  {
  }

  lemma DecidedHere(mode: Mode, tasks: map<Id, Task>, id: Id, d: Decision, now: int)
    requires id in tasks && tasks[id].id == id && DecisionFits(mode, tasks, id, d)
    ensures TaskPassed(mode, Decided(tasks[id], d, now)) && tasks[id].history <= Decided(tasks[id], d, now).history
  {
    var one := map[id := tasks[id]];
    if d.Approved? {
      var b :| IsBuffer(b) && Next(b) == Some(d.target) && Holds(mode, tasks, id, b);
      assert Holds(mode, one, id, b);
    }
    DecidedPassed(mode, tasks[id], d, now);
  }

  lemma RankedPassed(mode: Mode, tasks: map<Id, Task>, tasks': map<Id, Task>)
    requires SamePlaces(tasks, tasks') && forall id :: id in tasks ==> TaskPassed(mode, tasks[id])
    ensures Grows(tasks, tasks') && forall id :: id in tasks' ==> TaskPassed(mode, tasks'[id])
  {
  }

  lemma PerformKeeps(mode: Mode, s: State, ch: Change)
    requires Core(mode, s) && ChangeFits(mode, s, ch)
    ensures Core(mode, Perform(s, ch))
    ensures Grows(s.board.tasks, Perform(s, ch).board.tasks) && s.used <= Perform(s, ch).used
    ensures Perform(s, ch).board.tasks.Keys
            == s.board.tasks.Keys + (if ch.board.Insert? then {ch.board.task.id} else {})
  {
    WriteGrows(mode, s, ch.board);
    StorePassed(mode, s, ch);
    assert forall id :: id in Perform(s, ch).board.tasks ==> id in s.board.tasks || ch.board.Insert?;
  }

  lemma StorePassed(mode: Mode, s: State, ch: Change)
    requires Core(mode, s) && ChangeFits(mode, s, ch)
    ensures var store := WriteStore(s.store, s.board, ch.store); var used := Perform(s, ch).used;
      forall id :: id in store ==> store[id].id == id && TaskPassed(mode, store[id]) && id in used
  {
  }

  // ── Agents ────────────────────────────────────────────────────────────────

  /** No buffer lies between a work column and the column its role feeds. */
  lemma TargetPassed(mode: Mode, h: seq<HistoryEntry>, r: Role)
    requires Passed(mode, h, WorkColumn(r))
    ensures Passed(mode, h, Target(r))
  {
  }

  lemma PickFits(mode: Mode, s: State, r: Role)
    requires Core(mode, s)
    ensures var pick := NextUnblocked(s.board, WorkColumn(r));
      pick.Some? ==> PhaseFits(mode, s.board.tasks, r, Picked(pick.value))
  {
    PickIsBestReady(s.board, WorkColumn(r));
  }

  lemma AgentFits(mode: Mode, s: State, r: Role, x: Input)
    requires Core(mode, s) && PhaseFits(mode, s.board.tasks, r, AgentOf(s, r).phase)
    ensures var (ch, next) := AgentChange(s, r, x);
      ChangeFits(mode, s, ch) && !ch.board.Insert? && PhaseFits(mode, s.board.tasks, r, next)
  {
    var p := AgentOf(s, r).phase;
    AgentWrites(s, r, x);
    if p.Unblocked? { PickFits(mode, s, r); }
    else { SnapshotKept(s, r, x); }
    if p.Cleared? { TargetPassed(mode, s.board.tasks[p.task.id].history, r); }
  }

  lemma AgentKeeps(mode: Mode, s: State, r: Role, x: Input)
    requires Inv(mode, s)
    ensures Inv(mode, AgentSection(s, r, x))
  {
    AgentFits(mode, s, r, x);
    AgentPhases(mode, s, r, x);
    var (ch, next) := AgentChange(s, r, x);
    PerformKeeps(mode, s, ch);
    var s' := AgentSection(s, r, x);
    CallsGrow(mode, s.board.tasks, s'.board.tasks, s.used, s'.used, s.calls);
    PhasesGrow(mode, s.board.tasks, s'.board.tasks, s'.agents);
  }

  lemma AgentPhases(mode: Mode, s: State, r: Role, x: Input)
    requires PhasesFit(mode, s.board.tasks, s.agents)
    requires PhaseFits(mode, s.board.tasks, r, AgentChange(s, r, x).1)
    ensures PhasesFit(mode, s.board.tasks, AgentSection(s, r, x).agents)
  {
    hide AgentChange, Perform;
    forall q ensures PhaseFits(mode, s.board.tasks, q, AgentIn(AgentSection(s, r, x).agents, q).phase) {
      assert PhaseFits(mode, s.board.tasks, q, AgentIn(s.agents, q).phase);
    }
  }

  // ── The event loop ────────────────────────────────────────────────────────

  lemma SignalKeepsPhases(agents: map<Role, Agent>, signal: Option<Role>)
    ensures forall r :: AgentIn(WriteSignal(agents, signal), r).phase == AgentIn(agents, r).phase
  {
  }

  lemma LoopWritesNoTask(s: State, x: Input)
    ensures LoopChange(s, x).0.board == KeepBoard && LoopChange(s, x).0.store == KeepStore
  {
  }

  lemma LoopKeeps(mode: Mode, s: State, x: Input)
    requires Inv(mode, s)
    ensures Inv(mode, LoopSection(s, x))
  {
    LoopWritesNoTask(s, x);
    var ch := LoopChange(s, x).0;
    PerformKeeps(mode, s, ch);
    SignalKeepsPhases(s.agents, ch.signal);
    var s' := LoopSection(s, x);
    CallsGrow(mode, s.board.tasks, s'.board.tasks, s.used, s'.used, s.calls);
  }

  lemma {:induction false} EventKeeps(mode: Mode, s: State, x: Input, fuel: nat)
    requires Inv(mode, s)
    ensures Inv(mode, FinishEvent(s, x, fuel))
    decreases fuel
  {
    LoopKeeps(mode, s, x);
    var s1 := LoopSection(s, x);
    if !s1.loop.Listening? && fuel > 0 {
      EventKeeps(mode, s1, x, fuel - 1);
    }
  }

  // ── Calls ─────────────────────────────────────────────────────────────────

  lemma BufferIsColumn(b: Board, id: Id)
    requires WellFormed(b)
    ensures BufferOf(b, id).Some? ==> id in b.tasks && b.tasks[id].Column() == BufferOf(b, id).value
                                      && IsBuffer(BufferOf(b, id).value)
    ensures BufferOf(b, id).None? && id in b.tasks ==> !IsBuffer(b.tasks[id].Column())
  {
    FindColumnIsStage(b, id);
  }

  /** What a buffer check entitles the caller to. */
  lemma CheckedFits(mode: Mode, s: State, id: Id)
    requires Core(mode, s) && BufferOf(s.board, id).Some?
    ensures var c := BufferOf(s.board, id).value;
      && DecisionFits(mode, s.board.tasks, id, Approved(Next(c).value))
      && forall target :: Index(target) < Index(c) ==> Holds(mode, s.board.tasks, id, target)
  {
    BufferIsColumn(s.board, id);
    var c := BufferOf(s.board, id).value;
    assert Holds(mode, s.board.tasks, id, c);
    forall target | Index(target) < Index(c) ensures Holds(mode, s.board.tasks, id, target) {
      PassedGrows(mode, s.board.tasks[id].history, s.board.tasks[id].history, c, target);
    }
  }

  lemma BeginFits(mode: Mode, s: State, op: Op, x: Input)
    requires Core(mode, s) && OpAllowed(mode, s, op)
    ensures var (ch, next) := BeginChange(s, op, x);
      && ChangeFits(mode, s, ch) && !ch.board.Insert?
      && (next.Some? ==> CallFits(mode, s.board.tasks, Perform(s, ch).used, next.value))
      && (next.Some? && next.value.Adding? ==> next.value.task.id !in s.used)
  {
    if op.OpApprove? || op.OpReject? || op.OpRejectTo? {
      if BufferOf(s.board, op.id).Some? {
        DecisionBegins(mode, s, op, x);
      }
    } else {
      OtherOps(mode, s, op, x);
    }
  }

  lemma DecisionBegins(mode: Mode, s: State, op: Op, x: Input)
    requires Core(mode, s) && OpAllowed(mode, s, op) && (op.OpApprove? || op.OpReject? || op.OpRejectTo?)
    requires BufferOf(s.board, op.id).Some?
    ensures var (ch, next) := BeginChange(s, op, x);
      && ch == NOTHING && (next.Some? ==> !next.value.Adding?)
      && (next.Some? ==> CallFits(mode, s.board.tasks, s.used, next.value))
  {
    hide Core, DecisionFits, Holds, BufferOf;
    CheckedFits(mode, s, op.id);
    BufferIsBuffer(s.board, op.id);
    if op.OpRejectTo? && RoleOf(op.target).Some? { RejectFits(mode, s.board.tasks, op.id, op.target, op.feedback); }
  }

  lemma RejectFits(mode: Mode, tasks: map<Id, Task>, id: Id, target: Column, feedback: string)
    requires RoleOf(target).Some? && (mode.Strict? ==> Holds(mode, tasks, id, target))
    ensures DecisionFits(mode, tasks, id, Rejected(target, feedback))
  {
  }

  lemma OtherOps(mode: Mode, s: State, op: Op, x: Input)
    requires Core(mode, s) && OpAllowed(mode, s, op) && !op.OpApprove? && !op.OpReject? && !op.OpRejectTo?
    ensures var (ch, next) := BeginChange(s, op, x);
      && ChangeFits(mode, s, ch) && !ch.board.Insert?
      && (next.Some? ==> CallFits(mode, s.board.tasks, Perform(s, ch).used, next.value))
      && (next.Some? && next.value.Adding? ==> next.value.task.id !in s.used)
  {
  }

  lemma ContinueFits(mode: Mode, s: State, call: Call, x: Input)
    requires Core(mode, s) && CallFits(mode, s.board.tasks, s.used, call)
    ensures var (ch, next) := ContinueChange(s, call, x);
      && ChangeFits(mode, s, ch)
      && (ch.board.Insert? ==> call.Adding? && ch.board.task == call.task)
      && (next.Some? ==> CallFits(mode, s.board.tasks, s.used, next.value) && !next.value.Adding?)
  {
  }

  lemma DeliverKeepsPhases(agents: map<Role, Agent>, call: Call)
    ensures forall r :: AgentIn(Deliver(agents, call), r).phase == AgentIn(agents, r).phase
  {
  }

  ghost predicate Runs(mode: Mode, s: State, calls: map<nat, Call>, call: Call) {
    CallFits(mode, s.board.tasks, s.used, call) && Separate(calls, call)
  }

  lemma PerformKeepsAll(mode: Mode, s: State, calls: map<nat, Call>, ch: Change)
    requires InvWith(mode, s, calls) && ChangeFits(mode, s, ch)
    requires ch.board.Insert? ==>
      forall pid :: pid in calls && calls[pid].Adding? ==> calls[pid].task.id != ch.board.task.id
    ensures InvWith(mode, Perform(s, ch), calls)
  {
    var s1 := Perform(s, ch);
    PerformKeeps(mode, s, ch);
    CallsGrow(mode, s.board.tasks, s1.board.tasks, s.used, s1.used, calls);
    PhasesGrow(mode, s.board.tasks, s1.board.tasks, s.agents);
    SignalKeepsPhases(s.agents, ch.signal);
  }

  lemma NextCallKeeps(mode: Mode, s: State, ch: Change, next: Call)
    requires Core(mode, s) && ChangeFits(mode, s, ch) && !next.Adding?
    requires CallFits(mode, s.board.tasks, s.used, next)
    ensures CallFits(mode, Perform(s, ch).board.tasks, Perform(s, ch).used, next)
  {
    PerformKeeps(mode, s, ch);
    CallGrows(mode, s.board.tasks, Perform(s, ch).board.tasks, s.used, Perform(s, ch).used, next);
  }

  /** A section of a running call keeps the invariant for it and for every other call. */
  lemma ContinueKeeps(mode: Mode, s: State, calls: map<nat, Call>, call: Call, x: Input)
    requires InvWith(mode, s, calls) && Runs(mode, s, calls, call)
    ensures var (s1, next) := ContinueSection(s, call, x);
      InvWith(mode, s1, calls) && (next.Some? ==> Runs(mode, s1, calls, next.value)) && s1.calls == s.calls
  {
    hide ContinueChange, ChangeFits, CallFits, Core, CallsFit, PhasesFit, Perform, Deliver;
    ContinueFits(mode, s, call, x);
    var (ch, next) := ContinueChange(s, call, x);
    PerformKeepsAll(mode, s, calls, ch);
    PerformKeepsCalls(s, ch);
    if next.Some? { NextCallKeeps(mode, s, ch, next.value); }
    DeliveryKeeps(mode, Perform(s, ch), calls, call);
  }

  lemma DeliveryKeeps(mode: Mode, s: State, calls: map<nat, Call>, call: Call)
    requires InvWith(mode, s, calls)
    ensures InvWith(mode, s.(agents := Deliver(s.agents, call)), calls)
  {
    hide WellFormed, CallsFit, Deliver, PhaseFits, TaskPassed;
    DeliverKeepsPhases(s.agents, call);
  }

  lemma BeginKeeps(mode: Mode, s: State, op: Op, x: Input)
    requires Inv(mode, s) && OpAllowed(mode, s, op)
    ensures var (s1, next) := BeginSection(s, op, x);
      && InvWith(mode, s1, s.calls) && s1.calls == s.calls
      && (next.Some? ==> Runs(mode, s1, s.calls, next.value))
  {
    hide BeginChange, ChangeFits, WellFormed, PhasesFit, Perform, TaskPassed;
    BeginFits(mode, s, op, x);
    var (ch, next) := BeginChange(s, op, x);
    var s1 := Perform(s, ch);
    PerformKeepsCalls(s, ch);
    PerformKeeps(mode, s, ch);
    PerformKeepsAll(mode, s, s.calls, ch);
    if next.Some? {
      assert next.value.Adding? ==> Separate(s.calls, next.value) by {
        forall pid | pid in s.calls && s.calls[pid].Adding? ensures s.calls[pid].task.id in s.used {
          assert CallFits(mode, s.board.tasks, s.used, s.calls[pid]);
        }
      }
      CallGrows(mode, s.board.tasks, s1.board.tasks, s1.used, s1.used, next.value);
    }
  }

  lemma {:induction false} FinishKeeps(mode: Mode, s: State, call: Call, x: Input, fuel: nat)
    requires InvWith(mode, s, s.calls) && Runs(mode, s, s.calls, call)
    ensures InvWith(mode, Finish(s, call, x, fuel), Finish(s, call, x, fuel).calls)
    decreases fuel
  {
    hide ContinueSection, InvWith, Runs;
    ContinueKeeps(mode, s, s.calls, call, x);
    var (s1, next) := ContinueSection(s, call, x);
    if next.Some? && fuel > 0 {
      FinishKeeps(mode, s1, next.value, x, fuel - 1);
    }
  }

  lemma TrackFits(mode: Mode, tasks: map<Id, Task>, used: set<Id>, calls: map<nat, Call>, pid: nat, next: Option<Call>)
    requires CallsFit(mode, tasks, used, calls - {pid})
    requires next.Some? ==> CallFits(mode, tasks, used, next.value) && Separate(calls - {pid}, next.value)
    ensures CallsFit(mode, tasks, used, if next.Some? then calls[pid := next.value] else calls - {pid})
  {
    var calls' := if next.Some? then calls[pid := next.value] else calls - {pid};
    forall q | q in calls' ensures CallFits(mode, tasks, used, calls'[q]) {
      assert q != pid ==> q in calls - {pid} && calls'[q] == (calls - {pid})[q];
    }
    forall p, q | p in calls' && q in calls' && p != q && calls'[p].Adding? && calls'[q].Adding?
      ensures calls'[p].task.id != calls'[q].task.id
    {
      assert p != pid ==> p in calls - {pid} && calls'[p] == (calls - {pid})[p];
      assert q != pid ==> q in calls - {pid} && calls'[q] == (calls - {pid})[q];
    }
  }

  // ── Steps, restarts and runs ──────────────────────────────────────────────

  lemma BootKeeps(mode: Mode, s: State, order: seq<Id>, reviewOrder: seq<Id>, limits: map<Column, Priority>)
    requires Core(mode, s) && CanBoot(s, order, reviewOrder)
    ensures Inv(mode, Boot(s, order, reviewOrder, limits))
  {
    BootBoard(s, order, reviewOrder, limits);
  }

  lemma BeginStep(mode: Mode, s: State, a: Action)
    requires Inv(mode, s) && a.Begin? && Allowed(mode)(s, a)
    ensures Inv(mode, Apply(s, a))
  {
    if a.pid !in s.calls {
      BeginKeeps(mode, s, a.op, a.input);
      var (s1, next) := BeginSection(s, a.op, a.input);
      assert s.calls - {a.pid} == s.calls;
      TrackFits(mode, s1.board.tasks, s1.used, s.calls, a.pid, next);
    }
  }

  lemma ContinueStep(mode: Mode, s: State, a: Action)
    requires Inv(mode, s) && a.Continue?
    ensures Inv(mode, Apply(s, a))
  {
    if a.pid in s.calls {
      var call, others := s.calls[a.pid], s.calls - {a.pid};
      ContinueKeeps(mode, s, others, call, a.input);
      var (s1, next) := ContinueSection(s, call, a.input);
      TrackFits(mode, s1.board.tasks, s1.used, s.calls, a.pid, next);
    }
  }

  lemma WholeStep(mode: Mode, s: State, op: Op, x: Input)
    requires Inv(mode, s) && OpAllowed(mode, s, op)
    ensures Inv(mode, RunCall(s, op, x))
  {
    BeginKeeps(mode, s, op, x);
    var (s1, next) := BeginSection(s, op, x);
    if next.Some? {
      FinishKeeps(mode, s1, next.value, x, CALL_SECTIONS);
    }
  }

  lemma StepKeeps(mode: Mode, s: State, a: Action)
    requires Inv(mode, s) && Allowed(mode)(s, a)
    ensures Inv(mode, Apply(s, a))
  {
    hide AgentSection, LoopSection, BeginSection, ContinueSection, RunCall, FinishEvent, Boot, CanBoot, InvWith;
    if a.AgentStep? { AgentKeeps(mode, s, a.role, a.input); }
    else if a.LoopStep? { LoopKeeps(mode, s, a.input); }
    else if a.Begin? { BeginStep(mode, s, a); }
    else if a.Continue? { ContinueStep(mode, s, a); }
    else if a.Whole? { WholeStep(mode, s, a.op, a.input); }
    else if a.WholeEvent? { EventKeeps(mode, s, a.input, EVENT_SECTIONS); }
    else { OtherStep(mode, s, a); }
  }

  lemma OtherStep(mode: Mode, s: State, a: Action)
    requires Inv(mode, s) && (a.SetLimits? || a.Lag? || a.Restart?)
    ensures Inv(mode, Apply(s, a))
  {
    hide Boot, CanBoot, WellFormed, TaskPassed;
    if a.Restart? {
      if CanBoot(s, a.order, a.reviewOrder) { BootKeeps(mode, s, a.order, a.reviewOrder, a.limits); }
    }
  }

  lemma {:induction false} RunKeeps(mode: Mode, states: seq<State>, run: seq<Action>, k: nat)
    requires Trace(states, run, Allowed(mode)) && Inv(mode, states[0]) && k < |states|
    ensures Inv(mode, states[k])
  {
    hide Trace, Inv, Apply, Allowed;
    if k > 0 {
      RunKeeps(mode, states, run, k - 1);
      LastStep(states, run, Allowed(mode), k);
      StepKeeps(mode, states[k - 1], run[k - 1]);
    }
  }

  /** The state of a fresh installation: nothing stored, nothing running. */
  const FRESH: State :=
    State(EMPTY_BOARD, map[], [], map[], map[], map[], map[], map[], [], Listening, {})

  lemma FreshInv(mode: Mode)
    ensures Inv(mode, FRESH)
  {
    assert EMPTY_BOARD == Place([]);
    PlaceFiles([]);
  }

  /**
   * Gate safety.  In every state of every run from a fresh installation, whatever the interleaving
   * and wherever it restarts, a task in a column has a recorded decision for every buffer left of
   * it, both on the board and in the store; in strict runs the decisions are approvals.
   */
  lemma GateSafety(mode: Mode, states: seq<State>, run: seq<Action>, k: nat, id: Id)
    requires Trace(states, run, Allowed(mode)) && states[0] == FRESH && k < |states|
    ensures var s := states[k];
      && (id in s.board.tasks ==> TaskPassed(mode, s.board.tasks[id]))
      && (id in s.store ==> TaskPassed(mode, s.store[id]))
      && (forall c :: id in Ids(s.board, c) ==> id in s.board.tasks && s.board.tasks[id].Column() == c)
  {
    FreshInv(mode);
    RunKeeps(mode, states, run, k);
    forall c ensures id in Ids(states[k].board, c)
      ==> id in states[k].board.tasks && states[k].board.tasks[id].Column() == c
    {
      MembersOf(states[k].board, c);
    }
  }

  predicate ApprovedFor(h: seq<HistoryEntry>, target: Column) {
    exists i :: 0 <= i < |h| && h[i].Approval? && h[i].targetStage == At(target)
  }

  /** In particular a task listed in Done carries the approvals of all four buffers. */
  lemma DoneHasFourApprovals(states: seq<State>, run: seq<Action>, k: nat, id: Id)
    requires Trace(states, run, Allowed(Strict)) && states[0] == FRESH && k < |states|
    requires id in Ids(states[k].board, Done)
    ensures id in states[k].board.tasks
    ensures var h := states[k].board.tasks[id].history;
      ApprovedFor(h, Coding) && ApprovedFor(h, Reviewing) && ApprovedFor(h, Auditing) && ApprovedFor(h, Deploying)
  {
    hide Trace;
    GateSafety(Strict, states, run, k, id);
    var t := states[k].board.tasks[id];
    ApprovedBuffer(t.history, CodingBuffer);
    ApprovedBuffer(t.history, ReviewBuffer);
    ApprovedBuffer(t.history, SecurityAuditBuffer);
    ApprovedBuffer(t.history, DeploymentBuffer);
  }

  lemma ApprovedBuffer(h: seq<HistoryEntry>, buffer: Column)
    requires Passed(Strict, h, Done) && IsBuffer(buffer)
    ensures ApprovedFor(h, Next(buffer).value)
  {
    assert Exited(Strict, h, buffer);
    var i :| 0 <= i < |h| && Exits(Strict, h[i], buffer);
    assert h[i].Approval? && h[i].targetStage == At(Next(buffer).value);
  }
}
