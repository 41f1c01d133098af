/**
 * The WIP gate checks and acts in separate lock sections, yet no column fed by an agent through the
 * gate and closed to human moves - a buffer or Done - ever exceeds its bound: one role alone adds to it.
 */
module Wip {
  import opened Options
  import opened Columns
  import opened Kanban
  import opened ReviewQueues
  import opened Reviews
  import opened Protocol
  import opened Effects
  import opened Gates
  import opened Listings

  /** The count is within the bound, and stays so when the feeding role acts on what it has seen. */
  ghost predicate Capped(s: State, c: Column, bound: Priority) {
    && Count(s.board, c) <= bound
    && forall r :: Target(r) == c ==> Promised(s.board, AgentOf(s, r).phase, c, bound)
  }

  /** What the feeding role's place in the gate promises about the column. */
  ghost predicate Promised(b: Board, p: Phase, c: Column, bound: Priority) {
    && (p.Counted? ==> Count(b, c) <= p.count)
    && (p.Cleared? ==> Count(b, c) < bound)
  }

  /** A half-done call is about to move a task to a work column only, and to add one to the first only. */
  predicate CallAims(call: Call) {
    match call
    case Targeted(_, target, _) => RoleOf(target).Some?
    case Deciding(_, d) => RoleOf(d.target).Some?
    case Adding(t) => t.stage == Backlog
    case _ => true
  }

  ghost predicate CallsAim(calls: map<nat, Call>) {
    forall pid :: pid in calls ==> CallAims(calls[pid])
  }

  predicate Aimed(w: BoardWrite) {
    (w.Decide? ==> RoleOf(w.decision.target).Some?) && (w.Insert? ==> w.task.stage == Backlog)
  }

  /** No restart, and the limit in force is at most the bound. */
  ghost function Within(c: Column, bound: Priority): (State, Action) -> bool {
    (s: State, a: Action) => !a.Restart? && LimitOf(s, c) <= bound
  }

  /** On any board, filed or not, no write but the feeding role's move adds to a column without a role. */
  lemma NeverAdds(b: Board, w: BoardWrite, c: Column)
    requires RoleOf(c).None? && Aimed(w) && (w.Move? ==> w.target != c)
    ensures Count(WriteBoard(b, w).0, c) <= Count(b, c)
  {
    hide WriteBoard, FindColumn, Count;
    WriteLists(b, w);
  }

  /** A move adds at most one. */
  lemma MoveAddsOne(b: Board, w: BoardWrite, c: Column)
    requires w.Move?
    ensures Count(WriteBoard(b, w).0, c) <= Count(b, c) + 1
  {
    hide WriteBoard, FindColumn, Count;
    WriteLists(b, w);
  }

  lemma PromiseKept(b: Board, b': Board, p: Phase, c: Column, bound: Priority)
    requires Promised(b, p, c, bound) && Count(b', c) <= Count(b, c)
    ensures Promised(b', p, c, bound)
  {
  }

  // ── Sections ──────────────────────────────────────────────────────────────

  /** The role's own section: counting, comparing and moving keep the promise and the bound. */
  lemma FeederCapped(s: State, r: Role, x: Input, bound: Priority)
    requires RoleOf(Target(r)).None? && Capped(s, Target(r), bound) && LimitOf(s, Target(r)) <= bound
    ensures var s' := AgentSection(s, r, x);
      Count(s'.board, Target(r)) <= bound && Promised(s'.board, AgentChange(s, r, x).1, Target(r), bound)
  {
    hide AgentChange, WriteBoard, Count;
    var c, w := Target(r), AgentChange(s, r, x).0.board;
    AgentWrites(s, r, x);
    GateWrites(s, r, x);
    if AgentOf(s, r).phase.Cleared? { MoveAddsOne(s.board, w, c); } else { NeverAdds(s.board, w, c); }
    GatePhases(s, r, x);
  }

  /** Counting writes nothing, and a cleared agent moves. */
  lemma GateWrites(s: State, r: Role, x: Input)
    ensures AgentOf(s, r).phase.Gated? ==> AgentChange(s, r, x).0.board == KeepBoard
    ensures AgentOf(s, r).phase.Cleared? ==> AgentChange(s, r, x).0.board.Move?
  {
    hide Count;
  }

  /** How an agent reaches the counted and cleared places of the gate. */
  lemma GatePhases(s: State, r: Role, x: Input)
    ensures var next, p := AgentChange(s, r, x).1, AgentOf(s, r).phase;
      && (next.Counted? ==> p.Gated? && next.count == Count(s.board, Target(r)) % (U32_MAX + 1))
      && (next.Cleared? ==> p.Counted? && p.count < LimitOf(s, Target(r)))
  {
  }

  lemma AgentCapped(s: State, r: Role, x: Input, c: Column, bound: Priority)
    requires RoleOf(c).None? && Capped(s, c, bound) && LimitOf(s, c) <= bound
    ensures Capped(AgentSection(s, r, x), c, bound)
  {
    hide Capped, AgentChange, WriteBoard;
    if Target(r) == c { FeederCapped(s, r, x, bound); }
    else {
      AgentWrites(s, r, x);
      NeverAdds(s.board, AgentChange(s, r, x).0.board, c);
    }
    AgentPromises(s, r, x, c, bound);
  }

  lemma AgentPromises(s: State, r: Role, x: Input, c: Column, bound: Priority)
    requires Capped(s, c, bound)
    requires var b' := AgentSection(s, r, x).board;
      if Target(r) == c then Count(b', c) <= bound && Promised(b', AgentChange(s, r, x).1, c, bound)
      else Count(b', c) <= Count(s.board, c)
    ensures Capped(AgentSection(s, r, x), c, bound)
  {
    hide AgentChange, Perform;
    var s' := AgentSection(s, r, x);
    forall q | Target(q) == c ensures Promised(s'.board, AgentOf(s', q).phase, c, bound) {
      if Target(r) == c {
        FeedersAreUnique(c, q, r);
      } else {
        PromiseKept(s.board, s'.board, AgentOf(s, q).phase, c, bound);
      }
    }
  }

  /** A section that is not an agent's never adds to the column and moves no agent. */
  lemma QuietCapped(s: State, s': State, w: BoardWrite, c: Column, bound: Priority)
    requires Aimed(w) && !w.Move? && RoleOf(c).None?
    requires Capped(s, c, bound) && s'.board == WriteBoard(s.board, w).0
    requires forall q :: AgentOf(s', q).phase == AgentOf(s, q).phase
    ensures Capped(s', c, bound)
  {
    hide WriteBoard;
    NeverAdds(s.board, w, c);
    forall q | Target(q) == c ensures Promised(s'.board, AgentOf(s', q).phase, c, bound) {
      PromiseKept(s.board, s'.board, AgentOf(s, q).phase, c, bound);
    }
  }

  lemma LoopCapped(s: State, x: Input, c: Column, bound: Priority)
    requires RoleOf(c).None? && Capped(s, c, bound)
    ensures Capped(LoopSection(s, x), c, bound) && LoopSection(s, x).calls == s.calls
  {
    hide Capped, LoopChange, WriteBoard;
    LoopWritesNoTask(s, x);
    SignalKeepsPhases(s.agents, LoopChange(s, x).0.signal);
    QuietCapped(s, LoopSection(s, x), KeepBoard, c, bound);
  }

  lemma {:induction false} EventCapped(s: State, x: Input, fuel: nat, c: Column, bound: Priority)
    requires RoleOf(c).None? && Capped(s, c, bound)
    ensures Capped(FinishEvent(s, x, fuel), c, bound) && FinishEvent(s, x, fuel).calls == s.calls
    decreases fuel
  {
    hide LoopSection, Capped;
    LoopCapped(s, x, c, bound);
    var s1 := LoopSection(s, x);
    if !s1.loop.Listening? && fuel > 0 {
      EventCapped(s1, x, fuel - 1, c, bound);
    }
  }

  lemma BeginAims(s: State, op: Op, x: Input)
    ensures var (ch, next) := BeginChange(s, op, x);
      Aimed(ch.board) && !ch.board.Move? && (next.Some? ==> CallAims(next.value))
  {
    hide FindColumn, BufferOf, BlockOn, Dequeue;
    if op.OpApprove? || op.OpReject? { BufferIsBuffer(s.board, op.id); }
  }

  lemma ContinueAims(s: State, call: Call, x: Input)
    requires CallAims(call)
    ensures var (ch, next) := ContinueChange(s, call, x);
      Aimed(ch.board) && !ch.board.Move? && (next.Some? ==> CallAims(next.value))
  {
    hide FindColumn, BufferOf, DecideOn, FindUnresolved, Append;
  }

  lemma BeginCapped(s: State, op: Op, x: Input, c: Column, bound: Priority)
    requires RoleOf(c).None? && Capped(s, c, bound)
    ensures var (s1, next) := BeginSection(s, op, x);
      Capped(s1, c, bound) && s1.calls == s.calls && (next.Some? ==> CallAims(next.value))
  {
    hide Capped, BeginChange, WriteBoard, WriteStore, WriteQueue, CallAims, Aimed;
    BeginAims(s, op, x);
    SignalKeepsPhases(s.agents, BeginChange(s, op, x).0.signal);
    QuietCapped(s, BeginSection(s, op, x).0, BeginChange(s, op, x).0.board, c, bound);
  }

  lemma ContinueCapped(s: State, call: Call, x: Input, c: Column, bound: Priority)
    requires CallAims(call) && RoleOf(c).None? && Capped(s, c, bound)
    ensures var (s1, next) := ContinueSection(s, call, x);
      Capped(s1, c, bound) && s1.calls == s.calls && (next.Some? ==> CallAims(next.value))
  {
    hide Capped, ContinueChange, WriteBoard, WriteStore, WriteQueue, CallAims, Aimed;
    ContinueAims(s, call, x);
    var ch := ContinueChange(s, call, x).0;
    SignalKeepsPhases(s.agents, ch.signal);
    DeliverKeepsPhases(WriteSignal(s.agents, ch.signal), call);
    QuietCapped(s, ContinueSection(s, call, x).0, ch.board, c, bound);
  }

  lemma {:induction false} FinishCapped(s: State, call: Call, x: Input, fuel: nat, c: Column, bound: Priority)
    requires CallAims(call) && RoleOf(c).None? && Capped(s, c, bound)
    ensures Capped(Finish(s, call, x, fuel), c, bound) && Finish(s, call, x, fuel).calls == s.calls
    decreases fuel
  {
    hide ContinueSection, Capped, CallAims;
    ContinueCapped(s, call, x, c, bound);
    var (s1, next) := ContinueSection(s, call, x);
    if next.Some? && fuel > 0 {
      FinishCapped(s1, next.value, x, fuel - 1, c, bound);
    }
  }

  lemma WholeCapped(s: State, op: Op, x: Input, c: Column, bound: Priority)
    requires RoleOf(c).None? && Capped(s, c, bound)
    ensures Capped(RunCall(s, op, x), c, bound) && RunCall(s, op, x).calls == s.calls
  {
    hide BeginSection, Finish, Capped, CallAims;
    BeginCapped(s, op, x, c, bound);
    var (s1, next) := BeginSection(s, op, x);
    if next.Some? { FinishCapped(s1, next.value, x, CALL_SECTIONS, c, bound); }
  }

  // ── Steps and runs ────────────────────────────────────────────────────────

  lemma TrackCapped(s: State, pid: nat, next: Option<Call>, c: Column, bound: Priority)
    requires Capped(s, c, bound) && CallsAim(s.calls) && (next.Some? ==> CallAims(next.value))
    ensures Capped(Track(s, pid, next), c, bound) && CallsAim(Track(s, pid, next).calls)
  {
  }

  lemma StepCapped(s: State, a: Action, c: Column, bound: Priority)
    requires RoleOf(c).None? && Capped(s, c, bound) && CallsAim(s.calls) && Within(c, bound)(s, a)
    ensures Capped(Apply(s, a), c, bound) && CallsAim(Apply(s, a).calls)
  {
    hide AgentSection, LoopSection, RunCall, FinishEvent, CallsAim;
    if a.AgentStep? {
      AgentCapped(s, a.role, a.input, c, bound);
      AgentKeepsCalls(s, a.role, a.input);
    } else if a.LoopStep? { LoopCapped(s, a.input, c, bound); }
    else if a.WholeEvent? { EventCapped(s, a.input, EVENT_SECTIONS, c, bound); }
    else if a.Whole? { WholeCapped(s, a.op, a.input, c, bound); }
    else if a.Begin? || a.Continue? { CallStepCapped(s, a, c, bound); }
  }

  lemma AgentKeepsCalls(s: State, r: Role, x: Input)
    ensures AgentSection(s, r, x).calls == s.calls
  {
    hide AgentChange;
  }

  lemma CallStepCapped(s: State, a: Action, c: Column, bound: Priority)
    requires RoleOf(c).None? && Capped(s, c, bound) && CallsAim(s.calls) && (a.Begin? || a.Continue?)
    ensures Capped(Apply(s, a), c, bound) && CallsAim(Apply(s, a).calls)
  {
    hide BeginSection, ContinueSection, Capped, Track, CallAims;
    if a.Begin? && a.pid !in s.calls {
      BeginCapped(s, a.op, a.input, c, bound);
      TrackCapped(BeginSection(s, a.op, a.input).0, a.pid, BeginSection(s, a.op, a.input).1, c, bound);
    } else if a.Continue? && a.pid in s.calls {
      ContinueCapped(s, s.calls[a.pid], a.input, c, bound);
      TrackCapped(ContinueSection(s, s.calls[a.pid], a.input).0, a.pid,
                  ContinueSection(s, s.calls[a.pid], a.input).1, c, bound);
    }
  }

  lemma {:induction false} RunCapped(states: seq<State>, run: seq<Action>, k: nat, c: Column, bound: Priority)
    requires Trace(states, run, Within(c, bound)) && k < |states|
    requires RoleOf(c).None? && Capped(states[0], c, bound) && CallsAim(states[0].calls)
    ensures Capped(states[k], c, bound) && CallsAim(states[k].calls)
  {
    hide Trace, Capped, CallsAim, Apply, Within;
    if k > 0 {
      RunCapped(states, run, k - 1, c, bound);
      LastStep(states, run, Within(c, bound), k);
      StepCapped(states[k - 1], run[k - 1], c, bound);
    }
  }

  /**
   * The WIP bound.  From any boot, in every interleaving, edits included, and under reloaded limits, a
   * buffer column or Done never holds more tasks than the larger of its count at boot and the largest
   * limit in force; the truncation of the count to 32 bits does no harm.
   */
  lemma BufferWipBound(pre: State, order: seq<Id>, reviewOrder: seq<Id>, limits: map<Column, Priority>,
                       states: seq<State>, run: seq<Action>, k: nat, c: Column, bound: Priority)
    requires CanBoot(pre, order, reviewOrder)
    requires Trace(states, run, Within(c, bound)) && states[0] == Boot(pre, order, reviewOrder, limits) && k < |states|
    requires (IsBuffer(c) || c == Done) && Count(states[0].board, c) <= bound
    ensures Count(states[k].board, c) <= bound
  {
    hide Trace, FromTasks;
    RunCapped(states, run, k, c, bound);
  }

  // ── What a boot needs ─────────────────────────────────────────────────────

  /** A store as the program writes it: every record filed under its own id. */
  ghost predicate StoreFiled(s: State) {
    forall id :: id in s.store ==> s.store[id].id == id && id in s.used
  }

  lemma BootInv(s: State, order: seq<Id>, reviewOrder: seq<Id>, limits: map<Column, Priority>)
    requires StoreFiled(s) && CanBoot(s, order, reviewOrder)
    ensures Inv(Unchecked, Boot(s, order, reviewOrder, limits))
  {
    BootBoard(s, order, reviewOrder, limits);
  }

  // ── The waiting map ───────────────────────────────────────────────────────

  /** A waiting record is under the column its role feeds, so no two roles share one. */
  ghost predicate WaitingRight(s: State) {
    forall c :: c in s.waiting ==> Target(s.waiting[c]) == c
  }

  /** The actions that are a single lock section. */
  predicate OneSection(a: Action) {
    a.AgentStep? || a.LoopStep? || a.Begin? || a.Continue?
  }

  lemma AgentWaitWrites(s: State, r: Role, x: Input)
    ensures var w := AgentChange(s, r, x).0.waiting; w == KeepWaiting || w == Wait(Target(r), r)
  {
    hide NextUnblocked;
  }

  lemma CallWaitWrites(s: State, op: Op, call: Call, x: Input)
    ensures BeginChange(s, op, x).0.waiting == KeepWaiting
    ensures ContinueChange(s, call, x).0.waiting == KeepWaiting
  {
    hide FindColumn, BufferOf, BlockOn, DecideOn;
  }

  lemma LoopWaits(s: State, x: Input)
    ensures var ch := LoopChange(s, x).0;
      ch.waiting == KeepWaiting
      || (s.loop.Handling? && s.loop.event.StageChanged? && ch.waiting == Release(s.loop.event.from)
          && (s.loop.event.from in s.waiting ==> ch.signal == Some(s.waiting[s.loop.event.from])))
  {
  }

  /** What one section does to the waiting map, seen at one column. */
  ghost predicate WaitChange(s: State, a: Action, s': State, c: Column) {
    && WaitingRight(s')
    && (c in s.waiting && c in s'.waiting ==> s'.waiting[c] == s.waiting[c])
    && (c in s.waiting && c !in s'.waiting ==>
          a.LoopStep? && s.loop.Handling? && s.loop.event.StageChanged? && s.loop.event.from == c
          && AgentOf(s', s.waiting[c]).permit && s'.waiting == s.waiting - {c})
    && (c !in s.waiting && c in s'.waiting ==> a.AgentStep? && s'.waiting == s.waiting[c := a.role])
  }

  lemma AgentWaits(s: State, a: Action, c: Column)
    requires WaitingRight(s) && a.AgentStep?
    ensures WaitChange(s, a, Apply(s, a), c)
  {
    hide AgentSection;
    AgentWaitingMap(s, a.role, a.input);
    if c in s.waiting { FeedersAreUnique(c, s.waiting[c], a.role); }
  }

  lemma AgentWaitingMap(s: State, r: Role, x: Input)
    ensures var waiting := AgentSection(s, r, x).waiting;
      waiting == s.waiting || waiting == s.waiting[Target(r) := r]
  {
    hide AgentChange;
    AgentWaitWrites(s, r, x);
  }

  lemma LoopWaitChange(s: State, a: Action, c: Column)
    requires WaitingRight(s) && a.LoopStep?
    ensures WaitChange(s, a, Apply(s, a), c)
  {
    hide LoopSection;
    LoopWaitingMap(s, a.input);
  }

  lemma LoopWaitingMap(s: State, x: Input)
    ensures var s' := LoopSection(s, x);
      s'.waiting == s.waiting
      || (s.loop.Handling? && s.loop.event.StageChanged? && s'.waiting == s.waiting - {s.loop.event.from}
          && (s.loop.event.from in s.waiting ==> AgentOf(s', s.waiting[s.loop.event.from]).permit))
  {
    hide LoopChange, WriteBoard, WriteStore, WriteReviews, WriteQueue;
    LoopWaits(s, x);
  }

  lemma CallWaitingMap(s: State, op: Op, call: Call, x: Input)
    ensures BeginSection(s, op, x).0.waiting == s.waiting && ContinueSection(s, call, x).0.waiting == s.waiting
  {
    hide BeginChange, ContinueChange, WriteBoard, WriteStore, WriteReviews, WriteQueue, WriteSignal, Deliver;
    CallWaitWrites(s, op, call, x);
  }

  lemma CallWaits(s: State, a: Action, c: Column)
    requires WaitingRight(s) && (a.Begin? || a.Continue?)
    ensures WaitChange(s, a, Apply(s, a), c)
  {
    hide BeginSection, ContinueSection;
    if a.Begin? { CallWaitingMap(s, a.op, SignallingBlock, a.input); }
    else if a.pid in s.calls { CallWaitingMap(s, OpApprove(""), s.calls[a.pid], a.input); }
  }

  /**
   * One section leaves every waiting record alone, or adds the acting role's own, or - handling a
   * move out of column c - takes the record of c away and signals the role that was waiting for it.
   */
  lemma WaitingStep(s: State, a: Action, c: Column)
    requires WaitingRight(s) && OneSection(a)
    ensures WaitChange(s, a, Apply(s, a), c)
  {
    hide Apply, WaitChange;
    if a.AgentStep? { AgentWaits(s, a, c); }
    else if a.LoopStep? { LoopWaitChange(s, a, c); }
    else { CallWaits(s, a, c); }
  }

  ghost function Sections(): (State, Action) -> bool {
    (s: State, a: Action) => OneSection(a) || a.SetLimits? || a.Lag? || a.Restart?
  }

  /** In every run of sections, restarts, reloads and lost events each record is its own role's. */
  lemma {:induction false} WaitingAlwaysRight(states: seq<State>, run: seq<Action>, k: nat)
    requires Trace(states, run, Sections()) && WaitingRight(states[0]) && k < |states|
    ensures WaitingRight(states[k])
  {
    if k > 0 {
      WaitingAlwaysRight(states, run, k - 1);
      LastStep(states, run, Sections(), k);
      if OneSection(run[k - 1]) { WaitingStep(states[k - 1], run[k - 1], Done); }
    }
  }
}
