/** What any one step of the machine writes to the board, and what it leaves alone. */
module Steps {
  import opened Options
  import opened Columns
  import opened Kanban
  import opened ReviewQueues
  import opened Reviews
  import opened Protocol
  import opened Atomic
  import opened Listings

  /** The board write of one action; a restart is not one. */
  ghost function StepWrite(s: State, a: Action): BoardWrite {
    match a
    case AgentStep(r, x) => AgentChange(s, r, x).0.board
    case Begin(pid, op, x) => if pid in s.calls then KeepBoard else BeginChange(s, op, x).0.board
    case Continue(pid, x) => if pid in s.calls then ContinueChange(s, s.calls[pid], x).0.board else KeepBoard
    case Whole(op, x) => CallWrite(s, op, x)
    case _ => KeepBoard
  }

  lemma LoopSectionBoard(s: State, x: Input)
    ensures LoopSection(s, x).board == s.board && LoopSection(s, x).store == s.store
  {
  }

  lemma {:induction false} EventKeepsBoard(s: State, x: Input, fuel: nat)
    ensures FinishEvent(s, x, fuel).board == s.board && FinishEvent(s, x, fuel).store == s.store
    decreases fuel
  {
    hide LoopSection;
    LoopSectionBoard(s, x);
    if !LoopSection(s, x).loop.Listening? && fuel > 0 { EventKeepsBoard(LoopSection(s, x), x, fuel - 1); }
  }

  lemma SectionWrites(s: State, op: Op, call: Call, x: Input)
    ensures BeginSection(s, op, x).0.board == WriteBoard(s.board, BeginChange(s, op, x).0.board).0
    ensures ContinueSection(s, call, x).0.board == WriteBoard(s.board, ContinueChange(s, call, x).0.board).0
  {
    hide BeginChange, ContinueChange, WriteBoard, WriteStore, WriteReviews, WriteQueue, WriteWaiting, WriteSignal, Deliver;
  }

  /** Every step but a restart writes the board once. */
  lemma StepWritesBoard(s: State, a: Action)
    requires !a.Restart?
    ensures Apply(s, a).board == WriteBoard(s.board, StepWrite(s, a)).0
  {
    hide AgentSection, AgentChange, LoopSection, RunCall, FinishEvent, BeginSection, ContinueSection, BeginChange,
         ContinueChange, CallWrite, WriteBoard;
    assert WriteBoard(s.board, KeepBoard).0 == s.board by { KeepsBoard(s.board); }
    match a {
      case AgentStep(r, x) => AgentBoardIs(s, r, x);
      case LoopStep(x) => LoopSectionBoard(s, x);
      case WholeEvent(x) => EventKeepsBoard(s, x, EVENT_SECTIONS);
      case Whole(op, x) => CallWritesBoard(s, op, x);
      case Begin(pid, op, x) => SectionWrites(s, op, SignallingBlock, x);
      case Continue(pid, x) => if pid in s.calls { SectionWrites(s, OpApprove(""), s.calls[pid], x); }
      case SetLimits(_) =>
      case Lag(_) =>
    }
  }

  lemma KeepsBoard(b: Board)
    ensures WriteBoard(b, KeepBoard).0 == b
  {
  }

  // ── Which calls are pending ───────────────────────────────────────────────

  lemma SectionsKeepCalls(s: State, r: Role, op: Op, call: Call, x: Input)
    ensures AgentSection(s, r, x).calls == s.calls && LoopSection(s, x).calls == s.calls
    ensures BeginSection(s, op, x).0.calls == s.calls && ContinueSection(s, call, x).0.calls == s.calls
  {
    hide AgentChange, LoopChange, BeginChange, ContinueChange, WriteBoard, WriteStore, WriteReviews, WriteQueue,
         WriteWaiting, WriteSignal, Deliver;
  }

  lemma {:induction false} FinishesKeepCalls(s: State, call: Call, x: Input, fuel: nat)
    ensures Finish(s, call, x, fuel).calls == s.calls
    decreases fuel
  {
    hide ContinueSection;
    SectionsKeepCalls(s, Coder, OpApprove(""), call, x);
    var (s1, next) := ContinueSection(s, call, x);
    if next.Some? && fuel > 0 { FinishesKeepCalls(s1, next.value, x, fuel - 1); }
  }

  lemma {:induction false} EventKeepsCalls(s: State, x: Input, fuel: nat)
    ensures FinishEvent(s, x, fuel).calls == s.calls
    decreases fuel
  {
    hide LoopSection;
    SectionsKeepCalls(s, Coder, OpApprove(""), SignallingBlock, x);
    if !LoopSection(s, x).loop.Listening? && fuel > 0 { EventKeepsCalls(LoopSection(s, x), x, fuel - 1); }
  }

  lemma WholeKeepsCalls(s: State, op: Op, x: Input)
    ensures RunCall(s, op, x).calls == s.calls
  {
    hide BeginSection, Finish;
    SectionsKeepCalls(s, Coder, op, SignallingBlock, x);
    var (s1, next) := BeginSection(s, op, x);
    if next.Some? { FinishesKeepCalls(s1, next.value, x, CALL_SECTIONS); }
  }
}
