/**
 * What an agent does from waking to resting when nothing interrupts it: pick a task, report, verify
 * with one retry, then pass the WIP gate or ask a human.
 */
module AgentRuns {
  import opened Options
  import opened Columns
  import opened Kanban
  import opened ReviewQueues
  import opened Reviews
  import opened Protocol
  import opened Atomic

  function Standing(s: State, r: Role, phase: Phase): State {
    s.(agents := s.agents[r := AgentOf(s, r).(phase := phase)])
  }

  /** A woken agent spends its permit; unless blocked it takes the first ready task and gives it a branch. */
  function AfterWake(s: State, r: Role, branch: string): State {
    var s1 := s.(agents := s.agents[r := AgentOf(s, r).(permit := false, phase := Idle)]);
    var pick := NextUnblocked(s.board, WorkColumn(r));
    if AgentOf(s, r).blocked || pick.None? then s1
    else if pick.value.branch.Some? then Standing(s1, r, Running(pick.value))
    else
      var t := pick.value;
      Standing(s1.(board := WriteBoard(s.board, SetBranch(t.id, branch)).0,
                   store := s.store[t.id := t.(branch := Some(branch))]), r, Running(t))
  }

  /** The gate: at the limit the role is recorded as waiting, below it the task moves on and two events follow. */
  function AfterGate(s: State, r: Role, t: Task): State {
    var to := Target(r);
    if Count(s.board, to) % (U32_MAX + 1) >= LimitOf(s, to) then Standing(s.(waiting := s.waiting[to := r]), r, Idle)
    else
      var (b, ok) := Advance(s.board, t.id, to);
      Standing(s.(board := b,
                  events := if ok then s.events + [StageChanged(t.id, WorkColumn(r), to), AgentCompleted(t.id, r)]
                            else s.events), r, Idle)
  }

  /** Asking: a stored item, an event, the raised flag, and a queued item under another id. */
  function AfterAsking(s: State, r: Role, t: Task, question: string, x: Input): State {
    var p := PersistedItem(x.newId, t.id, AgentQuestion(question), question, x.now, []);
    s.(reviews := s.reviews[p.id := p], used := s.used + {p.id},
       events := s.events + [AgentBlocked(t.id, r, question)],
       queue := Enqueue(s.queue, ReviewItem(x.queueId, t.id, AgentQuestion(question), question, x.now)),
       agents := s.agents[r := AgentOf(s, r).(blocked := true, phase := Idle)])
  }

  function AfterReport(s: State, t: Task, output: string): State {
    var b := WriteBoard(s.board, SetOutput(t.id, output)).0;
    s.(board := b, store := WriteStore(s.store, b, SaveBoardCopy(t.id)))
  }

  /** The result of a run: the first verdict decides, and if it is negative the verdict on one retry. */
  function AfterResult(s: State, r: Role, t: Task, x: Input, retryPasses: bool): State {
    match x.result
    case RunError => Standing(s, r, Idle)
    case RunFailure => Standing(s, r, Idle)
    case RunBlocked(question) => AfterAsking(s, r, t, question, x)
    case RunSuccess(output) =>
      var s1 := AfterReport(s, t, output);
      if x.pass || retryPasses then AfterGate(s1, r, t) else AfterAsking(s1, r, t, x.text, x)
  }

  // ── The sections, back to back ────────────────────────────────────────────

  /** An agent's sections until it rests or starts its backend; the retry's verdict is `retryPasses`. */
  function FinishAgent(s: State, r: Role, x: Input, retryPasses: bool, fuel: nat): State
    decreases fuel
  {
    var s1 := AgentSection(s, r, if AgentOf(s, r).phase.Retrying? then x.(pass := retryPasses) else x);
    if fuel == 0 || AgentOf(s1, r).phase.Idle? || AgentOf(s1, r).phase.Running? then s1
    else FinishAgent(s1, r, x, retryPasses, fuel - 1)
  }

  function Adjusted(p: Phase, x: Input, retryPasses: bool): Input {
    if p.Retrying? then x.(pass := retryPasses) else x
  }

  /** An agent's section, for an agent that stands at `p` in state `s`: what it writes, and where it stands then. */
  lemma NextSection(s: State, r: Role, p: Phase, x: Input, retryPasses: bool, fuel: nat, ch: Change, next: Phase)
    requires !p.Idle? && !p.Flagging? && ch.signal == None && (fuel == 0 ==> next.Idle? || next.Running?)
    requires AgentChange(Standing(s, r, p), r, Adjusted(p, x, retryPasses)) == (ch, next)
    ensures FinishAgent(Standing(s, r, p), r, x, retryPasses, fuel) ==
      if next.Idle? || next.Running? then Standing(Perform(s, ch), r, next)
      else FinishAgent(Standing(Perform(s, ch), r, next), r, x, retryPasses, fuel - 1)
  {
    SectionStands(s, r, p, Adjusted(p, x, retryPasses), ch, next);
    hide AgentSection, Perform;
    assert AgentOf(Standing(s, r, p), r).phase == p;
    assert AgentOf(Standing(Perform(s, ch), r, next), r).phase == next;
  }

  lemma SectionStands(s: State, r: Role, p: Phase, x: Input, ch: Change, next: Phase)
    requires !p.Idle? && !p.Flagging? && ch.signal == None
    requires AgentChange(Standing(s, r, p), r, x) == (ch, next)
    ensures AgentSection(Standing(s, r, p), r, x) == Standing(Perform(s, ch), r, next)
  {
    hide AgentChange, WriteBoard, WriteStore, WriteReviews, WriteQueue, WriteWaiting;
    var a := AgentOf(s, r);
    assert s.agents[r := a.(phase := p)][r := a.(phase := next)] == s.agents[r := a.(phase := next)];
  }

  lemma WaitSection(s: State, c: Column, r: Role)
    ensures Perform(s, NOTHING.(waiting := Wait(c, r))) == s.(waiting := s.waiting[c := r])
  {
  }

  lemma GateCounts(s: State, r: Role, t: Task, x: Input, retryPasses: bool, fuel: nat)
    requires fuel >= 1
    ensures FinishAgent(Standing(s, r, Gated(t)), r, x, retryPasses, fuel)
      == FinishAgent(Standing(s, r, Counted(t, Count(s.board, Target(r)) % (U32_MAX + 1))), r, x, retryPasses, fuel - 1)
  {
    hide FinishAgent, Perform, Count;
    NoChange(s);
    NextSection(s, r, Gated(t), x, retryPasses, fuel, NOTHING, Counted(t, Count(s.board, Target(r)) % (U32_MAX + 1)));
  }

  lemma CountClears(s: State, r: Role, t: Task, count: nat, x: Input, retryPasses: bool, fuel: nat)
    requires count < LimitOf(s, Target(r)) && fuel >= 1
    ensures FinishAgent(Standing(s, r, Counted(t, count)), r, x, retryPasses, fuel)
      == FinishAgent(Standing(s, r, Cleared(t)), r, x, retryPasses, fuel - 1)
  {
    hide FinishAgent, Perform;
    NoChange(s);
    NextSection(s, r, Counted(t, count), x, retryPasses, fuel, NOTHING, Cleared(t));
  }

  /** From the gate: counted, then full and waiting, or cleared, moved and announced twice. */
  lemma GateIsAtomic(s: State, r: Role, t: Task, x: Input, retryPasses: bool, fuel: nat)
    requires fuel >= 4
    ensures FinishAgent(Standing(s, r, Gated(t)), r, x, retryPasses, fuel) == AfterGate(s, r, t)
  {
    hide FinishAgent, Standing, Advance, Count, LimitOf;
    var count := Count(s.board, Target(r)) % (U32_MAX + 1);
    GateCounts(s, r, t, x, retryPasses, fuel);
    if count < LimitOf(s, Target(r)) {
      CountClears(s, r, t, count, x, retryPasses, fuel - 1);
      ClearedIsAtomic(s, r, t, x, retryPasses, fuel - 2);
    } else {
      FullIsAtomic(s, r, t, count, x, retryPasses, fuel - 1);
    }
  }

  lemma FullIsAtomic(s: State, r: Role, t: Task, count: nat, x: Input, retryPasses: bool, fuel: nat)
    requires count >= LimitOf(s, Target(r)) && fuel >= 1
    ensures FinishAgent(Standing(s, r, Counted(t, count)), r, x, retryPasses, fuel)
      == Standing(s.(waiting := s.waiting[Target(r) := r]), r, Idle)
  {
    hide FinishAgent, Perform;
    NoChange(s);
    WaitSection(s, Target(r), r);
    NextSection(s, r, Counted(t, count), x, retryPasses, fuel, NOTHING, Full(t));
    NextSection(s, r, Full(t), x, retryPasses, fuel - 1, NOTHING.(waiting := Wait(Target(r), r)), Idle);
  }

  lemma ClearedIsAtomic(s: State, r: Role, t: Task, x: Input, retryPasses: bool, fuel: nat)
    requires fuel >= 2
    ensures var (b, ok) := Advance(s.board, t.id, Target(r));
      FinishAgent(Standing(s, r, Cleared(t)), r, x, retryPasses, fuel)
      == Standing(s.(board := b,
                     events := if ok then s.events + [StageChanged(t.id, WorkColumn(r), Target(r)), AgentCompleted(t.id, r)]
                               else s.events), r, Idle)
  {
    hide FinishAgent, Perform, Advance;
    var (b, ok) := Advance(s.board, t.id, Target(r));
    var s1 := s.(board := b);
    BoardSection(s, Move(t.id, Target(r)));
    NextSection(s, r, Cleared(t), x, retryPasses, fuel, Writing(Move(t.id, Target(r))), if ok then Moved(t) else Idle);
    if ok {
      var moved, completed := StageChanged(t.id, WorkColumn(r), Target(r)), AgentCompleted(t.id, r);
      EventSection(s1, moved);
      var s2 := s1.(events := s1.events + [moved]);
      NextSection(s1, r, Moved(t), x, retryPasses, fuel - 1, Emitting(moved), Announced(t));
      EventSection(s2, completed);
      NextSection(s2, r, Announced(t), x, retryPasses, fuel - 2, Emitting(completed), Idle);
      assert s.events + [moved] + [completed] == s.events + [moved, completed];
    }
  }

  /** Asking: file, announce, raise the flag, queue. */
  lemma AskingIsAtomic(s: State, r: Role, t: Task, question: string, x: Input, retryPasses: bool, fuel: nat)
    requires x.newId !in s.used && fuel >= 3
    ensures FinishAgent(Standing(s, r, Asking(t, question)), r, x, retryPasses, fuel) == AfterAsking(s, r, t, question, x)
  {
    hide FinishAgent, Perform, Enqueue;
    var p := PersistedItem(x.newId, t.id, AgentQuestion(question), question, x.now, []);
    FilingSection(s, p);
    NextSection(s, r, Asking(t, question), x, retryPasses, fuel, Filing(p), Asked(t, question));
    var s1 := s.(reviews := s.reviews[p.id := p], used := s.used + {p.id});
    AskedIsAtomic(s1, r, t, question, x, retryPasses, fuel - 1);
  }

  lemma AskedIsAtomic(s: State, r: Role, t: Task, question: string, x: Input, retryPasses: bool, fuel: nat)
    requires fuel >= 2
    ensures FinishAgent(Standing(s, r, Asked(t, question)), r, x, retryPasses, fuel) ==
      s.(events := s.events + [AgentBlocked(t.id, r, question)],
         queue := Enqueue(s.queue, ReviewItem(x.queueId, t.id, AgentQuestion(question), question, x.now)),
         agents := s.agents[r := AgentOf(s, r).(blocked := true, phase := Idle)])
  {
    hide FinishAgent, Perform, Enqueue;
    var event := AgentBlocked(t.id, r, question);
    EventSection(s, event);
    NextSection(s, r, Asked(t, question), x, retryPasses, fuel, Emitting(event), Flagging(t, question));
    var s1 := s.(events := s.events + [event]);
    FlagRaised(s1, r, t, question, x, retryPasses, fuel - 1);
    FilingIsAtomic(s1, r, t, question, x, retryPasses, fuel - 2);
  }

  lemma FilingIsAtomic(s: State, r: Role, t: Task, question: string, x: Input, retryPasses: bool, fuel: nat)
    ensures var s1 := s.(agents := s.agents[r := AgentOf(s, r).(blocked := true)]);
      FinishAgent(Standing(s1, r, FilingItem(t, question)), r, x, retryPasses, fuel) ==
      s.(queue := Enqueue(s.queue, ReviewItem(x.queueId, t.id, AgentQuestion(question), question, x.now)),
         agents := s.agents[r := AgentOf(s, r).(blocked := true, phase := Idle)])
  {
    hide FinishAgent, Perform, Enqueue;
    var item := ReviewItem(x.queueId, t.id, AgentQuestion(question), question, x.now);
    var s1 := s.(agents := s.agents[r := AgentOf(s, r).(blocked := true)]);
    QueueSection(s1, Put(item));
    NextSection(s1, r, FilingItem(t, question), x, retryPasses, fuel, Enqueueing(item), Idle);
    assert s.agents[r := AgentOf(s, r).(blocked := true)][r := AgentOf(s, r).(blocked := true, phase := Idle)]
      == s.agents[r := AgentOf(s, r).(blocked := true, phase := Idle)];
  }

  lemma FlagRaised(s: State, r: Role, t: Task, question: string, x: Input, retryPasses: bool, fuel: nat)
    requires fuel > 0
    ensures FinishAgent(Standing(s, r, Flagging(t, question)), r, x, retryPasses, fuel) ==
      FinishAgent(Standing(s.(agents := s.agents[r := AgentOf(s, r).(blocked := true)]), r, FilingItem(t, question)),
                  r, x, retryPasses, fuel - 1)
  {
    hide AgentSection;
    FlagSection(s, r, t, question, x);
    var s1 := Standing(s.(agents := s.agents[r := AgentOf(s, r).(blocked := true)]), r, FilingItem(t, question));
    assert AgentOf(s1, r).phase == FilingItem(t, question);
    assert AgentOf(Standing(s, r, Flagging(t, question)), r).phase == Flagging(t, question);
  }

  lemma FlagSection(s: State, r: Role, t: Task, question: string, x: Input)
    ensures AgentSection(Standing(s, r, Flagging(t, question)), r, x)
      == Standing(s.(agents := s.agents[r := AgentOf(s, r).(blocked := true)]), r, FilingItem(t, question))
  {
    hide Perform;
    NoChange(Standing(s, r, Flagging(t, question)));
    var a := AgentOf(s, r);
    assert s.agents[r := a.(phase := Flagging(t, question))][r := a.(phase := FilingItem(t, question), blocked := true)]
      == s.agents[r := a.(blocked := true)][r := a.(phase := FilingItem(t, question), blocked := true)];
  }

  /** A result: report, verify, retry once, then the gate or a question. */
  lemma ResultIsAtomic(s: State, r: Role, t: Task, x: Input, retryPasses: bool)
    requires x.newId !in s.used
    ensures FinishAgent(Standing(s, r, Running(t)), r, x, retryPasses, 8) == AfterResult(s, r, t, x, retryPasses)
  {
    hide FinishAgent, Standing, AfterGate, AfterAsking, AfterReport;
    if x.result.RunSuccess? {
      ReportIsAtomic(s, r, t, x, retryPasses);
      ReportUsesNoId(s, t, x.result.output);
      VerdictIsAtomic(AfterReport(s, t, x.result.output), r, t, x, retryPasses);
    } else if x.result.RunBlocked? {
      BlockedIsAtomic(s, r, t, x, retryPasses);
    } else {
      FailureIsAtomic(s, r, t, x, retryPasses);
    }
  }

  lemma ReportUsesNoId(s: State, t: Task, output: string)
    ensures AfterReport(s, t, output).used == s.used
  {
  }

  lemma BlockedIsAtomic(s: State, r: Role, t: Task, x: Input, retryPasses: bool)
    requires x.newId !in s.used && x.result.RunBlocked?
    ensures FinishAgent(Standing(s, r, Running(t)), r, x, retryPasses, 8) == AfterAsking(s, r, t, x.result.question, x)
  {
    hide FinishAgent, Perform, AfterAsking;
    NoChange(s);
    NextSection(s, r, Running(t), x, retryPasses, 8, NOTHING, Asking(t, x.result.question));
    AskingIsAtomic(s, r, t, x.result.question, x, retryPasses, 7);
  }

  lemma FailureIsAtomic(s: State, r: Role, t: Task, x: Input, retryPasses: bool)
    requires x.result.RunError? || x.result.RunFailure?
    ensures FinishAgent(Standing(s, r, Running(t)), r, x, retryPasses, 8) == Standing(s, r, Idle)
  {
    hide FinishAgent, Perform;
    NoChange(s);
    NextSection(s, r, Running(t), x, retryPasses, 8, NOTHING, Idle);
  }

  lemma ReportIsAtomic(s: State, r: Role, t: Task, x: Input, retryPasses: bool)
    requires x.result.RunSuccess?
    ensures FinishAgent(Standing(s, r, Running(t)), r, x, retryPasses, 8)
      == FinishAgent(Standing(AfterReport(s, t, x.result.output), r, Verifying(t)), r, x, retryPasses, 6)
  {
    hide FinishAgent, Perform, WriteBoard, WriteStore;
    var output := x.result.output;
    BoardSection(s, SetOutput(t.id, output));
    NextSection(s, r, Running(t), x, retryPasses, 8, Writing(SetOutput(t.id, output)), Reported(t));
    var s1 := s.(board := WriteBoard(s.board, SetOutput(t.id, output)).0);
    StoreSection(s1, SaveBoardCopy(t.id));
    NextSection(s1, r, Reported(t), x, retryPasses, 7, Saving(SaveBoardCopy(t.id)), Verifying(t));
  }

  lemma VerdictIsAtomic(s: State, r: Role, t: Task, x: Input, retryPasses: bool)
    requires x.newId !in s.used
    ensures FinishAgent(Standing(s, r, Verifying(t)), r, x, retryPasses, 6) ==
      if x.pass || retryPasses then AfterGate(s, r, t) else AfterAsking(s, r, t, x.text, x)
  {
    hide FinishAgent, Perform, AfterGate, AfterAsking;
    NoChange(s);
    if x.pass {
      NextSection(s, r, Verifying(t), x, retryPasses, 6, NOTHING, Gated(t));
      GateIsAtomic(s, r, t, x, retryPasses, 5);
    } else {
      NextSection(s, r, Verifying(t), x, retryPasses, 6, NOTHING, Retrying(t));
      NextSection(s, r, Retrying(t), x, retryPasses, 5, NOTHING, if retryPasses then Gated(t) else Asking(t, x.text));
      if retryPasses { GateIsAtomic(s, r, t, x, retryPasses, 4); }
      else { AskingIsAtomic(s, r, t, x.text, x, retryPasses, 4); }
    }
  }

  /** Waking: heed the flag, pick the first ready task, give it a branch if it has none. */
  lemma WakeIsAtomic(s: State, r: Role, x: Input, retryPasses: bool)
    requires AgentOf(s, r).phase.Idle? && AgentOf(s, r).permit
    ensures FinishAgent(s, r, x, retryPasses, 4) == AfterWake(s, r, x.branch)
  {
    hide FinishAgent, Perform, NextUnblocked, WriteBoard;
    var s1 := s.(agents := s.agents[r := AgentOf(s, r).(permit := false, phase := Idle)]);
    Wakes(s, r, x, retryPasses, s1);
    NoChange(s1);
    NextSection(s1, r, Woken, x, retryPasses, 3, NOTHING, if AgentOf(s, r).blocked then Idle else Unblocked);
    var pick := NextUnblocked(s.board, WorkColumn(r));
    if AgentOf(s, r).blocked {
      assert Standing(s1, r, Idle) == s1;
    } else if pick.None? {
      NextSection(s1, r, Unblocked, x, retryPasses, 2, NOTHING, Idle);
      assert Standing(s1, r, Idle) == s1;
    } else {
      NextSection(s1, r, Unblocked, x, retryPasses, 2, NOTHING, Picked(pick.value));
      PickedIsAtomic(s1, r, pick.value, x, retryPasses);
    }
  }

  lemma Wakes(s: State, r: Role, x: Input, retryPasses: bool, s1: State)
    requires AgentOf(s, r).phase.Idle? && AgentOf(s, r).permit
    requires s1 == s.(agents := s.agents[r := AgentOf(s, r).(permit := false, phase := Idle)])
    ensures FinishAgent(s, r, x, retryPasses, 4) == FinishAgent(Standing(s1, r, Woken), r, x, retryPasses, 3)
  {
    hide Perform;
    NoChange(s);
    assert s1.agents[r := AgentOf(s, r).(permit := false, phase := Woken)]
      == s.agents[r := AgentOf(s, r).(permit := false, phase := Woken)];
  }

  lemma PickedIsAtomic(s: State, r: Role, t: Task, x: Input, retryPasses: bool)
    ensures FinishAgent(Standing(s, r, Picked(t)), r, x, retryPasses, 1) ==
      if t.branch.Some? then Standing(s, r, Running(t))
      else Standing(s.(board := WriteBoard(s.board, SetBranch(t.id, x.branch)).0,
                       store := s.store[t.id := t.(branch := Some(x.branch))]), r, Running(t))
  {
    hide FinishAgent, Perform, WriteBoard;
    NoChange(s);
    if t.branch.Some? {
      NextSection(s, r, Picked(t), x, retryPasses, 1, NOTHING, Running(t));
    } else {
      BoardSection(s, SetBranch(t.id, x.branch));
      NextSection(s, r, Picked(t), x, retryPasses, 1, Writing(SetBranch(t.id, x.branch)), Branched(t, x.branch));
      var s1 := s.(board := WriteBoard(s.board, SetBranch(t.id, x.branch)).0);
      StoreSection(s1, SaveRecord(t.(branch := Some(x.branch))));
      NextSection(s1, r, Branched(t, x.branch), x, retryPasses, 0, Saving(SaveRecord(t.(branch := Some(x.branch)))), Running(t));
    }
  }
}
