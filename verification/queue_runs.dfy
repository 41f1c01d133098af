/** In every state of every run the review queue is in the order a human is meant to see. */
module QueueRuns {
  import opened Options
  import opened Columns
  import opened Kanban
  import opened ReviewQueues
  import opened Reviews
  import opened Protocol

  lemma WriteKeepsOrder(q: Queue, w: QueueWrite)
    requires InSeenOrder(q)
    ensures InSeenOrder(WriteQueue(q, w))
  {
    hide InSeenOrder, Enqueue, Dequeue, DequeueByTask;
    match w {
      case KeepQueue =>
      case Put(item) => OperateKeepsOrder(q, Arrive(item));
      case DropForTask(taskId) => OperateKeepsOrder(q, TakeTask(taskId));
      case DropItem(itemId) => OperateKeepsOrder(q, TakeId(itemId));
    }
  }

  lemma PerformQueue(s: State, ch: Change)
    ensures Perform(s, ch).queue == WriteQueue(s.queue, ch.queue)
  {
    hide WriteBoard, WriteStore, WriteReviews, WriteQueue, WriteWaiting, WriteSignal;
  }

  lemma PerformKeepsOrder(s: State, ch: Change)
    requires InSeenOrder(s.queue)
    ensures InSeenOrder(Perform(s, ch).queue)
  {
    hide InSeenOrder, Perform, WriteQueue;
    PerformQueue(s, ch);
    WriteKeepsOrder(s.queue, ch.queue);
  }

  lemma SectionsKeepOrder(s: State, r: Role, op: Op, call: Call, x: Input)
    requires InSeenOrder(s.queue)
    ensures InSeenOrder(AgentSection(s, r, x).queue) && InSeenOrder(LoopSection(s, x).queue)
    ensures InSeenOrder(BeginSection(s, op, x).0.queue) && InSeenOrder(ContinueSection(s, call, x).0.queue)
  {
    hide InSeenOrder, Perform, AgentChange, LoopChange, BeginChange, ContinueChange, Deliver;
    PerformKeepsOrder(s, AgentChange(s, r, x).0);
    PerformKeepsOrder(s, LoopChange(s, x).0);
    PerformKeepsOrder(s, BeginChange(s, op, x).0);
    PerformKeepsOrder(s, ContinueChange(s, call, x).0);
  }

  lemma {:induction false} FinishKeepsOrder(s: State, call: Call, x: Input, fuel: nat)
    requires InSeenOrder(s.queue)
    ensures InSeenOrder(Finish(s, call, x, fuel).queue)
    decreases fuel
  {
    hide InSeenOrder, ContinueSection;
    SectionsKeepOrder(s, Coder, OpApprove(""), call, x);
    var (s1, next) := ContinueSection(s, call, x);
    if next.Some? && fuel > 0 { FinishKeepsOrder(s1, next.value, x, fuel - 1); }
  }

  lemma {:induction false} EventKeepsOrder(s: State, x: Input, fuel: nat)
    requires InSeenOrder(s.queue)
    ensures InSeenOrder(FinishEvent(s, x, fuel).queue)
    decreases fuel
  {
    hide InSeenOrder, LoopSection;
    SectionsKeepOrder(s, Coder, OpApprove(""), SignallingBlock, x);
    if !LoopSection(s, x).loop.Listening? && fuel > 0 { EventKeepsOrder(LoopSection(s, x), x, fuel - 1); }
  }

  lemma CallKeepsOrder(s: State, op: Op, x: Input)
    requires InSeenOrder(s.queue)
    ensures InSeenOrder(RunCall(s, op, x).queue)
  {
    hide InSeenOrder, BeginSection, Finish;
    SectionsKeepOrder(s, Coder, op, SignallingBlock, x);
    var (s1, next) := BeginSection(s, op, x);
    if next.Some? { FinishKeepsOrder(s1, next.value, x, CALL_SECTIONS); }
  }

  lemma BootInOrder(s: State, a: Action)
    requires InSeenOrder(s.queue) && a.Restart?
    ensures InSeenOrder(Apply(s, a).queue)
  {
    hide InSeenOrder, FromTasks, Rebuild, QueueItems;
    if CanBoot(s, a.order, a.reviewOrder) { RebuildInOrder(QueueItems(s.reviews, a.reviewOrder)); }
  }

  lemma StepKeepsOrder(s: State, a: Action)
    requires InSeenOrder(s.queue)
    ensures InSeenOrder(Apply(s, a).queue)
  {
    hide InSeenOrder, AgentSection, LoopSection, BeginSection, ContinueSection, RunCall, FinishEvent, CanBoot, Boot;
    if a.AgentStep? { SectionsKeepOrder(s, a.role, OpApprove(""), SignallingBlock, a.input); }
    else if a.LoopStep? { SectionsKeepOrder(s, Coder, OpApprove(""), SignallingBlock, a.input); }
    else if a.Begin? { SectionsKeepOrder(s, Coder, a.op, SignallingBlock, a.input); }
    else if a.Continue? && a.pid in s.calls { SectionsKeepOrder(s, Coder, OpApprove(""), s.calls[a.pid], a.input); }
    else if a.Whole? { CallKeepsOrder(s, a.op, a.input); }
    else if a.WholeEvent? { EventKeepsOrder(s, a.input, EVENT_SECTIONS); }
    else if a.Restart? { BootInOrder(s, a); }
  }

  lemma {:induction false} RunKeepsOrder(states: seq<State>, run: seq<Action>, k: nat)
    requires Trace(states, run, Anything()) && InSeenOrder(states[0].queue) && k < |states|
    ensures InSeenOrder(states[k].queue)
  {
    hide Trace, Apply, InSeenOrder, Anything;
    if k > 0 {
      RunKeepsOrder(states, run, k - 1);
      LastStep(states, run, Anything(), k);
      StepKeepsOrder(states[k - 1], run[k - 1]);
    }
  }

  /**
   * In every interleaving that starts with an empty queue, restarts included: the questions come first,
   * in order of their stamps; then the approvals, those for a buffer further right first, and for one
   * buffer those with the smaller priority number first, and then the older ones.
   */
  lemma QueueStaysInOrder(states: seq<State>, run: seq<Action>, k: nat, i: nat, j: nat)
    requires Trace(states, run, Anything()) && states[0].queue == [] && k < |states| && i < j < |states[k].queue|
    ensures var x, y := states[k].queue[i], states[k].queue[j];
      && (y.kind.AgentQuestion? ==> x.kind.AgentQuestion? && x.createdAt <= y.createdAt)
      && (x.kind.BufferApproval? ==>
            && y.kind.BufferApproval?
            && Index(x.kind.column) >= Index(y.kind.column)
            && (x.kind.column == y.kind.column ==>
                  && x.kind.taskPriority <= y.kind.taskPriority
                  && (x.kind.taskPriority == y.kind.taskPriority ==> x.createdAt <= y.createdAt)))
  {
    hide Trace;
    RunKeepsOrder(states, run, k);
    assert SeenBefore(states[k].queue[i], states[k].queue[j]);
  }
}
