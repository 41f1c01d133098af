/**
 * When a resolved review item stays resolved: exactly when no half-done discussion holds a copy of it
 * from before it was resolved.  This is read off the pending calls and speaks of every interleaving.
 */
module Resolution {
  import opened Options
  import opened Columns
  import opened Kanban
  import opened ReviewQueues
  import opened Reviews
  import opened Protocol
  import opened Agreement
  import opened Sections
  import opened Steps

  predicate Resolved(s: State, p: Id) {
    p in s.reviews && !IsUnresolved(s.reviews[p])
  }

  /** The call is about to write back a copy of the item taken while it was unresolved. */
  predicate HoldsStale(call: Call, p: Id) {
    call.Discussing? && call.stored.id == p && IsUnresolved(call.stored)
  }

  ghost predicate StalePending(s: State, p: Id) {
    exists pid :: pid in s.calls && HoldsStale(s.calls[pid], p)
  }

  /** Items are under their own ids, and this one is resolved, its id used up. */
  ghost predicate Shelved(s: State, p: Id) {
    (forall q :: q in s.reviews ==> s.reviews[q].id == q) && p in s.used && Resolved(s, p)
  }

  ghost predicate Settled(s: State, p: Id) {
    Shelved(s, p) && !StalePending(s, p)
  }

  // ── Sections ──────────────────────────────────────────────────────────────

  lemma PerformShelved(s: State, ch: Change, p: Id)
    requires Shelved(s, p)
    requires ch.review.Some? && ch.review.value.id == p ==> !IsUnresolved(ch.review.value)
    ensures Shelved(Perform(s, ch), p)
  {
    hide WriteBoard, WriteStore, WriteQueue, WriteWaiting, WriteSignal, IsUnresolved;
  }

  lemma AgentShelved(s: State, r: Role, x: Input, p: Id)
    requires Settled(s, p)
    ensures Settled(AgentSection(s, r, x), p)
  {
    hide AgentChange, Perform, IsUnresolved;
    SectionsFileNew(s, r, x);
    PerformShelved(s, AgentChange(s, r, x).0, p);
    assert AgentSection(s, r, x).calls == s.calls by { PerformKeepsCalls(s, AgentChange(s, r, x).0); }
  }

  lemma LoopShelved(s: State, x: Input, p: Id)
    requires Settled(s, p)
    ensures Settled(LoopSection(s, x), p)
  {
    hide LoopChange, Perform, IsUnresolved;
    SectionsFileNew(s, Coder, x);
    PerformShelved(s, LoopChange(s, x).0, p);
    assert LoopSection(s, x).calls == s.calls by { PerformKeepsCalls(s, LoopChange(s, x).0); }
  }

  lemma {:induction false} EventShelved(s: State, x: Input, p: Id, fuel: nat)
    requires Settled(s, p)
    ensures Settled(FinishEvent(s, x, fuel), p)
    decreases fuel
  {
    hide LoopSection, Settled;
    LoopShelved(s, x, p);
    if !LoopSection(s, x).loop.Listening? && fuel > 0 { EventShelved(LoopSection(s, x), x, p, fuel - 1); }
  }

  /** A new call reads unresolved items only, so never this one. */
  lemma BeginShelved(s: State, op: Op, x: Input, p: Id)
    requires Shelved(s, p)
    ensures var (s1, next) := BeginSection(s, op, x);
      Shelved(s1, p) && s1.calls == s.calls && (next.Some? ==> !HoldsStale(next.value, p))
  {
    hide BeginChange, Perform, HoldsStale, Shelved;
    BeginReads(s, op, x, p);
    BeginFilesNew(s, op, x, p);
    PerformShelved(s, BeginChange(s, op, x).0, p);
    PerformKeepsCalls(s, BeginChange(s, op, x).0);
  }

  lemma BeginFilesNew(s: State, op: Op, x: Input, p: Id)
    requires Shelved(s, p)
    ensures var ch := BeginChange(s, op, x).0; ch.review.Some? ==> ch.review.value.id != p
  {
    hide FindColumn, BufferOf, BlockOn, FindUnresolved, IsUnresolved;
  }

  lemma BeginReads(s: State, op: Op, x: Input, p: Id)
    requires Shelved(s, p)
    ensures var next := BeginChange(s, op, x).1; next.Some? ==> !HoldsStale(next.value, p)
  {
    hide FindColumn, BufferOf, BlockOn, IsUnresolved;
  }

  /** A later section that writes the item writes a decision or an answer with it, or an old copy. */
  lemma ContinueShelved(s: State, call: Call, x: Input, p: Id)
    requires Shelved(s, p) && !HoldsStale(call, p)
    ensures var (s1, next) := ContinueSection(s, call, x);
      Shelved(s1, p) && s1.calls == s.calls && (next.Some? ==> !HoldsStale(next.value, p))
  {
    hide ContinueChange, Perform, Shelved, HoldsStale, Deliver;
    ContinueWrites(s, call, x, p);
    PerformShelved(s, ContinueChange(s, call, x).0, p);
    PerformKeepsCalls(s, ContinueChange(s, call, x).0);
    DeliveredShelved(Perform(s, ContinueChange(s, call, x).0), call, p);
  }

  lemma DeliveredShelved(s: State, call: Call, p: Id)
    requires Shelved(s, p)
    ensures Shelved(s.(agents := Deliver(s.agents, call)), p)
  {
    hide IsUnresolved, Deliver;
  }

  lemma ContinueWrites(s: State, call: Call, x: Input, p: Id)
    requires !HoldsStale(call, p)
    ensures var (ch, next) := ContinueChange(s, call, x);
      && (ch.review.Some? && ch.review.value.id == p ==> !IsUnresolved(ch.review.value))
      && (next.Some? ==> !next.value.Discussing? && !HoldsStale(next.value, p))
  {
    hide ContinueChange, IsUnresolved;
    ContinueReviews(s, call, x);
    NeverDiscusses(s, call, x);
    if call.Recording? { ActionsResolve(call.stored, ActionOf(call.decision, x.now)); }
    else if call.RecordingAnswer? { ActionsResolve(call.stored, Answer(x.now, call.answer)); }
  }

  /** The only reviews a call writes after its first section. */
  lemma ContinueReviews(s: State, call: Call, x: Input)
    ensures ContinueChange(s, call, x).0.review ==
      if call.Recording? then Some(Append(call.stored, ActionOf(call.decision, x.now)))
      else if call.RecordingAnswer? then Some(Append(call.stored, Answer(x.now, call.answer)))
      else if call.Discussing? then Some(call.stored) else None
  {
    hide FindColumn, BufferOf, DecideOn, FindUnresolved, Append, ActionOf;
  }

  lemma NeverDiscusses(s: State, call: Call, x: Input)
    ensures var next := ContinueChange(s, call, x).1; next.Some? ==> !next.value.Discussing?
  {
    hide FindColumn, BufferOf, DecideOn, FindUnresolved, Append, ActionOf;
  }

  lemma {:induction false} FinishShelved(s: State, call: Call, x: Input, p: Id, fuel: nat)
    requires Shelved(s, p) && !HoldsStale(call, p)
    ensures Shelved(Finish(s, call, x, fuel), p) && Finish(s, call, x, fuel).calls == s.calls
    decreases fuel
  {
    hide ContinueSection, Shelved, HoldsStale;
    ContinueShelved(s, call, x, p);
    var (s1, next) := ContinueSection(s, call, x);
    if next.Some? && fuel > 0 { FinishShelved(s1, next.value, x, p, fuel - 1); }
  }

  lemma CallShelved(s: State, op: Op, x: Input, p: Id)
    requires Settled(s, p)
    ensures Settled(RunCall(s, op, x), p)
  {
    hide BeginSection, Finish, Shelved, HoldsStale;
    BeginShelved(s, op, x, p);
    var (s1, next) := BeginSection(s, op, x);
    if next.Some? { FinishShelved(s1, next.value, x, p, CALL_SECTIONS); }
  }

  lemma TrackSettled(s: State, calls: map<nat, Call>, pid: nat, next: Option<Call>, p: Id)
    requires Shelved(s, p) && s.calls == calls && !StalePending(s, p) && (next.Some? ==> !HoldsStale(next.value, p))
    ensures Settled(Track(s, pid, next), p)
  {
    hide HoldsStale, IsUnresolved;
    var s' := Track(s, pid, next);
    forall q | q in s'.calls ensures !HoldsStale(s'.calls[q], p) {
      if q != pid { assert q in s.calls && s'.calls[q] == s.calls[q]; }
    }
  }

  lemma CallStepSettled(s: State, a: Action, p: Id)
    requires Settled(s, p) && (a.Begin? || a.Continue?)
    ensures Settled(Apply(s, a), p)
  {
    hide BeginSection, ContinueSection, Shelved, HoldsStale, Track;
    if a.Begin? && a.pid !in s.calls {
      BeginShelved(s, a.op, a.input, p);
      var (s1, next) := BeginSection(s, a.op, a.input);
      TrackSettled(s1, s.calls, a.pid, next, p);
    } else if a.Continue? && a.pid in s.calls {
      ContinueShelved(s, s.calls[a.pid], a.input, p);
      var (s1, next) := ContinueSection(s, s.calls[a.pid], a.input);
      TrackSettled(s1, s.calls, a.pid, next, p);
    }
  }

  lemma StepSettled(s: State, a: Action, p: Id)
    requires Settled(s, p)
    ensures Settled(Apply(s, a), p)
  {
    hide AgentSection, LoopSection, RunCall, FinishEvent, BeginSection, ContinueSection, IsUnresolved, CanBoot, FromTasks, Rebuild;
    if a.AgentStep? { AgentShelved(s, a.role, a.input, p); }
    else if a.LoopStep? { LoopShelved(s, a.input, p); }
    else if a.WholeEvent? { EventShelved(s, a.input, p, EVENT_SECTIONS); }
    else if a.Whole? { CallShelved(s, a.op, a.input, p); }
    else if a.Begin? || a.Continue? { CallStepSettled(s, a, p); }
  }

  lemma {:induction false} RunSettled(s: State, run: seq<Action>, p: Id)
    requires Settled(s, p)
    ensures Settled(Exec(s, run), p)
  {
    hide Settled, Apply;
    if run != [] {
      RunSettled(s, run[..|run| - 1], p);
      StepSettled(Exec(s, run[..|run| - 1]), run[|run| - 1], p);
    }
  }

  // ── The exact condition ───────────────────────────────────────────────────

  /** A discussion that holds an old copy makes the item unresolved again when it writes it. */
  lemma StaleCopyReopens(s: State, pid: nat, x: Input, p: Id)
    requires pid in s.calls && HoldsStale(s.calls[pid], p)
    ensures p in Apply(s, Continue(pid, x)).reviews && IsUnresolved(Apply(s, Continue(pid, x)).reviews[p])
  {
    hide IsUnresolved, WriteBoard, WriteStore, WriteQueue, WriteWaiting, WriteSignal, Deliver;
  }

  lemma OneStep(s: State, a: Action)
    ensures Exec(s, [a]) == Apply(s, a)
  {
    hide Apply;
    assert [a][..0] == [];
    ExecNothing(s);
  }

  /**
   * A resolved item stays resolved in every interleaving, overlapping calls and restarts included, if
   * and only if no pending discussion holds a copy of it taken while it was unresolved.
   */
  lemma ResolvedForeverIff(s: State, p: Id)
    requires ItemsFiled(s) && Resolved(s, p)
    ensures (forall run :: Resolved(Exec(s, run), p)) <==> !StalePending(s, p)
  {
    hide Apply, HoldsStale, IsUnresolved, Exec;
    if StalePending(s, p) {
      var pid :| pid in s.calls && HoldsStale(s.calls[pid], p);
      var x := Input("", RunError, false, "", "", "", 0, "", false);
      StaleCopyReopens(s, pid, x, p);
      OneStep(s, Continue(pid, x));
      assert !Resolved(Exec(s, [Continue(pid, x)]), p);
    } else {
      forall run ensures Resolved(Exec(s, run), p) {
        RunSettled(s, run, p);
      }
    }
  }

  /** So what is resolved at a boot, when no call is pending, is resolved for good. */
  lemma ResolvedAtBoot(pre: State, order: seq<Id>, reviewOrder: seq<Id>, limits: map<Column, Priority>,
                       run: seq<Action>, p: Id)
    requires ItemsFiled(pre) && CanBoot(pre, order, reviewOrder) && Resolved(pre, p)
    ensures Resolved(Exec(Boot(pre, order, reviewOrder, limits), run), p)
  {
    hide FromTasks, Rebuild, Exec, IsUnresolved;
    RunSettled(Boot(pre, order, reviewOrder, limits), run, p);
  }

  // ── How an item is reopened ───────────────────────────────────────────────

  /** The call is left alone: not continued, and the daemon not restarted. */
  predicate Skips(a: Action, pid: nat) {
    !a.Restart? && !(a.Continue? && a.pid == pid)
  }

  ghost function Skipping(pid: nat): (State, Action) -> bool {
    (s: State, a: Action) => Skips(a, pid)
  }

  lemma PendingStays(s: State, a: Action, pid: nat)
    requires pid in s.calls && Skips(a, pid)
    ensures pid in Apply(s, a).calls && Apply(s, a).calls[pid] == s.calls[pid]
  {
    hide AgentSection, LoopSection, BeginSection, ContinueSection, Finish, FinishEvent;
    if a.AgentStep? { SectionsKeepCalls(s, a.role, OpApprove(""), SignallingBlock, a.input); }
    else if a.LoopStep? { SectionsKeepCalls(s, Coder, OpApprove(""), SignallingBlock, a.input); }
    else if a.WholeEvent? { EventKeepsCalls(s, a.input, EVENT_SECTIONS); }
    else if a.Begin? { SectionsKeepCalls(s, Coder, a.op, SignallingBlock, a.input); }
    else if a.Continue? && a.pid in s.calls { SectionsKeepCalls(s, Coder, OpApprove(""), s.calls[a.pid], a.input); }
    else if a.Whole? { WholeKeepsCalls(s, a.op, a.input); }
  }

  lemma {:induction false} PendingRun(states: seq<State>, run: seq<Action>, k: nat, pid: nat)
    requires Trace(states, run, Skipping(pid)) && pid in states[0].calls && k < |states|
    ensures pid in states[k].calls && states[k].calls[pid] == states[0].calls[pid]
  {
    hide Trace, Apply, Skipping;
    if k > 0 {
      PendingRun(states, run, k - 1, pid);
      LastStep(states, run, Skipping(pid), k);
      SkippingMeans(states[k - 1], run[k - 1], pid);
      PendingStays(states[k - 1], run[k - 1], pid);
    }
  }

  lemma SkippingMeans(s: State, a: Action, pid: nat)
    requires Skipping(pid)(s, a)
    ensures Skips(a, pid)
  {
  }

  /** The discussion of an unresolved item keeps a copy of it with two more comments. */
  lemma DiscussionReads(s: State, pid: nat, taskId: Id, content: string, x: Input)
    requires ItemsFiled(s) && pid !in s.calls && FindUnresolved(s.reviews, taskId, x.pick).Some?
    ensures var s' := Apply(s, Begin(pid, OpDiscuss(taskId, content), x));
      var p := FindUnresolved(s.reviews, taskId, x.pick).value.id;
      pid in s'.calls && HoldsStale(s'.calls[pid], p)
  {
    hide IsUnresolved, WriteBoard, WriteStore, WriteReviews, WriteQueue, WriteWaiting, WriteSignal;
    var item := FindUnresolved(s.reviews, taskId, x.pick).value;
    var a, b := Comment(x.now, true, content), Comment(x.now, false, x.text);
    ActionsResolve(item, a);
    ActionsResolve(Append(item, a), b);
  }

  /**
   * Whatever resolves the item while a discussion of it is half done - approval, rejection or answer,
   * in any run that neither continues the discussion nor restarts - the discussion's last section
   * makes it unresolved again.
   */
  lemma DiscussionReopens(s: State, pid: nat, taskId: Id, content: string, x: Input, y: Input,
                          states: seq<State>, run: seq<Action>, k: nat)
    requires ItemsFiled(s) && pid !in s.calls && FindUnresolved(s.reviews, taskId, x.pick).Some?
    requires Trace(states, run, Skipping(pid)) && k < |states|
    requires states[0] == Apply(s, Begin(pid, OpDiscuss(taskId, content), x))
    ensures var p := FindUnresolved(s.reviews, taskId, x.pick).value.id;
      var s' := Apply(states[k], Continue(pid, y));
      p in s'.reviews && IsUnresolved(s'.reviews[p])
  {
    hide Trace, Apply, ItemsFiled, HoldsStale, FindUnresolved, IsUnresolved;
    DiscussionReads(s, pid, taskId, content, x);
    PendingRun(states, run, k, pid);
    StaleCopyReopens(states[k], pid, y, FindUnresolved(s.reviews, taskId, x.pick).value.id);
  }
}
