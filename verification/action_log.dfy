/**
 * When what has been recorded on a review item stays recorded: exactly when every pending call that
 * holds a copy of the item read it afterwards.  The counterpart of module Resolution for single actions.
 */
module ActionLogs {
  import opened Options
  import opened Columns
  import opened Kanban
  import opened ReviewQueues
  import opened Reviews
  import opened Protocol
  import opened Agreement
  import opened Sections
  import opened Steps
  import opened Resolution

  /** The item has at least these actions, in this order, before any others. */
  predicate Has(s: State, p: Id, h: seq<ReviewAction>) {
    p in s.reviews && h <= s.reviews[p].actions
  }

  /** The copy of an item that a call will write back, with more actions, in its next section. */
  function CopyIn(call: Call): Option<PersistedItem> {
    match call
    case Recording(_, _, stored) => Some(stored)
    case RecordingAnswer(_, _, stored) => Some(stored)
    case Discussing(stored) => Some(stored)
    case _ => None
  }

  /** The call holds a copy of the item that lacks some of the actions. */
  predicate Misses(call: Call, p: Id, h: seq<ReviewAction>) {
    CopyIn(call).Some? && CopyIn(call).value.id == p && !(h <= CopyIn(call).value.actions)
  }

  ghost predicate OldCopyPending(s: State, p: Id, h: seq<ReviewAction>) {
    exists pid :: pid in s.calls && Misses(s.calls[pid], p, h)
  }

  /** Items are under their own ids, and this one has the actions, its id used up. */
  ghost predicate Logged(s: State, p: Id, h: seq<ReviewAction>) {
    (forall q :: q in s.reviews ==> s.reviews[q].id == q) && p in s.used && Has(s, p, h)
  }

  ghost predicate Secured(s: State, p: Id, h: seq<ReviewAction>) {
    Logged(s, p, h) && !OldCopyPending(s, p, h)
  }

  // ── Sections ──────────────────────────────────────────────────────────────

  lemma PerformLogged(s: State, ch: Change, p: Id, h: seq<ReviewAction>)
    requires Logged(s, p, h) && (ch.review.Some? && ch.review.value.id == p ==> h <= ch.review.value.actions)
    ensures Logged(Perform(s, ch), p, h)
  {
    hide WriteBoard, WriteStore, WriteQueue, WriteWaiting, WriteSignal;
  }

  lemma AgentLogged(s: State, r: Role, x: Input, p: Id, h: seq<ReviewAction>)
    requires Secured(s, p, h)
    ensures Secured(AgentSection(s, r, x), p, h)
  {
    hide AgentChange, Perform, Misses;
    SectionsFileNew(s, r, x);
    PerformLogged(s, AgentChange(s, r, x).0, p, h);
    PerformKeepsCalls(s, AgentChange(s, r, x).0);
  }

  lemma LoopLogged(s: State, x: Input, p: Id, h: seq<ReviewAction>)
    requires Secured(s, p, h)
    ensures Secured(LoopSection(s, x), p, h)
  {
    hide LoopChange, Perform, Misses;
    SectionsFileNew(s, Coder, x);
    PerformLogged(s, LoopChange(s, x).0, p, h);
    PerformKeepsCalls(s, LoopChange(s, x).0);
  }

  lemma {:induction false} EventLogged(s: State, x: Input, p: Id, h: seq<ReviewAction>, fuel: nat)
    requires Secured(s, p, h)
    ensures Secured(FinishEvent(s, x, fuel), p, h)
    decreases fuel
  {
    hide LoopSection, Secured;
    LoopLogged(s, x, p, h);
    if !LoopSection(s, x).loop.Listening? && fuel > 0 { EventLogged(LoopSection(s, x), x, p, h, fuel - 1); }
  }

  /** A copy that a call has just read has all that is recorded. */
  lemma BeginReadsAll(s: State, op: Op, x: Input, p: Id, h: seq<ReviewAction>)
    requires Logged(s, p, h)
    ensures var (ch, next) := BeginChange(s, op, x);
      && (ch.review.Some? ==> ch.review.value.id != p)
      && (next.Some? ==> !Misses(next.value, p, h))
  {
    hide FindColumn, BufferOf, BlockOn, IsUnresolved, Dequeue;
  }

  lemma BeginLogged(s: State, op: Op, x: Input, p: Id, h: seq<ReviewAction>)
    requires Logged(s, p, h)
    ensures var (s1, next) := BeginSection(s, op, x);
      Logged(s1, p, h) && s1.calls == s.calls && (next.Some? ==> !Misses(next.value, p, h))
  {
    hide BeginChange, Perform, Misses, Logged;
    BeginReadsAll(s, op, x, p, h);
    PerformLogged(s, BeginChange(s, op, x).0, p, h);
    PerformKeepsCalls(s, BeginChange(s, op, x).0);
  }

  /** A later section writes its copy with more actions. */
  lemma ContinueWritesAll(s: State, call: Call, x: Input, p: Id, h: seq<ReviewAction>)
    requires !Misses(call, p, h)
    ensures var ch := ContinueChange(s, call, x).0; ch.review.Some? && ch.review.value.id == p ==> h <= ch.review.value.actions
  {
    hide FindColumn, BufferOf, DecideOn, FindUnresolved;
  }

  /** A copy it has just read has all that is recorded. */
  lemma ContinueReadsAll(s: State, call: Call, x: Input, p: Id, h: seq<ReviewAction>)
    requires Logged(s, p, h)
    ensures var next := ContinueChange(s, call, x).1; next.Some? ==> !Misses(next.value, p, h)
  {
    hide FindColumn, BufferOf, DecideOn, IsUnresolved, FindUnresolved, Misses;
    if call.Resolving? { ResolvingReadsAll(s, call.id, x.pick, p, h); }
    else if call.Targeted? { BeginReadsAll(s, OpRejectTo(call.id, call.target, call.feedback), x, p, h); }
    else if call.Answering? { AnsweringReadsAll(s, call.item, call.answer, p, h); }
    else {
      OthersHoldNoCopy(s, call, x);
      NoCopyMissesNothing(ContinueChange(s, call, x).1, p, h);
    }
  }

  lemma ResolvingReadsAll(s: State, id: Id, pick: Id, p: Id, h: seq<ReviewAction>)
    requires Logged(s, p, h)
    ensures var found := FindUnresolved(s.reviews, id, pick);
      found.Some? && found.value.id == p ==> h <= found.value.actions
    ensures var found := FindUnresolved(s.reviews, id, pick); forall d ::
      !Misses(if found.Some? then Recording(id, d, found.value) else Dequeuing(id, d), p, h)
  {
    hide IsUnresolved;
  }

  lemma NoCopyMissesNothing(next: Option<Call>, p: Id, h: seq<ReviewAction>)
    requires next.Some? ==> CopyIn(next.value).None?
    ensures next.Some? ==> !Misses(next.value, p, h)
  {
  }

  lemma AnsweringReadsAll(s: State, item: ReviewItem, answer: string, p: Id, h: seq<ReviewAction>)
    requires Logged(s, p, h)
    ensures !Misses(if item.id in s.reviews then RecordingAnswer(item, answer, s.reviews[item.id]) else Locating(item, answer), p, h)
  {
  }

  lemma OthersHoldNoCopy(s: State, call: Call, x: Input)
    requires !call.Resolving? && !call.Targeted? && !call.Answering?
    ensures var next := ContinueChange(s, call, x).1; next.Some? ==> CopyIn(next.value).None?
  {
    hide FindColumn, DecideOn;
  }

  lemma ContinueLogged(s: State, call: Call, x: Input, p: Id, h: seq<ReviewAction>)
    requires Logged(s, p, h) && !Misses(call, p, h)
    ensures var (s1, next) := ContinueSection(s, call, x);
      Logged(s1, p, h) && s1.calls == s.calls && (next.Some? ==> !Misses(next.value, p, h))
  {
    hide ContinueChange, Perform, Logged, Misses, Deliver;
    ContinueWritesAll(s, call, x, p, h);
    ContinueReadsAll(s, call, x, p, h);
    PerformLogged(s, ContinueChange(s, call, x).0, p, h);
    PerformKeepsCalls(s, ContinueChange(s, call, x).0);
    DeliveredLogged(Perform(s, ContinueChange(s, call, x).0), call, p, h);
  }

  lemma DeliveredLogged(s: State, call: Call, p: Id, h: seq<ReviewAction>)
    requires Logged(s, p, h)
    ensures Logged(s.(agents := Deliver(s.agents, call)), p, h)
  {
    hide Deliver;
  }

  lemma {:induction false} FinishLogged(s: State, call: Call, x: Input, p: Id, h: seq<ReviewAction>, fuel: nat)
    requires Logged(s, p, h) && !Misses(call, p, h)
    ensures Logged(Finish(s, call, x, fuel), p, h) && Finish(s, call, x, fuel).calls == s.calls
    decreases fuel
  {
    hide ContinueSection, Logged, Misses;
    ContinueLogged(s, call, x, p, h);
    var (s1, next) := ContinueSection(s, call, x);
    if next.Some? && fuel > 0 { FinishLogged(s1, next.value, x, p, h, fuel - 1); }
  }

  lemma CallLogged(s: State, op: Op, x: Input, p: Id, h: seq<ReviewAction>)
    requires Secured(s, p, h)
    ensures Secured(RunCall(s, op, x), p, h)
  {
    hide BeginSection, Finish, Logged, Misses;
    BeginLogged(s, op, x, p, h);
    var (s1, next) := BeginSection(s, op, x);
    if next.Some? { FinishLogged(s1, next.value, x, p, h, CALL_SECTIONS); }
  }

  lemma TrackSecured(s: State, pid: nat, next: Option<Call>, p: Id, h: seq<ReviewAction>)
    requires Logged(s, p, h) && !OldCopyPending(s, p, h) && (next.Some? ==> !Misses(next.value, p, h))
    ensures Secured(Track(s, pid, next), p, h)
  {
    hide Misses;
    var s' := Track(s, pid, next);
    forall q | q in s'.calls ensures !Misses(s'.calls[q], p, h) {
      if q != pid { assert q in s.calls && s'.calls[q] == s.calls[q]; }
    }
  }

  lemma CallStepSecured(s: State, a: Action, p: Id, h: seq<ReviewAction>)
    requires Secured(s, p, h) && (a.Begin? || a.Continue?)
    ensures Secured(Apply(s, a), p, h)
  {
    hide BeginSection, ContinueSection, Logged, Misses, Track;
    if a.Begin? && a.pid !in s.calls {
      BeginLogged(s, a.op, a.input, p, h);
      var (s1, next) := BeginSection(s, a.op, a.input);
      TrackSecured(s1, a.pid, next, p, h);
    } else if a.Continue? && a.pid in s.calls {
      assert !Misses(s.calls[a.pid], p, h);
      ContinueLogged(s, s.calls[a.pid], a.input, p, h);
      var (s1, next) := ContinueSection(s, s.calls[a.pid], a.input);
      TrackSecured(s1, a.pid, next, p, h);
    }
  }

  lemma StepSecured(s: State, a: Action, p: Id, h: seq<ReviewAction>)
    requires Secured(s, p, h)
    ensures Secured(Apply(s, a), p, h)
  {
    hide AgentSection, LoopSection, RunCall, FinishEvent, BeginSection, ContinueSection, CanBoot, FromTasks, Rebuild, Misses;
    if a.AgentStep? { AgentLogged(s, a.role, a.input, p, h); }
    else if a.LoopStep? { LoopLogged(s, a.input, p, h); }
    else if a.WholeEvent? { EventLogged(s, a.input, p, h, EVENT_SECTIONS); }
    else if a.Whole? { CallLogged(s, a.op, a.input, p, h); }
    else if a.Begin? || a.Continue? { CallStepSecured(s, a, p, h); }
  }

  lemma {:induction false} RunSecured(s: State, run: seq<Action>, p: Id, h: seq<ReviewAction>)
    requires Secured(s, p, h)
    ensures Secured(Exec(s, run), p, h)
  {
    hide Secured, Apply;
    if run != [] {
      RunSecured(s, run[..|run| - 1], p, h);
      StepSecured(Exec(s, run[..|run| - 1]), run[|run| - 1], p, h);
    }
  }

  // ── The exact condition ───────────────────────────────────────────────────

  /** A time stamp under which the section's own action is not the last of `h`. */
  function OtherTime(h: seq<ReviewAction>): int {
    if h == [] then 0 else h[|h| - 1].stamp + 1
  }

  lemma LastOfExtension(h: seq<ReviewAction>, copy: seq<ReviewAction>, a: ReviewAction)
    requires h <= copy + [a] && !(h <= copy)
    ensures h != [] && h[|h| - 1] == a
  {
    assert forall i :: 0 <= i < |h| && i < |copy| ==> h[i] == (copy + [a])[i];
  }

  lemma NotByOneMore(h: seq<ReviewAction>, copy: seq<ReviewAction>, a: ReviewAction)
    requires !(h <= copy) && a.stamp == OtherTime(h)
    ensures !(h <= copy + [a])
  {
    if h <= copy + [a] { LastOfExtension(h, copy, a); }
  }

  lemma OldCopyLoses(s: State, pid: nat, p: Id, h: seq<ReviewAction>)
    requires pid in s.calls && Misses(s.calls[pid], p, h)
    ensures !Has(Apply(s, Continue(pid, Input("", RunError, false, "", "", "", OtherTime(h), "", false))), p, h)
  {
    hide WriteBoard, WriteStore, WriteQueue, WriteWaiting, WriteSignal, Deliver, OtherTime;
    var x := Input("", RunError, false, "", "", "", OtherTime(h), "", false);
    var call := s.calls[pid];
    if call.Recording? { NotByOneMore(h, call.stored.actions, ActionOf(call.decision, x.now)); }
    else if call.RecordingAnswer? { NotByOneMore(h, call.stored.actions, Answer(x.now, call.answer)); }
  }

  /**
   * What has been recorded on an item stays recorded in every interleaving, restarts included, if and
   * only if every pending call that holds a copy of the item has all of it in its copy.
   */
  lemma ActionsForeverIff(s: State, p: Id, h: seq<ReviewAction>)
    requires ItemsFiled(s) && Has(s, p, h)
    ensures (forall run :: Has(Exec(s, run), p, h)) <==> !OldCopyPending(s, p, h)
  {
    hide Apply, Misses, Exec;
    if OldCopyPending(s, p, h) {
      var pid :| pid in s.calls && Misses(s.calls[pid], p, h);
      OldCopyLoses(s, pid, p, h);
      var a := Continue(pid, Input("", RunError, false, "", "", "", OtherTime(h), "", false));
      OneStep(s, a);
      assert !Has(Exec(s, [a]), p, h);
    } else {
      forall run ensures Has(Exec(s, run), p, h) {
        RunSecured(s, run, p, h);
      }
    }
  }
}
